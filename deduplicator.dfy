/**
 * The two passes of the deduplicator: dropping later records of a batch
 * whose key was already met, and dropping records the storage backend
 * reports as existing.
 */
module Deduplication {
  import opened Common
  import opened Records

  /** `a` is `b` with some elements removed, the rest kept in order. */
  ghost predicate IsSubsequence<T>(a: seq<T>, b: seq<T>)
    decreases |b|
  {
    if b == [] then a == []
    else (a != [] && a[0] == b[0] && IsSubsequence(a[1..], b[1..])) || IsSubsequence(a, b[1..])
  }

  /** The set of key values carried by the records of `jobs`. */
  function Keys(jobs: seq<Job>, f: KeyField): set<Option<string>> {
    set j | j in jobs :: KeyOf(j, f)
  }

  /** No two records of `jobs` share a key value. */
  predicate KeysDistinct(jobs: seq<Job>, f: KeyField) {
    forall i, j :: 0 <= i < j < |jobs| ==> KeyOf(jobs[i], f) != KeyOf(jobs[j], f)
  }

  /** `jobs[i]` is the first record of `jobs` carrying its key. */
  predicate FirstOccurrence(jobs: seq<Job>, f: KeyField, i: int) {
    0 <= i < |jobs| && KeyOf(jobs[i], f) !in Keys(jobs[..i], f)
  }

  /**
   * The records of `jobs` kept by the batch pass when the keys in `seen` have
   * already been met: each record whose key is new is kept and its key
   * becomes seen.
   */
  function DedupFrom(jobs: seq<Job>, f: KeyField, seen: set<Option<string>>): seq<Job>
    decreases |jobs|
  {
    if jobs == [] then []
    else if KeyOf(jobs[0], f) in seen then DedupFrom(jobs[1..], f, seen)
    else [jobs[0]] + DedupFrom(jobs[1..], f, seen + {KeyOf(jobs[0], f)})
  }

  /** The result of the batch pass on a whole batch. */
  function Dedup(jobs: seq<Job>, f: KeyField): seq<Job> {
    DedupFrom(jobs, f, {})
  }

  /** The records of `jobs` the storage backend does not hold, in order. */
  function Unseen(jobs: seq<Job>, inStore: Job -> bool): seq<Job>
    decreases |jobs|
  {
    if jobs == [] then []
    else (if inStore(jobs[0]) then [] else [jobs[0]]) + Unseen(jobs[1..], inStore)
  }

  /**
   * `Deduplicator.remove_within_batch_duplicates`: walks the batch with a set
   * of keys met so far, appending each record whose key is new.
   */
  method RemoveWithinBatchDuplicates(jobs: seq<Job>, keyField: KeyField) returns (unique: seq<Job>)
    ensures unique == Dedup(jobs, keyField)
  {
    var seen: set<Option<string>> := {};
    unique := [];
    for i := 0 to |jobs|
      invariant unique + DedupFrom(jobs[i..], keyField, seen) == Dedup(jobs, keyField)
    {
      var key := KeyOf(jobs[i], keyField);
      DedupInvariantStep(jobs, keyField, seen, unique, i);
      if key !in seen {
        seen := seen + {key};
        unique := unique + [jobs[i]];
      }
    }
    assert jobs[|jobs|..] == [];
  }

  /** One step of the batch pass, at position `i` of the batch: the loop invariant carries over. */
  lemma DedupInvariantStep(jobs: seq<Job>, f: KeyField, seen: set<Option<string>>, unique: seq<Job>, i: int)
    requires 0 <= i < |jobs|
    requires unique + DedupFrom(jobs[i..], f, seen) == Dedup(jobs, f)
    ensures KeyOf(jobs[i], f) in seen ==> unique + DedupFrom(jobs[i + 1..], f, seen) == Dedup(jobs, f)
    ensures KeyOf(jobs[i], f) !in seen ==>
      (unique + [jobs[i]]) + DedupFrom(jobs[i + 1..], f, seen + {KeyOf(jobs[i], f)}) == Dedup(jobs, f)
  {
    assert jobs[i..][0] == jobs[i] && jobs[i..][1..] == jobs[i + 1..];
    if KeyOf(jobs[i], f) !in seen {
      var rest := DedupFrom(jobs[i + 1..], f, seen + {KeyOf(jobs[i], f)});
      assert (unique + [jobs[i]]) + rest == unique + ([jobs[i]] + rest);
    }
  }

  /**
   * `Deduplicator.filter_new_jobs`: keeps the records the storage backend
   * does not report as existing, and counts the ones it skips. The backend's
   * existence check `inStore` receives the whole record, not its key.
   */
  method FilterNewJobs(jobs: seq<Job>, inStore: Job -> bool) returns (newJobs: seq<Job>, seenCount: nat)
    ensures newJobs == Unseen(jobs, inStore)
    ensures seenCount + |newJobs| == |jobs|
  {
    newJobs := [];
    seenCount := 0;
    for i := 0 to |jobs|
      invariant newJobs + Unseen(jobs[i..], inStore) == Unseen(jobs, inStore)
      invariant seenCount + |newJobs| == i
    {
      assert jobs[i..][0] == jobs[i] && jobs[i..][1..] == jobs[i + 1..];
      if !inStore(jobs[i]) {
        newJobs := newJobs + [jobs[i]];
      } else {
        seenCount := seenCount + 1;
      }
    }
    assert jobs[|jobs|..] == [];
  }

  // ---------------------------------------------------------------------
  // Properties of the batch pass

  lemma {:induction false} DedupFromIsSubsequence(jobs: seq<Job>, f: KeyField, seen: set<Option<string>>)
    ensures IsSubsequence(DedupFrom(jobs, f, seen), jobs)
    decreases |jobs|
  {
    if jobs != [] {
      if KeyOf(jobs[0], f) in seen {
        DedupFromIsSubsequence(jobs[1..], f, seen);
      } else {
        DedupFromIsSubsequence(jobs[1..], f, seen + {KeyOf(jobs[0], f)});
        var r := DedupFrom(jobs, f, seen);
        assert r[0] == jobs[0] && r[1..] == DedupFrom(jobs[1..], f, seen + {KeyOf(jobs[0], f)});
      }
    }
  }

  /** The batch pass returns a subsequence of its input, in the input's order. */
  lemma DedupIsSubsequence(jobs: seq<Job>, f: KeyField)
    ensures IsSubsequence(Dedup(jobs, f), jobs)
  {
    DedupFromIsSubsequence(jobs, f, {});
  }

  lemma KeysCons(jobs: seq<Job>, f: KeyField)
    requires jobs != []
    ensures Keys(jobs, f) == {KeyOf(jobs[0], f)} + Keys(jobs[1..], f)
  {
    assert jobs == [jobs[0]] + jobs[1..];
  }

  lemma AddSeenKey<T>(k: T, rest: set<T>, seen: set<T>)
    requires k !in seen
    ensures {k} + (rest - (seen + {k})) == ({k} + rest) - seen
  {
  }

  lemma SkipSeenKey<T>(k: T, rest: set<T>, seen: set<T>)
    requires k in seen
    ensures rest - seen == ({k} + rest) - seen
  {
  }

  lemma {:induction false} DedupFromKeys(jobs: seq<Job>, f: KeyField, seen: set<Option<string>>)
    ensures Keys(DedupFrom(jobs, f, seen), f) == Keys(jobs, f) - seen
    decreases |jobs|
  {
    if jobs != [] {
      var k, tail := KeyOf(jobs[0], f), jobs[1..];
      KeysCons(jobs, f);
      if k in seen {
        DedupFromKeys(tail, f, seen);
        SkipSeenKey(k, Keys(tail, f), seen);
      } else {
        var r := DedupFrom(jobs, f, seen);
        DedupFromKeys(tail, f, seen + {k});
        KeysCons(r, f);
        assert r[0] == jobs[0] && r[1..] == DedupFrom(tail, f, seen + {k});
        AddSeenKey(k, Keys(tail, f), seen);
      }
    }
  }

  lemma {:induction false} DedupFromDistinct(jobs: seq<Job>, f: KeyField, seen: set<Option<string>>)
    ensures KeysDistinct(DedupFrom(jobs, f, seen), f)
    decreases |jobs|
  {
    if jobs != [] {
      var k := KeyOf(jobs[0], f);
      if k in seen {
        DedupFromDistinct(jobs[1..], f, seen);
      } else {
        var rest := DedupFrom(jobs[1..], f, seen + {k});
        DedupFromDistinct(jobs[1..], f, seen + {k});
        DedupFromKeys(jobs[1..], f, seen + {k});
        var r := [jobs[0]] + rest;
        forall i, j | 0 <= i < j < |r|
          ensures KeyOf(r[i], f) != KeyOf(r[j], f)
        {
          if i == 0 {
            assert r[j] == rest[j - 1];
            assert KeyOf(rest[j - 1], f) in Keys(rest, f);
          } else {
            assert r[i] == rest[i - 1] && r[j] == rest[j - 1];
          }
        }
      }
    }
  }

  /** No two records of the batch pass's result share a key value. */
  lemma DedupKeysDistinct(jobs: seq<Job>, f: KeyField)
    ensures KeysDistinct(Dedup(jobs, f), f)
  {
    DedupFromDistinct(jobs, f, {});
  }

  /** Every key value of the input is carried by some record of the result, and no other. */
  lemma DedupKeepsEveryKey(jobs: seq<Job>, f: KeyField)
    ensures Keys(Dedup(jobs, f), f) == Keys(jobs, f)
  {
    DedupFromKeys(jobs, f, {});
  }

  lemma {:induction false} DedupFromKeepsFirst(jobs: seq<Job>, f: KeyField, seen: set<Option<string>>, i: int)
    requires FirstOccurrence(jobs, f, i) && KeyOf(jobs[i], f) !in seen
    ensures jobs[i] in DedupFrom(jobs, f, seen)
    decreases |jobs|
  {
    var k := KeyOf(jobs[0], f);
    if i > 0 {
      var tail := jobs[1..];
      assert tail[i - 1] == jobs[i];
      assert Keys(tail[..i - 1], f) <= Keys(jobs[..i], f) by {
        forall x | x in tail[..i - 1] ensures x in jobs[..i] {
          var m :| 0 <= m < i - 1 && tail[..i - 1][m] == x;
          assert jobs[..i][m + 1] == x;
        }
      }
      assert k in Keys(jobs[..i], f) by { assert jobs[..i][0] == jobs[0]; }
      if k in seen {
        DedupFromKeepsFirst(tail, f, seen, i - 1);
      } else {
        DedupFromKeepsFirst(tail, f, seen + {k}, i - 1);
      }
    }
  }

  /** The first record carrying each key value is the one the result keeps. */
  lemma DedupKeepsFirstOccurrence(jobs: seq<Job>, f: KeyField, i: int)
    requires FirstOccurrence(jobs, f, i)
    ensures jobs[i] in Dedup(jobs, f)
  {
    DedupFromKeepsFirst(jobs, f, {}, i);
  }

  lemma {:induction false} DistinctFixpoint(jobs: seq<Job>, f: KeyField, seen: set<Option<string>>)
    requires KeysDistinct(jobs, f) && Keys(jobs, f) !! seen
    ensures DedupFrom(jobs, f, seen) == jobs
    decreases |jobs|
  {
    if jobs != [] {
      var k := KeyOf(jobs[0], f);
      assert k in Keys(jobs, f);
      assert Keys(jobs[1..], f) !! seen + {k} by {
        forall x | x in jobs[1..] ensures KeyOf(x, f) != k && KeyOf(x, f) !in seen {
          var m :| 0 <= m < |jobs[1..]| && jobs[1..][m] == x;
          assert jobs[m + 1] == x;
        }
      }
      DistinctFixpoint(jobs[1..], f, seen + {k});
    }
  }

  lemma DistinctCons(jobs: seq<Job>, f: KeyField, seen: set<Option<string>>)
    requires jobs != [] && KeyOf(jobs[0], f) !in seen
    requires KeysDistinct(jobs[1..], f) && Keys(jobs[1..], f) !! seen + {KeyOf(jobs[0], f)}
    ensures KeysDistinct(jobs, f) && Keys(jobs, f) !! seen
  {
    var tail := jobs[1..];
    forall i, j | 0 <= i < j < |jobs| ensures KeyOf(jobs[i], f) != KeyOf(jobs[j], f) {
      assert jobs[j] == tail[j - 1];
      if i > 0 {
        assert jobs[i] == tail[i - 1];
      } else {
        assert KeyOf(tail[j - 1], f) in Keys(tail, f);
      }
    }
    KeysCons(jobs, f);
  }

  lemma {:induction false} DedupFromLength(jobs: seq<Job>, f: KeyField, seen: set<Option<string>>)
    ensures |DedupFrom(jobs, f, seen)| <= |jobs|
    ensures |DedupFrom(jobs, f, seen)| == |jobs| ==> KeysDistinct(jobs, f) && Keys(jobs, f) !! seen
    decreases |jobs|
  {
    if jobs != [] {
      var k := KeyOf(jobs[0], f);
      if k in seen {
        DedupFromLength(jobs[1..], f, seen);
      } else {
        DedupFromLength(jobs[1..], f, seen + {k});
        if |DedupFrom(jobs, f, seen)| == |jobs| {
          DistinctCons(jobs, f, seen);
        }
      }
    }
  }

  /**
   * The result is no longer than the input, and exactly as long iff the
   * input's keys are already distinct, in which case it is the input itself.
   */
  lemma DedupLength(jobs: seq<Job>, f: KeyField)
    ensures |Dedup(jobs, f)| <= |jobs|
    ensures |Dedup(jobs, f)| == |jobs| <==> KeysDistinct(jobs, f)
    ensures KeysDistinct(jobs, f) ==> Dedup(jobs, f) == jobs
  {
    DedupFromLength(jobs, f, {});
    if KeysDistinct(jobs, f) {
      DistinctFixpoint(jobs, f, {});
    }
    assert Keys(jobs, f) !! {};
  }

  /** Running the batch pass twice gives what running it once gives. */
  lemma DedupIdempotent(jobs: seq<Job>, f: KeyField)
    ensures Dedup(Dedup(jobs, f), f) == Dedup(jobs, f)
  {
    DedupKeysDistinct(jobs, f);
    DistinctFixpoint(Dedup(jobs, f), f, {});
  }

  // ---------------------------------------------------------------------
  // Properties of the storage filter

  /** The filter returns a subsequence of its input, in the input's order. */
  lemma {:induction false} UnseenIsSubsequence(jobs: seq<Job>, inStore: Job -> bool)
    ensures IsSubsequence(Unseen(jobs, inStore), jobs)
    decreases |jobs|
  {
    if jobs != [] {
      UnseenIsSubsequence(jobs[1..], inStore);
      var r := Unseen(jobs, inStore);
      if !inStore(jobs[0]) {
        assert r == [jobs[0]] + Unseen(jobs[1..], inStore);
        assert r[0] == jobs[0] && r[1..] == Unseen(jobs[1..], inStore);
      } else {
        assert r == Unseen(jobs[1..], inStore);
      }
    }
  }

  /**
   * The filter keeps every occurrence of each record the backend does not
   * hold and no occurrence of any record it holds.
   */
  lemma {:induction false} UnseenCounts(jobs: seq<Job>, inStore: Job -> bool, x: Job)
    ensures multiset(Unseen(jobs, inStore))[x] == if inStore(x) then 0 else multiset(jobs)[x]
    decreases |jobs|
  {
    if jobs != [] {
      var tail := jobs[1..];
      UnseenCounts(tail, inStore, x);
      var head := if inStore(jobs[0]) then [] else [jobs[0]];
      assert Unseen(jobs, inStore) == head + Unseen(tail, inStore);
      assert multiset(Unseen(jobs, inStore)) == multiset(head) + multiset(Unseen(tail, inStore));
      assert jobs == [jobs[0]] + tail;
      assert multiset(jobs) == multiset{jobs[0]} + multiset(tail);
    }
  }

  /** The filter never lengthens the batch. */
  lemma {:induction false} UnseenLength(jobs: seq<Job>, inStore: Job -> bool)
    ensures |Unseen(jobs, inStore)| <= |jobs|
    decreases |jobs|
  {
    if jobs != [] {
      UnseenLength(jobs[1..], inStore);
    }
  }

  /** A record is in the filter's result iff it is in the input and the backend does not hold it. */
  lemma UnseenMembership(jobs: seq<Job>, inStore: Job -> bool, x: Job)
    ensures x in Unseen(jobs, inStore) <==> x in jobs && !inStore(x)
  {
    UnseenCounts(jobs, inStore, x);
    assert x in Unseen(jobs, inStore) <==> multiset(Unseen(jobs, inStore))[x] > 0;
    assert x in jobs <==> multiset(jobs)[x] > 0;
  }
}

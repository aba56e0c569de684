/**
 * The job-type backfill script: a keyword classifier over a posting's
 * description and salary, the loop that fills in missing `job_type` values
 * of the loaded job list, and the loop that tallies the types.
 */
module Backfill {
  import opened Common

  // ---------------------------------------------------------------------
  // Text matching

  /** ASCII lower-casing of one character. */
  function LowerChar(c: char): char {
    if 'A' <= c <= 'Z' then (c as int + 32) as char else c
  }

  /** `s.lower()`, for ASCII letters. */
  function Lower(s: string): string {
    seq(|s|, i requires 0 <= i < |s| => LowerChar(s[i]))
  }

  predicate StartsWith(s: string, prefix: string) {
    |prefix| <= |s| && s[..|prefix|] == prefix
  }

  /** `needle in s`: the substring test. */
  predicate Contains(s: string, needle: string)
    decreases |s|
  {
    StartsWith(s, needle) || (s != [] && Contains(s[1..], needle))
  }

  /** `any(keyword in text for keyword in keywords)`. */
  predicate AnyIn(keywords: seq<string>, text: string) {
    exists kw :: kw in keywords && Contains(text, kw)
  }

  // ---------------------------------------------------------------------
  // The classifier

  /** The four labels the classifier can produce. */
  datatype JobKind = ContractTemp | Casual | PartTime | FullTime

  function Label(k: JobKind): string {
    match k
    case ContractTemp => "Contract/Temp"
    case Casual => "Casual"
    case PartTime => "Part-time"
    case FullTime => "Full-time"
  }

  const ContractKeywords: seq<string> := ["contract", "contractor", "temp", "temporary", "fixed term", "fixed-term"]
  const CasualKeywords: seq<string> := ["casual", "vacation", "on call", "on-call", "relief", "fill-in"]
  const PartTimeKeywords: seq<string> := ["part time", "part-time", "p/t", "pt ", "parttime"]
  const FullTimeKeywords: seq<string> := ["full time", "full-time", "f/t", "ft ", "fulltime", "permanent", "ongoing"]

  /** The text searched: the lower-cased description, then a space and the lower-cased salary if there is one. */
  function AnalysedText(description: string, salary: Option<string>): string {
    Lower(description) + (if Truthy(salary) then " " + Lower(salary.value) else "")
  }

  /** `infer_job_type(description, salary)`. */
  function InferJobType(description: Option<string>, salary: Option<string>): JobKind {
    if !Truthy(description) then FullTime
    else
      var text := AnalysedText(description.value, salary);
      if AnyIn(ContractKeywords, text) then ContractTemp
      else if AnyIn(CasualKeywords, text) then Casual
      else if AnyIn(PartTimeKeywords, text) then PartTime
      else if AnyIn(FullTimeKeywords, text) then FullTime
      else FullTime
  }

  // ---------------------------------------------------------------------
  // The loaded job list

  /** A JSON string member of a job object: missing, `null`, or a string. */
  datatype JsonText = Absent | Null | Text(s: string)

  /** The members of a stored job object that the backfill reads or writes. */
  datatype StoredJob = StoredJob(jobType: JsonText, description: JsonText, salary: JsonText)

  /** `not job.get('job_type')`. */
  predicate MissingType(job: StoredJob) {
    !(job.jobType.Text? && job.jobType.s != "")
  }

  /** `job.get('description', '')`: the default only replaces a missing member. */
  function DescriptionArg(job: StoredJob): Option<string> {
    match job.description
    case Absent => Some("")
    case Null => None
    case Text(s) => Some(s)
  }

  /** `job.get('salary')`. */
  function SalaryArg(job: StoredJob): Option<string> {
    match job.salary
    case Text(s) => Some(s)
    case _ => None
  }

  /** A job as the backfill loop leaves it. */
  function Backfilled(job: StoredJob): (r: StoredJob)
    ensures !MissingType(r)
    ensures !MissingType(job) ==> r == job
    ensures r.description == job.description && r.salary == job.salary
  {
    if MissingType(job) then job.(jobType := Text(Label(InferJobType(DescriptionArg(job), SalaryArg(job)))))
    else job
  }

  /** `missing_count`: the number of jobs without a truthy `job_type`. */
  function MissingCount(jobs: seq<StoredJob>): nat
    decreases |jobs|
  {
    if jobs == [] then 0
    else MissingCount(jobs[..|jobs| - 1]) + (if MissingType(jobs[|jobs| - 1]) then 1 else 0)
  }

  /**
   * The fill loop of the backfill script, on the loaded list: every job
   * without a truthy `job_type` gets the inferred label, the others are left
   * alone, and the number updated equals the number counted as missing.
   */
  method BackfillJobTypes(jobs: array<StoredJob>) returns (missingCount: nat, updatedCount: nat)
    modifies jobs
    ensures forall i :: 0 <= i < jobs.Length ==> jobs[i] == Backfilled(old(jobs[i]))
    ensures forall i :: 0 <= i < jobs.Length ==> !MissingType(jobs[i])
    ensures missingCount == MissingCount(old(jobs[..])) && updatedCount == missingCount
  {
    missingCount := MissingCount(jobs[..]);
    updatedCount := 0;
    for i := 0 to jobs.Length
      invariant forall k :: 0 <= k < i ==> jobs[k] == Backfilled(old(jobs[k]))
      invariant forall k :: i <= k < jobs.Length ==> jobs[k] == old(jobs[k])
      invariant updatedCount == MissingCount(old(jobs[..])[..i])
    {
      assert old(jobs[..])[..i + 1][..i] == old(jobs[..])[..i];
      if MissingType(jobs[i]) {
        var kind := InferJobType(DescriptionArg(jobs[i]), SalaryArg(jobs[i]));
        jobs[i] := jobs[i].(jobType := Text(Label(kind)));
        updatedCount := updatedCount + 1;
      }
    }
    assert old(jobs[..])[..jobs.Length] == old(jobs[..]);
  }

  // ---------------------------------------------------------------------
  // The distribution

  /** `job.get('job_type', 'Unknown')`; `None` stands for a JSON `null`. */
  function TypeKey(job: StoredJob): Option<string> {
    match job.jobType
    case Absent => Some("Unknown")
    case Null => None
    case Text(s) => Some(s)
  }

  function TypeKeys(jobs: seq<StoredJob>): set<Option<string>> {
    set j | j in jobs :: TypeKey(j)
  }

  /** The number of jobs whose distribution key is `key`. */
  function Occurrences(jobs: seq<StoredJob>, key: Option<string>): nat
    decreases |jobs|
  {
    if jobs == [] then 0
    else Occurrences(jobs[..|jobs| - 1], key) + (if TypeKey(jobs[|jobs| - 1]) == key then 1 else 0)
  }

  /** Adds one to the count of `key`, which starts at zero. */
  function Bump(counts: map<Option<string>, nat>, key: Option<string>): map<Option<string>, nat> {
    counts[key := (if key in counts then counts[key] else 0) + 1]
  }

  /** The counts after the tally loop has seen `jobs`. */
  function Tally(jobs: seq<StoredJob>): map<Option<string>, nat>
    decreases |jobs|
  {
    if jobs == [] then map[] else Bump(Tally(jobs[..|jobs| - 1]), TypeKey(jobs[|jobs| - 1]))
  }

  ghost function PickKey(m: map<Option<string>, nat>): Option<string>
    requires m != map[]
  {
    var k :| k in m; k
  }

  /** The sum of the counts of a map. */
  ghost function Total(m: map<Option<string>, nat>): nat
    decreases |m.Keys|
  {
    if m == map[] then 0
    else
      var k := PickKey(m);
      assert m.Keys == (m - {k}).Keys + {k};
      m[k] + Total(m - {k})
  }

  /**
   * The distribution loop: `type_counts[jt] = type_counts.get(jt, 0) + 1`
   * for every job; its keys are exactly the keys met, each count is the
   * number of jobs with that key, and the counts sum to the number of jobs.
   */
  method CountTypes(jobs: seq<StoredJob>) returns (typeCounts: map<Option<string>, nat>)
    ensures typeCounts.Keys == TypeKeys(jobs)
    ensures forall k :: k in typeCounts ==> typeCounts[k] == Occurrences(jobs, k)
    ensures Total(typeCounts) == |jobs|
  {
    typeCounts := map[];
    for i := 0 to |jobs|
      invariant typeCounts == Tally(jobs[..i])
    {
      assert jobs[..i + 1][..i] == jobs[..i];
      var jt := TypeKey(jobs[i]);
      typeCounts := typeCounts[jt := (if jt in typeCounts then typeCounts[jt] else 0) + 1];
    }
    assert jobs[..|jobs|] == jobs;
    TallyCounts(jobs);
    TallyTotal(jobs);
  }

  // ---------------------------------------------------------------------
  // Properties

  /**
   * The priority order of the classifier: a contract keyword wins over all
   * others, a casual keyword over part-time and full-time ones, a part-time
   * keyword over full-time ones; with none of the first three, and for a
   * falsy description, the result is full-time whether or not a full-time
   * keyword occurs.
   */
  lemma InferencePriority(description: Option<string>, salary: Option<string>)
    ensures !Truthy(description) ==> InferJobType(description, salary) == FullTime
    ensures Truthy(description) ==>
      var text := AnalysedText(description.value, salary);
      && (InferJobType(description, salary) == ContractTemp <==> AnyIn(ContractKeywords, text))
      && (InferJobType(description, salary) == Casual <==>
            !AnyIn(ContractKeywords, text) && AnyIn(CasualKeywords, text))
      && (InferJobType(description, salary) == PartTime <==>
            !AnyIn(ContractKeywords, text) && !AnyIn(CasualKeywords, text) && AnyIn(PartTimeKeywords, text))
      && (InferJobType(description, salary) == FullTime <==>
            !AnyIn(ContractKeywords, text) && !AnyIn(CasualKeywords, text) && !AnyIn(PartTimeKeywords, text))
  {
  }

  /** The label written back is one of the four known labels. */
  lemma LabelIsKnown(description: Option<string>, salary: Option<string>)
    ensures Label(InferJobType(description, salary)) in ["Contract/Temp", "Casual", "Part-time", "Full-time"]
  {
  }

  lemma {:induction false} ContainsInSuffix(a: string, b: string, needle: string)
    requires Contains(b, needle)
    ensures Contains(a + b, needle)
    decreases |a|
  {
    if a == [] {
      assert a + b == b;
    } else {
      ContainsInSuffix(a[1..], b, needle);
      assert (a + b)[1..] == a[1..] + b;
    }
  }

  /** A keyword that occurs only in the salary text still counts. */
  lemma SalaryKeywordCounts(description: string, salary: string, keywords: seq<string>, kw: string)
    requires salary != "" && kw in keywords && Contains(Lower(salary), kw)
    ensures AnyIn(keywords, AnalysedText(description, Some(salary)))
  {
    ContainsInSuffix(Lower(description) + " ", Lower(salary), kw);
    assert AnalysedText(description, Some(salary)) == (Lower(description) + " ") + Lower(salary);
  }

  /** In particular, a contract keyword in the salary makes the job Contract/Temp. */
  lemma ContractKeywordInSalary(description: string, salary: string, kw: string)
    requires description != "" && salary != ""
    requires kw in ContractKeywords && Contains(Lower(salary), kw)
    ensures InferJobType(Some(description), Some(salary)) == ContractTemp
  {
    SalaryKeywordCounts(description, salary, ContractKeywords, kw);
  }

  lemma LowerIdempotent(s: string)
    ensures Lower(Lower(s)) == Lower(s)
  {
  }

  function LowerOpt(s: Option<string>): Option<string> {
    match s
    case Some(v) => Some(Lower(v))
    case None => None
  }

  /** The classification does not depend on the case of the ASCII letters of its inputs. */
  lemma CaseInsensitive(description: Option<string>, salary: Option<string>)
    ensures InferJobType(LowerOpt(description), LowerOpt(salary)) == InferJobType(description, salary)
  {
    if Truthy(description) {
      LowerIdempotent(description.value);
      if Truthy(salary) {
        LowerIdempotent(salary.value);
      }
      assert AnalysedText(LowerOpt(description).value, LowerOpt(salary))
          == AnalysedText(description.value, salary);
    }
  }

  /** Backfilling a job that has been backfilled changes nothing. */
  lemma BackfillIdempotent(job: StoredJob)
    ensures Backfilled(Backfilled(job)) == Backfilled(job)
    ensures !MissingType(Backfilled(job))
    ensures !MissingType(job) ==> Backfilled(job) == job
  {
  }

  lemma TotalRemove(m: map<Option<string>, nat>, k: Option<string>)
    requires k in m
    ensures Total(m) == m[k] + Total(m - {k})
    decreases |m.Keys|
  {
    var j := PickKey(m);
    if j != k {
      assert m.Keys == (m - {j}).Keys + {j};
      assert (m - {k}).Keys == (m - {k} - {j}).Keys + {j};
      TotalRemove(m - {j}, k);
      TotalRemove(m - {k}, j);
      assert m - {j} - {k} == m - {k} - {j};
    }
  }

  lemma TotalBump(m: map<Option<string>, nat>, k: Option<string>)
    ensures Total(Bump(m, k)) == Total(m) + 1
  {
    var b := Bump(m, k);
    TotalRemove(b, k);
    if k in m {
      TotalRemove(m, k);
      assert b - {k} == m - {k};
    } else {
      assert b - {k} == m;
    }
  }

  /** The tally of a list holds exactly its keys, each with its number of occurrences. */
  lemma {:induction false} TallyCounts(jobs: seq<StoredJob>)
    ensures Tally(jobs).Keys == TypeKeys(jobs)
    ensures forall k :: k in Tally(jobs) ==> Tally(jobs)[k] == Occurrences(jobs, k)
    decreases |jobs|
  {
    if jobs != [] {
      var init := jobs[..|jobs| - 1];
      TallyCounts(init);
      assert jobs == init + [jobs[|jobs| - 1]];
      assert TypeKeys(jobs) == TypeKeys(init) + {TypeKey(jobs[|jobs| - 1])};
      forall k | k in Tally(jobs) ensures Tally(jobs)[k] == Occurrences(jobs, k) {
        if k !in Tally(init) {
          OccurrencesAbsent(init, k);
        }
      }
    }
  }

  lemma {:induction false} OccurrencesAbsent(jobs: seq<StoredJob>, k: Option<string>)
    requires k !in TypeKeys(jobs)
    ensures Occurrences(jobs, k) == 0
    decreases |jobs|
  {
    if jobs != [] {
      var init := jobs[..|jobs| - 1];
      assert TypeKeys(init) <= TypeKeys(jobs) by {
        forall j | j in init ensures j in jobs { }
      }
      assert jobs[|jobs| - 1] in jobs;
      OccurrencesAbsent(init, k);
    }
  }

  /** The counts of the distribution sum to the number of jobs. */
  lemma {:induction false} TallyTotal(jobs: seq<StoredJob>)
    ensures Total(Tally(jobs)) == |jobs|
    decreases |jobs|
  {
    if jobs != [] {
      TallyTotal(jobs[..|jobs| - 1]);
      TotalBump(Tally(jobs[..|jobs| - 1]), TypeKey(jobs[|jobs| - 1]));
    }
  }
}

/**
 * Optional API-key authentication: the key list read from the `API_KEYS`
 * environment variable, whether authentication is enabled, and the decision
 * taken on a request's `X-API-Key` header.
 */
module Auth {
  import opened Common

  // ---------------------------------------------------------------------
  // Python string primitives used by the key parsing

  /** The characters for which Python's `str.isspace()` is true. */
  predicate IsSpace(c: char) {
    c == ' ' || ('\U{9}' <= c <= '\U{D}') || ('\U{1C}' <= c <= '\U{1F}')
    || c == '\U{85}' || c == '\U{A0}' || c == '\U{1680}'
    || ('\U{2000}' <= c <= '\U{200A}') || c == '\U{2028}' || c == '\U{2029}'
    || c == '\U{202F}' || c == '\U{205F}' || c == '\U{3000}'
  }

  /** `s.lstrip()`: `s` without its leading whitespace. */
  function TrimLeft(s: string): (r: string)
    ensures |r| <= |s| && r == s[|s| - |r|..]
    ensures forall i :: 0 <= i < |s| - |r| ==> IsSpace(s[i])
    ensures r == [] || !IsSpace(r[0])
    decreases |s|
  {
    if s != [] && IsSpace(s[0]) then TrimLeft(s[1..]) else s
  }

  /** `s.rstrip()`: `s` without its trailing whitespace. */
  function TrimRight(s: string): (r: string)
    ensures |r| <= |s| && r == s[..|r|]
    ensures forall i :: |r| <= i < |s| ==> IsSpace(s[i])
    ensures r == [] || !IsSpace(r[|r| - 1])
    decreases |s|
  {
    if s != [] && IsSpace(s[|s| - 1]) then TrimRight(s[..|s| - 1]) else s
  }

  /** `s.strip()`. */
  function Strip(s: string): (r: string)
    ensures r == [] || (!IsSpace(r[0]) && !IsSpace(r[|r| - 1]))
    ensures r == [] <==> forall i :: 0 <= i < |s| ==> IsSpace(s[i])
  {
    var left := TrimLeft(s);
    var r := TrimRight(left);
    assert r != [] ==> r[0] == left[0];
    assert r == [] ==> left == [];
    r
  }

  /**
   * The stripped string is the string minus its surrounding whitespace: a
   * slice of it, with only whitespace before and after.
   */
  lemma StripIsSlice(s: string)
    ensures exists i, j ::
      (0 <= i <= j <= |s| && Strip(s) == s[i..j]
       && (forall k :: 0 <= k < i ==> IsSpace(s[k]))
       && (forall k :: j <= k < |s| ==> IsSpace(s[k])))
  {
    var i, j := StripBounds(s);
    assert 0 <= i <= j <= |s| && Strip(s) == s[i..j]
      && (forall k :: 0 <= k < i ==> IsSpace(s[k]))
      && (forall k :: j <= k < |s| ==> IsSpace(s[k]));
  }

  /** Where the stripped part of `s` starts and ends. */
  lemma StripBounds(s: string) returns (i: int, j: int)
    ensures 0 <= i <= j <= |s|
    ensures Strip(s) == s[i..j]
    ensures forall k :: 0 <= k < i ==> IsSpace(s[k])
    ensures forall k :: j <= k < |s| ==> IsSpace(s[k])
  {
    var left := TrimLeft(s);
    var r := TrimRight(left);
    i := |s| - |left|;
    j := i + |r|;
    assert left == s[i..] && r == left[..|r|];
    assert r == s[i..j];
    forall k | j <= k < |s|
      ensures IsSpace(s[k])
    {
      assert s[k] == left[k - i];
    }
  }

  /** `s.split(sep)` for a one-character separator. */
  function Split(s: string, sep: char): (pieces: seq<string>)
    ensures |pieces| >= 1
    ensures forall p :: p in pieces ==> sep !in p
    decreases |s|
  {
    if s == [] then [""]
    else
      var rest := Split(s[1..], sep);
      if s[0] == sep then [""] + rest
      else [[s[0]] + rest[0]] + rest[1..]
  }

  /** `sep.join(pieces)`, the inverse of `Split`. */
  function Join(pieces: seq<string>, sep: char): string
    requires |pieces| >= 1
    decreases |pieces|
  {
    if |pieces| == 1 then pieces[0] else pieces[0] + [sep] + Join(pieces[1..], sep)
  }

  // ---------------------------------------------------------------------
  // The key list and the decision

  /** The stripped, non-empty pieces, in order: the comprehension over the split pieces. */
  function NonEmptyStripped(pieces: seq<string>): seq<string>
    decreases |pieces|
  {
    if pieces == [] then []
    else (if Strip(pieces[0]) != "" then [Strip(pieces[0])] else []) + NonEmptyStripped(pieces[1..])
  }

  /** `API_KEYS`: parsed from the environment variable, which defaults to the empty string. */
  function ParseApiKeys(env: Option<string>): seq<string> {
    NonEmptyStripped(Split(env.GetOr(""), ','))
  }

  /** `AUTH_ENABLED`: authentication is on iff at least one key is configured. */
  predicate AuthEnabled(keys: seq<string>) {
    |keys| > 0
  }

  const AuthDisabledValue: string := "auth_disabled"
  const MissingKeyDetail: string := "Missing API key. Include X-API-Key header."
  const InvalidKeyDetail: string := "Invalid API key"
  const Unauthorized401: int := 401

  /**
   * What `verify_api_key` does: it returns a value (`Allowed`) or raises an
   * `HTTPException` (`Unauthorized`, with its status code, detail and
   * `WWW-Authenticate` header).
   */
  datatype Verdict =
    | Allowed(value: string)
    | Unauthorized(statusCode: int, detail: string, wwwAuthenticate: string)

  /** `verify_api_key(api_key)` under the configured key list `keys`. */
  function VerifyApiKey(keys: seq<string>, apiKey: Option<string>): (r: Verdict)
    ensures !AuthEnabled(keys) ==> r == Allowed(AuthDisabledValue)
    ensures AuthEnabled(keys) ==>
      (r.Allowed? <==> Truthy(apiKey) && apiKey.value in keys)
    ensures AuthEnabled(keys) && r.Allowed? ==> r.value == apiKey.value
    ensures r.Unauthorized? ==> r.statusCode == 401 && r.wwwAuthenticate == "ApiKey"
    ensures r.Unauthorized? ==> (r.detail == MissingKeyDetail <==> !Truthy(apiKey))
    ensures r.Unauthorized? && Truthy(apiKey) ==> r.detail == InvalidKeyDetail
  {
    if !AuthEnabled(keys) then Allowed(AuthDisabledValue)
    else if !Truthy(apiKey) then Unauthorized(Unauthorized401, MissingKeyDetail, "ApiKey")
    else if apiKey.value !in keys then Unauthorized(Unauthorized401, InvalidKeyDetail, "ApiKey")
    else Allowed(apiKey.value)
  }

  // ---------------------------------------------------------------------
  // Properties

  /** A string without surrounding whitespace is its own strip, and only such a string is. */
  lemma StripFixpoint(s: string)
    ensures Strip(s) == s <==> s == [] || (!IsSpace(s[0]) && !IsSpace(s[|s| - 1]))
  {
    if s != [] && !IsSpace(s[0]) && !IsSpace(s[|s| - 1]) {
      assert TrimLeft(s) == s;
      assert TrimRight(s) == s;
    }
  }

  /** Stripping twice is stripping once. */
  lemma StripIdempotent(s: string)
    ensures Strip(Strip(s)) == Strip(s)
  {
    StripFixpoint(Strip(s));
  }

  /** Splitting the joined pieces gives the pieces back when none holds the separator. */
  lemma {:induction false} SplitJoin(pieces: seq<string>, sep: char)
    requires |pieces| >= 1
    requires forall p :: p in pieces ==> sep !in p
    ensures Split(Join(pieces, sep), sep) == pieces
    decreases |pieces|, |pieces[0]|
  {
    var s := Join(pieces, sep);
    if |pieces| == 1 {
      SplitNoSeparator(pieces[0], sep);
    } else if pieces[0] == [] {
      assert s == [sep] + Join(pieces[1..], sep);
      assert s[1..] == Join(pieces[1..], sep);
      assert forall p :: p in pieces[1..] ==> p in pieces;
      SplitJoin(pieces[1..], sep);
      assert pieces == [""] + pieces[1..];
    } else {
      var head := pieces[0];
      assert head[0] in pieces[0];
      var shorter := [head[1..]] + pieces[1..];
      assert shorter[1..] == pieces[1..];
      assert sep !in head[1..] by {
        assert forall c :: c in head[1..] ==> c in head;
      }
      assert forall p :: p in shorter ==> sep !in p by {
        assert forall p :: p in shorter ==> p == head[1..] || p in pieces[1..];
        assert forall p :: p in pieces[1..] ==> p in pieces;
      }
      SplitJoin(shorter, sep);
      assert s == [head[0]] + Join(shorter, sep);
      assert s[1..] == Join(shorter, sep);
      assert head == [head[0]] + head[1..];
      assert pieces == [head] + pieces[1..];
    }
  }

  lemma {:induction false} SplitNoSeparator(s: string, sep: char)
    requires sep !in s
    ensures Split(s, sep) == [s]
    decreases |s|
  {
    if s != [] {
      SplitNoSeparator(s[1..], sep);
      assert s == [s[0]] + s[1..];
    }
  }

  /** Joining the split pieces gives the string back. */
  lemma {:induction false} JoinSplit(s: string, sep: char)
    ensures Join(Split(s, sep), sep) == s
    decreases |s|
  {
    if s != [] {
      JoinSplit(s[1..], sep);
      var rest := Split(s[1..], sep);
      if s[0] != sep {
        var pieces := Split(s, sep);
        assert pieces[1..] == rest[1..];
        if |rest| == 1 {
          assert Join(pieces, sep) == [s[0]] + rest[0];
        } else {
          assert rest == [rest[0]] + rest[1..];
          assert Join(rest, sep) == rest[0] + [sep] + Join(rest[1..], sep);
          assert Join(pieces, sep) == [s[0]] + rest[0] + [sep] + Join(rest[1..], sep);
        }
      }
    }
  }

  lemma {:induction false} NonEmptyStrippedMembership(pieces: seq<string>, k: string)
    ensures k in NonEmptyStripped(pieces) <==> k != "" && exists p :: p in pieces && Strip(p) == k
    decreases |pieces|
  {
    if pieces != [] {
      var tail := pieces[1..];
      NonEmptyStrippedMembership(tail, k);
      var head := if Strip(pieces[0]) != "" then [Strip(pieces[0])] else [];
      assert NonEmptyStripped(pieces) == head + NonEmptyStripped(tail);
      if k != "" && exists p :: p in pieces && Strip(p) == k {
        var p :| p in pieces && Strip(p) == k;
        if p != pieces[0] {
          assert p in tail;
        }
      }
      if k in NonEmptyStripped(pieces) {
        if k in head {
          assert pieces[0] in pieces;
        } else {
          var p :| p in tail && Strip(p) == k;
          assert p in pieces;
        }
      }
    }
  }

  /**
   * A string is a configured key iff it is the non-empty strip of one of the
   * comma-separated pieces of the variable.
   */
  lemma ParsedKeysMembership(env: Option<string>, k: string)
    ensures k in ParseApiKeys(env) <==> k != "" && exists p :: p in Split(env.GetOr(""), ',') && Strip(p) == k
  {
    NonEmptyStrippedMembership(Split(env.GetOr(""), ','), k);
  }

  /** Every configured key is non-empty, has no surrounding whitespace and no comma. */
  lemma ParsedKeysWellFormed(env: Option<string>, k: string)
    requires k in ParseApiKeys(env)
    ensures k != "" && Strip(k) == k && ',' !in k
  {
    ParsedKeysMembership(env, k);
    var p :| p in Split(env.GetOr(""), ',') && Strip(p) == k;
    StripIdempotent(p);
    if ',' in k {
      StripKeepsCharacters(p, ',');
    }
  }

  lemma StripKeepsCharacters(s: string, c: char)
    requires c in Strip(s)
    ensures c in s
  {
    var left := TrimLeft(s);
    var r := TrimRight(left);
    var i :| 0 <= i < |r| && r[i] == c;
    assert left[i] == c;
    assert s[|s| - |left| + i] == c;
  }

  /** Without the variable there is no key, and authentication is off. */
  lemma MissingVariableDisablesAuth()
    ensures ParseApiKeys(None) == []
    ensures !AuthEnabled(ParseApiKeys(None))
  {
    assert Split("", ',') == [""];
    assert Strip("") == "";
  }

  /** Keys written as a comma-separated list are read back exactly, in order. */
  lemma {:induction false} ParseJoinedKeys(keys: seq<string>)
    requires |keys| >= 1
    requires forall k :: k in keys ==> k != "" && ',' !in k && Strip(k) == k
    ensures ParseApiKeys(Some(Join(keys, ','))) == keys
  {
    SplitJoin(keys, ',');
    NonEmptyStrippedIdentity(keys);
  }

  lemma {:induction false} NonEmptyStrippedIdentity(keys: seq<string>)
    requires forall k :: k in keys ==> k != "" && Strip(k) == k
    ensures NonEmptyStripped(keys) == keys
    decreases |keys|
  {
    if keys != [] {
      assert keys[0] in keys;
      assert forall k :: k in keys[1..] ==> k in keys;
      NonEmptyStrippedIdentity(keys[1..]);
      assert keys == [keys[0]] + keys[1..];
    }
  }

  /**
   * The header is compared unstripped: with keys read from the variable, a
   * header with surrounding whitespace is always refused as invalid.
   */
  lemma PaddedKeyRefused(env: Option<string>, header: string)
    requires AuthEnabled(ParseApiKeys(env))
    requires header != "" && Strip(header) != header
    ensures VerifyApiKey(ParseApiKeys(env), Some(header)) == Unauthorized(401, InvalidKeyDetail, "ApiKey")
  {
    if header in ParseApiKeys(env) {
      ParsedKeysWellFormed(env, header);
    }
  }
}

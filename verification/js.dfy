/**
 The slice of JavaScript value semantics the handlers rely on: optional
 fields, thrown values and their messages, the truthiness of strings,
 `String.prototype.trim`, the UTF-16 `length` of a string and
 `String.prototype.replace` with a string pattern.

 A Dafny `char` is a Unicode scalar value; a JavaScript string is a sequence
 of UTF-16 code units. Where the difference matters (`length`) it is written
 out explicitly.
 */
module Js {

  /** An optional field: `undefined` (or `null`) or a value. */
  datatype Option<+T> = None | Some(value: T)

  /** What a `catch` clause receives: an `Error` carrying a message, or any other thrown value. */
  datatype Thrown = Error(message: string) | NonError

  /** The outcome of a call that may throw. */
  datatype Attempt<+T> = Returned(value: T) | Threw(thrown: Thrown)

  /** The text a handler reports for a caught value:
      `error instanceof Error ? error.message : 'Unknown error'`. */
  function MessageOf(t: Thrown): string {
    match t
    case Error(m) => m
    case NonError => "Unknown error"
  }

  /** `new Error(prefix + message)`: a new `Error` whose message is `prefix` followed by
      the caught value's message. */
  function Rethrow(prefix: string, t: Thrown): Thrown {
    Error(prefix + MessageOf(t))
  }

  /** Wrapping loses nothing: `message.replace(prefix, '')` gives the caught message back. */
  lemma RethrowRecoversMessage(prefix: string, t: Thrown)
    ensures Rethrow(prefix, t).Error?
    ensures RemoveFirst(Rethrow(prefix, t).message, prefix) == MessageOf(t)
  {
    RemoveFirstOfPrefixed(prefix, MessageOf(t));
  }

  /** Two caught values are wrapped into the same error exactly when they carry the same
      message; in particular every non-`Error` value reads as an `Error("Unknown error")`. */
  lemma RethrowDistinguishes(prefix: string, a: Thrown, b: Thrown)
    ensures Rethrow(prefix, a) == Rethrow(prefix, b) <==> MessageOf(a) == MessageOf(b)
  {
    if Rethrow(prefix, a) == Rethrow(prefix, b) {
      RethrowRecoversMessage(prefix, a);
      RethrowRecoversMessage(prefix, b);
    }
  }

  /** An optional string is truthy when it is present and not empty. */
  predicate Truthy(s: Option<string>) {
    s.Some? && s.value != ""
  }

  /** `s || fallback` for an optional string: the fallback replaces an absent or empty string. */
  function Or(s: Option<string>, fallback: string): string {
    if Truthy(s) then s.value else fallback
  }

  // ---------------------------------------------------------------------------
  // String.prototype.trim
  // ---------------------------------------------------------------------------

  /** The code points `trim` removes: ECMAScript WhiteSpace (TAB, VT, FF, ZWNBSP and
      every space separator of category Zs) and LineTerminator (LF, CR, LS, PS). */
  predicate IsWhitespace(c: char) {
    || c == '\t' || c == '\n' || c == '\U{B}' || c == '\U{C}' || c == '\r'
    || c == ' ' || c == '\U{A0}' || c == '\U{1680}'
    || ('\U{2000}' <= c <= '\U{200A}')
    || c == '\U{2028}' || c == '\U{2029}' || c == '\U{202F}' || c == '\U{205F}'
    || c == '\U{3000}' || c == '\U{FEFF}'
  }

  ghost predicate AllWhitespace(s: string) {
    forall k :: 0 <= k < |s| ==> IsWhitespace(s[k])
  }

  /** Index of the first character that is not whitespace (`|s|` if there is none). */
  function TrimStartIndex(s: string): (i: nat)
    ensures i <= |s|
    ensures AllWhitespace(s[..i])
    ensures i < |s| ==> !IsWhitespace(s[i])
  {
    if s == [] || !IsWhitespace(s[0]) then 0
    else
      var i := 1 + TrimStartIndex(s[1..]);
      assert s[..i] == [s[0]] + s[1..][..i - 1];
      i
  }

  /** One past the index of the last character that is not whitespace (`0` if there is none). */
  function TrimEndIndex(s: string): (j: nat)
    ensures j <= |s|
    ensures AllWhitespace(s[j..])
    ensures 0 < j ==> !IsWhitespace(s[j - 1])
  {
    if s == [] || !IsWhitespace(s[|s| - 1]) then |s|
    else
      var j := TrimEndIndex(s[..|s| - 1]);
      assert s[j..] == s[..|s| - 1][j..] + [s[|s| - 1]];
      j
  }

  /** `r` is `s` with whitespace removed from both ends: a contiguous slice of `s`
      that neither starts nor ends with whitespace, with only whitespace around it. */
  ghost predicate IsTrimOf(r: string, s: string) {
    exists i, j | 0 <= i <= j <= |s| ::
      && r == s[i..j]
      && AllWhitespace(s[..i])
      && AllWhitespace(s[j..])
      && (r == [] || (!IsWhitespace(r[0]) && !IsWhitespace(r[|r| - 1])))
  }

  /** `s.trim()` */
  function Trim(s: string): (r: string)
    ensures IsTrimOf(r, s)
    ensures |r| <= |s|
  {
    var i := TrimStartIndex(s);
    if i == |s| then
      assert s[..|s|] == s;
      assert IsTrimOf([], s) by {
        assert [] == s[|s|..|s|];
      }
      []
    else
      var j := TrimEndIndex(s);
      assert i < j;
      assert IsTrimOf(s[i..j], s) by {
        var r := s[i..j];
        assert r[0] == s[i] && r[|r| - 1] == s[j - 1];
      }
      s[i..j]
  }

  /** The first non-whitespace position is determined by the whitespace prefix before it. */
  lemma {:induction false} TrimStartIndexIs(s: string, i: nat)
    requires i <= |s| && AllWhitespace(s[..i])
    requires i < |s| ==> !IsWhitespace(s[i])
    ensures TrimStartIndex(s) == i
  {
    if i > 0 {
      assert IsWhitespace(s[..i][0]);
      assert s[1..][..i - 1] == s[..i][1..];
      TrimStartIndexIs(s[1..], i - 1);
    }
  }

  /** The end of the last non-whitespace character is determined by the whitespace suffix after it. */
  lemma {:induction false} TrimEndIndexIs(s: string, j: nat)
    requires j <= |s| && AllWhitespace(s[j..])
    requires 0 < j ==> !IsWhitespace(s[j - 1])
    ensures TrimEndIndex(s) == j
  {
    if j < |s| {
      assert IsWhitespace(s[j..][|s| - 1 - j]);
      assert s[..|s| - 1][j..] == s[j..][..|s| - 1 - j];
      TrimEndIndexIs(s[..|s| - 1], j);
    }
  }

  /** `trim` has exactly one possible result: any string that meets the description
      of a trimmed `s` is `Trim(s)`. */
  lemma {:induction false} TrimIsUnique(r: string, s: string)
    requires IsTrimOf(r, s)
    ensures r == Trim(s)
  {
    var i, j :| 0 <= i <= j <= |s| && r == s[i..j] && AllWhitespace(s[..i]) && AllWhitespace(s[j..])
      && (r == [] || (!IsWhitespace(r[0]) && !IsWhitespace(r[|r| - 1])));
    if r == [] {
      assert AllWhitespace(s[..|s|]) by {
        forall k | 0 <= k < |s| ensures IsWhitespace(s[k]) {
          if k < i {
            assert s[..i][k] == s[k];
          } else {
            assert s[j..][k - j] == s[k];
          }
        }
      }
      TrimStartIndexIs(s, |s|);
    } else {
      assert s[i] == r[0] && s[j - 1] == r[|r| - 1];
      TrimStartIndexIs(s, i);
      TrimEndIndexIs(s, j);
    }
  }

  /** Trimming twice is trimming once. */
  lemma TrimIdempotent(s: string)
    ensures Trim(Trim(s)) == Trim(s)
  {
    var r := Trim(s);
    assert IsTrimOf(r, r) by {
      assert r[0..|r|] == r;
      assert r[..0] == [] && r[|r|..] == [];
    }
    TrimIsUnique(r, r);
  }

  // ---------------------------------------------------------------------------
  // String length in UTF-16 code units
  // ---------------------------------------------------------------------------

  /** Code units one character occupies in UTF-16: two above the Basic Multilingual Plane. */
  function CodeUnits(c: char): nat {
    if c as int < 0x1_0000 then 1 else 2
  }

  /** `s.length`: the number of UTF-16 code units of `s`. */
  function Utf16Length(s: string): (n: nat)
    ensures |s| <= n <= 2 * |s|
  {
    if s == [] then 0 else CodeUnits(s[0]) + Utf16Length(s[1..])
  }

  // ---------------------------------------------------------------------------
  // String.prototype.replace with a string pattern
  // ---------------------------------------------------------------------------

  predicate OccursAt(s: string, pat: string, k: int) {
    0 <= k && k + |pat| <= |s| && s[k..k + |pat|] == pat
  }

  /** The first position at or after `from` where `pat` occurs in `s`. */
  function IndexFrom(s: string, pat: string, from: nat): (r: Option<nat>)
    ensures r.Some? ==> from <= r.value && OccursAt(s, pat, r.value)
    ensures r.Some? ==> forall k :: from <= k < r.value ==> !OccursAt(s, pat, k)
    ensures r.None? ==> forall k :: from <= k ==> !OccursAt(s, pat, k)
    decreases |s| - from
  {
    if from + |pat| > |s| then None
    else if s[from..from + |pat|] == pat then Some(from)
    else IndexFrom(s, pat, from + 1)
  }

  /** `s.indexOf(pat)`, with `None` for -1. */
  function IndexOf(s: string, pat: string): Option<nat> {
    IndexFrom(s, pat, 0)
  }

  /** `s.replace(pat, '')`: deletes the first occurrence of `pat`, if any. */
  function RemoveFirst(s: string, pat: string): (r: string)
    ensures IndexOf(s, pat).None? ==> r == s
    ensures IndexOf(s, pat).Some? ==> |r| + |pat| == |s|
    // no occurrence: nothing changes; otherwise exactly the first occurrence is cut out
    ensures (forall k :: !OccursAt(s, pat, k)) ==> r == s
    ensures forall i :: OccursAt(s, pat, i) && (forall k :: 0 <= k < i ==> !OccursAt(s, pat, k)) ==>
      r == s[..i] + s[i + |pat|..]
  {
    match IndexOf(s, pat)
    case None => s
    case Some(i) => s[..i] + s[i + |pat|..]
  }

  /** Removing a pattern from a string it prefixes yields the rest of the string. */
  lemma RemoveFirstOfPrefixed(pat: string, rest: string)
    ensures RemoveFirst(pat + rest, pat) == rest
  {
    var s := pat + rest;
    assert OccursAt(s, pat, 0) by {
      assert s[0..|pat|] == pat;
    }
    assert IndexOf(s, pat) == Some(0);
    assert s[|pat|..] == rest;
  }
}

/**
 * The Python string operations the classifier side relies on: `str.strip()`
 * (no argument), `str.lower()`, the substring test `sub in s` and
 * `sep.join(parts)`.
 */
module PyText {

  /**
   * The characters `str.isspace()` accepts, which are the ones `str.strip()`
   * removes: ASCII whitespace, the information separators U+001C..U+001F,
   * NEL, NO-BREAK SPACE and the Unicode space separators.
   */
  predicate IsSpace(c: char) {
    || c == ' ' || c == '\t' || c == '\n' || c == '\r' || c == '\U{B}' || c == '\U{C}'
    || ('\U{1C}' <= c <= '\U{1F}')
    || c == '\U{85}' || c == '\U{A0}' || c == '\U{1680}'
    || ('\U{2000}' <= c <= '\U{200A}')
    || c == '\U{2028}' || c == '\U{2029}' || c == '\U{202F}' || c == '\U{205F}' || c == '\U{3000}'
  }

  predicate AllSpace(s: string) {
    forall i :: 0 <= i < |s| ==> IsSpace(s[i])
  }

  /** `s.lstrip()`: the longest suffix of `s` that does not start with whitespace. */
  function StripLeft(s: string): (r: string)
    ensures |r| <= |s| && r == s[|s| - |r|..]
    ensures AllSpace(s[..|s| - |r|])
    ensures r == [] || !IsSpace(r[0])
  {
    if s != [] && IsSpace(s[0]) then StripLeft(s[1..]) else s
  }

  /** `s.rstrip()`: the longest prefix of `s` that does not end with whitespace. */
  function StripRight(s: string): (r: string)
    ensures |r| <= |s| && r == s[..|r|]
    ensures AllSpace(s[|r|..])
    ensures r == [] || !IsSpace(r[|r| - 1])
  {
    if s != [] && IsSpace(s[|s| - 1]) then StripRight(s[..|s| - 1]) else s
  }

  /** `s[i..j]` is `s` with only whitespace cut from either end. */
  predicate TrimmedAt(s: string, i: int, j: int) {
    0 <= i <= j <= |s| && AllSpace(s[..i]) && AllSpace(s[j..])
  }

  /** `s.strip()`. */
  function Strip(s: string): (r: string)
    ensures r == [] || (!IsSpace(r[0]) && !IsSpace(r[|r| - 1]))
    ensures r == [] <==> AllSpace(s)
  {
    StripBlank(s);
    StripRight(StripLeft(s))
  }

  /** `strip` cuts only whitespace, and only from the two ends. */
  lemma StripTrims(s: string)
    ensures exists i, j :: TrimmedAt(s, i, j) && Strip(s) == s[i..j]
  {
    var l := StripLeft(s);
    TrimmedInside(s, l, StripRight(l));
  }

  /** A prefix `r` of a suffix `l` of `s`, each cut off along whitespace, is a trimmed slice of `s`. */
  lemma TrimmedInside(s: string, l: string, r: string)
    requires |l| <= |s| && l == s[|s| - |l|..] && AllSpace(s[..|s| - |l|])
    requires |r| <= |l| && r == l[..|r|] && AllSpace(l[|r|..])
    ensures TrimmedAt(s, |s| - |l|, |s| - |l| + |r|) && r == s[|s| - |l|..|s| - |l| + |r|]
  {
    var i := |s| - |l|;
    var j := i + |r|;
    assert s[j..] == l[|r|..];
    assert r == s[i..j];
  }

  /** Nothing is left exactly when everything was whitespace. */
  lemma StripBlank(s: string)
    ensures StripRight(StripLeft(s)) == [] <==> AllSpace(s)
  {
    var l := StripLeft(s);
    var r := StripRight(l);
    var i := |s| - |l|;
    if r == [] {
      assert AllSpace(l) by { assert l[|r|..] == l; }
      assert AllSpace(s[..i]);
      assert s == s[..i] + l;
      AllSpaceJoin(s[..i], l);
    } else {
      TrimmedInside(s, l, r);
      assert !IsSpace(s[i]) by { assert r[0] == s[i]; }
    }
  }

  lemma AllSpaceJoin(a: string, b: string)
    requires AllSpace(a) && AllSpace(b)
    ensures AllSpace(a + b)
  {
    forall k | 0 <= k < |a + b| ensures IsSpace((a + b)[k]) {
      if k < |a| { assert (a + b)[k] == a[k]; } else { assert (a + b)[k] == b[k - |a|]; }
    }
  }

  /** Stripping twice is stripping once. */
  lemma StripIdempotent(s: string)
    ensures Strip(Strip(s)) == Strip(s)
  {
    var r := Strip(s);
    var l := StripLeft(r);
    assert l == r;
    assert StripRight(l) == r;
  }

  /** Whitespace on either side of a blank separator: the join strips to "" exactly when both halves are blank. */
  lemma {:induction false} StripJoinedBlank(a: string, sep: string, b: string)
    requires AllSpace(sep)
    ensures Strip(a + sep + b) == [] <==> AllSpace(a) && AllSpace(b)
  {
    var s := a + sep + b;
    if AllSpace(a) && AllSpace(b) {
      forall k | 0 <= k < |s| ensures IsSpace(s[k]) {
        if k < |a| { assert s[k] == a[k]; }
        else if k < |a| + |sep| { assert s[k] == sep[k - |a|]; }
        else { assert s[k] == b[k - |a| - |sep|]; }
      }
    } else if !AllSpace(a) {
      var k :| 0 <= k < |a| && !IsSpace(a[k]);
      assert s[k] == a[k];
    } else {
      var k :| 0 <= k < |b| && !IsSpace(b[k]);
      assert s[|a| + |sep| + k] == b[k];
    }
  }

  /** `c.lower()` for ASCII letters; every other character is left as it is. */
  function LowerChar(c: char): char {
    if 'A' <= c <= 'Z' then (c as int + 32) as char else c
  }

  predicate IsUpper(c: char) {
    'A' <= c <= 'Z'
  }

  /** `s.lower()`, on ASCII letters. */
  function Lower(s: string): (r: string)
    ensures |r| == |s|
    ensures forall i :: 0 <= i < |s| ==> !IsUpper(r[i])
    ensures forall i :: 0 <= i < |s| ==> (r[i] == s[i] <==> !IsUpper(s[i]))
  {
    seq(|s|, i requires 0 <= i < |s| => LowerChar(s[i]))
  }

  /** Lowering is idempotent, and a string without capitals is its own lowering. */
  lemma LowerFixes(s: string)
    ensures Lower(Lower(s)) == Lower(s)
    ensures Lower(s) == s <==> forall i :: 0 <= i < |s| ==> !IsUpper(s[i])
  {
    if forall i :: 0 <= i < |s| ==> !IsUpper(s[i]) {
      assert forall i :: 0 <= i < |s| ==> Lower(s)[i] == s[i];
    }
  }

  /** `sub` occurs in `s` at offset `i`. */
  predicate OccursAt(s: string, sub: string, i: int) {
    0 <= i <= |s| - |sub| && s[i..i + |sub|] == sub
  }

  /** An occurrence in a suffix is an occurrence in the whole string. */
  lemma OccursShift(s: string, sub: string, k: nat, i: int)
    requires k <= |s| && OccursAt(s[k..], sub, i)
    ensures OccursAt(s, sub, i + k)
  {
    assert s[k..][i..i + |sub|] == s[i + k..i + k + |sub|];
  }

  /** `sub in s`. */
  function Contains(s: string, sub: string): (b: bool)
    ensures b <==> exists i :: OccursAt(s, sub, i)
  {
    if |sub| > |s| then false
    else if s[..|sub|] == sub then
      assert OccursAt(s, sub, 0);
      true
    else
      var b := Contains(s[1..], sub);
      assert b ==> exists i :: OccursAt(s, sub, i) by {
        if b {
          var i :| OccursAt(s[1..], sub, i);
          OccursShift(s, sub, 1, i);
        }
      }
      assert (exists i :: OccursAt(s, sub, i)) ==> b by {
        if exists i :: OccursAt(s, sub, i) {
          var i :| OccursAt(s, sub, i);
          assert i != 0;
          assert s[1..][i - 1..i - 1 + |sub|] == sub;
          assert OccursAt(s[1..], sub, i - 1);
        }
      }
      b
  }

  /** `sep.join(parts)`. */
  function Join(parts: seq<string>, sep: string): string {
    if |parts| == 0 then ""
    else if |parts| == 1 then parts[0]
    else parts[0] + sep + Join(parts[1..], sep)
  }

  /** The joined text holds every part, the first at its start. */
  lemma {:induction false} JoinContainsParts(parts: seq<string>, sep: string)
    ensures |parts| > 0 ==> Join(parts, sep)[..|parts[0]|] == parts[0]
    ensures forall k :: 0 <= k < |parts| ==> Contains(Join(parts, sep), parts[k])
  {
    if |parts| > 1 {
      var rest := Join(parts[1..], sep);
      var s := Join(parts, sep);
      JoinContainsParts(parts[1..], sep);
      assert s[..|parts[0]|] == parts[0];
      forall k | 0 <= k < |parts| ensures Contains(s, parts[k]) {
        if k == 0 {
          assert OccursAt(s, parts[0], 0);
        } else {
          assert parts[1..][k - 1] == parts[k];
          var i :| OccursAt(rest, parts[k], i);
          var off := |parts[0]| + |sep|;
          assert s[off..] == rest;
          OccursShift(s, parts[k], off, i);
        }
      }
    } else if |parts| == 1 {
      assert OccursAt(Join(parts, sep), parts[0], 0);
    }
  }
}

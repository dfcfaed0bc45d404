/**
 * The string operations the pages use: `String.prototype.trim`,
 * `toLowerCase` (ASCII letters only) and `includes`.
 */
module Text {

  /** ECMAScript WhiteSpace and LineTerminator code points, which `trim` removes. */
  predicate IsSpace(c: char) {
    || c == ' ' || c == '\t' || c == '\n' || c == '\r'
    || c == '\U{000B}' || c == '\U{000C}' || c == '\U{00A0}' || c == '\U{FEFF}'
    || c == '\U{1680}' || ('\U{2000}' <= c <= '\U{200A}')
    || c == '\U{2028}' || c == '\U{2029}' || c == '\U{202F}' || c == '\U{205F}' || c == '\U{3000}'
  }

  predicate AllSpace(s: string) {
    forall i :: 0 <= i < |s| ==> IsSpace(s[i])
  }

  /** Every character of `s` from index `lo` up to, not including, `hi` is white space. */
  predicate SpaceBetween(s: string, lo: int, hi: int)
    requires 0 <= lo && hi <= |s|
  {
    forall i :: lo <= i < hi ==> IsSpace(s[i])
  }

  /** The index of the first character at or after `k` that is not white space (`|s|` if none). */
  function SkipSpaceForward(s: string, k: nat): (n: nat)
    requires k <= |s|
    ensures k <= n <= |s| && SpaceBetween(s, k, n)
    ensures n < |s| ==> !IsSpace(s[n])
    decreases |s| - k
  {
    if k < |s| && IsSpace(s[k]) then SkipSpaceForward(s, k + 1) else k
  }

  /** The index just past the last character before `k`, and not before `lo`, that is not white space. */
  function SkipSpaceBackward(s: string, lo: nat, k: nat): (e: nat)
    requires lo <= k <= |s|
    ensures lo <= e <= k && SpaceBetween(s, e, k)
    ensures lo < e ==> !IsSpace(s[e - 1])
  {
    if lo < k && IsSpace(s[k - 1]) then SkipSpaceBackward(s, lo, k - 1) else k
  }

  /** `r` is the slice of `s` starting at `i`, with nothing but white space before and after it. */
  predicate SpaceAround(s: string, i: int, r: string) {
    0 <= i <= |s| - |r| && r == s[i..i + |r|] && SpaceBetween(s, 0, i) && SpaceBetween(s, i + |r|, |s|)
  }

  /**
   * `s.trim()`: the slice left after removing the white space at both ends. It is all of
   * `s` between the first and the last character that is not white space.
   */
  function Trim(s: string): (r: string)
    ensures |r| <= |s| && Includes(s, r)
    ensures r == [] || (!IsSpace(r[0]) && !IsSpace(r[|r| - 1]))
    ensures r == [] <==> AllSpace(s)
    ensures exists i :: SpaceAround(s, i, r)
  {
    var n := SkipSpaceForward(s, 0);
    var e := SkipSpaceBackward(s, n, |s|);
    TrimmedSlice(s, n, e);
    s[n..e]
  }

  lemma {:induction false} TrimmedSlice(s: string, n: nat, e: nat)
    requires n <= e <= |s| && SpaceBetween(s, 0, n) && SpaceBetween(s, e, |s|)
    requires n < |s| ==> !IsSpace(s[n])
    requires n < e ==> !IsSpace(s[e - 1])
    ensures SpaceAround(s, n, s[n..e])
    ensures Includes(s, s[n..e])
    ensures s[n..e] == [] <==> AllSpace(s)
    ensures s[n..e] == [] || (!IsSpace(s[n..e][0]) && !IsSpace(s[n..e][|s[n..e]| - 1]))
  {
    assert s[n..e] <= s[n..];
    if n == e {
      assert n == |s|;
    } else {
      assert s[n..e][0] == s[n] && s[n..e][|s[n..e]| - 1] == s[e - 1];
    }
  }

  /** A string that neither starts nor ends with white space is its own trim; hence `Trim` is idempotent. */
  lemma {:induction false} TrimFixedPoint(s: string)
    requires s == [] || (!IsSpace(s[0]) && !IsSpace(s[|s| - 1]))
    ensures Trim(s) == s
  {
    assert SkipSpaceForward(s, 0) == 0;
    assert SkipSpaceBackward(s, 0, |s|) == |s|;
    assert s[0..|s|] == s;
  }

  lemma TrimIdempotent(s: string)
    ensures Trim(Trim(s)) == Trim(s)
  {
    TrimFixedPoint(Trim(s));
  }

  /** ASCII `toLowerCase` of one character. */
  function LowerChar(c: char): char {
    if 'A' <= c <= 'Z' then (c as int + 32) as char else c
  }

  /** `s.toLowerCase()` restricted to ASCII letters: same length, letters A-Z mapped to a-z. */
  function Lower(s: string): (r: string)
    ensures |r| == |s|
    ensures forall i :: 0 <= i < |s| ==> r[i] == LowerChar(s[i])
  {
    seq(|s|, i requires 0 <= i < |s| => LowerChar(s[i]))
  }

  lemma LowerIdempotent(s: string)
    ensures Lower(Lower(s)) == Lower(s)
  {
  }

  /** `s.includes(t)`: `t` occurs in `s` at some position. */
  predicate Includes(s: string, t: string) {
    exists i :: 0 <= i <= |s| && t <= s[i..]
  }

  lemma IncludesEmpty(s: string)
    ensures Includes(s, "")
  {
    assert "" <= s[0..];
  }

  lemma IncludesSelf(s: string)
    ensures Includes(s, s)
  {
    assert s <= s[0..];
  }
}

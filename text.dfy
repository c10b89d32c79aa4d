/**
 * The two string operations the chat code relies on: JavaScript's
 * `String.prototype.trim` (used by the chat component to reject blank input)
 * and `split('@')[0]` (used by the chat service to derive a display name
 * from an e-mail address).
 */
module Text {

  /** The characters `trim` removes, restricted to a fixed list (see README). */
  predicate IsWhitespace(c: char) {
    c == ' ' || c == '\t' || c == '\n' || c == '\r' || c == '\U{0B}' || c == '\U{0C}'
    || c == '\U{A0}' || c == '\U{FEFF}' || c == '\U{2028}' || c == '\U{2029}'
  }

  /** A string made of whitespace only (the empty string included). */
  predicate Blank(s: string) {
    forall i :: 0 <= i < |s| ==> IsWhitespace(s[i])
  }

  /** The index of the first non-whitespace character at or after `i`, or `|s|` when there is none. */
  function SkipForward(s: string, i: nat): (k: nat)
    requires i <= |s|
    ensures i <= k <= |s|
    ensures forall j :: i <= j < k ==> IsWhitespace(s[j])
    ensures k == |s| || !IsWhitespace(s[k])
    decreases |s| - i
  {
    if i < |s| && IsWhitespace(s[i]) then SkipForward(s, i + 1) else i
  }

  /** The index just past the last non-whitespace character of `s[lo..j]`, or `lo` when there is none. */
  function SkipBackward(s: string, lo: nat, j: nat): (k: nat)
    requires lo <= j <= |s|
    ensures lo <= k <= j
    ensures forall x :: k <= x < j ==> IsWhitespace(s[x])
    ensures k == lo || !IsWhitespace(s[k - 1])
    decreases j - lo
  {
    if lo < j && IsWhitespace(s[j - 1]) then SkipBackward(s, lo, j - 1) else j
  }

  /**
   * `s.trim()`: the slice of the input left after dropping the whitespace at
   * both ends, so it is empty exactly when the input is blank.
   */
  function Trim(s: string): (r: string)
    ensures |r| <= |s|
    ensures exists a, b :: 0 <= a <= b <= |s| && r == s[a..b] && Blank(s[..a]) && Blank(s[b..])
    ensures r == [] || (!IsWhitespace(r[0]) && !IsWhitespace(r[|r| - 1]))
    ensures r == "" <==> Blank(s)
  {
    var a := SkipForward(s, 0);
    var b := SkipBackward(s, a, |s|);
    // s[a] is not whitespace, so the backward scan stops after it.
    assert a < |s| ==> a < b;
    assert Blank(s[..a]) && Blank(s[b..]);
    s[a..b]
  }

  /**
   * `s.split(sep)[0]`: the part of `s` before the first occurrence of `sep`,
   * or all of `s` when `sep` does not occur.
   */
  function BeforeFirst(s: string, sep: char): (r: string)
    ensures |r| <= |s| && r == s[..|r|]
    ensures sep !in r
    ensures |r| < |s| ==> s[|r|] == sep
  {
    if s == [] then []
    else if s[0] == sep then []
    else [s[0]] + BeforeFirst(s[1..], sep)
  }
}

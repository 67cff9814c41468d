/**
 * String.prototype.trim of ECMAScript: it removes leading and trailing
 * WhiteSpace and LineTerminator code points.
 */
module JsString {

  /**
   * ECMAScript WhiteSpace (TAB, VT, FF, ZWNBSP and every Unicode space
   * separator) and LineTerminator (LF, CR, LS, PS).
   */
  predicate IsWhitespace(c: char) {
    || c == '\t' || c == '\n' || c == '\U{000B}' || c == '\U{000C}' || c == '\r'
    || c == ' ' || c == '\U{00A0}' || c == '\U{1680}'
    || ('\U{2000}' <= c <= '\U{200A}')
    || c == '\U{2028}' || c == '\U{2029}' || c == '\U{202F}' || c == '\U{205F}'
    || c == '\U{3000}' || c == '\U{FEFF}'
  }

  /** Every character of `s` is whitespace (the empty string included). */
  predicate IsBlank(s: string) {
    forall k :: 0 <= k < |s| ==> IsWhitespace(s[k])
  }

  /** The characters of `s` at positions lo .. hi-1 are all whitespace. */
  ghost predicate BlankBetween(s: string, lo: int, hi: int) {
    forall k :: lo <= k < hi && 0 <= k < |s| ==> IsWhitespace(s[k])
  }

  /** Positions 0 .. i-1 and j .. |s|-1 are whitespace, and, unless the
      part left between them is empty, it starts and ends visibly. */
  ghost predicate TrimsAt(s: string, i: int, j: int) {
    && 0 <= i <= j <= |s|
    && BlankBetween(s, 0, i)
    && BlankBetween(s, j, |s|)
    && (i < j ==> !IsWhitespace(s[i]) && !IsWhitespace(s[j - 1]))
  }

  /** Reference definition of trimming: `r` is what is left of `s` once a
      blank prefix and a blank suffix are removed, and `r` neither starts
      nor ends with whitespace. */
  ghost predicate IsTrimOf(s: string, r: string) {
    exists i, j :: TrimsAt(s, i, j) && r == s[i..j]
  }

  /** Drops the leading whitespace of `s`. */
  function TrimStart(s: string): (r: string)
    ensures |r| <= |s| && r == s[|s| - |r|..]
    ensures BlankBetween(s, 0, |s| - |r|)
    ensures r == [] || !IsWhitespace(r[0])
  {
    if |s| > 0 && IsWhitespace(s[0]) then TrimStart(s[1..]) else s
  }

  /** Drops the trailing whitespace of `s`. */
  function TrimEnd(s: string): (r: string)
    ensures |r| <= |s| && r == s[..|r|]
    ensures BlankBetween(s, |r|, |s|)
    ensures r == [] || !IsWhitespace(r[|r| - 1])
  {
    if |s| > 0 && IsWhitespace(s[|s| - 1]) then TrimEnd(s[..|s| - 1]) else s
  }

  /** `s.trim()` */
  function Trim(s: string): (r: string)
    ensures IsTrimOf(s, r)
  {
    var t := TrimStart(s);
    var r := TrimEnd(t);
    var i := |s| - |t|;
    var j := i + |r|;
    assert r == s[i..j];
    assert BlankBetween(s, j, |s|) by {
      forall k | j <= k < |s| ensures IsWhitespace(s[k]) {
        assert s[k] == t[k - i];
      }
    }
    assert i < j ==> s[i] == t[0] && s[j - 1] == r[|r| - 1];
    assert TrimsAt(s, i, j);
    r
  }

  /** There is only one trim of a string, so IsTrimOf pins Trim down. */
  lemma TrimOfUnique(s: string, r1: string, r2: string)
    requires IsTrimOf(s, r1) && IsTrimOf(s, r2)
    ensures r1 == r2
  {
  }

  /** A string trims to the empty string exactly when it is blank. */
  lemma TrimEmptyIffBlank(s: string)
    ensures Trim(s) == "" <==> IsBlank(s)
  {
  }
}

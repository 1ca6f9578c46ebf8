/**
 * The part of JavaScript's `String.prototype.trim` that the task list uses:
 * removing white space and line terminators from both ends of a string.
 * Strings are sequences of Unicode scalar values (Dafny's `char`).
 */
module JsString {

  /** The WhiteSpace and LineTerminator code points of ECMAScript (sections 12.2 and 12.3 of ECMA-262). */
  predicate IsWhiteSpace(c: char)
  {
    || c == '\t' || c == '\n' || c == '\U{000B}' || c == '\U{000C}' || c == '\r'
    || c == ' ' || c == '\U{00A0}' || c == '\U{1680}'
    || ('\U{2000}' <= c <= '\U{200A}')
    || c == '\U{2028}' || c == '\U{2029}' || c == '\U{202F}' || c == '\U{205F}'
    || c == '\U{3000}' || c == '\U{FEFF}'
  }

  ghost predicate AllWhiteSpace(s: string)
  {
    forall i :: 0 <= i < |s| ==> IsWhiteSpace(s[i])
  }

  /** The end of the run of white space in `s` that starts at index `k`. */
  function WhiteSpaceRunFrom(s: string, k: nat): (e: nat)
    requires k <= |s|
    ensures k <= e <= |s|
    ensures forall i :: k <= i < e ==> IsWhiteSpace(s[i])
    ensures e < |s| ==> !IsWhiteSpace(s[e])
    decreases |s| - k
  {
    if k < |s| && IsWhiteSpace(s[k]) then WhiteSpaceRunFrom(s, k + 1) else k
  }

  /** The start of the run of white space in `s` that ends just before index `k`. */
  function WhiteSpaceRunTo(s: string, k: nat): (b: nat)
    requires k <= |s|
    ensures b <= k
    ensures forall i :: b <= i < k ==> IsWhiteSpace(s[i])
    ensures b > 0 ==> !IsWhiteSpace(s[b - 1])
  {
    if k > 0 && IsWhiteSpace(s[k - 1]) then WhiteSpaceRunTo(s, k - 1) else k
  }

  /** Drops the leading white space: the result is the longest suffix of `s` that does not start with white space. */
  function TrimStart(s: string): (r: string)
    ensures |r| <= |s| && forall i :: 0 <= i < |r| ==> r[i] == s[|s| - |r| + i]
    ensures forall i :: 0 <= i < |s| - |r| ==> IsWhiteSpace(s[i])
    ensures r != [] ==> !IsWhiteSpace(r[0])
  {
    s[WhiteSpaceRunFrom(s, 0)..]
  }

  /** Drops the trailing white space: the result is the longest prefix of `s` that does not end with white space. */
  function TrimEnd(s: string): (r: string)
    ensures |r| <= |s| && forall i :: 0 <= i < |r| ==> r[i] == s[i]
    ensures forall i :: |r| <= i < |s| ==> IsWhiteSpace(s[i])
    ensures r != [] ==> !IsWhiteSpace(r[|r| - 1])
  {
    s[..WhiteSpaceRunTo(s, |s|)]
  }

  /**
   * `s.trim()`: what is left of `s` after dropping white space at both ends.
   * It is empty exactly when `s` consists of white space only; `TrimIsSlice`
   * shows that it is a contiguous slice of `s`.
   */
  function Trim(s: string): (r: string)
    ensures r == [] <==> AllWhiteSpace(s)
    ensures r != [] ==> !IsWhiteSpace(r[0]) && !IsWhiteSpace(r[|r| - 1])
  {
    var t := TrimStart(s);
    assert t == s[|s| - |t|..];
    var r := TrimEnd(t);
    assert r == t[..|r|];
    r
  }

  /** The trimmed string is the slice of `s` between the leading and the trailing white space. */
  lemma TrimIsSlice(s: string)
    ensures exists a, b ::
              && 0 <= a <= b <= |s| && Trim(s) == s[a..b]
              && AllWhiteSpace(s[..a]) && AllWhiteSpace(s[b..])
  {
    var t := TrimStart(s);
    var a := |s| - |t|;
    assert t == s[a..];
    var b := a + |TrimEnd(t)|;
    assert Trim(s) == s[a..b];
    assert AllWhiteSpace(s[..a]);
    assert AllWhiteSpace(s[b..]);
  }
}

/**
 * The part of JavaScript's string handling the ledger relies on:
 * `String.prototype.trim`, which strips white space and line terminators
 * from both ends of a string.
 */
module JsText {

  /** The characters `trim` removes: the WhiteSpace and LineTerminator code points of ECMAScript. */
  const WhiteSpace: set<char> := {
    '\t', '\n', '\U{000B}', '\U{000C}', '\r', ' ', '\U{00A0}', '\U{1680}',
    '\U{2000}', '\U{2001}', '\U{2002}', '\U{2003}', '\U{2004}', '\U{2005}',
    '\U{2006}', '\U{2007}', '\U{2008}', '\U{2009}', '\U{200A}',
    '\U{2028}', '\U{2029}', '\U{202F}', '\U{205F}', '\U{3000}', '\U{FEFF}'
  }

  predicate IsWhiteSpace(c: char) {
    c in WhiteSpace
  }

  /** Every character of `s` from index `i` up to `j` is white space. */
  predicate BlankBetween(s: string, i: nat, j: nat)
    requires i <= j <= |s|
  {
    forall k :: i <= k < j ==> IsWhiteSpace(s[k])
  }

  predicate IsBlank(s: string) {
    BlankBetween(s, 0, |s|)
  }

  /** The first index at or after `i` whose character is not white space (`|s|` when there is none). */
  function SkipSpaceForward(s: string, i: nat): (n: nat)
    requires i <= |s|
    ensures i <= n <= |s| && BlankBetween(s, i, n)
    ensures n < |s| ==> !IsWhiteSpace(s[n])
    decreases |s| - i
  {
    if i < |s| && IsWhiteSpace(s[i]) then SkipSpaceForward(s, i + 1) else i
  }

  /** Scanning back from `j` towards `lo`: the index just past the last character that is not white space. */
  function SkipSpaceBackward(s: string, lo: nat, j: nat): (n: nat)
    requires lo <= j <= |s|
    ensures lo <= n <= j && BlankBetween(s, n, j)
    ensures lo < n ==> !IsWhiteSpace(s[n - 1])
  {
    if lo < j && IsWhiteSpace(s[j - 1]) then SkipSpaceBackward(s, lo, j - 1) else j
  }

  /**
   * `s.trim()`: the leading white space is skipped, then the trailing white
   * space of the rest; what is left neither starts nor ends with white space.
   */
  function Trim(s: string): (t: string)
    ensures |t| <= |s|
    ensures t != [] ==> !IsWhiteSpace(t[0]) && !IsWhiteSpace(t[|t| - 1])
  {
    var i := SkipSpaceForward(s, 0);
    var j := SkipSpaceBackward(s, i, |s|);
    assert j > i ==> s[i..j][0] == s[i] && s[i..j][j - i - 1] == s[j - 1];
    s[i..j]
  }

  /**
   * All of `trim`: it cuts a blank prefix and a blank suffix off `s`, and
   * the part it keeps neither starts nor ends with white space, so no more
   * could have been cut.
   */
  lemma TrimSpec(s: string)
    ensures exists i, j :: 0 <= i <= j <= |s| && Trim(s) == s[i..j] && BlankBetween(s, 0, i) && BlankBetween(s, j, |s|)
    ensures Trim(s) != [] ==> !IsWhiteSpace(Trim(s)[0]) && !IsWhiteSpace(Trim(s)[|Trim(s)| - 1])
  {
    var i := SkipSpaceForward(s, 0);
    var j := SkipSpaceBackward(s, i, |s|);
    assert Trim(s) == s[i..j] && BlankBetween(s, 0, i) && BlankBetween(s, j, |s|);
  }

  /** A name is rejected exactly when it consists of white space only (the empty string included). */
  lemma TrimEmptyIffBlank(s: string)
    ensures Trim(s) == [] <==> IsBlank(s)
  {
    var i := SkipSpaceForward(s, 0);
    var j := SkipSpaceBackward(s, i, |s|);
    if IsBlank(s) {
      assert i == |s|;
    }
    if Trim(s) == [] {
      assert i == j == |s|;
    }
  }

  /** Trimming twice is trimming once. */
  lemma TrimIdempotent(s: string)
    ensures Trim(Trim(s)) == Trim(s)
  {
    var t := Trim(s);
    if t != [] {
      assert SkipSpaceForward(t, 0) == 0;
      assert SkipSpaceBackward(t, 0, |t|) == |t|;
      assert t[0..|t|] == t;
    }
  }
}

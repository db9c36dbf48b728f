/**
 * Strings as the pages see them: JavaScript's `String.prototype.trim` and the
 * "blank after trimming" test built on it.
 */
module Text {

  /** The characters `trim` strips: the ECMAScript WhiteSpace and LineTerminator code points. */
  predicate IsWhitespace(c: char)
  {
    || c == '\t' || c == '\n' || c == '\U{B}' || c == '\U{C}' || c == '\r' || c == ' '
    || c == '\U{A0}' || c == '\U{1680}' || ('\U{2000}' <= c <= '\U{200A}')
    || c == '\U{2028}' || c == '\U{2029}' || c == '\U{202F}' || c == '\U{205F}'
    || c == '\U{3000}' || c == '\U{FEFF}'
  }

  /** Every character of `s[lo..hi]` is whitespace. */
  ghost predicate WhitespaceBetween(s: string, lo: int, hi: int)
    requires 0 <= lo <= hi <= |s|
  {
    forall k :: lo <= k < hi ==> IsWhitespace(s[k])
  }

  ghost predicate AllWhitespace(s: string)
  {
    WhitespaceBetween(s, 0, |s|)
  }

  /** The number of whitespace characters `s` starts with. */
  function LeadingWhitespace(s: string): (n: nat)
    ensures n <= |s| && WhitespaceBetween(s, 0, n)
    ensures n == |s| || !IsWhitespace(s[n])
  {
    if s != [] && IsWhitespace(s[0]) then 1 + LeadingWhitespace(s[1..]) else 0
  }

  /** The number of whitespace characters `s` ends with. */
  function TrailingWhitespace(s: string): (n: nat)
    ensures n <= |s| && WhitespaceBetween(s, |s| - n, |s|)
    ensures n == |s| || !IsWhitespace(s[|s| - n - 1])
  {
    if s != [] && IsWhitespace(s[|s| - 1]) then 1 + TrailingWhitespace(s[..|s| - 1]) else 0
  }

  /** JavaScript's trim: the part of `s` between its leading and trailing whitespace. */
  function Trim(s: string): (r: string)
    ensures |r| <= |s|
    ensures r == [] || (!IsWhitespace(r[0]) && !IsWhitespace(r[|r| - 1]))
  {
    var i := LeadingWhitespace(s);
    var t := s[i..];
    t[..|t| - TrailingWhitespace(t)]
  }

  /** The trimmed string is a slice of the original with only whitespace cut on either side. */
  lemma TrimSlice(s: string)
    ensures exists i, j :: 0 <= i <= j <= |s| && Trim(s) == s[i..j] && WhitespaceBetween(s, 0, i) && WhitespaceBetween(s, j, |s|)
  {
    var i := LeadingWhitespace(s);
    var t := s[i..];
    var j := i + |t| - TrailingWhitespace(t);
    assert WhitespaceBetween(s, j, |s|) by {
      forall k | j <= k < |s| ensures IsWhitespace(s[k]) { assert s[k] == t[k - i]; }
    }
    assert s[i..j] == t[..|t| - TrailingWhitespace(t)];
  }

  /** A string the pages treat as empty: nothing but whitespace is left after trimming. */
  predicate IsBlank(s: string)
  {
    Trim(s) == ""
  }

  /** A string is blank exactly when every one of its characters is whitespace. */
  lemma {:induction false} BlankIffAllWhitespace(s: string)
    ensures IsBlank(s) <==> AllWhitespace(s)
  {
    TrimSlice(s);
    var i, j :| 0 <= i <= j <= |s| && Trim(s) == s[i..j] && WhitespaceBetween(s, 0, i) && WhitespaceBetween(s, j, |s|);
    if IsBlank(s) {
      assert i == j;
    } else {
      assert !IsWhitespace(s[i]) by { assert s[i] == Trim(s)[0]; }
    }
  }
}

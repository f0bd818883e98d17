/**
 * The JavaScript string built-ins that the application relies on, on strings of
 * Unicode scalar values: case mapping, `trim` and the UTF-16 `length`.
 */
module JsString {

  predicate IsAsciiUpper(c: char) { 'A' <= c <= 'Z' }

  predicate IsAsciiLower(c: char) { 'a' <= c <= 'z' }

  predicate IsAsciiLetter(c: char) { IsAsciiUpper(c) || IsAsciiLower(c) }

  /** `toLowerCase` on one character; only ASCII letters change case in this model. */
  function Lower(c: char): (r: char)
    ensures IsAsciiUpper(c) ==> IsAsciiLower(r) && r as int == c as int + 32
    ensures !IsAsciiUpper(c) ==> r == c
  {
    if IsAsciiUpper(c) then (c as int + 32) as char else c
  }

  /** `toUpperCase` on one character; only ASCII letters change case in this model. */
  function Upper(c: char): (r: char)
    ensures IsAsciiLower(c) ==> IsAsciiUpper(r) && r as int == c as int - 32
    ensures !IsAsciiLower(c) ==> r == c
  {
    if IsAsciiLower(c) then (c as int - 32) as char else c
  }

  /** Case mapping never moves a character into or out of the letters, and never touches `_` or a space. */
  lemma CaseMappingFacts(c: char)
    ensures IsAsciiLetter(Lower(c)) <==> IsAsciiLetter(c)
    ensures IsAsciiLetter(Upper(c)) <==> IsAsciiLetter(c)
    ensures Lower(c) == '_' <==> c == '_'
    ensures Lower(c) == ' ' <==> c == ' '
    ensures Upper(c) == '_' <==> c == '_'
    ensures Upper(c) == ' ' <==> c == ' '
    ensures Upper(Lower(c)) == Upper(c) && Upper(Upper(c)) == Upper(c)
    ensures Lower(Upper(c)) == Lower(c) && Lower(Lower(c)) == Lower(c)
  {
  }

  /** `String.prototype.toLowerCase`: every position is lowered, and the length is kept. */
  function LowerStr(s: string): (r: string)
    ensures |r| == |s|
    ensures forall i :: 0 <= i < |s| ==> r[i] == Lower(s[i])
  {
    if s == [] then [] else [Lower(s[0])] + LowerStr(s[1..])
  }

  /**
   * The characters `String.prototype.trim` removes: the ECMAScript WhiteSpace
   * code points (tab, vertical tab, form feed, space, no-break space, the byte
   * order mark and the space separators) and the LineTerminator code points.
   */
  const WhitespaceChars: set<char> := {
    '\t', '\n', '\U{B}', '\U{C}', '\r', ' ', '\U{A0}', '\U{1680}',
    '\U{2000}', '\U{2001}', '\U{2002}', '\U{2003}', '\U{2004}', '\U{2005}',
    '\U{2006}', '\U{2007}', '\U{2008}', '\U{2009}', '\U{200A}',
    '\U{2028}', '\U{2029}', '\U{202F}', '\U{205F}', '\U{3000}', '\U{FEFF}'}

  predicate IsWhitespace(c: char)
  {
    c in WhitespaceChars
  }

  predicate AllWhitespace(s: string)
  {
    forall i :: 0 <= i < |s| ==> IsWhitespace(s[i])
  }

  /** The first position at or after `i` that does not hold whitespace, or the end. */
  function SkipLeading(s: string, i: nat): (r: nat)
    requires i <= |s|
    ensures i <= r <= |s|
    ensures forall k :: i <= k < r ==> IsWhitespace(s[k])
    ensures r < |s| ==> !IsWhitespace(s[r])
    decreases |s| - i
  {
    if i < |s| && IsWhitespace(s[i]) then SkipLeading(s, i + 1) else i
  }

  /** The end of the last non-whitespace character in `s[lo..j]`, or `lo` when there is none. */
  function SkipTrailing(s: string, lo: nat, j: nat): (r: nat)
    requires lo <= j <= |s|
    ensures lo <= r <= j
    ensures forall k :: r <= k < j ==> IsWhitespace(s[k])
    ensures r > lo ==> !IsWhitespace(s[r - 1])
    decreases j
  {
    if j > lo && IsWhitespace(s[j - 1]) then SkipTrailing(s, lo, j - 1) else j
  }

  /** `String.prototype.trim`: the text between the first and the last non-whitespace character. */
  function Trim(s: string): (r: string)
    ensures |r| <= |s|
    ensures r == [] <==> AllWhitespace(s)
  {
    var i := SkipLeading(s, 0);
    s[i..SkipTrailing(s, i, |s|)]
  }

  /**
   * What `trim` leaves is a contiguous slice `s[i..j]` of its input, everything
   * cut off on either side is whitespace, and the slice neither starts nor ends
   * with whitespace.
   */
  lemma TrimIsSlice(s: string) returns (i: nat, j: nat)
    ensures i <= j <= |s| && Trim(s) == s[i..j]
    ensures forall k :: 0 <= k < i ==> IsWhitespace(s[k])
    ensures forall k :: j <= k < |s| ==> IsWhitespace(s[k])
    ensures Trim(s) != [] ==> !IsWhitespace(Trim(s)[0]) && !IsWhitespace(Trim(s)[|Trim(s)| - 1])
  {
    i := SkipLeading(s, 0);
    j := SkipTrailing(s, i, |s|);
  }

  /** A string made only of whitespace trims to the empty string. */
  lemma TrimAllWhitespace(s: string)
    requires AllWhitespace(s)
    ensures Trim(s) == []
  {
  }

  /** Skipping leading whitespace over text that is whitespace from `i` on reaches the end. */
  lemma {:induction false} SkipLeadingAllWhitespace(s: string, i: nat)
    requires i <= |s|
    requires forall k :: i <= k < |s| ==> IsWhitespace(s[k])
    ensures SkipLeading(s, i) == |s|
    decreases |s| - i
  {
    if i < |s| {
      SkipLeadingAllWhitespace(s, i + 1);
    }
  }

  /** Appending whitespace changes where leading whitespace ends only when the text was whitespace to its end. */
  lemma {:induction false} SkipLeadingPadded(x: string, pad: string, i: nat)
    requires i <= |x| && AllWhitespace(pad)
    ensures SkipLeading(x, i) < |x| ==> SkipLeading(x + pad, i) == SkipLeading(x, i)
    ensures SkipLeading(x, i) == |x| ==> SkipLeading(x + pad, i) == |x + pad|
    decreases |x| - i
  {
    var y := x + pad;
    if i < |x| && IsWhitespace(x[i]) {
      assert y[i] == x[i];
      SkipLeadingPadded(x, pad, i + 1);
    } else if i == |x| {
      assert forall k :: i <= k < |y| ==> y[k] == pad[k - |x|];
      SkipLeadingAllWhitespace(y, i);
    } else {
      assert y[i] == x[i];
    }
  }

  /** Trailing whitespace is skipped over back to where it starts. */
  lemma {:induction false} SkipTrailingOverWhitespace(s: string, lo: nat, m: nat, j: nat)
    requires lo <= m <= j <= |s|
    requires forall k :: m <= k < j ==> IsWhitespace(s[k])
    ensures SkipTrailing(s, lo, j) == SkipTrailing(s, lo, m)
    decreases j
  {
    if j > m {
      SkipTrailingOverWhitespace(s, lo, m, j - 1);
    }
  }

  /** Skipping trailing whitespace below `j` reads only the first `j` characters. */
  lemma {:induction false} SkipTrailingPrefix(x: string, pad: string, lo: nat, j: nat)
    requires lo <= j <= |x|
    ensures SkipTrailing(x + pad, lo, j) == SkipTrailing(x, lo, j)
    decreases j
  {
    if j > lo {
      assert (x + pad)[j - 1] == x[j - 1];
      SkipTrailingPrefix(x, pad, lo, j - 1);
    }
  }

  /** The appended part of a padded string is whitespace. */
  lemma PaddingIsWhitespace(x: string, pad: string)
    requires AllWhitespace(pad)
    ensures forall k :: |x| <= k < |x + pad| ==> IsWhitespace((x + pad)[k])
  {
    var y := x + pad;
    forall k | |x| <= k < |y| ensures IsWhitespace(y[k]) {
      assert y[k] == pad[k - |x|];
    }
  }

  /** A slice inside the first part of a concatenation is a slice of that part. */
  lemma SliceOfPrefix(x: string, pad: string, i: nat, j: nat)
    requires i <= j <= |x|
    ensures (x + pad)[i..j] == x[i..j]
  {
  }

  /** Appending whitespace to a string does not change what `trim` gives. */
  lemma TrimIgnoresPadding(x: string, pad: string)
    requires AllWhitespace(pad)
    ensures Trim(x + pad) == Trim(x)
  {
    var y := x + pad;
    var i := SkipLeading(x, 0);
    SkipLeadingPadded(x, pad, 0);
    if i < |x| {
      PaddingIsWhitespace(x, pad);
      SkipTrailingOverWhitespace(y, i, |x|, |y|);
      SkipTrailingPrefix(x, pad, i, |x|);
      SliceOfPrefix(x, pad, i, SkipTrailing(x, i, |x|));
    }
  }

  /** Number of UTF-16 code units of one code point: two for a supplementary-plane character. */
  function Utf16Units(c: char): nat
  {
    if c as int > 0xFFFF then 2 else 1
  }

  predicate IsBmp(s: string)
  {
    forall i :: 0 <= i < |s| ==> s[i] as int <= 0xFFFF
  }

  /** `String.prototype.length`, which counts UTF-16 code units rather than code points. */
  function Utf16Length(s: string): (r: nat)
    ensures |s| <= r <= 2 * |s|
    ensures IsBmp(s) ==> r == |s|
  {
    if s == [] then 0 else Utf16Units(s[0]) + Utf16Length(s[1..])
  }

  /** The UTF-16 length of a concatenation is the sum of the lengths. */
  lemma {:induction false} Utf16LengthAppend(x: string, y: string)
    ensures Utf16Length(x + y) == Utf16Length(x) + Utf16Length(y)
  {
    if x == [] {
      assert x + y == y;
    } else {
      assert (x + y)[1..] == x[1..] + y;
      Utf16LengthAppend(x[1..], y);
    }
  }

  /** Every whitespace code point lies in the Basic Multilingual Plane, one UTF-16 unit each. */
  lemma AllWhitespaceIsBmp(s: string)
    requires AllWhitespace(s)
    ensures IsBmp(s)
  {
  }
}

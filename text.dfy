/** Strings as the source treats them: `String.prototype.trim` and the decimal
    rendering of integers used by template literals and `String(...)`. */
module Text {

  /** The characters `trim` strips: the WhiteSpace and LineTerminator code points of
      ECMAScript (TAB, VT, FF, SP, NBSP, ZWNBSP, the other Zs separators, LF, CR,
      LINE SEPARATOR and PARAGRAPH SEPARATOR). */
  predicate IsSpace(c: char)
  {
    c == '\t' || c == '\n' || c == '\U{B}' || c == '\U{C}' || c == '\r' || c == ' '
    || c == '\U{A0}' || c == '\U{1680}' || ('\U{2000}' <= c <= '\U{200A}')
    || c == '\U{2028}' || c == '\U{2029}' || c == '\U{202F}' || c == '\U{205F}'
    || c == '\U{3000}' || c == '\U{FEFF}'
  }

  /** A string made only of white space (the empty string included). */
  predicate IsBlank(s: string)
  {
    forall k :: 0 <= k < |s| ==> IsSpace(s[k])
  }

  /** The index of the first non-space character of `s` at or after `i` (`|s|` if
      there is none). */
  function SkipSpaces(s: string, i: nat): (j: nat)
    requires i <= |s|
    ensures i <= j <= |s|
    ensures forall k :: i <= k < j ==> IsSpace(s[k])
    ensures j < |s| ==> !IsSpace(s[j])
    decreases |s| - i
  {
    if i == |s| || !IsSpace(s[i]) then i else SkipSpaces(s, i + 1)
  }

  /** Going down from `j` but not below `lo`, the end of the last non-space character
      (`lo` if there is none). */
  function BackSpaces(s: string, lo: nat, j: nat): (e: nat)
    requires lo <= j <= |s|
    ensures lo <= e <= j
    ensures forall k :: e <= k < j ==> IsSpace(s[k])
    ensures lo < e ==> !IsSpace(s[e - 1])
    decreases j
  {
    if j == lo || !IsSpace(s[j - 1]) then j else BackSpaces(s, lo, j - 1)
  }

  /** No white space at either end. */
  predicate Unpadded(s: string)
  {
    s == [] || (!IsSpace(s[0]) && !IsSpace(s[|s| - 1]))
  }

  /** Where the kept part of `s.trim()` starts ... */
  function TrimStartIndex(s: string): (i: nat)
    ensures i <= |s|
  {
    SkipSpaces(s, 0)
  }

  /** ... and where it ends. */
  function TrimEndIndex(s: string): (j: nat)
    ensures TrimStartIndex(s) <= j <= |s|
  {
    BackSpaces(s, TrimStartIndex(s), |s|)
  }

  /** `s.trim()`: the slice of `s` between its leading and its trailing white space.
      The result has no white space at either end, and it is empty exactly when `s` is
      blank. */
  function Trim(s: string): (r: string)
    ensures |r| <= |s| && Unpadded(r)
    ensures r == [] <==> IsBlank(s)
  {
    var i := TrimStartIndex(s);
    var j := TrimEndIndex(s);
    assert i == |s| ==> IsBlank(s);
    assert i < |s| ==> i < j && !IsSpace(s[i]);
    s[i..j]
  }

  /** What `Trim` keeps is a slice of `s`, and everything it drops on either side of
      that slice is white space. */
  lemma TrimIsSlice(s: string)
    ensures exists i, j :: 0 <= i <= j <= |s| && Trim(s) == s[i..j]
                           && IsBlank(s[..i]) && IsBlank(s[j..])
  {
    var i, j := TrimStartIndex(s), TrimEndIndex(s);
    assert forall k :: 0 <= k < i ==> IsSpace(s[k]);
    assert forall k :: j <= k < |s| ==> IsSpace(s[k]);
    assert Trim(s) == s[i..j] && IsBlank(s[..i]) && IsBlank(s[j..]);
  }

  /** A string without white space at either end is its own trim, and only such a
      string is. */
  lemma TrimFixedPoint(s: string)
    ensures Trim(s) == s <==> Unpadded(s)
  {
    if Unpadded(s) && s != [] {
      assert TrimStartIndex(s) == 0;
      assert TrimEndIndex(s) == |s|;
    }
  }

  /** Trimming twice is trimming once. */
  lemma TrimIdempotent(s: string)
    ensures Trim(Trim(s)) == Trim(s)
  {
    TrimFixedPoint(Trim(s));
  }

  // ----- decimal rendering -----

  /** The digit character for `d`. */
  function DigitChar(d: nat): (c: char)
    requires d < 10
    ensures '0' <= c <= '9'
  {
    ['0', '1', '2', '3', '4', '5', '6', '7', '8', '9'][d]
  }

  /** The value of a digit character. */
  function DigitValue(c: char): (d: nat)
    requires '0' <= c <= '9'
    ensures d < 10 && DigitChar(d) == c
  {
    (c as int - '0' as int)
  }

  predicate IsDigits(s: string)
  {
    forall k :: 0 <= k < |s| ==> '0' <= s[k] <= '9'
  }

  /** The decimal numeral of `n`, as `${n}` renders a non-negative integer: digits only,
      never empty, and no leading zero unless the number is zero. */
  function NatToDecimal(n: nat): (s: string)
    ensures s != [] && IsDigits(s)
    ensures s[0] == '0' ==> n == 0
    decreases n
  {
    if n < 10 then [DigitChar(n)] else NatToDecimal(n / 10) + [DigitChar(n % 10)]
  }

  /** Reads a string of digits as a decimal number. */
  function ParseDecimal(s: string): (n: nat)
    requires IsDigits(s)
    decreases |s|
  {
    if s == [] then 0 else ParseDecimal(s[..|s| - 1]) * 10 + DigitValue(s[|s| - 1])
  }

  /** The numeral is read back as the number it renders. */
  lemma {:induction false} DecimalRoundTrip(n: nat)
    ensures ParseDecimal(NatToDecimal(n)) == n
    decreases n
  {
    var s := NatToDecimal(n);
    if n < 10 {
      assert s[..|s| - 1] == [];
    } else {
      DecimalRoundTrip(n / 10);
      assert s[..|s| - 1] == NatToDecimal(n / 10);
      assert DigitValue(s[|s| - 1]) == n % 10;
      assert n == (n / 10) * 10 + n % 10;
    }
  }

  /** Distinct numbers render differently. */
  lemma DecimalInjective(m: nat, n: nat)
    requires NatToDecimal(m) == NatToDecimal(n)
    ensures m == n
  {
    DecimalRoundTrip(m);
    DecimalRoundTrip(n);
  }

  /** `String(i)` for an integer `i`: a minus sign before the numeral of its magnitude
      when negative. */
  function IntToDecimal(i: int): (s: string)
    ensures s != []
    ensures i < 0 <==> s[0] == '-'
  {
    if i < 0 then "-" + NatToDecimal(-i) else NatToDecimal(i)
  }
}

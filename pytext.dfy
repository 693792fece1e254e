/**
 * The few Python string operations the hub and its scripts rely on:
 * `str.strip`, `str.startswith`, `str.lower`, `str.rstrip("/")`, `str(int)`
 * and `int(str)`.
 */
module PyText {
  import opened Wrappers

  /** `c.isspace()`: exactly the characters Python treats as whitespace. */
  predicate IsSpace(c: char) {
    var k := c as int;
    (0x09 <= k <= 0x0D) || (0x1C <= k <= 0x20) || k == 0x85 || k == 0xA0 || k == 0x1680
    || (0x2000 <= k <= 0x200A) || k == 0x2028 || k == 0x2029 || k == 0x202F
    || k == 0x205F || k == 0x3000
  }

  /** The number of whitespace characters that open `s`. */
  function LeadingSpaces(s: string): (n: nat)
    ensures n <= |s|
    ensures forall i :: 0 <= i < n ==> IsSpace(s[i])
    ensures n < |s| ==> !IsSpace(s[n])
  {
    if |s| > 0 && IsSpace(s[0]) then 1 + LeadingSpaces(s[1..]) else 0
  }

  /** The number of whitespace characters that close `s`. */
  function TrailingSpaces(s: string): (n: nat)
    ensures n <= |s|
    ensures forall i :: |s| - n <= i < |s| ==> IsSpace(s[i])
    ensures n < |s| ==> !IsSpace(s[|s| - 1 - n])
  {
    if |s| > 0 && IsSpace(s[|s| - 1]) then 1 + TrailingSpaces(s[..|s| - 1]) else 0
  }

  /** `s.strip()`: `s` without its leading and trailing whitespace. */
  function Strip(s: string): (r: string)
    ensures |r| <= |s|
    ensures r == [] || (!IsSpace(r[0]) && !IsSpace(r[|r| - 1]))
  {
    var a := LeadingSpaces(s);
    var b := TrailingSpaces(s[a..]);
    assert a < |s| ==> s[a..][0] == s[a];
    assert b < |s| - a ==> s[a..][|s| - a - 1 - b] == s[|s| - 1 - b];
    s[a..|s| - b]
  }

  /**
   * Strip removes exactly the whitespace at both ends: the result is a slice
   * of `s` with only whitespace before and after it, and it neither starts
   * nor ends with whitespace.
   */
  lemma StripRemovesOnlyEnds(s: string)
    ensures exists a, b :: 0 <= a <= b <= |s| && Strip(s) == s[a..b]
              && (forall i :: 0 <= i < a ==> IsSpace(s[i]))
              && (forall i :: b <= i < |s| ==> IsSpace(s[i]))
    ensures Strip(s) == [] || (!IsSpace(Strip(s)[0]) && !IsSpace(Strip(s)[|Strip(s)| - 1]))
  {
    var a := LeadingSpaces(s);
    var b := |s| - TrailingSpaces(s[a..]);
    forall i | b <= i < |s|
      ensures IsSpace(s[i])
    {
      assert s[i] == s[a..][i - a];
    }
    assert 0 <= a <= b <= |s| && Strip(s) == s[a..b];
  }

  /** Strip removes whitespace only: a string that neither starts nor ends with it is kept whole. */
  lemma StripKeepsTrimmed(s: string)
    requires |s| > 0 && !IsSpace(s[0]) && !IsSpace(s[|s| - 1])
    ensures Strip(s) == s
  {
    assert LeadingSpaces(s) == 0;
    assert TrailingSpaces(s) == 0;
  }

  /** Strip yields the empty string exactly when `s` is all whitespace. */
  lemma StripEmpty(s: string)
    ensures Strip(s) == [] <==> forall i :: 0 <= i < |s| ==> IsSpace(s[i])
  {
    var a := LeadingSpaces(s);
    if a < |s| {
      var b := TrailingSpaces(s[a..]);
      assert s[a..][0] == s[a];
      assert b < |s| - a;
      assert Strip(s)[0] == s[a];
    }
  }

  /** `s.startswith(prefix)`. */
  predicate StartsWith(s: string, prefix: string) {
    |prefix| <= |s| && s[..|prefix|] == prefix
  }

  /** `c.lower()` for the ASCII letters; every other character is kept. */
  function LowerChar(c: char): char {
    if 'A' <= c <= 'Z' then (c as int + 32) as char else c
  }

  /** `s.lower()`, restricted to ASCII case folding. */
  function Lower(s: string): string {
    seq(|s|, i requires 0 <= i < |s| => LowerChar(s[i]))
  }

  /**
   * Lower-casing leaves no ASCII capital, keeps every other character, and
   * is idempotent.
   */
  lemma LowerFolds(s: string)
    ensures Lower(Lower(s)) == Lower(s)
    ensures forall i :: 0 <= i < |s| ==> !('A' <= Lower(s)[i] <= 'Z')
    ensures forall i :: 0 <= i < |s| && !('A' <= s[i] <= 'Z') ==> Lower(s)[i] == s[i]
  {
  }

  /** `s.rstrip("/")`. */
  function RStripSlashes(s: string): (r: string)
    ensures StartsWith(s, r)
    ensures r == [] || r[|r| - 1] != '/'
    ensures forall i :: |r| <= i < |s| ==> s[i] == '/'
  {
    if |s| > 0 && s[|s| - 1] == '/' then RStripSlashes(s[..|s| - 1]) else s
  }

  predicate IsDigit(c: char) {
    '0' <= c <= '9'
  }

  function DigitValue(c: char): nat
    requires IsDigit(c)
  {
    c as int - '0' as int
  }

  function DigitChar(d: nat): (c: char)
    requires d < 10
    ensures IsDigit(c) && DigitValue(c) == d
  {
    (d + '0' as int) as char
  }

  /** The decimal digits of `n`, most significant first, as `str(n)` writes them. */
  function NatDigits(n: nat): (r: string)
    ensures |r| > 0
    ensures forall i :: 0 <= i < |r| ==> IsDigit(r[i])
  {
    (if n < 10 then "" else NatDigits(n / 10)) + [DigitChar(n % 10)]
  }

  /** `str(n)` for an integer. */
  function IntToDecimal(n: int): string {
    if n < 0 then "-" + NatDigits(-n) else NatDigits(n)
  }

  /**
   * The digit groups `int()` accepts in base 10: digits, with single
   * underscores allowed between two digits.
   */
  predicate IsNumeral(s: string)
    decreases |s|
  {
    |s| > 0 && IsDigit(s[0]) &&
    (|s| == 1 || (if s[1] == '_' then IsNumeral(s[2..]) else IsNumeral(s[1..])))
  }

  /** The value of a numeral; underscores do not contribute. */
  function NumeralValue(s: string): nat {
    if s == [] then 0
    else
      var last := s[|s| - 1];
      if IsDigit(last) then 10 * NumeralValue(s[..|s| - 1]) + DigitValue(last)
      else NumeralValue(s[..|s| - 1])
  }

  /**
   * `int(s)` on a string: surrounding whitespace is ignored, one optional
   * sign, then a numeral. `None` stands for the `ValueError` it raises.
   */
  function ParseInt(s: string): Option<int> {
    var t := Strip(s);
    if |t| > 0 && (t[0] == '+' || t[0] == '-') then
      if IsNumeral(t[1..]) then
        var v: int := NumeralValue(t[1..]);
        Some(if t[0] == '-' then -v else v)
      else None
    else if IsNumeral(t) then Some(NumeralValue(t))
    else None
  }

  /** A non-empty run of digits is a numeral. */
  lemma {:induction false} DigitsAreNumeral(s: string)
    requires |s| > 0
    requires forall i :: 0 <= i < |s| ==> IsDigit(s[i])
    ensures IsNumeral(s)
  {
    if |s| > 1 {
      DigitsAreNumeral(s[1..]);
    }
  }

  /** Reading back the digits `str` writes gives the number. */
  lemma {:induction false} NatDigitsValue(n: nat)
    ensures NumeralValue(NatDigits(n)) == n
  {
    var q, r := n / 10, n % 10;
    assert n == 10 * q + r;
    var p := if n < 10 then "" else NatDigits(q);
    var c := DigitChar(r);
    assert NatDigits(n) == p + [c];
    NumeralValueSnoc(p, c);
    if n >= 10 {
      NatDigitsValue(q);
    } else {
      assert q == 0 && NumeralValue(p) == 0;
    }
  }

  /** Appending a digit shifts the value one decimal place. */
  lemma NumeralValueSnoc(p: string, c: char)
    requires IsDigit(c)
    ensures NumeralValue(p + [c]) == 10 * NumeralValue(p) + DigitValue(c)
  {
    assert (p + [c])[..|p|] == p;
  }

  /** `int(str(n)) == n`: the decimal rendering of an integer parses back to it. */
  lemma DecimalRoundTrip(n: int)
    ensures ParseInt(IntToDecimal(n)) == Some(n)
  {
    if n < 0 {
      NegativeDecimalParses(-n);
    } else {
      NonNegativeDecimalParses(n);
    }
  }

  lemma NonNegativeDecimalParses(m: nat)
    ensures ParseInt(IntToDecimal(m)) == Some(m)
  {
    var d := NatDigits(m);
    NatDigitsValue(m);
    DigitStringParses(d, IntToDecimal(m), m);
  }

  lemma NegativeDecimalParses(m: nat)
    requires m > 0
    ensures ParseInt(IntToDecimal(-(m as int))) == Some(-(m as int))
  {
    var d := NatDigits(m);
    NatDigitsValue(m);
    SignedDigitStringParses(d, IntToDecimal(-(m as int)), m);
  }

  /** A run of digits parses to its value. */
  lemma DigitStringParses(d: string, t: string, v: nat)
    requires |d| > 0 && forall i :: 0 <= i < |d| ==> IsDigit(d[i])
    requires t == d && NumeralValue(d) == v
    ensures ParseInt(t) == Some(v)
  {
    assert IsDigit(d[0]) && IsDigit(d[|d| - 1]);
    StripKeepsTrimmed(d);
    DigitsAreNumeral(d);
  }

  /** A minus sign and a run of digits parse to the negated value. */
  lemma SignedDigitStringParses(d: string, t: string, v: nat)
    requires |d| > 0 && forall i :: 0 <= i < |d| ==> IsDigit(d[i])
    requires t == "-" + d && NumeralValue(d) == v
    ensures ParseInt(t) == Some(-(v as int))
  {
    assert t[0] == '-' && t[|t| - 1] == d[|d| - 1] && IsDigit(d[|d| - 1]);
    StripKeepsTrimmed(t);
    assert t[1..] == d;
    DigitsAreNumeral(d);
  }
}

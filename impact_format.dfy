/**
 * The text of a reported impact: a plus sign, the impact in percent written
 * with one decimal as JavaScript's Number.prototype.toFixed(1) does, and a
 * percent sign.
 */
module ImpactFormat {
  import opened Wrappers

  predicate IsDigit(c: char) {
    '0' <= c <= '9'
  }

  function DigitChar(d: nat): (c: char)
    requires d < 10
    ensures IsDigit(c)
  {
    ('0' as int + d) as char
  }

  function DigitValue(c: char): (d: nat)
    requires IsDigit(c)
    ensures d < 10 && DigitChar(d) == c
  {
    c as int - '0' as int
  }

  /** The decimal numeral of n: digits only, never empty, no leading zero. */
  function DecimalDigits(n: nat): (s: string)
    ensures |s| >= 1
    ensures forall i :: 0 <= i < |s| ==> IsDigit(s[i])
    ensures |s| > 1 ==> s[0] != '0'
  {
    if n < 10 then [DigitChar(n)]
    else DecimalDigits(n / 10) + [DigitChar(n % 10)]
  }

  /** The number a string of digits denotes. */
  function DigitsValue(s: string): nat
    requires forall i :: 0 <= i < |s| ==> IsDigit(s[i])
  {
    if s == [] then 0
    else DigitsValue(s[..|s| - 1]) * 10 + DigitValue(s[|s| - 1])
  }

  /** Reading a numeral back gives the number written. */
  lemma {:induction false} DecimalDigitsRoundTrip(n: nat)
    ensures DigitsValue(DecimalDigits(n)) == n
  {
    if n >= 10 {
      var s := DecimalDigits(n);
      assert s[..|s| - 1] == DecimalDigits(n / 10);
      DecimalDigitsRoundTrip(n / 10);
    }
  }

  /**
   * The number of tenths toFixed(1) writes for a non-negative x: the integer
   * n with n / 10 closest to x, the larger one on a tie.
   */
  function RoundTenths(x: real): (n: int)
    ensures n as real / 10.0 - 0.05 <= x < n as real / 10.0 + 0.05
  {
    (x * 10.0 + 0.5).Floor
  }

  /** The written tenths are the closest to x, the larger on a tie. */
  lemma RoundTenthsClosest(x: real, m: int)
    ensures var n := RoundTenths(x);
      && (m < n ==> x - m as real / 10.0 >= n as real / 10.0 - x)
      && (m > n ==> m as real / 10.0 - x > x - n as real / 10.0)
  {
  }

  /** A non-negative number of tenths, written with its one decimal. */
  function TenthsText(n: nat): string {
    DecimalDigits(n / 10) + "." + [DigitChar(n % 10)]
  }

  /** x written with one decimal; a negative x is written as its magnitude after a minus sign. */
  function ToFixed1(x: real): string {
    if x < 0.0 then "-" + TenthsText(RoundTenths(-x))
    else TenthsText(RoundTenths(x))
  }

  /** The impact text: plus sign, impact in percent with one decimal, percent sign. */
  function FormatImpact(impact: real): string {
    "+" + ToFixed1(impact * 100.0) + "%"
  }

  /**
   * Reads back the text between the plus and percent signs: digits, a point,
   * one digit; the result counts tenths.
   */
  function ParseTenths(s: string): Option<nat> {
    if |s| >= 3 && s[|s| - 2] == '.' && IsDigit(s[|s| - 1])
       && forall i :: 0 <= i < |s| - 2 ==> IsDigit(s[i])
    then Some(DigitsValue(s[..|s| - 2]) * 10 + DigitValue(s[|s| - 1]))
    else None
  }

  /** A tenths text reads back as the tenths written. */
  lemma TenthsTextRoundTrip(n: nat)
    ensures ParseTenths(TenthsText(n)) == Some(n)
  {
    var s := TenthsText(n);
    assert s[..|s| - 2] == DecimalDigits(n / 10);
    DecimalDigitsRoundTrip(n / 10);
  }

  /**
   * A non-negative impact is written with a plus sign, a percent sign and in
   * between the percentage rounded to tenths, which reads back within 0.05 of
   * the exact percentage.
   */
  lemma FormatImpactReadBack(impact: real)
    requires impact >= 0.0
    ensures var s := FormatImpact(impact);
      && |s| >= 5 && s[0] == '+' && s[|s| - 1] == '%'
      && ParseTenths(s[1..|s| - 1]) == Some(RoundTenths(impact * 100.0))
      && RoundTenths(impact * 100.0) as real / 10.0 - 0.05 <= impact * 100.0
      && impact * 100.0 < RoundTenths(impact * 100.0) as real / 10.0 + 0.05
  {
    var s := FormatImpact(impact);
    var n := RoundTenths(impact * 100.0);
    assert s[1..|s| - 1] == TenthsText(n);
    TenthsTextRoundTrip(n);
  }
}

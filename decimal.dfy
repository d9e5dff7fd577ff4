/**
 * Decimal numerals: the value of a run of digits, the decimal rendering of a natural
 * number, and `Number.prototype.toFixed(2)` over exact rationals.
 */
module Decimal {
  import opened Text
  import opened Wrappers

  function DigitValue(c: char): (d: nat)
    requires IsDigit(c)
    ensures d < 10
  {
    c as int - '0' as int
  }

  function DigitChar(d: nat): (c: char)
    requires d < 10
    ensures IsDigit(c) && DigitValue(c) == d
  {
    ('0' as int + d) as char
  }

  /** The value of a string of decimal digits, most significant first (0 for the empty string). */
  function DigitsValue(s: string): nat
    requires AllDigits(s)
  {
    if s == [] then 0 else 10 * DigitsValue(s[..|s| - 1]) + DigitValue(s[|s| - 1])
  }

  /** The shortest decimal rendering of `n`: digits only, no leading zero. */
  function NatToDecimal(n: nat): (s: string)
    ensures |s| > 0 && AllDigits(s)
    ensures |s| > 1 ==> s[0] != '0'
  {
    if n < 10 then [DigitChar(n)] else NatToDecimal(n / 10) + [DigitChar(n % 10)]
  }

  lemma {:induction false} NatToDecimalValue(n: nat)
    ensures DigitsValue(NatToDecimal(n)) == n
  {
    if n >= 10 {
      var s := NatToDecimal(n);
      assert s[..|s| - 1] == NatToDecimal(n / 10);
      NatToDecimalValue(n / 10);
    }
  }

  /**
   * The integer `n` that `toFixed(2)` picks for a non-negative `x`: the one for which
   * `n / 100 - x` is closest to zero, the larger of the two on a tie.
   */
  function RoundHundredths(x: real): (n: nat)
    requires x >= 0.0
    ensures 100.0 * x - 0.5 < n as real <= 100.0 * x + 0.5
  {
    (100.0 * x + 0.5).Floor
  }

  /**
   * The strings `[0-9]*` optionally followed by `.` and one or two digits: the shape of an
   * amount numeral once its commas are gone, and of what `toFixed(2)` writes.
   */
  predicate IsPlainDecimal(c: string) {
    AllDigits(c) ||
    (|c| >= 2 && c[|c| - 2] == '.' && AllDigits(c[..|c| - 2]) && IsDigit(c[|c| - 1])) ||
    (|c| >= 3 && c[|c| - 3] == '.' && AllDigits(c[..|c| - 3]) && IsDigit(c[|c| - 2]) && IsDigit(c[|c| - 1]))
  }

  /**
   * `parseFloat` on a plain decimal, exactly and in hundredths; `None` is NaN, which
   * only the empty string gives (`".5"` is half a unit).
   */
  function ParseHundredths(c: string): (r: Option<nat>)
    requires IsPlainDecimal(c)
    ensures r.None? <==> c == []
  {
    if AllDigits(c) then
      (if c == [] then None else Some(100 * DigitsValue(c)))
    else if c[|c| - 2] == '.' then
      Some(100 * DigitsValue(c[..|c| - 2]) + 10 * DigitValue(c[|c| - 1]))
    else
      Some(100 * DigitsValue(c[..|c| - 3]) + 10 * DigitValue(c[|c| - 2]) + DigitValue(c[|c| - 1]))
  }

  /** `n` hundredths written with exactly two fractional digits, as `toFixed(2)` writes them. */
  function FixedPoint(n: nat): (s: string)
    ensures IsPlainDecimal(s) && |s| >= 4 && s[|s| - 3] == '.'
    ensures ParseHundredths(s) == Some(n)
  {
    var whole := NatToDecimal(n / 100);
    var s := whole + "." + [DigitChar(n % 100 / 10), DigitChar(n % 10)];
    assert s[..|s| - 3] == whole;
    assert !AllDigits(s) by { assert !IsDigit(s[|s| - 3]); }
    NatToDecimalValue(n / 100);
    s
  }

  /** `x.toFixed(2)` for an exact rational `x` below 10^21: a minus sign when `x` is negative. */
  function ToFixed2(x: real): string
  {
    if x < 0.0 then "-" + FixedPoint(RoundHundredths(-x)) else FixedPoint(RoundHundredths(x))
  }

  /**
   * What `toFixed(2)` writes is a minus sign when `x` is negative, then a numeral with
   * exactly two fractional digits that reads back as the hundredths nearest to `|x|`
   * (the larger on a tie).
   */
  lemma ToFixed2ReadsBack(x: real)
    ensures var s := ToFixed2(x);
            x >= 0.0 ==>
              IsPlainDecimal(s) && ParseHundredths(s).Some? &&
              100.0 * x - 0.5 < ParseHundredths(s).value as real <= 100.0 * x + 0.5
    ensures var s := ToFixed2(x);
            x < 0.0 ==>
              |s| > 0 && s[0] == '-' && IsPlainDecimal(s[1..]) && ParseHundredths(s[1..]).Some? &&
              -100.0 * x - 0.5 < ParseHundredths(s[1..]).value as real <= -100.0 * x + 0.5
  {
    if x < 0.0 {
      var s := ToFixed2(x);
      assert s[1..] == FixedPoint(RoundHundredths(-x));
    }
  }
}

/**
 * Decimal rendering of a non-negative integer, as JavaScript's `Number.prototype.toString()`
 * produces it for the integer that `crypto.randomInt(100000, 999999)` returns, and its
 * inverse. The password-reset code is such a rendering.
 */
module Decimal {
  import opened Validators

  function Pow10(k: nat): (p: nat)
    ensures p >= 1
  {
    if k == 0 then 1 else 10 * Pow10(k - 1)
  }

  function DigitChar(d: nat): (c: char)
    requires d < 10
    ensures IsAsciiDigit(c)
  {
    ('0' as int + d) as char
  }

  function DigitValue(c: char): int {
    c as int - '0' as int
  }

  /** The decimal digits of `n`, most significant first, without leading zeros. */
  function DecimalString(n: nat): (s: string)
    ensures |s| >= 1
    ensures forall i :: 0 <= i < |s| ==> IsAsciiDigit(s[i])
    decreases n
  {
    if n < 10 then [DigitChar(n)] else DecimalString(n / 10) + [DigitChar(n % 10)]
  }

  /** The value of a string of decimal digits. */
  function ParseDecimal(s: string): int
    decreases |s|
  {
    if s == [] then 0 else 10 * ParseDecimal(s[..|s| - 1]) + DigitValue(s[|s| - 1])
  }

  /** Reading the rendering back gives the number: rendering is injective. */
  lemma {:induction false} ParseDecimalString(n: nat)
    ensures ParseDecimal(DecimalString(n)) == n
    decreases n
  {
    var s := DecimalString(n);
    if n >= 10 {
      ParseDecimalString(n / 10);
      assert s[..|s| - 1] == DecimalString(n / 10);
    }
  }

  /** A number with exactly `k` digits is rendered with `k` characters. */
  lemma {:induction false} DecimalLength(n: nat, k: nat)
    requires k >= 1 && Pow10(k - 1) <= n < Pow10(k)
    ensures |DecimalString(n)| == k
    decreases k
  {
    if n >= 10 {
      assert k >= 2;
      DecimalLength(n / 10, k - 1);
    }
  }

  /** The rendering of a positive number does not start with `0`. */
  lemma {:induction false} DecimalNoLeadingZero(n: nat)
    requires n >= 1
    ensures DecimalString(n)[0] != '0'
    decreases n
  {
    if n >= 10 {
      DecimalNoLeadingZero(n / 10);
    }
  }

  /** The reset code that `forgot-password` stores for the random integer `n`. Because the
      upper bound of `crypto.randomInt` is exclusive, the code's value lies in
      [100000, 999998]; it is a six-character string of ASCII digits with no leading zero. */
  function ResetCode(n: nat): (code: string)
    requires 100000 <= n < 999999
    ensures |code| == 6
    ensures forall i :: 0 <= i < |code| ==> IsAsciiDigit(code[i])
    ensures code[0] != '0'
    ensures ParseDecimal(code) == n && 100000 <= ParseDecimal(code) <= 999998
  {
    assert Pow10(5) == 100000 && Pow10(6) == 1000000;
    DecimalLength(n, 6);
    DecimalNoLeadingZero(n);
    ParseDecimalString(n);
    DecimalString(n)
  }
}

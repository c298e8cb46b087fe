/**
 * Decimal rendering of integers, as JavaScript's `String(n)` gives it for an
 * integer `n` with `|n| < 10^21`; larger numbers switch to exponent form there.
 */
module Text {

  function DigitChar(d: int): char
    requires 0 <= d < 10
  {
    "0123456789"[d]
  }

  function NaturalDecimal(n: nat): string
    decreases n
  {
    if n < 10 then [DigitChar(n)] else NaturalDecimal(n / 10) + [DigitChar(n % 10)]
  }

  function Decimal(n: int): string {
    if n < 0 then "-" + NaturalDecimal(-n) else NaturalDecimal(n)
  }
}

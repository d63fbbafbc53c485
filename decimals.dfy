/** Exact decimal numbers, the payload the model gives to float tokens and float nodes. */
module Decimals {

  function Pow10(n: nat): (r: nat)
    ensures r >= 1
  {
    if n == 0 then 1 else 10 * Pow10(n - 1)
  }

  /** A decimal number `mantissa * 10^exponent`; the exact rational a number literal denotes. */
  datatype Decimal = Decimal(mantissa: int, exponent: int)

  /** In lowest terms: no trailing zero in the mantissa, and zero written as 0e0. */
  predicate Normalized(d: Decimal)
  {
    if d.mantissa == 0 then d.exponent == 0 else d.mantissa % 10 != 0
  }

  /** The decimals in lowest terms: each number has exactly one of them (see `SameValueSameDecimal`). */
  type NormDecimal = d: Decimal | Normalized(d) witness Decimal(0, 0)

  /**
   * Two decimals in lowest terms that denote the same number, `a` being written with the
   * smaller or equal exponent, are the same decimal.
   */
  lemma SameValueSameDecimal(a: NormDecimal, b: NormDecimal)
    requires a.exponent <= b.exponent && a.mantissa == b.mantissa * Pow10(b.exponent - a.exponent)
    ensures a == b
  {
    TenDivides(b.mantissa, b.exponent - a.exponent);
  }

  /** Scaling by a positive power of ten leaves a trailing zero. */
  lemma TenDivides(x: int, k: nat)
    ensures k >= 1 ==> (x * Pow10(k)) % 10 == 0
  {
    if k >= 1 {
      assert x * Pow10(k) == (x * Pow10(k - 1)) * 10;
    }
  }

  lemma TimesTen(q: int, p: int)
    ensures q * 10 * p == q * (p * 10)
  {
  }

  /**
   * Strips trailing zeros from the mantissa; the result denotes the same number:
   * its mantissa times 10 to the number of stripped zeros is the original mantissa.
   */
  function Normalize(d: Decimal): (r: Decimal)
    ensures Normalized(r)
    ensures d.mantissa == 0 ==> r == Decimal(0, 0)
    ensures d.mantissa != 0 ==> r.exponent >= d.exponent && d.mantissa == r.mantissa * Pow10(r.exponent - d.exponent)
    decreases if d.mantissa < 0 then -d.mantissa else d.mantissa
  {
    if d.mantissa == 0 then Decimal(0, 0)
    else if d.mantissa % 10 != 0 then d
    else
      var r := Normalize(Decimal(d.mantissa / 10, d.exponent + 1));
      assert d.mantissa == d.mantissa / 10 * 10;
      TimesTen(r.mantissa, Pow10(r.exponent - d.exponent - 1));
      r
  }

  /** The integer a decimal with a non-negative exponent denotes. */
  function IntegralValue(d: Decimal): int
    requires d.exponent >= 0
  {
    d.mantissa * Pow10(d.exponent)
  }

}

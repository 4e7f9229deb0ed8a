/** Exact decimal rounding for the sale line.

    The screen works on decimal numbers and rounds them with
    `Number(x.toFixed(k))`.  Here every amount of money is an integer number
    of cents and every quantity an integer number of thousandths, so that
    `toFixed(2)` of a price times a quantity and `toFixed(3)` of an amount
    divided by a price become integer divisions rounded to the nearest
    integer.  `toFixed` rounds the magnitude and keeps the sign, so a tie
    goes away from zero. */
module Rounding {

  /** Cents per currency unit (`toFixed(2)`). */
  const CentsPerUnit := 100
  /** Thousandths per unit of quantity (`toFixed(3)`). */
  const MilliPerUnit := 1000

  /** Independent statement of "r is n / d rounded to the nearest integer,
      ties away from zero", written as bounds on 2 * n. */
  ghost predicate IsRounding(n: int, d: int, r: int)
    requires d > 0
  {
    if n >= 0 then 2 * d * r - d <= 2 * n < 2 * d * r + d
    else 2 * d * r - d < 2 * n <= 2 * d * r + d
  }

  /** n / d rounded to the nearest integer, ties away from zero. */
  function RoundDiv(n: int, d: int): (r: int)
    requires d > 0
    ensures IsRounding(n, d, r)
    ensures n >= 0 ==> r >= 0
    ensures n <= 0 ==> r <= 0
  {
    if n >= 0 then
      var q := (2 * n + d) / (2 * d);
      DivBounds(2 * n + d, 2 * d);
      q
    else
      var q := (-2 * n + d) / (2 * d);
      DivBounds(-2 * n + d, 2 * d);
      -q
  }

  /** The quotient of a non-negative integer division bounds the dividend. */
  lemma DivBounds(m: int, k: int)
    requires m >= 0 && k > 0
    ensures 0 <= m / k
    ensures k * (m / k) <= m < k * (m / k) + k
  {
  }

  /** The rounding is determined by its specification: there is exactly one
      nearest integer once ties are broken away from zero. */
  lemma RoundDivUnique(n: int, d: int, r: int)
    requires d > 0
    requires IsRounding(n, d, r)
    ensures r == RoundDiv(n, d)
  {
    var s := RoundDiv(n, d);
    var k := 2 * d;
    // both k * r and k * s lie within d of 2 * n, so they differ by less than k
    assert -k < k * r - k * s < k;
    Distribute(k, r, s);
    OnlyZeroBetween(k, r - s);
  }

  lemma Distribute(k: int, a: int, b: int)
    ensures k * a - k * b == k * (a - b)
  {
  }

  /** No multiple of k other than 0 lies strictly between -k and k. */
  lemma OnlyZeroBetween(k: int, x: int)
    requires k > 0 && -k < k * x < k
    ensures x == 0
  {
  }

  lemma MulMonotone(k: int, a: int, b: int)
    requires k > 0 && a <= b
    ensures k * a <= k * b
  {
  }

  /** Rounding an exact multiple gives the multiplier back. */
  lemma RoundDivOfMultiple(k: int, d: int)
    requires d > 0
    ensures RoundDiv(k * d, d) == k
  {
    assert IsRounding(k * d, d, k);
    RoundDivUnique(k * d, d, k);
  }

  /** Rounding never reverses the order of two values. */
  lemma RoundDivMonotone(n1: int, n2: int, d: int)
    requires d > 0 && n1 <= n2
    ensures RoundDiv(n1, d) <= RoundDiv(n2, d)
  {
    var r1, r2 := RoundDiv(n1, d), RoundDiv(n2, d);
    if r1 > r2 {
      MulMonotone(2 * d, r2 + 1, r1);
    }
  }

  /** `toFixed(2)` of price × quantity, in cents: the exact product of a
      price in cents and a quantity in thousandths is
      price * quantity / 1000 cents. */
  function AmountFor(price: int, quantity: int): (amount: int)
    ensures IsRounding(price * quantity, MilliPerUnit, amount)
  {
    RoundDiv(price * quantity, MilliPerUnit)
  }

  /** `toFixed(3)` of amount / price, in thousandths: the exact quotient of
      two sums in cents is amount * 1000 / price thousandths. */
  function QuantityFor(amount: int, price: int): (quantity: int)
    requires price > 0
    ensures IsRounding(amount * MilliPerUnit, price, quantity)
  {
    RoundDiv(amount * MilliPerUnit, price)
  }

  /** One whole unit costs exactly its price: round2(price × 1) == price. */
  lemma AmountOfOneUnit(price: int)
    ensures AmountFor(price, MilliPerUnit) == price
  {
  }
}

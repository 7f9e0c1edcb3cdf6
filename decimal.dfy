/**
 * Exact decimal arithmetic as used through java.math.BigDecimal: values are
 * `real`, and every `setScale(s, HALF_UP)` or `divide(d, s, HALF_UP)` is an
 * explicit rounding to `s` fractional digits, ties away from zero.
 */
module Decimal {

  /** 10^s. */
  function Pow10(s: nat): (p: real)
    ensures p >= 1.0
  {
    if s == 0 then 1.0 else 10.0 * Pow10(s - 1)
  }

  /** The integer nearest to `y`, ties rounded away from zero (RoundingMode.HALF_UP). */
  function HalfUpUnits(y: real): (n: int)
    ensures y >= 0.0 ==> 0 <= n && y - 0.5 < n as real <= y + 0.5
    ensures y < 0.0 ==> n <= 0 && y - 0.5 <= n as real < y + 0.5
  {
    if y >= 0.0 then (y + 0.5).Floor else -((-y + 0.5).Floor)
  }

  /** Rounding to the grid of multiples of 1/p, ties away from zero. */
  function RoundTo(x: real, p: real): (r: real)
    requires p > 0.0
    ensures x >= 0.0 ==> r >= 0.0
    ensures x <= 0.0 ==> r <= 0.0
  {
    HalfUpUnits(x * p) as real / p
  }

  /** `x.setScale(s, RoundingMode.HALF_UP)`. */
  function Round(x: real, s: nat): (r: real)
    ensures x >= 0.0 ==> r >= 0.0
    ensures x <= 0.0 ==> r <= 0.0
  {
    RoundTo(x, Pow10(s))
  }

  /** `a.divide(b, s, RoundingMode.HALF_UP)`; division by zero raises ArithmeticException. */
  function Divide(a: real, b: real, s: nat): (r: real)
    requires b != 0.0
    ensures (a >= 0.0 && b > 0.0) ==> r >= 0.0
  {
    Round(a / b, s)
  }

  /** `a.max(b)` */
  function Max(a: real, b: real): (r: real)
    ensures r >= a && r >= b && (r == a || r == b)
  {
    if a >= b then a else b
  }

  /** `a.min(b)` */
  function Min(a: real, b: real): (r: real)
    ensures r <= a && r <= b && (r == a || r == b)
  {
    if a <= b then a else b
  }

  /** Whether `x` has no fractional part. */
  predicate IsWhole(x: real)
  {
    x == x.Floor as real
  }

  lemma HalfUpUnitsMonotone(y: real, z: real)
    requires y <= z
    ensures HalfUpUnits(y) <= HalfUpUnits(z)
  {
  }

  lemma ScaleMonotone(x: real, y: real, p: real)
    requires x <= y && p > 0.0
    ensures x * p <= y * p
  {
  }

  lemma RoundToMonotone(x: real, y: real, p: real)
    requires x <= y && p > 0.0
    ensures RoundTo(x, p) <= RoundTo(y, p)
  {
    ScaleMonotone(x, y, p);
    HalfUpUnitsMonotone(x * p, y * p);
    var m := HalfUpUnits(x * p);
    var n := HalfUpUnits(y * p);
    DivideMonotone(m as real, n as real, p);
  }

  lemma DivideMonotone(a: real, b: real, p: real)
    requires a <= b && p > 0.0
    ensures a / p <= b / p
  {
    ScaleMonotone(a, b, 1.0 / p);
  }

  /** HALF_UP rounding never reverses the order of two values. */
  lemma RoundMonotone(x: real, y: real, s: nat)
    requires x <= y
    ensures Round(x, s) <= Round(y, s)
  {
    RoundToMonotone(x, y, Pow10(s));
  }

  /** Rounding to scale 0 yields a whole number. */
  lemma RoundZeroIsWhole(x: real)
    ensures IsWhole(Round(x, 0))
  {
  }

  /** A whole number is left unchanged by rounding to scale 0. */
  lemma RoundWhole(x: real)
    requires IsWhole(x)
    ensures Round(x, 0) == x
  {
    assert Pow10(0) == 1.0;
    assert x * 1.0 == x;
    var k := x.Floor;
    if x >= 0.0 {
      assert (x + 0.5).Floor == k;
    } else {
      assert (-x + 0.5).Floor == -k;
    }
  }

  /** Zero rounds to zero at every scale. */
  lemma RoundZero(s: nat)
    ensures Round(0.0, s) == 0.0
  {
    assert HalfUpUnits(0.0 * Pow10(s)) == 0;
  }

  /** Rounding to scale 0 stays within one half of the value. */
  lemma RoundZeroError(x: real)
    ensures x - 0.5 <= Round(x, 0) <= x + 0.5
  {
  }
}

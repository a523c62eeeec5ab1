/** Decimal quantization. A real is an exact Decimal intermediate; an int counts units of the last kept place. */
module Rounding {

  function Abs(x: real): real { if x >= 0.0 then x else -x }

  predicate Within(x: real, bound: real) { -bound <= x <= bound }

  /** quantize(..., ROUND_HALF_UP): nearest unit, ties away from zero. */
  function RoundHalfUp(x: real): int {
    if x >= 0.0 then (x + 0.5).Floor else -((0.5 - x).Floor)
  }

  /** The result is the nearest integer, and of two equally near the one farther from zero; nothing else is. */
  lemma RoundHalfUpCharacterized(x: real, n: int)
    ensures n == RoundHalfUp(x) <==>
            (Abs(n as real - x) < 0.5 || (Abs(n as real - x) == 0.5 && Abs(n as real) > Abs(x)))
  {
    if x >= 0.0 {
      var f := (x + 0.5).Floor;
      assert f as real <= x + 0.5 < f as real + 1.0;
    } else {
      var f := (0.5 - x).Floor;
      assert f as real <= 0.5 - x < f as real + 1.0;
    }
  }

  lemma RoundNear(x: real)
    ensures Within(RoundHalfUp(x) as real - x, 0.5)
  {
    RoundHalfUpCharacterized(x, RoundHalfUp(x));
  }

  lemma RoundExact(n: int)
    ensures RoundHalfUp(n as real) == n
  {
    RoundHalfUpCharacterized(n as real, n);
  }

  lemma RoundMonotone(x: real, y: real)
    requires x <= y
    ensures RoundHalfUp(x) <= RoundHalfUp(y)
  {
    if 0.0 <= x {
      assert (x + 0.5).Floor as real <= x + 0.5;
      assert y + 0.5 < (y + 0.5).Floor as real + 1.0;
    } else if y < 0.0 {
      assert (0.5 - y).Floor as real <= 0.5 - y;
      assert 0.5 - x < (0.5 - x).Floor as real + 1.0;
    }
  }

  /** Growing the input by at most one unit grows the result by at most one unit. */
  lemma RoundStep(x: real, y: real)
    requires x <= y <= x + 1.0
    requires 0.0 <= x
    ensures RoundHalfUp(y) <= RoundHalfUp(x) + 1
  {
    assert x + 0.5 < (x + 0.5).Floor as real + 1.0;
    assert (y + 0.5).Floor as real <= y + 0.5;
  }

  /** `Money * factor`: the product in units, quantized once. */
  function Times(units: int, factor: real): int {
    RoundHalfUp(units as real * factor)
  }

  /** Multiplication under a name, so that proofs can treat a product as one quantity. */
  function Product(x: real, y: real): real { x * y }

  lemma ProductAdds(x: real, m: int, n: int)
    ensures Product(x, (m + n) as real) == Product(x, m as real) + Product(x, n as real)
  {
    var a, b := m as real, n as real;
    assert x * (a + b) == x * a + x * b;
  }

  lemma ProductZero(x: real)
    ensures Product(x, 0.0) == 0.0
  {
  }

  lemma NonNegativeProduct(x: real, y: real)
    requires x >= 0.0 && y >= 0.0
    ensures x * y >= 0.0
  {
  }

  lemma Shrink(f: real, x: real, bound: real)
    requires 0.0 <= f <= 1.0 && Within(x, bound)
    ensures Within(f * x, bound)
  {
    var size := Abs(x);
    NonNegativeProduct(f, size);
    NonNegativeProduct(1.0 - f, size);
    assert (1.0 - f) * size == size - f * size;
    assert f * x == f * size || f * x == -(f * size);
  }

  lemma TimesNear(units: int, factor: real)
    ensures Within(Times(units, factor) as real - Product(factor, units as real), 0.5)
  {
    hide RoundHalfUp;
    RoundNear(units as real * factor);
  }

  /** A fraction in [0, 1] of a non-negative amount stays within [0, amount] after rounding. */
  lemma TimesFraction(units: int, f: real)
    requires 0 <= units && 0.0 <= f <= 1.0
    ensures 0 <= Times(units, f) <= units
  {
    var u := units as real;
    assert 0.0 <= u * f <= u;
    RoundExact(0);
    RoundExact(units);
    RoundMonotone(0.0, u * f);
    RoundMonotone(u * f, u);
  }
}

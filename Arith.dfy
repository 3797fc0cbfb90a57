/** Exact arithmetic helpers shared by both dashboards: Python's `min`/`max`
    on two numbers, and the integer power `x ** n` used for compounding. */
module Arith {

  /** Python's `min(a, b)`. */
  function Min(a: real, b: real): real
  {
    if a <= b then a else b
  }

  /** Python's `max(a, b)`. */
  function Max(a: real, b: real): real
  {
    if a >= b then a else b
  }

  /** Scaling both sides of `a <= b` by a non-negative factor. */
  lemma ScaleLe(a: real, b: real, d: real)
    requires a <= b && d >= 0.0
    ensures a * d <= b * d && d * a <= d * b
  {
    assert (b - a) * d >= 0.0;
    assert d * (b - a) >= 0.0;
  }

  /** Multiplication distributes over addition. */
  lemma MulDistributes(a: real, b: real, c: real)
    ensures a * (b + c) == a * b + a * c
  {
  }

  /** Adding two inequalities and following an equality and a bound: kept
      free of products so that it also applies when the terms are products. */
  lemma AddLe(x1: real, y1: real, x2: real, y2: real, z: real, w: real)
    requires x1 <= y1 && x2 <= y2 && z == y1 + y2 && z <= w
    ensures x1 + x2 <= w
  {
  }

  /** Dividing a product by one of its non-zero factors leaves the other. */
  lemma DivideProduct(a: real, b: real, q: real)
    requires b != 0.0 && b * a == q
    ensures q / b == a
  {
  }

  /** `x ** n` for a whole number of periods. */
  function Pow(x: real, n: nat): real
  {
    if n == 0 then 1.0 else x * Pow(x, n - 1)
  }

  /** x^0 + x^1 + ... + x^(n-1): the value at the horizon of one unit paid
      at the end of each of n periods. */
  function GeometricSum(x: real, n: nat): real
  {
    if n == 0 then 0.0 else GeometricSum(x, n - 1) + Pow(x, n - 1)
  }

  lemma {:induction false} PowNonNegative(x: real, n: nat)
    requires x >= 0.0
    ensures Pow(x, n) >= 0.0
  {
    if n > 0 {
      PowNonNegative(x, n - 1);
      assert x * Pow(x, n - 1) >= 0.0;
    }
  }

  lemma {:induction false} PowOne(n: nat)
    ensures Pow(1.0, n) == 1.0
  {
    if n > 0 {
      PowOne(n - 1);
    }
  }

  /** The telescoping identity behind the closed-form annuity factor. */
  lemma {:induction false} GeometricSumClosedForm(x: real, n: nat)
    ensures (x - 1.0) * GeometricSum(x, n) == Pow(x, n) - 1.0
  {
    if n > 0 {
      GeometricSumClosedForm(x, n - 1);
      calc {
        (x - 1.0) * GeometricSum(x, n);
        (x - 1.0) * GeometricSum(x, n - 1) + (x - 1.0) * Pow(x, n - 1);
        Pow(x, n - 1) - 1.0 + x * Pow(x, n - 1) - Pow(x, n - 1);
        Pow(x, n) - 1.0;
      }
    }
  }

  lemma {:induction false} GeometricSumOfOne(n: nat)
    ensures GeometricSum(1.0, n) == n as real
  {
    if n > 0 {
      GeometricSumOfOne(n - 1);
      PowOne(n - 1);
    }
  }
}

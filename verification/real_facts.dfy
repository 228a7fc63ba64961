/** Facts about products and quotients of reals that the solver does not find on its
    own inside larger proofs; each is called explicitly where it is needed. */
module RealFacts {

  lemma PositiveProduct(a: real, b: real)
    requires 0.0 < a && 0.0 < b
    ensures 0.0 < a * b
  {
  }

  lemma NonNegativeProduct(a: real, b: real)
    requires 0.0 <= a && 0.0 <= b
    ensures 0.0 <= a * b
  {
  }

  lemma ProductMonotone(a: real, b: real, c: real)
    requires a <= b && 0.0 <= c
    ensures a * c <= b * c
  {
  }

  lemma ZeroProduct(a: real, b: real)
    requires a * b == 0.0
    ensures a == 0.0 || b == 0.0
  {
  }

  lemma DifferenceOfSquares(a: real, b: real)
    ensures (a - b) * (a + b) == a * a - b * b
  {
  }

  /** A quotient of a value by a larger positive value lies in [0, 1]. */
  lemma QuotientInUnitInterval(a: real, b: real)
    requires 0.0 <= a <= b && 0.0 < b
    ensures 0.0 <= a / b <= 1.0
  {
  }

  lemma QuotientSum(a: real, b: real, d: real)
    requires d != 0.0
    ensures a / d + b / d == (a + b) / d
  {
  }

  /** A quotient of a non-negative value by a strictly larger one is below 1. */
  lemma QuotientBelowOne(a: real, b: real)
    requires 0.0 <= a < b
    ensures a / b < 1.0
  {
  }

  lemma QuotientOfPositives(a: real, b: real)
    requires 0.0 < a && 0.0 < b
    ensures 0.0 < a / b
  {
  }

  /** Multiplying by a non-zero factor and dividing by it again cancels. */
  lemma CancelFactor(n: real, x: real)
    requires n != 0.0
    ensures (n * x) / n == x
  {
  }

  /** A weight times a value in [0, top] lies in [0, top * weight]. */
  lemma WeightedBound(a: real, w: real, top: real)
    requires 0.0 <= a <= top && 0.0 <= w
    ensures 0.0 <= a * w <= top * w
  {
    NonNegativeProduct(a, w);
    ProductMonotone(a, top, w);
  }
}

/** The transcendental functions of the core (`Math.sqrt`, `Math.exp`, `Math.log10`,
    `Math.cos`, ...) are passed to the model as function-valued parameters. Each
    property that depends on one of them states, as a hypothesis, only the laws it
    needs; the predicates below collect those laws. */
module Transcendentals {

  import RealFacts

  /** `Math.PI` */
  const PI: real := 3.141592653589793

  /** Principal square root on the non-negative reals. */
  ghost predicate SqrtLaws(sqrt: real -> real) {
    forall x :: 0.0 <= x ==> 0.0 <= sqrt(x) && sqrt(x) * sqrt(x) == x
  }

  /** `Math.exp`: positive, monotone, and 1 at 0. */
  ghost predicate ExpLaws(exp: real -> real) {
    && exp(0.0) == 1.0
    && (forall x :: 0.0 < exp(x))
    && (forall x, y :: x <= y ==> exp(x) <= exp(y))
  }

  /** `Math.log10` / `np.log10` on the positive reals: monotone, with the two
      values the level estimator's edge cases use. */
  ghost predicate Log10Laws(log10: real -> real) {
    && log10(1.0) == 0.0
    && log10(0.0000000001) == -10.0
    && (forall x, y :: 0.0 < x <= y ==> log10(x) <= log10(y))
  }

  /** A square root that obeys `SqrtLaws` maps 0 to 0. */
  lemma SqrtOfZero(sqrt: real -> real)
    requires SqrtLaws(sqrt)
    ensures sqrt(0.0) == 0.0
  {
    var y := sqrt(0.0);
    assert y * y == 0.0;
    RealFacts.ZeroProduct(y, y);
  }

  /** ... and maps c*c to |c|. */
  lemma SqrtOfSquare(sqrt: real -> real, c: real)
    requires SqrtLaws(sqrt)
    ensures sqrt(c * c) == if c < 0.0 then -c else c
  {
    var a := if c < 0.0 then -c else c;
    var y := sqrt(c * c);
    assert a * a == c * c;
    RealFacts.NonNegativeProduct(a, a);
    assert 0.0 <= y && y * y == a * a;
    RealFacts.DifferenceOfSquares(y, a);
    RealFacts.ZeroProduct(y - a, y + a);
  }
}

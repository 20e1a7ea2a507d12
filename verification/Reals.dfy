/** Exact real arithmetic shared by the numeric modules. */
module Reals {
  /** `math.sqrt` over exact reals: the nonnegative root of every nonnegative
      argument.  Modules that take roots are given such a function. */
  ghost predicate IsSqrt(sqrt: real -> real) {
    forall x :: x >= 0.0 ==> sqrt(x) >= 0.0 && sqrt(x) * sqrt(x) == x
  }

  function Sum(xs: seq<real>): real {
    if xs == [] then 0.0 else Sum(xs[..|xs|-1]) + xs[|xs|-1]
  }

  lemma SumAppend(xs: seq<real>, x: real)
    ensures Sum(xs + [x]) == Sum(xs) + x
  {
    assert (xs + [x])[..|xs|] == xs;
  }

  lemma SquareNonNegative(x: real)
    ensures x * x >= 0.0
  {
  }

  lemma ProductNonNegative(a: real, b: real)
    requires a >= 0.0 && b >= 0.0
    ensures a * b >= 0.0
  {
  }

  lemma MulMonotone(a: real, b: real, c: real)
    requires a <= b && c >= 0.0
    ensures a * c <= b * c
  {
    ProductNonNegative(b - a, c);
    assert (b - a) * c == b * c - a * c;
  }

  lemma MulCongruent(a: real, b: real, c: real)
    requires a == b
    ensures a * c == b * c
  {
  }

  /** Squaring is injective on nonnegative reals, and keeps their order. */
  lemma SquareOrder(a: real, b: real)
    requires a >= 0.0 && b >= 0.0
    ensures a * a <= b * b <==> a <= b
  {
    assert b * b - a * a == (b - a) * (b + a);
    if a <= b {
      ProductNonNegative(b - a, b + a);
    } else {
      PositiveProduct(a - b, b + a);
      assert (a - b) * (b + a) == -((b - a) * (b + a));
    }
  }

  lemma PositiveProduct(a: real, b: real)
    requires a > 0.0 && b > 0.0
    ensures a * b > 0.0
  {
  }

  lemma SquarePositive(s: real, v: real)
    requires s != 0.0 && s * s == v
    ensures v > 0.0
  {
    if s > 0.0 {
      ProductIsPositive(s, s, v);
    } else {
      ProductIsPositive(-s, -s, v);
    }
  }

  /** The product is a parameter of its own: the solver finds this form easier
      to use for squares. */
  lemma ProductIsPositive(a: real, b: real, v: real)
    requires a > 0.0 && b > 0.0 && v == a * b
    ensures v > 0.0
  {
  }

  /** Cancelling a positive factor. */
  lemma MulCancel(a: real, b: real, c: real)
    requires c > 0.0
    ensures a * c <= b * c <==> a <= b
  {
    if a <= b {
      MulMonotone(a, b, c);
    } else {
      PositiveProduct(a - b, c);
      assert (a - b) * c == a * c - b * c;
    }
  }
}

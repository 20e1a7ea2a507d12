/** Dot products and cosine similarity over exact reals. */
module Vectors {
  import opened Reals

  function Times(x: real, y: real): real { x * y }

  function Dot(a: seq<real>, b: seq<real>): real
    requires |a| == |b|
  {
    if a == [] then 0.0 else Dot(a[..|a|-1], b[..|b|-1]) + Times(a[|a|-1], b[|b|-1])
  }

  /** The quotient of `_similarity`, from a dot product and two norms. */
  function Cosine(ab: real, na: real, nb: real): real {
    if na == 0.0 || nb == 0.0 then 0.0 else ab / (na * nb)
  }

  /** `_similarity`: zero if either vector has zero norm. */
  function Similarity(sqrt: real -> real, a: seq<real>, b: seq<real>): real
    requires |a| == |b|
  {
    Cosine(Dot(a, b), sqrt(Dot(a, a)), sqrt(Dot(b, b)))
  }

  function Less(x: real, t: real, y: real): real { x - t * y }

  function Minus(a: seq<real>, t: real, b: seq<real>): (r: seq<real>)
    requires |a| == |b|
    ensures |r| == |a|
  {
    if a == [] then [] else Minus(a[..|a|-1], t, b[..|b|-1]) + [Less(a[|a|-1], t, b[|b|-1])]
  }

  lemma NoDot()
    ensures Dot([], []) == 0.0
  {
  }

  lemma DotAppend(a: seq<real>, x: real, b: seq<real>, y: real)
    requires |a| == |b|
    ensures Dot(a + [x], b + [y]) == Dot(a, b) + Times(x, y)
  {
    hide Times;
    assert (a + [x])[..|a|] == a && (b + [y])[..|b|] == b;
  }

  lemma TimesItself(x: real)
    ensures Times(x, x) >= 0.0 && (Times(x, x) == 0.0 <==> x == 0.0)
  {
    var q := x * x;
    if x != 0.0 { SquarePositive(x, q); }
  }

  lemma {:induction false} SquareLength(a: seq<real>)
    ensures Dot(a, a) >= 0.0
    ensures Dot(a, a) == 0.0 <==> forall i :: 0 <= i < |a| ==> a[i] == 0.0
  {
    hide Times, Dot;
    if a == [] {
      NoDot();
    } else {
      var (rest, x) := (a[..|a|-1], a[|a|-1]);
      assert a == rest + [x];
      SquareLength(rest);
      DotAppend(rest, x, rest, x);
      TimesItself(x);
      assert (forall i :: 0 <= i < |a| ==> a[i] == 0.0) <==> x == 0.0 && forall i :: 0 <= i < |rest| ==> rest[i] == 0.0;
    }
  }

  /** The squared length of a - t*b, expanded. */
  lemma {:induction false} Expand(a: seq<real>, t: real, b: seq<real>)
    requires |a| == |b|
    ensures Dot(Minus(a, t, b), Minus(a, t, b)) == Expanded(Dot(a, a), Dot(a, b), Dot(b, b), t)
  {
    hide Dot, Times, Less, Minus, Expanded;
    if a == [] {
      NoDot();
      NoMinus(t);
      NothingExpanded(t);
    } else {
      var (c, d) := (a[..|a|-1], b[..|b|-1]);
      var (x, y) := (a[|a|-1], b[|b|-1]);
      var (m, z) := (Minus(c, t, d), Less(x, t, y));
      Expand(c, t, d);
      DotAppend(c, x, c, x);
      DotAppend(c, x, d, y);
      DotAppend(d, y, d, y);
      DotAppend(m, z, m, z);
      assert a == c + [x] && b == d + [y];
      MinusAppend(c, x, t, d, y);
      ExpandStep(Dot(c, c), Dot(c, d), Dot(d, d), t, x, y);
    }
  }

  /** aa - 2 t ab + t t bb. */
  function Expanded(aa: real, ab: real, bb: real, t: real): real {
    aa - 2.0 * t * ab + t * t * bb
  }

  lemma NothingExpanded(t: real)
    ensures Expanded(0.0, 0.0, 0.0, t) == 0.0
  {
  }

  lemma NoMinus(t: real)
    ensures Minus([], t, []) == []
  {
  }

  lemma MinusAppend(a: seq<real>, x: real, t: real, b: seq<real>, y: real)
    requires |a| == |b|
    ensures Minus(a + [x], t, b + [y]) == Minus(a, t, b) + [Less(x, t, y)]
  {
    hide Less;
    assert (a + [x])[..|a|] == a && (b + [y])[..|b|] == b;
  }

  lemma ExpandStep(aa: real, ab: real, bb: real, t: real, x: real, y: real)
    ensures Expanded(aa, ab, bb, t) + Times(Less(x, t, y), Less(x, t, y))
            == Expanded(aa + Times(x, x), ab + Times(x, y), bb + Times(y, y), t)
  {
    var (p, u, xy, yy) := (t * y, t * t, x * y, y * y);
    SquareOfDifference(x, p, x * p, p * p);
    Regroup(x, t, y, p, u, xy, yy);
    Distribute(2.0 * t, ab, xy);
    Distribute(u, bb, yy);
  }

  lemma SquareOfDifference(x: real, p: real, xp: real, pp: real)
    requires xp == x * p && pp == p * p
    ensures (x - p) * (x - p) == x * x - 2.0 * xp + pp
  {
  }

  lemma Regroup(x: real, t: real, y: real, p: real, u: real, xy: real, yy: real)
    requires p == t * y && u == t * t && xy == x * y && yy == y * y
    ensures 2.0 * (x * p) == 2.0 * t * xy && p * p == u * yy
  {
    assert x * p == t * xy;
    assert p * p == t * (y * p) == t * (t * yy);
  }

  lemma Distribute(c: real, a: real, b: real)
    ensures c * (a + b) == c * a + c * b
  {
  }

  /** The Cauchy-Schwarz inequality. */
  lemma CauchySchwarz(a: seq<real>, b: seq<real>)
    requires |a| == |b|
    ensures Times(Dot(a, b), Dot(a, b)) <= Times(Dot(a, a), Dot(b, b))
  {
    hide Dot, Times, Expanded;
    var (aa, ab, bb) := (Dot(a, a), Dot(a, b), Dot(b, b));
    SquareLength(b);
    if bb == 0.0 {
      ZeroDot(a, b);
      TimesItself(0.0);
      TimesZero(aa);
    } else {
      var t := ab / bb;
      Expand(a, t, b);
      SquareLength(Minus(a, t, b));
      Discriminant(aa, ab, bb, t);
    }
  }

  lemma TimesZero(x: real)
    ensures Times(x, 0.0) == 0.0
  {
  }

  lemma Discriminant(aa: real, ab: real, bb: real, t: real)
    requires bb > 0.0 && t * bb == ab
    requires Expanded(aa, ab, bb, t) >= 0.0
    ensures Times(ab, ab) <= Times(aa, bb)
  {
    assert t * t * bb == t * ab;
    var rest := aa - t * ab;
    assert rest >= 0.0;
    ProductNonNegative(rest, bb);
    assert rest * bb == aa * bb - (t * bb) * ab;
  }

  lemma {:induction false} ZeroDot(a: seq<real>, b: seq<real>)
    requires |a| == |b| && forall i :: 0 <= i < |b| ==> b[i] == 0.0
    ensures Dot(a, b) == 0.0
  {
    hide Times;
    if a != [] {
      ZeroDot(a[..|a|-1], b[..|b|-1]);
      TimesZero(a[|a|-1]);
    }
  }

  /** A zero vector is similar to nothing. */
  lemma ZeroIsUnlike(sqrt: real -> real, a: seq<real>, b: seq<real>)
    requires IsSqrt(sqrt) && |a| == |b| && forall i :: 0 <= i < |a| ==> a[i] == 0.0
    ensures Similarity(sqrt, a, b) == 0.0 == Similarity(sqrt, b, a)
  {
    SquareLength(a);
    hide Dot;
    var n := sqrt(0.0);
    assert n * n == 0.0;
    TimesItself(n);
  }

  /** Cosine similarity is between -1 and 1. */
  lemma SimilarityInRange(sqrt: real -> real, a: seq<real>, b: seq<real>)
    requires IsSqrt(sqrt) && |a| == |b|
    ensures -1.0 <= Similarity(sqrt, a, b) <= 1.0
  {
    hide Dot, Times, Cosine;
    var (aa, ab, bb) := (Dot(a, a), Dot(a, b), Dot(b, b));
    SquareLength(a);
    SquareLength(b);
    CauchySchwarz(a, b);
    CosineInRange(aa, ab, bb, sqrt(aa), sqrt(bb));
  }

  lemma CosineInRange(aa: real, ab: real, bb: real, na: real, nb: real)
    requires na >= 0.0 && nb >= 0.0 && na * na == aa && nb * nb == bb
    requires Times(ab, ab) <= Times(aa, bb)
    ensures -1.0 <= Cosine(ab, na, nb) <= 1.0
  {
    if na != 0.0 && nb != 0.0 {
      CosineArithmetic(aa, ab, bb, na, nb, na * nb);
    }
  }

  lemma CosineArithmetic(aa: real, ab: real, bb: real, na: real, nb: real, n: real)
    requires na > 0.0 && nb > 0.0 && na * na == aa && nb * nb == bb && n == na * nb
    requires ab * ab <= aa * bb
    ensures n > 0.0 && -1.0 <= ab / n <= 1.0
  {
    ProductIsPositive(na, nb, n);
    assert n * n == aa * bb by {
      assert n * n == na * nb * (na * nb) == (na * na) * (nb * nb);
    }
    var size := if ab >= 0.0 then ab else -ab;
    assert size <= n by {
      assert size * size == ab * ab;
      SquareOrder(size, n);
    }
    QuotientInRange(ab, n);
  }

  lemma QuotientInRange(x: real, n: real)
    requires n > 0.0 && -n <= x <= n
    ensures -1.0 <= x / n <= 1.0
  {
    var q := x / n;
    assert q * n == x;
    assert q <= 1.0 by { MulCancel(q, 1.0, n); }
    assert -1.0 <= q by { MulCancel(-1.0, q, n); }
  }

  /** A vector that is not zero is at similarity 1 to itself. */
  lemma SelfSimilarity(sqrt: real -> real, a: seq<real>)
    requires IsSqrt(sqrt) && exists i :: 0 <= i < |a| && a[i] != 0.0
    ensures Similarity(sqrt, a, a) == 1.0
  {
    hide Dot, Cosine;
    var aa := Dot(a, a);
    SquareLength(a);
    CosineOfItself(aa, sqrt(aa));
  }

  lemma CosineOfItself(aa: real, n: real)
    requires aa > 0.0 && n * n == aa
    ensures Cosine(aa, n, n) == 1.0
  {
    var m := n * n;
    assert aa / m == 1.0;
  }
}

/** The UEBA baseline: a one-pass running mean and variance. */
module Baselines {
  import opened Wrappers
  import opened Reals

  /** The three statistics that `update_baseline` carries from call to call. */
  datatype Stats = Stats(n: nat, mean: real, m2: real)

  const NO_STATS := Stats(0, 0.0, 0.0)

  /** One update of the three statistics. */
  function Absorb(s: Stats, x: real): Stats {
    var n := s.n + 1;
    var delta := x - s.mean;
    var mean := s.mean + delta / n as real;
    Stats(n, mean, s.m2 + delta * (x - mean))
  }

  function StddevOf(sqrt: real -> real, s: Stats): real {
    if s.n < 2 then 0.0 else sqrt(s.m2 / (s.n - 1) as real)
  }

  function ZScoreOf(sqrt: real -> real, s: Stats, x: real): real {
    var sd := StddevOf(sqrt, s);
    if sd == 0.0 then 0.0 else (x - s.mean) / sd
  }

  /** A row of `ueba_baselines`.  Its tenant is the one it was created for. */
  class Baseline {
    const tenant: Option<string>
    const windowDays: nat
    var n: nat
    var mean: real
    var m2: real
    var baselineValue: real
    var stddev: real

    function View(): Stats
      reads this
    {
      Stats(n, mean, m2)
    }

    /** A new row: the absent statistics count as zero. */
    constructor (tenant: Option<string>, windowDays: nat)
      ensures View() == NO_STATS && this.tenant == tenant && this.windowDays == windowDays
    {
      this.tenant, this.windowDays := tenant, windowDays;
      n, mean, m2, baselineValue, stddev := 0, 0.0, 0.0, 0.0, 0.0;
    }

    method Update(sqrt: real -> real, observed: real)
      modifies this
      ensures View() == Absorb(old(View()), observed)
      ensures baselineValue == mean
      ensures stddev == StddevOf(sqrt, View())
    {
      n := n + 1;
      var delta := observed - mean;
      mean := mean + delta / n as real;
      var delta2 := observed - mean;
      m2 := m2 + delta * delta2;
      baselineValue := mean;
      stddev := StddevOf(sqrt, View());
    }

    method ComputeZScore(sqrt: real -> real, observed: real) returns (z: real)
      ensures z == ZScoreOf(sqrt, View(), observed)
    {
      var sd := StddevOf(sqrt, View());
      if sd == 0.0 {
        return 0.0;
      }
      return (observed - mean) / sd;
    }
  }

  // ---- The batch statistics ----------------------------------------------

  function Mean(h: seq<real>): real {
    if h == [] then 0.0 else Sum(h) / |h| as real
  }

  /** The sum of squared deviations of a history from a centre. */
  function SquaredDeviations(h: seq<real>, centre: real): real {
    if h == [] then 0.0
    else
      var d := h[|h|-1] - centre;
      SquaredDeviations(h[..|h|-1], centre) + d * d
  }

  function BatchStats(h: seq<real>): Stats {
    Stats(|h|, Mean(h), SquaredDeviations(h, Mean(h)))
  }

  /** The statistics after feeding a history one observation at a time. */
  function Replay(h: seq<real>): Stats {
    if h == [] then NO_STATS else Absorb(Replay(h[..|h|-1]), h[|h|-1])
  }

  lemma DeviationsAppend(h: seq<real>, x: real, centre: real)
    ensures SquaredDeviations(h + [x], centre) == SquaredDeviations(h, centre) + (x - centre) * (x - centre)
  {
    assert (h + [x])[..|h|] == h;
  }

  lemma {:induction false} DeviationsNonNegative(h: seq<real>, centre: real)
    ensures SquaredDeviations(h, centre) >= 0.0
  {
    if h != [] {
      var rest, x := h[..|h|-1], h[|h|-1];
      assert h == rest + [x];
      DeviationsNonNegative(rest, centre);
      DeviationsAppend(rest, x, centre);
      SquareNonNegative(x - centre);
    }
  }

  lemma NoDeviations(centre: real)
    ensures SquaredDeviations([], centre) == 0.0
  {
  }

  /** Moving the centre of the squared deviations. */
  lemma {:induction false} Recentre(h: seq<real>, a: real, e: real)
    ensures SquaredDeviations(h, a + e)
            == SquaredDeviations(h, a) - 2.0 * e * (Sum(h) - |h| as real * a) + |h| as real * (e * e)
  {
    hide SquaredDeviations;
    if h == [] {
      assert SquaredDeviations(h, a) == SquaredDeviations(h, a + e) == 0.0 by {
        NoDeviations(a);
        NoDeviations(a + e);
      }
    } else {
      var rest, x := h[..|h|-1], h[|h|-1];
      assert h == rest + [x];
      Recentre(rest, a, e);
      DeviationsAppend(rest, x, a);
      DeviationsAppend(rest, x, a + e);
      RecentreStep(|rest| as real, Sum(rest), a, e, x);
      assert |h| as real == |rest| as real + 1.0;
      assert Sum(h) == Sum(rest) + x;
      assert x - (a + e) == x - a - e;
    }
  }

  lemma RecentreStep(n: real, s: real, a: real, e: real, x: real)
    ensures -2.0 * e * (s - n * a) + n * (e * e) + (x - a - e) * (x - a - e)
            == (x - a) * (x - a) - 2.0 * e * (s + x - (n + 1.0) * a) + (n + 1.0) * (e * e)
  {
    var u := x - a;
    assert (u - e) * (u - e) == u * u - 2.0 * e * u + e * e;
    assert (n + 1.0) * (e * e) == n * (e * e) + e * e;
    assert 2.0 * e * (s - n * a + u) == 2.0 * e * (s - n * a) + 2.0 * e * u;
  }

  /** What one update does, without the division. */
  ghost predicate IsStep(s: Stats, x: real, s': Stats) {
    && s'.n == s.n + 1
    && (s'.mean - s.mean) * s'.n as real == x - s.mean
    && s'.m2 == s.m2 + (x - s.mean) * (x - s'.mean)
  }

  lemma AbsorbIsStep(s: Stats, x: real)
    ensures IsStep(s, x, Absorb(s, x))
  {
  }

  /** The mean moves from m to m' when x joins k observations of sum `sum`. */
  lemma MeanArithmetic(k: real, n: real, sum: real, x: real, m: real, m': real)
    requires m * k == sum && n == k + 1.0 && (m' - m) * n == x - m
    ensures m' * n == sum + x
  {
    assert m * n == m * k + m;
    assert (m' - m) * n == m' * n - m * n;
  }

  /** The squared deviations from the moved mean. */
  lemma DeviationArithmetic(k: real, n: real, m: real, m': real, x: real)
    requires n == k + 1.0 && (m' - m) * n == x - m
    ensures k * ((m' - m) * (m' - m)) + (x - m') * (x - m') == (x - m) * (x - m')
  {
    var (e, d') := (m' - m, x - m');
    assert d' == e * k by { assert e * n == e * k + e; }
    assert k * (e * e) == e * d' by { assert k * (e * e) == e * (e * k); }
    assert x - m == d' + e;
    assert (d' + e) * d' == d' * d' + e * d';
  }

  lemma DeviationStep(h: seq<real>, x: real, m: real, m': real, n: real)
    requires m * |h| as real == Sum(h)
    requires n == |h| as real + 1.0 && (m' - m) * n == x - m
    ensures SquaredDeviations(h, m') + (x - m') * (x - m') == SquaredDeviations(h, m) + (x - m) * (x - m')
  {
    hide SquaredDeviations, Sum;
    var (e, k) := (m' - m, |h| as real);
    var (before, after) := (SquaredDeviations(h, m), SquaredDeviations(h, m'));
    assert after == before + k * (e * e) by {
      Recentre(h, m, e);
      assert m + e == m';
      var zero := Sum(h) - k * m;
      assert zero == 0.0;
      assert 2.0 * e * zero == 0.0;
    }
    DeviationArithmetic(k, n, m, m', x);
  }

  /** The statistics of a history, without the division. */
  ghost predicate Summarises(s: Stats, h: seq<real>) {
    && s.n == |h|
    && s.mean * |h| as real == Sum(h)
    && s.m2 == SquaredDeviations(h, s.mean)
  }

  lemma OnlineStep(h: seq<real>, x: real, s: Stats, s': Stats)
    requires Summarises(s, h) && IsStep(s, x, s')
    ensures Summarises(s', h + [x])
  {
    hide SquaredDeviations, Sum;
    var n := s'.n as real;
    assert n == |h| as real + 1.0;
    SumAppend(h, x);
    DeviationsAppend(h, x, s'.mean);
    assert s'.mean * n == Sum(h) + x by {
      MeanArithmetic(|h| as real, n, Sum(h), x, s.mean, s'.mean);
    }
    DeviationStep(h, x, s.mean, s'.mean, n);
  }

  lemma {:induction false} ReplaySummarises(h: seq<real>)
    ensures Summarises(Replay(h), h)
  {
    if h != [] {
      var rest, x := h[..|h|-1], h[|h|-1];
      ReplaySummarises(rest);
      AbsorbIsStep(Replay(rest), x);
      OnlineStep(rest, x, Replay(rest), Replay(h));
      assert h == rest + [x];
    }
  }

  /** Main result: feeding any history to the online update gives the mean and
      the sum of squared deviations of the whole history. */
  lemma OnlineIsBatch(h: seq<real>)
    ensures Replay(h) == BatchStats(h)
    ensures Replay(h).m2 >= 0.0
  {
    ReplaySummarises(h);
    DeviationsNonNegative(h, Mean(h));
    if h != [] {
      assert Replay(h).mean == Mean(h);
    }
  }

  /** The reported deviation is the root of the sample variance of the history. */
  lemma StddevIsSampleStddev(sqrt: real -> real, h: seq<real>)
    requires IsSqrt(sqrt) && |h| >= 2
    ensures var sd := StddevOf(sqrt, Replay(h));
            sd >= 0.0 && sd * sd * (|h| as real - 1.0) == SquaredDeviations(h, Mean(h))
  {
    hide SquaredDeviations, StddevOf, Replay, Mean;
    OnlineIsBatch(h);
    StddevFacts(sqrt, Replay(h));
  }

  lemma StddevFacts(sqrt: real -> real, s: Stats)
    requires IsSqrt(sqrt) && s.n >= 2 && s.m2 >= 0.0
    ensures var sd := StddevOf(sqrt, s);
            sd >= 0.0 && sd * sd * (s.n as real - 1.0) == s.m2
    ensures var (sd, v) := (StddevOf(sqrt, s), s.m2 / (s.n - 1) as real);
            sd * sd == v && v * (s.n as real - 1.0) == s.m2
  {
    var n := (s.n - 1) as real;
    RatioFacts(s.m2, n);
    var v := s.m2 / n;
    assert sqrt(v) >= 0.0 && sqrt(v) * sqrt(v) == v;
  }

  lemma RatioFacts(a: real, n: real)
    requires a >= 0.0 && n > 0.0
    ensures a / n >= 0.0 && (a / n) * n == a
  {
  }

  // ---- How large a z-score can be ----------------------------------------

  /** The last observation's share of the squared deviations. */
  lemma LastDeviationBound(s: Stats, x: real)
    requires s.m2 >= 0.0
    ensures var (s', k) := (Absorb(s, x), s.n as real);
            var d' := x - s'.mean;
            && s'.m2 >= 0.0
            && d' * d' * (k + 1.0) <= k * s'.m2
            && (s.m2 == 0.0 ==> d' * d' * (k + 1.0) == k * s'.m2)
            && (x > s.mean && k > 0.0 ==> d' > 0.0)
  {
    AbsorbIsStep(s, x);
    var e := Absorb(s, x).mean - s.mean;
    ShareArithmetic(s.n as real, x - s.mean, e, s.m2);
    assert x - s.mean - e == x - Absorb(s, x).mean;
  }

  lemma ShareArithmetic(k: real, d: real, e: real, before: real)
    requires k >= 0.0 && before >= 0.0 && e * (k + 1.0) == d
    ensures d * (d - e) >= 0.0
    ensures (d - e) * (d - e) * (k + 1.0) <= k * (before + d * (d - e))
    ensures before == 0.0 ==> (d - e) * (d - e) * (k + 1.0) == k * (before + d * (d - e))
    ensures d > 0.0 && k > 0.0 ==> d - e > 0.0
  {
    var d' := d - e;
    assert d' == k * e;
    assert d * d' == (k + 1.0) * k * (e * e);
    ProductNonNegative((k + 1.0) * k, e * e);
    assert d' * (k + 1.0) == k * d;
    assert d' * d' * (k + 1.0) == d' * (d' * (k + 1.0)) == d' * (k * d) == k * (d * d');
    ProductNonNegative(k, before);
    assert k * (before + d * d') == k * before + k * (d * d');
    if d > 0.0 && k > 0.0 {
      PositiveProduct(k, d);
      if d' <= 0.0 { MulMonotone(d', 0.0, k + 1.0); }
    }
  }

  /** A score that k earlier observations allow. */
  predicate Bounded(z: real, k: nat) {
    z * z * (k as real + 1.0) <= k as real * k as real
  }

  /** The largest score that k earlier observations allow. */
  predicate Extreme(z: real, k: nat) {
    z * z * (k as real + 1.0) == k as real * k as real
  }

  lemma ZScoreBoundOfStats(sqrt: real -> real, s: Stats, x: real)
    requires IsSqrt(sqrt) && s.m2 >= 0.0
    ensures var z := ZScoreOf(sqrt, Absorb(s, x), x);
            && Bounded(z, s.n)
            && (s.m2 == 0.0 && z != 0.0 ==> Extreme(z, s.n))
            && (s.n >= 1 && x > s.mean ==> z > 0.0)
  {
    var s' := Absorb(s, x);
    assert s'.n == s.n + 1;
    LastDeviationBound(s, x);
    hide Absorb;
    if s.n >= 1 {
      StddevFacts(sqrt, s');
      hide IsSqrt, StddevOf;
      ScoreBound(x - s'.mean, StddevOf(sqrt, s'), s'.m2, s.n as real);
    }
  }

  /** The bound for a deviation d, the standard deviation and the squared
      deviations of k + 1 observations. */
  lemma ScoreBound(d: real, sd: real, m2: real, k: real)
    requires k > 0.0 && sd >= 0.0 && sd * sd * k == m2
    requires d * d * (k + 1.0) <= k * m2
    ensures var z := if sd == 0.0 then 0.0 else d / sd;
            && z * z * (k + 1.0) <= k * k
            && (d * d * (k + 1.0) == k * m2 && z != 0.0 ==> z * z * (k + 1.0) == k * k)
            && (d > 0.0 ==> z > 0.0)
  {
    var v := sd * sd;
    assert v * k == m2;
    SquareNonNegative(sd);
    if sd != 0.0 {
      ScaledBound(d, sd, v, k);
    } else {
      assert m2 == 0.0;
      NoSpreadNoDeviation(d, k);
      SquareNonNegative(k);
    }
  }

  lemma NoSpreadNoDeviation(d: real, k: real)
    requires k >= 0.0 && d * d * (k + 1.0) <= 0.0
    ensures d == 0.0
  {
    var q := d * d;
    if d != 0.0 {
      SquarePositive(d, q);
      PositiveProduct(q, k + 1.0);
    }
  }

  /** Because an observation is scored only after it has been absorbed, its
      z-score cannot grow past (n-1)/sqrt(n): outliers inflate their own
      baseline.  The bound is met whenever the earlier observations have no
      spread and the score is not zero. */
  lemma ZScoreBound(sqrt: real -> real, h: seq<real>, x: real)
    requires IsSqrt(sqrt)
    ensures var z := ZScoreOf(sqrt, Replay(h + [x]), x);
            && Bounded(z, |h|)
            && (SquaredDeviations(h, Mean(h)) == 0.0 && z != 0.0 ==> Extreme(z, |h|))
            && (h != [] && x > Mean(h) ==> z > 0.0)
  {
    OnlineIsBatch(h);
    ReplayAppend(h, x);
    ZScoreBoundOfStats(sqrt, Replay(h), x);
  }

  lemma ReplayAppend(h: seq<real>, x: real)
    ensures Replay(h + [x]) == Absorb(Replay(h), x)
  {
    assert (h + [x])[..|h|] == h;
  }

  /** The arithmetic of the bound: d is the deviation, s the standard one and
      v its square. */
  lemma ScaledBound(d: real, s: real, v: real, k: real)
    requires s > 0.0 && s * s == v && v >= 0.0
    requires d * d * (k + 1.0) <= k * (v * k)
    ensures (d / s) * (d / s) * (k + 1.0) <= k * k
    ensures d * d * (k + 1.0) == k * (v * k) ==> (d / s) * (d / s) * (k + 1.0) == k * k
    ensures d > 0.0 ==> d / s > 0.0
  {
    var z := d / s;
    assert d == z * s;
    SquarePositive(s, v);
    var (lhs, rhs) := (z * z * (k + 1.0), k * k);
    assert d * d * (k + 1.0) == lhs * v by { assert d * d == z * z * v; }
    assert k * (v * k) == rhs * v;
    assert lhs <= rhs by { MulCancel(lhs, rhs, v); }
    assert rhs * v <= lhs * v ==> rhs <= lhs by { MulCancel(rhs, lhs, v); }
    if z <= 0.0 {
      assert d <= 0.0 by { MulMonotone(z, 0.0, s); }
    }
  }

  /** The number of observations a score needs: a z of 2 takes 6, a z of 2.5
      takes 9 and a z of 3 takes 11. */
  lemma ZScoreNeedsHistory(sqrt: real -> real, h: seq<real>, x: real)
    requires IsSqrt(sqrt)
    ensures var z := ZScoreOf(sqrt, Replay(h + [x]), x);
            && (z >= 2.0 ==> |h| + 1 >= 6)
            && (z >= 2.5 ==> |h| + 1 >= 9)
            && (z >= 3.0 ==> |h| + 1 >= 11)
  {
    hide SquaredDeviations, ZScoreOf, Replay, Mean, Bounded, Extreme;
    ZScoreBound(sqrt, h, x);
    var (z, k) := (ZScoreOf(sqrt, Replay(h + [x]), x), |h|);
    SmallHistories(k);
    if z >= 2.0 { Limits(z, 2.0, k); }
    if z >= 2.5 { Limits(z, 2.5, k); }
    if z >= 3.0 { Limits(z, 3.0, k); }
  }

  lemma Limits(z: real, t: real, k: nat)
    requires z >= t >= 0.0
    requires Bounded(z, k)
    ensures t * t * (k as real + 1.0) <= k as real * k as real
  {
    SquareOrder(t, z);
    MulMonotone(t * t, z * z, k as real + 1.0);
  }

  /** Which thresholds the bound puts out of reach of k earlier observations. */
  lemma SmallHistories(k: nat)
    ensures 2.0 * 2.0 * (k as real + 1.0) <= k as real * k as real <==> k >= 5
    ensures 2.5 * 2.5 * (k as real + 1.0) <= k as real * k as real <==> k >= 8
    ensures 3.0 * 3.0 * (k as real + 1.0) <= k as real * k as real <==> k >= 10
  {
    var r := k as real;
    if k >= 10 { LargeSquare(r); }
    else if k == 9 { assert r == 9.0; assert r * r == 81.0; }
    else if k == 8 { assert r == 8.0; assert r * r == 64.0; }
    else if k == 7 { assert r == 7.0; assert r * r == 49.0; }
    else if k == 6 { assert r == 6.0; assert r * r == 36.0; }
    else if k == 5 { assert r == 5.0; assert r * r == 25.0; }
    else { SmallSquare(r); }
  }

  lemma SmallSquare(r: real)
    requires 0.0 <= r <= 4.0
    ensures r * r < 4.0 * (r + 1.0)
  {
    assert r * r <= 4.0 * r by { MulMonotone(r, 4.0, r); }
  }

  lemma LargeSquare(r: real)
    requires r >= 10.0
    ensures r * r >= 9.0 * (r + 1.0)
  {
    assert r * r >= 10.0 * r by { MulMonotone(10.0, r, r); }
  }

  /** The limits are tight: equal observations and a larger one after them meet
      the bound, so the sixth can score 2, the ninth 2.5 and the eleventh 3. */
  lemma ThresholdsAreReached(sqrt: real -> real, h: seq<real>, c: real, x: real)
    requires IsSqrt(sqrt) && x > c
    requires forall i :: 0 <= i < |h| ==> h[i] == c
    ensures var (z, k) := (ZScoreOf(sqrt, Replay(h + [x]), x), |h|);
            && (z >= 2.0 <==> k >= 5)
            && (z >= 2.5 <==> k >= 8)
            && (z >= 3.0 <==> k >= 10)
  {
    hide IsSqrt, Replay, ZScoreOf, Bounded, Extreme;
    var (z, k) := (ZScoreOf(sqrt, Replay(h + [x]), x), |h|);
    ZScoreNeedsHistory(sqrt, h, x);
    if h != [] {
      ConstantHistoryNeverScores(sqrt, h, c, x);
      ReplayAppend(h, x);
      ZScoreBoundOfStats(sqrt, Replay(h), x);
      SmallHistories(k);
      if k >= 5 { Reaches(z, 2.0, k); }
      if k >= 8 { Reaches(z, 2.5, k); }
      if k >= 10 { Reaches(z, 3.0, k); }
    }
  }

  lemma Reaches(z: real, t: real, k: nat)
    requires z >= 0.0 && t >= 0.0
    requires Extreme(z, k)
    requires t * t * (k as real + 1.0) <= k as real * k as real
    ensures z >= t
  {
    MulCancel(t * t, z * z, k as real + 1.0);
    SquareOrder(t, z);
  }

  /** A constant history has no spread, so it never scores. */
  lemma {:induction false} ConstantHistoryNeverScores(sqrt: real -> real, h: seq<real>, x: real, observed: real)
    requires IsSqrt(sqrt)
    requires forall i :: 0 <= i < |h| ==> h[i] == x
    ensures h != [] ==> Replay(h) == Stats(|h|, x, 0.0)
    ensures ZScoreOf(sqrt, Replay(h), observed) == 0.0
  {
    if h != [] {
      var rest := h[..|h|-1];
      ConstantHistoryNeverScores(sqrt, rest, x, observed);
      assert sqrt(0.0) * sqrt(0.0) == 0.0;
    }
  }
}

/** Confidence calibration: an equal-frequency curve and its interpolation. */
module Calibration {
  import opened Wrappers
  import opened Reals
  import opened Rounding
  import opened Sorting
  import opened Temperature

  datatype Sample = Sample(confidence: real, correct: bool)

  /** An entry of the curve: bin index, centre and accuracy. */
  datatype Bin = Bin(index: int, center: real, accuracy: real)

  const MIN_SAMPLES := 20

  // ---- Bins -------------------------------------------------------------------

  function BinCount(length: nat, nBins: int): int {
    var capped := if nBins < length / 3 then nBins else length / 3;
    if capped > 2 then capped else 2
  }

  /** Where bin i starts: a multiple of the real bin size, rounded. */
  function Boundary(length: nat, n: int, i: int): int
    requires n > 0
  {
    MultipleOf(length as real / n as real, i)
  }

  function MultipleOf(size: real, i: int): int {
    Round(i as real * size)
  }

  /** The boundaries start at 0, end at the length and strictly increase, so no
      bin is empty. */
  lemma BoundariesPartition(length: nat, nBins: int, i: nat)
    requires length >= MIN_SAMPLES && i < BinCount(length, nBins)
    ensures var n := BinCount(length, nBins);
            && 2 <= n && Boundary(length, n, 0) == 0 && Boundary(length, n, n) == length
            && 0 <= Boundary(length, n, i) < Boundary(length, n, i + 1) <= length
  {
    hide MultipleOf;
    var n := BinCount(length, nBins);
    BinSize(length, n);
    EndBoundaries(length, n, length as real / n as real);
    InnerBoundaries(length, n, length as real / n as real, i);
  }

  lemma EndBoundaries(length: nat, n: int, size: real)
    requires n as real * size == length as real
    ensures MultipleOf(size, 0) == 0 && MultipleOf(size, n) == length
  {
    FirstBoundary(size, 0);
    RoundOfInteger(length);
  }

  lemma FirstBoundary(size: real, i: int)
    requires i == 0
    ensures MultipleOf(size, i) == 0
  {
    var x := i as real * size;
    assert x == 0.0;
    RoundOfInteger(0);
  }

  lemma InnerBoundaries(length: nat, n: int, size: real, i: nat)
    requires size >= 3.0 && n as real * size == length as real && i < n
    ensures 0 <= MultipleOf(size, i) < MultipleOf(size, i + 1) <= length
  {
    hide Round;
    var (x, y) := (i as real * size, (i + 1) as real * size);
    assert y == x + size by { assert (i + 1) as real == i as real + 1.0; }
    assert 0.0 <= x by { ProductNonNegative(i as real, size); }
    assert y <= length as real by { MulMonotone((i + 1) as real, n as real, size); }
    RoundGap(x, y, length);
  }

  lemma RoundGap(x: real, y: real, length: nat)
    requires 0.0 <= x && x + 3.0 <= y <= length as real
    ensures 0 <= Round(x) < Round(y) <= length
  {
    RoundIsNearest(x);
    RoundIsNearest(y);
    RoundMonotone(0.0, x);
    RoundOfInteger(0);
    RoundMonotone(y, length as real);
    RoundOfInteger(length);
  }

  lemma BinSize(length: nat, n: int)
    requires length >= MIN_SAMPLES && 2 <= n && (n == 2 || 3 * n <= length)
    ensures length as real / n as real >= 3.0
    ensures n as real * (length as real / n as real) == length as real
  {
    assert 3 * n <= length;
    Quotient(length as real, n as real);
  }

  lemma Quotient(a: real, n: real)
    requires n > 0.0 && 3.0 * n <= a
    ensures a / n >= 3.0 && n * (a / n) == a
  {
    var q := a / n;
    assert q * n == a;
    MulCancel(3.0, q, n);
  }

  /** The curve has as many bins as are asked for, but at least two and at most one for
      every three samples. */
  lemma BinsAsRequested(length: nat, nBins: int)
    requires length >= MIN_SAMPLES
    ensures 2 <= nBins && 3 * nBins <= length ==> BinCount(length, nBins) == nBins
    ensures nBins < 2 ==> BinCount(length, nBins) == 2
    ensures 3 * nBins > length ==> 3 * BinCount(length, nBins) <= length < 3 * (BinCount(length, nBins) + 1)
  {
  }

  /** The bins are of equal frequency: none is larger or smaller than an equal share
      of the samples by more than one. */
  lemma BinsOfEqualFrequency(sorted: seq<Sample>, nBins: int, i: nat)
    requires |sorted| >= MIN_SAMPLES && i < BinCount(|sorted|, nBins)
    ensures var (n, size) := (BinCount(|sorted|, nBins), |Bucket(sorted, nBins, i)|);
            n * (size - 1) <= |sorted| <= n * (size + 1)
  {
    hide MultipleOf;
    BoundariesPartition(|sorted|, nBins, i);
    var n := BinCount(|sorted|, nBins);
    var (share, size) := (|sorted| as real / n as real, |Bucket(sorted, nBins, i)|);
    BinSize(|sorted|, n);
    NeighbouringMultiples(share, i);
    assert size == MultipleOf(share, i + 1) - MultipleOf(share, i);
    ShareBound(n, size, |sorted|, share);
  }

  lemma NeighbouringMultiples(share: real, i: int)
    ensures share - 1.0 <= (MultipleOf(share, i + 1) - MultipleOf(share, i)) as real <= share + 1.0
  {
    hide Round;
    RoundIsNearest(i as real * share);
    RoundIsNearest((i + 1) as real * share);
    assert (i + 1) as real * share == i as real * share + share by { assert (i + 1) as real == i as real + 1.0; }
  }

  lemma ShareBound(n: int, size: int, length: nat, share: real)
    requires n > 0 && n as real * share == length as real && share - 1.0 <= size as real <= share + 1.0
    ensures n * (size - 1) <= length <= n * (size + 1)
  {
    RealShareBound(n as real, size as real, length as real, share);
    ProductOfIntegers(n, size - 1);
    ProductOfIntegers(n, size + 1);
    assert (size - 1) as real == size as real - 1.0 && (size + 1) as real == size as real + 1.0;
  }

  lemma RealShareBound(n: real, size: real, length: real, share: real)
    requires n > 0.0 && n * share == length && share - 1.0 <= size <= share + 1.0
    ensures n * (size - 1.0) <= length <= n * (size + 1.0)
  {
    var (low, high) := (size - 1.0, size + 1.0);
    ProductNonNegative(n, share - low);
    ProductNonNegative(n, high - share);
    assert n * (share - low) == n * share - n * low;
    assert n * (high - share) == n * high - n * share;
  }

  lemma ProductOfIntegers(a: int, b: int)
    ensures (a * b) as real == a as real * b as real
  {
  }

  function SumConfidence(b: seq<Sample>): real {
    if b == [] then 0.0 else SumConfidence(b[..|b|-1]) + b[|b|-1].confidence
  }

  function Correct(b: seq<Sample>): nat {
    if b == [] then 0 else Correct(b[..|b|-1]) + (if b[|b|-1].correct then 1 else 0)
  }

  function ByConfidence(s: Sample): real { s.confidence }

  /** The samples of bin i. */
  function Bucket(sorted: seq<Sample>, nBins: int, i: nat): seq<Sample>
    requires |sorted| >= MIN_SAMPLES && i < BinCount(|sorted|, nBins)
  {
    BoundariesPartition(|sorted|, nBins, i);
    var n := BinCount(|sorted|, nBins);
    sorted[Boundary(|sorted|, n, i)..Boundary(|sorted|, n, i + 1)]
  }

  function BinOf(b: seq<Sample>, i: int): Bin
    requires b != []
  {
    Bin(i, SumConfidence(b) / |b| as real, Correct(b) as real / |b| as real)
  }

  /** `update_calibration_curve`.  Every bin gets an entry: the code's test for
      an empty bin never succeeds. */
  method UpdateCalibrationCurve(history: seq<Sample>, nBins: int) returns (curve: seq<Bin>)
    ensures |history| < MIN_SAMPLES ==> curve == []
    ensures |history| >= MIN_SAMPLES ==>
              var sorted := SortBy(history, ByConfidence);
              && |sorted| == |history| && |curve| == BinCount(|history|, nBins)
              && forall i :: 0 <= i < |curve| ==>
                   && Bucket(sorted, nBins, i) != [] && curve[i] == BinOf(Bucket(sorted, nBins, i), i)
                   && curve[i].index == i
  {
    if |history| < MIN_SAMPLES {
      return [];
    }
    var sorted := SortBy(history, ByConfidence);
    SortSorts(history, ByConfidence);
    var n := BinCount(|sorted|, nBins);
    curve := [];
    for i := 0 to n
      invariant |curve| == i
      invariant forall j :: 0 <= j < i ==>
                  Bucket(sorted, nBins, j) != [] && curve[j] == BinOf(Bucket(sorted, nBins, j), j)
    {
      hide Boundary, SortBy;
      BoundariesPartition(|sorted|, nBins, i);
      var start := Boundary(|sorted|, n, i);
      var end := Boundary(|sorted|, n, i + 1);
      var bucket := sorted[start..end];
      if bucket != [] {
        curve := curve + [BinOf(bucket, i)];
      }
    }
  }

  // ---- What the curve preserves -------------------------------------------------

  lemma {:induction false} SumBounds(b: seq<Sample>)
    requires b != [] && SortedBy(b, ByConfidence)
    ensures b[0].confidence * |b| as real <= SumConfidence(b) <= b[|b|-1].confidence * |b| as real
  {
    var rest, last := b[..|b|-1], b[|b|-1].confidence;
    if rest == [] {
      assert SumConfidence(b) == last;
    } else {
      SumBounds(rest);
      var k := |rest| as real;
      assert rest[|rest|-1].confidence * k <= last * k by { MulMonotone(rest[|rest|-1].confidence, last, k); }
      assert |b| as real == k + 1.0;
      assert last * (k + 1.0) == last * k + last;
      assert b[0].confidence * (k + 1.0) == b[0].confidence * k + b[0].confidence;
    }
  }

  lemma CenterBounds(b: seq<Sample>, i: int)
    requires b != [] && SortedBy(b, ByConfidence)
    ensures b[0].confidence <= BinOf(b, i).center <= b[|b|-1].confidence
  {
    SumBounds(b);
    RatioBounds(b[0].confidence, SumConfidence(b), b[|b|-1].confidence, |b| as real);
  }

  lemma RatioBounds(low: real, sum: real, high: real, n: real)
    requires n > 0.0 && low * n <= sum <= high * n
    ensures low <= sum / n <= high
  {
    var q := sum / n;
    assert q * n == sum;
    MulCancel(low, q, n);
    MulCancel(q, high, n);
  }

  /** The centres are in order, so sorting the curve by centre changes nothing. */
  lemma CentersInOrder(sorted: seq<Sample>, nBins: int, i: nat, j: nat)
    requires |sorted| >= MIN_SAMPLES && SortedBy(sorted, ByConfidence)
    requires i < j < BinCount(|sorted|, nBins)
    ensures Bucket(sorted, nBins, i) != [] && Bucket(sorted, nBins, j) != []
    ensures BinOf(Bucket(sorted, nBins, i), i).center <= BinOf(Bucket(sorted, nBins, j), j).center
  {
    hide BinOf, Boundary;
    var n := BinCount(|sorted|, nBins);
    BoundariesPartition(|sorted|, nBins, i);
    BoundariesPartition(|sorted|, nBins, j);
    BoundariesIncrease(|sorted|, nBins, i + 1, j);
    var (a, b) := (Bucket(sorted, nBins, i), Bucket(sorted, nBins, j));
    CenterBounds(a, i);
    CenterBounds(b, j);
    assert a[|a|-1] == sorted[Boundary(|sorted|, n, i + 1) - 1];
    assert b[0] == sorted[Boundary(|sorted|, n, j)];
  }

  lemma {:induction false} BoundariesIncrease(length: nat, nBins: int, i: nat, j: nat)
    requires length >= MIN_SAMPLES && i <= j < BinCount(length, nBins)
    ensures Boundary(length, BinCount(length, nBins), i) <= Boundary(length, BinCount(length, nBins), j)
  {
    hide Boundary;
    if i < j {
      BoundariesPartition(length, nBins, j - 1);
      BoundariesIncrease(length, nBins, i, j - 1);
    }
  }

  lemma {:induction false} CorrectConcat(a: seq<Sample>, b: seq<Sample>)
    ensures Correct(a + b) == Correct(a) + Correct(b)
  {
    if b == [] {
      assert a + b == a;
    } else {
      assert (a + b)[..|a + b|-1] == a + b[..|b|-1];
      CorrectConcat(a, b[..|b|-1]);
    }
  }

  lemma {:induction false} CorrectInsert(xs: seq<Sample>, x: Sample)
    ensures Correct(Insert(xs, x, ByConfidence)) == Correct(xs) + (if x.correct then 1 else 0)
  {
    CorrectConcat(xs, [x]);
    if xs != [] && ByConfidence(xs[|xs|-1]) > ByConfidence(x) {
      var rest, last := xs[..|xs|-1], xs[|xs|-1];
      CorrectInsert(rest, x);
      CorrectConcat(Insert(rest, x, ByConfidence), [last]);
    }
  }

  lemma {:induction false} CorrectSort(xs: seq<Sample>)
    ensures Correct(SortBy(xs, ByConfidence)) == Correct(xs)
  {
    if xs != [] {
      CorrectSort(xs[..|xs|-1]);
      CorrectInsert(SortBy(xs[..|xs|-1], ByConfidence), xs[|xs|-1]);
    }
  }

  /** The accuracies of the first k bins, each weighted by its size. */
  function WeightedAccuracy(sorted: seq<Sample>, nBins: int, k: nat): real
    requires |sorted| >= MIN_SAMPLES && k <= BinCount(|sorted|, nBins)
  {
    if k == 0 then 0.0
    else
      BoundariesPartition(|sorted|, nBins, k - 1);
      var b := Bucket(sorted, nBins, k - 1);
      WeightedAccuracy(sorted, nBins, k - 1) + |b| as real * BinOf(b, k - 1).accuracy
  }

  lemma AccuracyFacts(b: seq<Sample>, i: int)
    requires b != []
    ensures |b| as real * BinOf(b, i).accuracy == Correct(b) as real
    ensures 0.0 <= BinOf(b, i).accuracy <= 1.0
  {
    CorrectAtMost(b);
    RatioBounds(0.0, Correct(b) as real, 1.0, |b| as real);
  }

  lemma {:induction false} CorrectAtMost(b: seq<Sample>)
    ensures Correct(b) <= |b|
  {
    if b != [] { CorrectAtMost(b[..|b|-1]); }
  }

  lemma WeightedStep(sorted: seq<Sample>, nBins: int, k: nat)
    requires |sorted| >= MIN_SAMPLES && k < BinCount(|sorted|, nBins)
    ensures WeightedAccuracy(sorted, nBins, k + 1)
            == WeightedAccuracy(sorted, nBins, k) + Correct(Bucket(sorted, nBins, k)) as real
  {
    hide Boundary, BinOf, Correct;
    BoundariesPartition(|sorted|, nBins, k);
    AccuracyFacts(Bucket(sorted, nBins, k), k);
  }

  lemma {:induction false} WeightedPrefix(sorted: seq<Sample>, nBins: int, k: nat)
    requires |sorted| >= MIN_SAMPLES && k <= BinCount(|sorted|, nBins)
    ensures var b := Boundary(|sorted|, BinCount(|sorted|, nBins), k);
            0 <= b <= |sorted| && WeightedAccuracy(sorted, nBins, k) == Correct(sorted[..b]) as real
  {
    hide Boundary;
    BoundariesPartition(|sorted|, nBins, 0);
    if k == 0 {
      assert sorted[..0] == [];
    } else {
      hide WeightedAccuracy;
      var n := BinCount(|sorted|, nBins);
      WeightedPrefix(sorted, nBins, k - 1);
      WeightedStep(sorted, nBins, k - 1);
      BoundariesPartition(|sorted|, nBins, k - 1);
      var (s, e) := (Boundary(|sorted|, n, k - 1), Boundary(|sorted|, n, k));
      var b := Bucket(sorted, nBins, k - 1);
      CorrectConcat(sorted[..s], b);
      assert sorted[..s] + sorted[s..e] == sorted[..e];
    }
  }

  /** Main result: no outcome is lost or counted twice.  The accuracies of the
      bins, weighted by their sizes, add up to the correct outcomes of the
      history. */
  lemma CurveConservesOutcomes(history: seq<Sample>, nBins: int)
    requires |history| >= MIN_SAMPLES
    ensures var sorted := SortBy(history, ByConfidence);
            && |sorted| == |history|
            && WeightedAccuracy(sorted, nBins, BinCount(|history|, nBins)) == Correct(history) as real
  {
    hide Boundary;
    var sorted := SortBy(history, ByConfidence);
    SortSorts(history, ByConfidence);
    CorrectSort(history);
    BoundariesPartition(|sorted|, nBins, 0);
    WeightedPrefix(sorted, nBins, BinCount(|sorted|, nBins));
    assert sorted[..|sorted|] == sorted;
  }

  lemma {:induction false} ConfidenceConcat(a: seq<Sample>, b: seq<Sample>)
    ensures SumConfidence(a + b) == SumConfidence(a) + SumConfidence(b)
  {
    if b == [] {
      assert a + b == a;
    } else {
      assert (a + b)[..|a + b|-1] == a + b[..|b|-1];
      ConfidenceConcat(a, b[..|b|-1]);
    }
  }

  lemma OneConfidence(s: Sample)
    ensures SumConfidence([s]) == s.confidence
  {
    assert [s][..0] == [];
  }

  lemma {:induction false} ConfidenceInsert(xs: seq<Sample>, x: Sample)
    ensures SumConfidence(Insert(xs, x, ByConfidence)) == SumConfidence(xs) + x.confidence
  {
    ConfidenceConcat(xs, [x]);
    OneConfidence(x);
    if xs != [] && ByConfidence(xs[|xs|-1]) > ByConfidence(x) {
      var rest, last := xs[..|xs|-1], xs[|xs|-1];
      ConfidenceInsert(rest, x);
      ConfidenceConcat(Insert(rest, x, ByConfidence), [last]);
      OneConfidence(last);
    }
  }

  lemma {:induction false} ConfidenceSort(xs: seq<Sample>)
    ensures SumConfidence(SortBy(xs, ByConfidence)) == SumConfidence(xs)
  {
    if xs != [] {
      ConfidenceSort(xs[..|xs|-1]);
      ConfidenceInsert(SortBy(xs[..|xs|-1], ByConfidence), xs[|xs|-1]);
    }
  }

  /** The centres of the first k bins, each weighted by its size. */
  function WeightedCenter(sorted: seq<Sample>, nBins: int, k: nat): real
    requires |sorted| >= MIN_SAMPLES && k <= BinCount(|sorted|, nBins)
  {
    if k == 0 then 0.0
    else
      BoundariesPartition(|sorted|, nBins, k - 1);
      var b := Bucket(sorted, nBins, k - 1);
      WeightedCenter(sorted, nBins, k - 1) + |b| as real * BinOf(b, k - 1).center
  }

  lemma CenterFacts(b: seq<Sample>, i: int)
    requires b != []
    ensures |b| as real * BinOf(b, i).center == SumConfidence(b)
  {
  }

  lemma CenterStep(sorted: seq<Sample>, nBins: int, k: nat)
    requires |sorted| >= MIN_SAMPLES && k < BinCount(|sorted|, nBins)
    ensures WeightedCenter(sorted, nBins, k + 1)
            == WeightedCenter(sorted, nBins, k) + SumConfidence(Bucket(sorted, nBins, k))
  {
    hide Boundary, BinOf, SumConfidence;
    BoundariesPartition(|sorted|, nBins, k);
    CenterFacts(Bucket(sorted, nBins, k), k);
  }

  lemma {:induction false} CenterPrefix(sorted: seq<Sample>, nBins: int, k: nat)
    requires |sorted| >= MIN_SAMPLES && k <= BinCount(|sorted|, nBins)
    ensures var b := Boundary(|sorted|, BinCount(|sorted|, nBins), k);
            0 <= b <= |sorted| && WeightedCenter(sorted, nBins, k) == SumConfidence(sorted[..b])
  {
    hide Boundary;
    BoundariesPartition(|sorted|, nBins, 0);
    if k == 0 {
      assert sorted[..0] == [];
    } else {
      hide WeightedCenter;
      var n := BinCount(|sorted|, nBins);
      CenterPrefix(sorted, nBins, k - 1);
      CenterStep(sorted, nBins, k - 1);
      BoundariesPartition(|sorted|, nBins, k - 1);
      var (s, e) := (Boundary(|sorted|, n, k - 1), Boundary(|sorted|, n, k));
      var b := Bucket(sorted, nBins, k - 1);
      ConfidenceConcat(sorted[..s], b);
      assert sorted[..s] + sorted[s..e] == sorted[..e];
    }
  }

  /** Nor is any confidence: the centres, weighted by bin size, add up to the
      confidences of the history. */
  lemma CurveConservesConfidence(history: seq<Sample>, nBins: int)
    requires |history| >= MIN_SAMPLES
    ensures var sorted := SortBy(history, ByConfidence);
            && |sorted| == |history|
            && WeightedCenter(sorted, nBins, BinCount(|history|, nBins)) == SumConfidence(history)
  {
    hide Boundary;
    var sorted := SortBy(history, ByConfidence);
    SortSorts(history, ByConfidence);
    ConfidenceSort(history);
    BoundariesPartition(|sorted|, nBins, 0);
    CenterPrefix(sorted, nBins, BinCount(|sorted|, nBins));
    assert sorted[..|sorted|] == sorted;
  }

  // ---- Interpolation --------------------------------------------------------------

  function ByCenter(b: Bin): real { b.center }

  /** The last of the first n bins whose centre is at most x, or -1. */
  function LeftBin(bins: seq<Bin>, x: real, n: nat): (l: int)
    requires n <= |bins|
    ensures -1 <= l < n
    ensures l >= 0 ==> bins[l].center <= x
    ensures forall i :: l < i < n ==> bins[i].center > x
  {
    if n == 0 then -1 else if bins[n-1].center <= x then n - 1 else LeftBin(bins, x, n - 1)
  }

  /** The first of the first n bins whose centre is at least x, or -1. */
  function RightBin(bins: seq<Bin>, x: real, n: nat): (r: int)
    requires n <= |bins|
    ensures -1 <= r < n
    ensures r >= 0 ==> bins[r].center >= x
    ensures forall i :: 0 <= i < (if r >= 0 then r else n) ==> bins[i].center < x
  {
    if n == 0 then -1
    else
      var earlier := RightBin(bins, x, n - 1);
      if earlier >= 0 then earlier else if bins[n-1].center >= x then n - 1 else -1
  }

  function Between(left: Bin, right: Bin, x: real): real {
    if right.center > left.center then
      left.accuracy + (x - left.center) / (right.center - left.center) * (right.accuracy - left.accuracy)
    else (left.accuracy + right.accuracy) / 2.0
  }

  /** The calibrated value of x on bins sorted by centre. */
  function Interpolated(bins: seq<Bin>, x: real): real
    requires bins != []
  {
    var (l, r) := (LeftBin(bins, x, |bins|), RightBin(bins, x, |bins|));
    if l == -1 then bins[0].accuracy
    else if r == -1 then bins[|bins|-1].accuracy
    else if l == r then bins[l].accuracy
    else Between(bins[l], bins[r], x)
  }

  /** The bin whose index is reported with the value: the left one if there is
      one. */
  function Chosen(bins: seq<Bin>, x: real): (i: int)
    requires bins != []
    ensures 0 <= i < |bins|
  {
    var l := LeftBin(bins, x, |bins|);
    if l == -1 then 0 else if RightBin(bins, x, |bins|) == -1 then |bins| - 1 else l
  }

  lemma ScanStep(bins: seq<Bin>, x: real, i: nat)
    requires i < |bins|
    ensures LeftBin(bins, x, i + 1) == if bins[i].center <= x then i else LeftBin(bins, x, i)
    ensures RightBin(bins, x, i + 1)
            == if RightBin(bins, x, i) == -1 && bins[i].center >= x then i else RightBin(bins, x, i)
  {
  }

  datatype Calibrated = Calibrated(raw: real, value: real, temperature: real, binIndex: int) | ZeroTemperature

  /** `calibrate`.  Without a curve the scaled confidence is returned as it is,
      with bin index -1; without a temperature the configured one is used. */
  method Calibrate(exp: real -> real, log: real -> real, raw: real, curve: seq<Bin>, temperature: Option<real>,
                   configured: real)
    returns (r: Calibrated)
    requires IsExpLog(exp, log)
    ensures var t := if temperature.Some? then temperature.value else configured;
            if t == 0.0 then r == ZeroTemperature
            else
              var (x, bins) := (Scaled(exp, log, raw, t), SortBy(curve, ByCenter));
              && |bins| == |curve|
              && r == if curve == [] then Calibrated(raw, x, t, -1)
                      else Calibrated(raw, Interpolated(bins, x), t, bins[Chosen(bins, x)].index)
  {
    hide SortBy, Between, LeftBin, RightBin, Scaled, IsExpLog;
    SortSorts(curve, ByCenter);
    var t := if temperature.Some? then temperature.value else configured;
    if t == 0.0 {
      return ZeroTemperature;
    }
    var scaled := Scaled(exp, log, raw, t);
    if curve == [] {
      return Calibrated(raw, scaled, t, -1);
    }
    var bins := SortBy(curve, ByCenter);
    var left, right := Surrounding(bins, scaled);
    if left == -1 {
      return Calibrated(raw, bins[0].accuracy, t, bins[0].index);
    }
    if right == -1 {
      return Calibrated(raw, bins[|bins|-1].accuracy, t, bins[|bins|-1].index);
    }
    var value;
    if left == right {
      value := bins[left].accuracy;
    } else {
      value := Interpolate(bins[left], bins[right], scaled);
    }
    return Calibrated(raw, value, t, bins[left].index);
  }

  /** Locates the bins around x. */
  method Surrounding(bins: seq<Bin>, x: real) returns (left: int, right: int)
    ensures left == LeftBin(bins, x, |bins|) && right == RightBin(bins, x, |bins|)
  {
    hide LeftBin, RightBin;
    left, right := -1, -1;
    for i := 0 to |bins|
      invariant left == LeftBin(bins, x, i)
      invariant right == RightBin(bins, x, i)
    {
      ScanStep(bins, x, i);
      if bins[i].center <= x {
        left := i;
      }
      if bins[i].center >= x && right == -1 {
        right := i;
      }
    }
  }

  method Interpolate(l: Bin, r: Bin, scaled: real) returns (value: real)
    ensures value == Between(l, r, scaled)
  {
    if r.center > l.center {
      var frac := (scaled - l.center) / (r.center - l.center);
      value := l.accuracy + frac * (r.accuracy - l.accuracy);
    } else {
      value := (l.accuracy + r.accuracy) / 2.0;
    }
  }

  /** A curve built from a history is already sorted by centre, so the bins that
      are interpolated are the bins of the curve. */
  lemma CurveIsSorted(sorted: seq<Sample>, nBins: int, curve: seq<Bin>)
    requires |sorted| >= MIN_SAMPLES && SortedBy(sorted, ByConfidence) && |curve| == BinCount(|sorted|, nBins)
    requires forall i :: 0 <= i < |curve| ==>
               Bucket(sorted, nBins, i) != [] && curve[i] == BinOf(Bucket(sorted, nBins, i), i)
    ensures SortBy(curve, ByCenter) == curve
    ensures forall i :: 0 <= i < |curve| ==> 0.0 <= curve[i].accuracy <= 1.0
  {
    hide Bucket, BinOf;
    forall i, j | 0 <= i < j < |curve| ensures ByCenter(curve[i]) <= ByCenter(curve[j]) {
      CentersInOrder(sorted, nBins, i, j);
    }
    SortOfSorted(curve, ByCenter);
    forall i | 0 <= i < |curve| ensures 0.0 <= curve[i].accuracy <= 1.0 {
      AccuracyFacts(Bucket(sorted, nBins, i), i);
    }
  }

  /** The bins whose accuracies bound the value at x, in sorted bins: the two
      neighbours, or the ends of the run of bins centred exactly at x. */
  function LowBin(bins: seq<Bin>, x: real): int
    requires bins != []
  {
    var (l, r) := (LeftBin(bins, x, |bins|), RightBin(bins, x, |bins|));
    if l == -1 then 0 else if r == -1 then |bins| - 1 else if r <= l then r else l
  }

  function HighBin(bins: seq<Bin>, x: real): int
    requires bins != []
  {
    var (l, r) := (LeftBin(bins, x, |bins|), RightBin(bins, x, |bins|));
    if l == -1 then 0 else if r == -1 then |bins| - 1 else if r <= l then l else r
  }

  lemma NeighboursOf(bins: seq<Bin>, x: real)
    requires bins != [] && SortedBy(bins, ByCenter)
    ensures var (l, r) := (LeftBin(bins, x, |bins|), RightBin(bins, x, |bins|));
            && (l >= 0 && r >= 0 && l < r ==> r == l + 1 && bins[l].center < x < bins[r].center)
            && (l >= 0 && r >= 0 && r <= l ==> bins[l].center == bins[r].center == x)
            && (l == -1 ==> r == 0) && (r == -1 ==> l == |bins| - 1)
  {
    hide LeftBin, RightBin;
    var (l, r) := (LeftBin(bins, x, |bins|), RightBin(bins, x, |bins|));
    if l >= 0 && r >= 0 && r <= l {
      assert r < l ==> ByCenter(bins[r]) <= ByCenter(bins[l]);
    }
    var next := l + 1;
    assert next < |bins| ==> bins[next].center > x;
    assert l >= 0 && r > l ==> bins[l].center < x;
    assert r >= 0 && l < r ==> bins[r].center > x;
    assert r == -1 ==> bins[|bins|-1].center < x;
    assert l == -1 ==> bins[0].center > x;
  }

  /** The interpolation formula stays between its ends and moves with x. */
  lemma BetweenIsConvex(left: Bin, right: Bin, x: real)
    requires left.center <= x <= right.center
    ensures var (a, b, v) := (left.accuracy, right.accuracy, Between(left, right, x));
            (a <= v <= b) || (b <= v <= a)
  {
    if right.center > left.center {
      var f := (x - left.center) / (right.center - left.center);
      assert 0.0 <= f <= 1.0 by { RatioBounds(0.0, x - left.center, 1.0, right.center - left.center); }
      Convex(left.accuracy, right.accuracy, f, Between(left, right, x));
    }
  }

  lemma Convex(a: real, b: real, f: real, v: real)
    requires 0.0 <= f <= 1.0 && v == a + f * (b - a)
    ensures a <= b ==> a <= v <= b
    ensures b <= a ==> b <= v <= a
  {
    var d := b - a;
    SplitProduct(f, d, f * d, (1.0 - f) * d);
  }

  lemma SplitProduct(f: real, d: real, part: real, rest: real)
    requires 0.0 <= f <= 1.0 && part == f * d && rest == (1.0 - f) * d
    ensures part + rest == d
    ensures d >= 0.0 ==> part >= 0.0 && rest >= 0.0
    ensures d <= 0.0 ==> part <= 0.0 && rest <= 0.0
  {
    if d >= 0.0 {
      ProductNonNegative(f, d);
      ProductNonNegative(1.0 - f, d);
    } else {
      NegatedProduct(f, d);
      NegatedProduct(1.0 - f, d);
    }
  }

  lemma NegatedProduct(f: real, d: real)
    requires f >= 0.0 && d <= 0.0
    ensures f * d <= 0.0
  {
    ProductNonNegative(f, -d);
    assert f * (-d) == -(f * d);
  }

  lemma BetweenMonotone(left: Bin, right: Bin, x: real, y: real)
    requires left.center < right.center && x <= y && left.accuracy <= right.accuracy
    ensures Between(left, right, x) <= Between(left, right, y)
  {
    var (d, rise) := (right.center - left.center, right.accuracy - left.accuracy);
    var (f, g) := ((x - left.center) / d, (y - left.center) / d);
    assert f <= g by {
      assert f * d == x - left.center && g * d == y - left.center;
      MulCancel(f, g, d);
    }
    MulMonotone(f, g, rise);
  }

  /** The value at x lies between the accuracies of the two bins around x. */
  lemma ValueIsBetweenNeighbours(bins: seq<Bin>, x: real)
    requires bins != [] && SortedBy(bins, ByCenter)
    ensures var (a, b, v) := (bins[LowBin(bins, x)].accuracy, bins[HighBin(bins, x)].accuracy, Interpolated(bins, x));
            (a <= v <= b) || (b <= v <= a)
  {
    hide Between;
    NeighboursOf(bins, x);
    var (l, r) := (LeftBin(bins, x, |bins|), RightBin(bins, x, |bins|));
    if l >= 0 && r >= 0 && l != r {
      if l < r {
        BetweenIsConvex(bins[l], bins[r], x);
      } else {
        EqualCenters(bins[l], bins[r], x);
      }
    }
  }

  lemma EqualCenters(left: Bin, right: Bin, x: real)
    requires left.center == right.center
    ensures Between(left, right, x) == (left.accuracy + right.accuracy) / 2.0
  {
  }

  /** Calibrated values are probabilities when the accuracies are, whatever the
      scaled confidence. */
  lemma CalibratedIsProbability(bins: seq<Bin>, x: real)
    requires bins != [] && SortedBy(bins, ByCenter)
    requires forall i :: 0 <= i < |bins| ==> 0.0 <= bins[i].accuracy <= 1.0
    ensures 0.0 <= Interpolated(bins, x) <= 1.0
  {
    hide Interpolated;
    ValueIsBetweenNeighbours(bins, x);
  }

  /** At the centre of a bin, if no other bin has it, the value is that bin's
      accuracy. */
  lemma ExactAtCenter(bins: seq<Bin>, i: nat)
    requires i < |bins| && SortedBy(bins, ByCenter)
    requires forall j :: 0 <= j < |bins| && j != i ==> bins[j].center != bins[i].center
    ensures Interpolated(bins, bins[i].center) == bins[i].accuracy
  {
    NeighboursOf(bins, bins[i].center);
  }

  lemma HighBelowLow(bins: seq<Bin>, x: real, y: real)
    requires bins != [] && SortedBy(bins, ByCenter) && x < y
    ensures HighBin(bins, x) <= LowBin(bins, y)
            || (LeftBin(bins, x, |bins|) == LeftBin(bins, y, |bins|) >= 0
                && RightBin(bins, x, |bins|) == RightBin(bins, y, |bins|) == LeftBin(bins, x, |bins|) + 1)
  {
    hide LeftBin, RightBin, SortedBy;
    NeighboursOf(bins, x);
    NeighboursOf(bins, y);
    LeftBinsInOrder(bins, x, y);
    RightBinsInOrder(bins, x, y);
    LeftBeforeRight(bins, x, y);
  }

  lemma LeftBeforeRight(bins: seq<Bin>, x: real, y: real)
    requires SortedBy(bins, ByCenter) && x < y
    ensures var (l, r) := (LeftBin(bins, x, |bins|), RightBin(bins, y, |bins|)); l >= 0 && r >= 0 ==> l < r
  {
    hide LeftBin, RightBin;
    var (l, r) := (LeftBin(bins, x, |bins|), RightBin(bins, y, |bins|));
    assert 0 <= r < l ==> ByCenter(bins[r]) <= ByCenter(bins[l]);
  }

  lemma LeftBinsInOrder(bins: seq<Bin>, x: real, y: real)
    requires x < y
    ensures LeftBin(bins, x, |bins|) <= LeftBin(bins, y, |bins|)
    ensures RightBin(bins, x, |bins|) >= 0 && LeftBin(bins, y, |bins|) < RightBin(bins, x, |bins|) ==>
              bins[RightBin(bins, x, |bins|)].center > y
  {
    hide LeftBin, RightBin;
  }

  lemma RightBinsInOrder(bins: seq<Bin>, x: real, y: real)
    requires x < y
    ensures RightBin(bins, y, |bins|) >= 0 ==> 0 <= RightBin(bins, x, |bins|) <= RightBin(bins, y, |bins|)
  {
    hide RightBin;
  }

  // ---- When calibration is monotone -------------------------------------------

  /** A bin at an end of the run of bins with its centre.  The bins within a run
      are never read. */
  predicate Edge(bins: seq<Bin>, i: nat)
    requires i < |bins|
  {
    || i == 0 || i == |bins| - 1
    || bins[i-1].center < bins[i].center || bins[i].center < bins[i+1].center
  }

  ghost predicate EdgesInOrder(bins: seq<Bin>) {
    forall i, j :: 0 <= i < j < |bins| && Edge(bins, i) && Edge(bins, j) ==> bins[i].accuracy <= bins[j].accuracy
  }

  ghost predicate IsMonotone(bins: seq<Bin>)
    requires bins != []
  {
    forall x, y :: x <= y ==> Interpolated(bins, x) <= Interpolated(bins, y)
  }

  lemma UsedBinsAreEdges(bins: seq<Bin>, x: real)
    requires bins != [] && SortedBy(bins, ByCenter)
    ensures 0 <= LowBin(bins, x) <= HighBin(bins, x) < |bins|
    ensures Edge(bins, LowBin(bins, x)) && Edge(bins, HighBin(bins, x))
  {
    var (l, r) := (LeftBin(bins, x, |bins|), RightBin(bins, x, |bins|));
    hide LeftBin, RightBin;
    NeighboursOf(bins, x);
    var (next, before) := (l + 1, r - 1);
    assert l >= 0 && next < |bins| ==> bins[next].center > x;
    assert r >= 1 ==> bins[before].center < x;
  }

  /** A higher confidence never calibrates to a lower value if the bins at the
      ends of runs are in order of accuracy. */
  lemma OrderedEdgesCalibrateMonotonely(bins: seq<Bin>, x: real, y: real)
    requires bins != [] && SortedBy(bins, ByCenter) && x <= y && EdgesInOrder(bins)
    ensures Interpolated(bins, x) <= Interpolated(bins, y)
  {
    hide Interpolated, LeftBin, RightBin, SortedBy, Edge;
    if x < y {
      HighBelowLow(bins, x, y);
      UsedBinsAreEdges(bins, x);
      UsedBinsAreEdges(bins, y);
      if HighBin(bins, x) <= LowBin(bins, y) {
        hide HighBin, LowBin;
        ValueIsBetweenNeighbours(bins, x);
        ValueIsBetweenNeighbours(bins, y);
      } else {
        SameGap(bins, x, y, LeftBin(bins, x, |bins|));
      }
    }
  }

  lemma SameGap(bins: seq<Bin>, x: real, y: real, l: nat)
    requires l + 1 < |bins| && SortedBy(bins, ByCenter) && x <= y
    requires EdgesInOrder(bins)
    requires LeftBin(bins, x, |bins|) == LeftBin(bins, y, |bins|) == l
    requires RightBin(bins, x, |bins|) == RightBin(bins, y, |bins|) == l + 1
    ensures Interpolated(bins, x) <= Interpolated(bins, y)
  {
    hide Between, SortedBy, LeftBin, RightBin;
    NeighboursOf(bins, x);
    assert Edge(bins, l) && Edge(bins, l + 1);
    BetweenMonotone(bins[l], bins[l+1], x, y);
  }

  /** Between two neighbouring centres the bins on either side give the value. */
  lemma GapValue(bins: seq<Bin>, k: nat, x: real)
    requires k + 1 < |bins| && SortedBy(bins, ByCenter) && bins[k].center < x < bins[k+1].center
    ensures Interpolated(bins, x) == Between(bins[k], bins[k+1], x)
  {
    hide Between, LeftBin, RightBin;
    var (l, r, n) := (LeftBin(bins, x, |bins|), RightBin(bins, x, |bins|), k + 1);
    assert forall i :: 0 <= i < k ==> ByCenter(bins[i]) <= ByCenter(bins[k]);
    assert forall i :: n < i < |bins| ==> ByCenter(bins[n]) <= ByCenter(bins[i]);
    assert l == k && r == n;
  }

  /** The point a share f of the way from one centre to the next, and its value. */
  lemma GapPoint(left: Bin, right: Bin, f: real) returns (x: real)
    requires left.center < right.center && 0.0 < f < 1.0
    ensures left.center < x < right.center
    ensures Between(left, right, x) == left.accuracy + f * (right.accuracy - left.accuracy)
  {
    var d := right.center - left.center;
    x := left.center + f * d;
    ShareIsInside(f, d, f * d);
    var q := (x - left.center) / d;
    assert q * d == f * d;
    assert q == f by { MulCancel(q, f, d); MulCancel(f, q, d); }
  }

  lemma ShareIsInside(f: real, d: real, part: real)
    requires 0.0 < f < 1.0 && d > 0.0 && part == f * d
    ensures 0.0 < part < d
  {
    var rest := (1.0 - f) * d;
    ProductIsPositive(f, d, part);
    ProductIsPositive(1.0 - f, d, rest);
    SplitProduct(f, d, part, rest);
  }

  /** Across a gap the accuracy does not fall. */
  lemma GapRises(bins: seq<Bin>, k: nat)
    requires k + 1 < |bins| && SortedBy(bins, ByCenter) && IsMonotone(bins) && bins[k].center < bins[k+1].center
    ensures bins[k].accuracy <= bins[k+1].accuracy
  {
    hide Between, Interpolated, SortedBy;
    var x := GapPoint(bins[k], bins[k+1], 0.25);
    var y := GapPoint(bins[k], bins[k+1], 0.5);
    GapValue(bins, k, x);
    GapValue(bins, k, y);
    assert x <= y ==> Interpolated(bins, x) <= Interpolated(bins, y);
    assert y <= x ==> Interpolated(bins, y) <= Interpolated(bins, x);
    PointsInOrder(bins[k], bins[k+1], x, y);
  }

  lemma PointsInOrder(left: Bin, right: Bin, x: real, y: real)
    requires left.center < right.center
    requires Between(left, right, x) == left.accuracy + 0.25 * (right.accuracy - left.accuracy)
    requires Between(left, right, y) == left.accuracy + 0.5 * (right.accuracy - left.accuracy)
    requires x <= y ==> Between(left, right, x) <= Between(left, right, y)
    requires y <= x ==> Between(left, right, y) <= Between(left, right, x)
    ensures left.accuracy <= right.accuracy
  {
    if right.accuracy < left.accuracy && y < x {
      var (a, b) := (Bin(left.index, left.center, right.accuracy), Bin(right.index, right.center, left.accuracy));
      BetweenMonotone(a, b, y, x);
    }
  }

  /** The centre of a run of several bins calibrates to the mean of its ends. */
  lemma RunValue(bins: seq<Bin>, f: nat, m: nat)
    requires f < m < |bins| && SortedBy(bins, ByCenter) && bins[f].center == bins[m].center
    requires f > 0 ==> bins[f-1].center < bins[f].center
    requires m + 1 < |bins| ==> bins[m].center < bins[m+1].center
    ensures Interpolated(bins, bins[f].center) == (bins[f].accuracy + bins[m].accuracy) / 2.0
  {
    hide LeftBin, RightBin;
    var x := bins[f].center;
    var (l, r, before, next) := (LeftBin(bins, x, |bins|), RightBin(bins, x, |bins|), f - 1, m + 1);
    assert forall i :: 0 <= i < before ==> ByCenter(bins[i]) <= ByCenter(bins[before]);
    assert forall i :: next < i < |bins| ==> ByCenter(bins[next]) <= ByCenter(bins[i]);
    assert l == m && r == f;
    EqualCenters(bins[m], bins[f], x);
  }

  /** Over a run the accuracy of the ends does not fall. */
  lemma RunRises(bins: seq<Bin>, f: nat, m: nat)
    requires f < m < |bins| && SortedBy(bins, ByCenter) && IsMonotone(bins) && bins[f].center == bins[m].center
    requires f > 0 ==> bins[f-1].center < bins[f].center
    requires m + 1 < |bins| ==> bins[m].center < bins[m+1].center
    ensures bins[f].accuracy <= bins[m].accuracy
  {
    hide Between, Interpolated;
    RunValue(bins, f, m);
    var (c, mean) := (bins[f].center, (bins[f].accuracy + bins[m].accuracy) / 2.0);
    if f == 0 {
      BelowAll(bins, c - 1.0);
    } else if bins[f].accuracy > mean {
      GapRises(bins, f - 1);
      var a := bins[f-1].accuracy;
      var share := NearTheEnd(a, bins[f].accuracy, mean);
      var x := GapPoint(bins[f-1], bins[f], share);
      GapValue(bins, f - 1, x);
      MonotoneAt(bins, x, c);
    }
  }

  lemma MonotoneAt(bins: seq<Bin>, x: real, y: real)
    requires bins != [] && IsMonotone(bins) && x <= y
    ensures Interpolated(bins, x) <= Interpolated(bins, y)
  {
  }

  lemma BelowAll(bins: seq<Bin>, x: real)
    requires bins != [] && SortedBy(bins, ByCenter) && x < bins[0].center
    ensures Interpolated(bins, x) == bins[0].accuracy
  {
    assert forall i :: 0 < i < |bins| ==> ByCenter(bins[0]) <= ByCenter(bins[i]);
  }

  /** A share of the way from a up to b that is already past a lower mean. */
  lemma NearTheEnd(a: real, b: real, mean: real) returns (f: real)
    requires a <= b && mean < b
    ensures 0.0 < f < 1.0 && a + f * (b - a) > mean
  {
    if a > mean || a == b {
      f := 0.5;
    } else {
      var (rise, part) := (b - a, (b + mean) / 2.0 - a);
      f := part / rise;
      assert f * rise == part;
      MulCancel(f, 0.0, rise);
      MulCancel(1.0, f, rise);
    }
  }

  lemma {:induction false} EdgesRise(bins: seq<Bin>, i: nat, j: nat)
    requires i < j < |bins| && SortedBy(bins, ByCenter) && IsMonotone(bins) && Edge(bins, i) && Edge(bins, j)
    ensures bins[i].accuracy <= bins[j].accuracy
    decreases j
  {
    hide Interpolated, IsMonotone;
    assert ByCenter(bins[j-1]) <= ByCenter(bins[j]);
    if bins[j-1].center < bins[j].center {
      GapRises(bins, j - 1);
      if i < j - 1 { EdgesRise(bins, i, j - 1); }
    } else {
      var f := RunStart(bins, j);
      RunRises(bins, f, j);
      if i < f {
        EdgesRise(bins, i, f);
      } else if i > f {
        InsideRun(bins, f, i, j);
      }
    }
  }

  lemma InsideRun(bins: seq<Bin>, f: nat, i: nat, j: nat)
    requires f < i < j < |bins| && SortedBy(bins, ByCenter) && bins[f].center == bins[j].center
    ensures !Edge(bins, i)
  {
    var (before, next) := (i - 1, i + 1);
    assert f < before ==> ByCenter(bins[f]) <= ByCenter(bins[before]);
    assert ByCenter(bins[before]) <= ByCenter(bins[i]) <= ByCenter(bins[next]);
    assert next < j ==> ByCenter(bins[next]) <= ByCenter(bins[j]);
  }

  lemma {:induction false} RunStart(bins: seq<Bin>, j: nat) returns (f: nat)
    requires 0 < j < |bins| && SortedBy(bins, ByCenter) && bins[j-1].center == bins[j].center
    ensures f < j && bins[f].center == bins[j].center && Edge(bins, f)
    ensures f > 0 ==> bins[f-1].center < bins[f].center
  {
    f := j - 1;
    while f > 0 && bins[f-1].center == bins[j].center
      invariant f < j && bins[f].center == bins[j].center
    {
      f := f - 1;
    }
    assert f > 0 ==> ByCenter(bins[f-1]) <= ByCenter(bins[f]);
  }

  /** Main result: calibration is monotone exactly when the bins at the ends of
      runs of equal centres are in order of accuracy.  With distinct centres
      those are all bins. */
  lemma CalibrationMonotoneExactlyWhen(bins: seq<Bin>)
    requires bins != [] && SortedBy(bins, ByCenter)
    ensures IsMonotone(bins) <==> EdgesInOrder(bins)
  {
    hide Interpolated, Edge, SortedBy;
    if EdgesInOrder(bins) {
      forall x, y | x <= y ensures Interpolated(bins, x) <= Interpolated(bins, y) {
        OrderedEdgesCalibrateMonotonely(bins, x, y);
      }
    }
    if IsMonotone(bins) {
      forall i, j | 0 <= i < j < |bins| && Edge(bins, i) && Edge(bins, j)
        ensures bins[i].accuracy <= bins[j].accuracy
      {
        EdgesRise(bins, i, j);
      }
    }
  }

  // ---- Every value of the curve ------------------------------------------------

  /** The bins from f to m are all those with their centre. */
  predicate IsRun(bins: seq<Bin>, f: nat, m: nat)
    requires f <= m < |bins|
  {
    && bins[f].center == bins[m].center
    && (f > 0 ==> bins[f-1].center < bins[f].center) && (m + 1 < |bins| ==> bins[m].center < bins[m+1].center)
  }

  /** The values of a curve: constant outside its centres, on a straight line between
      neighbours, and the mean of the ends of a run at their centre. */
  lemma ValuesOfTheCurve(bins: seq<Bin>, x: real)
    requires bins != [] && SortedBy(bins, ByCenter)
    ensures x < bins[0].center ==> Interpolated(bins, x) == bins[0].accuracy
    ensures x > bins[|bins|-1].center ==> Interpolated(bins, x) == bins[|bins|-1].accuracy
    ensures forall k :: 0 < k < |bins| && bins[k-1].center < x < bins[k].center ==>
              (Interpolated(bins, x) - bins[k-1].accuracy) * (bins[k].center - bins[k-1].center)
              == (x - bins[k-1].center) * (bins[k].accuracy - bins[k-1].accuracy)
    ensures forall f, m :: 0 <= f <= m < |bins| && IsRun(bins, f, m) && bins[f].center == x ==>
              Interpolated(bins, x) == (bins[f].accuracy + bins[m].accuracy) / 2.0
  {
    hide Interpolated, Between, SortedBy;
    if x < bins[0].center { BelowAll(bins, x); }
    if x > bins[|bins|-1].center { AboveAll(bins, x); }
    forall k | 0 < k < |bins| && bins[k-1].center < x < bins[k].center
      ensures (Interpolated(bins, x) - bins[k-1].accuracy) * (bins[k].center - bins[k-1].center)
              == (x - bins[k-1].center) * (bins[k].accuracy - bins[k-1].accuracy)
    {
      GapValue(bins, k - 1, x);
      OnTheLine(bins[k-1], bins[k], x);
    }
    forall f, m | 0 <= f <= m < |bins| && IsRun(bins, f, m) && bins[f].center == x
      ensures Interpolated(bins, x) == (bins[f].accuracy + bins[m].accuracy) / 2.0
    {
      if f < m { RunValue(bins, f, m); } else { SoleBin(bins, f); }
    }
  }

  lemma AboveAll(bins: seq<Bin>, x: real)
    requires bins != [] && SortedBy(bins, ByCenter) && x > bins[|bins|-1].center
    ensures Interpolated(bins, x) == bins[|bins|-1].accuracy
  {
    hide LeftBin, RightBin;
    assert forall i :: 0 <= i < |bins| - 1 ==> ByCenter(bins[i]) <= ByCenter(bins[|bins|-1]);
  }

  lemma OnTheLine(left: Bin, right: Bin, x: real)
    requires left.center < right.center
    ensures (Between(left, right, x) - left.accuracy) * (right.center - left.center)
            == (x - left.center) * (right.accuracy - left.accuracy)
  {
    var (d, rise) := (right.center - left.center, right.accuracy - left.accuracy);
    var f := (x - left.center) / d;
    assert f * d == x - left.center;
    assert (f * rise) * d == (f * d) * rise;
  }

  lemma SoleBin(bins: seq<Bin>, i: nat)
    requires i < |bins| && SortedBy(bins, ByCenter) && IsRun(bins, i, i)
    ensures Interpolated(bins, bins[i].center) == bins[i].accuracy
  {
    forall j | 0 <= j < |bins| && j != i ensures bins[j].center != bins[i].center {
      assert j < i - 1 ==> ByCenter(bins[j]) <= ByCenter(bins[i-1]);
      assert j > i + 1 ==> ByCenter(bins[i+1]) <= ByCenter(bins[j]);
    }
    ExactAtCenter(bins, i);
  }

  /** The bin reported with a value: the last one centred at or below it, or the first
      bin if there is none. */
  lemma ReportedBin(bins: seq<Bin>, x: real, k: nat)
    requires k < |bins| && SortedBy(bins, ByCenter)
    requires (k == 0 || bins[k].center <= x) && (k + 1 < |bins| ==> x < bins[k+1].center)
    ensures Chosen(bins, x) == k
  {
    hide LeftBin, RightBin;
    assert forall i :: 0 <= i < k ==> ByCenter(bins[i]) <= ByCenter(bins[k]);
    assert forall i :: k + 1 < i < |bins| ==> ByCenter(bins[k+1]) <= ByCenter(bins[i]);
  }

  // ---- From a history to a calibrated confidence ------------------------------

  /** Building a curve and calibrating with it gives a probability, whatever the
      history, the bin count asked for and the raw confidence. */
  method CalibrateFromHistory(exp: real -> real, log: real -> real, history: seq<Sample>, nBins: int, raw: real,
                              temperature: Option<real>, configured: real)
    returns (r: Calibrated)
    requires IsExpLog(exp, log)
    ensures r.ZeroTemperature? <==> (if temperature.Some? then temperature.value else configured) == 0.0
    ensures r.Calibrated? ==> 0.0 <= r.value <= 1.0
  {
    hide SortBy, Scaled, IsExpLog, Interpolated, Chosen, Bucket, BinOf;
    var curve := UpdateCalibrationCurve(history, nBins);
    r := Calibrate(exp, log, raw, curve, temperature, configured);
    if r.Calibrated? {
      ScaledIsProbability(exp, log, raw, r.temperature);
      if |history| >= MIN_SAMPLES {
        var sorted := SortBy(history, ByConfidence);
        SortSorts(history, ByConfidence);
        CurveIsSorted(sorted, nBins, curve);
        SortSorts(curve, ByCenter);
        CalibratedIsProbability(curve, Scaled(exp, log, raw, r.temperature));
      }
    }
  }

  /** At a positive temperature the whole of `calibrate` is monotone on such a
      curve: a higher raw confidence never calibrates lower. */
  lemma RawConfidenceMonotone(exp: real -> real, log: real -> real, bins: seq<Bin>, a: real, b: real, temperature: real)
    requires IsExpLog(exp, log) && temperature > 0.0 && a <= b
    requires bins != [] && SortedBy(bins, ByCenter) && EdgesInOrder(bins)
    ensures Interpolated(bins, Scaled(exp, log, a, temperature)) <= Interpolated(bins, Scaled(exp, log, b, temperature))
  {
    hide Interpolated, Scaled, IsExpLog, EdgesInOrder, SortedBy;
    ScalingMonotone(exp, log, a, b, temperature);
    OrderedEdgesCalibrateMonotonely(bins, Scaled(exp, log, a, temperature), Scaled(exp, log, b, temperature));
  }
}

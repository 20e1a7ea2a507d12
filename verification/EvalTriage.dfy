/** The triage evaluation metrics. */
module EvalTriage {
  import opened Wrappers
  import opened Reals
  import opened Rounding
  import opened Text
  import opened Sorting

  datatype Sample = Sample(isTruePositive: bool, trueVerdict: string, trueSeverity: string, trueMitre: set<string>)

  /** An absent error is empty. */
  datatype Result = Result(
    predictedVerdict: string, predictedSeverity: string, predictedMitre: set<string>, predictedConfidence: real,
    latencyMs: real, jsonValid: bool, error: string)

  type Pair = (Sample, Result)

  /** The metrics, with the order of latencies and errors forgotten. */
  datatype Totals = Totals(basics: Basics, scores: Scores, records: Records)

  datatype Basics = Basics(total: nat, truePositives: nat, trueNegatives: nat, jsonValid: nat)

  datatype Records = Records(latencies: multiset<real>, errors: multiset<string>)

  datatype Scores = Scores(
    correct: nat, falseNegatives: nat, falsePositives: nat, severityMatches: nat, severityWithinOne: nat,
    mitreTp: nat, mitrePred: nat, mitreTrue: nat, brierSum: real)

  const NO_TOTALS := Totals(Basics(0, 0, 0, 0), Scores(0, 0, 0, 0, 0, 0, 0, 0, 0.0), Records(multiset{}, multiset{}))

  function Band(severity: string): Option<int> {
    var s := Lower(severity);
    if s == "low" then Some(0) else if s == "medium" then Some(1) else if s == "high" then Some(2)
    else if s == "critical" then Some(3) else None
  }

  predicate WithinOneBand(predicted: string, actual: string) {
    var (p, t) := (Band(predicted), Band(actual));
    p.Some? && t.Some? && -1 <= p.value - t.value <= 1
  }

  function One(b: bool): nat {
    if b then 1 else 0
  }

  predicate Correct(x: Pair) {
    Lower(x.1.predictedVerdict) == Lower(x.0.trueVerdict)
  }

  predicate Missed(x: Pair) {
    !Correct(x) && x.0.isTruePositive && Lower(x.1.predictedVerdict) in {"benign", "unknown"}
  }

  predicate FalseAlarm(x: Pair) {
    !Correct(x) && !x.0.isTruePositive && Lower(x.1.predictedVerdict) in {"malicious", "suspicious"}
  }

  /** The squared error of the predicted probability of malice. */
  function BrierTerm(x: Pair): real {
    var p := if Lower(x.1.predictedVerdict) == "benign" then 1.0 - x.1.predictedConfidence else x.1.predictedConfidence;
    var d := p - (if x.0.isTruePositive then 1.0 else 0.0);
    d * d
  }

  /** Techniques count only for samples that have some. */
  function MitreHits(x: Pair): nat {
    if x.0.trueMitre == {} then 0 else |x.0.trueMitre * x.1.predictedMitre|
  }

  function MitreClaims(x: Pair): nat {
    if x.0.trueMitre == {} then 0 else |x.1.predictedMitre|
  }

  function MitreFacts(x: Pair): nat {
    |x.0.trueMitre|
  }

  function AddBasics(b: Basics, x: Pair): Basics {
    Basics(b.total + 1, b.truePositives + One(x.0.isTruePositive), b.trueNegatives + One(!x.0.isTruePositive),
           b.jsonValid + One(x.1.jsonValid))
  }

  function ErrorOf(x: Pair): multiset<string> {
    if x.1.error == "" then multiset{} else multiset{x.1.error}
  }

  function AddRecords(r: Records, x: Pair): Records {
    Records(r.latencies + multiset{x.1.latencyMs}, r.errors + ErrorOf(x))
  }

  function AddScores(s: Scores, x: Pair): Scores {
    Scores(s.correct + One(Correct(x)), s.falseNegatives + One(Missed(x)), s.falsePositives + One(FalseAlarm(x)),
           s.severityMatches + One(Lower(x.1.predictedSeverity) == Lower(x.0.trueSeverity)),
           s.severityWithinOne + One(WithinOneBand(x.1.predictedSeverity, x.0.trueSeverity)),
           s.mitreTp + MitreHits(x), s.mitrePred + MitreClaims(x), s.mitreTrue + MitreFacts(x),
           s.brierSum + BrierTerm(x))
  }

  /** The effect of one result on the totals. */
  function Add(t: Totals, x: Pair): Totals {
    Totals(AddBasics(t.basics, x), AddScores(t.scores, x), AddRecords(t.records, x))
  }

  function Fold(xs: seq<Pair>): Totals {
    if xs == [] then NO_TOTALS else Add(Fold(xs[..|xs|-1]), xs[|xs|-1])
  }

  class EvalMetrics {
    var total: nat
    var correctVerdicts: nat
    var falseNegatives: nat
    var falsePositives: nat
    var truePositiveTotal: nat
    var trueNegativeTotal: nat
    var severityMatches: nat
    var severityWithinOne: nat
    var mitreTp: nat
    var mitrePred: nat
    var mitreTrue: nat
    var brierSum: real
    var jsonValid: nat
    var latencies: seq<real>
    var errors: seq<string>

    function BasicsView(): Basics
      reads this
    {
      Basics(total, truePositiveTotal, trueNegativeTotal, jsonValid)
    }

    function ScoresView(): Scores
      reads this
    {
      Scores(correctVerdicts, falseNegatives, falsePositives, severityMatches, severityWithinOne,
             mitreTp, mitrePred, mitreTrue, brierSum)
    }

    function RecordsView(): Records
      reads this
    {
      Records(multiset(latencies), multiset(errors))
    }

    function View(): Totals
      reads this
    {
      Totals(BasicsView(), ScoresView(), RecordsView())
    }

    constructor ()
      ensures View() == NO_TOTALS && latencies == []
    {
      total, correctVerdicts, falseNegatives, falsePositives := 0, 0, 0, 0;
      truePositiveTotal, trueNegativeTotal, severityMatches, severityWithinOne := 0, 0, 0, 0;
      mitreTp, mitrePred, mitreTrue, brierSum, jsonValid := 0, 0, 0, 0.0, 0;
      latencies, errors := [], [];
    }

    /** The verdict counters: correct, else a missed threat, else a false alarm. */
    method CountVerdict(x: Pair)
      modifies this`correctVerdicts, this`falseNegatives, this`falsePositives
      ensures correctVerdicts == old(correctVerdicts) + One(Correct(x))
      ensures falseNegatives == old(falseNegatives) + One(Missed(x))
      ensures falsePositives == old(falsePositives) + One(FalseAlarm(x))
    {
      hide Lower;
      var pred := Lower(x.1.predictedVerdict);
      if pred == Lower(x.0.trueVerdict) {
        correctVerdicts := correctVerdicts + 1;
      } else if x.0.isTruePositive && pred in {"benign", "unknown"} {
        falseNegatives := falseNegatives + 1;
      } else if !x.0.isTruePositive && pred in {"malicious", "suspicious"} {
        falsePositives := falsePositives + 1;
      }
    }

    method CountMitre(x: Pair)
      modifies this`mitreTp, this`mitrePred, this`mitreTrue
      ensures mitreTp == old(mitreTp) + MitreHits(x)
      ensures mitrePred == old(mitrePred) + MitreClaims(x)
      ensures mitreTrue == old(mitreTrue) + MitreFacts(x)
    {
      if x.0.trueMitre != {} {
        mitreTp := mitreTp + |x.0.trueMitre * x.1.predictedMitre|;
        mitrePred := mitrePred + |x.1.predictedMitre|;
        mitreTrue := mitreTrue + |x.0.trueMitre|;
      }
    }

    method CountResult(x: Pair)
      modifies this`total, this`truePositiveTotal, this`trueNegativeTotal, this`jsonValid
      ensures BasicsView() == AddBasics(old(BasicsView()), x)
    {
      total := total + 1;
      if x.1.jsonValid {
        jsonValid := jsonValid + 1;
      }
      if x.0.isTruePositive {
        truePositiveTotal := truePositiveTotal + 1;
      } else {
        trueNegativeTotal := trueNegativeTotal + 1;
      }
    }

    method RecordResult(x: Pair)
      modifies this`latencies, this`errors
      ensures RecordsView() == AddRecords(old(RecordsView()), x)
      ensures latencies == old(latencies) + [x.1.latencyMs]
      ensures errors == old(errors) + if x.1.error != "" then [x.1.error] else []
    {
      latencies := latencies + [x.1.latencyMs];
      if x.1.error != "" {
        errors := errors + [x.1.error];
      }
    }

    method ScoreResult(x: Pair)
      modifies this`correctVerdicts, this`falseNegatives, this`falsePositives, this`severityMatches,
               this`severityWithinOne,
               this`mitreTp, this`mitrePred, this`mitreTrue, this`brierSum
      ensures ScoresView() == AddScores(old(ScoresView()), x)
    {
      hide Lower, WithinOneBand, BrierTerm, Correct, Missed, FalseAlarm, MitreHits, MitreClaims, MitreFacts, One;
      CountVerdict(x);
      severityMatches := severityMatches + One(Lower(x.1.predictedSeverity) == Lower(x.0.trueSeverity));
      severityWithinOne := severityWithinOne + One(WithinOneBand(x.1.predictedSeverity, x.0.trueSeverity));
      CountMitre(x);
      brierSum := brierSum + BrierTerm(x);
    }

    /** `accumulate_metrics`. */
    method Accumulate(sample: Sample, result: Result)
      modifies this
      ensures View() == Add(old(View()), (sample, result))
      ensures latencies == old(latencies) + [result.latencyMs]
      ensures errors == old(errors) + if result.error != "" then [result.error] else []
    {
      hide AddBasics, AddScores, AddRecords;
      CountResult((sample, result));
      RecordResult((sample, result));
      ScoreResult((sample, result));
    }

    /** `latency_p50_ms`. */
    method LatencyP50() returns (r: real)
      ensures r == if latencies == [] then 0.0 else P50(latencies)
    {
      if latencies == [] {
        return 0.0;
      }
      var sorted := SortBy(latencies, Itself);
      SortSorts(latencies, Itself);
      var n := |sorted|;
      r := if n % 2 == 1 then sorted[n / 2] else (sorted[n / 2 - 1] + sorted[n / 2]) / 2.0;
    }

    /** `latency_p95_ms`. */
    method LatencyP95() returns (r: real)
      ensures r == if latencies == [] then 0.0 else P95(latencies)
    {
      if latencies == [] {
        return 0.0;
      }
      var sorted := SortBy(latencies, Itself);
      SortSorts(latencies, Itself);
      var idx := |sorted| * 95 / 100;
      r := sorted[if idx <= |sorted| - 1 then idx else |sorted| - 1];
    }

    /** `summary`: the rates to four digits and the latencies to one. */
    method Summarise() returns (s: Summary)
      ensures s == Summarised(View(), latencies)
      ensures s.total == total && s.errors == |errors|
      ensures IsRate(s.verdictAccuracy, correctVerdicts as real, total)
      ensures IsRate(s.fnRate, falseNegatives as real, truePositiveTotal)
      ensures IsRate(s.fpRate, falsePositives as real, trueNegativeTotal)
      ensures IsRate(s.severityAgreement, severityMatches as real, total)
      ensures IsRate(s.severityWithinOne, severityWithinOne as real, total)
      ensures IsRate(s.mitrePrecision, mitreTp as real, mitrePred)
      ensures IsRate(s.mitreRecall, mitreTp as real, mitreTrue)
      ensures IsRate(s.confidenceBrier, brierSum, total)
      ensures IsRate(s.jsonValidity, jsonValid as real, total)
      ensures IsLatency(s.latencyP50, if latencies == [] then 0.0 else P50(latencies))
      ensures IsLatency(s.latencyP95, if latencies == [] then 0.0 else P95(latencies))
    {
      hide RoundTo, Rate, BrierRate, P50, P95;
      var p50 := LatencyP50();
      var p95 := LatencyP95();
      s := Summary(
        total,
        RoundTo(Rate(correctVerdicts, total), RATE_SCALE),
        RoundTo(Rate(falseNegatives, truePositiveTotal), RATE_SCALE),
        RoundTo(Rate(falsePositives, trueNegativeTotal), RATE_SCALE),
        RoundTo(Rate(severityMatches, total), RATE_SCALE),
        RoundTo(Rate(severityWithinOne, total), RATE_SCALE),
        RoundTo(Rate(mitreTp, mitrePred), RATE_SCALE),
        RoundTo(Rate(mitreTp, mitreTrue), RATE_SCALE),
        RoundTo(BrierRate(brierSum, total), RATE_SCALE),
        RoundTo(Rate(jsonValid, total), RATE_SCALE),
        RoundTo(p50, LATENCY_SCALE), RoundTo(p95, LATENCY_SCALE),
        |errors|);
      assert |errors| == |multiset(errors)|;
      hide IsRate, IsLatency, Summarised;
      RatesAreRounded(correctVerdicts, total);
      RatesAreRounded(falseNegatives, truePositiveTotal);
      RatesAreRounded(falsePositives, trueNegativeTotal);
      RatesAreRounded(severityMatches, total);
      RatesAreRounded(severityWithinOne, total);
      RatesAreRounded(mitreTp, mitrePred);
      RatesAreRounded(mitreTp, mitreTrue);
      RatesAreRounded(jsonValid, total);
      BrierIsRounded(brierSum, total);
      LatencyIsRounded(p50);
      LatencyIsRounded(p95);
    }
  }

  /** `compute_metrics`. */
  method ComputeMetrics(results: seq<Pair>) returns (s: Summary)
    ensures s == SummaryOf(results)
  {
    hide Add, Summarised;
    var m := new EvalMetrics();
    for i := 0 to |results|
      invariant fresh(m) && m.View() == Fold(results[..i]) && m.latencies == LatenciesOf(results[..i])
    {
      assert results[..i+1][..i] == results[..i];
      m.Accumulate(results[i].0, results[i].1);
    }
    assert results[..|results|] == results;
    s := m.Summarise();
  }

  // ---- What one result adds ---------------------------------------------------

  /** One result is counted, and counted among the threats or the others. */
  lemma AddCounts(t: Totals, x: Pair)
    ensures var (b, b') := (t.basics, Add(t, x).basics);
            && b'.total == b.total + 1 && b'.jsonValid == b.jsonValid + (if x.1.jsonValid then 1 else 0)
            && b'.truePositives == b.truePositives + (if x.0.isTruePositive then 1 else 0)
            && b'.trueNegatives == b.trueNegatives + (if x.0.isTruePositive then 0 else 1)
  {
    hide AddScores, AddRecords;
  }

  /** A verdict is right, or misses a threat, or raises a false alarm, or is none of
      these. */
  lemma AddScoresVerdict(t: Totals, x: Pair)
    ensures var (s, s') := (t.scores, Add(t, x).scores);
            var (verdict, actual) := (Lower(x.1.predictedVerdict), Lower(x.0.trueVerdict));
            && s'.correct == s.correct + (if verdict == actual then 1 else 0)
            && s'.falseNegatives == s.falseNegatives +
                 (if verdict != actual && x.0.isTruePositive && verdict in {"benign", "unknown"} then 1 else 0)
            && s'.falsePositives == s.falsePositives +
                 (if verdict != actual && !x.0.isTruePositive && verdict in {"malicious", "suspicious"} then 1 else 0)
  {
    hide AddBasics, AddRecords, Lower, BrierTerm, WithinOneBand, MitreHits, MitreClaims, MitreFacts;
  }

  /** Severities count if they agree and if they are neighbours; techniques only for
      samples that have some; the confidence by its squared distance from the truth. */
  lemma AddScoresTheRest(t: Totals, x: Pair)
    ensures var (s, s') := (t.scores, Add(t, x).scores);
            && s'.severityMatches == s.severityMatches +
                 (if Lower(x.1.predictedSeverity) == Lower(x.0.trueSeverity) then 1 else 0)
            && s'.severityWithinOne == s.severityWithinOne +
                 (if Neighbours(Lower(x.1.predictedSeverity), Lower(x.0.trueSeverity)) then 1 else 0)
            && (if x.0.trueMitre == {}
                then s'.mitreTp == s.mitreTp && s'.mitrePred == s.mitrePred && s'.mitreTrue == s.mitreTrue
                else s'.mitreTp == s.mitreTp + |x.0.trueMitre * x.1.predictedMitre|
                     && s'.mitrePred == s.mitrePred + |x.1.predictedMitre|
                     && s'.mitreTrue == s.mitreTrue + |x.0.trueMitre|)
            && var p := x.1.predictedConfidence;
               var miss := (if Lower(x.1.predictedVerdict) == "benign" then 1.0 - p else p)
                           - (if x.0.isTruePositive then 1.0 else 0.0);
               s'.brierSum == s.brierSum + miss * miss
  {
    hide AddBasics, AddRecords, Lower, WithinOneBand, Neighbours, Correct, Missed, FalseAlarm;
    NeighbouringBands(x.1.predictedSeverity, x.0.trueSeverity);
  }

  // ---- The summary ------------------------------------------------------------

  datatype Summary = Summary(
    total: nat, verdictAccuracy: real, fnRate: real, fpRate: real, severityAgreement: real, severityWithinOne: real,
    mitrePrecision: real, mitreRecall: real, confidenceBrier: real, jsonValidity: real,
    latencyP50: real, latencyP95: real, errors: nat)

  const RATE_SCALE := 10000.0
  const LATENCY_SCALE := 10.0

  function RoundTo(x: real, scale: real): real {
    if scale == 0.0 then x else Round(x * scale) as real / scale
  }

  function Rate(part: nat, whole: nat): real {
    part as real / (if whole > 1 then whole else 1) as real
  }

  function BrierRate(sum: real, total: nat): real {
    sum / (if total > 1 then total else 1) as real
  }

  function Summarised(t: Totals, latencies: seq<real>): Summary {
    var (b, c) := (t.basics, t.scores);
    Summary(
      b.total,
      RoundTo(Rate(c.correct, b.total), RATE_SCALE),
      RoundTo(Rate(c.falseNegatives, b.truePositives), RATE_SCALE),
      RoundTo(Rate(c.falsePositives, b.trueNegatives), RATE_SCALE),
      RoundTo(Rate(c.severityMatches, b.total), RATE_SCALE),
      RoundTo(Rate(c.severityWithinOne, b.total), RATE_SCALE),
      RoundTo(Rate(c.mitreTp, c.mitrePred), RATE_SCALE),
      RoundTo(Rate(c.mitreTp, c.mitreTrue), RATE_SCALE),
      RoundTo(BrierRate(c.brierSum, b.total), RATE_SCALE),
      RoundTo(Rate(b.jsonValid, b.total), RATE_SCALE),
      RoundTo(if latencies == [] then 0.0 else P50(latencies), LATENCY_SCALE),
      RoundTo(if latencies == [] then 0.0 else P95(latencies), LATENCY_SCALE),
      |t.records.errors|)
  }

  /** The latencies in the order of the results. */
  function LatenciesOf(xs: seq<Pair>): (r: seq<real>)
    ensures |r| == |xs|
  {
    if xs == [] then [] else LatenciesOf(xs[..|xs|-1]) + [xs[|xs|-1].1.latencyMs]
  }

  function SummaryOf(xs: seq<Pair>): Summary {
    Summarised(Fold(xs), LatenciesOf(xs))
  }

  /** The rate is the quotient, of at least 1, to four digits. */
  predicate IsRate(rate: real, part: real, whole: nat) {
    var w := if whole > 1 then whole as real else 1.0;
    -0.00005 * w <= rate * w - part <= 0.00005 * w && (rate * 10000.0).Floor as real == rate * 10000.0
  }

  /** The latency is that value to one digit. */
  predicate IsLatency(rounded: real, x: real) {
    -0.05 <= rounded - x <= 0.05 && (rounded * 10.0).Floor as real == rounded * 10.0
  }

  lemma RoundedNear(x: real, scale: real)
    requires scale > 0.0
    ensures x * scale - 0.5 <= RoundTo(x, scale) * scale <= x * scale + 0.5
    ensures RoundTo(x, scale) * scale == Round(x * scale) as real
  {
    RoundIsNearest(x * scale);
  }

  lemma RateIsRounded(part: real, w: real, rate: real)
    requires w >= 1.0 && rate == RoundTo(part / w, RATE_SCALE)
    ensures -0.00005 * w <= rate * w - part <= 0.00005 * w && (rate * 10000.0).Floor as real == rate * 10000.0
  {
    var x := part / w;
    assert x * w == part;
    RoundedNear(x, RATE_SCALE);
    hide RoundTo;
    ScaledMiss(part, w, x, rate);
  }

  lemma ScaledMiss(part: real, w: real, x: real, rate: real)
    requires w >= 1.0 && x * w == part && -0.00005 <= rate - x <= 0.00005
    ensures -0.00005 * w <= rate * w - part <= 0.00005 * w
  {
    var miss := rate - x;
    ProductNonNegative(miss + 0.00005, w);
    ProductNonNegative(0.00005 - miss, w);
    assert (miss + 0.00005) * w == rate * w - x * w + 0.00005 * w;
    assert (0.00005 - miss) * w == 0.00005 * w - (rate * w - x * w);
  }

  lemma RatesAreRounded(part: nat, whole: nat)
    ensures IsRate(RoundTo(Rate(part, whole), RATE_SCALE), part as real, whole)
  {
    RateIsRounded(part as real, if whole > 1 then whole as real else 1.0, RoundTo(Rate(part, whole), RATE_SCALE));
  }

  lemma BrierIsRounded(sum: real, total: nat)
    ensures IsRate(RoundTo(BrierRate(sum, total), RATE_SCALE), sum, total)
  {
    RateIsRounded(sum, if total > 1 then total as real else 1.0, RoundTo(BrierRate(sum, total), RATE_SCALE));
  }

  lemma LatencyIsRounded(x: real)
    ensures IsLatency(RoundTo(x, LATENCY_SCALE), x)
  {
    RoundedNear(x, LATENCY_SCALE);
  }

  /** Both are among the four bands, at most one apart. */
  predicate Neighbours(a: string, b: string) {
    var bands := ["low", "medium", "high", "critical"];
    exists i, j :: 0 <= i < 4 && 0 <= j < 4 && -1 <= i - j <= 1 && bands[i] == a && bands[j] == b
  }

  lemma NeighbouringBands(predicted: string, actual: string)
    ensures WithinOneBand(predicted, actual) <==> Neighbours(Lower(predicted), Lower(actual))
  {
    hide Lower;
    var bands := ["low", "medium", "high", "critical"];
    var (p, t) := (Band(predicted), Band(actual));
    assert p.Some? ==> bands[p.value] == Lower(predicted);
    assert t.Some? ==> bands[t.value] == Lower(actual);
  }

  // ---- Bounds -----------------------------------------------------------------------

  predicate Bounded(t: Totals) {
    var (b, s) := (t.basics, t.scores);
    && b.truePositives + b.trueNegatives == b.total == |t.records.latencies|
    && s.falseNegatives <= b.truePositives && s.falsePositives <= b.trueNegatives
    && s.correct + s.falseNegatives + s.falsePositives <= b.total
    && s.severityMatches <= b.total && s.severityWithinOne <= b.total && b.jsonValid <= b.total
    && s.mitreTp <= s.mitrePred && s.mitreTp <= s.mitreTrue
    && s.brierSum >= 0.0
  }

  lemma IntersectionBound(a: set<string>, b: set<string>)
    ensures |a * b| <= |a| && |a * b| <= |b|
  {
    SubsetSize(a * b, a);
    SubsetSize(a * b, b);
  }

  lemma SubsetSize(a: set<string>, b: set<string>)
    requires a <= b
    ensures |a| <= |b|
  {
    assert b == a + (b - a);
  }

  lemma BrierNonNegative(x: Pair)
    ensures BrierTerm(x) >= 0.0
    ensures 0.0 <= x.1.predictedConfidence <= 1.0 ==> BrierTerm(x) <= 1.0
  {
    var p := if Lower(x.1.predictedVerdict) == "benign" then 1.0 - x.1.predictedConfidence else x.1.predictedConfidence;
    var d := p - (if x.0.isTruePositive then 1.0 else 0.0);
    SquareNonNegative(d);
    if 0.0 <= x.1.predictedConfidence <= 1.0 {
      SquareAtMostOne(d);
    }
  }

  lemma SquareAtMostOne(d: real)
    requires -1.0 <= d <= 1.0
    ensures d * d <= 1.0
  {
    ProductNonNegative(1.0 - d, 1.0 + d);
    assert (1.0 - d) * (1.0 + d) == 1.0 - d * d;
  }

  /** After any list of results the counters are consistent, so every rate
      computed from them lies between 0 and 1. */
  lemma {:induction false} TotalsAreBounded(xs: seq<Pair>)
    ensures Bounded(Fold(xs)) && Fold(xs).basics.total == |xs|
  {
    if xs != [] {
      hide BrierTerm, Lower, WithinOneBand;
      var x := xs[|xs|-1];
      TotalsAreBounded(xs[..|xs|-1]);
      IntersectionBound(x.0.trueMitre, x.1.predictedMitre);
      BrierNonNegative(x);
    }
  }

  /** With confidences that are probabilities the Brier sum is at most the total. */
  predicate Confident(xs: seq<Pair>) {
    forall i :: 0 <= i < |xs| ==> 0.0 <= xs[i].1.predictedConfidence <= 1.0
  }

  lemma {:induction false} BrierWithinTotal(xs: seq<Pair>)
    requires Confident(xs)
    ensures 0.0 <= Fold(xs).scores.brierSum <= |xs| as real
  {
    if xs != [] {
      hide BrierTerm, AddBasics, AddRecords;
      BrierWithinTotal(xs[..|xs|-1]);
      BrierNonNegative(xs[|xs|-1]);
    }
  }

  lemma RoundedProportion(x: real)
    requires 0.0 <= x <= 1.0
    ensures 0.0 <= RoundTo(x, RATE_SCALE) <= 1.0
  {
    RoundMonotone(0.0, x * RATE_SCALE);
    RoundOfInteger(0);
    RoundMonotone(x * RATE_SCALE, 10000.0);
    RoundOfInteger(10000);
  }

  /** Every rate of the summary of any results lies between 0 and 1 after its
      rounding; so does the Brier score, for confidences that are probabilities. */
  lemma SummaryRatesAreProportions(xs: seq<Pair>)
    ensures var s := SummaryOf(xs);
            && 0.0 <= s.verdictAccuracy <= 1.0 && 0.0 <= s.fnRate <= 1.0 && 0.0 <= s.fpRate <= 1.0
            && 0.0 <= s.severityAgreement <= 1.0 && 0.0 <= s.severityWithinOne <= 1.0
            && 0.0 <= s.mitrePrecision <= 1.0 && 0.0 <= s.mitreRecall <= 1.0 && 0.0 <= s.jsonValidity <= 1.0
            && (Confident(xs) ==> 0.0 <= s.confidenceBrier <= 1.0)
  {
    hide Fold, RoundTo, Rate, BrierRate, P50, P95, Confident;
    TotalsAreBounded(xs);
    var (b, c) := (Fold(xs).basics, Fold(xs).scores);
    RateBound(c.correct, b.total);
    RateBound(c.falseNegatives, b.truePositives);
    RateBound(c.falsePositives, b.trueNegatives);
    RateBound(c.severityMatches, b.total);
    RateBound(c.severityWithinOne, b.total);
    RateBound(c.mitreTp, c.mitrePred);
    RateBound(c.mitreTp, c.mitreTrue);
    RateBound(b.jsonValid, b.total);
    if Confident(xs) {
      BrierWithinTotal(xs);
      BrierBound(c.brierSum, b.total);
    }
  }

  lemma BrierBound(sum: real, total: nat)
    requires 0.0 <= sum <= total as real
    ensures 0.0 <= RoundTo(BrierRate(sum, total), RATE_SCALE) <= 1.0
  {
    ProportionOf(sum, (if total > 1 then total else 1) as real);
    RoundedProportion(BrierRate(sum, total));
  }

  lemma ProportionOf(p: real, w: real)
    requires w > 0.0 && 0.0 <= p <= w
    ensures 0.0 <= p / w <= 1.0
  {
    var q := p / w;
    assert q * w == p;
    MulCancel(q, 1.0, w);
    MulCancel(0.0, q, w);
  }

  lemma RateBound(part: nat, whole: nat)
    requires part <= whole
    ensures 0.0 <= RoundTo(Rate(part, whole), RATE_SCALE) <= 1.0
  {
    ProportionOf(part as real, (if whole > 1 then whole else 1) as real);
    RoundedProportion(Rate(part, whole));
  }

  // ---- Order does not matter -----------------------------------------------------------

  lemma RecordsCommute(r: Records, x: Pair, y: Pair)
    ensures AddRecords(AddRecords(r, x), y) == AddRecords(AddRecords(r, y), x)
  {
    hide ErrorOf;
  }

  lemma AddCommutes(t: Totals, x: Pair, y: Pair)
    ensures Add(Add(t, x), y) == Add(Add(t, y), x)
  {
    hide AddRecords, BrierTerm, Lower, WithinOneBand, Correct, Missed, FalseAlarm, MitreHits, MitreClaims, MitreFacts;
    hide One;
    RecordsCommute(t.records, x, y);
  }

  /** Any one result can be folded last. */
  lemma {:induction false} FoldLast(xs: seq<Pair>, i: nat)
    requires i < |xs|
    ensures Fold(xs) == Add(Fold(xs[..i] + xs[i+1..]), xs[i])
  {
    hide Add;
    var (n, without) := (|xs| - 1, xs[..i] + xs[i+1..]);
    if i == n {
      assert without == xs[..n];
    } else {
      FoldLast(xs[..n], i);
      assert without[..n-1] == xs[..n][..i] + xs[..n][i+1..] && without[n-1] == xs[n];
      AddCommutes(Fold(without[..n-1]), xs[i], xs[n]);
    }
  }

  lemma TakeOut<T>(xs: seq<T>, i: nat)
    requires i < |xs|
    ensures multiset(xs[..i] + xs[i+1..]) == multiset(xs) - multiset{xs[i]}
  {
    assert xs == xs[..i] + [xs[i]] + xs[i+1..];
  }

  /** The totals do not depend on the order in which the results were accumulated. */
  lemma {:induction false} OrderDoesNotMatter(xs: seq<Pair>, ys: seq<Pair>)
    requires multiset(xs) == multiset(ys)
    ensures Fold(xs) == Fold(ys)
    decreases |ys|
  {
    assert |xs| == |multiset(xs)| == |ys|;
    if ys != [] {
      hide Add;
      var (rest, y) := (ys[..|ys|-1], ys[|ys|-1]);
      assert ys == rest + [y];
      assert y in multiset(ys);
      var i :| 0 <= i < |xs| && xs[i] == y;
      var without := xs[..i] + xs[i+1..];
      TakeOut(xs, i);
      assert multiset(ys) == multiset(rest) + multiset{y};
      assert multiset(without) == multiset(rest);
      FoldLast(xs, i);
      OrderDoesNotMatter(without, rest);
    }
  }

  // ---- The percentiles ----------------------------------------------------------------------

  function Itself(x: real): real { x }

  /** The middle element of the sorted list, or the mean of the two middle ones. */
  function P50(xs: seq<real>): real
    requires xs != []
  {
    SortSorts(xs, Itself);
    var (s, n) := (SortBy(xs, Itself), |xs|);
    if n % 2 == 1 then s[n / 2] else (s[n / 2 - 1] + s[n / 2]) / 2.0
  }

  /** The element of the sorted list at 95% of its length, cut to the last. */
  function P95(xs: seq<real>): real
    requires xs != []
  {
    SortSorts(xs, Itself);
    var idx := |xs| * 95 / 100;
    SortBy(xs, Itself)[if idx <= |xs| - 1 then idx else |xs| - 1]
  }

  function CountAtMost(xs: seq<real>, x: real): nat {
    if xs == [] then 0 else CountAtMost(xs[..|xs|-1], x) + One(xs[|xs|-1] <= x)
  }

  lemma {:induction false} CountConcat(a: seq<real>, b: seq<real>, x: real)
    ensures CountAtMost(a + b, x) == CountAtMost(a, x) + CountAtMost(b, x)
  {
    if b == [] {
      assert a + b == a;
    } else {
      assert (a + b)[..|a + b|-1] == a + b[..|b|-1];
      CountConcat(a, b[..|b|-1], x);
    }
  }

  lemma {:induction false} CountInsert(xs: seq<real>, y: real, x: real)
    ensures CountAtMost(Insert(xs, y, Itself), x) == CountAtMost(xs, x) + One(y <= x)
  {
    CountConcat(xs, [y], x);
    if xs != [] && xs[|xs|-1] > y {
      var (rest, last) := (xs[..|xs|-1], xs[|xs|-1]);
      CountInsert(rest, y, x);
      CountConcat(Insert(rest, y, Itself), [last], x);
    }
  }

  lemma {:induction false} CountSort(xs: seq<real>, x: real)
    ensures CountAtMost(SortBy(xs, Itself), x) == CountAtMost(xs, x)
  {
    if xs != [] {
      CountSort(xs[..|xs|-1], x);
      CountInsert(SortBy(xs[..|xs|-1], Itself), xs[|xs|-1], x);
    }
  }

  lemma {:induction false} CountSorted(xs: seq<real>, i: nat)
    requires i < |xs| && SortedBy(xs, Itself)
    ensures CountAtMost(xs, xs[i]) >= i + 1
  {
    assert xs == xs[..i+1] + xs[i+1..];
    CountConcat(xs[..i+1], xs[i+1..], xs[i]);
    var head := xs[..i+1];
    forall j | 0 <= j < |head| ensures head[j] <= xs[i] {
      assert j < i ==> Itself(xs[j]) <= Itself(xs[i]);
    }
    CountAll(head, xs[i]);
  }

  lemma {:induction false} CountAll(xs: seq<real>, x: real)
    requires forall j :: 0 <= j < |xs| ==> xs[j] <= x
    ensures CountAtMost(xs, x) == |xs|
  {
    if xs != [] { CountAll(xs[..|xs|-1], x); }
  }

  /** At least 95% of the latencies are at most the reported percentile, which is
      one of them. */
  lemma P95CoversMost(xs: seq<real>)
    requires xs != []
    ensures 100 * CountAtMost(xs, P95(xs)) >= 95 * |xs|
    ensures P95(xs) in xs
  {
    SortSorts(xs, Itself);
    var sorted := SortBy(xs, Itself);
    var idx := |xs| * 95 / 100;
    var i := if idx <= |xs| - 1 then idx else |xs| - 1;
    CountSorted(sorted, i);
    CountSort(xs, sorted[i]);
    assert sorted[i] in multiset(sorted);
  }

  /** Without their equal last elements, two permutations still are. */
  lemma DropLast(xs: seq<real>, ys: seq<real>)
    requires multiset(xs) == multiset(ys) && xs != [] && ys != [] && xs[|xs|-1] == ys[|ys|-1]
    ensures multiset(xs[..|xs|-1]) == multiset(ys[..|ys|-1])
  {
    TakeOut(xs, |xs| - 1);
    TakeOut(ys, |ys| - 1);
    assert xs[..|xs|-1] + xs[|xs|..] == xs[..|xs|-1];
    assert ys[..|ys|-1] + ys[|ys|..] == ys[..|ys|-1];
  }

  lemma SameLength(xs: seq<real>, ys: seq<real>)
    requires multiset(xs) == multiset(ys)
    ensures |xs| == |ys|
  {
    assert |xs| == |multiset(xs)| == |ys|;
  }

  /** Sorting forgets the order too, so the percentile depends only on which
      latencies there are. */
  lemma {:induction false} SortedIsUnique(xs: seq<real>, ys: seq<real>)
    requires multiset(xs) == multiset(ys) && SortedBy(xs, Itself) && SortedBy(ys, Itself)
    ensures xs == ys
  {
    SameLength(xs, ys);
    if xs != [] {
      LastIsLargest(xs, ys);
      LastIsLargest(ys, xs);
      DropLast(xs, ys);
      SortedIsUnique(xs[..|xs|-1], ys[..|ys|-1]);
      assert xs == xs[..|xs|-1] + [xs[|xs|-1]] && ys == ys[..|ys|-1] + [ys[|ys|-1]];
    }
  }

  /** By any sorted list of the latencies: the percentile is the element at 95% of their
      number, and the median the middle one or the mean of the two in the middle. */
  lemma PercentilesOfSorted(xs: seq<real>, ys: seq<real>)
    requires xs != [] && multiset(xs) == multiset(ys)
    requires forall i, j :: 0 <= i < j < |ys| ==> ys[i] <= ys[j]
    ensures |ys| == |xs| && P95(xs) == ys[|ys| * 95 / 100]
    ensures |ys| % 2 == 1 ==> P50(xs) == ys[|ys| / 2]
    ensures |ys| % 2 == 0 ==> 2.0 * P50(xs) == ys[|ys| / 2 - 1] + ys[|ys| / 2]
  {
    hide SortBy;
    SameLength(xs, ys);
    SortSorts(xs, Itself);
    SortedIsUnique(SortBy(xs, Itself), ys);
  }

  lemma LastIsLargest(xs: seq<real>, ys: seq<real>)
    requires multiset(xs) == multiset(ys) && xs != [] && ys != [] && SortedBy(ys, Itself)
    ensures xs[|xs|-1] <= ys[|ys|-1]
  {
    assert xs[|xs|-1] in multiset(xs);
    var i :| 0 <= i < |ys| && ys[i] == xs[|xs|-1];
    assert i < |ys| - 1 ==> Itself(ys[i]) <= Itself(ys[|ys|-1]);
  }

  lemma {:induction false} PercentilesIgnoreOrder(xs: seq<real>, ys: seq<real>)
    requires xs != [] && multiset(xs) == multiset(ys)
    ensures ys != [] && P50(xs) == P50(ys) && P95(xs) == P95(ys)
  {
    hide SortBy, SortedBy;
    SameLength(xs, ys);
    SortSorts(xs, Itself);
    SortSorts(ys, Itself);
    SortedIsUnique(SortBy(xs, Itself), SortBy(ys, Itself));
  }

  /** At least half of the latencies are at most the reported median. */
  lemma P50CoversHalf(xs: seq<real>)
    requires xs != []
    ensures 2 * CountAtMost(xs, P50(xs)) >= |xs|
  {
    SortSorts(xs, Itself);
    var (sorted, n) := (SortBy(xs, Itself), |xs|);
    var i := if n % 2 == 1 then n / 2 else n / 2 - 1;
    var next := n / 2;
    assert i < next ==> Itself(sorted[i]) <= Itself(sorted[next]);
    CountSorted(sorted, i);
    CountGrows(sorted, sorted[i], P50(xs));
    CountSort(xs, P50(xs));
  }

  lemma {:induction false} CountGrows(xs: seq<real>, x: real, y: real)
    requires x <= y
    ensures CountAtMost(xs, x) <= CountAtMost(xs, y)
  {
    if xs != [] { CountGrows(xs[..|xs|-1], x, y); }
  }

  lemma {:induction false} LatenciesAreRecorded(xs: seq<Pair>)
    ensures multiset(LatenciesOf(xs)) == Fold(xs).records.latencies
  {
    if xs != [] {
      hide AddBasics, AddScores, ErrorOf;
      LatenciesAreRecorded(xs[..|xs|-1]);
    }
  }

  /** Main result: the summary, percentiles and rounding included, does not depend
      on the order of the results. */
  lemma SummaryIgnoresOrder(xs: seq<Pair>, ys: seq<Pair>)
    requires multiset(xs) == multiset(ys)
    ensures SummaryOf(xs) == SummaryOf(ys)
  {
    hide Fold, LatenciesOf, RoundTo, Rate, BrierRate, P50, P95;
    OrderDoesNotMatter(xs, ys);
    LatenciesAreRecorded(xs);
    LatenciesAreRecorded(ys);
    SameLength(LatenciesOf(xs), LatenciesOf(ys));
    if LatenciesOf(xs) != [] {
      PercentilesIgnoreOrder(LatenciesOf(xs), LatenciesOf(ys));
    }
  }
}

/** The deterministic risk score. */
module RiskScore {
  import opened Reals
  import opened Rounding

  datatype Signals = Signals(
    ruleLevel: int,
    tiConfidence: real, tiIsKev: bool, tiIsKnownBad: bool,
    assetCriticality: int, isCrownJewel: bool,
    vulnMatched: bool, vulnEpss: real, vulnIsKev: bool,
    uebaZscore: real,
    userIsPrivileged: bool, userIsServiceAcctInteractive: bool, userIsDormantReactivated: bool,
    geoImpossibleTravel: bool, geoTorVpn: bool, geoBadAsn: bool, geoUnexpectedCountry: bool,
    mitreHighImpact: bool,
    isAllowlisted: bool, isConfirmedFp: bool, isBenignNoise: bool)

  datatype Weights = Weights(
    ruleLevelCritical: real, ruleLevelHigh: real, ruleLevelMediumHigh: real, ruleLevelMedium: real,
    tiKnownBad: real, tiBase: real,
    assetCriticalityPerPoint: real,
    vulnKevEpss: real, vulnMatched: real,
    uebaCriticalThreshold: real, uebaHighThreshold: real, uebaMediumThreshold: real,
    uebaCritical: real, uebaHigh: real, uebaMedium: real,
    userPrivileged: real, userServiceAcct: real, userDormant: real,
    geoImpossibleTravel: real, geoTorVpn: real, geoBadAsn: real, geoUnexpectedCountry: real,
    mitreHighImpact: real,
    confirmedFpPenalty: real, benignNoisePenalty: real,
    crownJewelMultiplier: real)

  const DEFAULT_WEIGHTS := Weights(
    40.0, 30.0, 20.0, 10.0, 40.0, 30.0, 2.0, 35.0, 25.0, 5.0, 3.5, 2.5, 20.0, 12.0, 6.0,
    10.0, 10.0, 15.0, 15.0, 8.0, 5.0, 5.0, 10.0, 20.0, 10.0, 1.3)

  /** No weight is negative, each tier weighs at least the one below it, and
      the multiplier does not shrink. */
  predicate Ordered(w: Weights) {
    && w.ruleLevelCritical >= w.ruleLevelHigh >= w.ruleLevelMediumHigh >= w.ruleLevelMedium >= 0.0
    && w.tiKnownBad >= w.tiBase >= 0.0
    && w.assetCriticalityPerPoint >= 0.0
    && w.vulnKevEpss >= w.vulnMatched >= 0.0
    && w.uebaCriticalThreshold >= w.uebaHighThreshold >= w.uebaMediumThreshold
    && w.uebaCritical >= w.uebaHigh >= w.uebaMedium >= 0.0
    && w.userPrivileged >= 0.0 && w.userServiceAcct >= 0.0 && w.userDormant >= 0.0
    && w.geoImpossibleTravel >= 0.0 && w.geoTorVpn >= 0.0 && w.geoBadAsn >= 0.0 && w.geoUnexpectedCountry >= 0.0
    && w.mitreHighImpact >= 0.0 && w.confirmedFpPenalty >= 0.0 && w.benignNoisePenalty >= 0.0
    && w.crownJewelMultiplier >= 1.0
  }

  // ---- The points of each group of signals ----------------------------------

  function If(b: bool, points: real): real {
    if b then points else 0.0
  }

  function RulePoints(w: Weights, level: int): real {
    if level >= 14 then w.ruleLevelCritical
    else if level >= 12 then w.ruleLevelHigh
    else if level >= 10 then w.ruleLevelMediumHigh
    else if level >= 7 then w.ruleLevelMedium
    else 0.0
  }

  function Portion(points: real, share: real): real {
    points * share
  }

  function TiPoints(w: Weights, s: Signals): real {
    if s.tiIsKnownBad || s.tiIsKev then w.tiKnownBad
    else if s.tiConfidence > 0.0 then Portion(w.tiBase, s.tiConfidence)
    else 0.0
  }

  function AssetPoints(w: Weights, s: Signals): real {
    Portion(w.assetCriticalityPerPoint, (if s.assetCriticality < 10 then s.assetCriticality else 10) as real)
  }

  function VulnPoints(w: Weights, s: Signals): real {
    if !s.vulnMatched then 0.0
    else if s.vulnIsKev || s.vulnEpss >= 0.5 then w.vulnKevEpss
    else w.vulnMatched
  }

  function UebaPoints(w: Weights, z: real): real {
    if z >= w.uebaCriticalThreshold then w.uebaCritical
    else if z >= w.uebaHighThreshold then w.uebaHigh
    else if z >= w.uebaMediumThreshold then w.uebaMedium
    else 0.0
  }

  function UserPoints(w: Weights, s: Signals): real {
    If(s.userIsPrivileged, w.userPrivileged) + If(s.userIsServiceAcctInteractive, w.userServiceAcct)
    + If(s.userIsDormantReactivated, w.userDormant)
  }

  function GeoPoints(w: Weights, s: Signals): real {
    If(s.geoImpossibleTravel, w.geoImpossibleTravel) + If(s.geoTorVpn, w.geoTorVpn)
    + If(s.geoBadAsn, w.geoBadAsn) + If(s.geoUnexpectedCountry, w.geoUnexpectedCountry)
  }

  /** The sum before the multiplier. */
  function RawScore(w: Weights, s: Signals): real {
    RulePoints(w, s.ruleLevel) + TiPoints(w, s) + AssetPoints(w, s) + VulnPoints(w, s) + UebaPoints(w, s.uebaZscore)
    + UserPoints(w, s) + GeoPoints(w, s) + If(s.mitreHighImpact, w.mitreHighImpact)
    - If(s.isConfirmedFp, w.confirmedFpPenalty) - If(s.isBenignNoise, w.benignNoisePenalty)
  }

  function Multiplied(w: Weights, s: Signals, raw: real): real {
    if s.isCrownJewel && raw > 0.0 then raw * w.crownJewelMultiplier else raw
  }

  function Clamp(n: int): (r: int)
    ensures 0 <= r <= 100
  {
    var low := if 100 <= n then 100 else n;
    if 0 >= low then 0 else low
  }

  function Score(w: Weights, s: Signals): (r: int)
    ensures 0 <= r <= 100
  {
    if s.isAllowlisted then 0 else Clamp(Round(Multiplied(w, s, RawScore(w, s))))
  }

  // ---- The scorer -------------------------------------------------------------

  /** The entries of a breakdown. */
  datatype Item =
    | RuleLevel | ThreatIntel | AssetCriticality | VulnCorrelation | UebaZscore | UserRisk | GeoIp
    | Mitre | ConfirmedFp | BenignNoise | CrownJewelMult

  datatype Breakdown = Unscored | Allowlisted | Points(points: map<Item, real>)

  class EnrichmentContext {
    const signals: Signals
    var breakdown: Breakdown

    constructor (signals: Signals)
      ensures this.signals == signals && breakdown == Unscored
    {
      this.signals := signals;
      breakdown := Unscored;
    }
  }

  function PointsFor(points: map<Item, real>, item: Item): real {
    if item in points then points[item] else 0.0
  }

  /** The sum of the recorded contributions. */
  function AuditSum(points: map<Item, real>): real {
    PointsFor(points, RuleLevel) + PointsFor(points, ThreatIntel) + PointsFor(points, AssetCriticality)
    + PointsFor(points, VulnCorrelation) + PointsFor(points, UebaZscore) + PointsFor(points, UserRisk)
    + PointsFor(points, GeoIp) + PointsFor(points, Mitre) + PointsFor(points, ConfirmedFp)
    + PointsFor(points, BenignNoise)
  }

  /** That sum, times the recorded multiplier if there is one. */
  function AuditTotal(points: map<Item, real>): real {
    if CrownJewelMult in points then AuditSum(points) * points[CrownJewelMult] else AuditSum(points)
  }

  /** Each group of signals has its own points under its own entry, and an entry
      that does not apply is absent. */
  ghost predicate Itemised(points: map<Item, real>, w: Weights, s: Signals) {
    && ItemisedPoints(points, w, s)
    && (CrownJewelMult in points <==> s.isCrownJewel && RawScore(w, s) > 0.0)
    && (CrownJewelMult in points ==> points[CrownJewelMult] == w.crownJewelMultiplier)
  }

  ghost predicate ItemisedPoints(points: map<Item, real>, w: Weights, s: Signals) {
    && {RuleLevel, ThreatIntel, AssetCriticality, VulnCorrelation, UebaZscore, UserRisk, GeoIp} <= points.Keys
    && points[RuleLevel] == RulePoints(w, s.ruleLevel) && points[ThreatIntel] == TiPoints(w, s)
    && points[AssetCriticality] == AssetPoints(w, s) && points[VulnCorrelation] == VulnPoints(w, s)
    && points[UebaZscore] == UebaPoints(w, s.uebaZscore) && points[UserRisk] == UserPoints(w, s)
    && points[GeoIp] == GeoPoints(w, s)
    && (Mitre in points <==> s.mitreHighImpact) && (Mitre in points ==> points[Mitre] == w.mitreHighImpact)
    && (ConfirmedFp in points <==> s.isConfirmedFp) &&
        (ConfirmedFp in points ==> points[ConfirmedFp] == -w.confirmedFpPenalty)
    && (BenignNoise in points <==> s.isBenignNoise) &&
        (BenignNoise in points ==> points[BenignNoise] == -w.benignNoisePenalty)
  }

  /** Recording the multiplier leaves the points alone. */
  lemma MultiplierIsApart(points: map<Item, real>, w: Weights, s: Signals)
    requires ItemisedPoints(points, w, s)
    ensures var multiplied := points[CrownJewelMult := w.crownJewelMultiplier];
            ItemisedPoints(multiplied, w, s) && AuditSum(multiplied) == AuditSum(points)
  {
    hide RulePoints, TiPoints, AssetPoints, VulnPoints, UebaPoints, UserPoints, GeoPoints;
  }

  /** The multiplier scales the score and the recorded sum alike. */
  lemma MultiplierCounts(points: map<Item, real>, w: Weights, s: Signals, score: real)
    requires score == RawScore(w, s) == AuditSum(points) && ItemisedPoints(points, w, s) && CrownJewelMult !in points
    ensures var scaled := s.isCrownJewel && score > 0.0;
            var points' := if scaled then points[CrownJewelMult := w.crownJewelMultiplier] else points;
            var score' := if scaled then score * w.crownJewelMultiplier else score;
            score' == Multiplied(w, s, RawScore(w, s)) == AuditTotal(points') && Itemised(points', w, s)
  {
    hide RawScore, AuditSum, ItemisedPoints;
    MultiplierIsApart(points, w, s);
    MulCongruent(score, RawScore(w, s), w.crownJewelMultiplier);
    MulCongruent(score, AuditSum(points), w.crownJewelMultiplier);
  }

  /** Scores a context and writes down where the score came from: the written
      contributions account for the whole score. */
  method Compute(w: Weights, ctx: EnrichmentContext) returns (r: int)
    modifies ctx`breakdown
    ensures r == Score(w, ctx.signals)
    ensures ctx.breakdown.Allowlisted? <==> ctx.signals.isAllowlisted
    ensures !ctx.signals.isAllowlisted ==>
              && ctx.breakdown.Points? && Itemised(ctx.breakdown.points, w, ctx.signals)
              && r == Clamp(Round(AuditTotal(ctx.breakdown.points)))
  {
    hide RulePoints, TiPoints, AssetPoints, VulnPoints, UebaPoints, UserPoints, GeoPoints, Round, Clamp;
    var s := ctx.signals;
    if s.isAllowlisted {
      ctx.breakdown := Allowlisted;
      return 0;
    }
    var breakdown: map<Item, real> := map[];
    var pts := RulePoints(w, s.ruleLevel);
    breakdown := breakdown[RuleLevel := pts];
    var score := pts;
    pts := TiPoints(w, s);
    breakdown := breakdown[ThreatIntel := pts];
    score := score + pts;
    pts := AssetPoints(w, s);
    breakdown := breakdown[AssetCriticality := pts];
    score := score + pts;
    pts := VulnPoints(w, s);
    breakdown := breakdown[VulnCorrelation := pts];
    score := score + pts;
    pts := UebaPoints(w, s.uebaZscore);
    breakdown := breakdown[UebaZscore := pts];
    score := score + pts;
    pts := UserPoints(w, s);
    breakdown := breakdown[UserRisk := pts];
    score := score + pts;
    pts := GeoPoints(w, s);
    breakdown := breakdown[GeoIp := pts];
    score := score + pts;
    if s.mitreHighImpact {
      breakdown := breakdown[Mitre := w.mitreHighImpact];
      score := score + w.mitreHighImpact;
    }
    if s.isConfirmedFp {
      breakdown := breakdown[ConfirmedFp := -w.confirmedFpPenalty];
      score := score - w.confirmedFpPenalty;
    }
    if s.isBenignNoise {
      breakdown := breakdown[BenignNoise := -w.benignNoisePenalty];
      score := score - w.benignNoisePenalty;
    }
    ghost var unscaled := breakdown;
    assert score == RawScore(w, s) == AuditSum(unscaled);
    assert ItemisedPoints(unscaled, w, s);
    hide RawScore, AuditSum, ItemisedPoints, If, Multiplied, AuditTotal, Itemised;
    MultiplierCounts(unscaled, w, s, score);
    if s.isCrownJewel && score > 0.0 {
      breakdown := breakdown[CrownJewelMult := w.crownJewelMultiplier];
      score := score * w.crownJewelMultiplier;
    }
    ctx.breakdown := Points(breakdown);
    r := Clamp(Round(score));
  }

  // ---- What each signal is worth -----------------------------------------------

  /** No signal says anything. */
  predicate Quiet(w: Weights, s: Signals) {
    && s.ruleLevel < 7 && s.tiConfidence <= 0.0 && !s.tiIsKnownBad && !s.tiIsKev && s.assetCriticality == 0
    && !s.vulnMatched && BelowUeba(w, s.uebaZscore)
    && !s.userIsPrivileged && !s.userIsServiceAcctInteractive && !s.userIsDormantReactivated
    && !s.geoImpossibleTravel && !s.geoTorVpn && !s.geoBadAsn && !s.geoUnexpectedCountry
    && !s.mitreHighImpact && !s.isConfirmedFp && !s.isBenignNoise
  }

  predicate BelowUeba(w: Weights, z: real) {
    z < w.uebaCriticalThreshold && z < w.uebaHighThreshold && z < w.uebaMediumThreshold
  }

  lemma QuietScoresNothing(w: Weights, s: Signals)
    requires Quiet(w, s)
    ensures RawScore(w, s) == 0.0
  {
    hide Portion;
    WholeAndNothing(w.assetCriticalityPerPoint);
  }

  /** Raising a flag adds exactly its own weight, and an excuse takes its penalty off,
      whatever the other signals are. */
  lemma FlagsAreWorthTheirWeight(w: Weights, s: Signals)
    ensures RawScore(w, s.(geoImpossibleTravel := true)) ==
              RawScore(w, s.(geoImpossibleTravel := false)) + w.geoImpossibleTravel
    ensures RawScore(w, s.(geoTorVpn := true)) == RawScore(w, s.(geoTorVpn := false)) + w.geoTorVpn
    ensures RawScore(w, s.(geoBadAsn := true)) == RawScore(w, s.(geoBadAsn := false)) + w.geoBadAsn
    ensures RawScore(w, s.(geoUnexpectedCountry := true)) ==
              RawScore(w, s.(geoUnexpectedCountry := false)) + w.geoUnexpectedCountry
    ensures RawScore(w, s.(userIsPrivileged := true)) == RawScore(w, s.(userIsPrivileged := false)) + w.userPrivileged
    ensures RawScore(w, s.(userIsServiceAcctInteractive := true)) ==
              RawScore(w, s.(userIsServiceAcctInteractive := false)) + w.userServiceAcct
    ensures RawScore(w, s.(userIsDormantReactivated := true)) ==
              RawScore(w, s.(userIsDormantReactivated := false)) + w.userDormant
    ensures RawScore(w, s.(mitreHighImpact := true)) == RawScore(w, s.(mitreHighImpact := false)) + w.mitreHighImpact
    ensures RawScore(w, s.(isConfirmedFp := true)) == RawScore(w, s.(isConfirmedFp := false)) - w.confirmedFpPenalty
    ensures RawScore(w, s.(isBenignNoise := true)) == RawScore(w, s.(isBenignNoise := false)) - w.benignNoisePenalty
  {
    hide RawScore;
    GeoFlagsInRaw(w, s);
    AddressFlagsInRaw(w, s);
    UserFlagsInRaw(w, s);
    MitreFlagInRaw(w, s);
    ExcusesInRaw(w, s);
  }

  lemma GeoFlagsInRaw(w: Weights, s: Signals)
    ensures RawScore(w, s.(geoImpossibleTravel := true)) ==
              RawScore(w, s.(geoImpossibleTravel := false)) + w.geoImpossibleTravel
    ensures RawScore(w, s.(geoTorVpn := true)) == RawScore(w, s.(geoTorVpn := false)) + w.geoTorVpn
  {
    GeoFlags(w, s);
    hide RulePoints, TiPoints, AssetPoints, VulnPoints, UebaPoints, UserPoints, GeoPoints, If;
    SameElsewhere(w, s.(geoImpossibleTravel := true), s.(geoImpossibleTravel := false));
    SameElsewhere(w, s.(geoTorVpn := true), s.(geoTorVpn := false));
  }

  lemma AddressFlagsInRaw(w: Weights, s: Signals)
    ensures RawScore(w, s.(geoBadAsn := true)) == RawScore(w, s.(geoBadAsn := false)) + w.geoBadAsn
    ensures RawScore(w, s.(geoUnexpectedCountry := true)) ==
              RawScore(w, s.(geoUnexpectedCountry := false)) + w.geoUnexpectedCountry
  {
    GeoFlags(w, s);
    hide RulePoints, TiPoints, AssetPoints, VulnPoints, UebaPoints, UserPoints, GeoPoints, If;
    SameElsewhere(w, s.(geoBadAsn := true), s.(geoBadAsn := false));
    SameElsewhere(w, s.(geoUnexpectedCountry := true), s.(geoUnexpectedCountry := false));
  }

  lemma UserFlagsInRaw(w: Weights, s: Signals)
    ensures RawScore(w, s.(userIsPrivileged := true)) == RawScore(w, s.(userIsPrivileged := false)) + w.userPrivileged
    ensures RawScore(w, s.(userIsServiceAcctInteractive := true)) ==
              RawScore(w, s.(userIsServiceAcctInteractive := false)) + w.userServiceAcct
    ensures RawScore(w, s.(userIsDormantReactivated := true)) ==
              RawScore(w, s.(userIsDormantReactivated := false)) + w.userDormant
  {
    UserFlags(w, s);
    hide RulePoints, TiPoints, AssetPoints, VulnPoints, UebaPoints, UserPoints, GeoPoints, If;
    SameElsewhere(w, s.(userIsPrivileged := true), s.(userIsPrivileged := false));
    SameElsewhere(w, s.(userIsServiceAcctInteractive := true), s.(userIsServiceAcctInteractive := false));
    SameElsewhere(w, s.(userIsDormantReactivated := true), s.(userIsDormantReactivated := false));
  }

  lemma MitreFlagInRaw(w: Weights, s: Signals)
    ensures RawScore(w, s.(mitreHighImpact := true)) == RawScore(w, s.(mitreHighImpact := false)) + w.mitreHighImpact
  {
    hide RulePoints, TiPoints, AssetPoints, VulnPoints, UebaPoints, UserPoints, GeoPoints;
    SameElsewhere(w, s.(mitreHighImpact := true), s.(mitreHighImpact := false));
  }

  lemma ExcusesInRaw(w: Weights, s: Signals)
    ensures RawScore(w, s.(isConfirmedFp := true)) == RawScore(w, s.(isConfirmedFp := false)) - w.confirmedFpPenalty
    ensures RawScore(w, s.(isBenignNoise := true)) == RawScore(w, s.(isBenignNoise := false)) - w.benignNoisePenalty
  {
    hide RulePoints, TiPoints, AssetPoints, VulnPoints, UebaPoints, UserPoints, GeoPoints;
    SameElsewhere(w, s.(isConfirmedFp := true), s.(isConfirmedFp := false));
    SameElsewhere(w, s.(isBenignNoise := true), s.(isBenignNoise := false));
  }

  /** Each group of points depends on its own signals only. */
  lemma SameElsewhere(w: Weights, a: Signals, b: Signals)
    ensures a.tiIsKnownBad == b.tiIsKnownBad && a.tiIsKev == b.tiIsKev && a.tiConfidence == b.tiConfidence ==>
              TiPoints(w, a) == TiPoints(w, b)
    ensures a.assetCriticality == b.assetCriticality ==> AssetPoints(w, a) == AssetPoints(w, b)
    ensures a.vulnMatched == b.vulnMatched && a.vulnEpss == b.vulnEpss && a.vulnIsKev == b.vulnIsKev ==>
              VulnPoints(w, a) == VulnPoints(w, b)
    ensures (a.userIsPrivileged, a.userIsServiceAcctInteractive, a.userIsDormantReactivated)
            == (b.userIsPrivileged, b.userIsServiceAcctInteractive, b.userIsDormantReactivated) ==>
              UserPoints(w, a) == UserPoints(w, b)
    ensures (a.geoImpossibleTravel, a.geoTorVpn, a.geoBadAsn, a.geoUnexpectedCountry)
            == (b.geoImpossibleTravel, b.geoTorVpn, b.geoBadAsn, b.geoUnexpectedCountry) ==>
              GeoPoints(w, a) == GeoPoints(w, b)
  {
    hide Portion, If;
  }

  lemma GeoFlags(w: Weights, s: Signals)
    ensures GeoPoints(w, s.(geoImpossibleTravel := true)) ==
              GeoPoints(w, s.(geoImpossibleTravel := false)) + w.geoImpossibleTravel
    ensures GeoPoints(w, s.(geoTorVpn := true)) == GeoPoints(w, s.(geoTorVpn := false)) + w.geoTorVpn
    ensures GeoPoints(w, s.(geoBadAsn := true)) == GeoPoints(w, s.(geoBadAsn := false)) + w.geoBadAsn
    ensures GeoPoints(w, s.(geoUnexpectedCountry := true)) ==
              GeoPoints(w, s.(geoUnexpectedCountry := false)) + w.geoUnexpectedCountry
  {
  }

  lemma UserFlags(w: Weights, s: Signals)
    ensures UserPoints(w, s.(userIsPrivileged := true)) ==
              UserPoints(w, s.(userIsPrivileged := false)) + w.userPrivileged
    ensures UserPoints(w, s.(userIsServiceAcctInteractive := true)) ==
              UserPoints(w, s.(userIsServiceAcctInteractive := false)) + w.userServiceAcct
    ensures UserPoints(w, s.(userIsDormantReactivated := true)) ==
              UserPoints(w, s.(userIsDormantReactivated := false)) + w.userDormant
  {
  }

  /** Each tier differs from the quiet value by its own weight, whatever the other
      signals are. */
  lemma TiersAreWorthTheirWeight(w: Weights, s: Signals, level: int, z: real, quiet: real)
    requires BelowUeba(w, quiet)
    ensures RawScore(w, s.(ruleLevel := level)) - RawScore(w, s.(ruleLevel := 0)) ==
              if level >= 14 then w.ruleLevelCritical else if level >= 12 then w.ruleLevelHigh
              else if level >= 10 then w.ruleLevelMediumHigh else if level >= 7 then w.ruleLevelMedium else 0.0
    ensures RawScore(w, s.(uebaZscore := z)) - RawScore(w, s.(uebaZscore := quiet)) ==
              if z >= w.uebaCriticalThreshold then w.uebaCritical else if z >= w.uebaHighThreshold then w.uebaHigh
              else if z >= w.uebaMediumThreshold then w.uebaMedium else 0.0
  {
    hide Portion;
  }

  lemma EvidenceIsWorthItsWeight(w: Weights, s: Signals)
    ensures RawScore(w, s) - RawScore(w, s.(vulnMatched := false)) ==
              if !s.vulnMatched then 0.0 else if s.vulnIsKev || s.vulnEpss >= 0.5 then w.vulnKevEpss else w.vulnMatched
    ensures RawScore(w, s) - RawScore(w, s.(tiIsKnownBad := false, tiIsKev := false, tiConfidence := 0.0)) ==
              if s.tiIsKnownBad || s.tiIsKev then w.tiKnownBad
              else if s.tiConfidence > 0.0 then w.tiBase * s.tiConfidence else 0.0
    ensures RawScore(w, s) - RawScore(w, s.(assetCriticality := 0)) ==
              w.assetCriticalityPerPoint * (if s.assetCriticality > 10 then 10 else s.assetCriticality) as real
  {
    var (noVuln, noTi, noAsset) :=
      (s.(vulnMatched := false), s.(tiIsKnownBad := false, tiIsKev := false, tiConfidence := 0.0),
       s.(assetCriticality := 0));
    EvidencePoints(w, s);
    hide RulePoints, TiPoints, AssetPoints, VulnPoints, UebaPoints, UserPoints, GeoPoints, If;
    SameElsewhere(w, s, noVuln);
    SameElsewhere(w, s, noTi);
    SameElsewhere(w, s, noAsset);
  }

  lemma EvidencePoints(w: Weights, s: Signals)
    ensures VulnPoints(w, s.(vulnMatched := false)) == 0.0
    ensures TiPoints(w, s.(tiIsKnownBad := false, tiIsKev := false, tiConfidence := 0.0)) == 0.0
    ensures AssetPoints(w, s.(assetCriticality := 0)) == 0.0
    ensures VulnPoints(w, s) ==
              if !s.vulnMatched then 0.0 else if s.vulnIsKev || s.vulnEpss >= 0.5 then w.vulnKevEpss else w.vulnMatched
    ensures TiPoints(w, s) ==
              if s.tiIsKnownBad || s.tiIsKev then w.tiKnownBad
              else if s.tiConfidence > 0.0 then w.tiBase * s.tiConfidence else 0.0
    ensures AssetPoints(w, s) ==
              w.assetCriticalityPerPoint * (if s.assetCriticality > 10 then 10 else s.assetCriticality) as real
  {
    PortionIs(w.tiBase, s.tiConfidence);
    PortionIs(w.assetCriticalityPerPoint, (if s.assetCriticality > 10 then 10 else s.assetCriticality) as real);
    hide Portion;
    WholeAndNothing(w.assetCriticalityPerPoint);
  }

  lemma PortionIs(points: real, share: real)
    ensures Portion(points, share) == points * share
  {
  }

  lemma ShippedEvidence(s: Signals)
    requires Quiet(DEFAULT_WEIGHTS, s)
    ensures var w := DEFAULT_WEIGHTS;
            && RawScore(w, s.(tiIsKnownBad := true)) == 40.0 && RawScore(w, s.(tiConfidence := 1.0)) == 30.0
            && RawScore(w, s.(assetCriticality := 1)) == 2.0
            && RawScore(w, s.(vulnMatched := true, vulnIsKev := true)) == 35.0
            && RawScore(w, s.(vulnMatched := true, vulnIsKev := false, vulnEpss := 0.0)) == 25.0
  {
    hide RawScore, Quiet;
    ShippedTi(s);
    ShippedAsset(s);
    ShippedVuln(s);
  }

  lemma ShippedTi(s: Signals)
    requires Quiet(DEFAULT_WEIGHTS, s)
    ensures RawScore(DEFAULT_WEIGHTS, s.(tiIsKnownBad := true)) == 40.0
    ensures RawScore(DEFAULT_WEIGHTS, s.(tiConfidence := 1.0)) == 30.0
  {
    hide RawScore;
    var w := DEFAULT_WEIGHTS;
    QuietScoresNothing(w, s.(tiIsKnownBad := false, tiIsKev := false, tiConfidence := 0.0));
    EvidenceIsWorthItsWeight(w, s.(tiIsKnownBad := true));
    EvidenceIsWorthItsWeight(w, s.(tiConfidence := 1.0));
  }

  lemma ShippedAsset(s: Signals)
    requires Quiet(DEFAULT_WEIGHTS, s)
    ensures RawScore(DEFAULT_WEIGHTS, s.(assetCriticality := 1)) == 2.0
  {
    hide RawScore;
    QuietScoresNothing(DEFAULT_WEIGHTS, s);
    assert s.(assetCriticality := 0) == s;
    EvidenceIsWorthItsWeight(DEFAULT_WEIGHTS, s.(assetCriticality := 1));
  }

  lemma ShippedVuln(s: Signals)
    requires Quiet(DEFAULT_WEIGHTS, s)
    ensures RawScore(DEFAULT_WEIGHTS, s.(vulnMatched := true, vulnIsKev := true)) == 35.0
    ensures RawScore(DEFAULT_WEIGHTS, s.(vulnMatched := true, vulnIsKev := false, vulnEpss := 0.0)) == 25.0
  {
    hide RawScore;
    var w := DEFAULT_WEIGHTS;
    QuietScoresNothing(w, s.(vulnMatched := false, vulnIsKev := true));
    QuietScoresNothing(w, s.(vulnMatched := false, vulnIsKev := false, vulnEpss := 0.0));
    EvidenceIsWorthItsWeight(w, s.(vulnMatched := true, vulnIsKev := true));
    EvidenceIsWorthItsWeight(w, s.(vulnMatched := true, vulnIsKev := false, vulnEpss := 0.0));
  }

  /** The shipped weights, by what they make of a context that is otherwise quiet. */
  lemma ShippedWeights(s: Signals)
    requires Quiet(DEFAULT_WEIGHTS, s)
    ensures var w := DEFAULT_WEIGHTS;
            && RawScore(w, s.(ruleLevel := 7)) == 10.0 && RawScore(w, s.(ruleLevel := 10)) == 20.0
            && RawScore(w, s.(ruleLevel := 12)) == 30.0 && RawScore(w, s.(ruleLevel := 14)) == 40.0
            && RawScore(w, s.(tiIsKnownBad := true)) == 40.0 && RawScore(w, s.(tiConfidence := 1.0)) == 30.0
            && RawScore(w, s.(assetCriticality := 1)) == 2.0
            && RawScore(w, s.(vulnMatched := true, vulnIsKev := true)) == 35.0
            && RawScore(w, s.(vulnMatched := true, vulnIsKev := false, vulnEpss := 0.0)) == 25.0
    ensures var w := DEFAULT_WEIGHTS;
            && RawScore(w, s.(uebaZscore := 2.5)) == 6.0 && RawScore(w, s.(uebaZscore := 3.5)) == 12.0
            && RawScore(w, s.(uebaZscore := 5.0)) == 20.0
            && RawScore(w, s.(userIsPrivileged := true)) == 10.0
            && RawScore(w, s.(userIsServiceAcctInteractive := true)) == 10.0
            && RawScore(w, s.(userIsDormantReactivated := true)) == 15.0
            && RawScore(w, s.(geoImpossibleTravel := true)) == 15.0 && RawScore(w, s.(geoTorVpn := true)) == 8.0
            && RawScore(w, s.(geoBadAsn := true)) == 5.0 && RawScore(w, s.(geoUnexpectedCountry := true)) == 5.0
            && RawScore(w, s.(mitreHighImpact := true)) == 10.0
            && RawScore(w, s.(isConfirmedFp := true)) == -20.0 && RawScore(w, s.(isBenignNoise := true)) == -10.0
  {
    hide RawScore;
    var w := DEFAULT_WEIGHTS;
    assert s.(ruleLevel := s.ruleLevel) == s;
    QuietScoresNothing(w, s);
    QuietScoresNothing(w, s.(ruleLevel := 0));
    FlagsAreWorthTheirWeight(w, s);
    TiersAreWorthTheirWeight(w, s, 7, 2.5, s.uebaZscore);
    TiersAreWorthTheirWeight(w, s, 10, 3.5, s.uebaZscore);
    TiersAreWorthTheirWeight(w, s, 12, 5.0, s.uebaZscore);
    TiersAreWorthTheirWeight(w, s, 14, 5.0, s.uebaZscore);
    ShippedEvidence(s);
  }

  /** Each entry of a written breakdown says what its own signals are worth. */
  lemma EntriesSayWhy(points: map<Item, real>, w: Weights, s: Signals)
    requires Itemised(points, w, s)
    ensures points[UserRisk] ==
              (if s.userIsPrivileged then w.userPrivileged else 0.0)
              + (if s.userIsServiceAcctInteractive then w.userServiceAcct else 0.0)
              + (if s.userIsDormantReactivated then w.userDormant else 0.0)
    ensures points[GeoIp] ==
              (if s.geoImpossibleTravel then w.geoImpossibleTravel else 0.0)
              + (if s.geoTorVpn then w.geoTorVpn else 0.0)
              + (if s.geoBadAsn then w.geoBadAsn else 0.0)
              + (if s.geoUnexpectedCountry then w.geoUnexpectedCountry else 0.0)
    ensures points[RuleLevel] ==
              if s.ruleLevel >= 14 then w.ruleLevelCritical else if s.ruleLevel >= 12 then w.ruleLevelHigh
              else if s.ruleLevel >= 10 then w.ruleLevelMediumHigh
              else if s.ruleLevel >= 7 then w.ruleLevelMedium else 0.0
    ensures points[UebaZscore] ==
              if s.uebaZscore >= w.uebaCriticalThreshold then w.uebaCritical
              else if s.uebaZscore >= w.uebaHighThreshold then w.uebaHigh
              else if s.uebaZscore >= w.uebaMediumThreshold then w.uebaMedium else 0.0
    ensures points[VulnCorrelation] ==
              if !s.vulnMatched then 0.0 else if s.vulnIsKev || s.vulnEpss >= 0.5 then w.vulnKevEpss else w.vulnMatched
    ensures points[ThreatIntel] ==
              if s.tiIsKnownBad || s.tiIsKev then w.tiKnownBad
              else if s.tiConfidence > 0.0 then w.tiBase * s.tiConfidence else 0.0
    ensures points[AssetCriticality] ==
              w.assetCriticalityPerPoint * (if s.assetCriticality > 10 then 10 else s.assetCriticality) as real
  {
    EvidencePoints(w, s);
    hide TiPoints, AssetPoints, VulnPoints, RawScore;
  }

  // ---- Monotonicity -------------------------------------------------------------

  /** Probabilities are probabilities. */
  predicate InRange(s: Signals) {
    0.0 <= s.tiConfidence <= 1.0
  }

  /** b is at least as threatening as a in every signal, and is excused by no
      flag that does not excuse a. */
  predicate AtMost(a: Signals, b: Signals) {
    && a.ruleLevel <= b.ruleLevel
    && a.tiConfidence <= b.tiConfidence && (a.tiIsKev ==> b.tiIsKev) && (a.tiIsKnownBad ==> b.tiIsKnownBad)
    && a.assetCriticality <= b.assetCriticality && (a.isCrownJewel ==> b.isCrownJewel)
    && (a.vulnMatched ==> b.vulnMatched) && a.vulnEpss <= b.vulnEpss && (a.vulnIsKev ==> b.vulnIsKev)
    && a.uebaZscore <= b.uebaZscore
    && (a.userIsPrivileged ==> b.userIsPrivileged)
    && (a.userIsServiceAcctInteractive ==> b.userIsServiceAcctInteractive)
    && (a.userIsDormantReactivated ==> b.userIsDormantReactivated)
    && (a.geoImpossibleTravel ==> b.geoImpossibleTravel) && (a.geoTorVpn ==> b.geoTorVpn)
    && (a.geoBadAsn ==> b.geoBadAsn) && (a.geoUnexpectedCountry ==> b.geoUnexpectedCountry)
    && (a.mitreHighImpact ==> b.mitreHighImpact)
    && (b.isAllowlisted ==> a.isAllowlisted) && (b.isConfirmedFp ==> a.isConfirmedFp) &&
        (b.isBenignNoise ==> a.isBenignNoise)
  }

  lemma TiMonotone(w: Weights, a: Signals, b: Signals)
    requires Ordered(w) && InRange(a) && InRange(b) && AtMost(a, b)
    ensures TiPoints(w, a) <= TiPoints(w, b)
  {
    hide Portion;
    PortionMonotone(w.tiBase, a.tiConfidence, b.tiConfidence);
    PortionMonotone(w.tiBase, a.tiConfidence, 1.0);
    PortionMonotone(w.tiBase, 0.0, b.tiConfidence);
    WholeAndNothing(w.tiBase);
  }

  lemma PortionMonotone(points: real, x: real, y: real)
    requires points >= 0.0 && x <= y
    ensures Portion(points, x) <= Portion(points, y)
  {
    MulMonotone(x, y, points);
  }

  lemma WholeAndNothing(points: real)
    ensures Portion(points, 1.0) == points && Portion(points, 0.0) == 0.0
  {
  }

  lemma AssetMonotone(w: Weights, a: Signals, b: Signals)
    requires Ordered(w) && AtMost(a, b)
    ensures AssetPoints(w, a) <= AssetPoints(w, b)
  {
    var (x, y) := (if a.assetCriticality < 10 then a.assetCriticality else 10,
        if b.assetCriticality < 10 then b.assetCriticality else 10);
    hide Portion;
    PortionMonotone(w.assetCriticalityPerPoint, x as real, y as real);
  }

  lemma TiersMonotone(w: Weights, a: Signals, b: Signals)
    requires Ordered(w) && AtMost(a, b)
    ensures RulePoints(w, a.ruleLevel) <= RulePoints(w, b.ruleLevel)
    ensures VulnPoints(w, a) <= VulnPoints(w, b)
    ensures UebaPoints(w, a.uebaZscore) <= UebaPoints(w, b.uebaZscore)
  {
  }

  lemma FlagsMonotone(w: Weights, a: Signals, b: Signals)
    requires Ordered(w) && AtMost(a, b)
    ensures UserPoints(w, a) <= UserPoints(w, b) && GeoPoints(w, a) <= GeoPoints(w, b)
    ensures If(a.mitreHighImpact, w.mitreHighImpact) <= If(b.mitreHighImpact, w.mitreHighImpact)
    ensures If(a.isConfirmedFp, w.confirmedFpPenalty) >= If(b.isConfirmedFp, w.confirmedFpPenalty)
    ensures If(a.isBenignNoise, w.benignNoisePenalty) >= If(b.isBenignNoise, w.benignNoisePenalty)
  {
  }

  lemma RawMonotone(w: Weights, a: Signals, b: Signals)
    requires Ordered(w) && InRange(a) && InRange(b) && AtMost(a, b)
    ensures RawScore(w, a) <= RawScore(w, b)
  {
    hide Ordered, AtMost, InRange, TiPoints, AssetPoints, RulePoints, VulnPoints, UebaPoints, UserPoints, GeoPoints, If;
    TiMonotone(w, a, b);
    AssetMonotone(w, a, b);
    TiersMonotone(w, a, b);
    FlagsMonotone(w, a, b);
  }

  lemma MultiplierMonotone(w: Weights, a: Signals, b: Signals, x: real, y: real)
    requires w.crownJewelMultiplier >= 1.0 && (a.isCrownJewel ==> b.isCrownJewel) && x <= y
    ensures Multiplied(w, a, x) <= Multiplied(w, b, y)
  {
    var m := w.crownJewelMultiplier;
    assert y > 0.0 ==> y * m > 0.0;
    if x > 0.0 {
      assert x * m <= y * m by { MulMonotone(x, y, m); }
      assert y <= y * m by { MulMonotone(1.0, m, y); assert 1.0 * y == y && m * y == y * m; }
    } else if y > 0.0 {
      assert 0.0 <= y * m by { ProductNonNegative(y, m); }
    }
  }

  /** The score never falls when a threat signal rises or an excuse is dropped,
      through the multiplier, the rounding and the clamp. */
  lemma ScoreMonotone(w: Weights, a: Signals, b: Signals)
    requires Ordered(w) && InRange(a) && InRange(b) && AtMost(a, b)
    ensures Score(w, a) <= Score(w, b)
  {
    hide RawScore, Multiplied, Round;
    if !a.isAllowlisted {
      RawMonotone(w, a, b);
      MultiplierMonotone(w, a, b, RawScore(w, a), RawScore(w, b));
      RoundMonotone(Multiplied(w, a, RawScore(w, a)), Multiplied(w, b, RawScore(w, b)));
    }
  }
}

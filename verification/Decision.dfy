/** The L0 to L4 decision gate. */
module DecisionGate {
  import opened Wrappers
  import opened Rounding
  import opened RiskScore

  datatype Level = Suppress | AutoClose | Triage | Escalate | Critical

  datatype Thresholds = Thresholds(l0: int, l1: int, l2Upper: int, l3: int)

  const DEFAULT_THRESHOLDS := Thresholds(15, 25, 60, 85)

  datatype Decision = Decision(
    level: Level, score: int, skipLlm: bool, fastLlmOnly: bool,
    autoVerdict: Option<string>, autoSeverity: Option<string>)

  function Decide(t: Thresholds, s: Signals, score: int, alertLevel: int): Decision {
    if s.isAllowlisted then
      Decision(Suppress, 0, true, false, Some("benign"), None)
    else if score < t.l0 && alertLevel < 7 && s.tiConfidence == 0.0 then
      Decision(Suppress, score, true, false, Some("benign"), None)
    else if
      && score < t.l1 && s.tiConfidence == 0.0 && !s.tiIsKnownBad
      && s.uebaZscore < 2.5 && !s.vulnMatched && alertLevel < 10
    then
      Decision(AutoClose, score, true, false, Some("benign"), Some("low"))
    else if score >= t.l3 || (s.tiIsKnownBad && s.isCrownJewel) then
      Decision(Critical, score, false, true, Some("malicious"), Some("critical"))
    else if score >= t.l2Upper || (s.tiConfidence >= 0.8 && s.assetCriticality >= 7) then
      Decision(Escalate, score, false, true, Some("malicious"), Some("high"))
    else
      Decision(Triage, score, false, false, None, None)
  }

  function Rank(l: Level): nat {
    match l
    case Suppress => 0
    case AutoClose => 1
    case Triage => 2
    case Escalate => 3
    case Critical => 4
  }

  /** The level an alert is routed to: score first, then the gate. */
  function Route(w: Weights, t: Thresholds, s: Signals, alertLevel: int): Level {
    Decide(t, s, Score(w, s), alertLevel).level
  }

  /** Main result: over the product order of all signals and the alert level,
      the composed pipeline never routes the more threatening alert lower.  It
      holds for any thresholds, in any order. */
  lemma RoutingMonotone(w: Weights, t: Thresholds, a: Signals, b: Signals, levelA: int, levelB: int)
    requires Ordered(w) && InRange(a) && InRange(b) && AtMost(a, b) && levelA <= levelB
    ensures Rank(Route(w, t, a, levelA)) <= Rank(Route(w, t, b, levelB))
  {
    hide Score, Ordered;
    ScoreMonotone(w, a, b);
  }

  /** Which evidence leads to which level, for any thresholds. */
  lemma LevelsByEvidence(t: Thresholds, s: Signals, score: int, alertLevel: int)
    ensures var rank := Rank(Decide(t, s, score, alertLevel).level);
            var quiet := score < t.l0 && alertLevel < 7 && s.tiConfidence == 0.0;
            var closable :=
              score < t.l1 && s.tiConfidence == 0.0 && !s.tiIsKnownBad && s.uebaZscore < 2.5 && !s.vulnMatched
              && alertLevel < 10;
            && (rank == 0 <==> s.isAllowlisted || quiet)
            && (rank <= 1 <==> s.isAllowlisted || quiet || closable)
            && (rank == 4 <==> rank > 1 && (score >= t.l3 || (s.tiIsKnownBad && s.isCrownJewel)))
            && (rank >= 3 <==>
                  && rank > 1
                  && (score >= t.l3 || (s.tiIsKnownBad && s.isCrownJewel) || score >= t.l2Upper
                      || (s.tiConfidence >= 0.8 && s.assetCriticality >= 7)))
  {
  }

  /** The shipped thresholds, by the levels of an alert with nothing but its score. */
  lemma ShippedThresholds(s: Signals, score: int)
    requires !s.isAllowlisted && s.tiConfidence == 0.0 && !s.tiIsKnownBad && s.uebaZscore < 2.5 && !s.vulnMatched
    ensures Rank(Decide(DEFAULT_THRESHOLDS, s, score, 0).level) ==
            if score < 15 then 0 else if score < 25 then 1 else if score < 60 then 2 else if score < 85 then 3 else 4
  {
    ScoreAloneGivesTheBand(DEFAULT_THRESHOLDS, s, score, 0);
  }

  /** The language model is skipped exactly for the levels that close an alert,
      and then the verdict is benign; a malicious verdict is only for the two
      highest levels, which still get a narrative. */
  lemma VerdictFollowsLevel(t: Thresholds, s: Signals, score: int, alertLevel: int)
    ensures var d := Decide(t, s, score, alertLevel);
            && (d.skipLlm <==> Rank(d.level) <= 1)
            && (d.skipLlm <==> d.autoVerdict == Some("benign"))
            && (d.fastLlmOnly <==> Rank(d.level) >= 3)
            && (d.fastLlmOnly <==> d.autoVerdict == Some("malicious"))
            && (d.level == Triage <==> d.autoVerdict == None)
            && d.score == (if s.isAllowlisted then 0 else score)
            && d.autoSeverity == match d.level {
                 case Critical => Some("critical")
                 case Escalate => Some("high")
                 case AutoClose => Some("low")
                 case _ => None
               }
  {
  }

  /** With thresholds in order and nothing but its score against it, an alert
      gets the level of the band its score falls in. */
  lemma ScoreAloneGivesTheBand(t: Thresholds, s: Signals, score: int, alertLevel: int)
    requires t.l0 <= t.l1 <= t.l2Upper <= t.l3
    requires !s.isAllowlisted && s.tiConfidence == 0.0 && !s.tiIsKnownBad
    requires s.uebaZscore < 2.5 && !s.vulnMatched && alertLevel < 7
    ensures var level := Decide(t, s, score, alertLevel).level;
            && (level == Suppress <==> score < t.l0)
            && (level == AutoClose <==> t.l0 <= score < t.l1)
            && (level == Triage <==> t.l1 <= score < t.l2Upper)
            && (level == Escalate <==> t.l2Upper <= score < t.l3)
            && (level == Critical <==> t.l3 <= score)
  {
  }

  /** Of nonnegative groups of points, none exceeds the sum. */
  lemma GroupsWithinRaw(s: Signals)
    requires InRange(s) && s.assetCriticality >= 0 && !s.isConfirmedFp && !s.isBenignNoise
    ensures var (w, raw) := (DEFAULT_WEIGHTS, RawScore(DEFAULT_WEIGHTS, s));
            && RulePoints(w, s.ruleLevel) <= raw && TiPoints(w, s) <= raw && VulnPoints(w, s) <= raw
            && UebaPoints(w, s.uebaZscore) <= raw
  {
    var w := DEFAULT_WEIGHTS;
    assert AssetPoints(w, s) >= 0.0 && TiPoints(w, s) >= 0.0;
    hide AssetPoints, TiPoints;
  }

  lemma ScoreAtLeast(s: Signals, n: nat)
    requires !s.isAllowlisted && n <= 100 && RawScore(DEFAULT_WEIGHTS, s) >= n as real
    ensures Score(DEFAULT_WEIGHTS, s) >= n
  {
    hide RawScore, Round;
    var raw := RawScore(DEFAULT_WEIGHTS, s);
    RoundMonotone(n as real, Multiplied(DEFAULT_WEIGHTS, s, raw));
    RoundOfInteger(n);
  }

  /** With the shipped weights and thresholds, an alert with no excuse that is
      closed without the model has no high rule level, no threat intelligence of
      any kind, no matched vulnerability and no critical deviation. */
  lemma ClosedAlertsAreQuiet(s: Signals, alertLevel: int)
    requires InRange(s) && s.assetCriticality >= 0
    requires !s.isAllowlisted && !s.isConfirmedFp && !s.isBenignNoise
    requires Decide(DEFAULT_THRESHOLDS, s, Score(DEFAULT_WEIGHTS, s), alertLevel).skipLlm
    ensures s.ruleLevel < 12 && s.uebaZscore < 5.0
    ensures s.tiConfidence == 0.0 && !s.tiIsKnownBad && !s.tiIsKev && !s.vulnMatched
  {
    hide Score, RawScore;
    GroupsWithinRaw(s);
    var raw := RawScore(DEFAULT_WEIGHTS, s);
    if raw >= 25.0 { ScoreAtLeast(s, 25); }
    if raw >= 15.0 { ScoreAtLeast(s, 15); }
  }

  /** The critical branch takes a known-bad indicator on a crown jewel whatever
      the score.  Suppression, documented for alerts without threat
      intelligence, comes first and looks only at the indicator's confidence,
      so the alert is critical exactly when that guard fails. */
  lemma KnownBadCrownJewel(t: Thresholds, s: Signals, score: int, alertLevel: int)
    requires s.tiIsKnownBad && s.isCrownJewel
    ensures Decide(t, s, score, alertLevel).level
            == if s.isAllowlisted || (score < t.l0 && alertLevel < 7 && s.tiConfidence == 0.0)
               then Suppress else Critical
  {
  }

  lemma UnexcusedScore(s: Signals)
    requires s.tiIsKnownBad && s.isCrownJewel && !s.isAllowlisted && s.assetCriticality >= 0
    requires !(s.isConfirmedFp && s.isBenignNoise)
    ensures Score(DEFAULT_WEIGHTS, s) >= 26
  {
    var w := DEFAULT_WEIGHTS;
    var raw := RawScore(w, s);
    assert AssetPoints(w, s) >= 0.0;
    assert raw >= 20.0;
    assert Multiplied(w, s, raw) == raw * 1.3 >= 26.0;
    RoundMonotone(26.0, raw * 1.3);
    RoundOfInteger(26);
  }

  /** With the shipped weights and thresholds that guard never matters unless the
      alert is excused twice: every other known-bad indicator on a crown jewel
      that is not allowlisted is critical. */
  lemma UnexcusedKnownBadIsCritical(s: Signals, alertLevel: int)
    requires s.tiIsKnownBad && s.isCrownJewel && !s.isAllowlisted && s.assetCriticality >= 0
    requires !(s.isConfirmedFp && s.isBenignNoise)
    ensures Route(DEFAULT_WEIGHTS, DEFAULT_THRESHOLDS, s, alertLevel) == Critical
  {
    UnexcusedScore(s);
    KnownBadCrownJewel(DEFAULT_THRESHOLDS, s, Score(DEFAULT_WEIGHTS, s), alertLevel);
  }

  /** With the shipped weights and thresholds, and nonnegative asset criticality,
      only an alert flagged both as a confirmed false positive and as benign
      noise can score low enough for that. */
  lemma SuppressedKnownBadIsFlaggedTwice(s: Signals, alertLevel: int)
    requires s.tiIsKnownBad && s.isCrownJewel && !s.isAllowlisted && s.assetCriticality >= 0
    requires Route(DEFAULT_WEIGHTS, DEFAULT_THRESHOLDS, s, alertLevel) == Suppress
    ensures s.isConfirmedFp && s.isBenignNoise && alertLevel < 7 && s.tiConfidence == 0.0
  {
    var w := DEFAULT_WEIGHTS;
    KnownBadCrownJewel(DEFAULT_THRESHOLDS, s, Score(w, s), alertLevel);
    if !(s.isConfirmedFp && s.isBenignNoise) {
      UnexcusedScore(s);
    }
  }

  const EXCUSED_KNOWN_BAD := Signals(
    0, 0.0, false, true, 0, true, false, 0.0, false, 0.0, false, false, false,
    false, false, false, false, false, false, true, true)

  /** A known-bad indicator, two excuses, and nothing else. */
  predicate OnlyKnownBad(w: Weights, s: Signals) {
    && s.tiIsKnownBad && s.isConfirmedFp && s.isBenignNoise
    && s.ruleLevel < 7 && s.assetCriticality == 0 && !s.vulnMatched && !s.mitreHighImpact
    && !s.userIsPrivileged && !s.userIsServiceAcctInteractive && !s.userIsDormantReactivated
    && !s.geoImpossibleTravel && !s.geoTorVpn && !s.geoBadAsn && !s.geoUnexpectedCountry
    && s.uebaZscore < w.uebaMediumThreshold <= w.uebaHighThreshold <= w.uebaCriticalThreshold
  }

  lemma ExcusedPoints(w: Weights, s: Signals)
    requires OnlyKnownBad(w, s)
    ensures RawScore(w, s) == w.tiKnownBad - w.confirmedFpPenalty - w.benignNoisePenalty
  {
    assert AssetPoints(w, s) == 0.0;
  }

  /** A context that meets the guard: an indicator that is known bad by its threat
      score but has no confidence, on a crown jewel, with both excuses.  A caller
      may build it; the enrichment pipeline itself never sets the excuses. */
  lemma KnownBadCrownJewelCanBeSuppressed()
    ensures EXCUSED_KNOWN_BAD.tiIsKnownBad && EXCUSED_KNOWN_BAD.isCrownJewel
    ensures Route(DEFAULT_WEIGHTS, DEFAULT_THRESHOLDS, EXCUSED_KNOWN_BAD, 0) == Suppress
  {
    hide RawScore, Round;
    var (w, s) := (DEFAULT_WEIGHTS, EXCUSED_KNOWN_BAD);
    ExcusedPoints(w, s);
    assert Multiplied(w, s, RawScore(w, s)) == 13.0 == 13 as real;
    RoundOfInteger(13);
    assert Score(w, s) == 13;
  }
}

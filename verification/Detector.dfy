/** The UEBA detector: every alert updates, and is scored against, the
    baselines of the entities it names. */
module Detectors {
  import opened Wrappers
  import opened Reals
  import opened Baselines

  datatype Metric = AlertCount | RuleLevel

  datatype Entity = Entity(kind: string, id: string)

  /** Baselines are looked up by subject and metric only, not by tenant. */
  datatype Key = Key(subject: Entity, metric: Metric)

  type Tenant = Option<string>

  /** An alert and the tenant it is processed for.  Absent fields are empty strings,
      an absent rule level is 0. */
  datatype Alert = Alert(
    tenant: Tenant, agentId: string, agentIp: string, sourceIp: string, userName: string, ruleLevel: int)

  datatype Severity = Critical | High | Medium | Low | Info

  datatype Features = Features(observed: real, mean: real, stddev: real)

  datatype Anomaly = Anomaly(
    tenant: Tenant, subject: Entity, metric: Metric, score: real, severity: Severity, features: Features)

  /** The default window of a new row. */
  const WINDOW_DAYS := 30

  function SeverityFromZ(z: real): Severity {
    if z >= 3.0 then Critical
    else if z >= 2.5 then High
    else if z >= 2.0 then Medium
    else if z >= 1.5 then Low
    else Info
  }

  function IfPresent(kind: string, id: string): seq<Entity> {
    if id == "" then [] else [Entity(kind, id)]
  }

  function ExtractEntities(a: Alert): (es: seq<Entity>)
    ensures forall i, j :: 0 <= i < j < |es| ==> es[i].kind != es[j].kind
  {
    IfPresent("agent", a.agentId) + IfPresent("ip", a.agentIp)
    + IfPresent("source_ip", a.sourceIp) + IfPresent("user", a.userName)
  }

  // ---- What a run of alerts should produce --------------------------------

  /** What an alert adds to the baselines of each entity it names. */
  function Contribution(a: Alert, m: Metric): seq<real> {
    if m.AlertCount? then [1.0]
    else if a.ruleLevel != 0 then [a.ruleLevel as real]
    else []
  }

  function Observed(a: Alert, k: Key): seq<real> {
    if k.subject in ExtractEntities(a) then Contribution(a, k.metric) else []
  }

  function History(log: seq<Alert>, k: Key): seq<real> {
    if log == [] then [] else History(log[..|log|-1], k) + Observed(log[|log|-1], k)
  }

  /** The anomaly row for an observation scored against statistics that hold it. */
  function Report(sqrt: real -> real, t: Tenant, k: Key, s: Stats, observed: real): Anomaly {
    var z := ZScoreOf(sqrt, s, observed);
    Anomaly(t, k.subject, k.metric, z, SeverityFromZ(z), Features(observed, s.mean, StddevOf(sqrt, s)))
  }

  /** The anomaly, if any, for one entity of an alert with a rule level, from
      the batch statistics of every level seen for that entity so far. */
  function Raised(sqrt: real -> real, t: Tenant, earlier: seq<real>, e: Entity, level: real): seq<Anomaly> {
    var x := Report(sqrt, t, Key(e, RuleLevel), BatchStats(earlier + [level]), level);
    if x.score >= 2.0 then [x] else []
  }

  /** What the alert-count metric reports for an entity, after counts `earlier`:
      it is fed 1 each time and scores the number of observations. */
  function RaisedCount(sqrt: real -> real, t: Tenant, earlier: seq<real>, e: Entity): seq<Anomaly> {
    var x := Report(sqrt, t, Key(e, AlertCount), BatchStats(earlier + [1.0]), (|earlier| + 1) as real);
    if x.score >= 1.5 then [x] else []
  }

  function RaisedFor(sqrt: real -> real, log: seq<Alert>, a: Alert, e: Entity): seq<Anomaly> {
    if a.ruleLevel == 0 then [] else Raised(sqrt, a.tenant, History(log, Key(e, RuleLevel)), e, a.ruleLevel as real)
  }

  function RaisedBy(sqrt: real -> real, log: seq<Alert>, a: Alert, es: seq<Entity>): seq<Anomaly> {
    if es == [] then []
    else RaisedBy(sqrt, log, a, es[..|es|-1]) + RaisedFor(sqrt, log, a, es[|es|-1])
  }

  function AnomaliesOf(sqrt: real -> real, log: seq<Alert>): seq<Anomaly> {
    if log == [] then []
    else
      var (rest, a) := (log[..|log|-1], log[|log|-1]);
      AnomaliesOf(sqrt, rest) + RaisedBy(sqrt, rest, a, ExtractEntities(a))
  }

  // ---- The observations fed to each baseline -------------------------------

  /** The tenant that a baseline was created for, and what was fed to it. */
  datatype Source = Source(tenant: Tenant, observed: seq<real>)

  function FedTo(fed: map<Key, Source>, k: Key): seq<real> {
    if k in fed then fed[k].observed else []
  }

  function OwnerIn(fed: map<Key, Source>, k: Key): Option<Tenant> {
    if k in fed then Some(fed[k].tenant) else None
  }

  /** The tenant of the first alert that contributes to a baseline. */
  function Owner(log: seq<Alert>, k: Key): Option<Tenant> {
    if log == [] then None
    else
      var (rest, a) := (log[..|log|-1], log[|log|-1]);
      if Owner(rest, k).None? && Observed(a, k) != [] then Some(a.tenant) else Owner(rest, k)
  }

  /** The source of a baseline, a new one for the tenant if there is none. */
  function SourceFor(fed: map<Key, Source>, k: Key, t: Tenant): Source {
    if k in fed then fed[k] else Source(t, [])
  }

  function Feed(fed: map<Key, Source>, k: Key, t: Tenant, x: real): map<Key, Source> {
    var source := SourceFor(fed, k, t);
    fed[k := Source(source.tenant, source.observed + [x])]
  }

  function FeedEntity(fed: map<Key, Source>, a: Alert, e: Entity): map<Key, Source> {
    var counted := Feed(fed, Key(e, AlertCount), a.tenant, 1.0);
    if a.ruleLevel == 0 then counted else Feed(counted, Key(e, RuleLevel), a.tenant, a.ruleLevel as real)
  }

  function FeedEntities(fed: map<Key, Source>, a: Alert, es: seq<Entity>): map<Key, Source> {
    if es == [] then fed else FeedEntity(FeedEntities(fed, a, es[..|es|-1]), a, es[|es|-1])
  }

  lemma FedByEntity(fed: map<Key, Source>, a: Alert, e: Entity, k: Key)
    ensures FedTo(FeedEntity(fed, a, e), k) ==
              FedTo(fed, k) + (if k.subject == e then Contribution(a, k.metric) else [])
    ensures OwnerIn(FeedEntity(fed, a, e), k) ==
              if k !in fed && k.subject == e && Contribution(a, k.metric) != [] then Some(a.tenant)
              else OwnerIn(fed, k)
  {
  }

  /** An alert feeds each baseline exactly what it contributes to it, and a baseline
      keeps the tenant it was created for. */
  lemma {:induction false} FedByAlert(fed: map<Key, Source>, a: Alert, es: seq<Entity>, k: Key)
    requires forall i, j :: 0 <= i < j < |es| ==> es[i] != es[j]
    ensures FedTo(FeedEntities(fed, a, es), k)
            == FedTo(fed, k) + (if k.subject in es then Contribution(a, k.metric) else [])
    ensures OwnerIn(FeedEntities(fed, a, es), k) ==
              if k !in fed && k.subject in es && Contribution(a, k.metric) != [] then Some(a.tenant)
              else OwnerIn(fed, k)
  {
    if es != [] {
      hide FeedEntity, FedTo, Contribution;
      var (rest, e) := (es[..|es|-1], es[|es|-1]);
      FedByAlert(fed, a, rest, k);
      FedByEntity(FeedEntities(fed, a, rest), a, e, k);
      assert e !in rest;
      assert k.subject in es <==> k.subject in rest || k.subject == e;
    }
  }

  /** The baselines of a subject gain what the alert says of it: 1 and the level if it
      is one of the four subjects that the alert names. */
  ghost predicate Fed(fed: map<Key, Source>, fed': map<Key, Source>, a: Alert, e: Entity) {
    var named := e.id != "" && e in {
      Entity("agent", a.agentId), Entity("ip", a.agentIp), Entity("source_ip", a.sourceIp), Entity("user", a.userName)};
    && FedTo(fed', Key(e, AlertCount)) == FedTo(fed, Key(e, AlertCount)) + (if named then [1.0] else [])
    && FedTo(fed', Key(e, RuleLevel)) ==
         FedTo(fed, Key(e, RuleLevel)) + (if named && a.ruleLevel != 0 then [a.ruleLevel as real] else [])
  }

  lemma SubjectsFed(fed: map<Key, Source>, a: Alert, e: Entity)
    ensures Fed(fed, FeedEntities(fed, a, ExtractEntities(a)), a, e)
  {
    hide FedTo, FeedEntities, ExtractEntities;
    FedByAlert(fed, a, ExtractEntities(a), Key(e, AlertCount));
    FedByAlert(fed, a, ExtractEntities(a), Key(e, RuleLevel));
    SubjectsOfAlert(a, e);
  }

  ghost predicate Recounts(fed: map<Key, Source>, log: seq<Alert>) {
    forall k :: FedTo(fed, k) == History(log, k) && OwnerIn(fed, k) == Owner(log, k)
  }

  lemma RecountsAppend(fed: map<Key, Source>, log: seq<Alert>, a: Alert)
    requires Recounts(fed, log)
    ensures Recounts(FeedEntities(fed, a, ExtractEntities(a)), log + [a])
  {
    var fed' := FeedEntities(fed, a, ExtractEntities(a));
    forall k ensures FedTo(fed', k) == History(log + [a], k) && OwnerIn(fed', k) == Owner(log + [a], k) {
      FedByAlert(fed, a, ExtractEntities(a), k);
      assert (log + [a])[..|log|] == log;
    }
  }

  lemma NoEntities(sqrt: real -> real, fed: map<Key, Source>, log: seq<Alert>, a: Alert)
    ensures FeedEntities(fed, a, []) == fed && RaisedBy(sqrt, log, a, []) == []
  {
  }

  /** One more entity of an alert: what is fed, what is raised, and that its
      rule levels so far are those of the alerts before this one. */
  lemma {:induction false} EntityStep(sqrt: real -> real, fed: map<Key, Source>, log: seq<Alert>, a: Alert,
                                      es: seq<Entity>, i: nat)
    requires i < |es| && Recounts(fed, log)
    requires forall j, k :: 0 <= j < k < |es| ==> es[j].kind != es[k].kind
    ensures FeedEntities(fed, a, es[..i+1]) == FeedEntity(FeedEntities(fed, a, es[..i]), a, es[i])
    ensures RaisedBy(sqrt, log, a, es[..i+1]) == RaisedBy(sqrt, log, a, es[..i]) + RaisedFor(sqrt, log, a, es[i])
    ensures FedTo(FeedEntities(fed, a, es[..i]), Key(es[i], RuleLevel)) == History(log, Key(es[i], RuleLevel))
    ensures FedTo(FeedEntities(fed, a, es[..i]), Key(es[i], AlertCount)) == History(log, Key(es[i], AlertCount))
  {
    hide FeedEntity, RaisedFor;
    assert es[..i+1][..i] == es[..i];
    FedByAlert(fed, a, es[..i], Key(es[i], AlertCount));
    FedByAlert(fed, a, es[..i], Key(es[i], RuleLevel));
  }

  lemma AnomaliesAppend(sqrt: real -> real, log: seq<Alert>, a: Alert)
    ensures AnomaliesOf(sqrt, log + [a]) == AnomaliesOf(sqrt, log) + RaisedBy(sqrt, log, a, ExtractEntities(a))
  {
    assert (log + [a])[..|log|] == log;
  }

  /** The row belongs to the tenant of its source and replays what was fed to it. */
  predicate Holds(b: Baseline, source: Source)
    reads b
  {
    b.tenant == source.tenant && b.windowDays == WINDOW_DAYS && b.View() == Replay(source.observed)
  }

  class Detector {
    const sqrt: real -> real
    var baselines: map<Key, Baseline>
    var anomalies: seq<Anomaly>
    ghost var fed: map<Key, Source>
    ghost var log: seq<Alert>

    /** Each row holds the replay of the observations fed to it. */
    ghost predicate Backed()
      reads this`baselines, this`fed, baselines.Values
    {
      && IsSqrt(sqrt)
      && fed.Keys == baselines.Keys
      && (forall k, k' :: k in baselines && k' in baselines && k != k' ==> baselines[k] != baselines[k'])
      && (forall k :: k in baselines ==> Holds(baselines[k], fed[k]))
    }

    lemma RootIsRoot()
      requires Backed()
      ensures IsSqrt(sqrt)
    {
    }

    /** The stored rows and anomalies are those of the alerts processed. */
    ghost predicate Valid()
      reads this, baselines.Values
    {
      && Backed()
      && Recounts(fed, log)
      && anomalies == AnomaliesOf(sqrt, log)
    }

    constructor (sqrt: real -> real)
      requires IsSqrt(sqrt)
      ensures Valid() && log == [] && this.sqrt == sqrt
    {
      this.sqrt := sqrt;
      baselines, anomalies := map[], [];
      fed, log := map[], [];
    }

    /** The stored row of a key; a new one is stored first if there is none. */
    method RowFor(k: Key, t: Tenant) returns (b: Baseline)
      requires Backed()
      modifies this`baselines, this`fed
      ensures Backed()
      ensures baselines == old(baselines)[k := b]
      ensures if k in old(baselines) then b == old(baselines)[k] else fresh(b)
      ensures fed == old(fed)[k := SourceFor(old(fed), k, t)]
    {
      hide Replay, IsSqrt;
      if k in baselines {
        b := baselines[k];
        assert fed == fed[k := fed[k]] && baselines == baselines[k := b];
      } else {
        b := new Baseline(t, WINDOW_DAYS);
        ReplayNothing();
        baselines := baselines[k := b];
        fed := fed[k := Source(t, [])];
      }
    }

    method UpdateBaseline(k: Key, t: Tenant, observed: real) returns (b: Baseline)
      requires Backed()
      modifies this`baselines, this`fed, baselines.Values
      ensures Backed()
      ensures fresh(baselines.Values - old(baselines.Values))
      ensures fed == Feed(old(fed), k, t, observed)
      ensures k in baselines && b == baselines[k]
      ensures b.baselineValue == b.mean && b.stddev == StddevOf(sqrt, Replay(fed[k].observed))
    {
      hide Backed, StddevOf, Replay, IsSqrt;
      b := RowFor(k, t);
      FeedRow(k, b, observed);
    }

    /** Updates a stored row. */
    method FeedRow(k: Key, b: Baseline, observed: real)
      requires Backed() && k in baselines && b == baselines[k]
      modifies this`fed, b
      ensures Backed()
      ensures fed == old(fed)[k := Source(old(fed)[k].tenant, old(fed)[k].observed + [observed])]
      ensures b.View() == Replay(fed[k].observed)
      ensures b.baselineValue == b.mean && b.stddev == StddevOf(sqrt, Replay(fed[k].observed))
    {
      hide Absorb, StddevOf, Replay, IsSqrt;
      b.Update(sqrt, observed);
      assert forall k' :: k' in baselines && k' != k ==> Holds(baselines[k'], fed[k']);
      ReplayAppend(fed[k].observed, observed);
      fed := fed[k := Source(fed[k].tenant, fed[k].observed + [observed])];
      assert Holds(b, fed[k]);
      hide Holds;
    }

    /** Feeds and scores the alert count of one entity. */
    method ScoreAlertCount(t: Tenant, e: Entity) returns (found: seq<Anomaly>)
      requires Backed()
      modifies this`baselines, this`fed, this`anomalies, baselines.Values
      ensures Backed()
      ensures fresh(baselines.Values - old(baselines.Values))
      ensures found == RaisedCount(sqrt, t, FedTo(old(fed), Key(e, AlertCount)), e)
      ensures anomalies == old(anomalies) + found
      ensures fed == Feed(old(fed), Key(e, AlertCount), t, 1.0)
    {
      hide StddevOf, ZScoreOf, Replay, BatchStats;
      var row := UpdateBaseline(Key(e, AlertCount), t, 1.0);
      ghost var observed := fed[Key(e, AlertCount)].observed;
      OnlineIsBatch(observed);
      assert row.n == |observed| by { BatchCount(observed); }
      var z := row.ComputeZScore(sqrt, row.n as real);
      found := [];
      if z >= 1.5 {
        var features := Features(row.n as real, row.mean, row.stddev);
        found := [Anomaly(t, e, AlertCount, z, SeverityFromZ(z), features)];
        anomalies := anomalies + found;
      }
    }

    /** Feeds and scores a rule level for one entity. */
    method ScoreRuleLevel(t: Tenant, e: Entity, level: real) returns (found: seq<Anomaly>)
      requires Backed()
      modifies this`baselines, this`fed, this`anomalies, baselines.Values
      ensures Backed()
      ensures fresh(baselines.Values - old(baselines.Values))
      ensures found == Raised(sqrt, t, FedTo(old(fed), Key(e, RuleLevel)), e, level)
      ensures anomalies == old(anomalies) + found
      ensures fed == Feed(old(fed), Key(e, RuleLevel), t, level)
    {
      hide StddevOf, ZScoreOf, Replay, BatchStats;
      var row := UpdateBaseline(Key(e, RuleLevel), t, level);
      var z := row.ComputeZScore(sqrt, level);
      OnlineIsBatch(fed[Key(e, RuleLevel)].observed);
      found := [];
      if z >= 2.0 {
        found := [Anomaly(t, e, RuleLevel, z, SeverityFromZ(z), Features(level, row.mean, row.stddev))];
        anomalies := anomalies + found;
      }
    }

    /** One turn of the loop over the entities of an alert. */
    method ScoreEntity(a: Alert, e: Entity) returns (found: seq<Anomaly>)
      requires Backed()
      requires FedTo(fed, Key(e, RuleLevel)) == History(log, Key(e, RuleLevel))
      requires FedTo(fed, Key(e, AlertCount)) == History(log, Key(e, AlertCount))
      modifies this`baselines, this`fed, this`anomalies, baselines.Values
      ensures Backed()
      ensures fresh(baselines.Values - old(baselines.Values))
      ensures found == RaisedFor(sqrt, log, a, e)
      ensures anomalies == old(anomalies) + found
      ensures fed == FeedEntity(old(fed), a, e)
    {
      hide Raised, RaisedCount, Backed, History;
      RootIsRoot();
      found := ScoreAlertCount(a.tenant, e);
      CountsNeverRaise(sqrt, a.tenant, log, e);
      if a.ruleLevel != 0 {
        found := ScoreRuleLevel(a.tenant, e, a.ruleLevel as real);
      }
    }

    /** Processes one alert.  The anomalies found are those the batch statistics
        of all alerts so far call for. */
    method ProcessAlert(a: Alert) returns (found: seq<Anomaly>)
      requires Valid()
      modifies this, baselines.Values
      ensures Valid()
      ensures fresh(baselines.Values - old(baselines.Values))
      ensures log == old(log) + [a]
      ensures found == RaisedBy(sqrt, old(log), a, ExtractEntities(a))
      ensures anomalies == old(anomalies) + found
      ensures forall e :: Fed(old(fed), fed, a, e)
    {
      hide Fed, RaisedFor, FedTo, FeedEntity, FeedEntities, RaisedBy, ExtractEntities, History, AnomaliesOf, Recounts;
      hide IsSqrt, Backed;
      found := [];
      var entities := ExtractEntities(a);
      NoEntities(sqrt, fed, log, a);
      for i := 0 to |entities|
        invariant Backed()
        invariant fresh(baselines.Values - old(baselines.Values))
        invariant log == old(log) && anomalies == old(anomalies) + found
        invariant fed == FeedEntities(old(fed), a, entities[..i])
        invariant found == RaisedBy(sqrt, log, a, entities[..i])
      {
        var e := entities[i];
        EntityStep(sqrt, old(fed), log, a, entities, i);
        var scored := ScoreEntity(a, e);
        found := found + scored;
      }
      assert entities[..|entities|] == entities;
      RecountsAppend(old(fed), log, a);
      forall e ensures Fed(old(fed), fed, a, e) {
        SubjectsFed(old(fed), a, e);
      }
      AnomaliesAppend(sqrt, log, a);
      log := log + [a];
    }
  }

  lemma ReplayNothing()
    ensures Replay([]) == NO_STATS
  {
  }

  lemma BatchCount(h: seq<real>)
    ensures BatchStats(h).n == |h|
  {
  }

  lemma {:induction false} CountsAreOnes(log: seq<Alert>, e: Entity)
    ensures forall i :: 0 <= i < |History(log, Key(e, AlertCount))| ==> History(log, Key(e, AlertCount))[i] == 1.0
  {
    if log != [] {
      hide ExtractEntities;
      CountsAreOnes(log[..|log|-1], e);
    }
  }

  /** The alert-count metric is always fed 1, so it can never report anything. */
  lemma CountsNeverRaise(sqrt: real -> real, t: Tenant, log: seq<Alert>, e: Entity)
    requires IsSqrt(sqrt)
    ensures RaisedCount(sqrt, t, History(log, Key(e, AlertCount)), e) == []
  {
    hide ZScoreOf, History, BatchStats, IsSqrt;
    var h := History(log, Key(e, AlertCount)) + [1.0];
    CountsAreOnes(log, e);
    OnlineIsBatch(h);
    NeverScores(sqrt, h, |h| as real);
  }

  lemma NeverScores(sqrt: real -> real, h: seq<real>, x: real)
    requires IsSqrt(sqrt)
    requires forall i :: 0 <= i < |h| ==> h[i] == 1.0
    ensures ZScoreOf(sqrt, Replay(h), x) == 0.0
  {
    ConstantHistoryNeverScores(sqrt, h, 1.0, x);
  }

  /** Which subjects an alert feeds: its agent, the agent's address, the source address
      and the user, each if it is there. */
  lemma SubjectsOfAlert(a: Alert, e: Entity)
    ensures e in ExtractEntities(a) <==>
            || (e == Entity("agent", a.agentId) && a.agentId != "")
            || (e == Entity("ip", a.agentIp) && a.agentIp != "")
            || (e == Entity("source_ip", a.sourceIp) && a.sourceIp != "")
            || (e == Entity("user", a.userName) && a.userName != "")
  {
  }

  /** What one alert feeds to one baseline: 1 to the alert count and its level, unless
      it is 0, to the rule level of each of its subjects. */
  lemma HistoryByAlert(log: seq<Alert>, a: Alert, e: Entity)
    ensures History([], Key(e, AlertCount)) == [] == History([], Key(e, RuleLevel))
    ensures var named := e in ExtractEntities(a);
            && History(log + [a], Key(e, AlertCount)) ==
                 History(log, Key(e, AlertCount)) + (if named then [1.0] else [])
            && History(log + [a], Key(e, RuleLevel)) ==
                 History(log, Key(e, RuleLevel)) + (if named && a.ruleLevel != 0 then [a.ruleLevel as real] else [])
  {
    hide ExtractEntities;
    assert (log + [a])[..|log|] == log;
  }

  /** When an anomaly is reported, and what it says: the scores are against the history
      with the new observation, the limits 2 for a level and 1.5 for a count. */
  lemma ReportsBeyondLimits(sqrt: real -> real, t: Tenant, earlier: seq<real>, e: Entity, level: real)
    ensures var s := BatchStats(earlier + [level]);
            var z := ZScoreOf(sqrt, s, level);
            Raised(sqrt, t, earlier, e, level) ==
              if z < 2.0 then []
              else [Anomaly(t, e, RuleLevel, z, SeverityFromZ(z), Features(level, s.mean, StddevOf(sqrt, s)))]
    ensures var s := BatchStats(earlier + [1.0]);
            var n := (|earlier| + 1) as real;
            var z := ZScoreOf(sqrt, s, n);
            RaisedCount(sqrt, t, earlier, e) ==
              if z < 1.5 then []
              else [Anomaly(t, e, AlertCount, z, SeverityFromZ(z), Features(n, s.mean, StddevOf(sqrt, s)))]
  {
    hide BatchStats, ZScoreOf, StddevOf;
  }

  /** The severities, by score. */
  lemma SeverityBands(z: real)
    ensures SeverityFromZ(z) == Critical <==> z >= 3.0
    ensures SeverityFromZ(z) == High <==> 2.5 <= z < 3.0
    ensures SeverityFromZ(z) == Medium <==> 2.0 <= z < 2.5
    ensures SeverityFromZ(z) == Low <==> 1.5 <= z < 2.0
  {
  }

  // ---- What no run can produce --------------------------------------------

  /** The number of alerts that name an entity and carry a rule level. */
  function Sightings(log: seq<Alert>, e: Entity): nat {
    if log == [] then 0
    else
      var a := log[|log|-1];
      Sightings(log[..|log|-1], e) + (if e in ExtractEntities(a) && a.ruleLevel != 0 then 1 else 0)
  }

  lemma {:induction false} SightingsAreTheHistory(log: seq<Alert>, e: Entity)
    ensures |History(log, Key(e, RuleLevel))| == Sightings(log, e)
  {
    if log != [] {
      SightingsAreTheHistory(log[..|log|-1], e);
    }
  }

  /** An anomaly that some prefix of the run can explain. */
  ghost predicate Earned(log: seq<Alert>, x: Anomaly) {
    && x.metric == RuleLevel
    && x.score >= 2.0 && x.severity == SeverityFromZ(x.score)
    && x.severity in {Critical, High, Medium}
    && Sightings(log, x.subject) >= (if x.severity == Critical then 11 else if x.severity == High then 9 else 6)
  }

  /** No run of alerts ever raises an alert-count anomaly; none raises a
      rule-level anomaly before the sixth sighting of its subject, a high one
      before the ninth or a critical one before the eleventh. */
  lemma {:induction false} AnomaliesAreEarned(sqrt: real -> real, log: seq<Alert>, x: Anomaly)
    requires IsSqrt(sqrt) && x in AnomaliesOf(sqrt, log)
    ensures exists n :: 0 <= n <= |log| && Earned(log[..n], x)
  {
    hide Earned, RaisedBy, IsSqrt, ExtractEntities;
    var rest, a := log[..|log|-1], log[|log|-1];
    if x in AnomaliesOf(sqrt, rest) {
      AnomaliesAreEarned(sqrt, rest, x);
      var n :| 0 <= n <= |rest| && Earned(rest[..n], x);
      assert rest[..n] == log[..n];
    } else {
      RaisedAreEarned(sqrt, rest, a, ExtractEntities(a), x);
      assert log == rest + [a] == log[..|log|];
    }
  }

  lemma {:induction false} RaisedAreEarned(sqrt: real -> real, log: seq<Alert>, a: Alert, es: seq<Entity>, x: Anomaly)
    requires IsSqrt(sqrt) && x in RaisedBy(sqrt, log, a, es)
    requires forall e <- es :: e in ExtractEntities(a)
    ensures Earned(log + [a], x)
  {
    var (rest, e) := (es[..|es|-1], es[|es|-1]);
    if x in RaisedBy(sqrt, log, a, rest) {
      RaisedAreEarned(sqrt, log, a, rest, x);
    } else {
      var (h, level) := (History(log, Key(e, RuleLevel)), a.ruleLevel as real);
      assert x in Raised(sqrt, a.tenant, h, e, level);
      OnlineIsBatch(h + [level]);
      ZScoreNeedsHistory(sqrt, h, level);
      SightingsAreTheHistory(log, e);
      assert (log + [a])[..|log|] == log;
    }
  }

  // ---- Tenants ------------------------------------------------------------------

  /** The alerts of a run, without their tenants. */
  function Untenanted(log: seq<Alert>): (r: seq<Alert>)
    ensures |r| == |log| && forall i :: 0 <= i < |r| ==> r[i] == log[i].(tenant := None)
  {
    seq(|log|, i requires 0 <= i < |log| => log[i].(tenant := None))
  }

  function WithoutTenants(xs: seq<Anomaly>): (r: seq<Anomaly>)
    ensures |r| == |xs| && forall i :: 0 <= i < |r| ==> r[i] == xs[i].(tenant := None)
  {
    seq(|xs|, i requires 0 <= i < |xs| => xs[i].(tenant := None))
  }

  lemma {:induction false} HistoryIgnoresTenants(log: seq<Alert>, k: Key)
    ensures History(Untenanted(log), k) == History(log, k)
  {
    if log != [] {
      HistoryIgnoresTenants(log[..|log|-1], k);
      assert Untenanted(log)[..|log|-1] == Untenanted(log[..|log|-1]);
    }
  }

  lemma {:induction false} RaisedForIgnoresTenants(sqrt: real -> real, log: seq<Alert>, a: Alert, e: Entity)
    ensures RaisedFor(sqrt, Untenanted(log), a.(tenant := None), e) == WithoutTenants(RaisedFor(sqrt, log, a, e))
  {
    hide ZScoreOf, BatchStats, History, StddevOf;
    HistoryIgnoresTenants(log, Key(e, RuleLevel));
  }

  lemma {:induction false} RaisedIgnoresTenants(sqrt: real -> real, log: seq<Alert>, a: Alert, es: seq<Entity>)
    ensures RaisedBy(sqrt, Untenanted(log), a.(tenant := None), es) == WithoutTenants(RaisedBy(sqrt, log, a, es))
  {
    if es != [] {
      hide RaisedFor;
      RaisedIgnoresTenants(sqrt, log, a, es[..|es|-1]);
      RaisedForIgnoresTenants(sqrt, log, a, es[|es|-1]);
    }
  }

  lemma SameEntities(a: Alert)
    ensures ExtractEntities(a.(tenant := None)) == ExtractEntities(a)
  {
  }

  /** Baselines and scores do not depend on tenants: without them the same alerts
      raise the same anomalies, which otherwise have the tenant of their alert. */
  lemma {:induction false} TenantsPlayNoPart(sqrt: real -> real, log: seq<Alert>)
    ensures AnomaliesOf(sqrt, Untenanted(log)) == WithoutTenants(AnomaliesOf(sqrt, log))
  {
    hide RaisedBy, ExtractEntities;
    if log != [] {
      var (rest, a) := (log[..|log|-1], log[|log|-1]);
      TenantsPlayNoPart(sqrt, rest);
      hide AnomaliesOf;
      SameEntities(a);
      assert log == rest + [a] && Untenanted(log) == Untenanted(rest) + [a.(tenant := None)];
      AnomaliesAppend(sqrt, rest, a);
      AnomaliesAppend(sqrt, Untenanted(rest), a.(tenant := None));
      RaisedIgnoresTenants(sqrt, rest, a, ExtractEntities(a));
      WithoutTenantsConcat(AnomaliesOf(sqrt, rest), RaisedBy(sqrt, rest, a, ExtractEntities(a)));
    } else {
      NoAlerts(sqrt);
    }
  }

  lemma NoAlerts(sqrt: real -> real)
    ensures AnomaliesOf(sqrt, []) == []
  {
  }

  lemma WithoutTenantsConcat(xs: seq<Anomaly>, ys: seq<Anomaly>)
    ensures WithoutTenants(xs + ys) == WithoutTenants(xs) + WithoutTenants(ys)
  {
  }

  lemma {:induction false} SteadyHistory(log: seq<Alert>, e: Entity, level: int)
    requires forall i :: 0 <= i < |log| && e in ExtractEntities(log[i]) ==> log[i].ruleLevel in {0, level}
    ensures var h := History(log, Key(e, RuleLevel)); forall i :: 0 <= i < |h| ==> h[i] == level as real
  {
    if log != [] {
      hide ExtractEntities;
      var (rest, a, k) := (log[..|log|-1], log[|log|-1], Key(e, RuleLevel));
      SteadyHistory(rest, e, level);
      assert e in ExtractEntities(a) ==> a.ruleLevel in {0, level};
      assert Observed(a, k) == [] || Observed(a, k) == [level as real];
      assert History(log, k) == History(rest, k) + Observed(a, k);
    }
  }

  /** So sightings for any tenants count towards an anomaly for another: after a
      subject was seen at one level, an alert at a higher level reports it for its
      own tenant exactly from the sixth sighting on, as high from the ninth and as
      critical from the eleventh. */
  lemma SightingsCountForEveryone(sqrt: real -> real, log: seq<Alert>, a: Alert, e: Entity, level: int)
    requires IsSqrt(sqrt) && a.ruleLevel > level && a.ruleLevel != 0 && e in ExtractEntities(a)
    requires forall i :: 0 <= i < |log| && e in ExtractEntities(log[i]) ==> log[i].ruleLevel in {0, level}
    ensures var (found, n) := (RaisedFor(sqrt, log, a, e), Sightings(log, e) + 1);
            if n < 6 then found == []
            else
              && |found| == 1 && found[0].tenant == a.tenant && found[0].subject == e
              && found[0].severity == if n < 9 then Medium else if n < 11 then High else Critical
  {
    hide ZScoreOf, History, BatchStats, IsSqrt, ExtractEntities, Sightings;
    var (h, x) := (History(log, Key(e, RuleLevel)), a.ruleLevel as real);
    SteadyHistory(log, e, level);
    SightingsAreTheHistory(log, e);
    OnlineIsBatch(h + [x]);
    ThresholdsAreReached(sqrt, h, level as real, x);
  }
}

/** The deterministic gate before the language model: drops below-threshold,
    listed and repeated alerts. */
module NoiseReduction {
  import opened Wrappers
  import opened Text
  import opened Entities
  import opened Stitching

  /** The settings, with the comma-separated lists already read: lower case,
      and no entry is empty. */
  datatype Settings = Settings(
    enabled: bool, triageMinLevel: int, dropRuleIds: set<int>, dropRuleGroups: seq<string>,
    downgradeRuleIds: set<int>, dedupEnabled: bool, suppressAfter: int)

  datatype Action = Keep | Downgrade | Drop

  datatype Reason =
    | Disabled | BelowMinLevel | DropRuleId | DropRuleGroup(group: string) | DedupSuppressed | DowngradeRuleId | Kept

  datatype Decision = Decision(action: Action, reason: Reason, incident: Option<IncidentId>, forceFastTier: bool)

  predicate Touches(groups: seq<string>, needle: string) {
    exists i :: 0 <= i < |groups| && Contains(Lower(groups[i]), needle)
  }

  /** The first listed group that part of some group of the alert matches. */
  method MatchesDropGroup(groups: seq<string>, dropGroups: seq<string>) returns (r: Option<string>)
    ensures r.None? ==> forall n <- dropGroups :: !Touches(groups, n)
    ensures r.Some? ==> FirstTouching(groups, dropGroups, r.value)
  {
    hide Lower, Contains;
    for k := 0 to |dropGroups|
      invariant forall j :: 0 <= j < k ==> !Touches(groups, dropGroups[j])
    {
      for i := 0 to |groups|
        invariant forall j :: 0 <= j < i ==> !Contains(Lower(groups[j]), dropGroups[k])
      {
        if Contains(Lower(groups[i]), dropGroups[k]) {
          assert Touches(groups, dropGroups[k]);
          return Some(dropGroups[k]);
        }
      }
    }
    return None;
  }

  /** The checks that need no incident. */
  ghost predicate DroppedUnseen(s: Settings, a: Alert) {
    || a.ruleLevel < s.triageMinLevel
    || (a.ruleId.Some? && a.ruleId.value in s.dropRuleIds)
    || exists n :: n in s.dropRuleGroups && Touches(a.ruleGroups, n)
  }

  /** The first listed group that touches the alert. */
  ghost predicate FirstTouching(groups: seq<string>, listed: seq<string>, g: string) {
    exists k :: 0 <= k < |listed| && listed[k] == g && Touches(groups, g) &&
                forall j :: 0 <= j < k ==> !Touches(groups, listed[j])
  }

  /** The reason given is that of the first check that decided. */
  ghost predicate Explained(s: Settings, a: Alert, d: Decision) {
    var low := a.ruleLevel < s.triageMinLevel;
    var listed := a.ruleId.Some? && a.ruleId.value in s.dropRuleIds;
    match d.reason
    case Disabled => !s.enabled && d.action == Keep
    case BelowMinLevel => s.enabled && low && d.action == Drop
    case DropRuleId => s.enabled && !low && listed && d.action == Drop
    case DropRuleGroup(g) => s.enabled && !low && !listed && FirstTouching(a.ruleGroups, s.dropRuleGroups, g) &&
        d.action == Drop
    case DedupSuppressed => d.incident.Some? && d.action == Drop
    case DowngradeRuleId => d.incident.Some? && d.action == Downgrade
    case Kept => d.incident.Some? && d.action == Keep
  }

  /** What deduplication does to the tables: a standalone incident if it is off
      or the alert has no tenant, else a stitch. */
  ghost predicate Deduplicated(s: Settings, before: Db, after: Db, a: Alert, tenant: Option<Tenant>, now: int,
                               i: IncidentId) {
    if !s.dedupEnabled || tenant.None? || tenant.value == ""
    then after == Singled(before, a, tenant, now) && i == before.nextIncident
    else StitchesTo(before, after, a, tenant.value, now, i)
  }

  /** The tables are those of some stitch of the alert, which attached it to i. */
  ghost predicate StitchesTo(before: Db, after: Db, a: Alert, tenant: Tenant, now: int, i: IncidentId) {
    exists r :: Answers(before, a, tenant, now, r) && (after, i) == Stitched(before, a, tenant, now, r)
  }

  lemma UnseenIs(s: Settings, a: Alert)
    ensures DroppedUnseen(s, a) <==>
            || a.ruleLevel < s.triageMinLevel
            || (a.ruleId.Some? && a.ruleId.value in s.dropRuleIds)
            || exists i, j :: 0 <= i < |a.ruleGroups| && 0 <= j < |s.dropRuleGroups| &&
                              Contains(Lower(a.ruleGroups[i]), s.dropRuleGroups[j])
  {
    hide Contains, Lower;
    if n :| n in s.dropRuleGroups && Touches(a.ruleGroups, n) {
      var j :| 0 <= j < |s.dropRuleGroups| && s.dropRuleGroups[j] == n;
    }
    if i, j :| 0 <= i < |a.ruleGroups| && 0 <= j < |s.dropRuleGroups| &&
               Contains(Lower(a.ruleGroups[i]), s.dropRuleGroups[j]) {
      assert Touches(a.ruleGroups, s.dropRuleGroups[j]);
    }
  }

  lemma UnseenAction(s: Settings, a: Alert, d: Decision)
    requires Explained(s, a, d)
    ensures d.incident.None? && d.reason !in {DedupSuppressed, DowngradeRuleId, Kept} ==>
              (d.action == Drop <==> s.enabled)
    ensures d.incident.None? ==> d.reason !in {DedupSuppressed, DowngradeRuleId, Kept}
  {
    hide FirstTouching;
  }

  // ---- Counting decisions -------------------------------------------------

  /** The decisions about alerts that joined an incident. */
  function Received(ds: seq<Decision>, i: IncidentId): nat {
    if ds == [] then 0 else Received(ds[..|ds|-1], i) + (if ds[|ds|-1].incident == Some(i) then 1 else 0)
  }

  /** Those of them that let the alert through to triage. */
  function Passed(ds: seq<Decision>, i: IncidentId): nat {
    if ds == [] then 0
    else Passed(ds[..|ds|-1], i) + (if ds[|ds|-1].incident == Some(i) && ds[|ds|-1].action != Drop then 1 else 0)
  }

  /** An alert is dropped once its incident has more alerts than the limit. */
  ghost predicate SuppressesBursts(s: Settings, ds: seq<Decision>) {
    forall k :: 0 <= k < |ds| && ds[k].incident.Some? ==>
      (ds[k].action == Drop <==> s.dedupEnabled && Received(ds[..k+1], ds[k].incident.value) > s.suppressAfter)
  }

  lemma SuppressionAppend(s: Settings, ds: seq<Decision>, d: Decision)
    requires SuppressesBursts(s, ds)
    requires d.incident.Some? ==>
               (d.action == Drop <==> s.dedupEnabled && Received(ds, d.incident.value) + 1 > s.suppressAfter)
    ensures SuppressesBursts(s, ds + [d])
  {
    var ds' := ds + [d];
    forall k | 0 <= k < |ds'| && ds'[k].incident.Some?
      ensures ds'[k].action == Drop <==> s.dedupEnabled && Received(ds'[..k+1], ds'[k].incident.value) > s.suppressAfter
    {
      if k < |ds| {
        assert ds'[..k+1] == ds[..k+1];
      } else {
        assert ds'[..k+1] == ds' && ds'[..|ds|] == ds;
      }
    }
  }

  /** Of the alerts of one incident, exactly the first `suppressAfter` are let
      through, and all of them without deduplication. */
  lemma {:induction false} BurstsPassTheirFirst(s: Settings, ds: seq<Decision>, i: IncidentId)
    requires SuppressesBursts(s, ds)
    ensures Passed(ds, i) ==
            var n := Received(ds, i);
            if !s.dedupEnabled || n <= s.suppressAfter then n else if s.suppressAfter <= 0 then 0 else s.suppressAfter
  {
    if ds != [] {
      var rest := ds[..|ds|-1];
      forall k | 0 <= k < |rest| && rest[k].incident.Some?
        ensures rest[k].action == Drop <==>
                s.dedupEnabled && Received(rest[..k+1], rest[k].incident.value) > s.suppressAfter
      {
        assert rest[..k+1] == ds[..k+1];
      }
      BurstsPassTheirFirst(s, rest, i);
      assert ds[..|ds|] == ds;
    }
  }

  lemma ReceivedAppend(ds: seq<Decision>, d: Decision, i: IncidentId)
    ensures Received(ds + [d], i) == Received(ds, i) + (if d.incident == Some(i) then 1 else 0)
  {
    assert (ds + [d])[..|ds|] == ds;
  }

  class NoiseGate {
    const settings: Settings
    const session: DbSession
    ghost var decisions: seq<Decision>

    /** The incidents are those of this gate's decisions, and bursts are cut
        at the limit. */
    ghost predicate Valid()
      reads this, session
    {
      && session.Valid()
      && (forall i: IncidentId :: CountOf(session.log, i) == Received(decisions, i))
      && SuppressesBursts(settings, decisions)
    }

    constructor (settings: Settings)
      ensures Valid() && fresh(session) && decisions == [] && this.settings == settings
    {
      this.settings := settings;
      session := new DbSession();
      decisions := [];
    }

    /** `dedup_alert_before_triage`, on the path where stitching succeeds. */
    method Dedup(a: Alert, tenant: Option<Tenant>, now: int) returns (i: IncidentId)
      requires session.Valid()
      requires a.id in session.alerts && session.alerts[a.id] == a
      modifies session
      ensures session.Valid()
      ensures Deduplicated(settings, old(session.View()), session.View(), a, tenant, now, i)
      ensures session.alerts == old(session.alerts)
      ensures i in session.incidents
      ensures forall j: IncidentId :: CountOf(session.log, j) ==
                CountOf(old(session.log), j) + (if j == i then 1 else 0)
      ensures session.incidents[i].alertCount == CountOf(session.log, i)
    {
      hide Consistent, Stitched, Linked, Answers;
      ghost var before := session.log;
      if !settings.dedupEnabled || tenant.None? || tenant.value == "" {
        i := session.SingleAlertIncident(a, tenant, now);
      } else {
        ghost var r;
        i, r := session.StitchIncident(a, tenant.value, now);
      }
      forall j: IncidentId {
        CountAppend(before, session.log[|before|], j);
      }
      AttachedIsIncident(session.View(), before, session.log[|before|]);
    }

    /** Decides one alert.  Alerts dropped by level or list change no row. */
    method Evaluate(a: Alert, tenant: Option<Tenant>, now: int) returns (d: Decision)
      requires Valid()
      requires a.id in session.alerts && session.alerts[a.id] == a
      modifies this, session
      ensures Valid()
      ensures session.alerts == old(session.alerts)
      ensures decisions == old(decisions) + [d]
      ensures d.incident.None? <==>
                || !settings.enabled || a.ruleLevel < settings.triageMinLevel
                || (a.ruleId.Some? && a.ruleId.value in settings.dropRuleIds)
                || exists i, j :: 0 <= i < |a.ruleGroups| && 0 <= j < |settings.dropRuleGroups| &&
                                  Contains(Lower(a.ruleGroups[i]), settings.dropRuleGroups[j])
      ensures d.incident.None? ==> session.View() == old(session.View()) && session.log == old(session.log)
      ensures d.incident.None? ==> (d.action == Drop <==> settings.enabled)
      ensures d.incident.Some? ==>
                if settings.dedupEnabled && tenant.Some? && tenant.value != ""
                then StitchesTo(old(session.View()), session.View(), a, tenant.value, now, d.incident.value)
                else
                  && session.View() == Singled(old(session.View()), a, tenant, now)
                  && d.incident.value == old(session.nextIncident)
      ensures Explained(settings, a, d) && (d.forceFastTier <==> d.action == Downgrade)
      ensures d.incident.Some? ==>
                && d.incident.value in session.incidents
                && (d.action == Drop <==>
                      settings.dedupEnabled && session.incidents[d.incident.value].alertCount > settings.suppressAfter)
                && (d.action == Downgrade <==>
                      d.action != Drop && a.ruleId.Some? && a.ruleId.value in settings.downgradeRuleIds)
    {
      hide SuppressesBursts, Touches, StitchesTo, Explained, DroppedUnseen, Singled;
      d := Decide(a, tenant, now);
      UnseenIs(settings, a);
      UnseenAction(settings, a, d);
      SuppressionAppend(settings, decisions, d);
      forall i: IncidentId { ReceivedAppend(decisions, d, i); }
      decisions := decisions + [d];
    }

    method Decide(a: Alert, tenant: Option<Tenant>, now: int) returns (d: Decision)
      requires session.Valid()
      requires a.id in session.alerts && session.alerts[a.id] == a
      modifies session
      ensures session.Valid()
      ensures session.alerts == old(session.alerts)
      ensures d.incident.None? <==> !settings.enabled || DroppedUnseen(settings, a)
      ensures d.incident.None? ==> session.View() == old(session.View()) && session.log == old(session.log)
      ensures d.incident.Some? ==>
                Deduplicated(settings, old(session.View()), session.View(), a, tenant, now, d.incident.value)
      ensures Explained(settings, a, d) && (d.forceFastTier <==> d.action == Downgrade)
      ensures forall j: IncidentId :: CountOf(session.log, j) ==
                CountOf(old(session.log), j) + (if d.incident == Some(j) then 1 else 0)
      ensures d.incident.Some? ==>
                && d.incident.value in session.incidents
                && session.incidents[d.incident.value].alertCount == CountOf(session.log, d.incident.value)
                && (d.action == Drop <==>
                      settings.dedupEnabled && session.incidents[d.incident.value].alertCount > settings.suppressAfter)
                && (d.action == Downgrade <==>
                      d.action != Drop && a.ruleId.Some? && a.ruleId.value in settings.downgradeRuleIds)
    {
      hide Consistent, Touches, Deduplicated;
      if !settings.enabled {
        return Decision(Keep, Disabled, None, false);
      }
      if a.ruleLevel < settings.triageMinLevel {
        return Decision(Drop, BelowMinLevel, None, false);
      }
      if a.ruleId.Some? && a.ruleId.value in settings.dropRuleIds {
        return Decision(Drop, DropRuleId, None, false);
      }
      var group := MatchesDropGroup(a.ruleGroups, settings.dropRuleGroups);
      if group.Some? {
        return Decision(Drop, DropRuleGroup(group.value), None, false);
      }
      var i := Dedup(a, tenant, now);
      if settings.dedupEnabled && session.incidents[i].alertCount > settings.suppressAfter {
        return Decision(Drop, DedupSuppressed, Some(i), false);
      }
      if a.ruleId.Some? && a.ruleId.value in settings.downgradeRuleIds {
        return Decision(Downgrade, DowngradeRuleId, Some(i), true);
      }
      return Decision(Keep, Kept, Some(i), false);
    }
  }

  /** Through the gate, exactly the first `suppressAfter` alerts of an incident
      reach triage, whatever else was stitched in between. */
  lemma FirstAlertsPass(gate: NoiseGate, i: IncidentId)
    requires gate.Valid() && i in gate.session.incidents
    ensures var (limit, n) := (gate.settings.suppressAfter, gate.session.incidents[i].alertCount);
            Passed(gate.decisions, i) ==
              if !gate.settings.dedupEnabled || n <= limit then n else if limit <= 0 then 0 else limit
  {
    hide SuppressesBursts;
    BurstsPassTheirFirst(gate.settings, gate.decisions, i);
    assert Received(gate.decisions, i) == CountOf(gate.session.log, i) == gate.session.incidents[i].alertCount;
  }

  lemma AttachedIsIncident(db: Db, before: seq<Event>, e: Event)
    requires Consistent(db, before + [e]) && !e.SetTo?
    ensures e.incident in db.incidents && db.incidents[e.incident].alertCount == CountOf(before + [e], e.incident)
  {
    CountAppend(before, e, e.incident);
  }
}

/** The kill-chain stage of an incident, from the tactics of the alerts around it. */
module KillChain {
  import opened Wrappers
  import opened Text
  import opened Descriptions
  import opened Entities
  import opened Stitching

  const STAGE_ORDER := [
    "initial_access", "execution", "persistence", "privilege_escalation", "defense_evasion", "credential_access",
    "discovery", "lateral_movement", "collection", "command_and_control", "exfiltration", "impact"]

  const UNKNOWN := "unknown"

  function Replace(s: string, from: char, to: char): string {
    seq(|s|, i requires 0 <= i < |s| => if s[i] == from then to else s[i])
  }

  /** The stage a tactic stands for: the table maps each stage's dashed name to
      the stage. */
  function TacticToStage(tactic: string): string {
    var t := Replace(Replace(Lower(Strip(tactic)), ' ', '-'), '_', '-');
    StageOf(t, |STAGE_ORDER|)
  }

  function StageOf(t: string, n: nat): string
    requires n <= |STAGE_ORDER|
  {
    if n == 0 then UNKNOWN
    else if t == Replace(STAGE_ORDER[n-1], '_', '-') then STAGE_ORDER[n-1]
    else StageOf(t, n - 1)
  }

  /** The first position of a stage, or -1. */
  function IndexBelow(stage: string, n: nat): int
    requires n <= |STAGE_ORDER|
  {
    if n == 0 then -1
    else
      var earlier := IndexBelow(stage, n - 1);
      if earlier >= 0 then earlier else if STAGE_ORDER[n-1] == stage then n - 1 else -1
  }

  function StageIndex(stage: string): (i: int)
    ensures -1 <= i < 12
  {
    IndexRange(stage, 12);
    IndexBelow(stage, 12)
  }

  lemma {:induction false} IndexRange(stage: string, n: nat)
    requires n <= |STAGE_ORDER|
    ensures -1 <= IndexBelow(stage, n) < n
  {
    if n > 0 { IndexRange(stage, n - 1); }
  }

  /** The tactics that have a stage, in the order of the stages. */
  const TACTICS := [
    "initial-access", "execution", "persistence", "privilege-escalation", "defense-evasion", "credential-access",
    "discovery", "lateral-movement", "collection", "command-and-control", "exfiltration", "impact"]

  /** The text is that name in any case, with any of a dash, a blank and an underscore
      for each dash. */
  predicate Spells(text: string, name: string) {
    && |text| == |name|
    && forall k :: 0 <= k < |name| ==>
         if name[k] == '-' then text[k] in {'-', ' ', '_'} else LowerChar(text[k]) == name[k]
  }

  lemma SpellsIsEqual(text: string, i: nat)
    requires i < 12
    ensures Spells(text, TACTICS[i]) <==> Replace(Replace(Lower(text), ' ', '-'), '_', '-') == TACTICS[i]
  {
    var (t, name) := (Replace(Replace(Lower(text), ' ', '-'), '_', '-'), TACTICS[i]);
    NoBlanks(i);
    assert |t| == |text| && forall k :: 0 <= k < |text| ==>
             t[k] == if LowerChar(text[k]) in {' ', '_'} then '-' else LowerChar(text[k]);
  }

  lemma NoBlanks(i: nat)
    requires i < 12
    ensures forall k :: 0 <= k < |TACTICS[i]| ==> TACTICS[i][k] == '-' || 'a' <= TACTICS[i][k] <= 'z'
  {
  }

  lemma StagesDiffer(i: nat, j: nat)
    requires i < 12 && j < 12 && i != j
    ensures STAGE_ORDER[i] != STAGE_ORDER[j] && TACTICS[i] != TACTICS[j]
  {
    assert |STAGE_ORDER[i]| != |STAGE_ORDER[j]| || STAGE_ORDER[i][0] != STAGE_ORDER[j][0];
    assert |TACTICS[i]| != |TACTICS[j]| || TACTICS[i][0] != TACTICS[j][0];
  }

  lemma StageIsDashed(i: nat)
    requires i < 12
    ensures Replace(STAGE_ORDER[i], '_', '-') == TACTICS[i]
  {
    hide Replace;
    if i < 6 { EarlyStageIsDashed(i); } else { LateStageIsDashed(i); }
  }

  lemma EarlyStageIsDashed(i: nat)
    requires i < 6
    ensures Replace(STAGE_ORDER[i], '_', '-') == TACTICS[i]
  {
  }

  lemma LateStageIsDashed(i: nat)
    requires 6 <= i < 12
    ensures Replace(STAGE_ORDER[i], '_', '-') == TACTICS[i]
  {
  }

  lemma {:induction false} StageOfTactic(i: nat, n: nat)
    requires i < n <= 12
    ensures StageOf(TACTICS[i], n) == STAGE_ORDER[i]
  {
    hide Replace;
    StageIsDashed(n - 1);
    if i < n - 1 {
      StagesDiffer(i, n - 1);
      StageOfTactic(i, n - 1);
    }
  }

  lemma {:induction false} IndexOfStage(i: nat, n: nat)
    requires i < 12 && n <= 12
    ensures IndexBelow(STAGE_ORDER[i], n) == if i < n then i else -1
  {
    if n > 0 {
      IndexOfStage(i, n - 1);
      if i != n - 1 { StagesDiffer(i, n - 1); }
    }
  }

  lemma {:induction false} NoStage(t: string, n: nat)
    requires n <= 12 && forall i :: 0 <= i < n ==> t != TACTICS[i]
    ensures StageOf(t, n) == UNKNOWN
  {
    hide Replace;
    if n > 0 {
      StageIsDashed(n - 1);
      NoStage(t, n - 1);
    }
  }

  /** Which tactics reach which stage: the twelve names in any of their spellings, and
      no other text. */
  lemma TacticsReachTheirStages(tactic: string)
    ensures forall i :: 0 <= i < 12 && Spells(Strip(tactic), TACTICS[i]) ==>
              TacticToStage(tactic) == STAGE_ORDER[i] && StageIndex(TacticToStage(tactic)) == i
    ensures (forall i :: 0 <= i < 12 ==> !Spells(Strip(tactic), TACTICS[i])) ==>
              TacticToStage(tactic) == "unknown" && StageIndex(TacticToStage(tactic)) == -1
  {
    hide Spells, Strip, Lower, Replace, StageOf, IndexBelow;
    var t := Replace(Replace(Lower(Strip(tactic)), ' ', '-'), '_', '-');
    forall i | 0 <= i < 12
      ensures Spells(Strip(tactic), TACTICS[i]) ==> TacticToStage(tactic) == STAGE_ORDER[i]
      ensures StageIndex(STAGE_ORDER[i]) == i
      ensures Spells(Strip(tactic), TACTICS[i]) <==> t == TACTICS[i]
    {
      SpellsIsEqual(Strip(tactic), i);
      StageOfTactic(i, 12);
      IndexOfStage(i, 12);
    }
    if forall i :: 0 <= i < 12 ==> t != TACTICS[i] {
      NoStage(t, 12);
      UnknownIsNoStage();
    }
  }

  /** Of the stages of some tactics, the first that is furthest along. */
  function Furthest(tactics: seq<string>): string
    requires tactics != []
  {
    var last := TacticToStage(tactics[|tactics|-1]);
    if |tactics| == 1 then last
    else
      var before := Furthest(tactics[..|tactics|-1]);
      if StageIndex(last) > StageIndex(before) then last else before
  }

  /** How far the furthest of some tactics reaches; -1 if none is known. */
  function Reach(tactics: seq<string>): int {
    if tactics == [] then -1
    else
      var before := Reach(tactics[..|tactics|-1]);
      var i := StageIndex(TacticToStage(tactics[|tactics|-1]));
      if i > before then i else before
  }

  lemma {:induction false} FurthestReaches(tactics: seq<string>)
    requires tactics != []
    ensures StageIndex(Furthest(tactics)) == Reach(tactics)
  {
    if |tactics| > 1 {
      FurthestReaches(tactics[..|tactics|-1]);
    } else {
      assert Reach(tactics[..0]) == -1;
    }
  }

  lemma {:induction false} ReachConcat(a: seq<string>, b: seq<string>)
    ensures Reach(a + b) == if Reach(a) >= Reach(b) then Reach(a) else Reach(b)
  {
    if b == [] {
      assert a + b == a;
      ReachAtLeast(a);
    } else {
      assert (a + b)[..|a + b|-1] == a + b[..|b|-1];
      ReachConcat(a, b[..|b|-1]);
    }
  }

  lemma {:induction false} ReachAtLeast(a: seq<string>)
    ensures Reach(a) >= -1
  {
    if a != [] { ReachAtLeast(a[..|a|-1]); }
  }

  datatype Advance = Advance(from: string, to: string, at: int, tacticsFound: seq<string>)

  /** A linked chain of advances from the unknown stage to `stage`, each going
      strictly further. */
  ghost predicate Chain(history: seq<Advance>, stage: string) {
    if history == [] then stage == UNKNOWN
    else
      var last := history[|history|-1];
      && last.to == stage
      && StageIndex(last.from) < StageIndex(last.to)
      && Chain(history[..|history|-1], last.from)
  }

  lemma ChainAppend(history: seq<Advance>, from: string, to: string, at: int, tactics: seq<string>)
    requires Chain(history, from) && StageIndex(from) < StageIndex(to)
    ensures Chain(history + [Advance(from, to, at, tactics)], to)
  {
    hide StageIndex;
    assert (history + [Advance(from, to, at, tactics)])[..|history|] == history;
  }

  /** A chain is no longer than the stages it can pass, and each advance starts
      where the one before it ended. */
  lemma {:induction false} ChainIsShort(history: seq<Advance>, stage: string)
    requires Chain(history, stage)
    ensures |history| <= StageIndex(stage) + 1 <= 12
    ensures forall i :: 0 <= i < |history| ==> StageIndex(history[i].to) <= StageIndex(stage)
    ensures forall i, j :: 0 <= i < j < |history| ==> StageIndex(history[i].to) < StageIndex(history[j].to)
  {
    hide StageIndex;
    if history != [] {
      ChainIsShort(history[..|history|-1], history[|history|-1].from);
    }
  }

  lemma {:induction false} ChainIsLinked(history: seq<Advance>, stage: string, i: nat)
    requires Chain(history, stage) && i < |history|
    ensures history[i].from == if i == 0 then UNKNOWN else history[i-1].to
  {
    hide StageIndex;
    var rest := history[..|history|-1];
    if i < |rest| {
      ChainIsLinked(rest, history[|history|-1].from, i);
    }
  }

  // ---- Where the tactics come from --------------------------------------------

  predicate HasTactic(db: Db, l: AlertLink) {
    l in db.alertLinks && l.alert in db.alerts && db.alerts[l.alert].mitreTactic.Some?
  }

  function TacticOf(db: Db, l: AlertLink): string
    requires HasTactic(db, l)
  {
    db.alerts[l.alert].mitreTactic.value
  }

  function TacticLinks(db: Db): set<AlertLink> {
    set l | l in db.alertLinks && HasTactic(db, l)
  }

  /** The member query: the distinct tactics of the alerts that share an entity
      with the incident. */
  function MemberTactics(db: Db, i: IncidentId): set<string> {
    set l | l in TacticLinks(db) && (i, l.entity) in db.incidentLinks :: TacticOf(db, l)
  }

  const FALLBACK_LIMIT := 10

  ghost predicate Enumerates<T(!new)>(r: seq<T>, s: set<T>) {
    (forall x :: x in r <==> x in s) && forall j, k :: 0 <= j < k < |r| ==> r[j] != r[k]
  }

  predicate NotNewer(db: Db, l: AlertLink, m: AlertLink) {
    l.alert in db.alerts && m.alert in db.alerts && db.alerts[l.alert].createdAt <= db.alerts[m.alert].createdAt
  }

  /** The fallback query: the latest rows of all alert links, with no condition
      on the incident or the tenant. */
  ghost predicate LatestRows(db: Db, rows: seq<AlertLink>) {
    && (forall k :: 0 <= k < |rows| ==> rows[k] in TacticLinks(db))
    && (forall j, k :: 0 <= j < k < |rows| ==> rows[j] != rows[k])
    && (forall j, k :: 0 <= j < k < |rows| ==> NotNewer(db, rows[k], rows[j]))
    && (forall l, r :: l in TacticLinks(db) && l !in rows && r in rows ==> NotNewer(db, l, r))
    && |rows| == if |TacticLinks(db)| <= FALLBACK_LIMIT then |TacticLinks(db)| else FALLBACK_LIMIT
  }

  /** The fallback rows are the latest of all: each is at least as new as those after it
      and as every row left out, and there are ten, or all there are. */
  lemma FallbackIsLatest(db: Db, rows: seq<AlertLink>, k: nat, l: AlertLink)
    requires LatestRows(db, rows) && k < |rows| && l in TacticLinks(db)
    requires l !in rows || exists j :: k < j < |rows| && rows[j] == l
    ensures l.alert in db.alerts && rows[k].alert in db.alerts
    ensures db.alerts[l.alert].createdAt <= db.alerts[rows[k].alert].createdAt
    ensures |rows| <= 10 && (|rows| < 10 ==> |rows| == |TacticLinks(db)|)
  {
    if l in rows {
      var j :| k < j < |rows| && rows[j] == l;
      assert NotNewer(db, rows[j], rows[k]);
    } else {
      assert NotNewer(db, l, rows[k]);
    }
  }

  function TacticsOf(db: Db, rows: seq<AlertLink>): (r: seq<string>)
    requires forall k :: 0 <= k < |rows| ==> HasTactic(db, rows[k])
    ensures |r| == |rows|
    ensures forall k :: 0 <= k < |rows| ==> r[k] == TacticOf(db, rows[k])
  {
    if rows == [] then [] else TacticsOf(db, rows[..|rows|-1]) + [TacticOf(db, rows[|rows|-1])]
  }

  /** What one computation may be supplied with. */
  ghost predicate Supplies(db: Db, i: IncidentId, tactics: seq<string>) {
    if MemberTactics(db, i) != {} then Enumerates(tactics, MemberTactics(db, i))
    else exists rows :: LatestRows(db, rows) && tactics == TacticsOf(db, rows)
  }

  // ---- The computation --------------------------------------------------------

  class IncidentStage {
    const session: DbSession
    const incident: IncidentId
    var stage: string
    var history: seq<Advance>
    ghost var supplied: seq<string>

    /** The stage is as far as any tactic ever supplied reaches, and the history
        is the chain that led there. */
    ghost predicate Valid()
      reads this
    {
      StageIndex(stage) == Reach(supplied) && Chain(history, stage)
    }

    constructor (session: DbSession, incident: IncidentId)
      ensures Valid() && stage == UNKNOWN && history == [] && supplied == []
      ensures this.session == session && this.incident == incident
    {
      this.session, this.incident := session, incident;
      stage, history, supplied := UNKNOWN, [], [];
      new;
      UnknownIsNoStage();
    }

    /** The distinct tactics around the incident, in any order. */
    method QueryMembers() returns (r: seq<string>)
      ensures Enumerates(r, MemberTactics(session.View(), incident))
    {
      ghost var all := MemberTactics(session.View(), incident);
      var rest := MemberTactics(session.View(), incident);
      r := [];
      while rest != {}
        invariant rest <= all
        invariant forall x :: x in r <==> x in all - rest
        invariant forall j, k :: 0 <= j < k < |r| ==> r[j] != r[k]
        decreases rest
      {
        var t :| t in rest;
        assert t !in r;
        rest := rest - {t};
        r := r + [t];
      }
    }

    /** One of the newest of some rows. */
    method Newest(rows: set<AlertLink>) returns (m: AlertLink)
      requires rows != {} && rows <= TacticLinks(session.View())
      ensures m in rows && forall l <- rows :: NotNewer(session.View(), l, m)
    {
      m :| m in rows;
      var rest := rows - {m};
      while rest != {}
        invariant m in rows && rest <= rows && m !in rest
        invariant forall l <- rows - rest :: NotNewer(session.View(), l, m)
        decreases rest
      {
        var l :| l in rest;
        rest := rest - {l};
        assert HasTactic(session.View(), l) && HasTactic(session.View(), m);
        ghost var before := m;
        if !NotNewer(session.View(), l, m) {
          m := l;
        }
        forall x | x in rows - rest ensures NotNewer(session.View(), x, m) {
          assert x == l || NotNewer(session.View(), x, before);
        }
      }
    }

    /** The rows of the newest alerts anywhere, cut at the limit. */
    method QueryLatest() returns (rows: seq<AlertLink>)
      ensures LatestRows(session.View(), rows)
    {
      hide NotNewer, HasTactic;
      var all := TacticLinks(session.View());
      var rest := all;
      rows := [];
      while rest != {} && |rows| < FALLBACK_LIMIT
        invariant rest <= all && |rest| + |rows| == |all| && |rows| <= FALLBACK_LIMIT
        invariant forall l :: l in rows <==> l in all && l !in rest
        invariant forall j, k :: 0 <= j < k < |rows| ==>
                    rows[j] != rows[k] && NotNewer(session.View(), rows[k], rows[j])
        invariant forall l, r :: l in rest && r in rows ==> NotNewer(session.View(), l, r)
        decreases rest
      {
        var m := Newest(rest);
        assert m !in rows;
        rest := rest - {m};
        rows := rows + [m];
      }
    }

    /** One computation: the stage moves only to a further one, and says why. */
    method ComputeKillchainStage(at: int) returns (r: string, ghost tactics: seq<string>)
      requires Valid()
      modifies this
      ensures Valid()
      ensures Supplies(session.View(), incident, tactics) && supplied == old(supplied) + tactics
      ensures r == stage
      ensures history == old(history) +
                if Reach(supplied) == Reach(old(supplied)) then [] else [Advance(old(stage), stage, at, tactics)]
      ensures stage == old(stage) <==> Reach(supplied) == Reach(old(supplied))
    {
      hide StageIndex, Reach, MemberTactics, TacticsOf;
      var found := QueryMembers();
      assert found != [] ==> found[0] in MemberTactics(session.View(), incident);
      if found == [] {
        var rows := QueryLatest();
        assert forall k :: 0 <= k < |rows| ==> HasTactic(session.View(), rows[k]);
        found := TacticsOf(session.View(), rows);
      }
      tactics := found;
      r := Advanced(found, at);
    }

    /** What the code does with the tactics it found. */
    method Advanced(tactics: seq<string>, at: int) returns (r: string)
      requires Valid()
      modifies this
      ensures Valid()
      ensures supplied == old(supplied) + tactics
      ensures r == stage
      ensures history == old(history) +
                if Reach(supplied) == Reach(old(supplied)) then [] else [Advance(old(stage), stage, at, tactics)]
      ensures stage == old(stage) <==> Reach(supplied) == Reach(old(supplied))
    {
      hide StageIndex, Furthest, Reach, Chain;
      ReachConcat(supplied, tactics);
      supplied := supplied + tactics;
      if tactics == [] {
        assert supplied == old(supplied);
        return stage;
      }
      var furthest := Furthest(tactics);
      FurthestReaches(tactics);
      if StageIndex(furthest) > StageIndex(stage) {
        ChainAppend(history, stage, furthest, at, tactics);
        history := history + [Advance(stage, furthest, at, tactics)];
        stage := furthest;
      }
      return stage;
    }
  }

  // ---- Whose tactics they are ---------------------------------------------------

  /** A stitch for a tenant whose alert has the tactic. */
  ghost predicate StitchedWith(log: seq<Event>, tenant: Option<Tenant>, tactic: string) {
    exists k :: 0 <= k < |log| && log[k].Join? && Some(log[k].tenant) == tenant &&
        log[k].alert.mitreTactic == Some(tactic)
  }

  /** Tactics that the member query finds come from alerts of the incident's own
      tenant. */
  lemma MembersStayInTenant(db: Db, log: seq<Event>, i: IncidentId, tactic: string)
    requires Consistent(db, log) && tactic in MemberTactics(db, i)
    ensures i in db.incidents && StitchedWith(log, db.incidents[i].tenant, tactic)
  {
    var l :| l in TacticLinks(db) && (i, l.entity) in db.incidentLinks && TacticOf(db, l) == tactic;
    assert LinkInTenant(db, (i, l.entity));
    assert AlertLinkRecorded(db, log, l);
    var k :| 0 <= k < |log| && log[k].Join? && log[k].alert.id == l.alert
             && l.entity in db.entities && db.entities[l.entity].tenant == log[k].tenant;
    assert JoinRecorded(db, log[k]);
  }

  /** The tactic of every alert stitched into an incident, if the alert names anything,
      is among those the member query finds. */
  lemma OwnTacticsAreMembers(db: Db, log: seq<Event>, k: nat, kind: Kind, value: string)
    requires Consistent(db, log) && k < |log| && log[k].Join? && log[k].alert.mitreTactic.Some?
    requires value != "" && Mentioned(Mentions(log[k].alert), kind, value)
    ensures log[k].alert.mitreTactic.value in MemberTactics(db, log[k].incident)
  {
    hide Mentions, MemberTactics;
    var l := AlertsKeepTheirLinks(db, log, k, kind, value);
    assert JoinRecorded(db, log[k]);
    hide Consistent, JoinRecorded;
    assert l in TacticLinks(db);
    LinkedTacticIsMember(db, log[k].incident, l);
  }

  /** The tactics supplied are those of the incident's member alerts exactly when it
      has one with a tactic, or no alert anywhere has one. */
  lemma SuppliedByMembersExactlyWhen(db: Db, i: IncidentId, tactics: seq<string>)
    requires Supplies(db, i, tactics)
    ensures (forall t <- tactics :: t in MemberTactics(db, i)) <==>
            MemberTactics(db, i) != {} || TacticLinks(db) == {}
  {
    hide NotNewer;
    if MemberTactics(db, i) == {} {
      var rows :| LatestRows(db, rows) && tactics == TacticsOf(db, rows);
      assert |tactics| == 0 <==> TacticLinks(db) == {};
      assert tactics != [] ==> tactics[0] in tactics;
    }
  }

  /** The fallback is never about the incident: every tactic it supplies is of an
      alert that shares no entity with the incident. */
  lemma FallbackIsForeign(db: Db, i: IncidentId, rows: seq<AlertLink>, k: nat, l: AlertLink)
    requires MemberTactics(db, i) == {} && LatestRows(db, rows) && k < |rows|
    requires l in db.alertLinks && l.alert == rows[k].alert
    ensures (i, l.entity) !in db.incidentLinks
  {
    hide MemberTactics;
    if (i, l.entity) in db.incidentLinks {
      assert l in TacticLinks(db);
      LinkedTacticIsMember(db, i, l);
    }
  }

  lemma LinkedTacticIsMember(db: Db, i: IncidentId, l: AlertLink)
    requires l in TacticLinks(db) && (i, l.entity) in db.incidentLinks
    ensures TacticOf(db, l) in MemberTactics(db, i)
  {
  }

  /** With no more rows than the limit, the fallback supplies the tactics of all
      alerts of all tenants. */
  lemma FallbackReachesEveryTenant(db: Db, i: IncidentId, tactics: seq<string>, l: AlertLink)
    requires MemberTactics(db, i) == {} && Supplies(db, i, tactics)
    requires |TacticLinks(db)| <= FALLBACK_LIMIT && l in TacticLinks(db)
    ensures TacticOf(db, l) in tactics
  {
    hide NotNewer;
    var rows :| LatestRows(db, rows) && tactics == TacticsOf(db, rows);
    AllRows(rows, TacticLinks(db));
    var k :| 0 <= k < |rows| && rows[k] == l;
    assert tactics[k] == TacticOf(db, l);
  }

  /** Two stored alerts, each stitched for a tenant. */
  function TwoAlerts(x: Alert, y: Alert): Db {
    EMPTY_DB.(alerts := map[x.id := x, y.id := y])
  }

  function AfterFirst(x: Alert, y: Alert, t: Tenant, now: int): Db {
    Stitched(TwoAlerts(x, y), x, t, now, None).0
  }

  function AfterBoth(x: Alert, y: Alert, t: Tenant, u: Tenant, now: int): Db {
    Stitched(AfterFirst(x, y, t, now), y, u, now, None).0
  }

  /** The first alert names nothing, so its incident has no links at all. */
  lemma FirstIsUnlinked(x: Alert, y: Alert, t: Tenant, now: int)
    requires x.id != y.id && Distinct(Mentions(x)) == []
    ensures var db := AfterFirst(x, y, t, now);
            && Consistent(db, [StitchEvent(TwoAlerts(x, y), x, t, now, None)])
            && db.alerts == TwoAlerts(x, y).alerts && db.alertLinks == {} && db.incidentLinks == {}
            && db.nextIncident == 1 && 0 in db.incidents && db.incidents[0].tenant == Some(t)
  {
    hide Mentions, Distinct, StitchedAbout, DomainOf;
    var db0 := TwoAlerts(x, y);
    assert Consistent(db0, []);
    assert Linked(db0, x, t, now) == (db0, []);
    NoEntitiesNoIncumbent(db0, now);
    hide Consistent;
    StitchKeepsConsistency(db0, [], x, t, now, None);
    var e := StitchEvent(db0, x, t, now, None);
    assert [] + [e] == [e];
  }

  /** The fallback crosses tenants in a real run: an alert that names nothing
      opens an incident for one tenant, an alert with a tactic is stitched for
      another, and the first incident is supplied with that tactic. */
  lemma FallbackCrossesTenants(x: Alert, y: Alert, t: Tenant, u: Tenant, now: int, tactics: seq<string>)
    requires x.id != y.id && Distinct(Mentions(x)) == []
    requires y.mitreTactic.Some? && Distinct(Mentions(y)) != []
    requires Supplies(AfterBoth(x, y, t, u, now), 0, tactics)
    ensures var db := AfterBoth(x, y, t, u, now);
            && (exists log :: Consistent(db, log))
            && 0 in db.incidents && db.incidents[0].tenant == Some(t)
            && y.mitreTactic.value in tactics
  {
    hide Mentions, Distinct, Consistent, Stitched, Linked, LinksOf, Supplies, WithAlertLinks;
    FirstIsUnlinked(x, y, t, now);
    var (db1, es) := (AfterFirst(x, y, t, now), Distinct(Mentions(y)));
    SecondIsLinked(db1, [StitchEvent(TwoAlerts(x, y), x, t, now, None)], y, u, now);
    var (db, ids) := (AfterBoth(x, y, t, u, now), Linked(db1, y, u, now).1);
    FewLinks(y, ids);
    SuppliedFromElsewhere(db, y, es, ids, tactics);
  }

  lemma SuppliedFromElsewhere(db: Db, y: Alert, es: seq<Extracted>, ids: seq<EntityId>, tactics: seq<string>)
    requires y.id in db.alerts && db.alerts[y.id] == y && y.mitreTactic.Some?
    requires es != [] && |ids| == |es| && db.alertLinks == LinksOf(y, es, ids) && |db.alertLinks| <= FALLBACK_LIMIT
    requires forall l <- db.incidentLinks :: l.0 == 1
    requires Supplies(db, 0, tactics)
    ensures y.mitreTactic.value in tactics
  {
    var l := AlertLink(y.id, ids[0], es[0].role);
    assert l in LinksOf(y, es, ids);
    assert MemberTactics(db, 0) == {};
    assert TacticLinks(db) == LinksOf(y, es, ids);
    hide Supplies;
    FallbackReachesEveryTenant(db, 0, tactics, l);
  }

  lemma SecondIsLinked(db: Db, log: seq<Event>, y: Alert, u: Tenant, now: int)
    requires Consistent(db, log) && db.incidentLinks == {} && db.alertLinks == {} && db.nextIncident == 1 &&
              0 in db.incidents
    requires y.id in db.alerts && db.alerts[y.id] == y && Distinct(Mentions(y)) != []
    ensures var (es, (linked, ids)) := (Distinct(Mentions(y)), Linked(db, y, u, now));
            var after := Stitched(db, y, u, now, None).0;
            && |ids| == |es| && after.alerts == db.alerts && after.alertLinks == LinksOf(y, es, ids)
            && (forall l <- after.incidentLinks :: l.0 == 1)
            && 0 in after.incidents && after.incidents[0].tenant == db.incidents[0].tenant
            && Consistent(after, log + [StitchEvent(db, y, u, now, None)])
  {
    hide Mentions, Distinct, StitchedAbout, DomainOf, LinkedDomains, Consistent, Tables, WithAlertLinks, LinksOf;
    hide AreEntities;
    var es := Distinct(Mentions(y));
    var (linked, ids) := Linked(db, y, u, now);
    TablesOf(db, log);
    AlertLinkSteps(db, y, u, es, now);
    SameLength(linked, ids, u, es);
    assert Incumbent(linked, ids, now, None);
    StitchKeepsConsistency(db, log, y, u, now, None);
    assert {} + LinksOf(y, es, ids) == LinksOf(y, es, ids);
  }

  /** An alert has at most nine mentions, and so at most nine links. */
  lemma FewLinks(a: Alert, ids: seq<EntityId>)
    requires |ids| == |Distinct(Mentions(a))|
    ensures |LinksOf(a, Distinct(Mentions(a)), ids)| <= FALLBACK_LIMIT
  {
    DistinctIsShorter(Mentions(a));
    var es := Distinct(Mentions(a));
    assert |Mentions(a)| <= 9;
    hide Mentions, Distinct;
    LinksAreFew(a, es, ids);
  }

  lemma {:induction false} DistinctIsShorter(es: seq<Extracted>)
    ensures |Distinct(es)| <= |es|
  {
    if es != [] { DistinctIsShorter(es[..|es|-1]); }
  }

  lemma {:induction false} LinksAreFew(a: Alert, es: seq<Extracted>, ids: seq<EntityId>)
    requires |es| == |ids|
    ensures |LinksOf(a, es, ids)| <= |ids|
  {
    if ids != [] {
      var n := |ids| - 1;
      LinksAreFew(a, es[..n], ids[..n]);
      LinksAppend(a, es[..n], ids[..n], es[n], ids[n]);
      assert es == es[..n] + [es[n]] && ids == ids[..n] + [ids[n]];
    } else {
      assert LinksOf(a, es, ids) == {};
    }
  }

  /** As many distinct members as a set has are all of them. */
  lemma {:induction false} AllRows(rows: seq<AlertLink>, all: set<AlertLink>)
    requires forall k :: 0 <= k < |rows| ==> rows[k] in all
    requires forall j, k :: 0 <= j < k < |rows| ==> rows[j] != rows[k]
    requires |rows| == |all|
    ensures forall l <- all :: l in rows
  {
    if rows != [] {
      var (rest, last) := (rows[..|rows|-1], rows[|rows|-1]);
      AllRows(rest, all - {last});
      assert rows == rest + [last];
    }
  }

  lemma UnknownIsNoStage()
    ensures StageIndex(UNKNOWN) == -1
  {
    NotAmong(UNKNOWN, 12);
  }

  lemma {:induction false} NotAmong(stage: string, n: nat)
    requires n <= |STAGE_ORDER|
    requires forall i :: 0 <= i < n ==> STAGE_ORDER[i] != stage
    ensures IndexBelow(stage, n) == -1
  {
    if n > 0 { NotAmong(stage, n - 1); }
  }
}

/** The cross-domain stitching engine: alerts that share an entity join one
    incident.  The tables are maps and sets; one clock reading serves a call. */
module Stitching {
  import opened Wrappers
  import opened Descriptions
  import opened Entities

  type Tenant = string

  type EntityId = nat

  type IncidentId = nat

  const LOOKBACK := 6 * 60 * 60

  const DOMAIN_ENDPOINT := "endpoint"

  datatype EntityRow = EntityRow(tenant: Tenant, kind: Kind, value: string, firstSeen: int, lastSeen: int)

  datatype Incident = Incident(
    tenant: Option<Tenant>, about: About, alertCount: nat, status: string, firstAlertAt: int, lastAlertAt: int,
    sourceDomains: set<string>, crossDomain: bool)

  datatype AlertLink = AlertLink(alert: AlertId, entity: EntityId, role: string)

  datatype Db = Db(
    alerts: map<AlertId, Alert>,
    entities: map<EntityId, EntityRow>, nextEntity: EntityId,
    incidents: map<IncidentId, Incident>, nextIncident: IncidentId,
    alertLinks: set<AlertLink>,
    incidentLinks: set<(IncidentId, EntityId)>)

  const EMPTY_DB := Db(map[], map[], 0, map[], 0, {}, {})

  // ---- The steps of one stitch ----------------------------------------------

  predicate IsEntity(db: Db, id: EntityId, tenant: Tenant, e: Extracted) {
    id in db.entities
    && db.entities[id].tenant == tenant && db.entities[id].kind == e.kind && db.entities[id].value == e.value
  }

  /** The id of the first row, among those below n, for a tenant's entity. */
  function EntityBelow(db: Db, tenant: Tenant, e: Extracted, n: nat): (r: Option<EntityId>)
    ensures r.Some? ==> r.value < n && IsEntity(db, r.value, tenant, e)
    ensures r.None? ==> forall id: EntityId :: id < n ==> !IsEntity(db, id, tenant, e)
  {
    if n == 0 then None
    else
      var earlier := EntityBelow(db, tenant, e, n - 1);
      if earlier.Some? then earlier
      else if IsEntity(db, n - 1, tenant, e) then Some(n - 1)
      else None
  }

  function WithEntity(db: Db, tenant: Tenant, e: Extracted, now: int): (Db, EntityId) {
    var found := EntityBelow(db, tenant, e, db.nextEntity);
    if found.Some? then
      (db.(entities := db.entities[found.value := db.entities[found.value].(lastSeen := now)]), found.value)
    else
      (db.(entities := db.entities[db.nextEntity := EntityRow(tenant, e.kind, e.value, now, now)],
           nextEntity := db.nextEntity + 1), db.nextEntity)
  }

  /** One turn of the loop over the extracted entities. */
  function WithAlertLink(db: Db, a: Alert, tenant: Tenant, e: Extracted, now: int): (Db, EntityId) {
    var (found, id) := WithEntity(db, tenant, e, now);
    (found.(alertLinks := found.alertLinks + {AlertLink(a.id, id, e.role)}), id)
  }

  function WithAlertLinks(db: Db, a: Alert, tenant: Tenant, es: seq<Extracted>, now: int): (Db, seq<EntityId>) {
    if es == [] then (db, [])
    else
      var (before, ids) := WithAlertLinks(db, a, tenant, es[..|es|-1], now);
      var (after, id) := WithAlertLink(before, a, tenant, es[|es|-1], now);
      (after, ids + [id])
  }

  /** The rows the incident lookup selects.  It joins incidents with their
      entity links and has no tenant filter. */
  predicate Candidate(db: Db, ids: seq<EntityId>, now: int, i: IncidentId) {
    && i in db.incidents
    && db.incidents[i].status == "open"
    && db.incidents[i].firstAlertAt >= now - LOOKBACK
    && exists k :: 0 <= k < |ids| && (i, ids[k]) in db.incidentLinks
  }

  /** The lookup's answer: a candidate with the latest last alert, if any. */
  ghost predicate Incumbent(db: Db, ids: seq<EntityId>, now: int, r: Option<IncidentId>) {
    match r
    case None => forall i :: i in db.incidents ==> !Candidate(db, ids, now, i)
    case Some(i) =>
      && Candidate(db, ids, now, i)
      && forall j :: j in db.incidents && Candidate(db, ids, now, j) ==>
           db.incidents[j].lastAlertAt <= db.incidents[i].lastAlertAt
  }

  predicate NoRepeats(ids: seq<EntityId>) {
    forall j, k :: 0 <= j < k < |ids| ==> ids[j] != ids[k]
  }

  function LinksTo(i: IncidentId, ids: seq<EntityId>): set<(IncidentId, EntityId)> {
    set k | 0 <= k < |ids| :: (i, ids[k])
  }

  function WithIncidentLinks(db: Db, i: IncidentId, ids: seq<EntityId>): Db {
    db.(incidentLinks := db.incidentLinks + LinksTo(i, ids))
  }

  function DomainOf(a: Alert): string {
    if a.sourceType.Some? && a.sourceType.value != "" then a.sourceType.value else DOMAIN_ENDPOINT
  }

  /** The source types of the alerts that share an entity with an incident. */
  function LinkedDomains(db: Db, i: IncidentId): set<string> {
    set l | l in db.alertLinks && (i, l.entity) in db.incidentLinks
            && l.alert in db.alerts && db.alerts[l.alert].sourceType.Some?
      :: DomainOf(db.alerts[l.alert])
  }

  function WithDomains(db: Db, i: IncidentId): Db
    requires i in db.incidents
  {
    var domains := db.incidents[i].sourceDomains + LinkedDomains(db, i);
    db.(incidents := db.incidents[i := db.incidents[i].(sourceDomains := domains, crossDomain := |domains| > 1)])
  }

  function WithIncident(db: Db, row: Incident): Db {
    db.(incidents := db.incidents[db.nextIncident := row], nextIncident := db.nextIncident + 1)
  }

  /** The row a new incident starts from. */
  function Opened(a: Alert, tenant: Tenant, now: int): Incident {
    Incident(Some(tenant), StitchedAbout(a), 1, "open", now, now, {DomainOf(a)}, false)
  }

  function Created(db: Db, a: Alert, tenant: Tenant, ids: seq<EntityId>, now: int): Db {
    var created := WithIncident(db, Opened(a, tenant, now));
    if ids == [] then created
    else WithDomains(WithIncidentLinks(created, db.nextIncident, ids), db.nextIncident)
  }

  function Joined(db: Db, i: IncidentId, ids: seq<EntityId>, now: int): Db
    requires i in db.incidents
  {
    var row := db.incidents[i];
    var counted := db.(incidents := db.incidents[i := row.(alertCount := row.alertCount + 1, lastAlertAt := now)]);
    WithDomains(WithIncidentLinks(counted, i, ids), i)
  }

  /** The tables and entity ids once the alert's entities are linked. */
  function Linked(db: Db, a: Alert, tenant: Tenant, now: int): (Db, seq<EntityId>) {
    WithAlertLinks(db, a, tenant, Distinct(Mentions(a)), now)
  }

  /** The lookup, run after the alert's entities are linked, may answer r. */
  ghost predicate Answers(db: Db, a: Alert, tenant: Tenant, now: int, r: Option<IncidentId>) {
    var (linked, ids) := Linked(db, a, tenant, now);
    Incumbent(linked, ids, now, r) && (r.Some? ==> r.value in linked.incidents)
  }

  /** The whole of `stitch_incident`, given the lookup's answer. */
  function Stitched(db: Db, a: Alert, tenant: Tenant, now: int, r: Option<IncidentId>): (Db, IncidentId)
    requires r.Some? ==> r.value in Linked(db, a, tenant, now).0.incidents
  {
    var (linked, ids) := Linked(db, a, tenant, now);
    if r.Some? then (Joined(linked, r.value, ids, now), r.value)
    else (Created(linked, a, tenant, ids, now), linked.nextIncident)
  }

  function StitchEvent(db: Db, a: Alert, tenant: Tenant, now: int, r: Option<IncidentId>): Event
    requires r.Some? ==> r.value in Linked(db, a, tenant, now).0.incidents
  {
    Join(a, tenant, now, Stitched(db, a, tenant, now, r).1, Linked(db, a, tenant, now).1, r.None?)
  }

  lemma {:induction false} AlertLinksKeepIncidents(db: Db, a: Alert, tenant: Tenant, es: seq<Extracted>, now: int)
    ensures var (linked, ids) := WithAlertLinks(db, a, tenant, es, now);
            && linked.alerts == db.alerts && linked.incidents == db.incidents
            && linked.nextIncident == db.nextIncident && linked.incidentLinks == db.incidentLinks
            && |ids| == |es|
  {
    if es != [] {
      AlertLinksKeepIncidents(db, a, tenant, es[..|es|-1], now);
    }
  }

  /** When a standalone incident starts: at the alert's own time, if it has one. */
  function TimeOf(a: Alert, now: int): int {
    if a.alertTimestamp.Some? then a.alertTimestamp.value else now
  }

  /** A single-alert incident, which `alert_dedup` falls back to. */
  function Singled(db: Db, a: Alert, tenant: Option<Tenant>, now: int): Db {
    var at := TimeOf(a, now);
    WithIncident(db, Incident(tenant, SingleAbout(a), 1, "open", at, at, {}, false))
  }

  function WithStatus(db: Db, i: IncidentId, status: string): Db
    requires i in db.incidents
  {
    db.(incidents := db.incidents[i := db.incidents[i].(status := status)])
  }

  // ---- The session ----------------------------------------------------------

  class DbSession {
    var alerts: map<AlertId, Alert>
    var entities: map<EntityId, EntityRow>
    var nextEntity: EntityId
    var incidents: map<IncidentId, Incident>
    var nextIncident: IncidentId
    var alertLinks: set<AlertLink>
    var incidentLinks: set<(IncidentId, EntityId)>
    ghost var log: seq<Event>

    function View(): Db
      reads this
    {
      Db(alerts, entities, nextEntity, incidents, nextIncident, alertLinks, incidentLinks)
    }

    ghost predicate Valid()
      reads this
    {
      Consistent(View(), log)
    }

    constructor ()
      ensures Valid() && View() == EMPTY_DB && log == []
    {
      alerts, entities, nextEntity, incidents, nextIncident := map[], map[], 0, map[], 0;
      alertLinks, incidentLinks, log := {}, {}, [];
    }

    /** Stores an alert row; a stored alert does not change. */
    method AddAlert(a: Alert)
      requires Valid()
      requires a.id !in alerts
      modifies this`alerts
      ensures Valid()
      ensures alerts == old(alerts)[a.id := a]
    {
      hide Consistent;
      AddAlertKeepsConsistency(View(), log, a);
      alerts := alerts[a.id := a];
    }

    method FindOrCreateEntity(tenant: Tenant, e: Extracted, now: int) returns (id: EntityId)
      modifies this`entities, this`nextEntity
      ensures (View(), id) == WithEntity(old(View()), tenant, e, now)
    {
      var found := EntityBelow(View(), tenant, e, nextEntity);
      if found.Some? {
        id := found.value;
        entities := entities[id := entities[id].(lastSeen := now)];
      } else {
        id := nextEntity;
        entities := entities[id := EntityRow(tenant, e.kind, e.value, now, now)];
        nextEntity := nextEntity + 1;
      }
    }

    /** The open incidents of the window that share an entity, scanned for the
        one with the latest alert.  Ties fall to any of them. */
    method FindIncumbent(ids: seq<EntityId>, now: int) returns (r: Option<IncidentId>)
      ensures Incumbent(View(), ids, now, r)
    {
      r := None;
      var rest := incidents.Keys;
      while rest != {}
        invariant rest <= incidents.Keys
        invariant r.Some? ==> r.value in incidents && Candidate(View(), ids, now, r.value)
        invariant forall i :: i in incidents.Keys - rest && Candidate(View(), ids, now, i) ==>
                    r.Some? && incidents[i].lastAlertAt <= incidents[r.value].lastAlertAt
        decreases rest
      {
        var i :| i in rest;
        rest := rest - {i};
        if Candidate(View(), ids, now, i) && (r.None? || incidents[r.value].lastAlertAt <= incidents[i].lastAlertAt) {
          r := Some(i);
        }
      }
    }

    /** Inserts the missing links.  The rows already there are read once, so a
        repeated id would insert the same key twice. */
    method LinkEntitiesToIncident(i: IncidentId, ids: seq<EntityId>)
      requires NoRepeats(ids)
      modifies this`incidentLinks
      ensures View() == WithIncidentLinks(old(View()), i, ids)
    {
      var existing := set id | id in ids && (i, id) in incidentLinks;
      for k := 0 to |ids|
        invariant incidentLinks == old(incidentLinks) + set j | 0 <= j < k :: (i, ids[j])
      {
        if ids[k] !in existing {
          assert (i, ids[k]) !in incidentLinks;
          incidentLinks := incidentLinks + {(i, ids[k])};
        }
      }
    }

    method UpdateIncidentDomains(i: IncidentId)
      requires i in incidents
      modifies this`incidents
      ensures View() == WithDomains(old(View()), i)
    {
      var domains := incidents[i].sourceDomains + LinkedDomains(View(), i);
      incidents := incidents[i := incidents[i].(sourceDomains := domains, crossDomain := |domains| > 1)];
    }

    method CreateNewIncident(a: Alert, tenant: Tenant, ids: seq<EntityId>, now: int) returns (i: IncidentId)
      requires NoRepeats(ids)
      modifies this`incidents, this`nextIncident, this`incidentLinks
      ensures View() == Created(old(View()), a, tenant, ids, now)
      ensures i == old(nextIncident)
    {
      hide LinkedDomains, DomainOf, StitchedAbout;
      i := nextIncident;
      incidents := incidents[i := Incident(Some(tenant), StitchedAbout(a), 1, "open", now, now, {DomainOf(a)}, false)];
      nextIncident := nextIncident + 1;
      if ids != [] {
        LinkEntitiesToIncident(i, ids);
        UpdateIncidentDomains(i);
      }
    }

    /** The loop over the extracted entities. */
    method LinkAlertEntities(a: Alert, tenant: Tenant, extracted: seq<Extracted>, now: int) returns (ids: seq<EntityId>)
      modifies this`entities, this`nextEntity, this`alertLinks
      ensures (View(), ids) == WithAlertLinks(old(View()), a, tenant, extracted, now)
    {
      hide WithEntity;
      ids := [];
      for k := 0 to |extracted|
        invariant (View(), ids) == WithAlertLinks(old(View()), a, tenant, extracted[..k], now)
      {
        assert extracted[..k+1][..k] == extracted[..k];
        var id := FindOrCreateEntity(tenant, extracted[k], now);
        alertLinks := alertLinks + {AlertLink(a.id, id, extracted[k].role)};
        ids := ids + [id];
      }
      assert extracted[..|extracted|] == extracted;
    }

    method JoinIncident(i: IncidentId, ids: seq<EntityId>, now: int)
      requires i in incidents && NoRepeats(ids)
      modifies this`incidents, this`incidentLinks
      ensures View() == Joined(old(View()), i, ids, now)
    {
      hide LinkedDomains;
      var row := incidents[i];
      incidents := incidents[i := row.(alertCount := row.alertCount + 1, lastAlertAt := now)];
      LinkEntitiesToIncident(i, ids);
      UpdateIncidentDomains(i);
    }

    /** Stitches one alert.  Which rows it leaves is a function of the lookup's
        answer; that answer is any latest candidate. */
    method StitchIncident(a: Alert, tenant: Tenant, now: int) returns (i: IncidentId, ghost r: Option<IncidentId>)
      requires Valid()
      requires a.id in alerts && alerts[a.id] == a
      modifies this
      ensures Valid()
      ensures alerts == old(alerts)
      ensures Answers(old(View()), a, tenant, now, r)
      ensures (View(), i) == Stitched(old(View()), a, tenant, now, r)
      ensures log == old(log) + [StitchEvent(old(View()), a, tenant, now, r)]
      ensures if exists j :: Qualifies(old(log), a, tenant, now, j) then Qualifies(old(log), a, tenant, now, i)
              else i == old(nextIncident)
    {
      hide Qualifies, Consistent, Tables, Grows, AreEntities, Incumbent, Created, Joined, WithAlertLinks, NoRepeats;
      hide Distinct;
      hide Mentions;
      var extracted := ExtractEntities(a);
      AlertLinksKeepIncidents(View(), a, tenant, extracted, now);
      TablesOf(View(), log);
      AlertLinkSteps(View(), a, tenant, extracted, now);
      DistinctKeepsEachOnce(Mentions(a));
      DistinctIds(Linked(View(), a, tenant, now).0, Linked(View(), a, tenant, now).1, tenant, extracted);
      var ids := LinkAlertEntities(a, tenant, extracted, now);
      r := None;
      if ids == [] {
        NoEntitiesNoIncumbent(View(), now);
        i := CreateNewIncident(a, tenant, [], now);
      } else {
        var incumbent := FindIncumbent(ids, now);
        r := incumbent;
        IncumbentExists(View(), ids, now, r);
        if incumbent.Some? {
          i := incumbent.value;
          JoinIncident(i, ids, now);
        } else {
          i := CreateNewIncident(a, tenant, ids, now);
        }
      }
      StitchKeepsConsistency(old(View()), log, a, tenant, now, r);
      JoinsExactlyWhen(old(View()), log, a, tenant, now, r);
      log := log + [StitchEvent(old(View()), a, tenant, now, r)];
    }

    method SingleAlertIncident(a: Alert, tenant: Option<Tenant>, now: int) returns (i: IncidentId)
      requires Valid()
      modifies this`incidents, this`nextIncident, this`log
      ensures Valid()
      ensures View() == Singled(old(View()), a, tenant, now) && i == old(nextIncident)
      ensures log == old(log) + [Single(tenant, TimeOf(a, now), i)]
      ensures incidents[i].tenant == tenant && incidents[i].alertCount == 1 && incidents[i].status == "open"
      ensures incidents[i].firstAlertAt == incidents[i].lastAlertAt ==
                (if a.alertTimestamp.Some? then a.alertTimestamp.value else now)
      ensures incidents[i].about ==
                About("single:" + a.id, a.ruleId, a.ruleDescription, a.agentId, a.sourceIp,
                      Some(if a.ruleLevel >= 12 then "critical" else if a.ruleLevel >= 10 then "high"
                           else if a.ruleLevel >= 7 then "medium" else "low"))
    {
      hide Consistent;
      SingleKeepsConsistency(View(), log, a, tenant, now);
      i := nextIncident;
      var at := if a.alertTimestamp.Some? then a.alertTimestamp.value else now;
      incidents := incidents[i := Incident(tenant, SingleAbout(a), 1, "open", at, at, {}, false)];
      nextIncident := nextIncident + 1;
      log := log + [Single(tenant, at, i)];
    }

    /** An analyst, or another worker, changes the status of an incident. */
    method SetStatus(i: IncidentId, status: string)
      requires Valid() && i in incidents
      modifies this`incidents, this`log
      ensures Valid()
      ensures View() == WithStatus(old(View()), i, status)
      ensures log == old(log) + [SetTo(i, status)]
    {
      hide Consistent;
      StatusKeepsConsistency(View(), log, i, status);
      incidents := incidents[i := incidents[i].(status := status)];
      log := log + [SetTo(i, status)];
    }
  }

  // ---- What the history of a run says ----------------------------------------

  datatype Event =
    | Join(alert: Alert, tenant: Tenant, at: int, incident: IncidentId, ids: seq<EntityId>, created: bool)
    | Single(owner: Option<Tenant>, at: int, incident: IncidentId)
    | SetTo(incident: IncidentId, status: string)

  /** The alerts attached to an incident. */
  function CountOf(log: seq<Event>, i: IncidentId): nat {
    if log == [] then 0
    else
      var (rest, e) := (log[..|log|-1], log[|log|-1]);
      CountOf(rest, i) + (if !e.SetTo? && e.incident == i then 1 else 0)
  }

  /** All attachments of the run. */
  function Attachments(log: seq<Event>): nat {
    if log == [] then 0 else Attachments(log[..|log|-1]) + (if log[|log|-1].SetTo? then 0 else 1)
  }

  function StatusOf(log: seq<Event>, i: IncidentId): string {
    if log == [] then "open"
    else
      var (rest, e) := (log[..|log|-1], log[|log|-1]);
      if e.SetTo? && e.incident == i then e.status else StatusOf(rest, i)
  }

  /** When the first alert of an incident was attached. */
  function FirstAt(log: seq<Event>, i: IncidentId): Option<int> {
    if log == [] then None
    else
      var (rest, e) := (log[..|log|-1], log[|log|-1]);
      var before := FirstAt(rest, i);
      if before.None? && !e.SetTo? && e.incident == i then Some(e.at) else before
  }

  /** When the last alert of an incident was attached. */
  function LastAt(log: seq<Event>, i: IncidentId): Option<int> {
    if log == [] then None
    else
      var (rest, e) := (log[..|log|-1], log[|log|-1]);
      if !e.SetTo? && e.incident == i then Some(e.at) else LastAt(rest, i)
  }

  /** Some alert with that entity was stitched into the incident. */
  ghost predicate SharesEntity(log: seq<Event>, i: IncidentId, id: EntityId) {
    exists k :: 0 <= k < |log| && log[k].Join? && log[k].incident == i && id in log[k].ids
  }

  /** When the first, and the last, alert with that entity was stitched. */
  function FirstSeenAt(log: seq<Event>, id: EntityId): Option<int> {
    if log == [] then None
    else
      var (rest, e) := (log[..|log|-1], log[|log|-1]);
      var before := FirstSeenAt(rest, id);
      if before.None? && e.Join? && id in e.ids then Some(e.at) else before
  }

  function LastSeenAt(log: seq<Event>, id: EntityId): Option<int> {
    if log == [] then None
    else
      var (rest, e) := (log[..|log|-1], log[|log|-1]);
      if e.Join? && id in e.ids then Some(e.at) else LastSeenAt(rest, id)
  }

  /** An incident only gains an alert while open and within the window that
      starts at its first alert. */
  ghost predicate GainsInWindow(log: seq<Event>) {
    forall k :: 0 <= k < |log| && log[k].Join? && !log[k].created ==>
      && StatusOf(log[..k], log[k].incident) == "open"
      && FirstAt(log[..k], log[k].incident).Some?
      && log[k].at - FirstAt(log[..k], log[k].incident).value <= LOOKBACK
  }

  // ---- The invariant of every run ---------------------------------------------

  /** What holds of the tables alone. */
  ghost predicate Tables(db: Db) {
    && (forall id :: id in db.entities ==> id < db.nextEntity)
    && (forall x, y :: x in db.entities && y in db.entities && SameEntity(db.entities[x], db.entities[y]) ==> x == y)
    && (forall i: IncidentId :: i in db.incidents <==> i < db.nextIncident)
    && (forall l :: l in db.incidentLinks ==> LinkInTenant(db, l))
    && (forall l :: l in db.alertLinks ==> l.entity in db.entities)
    && (forall i :: i in db.incidents ==> (db.incidents[i].crossDomain <==> |db.incidents[i].sourceDomains| > 1))
  }

  predicate SameEntity(x: EntityRow, y: EntityRow) {
    x.tenant == y.tenant && x.kind == y.kind && x.value == y.value
  }

  /** A link joins an incident and an entity of one tenant. */
  predicate LinkInTenant(db: Db, l: (IncidentId, EntityId)) {
    l.0 in db.incidents && l.1 in db.entities && db.incidents[l.0].tenant == Some(db.entities[l.1].tenant)
  }

  /** The incident rows are those of the history. */
  ghost predicate RowsRecorded(db: Db, log: seq<Event>) {
    && (forall i :: i in db.incidents ==>
          && db.incidents[i].alertCount == CountOf(log, i)
          && db.incidents[i].status == StatusOf(log, i)
          && FirstAt(log, i) == Some(db.incidents[i].firstAlertAt)
          && LastAt(log, i) == Some(db.incidents[i].lastAlertAt))
    && (forall i: IncidentId :: i !in db.incidents ==>
          CountOf(log, i) == 0 && StatusOf(log, i) == "open" && FirstAt(log, i) == None && LastAt(log, i) == None)
  }

  /** The entity rows are those of the entities seen, with the first and last time. */
  ghost predicate SeenRecorded(db: Db, log: seq<Event>) {
    forall id: EntityId ::
      if id in db.entities
      then
        && FirstSeenAt(log, id) == Some(db.entities[id].firstSeen)
        && LastSeenAt(log, id) == Some(db.entities[id].lastSeen)
      else FirstSeenAt(log, id) == None && LastSeenAt(log, id) == None
  }

  ghost predicate LinksRecorded(db: Db, log: seq<Event>) {
    forall i: IncidentId, id: EntityId :: (i, id) in db.incidentLinks <==> SharesEntity(log, i, id)
  }

  /** Each stitched alert is a stored row, in an incident of its own tenant; the
      entities of the stitch are those the alert names, and an incident keeps
      the description of the alert that opened it. */
  ghost predicate JoinRecorded(db: Db, e: Event)
    requires e.Join?
  {
    && e.alert.id in db.alerts && db.alerts[e.alert.id] == e.alert
    && e.incident in db.incidents && db.incidents[e.incident].tenant == Some(e.tenant)
    && AreEntities(db, e.ids, e.tenant, Distinct(Mentions(e.alert)))
    && RolesLinked(db, e)
    && (e.created || e.alert.sourceType.Some? ==> DomainOf(e.alert) in db.incidents[e.incident].sourceDomains)
    && (e.created ==> db.incidents[e.incident].about == StitchedAbout(e.alert))
  }

  /** The alert of a stitch is linked to each of its entities, in the role of the first
      mention. */
  ghost predicate RolesLinked(db: Db, e: Event)
    requires e.Join?
  {
    var es := Distinct(Mentions(e.alert));
    |e.ids| == |es| && forall m :: 0 <= m < |es| ==> AlertLink(e.alert.id, e.ids[m], es[m].role) in db.alertLinks
  }

  ghost predicate JoinsRecorded(db: Db, log: seq<Event>) {
    forall k :: 0 <= k < |log| && log[k].Join? ==> JoinRecorded(db, log[k])
  }

  /** Some alert of that tenant and that domain was stitched. */
  ghost predicate DomainSeen(log: seq<Event>, tenant: Option<Tenant>, d: string) {
    exists k :: 0 <= k < |log| && log[k].Join? && Some(log[k].tenant) == tenant && DomainOf(log[k].alert) == d
  }

  ghost predicate DomainsRecorded(db: Db, log: seq<Event>) {
    forall i :: i in db.incidents ==>
      forall d :: d in db.incidents[i].sourceDomains ==> DomainSeen(log, db.incidents[i].tenant, d)
  }

  ghost predicate AlertLinkRecorded(db: Db, log: seq<Event>, l: AlertLink) {
    exists k :: 0 <= k < |log| && log[k].Join? && log[k].alert.id == l.alert
                && l.entity in db.entities && db.entities[l.entity].tenant == log[k].tenant
  }

  ghost predicate AlertLinksRecorded(db: Db, log: seq<Event>) {
    forall l :: l in db.alertLinks ==> AlertLinkRecorded(db, log, l)
  }

  ghost predicate Consistent(db: Db, log: seq<Event>) {
    && Tables(db)
    && RowsRecorded(db, log)
    && SeenRecorded(db, log)
    && LinksRecorded(db, log)
    && JoinsRecorded(db, log)
    && DomainsRecorded(db, log)
    && AlertLinksRecorded(db, log)
    && GainsInWindow(log)
  }

  // ---- Entities -----------------------------------------------------------------

  /** The later tables have the earlier entities and incidents. */
  ghost predicate Grows(db: Db, db': Db) {
    && (forall id :: id in db.entities ==> id in db'.entities && SameEntity(db.entities[id], db'.entities[id]))
    && db'.alerts == db.alerts && db'.incidents == db.incidents
    && db'.nextIncident == db.nextIncident && db'.incidentLinks == db.incidentLinks
  }

  lemma EntityStep(db: Db, tenant: Tenant, e: Extracted, now: int)
    requires Tables(db)
    ensures var (db', id) := WithEntity(db, tenant, e, now);
            && Tables(db') && Grows(db, db') && IsEntity(db', id, tenant, e)
            && db'.alertLinks == db.alertLinks
  {
    hide EntityBelow, LinkInTenant;
    var (db', id) := WithEntity(db, tenant, e, now);
    if EntityBelow(db, tenant, e, db.nextEntity).None? {
      forall x | x in db.entities
        ensures var row := db.entities[x]; !(row.tenant == tenant && row.kind == e.kind && row.value == e.value)
      {
        assert !IsEntity(db, x, tenant, e);
      }
    }
    forall l | l in db'.incidentLinks ensures LinkInTenant(db', l) {
      LinkStaysInTenant(db, db', l);
    }
  }

  lemma LinkStaysInTenant(db: Db, db': Db, l: (IncidentId, EntityId))
    requires LinkInTenant(db, l) && Grows(db, db')
    ensures LinkInTenant(db', l)
  {
    assert SameEntity(db.entities[l.1], db'.entities[l.1]);
  }

  /** The alert's own links. */
  function LinksOf(a: Alert, es: seq<Extracted>, ids: seq<EntityId>): set<AlertLink>
    requires |es| == |ids|
  {
    set k | 0 <= k < |ids| :: AlertLink(a.id, ids[k], es[k].role)
  }

  ghost predicate AreEntities(db: Db, ids: seq<EntityId>, tenant: Tenant, es: seq<Extracted>) {
    |ids| == |es| && forall k :: 0 <= k < |ids| ==> IsEntity(db, ids[k], tenant, es[k])
  }

  lemma {:induction false} AlertLinkSteps(db: Db, a: Alert, tenant: Tenant, es: seq<Extracted>, now: int)
    requires Tables(db)
    ensures var (linked, ids) := WithAlertLinks(db, a, tenant, es, now);
            && Tables(linked) && Grows(db, linked) && AreEntities(linked, ids, tenant, es)
            && linked.alertLinks == db.alertLinks + LinksOf(a, es, ids)
  {
    hide WithAlertLink, Tables;
    if es != [] {
      hide Grows, AreEntities, LinksOf;
      var (rest, e) := (es[..|es|-1], es[|es|-1]);
      AlertLinkSteps(db, a, tenant, rest, now);
      var (before, ids) := WithAlertLinks(db, a, tenant, rest, now);
      LinkOneMore(db, before, a, tenant, rest, ids, e, now);
      assert es == rest + [e];
    }
  }

  lemma LinkOneMore(db: Db, before: Db, a: Alert, tenant: Tenant, es: seq<Extracted>, ids: seq<EntityId>, e: Extracted,
                    now: int)
    requires Tables(before) && Grows(db, before) && AreEntities(before, ids, tenant, es)
    requires before.alertLinks == db.alertLinks + LinksOf(a, es, ids)
    ensures var (after, id) := WithAlertLink(before, a, tenant, e, now);
            && Tables(after) && Grows(db, after) && AreEntities(after, ids + [id], tenant, es + [e])
            && after.alertLinks == db.alertLinks + LinksOf(a, es + [e], ids + [id])
  {
    SameLength(before, ids, tenant, es);
    hide WithEntity, Tables, Grows, IsEntity, AreEntities, LinksOf;
    var (found, id) := WithEntity(before, tenant, e, now);
    EntityStep(before, tenant, e, now);
    LinkedAlert(before, found, a, tenant, e, id);
    EntitiesAppend(db, before, WithAlertLink(before, a, tenant, e, now).0, tenant, es, ids, e, id);
    LinksAppend(a, es, ids, e, id);
  }

  /** Linking some entities sees their rows, and no others. */
  ghost predicate Touched(db: Db, db': Db, ids: seq<EntityId>, now: int) {
    forall id: EntityId ::
      && (id in db'.entities <==> id in db.entities || id in ids)
      && (id in db'.entities ==>
            var row := db'.entities[id];
            if id in ids
            then row.lastSeen == now && row.firstSeen == if id in db.entities then db.entities[id].firstSeen else now
            else row == db.entities[id])
  }

  lemma TouchOne(db: Db, tenant: Tenant, e: Extracted, now: int)
    requires Tables(db)
    ensures var (db', id) := WithEntity(db, tenant, e, now); Touched(db, db', [id], now)
  {
    hide EntityBelow;
  }

  lemma TouchMore(db: Db, before: Db, after: Db, ids: seq<EntityId>, id: EntityId, now: int)
    requires Touched(db, before, ids, now) && Touched(before, after, [id], now)
    ensures Touched(db, after, ids + [id], now)
  {
  }

  lemma {:induction false} LinkingTouches(db: Db, a: Alert, tenant: Tenant, es: seq<Extracted>, now: int)
    requires Tables(db)
    ensures var (linked, ids) := WithAlertLinks(db, a, tenant, es, now); Touched(db, linked, ids, now)
  {
    if es != [] {
      hide Touched, Tables, WithEntity;
      var (rest, e) := (es[..|es|-1], es[|es|-1]);
      LinkingTouches(db, a, tenant, rest, now);
      var (before, ids) := WithAlertLinks(db, a, tenant, rest, now);
      AlertLinkSteps(db, a, tenant, rest, now);
      TouchOne(before, tenant, e, now);
      var (found, id) := WithEntity(before, tenant, e, now);
      TouchMore(db, before, found, ids, id, now);
      SameEntities(db, found, WithAlertLinks(db, a, tenant, es, now).0, ids + [id], now);
    }
  }

  lemma SameEntities(db: Db, x: Db, y: Db, ids: seq<EntityId>, now: int)
    requires Touched(db, x, ids, now) && y.entities == x.entities
    ensures Touched(db, y, ids, now)
  {
  }

  lemma SameLength(db: Db, ids: seq<EntityId>, tenant: Tenant, es: seq<Extracted>)
    requires AreEntities(db, ids, tenant, es)
    ensures |ids| == |es|
  {
  }

  lemma LinkedAlert(before: Db, found: Db, a: Alert, tenant: Tenant, e: Extracted, id: EntityId)
    requires Tables(found) && Grows(before, found) && IsEntity(found, id, tenant, e)
    ensures var linked := found.(alertLinks := found.alertLinks + {AlertLink(a.id, id, e.role)});
            Tables(linked) && Grows(before, linked) && IsEntity(linked, id, tenant, e)
  {
  }

  lemma EntitiesAppend(db: Db, before: Db, after: Db, tenant: Tenant, es: seq<Extracted>, ids: seq<EntityId>,
                       e: Extracted, id: EntityId)
    requires Grows(db, before) && Grows(before, after)
    requires AreEntities(before, ids, tenant, es) && IsEntity(after, id, tenant, e)
    ensures Grows(db, after) && AreEntities(after, ids + [id], tenant, es + [e])
  {
    forall k | 0 <= k < |ids| ensures IsEntity(after, ids[k], tenant, es[k]) {
      assert IsEntity(before, ids[k], tenant, es[k]);
    }
  }

  lemma LinksAppend(a: Alert, es: seq<Extracted>, ids: seq<EntityId>, e: Extracted, id: EntityId)
    requires |es| == |ids|
    ensures LinksOf(a, es + [e], ids + [id]) == LinksOf(a, es, ids) + {AlertLink(a.id, id, e.role)}
  {
    var (es', ids') := (es + [e], ids + [id]);
    forall l | l in LinksOf(a, es, ids) ensures l in LinksOf(a, es', ids') {
      var k :| 0 <= k < |ids| && l == AlertLink(a.id, ids[k], es[k].role);
      assert ids'[k] == ids[k] && es'[k] == es[k];
    }
    assert ids'[|ids|] == id && es'[|ids|] == e;
    forall l | l in LinksOf(a, es', ids') ensures l in LinksOf(a, es, ids) + {AlertLink(a.id, id, e.role)} {
      var k :| 0 <= k < |ids'| && l == AlertLink(a.id, ids'[k], es'[k].role);
    }
  }

  /** Distinct entities have distinct rows, so an incident link is never
      inserted twice in one call. */
  lemma DistinctIds(db: Db, ids: seq<EntityId>, tenant: Tenant, es: seq<Extracted>)
    requires AreEntities(db, ids, tenant, es) && AllDistinct(es)
    ensures NoRepeats(ids)
  {
    forall j, k | 0 <= j < k < |ids| ensures ids[j] != ids[k] {
      assert IsEntity(db, ids[j], tenant, es[j]) && IsEntity(db, ids[k], tenant, es[k]);
    }
  }

  lemma NoEntitiesNoIncumbent(db: Db, now: int)
    ensures Incumbent(db, [], now, None)
  {
  }

  lemma IncumbentExists(db: Db, ids: seq<EntityId>, now: int, r: Option<IncidentId>)
    requires Incumbent(db, ids, now, r)
    ensures r.Some? ==> r.value in db.incidents
  {
  }

  // ---- Attaching an alert ---------------------------------------------------------

  /** What both ways of attaching a stitched alert do to the tables. */
  ghost predicate Attached(db: Db, db': Db, e: Event) {
    && e.Join?
    && db'.alerts == db.alerts && db'.entities == db.entities && db'.nextEntity == db.nextEntity
    && db'.alertLinks == db.alertLinks
    && db'.incidentLinks == db.incidentLinks + LinksTo(e.incident, e.ids)
    && db'.incidents.Keys == db.incidents.Keys + {e.incident}
    && db'.nextIncident == (if e.created then db.nextIncident + 1 else db.nextIncident)
    && (forall j :: j in db.incidents && j != e.incident ==> db'.incidents[j] == db.incidents[j])
    && if e.created then e.incident == db.nextIncident && NewRow(db'.incidents[e.incident], e) &&
        DomainsFrom(db', e, {DomainOf(e.alert)})
       else e.incident in db.incidents && GainedRow(db.incidents[e.incident], db'.incidents[e.incident], e)
            && DomainsFrom(db', e, db.incidents[e.incident].sourceDomains)
  }

  predicate NewRow(row: Incident, e: Event)
    requires e.Join?
  {
    && row.tenant == Some(e.tenant) && row.about == StitchedAbout(e.alert)
    && row.alertCount == 1 && row.status == "open" && row.firstAlertAt == row.lastAlertAt == e.at
    && (row.crossDomain <==> |row.sourceDomains| > 1)
  }

  predicate GainedRow(before: Incident, row: Incident, e: Event)
    requires e.Join?
  {
    && before.tenant == row.tenant == Some(e.tenant) && row.about == before.about
    && before.status == row.status == "open"
    && before.firstAlertAt == row.firstAlertAt >= e.at - LOOKBACK
    && row.alertCount == before.alertCount + 1 && row.lastAlertAt == e.at
    && (row.crossDomain <==> |row.sourceDomains| > 1)
    && e.ids != []
  }

  predicate DomainsFrom(db: Db, e: Event, base: set<string>)
    requires e.Join? && e.incident in db.incidents
  {
    db.incidents[e.incident].sourceDomains == base + (if e.ids == [] then {} else LinkedDomains(db, e.incident))
  }

  /** The incumbent has the tenant of the alert: the lookup has no tenant
      filter, but reaches incidents only through links, and those stay within
      one tenant. */
  lemma IncumbentInTenant(db: Db, ids: seq<EntityId>, tenant: Tenant, es: seq<Extracted>, now: int, i: IncidentId)
    requires Tables(db) && AreEntities(db, ids, tenant, es)
    requires Candidate(db, ids, now, i)
    ensures db.incidents[i].tenant == Some(tenant)
  {
    var k :| 0 <= k < |ids| && (i, ids[k]) in db.incidentLinks;
    assert LinkInTenant(db, (i, ids[k])) && IsEntity(db, ids[k], tenant, es[k]);
  }

  lemma DomainsIgnoreRows(db: Db, db': Db, i: IncidentId)
    requires db'.alerts == db.alerts && db'.alertLinks == db.alertLinks && db'.incidentLinks == db.incidentLinks
    ensures LinkedDomains(db', i) == LinkedDomains(db, i)
  {
    hide DomainOf;
  }

  lemma JoinedAttaches(db: Db, a: Alert, tenant: Tenant, es: seq<Extracted>, ids: seq<EntityId>, now: int,
                       i: IncidentId)
    requires Tables(db) && AreEntities(db, ids, tenant, es)
    requires Candidate(db, ids, now, i)
    ensures Attached(db, Joined(db, i, ids, now), Join(a, tenant, now, i, ids, false))
  {
    hide Tables, AreEntities, LinkedDomains, DomainOf;
    IncumbentInTenant(db, ids, tenant, es, now, i);
    var row := db.incidents[i];
    var counted := db.(incidents := db.incidents[i := row.(alertCount := row.alertCount + 1, lastAlertAt := now)]);
    DomainsIgnoreRows(WithIncidentLinks(counted, i, ids), Joined(db, i, ids, now), i);
  }

  lemma CreatedAttaches(db: Db, a: Alert, tenant: Tenant, ids: seq<EntityId>, now: int)
    requires Tables(db)
    ensures Attached(db, Created(db, a, tenant, ids, now), Join(a, tenant, now, db.nextIncident, ids, true))
  {
    hide Tables, LinkedDomains, DomainOf, StitchedAbout;
    var created := WithIncident(db, Opened(a, tenant, now));
    if ids == [] {
      assert db.incidentLinks + LinksTo(db.nextIncident, ids) == db.incidentLinks;
      assert created.incidents[db.nextIncident].sourceDomains == {DomainOf(a)} + {};
      assert |{DomainOf(a)}| == 1;
    } else {
      DomainsIgnoreRows(WithIncidentLinks(created, db.nextIncident, ids), Created(db, a, tenant, ids, now),
          db.nextIncident);
    }
  }

  lemma CountAppend(log: seq<Event>, e: Event, i: IncidentId)
    ensures CountOf(log + [e], i) == CountOf(log, i) + (if !e.SetTo? && e.incident == i then 1 else 0)
    ensures StatusOf(log + [e], i) == if e.SetTo? && e.incident == i then e.status else StatusOf(log, i)
    ensures FirstAt(log + [e], i) ==
            if FirstAt(log, i).None? && !e.SetTo? && e.incident == i then Some(e.at) else FirstAt(log, i)
    ensures LastAt(log + [e], i) == if !e.SetTo? && e.incident == i then Some(e.at) else LastAt(log, i)
  {
    assert (log + [e])[..|log|] == log;
  }

  lemma SeenAppend(log: seq<Event>, e: Event, id: EntityId)
    ensures FirstSeenAt(log + [e], id) ==
            if FirstSeenAt(log, id).None? && e.Join? && id in e.ids then Some(e.at) else FirstSeenAt(log, id)
    ensures LastSeenAt(log + [e], id) == if e.Join? && id in e.ids then Some(e.at) else LastSeenAt(log, id)
  {
    assert (log + [e])[..|log|] == log;
  }

  lemma {:induction false} AttachKeepsSeen(db: Db, linked: Db, db': Db, log: seq<Event>, e: Event)
    requires e.Join? && SeenRecorded(db, log) && Touched(db, linked, e.ids, e.at) && db'.entities == linked.entities
    ensures SeenRecorded(db', log + [e])
  {
    forall id: EntityId {
      SeenAppend(log, e, id);
    }
  }

  lemma {:induction false} OthersKeepSeen(db: Db, db': Db, log: seq<Event>, e: Event)
    requires !e.Join? && SeenRecorded(db, log) && db'.entities == db.entities
    ensures SeenRecorded(db', log + [e])
  {
    forall id: EntityId {
      SeenAppend(log, e, id);
    }
  }

  lemma SharesAppend(log: seq<Event>, e: Event, i: IncidentId, id: EntityId)
    ensures SharesEntity(log + [e], i, id) <==> SharesEntity(log, i, id) || (e.Join? && e.incident == i && id in e.ids)
  {
    var log' := log + [e];
    if SharesEntity(log, i, id) {
      var k :| 0 <= k < |log| && log[k].Join? && log[k].incident == i && id in log[k].ids;
      assert log'[k] == log[k];
    }
    assert log'[|log|] == e;
  }

  lemma DomainSeenAppend(log: seq<Event>, e: Event, tenant: Option<Tenant>, d: string)
    ensures DomainSeen(log + [e], tenant, d) <==>
            DomainSeen(log, tenant, d) || (e.Join? && Some(e.tenant) == tenant && DomainOf(e.alert) == d)
  {
    var log' := log + [e];
    if DomainSeen(log, tenant, d) {
      var k :| 0 <= k < |log| && log[k].Join? && Some(log[k].tenant) == tenant && DomainOf(log[k].alert) == d;
      assert log'[k] == log[k];
    }
    assert log'[|log|] == e;
  }

  lemma WindowAppend(log: seq<Event>, e: Event)
    requires GainsInWindow(log)
    requires e.Join? && !e.created ==>
               && StatusOf(log, e.incident) == "open"
               && FirstAt(log, e.incident).Some?
               && e.at - FirstAt(log, e.incident).value <= LOOKBACK
    ensures GainsInWindow(log + [e])
  {
    var log' := log + [e];
    forall k | 0 <= k < |log'| && log'[k].Join? && !log'[k].created
      ensures && StatusOf(log'[..k], log'[k].incident) == "open"
              && FirstAt(log'[..k], log'[k].incident).Some?
              && log'[k].at - FirstAt(log'[..k], log'[k].incident).value <= LOOKBACK
    {
      if k < |log| {
        assert log'[..k] == log[..k];
      } else {
        assert log'[..k] == log;
      }
    }
  }

  lemma AttachKeepsTables(db: Db, db': Db, e: Event)
    requires Tables(db) && Attached(db, db', e)
    requires forall k :: 0 <= k < |e.ids| ==> e.ids[k] in db.entities && db.entities[e.ids[k]].tenant == e.tenant
    ensures Tables(db')
  {
    hide LinkedDomains, DomainOf;
    forall l | l in db'.incidentLinks ensures LinkInTenant(db', l) {
      if l in db.incidentLinks {
        assert LinkInTenant(db, l);
      }
    }
  }

  lemma AttachKeepsRows(db: Db, db': Db, log: seq<Event>, e: Event)
    requires Tables(db) && RowsRecorded(db, log) && Attached(db, db', e)
    ensures RowsRecorded(db', log + [e])
  {
    hide CountOf, StatusOf, FirstAt, LastAt, LinkedDomains, DomainOf;
    forall i: IncidentId {
      CountAppend(log, e, i);
    }
  }

  lemma AttachKeepsLinks(db: Db, db': Db, log: seq<Event>, e: Event)
    requires LinksRecorded(db, log) && Attached(db, db', e)
    ensures LinksRecorded(db', log + [e])
  {
    forall i: IncidentId, id: EntityId ensures (i, id) in db'.incidentLinks <==> SharesEntity(log + [e], i, id) {
      SharesAppend(log, e, i, id);
      if e.incident == i && id in e.ids {
        var k :| 0 <= k < |e.ids| && e.ids[k] == id;
        assert (e.incident, e.ids[k]) in db'.incidentLinks;
      }
    }
  }

  lemma NextIsNew(db: Db)
    requires Tables(db)
    ensures db.nextIncident !in db.incidents
  {
  }

  lemma NewDomainShows(db: Db, db': Db, e: Event)
    requires Attached(db, db', e)
    requires e.alert.id in db.alerts && db.alerts[e.alert.id] == e.alert
    requires e.ids != [] ==> exists l :: l in db.alertLinks && l.alert == e.alert.id && l.entity == e.ids[0]
    ensures e.ids != [] && e.alert.sourceType.Some? ==> DomainOf(e.alert) in LinkedDomains(db', e.incident)
  {
    hide DomainOf, NewRow, GainedRow, DomainsFrom;
    if e.ids != [] {
      var l :| l in db.alertLinks && l.alert == e.alert.id && l.entity == e.ids[0];
      assert (e.incident, e.ids[0]) in db'.incidentLinks;
    }
  }

  /** Domains never leave an incident, and the new alert's domain is there. */
  lemma AttachKeepsJoins(db: Db, db': Db, log: seq<Event>, e: Event)
    requires Tables(db) && JoinsRecorded(db, log) && Attached(db, db', e)
    requires e.alert.id in db.alerts && db.alerts[e.alert.id] == e.alert
    requires AreEntities(db, e.ids, e.tenant, Distinct(Mentions(e.alert)))
    requires e.ids != [] ==> exists l :: l in db.alertLinks && l.alert == e.alert.id && l.entity == e.ids[0]
    requires RolesLinked(db, e)
    ensures JoinsRecorded(db', log + [e])
  {
    hide LinkedDomains, DomainOf, Tables, Distinct, Mentions, StitchedAbout, AreEntities, RolesLinked;
    NextIsNew(db);
    var log' := log + [e];
    NewDomainShows(db, db', e);
    forall k | 0 <= k < |log'| && log'[k].Join? ensures JoinRecorded(db', log'[k]) {
      SameRows(db, db', log'[k].ids, log'[k].tenant, Distinct(Mentions(log'[k].alert)));
      RolesStay(db, db', log'[k]);
      if k < |log| {
        assert log'[k] == log[k] && JoinRecorded(db, log[k]);
      }
    }
  }

  lemma RolesStay(db: Db, db': Db, e: Event)
    requires e.Join? && db.alertLinks <= db'.alertLinks
    ensures RolesLinked(db, e) ==> RolesLinked(db', e)
  {
    hide Distinct, Mentions;
  }

  lemma SameRows(db: Db, db': Db, ids: seq<EntityId>, tenant: Tenant, es: seq<Extracted>)
    requires db'.entities == db.entities
    ensures AreEntities(db, ids, tenant, es) <==> AreEntities(db', ids, tenant, es)
  {
  }

  lemma GrownRows(db: Db, db': Db, ids: seq<EntityId>, tenant: Tenant, es: seq<Extracted>)
    requires Grows(db, db') && AreEntities(db, ids, tenant, es)
    ensures AreEntities(db', ids, tenant, es)
  {
    forall k | 0 <= k < |ids| ensures IsEntity(db', ids[k], tenant, es[k]) {
      assert IsEntity(db, ids[k], tenant, es[k]);
    }
  }

  /** Every domain an incident shows comes from an alert of its own tenant. */
  lemma AttachKeepsDomains(db: Db, db': Db, log: seq<Event>, e: Event)
    requires Tables(db) && DomainsRecorded(db, log) && Attached(db, db', e)
    requires JoinsRecorded(db', log + [e]) && AlertLinksRecorded(db', log + [e])
    requires Tables(db')
    ensures DomainsRecorded(db', log + [e])
  {
    var log' := log + [e];
    forall i, d | i in db'.incidents && d in db'.incidents[i].sourceDomains
      ensures DomainSeen(log', db'.incidents[i].tenant, d)
    {
      if i in db.incidents && d in db.incidents[i].sourceDomains {
        assert db'.incidents[i].tenant == db.incidents[i].tenant;
        DomainSeenAppend(log, e, db.incidents[i].tenant, d);
      } else if i == e.incident {
        DomainSeenAppend(log, e, Some(e.tenant), d);
        if d in LinkedDomains(db', i) {
          LinkedDomainsInTenant(db', log', i, d);
        }
      }
    }
  }

  lemma LinkedDomainsInTenant(db: Db, log: seq<Event>, i: IncidentId, d: string)
    requires Tables(db) && JoinsRecorded(db, log) && AlertLinksRecorded(db, log)
    requires d in LinkedDomains(db, i)
    ensures i in db.incidents && DomainSeen(log, db.incidents[i].tenant, d)
  {
    var l :| l in db.alertLinks && (i, l.entity) in db.incidentLinks && l.alert in db.alerts &&
        DomainOf(db.alerts[l.alert]) == d;
    assert LinkInTenant(db, (i, l.entity));
    assert AlertLinkRecorded(db, log, l);
    var k :| 0 <= k < |log| && log[k].Join? && log[k].alert.id == l.alert
             && l.entity in db.entities && db.entities[l.entity].tenant == log[k].tenant;
    assert JoinRecorded(db, log[k]);
  }

  /** Linking an alert to its entities, with the row that will record it. */
  lemma AlertLinksStayRecorded(db: Db, linked: Db, db': Db, log: seq<Event>, e: Event, es: seq<Extracted>)
    requires AlertLinksRecorded(db, log) && Grows(db, linked) && Attached(linked, db', e)
    requires |es| == |e.ids| && linked.alertLinks == db.alertLinks + LinksOf(e.alert, es, e.ids)
    requires AreEntities(linked, e.ids, e.tenant, es)
    ensures AlertLinksRecorded(db', log + [e])
  {
    var log' := log + [e];
    forall l | l in db'.alertLinks ensures AlertLinkRecorded(db', log', l) {
      if l in db.alertLinks {
        assert AlertLinkRecorded(db, log, l);
        var k :| 0 <= k < |log| && log[k].Join? && log[k].alert.id == l.alert
                 && l.entity in db.entities && db.entities[l.entity].tenant == log[k].tenant;
        assert log'[k] == log[k] && SameEntity(db.entities[l.entity], linked.entities[l.entity]);
      } else {
        var k :| 0 <= k < |e.ids| && l == AlertLink(e.alert.id, e.ids[k], es[k].role);
        assert IsEntity(linked, e.ids[k], e.tenant, es[k]);
        assert log'[|log|] == e;
      }
    }
  }

  lemma GrowthKeepsRecords(db: Db, linked: Db, log: seq<Event>)
    requires Grows(db, linked) && db.alertLinks <= linked.alertLinks
    ensures RowsRecorded(db, log) ==> RowsRecorded(linked, log)
    ensures LinksRecorded(db, log) ==> LinksRecorded(linked, log)
    ensures JoinsRecorded(db, log) ==> JoinsRecorded(linked, log)
    ensures DomainsRecorded(db, log) ==> DomainsRecorded(linked, log)
  {
    if JoinsRecorded(db, log) {
      hide Distinct, Mentions, StitchedAbout, AreEntities, DomainOf, RolesLinked;
      forall k | 0 <= k < |log| && log[k].Join? ensures JoinRecorded(linked, log[k]) {
        assert JoinRecorded(db, log[k]);
        RolesStay(db, linked, log[k]);
        GrownRows(db, linked, log[k].ids, log[k].tenant, Distinct(Mentions(log[k].alert)));
      }
    }
  }

  lemma AttachKeepsConsistency(db: Db, linked: Db, db': Db, log: seq<Event>, e: Event, es: seq<Extracted>)
    requires Consistent(db, log)
    requires Tables(linked) && Grows(db, linked) && e.Join? && AreEntities(linked, e.ids, e.tenant, es)
    requires linked.alertLinks == db.alertLinks + LinksOf(e.alert, es, e.ids)
    requires Attached(linked, db', e) && es == Distinct(Mentions(e.alert)) && Touched(db, linked, e.ids, e.at)
    requires e.alert.id in db.alerts && db.alerts[e.alert.id] == e.alert
    ensures Consistent(db', log + [e])
  {
    hide Tables, RowsRecorded, LinksRecorded, JoinsRecorded, DomainsRecorded, AlertLinksRecorded, GainsInWindow;
    hide Attached, Distinct, Mentions, SeenRecorded, Touched;
    GrowthKeepsRecords(db, linked, log);
    EntitiesInTenant(linked, e.ids, e.tenant, es);
    FirstLink(linked, e, es);
    AttachKeepsTables(linked, db', e);
    AttachKeepsRows(linked, db', log, e);
    AttachKeepsLinks(linked, db', log, e);
    AttachedAlerts(linked, db', e);
    AttachKeepsSeen(db, linked, db', log, e);
    RolesAreLinked(linked, e, es);
    AttachKeepsJoins(linked, db', log, e);
    AlertLinksStayRecorded(db, linked, db', log, e, es);
    AttachKeepsDomains(linked, db', log, e);
    AttachInWindow(linked, db', log, e);
    WindowAppend(log, e);
  }

  lemma RolesAreLinked(db: Db, e: Event, es: seq<Extracted>)
    requires e.Join? && es == Distinct(Mentions(e.alert)) && |es| == |e.ids|
    requires LinksOf(e.alert, es, e.ids) <= db.alertLinks
    ensures RolesLinked(db, e)
  {
    hide Distinct, Mentions;
    forall m | 0 <= m < |es| ensures AlertLink(e.alert.id, e.ids[m], es[m].role) in db.alertLinks {
      assert AlertLink(e.alert.id, e.ids[m], es[m].role) in LinksOf(e.alert, es, e.ids);
    }
  }

  lemma AttachedAlerts(db: Db, db': Db, e: Event)
    requires Attached(db, db', e)
    ensures db'.alerts == db.alerts && db'.entities == db.entities && e.Join?
  {
  }

  lemma EntitiesInTenant(db: Db, ids: seq<EntityId>, tenant: Tenant, es: seq<Extracted>)
    requires AreEntities(db, ids, tenant, es)
    ensures forall k :: 0 <= k < |ids| ==> ids[k] in db.entities && db.entities[ids[k]].tenant == tenant
  {
    forall k | 0 <= k < |ids| ensures ids[k] in db.entities && db.entities[ids[k]].tenant == tenant {
      assert IsEntity(db, ids[k], tenant, es[k]);
    }
  }

  lemma FirstLink(db: Db, e: Event, es: seq<Extracted>)
    requires e.Join? && |es| == |e.ids| && LinksOf(e.alert, es, e.ids) <= db.alertLinks
    ensures e.ids != [] ==> exists l :: l in db.alertLinks && l.alert == e.alert.id && l.entity == e.ids[0]
  {
    if e.ids != [] {
      assert AlertLink(e.alert.id, e.ids[0], es[0].role) in LinksOf(e.alert, es, e.ids);
    }
  }

  lemma AttachInWindow(db: Db, db': Db, log: seq<Event>, e: Event)
    requires RowsRecorded(db, log) && Attached(db, db', e)
    ensures !e.created ==>
              && StatusOf(log, e.incident) == "open"
              && FirstAt(log, e.incident).Some?
              && e.at - FirstAt(log, e.incident).value <= LOOKBACK
  {
  }

  /** Main result: every stitch keeps the invariant, whichever of the latest
      candidates the lookup answers with. */
  lemma StitchKeepsConsistency(db: Db, log: seq<Event>, a: Alert, tenant: Tenant, now: int, r: Option<IncidentId>)
    requires Consistent(db, log)
    requires a.id in db.alerts && db.alerts[a.id] == a
    requires Answers(db, a, tenant, now, r)
    ensures Consistent(Stitched(db, a, tenant, now, r).0, log + [StitchEvent(db, a, tenant, now, r)])
  {
    hide Consistent, Attached, Tables, Grows, AreEntities, WithAlertLinks, Joined, Created, Candidate, Touched;
    var es := Distinct(Mentions(a));
    var (linked, ids) := Linked(db, a, tenant, now);
    TablesOf(db, log);
    AlertLinkSteps(db, a, tenant, es, now);
    LinkingTouches(db, a, tenant, es, now);
    var e := StitchEvent(db, a, tenant, now, r);
    if r.Some? {
      JoinedAttaches(linked, a, tenant, es, ids, now, r.value);
    } else {
      CreatedAttaches(linked, a, tenant, ids, now);
    }
    AttachKeepsConsistency(db, linked, Stitched(db, a, tenant, now, r).0, log, e, es);
  }

  lemma AddAlertKeepsConsistency(db: Db, log: seq<Event>, a: Alert)
    requires Consistent(db, log) && a.id !in db.alerts
    ensures Consistent(db.(alerts := db.alerts[a.id := a]), log)
  {
    var db' := db.(alerts := db.alerts[a.id := a]);
    RowsIgnoreAlerts(db, db', log);
    JoinsStayRecorded(db, db', log);
    hide Tables, RowsRecorded, SeenRecorded, LinksRecorded, JoinsRecorded, DomainsRecorded, GainsInWindow;
    forall l | l in db'.alertLinks ensures AlertLinkRecorded(db', log, l) {
      assert AlertLinkRecorded(db, log, l);
    }
  }

  lemma RowsIgnoreAlerts(db: Db, db': Db, log: seq<Event>)
    requires db' == db.(alerts := db'.alerts)
    ensures Tables(db) ==> Tables(db')
    ensures RowsRecorded(db, log) ==> RowsRecorded(db', log)
    ensures SeenRecorded(db, log) ==> SeenRecorded(db', log)
    ensures LinksRecorded(db, log) ==> LinksRecorded(db', log)
    ensures DomainsRecorded(db, log) ==> DomainsRecorded(db', log)
  {
    hide CountOf, StatusOf, FirstAt, LastAt, SharesEntity, DomainSeen, FirstSeenAt, LastSeenAt;
  }

  /** More alerts and incidents leave the stitches recorded. */
  lemma JoinsStayRecorded(db: Db, db': Db, log: seq<Event>)
    requires JoinsRecorded(db, log) && db'.entities == db.entities && db.alertLinks <= db'.alertLinks
    requires forall id :: id in db.alerts ==> id in db'.alerts && db'.alerts[id] == db.alerts[id]
    requires forall i :: i in db.incidents ==>
               && i in db'.incidents && db'.incidents[i].tenant == db.incidents[i].tenant
               && db'.incidents[i].about == db.incidents[i].about
               && db'.incidents[i].sourceDomains == db.incidents[i].sourceDomains
    ensures JoinsRecorded(db', log)
  {
    hide Distinct, Mentions, StitchedAbout, AreEntities, DomainOf, RolesLinked;
    forall k | 0 <= k < |log| && log[k].Join? ensures JoinRecorded(db', log[k]) {
      assert JoinRecorded(db, log[k]);
      RolesStay(db, db', log[k]);
      SameRows(db, db', log[k].ids, log[k].tenant, Distinct(Mentions(log[k].alert)));
    }
  }

  /** An event that stitches nothing adds no links and no domains. */
  lemma OtherEventsAppend(db: Db, log: seq<Event>, e: Event)
    requires Consistent(db, log) && !e.Join?
    ensures LinksRecorded(db, log + [e]) && DomainsRecorded(db, log + [e]) && AlertLinksRecorded(db, log + [e])
    ensures JoinsRecorded(db, log + [e]) && GainsInWindow(log + [e])
  {
    var log' := log + [e];
    forall i: IncidentId, id: EntityId { SharesAppend(log, e, i, id); }
    forall tenant, d { DomainSeenAppend(log, e, tenant, d); }
    forall l | l in db.alertLinks ensures AlertLinkRecorded(db, log', l) {
      assert AlertLinkRecorded(db, log, l);
      var k :| 0 <= k < |log| && log[k].Join? && log[k].alert.id == l.alert
               && l.entity in db.entities && db.entities[l.entity].tenant == log[k].tenant;
      assert log'[k] == log[k];
    }
    WindowAppend(log, e);
  }

  lemma SingleKeepsConsistency(db: Db, log: seq<Event>, a: Alert, tenant: Option<Tenant>, now: int)
    requires Consistent(db, log)
    ensures Consistent(Singled(db, a, tenant, now), log + [Single(tenant, TimeOf(a, now), db.nextIncident)])
  {
    hide SingleAbout, TimeOf;
    hide LinksRecorded, JoinsRecorded, DomainsRecorded, AlertLinksRecorded, GainsInWindow, CountOf, StatusOf, FirstAt;
    hide LastAt;
    var (db', e) := (Singled(db, a, tenant, now), Single(tenant, TimeOf(a, now), db.nextIncident));
    hide SeenRecorded;
    OthersKeepSeen(db, db', log, e);
    OtherEventsAppend(db, log, e);
    forall i: IncidentId { CountAppend(log, e, i); }
    assert RowsRecorded(db', log + [e]);
    RowsOnly(db, db', log + [e]);
  }

  lemma StatusKeepsConsistency(db: Db, log: seq<Event>, i: IncidentId, status: string)
    requires Consistent(db, log) && i in db.incidents
    ensures Consistent(WithStatus(db, i, status), log + [SetTo(i, status)])
  {
    hide LinksRecorded, JoinsRecorded, DomainsRecorded, AlertLinksRecorded, GainsInWindow, CountOf, StatusOf, FirstAt;
    hide LastAt, SeenRecorded;
    var (db', e) := (WithStatus(db, i, status), SetTo(i, status));
    OthersKeepSeen(db, db', log, e);
    OtherEventsAppend(db, log, e);
    forall j: IncidentId { CountAppend(log, e, j); }
    assert RowsRecorded(db', log + [e]);
    RowsOnly(db, db', log + [e]);
  }

  /** Adding an incident without domains, or changing nothing but counts and
      status, keeps everything that does not speak of those. */
  lemma RowsOnly(db: Db, db': Db, log: seq<Event>)
    requires Tables(db) && LinksRecorded(db, log) && DomainsRecorded(db, log) && JoinsRecorded(db, log) &&
              AlertLinksRecorded(db, log)
    requires db'.alerts == db.alerts && db'.entities == db.entities && db'.nextEntity == db.nextEntity
    requires db'.alertLinks == db.alertLinks && db'.incidentLinks == db.incidentLinks
    requires db.incidents.Keys <= db'.incidents.Keys
    requires forall i: IncidentId :: i in db'.incidents <==> i < db'.nextIncident
    requires forall i :: i in db.incidents ==>
               && db'.incidents[i].tenant == db.incidents[i].tenant && db'.incidents[i].about == db.incidents[i].about
               && db'.incidents[i].sourceDomains == db.incidents[i].sourceDomains
               && db'.incidents[i].crossDomain == db.incidents[i].crossDomain
    requires forall i :: i in db'.incidents && i !in db.incidents ==>
               db'.incidents[i].sourceDomains == {} && !db'.incidents[i].crossDomain
    ensures Tables(db') && LinksRecorded(db', log) && DomainsRecorded(db', log) && JoinsRecorded(db', log) &&
              AlertLinksRecorded(db', log)
  {
    forall l | l in db'.incidentLinks ensures LinkInTenant(db', l) {
      assert LinkInTenant(db, l);
    }
    JoinsStayRecorded(db, db', log);
    forall l | l in db'.alertLinks ensures AlertLinkRecorded(db', log, l) {
      assert AlertLinkRecorded(db, log, l);
    }
  }

  lemma TablesOf(db: Db, log: seq<Event>)
    requires Consistent(db, log)
    ensures Tables(db)
  {
  }

  // ---- What follows of every run ----------------------------------------------------

  /** Tenant isolation, although the incident lookup never mentions a tenant:
      alerts in one incident have one tenant, and so do the entities linked to
      it and every domain it shows. */
  lemma TenantsStayApart(db: Db, log: seq<Event>, j: nat, k: nat, id: EntityId, d: string)
    requires Consistent(db, log)
    requires j < |log| && k < |log| && log[j].Join? && log[k].Join? && log[j].incident == log[k].incident
    ensures log[j].tenant == log[k].tenant
    ensures (log[j].incident, id) in db.incidentLinks ==> id in db.entities && db.entities[id].tenant == log[j].tenant
    ensures log[j].incident in db.incidents
    ensures d in db.incidents[log[j].incident].sourceDomains ==>
              exists m :: 0 <= m < |log| && log[m].Join? && log[m].tenant == log[j].tenant
                          && (log[m].alert.sourceType == Some(d)
                              || (log[m].alert.sourceType in {None, Some("")} && d == "endpoint"))
  {
    hide DomainOf, AreEntities, Distinct, Mentions, StitchedAbout, RowsRecorded, SeenRecorded, LinksRecorded;
    assert JoinRecorded(db, log[j]) && JoinRecorded(db, log[k]);
    if (log[j].incident, id) in db.incidentLinks {
      assert LinkInTenant(db, (log[j].incident, id));
    }
    var i := log[j].incident;
    if d in db.incidents[i].sourceDomains {
      assert DomainSeen(log, db.incidents[i].tenant, d);
      var m :| 0 <= m < |log| && log[m].Join? && Some(log[m].tenant) == Some(log[j].tenant) &&
          DomainOf(log[m].alert) == d;
      DomainIsSource(log[m].alert);
    }
  }

  lemma DomainIsSource(a: Alert)
    ensures var blank := a.sourceType in {None, Some("")};
            DomainOf(a) == if blank then "endpoint" else a.sourceType.value
  {
  }

  /** The alert of a stitch names the entity of a row, in the tenant of the stitch. */
  ghost predicate Names(db: Db, e: Event, id: EntityId)
    requires e.Join?
  {
    && id in db.entities && db.entities[id].tenant == e.tenant
    && db.entities[id].value != "" && Mentioned(Mentions(e.alert), db.entities[id].kind, db.entities[id].value)
  }

  /** A stitch is linked to the rows of exactly the entities its alert names. */
  lemma StitchLinksWhatIsNamed(db: Db, e: Event, id: EntityId)
    requires Tables(db) && e.Join? && AreEntities(db, e.ids, e.tenant, Distinct(Mentions(e.alert)))
    ensures id in e.ids <==> Names(db, e, id)
  {
    hide Mentions, Distinct;
    var (all, es) := (Mentions(e.alert), Distinct(Mentions(e.alert)));
    DistinctKeepsEachOnce(all);
    if id in e.ids {
      var k :| 0 <= k < |e.ids| && e.ids[k] == id;
      assert IsEntity(db, id, e.tenant, es[k]);
      assert Mentioned(es, es[k].kind, es[k].value);
    }
    if Names(db, e, id) {
      assert Mentioned(es, db.entities[id].kind, db.entities[id].value);
      var k :| 0 <= k < |es| && es[k].kind == db.entities[id].kind && es[k].value == db.entities[id].value;
      assert IsEntity(db, e.ids[k], e.tenant, es[k]);
      assert SameEntity(db.entities[id], db.entities[e.ids[k]]);
    }
  }

  /** An incident is linked to an entity exactly when some alert stitched into it
      names that entity. */
  lemma IncidentsAreTheirAlerts(db: Db, log: seq<Event>, i: IncidentId, id: EntityId)
    requires Consistent(db, log)
    ensures (i, id) in db.incidentLinks <==>
            exists k :: 0 <= k < |log| && log[k].Join? && log[k].incident == i && Names(db, log[k], id)
  {
    hide Names, AreEntities, Tables;
    forall k | 0 <= k < |log| && log[k].Join? ensures id in log[k].ids <==> Names(db, log[k], id) {
      assert JoinRecorded(db, log[k]);
      StitchLinksWhatIsNamed(db, log[k], id);
    }
    assert (i, id) in db.incidentLinks <==> SharesEntity(log, i, id);
  }

  /** The source type of every alert stitched into an incident shows among its
      domains, as "endpoint" if it is blank; an absent one only for the alert that
      opened the incident, whose description the incident keeps. */
  lemma IncidentsShowTheirAlerts(db: Db, log: seq<Event>, k: nat)
    requires Consistent(db, log) && k < |log| && log[k].Join?
    ensures log[k].incident in db.incidents
    ensures var (row, a) := (db.incidents[log[k].incident], log[k].alert);
            && (a.sourceType.Some? && a.sourceType.value != "" ==> a.sourceType.value in row.sourceDomains)
            && (a.sourceType == Some("") || (log[k].created && a.sourceType.None?) ==> "endpoint" in row.sourceDomains)
            && (row.crossDomain <==> exists x, y :: x in row.sourceDomains && y in row.sourceDomains && x != y)
            && (log[k].created ==> Describes(row.about, a))
  {
    hide Describes, StitchedAbout, DomainOf, AreEntities, Distinct, Mentions, SeenRecorded, LinksRecorded, RowsRecorded;
    hide DomainsRecorded, AlertLinksRecorded, GainsInWindow;
    assert JoinRecorded(db, log[k]);
    DomainIsSource(log[k].alert);
    TwoElements(db.incidents[log[k].incident].sourceDomains);
    StitchedDescribes(log[k].alert);
  }

  lemma TwoElements(s: set<string>)
    ensures |s| > 1 <==> exists x, y :: x in s && y in s && x != y
  {
    if |s| > 1 {
      var x :| x in s;
      assert |s - {x}| > 0;
      var y :| y in s - {x};
    }
    if x, y :| x in s && y in s && x != y {
      assert {x, y} <= s && |{x, y}| == 2;
      assert |s| == |{x, y}| + |s - {x, y}|;
    }
  }

  // ---- Which incident an alert joins -----------------------------------------------

  /** Two alerts name a common entity. */
  ghost predicate NameOneEntity(a: Alert, b: Alert) {
    exists kind, value :: value != "" && Mentioned(Mentions(a), kind, value) && Mentioned(Mentions(b), kind, value)
  }

  /** By the history alone: the incident is open, started at most six hours ago, and
      has an alert of the tenant that names an entity this one names. */
  ghost predicate Qualifies(log: seq<Event>, a: Alert, tenant: Tenant, now: int, i: IncidentId) {
    && NamedTogether(log, a, tenant, i) && StatusOf(log, i) == "open"
    && FirstAt(log, i).Some? && now - FirstAt(log, i).value <= 6 * 60 * 60
  }

  /** A row linked to the new alert is linked to an incident exactly when an alert of
      the incident names one of the new alert's entities. */
  lemma LinkedToBoth(db: Db, log: seq<Event>, linked: Db, ids: seq<EntityId>, a: Alert, tenant: Tenant, i: IncidentId)
    requires Consistent(db, log) && Tables(linked) && Grows(db, linked)
    requires AreEntities(linked, ids, tenant, Distinct(Mentions(a)))
    ensures (exists k :: 0 <= k < |ids| && (i, ids[k]) in db.incidentLinks) <==> NamedTogether(log, a, tenant, i)
  {
    hide Consistent, Tables, Grows, AreEntities, NamedTogether, Mentions, Distinct;
    if k :| 0 <= k < |ids| && (i, ids[k]) in db.incidentLinks {
      LinkedIsNamed(db, log, linked, ids, a, tenant, i, k);
    }
    if NamedTogether(log, a, tenant, i) {
      var k := NamedIsLinked(db, log, linked, ids, a, tenant, i);
    }
  }

  /** Some alert stitched into the incident for the tenant names an entity this one names. */
  ghost predicate NamedTogether(log: seq<Event>, a: Alert, tenant: Tenant, i: IncidentId) {
    exists k :: 0 <= k < |log| && log[k].Join? && log[k].incident == i && log[k].tenant == tenant &&
                NameOneEntity(log[k].alert, a)
  }

  lemma LinkedIsNamed(db: Db, log: seq<Event>, linked: Db, ids: seq<EntityId>, a: Alert, tenant: Tenant, i: IncidentId,
                      k: nat)
    requires Consistent(db, log) && Tables(linked) && Grows(db, linked)
    requires AreEntities(linked, ids, tenant, Distinct(Mentions(a)))
    requires k < |ids| && (i, ids[k]) in db.incidentLinks
    ensures NamedTogether(log, a, tenant, i)
  {
    assert SharesEntity(log, i, ids[k]);
    hide Mentions, Distinct, Tables, Grows, Consistent, AreEntities;
    StitchLinksWhatIsNamed(linked, Join(a, tenant, 0, i, ids, false), ids[k]);
    var m :| 0 <= m < |log| && log[m].Join? && log[m].incident == i && ids[k] in log[m].ids;
    NamedByRecorded(db, log, linked, m, ids[k]);
    assert NameOneEntity(log[m].alert, a);
  }

  lemma NamedIsLinked(db: Db, log: seq<Event>, linked: Db, ids: seq<EntityId>, a: Alert, tenant: Tenant, i: IncidentId)
    returns (k: nat)
    requires Consistent(db, log) && Tables(linked) && Grows(db, linked)
    requires AreEntities(linked, ids, tenant, Distinct(Mentions(a)))
    requires NamedTogether(log, a, tenant, i)
    ensures k < |ids| && (i, ids[k]) in db.incidentLinks
  {
    hide Mentions, Distinct;
    var m :| 0 <= m < |log| && log[m].Join? && log[m].incident == i && log[m].tenant == tenant &&
             NameOneEntity(log[m].alert, a);
    var kind, value :| value != "" && Mentioned(Mentions(log[m].alert), kind, value) &&
                       Mentioned(Mentions(a), kind, value);
    assert JoinRecorded(db, log[m]);
    var id := RowOfMention(db, log[m], kind, value);
    assert SharesEntity(log, i, id);
    assert (i, id) in db.incidentLinks;
    hide Consistent, JoinRecorded, AreEntities, Tables;
    assert SameEntity(db.entities[id], linked.entities[id]);
    StitchLinksWhatIsNamed(linked, Join(a, tenant, 0, i, ids, false), id);
    k :| 0 <= k < |ids| && ids[k] == id;
  }

  lemma NamedByRecorded(db: Db, log: seq<Event>, linked: Db, m: nat, id: EntityId)
    requires Consistent(db, log) && Grows(db, linked) && m < |log| && log[m].Join? && id in log[m].ids
    ensures Names(linked, log[m], id)
  {
    hide Mentions, Distinct;
    assert JoinRecorded(db, log[m]);
    StitchLinksWhatIsNamed(db, log[m], id);
    assert SameEntity(db.entities[id], linked.entities[id]);
  }

  lemma RowOfMention(db: Db, e: Event, kind: Kind, value: string) returns (id: EntityId)
    requires e.Join? && JoinRecorded(db, e)
    requires value != "" && Mentioned(Mentions(e.alert), kind, value)
    ensures id in e.ids && id in db.entities
    ensures db.entities[id].tenant == e.tenant && db.entities[id].kind == kind && db.entities[id].value == value
  {
    hide Mentions, Distinct;
    var es := Distinct(Mentions(e.alert));
    DistinctKeepsEachOnce(Mentions(e.alert));
    assert Mentioned(es, kind, value);
    var k :| 0 <= k < |es| && es[k].kind == kind && es[k].value == value;
    id := e.ids[k];
    assert IsEntity(db, id, e.tenant, es[k]);
  }

  lemma QualifiesExactly(db: Db, log: seq<Event>, linked: Db, ids: seq<EntityId>, a: Alert, tenant: Tenant, now: int,
                         i: IncidentId)
    requires Consistent(db, log) && Tables(linked) && Grows(db, linked)
    requires AreEntities(linked, ids, tenant, Distinct(Mentions(a)))
    ensures Candidate(linked, ids, now, i) <==> Qualifies(log, a, tenant, now, i)
  {
    LinkedToBoth(db, log, linked, ids, a, tenant, i);
    hide NamedTogether, AreEntities, Mentions, Distinct, JoinsRecorded, LinksRecorded, DomainsRecorded;
    hide AlertLinksRecorded, GainsInWindow, StatusOf, FirstAt;
  }

  /** Main result: an alert joins an incident exactly when one qualifies by the
      history, and then one of those with the latest alert. */
  lemma JoinsExactlyWhen(db: Db, log: seq<Event>, a: Alert, tenant: Tenant, now: int, r: Option<IncidentId>)
    requires Consistent(db, log) && Answers(db, a, tenant, now, r)
    ensures r.Some? <==> exists i :: Qualifies(log, a, tenant, now, i)
    ensures r.Some? ==> Qualifies(log, a, tenant, now, r.value)
    ensures r.Some? ==> forall j :: Qualifies(log, a, tenant, now, j) ==>
              LastAt(log, j).Some? && LastAt(log, r.value).Some? && LastAt(log, j).value <= LastAt(log, r.value).value
  {
    hide Mentions, Distinct, WithAlertLinks, Incumbent, Candidate, Qualifies;
    var es := Distinct(Mentions(a));
    var (linked, ids) := Linked(db, a, tenant, now);
    TablesOf(db, log);
    AlertLinkSteps(db, a, tenant, es, now);
    forall i: IncidentId ensures Candidate(linked, ids, now, i) <==> Qualifies(log, a, tenant, now, i) {
      QualifiesExactly(db, log, linked, ids, a, tenant, now, i);
    }
    IncumbentByHistory(db, log, linked, ids, a, tenant, now, r);
  }

  lemma IncumbentByHistory(db: Db, log: seq<Event>, linked: Db, ids: seq<EntityId>, a: Alert, tenant: Tenant, now: int,
                           r: Option<IncidentId>)
    requires RowsRecorded(db, log) && linked.incidents == db.incidents && Incumbent(linked, ids, now, r)
    requires forall i: IncidentId :: Candidate(linked, ids, now, i) <==> Qualifies(log, a, tenant, now, i)
    ensures r.Some? <==> exists i :: Qualifies(log, a, tenant, now, i)
    ensures r.Some? ==> Qualifies(log, a, tenant, now, r.value)
    ensures r.Some? ==> forall j :: Qualifies(log, a, tenant, now, j) ==>
              LastAt(log, j).Some? && LastAt(log, r.value).Some? && LastAt(log, j).value <= LastAt(log, r.value).value
  {
    hide Qualifies;
    assert forall i: IncidentId :: Candidate(linked, ids, now, i) ==> i in db.incidents;
    hide Candidate;
  }

  /** The entity is among those of stitch k, and of no other before, or after, it. */
  ghost predicate FirstWith(log: seq<Event>, id: EntityId, k: nat) {
    k < |log| && log[k].Join? && id in log[k].ids && forall j :: 0 <= j < k && log[j].Join? ==> id !in log[j].ids
  }

  ghost predicate LastWith(log: seq<Event>, id: EntityId, k: nat) {
    k < |log| && log[k].Join? && id in log[k].ids && forall j :: k < j < |log| && log[j].Join? ==> id !in log[j].ids
  }

  lemma {:induction false} FirstSeenIsFirst(log: seq<Event>, id: EntityId) returns (k: nat)
    ensures FirstSeenAt(log, id).Some? ==> FirstWith(log, id, k) && FirstSeenAt(log, id) == Some(log[k].at)
    ensures FirstSeenAt(log, id).None? ==> forall j :: 0 <= j < |log| && log[j].Join? ==> id !in log[j].ids
  {
    k := 0;
    if log != [] {
      var rest := log[..|log|-1];
      k := FirstSeenIsFirst(rest, id);
      assert forall j :: 0 <= j < |rest| ==> rest[j] == log[j];
      if FirstSeenAt(rest, id).None? {
        k := |rest|;
      }
    }
  }

  lemma {:induction false} LastSeenIsLast(log: seq<Event>, id: EntityId) returns (k: nat)
    ensures LastSeenAt(log, id).Some? ==> LastWith(log, id, k) && LastSeenAt(log, id) == Some(log[k].at)
  {
    k := 0;
    if log != [] {
      var (rest, e) := (log[..|log|-1], log[|log|-1]);
      k := LastSeenIsLast(rest, id);
      assert forall j :: 0 <= j < |rest| ==> rest[j] == log[j];
      if e.Join? && id in e.ids {
        k := |rest|;
      }
    }
  }

  /** An entity row is there because an alert names it, and shows when the first and the
      last one that does was stitched. */
  lemma EntitiesShowWhenSeen(db: Db, log: seq<Event>, id: EntityId) returns (first: nat, last: nat)
    requires Consistent(db, log) && id in db.entities
    ensures first <= last < |log| && log[first].Join? && log[last].Join?
    ensures Names(db, log[first], id) && Names(db, log[last], id)
    ensures db.entities[id].firstSeen == log[first].at && db.entities[id].lastSeen == log[last].at
    ensures forall k :: 0 <= k < |log| && log[k].Join? && (k < first || k > last) ==> !Names(db, log[k], id)
  {
    hide Names, AreEntities, Mentions, Distinct, FirstSeenAt, LastSeenAt;
    first := FirstSeenIsFirst(log, id);
    last := LastSeenIsLast(log, id);
    forall k | 0 <= k < |log| && log[k].Join? ensures id in log[k].ids <==> Names(db, log[k], id) {
      assert JoinRecorded(db, log[k]);
      StitchLinksWhatIsNamed(db, log[k], id);
    }
  }

  /** A stitched alert stays linked to every entity it names, in a role in which it names
      it. */
  lemma AlertsKeepTheirLinks(db: Db, log: seq<Event>, k: nat, kind: Kind, value: string) returns (l: AlertLink)
    requires Consistent(db, log) && k < |log| && log[k].Join?
    requires value != "" && Mentioned(Mentions(log[k].alert), kind, value)
    ensures l in db.alertLinks && l.alert == log[k].alert.id && Extracted(kind, value, l.role) in Mentions(log[k].alert)
    ensures l.entity in db.entities && (log[k].incident, l.entity) in db.incidentLinks
    ensures var row := db.entities[l.entity]; row.tenant == log[k].tenant && row.kind == kind && row.value == value
  {
    hide Mentions, Distinct;
    var e := log[k];
    assert JoinRecorded(db, e);
    var es := Distinct(Mentions(e.alert));
    DistinctKeepsEachOnce(Mentions(e.alert));
    assert Mentioned(es, kind, value);
    var m :| 0 <= m < |es| && es[m].kind == kind && es[m].value == value;
    l := AlertLink(e.alert.id, e.ids[m], es[m].role);
    assert IsEntity(db, e.ids[m], e.tenant, es[m]) && es[m] in es;
    assert SharesEntity(log, e.incident, e.ids[m]);
  }

  /** The sum of the alert counts of the first n incidents. */
  function TotalCount(db: Db, n: nat): nat {
    if n == 0 then 0 else TotalCount(db, n - 1) + (if n - 1 in db.incidents then db.incidents[n - 1].alertCount else 0)
  }

  function LoggedCount(log: seq<Event>, n: nat): nat {
    if n == 0 then 0 else LoggedCount(log, n - 1) + CountOf(log, n - 1)
  }

  lemma {:induction false} NothingLogged(n: nat)
    ensures LoggedCount([], n) == 0
  {
    if n > 0 { NothingLogged(n - 1); }
  }

  lemma {:induction false} LoggedAppend(log: seq<Event>, e: Event, n: nat)
    ensures LoggedCount(log + [e], n) == LoggedCount(log, n) + (if !e.SetTo? && e.incident < n then 1 else 0)
  {
    if n > 0 {
      LoggedAppend(log, e, n - 1);
      CountAppend(log, e, n - 1);
    }
  }

  lemma {:induction false} LoggedIsAll(log: seq<Event>, n: nat)
    requires forall i: IncidentId :: i >= n ==> CountOf(log, i) == 0
    ensures LoggedCount(log, n) == Attachments(log)
  {
    if log == [] {
      NothingLogged(n);
    } else {
      var (rest, e) := (log[..|log|-1], log[|log|-1]);
      assert log == rest + [e];
      forall i: IncidentId { CountAppend(rest, e, i); }
      LoggedIsAll(rest, n);
      LoggedAppend(rest, e, n);
      assert !e.SetTo? ==> CountOf(log, e.incident) == CountOf(rest, e.incident) + 1;
    }
  }

  lemma {:induction false} TotalIsLogged(db: Db, log: seq<Event>, n: nat)
    requires RowsRecorded(db, log)
    ensures TotalCount(db, n) == LoggedCount(log, n)
  {
    if n > 0 { TotalIsLogged(db, log, n - 1); }
  }

  /** No attachment is lost or counted twice: the alert counts of all incidents
      add up to the number of alerts attached. */
  lemma CountsAreConserved(db: Db, log: seq<Event>)
    requires Consistent(db, log)
    ensures TotalCount(db, db.nextIncident) == Attachments(log)
  {
    TotalIsLogged(db, log, db.nextIncident);
    LoggedIsAll(log, db.nextIncident);
  }
}

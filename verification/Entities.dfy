/** Alerts, and the entities extracted from them. */
module Entities {
  import opened Wrappers
  import opened Text

  /** The text of a UUID. */
  type AlertId = string

  /** The alert fields the modelled code reads.  Text fields that are absent
      are empty, as the code only tests their truth; so is an absent level 0. */
  datatype Alert = Alert(
    id: AlertId, createdAt: int, alertTimestamp: Option<int>,
    sourceType: Option<string>, mitreTactic: Option<string>, mitreTechnique: string,
    ruleId: Option<int>, ruleDescription: string, ruleLevel: int, ruleGroups: seq<string>,
    userName: string, sourceUser: string, principal: string,
    agentId: string, agentName: string, agentIp: string, deviceId: string,
    sourceIp: string, destinationIp: string, destinationHost: string, targetHost: string,
    sessionId: string)

  datatype Kind = User | Host | Ip | Principal | Session | Device

  datatype Extracted = Extracted(kind: Kind, value: string, role: string)

  /** A kind is told apart by the first letter of its name. */
  function Initial(k: Kind): char {
    match k
    case User => 'u'
    case Host => 'h'
    case Ip => 'i'
    case Principal => 'p'
    case Session => 's'
    case Device => 'd'
  }

  function KindName(k: Kind): (name: string)
    ensures ':' !in name
    ensures name != "" && name[0] == Initial(k)
  {
    match k
    case User => "user"
    case Host => "host"
    case Ip => "ip"
    case Principal => "principal"
    case Session => "session"
    case Device => "device"
  }

  function Or(a: string, b: string): string {
    if a != "" then a else b
  }

  function Mention(kind: Kind, raw: string, role: string): seq<Extracted> {
    if raw == "" then []
    else [Extracted(kind, if kind == User then Lower(Strip(raw)) else Strip(raw), role)]
  }

  /** Every mention, in the order the code looks for them. */
  function Mentions(a: Alert): seq<Extracted> {
    Mention(User, Or(a.userName, a.sourceUser), "actor")
    + Mention(Principal, a.principal, "actor")
    + Mention(Host, a.agentName, "source")
    + Mention(Ip, a.agentIp, "source")
    + (if a.sourceIp != a.agentIp then Mention(Ip, a.sourceIp, "actor") else [])
    + Mention(Ip, a.destinationIp, "target")
    + Mention(Host, Or(a.destinationHost, a.targetHost), "target")
    + Mention(Session, a.sessionId, "observed")
    + Mention(Device, Or(a.agentId, a.deviceId), "source")
  }

  /** The fields that name entities, with the kind and role of each: the only user
      name is folded to lower case, and the source address is no actor when it is
      the agent's own. */
  lemma AlertsMention(a: Alert, e: Extracted)
    requires e.value != ""
    ensures e in Mentions(a) <==>
            || e == Extracted(User, Lower(Strip(if a.userName != "" then a.userName else a.sourceUser)), "actor")
            || e == Extracted(Principal, Strip(a.principal), "actor")
            || e == Extracted(Host, Strip(a.agentName), "source")
            || e == Extracted(Host, Strip(if a.destinationHost != "" then a.destinationHost else a.targetHost),
                "target")
            || e == Extracted(Ip, Strip(a.agentIp), "source")
            || (e == Extracted(Ip, Strip(a.sourceIp), "actor") && a.sourceIp != a.agentIp)
            || e == Extracted(Ip, Strip(a.destinationIp), "target")
            || e == Extracted(Session, Strip(a.sessionId), "observed")
            || e == Extracted(Device, Strip(if a.agentId != "" then a.agentId else a.deviceId), "source")
  {
    hide Strip, Lower;
    assert Strip("") == "" && Lower("") == "";
  }

  /** The deduplication key.  The code hashes it; distinct keys are assumed to
      have distinct digests. */
  function DedupKey(kind: Kind, value: string): string {
    KindName(kind) + ":" + value
  }

  lemma KindNamesDiffer(k1: Kind, k2: Kind)
    ensures KindName(k1) == KindName(k2) ==> k1 == k2
  {
    hide KindName;
    assert KindName(k1) == KindName(k2) ==> Initial(k1) == Initial(k2);
  }

  lemma DedupKeyInjective(k1: Kind, v1: string, k2: Kind, v2: string)
    requires DedupKey(k1, v1) == DedupKey(k2, v2)
    ensures k1 == k2 && v1 == v2
  {
    var (n1, n2, s) := (KindName(k1), KindName(k2), DedupKey(k1, v1));
    hide KindName;
    assert s[|n1|] == ':' && s[|n2|] == ':';
    assert forall i :: 0 <= i < |n1| ==> s[i] == n1[i] && n1[i] in n1;
    assert forall i :: 0 <= i < |n2| ==> s[i] == n2[i] && n2[i] in n2;
    assert |n1| == |n2|;
    assert n1 == s[..|n1|] == n2;
    assert v1 == s[|n1|+1..] == v2;
    KindNamesDiffer(k1, k2);
  }

  predicate Mentioned(es: seq<Extracted>, kind: Kind, value: string) {
    exists i :: 0 <= i < |es| && es[i].kind == kind && es[i].value == value
  }

  /** The first mention of each entity with a value. */
  function Distinct(es: seq<Extracted>): seq<Extracted> {
    if es == [] then []
    else
      var (rest, e) := (es[..|es|-1], es[|es|-1]);
      if e.value == "" || Mentioned(rest, e.kind, e.value) then Distinct(rest) else Distinct(rest) + [e]
  }

  /** The keys of the mentions that have a value. */
  function SeenKeys(es: seq<Extracted>): set<string> {
    set e | e in es && e.value != "" :: DedupKey(e.kind, e.value)
  }

  lemma SeenIsMentioned(es: seq<Extracted>, kind: Kind, value: string)
    requires value != ""
    ensures DedupKey(kind, value) in SeenKeys(es) <==> Mentioned(es, kind, value)
  {
    if DedupKey(kind, value) in SeenKeys(es) {
      var e :| e in es && e.value != "" && DedupKey(e.kind, e.value) == DedupKey(kind, value);
      DedupKeyInjective(e.kind, e.value, kind, value);
    }
  }

  lemma SeenAppend(es: seq<Extracted>, e: Extracted)
    ensures SeenKeys(es + [e]) == SeenKeys(es) + (if e.value != "" then {DedupKey(e.kind, e.value)} else {})
  {
    forall x | x in es + [e] ensures x in es || x == e {}
  }

  lemma DistinctAppend(es: seq<Extracted>, e: Extracted)
    ensures Distinct(es + [e]) ==
            if e.value == "" || Mentioned(es, e.kind, e.value) then Distinct(es) else Distinct(es) + [e]
  {
    assert (es + [e])[..|es|] == es;
  }

  /** `extract_entities`: the deduplicating loop over the mentions. */
  method ExtractEntities(a: Alert) returns (deduped: seq<Extracted>)
    ensures deduped == Distinct(Mentions(a))
  {
    hide Mentions, Mentioned, DedupKey, Distinct, SeenKeys;
    var entities := Mentions(a);
    var seen: set<string> := {};
    deduped := [];
    NothingSeen();
    for i := 0 to |entities|
      invariant deduped == Distinct(entities[..i])
      invariant seen == SeenKeys(entities[..i])
    {
      var e := entities[i];
      assert entities[..i+1] == entities[..i] + [e];
      SeenAppend(entities[..i], e);
      DistinctAppend(entities[..i], e);
      if e.value != "" {
        SeenIsMentioned(entities[..i], e.kind, e.value);
        var key := DedupKey(e.kind, e.value);
        if key !in seen {
          seen := seen + {key};
          deduped := deduped + [e];
        }
      }
    }
    assert entities[..|entities|] == entities;
  }

  lemma NothingSeen()
    ensures SeenKeys([]) == {} && Distinct([]) == []
  {
  }

  predicate AllDistinct(es: seq<Extracted>) {
    && (forall i :: 0 <= i < |es| ==> es[i].value != "")
    && forall i, j :: 0 <= i < j < |es| ==> es[i].kind != es[j].kind || es[i].value != es[j].value
  }

  /** No two extracted entities are the same entity, none is empty, and no
      entity that the alert mentions is missed. */
  lemma {:induction false} DistinctKeepsEachOnce(es: seq<Extracted>)
    ensures AllDistinct(Distinct(es))
    ensures forall k, v :: v != "" ==> (Mentioned(Distinct(es), k, v) <==> Mentioned(es, k, v))
    ensures forall e <- Distinct(es) :: e in es
  {
    if es != [] {
      var (rest, e) := (es[..|es|-1], es[|es|-1]);
      DistinctKeepsEachOnce(rest);
      var d := Distinct(rest);
      forall k, v | v != "" ensures Mentioned(Distinct(es), k, v) <==> Mentioned(es, k, v) {
        MentionedAppend(rest, e, k, v);
        MentionedAppend(d, e, k, v);
        assert es == rest + [e];
      }
      if e.value != "" && !Mentioned(rest, e.kind, e.value) {
        assert !Mentioned(d, e.kind, e.value);
        assert Distinct(es) == d + [e];
      }
    }
  }

  lemma MentionedAppend(es: seq<Extracted>, e: Extracted, k: Kind, v: string)
    ensures Mentioned(es + [e], k, v) <==> Mentioned(es, k, v) || (e.kind == k && e.value == v)
  {
    if Mentioned(es, k, v) {
      var i :| 0 <= i < |es| && es[i].kind == k && es[i].value == v;
      assert (es + [e])[i] == es[i];
    }
    assert (es + [e])[|es|] == e;
  }
}

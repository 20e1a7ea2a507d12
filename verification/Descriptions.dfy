/** The descriptive columns of an incident: its group key, the rule and source
    it was opened for, and its severity. */
module Descriptions {
  import opened Wrappers
  import opened Text
  import opened Entities

  datatype About = About(
    groupKey: string, ruleId: Option<int>, ruleDescription: string, agentId: string, sourceIp: string,
    severity: Option<string>)

  // ---- Group keys -------------------------------------------------------------

  function Digit(d: nat): char
    requires d < 10
  {
    '0' + d as char
  }

  function NatText(n: nat): (s: string)
    ensures s != ""
  {
    if n < 10 then [Digit(n)] else NatText(n / 10) + [Digit(n % 10)]
  }

  function IntText(n: int): string {
    if n < 0 then "-" + NatText(-n) else NatText(n)
  }

  function Labelled(tag: string, value: string): seq<string> {
    if value == "" then [] else [tag + value]
  }

  function KeyParts(a: Alert): seq<string> {
    Labelled("src:", a.sourceIp) + Labelled("user:", a.userName) + Labelled("technique:", a.mitreTechnique)
  }

  /** The key of a stitched incident: its source, user and technique, or the
      rule if the alert names none of them. */
  function GroupKey(a: Alert): string {
    var parts := KeyParts(a);
    if Join(parts, "|") != "" then Join(parts, "|")
    else "rule:" + (if a.ruleId.Some? then IntText(a.ruleId.value) else "None")
  }

  function SingleKey(a: Alert): string {
    "single:" + a.id
  }

  // ---- Severities -------------------------------------------------------------

  const SEVERITIES := [(12, "critical"), (10, "high"), (7, "medium"), (5, "low")]

  /** The first threshold of the table that the level reaches. */
  function SeverityFrom(level: int, n: nat): Option<string>
    requires n <= |SEVERITIES|
    decreases |SEVERITIES| - n
  {
    if n == |SEVERITIES| then None
    else if level >= SEVERITIES[n].0 then Some(SEVERITIES[n].1)
    else SeverityFrom(level, n + 1)
  }

  function StitchedSeverity(level: int): Option<string> {
    if level == 0 then None else SeverityFrom(level, 0)
  }

  function InferredSeverity(level: int): string {
    if level >= 12 then "critical" else if level >= 10 then "high" else if level >= 7 then "medium" else "low"
  }

  /** What a stitched, and what a standalone, incident says about its first alert. */
  function StitchedAbout(a: Alert): About {
    About(GroupKey(a), a.ruleId, a.ruleDescription, a.agentId, a.sourceIp, StitchedSeverity(a.ruleLevel))
  }

  function SingleAbout(a: Alert): About {
    About(SingleKey(a), a.ruleId, a.ruleDescription, a.agentId, a.sourceIp, Some(InferredSeverity(a.ruleLevel)))
  }

  // ---- What the two paths agree on ----------------------------------------------

  /** The stitch path and the standalone path rate an alert alike exactly from
      level 5 up: below it a stitched incident has no severity. */
  lemma SeveritiesAgreeFromFive(level: int)
    ensures StitchedSeverity(level) == Some(InferredSeverity(level)) <==> level >= 5
  {
    assert SeverityFrom(level, 3) == if level >= 5 then Some("low") else None;
    assert SeverityFrom(level, 2) == if level >= 7 then Some("medium") else SeverityFrom(level, 3);
    assert SeverityFrom(level, 1) == if level >= 10 then Some("high") else SeverityFrom(level, 2);
  }

  /** The columns that a stitched incident keeps of the alert that opened it. */
  predicate Describes(about: About, a: Alert) {
    && about.ruleId == a.ruleId && about.ruleDescription == a.ruleDescription
    && about.agentId == a.agentId && about.sourceIp == a.sourceIp
    && about.severity ==
       (if a.ruleLevel >= 12 then Some("critical")
        else if a.ruleLevel >= 10 then Some("high")
        else if a.ruleLevel >= 7 then Some("medium")
        else if a.ruleLevel >= 5 then Some("low")
        else None)
    && KeyedBy(about.groupKey, a)
  }

  /** The key lists the source, user and technique that the alert names. */
  predicate KeyedBy(key: string, a: Alert) {
    var (src, user, technique) := (a.sourceIp != "", a.userName != "", a.mitreTechnique != "");
    && (src && user && technique ==>
          key == "src:" + a.sourceIp + "|user:" + a.userName + "|technique:" + a.mitreTechnique)
    && (src && user && !technique ==> key == "src:" + a.sourceIp + "|user:" + a.userName)
    && (src && !user && technique ==> key == "src:" + a.sourceIp + "|technique:" + a.mitreTechnique)
    && (src && !user && !technique ==> key == "src:" + a.sourceIp)
    && (!src && user && technique ==> key == "user:" + a.userName + "|technique:" + a.mitreTechnique)
    && (!src && user && !technique ==> key == "user:" + a.userName)
    && (!src && !user && technique ==> key == "technique:" + a.mitreTechnique)
    && (!src && !user && !technique && a.ruleId.None? ==> key == "rule:None")
    && (!src && !user && !technique && a.ruleId.Some? ==> "rule:" <= key && Decimal(key[5..], a.ruleId.value))
  }

  /** The text is the decimal numeral of the number. */
  predicate Decimal(text: string, n: int) {
    if n < 0 then text != "" && text[0] == '-' && DigitsOf(text[1..], -n) else DigitsOf(text, n)
  }

  predicate DigitsOf(text: string, n: nat) {
    && text != "" && (text[0] == '0' ==> text == "0")
    && (forall i :: 0 <= i < |text| ==> '0' <= text[i] <= '9')
    && ValueOf(text) == n
  }

  function ValueOf(text: string): int {
    if text == "" then 0 else 10 * ValueOf(text[..|text|-1]) + (text[|text|-1] as int - '0' as int)
  }

  lemma {:induction false} NatTextIsDecimal(n: nat)
    ensures DigitsOf(NatText(n), n)
    ensures n > 0 ==> NatText(n)[0] != '0'
  {
    if n >= 10 {
      NatTextIsDecimal(n / 10);
      var (s, rest) := (NatText(n), NatText(n / 10));
      assert s[..|s|-1] == rest;
    }
  }

  lemma {:induction false} StitchedDescribes(a: Alert)
    ensures Describes(StitchedAbout(a), a)
  {
    assert SeverityFrom(a.ruleLevel, 4) == None;
    assert SeverityFrom(a.ruleLevel, 3) == if a.ruleLevel >= 5 then Some("low") else None;
    assert SeverityFrom(a.ruleLevel, 2) == if a.ruleLevel >= 7 then Some("medium") else SeverityFrom(a.ruleLevel, 3);
    assert SeverityFrom(a.ruleLevel, 1) == if a.ruleLevel >= 10 then Some("high") else SeverityFrom(a.ruleLevel, 2);
    hide SeverityFrom;
    KeyNamesParts(a);
  }

  lemma {:induction false} KeyNamesParts(a: Alert)
    ensures KeyedBy(GroupKey(a), a)
  {
    hide KeyedBy;
    if a.sourceIp != "" {
      KeyWithSource(a);
    } else if KeyParts(a) != [] {
      KeyWithoutSource(a);
    } else {
      KeyNamesRule(a);
    }
  }

  lemma KeyWithSource(a: Alert)
    requires a.sourceIp != ""
    ensures KeyedBy(GroupKey(a), a)
  {
    hide Decimal, Join, GroupKey;
    KeyIsJoined(a);
    JoinOfThree(KeyParts(a), "|");
  }

  lemma KeyWithoutSource(a: Alert)
    requires a.sourceIp == "" && KeyParts(a) != []
    ensures KeyedBy(GroupKey(a), a)
  {
    hide Decimal, Join, GroupKey;
    KeyIsJoined(a);
    JoinOfThree(KeyParts(a), "|");
  }

  lemma KeyIsJoined(a: Alert)
    ensures KeyParts(a) != [] ==> GroupKey(a) == Join(KeyParts(a), "|")
    ensures KeyParts(a) == [] ==>
              GroupKey(a) == "rule:" + (if a.ruleId.Some? then IntText(a.ruleId.value) else "None")
  {
    hide IntText, Join;
    NoParts();
    if KeyParts(a) != [] {
      JoinStart(KeyParts(a), "|");
    }
  }

  lemma KeyNamesRule(a: Alert)
    requires KeyParts(a) == []
    ensures KeyedBy(GroupKey(a), a)
  {
    hide GroupKey, IntText, Decimal;
    KeyIsJoined(a);
    if a.ruleId.Some? {
      var text := IntText(a.ruleId.value);
      IntTextIsDecimal(a.ruleId.value);
      assert GroupKey(a)[5..] == text;
    }
  }

  lemma NoParts()
    ensures Join([], "|") == ""
  {
  }

  lemma {:induction false} IntTextIsDecimal(n: int)
    ensures Decimal(IntText(n), n)
  {
    hide NatText, DigitsOf;
    NatTextIsDecimal(if n < 0 then -n else n);
    assert n < 0 ==> IntText(n)[1..] == NatText(-n);
    NatTextStarts(n);
  }

  lemma NatTextStarts(n: int)
    ensures n >= 0 ==> NatText(n)[0] != '-'
  {
    if n >= 0 { NatTextIsDecimal(n); }
  }

  lemma {:induction false} JoinOfThree(parts: seq<string>, sep: string)
    requires 1 <= |parts| <= 3
    ensures Join(parts, sep) ==
            if |parts| == 1 then parts[0]
            else if |parts| == 2 then parts[0] + sep + parts[1]
            else parts[0] + sep + parts[1] + sep + parts[2]
  {
    if |parts| > 1 {
      JoinOfThree(parts[1..], sep);
      if |parts| == 3 {
        assert parts[0] + sep + (parts[1] + sep + parts[2]) == parts[0] + sep + parts[1] + sep + parts[2];
      }
    }
  }

  /** Only the same alert gives the same standalone key, and no key of a stitched
      incident is one. */
  lemma SingleKeysApart(a: Alert, b: Alert)
    ensures SingleKey(a) == SingleKey(b) <==> a.id == b.id
    ensures GroupKey(a) != SingleKey(b)
  {
    hide GroupKey;
    var tag := "single:";
    assert SingleKey(a)[|tag|..] == a.id && SingleKey(b)[|tag|..] == b.id;
    assert SingleKey(b)[1] == 'i';
    GroupKeyStart(a);
  }

  lemma GroupKeyStart(a: Alert)
    ensures |GroupKey(a)| >= 2 && GroupKey(a)[1] != 'i'
  {
    var parts := KeyParts(a);
    if parts != [] {
      JoinStart(parts, "|");
      assert |parts[0]| >= 4 && parts[0][1] != 'i';
    }
  }

  lemma {:induction false} JoinStart(parts: seq<string>, sep: string)
    requires parts != []
    ensures parts[0] <= Join(parts, sep)
  {
  }
}

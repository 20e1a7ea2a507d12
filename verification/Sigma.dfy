/** The Sigma rule compiler: condition strings over named selections become
    nested `bool` queries. */
module Sigma {
  import opened Wrappers
  import opened Text
  import opened Glob

  /** A selection value, by the text of its scalars. */
  datatype Value = One(text: string) | Many(texts: seq<string>)

  /** A selection: field entries in document order, or something that is not a
      mapping. */
  datatype Selection = Fields(entries: seq<(string, Value)>) | NotAMapping

  /** The selections of a rule in document order, by name. */
  type Selections = seq<(string, Selection)>

  datatype Query =
    | Term(field: string, text: string)
    | Terms(field: string, texts: seq<string>)
    | Wildcard(field: string, pattern: string)
    | Regexp(field: string, pattern: string)
    | Filter(all: seq<Query>)
    | Should(any: seq<Query>)

  // ---- Selections ---------------------------------------------------------

  function FieldName(key: string): string {
    Split(key, "|")[0]
  }

  function Modifiers(key: string): set<string> {
    set m | m in Split(key, "|")[1..] :: Lower(Strip(m))
  }

  function PartFilters(field: string, texts: seq<string>): (qs: seq<Query>)
    ensures |qs| == |texts|
    ensures forall i :: 0 <= i < |texts| ==> qs[i] == Wildcard(field, "*" + texts[i] + "*")
  {
    seq(|texts|, i requires 0 <= i < |texts| => Wildcard(field, "*" + texts[i] + "*"))
  }

  function FieldFilters(field: string, value: Value, mods: set<string>): seq<Query> {
    match value
    case Many(texts) =>
      if "contains" in mods || "all" in mods
      then PartFilters(field, texts)
      else [Terms(field, texts)]
    case One(text) =>
      if "contains" in mods then [Wildcard(field, "*" + text + "*")]
      else if "startswith" in mods then [Wildcard(field, text + "*")]
      else if "endswith" in mods then [Wildcard(field, "*" + text)]
      else if "re" in mods then [Regexp(field, text)]
      else [Term(field, text)]
  }

  function EntryFilters(entry: (string, Value)): seq<Query> {
    FieldFilters(FieldName(entry.0), entry.1, Modifiers(entry.0))
  }

  function AllFilters(entries: seq<(string, Value)>): seq<Query> {
    if entries == [] then [] else AllFilters(entries[..|entries|-1]) + EntryFilters(entries[|entries|-1])
  }

  function SelectionQuery(s: Selection): Option<Query> {
    if s.NotAMapping? || AllFilters(s.entries) == [] then None
    else Some(Filter(AllFilters(s.entries)))
  }

  lemma AllFiltersStep(entries: seq<(string, Value)>, i: nat)
    requires i < |entries|
    ensures AllFilters(entries[..i+1]) == AllFilters(entries[..i]) + EntryFilters(entries[i])
  {
    hide EntryFilters;
    assert entries[..i+1][..i] == entries[..i];
  }

  /** `_compile_selection`: the loop that collects the filters. */
  method CompileSelection(s: Selection) returns (q: Option<Query>)
    ensures q == SelectionQuery(s)
  {
    if s.NotAMapping? || s.entries == [] {
      return None;
    }
    hide EntryFilters;
    var filters: seq<Query> := [];
    for i := 0 to |s.entries|
      invariant filters == AllFilters(s.entries[..i])
    {
      AllFiltersStep(s.entries, i);
      filters := filters + EntryFilters(s.entries[i]);
    }
    assert s.entries[..|s.entries|] == s.entries;
    q := if filters != [] then Some(Filter(filters)) else None;
  }

  // ---- Conditions ---------------------------------------------------------

  function Named(selections: Selections, name: string): Option<Selection> {
    if selections == [] then None
    else if selections[0].0 == name then Some(selections[0].1)
    else Named(selections[1..], name)
  }

  function NonEmptyStripped(parts: seq<string>): (r: seq<string>)
    ensures forall p <- r :: exists q :: q in parts && p == Strip(q) && p != ""
  {
    if parts == [] then []
    else (if Strip(parts[0]) != "" then [Strip(parts[0])] else []) + NonEmptyStripped(parts[1..])
  }

  function CompileCondition(condition: string, selections: Selections): Option<Query>
    decreases |condition|, 1, 0
  {
    if selections == [] then None
    else if Contains(condition, " or ") then
      var parts := NonEmptyStripped(Split(condition, " or "));
      Some(Should(CompileParts(parts, |condition|, selections)))
    else if Contains(condition, " and ") then
      var parts := NonEmptyStripped(Split(condition, " and "));
      Some(Filter(CompileParts(parts, |condition|, selections)))
    else if Named(selections, condition).Some? then SelectionQuery(Named(selections, condition).value)
    else if Named(selections, "selection").Some? then SelectionQuery(Named(selections, "selection").value)
    else SelectionQuery(selections[0].1)
  }

  /** The parts that compile, in order. */
  function CompileParts(parts: seq<string>, limit: nat, selections: Selections): seq<Query>
    requires forall p <- parts :: |p| < limit
    decreases limit, 0, |parts|
  {
    if parts == [] then []
    else
      var rest := CompileParts(parts[1..], limit, selections);
      match CompileCondition(parts[0], selections)
      case None => rest
      case Some(q) => [q] + rest
  }

  /** `compile_rule`: the condition defaults to "selection". */
  function CompileRule(condition: Option<string>, selections: Selections): Option<Query> {
    CompileCondition(Strip(if condition.Some? then condition.value else "selection"), selections)
  }

  // ---- What a query and a rule mean ---------------------------------------

  /** An indexed document: keyword fields by name. */
  type Doc = map<string, string>

  /** Regular expression matching is left to the indexer. */
  type Regex = (string, string) -> bool

  /** Matching a document.  A `bool` query without clauses matches every document. */
  predicate Matches(re: Regex, doc: Doc, q: Query) {
    match q
    case Term(f, t) => f in doc && doc[f] == t
    case Terms(f, ts) => f in doc && doc[f] in ts
    case Wildcard(f, p) => f in doc && Like(p, doc[f])
    case Regexp(f, p) => f in doc && re(p, doc[f])
    case Filter(qs) => forall i :: 0 <= i < |qs| ==> Matches(re, doc, qs[i])
    case Should(qs) => qs == [] || exists i :: 0 <= i < |qs| && Matches(re, doc, qs[i])
  }

  ghost predicate PartHolds(doc: Doc, f: string, text: string) {
    f in doc && HasPart(text, doc[f])
  }

  /** What one selection entry asks of a document: a list under `contains` or
      `all` asks for every item as a part, another list for one item as the
      value, a single value for a part, a start, an end, a match or the value. */
  ghost predicate EntryHolds(re: Regex, doc: Doc, entry: (string, Value)) {
    var (f, mods) := (FieldName(entry.0), Modifiers(entry.0));
    match entry.1
    case Many(texts) =>
      if "contains" in mods || "all" in mods
      then forall i :: 0 <= i < |texts| ==> PartHolds(doc, f, texts[i])
      else f in doc && doc[f] in texts
    case One(text) =>
      && f in doc
      && if "contains" in mods then HasPart(text, doc[f])
         else if "startswith" in mods then HasPrefix(text, doc[f])
         else if "endswith" in mods then HasSuffix(text, doc[f])
         else if "re" in mods then re(text, doc[f])
         else doc[f] == text
  }

  ghost predicate SelectionHolds(re: Regex, doc: Doc, s: Selection) {
    s.Fields? && forall i :: 0 <= i < |s.entries| ==> EntryHolds(re, doc, s.entries[i])
  }

  predicate MatchesAll(re: Regex, doc: Doc, qs: seq<Query>) {
    forall i :: 0 <= i < |qs| ==> Matches(re, doc, qs[i])
  }

  /** One wildcard filter per listed item asks for every item. */
  lemma EveryItem(re: Regex, doc: Doc, f: string, texts: seq<string>)
    ensures MatchesAll(re, doc, PartFilters(f, texts)) <==>
            forall i :: 0 <= i < |texts| ==> PartHolds(doc, f, texts[i])
  {
    var qs := PartFilters(f, texts);
    forall i | 0 <= i < |texts| ensures Matches(re, doc, qs[i]) <==> PartHolds(doc, f, texts[i]) {
      if f in doc { PartPattern(texts[i], doc[f]); }
    }
    hide PartHolds, Matches;
    if MatchesAll(re, doc, qs) {
      forall i | 0 <= i < |texts| ensures PartHolds(doc, f, texts[i]) {
        assert Matches(re, doc, qs[i]);
      }
    }
  }

  lemma OneFilter(re: Regex, doc: Doc, q: Query)
    ensures MatchesAll(re, doc, [q]) <==> Matches(re, doc, q)
  {
    assert [q][0] == q;
  }

  lemma EntryMeaning(re: Regex, doc: Doc, entry: (string, Value))
    ensures MatchesAll(re, doc, EntryFilters(entry)) <==> EntryHolds(re, doc, entry)
  {
    hide MatchesAll, Modifiers, FieldName, Like, PartHolds, HasPart, HasPrefix, HasSuffix;
    var (f, qs, mods) := (FieldName(entry.0), EntryFilters(entry), Modifiers(entry.0));
    match entry.1
    case Many(texts) =>
      if "contains" in mods || "all" in mods {
        assert qs == PartFilters(f, texts);
        EveryItem(re, doc, f, texts);
      } else {
        OneFilter(re, doc, qs[0]);
      }
    case One(text) =>
      OneFilter(re, doc, qs[0]);
      if f in doc {
        PartPattern(text, doc[f]);
        PrefixPattern(text, doc[f]);
        SuffixPattern(text, doc[f]);
      }
  }

  lemma MatchesAllConcat(re: Regex, doc: Doc, a: seq<Query>, b: seq<Query>)
    ensures MatchesAll(re, doc, a + b) <==> MatchesAll(re, doc, a) && MatchesAll(re, doc, b)
  {
    if MatchesAll(re, doc, a + b) {
      forall i | 0 <= i < |a| ensures Matches(re, doc, a[i]) { assert (a + b)[i] == a[i]; }
      forall i | 0 <= i < |b| ensures Matches(re, doc, b[i]) { assert (a + b)[|a| + i] == b[i]; }
    }
  }

  lemma {:induction false} EntriesMeaning(re: Regex, doc: Doc, entries: seq<(string, Value)>)
    ensures MatchesAll(re, doc, AllFilters(entries)) <==>
            forall i :: 0 <= i < |entries| ==> EntryHolds(re, doc, entries[i])
  {
    hide EntryHolds, EntryFilters, Matches;
    if entries != [] {
      var (rest, last) := (entries[..|entries|-1], entries[|entries|-1]);
      EntriesMeaning(re, doc, rest);
      EntryMeaning(re, doc, last);
      MatchesAllConcat(re, doc, AllFilters(rest), EntryFilters(last));
      assert forall i :: 0 <= i < |rest| ==> entries[i] == rest[i];
    }
  }

  /** A selection that compiles matches the documents it holds on. */
  lemma SelectionMeaning(re: Regex, doc: Doc, s: Selection)
    requires SelectionQuery(s).Some?
    ensures Matches(re, doc, SelectionQuery(s).value) <==> SelectionHolds(re, doc, s)
  {
    hide EntryHolds, AllFilters;
    EntriesMeaning(re, doc, s.entries);
    assert Matches(re, doc, Filter(AllFilters(s.entries))) <==> MatchesAll(re, doc, AllFilters(s.entries));
  }

  lemma {:induction false} NothingToStrip(parts: seq<string>)
    requires forall i :: 0 <= i < |parts| ==> parts[i] != "" && Strip(parts[i]) == parts[i]
    ensures NonEmptyStripped(parts) == parts
  {
    if parts != [] {
      NothingToStrip(parts[1..]);
    }
  }

  // ---- Keys as they are written -------------------------------------------

  /** The key is that field and those modifier words, with bars between them. */
  predicate Writes(key: string, field: string, words: seq<string>) {
    && '|' !in field && (forall i :: 0 <= i < |words| ==> '|' !in words[i])
    && key == Join([field] + words, "|")
  }

  predicate HasWord(words: seq<string>, word: string) {
    exists i :: 0 <= i < |words| && Lower(Strip(words[i])) == word
  }

  /** What a field, its modifiers and a value ask of a document, as rules are
      written: blanks and case around a modifier play no part. */
  ghost predicate WordsHold(re: Regex, doc: Doc, field: string, words: seq<string>, value: Value) {
    match value
    case Many(texts) =>
      if HasWord(words, "contains") || HasWord(words, "all")
      then forall i :: 0 <= i < |texts| ==> PartHolds(doc, field, texts[i])
      else field in doc && doc[field] in texts
    case One(text) =>
      && field in doc
      && if HasWord(words, "contains") then HasPart(text, doc[field])
         else if HasWord(words, "startswith") then HasPrefix(text, doc[field])
         else if HasWord(words, "endswith") then HasSuffix(text, doc[field])
         else if HasWord(words, "re") then re(text, doc[field])
         else doc[field] == text
  }

  lemma {:induction false} KeyParts(key: string, field: string, words: seq<string>)
    requires Writes(key, field, words)
    ensures FieldName(key) == field
    ensures forall word :: word in Modifiers(key) <==> HasWord(words, word)
  {
    hide FreeOf, Join, Split, Strip, Lower;
    var parts := [field] + words;
    forall i | 0 <= i < |parts| ensures FreeOf(parts[i], "|") {
      CharIsFree(parts[i], '|');
    }
    SplitJoin(parts, "|");
    assert parts[1..] == words;
    assert Modifiers(key) == set m | m in words :: Lower(Strip(m));
  }

  /** Every key is written in some such way. */
  lemma {:induction false} EveryKeyIsWritten(key: string) returns (field: string, words: seq<string>)
    ensures Writes(key, field, words)
    decreases |key|
  {
    match Find(key, "|") {
      case None =>
        NoBarFound(key, |key|);
        field, words := key, [];
        assert [field] + words == [key];
      case Some(n) =>
        NoBarFound(key, n);
        var f, ws := EveryKeyIsWritten(key[n+1..]);
        field, words := key[..n], [f] + ws;
        assert ([field] + words)[1..] == [f] + ws;
        assert key[n..][..1] == "|" && key == key[..n] + "|" + key[n+1..];
    }
  }

  lemma NoBarFound(s: string, n: nat)
    requires n <= |s|
    requires forall i :: 0 <= i < n ==> !("|" <= s[i..])
    ensures '|' !in s[..n]
  {
    forall i | 0 <= i < n ensures s[i] != '|' {
      assert !("|" <= s[i..]) && s[i..][..1] == [s[i]];
    }
  }

  /** The filters of an entry whose key is written so match exactly the documents on
      which the field, the modifiers and the value hold. */
  lemma KeyMeaning(re: Regex, doc: Doc, key: string, field: string, words: seq<string>, value: Value)
    requires Writes(key, field, words)
    ensures MatchesAll(re, doc, EntryFilters((key, value))) <==> WordsHold(re, doc, field, words, value)
  {
    hide MatchesAll, EntryFilters, FieldName, Modifiers, HasWord, HasPart, HasPrefix, HasSuffix, Writes, PartHolds;
    EntryMeaning(re, doc, (key, value));
    KeyParts(key, field, words);
  }

  /** The five readings of a single value, for a plain text: as a part, a start, an
      end, a regular expression or the value. */
  lemma ModifierMeanings(re: Regex, doc: Doc, field: string, text: string)
    requires '|' !in field && field in doc && '*' !in text && '?' !in text
    ensures MatchesAll(re, doc, EntryFilters((field + "|contains", One(text)))) <==>
            exists i: nat, j: nat :: i <= j <= |doc[field]| && doc[field][i..j] == text
    ensures MatchesAll(re, doc, EntryFilters((field + "|startswith", One(text)))) <==> text <= doc[field]
    ensures MatchesAll(re, doc, EntryFilters((field + "|endswith", One(text)))) <==>
            exists i: nat :: i <= |doc[field]| && doc[field][i..] == text
    ensures MatchesAll(re, doc, EntryFilters((field + "|re", One(text)))) <==> re(text, doc[field])
    ensures MatchesAll(re, doc, EntryFilters((field, One(text)))) <==> doc[field] == text
  {
    hide MatchesAll, EntryFilters, HasPart, HasPrefix, HasSuffix;
    assert field + "|contains" == field + "|" + "contains" && field + "|startswith" == field + "|" + "startswith";
    assert field + "|endswith" == field + "|" + "endswith" && field + "|re" == field + "|" + "re";
    OneModifier(re, doc, field, "contains", text);
    OneModifier(re, doc, field, "startswith", text);
    OneModifier(re, doc, field, "endswith", text);
    OneModifier(re, doc, field, "re", text);
    NoModifier(re, doc, field, text);
    PlainParts(text, doc[field]);
  }

  /** What a single modifier asks of a single value. */
  lemma OneModifier(re: Regex, doc: Doc, field: string, word: string, text: string)
    requires '|' !in field && field in doc && word in {"contains", "startswith", "endswith", "re"}
    ensures MatchesAll(re, doc, EntryFilters((field + "|" + word, One(text)))) <==>
            match word[0]
            case 'c' => HasPart(text, doc[field])
            case 's' => HasPrefix(text, doc[field])
            case 'e' => HasSuffix(text, doc[field])
            case _ => re(text, doc[field])
  {
    hide MatchesAll, EntryFilters, HasPart, HasPrefix, HasSuffix, HasWord;
    OneWord(field, word);
    KeyMeaning(re, doc, field + "|" + word, field, [word], One(text));
  }

  lemma NoModifier(re: Regex, doc: Doc, field: string, text: string)
    requires '|' !in field && field in doc
    ensures MatchesAll(re, doc, EntryFilters((field, One(text)))) <==> doc[field] == text
  {
    hide MatchesAll, EntryFilters;
    assert [field] + [] == [field];
    assert Writes(field, field, []);
    KeyMeaning(re, doc, field, field, [], One(text));
  }

  lemma OneWord(field: string, word: string)
    requires '|' !in field && '|' !in word && word != ""
    requires forall i :: 0 <= i < |word| ==> 'a' <= word[i] <= 'z'
    ensures Writes(field + "|" + word, field, [word])
    ensures forall other :: HasWord([word], other) <==> other == word
  {
    hide Strip, Lower;
    assert ([field] + [word])[1..] == [word];
    JoinOfOne(word, "|");
    StripKeeps(word);
    assert Lower(word) == word;
    assert [word][0] == word;
  }

  lemma PlainParts(text: string, s: string)
    requires '*' !in text && '?' !in text
    ensures HasPart(text, s) <==> exists i: nat, j: nat :: i <= j <= |s| && s[i..j] == text
    ensures HasPrefix(text, s) <==> text <= s
    ensures HasSuffix(text, s) <==> exists i: nat :: i <= |s| && s[i..] == text
  {
    hide Like;
    forall t ensures Like(text, t) <==> text == t {
      PlainPattern(text, t);
    }
    assert text <= s ==> s[..|text|] == text;
  }

  // ---- Selection names ----------------------------------------------------

  /** A word that, with a space on either side, contains neither connective. */
  predicate Clear(s: string, connective: string) {
    !Contains(" " + s + " ", connective)
  }

  predicate Trimmed(s: string) {
    s != "" && !IsSpace(s[0]) && !IsSpace(s[|s|-1])
  }

  /** A selection name that a condition can mention: trimmed, and neither
      containing nor completing a connective. */
  predicate GoodName(s: string) {
    Trimmed(s) && Clear(s, " or ") && Clear(s, " and ")
  }

  /** Every word without white space, other than the connectives, is such a name. */
  lemma WordsAreGoodNames(s: string)
    requires s !in {"", "or", "and"} && forall i :: 0 <= i < |s| ==> !IsSpace(s[i])
    ensures GoodName(s)
  {
    WordIsClear(s, " or ", "or");
    WordIsClear(s, " and ", "and");
  }

  lemma WordIsClear(s: string, sep: string, word: string)
    requires word in {"or", "and"} && sep == " " + word + " " && s != word
    requires forall i :: 0 <= i < |s| ==> !IsSpace(s[i])
    ensures Clear(s, sep)
  {
    var r := Find(" " + s + " ", sep);
    if r.Some? {
      OccurrenceIsWord(s, sep, word, r.value);
    }
  }

  lemma OccurrenceIsWord(s: string, sep: string, word: string, i: nat)
    requires word != "" && sep == " " + word + " " && forall k :: 0 <= k < |s| ==> !IsSpace(s[k])
    requires i + |sep| <= |s| + 2 && (" " + s + " ")[i..][..|sep|] == sep
    ensures s == word
  {
    var padded := " " + s + " ";
    assert WHITESPACE[0] == ' ';
    assert padded[i..][..|sep|][0] == padded[i] && padded[i..][..|sep|][|sep|-1] == padded[i+|sep|-1];
    assert forall k :: 0 < k <= |s| ==> padded[k] == s[k-1] && padded[k] != ' ';
    assert i == 0 && |sep| == |s| + 2;
    assert padded[i..][..|sep|] == padded;
    assert s == padded[1..|s|+1] && word == sep[1..|s|+1];
  }

  lemma ClearHasNone(s: string, sep: string, i: nat)
    requires Clear(s, sep) && i <= |s| + 2
    ensures !(sep <= (" " + s + " ")[i..])
  {
  }

  lemma ShiftedWindow(s: string, i: nat, n: nat)
    requires i + n <= |s|
    ensures (" " + s)[i+1..i+1+n] == s[i..i+n]
  {
  }

  lemma NotInside(s: string, sep: string, i: nat)
    requires sep != "" && sep[0] == ' ' && Clear(s, sep)
    requires i + |sep| <= |s| + 1
    ensures !(sep <= (s + sep)[i..])
  {
    hide Clear;
    var (t, padded, core) := (s + sep, " " + s + " ", s + " ");
    assert t == core + sep[1..] && padded == " " + core;
    assert t[i..i+|sep|] == core[i..i+|sep|];
    ShiftedWindow(core, i, |sep|);
    SameWindow(t, i, padded, i + 1, sep);
    ClearHasNone(s, sep, i + 1);
  }

  lemma NotAcross(s: string, sep: string, i: nat)
    requires sep in {" or ", " and "}
    requires i < |s| && |s| + 1 < i + |sep|
    ensures !(sep <= (s + sep)[i..])
  {
    var k := |s| - i;
    assert (s + sep)[i..][k] == sep[0] == ' ';
    assert sep[k] != ' ';
  }

  /** A connective starts and ends with its only spaces, so it cannot overlap
      the one that follows a clear word. */
  lemma {:induction false} ClearIsFree(s: string, sep: string)
    requires sep in {" or ", " and "}
    requires Clear(s, sep)
    ensures FreeOf(s, sep)
  {
    var t := s + sep;
    forall i | 0 <= i < |s| ensures !(sep <= t[i..]) {
      hide Clear;
      if i + |sep| <= |s| + 1 {
        NotInside(s, sep, i);
      } else {
        NotAcross(s, sep, i);
      }
    }
    hide Clear;
    assert t[|s|..] == sep;
    FindIs(t, sep, |s|);
  }

  lemma NoOrAcross(a: string, b: string, i: nat)
    requires Clear(a, " or ") && Clear(b, " or ")
    requires i + 4 <= |a| + |b| + 7
    ensures (" " + a + " and " + b + " ")[i..][..4] != " or "
  {
    hide Clear;
    var (s, n) := (" " + a + " and " + b + " ", |a| + 2);
    var t := s[i..][..4];
    if t == " or " {
      assert s[n] == 'a' && s[n+1] == 'n' && s[n+2] == 'd';
      assert t[0] == s[i] && t[1] == s[i+1] && t[2] == s[i+2] && t[3] == s[i+3];
      if i + 4 <= n {
        assert (" " + a + " ")[i..][..4] == t;
        ClearHasNone(a, " or ", i);
      } else {
        assert i >= n + 3;
        assert (" " + b + " ")[i - (n + 3)..][..4] == t;
        ClearHasNone(b, " or ", i - (n + 3));
      }
    }
  }

  /** Joining clear words with " and " introduces no " or ". */
  lemma ClearAnd(a: string, b: string)
    requires Clear(a, " or ") && Clear(b, " or ")
    ensures Clear(a + " and " + b, " or ")
  {
    var s := " " + a + " and " + b + " ";
    assert " " + (a + " and " + b) + " " == s;
    var r := Find(s, " or ");
    if r.Some? {
      NoOrAcross(a, b, r.value);
    }
  }

  // ---- Conditions in disjunctive form --------------------------------------

  /** An or-of-ands over selection names, and the condition that writes it. */
  type Dnf = seq<seq<string>>

  function RenderAnd(names: seq<string>): string {
    Join(names, " and ")
  }

  function RenderParts(dnf: Dnf): seq<string> {
    seq(|dnf|, i requires 0 <= i < |dnf| => RenderAnd(dnf[i]))
  }

  function Render(dnf: Dnf): string {
    Join(RenderParts(dnf), " or ")
  }

  /** The selection a name stands for: the one of that name, or else the one
      called "selection", or else the first. */
  function Resolve(selections: Selections, name: string): Selection
    requires selections != []
  {
    if Named(selections, name).Some? then Named(selections, name).value
    else if Named(selections, "selection").Some? then Named(selections, "selection").value
    else selections[0].1
  }

  predicate Compiles(selections: Selections, name: string)
    requires selections != []
  {
    SelectionQuery(Resolve(selections, name)).Some?
  }

  predicate GoodNames(names: seq<string>) {
    names != [] && forall j :: 0 <= j < |names| ==> GoodName(names[j])
  }

  /** Every name is one that a condition can mention. */
  predicate Writable(dnf: Dnf) {
    dnf != [] && forall i :: 0 <= i < |dnf| ==> GoodNames(dnf[i])
  }

  /** What a name asks of a document. */
  ghost predicate NameHolds(re: Regex, doc: Doc, name: string, selections: Selections)
    requires selections != []
  {
    SelectionHolds(re, doc, Resolve(selections, name))
  }

  /** A conjunction yields a query unless it is a single name that yields none. */
  predicate AndCompiles(names: seq<string>, selections: Selections)
    requires selections != [] && names != []
  {
    |names| > 1 || Compiles(selections, names[0])
  }

  /** The code's reading of a conjunction: names that do not compile are dropped. */
  ghost predicate NamesHold(re: Regex, doc: Doc, names: seq<string>, selections: Selections)
    requires selections != []
  {
    forall j :: 0 <= j < |names| && Compiles(selections, names[j]) ==> NameHolds(re, doc, names[j], selections)
  }

  /** The code's reading of the whole: if every conjunction is dropped, nothing is
      left to ask. */
  ghost predicate ConditionHolds(re: Regex, doc: Doc, dnf: Dnf, selections: Selections)
    requires selections != [] && forall i :: 0 <= i < |dnf| ==> dnf[i] != []
  {
    || (forall i :: 0 <= i < |dnf| ==> !AndCompiles(dnf[i], selections))
    || exists i :: 0 <= i < |dnf| && AndCompiles(dnf[i], selections) && NamesHold(re, doc, dnf[i], selections)
  }

  lemma TrimmedConcat(a: string, b: string, c: string)
    requires Trimmed(a) && Trimmed(c)
    ensures Trimmed(a + b + c)
  {
    var s := a + b + c;
    assert s[0] == a[0] && s[|s|-1] == c[|c|-1];
  }

  lemma {:induction false} JoinTrimmed(parts: seq<string>, sep: string)
    requires parts != [] && forall i :: 0 <= i < |parts| ==> Trimmed(parts[i])
    ensures Trimmed(Join(parts, sep))
  {
    if |parts| > 1 {
      JoinTrimmed(parts[1..], sep);
      TrimmedConcat(parts[0], sep, Join(parts[1..], sep));
    }
  }

  lemma {:induction false} JoinClear(names: seq<string>)
    requires names != [] && forall i :: 0 <= i < |names| ==> Clear(names[i], " or ")
    ensures Clear(RenderAnd(names), " or ")
  {
    hide Clear;
    if |names| > 1 {
      JoinClear(names[1..]);
      ClearAnd(names[0], RenderAnd(names[1..]));
    }
  }

  /** The condition compiles to a query that the document matches. */
  ghost predicate PartMatches(re: Regex, doc: Doc, part: string, selections: Selections) {
    CompileCondition(part, selections).Some? && Matches(re, doc, CompileCondition(part, selections).value)
  }

  ghost predicate PartAllows(re: Regex, doc: Doc, part: string, selections: Selections) {
    CompileCondition(part, selections).Some? ==> Matches(re, doc, CompileCondition(part, selections).value)
  }

  ghost predicate MatchesAny(re: Regex, doc: Doc, qs: seq<Query>) {
    exists i :: 0 <= i < |qs| && Matches(re, doc, qs[i])
  }

  lemma AllOfMore(re: Regex, doc: Doc, q: Query, rest: seq<Query>)
    ensures MatchesAll(re, doc, [q] + rest) <==> Matches(re, doc, q) && MatchesAll(re, doc, rest)
    ensures MatchesAny(re, doc, [q] + rest) <==> Matches(re, doc, q) || MatchesAny(re, doc, rest)
  {
    hide Matches;
    var qs := [q] + rest;
    assert qs[0] == q;
    assert forall i :: 0 < i < |qs| ==> qs[i] == rest[i-1];
    if MatchesAll(re, doc, qs) {
      forall i | 0 <= i < |rest| ensures Matches(re, doc, rest[i]) { assert qs[i+1] == rest[i]; }
    }
    if MatchesAny(re, doc, rest) {
      var i :| 0 <= i < |rest| && Matches(re, doc, rest[i]);
      assert qs[i+1] == rest[i];
    }
  }

  /** The queries of some parts: all match exactly when every part that compiles
      does, and some matches exactly when some part does. */
  lemma {:induction false} PartsMeaning(re: Regex, doc: Doc, parts: seq<string>, limit: nat, selections: Selections)
    requires forall p <- parts :: |p| < limit
    ensures var qs := CompileParts(parts, limit, selections);
            && (MatchesAll(re, doc, qs) <==> forall i :: 0 <= i < |parts| ==> PartAllows(re, doc, parts[i], selections))
            && (MatchesAny(re, doc, qs) <==> exists i :: 0 <= i < |parts| && PartMatches(re, doc, parts[i], selections))
            && (qs == [] <==> forall i :: 0 <= i < |parts| ==> CompileCondition(parts[i], selections).None?)
  {
    hide CompileCondition, Matches;
    if parts != [] {
      var rest := parts[1..];
      PartsMeaning(re, doc, rest, limit, selections);
      if CompileCondition(parts[0], selections).Some? {
        hide MatchesAll, MatchesAny;
        AllOfMore(re, doc, CompileCondition(parts[0], selections).value, CompileParts(rest, limit, selections));
        HeadAndRest(re, doc, parts, selections);
      } else {
        HeadAndRest(re, doc, parts, selections);
      }
    }
  }

  lemma HeadAndRest(re: Regex, doc: Doc, parts: seq<string>, selections: Selections)
    requires parts != []
    ensures (forall i :: 0 <= i < |parts| ==> PartAllows(re, doc, parts[i], selections)) <==>
              PartAllows(re, doc, parts[0], selections)
              && forall i :: 0 <= i < |parts[1..]| ==> PartAllows(re, doc, parts[1..][i], selections)
    ensures (exists i :: 0 <= i < |parts| && PartMatches(re, doc, parts[i], selections)) <==>
              PartMatches(re, doc, parts[0], selections)
              || exists i :: 0 <= i < |parts[1..]| && PartMatches(re, doc, parts[1..][i], selections)
    ensures (forall i :: 0 <= i < |parts| ==> CompileCondition(parts[i], selections).None?) <==>
              CompileCondition(parts[0], selections).None?
              && forall i :: 0 <= i < |parts[1..]| ==> CompileCondition(parts[1..][i], selections).None?
  {
    hide PartAllows, PartMatches, CompileCondition;
    var rest := parts[1..];
    assert forall i :: 0 <= i < |rest| ==> rest[i] == parts[i+1];
    assert forall i :: 0 < i < |parts| ==> parts[i] == rest[i-1];
  }

  /** Conditions without a connective, of one connective, and of the other. */
  lemma CompileName(name: string, selections: Selections)
    requires selections != [] && GoodName(name)
    ensures CompileCondition(name, selections) == SelectionQuery(Resolve(selections, name))
  {
    hide Clear, FreeOf, Find, SelectionQuery, Named;
    ClearIsFree(name, " or ");
    ClearIsFree(name, " and ");
    FreeHasNone(name, " or ");
    FreeHasNone(name, " and ");
  }

  lemma {:induction false} OrIsShould(parts: seq<string>, selections: Selections)
    requires selections != [] && |parts| > 1
    requires forall i :: 0 <= i < |parts| ==> Trimmed(parts[i]) && FreeOf(parts[i], " or ")
    ensures var text := Join(parts, " or ");
            && (forall p <- parts :: |p| < |text|)
            && CompileCondition(text, selections) == Some(Should(CompileParts(parts, |text|, selections)))
  {
    hide FreeOf, Find, Split, Join, Strip, Trimmed, CompileParts;
    SplitJoin(parts, " or ");
    StripParts(parts);
  }

  lemma {:induction false} AndIsFilter(parts: seq<string>, selections: Selections)
    requires selections != [] && |parts| > 1
    requires !Contains(Join(parts, " and "), " or ")
    requires forall i :: 0 <= i < |parts| ==> Trimmed(parts[i]) && FreeOf(parts[i], " and ")
    ensures var text := Join(parts, " and ");
            && (forall p <- parts :: |p| < |text|)
            && CompileCondition(text, selections) == Some(Filter(CompileParts(parts, |text|, selections)))
  {
    hide FreeOf, Find, Split, Join, Strip, Trimmed, CompileParts;
    SplitJoin(parts, " and ");
    StripParts(parts);
  }

  lemma CompileOr(re: Regex, doc: Doc, parts: seq<string>, selections: Selections)
    requires selections != [] && |parts| > 1
    requires forall i :: 0 <= i < |parts| ==> Trimmed(parts[i]) && FreeOf(parts[i], " or ")
    ensures PartMatches(re, doc, Join(parts, " or "), selections) <==>
            (forall i :: 0 <= i < |parts| ==> CompileCondition(parts[i], selections).None?)
            || exists i :: 0 <= i < |parts| && PartMatches(re, doc, parts[i], selections)
    ensures CompileCondition(Join(parts, " or "), selections).Some?
  {
    hide FreeOf, Trimmed, Join, CompileParts, CompileCondition, Matches, PartAllows;
    var text := Join(parts, " or ");
    OrIsShould(parts, selections);
    PartsMeaning(re, doc, parts, |text|, selections);
    ShouldMeaning(re, doc, Should(CompileParts(parts, |text|, selections)));
  }

  lemma CompileAnd(re: Regex, doc: Doc, parts: seq<string>, selections: Selections)
    requires selections != [] && |parts| > 1
    requires !Contains(Join(parts, " and "), " or ")
    requires forall i :: 0 <= i < |parts| ==> Trimmed(parts[i]) && FreeOf(parts[i], " and ")
    ensures PartMatches(re, doc, Join(parts, " and "), selections) <==>
            forall i :: 0 <= i < |parts| ==> PartAllows(re, doc, parts[i], selections)
    ensures CompileCondition(Join(parts, " and "), selections).Some?
  {
    hide FreeOf, Trimmed, Join, CompileParts, CompileCondition, Matches, PartAllows;
    var text := Join(parts, " and ");
    AndIsFilter(parts, selections);
    PartsMeaning(re, doc, parts, |text|, selections);
    FilterMeaning(re, doc, Filter(CompileParts(parts, |text|, selections)));
  }

  lemma StripParts(parts: seq<string>)
    requires forall i :: 0 <= i < |parts| ==> Trimmed(parts[i])
    ensures NonEmptyStripped(parts) == parts
  {
    hide Strip;
    forall i | 0 <= i < |parts| ensures parts[i] != "" && Strip(parts[i]) == parts[i] {
      TrimmedKeeps(parts[i]);
    }
    NothingToStrip(parts);
  }

  /** One name: its query, if it compiles, matches where its selection holds. */
  lemma NameMeaning(re: Regex, doc: Doc, name: string, selections: Selections)
    requires selections != [] && GoodName(name)
    ensures CompileCondition(name, selections).Some? <==> Compiles(selections, name)
    ensures PartMatches(re, doc, name, selections) <==>
              Compiles(selections, name) && NameHolds(re, doc, name, selections)
    ensures PartAllows(re, doc, name, selections) <==>
              (Compiles(selections, name) ==> NameHolds(re, doc, name, selections))
  {
    hide CompileCondition, SelectionHolds, SelectionQuery, Resolve, Matches, GoodName;
    CompileName(name, selections);
    if Compiles(selections, name) {
      SelectionMeaning(re, doc, Resolve(selections, name));
    }
  }

  lemma AndMeaning(re: Regex, doc: Doc, names: seq<string>, selections: Selections)
    requires selections != [] && GoodNames(names)
    ensures CompileCondition(RenderAnd(names), selections).Some? <==> AndCompiles(names, selections)
    ensures PartMatches(re, doc, RenderAnd(names), selections) <==>
              AndCompiles(names, selections) && NamesHold(re, doc, names, selections)
  {
    hide CompileCondition, NameHolds, Compiles, PartMatches, PartAllows, Clear, FreeOf, Trimmed, Find, Join;
    forall j | 0 <= j < |names|
      ensures FreeOf(names[j], " and ")
      ensures PartAllows(re, doc, names[j], selections) <==>
                (Compiles(selections, names[j]) ==> NameHolds(re, doc, names[j], selections))
    {
      NameMeaning(re, doc, names[j], selections);
      ClearIsFree(names[j], " and ");
    }
    if |names| == 1 {
      NameMeaning(re, doc, names[0], selections);
      JoinOfOne(names[0], " and ");
      assert names == [names[0]];
    } else {
      JoinClear(names);
      ClearIsFree(RenderAnd(names), " or ");
      FreeHasNone(RenderAnd(names), " or ");
      CompileAnd(re, doc, names, selections);
    }
  }

  lemma FilterMeaning(re: Regex, doc: Doc, q: Query)
    requires q.Filter?
    ensures Matches(re, doc, q) <==> MatchesAll(re, doc, q.all)
  {
  }

  lemma ShouldMeaning(re: Regex, doc: Doc, q: Query)
    requires q.Should?
    ensures Matches(re, doc, q) <==> q.any == [] || MatchesAny(re, doc, q.any)
  {
  }

  lemma TrimmedKeeps(s: string)
    requires Trimmed(s)
    ensures Strip(s) == s
  {
    StripKeeps(s);
  }

  lemma PartIsGood(names: seq<string>)
    requires GoodNames(names)
    ensures FreeOf(RenderAnd(names), " or ") && Trimmed(RenderAnd(names))
  {
    hide Clear, FreeOf, Trimmed, Join, Find;
    assert forall j :: 0 <= j < |names| ==> GoodName(names[j]);
    JoinClear(names);
    ClearIsFree(RenderAnd(names), " or ");
    JoinTrimmed(names, " and ");
  }

  // ---- What a compiled rule means ---------------------------------------------

  /** The exact meaning of every or-of-ands over names: each name stands for the
      selection it resolves to, names that do not compile are dropped from their
      conjunction, and a conjunction that is one such name is dropped as well.
      Only a condition that is one such name compiles to nothing. */
  lemma CompilationIsExact(re: Regex, doc: Doc, dnf: Dnf, selections: Selections)
    requires selections != [] && Writable(dnf)
    ensures var q := CompileRule(Some(Render(dnf)), selections);
            && (q.Some? <==> |dnf| > 1 || AndCompiles(dnf[0], selections))
            && (q.Some? ==> (Matches(re, doc, q.value) <==> ConditionHolds(re, doc, dnf, selections)))
  {
    hide CompileCondition, GoodNames, NamesHold, AndCompiles, RenderAnd, Matches, FreeOf, Trimmed, Strip, Join;
    var parts := RenderParts(dnf);
    forall i | 0 <= i < |dnf|
      ensures FreeOf(parts[i], " or ") && Trimmed(parts[i]) && dnf[i] != []
      ensures CompileCondition(parts[i], selections).Some? <==> AndCompiles(dnf[i], selections)
      ensures PartMatches(re, doc, parts[i], selections) <==>
                AndCompiles(dnf[i], selections) && NamesHold(re, doc, dnf[i], selections)
    {
      assert GoodNames(dnf[i]);
      NamesAreSome(dnf[i]);
      PartIsGood(dnf[i]);
      AndMeaning(re, doc, dnf[i], selections);
    }
    JoinTrimmed(parts, " or ");
    TrimmedKeeps(Render(dnf));
    if |dnf| == 1 {
      JoinOfOne(parts[0], " or ");
      assert parts == [parts[0]];
    } else {
      CompileOr(re, doc, parts, selections);
    }
  }

  lemma NamesAreSome(names: seq<string>)
    requires GoodNames(names)
    ensures names != []
  {
  }

  // ---- Rules as they are written --------------------------------------------------

  /** The entry holds on the document as its key is written. */
  ghost predicate EntryAsWritten(re: Regex, doc: Doc, entry: (string, Value)) {
    exists field, words :: Writes(entry.0, field, words) && WordsHold(re, doc, field, words, entry.1)
  }

  ghost predicate SelectionAsWritten(re: Regex, doc: Doc, s: Selection) {
    s.Fields? && forall i :: 0 <= i < |s.entries| ==> EntryAsWritten(re, doc, s.entries[i])
  }

  /** The entry asks something: it is not an empty list of parts. */
  ghost predicate EntryAsks(entry: (string, Value)) {
    exists field, words ::
      Writes(entry.0, field, words) && !(entry.1 == Many([]) && (HasWord(words, "contains") || HasWord(words, "all")))
  }

  ghost predicate SelectionAsks(s: Selection) {
    s.Fields? && exists i :: 0 <= i < |s.entries| && EntryAsks(s.entries[i])
  }

  lemma EntriesAreAsWritten(re: Regex, doc: Doc, entry: (string, Value))
    ensures EntryHolds(re, doc, entry) <==> EntryAsWritten(re, doc, entry)
    ensures EntryFilters(entry) != [] <==> EntryAsks(entry)
  {
    hide Writes, WordsHold, EntryHolds, MatchesAll, HasWord, FieldName, Modifiers;
    var field, words := EveryKeyIsWritten(entry.0);
    forall f, ws | Writes(entry.0, f, ws)
      ensures EntryHolds(re, doc, entry) <==> WordsHold(re, doc, f, ws, entry.1)
      ensures EntryFilters(entry) != [] <==>
              !(entry.1 == Many([]) && (HasWord(ws, "contains") || HasWord(ws, "all")))
    {
      EntryMeaning(re, doc, entry);
      KeyMeaning(re, doc, entry.0, f, ws, entry.1);
      KeyParts(entry.0, f, ws);
    }
  }

  lemma {:induction false} FiltersExist(entries: seq<(string, Value)>)
    ensures AllFilters(entries) != [] <==> exists i :: 0 <= i < |entries| && EntryFilters(entries[i]) != []
  {
    hide EntryFilters;
    if entries != [] {
      FiltersExist(entries[..|entries|-1]);
    }
  }

  lemma SelectionsAreAsWritten(re: Regex, doc: Doc, s: Selection)
    ensures SelectionHolds(re, doc, s) <==> SelectionAsWritten(re, doc, s)
    ensures SelectionQuery(s).Some? <==> SelectionAsks(s)
  {
    hide EntryHolds, EntryAsWritten, EntryAsks, EntryFilters, AllFilters;
    if s.Fields? {
      FiltersExist(s.entries);
      forall i | 0 <= i < |s.entries|
        ensures EntryHolds(re, doc, s.entries[i]) <==> EntryAsWritten(re, doc, s.entries[i])
        ensures EntryFilters(s.entries[i]) != [] <==> EntryAsks(s.entries[i])
      {
        EntriesAreAsWritten(re, doc, s.entries[i]);
      }
    }
  }

  /** The selections are a mapping. */
  predicate IsDict(selections: Selections) {
    forall j, k :: 0 <= j < k < |selections| ==> selections[j].0 != selections[k].0
  }

  lemma {:induction false} NamedIs(selections: Selections, k: nat)
    requires IsDict(selections) && k < |selections|
    ensures Named(selections, selections[k].0) == Some(selections[k].1)
  {
    if k > 0 {
      NamedIs(selections[1..], k - 1);
    }
  }

  /** The selection of that name asks something. */
  ghost predicate NameAsks(selections: Selections, name: string) {
    exists k :: 0 <= k < |selections| && selections[k].0 == name && SelectionAsks(selections[k].1)
  }

  /** The selection of that name holds on the document. */
  ghost predicate NameHoldsAsWritten(re: Regex, doc: Doc, selections: Selections, name: string) {
    exists k :: 0 <= k < |selections| && selections[k].0 == name && SelectionAsWritten(re, doc, selections[k].1)
  }

  /** Every name is that of a selection that asks something. */
  ghost predicate AllNamed(dnf: Dnf, selections: Selections) {
    forall i, j :: 0 <= i < |dnf| && 0 <= j < |dnf[i]| ==> NameAsks(selections, dnf[i][j])
  }

  ghost predicate AllHold(re: Regex, doc: Doc, names: seq<string>, selections: Selections) {
    forall j :: 0 <= j < |names| ==> NameHoldsAsWritten(re, doc, selections, names[j])
  }

  /** The or-of-ands as written: all the named selections of some conjunction hold. */
  ghost predicate HoldsAsWritten(re: Regex, doc: Doc, dnf: Dnf, selections: Selections) {
    exists i :: 0 <= i < |dnf| && AllHold(re, doc, dnf[i], selections)
  }

  lemma NamesAreAsWritten(re: Regex, doc: Doc, selections: Selections, name: string)
    requires selections != [] && IsDict(selections) && NameAsks(selections, name)
    ensures Compiles(selections, name)
    ensures NameHolds(re, doc, name, selections) <==> NameHoldsAsWritten(re, doc, selections, name)
  {
    hide SelectionHolds, SelectionAsWritten, SelectionAsks, SelectionQuery, Named;
    var k :| 0 <= k < |selections| && selections[k].0 == name && SelectionAsks(selections[k].1);
    NamedIs(selections, k);
    SelectionsAreAsWritten(re, doc, selections[k].1);
  }

  /** Main result: where every name is that of a selection that asks something, the
      query compiled from the text of an or-of-ands matches exactly the documents
      on which it holds as written, field by field and modifier by modifier. */
  lemma CompilationPreservesMeaning(re: Regex, doc: Doc, dnf: Dnf, selections: Selections)
    requires selections != [] && IsDict(selections) && Writable(dnf) && AllNamed(dnf, selections)
    ensures var q := CompileRule(Some(Render(dnf)), selections);
            q.Some? && (Matches(re, doc, q.value) <==> HoldsAsWritten(re, doc, dnf, selections))
  {
    hide CompileRule, Matches, NameHolds, NameHoldsAsWritten, NameAsks, GoodName, Render, IsDict, Compiles;
    CompilationIsExact(re, doc, dnf, selections);
    forall i | 0 <= i < |dnf|
      ensures AndCompiles(dnf[i], selections)
      ensures NamesHold(re, doc, dnf[i], selections) <==> AllHold(re, doc, dnf[i], selections)
    {
      assert GoodNames(dnf[i]);
      forall j | 0 <= j < |dnf[i]|
        ensures Compiles(selections, dnf[i][j])
        ensures NameHolds(re, doc, dnf[i][j], selections) <==> NameHoldsAsWritten(re, doc, selections, dnf[i][j])
      {
        NamesAreAsWritten(re, doc, selections, dnf[i][j]);
      }
    }
    assert dnf != [] && AndCompiles(dnf[0], selections);
    hide NamesHold, AllHold, AndCompiles;
    assert ConditionHolds(re, doc, dnf, selections) <==> HoldsAsWritten(re, doc, dnf, selections);
  }

  /** A rule without a condition asks for "selection", and blanks around a condition
      play no part. */
  lemma ConditionDefaults(selections: Selections, condition: string)
    ensures CompileRule(None, selections) == CompileRule(Some("selection"), selections)
    ensures CompileRule(Some(Strip(condition)), selections) == CompileRule(Some(condition), selections)
  {
    hide CompileCondition, Strip;
    StripKeeps(Strip(condition));
  }

  /** The parts of a condition are stripped and the blank ones dropped. */
  lemma {:induction false} PaddingPlaysNoPart(parts: seq<string>, sep: string, selections: Selections)
    requires sep in {" or ", " and "} && |parts| > 1 && |NonEmptyStripped(parts)| > 1
    requires forall i :: 0 <= i < |parts| ==> FreeOf(parts[i], sep)
    requires forall i :: 0 <= i < |NonEmptyStripped(parts)| ==> FreeOf(NonEmptyStripped(parts)[i], sep)
    requires sep == " and " ==>
               !Contains(Join(parts, sep), " or ") && !Contains(Join(NonEmptyStripped(parts), sep), " or ")
    ensures CompileCondition(Join(parts, sep), selections) ==
            CompileCondition(Join(NonEmptyStripped(parts), sep), selections)
  {
    hide FreeOf, Find, Split, Join, Strip, CompileParts, Trimmed;
    var stripped := NonEmptyStripped(parts);
    SplitJoin(parts, sep);
    SplitJoin(stripped, sep);
    StrippedAreTrimmed(parts);
    StripParts(stripped);
    if selections != [] {
      LimitsAgree(stripped, |Join(parts, sep)|, |Join(stripped, sep)|, selections);
    }
  }

  lemma {:induction false} StrippedAreTrimmed(parts: seq<string>)
    ensures forall i :: 0 <= i < |NonEmptyStripped(parts)| ==> Trimmed(NonEmptyStripped(parts)[i])
  {
    hide Strip;
    if parts != [] {
      StrippedAreTrimmed(parts[1..]);
    }
  }

  lemma {:induction false} LimitsAgree(parts: seq<string>, m: nat, n: nat, selections: Selections)
    requires forall p <- parts :: |p| < m && |p| < n
    ensures CompileParts(parts, m, selections) == CompileParts(parts, n, selections)
  {
    hide CompileCondition;
    if parts != [] {
      LimitsAgree(parts[1..], m, n, selections);
    }
  }

  // ---- Outside that fragment ----------------------------------------------------

  /** A condition that is not a selection name and has no connective, such as
      "1 of them", compiles to the query of "selection", or of the first
      selection if none is called that. */
  lemma UnknownNameFallsBack(condition: string, selections: Selections)
    requires selections != []
    requires !Contains(condition, " or ") && !Contains(condition, " and ")
    requires Named(selections, condition).None?
    ensures var fallback := if Named(selections, "selection").Some? then "selection" else selections[0].0;
            CompileCondition(condition, selections) == SelectionQuery(Named(selections, fallback).value)
  {
    hide SelectionQuery;
  }

  /** A conjunction of several names of which none compiles matches every document. */
  lemma NothingLeftMatchesAll(re: Regex, doc: Doc, names: seq<string>, selections: Selections)
    requires selections != [] && GoodNames(names) && |names| > 1
    requires forall j :: 0 <= j < |names| ==> !Compiles(selections, names[j])
    ensures var q := CompileRule(Some(RenderAnd(names)), selections);
            q.Some? && Matches(re, doc, q.value)
  {
    hide Matches, GoodNames, CompileRule, Compiles;
    CompilationIsExact(re, doc, [names], selections);
    JoinOfOne(RenderAnd(names), " or ");
    assert RenderParts([names]) == [RenderAnd(names)] && [names][0] == names;
  }

  /** A negated name is one that a condition can mention. */
  lemma NegatedNameIsGood(name: string)
    requires GoodName(name)
    ensures GoodName("not " + name)
  {
    hide Clear;
    NegatedIsClear(name, " or ");
    NegatedIsClear(name, " and ");
  }

  lemma NegatedIsClear(name: string, sep: string)
    requires sep in {" or ", " and "} && Clear(name, sep)
    ensures Clear("not " + name, sep)
  {
    var (s, padded) := (" not " + name + " ", " " + name + " ");
    assert " " + ("not " + name) + " " == s;
    forall i | 0 <= i && i + |sep| <= |s| ensures s[i..][..|sep|] != sep {
      if i < 4 {
        assert s[i..][..|sep|][0] == s[i] && s[i..][..|sep|][1] == s[i+1];
      } else {
        assert s[i..][..|sep|] == padded[i-4..][..|sep|];
        ClearHasNone(name, sep, i - 4);
      }
    }
  }

  /** The negation in "a and not b" is lost: the rule asks for a and for the
      fallback selection, whether b holds or not. */
  lemma NegationIsLost(re: Regex, doc: Doc, a: string, b: string, selections: Selections)
    requires selections != [] && GoodName(a) && GoodName(b)
    requires Named(selections, a).Some? && Named(selections, "not " + b).None?
    requires Compiles(selections, a) && Compiles(selections, "not " + b)
    ensures var q := CompileRule(Some(a + " and " + ("not " + b)), selections);
            var fallback :=
              if Named(selections, "selection").Some? then Named(selections, "selection").value else selections[0].1;
            && q.Some?
            && (Matches(re, doc, q.value) <==>
                  SelectionHolds(re, doc, Named(selections, a).value) && SelectionHolds(re, doc, fallback))
  {
    hide Matches, SelectionHolds, SelectionQuery, GoodName, Named, CompileRule;
    NegatedNameIsGood(b);
    var names := [a, "not " + b];
    CompilationIsExact(re, doc, [names], selections);
    assert Render([names]) == a + " and " + ("not " + b) by { RenderTwo(a, "not " + b); }
    assert NameHolds(re, doc, names[0], selections) == NameHolds(re, doc, a, selections);
    assert NameHolds(re, doc, names[1], selections) == NameHolds(re, doc, "not " + b, selections);
    assert [names][0] == names;
  }

  lemma RenderTwo(a: string, b: string)
    ensures Render([[a, b]]) == a + " and " + b
  {
    assert RenderParts([[a, b]]) == [RenderAnd([a, b])];
    JoinOfOne(RenderAnd([a, b]), " or ");
    assert [a, b][1..] == [b];
    JoinOfOne(b, " and ");
  }
}

/** The embedding-similarity cache for triage verdicts. */
module SemanticCaches {
  import opened Wrappers
  import opened Reals
  import opened Text
  import opened Glob
  import opened Vectors

  /** A verdict, by its JSON text. */
  type Verdict = string

  const NO_VERDICT: Verdict := "{}"

  const DEFAULT_DIM := 128

  // ---- Embeddings ---------------------------------------------------------------

  const TOKEN_PUNCTUATION := "_.-/:"

  predicate IsTokenChar(c: char) {
    'a' <= c <= 'z' || 'A' <= c <= 'Z' || '0' <= c <= '9' || c in TOKEN_PUNCTUATION
  }

  /** The maximal runs of token characters, with `run` already read. */
  function Runs(s: string, run: string): seq<string> {
    if s == "" then (if run == "" then [] else [run])
    else if IsTokenChar(s[0]) then Runs(s[1..], run + [s[0]])
    else (if run == "" then [] else [run]) + Runs(s[1..], "")
  }

  function Tokenize(text: string): seq<string> {
    Runs(Lower(text), "")
  }

  function TokenSet(text: string): set<string> {
    set t | t in Tokenize(text)
  }

  /** Any character but a letter, a digit and five marks separates tokens; a text of the
      others is one token, in lower case. */
  lemma {:induction false} RunsAtSeparator(u: string, run: string, c: char, v: string)
    requires !('a' <= c <= 'z' || 'A' <= c <= 'Z' || '0' <= c <= '9' || c in {'_', '.', '-', '/', ':'})
    ensures Runs(u + [c] + v, run) == Runs(u, run) + Runs(v, "")
  {
    if u == "" {
      assert u + [c] + v == [c] + v && ([c] + v)[1..] == v;
      NoSeparator(c);
    } else {
      assert (u + [c] + v)[1..] == u[1..] + [c] + v;
      if IsTokenChar(u[0]) {
        RunsAtSeparator(u[1..], run + [u[0]], c, v);
      } else {
        RunsAtSeparator(u[1..], "", c, v);
      }
    }
  }

  lemma NoSeparator(c: char)
    ensures IsTokenChar(c) <==>
            'a' <= c <= 'z' || 'A' <= c <= 'Z' || '0' <= c <= '9' || c in {'_', '.', '-', '/', ':'}
  {
    var marks := TOKEN_PUNCTUATION;
    assert marks[0] == '_' && marks[1] == '.' && marks[2] == '-' && marks[3] == '/' && marks[4] == ':';
  }

  lemma {:induction false} RunOfTokenChars(s: string, run: string)
    requires forall i :: 0 <= i < |s| ==> IsTokenChar(s[i])
    ensures Runs(s, run) == if run + s == "" then [] else [run + s]
  {
    if s == "" {
      assert run + s == run;
    } else {
      RunOfTokenChars(s[1..], run + [s[0]]);
      assert run + [s[0]] + s[1..] == run + s;
    }
  }

  lemma TokensAreRuns(u: string, c: char, v: string)
    requires !('a' <= c <= 'z' || 'A' <= c <= 'Z' || '0' <= c <= '9' || c in {'_', '.', '-', '/', ':'})
    ensures Tokenize(u + [c] + v) == Tokenize(u) + Tokenize(v)
    ensures Tokenize("") == [] && forall t :: t in TokenSet(u) <==> t in Tokenize(u)
  {
    assert LowerChar(c) == c;
    hide LowerChar, IsTokenChar;
    assert Lower(u + [c] + v) == Lower(u) + [c] + Lower(v);
    RunsAtSeparator(Lower(u), "", c, Lower(v));
    hide Runs, Lower;
    NoTokens();
  }

  lemma NoTokens()
    ensures Tokenize("") == []
  {
  }

  lemma LowerToken(c: char)
    requires IsTokenChar(c)
    ensures IsTokenChar(LowerChar(c))
  {
  }

  lemma OneToken(s: string)
    requires s != "" && forall i :: 0 <= i < |s| ==> IsTokenChar(s[i])
    ensures Tokenize(s) == [Lower(s)]
  {
    hide IsTokenChar, LowerChar, Runs;
    forall i | 0 <= i < |s| ensures IsTokenChar(Lower(s)[i]) {
      LowerToken(s[i]);
      assert Lower(s)[i] == LowerChar(s[i]);
    }
    hide Lower;
    RunOfTokenChars(Lower(s), "");
    assert "" + Lower(s) == Lower(s);
  }

  /** The hash bit that decides the sign of a token in a dimension. */
  type SignBit = (nat, string) -> bool

  function WithBit(bit: SignBit, tokens: set<string>, d: nat, value: bool): set<string> {
    set t | t in tokens && bit(d, t) == value
  }

  /** The projection of a set of tokens on a dimension: how many of them have a
      set bit there, less how many do not. */
  function Projection(bit: SignBit, tokens: set<string>, d: nat): int {
    |WithBit(bit, tokens, d, true)| - |WithBit(bit, tokens, d, false)|
  }

  function Projections(bit: SignBit, tokens: set<string>, dim: nat): (v: seq<real>)
    ensures |v| == dim
  {
    seq(dim, d requires 0 <= d < dim => Projection(bit, tokens, d) as real)
  }

  function Normalized(sqrt: real -> real, v: seq<real>): (r: seq<real>)
    ensures |r| == |v|
  {
    var norm := sqrt(Dot(v, v));
    if norm > 0.0 then seq(|v|, d requires 0 <= d < |v| => v[d] / norm) else v
  }

  /** The default embedding of a set of tokens. */
  function Embedding(sqrt: real -> real, bit: SignBit, tokens: set<string>, dim: nat): (v: seq<real>)
    ensures |v| == dim
  {
    if tokens == {} then seq(dim, _ => 0.0) else Normalized(sqrt, Projections(bit, tokens, dim))
  }

  lemma WithBitStep(bit: SignBit, tokens: set<string>, t: string, d: nat, value: bool)
    requires t !in tokens
    ensures |WithBit(bit, tokens + {t}, d, value)|
            == |WithBit(bit, tokens, d, value)| + (if bit(d, t) == value then 1 else 0)
  {
    var (before, after) := (WithBit(bit, tokens, d, value), WithBit(bit, tokens + {t}, d, value));
    if bit(d, t) == value {
      assert after == before + {t};
    } else {
      assert after == before;
    }
  }

  lemma ProjectionStep(bit: SignBit, tokens: set<string>, t: string, d: nat)
    requires t !in tokens
    ensures Projection(bit, tokens + {t}, d) == Projection(bit, tokens, d) + (if bit(d, t) then 1 else -1)
  {
    hide WithBit;
    WithBitStep(bit, tokens, t, d, true);
    WithBitStep(bit, tokens, t, d, false);
  }

  /** A token adds 1 in the dimensions where its bit is set and takes 1 off elsewhere. */
  lemma ProjectionByToken(bit: SignBit, tokens: set<string>, t: string, d: nat)
    requires t !in tokens
    ensures Projection(bit, {}, d) == 0
    ensures Projection(bit, tokens + {t}, d) == Projection(bit, tokens, d) + (if bit(d, t) then 1 else -1)
  {
    hide WithBit;
    ProjectionStep(bit, tokens, t, d);
    NothingWithBit(bit, d);
  }

  lemma NothingWithBit(bit: SignBit, d: nat)
    ensures WithBit(bit, {}, d, true) == {} == WithBit(bit, {}, d, false)
  {
  }

  /** A normalised vector has length 1 and the direction of the vector, unless that is
      zero, which stays. */
  lemma NormalizedIsUnit(sqrt: real -> real, v: seq<real>)
    requires IsSqrt(sqrt)
    ensures !IsZero(v) ==> Dot(Normalized(sqrt, v), Normalized(sqrt, v)) == 1.0
    ensures !IsZero(v) ==> forall i :: 0 <= i < |v| ==> Normalized(sqrt, v)[i] * sqrt(Dot(v, v)) == v[i]
    ensures IsZero(v) ==> Normalized(sqrt, v) == v
  {
    hide Dot;
    NormOf(sqrt, v);
    hide IsSqrt;
    var norm := sqrt(Dot(v, v));
    if !IsZero(v) {
      var r := Normalized(sqrt, v);
      forall i | 0 <= i < |v| ensures r[i] * norm == v[i] {
        Quotient(v[i], norm);
      }
      ScaledToUnit(r, norm, Dot(v, v), v);
    }
  }

  lemma Quotient(x: real, n: real)
    requires n > 0.0
    ensures x / n * n == x
  {
  }

  lemma NormOf(sqrt: real -> real, v: seq<real>)
    requires IsSqrt(sqrt)
    ensures var norm := sqrt(Dot(v, v));
            norm * norm == Dot(v, v) >= 0.0 && if IsZero(v) then norm == 0.0 else norm > 0.0 && Dot(v, v) > 0.0
  {
    hide Dot;
    SquareLength(v);
    RootOf(sqrt, Dot(v, v));
  }

  lemma RootOf(sqrt: real -> real, x: real)
    requires IsSqrt(sqrt) && x >= 0.0
    ensures sqrt(x) * sqrt(x) == x && sqrt(x) >= 0.0 && (sqrt(x) == 0.0 <==> x == 0.0)
  {
    var n := sqrt(x);
    assert n * n == x;
    hide IsSqrt;
    TimesItself(n);
  }

  lemma ScaledToUnit(r: seq<real>, norm: real, square: real, v: seq<real>)
    requires |r| == |v| && forall i :: 0 <= i < |v| ==> r[i] * norm == v[i]
    requires square == norm * norm == Dot(v, v) && square > 0.0
    ensures Dot(r, r) == 1.0
  {
    hide Dot;
    DotOfScaled(r, norm, square, v);
    UnitFactor(Dot(r, r), square, Dot(v, v));
  }

  lemma UnitFactor(d: real, c: real, product: real)
    requires d * c == product && product == c && c > 0.0
    ensures d == 1.0
  {
    MulCancel(d, 1.0, c);
    MulCancel(1.0, d, c);
  }

  lemma {:induction false} DotOfScaled(r: seq<real>, c: real, square: real, v: seq<real>)
    requires |r| == |v| && square == c * c && forall i :: 0 <= i < |v| ==> r[i] * c == v[i]
    ensures Dot(r, r) * square == Dot(v, v)
  {
    if v != [] {
      hide Times;
      var (x, y) := (r[|r|-1], v[|v|-1]);
      DotOfScaled(r[..|r|-1], c, square, v[..|v|-1]);
      TimesScaled(x, c, square, y);
      Distribute(square, Dot(r[..|r|-1], r[..|r|-1]), Times(x, x));
    }
  }

  lemma TimesScaled(x: real, c: real, square: real, y: real)
    requires square == c * c && x * c == y
    ensures Times(x, x) * square == Times(y, y)
  {
    assert (x * x) * (c * c) == (x * c) * (x * c);
  }

  /** `_compute_embedding`: the sum over the tokens, in whatever order the set
      yields them, and dimension by dimension.  It depends on the set of tokens
      alone, not on their order or repetition in the text. */
  method ComputeEmbedding(sqrt: real -> real, bit: SignBit, text: string, dim: nat) returns (r: seq<real>)
    ensures r == Embedding(sqrt, bit, TokenSet(text), dim)
  {
    var tokens := TokenSet(text);
    if tokens == {} {
      return seq(dim, _ => 0.0);
    }
    var vec := new real[dim](_ => 0.0);
    var rest := tokens;
    while rest != {}
      invariant rest <= tokens
      invariant forall d :: 0 <= d < dim ==> vec[d] == Projection(bit, tokens - rest, d) as real
      decreases rest
    {
      var t :| t in rest;
      ghost var done := tokens - rest;
      rest := rest - {t};
      assert tokens - rest == done + {t};
      for d := 0 to dim
        invariant forall e :: 0 <= e < d ==> vec[e] == Projection(bit, done + {t}, e) as real
        invariant forall e :: d <= e < dim ==> vec[e] == Projection(bit, done, e) as real
      {
        ProjectionStep(bit, done, t, d);
        vec[d] := vec[d] + (if bit(d, t) then 1.0 else -1.0);
      }
    }
    assert tokens - rest == tokens;
    assert vec[..] == Projections(bit, tokens, dim);
    r := Normalized(sqrt, vec[..]);
  }

  // ---- The cache ----------------------------------------------------------------

  const FEATURES := ["rule_id", "rule_description", "source_ip", "mitre_technique", "rule_groups"]

  /** The present features in a fixed order, normalised and joined. */
  function FeatureParts(features: map<string, string>, n: nat): seq<string>
    requires n <= |FEATURES|
  {
    if n == 0 then []
    else
      var k := FEATURES[n-1];
      FeatureParts(features, n - 1)
      + (if k in features && features[k] != "" then [Lower(Strip(features[k]))] else [])
  }

  function FeaturesText(features: map<string, string>): string {
    Join(FeatureParts(features, |FEATURES|), " ")
  }

  /** A feature as it enters the text; an empty one does not. */
  function Normalised(features: map<string, string>, key: string): Option<string> {
    if key in features && features[key] != "" then Some(Lower(Strip(features[key]))) else None
  }

  predicate IsFeature(key: string) {
    key in {"rule_id", "rule_description", "source_ip", "mitre_technique", "rule_groups"}
  }

  /** No other feature is there. */
  ghost predicate Lone(f: map<string, string>, key: string) {
    forall k :: IsFeature(k) && k != key ==> Normalised(f, k).None?
  }

  ghost predicate AgreeBut(f: map<string, string>, g: map<string, string>, key: string) {
    forall k :: IsFeature(k) && k != key ==> Normalised(f, k) == Normalised(g, k)
  }

  predicate Blank(x: Option<string>) {
    x.None? || x.value == ""
  }

  function PartsOf(x: Option<string>): seq<string> {
    if x.Some? then [x.value] else []
  }

  lemma FeaturesDiffer(i: nat, j: nat)
    requires i < j < 5
    ensures FEATURES[i] != FEATURES[j]
    ensures IsFeature(FEATURES[i])
    ensures IsFeature(FEATURES[j])
  {
    assert |FEATURES[i]| != |FEATURES[j]|;
  }

  /** None of the first n features but feature i is there. */
  predicate NoOthers(f: map<string, string>, i: nat, n: nat)
    requires n <= 5
  {
    forall j :: 0 <= j < n && j != i ==> Normalised(f, FEATURES[j]).None?
  }

  lemma PartStep(f: map<string, string>, n: nat)
    requires n < 5
    ensures FeatureParts(f, n + 1) == FeatureParts(f, n) + PartsOf(Normalised(f, FEATURES[n]))
  {
    hide Strip, Lower;
  }

  lemma NoOthersStep(f: map<string, string>, i: nat, n: nat)
    requires n < 5
    ensures NoOthers(f, i, n + 1) <==> NoOthers(f, i, n) && (n != i ==> PartsOf(Normalised(f, FEATURES[n])) == [])
  {
    hide Normalised;
  }

  lemma {:induction false} SameBelow(f: map<string, string>, g: map<string, string>, i: nat, n: nat)
    requires n <= i < 5 && AgreeBut(f, g, FEATURES[i])
    ensures FeatureParts(f, n) == FeatureParts(g, n)
    ensures FeatureParts(f, n) == [] <==> NoOthers(f, i, n)
  {
    if n > 0 {
      hide FeatureParts, Normalised, PartsOf, NoOthers;
      SameBelow(f, g, i, n - 1);
      PartStep(f, n - 1);
      PartStep(g, n - 1);
      NoOthersStep(f, i, n - 1);
      FeaturesDiffer(n - 1, i);
    }
  }

  /** Two alerts that differ in feature i only have parts that differ there only. */
  lemma {:induction false} PartsAround(f: map<string, string>, g: map<string, string>, i: nat, n: nat)
    returns (before: seq<string>, after: seq<string>)
    requires i < n <= 5 && AgreeBut(f, g, FEATURES[i])
    ensures FeatureParts(f, n) == before + PartsOf(Normalised(f, FEATURES[i])) + after
    ensures FeatureParts(g, n) == before + PartsOf(Normalised(g, FEATURES[i])) + after
    ensures before + after == [] <==> NoOthers(f, i, n)
  {
    hide FeatureParts, Normalised, PartsOf, NoOthers;
    PartStep(f, n - 1);
    PartStep(g, n - 1);
    NoOthersStep(f, i, n - 1);
    if n - 1 == i {
      SameBelow(f, g, i, i);
      before, after := FeatureParts(f, i), [];
    } else {
      before, after := PartsAround(f, g, i, n - 1);
      FeaturesDiffer(i, n - 1);
      after := after + PartsOf(Normalised(f, FEATURES[n-1]));
    }
  }

  /** What joining puts before and after a part. */
  lemma {:induction false} JoinAround(before: seq<string>, x: string, after: seq<string>)
    ensures Join(before + [x] + after, " ") ==
              (if before == [] then "" else Join(before, " ") + " ") + x
              + (if after == [] then "" else " " + Join(after, " "))
    ensures |Join(before + after, " ")| ==
              |Join(before, " ")| + |Join(after, " ")| + if before != [] && after != [] then 1 else 0
  {
    hide Join;
    NothingJoined();
    JoinConcat(before, [x] + after);
    JoinConcat([x], after);
    JoinConcat(before, after);
    JoinOfOne(x, " ");
    assert before + [x] + after == before + ([x] + after);
  }

  lemma {:induction false} JoinConcat(a: seq<string>, b: seq<string>)
    ensures Join(a + b, " ") ==
            if a == [] then Join(b, " ") else if b == [] then Join(a, " ") else Join(a, " ") + " " + Join(b, " ")
  {
    if a == [] {
      assert a + b == b;
    } else if b == [] {
      assert a + b == a;
    } else {
      JoinConcat(a[1..], b);
      assert (a + b)[1..] == a[1..] + b;
    }
  }

  /** Every one of the five features counts: if one changes and the others stay, the
      text changes, unless nothing but blanks is left. */
  lemma TextDependsOnEveryFeature(f: map<string, string>, g: map<string, string>, key: string)
    requires IsFeature(key)
    requires AgreeBut(f, g, key)
    ensures FeaturesText(f) == FeaturesText(g) <==>
            || Normalised(f, key) == Normalised(g, key)
            || (Lone(f, key) && Blank(Normalised(f, key)) && Blank(Normalised(g, key)))
  {
    hide FeatureParts, Join, Normalised, NoOthers;
    var i := if key == "rule_id" then 0 else if key == "rule_description" then 1 else if key == "source_ip" then 2
             else if key == "mitre_technique" then 3 else 4;
    assert FEATURES[i] == key;
    var before, after := PartsAround(f, g, i, 5);
    Others(f, i);
    SameTextWhen(before, Normalised(f, key), Normalised(g, key), after);
  }

  lemma Others(f: map<string, string>, i: nat)
    requires i < 5
    ensures NoOthers(f, i, 5) <==> Lone(f, FEATURES[i])
  {
    hide Normalised;
    forall j | 0 <= j < 5 && j != i ensures FEATURES[j] != FEATURES[i] {
      FeaturesDiffer(if j < i then j else i, if j < i then i else j);
    }
    assert FEATURES[0] == "rule_id" && FEATURES[1] == "rule_description" && FEATURES[2] == "source_ip"
           && FEATURES[3] == "mitre_technique" && FEATURES[4] == "rule_groups";
  }

  lemma {:induction false} SameTextWhen(before: seq<string>, x: Option<string>, y: Option<string>, after: seq<string>)
    ensures Join(before + PartsOf(x) + after, " ") == Join(before + PartsOf(y) + after, " ") <==>
            x == y || (before + after == [] && Blank(x) && Blank(y))
  {
    hide Join;
    assert before + [] + after == before + after;
    if x.Some? { JoinAround(before, x.value, after); }
    if y.Some? { JoinAround(before, y.value, after); }
    var (p, s) :=
      (if before == [] then "" else Join(before, " ") + " ", if after == [] then "" else " " + Join(after, " "));
    NothingJoined();
    if x.Some? && y.Some? {
      Cancel(p, x.value, y.value, s);
    }
  }

  lemma NothingJoined()
    ensures Join([], " ") == ""
  {
  }

  lemma Cancel(p: string, x: string, y: string, s: string)
    ensures p + x + s == p + y + s <==> x == y
  {
    if p + x + s == p + y + s {
      var t := p + x + s;
      assert x == t[|p|..|t|-|s|] && y == t[|p|..|t|-|s|];
    }
  }

  function KeyPrefix(tenant: string): string {
    "sem_cache:" + tenant + ":"
  }

  /** A stored value, or text that does not parse as one. */
  datatype Stored = Stored(embedding: seq<real>, result: Verdict) | Unreadable

  class Redis {
    var data: map<string, Stored>

    constructor ()
      ensures data == map[]
    {
      data := map[];
    }
  }

  predicate IsZero(v: seq<real>) {
    forall i :: 0 <= i < |v| ==> v[i] == 0.0
  }

  /** A query against stored data. */
  datatype Search = Search(
    sqrt: real -> real, data: map<string, Stored>, query: seq<real>, dim: nat, threshold: real)

  /** The entry has an embedding that can be compared with the query. */
  predicate Comparable(s: Search, key: string) {
    key in s.data && s.data[key].Stored? && s.data[key].embedding != [] && |s.data[key].embedding| == s.dim == |s.query|
  }

  function Sim(s: Search, key: string): real
    requires Comparable(s, key)
  {
    Similarity(s.sqrt, s.query, s.data[key].embedding)
  }

  /** The keys read before the scan stops: whole pages, until the last one or
      until `maxScan` keys have been seen. */
  function Scanned(pages: seq<seq<string>>, seen: nat, maxScan: int): seq<string> {
    if pages == [] then []
    else if |pages| == 1 || seen + |pages[0]| >= maxScan then pages[0]
    else pages[0] + Scanned(pages[1..], seen + |pages[0]|, maxScan)
  }

  function Flat(pages: seq<seq<string>>): seq<string> {
    if pages == [] then [] else pages[0] + Flat(pages[1..])
  }

  /** The scan reads whole pages from the first on, and stops after the page with which
      it has seen enough, or the last. */
  lemma {:induction false} ScanStops(pages: seq<seq<string>>, seen: nat, maxScan: int) returns (m: nat)
    requires pages != []
    ensures 0 < m <= |pages| && Scanned(pages, seen, maxScan) == Flat(pages[..m])
    ensures m == |pages| || seen + |Flat(pages[..m])| >= maxScan
    ensures m > 1 ==> seen + |Flat(pages[..m-1])| < maxScan
    ensures Commands(pages, seen, maxScan) == m + |Flat(pages[..m])|
  {
    if |pages| == 1 || seen + |pages[0]| >= maxScan {
      m := 1;
      assert pages[..1] == [pages[0]] && [pages[0]][1..] == [];
      assert Flat([pages[0]]) == pages[0] + Flat([]) == pages[0];
    } else {
      var n := ScanStops(pages[1..], seen + |pages[0]|, maxScan);
      m := n + 1;
      assert pages[..m][1..] == pages[1..][..n];
      if n > 1 {
        assert pages[..m-1][1..] == pages[1..][..n-1];
      } else {
        assert pages[..1][1..] == [] && pages[..1][0] == pages[0];
        assert Flat(pages[..1]) == pages[0] + Flat([]) == pages[0];
      }
    }
  }

  /** How many Redis commands that takes: one for each page and one for each key. */
  function Commands(pages: seq<seq<string>>, seen: nat, maxScan: int): nat {
    if pages == [] then 0
    else if |pages| == 1 || seen + |pages[0]| >= maxScan then 1 + |pages[0]|
    else 1 + |pages[0]| + Commands(pages[1..], seen + |pages[0]|, maxScan)
  }

  /** So many commands work, if only `working` of them do before one raises. */
  predicate Works(commands: nat, working: Option<nat>) {
    working.None? || commands <= working.value
  }

  /** The entry beats a search that has found nothing: the code starts from -1. */
  predicate Near(s: Search, key: string) {
    Comparable(s, key) && Sim(s, key) > -1.0 && Sim(s, key) >= s.threshold
  }

  ghost predicate SomeNear(s: Search, keys: seq<string>) {
    exists k :: 0 <= k < |keys| && Near(s, keys[k])
  }

  /** Key k is one the lookup can return: near, and nearer than every comparable
      key before it. */
  ghost predicate Nearest(s: Search, keys: seq<string>, k: nat) {
    && k < |keys| && Near(s, keys[k])
    && (forall j :: 0 <= j < |keys| && Comparable(s, keys[j]) ==> Sim(s, keys[j]) <= Sim(s, keys[k]))
    && (forall j :: 0 <= j < k && Comparable(s, keys[j]) ==> Sim(s, keys[j]) < Sim(s, keys[k]))
  }

  /** A turn of the loop takes this key as the new best. */
  predicate Improves(s: Search, key: string, best: real) {
    Comparable(s, key) && Sim(s, key) > best && Sim(s, key) >= s.threshold
  }

  /** The verdict of the first nearest key, or none without a near one. */
  ghost predicate Best(s: Search, keys: seq<string>, result: Verdict) {
    if SomeNear(s, keys) then exists k: nat :: Nearest(s, keys, k) && result == s.data[keys[k]].result
    else result == NO_VERDICT
  }

  /** The answer of a lookup over the keys it reads.  Since the code starts from
      -1, a threshold of -1 or below always hits, near entry or not. */
  ghost predicate Answer(s: Search, keys: seq<string>, hit: bool, result: Verdict) {
    (hit <==> s.threshold <= -1.0 || SomeNear(s, keys)) && Best(s, keys, result)
  }

  /** How a write ends: it takes effect, or raises before or after it does. */
  datatype Write = Written | Refused | Unanswered

  class SemanticCache {
    const connected: bool
    const redis: Redis
    const tenant: string
    const dim: nat
    const embed: string -> Option<seq<real>>
    const digest: string -> string
    const sqrt: real -> real

    /** `embed` is None where the embedding function raises. */
    constructor (connected: bool, redis: Redis, tenant: string, dim: nat, embed: string -> Option<seq<real>>,
                 digest: string -> string, sqrt: real -> real)
      ensures this.connected == connected && this.redis == redis && this.tenant == tenant && this.dim == dim
      ensures this.embed == embed && this.digest == digest && this.sqrt == sqrt
    {
      this.connected, this.redis, this.tenant, this.dim := connected, redis, tenant, dim;
      this.embed, this.digest, this.sqrt := embed, digest, sqrt;
    }

    function Key(text: string): string {
      KeyPrefix(tenant) + digest(text)
    }

    /** Features that can be cached: there is a client, their text is not blank and
        it has an embedding. */
    predicate Usable(features: map<string, string>) {
      connected && Strip(FeaturesText(features)) != "" && embed(FeaturesText(features)).Some?
    }

    method Store(features: map<string, string>, result: Verdict, write: Write) returns (stored: bool)
      modifies redis
      ensures stored <==> Usable(features) && write.Written?
      ensures redis.data ==
                if Usable(features) && !write.Refused?
                then var text := FeaturesText(features);
                     old(redis.data)["sem_cache:" + tenant + ":" + digest(text) := Stored(embed(text).value, result)]
                else old(redis.data)
    {
      if !connected {
        return false;
      }
      var text := FeaturesText(features);
      if Strip(text) == "" {
        return false;
      }
      var embedding := embed(text);
      if embedding.None? {
        return false;
      }
      if !write.Refused? {
        redis.data := redis.data[Key(text) := Stored(embedding.value, result)];
      }
      return write.Written?;
    }

    function SearchFor(query: seq<real>, threshold: real): Search
      reads redis
    {
      Search(sqrt, redis.data, query, dim, threshold)
    }

    /** One turn of the loop over the keys of a page: `best` is -1 until an
        entry is near enough. */
    method Compare(query: seq<real>, key: string, threshold: real, best: real, bestResult: Verdict)
      returns (best': real, bestResult': Verdict)
      ensures var s := SearchFor(query, threshold);
              (best', bestResult') ==
              if Improves(s, key, best) then (Sim(s, key), redis.data[key].result) else (best, bestResult)
    {
      best', bestResult' := best, bestResult;
      if key in redis.data && redis.data[key].Stored? {
        var entry := redis.data[key];
        if entry.embedding != [] && |entry.embedding| == dim && |query| == |entry.embedding| {
          var sim := Similarity(sqrt, query, entry.embedding);
          if sim > best && sim >= threshold {
            best', bestResult' := sim, entry.result;
          }
        }
      }
    }

    /** The loop over the keys of a page, after those of earlier pages.  It ends early
        if a command raises, `used` of them having worked. */
    method ScanPage(query: seq<real>, batch: seq<string>, threshold: real, best: real, bestResult: Verdict,
                    used: nat, working: Option<nat>, ghost earlier: seq<string>)
      returns (ok: bool, best': real, bestResult': Verdict)
      requires Progress(SearchFor(query, threshold), earlier, best, bestResult) && Works(used, working)
      ensures ok <==> Works(used + |batch|, working)
      ensures ok ==> Progress(SearchFor(query, threshold), earlier + batch, best', bestResult')
    {
      hide Progress, Improves, Sim, Comparable;
      best', bestResult' := best, bestResult;
      assert earlier + batch[..0] == earlier;
      for i := 0 to |batch|
        invariant Progress(SearchFor(query, threshold), earlier + batch[..i], best', bestResult')
        invariant Works(used + i, working)
      {
        if !Works(used + i + 1, working) {
          return false, best', bestResult';
        }
        var next, nextResult := Compare(query, batch[i], threshold, best', bestResult');
        ProgressStep(SearchFor(query, threshold), earlier + batch[..i], best', bestResult', batch[i], next, nextResult);
        best', bestResult' := next, nextResult;
        assert earlier + batch[..i+1] == earlier + batch[..i] + [batch[i]];
      }
      assert batch[..|batch|] == batch;
      ok := true;
    }

    /** Looks up a verdict.  `pages` are the replies of the cursor scan, and
        `working` says how many Redis commands work, if one raises. */
    method Lookup(features: map<string, string>, threshold: real, maxScan: int, pages: seq<seq<string>>,
                  working: Option<nat>)
      returns (hit: bool, result: Verdict)
      requires pages != []
      ensures if !Usable(features) || IsZero(embed(FeaturesText(features)).value) ||
                 (working.Some? && working.value < Commands(pages, 0, maxScan))
              then !hit && result == NO_VERDICT
              else Answer(SearchFor(embed(FeaturesText(features)).value, threshold), Scanned(pages, 0, maxScan),
                  hit, result)
    {
      hide Strip, FeaturesText, IsZero, Progress, Answer, ScanAt, Scanned, Commands;
      if !connected {
        return false, NO_VERDICT;
      }
      var text := FeaturesText(features);
      if Strip(text) == "" {
        return false, NO_VERDICT;
      }
      var embedding := embed(text);
      if embedding.None? || IsZero(embedding.value) {
        return false, NO_VERDICT;
      }
      var query := embedding.value;
      ghost var s := SearchFor(query, threshold);
      ProgressStart(s);
      ScanStarts(pages, maxScan);
      var best, bestResult := -1.0, NO_VERDICT;
      var scanned: nat, page: nat, used: nat := 0, 0, 0;
      ghost var keys: seq<string> := [];
      while true
        invariant 0 <= page < |pages|
        invariant Progress(s, keys, best, bestResult)
        invariant ScanAt(pages, page, scanned, maxScan, used, keys)
        invariant Works(used, working)
        decreases |pages| - page
      {
        ScanTurn(pages, page, scanned, maxScan, used, keys);
        if !Works(used + 1, working) {
          return false, NO_VERDICT;
        }
        var batch := pages[page];
        scanned := scanned + |batch|;
        var ok;
        ok, best, bestResult := ScanPage(query, batch, threshold, best, bestResult, used + 1, working, keys);
        if !ok {
          return false, NO_VERDICT;
        }
        used := used + 1 + |batch|;
        keys := keys + batch;
        if page + 1 == |pages| || scanned >= maxScan {
          break;
        }
        page := page + 1;
      }
      ProgressAnswers(s, keys, best, bestResult);
      if best >= threshold {
        return true, bestResult;
      }
      return false, NO_VERDICT;
    }
  }

  /** A scan about to read a page: the keys read and the commands used before it, and
      those from there on, make up the whole scan. */
  ghost predicate ScanAt(pages: seq<seq<string>>, page: nat, scanned: nat, maxScan: int, used: nat, keys: seq<string>)
    requires page <= |pages|
  {
    && keys + Scanned(pages[page..], scanned, maxScan) == Scanned(pages, 0, maxScan)
    && used + Commands(pages[page..], scanned, maxScan) == Commands(pages, 0, maxScan)
  }

  lemma ScanStarts(pages: seq<seq<string>>, maxScan: int)
    ensures ScanAt(pages, 0, 0, maxScan, 0, [])
  {
    hide Scanned, Commands;
    assert pages[0..] == pages && [] + Scanned(pages, 0, maxScan) == Scanned(pages, 0, maxScan);
  }

  /** One page more. */
  lemma {:induction false} ScanTurn(pages: seq<seq<string>>, page: nat, scanned: nat, maxScan: int, used: nat,
                                    keys: seq<string>)
    requires page < |pages| && ScanAt(pages, page, scanned, maxScan, used, keys)
    ensures used + 1 + |pages[page]| <= Commands(pages, 0, maxScan)
    ensures var (keys', n) := (keys + pages[page], scanned + |pages[page]|);
            if page + 1 == |pages| || n >= maxScan
            then keys' == Scanned(pages, 0, maxScan) && used + 1 + |pages[page]| == Commands(pages, 0, maxScan)
            else ScanAt(pages, page + 1, n, maxScan, used + 1 + |pages[page]|, keys')
  {
    var (rest, n) := (pages[page..], scanned + |pages[page]|);
    assert rest[0] == pages[page] && rest[1..] == pages[page+1..];
    assert keys + (pages[page] + Scanned(rest[1..], n, maxScan)) == keys + pages[page] + Scanned(rest[1..], n, maxScan);
  }

  /** The best match among the keys read so far. */
  ghost predicate Progress(s: Search, keys: seq<string>, best: real, result: Verdict) {
    if SomeNear(s, keys)
    then exists k: nat :: Nearest(s, keys, k) && best == Sim(s, keys[k]) && result == s.data[keys[k]].result
    else best == -1.0 && result == NO_VERDICT
  }

  lemma ProgressStart(s: Search)
    ensures Progress(s, [], -1.0, NO_VERDICT)
  {
  }

  lemma SomeNearAppend(s: Search, keys: seq<string>, key: string)
    ensures SomeNear(s, keys + [key]) <==> SomeNear(s, keys) || Near(s, key)
  {
    hide Near;
    var keys' := keys + [key];
    assert keys'[|keys|] == key;
    assert forall k :: 0 <= k < |keys| ==> keys'[k] == keys[k];
  }

  lemma ProgressStep(s: Search, keys: seq<string>, best: real, result: Verdict, key: string, best': real,
                     result': Verdict)
    requires Progress(s, keys, best, result)
    requires (best', result') == if Improves(s, key, best) then (Sim(s, key), s.data[key].result) else (best, result)
    ensures Progress(s, keys + [key], best', result')
  {
    hide Sim;
    SomeNearAppend(s, keys, key);
    var keys' := keys + [key];
    assert keys'[|keys|] == key;
    assert forall j :: 0 <= j < |keys| ==> keys'[j] == keys[j];
    if Improves(s, key, best) {
      NothingBetter(s, keys, best, result);
      assert Nearest(s, keys', |keys|);
    } else if SomeNear(s, keys) {
      var k: nat :| Nearest(s, keys, k) && best == Sim(s, keys[k]) && result == s.data[keys[k]].result;
      assert Nearest(s, keys', k);
    }
  }

  /** A comparable key read so far is no nearer than the best, or too far. */
  lemma NothingBetter(s: Search, keys: seq<string>, best: real, result: Verdict)
    requires Progress(s, keys, best, result)
    ensures best >= -1.0
    ensures forall j :: 0 <= j < |keys| && Comparable(s, keys[j]) ==>
              Sim(s, keys[j]) <= best || Sim(s, keys[j]) < s.threshold
  {
    hide Sim;
    forall j | 0 <= j < |keys| && Comparable(s, keys[j])
      ensures Sim(s, keys[j]) <= best || Sim(s, keys[j]) < s.threshold
    {
      assert Near(s, keys[j]) ==> SomeNear(s, keys);
    }
  }

  lemma ProgressAnswers(s: Search, keys: seq<string>, best: real, result: Verdict)
    requires Progress(s, keys, best, result)
    ensures Answer(s, keys, best >= s.threshold, if best >= s.threshold then result else NO_VERDICT)
  {
    hide Sim;
  }

  // ---- Store, then look up --------------------------------------------------------

  /** The replies of one full scan: every key with the prefix is on some page. */
  ghost predicate CoversTenant(data: map<string, Stored>, tenant: string, pages: seq<seq<string>>) {
    forall key :: key in data && KeyPrefix(tenant) <= key ==> exists p :: 0 <= p < |pages| && key in pages[p]
  }

  function KeyCount(pages: seq<seq<string>>): nat {
    if pages == [] then 0 else |pages[0]| + KeyCount(pages[1..])
  }

  lemma {:induction false} PageWithin(pages: seq<seq<string>>, p: nat)
    requires p < |pages|
    ensures |pages[p]| <= KeyCount(pages)
  {
    if p > 0 { PageWithin(pages[1..], p - 1); }
  }

  /** With at most `maxScan` keys, every page that holds a key is read. */
  lemma {:induction false} AllPagesRead(pages: seq<seq<string>>, seen: nat, maxScan: int, p: nat, key: string)
    requires p < |pages| && key in pages[p]
    requires seen + KeyCount(pages) <= maxScan
    ensures key in Scanned(pages, seen, maxScan)
  {
    if p > 0 {
      PageWithin(pages[1..], p - 1);
      AllPagesRead(pages[1..], seen + |pages[0]|, maxScan, p - 1, key);
    }
  }

  lemma ScanReachesKey(data: map<string, Stored>, tenant: string, pages: seq<seq<string>>, maxScan: int, key: string)
    requires CoversTenant(data, tenant, pages) && KeyCount(pages) <= maxScan
    requires key in data && KeyPrefix(tenant) <= key
    ensures key in Scanned(pages, 0, maxScan)
  {
    var p :| 0 <= p < |pages| && key in pages[p];
    AllPagesRead(pages, 0, maxScan, p, key);
  }

  /** The data after a store, and the search of the lookup that follows. */
  function AfterStore(s: Search, key: string, result: Verdict): Search {
    s.(data := s.data[key := Stored(s.query, result)])
  }

  /** After a verdict has been stored, looking up the same features hits, at any
      threshold up to 1, and returns the verdict of an entry at similarity 1: no
      scanned entry is nearer.  The conditions are that the embedding is not zero
      and has the cache's dimension, and that the scan reads the stored key. */
  lemma StoredIsFound(s: Search, key: string, result: Verdict, keys: seq<string>, hit: bool, found: Verdict)
    requires IsSqrt(s.sqrt) && s.threshold <= 1.0
    requires |s.query| == s.dim && !IsZero(s.query)
    requires key in keys
    requires Answer(AfterStore(s, key, result), keys, hit, found)
    ensures hit
    ensures exists k :: 0 <= k < |keys| && Comparable(AfterStore(s, key, result), keys[k])
              && found == AfterStore(s, key, result).data[keys[k]].result
              && Sim(AfterStore(s, key, result), keys[k]) == 1.0
  {
    var after := AfterStore(s, key, result);
    SelfSimilarity(s.sqrt, s.query);
    var i :| 0 <= i < |keys| && keys[i] == key;
    assert Comparable(after, keys[i]) && Sim(after, keys[i]) == 1.0;
    assert Near(after, keys[i]);
    var k: nat :| Nearest(after, keys, k) && found == after.data[keys[k]].result;
    SimilarityInRange(s.sqrt, s.query, after.data[keys[k]].embedding);
  }

  /** The scan reads the stored key whenever the tenant has at most `maxScan`
      keys, however they are spread over the pages. */
  lemma StoreThenLookup(s: Search, tenant: string, hash: string, result: Verdict, pages: seq<seq<string>>, maxScan: int,
                        hit: bool, found: Verdict)
    requires IsSqrt(s.sqrt) && s.threshold <= 1.0
    requires |s.query| == s.dim && !IsZero(s.query)
    requires var after := AfterStore(s, KeyPrefix(tenant) + hash, result);
             && CoversTenant(after.data, tenant, pages) && KeyCount(pages) <= maxScan
             && Answer(after, Scanned(pages, 0, maxScan), hit, found)
    ensures hit && FoundAtOne(AfterStore(s, KeyPrefix(tenant) + hash, result), Scanned(pages, 0, maxScan), found)
  {
    hide Answer, Scanned, CoversTenant, KeyCount, IsSqrt, IsZero, Sim, Comparable;
    var key := KeyPrefix(tenant) + hash;
    ScanReachesKey(AfterStore(s, key, result).data, tenant, pages, maxScan, key);
    StoredIsFound(s, key, result, Scanned(pages, 0, maxScan), hit, found);
  }

  /** The verdict is that of an entry at similarity 1. */
  ghost predicate FoundAtOne(s: Search, keys: seq<string>, found: Verdict) {
    exists key :: key in keys && Comparable(s, key) && found == s.data[key].result && Sim(s, key) == 1.0
  }

  /** Vectors of another dimension than the cache's are never near anything. */
  lemma WrongDimensionFindsNothing(s: Search, keys: seq<string>, hit: bool, found: Verdict)
    requires |s.query| != s.dim && Answer(s, keys, hit, found)
    ensures (hit <==> s.threshold <= -1.0) && found == NO_VERDICT
  {
  }

  /** Main result, through the cache itself: features that have just been stored
      are found again if and only if their embedding has the cache's dimension.
      `pages` are the replies of the scan after the store. */
  method StoreThenFind(cache: SemanticCache, features: map<string, string>, verdict: Verdict, threshold: real,
                       maxScan: int, pages: seq<seq<string>>)
    returns (hit: bool, found: Verdict)
    requires IsSqrt(cache.sqrt) && -1.0 < threshold <= 1.0
    requires cache.Usable(features) && !IsZero(cache.embed(FeaturesText(features)).value)
    requires var text := FeaturesText(features);
             var entry := Stored(cache.embed(text).value, verdict);
             CoversTenant(cache.redis.data[cache.Key(text) := entry], cache.tenant, pages)
    requires pages != [] && KeyCount(pages) <= maxScan
    modifies cache.redis
    ensures hit <==> |cache.embed(FeaturesText(features)).value| == cache.dim
    ensures if hit
            then FoundAtOne(cache.SearchFor(cache.embed(FeaturesText(features)).value, threshold),
                Scanned(pages, 0, maxScan), found)
            else found == NO_VERDICT
  {
    hide FeaturesText, Strip, Answer, CoversTenant, KeyCount, Scanned, IsSqrt, IsZero, FoundAtOne;
    ghost var text := FeaturesText(features);
    ghost var embedding := cache.embed(text).value;
    ghost var s := cache.SearchFor(embedding, threshold);
    var stored := cache.Store(features, verdict, Written);
    hit, found := cache.Lookup(features, threshold, maxScan, pages, None);
    assert cache.SearchFor(embedding, threshold) == AfterStore(s, cache.Key(text), verdict);
    if |embedding| == cache.dim {
      StoreThenLookup(s, cache.tenant, cache.digest(text), verdict, pages, maxScan, hit, found);
    } else {
      WrongDimensionFindsNothing(AfterStore(s, cache.Key(text), verdict), Scanned(pages, 0, maxScan), hit, found);
    }
  }

  /** The default embedding ignores the dimension a cache was given: with it,
      stored features are found again if and only if that dimension is the
      default one. */
  method DefaultStoreThenFind(cache: SemanticCache, bit: SignBit, features: map<string, string>, verdict: Verdict,
                              threshold: real, maxScan: int, pages: seq<seq<string>>)
    returns (hit: bool, found: Verdict)
    requires forall t :: cache.embed(t) == Some(Embedding(cache.sqrt, bit, TokenSet(t), DEFAULT_DIM))
    requires IsSqrt(cache.sqrt) && -1.0 < threshold <= 1.0
    requires cache.Usable(features) && !IsZero(cache.embed(FeaturesText(features)).value)
    requires var text := FeaturesText(features);
             var entry := Stored(cache.embed(text).value, verdict);
             CoversTenant(cache.redis.data[cache.Key(text) := entry], cache.tenant, pages)
    requires pages != [] && KeyCount(pages) <= maxScan
    modifies cache.redis
    ensures hit <==> cache.dim == DEFAULT_DIM
  {
    hide FeaturesText, Strip, CoversTenant, KeyCount, IsSqrt, IsZero;
    hit, found := StoreThenFind(cache, features, verdict, threshold, maxScan, pages);
  }

  // ---- Tenants --------------------------------------------------------------------

  /** Which other tenants' entries a scan for one tenant sees: exactly those of
      tenants whose id continues this one after a colon.  Digests have no
      colons; the id has none of the characters a Redis pattern treats specially. */
  lemma ScanSeesTenant(tenant: string, other: string, hash: string)
    requires '*' !in tenant && '?' !in tenant && '[' !in tenant && '\\' !in tenant && ':' !in hash
    ensures Like(KeyPrefix(tenant) + "*", KeyPrefix(other) + hash)
            <==> other == tenant || tenant + ":" <= other
  {
    var (p, key) := (KeyPrefix(tenant), KeyPrefix(other) + hash);
    PlainPrefix(p, key);
    var (head, rest) := ("sem_cache:", other + ":" + hash);
    assert key == head + rest && p == head + (tenant + ":");
    PrefixUnderHead(head, tenant + ":", rest);
    assert forall k :: |other| < k < |rest| ==> rest[k] == hash[k - |other| - 1] && rest[k] in hash;
    if tenant + ":" <= rest {
      assert rest[|tenant|] == ':';
      assert |tenant| <= |other|;
      assert rest[..|other|] == other;
    }
    if tenant + ":" <= other {
      assert rest[..|tenant|+1] == other[..|tenant|+1];
    }
  }

  lemma PlainPrefix(p: string, s: string)
    requires '*' !in p && '?' !in p
    ensures Like(p + "*", s) <==> p <= s
  {
    PrefixPattern(p, s);
    forall j: nat | j <= |s| ensures Like(p, s[..j]) <==> p == s[..j] {
      PlainPattern(p, s[..j]);
    }
    if p <= s {
      assert s[..|p|] == p;
    }
  }

  lemma PrefixUnderHead(head: string, p: string, s: string)
    ensures head + p <= head + s <==> p <= s
  {
    if head + p <= head + s {
      assert forall i :: 0 <= i < |p| ==> p[i] == (head + p)[|head| + i];
      assert forall i :: 0 <= i < |p| ==> s[i] == (head + s)[|head| + i];
    }
  }
}

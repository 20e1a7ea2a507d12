/** Extracting a JSON object from a language model's reply. */
module LlmProvider {
  import opened Wrappers
  import opened Text

  /** A JSON value, as far as it matters here. */
  datatype Value = True | Text(text: string) | Other(json: string)

  type Dict = map<string, Value>

  /** What `json.loads` makes of a text. */
  datatype Parse = Invalid | NotAnObject | Object(value: Dict)

  /** Opening braces less closing ones among the first k characters. */
  function Balance(s: string, k: nat): int
    requires k <= |s|
  {
    if k == 0 then 0
    else Balance(s, k - 1) + (if s[k-1] == '{' then 1 else if s[k-1] == '}' then -1 else 0)
  }

  datatype Segment = Segment(start: nat, end: nat)

  /** An opening brace at balance 0, still unclosed after n characters. */
  ghost predicate OpenSince(s: string, start: nat, n: nat) {
    && start < n <= |s| && s[start] == '{' && Balance(s, start) == 0
    && forall k :: start < k <= n ==> Balance(s, k) > 0
  }

  /** s[start..end] runs from a brace at balance 0 to where the balance is next 0. */
  ghost predicate Block(s: string, b: Segment) {
    && b.start < b.end <= |s| && s[b.start] == '{'
    && Balance(s, b.start) == 0 && Balance(s, b.end) == 0
    && forall k :: b.start < k < b.end ==> Balance(s, k) > 0
  }

  /** The segments are the blocks that end within the first n characters, left
      to right and disjoint. */
  ghost predicate AreBlocks(s: string, segments: seq<Segment>, n: nat) {
    && (forall b :: b in segments <==> Block(s, b) && b.end <= n)
    && (forall i, j :: 0 <= i < j < |segments| ==> segments[i].end <= segments[j].start)
  }

  function TextOf(s: string, b: Segment): string
    requires b.start <= b.end <= |s|
  {
    s[b.start..b.end]
  }

  /** The scan both readers use.  `tried` are the segments given to the parser:
      all blocks, or, if one parses to an object, the blocks up to it. */
  method FirstObject(s: string, parse: string -> Parse) returns (r: Option<Dict>, ghost tried: seq<Segment>,
                     ghost end: nat)
    ensures end <= |s| && AreBlocks(s, tried, end)
    ensures r.None? ==> end == |s| && forall b <- tried :: !parse(TextOf(s, b)).Object?
    ensures r.Some? ==>
              && tried != [] && tried[|tried|-1].end == end
              && parse(TextOf(s, tried[|tried|-1])) == Object(r.value)
              && forall i :: 0 <= i < |tried| - 1 ==> !parse(TextOf(s, tried[i])).Object?
    ensures IsFirst(s, parse, r)
  {
    hide IsFirst;
    var depth := 0;
    var start: Option<nat> := None;
    tried, end := [], 0;
    for i := 0 to |s|
      invariant depth == Balance(s, i)
      invariant Tracks(s, i, start)
      invariant AreBlocks(s, tried, i)
      invariant forall b <- tried :: !parse(TextOf(s, b)).Object?
    {
      BlocksStep(s, tried, i, start);
      TrackStep(s, i, start);
      if s[i] == '{' {
        if depth == 0 {
          start := Some(i);
        }
        depth := depth + 1;
      } else if s[i] == '}' {
        depth := depth - 1;
        if depth == 0 && start.Some? {
          var parsed := parse(s[start.value..i+1]);
          tried := tried + [Segment(start.value, i + 1)];
          if parsed.Object? {
            end := i + 1;
            FirstIsFirst(s, parse, Some(parsed.value), tried, end);
            return Some(parsed.value), tried, end;
          }
          start := None;
        }
      }
    }
    FirstIsFirst(s, parse, None, tried, |s|);
    return None, tried, |s|;
  }

  /** A block ends with the brace that closes the one it starts with. */
  lemma BlockEnd(s: string, b: Segment)
    requires Block(s, b)
    ensures s[b.end - 1] == '}' && b.start < b.end - 1 && OpenSince(s, b.start, b.end - 1)
  {
    assert Balance(s, b.start + 1) == 1;
    assert b.end != b.start + 1;
    assert Balance(s, b.end - 1) > 0;
  }

  /** Reading one more character completes at most one block: the open one. */
  lemma BlocksStep(s: string, tried: seq<Segment>, i: nat, start: Option<nat>)
    requires i < |s| && AreBlocks(s, tried, i)
    requires Tracks(s, i, start)
    ensures if s[i] == '}' && Balance(s, i + 1) == 0 && start.Some?
            then AreBlocks(s, tried + [Segment(start.value, i + 1)], i + 1)
            else AreBlocks(s, tried, i + 1)
    ensures Balance(s, i + 1) == Balance(s, i) + (if s[i] == '{' then 1 else if s[i] == '}' then -1 else 0)
  {
    forall b | Block(s, b) && b.end == i + 1
      ensures s[i] == '}' && Balance(s, i + 1) == 0 && start == Some(b.start)
    {
      BlockEnd(s, b);
      OnlyOneTracked(s, i, start, b.start);
    }
    if s[i] == '}' && Balance(s, i + 1) == 0 && start.Some? {
      var b := Segment(start.value, i + 1);
      assert Block(s, b);
      forall j | 0 <= j < |tried| ensures tried[j].end <= b.start {
        assert tried[j] in tried;
        assert Balance(s, tried[j].end) == 0;
      }
    }
  }

  lemma OnlyOneTracked(s: string, n: nat, start: Option<nat>, k: nat)
    requires Tracks(s, n, start) && OpenSince(s, k, n)
    ensures start == Some(k)
  {
    forall j: nat | OpenSince(s, j, n) ensures j == k {
      NotOpenEarlier(s, j, k, n);
      NotOpenEarlier(s, k, j, n);
    }
  }

  lemma NotOpenEarlier(s: string, j: nat, k: nat, n: nat)
    requires OpenSince(s, j, n) && OpenSince(s, k, n)
    ensures j >= k
  {
  }

  /** `start` is the open brace at balance 0, if there is one. */
  ghost predicate Tracks(s: string, i: nat, start: Option<nat>) {
    match start
    case Some(k) => OpenSince(s, k, i)
    case None => forall k: nat :: !OpenSince(s, k, i)
  }

  function NextStart(s: string, i: nat, start: Option<nat>): Option<nat>
    requires i < |s|
  {
    if s[i] == '{' && Balance(s, i) == 0 then Some(i)
    else if s[i] == '}' && Balance(s, i + 1) == 0 then None
    else start
  }

  /** What is open after one more character. */
  lemma TrackStep(s: string, i: nat, start: Option<nat>)
    requires i < |s| && Tracks(s, i, start)
    ensures Tracks(s, i + 1, NextStart(s, i, start))
  {
    var (next, n) := (NextStart(s, i, start), i + 1);
    match start {
      case Some(k) =>
        assert Balance(s, i) > 0;
        if next == start {
          assert Balance(s, i + 1) > 0;
        } else {
          forall j: nat ensures !OpenSince(s, j, n) {}
        }
      case None =>
        if next.None? {
          forall j: nat ensures !OpenSince(s, j, n) {
            assert OpenSince(s, j, n) && j < i ==> OpenSince(s, j, i);
          }
        } else {
          assert OpenSince(s, i, i + 1);
        }
    }
  }

  /** The default that a reply gets, unless it has its own. */
  function WithSuccess(d: Dict): Dict {
    if "success" in d then d else d["success" := True]
  }

  /** The answer when no object is found: the text itself. */
  function Unparsed(content: string): Dict {
    map["success" := True, "summary" := Text(content), "raw_response" := Text(content)]
  }

  /** `parse_llm_response`: the whole reply if it is an object, else the first
      block that is, else the text as a summary.  The answer always says whether
      the call was a success, and keeps every entry of the object found. */
  method ParseLlmResponse(content: string, parse: string -> Parse) returns (r: Dict)
    ensures parse(Strip(content)).Object? ==> r == map["success" := True] + parse(Strip(content)).value
    ensures !parse(Strip(content)).Object? ==>
              exists found :: IsFirst(content, parse, found) &&
                  r == match found
                       case Some(value) => map["success" := True] + value
                       case None =>
                         map["success" := True, "summary" := Text(content), "raw_response" := Text(content)]
    ensures "success" in r
  {
    var whole := parse(Strip(content));
    if whole.Object? {
      return WithSuccess(whole.value);
    }
    var found;
    ghost var tried, end;
    found, tried, end := FirstObject(content, parse);
    r := if found.Some? then WithSuccess(found.value) else Unparsed(content);
    assert IsFirst(content, parse, found);
  }

  datatype Validation = Validated(value: Dict) | SchemaError | Exhausted

  /** `validate_and_parse`: the same attempts, with a code fence in between, and
      the first object found must satisfy the schema.  `fence` is the stripped
      content of the first code fence. */
  method ValidateAndParse(raw: string, parse: string -> Parse, fence: string -> Option<string>, schema: Dict -> bool)
    returns (r: Validation)
    ensures var candidate := Strip(raw);
            parse(candidate).Object? ==> IsChecked(r, schema, parse(candidate).value)
    ensures var candidate := Strip(raw);
            !parse(candidate).Object? && fence(candidate).Some? && parse(fence(candidate).value).Object? ==>
              IsChecked(r, schema, parse(fence(candidate).value).value)
    ensures var candidate := Strip(raw);
            !parse(candidate).Object? && !(fence(candidate).Some? && parse(fence(candidate).value).Object?) ==>
              exists found :: IsFirst(candidate, parse, found) &&
                  if found.None? then r == Exhausted else IsChecked(r, schema, found.value)
  {
    var candidate := Strip(raw);
    var whole := parse(candidate);
    if whole.Object? {
      return Checked(schema, whole.value);
    }
    var inner := fence(candidate);
    if inner.Some? {
      var parsed := parse(inner.value);
      if parsed.Object? {
        return Checked(schema, parsed.value);
      }
    }
    var found;
    ghost var tried, end;
    found, tried, end := FirstObject(candidate, parse);
    r := if found.None? then Exhausted else Checked(schema, found.value);
  }

  /** The object is given back exactly if it satisfies the schema. */
  predicate IsChecked(r: Validation, schema: Dict -> bool, value: Dict) {
    (r == Validated(value) <==> schema(value)) && (r == SchemaError <==> !schema(value))
  }

  function Checked(schema: Dict -> bool, value: Dict): Validation {
    if schema(value) then Validated(value) else SchemaError
  }

  /** The object of the leftmost block that parses to one, if any does. */
  ghost predicate IsFirst(s: string, parse: string -> Parse, r: Option<Dict>) {
    match r
    case None => forall b :: Block(s, b) ==> !parse(TextOf(s, b)).Object?
    case Some(value) =>
      exists b :: Block(s, b) && parse(TextOf(s, b)) == Object(value)
                  && forall c :: Block(s, c) && c.start < b.start ==> !parse(TextOf(s, c)).Object?
  }

  lemma FirstIsFirst(s: string, parse: string -> Parse, r: Option<Dict>, tried: seq<Segment>, end: nat)
    requires end <= |s| && AreBlocks(s, tried, end)
    requires r.None? ==> end == |s| && forall b <- tried :: !parse(TextOf(s, b)).Object?
    requires r.Some? ==>
               && tried != [] && tried[|tried|-1].end == end
               && parse(TextOf(s, tried[|tried|-1])) == Object(r.value)
               && forall i :: 0 <= i < |tried| - 1 ==> !parse(TextOf(s, tried[i])).Object?
    ensures IsFirst(s, parse, r)
  {
    if r.Some? {
      var b := tried[|tried|-1];
      assert b in tried;
      forall c | Block(s, c) && c.start < b.start ensures !parse(TextOf(s, c)).Object? {
        BlocksDisjoint(s, c, b);
        assert c in tried;
        var i :| 0 <= i < |tried| && tried[i] == c;
      }
    }
  }

  lemma BlocksDisjoint(s: string, a: Segment, b: Segment)
    requires Block(s, a) && Block(s, b) && a.start < b.start
    ensures a.end <= b.start
  {
  }

  // ---- Top-level blocks -------------------------------------------------------------

  /** The nesting depth when closing braces that close nothing are ignored. */
  function Depth(s: string, k: nat): nat
    requires k <= |s|
  {
    if k == 0 then 0
    else
      var d := Depth(s, k - 1);
      if s[k-1] == '{' then d + 1 else if s[k-1] == '}' && d > 0 then d - 1 else d
  }

  /** A maximal balanced {...} block at depth 0. */
  ghost predicate TopLevel(s: string, b: Segment) {
    && b.start < b.end <= |s| && s[b.start] == '{'
    && Depth(s, b.start) == 0 && Depth(s, b.end) == 0
    && forall k :: b.start < k < b.end ==> Depth(s, k) > 0
  }

  /** The lowest balance of any prefix up to k. */
  function Lowest(s: string, k: nat): int
    requires k <= |s|
  {
    if k == 0 then 0
    else if Balance(s, k) < Lowest(s, k - 1) then Balance(s, k) else Lowest(s, k - 1)
  }

  /** No prefix up to n has more closing than opening braces. */
  ghost predicate NoStray(s: string, n: nat)
    requires n <= |s|
  {
    forall k :: 0 <= k <= n ==> Balance(s, k) >= 0
  }

  lemma {:induction false} LowestIsLowest(s: string, n: nat)
    requires n <= |s|
    ensures forall k :: 0 <= k <= n ==> Lowest(s, n) <= Balance(s, k)
    ensures exists k :: 0 <= k <= n && Lowest(s, n) == Balance(s, k)
  {
    if n == 0 {
      assert Balance(s, 0) == 0;
    } else {
      LowestIsLowest(s, n - 1);
      var k :| 0 <= k <= n - 1 && Lowest(s, n - 1) == Balance(s, k);
    }
  }

  lemma {:induction false} DepthIsBalanceAboveLowest(s: string, k: nat)
    requires k <= |s|
    ensures Depth(s, k) == Balance(s, k) - Lowest(s, k)
  {
    if k > 0 { DepthIsBalanceAboveLowest(s, k - 1); }
  }

  /** Within a block the lowest balance does not move. */
  lemma {:induction false} LowestStays(s: string, b: Segment, k: nat)
    requires TopLevel(s, b) && b.start <= k <= b.end
    ensures Lowest(s, k) == Lowest(s, b.start)
  {
    if k > b.start {
      LowestStays(s, b, k - 1);
      DepthIsBalanceAboveLowest(s, k);
      DepthIsBalanceAboveLowest(s, k - 1);
    }
  }

  /** Exactly when a top-level block is given to the parser: when no stray
      closing brace comes before it.  One stray brace hides every later
      top-level block. */
  lemma TopLevelIsTriedUnlessStray(s: string, b: Segment)
    requires TopLevel(s, b)
    ensures Block(s, b) <==> NoStray(s, b.start)
  {
    LowestIsLowest(s, b.start);
    DepthIsBalanceAboveLowest(s, b.start);
    forall k | b.start <= k <= b.end ensures Depth(s, k) == Balance(s, k) - Lowest(s, b.start) {
      DepthIsBalanceAboveLowest(s, k);
      LowestStays(s, b, k);
    }
    if NoStray(s, b.start) {
      assert Lowest(s, b.start) == 0 by { assert Balance(s, 0) == 0; }
    }
  }

  lemma {:induction false} LowestWithinBlock(s: string, b: Segment, k: nat)
    requires Block(s, b) && b.start <= k <= b.end
    ensures Lowest(s, k) == Lowest(s, b.start) <= 0
  {
    if k > b.start {
      LowestWithinBlock(s, b, k - 1);
      assert Balance(s, k) >= 0;
    } else {
      LowestIsLowest(s, k);
      assert Balance(s, 0) == 0;
    }
  }

  /** And exactly when a segment that is tried is a top-level block. */
  lemma TriedIsTopLevelUnlessStray(s: string, b: Segment)
    requires Block(s, b)
    ensures TopLevel(s, b) <==> NoStray(s, b.start)
  {
    LowestIsLowest(s, b.start);
    forall k | b.start <= k <= b.end ensures Depth(s, k) == Balance(s, k) - Lowest(s, b.start) {
      DepthIsBalanceAboveLowest(s, k);
      LowestWithinBlock(s, b, k);
    }
    if NoStray(s, b.start) {
      assert Balance(s, 0) == 0;
    }
  }

  /** In text where no prefix has more closing than opening braces, the segments
      tried are exactly the top-level blocks. */
  lemma BalancedTextIsScannedExactly(s: string, b: Segment)
    requires NoStray(s, |s|)
    ensures Block(s, b) <==> TopLevel(s, b)
  {
    if TopLevel(s, b) { TopLevelIsTriedUnlessStray(s, b); }
    if Block(s, b) { TriedIsTopLevelUnlessStray(s, b); }
  }

  /** A reply whose only object is missed: a stray brace before it. */
  lemma StrayBraceHidesObject(body: string)
    requires forall c <- body :: c != '{' && c != '}'
    ensures var s := "}{" + body + "}";
            TopLevel(s, Segment(1, |s|)) && forall b :: !Block(s, b)
  {
    var s := "}{" + body + "}";
    forall k | 2 <= k <= |s| - 1 ensures Depth(s, k) == 1 && Balance(s, k) == 0 {
      InsideStray(body, k);
    }
    StrayEnds(body);
    forall b ensures !Block(s, b) {
      if b.start < b.end <= |s| && s[b.start] == '{' {
        OnlyOpening(body, b.start);
      }
    }
  }

  lemma StrayEnds(body: string)
    requires forall c <- body :: c != '{' && c != '}'
    ensures var s := "}{" + body + "}";
            && Depth(s, 1) == 0 && Balance(s, 1) == -1
            && Depth(s, |s|) == 0 && Balance(s, |s|) == -1
  {
    var s := "}{" + body + "}";
    var last := |s| - 1;
    InsideStray(body, last);
    assert s[0] == '}' && s[last] == '}';
    assert Depth(s, 0) == 0 && Balance(s, 0) == 0;
  }

  lemma OnlyOpening(body: string, k: nat)
    requires forall c <- body :: c != '{' && c != '}'
    requires var s := "}{" + body + "}"; k < |s| && s[k] == '{'
    ensures k == 1
  {
    var s := "}{" + body + "}";
    forall j | 2 <= j < |body| + 2 ensures s[j] != '{' {
      assert s[j] == body[j - 2] && body[j - 2] in body;
    }
  }

  lemma {:induction false} InsideStray(body: string, k: nat)
    requires 2 <= k <= |body| + 2
    requires forall c <- body :: c != '{' && c != '}'
    ensures var s := "}{" + body + "}"; Depth(s, k) == 1 && Balance(s, k) == 0
  {
    var s := "}{" + body + "}";
    if k == 2 {
      assert s[0] == '}' && s[1] == '{';
      assert Depth(s, 1) == 0 && Balance(s, 1) == -1;
    } else {
      InsideStray(body, k - 1);
      assert s[k-1] == body[k-3];
      assert body[k-3] in body;
    }
  }
}

/** The declarative workflow engine: triggers, conditions, interpolation,
    provider calls and builtin actions, in dry runs and real runs. */
module Workflows {
  import opened Wrappers
  import Text

  datatype Json =
    | Null
    | Str(text: string)
    | Leaf(repr: string)
    | List(items: seq<Json>)
    | Dict(fields: seq<Field>)

  datatype Field = Field(key: string, value: Json)

  const EMPTY_TEXT := Str("")

  /** A template, once the placeholder expression has split it: the text of a
      placeholder is already stripped. */
  datatype Segment = Literal(text: string) | Hole(path: string)

  /** What the model leaves open: splitting a template, `str()`, `int()` on text, and
      CEL evaluation over an alert (None for an error).  A trigger is evaluated over
      more of the alert than the condition of a step. */
  datatype Env = Env(
    parse: string -> seq<Segment>,
    str: Json -> string,
    intOf: string -> Option<int>,
    triggerCel: (string, Json) -> Option<bool>,
    stepCel: (string, Json) -> Option<bool>)

  // ---- Interpolation ------------------------------------------------------------

  function Get(fields: seq<Field>, key: string): Option<Json> {
    if fields == [] then None
    else if fields[0].key == key then Some(fields[0].value)
    else Get(fields[1..], key)
  }

  /** A dict keeps a replaced key in its place. */
  function Set(fields: seq<Field>, key: string, value: Json): seq<Field> {
    if fields == [] then [Field(key, value)]
    else if fields[0].key == key then [Field(key, value)] + fields[1..]
    else [fields[0]] + Set(fields[1..], key, value)
  }

  function ResolvePath(env: Env, value: Json, parts: seq<string>): Json
    decreases |parts|
  {
    if parts == [] then value
    else
      match value
      case Dict(fields) =>
        var next := Get(fields, parts[0]);
        ResolvePath(env, if next.Some? then next.value else EMPTY_TEXT, parts[1..])
      case List(items) =>
        var n := env.intOf(parts[0]);
        if n.None? then EMPTY_TEXT
        else
          var i := if n.value < 0 then n.value + |items| else n.value;
          if 0 <= i < |items| then ResolvePath(env, items[i], parts[1..]) else EMPTY_TEXT
      case _ => EMPTY_TEXT
  }

  function LStripDots(s: string): string {
    if s != "" && s[0] == '.' then LStripDots(s[1..]) else s
  }

  /** The value of a placeholder under one of the three prefixes. */
  function FillFrom(env: Env, path: string, prefix: string, source: Json): string
    requires prefix <= path
  {
    var rest := if |path| > |prefix| then path[|prefix|+1..] else "";
    if rest == "" then env.str(source)
    else
      var resolved := ResolvePath(env, source, Text.Split(LStripDots(rest), "."));
      if resolved.Null? then "" else env.str(resolved)
  }

  /** The sources of a run: the alert, the trigger data and the step outputs. */
  datatype Sources = Sources(alert: Json, trigger: Json, steps: seq<Field>)

  function Fill(env: Env, path: string, s: Sources): string {
    if "steps" <= path then FillFrom(env, path, "steps", Dict(s.steps))
    else if "alert" <= path then FillFrom(env, path, "alert", s.alert)
    else if "trigger" <= path then FillFrom(env, path, "trigger", s.trigger)
    else ""
  }

  function FillAll(env: Env, segments: seq<Segment>, s: Sources): string {
    if segments == [] then ""
    else
      (if segments[0].Literal? then segments[0].text else Fill(env, segments[0].path, s))
      + FillAll(env, segments[1..], s)
  }

  function DeepInterpolate(env: Env, v: Json, s: Sources): Json
    decreases v, 1
  {
    match v
    case Str(t) => Str(FillAll(env, env.parse(t), s))
    case Dict(fields) => Dict(DeepFields(env, fields, s))
    case List(items) => List(DeepItems(env, items, s))
    case _ => v
  }

  function DeepItems(env: Env, items: seq<Json>, s: Sources): seq<Json>
    decreases items, 0
  {
    if items == [] then [] else [DeepInterpolate(env, items[0], s)] + DeepItems(env, items[1..], s)
  }

  function DeepFields(env: Env, fields: seq<Field>, s: Sources): seq<Field>
    decreases fields, 0
  {
    if fields == [] then []
    else [Field(fields[0].key, DeepInterpolate(env, fields[0].value, s))] + DeepFields(env, fields[1..], s)
  }

  // ---- Workflows ------------------------------------------------------------------

  datatype Action = Action(kind: string, with: Json)

  datatype Provider = Provider(kind: string, with: Json)

  /** An absent condition is empty. */
  datatype Step = Step(name: string, provider: Option<Provider>, condition: string, actions: seq<Action>)

  /** A trigger and its `cel` parameter; absent is empty. */
  datatype Trigger = Trigger(kind: string, cel: string)

  datatype Workflow = Workflow(id: string, triggers: seq<Trigger>, steps: seq<Step>)

  datatype Intended = Intended(kind: string, with: Option<Json>)

  datatype ActionResult = DryRun(kind: string) | Answered(answer: Json)

  datatype StepResult = StepResult(
    step: string, skipped: bool, output: Option<Json>, actions: seq<ActionResult>, intended: seq<Intended>)

  /** What a run does to the outside world. */
  datatype Effect = Queried(provider: string, params: Json) | Performed(action: Intended)

  datatype RunResult = RunResult(triggered: bool, steps: seq<StepResult>)

  /** An engine: its mode, its providers, and what a query or a builtin action would
      answer after n effects of the run (a caught exception is an answer too). */
  datatype Mode = Mode(
    dryRun: bool, providers: set<string>,
    answer: (nat, string, Json) -> Json, perform: (nat, Intended, Sources) -> Json)

  const BUILTINS := {"enrich", "create_case", "gated_containment", "notify"}

  predicate Fires(env: Env, t: Trigger, alert: Json) {
    if t.kind == "alert" then t.cel != "" && env.triggerCel(t.cel, alert) == Some(true)
    else t.kind in {"interval", "manual", "webhook"}
  }

  predicate Skipped(env: Env, step: Step, alert: Json) {
    step.condition != "" && env.stepCel(step.condition, alert) != Some(true)
  }

  function InterpolateAction(env: Env, a: Action, s: Sources): Intended {
    Intended(a.kind, if a.with == Dict([]) then None else Some(DeepInterpolate(env, a.with, s)))
  }

  function InterpolateActions(env: Env, actions: seq<Action>, s: Sources): (r: seq<Intended>)
    ensures |r| == |actions|
    ensures forall i :: 0 <= i < |r| ==> r[i] == InterpolateAction(env, actions[i], s)
  {
    seq(|actions|, i requires 0 <= i < |actions| => InterpolateAction(env, actions[i], s))
  }

  /** What a provider call yields in a dry run. */
  function DryAnswer(kind: string, params: Json): Json {
    Dict([Field("dry_run", Leaf("True")), Field("provider", Str(kind)), Field("params", params)])
  }

  /** What a provider call yields, and whether it is a query. */
  function CallProvider(env: Env, m: Mode, p: Provider, s: Sources, n: nat): (Json, seq<Effect>) {
    if p.kind !in m.providers then (Dict([Field("error", Str("provider '" + p.kind + "' not found"))]), [])
    else
      var params := DeepInterpolate(env, p.with, s);
      if m.dryRun then (DryAnswer(p.kind, params), [])
      else (m.answer(n, p.kind, params), [Queried(p.kind, params)])
  }

  /** What an action of no known kind yields. */
  function UnknownAction(kind: string): Json {
    Dict([Field("type", Str(kind)), Field("success", Leaf("False")), Field("error", Str("unknown action type"))])
  }

  /** What an action yields in a real run, and whether it does anything. */
  function ExecAction(m: Mode, a: Intended, s: Sources, n: nat): (Json, seq<Effect>) {
    if a.kind !in BUILTINS then (UnknownAction(a.kind), []) else (m.perform(n, a, s), [Performed(a)])
  }

  /** The results and effects of the actions of a step, after n effects. */
  function ActionsOf(m: Mode, intended: seq<Intended>, s: Sources, n: nat): (seq<ActionResult>, seq<Effect>) {
    if intended == [] then ([], [])
    else
      var (rest, a) := (intended[..|intended|-1], intended[|intended|-1]);
      var (results, effects) := ActionsOf(m, rest, s, n);
      if m.dryRun then (results + [DryRun(a.kind)], effects)
      else
        var (answer, done) := ExecAction(m, a, s, n + |effects|);
        (results + [Answered(answer)], effects + done)
  }

  lemma NoActions(m: Mode, s: Sources, n: nat)
    ensures ActionsOf(m, [], s, n) == ([], [])
  {
  }

  lemma {:induction false} ActionsAppend(m: Mode, intended: seq<Intended>, a: Intended, s: Sources, n: nat)
    ensures var (results, effects) := ActionsOf(m, intended, s, n);
            var (answer, done) := ExecAction(m, a, s, n + |effects|);
            ActionsOf(m, intended + [a], s, n) ==
              if m.dryRun then (results + [DryRun(a.kind)], effects) else (results + [Answered(answer)], effects + done)
  {
    hide ExecAction;
    assert (intended + [a])[..|intended|] == intended;
  }

  /** The actions of known kinds, as effects. */
  function Performances(intended: seq<Intended>): seq<Effect> {
    if intended == [] then []
    else
      var a := intended[|intended|-1];
      Performances(intended[..|intended|-1]) + if a.kind in BUILTINS then [Performed(a)] else []
  }

  /** A dry run only lists the actions; a real run performs those of known kinds in
      order and records what each answers, and an error for the others. */
  lemma {:induction false} ActionsPerform(m: Mode, intended: seq<Intended>, s: Sources, n: nat)
    ensures var (results, effects) := ActionsOf(m, intended, s, n);
            && |results| == |intended| && effects == (if m.dryRun then [] else Performances(intended))
            && forall i :: 0 <= i < |results| ==> results[i] == ResultOf(m, intended, s, n, i)
  {
    if intended != [] {
      hide ResultOf, ExecAction, Performances;
      var rest := intended[..|intended|-1];
      ActionsPerform(m, rest, s, n);
      forall i | 0 <= i < |rest| ensures ResultOf(m, intended, s, n, i) == ResultOf(m, rest, s, n, i) {
        EarlierResult(m, intended, s, n, i);
      }
      LastResult(m, intended, s, n);
    }
  }

  /** What is recorded for action i of a step. */
  function ResultOf(m: Mode, intended: seq<Intended>, s: Sources, n: nat, i: nat): ActionResult
    requires i < |intended|
  {
    var a := intended[i];
    if m.dryRun then DryRun(a.kind)
    else if a.kind in {"enrich", "create_case", "gated_containment", "notify"}
    then Answered(m.perform(n + |Performances(intended[..i])|, a, s))
    else
      Answered(Dict([Field("type", Str(a.kind)), Field("success", Leaf("False")),
                     Field("error", Str("unknown action type"))]))
  }

  lemma EarlierResult(m: Mode, intended: seq<Intended>, s: Sources, n: nat, i: nat)
    requires i < |intended| - 1
    ensures ResultOf(m, intended, s, n, i) == ResultOf(m, intended[..|intended|-1], s, n, i)
  {
    hide Performances;
    assert intended[..|intended|-1][..i] == intended[..i];
  }

  lemma LastResult(m: Mode, intended: seq<Intended>, s: Sources, n: nat)
    requires intended != []
    ensures var (rest, a) := (intended[..|intended|-1], intended[|intended|-1]);
            ResultOf(m, intended, s, n, |intended| - 1) ==
              if m.dryRun then DryRun(a.kind) else Answered(ExecAction(m, a, s, n + |Performances(rest)|).0)
  {
    hide Performances;
  }

  /** The state of a run between steps. */
  datatype RunState = RunState(outputs: seq<Field>, results: seq<StepResult>, effects: seq<Effect>)

  const STARTED := RunState([], [], [])

  function SourcesAt(alert: Json, trigger: Json, st: RunState): Sources {
    Sources(alert, trigger, st.outputs)
  }

  /** One step: skipped, or its provider and then its actions. */
  function StepResultOf(env: Env, m: Mode, step: Step, s: Sources, n: nat): (StepResult, seq<Effect>) {
    if Skipped(env, step, s.alert) then (StepResult(step.name, true, None, [], []), [])
    else
      var (output, queries) :=
        if step.provider.None? then (None, [])
        else
          var (answer, effects) := CallProvider(env, m, step.provider.value, s, n);
          (if answer.Null? then None else Some(answer), effects);
      var intended := InterpolateActions(env, step.actions, s);
      var (results, effects) := ActionsOf(m, intended, s, n + |queries|);
      (StepResult(step.name, false, output, results, intended), queries + effects)
  }

  function Remember(outputs: seq<Field>, r: StepResult): seq<Field> {
    if r.output.None? then outputs else Set(outputs, r.step, Dict([Field("output", r.output.value)]))
  }

  function AfterStep(env: Env, m: Mode, step: Step, alert: Json, trigger: Json, st: RunState): RunState {
    var (r, effects) := StepResultOf(env, m, step, SourcesAt(alert, trigger, st), |st.effects|);
    RunState(Remember(st.outputs, r), st.results + [r], st.effects + effects)
  }

  function AfterSteps(env: Env, m: Mode, steps: seq<Step>, alert: Json, trigger: Json): (st: RunState)
    ensures |st.results| == |steps|
  {
    if steps == [] then STARTED
    else AfterStep(env, m, steps[|steps|-1], alert, trigger, AfterSteps(env, m, steps[..|steps|-1], alert, trigger))
  }

  // ---- The engine -------------------------------------------------------------------

  class WorkflowContext {
    const alert: Json
    const trigger: Json
    var stepOutputs: seq<Field>

    constructor (alert: Json, trigger: Json)
      ensures this.alert == alert && this.trigger == trigger && stepOutputs == []
    {
      this.alert, this.trigger, stepOutputs := alert, trigger, [];
    }

    function View(): Sources
      reads this
    {
      Sources(alert, trigger, stepOutputs)
    }

    method SetStepOutput(name: string, output: Json)
      modifies this
      ensures stepOutputs == Set(old(stepOutputs), name, Dict([Field("output", output)]))
      ensures forall n :: Get(stepOutputs, n) ==
                if n == name then Some(Dict([Field("output", output)])) else Get(old(stepOutputs), n)
    {
      forall n { GetSet(stepOutputs, name, Dict([Field("output", output)]), n); }
      stepOutputs := Set(stepOutputs, name, Dict([Field("output", output)]));
    }
  }

  class WorkflowEngine {
    const env: Env
    const mode: Mode
    var effects: seq<Effect>

    constructor (env: Env, mode: Mode)
      ensures this.env == env && this.mode == mode
    {
      this.env, this.mode, effects := env, mode, [];
    }

    method Query(p: Provider, s: Sources) returns (answer: Json)
      modifies this
      ensures var (a, es) := CallProvider(env, mode, p, s, |old(effects)|);
              answer == a && effects == old(effects) + es
    {
      if p.kind !in mode.providers {
        return Dict([Field("error", Str("provider '" + p.kind + "' not found"))]);
      }
      var params := DeepInterpolate(env, p.with, s);
      if mode.dryRun {
        return DryAnswer(p.kind, params);
      }
      answer := mode.answer(|effects|, p.kind, params);
      effects := effects + [Queried(p.kind, params)];
    }

    method RunActions(actions: seq<Action>, s: Sources) returns (results: seq<ActionResult>, intended: seq<Intended>)
      modifies this
      ensures intended == InterpolateActions(env, actions, s)
      ensures var (rs, es) := ActionsOf(mode, intended, s, |old(effects)|);
              results == rs && effects == old(effects) + es
    {
      hide InterpolateAction, ExecAction, ActionsOf;
      results, intended := [], [];
      NoActions(mode, s, |effects|);
      for i := 0 to |actions|
        invariant |intended| == i
        invariant forall j :: 0 <= j < i ==> intended[j] == InterpolateAction(env, actions[j], s)
        invariant var (rs, es) := ActionsOf(mode, intended, s, |old(effects)|);
                  results == rs && effects == old(effects) + es
      {
        var resolved := InterpolateAction(env, actions[i], s);
        ActionsAppend(mode, intended, resolved, s, |old(effects)|);
        intended := intended + [resolved];
        if !mode.dryRun {
          var answer := PerformAction(resolved, s);
          results := results + [Answered(answer)];
        } else {
          results := results + [DryRun(resolved.kind)];
        }
      }
      assert intended == InterpolateActions(env, actions, s);
    }

    method PerformAction(a: Intended, s: Sources) returns (answer: Json)
      modifies this
      ensures var (r, es) := ExecAction(mode, a, s, |old(effects)|);
              answer == r && effects == old(effects) + es
    {
      if a.kind !in BUILTINS {
        return UnknownAction(a.kind);
      }
      answer := mode.perform(|effects|, a, s);
      effects := effects + [Performed(a)];
    }

    method RunStep(step: Step, ctx: WorkflowContext) returns (r: StepResult)
      modifies this
      ensures var (result, es) := StepResultOf(env, mode, step, ctx.View(), |old(effects)|);
              r == result && effects == old(effects) + es
    {
      hide CallProvider, InterpolateActions, ActionsOf;
      var s := ctx.View();
      if Skipped(env, step, s.alert) {
        return StepResult(step.name, true, None, [], []);
      }
      var output: Option<Json> := None;
      if step.provider.Some? {
        var answer := Query(step.provider.value, s);
        output := if answer.Null? then None else Some(answer);
      }
      var actions, intended := RunActions(step.actions, s);
      r := StepResult(step.name, false, output, actions, intended);
    }

    /** Runs a workflow: which steps ran, with what results and effects. */
    method Run(w: Workflow, alert: Json, trigger: Json) returns (result: RunResult)
      modifies this
      ensures result.triggered <==>
                exists i :: 0 <= i < |w.triggers| &&
                            (w.triggers[i].kind in {"interval", "manual", "webhook"}
                             || (w.triggers[i].kind == "alert" && w.triggers[i].cel != ""
                                 && env.triggerCel(w.triggers[i].cel, alert) == Some(true)))
      ensures !result.triggered ==> result.steps == [] && effects == []
      ensures result.triggered ==>
                var st := AfterSteps(env, mode, w.steps, alert, trigger);
                result.steps == st.results && effects == st.effects
    {
      hide StepResultOf, AfterSteps;
      effects := [];
      NoSteps(env, mode, alert, trigger);
      var triggered := false;
      for i := 0 to |w.triggers|
        invariant !triggered && forall j :: 0 <= j < i ==> !Fires(env, w.triggers[j], alert)
      {
        if Fires(env, w.triggers[i], alert) {
          triggered := true;
          break;
        }
      }
      if !triggered {
        return RunResult(false, []);
      }
      var ctx := new WorkflowContext(alert, trigger);
      var results: seq<StepResult> := [];
      for i := 0 to |w.steps|
        invariant ctx.alert == alert && ctx.trigger == trigger
        invariant RunState(ctx.stepOutputs, results, effects) == AfterSteps(env, mode, w.steps[..i], alert, trigger)
      {
        assert w.steps[..i+1][..i] == w.steps[..i];
        LastStep(env, mode, w.steps[..i+1], alert, trigger);
        StepKeepsName(env, mode, w.steps[i], ctx.View(), |effects|);
        var r := RunStep(w.steps[i], ctx);
        results := results + [r];
        if r.output.Some? {
          ctx.SetStepOutput(w.steps[i].name, r.output.value);
        }
      }
      assert w.steps[..|w.steps|] == w.steps;
      result := RunResult(true, results);
    }
  }

  lemma StepKeepsName(env: Env, m: Mode, step: Step, s: Sources, n: nat)
    ensures StepResultOf(env, m, step, s, n).0.step == step.name
  {
  }

  // ---- Dry runs and real runs ---------------------------------------------------------

  /** The same value but for the text of its strings. */
  predicate SameShape(x: Json, y: Json)
    decreases x, 1
  {
    match (x, y)
    case (Str(_), Str(_)) => true
    case (List(a), List(b)) => SameItems(a, b)
    case (Dict(a), Dict(b)) => SameFields(a, b)
    case _ => x == y
  }

  predicate SameItems(a: seq<Json>, b: seq<Json>)
    decreases a, 0
  {
    |a| == |b| && (a == [] || (SameShape(a[0], b[0]) && SameItems(a[1..], b[1..])))
  }

  predicate SameFields(a: seq<Field>, b: seq<Field>)
    decreases a, 0
  {
    |a| == |b| && (a == [] || (a[0].key == b[0].key && SameShape(a[0].value, b[0].value) && SameFields(a[1..], b[1..])))
  }

  /** Interpolation changes only text. */
  lemma {:induction false} DeepKeepsShape(env: Env, v: Json, s: Sources, s': Sources)
    ensures SameShape(DeepInterpolate(env, v, s), DeepInterpolate(env, v, s'))
    decreases v, 1
  {
    match v
    case List(items) => ItemsKeepShape(env, items, s, s');
    case Dict(fields) => FieldsKeepShape(env, fields, s, s');
    case _ =>
  }

  lemma {:induction false} ItemsKeepShape(env: Env, items: seq<Json>, s: Sources, s': Sources)
    ensures SameItems(DeepItems(env, items, s), DeepItems(env, items, s'))
    decreases items, 0
  {
    if items != [] {
      DeepKeepsShape(env, items[0], s, s');
      ItemsKeepShape(env, items[1..], s, s');
    }
  }

  lemma {:induction false} FieldsKeepShape(env: Env, fields: seq<Field>, s: Sources, s': Sources)
    ensures SameFields(DeepFields(env, fields, s), DeepFields(env, fields, s'))
    decreases fields, 0
  {
    if fields != [] {
      DeepKeepsShape(env, fields[0].value, s, s');
      FieldsKeepShape(env, fields[1..], s, s');
    }
  }

  /** The same action, type and structure; only placeholder text may differ. */
  predicate SameAction(a: Intended, b: Intended) {
    a.kind == b.kind && (a.with.Some? <==> b.with.Some?) && (a.with.Some? ==> SameShape(a.with.value, b.with.value))
  }

  predicate SamePlan(a: StepResult, b: StepResult) {
    && a.step == b.step && a.skipped == b.skipped && |a.intended| == |b.intended|
    && forall i :: 0 <= i < |a.intended| ==> SameAction(a.intended[i], b.intended[i])
  }

  lemma StepsPlanAlike(env: Env, m: Mode, m': Mode, step: Step, s: Sources, s': Sources, n: nat, n': nat)
    requires s.alert == s'.alert
    ensures SamePlan(StepResultOf(env, m, step, s, n).0, StepResultOf(env, m', step, s', n').0)
  {
    hide CallProvider;
    forall i | 0 <= i < |step.actions|
      ensures SameAction(InterpolateAction(env, step.actions[i], s), InterpolateAction(env, step.actions[i], s'))
    {
      DeepKeepsShape(env, step.actions[i].with, s, s');
    }
  }

  /** Main result: whatever the providers answer, any two runs of a workflow on
      an alert, dry or real, skip the same steps and intend the same actions,
      type by type and field by field. */
  lemma {:induction false} RunsPlanAlike(env: Env, m: Mode, m': Mode, steps: seq<Step>, alert: Json, trigger: Json)
    ensures var (a, b) := (AfterSteps(env, m, steps, alert, trigger), AfterSteps(env, m', steps, alert, trigger));
            |a.results| == |b.results| == |steps| && forall i :: 0 <= i < |steps| ==>
                SamePlan(a.results[i], b.results[i])
  {
    if steps != [] {
      hide StepResultOf, SamePlan;
      var (rest, last) := (steps[..|steps|-1], steps[|steps|-1]);
      RunsPlanAlike(env, m, m', rest, alert, trigger);
      var (a, b) := (AfterSteps(env, m, rest, alert, trigger), AfterSteps(env, m', rest, alert, trigger));
      StepsPlanAlike(env, m, m', last, SourcesAt(alert, trigger, a), SourcesAt(alert, trigger, b), |a.effects|,
          |b.effects|);
    }
  }

  /** No placeholder of the value names a step. */
  predicate IgnoresSteps(env: Env, v: Json)
    decreases v, 1
  {
    match v
    case Str(t) => forall i :: 0 <= i < |env.parse(t)| && env.parse(t)[i].Hole? ==> !("steps" <= env.parse(t)[i].path)
    case List(items) => ItemsIgnoreSteps(env, items)
    case Dict(fields) => FieldsIgnoreSteps(env, fields)
    case _ => true
  }

  predicate ItemsIgnoreSteps(env: Env, items: seq<Json>)
    decreases items, 0
  {
    items == [] || (IgnoresSteps(env, items[0]) && ItemsIgnoreSteps(env, items[1..]))
  }

  predicate FieldsIgnoreSteps(env: Env, fields: seq<Field>)
    decreases fields, 0
  {
    fields == [] || (IgnoresSteps(env, fields[0].value) && FieldsIgnoreSteps(env, fields[1..]))
  }

  lemma {:induction false} FillIgnoresSteps(env: Env, segments: seq<Segment>, s: Sources, s': Sources)
    requires s.alert == s'.alert && s.trigger == s'.trigger
    requires forall i :: 0 <= i < |segments| && segments[i].Hole? ==> !("steps" <= segments[i].path)
    ensures FillAll(env, segments, s) == FillAll(env, segments, s')
  {
    if segments != [] {
      FillIgnoresSteps(env, segments[1..], s, s');
    }
  }

  lemma {:induction false} DeepIgnoresSteps(env: Env, v: Json, s: Sources, s': Sources)
    requires s.alert == s'.alert && s.trigger == s'.trigger && IgnoresSteps(env, v)
    ensures DeepInterpolate(env, v, s) == DeepInterpolate(env, v, s')
    decreases v, 1
  {
    match v
    case Str(t) => FillIgnoresSteps(env, env.parse(t), s, s');
    case List(items) => ItemsIgnoringSteps(env, items, s, s');
    case Dict(fields) => FieldsIgnoringSteps(env, fields, s, s');
    case _ =>
  }

  lemma {:induction false} ItemsIgnoringSteps(env: Env, items: seq<Json>, s: Sources, s': Sources)
    requires s.alert == s'.alert && s.trigger == s'.trigger && ItemsIgnoreSteps(env, items)
    ensures DeepItems(env, items, s) == DeepItems(env, items, s')
    decreases items, 0
  {
    if items != [] {
      DeepIgnoresSteps(env, items[0], s, s');
      ItemsIgnoringSteps(env, items[1..], s, s');
    }
  }

  lemma {:induction false} FieldsIgnoringSteps(env: Env, fields: seq<Field>, s: Sources, s': Sources)
    requires s.alert == s'.alert && s.trigger == s'.trigger && FieldsIgnoreSteps(env, fields)
    ensures DeepFields(env, fields, s) == DeepFields(env, fields, s')
    decreases fields, 0
  {
    if fields != [] {
      DeepIgnoresSteps(env, fields[0].value, s, s');
      FieldsIgnoringSteps(env, fields[1..], s, s');
    }
  }

  /** Whatever the providers answer, an action with no step placeholder is
      intended in exactly the same form by any two runs. */
  lemma {:induction false} IndependentActionsAgree(env: Env, m: Mode, m': Mode, steps: seq<Step>, alert: Json,
                                                   trigger: Json, i: nat, j: nat)
    requires i < |steps| && j < |steps[i].actions| && IgnoresSteps(env, steps[i].actions[j].with)
    ensures var a := AfterSteps(env, m, steps, alert, trigger).results[i];
            var b := AfterSteps(env, m', steps, alert, trigger).results[i];
            && (a.skipped <==> b.skipped)
            && |a.intended| == |b.intended| == (if a.skipped then 0 else |steps[i].actions|)
            && (!a.skipped ==> a.intended[j] == b.intended[j])
  {
    hide StepResultOf, IgnoresSteps, AfterSteps, Remember;
    var (rest, last) := (steps[..|steps|-1], steps[|steps|-1]);
    LastStep(env, m, steps, alert, trigger);
    LastStep(env, m', steps, alert, trigger);
    if i < |rest| {
      IndependentActionsAgree(env, m, m', rest, alert, trigger, i, j);
    } else {
      var (a, b) := (AfterSteps(env, m, rest, alert, trigger), AfterSteps(env, m', rest, alert, trigger));
      IndependentAction(env, m, m', last, SourcesAt(alert, trigger, a), SourcesAt(alert, trigger, b), |a.effects|,
          |b.effects|, j);
    }
  }

  lemma IndependentAction(env: Env, m: Mode, m': Mode, step: Step, s: Sources, s': Sources, n: nat, n': nat, j: nat)
    requires s.alert == s'.alert && s.trigger == s'.trigger
    requires j < |step.actions| && IgnoresSteps(env, step.actions[j].with)
    ensures var (a, b) := (StepResultOf(env, m, step, s, n).0, StepResultOf(env, m', step, s', n').0);
            && (a.skipped <==> b.skipped) && |a.intended| == |b.intended| == (if a.skipped then 0 else |step.actions|)
            && (!a.skipped ==> a.intended[j] == b.intended[j])
  {
    hide CallProvider, ActionsOf;
    DeepIgnoresSteps(env, step.actions[j].with, s, s');
  }

  /** Some step that is not skipped calls a registered provider. */
  predicate Queries(env: Env, m: Mode, step: Step, alert: Json) {
    !Skipped(env, step, alert) && step.provider.Some? && step.provider.value.kind in m.providers
  }

  /** If no step queries a provider, the two runs intend exactly the same
      actions and see the same outputs; the dry run does nothing, and the real
      run does exactly what both intended, in order, but for actions of unknown kinds. */
  lemma {:induction false} DryRunIsExact(env: Env, dry: Mode, wet: Mode, steps: seq<Step>, alert: Json, trigger: Json)
    requires dry.dryRun && !wet.dryRun && dry.providers == wet.providers
    requires forall i :: 0 <= i < |steps| ==> !Queries(env, wet, steps[i], alert)
    ensures var (a, b) := (AfterSteps(env, dry, steps, alert, trigger), AfterSteps(env, wet, steps, alert, trigger));
            && a.outputs == b.outputs
            && (forall i :: 0 <= i < |steps| ==>
                  a.results[i].intended == b.results[i].intended && a.results[i].output == b.results[i].output)
            && a.effects == [] && b.effects == AllIntended(a.results)
  {
    if steps != [] {
      hide StepResultOf, Queries, AfterSteps, Remember, Performances, AllIntended;
      var (rest, last) := (steps[..|steps|-1], steps[|steps|-1]);
      DryRunIsExact(env, dry, wet, rest, alert, trigger);
      LastStep(env, dry, steps, alert, trigger);
      LastStep(env, wet, steps, alert, trigger);
      var (a, b) := (AfterSteps(env, dry, rest, alert, trigger), AfterSteps(env, wet, rest, alert, trigger));
      StepIsExact(env, dry, wet, last, SourcesAt(alert, trigger, a), |a.effects|, |b.effects|);
      AllIntendedAppend(a.results, StepResultOf(env, dry, last, SourcesAt(alert, trigger, a), |a.effects|).0);
    } else {
      NothingIntended();
    }
  }

  lemma NoSteps(env: Env, m: Mode, alert: Json, trigger: Json)
    ensures AfterSteps(env, m, [], alert, trigger) == STARTED
  {
  }

  lemma {:induction false} LastStep(env: Env, m: Mode, steps: seq<Step>, alert: Json, trigger: Json)
    requires steps != []
    ensures var before := AfterSteps(env, m, steps[..|steps|-1], alert, trigger);
            AfterSteps(env, m, steps, alert, trigger) == AfterStep(env, m, steps[|steps|-1], alert, trigger, before)
  {
    hide StepResultOf;
  }

  lemma AllIntendedAppend(results: seq<StepResult>, r: StepResult)
    ensures AllIntended(results + [r]) == AllIntended(results) + Performances(r.intended)
  {
    hide Performances;
    assert (results + [r])[..|results|] == results;
  }

  lemma NothingIntended()
    ensures AllIntended([]) == []
  {
  }

  lemma StepIsExact(env: Env, dry: Mode, wet: Mode, step: Step, s: Sources, n: nat, n': nat)
    requires dry.dryRun && !wet.dryRun && dry.providers == wet.providers
    requires !Queries(env, wet, step, s.alert)
    ensures var ((a, none), (b, done)) := (StepResultOf(env, dry, step, s, n), StepResultOf(env, wet, step, s, n'));
            && a.step == b.step && a.intended == b.intended && a.output == b.output
            && (forall outputs :: Remember(outputs, a) == Remember(outputs, b))
            && none == [] && done == Performances(a.intended)
  {
    hide DeepInterpolate, InterpolateActions, ActionsOf;
    var intended := InterpolateActions(env, step.actions, s);
    forall m, k { ActionsPerform(m, intended, s, k); }
  }

  function AllIntended(results: seq<StepResult>): seq<Effect> {
    if results == [] then []
    else AllIntended(results[..|results|-1]) + Performances(results[|results|-1].intended)
  }

  /** A dry run never touches the outside world. */
  lemma {:induction false} DryRunHasNoEffects(env: Env, dry: Mode, steps: seq<Step>, alert: Json, trigger: Json)
    requires dry.dryRun
    ensures AfterSteps(env, dry, steps, alert, trigger).effects == []
  {
    if steps != [] {
      hide DeepInterpolate, InterpolateActions, ActionsOf;
      DryRunHasNoEffects(env, dry, steps[..|steps|-1], alert, trigger);
      forall intended, s, n { ActionsPerform(dry, intended, s, n); }
    }
  }

  // ---- What a step can see --------------------------------------------------------------

  /** The last of the results with that name that has an output. */
  function LastOutput(results: seq<StepResult>, name: string): Option<Json> {
    if results == [] then None
    else
      var r := results[|results|-1];
      if r.step == name && r.output.Some? then r.output else LastOutput(results[..|results|-1], name)
  }

  lemma {:induction false} GetSet(fields: seq<Field>, key: string, value: Json, other: string)
    ensures Get(Set(fields, key, value), other) == if other == key then Some(value) else Get(fields, other)
  {
    if fields != [] && fields[0].key != key {
      GetSet(fields[1..], key, value, other);
    }
  }

  /** The outputs a step interpolates from are those of the strictly earlier
      steps: for each name, the last earlier step that produced one. */
  lemma {:induction false} StepsSeeEarlierOutputs(env: Env, m: Mode, steps: seq<Step>, alert: Json, trigger: Json,
                                                  name: string)
    ensures var st := AfterSteps(env, m, steps, alert, trigger);
            Get(st.outputs, name) ==
            match LastOutput(st.results, name)
            case None => None
            case Some(v) => Some(Dict([Field("output", v)]))
  {
    if steps != [] {
      hide StepResultOf;
      var (rest, last) := (steps[..|steps|-1], steps[|steps|-1]);
      StepsSeeEarlierOutputs(env, m, rest, alert, trigger, name);
      var st := AfterSteps(env, m, rest, alert, trigger);
      var r := StepResultOf(env, m, last, SourcesAt(alert, trigger, st), |st.effects|).0;
      if r.output.Some? {
        GetSet(st.outputs, r.step, Dict([Field("output", r.output.value)]), name);
      }
      assert (st.results + [r])[..|st.results|] == st.results;
    }
  }

  // ---- What a run does with a step --------------------------------------------------

  /** In every run the step of a result is skipped exactly when it has a condition that
      is not true of the alert, and else intends its actions in order. */
  lemma {:induction false} StepsRunUnlessFalse(env: Env, m: Mode, steps: seq<Step>, alert: Json, trigger: Json, i: nat)
    requires i < |steps|
    ensures var r := AfterSteps(env, m, steps, alert, trigger).results[i];
            && r.step == steps[i].name
            && (r.skipped <==> steps[i].condition != "" && env.stepCel(steps[i].condition, alert) != Some(true))
            && |r.intended| == |r.actions| == (if r.skipped then 0 else |steps[i].actions|)
            && (forall j :: 0 <= j < |r.intended| ==> Interpolates(steps[i].actions[j], r.intended[j]))
  {
    LastStep(env, m, steps, alert, trigger);
    var (rest, last) := (steps[..|steps|-1], steps[|steps|-1]);
    if i < |rest| {
      hide AfterSteps, StepResultOf, Remember;
      StepsRunUnlessFalse(env, m, rest, alert, trigger, i);
    } else {
      hide AfterSteps, Remember, StepResultOf;
      var st := AfterSteps(env, m, rest, alert, trigger);
      StepRuns(env, m, last, SourcesAt(alert, trigger, st), |st.effects|);
    }
  }

  /** The action is intended with its kind, and with its parameters, if it has any, in
      their structure. */
  predicate Interpolates(a: Action, intended: Intended) {
    && intended.kind == a.kind && (intended.with.None? <==> a.with == Dict([]))
    && (intended.with.Some? ==> SameShape(a.with, intended.with.value))
  }

  lemma StepRuns(env: Env, m: Mode, step: Step, s: Sources, n: nat)
    ensures var r := StepResultOf(env, m, step, s, n).0;
            && r.step == step.name
            && (r.skipped <==> step.condition != "" && env.stepCel(step.condition, s.alert) != Some(true))
            && |r.intended| == |r.actions| == (if r.skipped then 0 else |step.actions|)
            && (forall j :: 0 <= j < |r.intended| ==> Interpolates(step.actions[j], r.intended[j]))
  {
    hide DeepInterpolate, CallProvider, ActionsOf, SameShape;
    var intended := InterpolateActions(env, step.actions, s);
    forall k { ActionsPerform(m, intended, s, k); }
    forall j | 0 <= j < |step.actions| {
      InterpolationKeepsShape(env, step.actions[j].with, s);
    }
  }

  /** What a provider call yields and does: an error if the provider is unknown, what
      would have been asked in a dry run, and the answer to a query in a real one. */
  lemma ProviderIsQueried(env: Env, m: Mode, step: Step, s: Sources, n: nat)
    requires step.provider.Some? && (step.condition == "" || env.stepCel(step.condition, s.alert) == Some(true))
    ensures var (p, (r, effects)) := (step.provider.value, StepResultOf(env, m, step, s, n));
            var params := DeepInterpolate(env, p.with, s);
            if p.kind !in m.providers
            then r.output == Some(Dict([Field("error", Str("provider '" + p.kind + "' not found"))]))
            else if m.dryRun
            then effects == []
                 && r.output == Some(Dict([Field("dry_run", Leaf("True")), Field("provider", Str(p.kind)),
                                           Field("params", params)]))
            else
              && effects != [] && effects[0] == Queried(p.kind, params)
              && r.output == (if m.answer(n, p.kind, params) == Null then None else Some(m.answer(n, p.kind, params)))
  {
    hide DeepInterpolate, InterpolateActions, ActionsOf;
    var intended := InterpolateActions(env, step.actions, s);
    forall k { ActionsPerform(m, intended, s, k); }
  }

  // ---- What a placeholder reads ---------------------------------------------------------

  /** Interpolation keeps the structure of a template, field by field. */
  lemma {:induction false} InterpolationKeepsShape(env: Env, v: Json, s: Sources)
    ensures SameShape(v, DeepInterpolate(env, v, s))
    decreases v, 1
  {
    match v
    case List(items) => ItemsStay(env, items, s);
    case Dict(fields) => FieldsStay(env, fields, s);
    case _ =>
  }

  lemma {:induction false} ItemsStay(env: Env, items: seq<Json>, s: Sources)
    ensures SameItems(items, DeepItems(env, items, s))
    decreases items, 0
  {
    if items != [] {
      InterpolationKeepsShape(env, items[0], s);
      ItemsStay(env, items[1..], s);
    }
  }

  lemma {:induction false} FieldsStay(env: Env, fields: seq<Field>, s: Sources)
    ensures SameFields(fields, DeepFields(env, fields, s))
    decreases fields, 0
  {
    if fields != [] {
      InterpolationKeepsShape(env, fields[0].value, s);
      FieldsStay(env, fields[1..], s);
    }
  }

  /** A text is its literal parts as they are, with each placeholder filled in place. */
  lemma TextIsFilledInPlace(env: Env, a: seq<Segment>, b: seq<Segment>, text: string, path: string, s: Sources)
    ensures FillAll(env, a + b, s) == FillAll(env, a, s) + FillAll(env, b, s)
    ensures FillAll(env, [Literal(text)], s) == text
    ensures FillAll(env, [Hole(path)], s) == Fill(env, path, s)
    ensures FillAll(env, [], s) == ""
  {
    hide Fill;
    FillConcat(env, a, b, s);
  }

  lemma {:induction false} FillConcat(env: Env, a: seq<Segment>, b: seq<Segment>, s: Sources)
    ensures FillAll(env, a + b, s) == FillAll(env, a, s) + FillAll(env, b, s)
  {
    hide Fill;
    if a == [] {
      assert a + b == b;
    } else {
      FillConcat(env, a[1..], b, s);
      assert (a + b)[1..] == a[1..] + b;
    }
  }

  /** A key of a path: not empty and without dots. */
  predicate IsKey(k: string) {
    k != "" && '.' !in k
  }

  /** What a path of keys finds in a value, as text; an absent value is an empty text, and
      null is nothing. */
  function FoundText(env: Env, value: Json, keys: seq<string>): string {
    var found := ResolvePath(env, value, keys);
    if found.Null? then "" else env.str(found)
  }

  /** Which source a placeholder reads: the alert, the trigger data or the outputs of the
      steps, by its first word, and then key by key; without one of these it is empty. */
  lemma PlaceholderReads(env: Env, keys: seq<string>, s: Sources)
    requires keys != [] && forall i :: 0 <= i < |keys| ==> IsKey(keys[i])
    ensures Fill(env, "alert" + "." + Text.Join(keys, "."), s) == FoundText(env, s.alert, keys)
    ensures Fill(env, "trigger" + "." + Text.Join(keys, "."), s) == FoundText(env, s.trigger, keys)
    ensures Fill(env, "steps" + "." + Text.Join(keys, "."), s) == FoundText(env, Dict(s.steps), keys)
  {
    hide FillFrom, FoundText, Text.Join, Fill;
    var rest := Text.Join(keys, ".");
    PathFrom(env, keys, "alert", s.alert);
    PathFrom(env, keys, "trigger", s.trigger);
    PathFrom(env, keys, "steps", Dict(s.steps));
    ByFirstLetter(env, "alert" + "." + rest, s);
    ByFirstLetter(env, "trigger" + "." + rest, s);
    ByFirstLetter(env, "steps" + "." + rest, s);
  }

  lemma ByFirstLetter(env: Env, path: string, s: Sources)
    ensures "steps" <= path ==> Fill(env, path, s) == FillFrom(env, path, "steps", Dict(s.steps))
    ensures "alert" <= path ==> Fill(env, path, s) == FillFrom(env, path, "alert", s.alert)
    ensures "trigger" <= path ==> Fill(env, path, s) == FillFrom(env, path, "trigger", s.trigger)
  {
    hide FillFrom;
    assert "steps" <= path ==> path[0] == 's';
    assert "alert" <= path ==> path[0] == 'a';
    assert "trigger" <= path ==> path[0] == 't';
  }

  lemma WholeSources(env: Env, path: string, s: Sources)
    ensures Fill(env, "alert", s) == env.str(s.alert)
    ensures Fill(env, "trigger", s) == env.str(s.trigger)
    ensures Fill(env, "steps", s) == env.str(Dict(s.steps))
    ensures !("steps" <= path) && !("alert" <= path) && !("trigger" <= path) ==> Fill(env, path, s) == ""
  {
    hide ResolvePath;
    assert "alert"[0] == 'a' && "trigger"[0] == 't';
  }

  lemma PathFrom(env: Env, keys: seq<string>, prefix: string, source: Json)
    requires keys != [] && forall i :: 0 <= i < |keys| ==> IsKey(keys[i])
    ensures prefix <= prefix + "." + Text.Join(keys, ".")
    ensures FillFrom(env, prefix + "." + Text.Join(keys, "."), prefix, source) == FoundText(env, source, keys)
  {
    JoinStartsWithKey(keys);
    forall i | 0 <= i < |keys| ensures Text.FreeOf(keys[i], ".") {
      Text.CharIsFree(keys[i], '.');
    }
    Text.SplitJoin(keys, ".");
    FillUnder(env, prefix, Text.Join(keys, "."), source);
  }

  lemma FillUnder(env: Env, prefix: string, rest: string, source: Json)
    requires rest != "" && rest[0] != '.'
    ensures prefix <= prefix + "." + rest
    ensures FillFrom(env, prefix + "." + rest, prefix, source) == FoundText(env, source, Text.Split(rest, "."))
  {
    hide ResolvePath, Text.Split;
    var path := prefix + "." + rest;
    assert path[|prefix|+1..] == rest;
    NoDotsToStrip(rest);
    hide LStripDots;
  }

  /** More dots after the first word play no part. */
  lemma ExtraDotsPlayNoPart(env: Env, prefix: string, rest: string, source: Json)
    requires rest != ""
    ensures prefix <= prefix + "." + ("." + rest) && prefix <= prefix + "." + rest
    ensures FillFrom(env, prefix + "." + ("." + rest), prefix, source) ==
              FillFrom(env, prefix + "." + rest, prefix, source)
  {
    hide ResolvePath, Text.Split;
    var (path, dotted) := (prefix + "." + rest, prefix + "." + ("." + rest));
    assert path[|prefix|+1..] == rest && dotted[|prefix|+1..] == "." + rest;
    assert ("." + rest)[1..] == rest;
    OneDot(rest);
    hide LStripDots;
  }

  lemma OneDot(rest: string)
    ensures LStripDots("." + rest) == LStripDots(rest)
  {
    assert ("." + rest)[1..] == rest;
  }

  lemma NoDotsToStrip(rest: string)
    requires rest != "" && rest[0] != '.'
    ensures LStripDots(rest) == rest
  {
  }

  lemma {:induction false} JoinStartsWithKey(keys: seq<string>)
    requires keys != [] && forall i :: 0 <= i < |keys| ==> IsKey(keys[i])
    ensures Text.Join(keys, ".") != "" && Text.Join(keys, ".")[0] != '.'
  {
    assert keys[0][0] in keys[0];
  }

  /** Step by step: a dict gives the value of the key, or an empty text without it; a list
      the item of the index, counted from its end if negative; anything else nothing. */
  lemma ResolvesKeyByKey(env: Env, value: Json, key: string, keys: seq<string>)
    ensures ResolvePath(env, value, []) == value
    ensures value.Dict? && Get(value.fields, key).Some? ==>
              ResolvePath(env, value, [key] + keys) == ResolvePath(env, Get(value.fields, key).value, keys)
    ensures value.Dict? && Get(value.fields, key).None? ==>
              ResolvePath(env, value, [key] + keys) == ResolvePath(env, Str(""), keys)
    ensures value.List? && env.intOf(key).Some? && 0 <= env.intOf(key).value < |value.items| ==>
              ResolvePath(env, value, [key] + keys) == ResolvePath(env, value.items[env.intOf(key).value], keys)
    ensures value.List? && env.intOf(key).Some? && 0 < -env.intOf(key).value <= |value.items| ==>
              ResolvePath(env, value, [key] + keys)
              == ResolvePath(env, value.items[|value.items| + env.intOf(key).value], keys)
    ensures value.List? && (env.intOf(key).None? || !(-|value.items| <= env.intOf(key).value < |value.items|)) ==>
              ResolvePath(env, value, [key] + keys) == Str("")
    ensures !value.Dict? && !value.List? ==> ResolvePath(env, value, [key] + keys) == Str("")
  {
    assert ([key] + keys)[1..] == keys;
  }

  /** The value of a key is that of its first field, and absent exactly without one. */
  lemma {:induction false} GetFinds(fields: seq<Field>, key: string)
    ensures Get(fields, key).None? <==> forall i :: 0 <= i < |fields| ==> fields[i].key != key
    ensures forall i :: FirstWith(fields, key, i) ==> Get(fields, key) == Some(fields[i].value)
  {
    if fields != [] {
      GetFinds(fields[1..], key);
      assert forall i :: 0 < i < |fields| ==> fields[i] == fields[1..][i-1];
      forall i | FirstWith(fields, key, i) ensures Get(fields, key) == Some(fields[i].value) {
        if i > 0 {
          assert fields[0].key != key;
          assert FirstWith(fields[1..], key, i - 1);
        }
      }
    }
  }

  predicate FirstWith(fields: seq<Field>, key: string, i: int) {
    0 <= i < |fields| && fields[i].key == key && forall j :: 0 <= j < i ==> fields[j].key != key
  }
}

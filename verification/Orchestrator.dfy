/** The orchestration engine: parallel groups and output chaining. */
module Orchestrator {
  type Output = map<string, string>

  /** A configured task.  Only a literal true marks a task as parallel. */
  datatype Task = Task(agentType: string, input: Output, parallel: bool)

  /** What a registered handler does with its input and the previous output. */
  datatype Outcome = Dict(output: Output) | Other(text: string) | Raised(error: string)

  /** A handler's outcome, and the previous output as it leaves it: the tasks of a
      group are all given the same dictionary, which they may change. */
  type Handler = (Output, Output) -> (Outcome, Output)

  datatype TaskStatus = Completed | Failed

  /** A row of `agent_tasks`. */
  datatype TaskRow = TaskRow(agentType: string, input: Output, output: Output, status: TaskStatus)

  /** Output chaining: a task's own input overrides the inherited keys.  `shared` is
      the previous output when the handler runs. */
  function RowFor(registry: map<string, Handler>, t: Task, prev: Output, shared: Output): TaskRow {
    var input := prev + t.input;
    if t.agentType !in registry then TaskRow(t.agentType, input, map[], Completed)
    else
      match registry[t.agentType](input, shared).0
      case Dict(output) => TaskRow(t.agentType, input, output, Completed)
      case Other(text) => TaskRow(t.agentType, input, map["result" := text], Completed)
      case Raised(error) => TaskRow(t.agentType, input, map["error" := error], Failed)
  }

  function LeftBy(registry: map<string, Handler>, t: Task, prev: Output, shared: Output): Output {
    if t.agentType !in registry then shared else registry[t.agentType](prev + t.input, shared).1
  }

  /** A task that runs alone, or in a group whose handlers leave the previous
      output as it is. */
  function RunTask(registry: map<string, Handler>, t: Task, prev: Output): TaskRow {
    RowFor(registry, t, prev, prev)
  }

  /** Given the previous output, no handler of the tasks changes it. */
  predicate AllKeep(registry: map<string, Handler>, tasks: seq<Task>, prev: Output) {
    forall i :: 0 <= i < |tasks| ==> LeftBy(registry, tasks[i], prev, prev) == prev
  }

  ghost predicate AlwaysKeep(registry: map<string, Handler>, tasks: seq<Task>) {
    forall prev :: AllKeep(registry, tasks, prev)
  }

  // ---- What a run should do -----------------------------------------------------

  /** How many tasks follow that are marked parallel. */
  function ParallelRun(tasks: seq<Task>): (n: nat)
    ensures n <= |tasks|
  {
    if tasks == [] || !tasks[0].parallel then 0 else 1 + ParallelRun(tasks[1..])
  }

  lemma {:induction false} ParallelRunIsMaximal(tasks: seq<Task>)
    ensures var n := ParallelRun(tasks);
            && (forall i :: 0 <= i < n ==> tasks[i].parallel)
            && (n < |tasks| ==> !tasks[n].parallel)
  {
    if tasks != [] && tasks[0].parallel {
      ParallelRunIsMaximal(tasks[1..]);
    }
  }

  /** A head and the maximal run of parallel tasks after it, again and again. */
  function Groups(tasks: seq<Task>): seq<seq<Task>>
    decreases |tasks|
  {
    if tasks == [] then []
    else
      var n := 1 + ParallelRun(tasks[1..]);
      [tasks[..n]] + Groups(tasks[n..])
  }

  function Concat(groups: seq<seq<Task>>): seq<Task> {
    if groups == [] then [] else groups[0] + Concat(groups[1..])
  }

  /** The union of outputs in configuration order: later tasks win. */
  function Merged(rows: seq<TaskRow>): Output {
    if rows == [] then map[] else Merged(rows[..|rows|-1]) + rows[|rows|-1].output
  }

  function GroupRows(registry: map<string, Handler>, group: seq<Task>, prev: Output): (rows: seq<TaskRow>)
    ensures |rows| == |group|
    ensures forall i :: 0 <= i < |rows| ==> rows[i] == RunTask(registry, group[i], prev)
  {
    seq(|group|, i requires 0 <= i < |group| => RunTask(registry, group[i], prev))
  }

  /** The rows of all tasks, in configuration order, and the last output. */
  function RunGroups(registry: map<string, Handler>, groups: seq<seq<Task>>, prev: Output): (seq<TaskRow>, Output) {
    if groups == [] then ([], prev)
    else
      var rows := GroupRows(registry, groups[0], prev);
      var (rest, last) := RunGroups(registry, groups[1..], Merged(rows));
      (rows + rest, last)
  }

  // ---- What a row should say --------------------------------------------------

  /** Where the group of task k starts: at the last task up to it that is not marked
      parallel, or at the first of all. */
  function Head(tasks: seq<Task>, k: nat): (h: nat)
    requires k < |tasks|
    ensures h <= k
  {
    if k == 0 || !tasks[k].parallel then k else Head(tasks, k - 1)
  }

  /** The rows of the group before that of task k; none for the first group. */
  function Preceding(tasks: seq<Task>, rows: seq<TaskRow>, k: nat): seq<TaskRow>
    requires k < |tasks| && Head(tasks, k) <= |rows|
  {
    var h := Head(tasks, k);
    if h == 0 then [] else rows[Head(tasks, h - 1)..h]
  }

  /** Output chaining: the input of a row has the keys its task states and those of
      the outputs before it; what the task does not state comes from the last of
      these rows that has it. */
  ghost predicate Inherits(row: TaskRow, t: Task, before: seq<TaskRow>) {
    && (forall key :: key in row.input <==> key in t.input || exists j :: 0 <= j < |before| && key in before[j].output)
    && (forall key :: key in t.input ==> row.input[key] == t.input[key])
    && (forall key :: key in row.input && key !in t.input ==>
          exists j :: 0 <= j < |before| && LastWriter(before, j, key) && row.input[key] == before[j].output[key])
  }

  /** The row records what became of its task: what the handler answered to the input,
      or nothing without a handler. */
  ghost predicate Records(registry: map<string, Handler>, row: TaskRow, t: Task) {
    && row.agentType == t.agentType
    && if t.agentType !in registry then row.output == map[] && row.status == Completed
       else exists shared :: RecordsAnswer(row, registry[t.agentType](row.input, shared).0)
  }

  predicate RecordsAnswer(row: TaskRow, answer: Outcome) {
    match answer
    case Dict(output) => row.output == output && row.status == Completed
    case Other(text) => row.output == map["result" := text] && row.status == Completed
    case Raised(error) => row.output == map["error" := error] && row.status == Failed
  }

  ghost predicate RowIn(registry: map<string, Handler>, row: TaskRow, t: Task, prev: Output) {
    row.input == prev + t.input && Records(registry, row, t)
  }

  lemma RowForIsIn(registry: map<string, Handler>, t: Task, prev: Output, shared: Output)
    ensures RowIn(registry, RowFor(registry, t, prev, shared), t, prev)
  {
    if t.agentType in registry {
      assert RecordsAnswer(RowFor(registry, t, prev, shared), registry[t.agentType](prev + t.input, shared).0);
    }
  }

  /** Each row so far was given the union of the outputs of the group before it. */
  ghost predicate Chained(registry: map<string, Handler>, tasks: seq<Task>, rows: seq<TaskRow>) {
    && |rows| <= |tasks|
    && forall k :: 0 <= k < |rows| ==> RowIn(registry, rows[k], tasks[k], Merged(Preceding(tasks, rows, k)))
  }

  /** The union of the outputs of the last group that has run. */
  function LastOutput(tasks: seq<Task>, rows: seq<TaskRow>): Output
    requires |rows| <= |tasks|
  {
    if rows == [] then map[] else Merged(rows[Head(tasks, |rows| - 1)..])
  }

  lemma {:induction false} HeadOfGroup(tasks: seq<Task>, head: nat, next: nat, k: nat)
    requires head <= k < next <= |tasks| && next == head + 1 + ParallelRun(tasks[head+1..])
    requires head == 0 || !tasks[head].parallel
    ensures Head(tasks, k) == head
  {
    if k > head {
      ParallelRunIsMaximal(tasks[head+1..]);
      assert tasks[k] == tasks[head+1..][k - head - 1];
      HeadOfGroup(tasks, head, next, k - 1);
    }
  }

  lemma {:induction false} NextHead(tasks: seq<Task>, head: nat, next: nat)
    requires head < next <= |tasks| && next == head + 1 + ParallelRun(tasks[head+1..])
    ensures next < |tasks| ==> !tasks[next].parallel
  {
    ParallelRunIsMaximal(tasks[head+1..]);
    assert next < |tasks| ==> tasks[next] == tasks[head+1..][next - head - 1];
  }

  lemma {:induction false} ChainGroup(registry: map<string, Handler>, tasks: seq<Task>, rows: seq<TaskRow>, next: nat,
                                      done: seq<TaskRow>)
    requires Chained(registry, tasks, rows)
    requires |rows| < next <= |tasks| && next == |rows| + 1 + ParallelRun(tasks[|rows|+1..])
    requires |rows| == 0 || !tasks[|rows|].parallel
    requires |done| == next - |rows|
    requires forall k :: 0 <= k < |done| ==> RowIn(registry, done[k], tasks[|rows|..next][k], LastOutput(tasks, rows))
    ensures Chained(registry, tasks, rows + done) && LastOutput(tasks, rows + done) == Merged(done)
  {
    hide RowIn, Merged, ParallelRun, Head;
    var (head, all) := (|rows|, rows + done);
    forall k | 0 <= k < next ensures RowIn(registry, all[k], tasks[k], Merged(Preceding(tasks, all, k))) {
      if k < head {
        PrecedingStays(tasks, rows, done, k);
      } else {
        HeadOfGroup(tasks, head, next, k);
        assert RowIn(registry, done[k - head], tasks[head..next][k - head], LastOutput(tasks, rows));
        assert head > 0 ==> all[Head(tasks, head - 1)..head] == rows[Head(tasks, head - 1)..];
        NothingMerged();
      }
    }
    HeadOfGroup(tasks, head, next, next - 1);
    assert all[head..] == done;
  }

  lemma PrecedingStays(tasks: seq<Task>, rows: seq<TaskRow>, done: seq<TaskRow>, k: nat)
    requires k < |rows| <= |tasks|
    ensures Preceding(tasks, rows + done, k) == Preceding(tasks, rows, k)
  {
    hide Head;
  }

  lemma NothingMerged()
    ensures Merged([]) == map[]
  {
  }

  /** What chaining means, key by key. */
  lemma ChainedInherits(registry: map<string, Handler>, tasks: seq<Task>, rows: seq<TaskRow>, k: nat)
    requires Chained(registry, tasks, rows) && k < |rows|
    ensures Inherits(rows[k], tasks[k], Preceding(tasks, rows, k)) && Records(registry, rows[k], tasks[k])
  {
    hide Merged, Records, Preceding;
    var before := Preceding(tasks, rows, k);
    assert RowIn(registry, rows[k], tasks[k], Merged(before));
    forall key { MergedKeys(before, key); }
    forall key | key in Merged(before)
      ensures exists j :: 0 <= j < |before| && LastWriter(before, j, key) &&
                Merged(before)[key] == before[j].output[key]
    {
      var j := SomeLastWriter(before, key);
      MergedIsLastWriter(before, j, key);
    }
  }

  lemma {:induction false} SomeLastWriter(rows: seq<TaskRow>, key: string) returns (j: nat)
    requires exists i :: 0 <= i < |rows| && key in rows[i].output
    ensures j < |rows| && LastWriter(rows, j, key)
  {
    if key in rows[|rows|-1].output {
      j := |rows| - 1;
    } else {
      j := SomeLastWriter(rows[..|rows|-1], key);
    }
  }

  function Range(n: nat): (r: seq<nat>)
    ensures forall i: nat :: i in r <==> i < n
  {
    if n == 0 then [] else Range(n - 1) + [n - 1]
  }

  // ---- The engine -----------------------------------------------------------------

  class OrchestrationEngine {
    var registry: map<string, Handler>

    constructor ()
      ensures registry == map[]
    {
      registry := map[];
    }

    method RegisterAgent(name: string, handler: Handler)
      modifies this
      ensures registry == old(registry)[name := handler]
    {
      registry := registry[name := handler];
    }

    /** Runs a group whose handlers run in any order.  Each writes its own slot, so
        the rows depend on the order only through the shared previous output. */
    method Gather(group: seq<Task>, prev: Output) returns (rows: seq<TaskRow>, ghost order: seq<nat>)
      ensures RunsTo(registry, group, prev, order, rows)
      ensures AllKeep(registry, group, prev) ==> rows == GroupRows(registry, group, prev)
    {
      hide RowFor, LeftBy, AllKeep, SharedAt;
      var slots: array<TaskRow> := new TaskRow[|group|](_ => TaskRow("", map[], map[], Failed));
      var running := set i | i in Range(|group|);
      var shared := prev;
      order := [];
      NothingShared(registry, group, prev);
      while running != {}
        invariant running <= set i | i in Range(|group|)
        invariant Within(order, |group|) && forall i: nat :: i < |group| ==> (i in order <==> i !in running)
        invariant Distinct(order)
        invariant shared == SharedAt(registry, group, prev, order)
        invariant RowsInOrder(registry, group, prev, order, slots[..])
        decreases running
      {
        var i :| i in running;
        assert i !in order;
        OneMoreRow(registry, group, prev, order, slots[..], i);
        slots[i] := RowFor(registry, group[i], prev, shared);
        shared := LeftBy(registry, group[i], prev, shared);
        order := order + [i];
        running := running - {i};
      }
      rows := slots[..];
      assert IsOrder(order, |group|);
      if AllKeep(registry, group, prev) {
        SameForEveryOrder(registry, group, prev, order, rows);
      }
    }

    method MergeOutputs(rows: seq<TaskRow>) returns (merged: Output)
      ensures merged == Merged(rows)
    {
      merged := map[];
      for i := 0 to |rows|
        invariant merged == Merged(rows[..i])
      {
        assert rows[..i+1][..i] == rows[..i];
        merged := merged + rows[i].output;
      }
      assert rows[..|rows|] == rows;
    }

    /** The loop of `execute_run` over the configured tasks. */
    method ExecuteRun(tasks: seq<Task>) returns (rows: seq<TaskRow>, last: Output)
      ensures |rows| == |tasks|
      ensures forall k :: 0 <= k < |rows| ==> Inherits(rows[k], tasks[k], Preceding(tasks, rows, k))
      ensures forall k :: 0 <= k < |rows| ==> Records(registry, rows[k], tasks[k])
      ensures AlwaysKeep(registry, tasks) ==> (rows, last) == RunGroups(registry, Groups(tasks), map[])
    {
      hide RanSoFar, RunTask, GroupRows, Groups, Merged, RunGroups, RowIn, AlwaysKeep, Inherits, Records, LastOutput;
      rows, last := [], map[];
      var i: nat := 0;
      NothingRanYet(registry, tasks);
      while i < |tasks|
        invariant i <= |tasks| && RanSoFar(registry, tasks, i, rows, last)
        invariant |rows| == i && last == LastOutput(tasks, rows)
      {
        RanRows(registry, tasks, i, rows, last);
        ghost var head := i;
        var group;
        group, i := GroupFrom(tasks, i);
        var done, output := RunGroup(group, last);
        RanGroup(registry, tasks, head, i + 1, rows, last, done, output);
        rows, last := rows + done, output;
        i := i + 1;
      }
      RanRows(registry, tasks, i, rows, last);
      forall k | 0 <= k < |rows|
        ensures Inherits(rows[k], tasks[k], Preceding(tasks, rows, k)) && Records(registry, rows[k], tasks[k])
      {
        ChainedInherits(registry, tasks, rows, k);
      }
      AllRan(registry, tasks, rows, last);
    }

    /** The inner loop: a head and the parallel tasks after it, up to task `last`. */
    method GroupFrom(tasks: seq<Task>, head: nat) returns (group: seq<Task>, last: nat)
      requires head < |tasks|
      ensures head <= last < |tasks| && group == tasks[head..last+1]
      ensures last == head + ParallelRun(tasks[head+1..])
    {
      group, last := [tasks[head]], head;
      while last + 1 < |tasks| && tasks[last+1].parallel
        invariant head <= last < |tasks| && group == tasks[head..last+1]
        invariant last - head + ParallelRun(tasks[last+1..]) == ParallelRun(tasks[head+1..])
      {
        assert tasks[last+1..][1..] == tasks[last+2..];
        group := group + [tasks[last+1]];
        last := last + 1;
      }
      assert ParallelRun(tasks[last+1..]) == 0;
    }

    /** One group: a task that runs alone passes its own output on, others their union. */
    method RunGroup(group: seq<Task>, prev: Output) returns (rows: seq<TaskRow>, output: Output)
      requires group != []
      ensures |rows| == |group| && forall k :: 0 <= k < |rows| ==> RowIn(registry, rows[k], group[k], prev)
      ensures output == Merged(rows)
      ensures AllKeep(registry, group, prev) ==> rows == GroupRows(registry, group, prev)
    {
      hide RowFor, RowIn, Merged, AllKeep, SharedAt;
      if |group| == 1 {
        var row := RunTask(registry, group[0], prev);
        SingleGroup(registry, group, prev);
        RowForIsIn(registry, group[0], prev, prev);
        rows, output := [row], row.output;
      } else {
        ghost var order;
        rows, order := Gather(group, prev);
        output := MergeOutputs(rows);
        RowsAreIn(registry, group, prev, order, rows);
      }
    }
  }

  // ---- The loop over the groups -----------------------------------------------

  /** The first i tasks have run: a row for each, chained to those before it, and if the handlers leave the
      previous output as it is, the groups still to come complete the run. */
  ghost predicate RanSoFar(registry: map<string, Handler>, tasks: seq<Task>, i: nat, rows: seq<TaskRow>, last: Output)
    requires i <= |tasks|
  {
    && |rows| == i && Chained(registry, tasks, rows) && (0 < i < |tasks| ==> !tasks[i].parallel)
    && (AlwaysKeep(registry, tasks) ==>
          RunGroups(registry, Groups(tasks), map[]) == Continue(rows, RunGroups(registry, Groups(tasks[i..]), last)))
  }

  lemma NothingRanYet(registry: map<string, Handler>, tasks: seq<Task>)
    ensures RanSoFar(registry, tasks, 0, [], map[]) && LastOutput(tasks, []) == map[]
  {
    hide Groups, RunGroups, AlwaysKeep;
    assert tasks[0..] == tasks;
    NothingBefore(RunGroups(registry, Groups(tasks), map[]));
  }

  lemma RanRows(registry: map<string, Handler>, tasks: seq<Task>, i: nat, rows: seq<TaskRow>, last: Output)
    requires i <= |tasks| && RanSoFar(registry, tasks, i, rows, last)
    ensures |rows| == i && Chained(registry, tasks, rows) && (0 < i < |tasks| ==> !tasks[i].parallel)
  {
    hide AlwaysKeep, Chained, RunGroups, Groups, Continue;
  }

  lemma {:induction false} RanGroup(registry: map<string, Handler>, tasks: seq<Task>, head: nat, next: nat,
                                    rows: seq<TaskRow>,
                 last: Output, done: seq<TaskRow>, output: Output)
    requires head < next <= |tasks| && next == head + 1 + ParallelRun(tasks[head+1..])
    requires RanSoFar(registry, tasks, head, rows, last)
    requires |rows| == head && last == LastOutput(tasks, rows) && |done| == next - head
    requires forall k :: 0 <= k < |done| ==> RowIn(registry, done[k], tasks[head..next][k], last)
    requires output == Merged(done)
    requires AllKeep(registry, tasks[head..next], last) ==> done == GroupRows(registry, tasks[head..next], last)
    ensures RanSoFar(registry, tasks, next, rows + done, output) && output == LastOutput(tasks, rows + done)
  {
    hide Groups, RunGroups, AlwaysKeep, AllKeep, RowIn, Chained, LastOutput, Merged, GroupRows, Continue, ParallelRun;
    GroupSplit(tasks, head, next);
    FirstGroup(registry, tasks[head..next], Groups(tasks[next..]), rows, last);
    PartKeeps(registry, tasks, head, next, last);
    ChainGroup(registry, tasks, rows, next, done);
    NextHead(tasks, head, next);
  }

  lemma AllRan(registry: map<string, Handler>, tasks: seq<Task>, rows: seq<TaskRow>, last: Output)
    requires RanSoFar(registry, tasks, |tasks|, rows, last)
    ensures |rows| == |tasks|
    ensures AlwaysKeep(registry, tasks) ==> (rows, last) == RunGroups(registry, Groups(tasks), map[])
  {
    hide Groups, RunGroups, AlwaysKeep, Chained, Continue;
    NoGroups(registry, tasks[|tasks|..], last);
    NothingAfter(rows, last);
  }

  // ---- The order within a group ---------------------------------------------------

  predicate Within(done: seq<nat>, n: nat) {
    forall k :: 0 <= k < |done| ==> done[k] < n
  }

  predicate Distinct(done: seq<nat>) {
    forall j, k :: 0 <= j < k < |done| ==> done[j] != done[k]
  }

  /** Every one of n tasks once. */
  ghost predicate IsOrder(order: seq<nat>, n: nat) {
    Within(order, n) && Distinct(order) && forall i: nat :: i < n ==> i in order
  }

  /** The rows of the tasks that have run, each with the previous output as the
      handlers before it left it. */
  ghost predicate RowsInOrder(registry: map<string, Handler>, group: seq<Task>, prev: Output, order: seq<nat>,
                              rows: seq<TaskRow>)
    requires Within(order, |group|) && |rows| == |group|
  {
    forall k :: 0 <= k < |order| ==>
      rows[order[k]] == RowFor(registry, group[order[k]], prev, SharedAt(registry, group, prev, order[..k]))
  }

  /** The group can run in that order, and the rows are those it then writes. */
  ghost predicate RunsTo(registry: map<string, Handler>, group: seq<Task>, prev: Output, order: seq<nat>,
                         rows: seq<TaskRow>) {
    IsOrder(order, |group|) && |rows| == |group| && RowsInOrder(registry, group, prev, order, rows)
  }

  lemma {:induction false} SharedStep(registry: map<string, Handler>, group: seq<Task>, prev: Output, done: seq<nat>,
                                      i: nat)
    requires Within(done, |group|) && i < |group|
    ensures SharedAt(registry, group, prev, done + [i]) ==
              LeftBy(registry, group[i], prev, SharedAt(registry, group, prev, done))
  {
    hide LeftBy;
    assert (done + [i])[..|done|] == done;
  }

  /** What a handler leaves of the shared previous output is what the next one sees. */
  lemma {:induction false} HandlersShare(registry: map<string, Handler>, group: seq<Task>, prev: Output, done: seq<nat>,
                                         i: nat)
    requires Within(done, |group|) && i < |group|
    ensures SharedAt(registry, group, prev, []) == prev
    ensures var (t, shared) := (group[i], SharedAt(registry, group, prev, done));
            SharedAt(registry, group, prev, done + [i]) ==
              if t.agentType in registry then registry[t.agentType](prev + t.input, shared).1 else shared
  {
    SharedStep(registry, group, prev, done, i);
  }

  lemma {:induction false} OneMoreRow(registry: map<string, Handler>, group: seq<Task>, prev: Output, order: seq<nat>,
                                      rows: seq<TaskRow>, i: nat)
    requires Within(order, |group|) && |rows| == |group| && RowsInOrder(registry, group, prev, order, rows)
    requires i < |group| && i !in order
    ensures var (order', shared) := (order + [i], SharedAt(registry, group, prev, order));
            && RowsInOrder(registry, group, prev, order', rows[i := RowFor(registry, group[i], prev, shared)])
            && SharedAt(registry, group, prev, order') == LeftBy(registry, group[i], prev, shared)
  {
    hide RowFor, LeftBy, SharedAt;
    var (order', n) := (order + [i], |order|);
    var rows' := rows[i := RowFor(registry, group[i], prev, SharedAt(registry, group, prev, order))];
    SharedStep(registry, group, prev, order, i);
    assert order'[..n] == order;
    forall k | 0 <= k < |order'|
      ensures rows'[order'[k]] == RowFor(registry, group[order'[k]], prev, SharedAt(registry, group, prev, order'[..k]))
    {
      if k < n {
        assert order'[k] == order[k] && order[k] in order && order'[..k] == order[..k];
      }
    }
  }

  /** The shared previous output after some tasks of the group have run. */
  function SharedAt(registry: map<string, Handler>, group: seq<Task>, prev: Output, done: seq<nat>): Output
    requires Within(done, |group|)
  {
    if done == [] then prev
    else
      var (rest, i) := (done[..|done|-1], done[|done|-1]);
      LeftBy(registry, group[i], prev, SharedAt(registry, group, prev, rest))
  }

  lemma NothingShared(registry: map<string, Handler>, group: seq<Task>, prev: Output)
    ensures SharedAt(registry, group, prev, []) == prev
  {
  }

  lemma {:induction false} SharedStays(registry: map<string, Handler>, group: seq<Task>, prev: Output, done: seq<nat>)
    requires Within(done, |group|) && AllKeep(registry, group, prev)
    ensures SharedAt(registry, group, prev, done) == prev
  {
    hide LeftBy;
    if done != [] {
      SharedStays(registry, group, prev, done[..|done|-1]);
    }
  }

  /** If no handler of the group changes the previous output, every order gives the
      same rows. */
  lemma SameForEveryOrder(registry: map<string, Handler>, group: seq<Task>, prev: Output, order: seq<nat>,
                          rows: seq<TaskRow>)
    requires RunsTo(registry, group, prev, order, rows) && AllKeep(registry, group, prev)
    ensures rows == GroupRows(registry, group, prev)
  {
    hide RowFor, AllKeep;
    forall i | 0 <= i < |rows| ensures rows[i] == RowFor(registry, group[i], prev, prev) {
      assert i in order;
      var k :| 0 <= k < |order| && order[k] == i;
      SharedStays(registry, group, prev, order[..k]);
    }
  }

  lemma RowsAreIn(registry: map<string, Handler>, group: seq<Task>, prev: Output, order: seq<nat>,
                  rows: seq<TaskRow>)
    requires RunsTo(registry, group, prev, order, rows)
    ensures forall i :: 0 <= i < |rows| ==> RowIn(registry, rows[i], group[i], prev)
  {
    hide RowFor, RowIn;
    forall i | 0 <= i < |rows| ensures RowIn(registry, rows[i], group[i], prev) {
      assert i in order;
      var k :| 0 <= k < |order| && order[k] == i;
      RowForIsIn(registry, group[i], prev, SharedAt(registry, group, prev, order[..k]));
    }
  }

  /** Every order gives the same rows. */
  ghost predicate OrderFree(registry: map<string, Handler>, group: seq<Task>, prev: Output) {
    forall order, rows, order', rows' ::
      RunsTo(registry, group, prev, order, rows) && RunsTo(registry, group, prev, order', rows') ==> rows == rows'
  }

  /** A task not among those that have run would write the row it writes alone. */
  ghost predicate CannotTell(registry: map<string, Handler>, group: seq<Task>, prev: Output, done: seq<nat>, i: nat)
    requires i < |group|
  {
    Within(done, |group|) && Distinct(done) && i !in done ==>
      RowFor(registry, group[i], prev, SharedAt(registry, group, prev, done)) == RunTask(registry, group[i], prev)
  }

  /** The order of a group plays no part exactly when no task can tell which others
      have run before it. */
  lemma {:induction false} OrderFreeExactlyWhen(registry: map<string, Handler>, group: seq<Task>, prev: Output)
    ensures OrderFree(registry, group, prev) <==>
            forall done, i :: 0 <= i < |group| ==> CannotTell(registry, group, prev, done, i)
  {
    hide RowFor, SharedAt, RowsInOrder, CannotTell;
    if OrderFree(registry, group, prev) {
      forall done, i | 0 <= i < |group| ensures CannotTell(registry, group, prev, done, i) {
        OrderFreeOnly(registry, group, prev, done, i);
      }
    } else {
      var order, rows, order', rows' :|
        RunsTo(registry, group, prev, order, rows) && RunsTo(registry, group, prev, order', rows') && rows != rows';
      var i :| 0 <= i < |rows| && rows[i] != rows'[i];
      var (j, j') := (Place(order, |group|, i), Place(order', |group|, i));
      RowAfter(registry, group, prev, order, rows, j);
      RowAfter(registry, group, prev, order', rows', j');
      assert !CannotTell(registry, group, prev, order[..j], i) || !CannotTell(registry, group, prev, order'[..j'], i);
    }
  }

  /** A task that runs after those that can make no difference to it. */
  lemma {:induction false} RowAfter(registry: map<string, Handler>, group: seq<Task>, prev: Output, order: seq<nat>,
                                    rows: seq<TaskRow>, j: nat)
    requires RunsTo(registry, group, prev, order, rows) && j < |order|
    ensures CannotTell(registry, group, prev, order[..j], order[j]) ==>
              rows[order[j]] == RunTask(registry, group[order[j]], prev)
  {
    hide RowFor, SharedAt;
    assert order[j] !in order[..j];
  }

  lemma {:induction false} OrderFreeOnly(registry: map<string, Handler>, group: seq<Task>, prev: Output,
                                         done: seq<nat>, i: nat)
    requires OrderFree(registry, group, prev) && i < |group|
    ensures CannotTell(registry, group, prev, done, i)
  {
    hide RowFor, SharedAt;
    if Within(done, |group|) && Distinct(done) && i !in done {
      var order, rows := SomeRun(registry, group, prev, [], i);
      var order', rows' := SomeRun(registry, group, prev, done, i);
      NothingShared(registry, group, prev);
    }
  }

  /** Some tasks can run first, task i next and the others after them. */
  lemma {:induction false} SomeRun(registry: map<string, Handler>, group: seq<Task>, prev: Output, done: seq<nat>,
                                   i: nat) returns (order: seq<nat>, rows: seq<TaskRow>)
    requires Within(done, |group|) && Distinct(done) && i < |group| && i !in done
    ensures RunsTo(registry, group, prev, order, rows)
    ensures rows[i] == RowFor(registry, group[i], prev, SharedAt(registry, group, prev, done))
  {
    hide RowFor, SharedAt, IsOrder, Distinct;
    AppendDistinct(done, i);
    OthersComplete(|group|, done + [i]);
    order := done + [i] + Others(|group|, done + [i]);
    assert order[|done|] == i && order[..|done|] == done;
    rows := EveryOrderRuns(registry, group, prev, order);
  }

  lemma AppendDistinct(done: seq<nat>, i: nat)
    requires Distinct(done) && i !in done
    ensures Distinct(done + [i])
  {
    assert forall k :: 0 <= k < |done| ==> done[k] in done;
  }

  lemma {:induction false} EveryOrderRuns(registry: map<string, Handler>, group: seq<Task>, prev: Output,
                                          order: seq<nat>) returns (rows: seq<TaskRow>)
    requires IsOrder(order, |group|)
    ensures RunsTo(registry, group, prev, order, rows)
  {
    hide RowFor, SharedAt;
    var n := |group|;
    rows := seq(n, i requires 0 <= i < n =>
      RowFor(registry, group[i], prev, SharedAt(registry, group, prev, order[..Place(order, n, i)])));
    assert forall k :: 0 <= k < |order| ==> Place(order, n, order[k]) == k;
  }

  lemma OthersComplete(n: nat, done: seq<nat>)
    requires Within(done, n) && Distinct(done)
    ensures IsOrder(done + Others(n, done), n)
  {
    var (others, order) := (Others(n, done), done + Others(n, done));
    forall k | 0 <= k < |order| ensures order[k] < n {
      assert k >= |done| ==> order[k] in others;
    }
    forall j, k | 0 <= j < k < |order| ensures order[j] != order[k] {
      assert j < |done| <= k ==> order[j] in done && order[k] in others;
    }
    forall i: nat | i < n ensures i in order {
      assert i in done || i in others;
    }
  }

  /** The tasks up to n that have not run. */
  function Others(n: nat, done: seq<nat>): (others: seq<nat>)
    ensures forall i: nat :: i in others <==> i < n && i !in done
    ensures Distinct(others)
  {
    if n == 0 then [] else Others(n - 1, done) + if n - 1 in done then [] else [n - 1]
  }

  ghost function Place(order: seq<nat>, n: nat, i: nat): (k: nat)
    requires IsOrder(order, n) && i < n
    ensures k < |order| && order[k] == i
  {
    assert i in order;
    var k :| 0 <= k < |order| && order[k] == i;
    k
  }

  /** A handler that returns the previous output it is given. */
  const READER: Handler := (input: Output, shared: Output) => (Dict(shared), shared)

  /** The group can have a reader beside it, whatever the order. */
  ghost predicate SafeBesideReader(registry: map<string, Handler>, group: seq<Task>, prev: Output, name: string) {
    OrderFree(registry[name := READER], group + [Task(name, map[], true)], prev)
  }

  /** Beside a task that reads the previous output, the order plays no part exactly
      when no handler of the group changes that output. */
  lemma {:induction false} OrderFreeBesideReader(registry: map<string, Handler>, group: seq<Task>, prev: Output,
                                                 name: string)
    requires forall i :: 0 <= i < |group| ==> group[i].agentType != name
    ensures AllKeep(registry, group, prev) <==> SafeBesideReader(registry, group, prev, name)
  {
    hide RowFor, OrderFree, SharedAt, RunsTo;
    var (beside, wider) := (registry[name := READER], group + [Task(name, map[], true)]);
    var n := |group|;
    forall i | 0 <= i < n
      ensures LeftBy(beside, wider[i], prev, prev) == LeftBy(registry, group[i], prev, prev)
    {
    }
    if AllKeep(registry, group, prev) {
      assert LeftBy(beside, wider[n], prev, prev) == prev;
      forall done, i | 0 <= i < |wider| ensures CannotTell(beside, wider, prev, done, i) {
        if Within(done, |wider|) {
          SharedStays(beside, wider, prev, done);
        }
      }
    }
    OrderFreeExactlyWhen(beside, wider, prev);
    forall i | 0 <= i < n && OrderFree(beside, wider, prev) ensures LeftBy(registry, group[i], prev, prev) == prev {
      assert CannotTell(beside, wider, prev, [i], n);
      SharedStep(beside, wider, prev, [], i);
      NothingShared(beside, wider, prev);
      assert [] + [i] == [i];
      ReaderTells(beside, wider[n], prev, SharedAt(beside, wider, prev, [i]));
    }
  }

  /** Handlers are safe beside a reader, whatever the previous output, exactly when
      they never change it. */
  lemma AlwaysOrderFree(registry: map<string, Handler>, group: seq<Task>, name: string)
    requires forall i :: 0 <= i < |group| ==> group[i].agentType != name
    ensures AlwaysKeep(registry, group) <==> forall prev :: SafeBesideReader(registry, group, prev, name)
  {
    hide AllKeep, SafeBesideReader;
    forall prev ensures AllKeep(registry, group, prev) <==> SafeBesideReader(registry, group, prev, name) {
      OrderFreeBesideReader(registry, group, prev, name);
    }
    assert AlwaysKeep(registry, group) <==> forall prev :: AllKeep(registry, group, prev);
  }

  lemma ReaderTells(registry: map<string, Handler>, t: Task, prev: Output, shared: Output)
    requires t.agentType in registry && registry[t.agentType] == READER
    ensures RowFor(registry, t, prev, shared) == RunTask(registry, t, prev) ==> shared == prev
  {
  }

  lemma NothingBefore(rest: (seq<TaskRow>, Output))
    ensures Continue([], rest) == rest
  {
    assert [] + rest.0 == rest.0;
  }

  lemma NothingAfter(rows: seq<TaskRow>, last: Output)
    ensures Continue(rows, ([], last)) == (rows, last)
  {
    assert rows + [] == rows;
  }

  lemma PartKeeps(registry: map<string, Handler>, tasks: seq<Task>, from: nat, to: nat, prev: Output)
    requires from <= to <= |tasks|
    ensures AlwaysKeep(registry, tasks) ==> AllKeep(registry, tasks[from..to], prev)
  {
    hide LeftBy;
    assert AlwaysKeep(registry, tasks) ==> AllKeep(registry, tasks, prev);
  }

  /** Rows already produced, before those still to come. */
  function Continue(rows: seq<TaskRow>, rest: (seq<TaskRow>, Output)): (seq<TaskRow>, Output) {
    (rows + rest.0, rest.1)
  }

  lemma FirstGroup(registry: map<string, Handler>, group: seq<Task>, groups: seq<seq<Task>>, rows: seq<TaskRow>,
                   prev: Output)
    ensures var done := GroupRows(registry, group, prev);
            Continue(rows, RunGroups(registry, [group] + groups, prev))
            == Continue(rows + done, RunGroups(registry, groups, Merged(done)))
  {
    assert ([group] + groups)[1..] == groups;
    var done := GroupRows(registry, group, prev);
    var rest := RunGroups(registry, groups, Merged(done));
    assert rows + (done + rest.0) == (rows + done) + rest.0;
  }

  lemma NoGroups(registry: map<string, Handler>, tasks: seq<Task>, prev: Output)
    requires tasks == []
    ensures RunGroups(registry, Groups(tasks), prev) == ([], prev)
  {
  }

  lemma GroupSplit(tasks: seq<Task>, head: nat, next: nat)
    requires head < next <= |tasks| && next == head + 1 + ParallelRun(tasks[head+1..])
    ensures Groups(tasks[head..]) == [tasks[head..next]] + Groups(tasks[next..])
  {
    hide ParallelRun;
    var t := tasks[head..];
    assert t[1..] == tasks[head+1..];
    assert t[..next - head] == tasks[head..next] && t[next - head..] == tasks[next..];
    GroupsFirst(t);
  }

  lemma {:induction false} GroupsFirst(tasks: seq<Task>)
    requires tasks != []
    ensures var n := 1 + ParallelRun(tasks[1..]); Groups(tasks) == [tasks[..n]] + Groups(tasks[n..])
  {
    hide ParallelRun;
  }

  /** A group of one passes its task's own output on, as the union would. */
  lemma SingleGroup(registry: map<string, Handler>, group: seq<Task>, prev: Output)
    requires |group| == 1
    ensures GroupRows(registry, group, prev) == [RunTask(registry, group[0], prev)]
    ensures Merged(GroupRows(registry, group, prev)) == RunTask(registry, group[0], prev).output
  {
    var row := RunTask(registry, group[0], prev);
    assert Merged([row]) == map[] + row.output == row.output by {
      assert [row][..0] == [];
    }
  }

  // ---- What the groups are ----------------------------------------------------------

  /** The groups are consecutive and lose nothing, so every task runs once, in
      order; each is a head and parallel tasks, and a later group starts with a
      task that is not parallel. */
  lemma {:induction false} GroupsPartition(tasks: seq<Task>)
    ensures Concat(Groups(tasks)) == tasks
    ensures forall g :: 0 <= g < |Groups(tasks)| ==> Groups(tasks)[g] != []
    ensures forall g, i :: 0 <= g < |Groups(tasks)| && 0 < i < |Groups(tasks)[g]| ==> Groups(tasks)[g][i].parallel
    ensures forall g :: 0 < g < |Groups(tasks)| ==> !Groups(tasks)[g][0].parallel
    decreases |tasks|
  {
    if tasks != [] {
      var n := 1 + ParallelRun(tasks[1..]);
      GroupsPartition(tasks[n..]);
      ParallelRunIsMaximal(tasks[1..]);
      var rest := Groups(tasks[n..]);
      assert tasks[..n] + tasks[n..] == tasks;
      if rest != [] {
        assert rest[0][0] == tasks[n] by { FirstOfFirst(tasks[n..]); }
        assert tasks[1..][n-1] == tasks[n];
      }
      forall g, i | 0 <= g < |Groups(tasks)| && 0 < i < |Groups(tasks)[g]| ensures Groups(tasks)[g][i].parallel {
        if g == 0 { assert tasks[1..][i-1] == tasks[i]; }
      }
    }
  }

  lemma FirstOfFirst(tasks: seq<Task>)
    requires tasks != []
    ensures Groups(tasks) != [] && Groups(tasks)[0] != [] && Groups(tasks)[0][0] == tasks[0]
  {
  }

  /** The row records the task, with at least the input the task states. */
  predicate RowOf(row: TaskRow, t: Task) {
    row.agentType == t.agentType && forall key :: key in t.input ==> key in row.input && row.input[key] == t.input[key]
  }

  lemma {:induction false} RowsFollowTasks(registry: map<string, Handler>, groups: seq<seq<Task>>, prev: Output)
    ensures var (rows, last) := RunGroups(registry, groups, prev);
            && |rows| == |Concat(groups)|
            && forall k :: 0 <= k < |rows| ==> RowOf(rows[k], Concat(groups)[k])
  {
    hide RowFor, RowOf, Merged;
    if groups != [] {
      var rows := GroupRows(registry, groups[0], prev);
      forall k | 0 <= k < |rows| ensures RowOf(rows[k], groups[0][k]) {
        RowForTask(registry, groups[0][k], prev, prev);
      }
      RowsFollowTasks(registry, groups[1..], Merged(rows));
    }
  }

  lemma RowForTask(registry: map<string, Handler>, t: Task, prev: Output, shared: Output)
    ensures RowOf(RowFor(registry, t, prev, shared), t)
  {
  }

  /** One row per configured task, in configuration order, each keeping the
      input its task states. */
  lemma EveryTaskRunsOnce(registry: map<string, Handler>, tasks: seq<Task>)
    ensures var rows := RunGroups(registry, Groups(tasks), map[]).0;
            && |rows| == |tasks|
            && forall k :: 0 <= k < |rows| ==> RowOf(rows[k], tasks[k])
  {
    GroupsPartition(tasks);
    RowsFollowTasks(registry, Groups(tasks), map[]);
  }

  lemma {:induction false} MergedKeys(rows: seq<TaskRow>, key: string)
    ensures key in Merged(rows) <==> exists i :: 0 <= i < |rows| && key in rows[i].output
  {
    if rows != [] {
      var rest := rows[..|rows|-1];
      MergedKeys(rest, key);
      assert forall i :: 0 <= i < |rest| ==> rows[i] == rest[i];
    }
  }

  /** Row i is the last one with that key. */
  predicate LastWriter(rows: seq<TaskRow>, i: nat, key: string)
    requires i < |rows|
  {
    key in rows[i].output && forall j :: i < j < |rows| ==> key !in rows[j].output
  }

  /** For each key, the merged output has the value of the last task, in
      configuration order, that produced it. */
  lemma {:induction false} MergedIsLastWriter(rows: seq<TaskRow>, i: nat, key: string)
    requires i < |rows| && LastWriter(rows, i, key)
    ensures key in Merged(rows) && Merged(rows)[key] == rows[i].output[key]
  {
    if i < |rows| - 1 {
      MergedIsLastWriter(rows[..|rows|-1], i, key);
    }
  }
}

/** The dead-letter queue consumer and the circuit breaker on its re-enqueue
    path.  One worker pops one job at a time, so its breaker calls do not
    interleave. */
module DlqWorkers {
  import opened Wrappers
  import opened CircuitBreakers

  /** A JSON value seen through Python's `bool()` and `str()`. */
  datatype Json = Json(truthy: bool, text: string)

  type Job = map<string, Json>

  /** What `json.loads` makes of the popped text. */
  datatype Popped = NotJson(raw: Json) | NotAnObject | Object(job: Job)

  datatype Await = Reading | Counting | Backoff | Pushing | Parking | Clearing

  /** How an await fails: before or after its command took effect, and by an error or
      by the cancellation of the worker. */
  datatype Fault = Fault(done: bool, cancelled: bool)

  /** The two clock readings of the breaker, the parking time, and the awaits that
      fail if they are reached. */
  datatype Env = Env(startedAt: real, endedAt: real, parkedAt: Json, faults: map<Await, Fault>)

  /** The command takes effect, even if it then fails. */
  predicate Done(env: Env, a: Await) {
    a in env.faults ==> env.faults[a].done
  }

  /** The await stops the worker.  Only a cancellation can end the backoff early. */
  predicate Cancelled(env: Env, a: Await) {
    a in env.faults && (a == Backoff || env.faults[a].cancelled)
  }

  datatype Outcome =
    | Requeued | RequeuedUncleared | RequeuedRaised | RequeuedCancelled
    | ParkedInvalid | ParkedNoId | ParkedExhausted | ParkedUncleared | ParkedOpen
    | LostNotObject | LostReading | LostCounting | LostCounted | LostBackoff | LostPush | LostCancelled
    | LostParking | LostParkingOpen

  /** What became of a job, and whether the worker was stopped while handling it. */
  datatype Ending = Ending(how: Outcome, stopped: bool)

  const DLQ_FIELDS := {"error", "_error", "_dlq_at"}

  const INVALID_JSON := Json(true, "invalid_json")

  function Cleaned(job: Job): Job {
    job - DLQ_FIELDS
  }

  function WithParkTime(job: Job, env: Env): Job {
    job["_parked_at" := env.parkedAt]
  }

  predicate HasId(job: Job) {
    "alert_id" in job && job["alert_id"].truthy
  }

  function AlertKey(job: Job): string
    requires HasId(job)
  {
    job["alert_id"].text
  }

  datatype Queues = Queues(triage: seq<Job>, parked: seq<Job>, retries: map<string, nat>, breaker: BreakerState)

  const EMPTY := Queues([], [], map[], FRESH)

  function Retries(s: Queues, key: string): nat {
    if key in s.retries then s.retries[key] else 0
  }

  function Parked(s: Queues, job: Job, env: Env): Queues {
    s.(parked := [WithParkTime(job, env)] + s.parked)
  }

  /** Parking a job, which the queue may refuse. */
  function TryPark(s: Queues, job: Job, env: Env, parked: Outcome, lost: Outcome): (Queues, Ending) {
    var stopped := Cancelled(env, Parking);
    if Done(env, Parking) then (Parked(s, job, env), Ending(parked, stopped)) else (s, Ending(lost, stopped))
  }

  /** Clearing the counter, which may fail and leave it. */
  function TryClear(s: Queues, key: string, env: Env, cleared: Outcome, uncleared: Outcome): (Queues, Ending) {
    var stopped := Cancelled(env, Clearing);
    if Done(env, Clearing) then (s.(retries := s.retries - {key}), Ending(cleared, stopped))
    else (s, Ending(uncleared, stopped))
  }

  /** Parking a job whose retries are used up.  If that fails its counter stays. */
  function ParkExhausted(s: Queues, job: Job, key: string, env: Env): (Queues, Ending) {
    if Parking in env.faults then TryPark(s, job, env, ParkedUncleared, LostParking)
    else TryClear(Parked(s, job, env), key, env, ParkedExhausted, ParkedUncleared)
  }

  /** Pushing a job through the breaker.  A cancelled push is not recorded. */
  function Pushed(c: Config, s: Queues, job: Job, key: string, env: Env): (Queues, Ending) {
    var (started, ok) := Admit(c, s.breaker, env.startedAt);
    if !ok then TryPark(s.(breaker := started), job, env, ParkedOpen, LostParkingOpen)
    else
      var queue := if Done(env, Pushing) then [Cleaned(job)] + s.triage else s.triage;
      if Pushing !in env.faults then TryClear(s.(breaker := FRESH, triage := queue), key, env, Requeued,
          RequeuedUncleared)
      else if Cancelled(env, Pushing) then
        (s.(breaker := started, triage := queue),
         Ending(if Done(env, Pushing) then RequeuedCancelled else LostCancelled, true))
      else
        (s.(breaker := RegisterFailure(c, started, env.endedAt), triage := queue),
         Ending(if Done(env, Pushing) then RequeuedRaised else LostPush, false))
  }

  /** The counter is raised, then the worker backs off and pushes the job. */
  function Retried(c: Config, s: Queues, job: Job, key: string, env: Env): (Queues, Ending) {
    var counted := s.(retries := s.retries[key := Retries(s, key) + 1]);
    if Counting in env.faults then
      if Done(env, Counting) then (counted, Ending(LostCounted, Cancelled(env, Counting)))
      else (s, Ending(LostCounting, Cancelled(env, Counting)))
    else if Backoff in env.faults then (counted, Ending(LostBackoff, Cancelled(env, Backoff)))
    else Pushed(c, counted, job, key, env)
  }

  /** One popped job, as the source's branches order it. */
  function Handled(c: Config, maxRetries: int, s: Queues, p: Popped, env: Env): (Queues, Ending) {
    match p
    case NotJson(raw) => TryPark(s, map["raw" := raw, "error" := INVALID_JSON], env, ParkedInvalid, LostParking)
    case NotAnObject => (s, Ending(LostNotObject, false))
    case Object(job) =>
      if !HasId(job) then TryPark(s, job, env, ParkedNoId, LostParking)
      else if Reading in env.faults then (s, Ending(LostReading, Cancelled(env, Reading)))
      else if Retries(s, AlertKey(job)) >= maxRetries then ParkExhausted(s, job, AlertKey(job), env)
      else Retried(c, s, job, AlertKey(job), env)
  }

  class DlqWorker {
    const maxRetries: int
    const breaker: CircuitBreaker
    var triageQueue: seq<Job>
    var parkedQueue: seq<Job>
    var retries: map<string, nat>

    function View(): Queues
      reads this, breaker
    {
      Queues(triageQueue, parkedQueue, retries, breaker.View())
    }

    constructor (maxRetries: int, failureThreshold: int, recoveryTimeout: real)
      ensures this.maxRetries == maxRetries
      ensures breaker.config == Config(failureThreshold, recoveryTimeout) && fresh(breaker)
      ensures View() == EMPTY
    {
      this.maxRetries := maxRetries;
      breaker := new CircuitBreaker(failureThreshold, recoveryTimeout);
      triageQueue, parkedQueue, retries := [], [], map[];
    }

    /** Pushes a job to the parked queue; false if that raised. */
    method Park(job: Job, env: Env) returns (ok: bool)
      modifies this`parkedQueue
      ensures ok <==> Parking !in env.faults
      ensures parkedQueue ==
                if Done(env, Parking) then [WithParkTime(job, env)] + old(parkedQueue) else old(parkedQueue)
    {
      if Done(env, Parking) {
        parkedQueue := [WithParkTime(job, env)] + parkedQueue;
      }
      return Parking !in env.faults;
    }

    method PushToTriageQueue(job: Job, env: Env) returns (ok: bool)
      modifies this`triageQueue
      ensures ok <==> Pushing !in env.faults
      ensures triageQueue == if Done(env, Pushing) then [job] + old(triageQueue) else old(triageQueue)
    {
      if Done(env, Pushing) {
        triageQueue := [job] + triageQueue;
      }
      return Pushing !in env.faults;
    }

    method GetRetryCount(key: string) returns (n: nat)
      ensures n == Retries(View(), key)
    {
      n := if key in retries then retries[key] else 0;
    }

    method SetRetryCount(key: string, n: nat, env: Env) returns (ok: bool)
      modifies this`retries
      ensures ok <==> Counting !in env.faults
      ensures retries == if Done(env, Counting) then old(retries)[key := n] else old(retries)
    {
      if Done(env, Counting) {
        retries := retries[key := n];
      }
      return Counting !in env.faults;
    }

    method ClearRetryCount(key: string, env: Env)
      modifies this`retries
      ensures retries == if Done(env, Clearing) then old(retries) - {key} else old(retries)
    {
      if Done(env, Clearing) {
        retries := retries - {key};
      }
    }

    /** Handles one popped job.  An exception leaves `_handle` for the loop, which
        logs it and goes on, or ends if it is a cancellation. */
    method Handle(p: Popped, env: Env) returns (e: Ending)
      modifies this, breaker
      ensures (View(), e) == Handled(breaker.config, maxRetries, old(View()), p, env)
    {
      hide Pushed;
      var refused := Cancelled(env, Parking);
      if p.NotJson? {
        var _ := Park(map["raw" := p.raw, "error" := INVALID_JSON], env);
        return Ending(if Done(env, Parking) then ParkedInvalid else LostParking, refused);
      }
      if p.NotAnObject? {
        return Ending(LostNotObject, false);
      }
      var job := p.job;
      if !HasId(job) {
        var _ := Park(job, env);
        return Ending(if Done(env, Parking) then ParkedNoId else LostParking, refused);
      }
      if Reading in env.faults {
        return Ending(LostReading, Cancelled(env, Reading));
      }
      var key := AlertKey(job);
      var retryCount := GetRetryCount(key);
      if retryCount >= maxRetries {
        var parked := Park(job, env);
        if !parked {
          return Ending(if Done(env, Parking) then ParkedUncleared else LostParking, refused);
        }
        ClearRetryCount(key, env);
        return Ending(if Done(env, Clearing) then ParkedExhausted else ParkedUncleared, Cancelled(env, Clearing));
      }
      var counted := SetRetryCount(key, retryCount + 1, env);
      if !counted {
        return Ending(if Done(env, Counting) then LostCounted else LostCounting, Cancelled(env, Counting));
      }
      if Backoff in env.faults {
        return Ending(LostBackoff, Cancelled(env, Backoff));
      }
      e := Reenqueue(job, key, env);
    }

    /** The re-enqueue behind the breaker. */
    method Reenqueue(job: Job, key: string, env: Env) returns (e: Ending)
      modifies this`triageQueue, this`parkedQueue, this`retries, breaker
      ensures (View(), e) == Pushed(breaker.config, old(View()), job, key, env)
    {
      var admitted := breaker.Begin(env.startedAt);
      if !admitted {
        var _ := Park(job, env);
        return Ending(if Done(env, Parking) then ParkedOpen else LostParkingOpen, Cancelled(env, Parking));
      }
      var pushed := PushToTriageQueue(Cleaned(job), env);
      if pushed {
        breaker.Succeed();
        ClearRetryCount(key, env);
        return Ending(if Done(env, Clearing) then Requeued else RequeuedUncleared, Cancelled(env, Clearing));
      }
      if Cancelled(env, Pushing) {
        return Ending(if Done(env, Pushing) then RequeuedCancelled else LostCancelled, true);
      }
      breaker.Fail(env.endedAt);
      return Ending(if Done(env, Pushing) then RequeuedRaised else LostPush, false);
    }
  }

  // ---- Runs --------------------------------------------------------------

  datatype Item = Item(popped: Popped, env: Env)

  /** A cancelled worker stops: the next job is popped by a new one, which has a
      new breaker. */
  function Next(c: Config, maxRetries: int, s: Queues, item: Item): Queues {
    var (after, e) := Handled(c, maxRetries, s, item.popped, item.env);
    if e.stopped then after.(breaker := FRESH) else after
  }

  function EndingOf(c: Config, maxRetries: int, s: Queues, item: Item): Ending {
    Handled(c, maxRetries, s, item.popped, item.env).1
  }

  function Run(c: Config, maxRetries: int, items: seq<Item>): Queues {
    if items == [] then EMPTY
    else Next(c, maxRetries, Run(c, maxRetries, items[..|items|-1]), items[|items|-1])
  }

  /** How the jobs of a run ended, oldest first. */
  function Endings(c: Config, maxRetries: int, items: seq<Item>): (es: seq<Ending>)
    ensures |es| == |items|
  {
    if items == [] then []
    else
      var rest, last := items[..|items|-1], items[|items|-1];
      Endings(c, maxRetries, rest) + [EndingOf(c, maxRetries, Run(c, maxRetries, rest), last)]
  }

  const REQUEUED := {Requeued, RequeuedUncleared, RequeuedRaised, RequeuedCancelled}
  const PARKED := {ParkedInvalid, ParkedNoId, ParkedExhausted, ParkedUncleared, ParkedOpen}
  const LOST := {
    LostNotObject, LostReading, LostCounting, LostCounted, LostBackoff, LostPush, LostCancelled,
    LostParking, LostParkingOpen}

  /** The outcomes of pushes that worked, and of those that raised. */
  const WORKED := {Requeued, RequeuedUncleared}
  const RAISED := {RequeuedRaised, LostPush}

  function Count(es: seq<Ending>, what: set<Outcome>): nat {
    if es == [] then 0
    else Count(es[..|es|-1], what) + (if es[|es|-1].how in what then 1 else 0)
  }

  // ---- Where each popped job ends up -------------------------------------

  /** The queue entry a popped job leaves behind: the payload without the three
      dead-letter fields, or the job (or a stand-in for unreadable text) with
      the parking time. */
  function Trace(item: Item, o: Outcome): seq<Job> {
    match item.popped
    case Object(job) =>
      if o in REQUEUED then [map k | k in job && k !in {"error", "_error", "_dlq_at"} :: job[k]]
      else if o in PARKED
      then [map k | k in job.Keys + {"_parked_at"} :: if k == "_parked_at" then item.env.parkedAt else job[k]]
      else []
    case NotJson(raw) =>
      if o in PARKED
      then [map["raw" := raw, "error" := Json(true, "invalid_json"), "_parked_at" := item.env.parkedAt]]
      else []
    case NotAnObject => []
  }

  /** The traces left in one queue, newest first: both queues are pushed at
      the head. */
  function Traces(items: seq<Item>, es: seq<Ending>, queue: set<Outcome>): seq<Job>
    requires |items| == |es|
  {
    if items == [] then []
    else
      var n := |items| - 1;
      (if es[n].how in queue then Trace(items[n], es[n].how) else []) + Traces(items[..n], es[..n], queue)
  }

  /** Main result: after any run the two queues hold exactly the traces of the
      jobs re-enqueued and of the jobs parked, in order, and the jobs that left
      no trace make up the difference. */
  lemma {:induction false} EveryJobHasOneFate(c: Config, maxRetries: int, items: seq<Item>)
    ensures Accounts(Run(c, maxRetries, items), items, Endings(c, maxRetries, items))
  {
    hide Handled, Run, Endings, Accounts;
    if items != [] {
      var rest, last := items[..|items|-1], items[|items|-1];
      EveryJobHasOneFate(c, maxRetries, rest);
      assert items == rest + [last];
      RunStep(c, maxRetries, rest, last);
      AccountsStep(c, maxRetries, Run(c, maxRetries, rest), rest, Endings(c, maxRetries, rest), last);
    } else {
      NothingToAccount(c, maxRetries);
    }
  }

  /** The queues hold the traces of the jobs, and the lost jobs make up the rest. */
  predicate Accounts(s: Queues, items: seq<Item>, es: seq<Ending>)
    requires |items| == |es|
  {
    && s.triage == Traces(items, es, REQUEUED)
    && s.parked == Traces(items, es, PARKED)
    && |s.triage| == Count(es, REQUEUED)
    && |s.parked| == Count(es, PARKED)
    && |items| == |s.triage| + |s.parked| + Count(es, LOST)
  }

  lemma NothingToAccount(c: Config, maxRetries: int)
    ensures Accounts(Run(c, maxRetries, []), [], Endings(c, maxRetries, []))
  {
  }

  lemma {:induction false} AccountsStep(c: Config, maxRetries: int, s: Queues, items: seq<Item>, es: seq<Ending>,
                                        last: Item)
    requires |items| == |es| && Accounts(s, items, es)
    ensures Accounts(Next(c, maxRetries, s, last), items + [last], es + [EndingOf(c, maxRetries, s, last)])
  {
    hide Handled, Trace, Traces, Count;
    var e := EndingOf(c, maxRetries, s, last);
    OneFate(c, maxRetries, s, last);
    FateAppend(items, es, last, e, REQUEUED);
    FateAppend(items, es, last, e, PARKED);
    FateAppend(items, es, last, e, LOST);
  }

  lemma CountAppend(es: seq<Ending>, e: Ending, what: set<Outcome>)
    ensures Count(es + [e], what) == Count(es, what) + (if e.how in what then 1 else 0)
  {
    assert (es + [e])[..|es|] == es;
  }

  lemma FateAppend(items: seq<Item>, es: seq<Ending>, item: Item, e: Ending, what: set<Outcome>)
    requires |items| == |es|
    ensures Traces(items + [item], es + [e], what) ==
              (if e.how in what then Trace(item, e.how) else []) + Traces(items, es, what)
    ensures Count(es + [e], what) == Count(es, what) + (if e.how in what then 1 else 0)
  {
    hide Trace, Count;
    CountAppend(es, e, what);
    assert (items + [item])[..|items|] == items && (es + [e])[..|es|] == es;
  }

  /** One step of the above. */
  lemma OneFate(c: Config, maxRetries: int, s: Queues, item: Item)
    ensures var (after, e) := Handled(c, maxRetries, s, item.popped, item.env);
            && after.triage == (if e.how in REQUEUED then Trace(item, e.how) else []) + s.triage
            && after.parked == (if e.how in PARKED then Trace(item, e.how) else []) + s.parked
            && (e.how in REQUEUED || e.how in PARKED ==> |Trace(item, e.how)| == 1)
            && (e.how in REQUEUED || e.how in PARKED <==> e.how !in LOST)
            && !(e.how in REQUEUED && e.how in PARKED)
  {
    hide Retries, Cleaned, WithParkTime, Retried, ParkExhausted, Trace;
    TraceIs(item, Handled(c, maxRetries, s, item.popped, item.env).1.how);
    if item.popped.Object? && HasId(item.popped.job) {
      var (job, key) := (item.popped.job, AlertKey(item.popped.job));
      RetriedFate(c, s, job, key, item.env);
      ExhaustedFate(s, job, key, item.env);
    }
  }

  /** A job leaves its trace in the queue that its outcome names, and in no other. */
  predicate Settles(s: Queues, job: Job, env: Env, after: Queues, o: Outcome) {
    && after.triage == (if o in REQUEUED then [Cleaned(job)] else []) + s.triage
    && after.parked == (if o in PARKED then [WithParkTime(job, env)] else []) + s.parked
    && (o in REQUEUED || o in PARKED <==> o !in LOST)
    && !(o in REQUEUED && o in PARKED)
  }

  lemma RetriedFate(c: Config, s: Queues, job: Job, key: string, env: Env)
    ensures var (after, e) := Retried(c, s, job, key, env); Settles(s, job, env, after, e.how)
  {
    hide Retries, Cleaned, WithParkTime, Pushed;
    PushedFate(c, s.(retries := s.retries[key := Retries(s, key) + 1]), job, key, env);
  }

  lemma PushedFate(c: Config, s: Queues, job: Job, key: string, env: Env)
    ensures var (after, e) := Pushed(c, s, job, key, env); Settles(s, job, env, after, e.how)
  {
    hide Admit, RegisterFailure, Cleaned, WithParkTime;
  }

  lemma ExhaustedFate(s: Queues, job: Job, key: string, env: Env)
    ensures var (after, e) := ParkExhausted(s, job, key, env); Settles(s, job, env, after, e.how)
  {
    hide Cleaned, WithParkTime;
  }

  lemma TraceIs(item: Item, o: Outcome)
    ensures Trace(item, o) ==
            match item.popped
            case Object(job) =>
              if o in REQUEUED then [Cleaned(job)] else if o in PARKED then [WithParkTime(job, item.env)] else []
            case NotJson(raw) =>
              if o in PARKED then [WithParkTime(map["raw" := raw, "error" := INVALID_JSON], item.env)] else []
            case NotAnObject => []
  {
    if item.popped.Object? {
      CleanedMap(item.popped.job);
      StampedMap(item.popped.job, item.env);
    } else if item.popped.NotJson? {
      StampedText(item.popped.raw, item.env);
    }
  }

  lemma CleanedMap(job: Job)
    ensures Cleaned(job) == map k | k in job && k !in {"error", "_error", "_dlq_at"} :: job[k]
  {
  }

  lemma StampedMap(job: Job, env: Env)
    ensures WithParkTime(job, env)
            == map k | k in job.Keys + {"_parked_at"} :: if k == "_parked_at" then env.parkedAt else job[k]
  {
    assert WithParkTime(job, env).Keys == job.Keys + {"_parked_at"};
  }

  lemma StampedText(raw: Json, env: Env)
    ensures WithParkTime(map["raw" := raw, "error" := INVALID_JSON], env)
            == map["raw" := raw, "error" := INVALID_JSON, "_parked_at" := env.parkedAt]
  {
  }

  /** The job reaches a point where the code parks it. */
  predicate MustBeParked(c: Config, maxRetries: int, s: Queues, p: Popped, env: Env) {
    match p
    case NotJson(_) => true
    case NotAnObject => false
    case Object(job) =>
      !("alert_id" in job && job["alert_id"].truthy)
      || (Reading !in env.faults
          && (Retries(s, job["alert_id"].text) >= maxRetries
              || (Counting !in env.faults && Backoff !in env.faults && !Admit(c, s.breaker, env.startedAt).1)))
  }

  /** The job reaches the point where the code has raised its counter, or tried to. */
  predicate MustBeCounted(maxRetries: int, s: Queues, p: Popped, env: Env) {
    && p.Object? && "alert_id" in p.job && p.job["alert_id"].truthy
    && Reading !in env.faults && Retries(s, p.job["alert_id"].text) < maxRetries
  }

  /** The job reaches the point where the code pushes it. */
  predicate MustBePushed(c: Config, maxRetries: int, s: Queues, p: Popped, env: Env) {
    && MustBeCounted(maxRetries, s, p, env)
    && Counting !in env.faults && Backoff !in env.faults && Admit(c, s.breaker, env.startedAt).1
  }

  /** A job is parked exactly when it must be and the parked queue takes it. */
  lemma ParkedExactlyWhen(c: Config, maxRetries: int, s: Queues, p: Popped, env: Env)
    ensures Handled(c, maxRetries, s, p, env).1.how in PARKED <==>
              MustBeParked(c, maxRetries, s, p, env) && Done(env, Parking)
  {
    hide Admit, RegisterFailure, Cleaned, WithParkTime;
  }

  /** A job is re-enqueued exactly when it names its alert, has retries left, is counted
      and backed off without a fault, is admitted by the breaker, and the push takes
      effect. */
  lemma RequeuedExactlyWhen(c: Config, maxRetries: int, s: Queues, p: Popped, env: Env)
    ensures Handled(c, maxRetries, s, p, env).1.how in REQUEUED <==>
              MustBePushed(c, maxRetries, s, p, env) && Done(env, Pushing)
  {
    hide Admit, RegisterFailure, Cleaned, WithParkTime;
  }

  /** What one job does to the counters: its own is cleared by a push that works or by
      parking it as exhausted, raised by any other attempt that is counted, and
      otherwise left; no other counter changes. */
  lemma CounterAfter(c: Config, maxRetries: int, s: Queues, p: Popped, env: Env, key: string)
    ensures Retries(Handled(c, maxRetries, s, p, env).0, key) ==
            if !(p.Object? && "alert_id" in p.job && p.job["alert_id"].truthy && p.job["alert_id"].text == key)
               || Reading in env.faults
            then Retries(s, key)
            else if Retries(s, key) >= maxRetries
            then if Parking !in env.faults && Done(env, Clearing) then 0 else Retries(s, key)
            else if !Done(env, Counting) then Retries(s, key)
            else if MustBePushed(c, maxRetries, s, p, env) && Pushing !in env.faults && Done(env, Clearing) then 0
            else Retries(s, key) + 1
  {
    hide Admit, RegisterFailure, Cleaned, WithParkTime;
  }

  /** What one job does to the breaker: only a push that is tried counts, and closes it,
      is recorded as a failure at its end, or is cancelled and not recorded. */
  lemma BreakerAfter(c: Config, maxRetries: int, s: Queues, p: Popped, env: Env)
    ensures var after := Handled(c, maxRetries, s, p, env).0.breaker;
            if !(MustBeCounted(maxRetries, s, p, env) && Counting !in env.faults && Backoff !in env.faults)
            then after == s.breaker
            else if !Admit(c, s.breaker, env.startedAt).1 then after == Admit(c, s.breaker, env.startedAt).0
            else if Pushing !in env.faults then after == FRESH
            else if Cancelled(env, Pushing) then after == Admit(c, s.breaker, env.startedAt).0
            else after == RegisterFailure(c, Admit(c, s.breaker, env.startedAt).0, env.endedAt)
  {
    hide Admit, RegisterFailure, Cleaned, WithParkTime;
  }

  /** The worker stops exactly when an await that the job reaches is cancelled. */
  lemma StopsExactlyWhen(c: Config, maxRetries: int, s: Queues, p: Popped, env: Env)
    ensures Handled(c, maxRetries, s, p, env).1.stopped <==>
              || (MustBeParked(c, maxRetries, s, p, env) && Cancelled(env, Parking))
              || (p.Object? && "alert_id" in p.job && p.job["alert_id"].truthy && Cancelled(env, Reading))
              || (MustBeParked(c, maxRetries, s, p, env) && Parking !in env.faults && p.Object?
                  && "alert_id" in p.job && p.job["alert_id"].truthy && Retries(s, p.job["alert_id"].text) >= maxRetries
                  && Cancelled(env, Clearing))
              || (MustBeCounted(maxRetries, s, p, env)
                  && (Cancelled(env, Counting) || (Counting !in env.faults && Backoff in env.faults)))
              || (MustBePushed(c, maxRetries, s, p, env)
                  && (Cancelled(env, Pushing) || (Pushing !in env.faults && Cancelled(env, Clearing))))
  {
    hide Admit, RegisterFailure, Cleaned, WithParkTime;
  }

  /** The comment at the head of the worker says nothing is silently lost.  A
      popped job is lost in exactly these cases: its text is JSON but not an
      object; it must be parked and is not pushed to the parked queue; its counter
      cannot be read; or, with retries left, writing its counter fails, the backoff
      is cancelled, or an admitted push fails without taking effect. */
  lemma LostExactlyWhen(c: Config, maxRetries: int, s: Queues, p: Popped, env: Env)
    ensures Handled(c, maxRetries, s, p, env).1.how in LOST <==>
              || p.NotAnObject?
              || (MustBeParked(c, maxRetries, s, p, env) && !Done(env, Parking))
              || (p.Object? && "alert_id" in p.job && p.job["alert_id"].truthy
                  && (Reading in env.faults
                      || (Retries(s, p.job["alert_id"].text) < maxRetries
                          && (Counting in env.faults || Backoff in env.faults
                              || (Admit(c, s.breaker, env.startedAt).1 && !Done(env, Pushing))))))
  {
    hide Admit, RegisterFailure, Cleaned, WithParkTime;
  }

  /** Even with every await but the push in order, the two families that remain
      lose jobs. */
  lemma LostWithoutFaults(c: Config, maxRetries: int, s: Queues, p: Popped, env: Env)
    requires env.faults.Keys <= {Pushing}
    ensures Handled(c, maxRetries, s, p, env).1.how in LOST <==>
              || p.NotAnObject?
              || (p.Object? && "alert_id" in p.job && p.job["alert_id"].truthy
                  && Retries(s, p.job["alert_id"].text) < maxRetries
                  && Admit(c, s.breaker, env.startedAt).1 && !Done(env, Pushing))
  {
    LostExactlyWhen(c, maxRetries, s, p, env);
  }

  // ---- The retry counter -------------------------------------------------

  predicate Concerns(item: Item, key: string) {
    item.popped.Object? && HasId(item.popped.job) && AlertKey(item.popped.job) == key
  }

  /** The outcomes after the counter was raised, and not cleared again. */
  const COUNTED := {
    RequeuedUncleared, RequeuedRaised, RequeuedCancelled, ParkedOpen, LostCounted, LostBackoff, LostPush, LostCancelled,
    LostParkingOpen}

  /** Handles of one alert that got as far as counting, since its counter was last
      cleared by a successful push or by parking it as exhausted. */
  function UnclearedHandles(items: seq<Item>, es: seq<Ending>, key: string): nat
    requires |items| == |es|
  {
    if items == [] then 0
    else
      var n := |items| - 1;
      var before := UnclearedHandles(items[..n], es[..n], key);
      if !Concerns(items[n], key) then before
      else if es[n].how in {Requeued, ParkedExhausted} then 0
      else if es[n].how in COUNTED then before + 1
      else before
  }

  lemma {:induction false} RetryCounterCounts(c: Config, maxRetries: nat, items: seq<Item>, key: string)
    ensures Retries(Run(c, maxRetries, items), key)
            == UnclearedHandles(items, Endings(c, maxRetries, items), key)
            <= maxRetries
  {
    if items != [] {
      hide Handled;
      var (rest, last) := (items[..|items|-1], items[|items|-1]);
      RetryCounterCounts(c, maxRetries, rest, key);
      assert Endings(c, maxRetries, items)[..|items|-1] == Endings(c, maxRetries, rest);
      RetryStep(c, maxRetries, Run(c, maxRetries, rest), last, key);
    }
  }

  lemma RetryStep(c: Config, maxRetries: nat, s: Queues, item: Item, key: string)
    requires Retries(s, key) <= maxRetries
    ensures var (after, e) := Handled(c, maxRetries, s, item.popped, item.env);
            Retries(after, key) ==
            (if !Concerns(item, key) then Retries(s, key)
             else if e.how in {Requeued, ParkedExhausted} then 0
             else if e.how in COUNTED then Retries(s, key) + 1
             else Retries(s, key))
            <= maxRetries
  {
    hide Admit, RegisterFailure, Cleaned, WithParkTime;
  }

  // ---- What the breaker protects -----------------------------------------

  /** Pushes that raised since the last one that worked, or since the worker was
      last replaced. */
  function FailedPushes(es: seq<Ending>): nat {
    if es == [] then 0
    else
      var rest, last := es[..|es|-1], es[|es|-1];
      if last.how in WORKED || last.stopped then 0
      else FailedPushes(rest) + (if last.how in RAISED then 1 else 0)
  }

  lemma {:induction false} BreakerCountsFailedPushes(c: Config, maxRetries: int, items: seq<Item>)
    requires c.failureThreshold >= 1
    ensures var b := Run(c, maxRetries, items).breaker;
            && b.failures == FailedPushes(Endings(c, maxRetries, items))
            && !b.halfOpen
            && (b.openedAt.Some? <==> b.failures >= c.failureThreshold)
  {
    if items != [] {
      hide Handled;
      var (rest, last) := (items[..|items|-1], items[|items|-1]);
      BreakerCountsFailedPushes(c, maxRetries, rest);
      assert Endings(c, maxRetries, items)[..|items|-1] == Endings(c, maxRetries, rest);
      BreakerStep(c, maxRetries, Run(c, maxRetries, rest), last);
    }
  }

  lemma BreakerStep(c: Config, maxRetries: int, s: Queues, item: Item)
    requires c.failureThreshold >= 1 && !s.breaker.halfOpen
    requires s.breaker.openedAt.Some? <==> s.breaker.failures >= c.failureThreshold
    ensures var (after, e) := Handled(c, maxRetries, s, item.popped, item.env);
            && !after.breaker.halfOpen
            && (after.breaker.openedAt.Some? <==> after.breaker.failures >= c.failureThreshold)
            && (e.how in RAISED ==> !e.stopped)
            && after.breaker.failures ==
               if e.how in WORKED then 0 else s.breaker.failures + (if e.how in RAISED then 1 else 0)
  {
    hide Cleaned, WithParkTime, Pushed;
    if item.popped.Object? && HasId(item.popped.job) {
      var (job, key) := (item.popped.job, AlertKey(item.popped.job));
      PushedBreaker(c, s.(retries := s.retries[key := Retries(s, key) + 1]), job, key, item.env);
    }
  }

  lemma PushedBreaker(c: Config, s: Queues, job: Job, key: string, env: Env)
    requires c.failureThreshold >= 1 && !s.breaker.halfOpen
    requires s.breaker.openedAt.Some? <==> s.breaker.failures >= c.failureThreshold
    ensures var (after, e) := Pushed(c, s, job, key, env);
            && !after.breaker.halfOpen
            && (after.breaker.openedAt.Some? <==> after.breaker.failures >= c.failureThreshold)
            && (e.how in RAISED ==> !e.stopped)
            && after.breaker.failures ==
               if e.how in WORKED then 0 else s.breaker.failures + (if e.how in RAISED then 1 else 0)
  {
    hide Cleaned, WithParkTime;
  }

  /** Every breaker reading of the items is at or after `from` and before `to`. */
  predicate Within(items: seq<Item>, from: real, to: real) {
    forall i <- items :: from <= i.env.startedAt < to && from <= i.env.endedAt < to
  }

  lemma {:induction false} RunStep(c: Config, maxRetries: int, items: seq<Item>, last: Item)
    ensures var (after, e) := Handled(c, maxRetries, Run(c, maxRetries, items), last.popped, last.env);
            && Run(c, maxRetries, items + [last]) == (if e.stopped then after.(breaker := FRESH) else after)
            && Endings(c, maxRetries, items + [last]) == Endings(c, maxRetries, items) + [e]
  {
    hide Handled;
    assert (items + [last])[..|items|] == items;
  }

  /** One job, popped while the breaker refuses calls. */
  lemma OpenStep(c: Config, maxRetries: int, s: Queues, item: Item, openedAt: real)
    requires s.breaker.failures >= c.failureThreshold && s.breaker.openedAt == Some(openedAt)
    requires item.env.startedAt - openedAt < c.recoveryTimeout
    requires !Handled(c, maxRetries, s, item.popped, item.env).1.stopped
    ensures var (after, e) := Handled(c, maxRetries, s, item.popped, item.env);
            && after.breaker == s.breaker && after.triage == s.triage
            && (e.how in PARKED || item.popped.NotAnObject? || !(item.env.faults.Keys <= {Pushing}))
  {
    hide Cleaned, WithParkTime;
  }

  /** While the breaker is open, the recovery time is not up and the worker is not
      stopped, no job reaches `triage_queue` and no push is even tried: every job
      is parked unless it is no object or Redis fails, and the breaker does not
      move. */
  lemma {:induction false} OpenBreakerParks(c: Config, maxRetries: int, items: seq<Item>, more: seq<Item>,
                                            openedAt: real, from: real)
    requires c.failureThreshold >= 1
    requires Run(c, maxRetries, items).breaker.openedAt == Some(openedAt)
    requires Within(more, from, openedAt + c.recoveryTimeout)
    requires forall k :: |items| <= k < |items + more| ==> !Endings(c, maxRetries, items + more)[k].stopped
    ensures Run(c, maxRetries, items + more).breaker == Run(c, maxRetries, items).breaker
    ensures Run(c, maxRetries, items + more).triage == Run(c, maxRetries, items).triage
    ensures forall k :: |items| <= k < |items + more| ==>
              var (item, e) := ((items + more)[k], Endings(c, maxRetries, items + more)[k]);
              e.how in PARKED || item.popped.NotAnObject? || !(item.env.faults.Keys <= {Pushing})
  {
    if more == [] {
      assert items + more == items;
    } else {
      var rest, last := more[..|more|-1], more[|more|-1];
      hide Handled, Run, Endings;
      assert items + more == (items + rest) + [last];
      RunStep(c, maxRetries, items + rest, last);
      assert Endings(c, maxRetries, items + more)[|items + rest|]
             == Handled(c, maxRetries, Run(c, maxRetries, items + rest), last.popped, last.env).1;
      forall k | |items| <= k < |items + rest| ensures !Endings(c, maxRetries, items + rest)[k].stopped {
        assert Endings(c, maxRetries, items + more)[k] == Endings(c, maxRetries, items + rest)[k];
      }
      OpenBreakerParks(c, maxRetries, items, rest, openedAt, from);
      BreakerCountsFailedPushes(c, maxRetries, items);
      assert last in more;
      OpenStep(c, maxRetries, Run(c, maxRetries, items + rest), last, openedAt);
      var all := items + more;
      assert all[..|all|-1] == items + rest && all[|all|-1] == last;
      forall k | |items| <= k < |all|
        ensures Endings(c, maxRetries, all)[k].how in PARKED || all[k].popped.NotAnObject? ||
                !(all[k].env.faults.Keys <= {Pushing})
      {
        if k < |all| - 1 {
          assert all[k] == (items + rest)[k];
        }
      }
    }
  }

  lemma {:induction false} CountWithin(es: seq<Ending>, what: set<Outcome>, more: set<Outcome>)
    requires what <= more
    ensures Count(es, what) <= Count(es, more)
  {
    if es != [] {
      CountWithin(es[..|es|-1], what, more);
    }
  }

  lemma LossStep(c: Config, maxRetries: int, s: Queues, item: Item, from: real)
    requires c.failureThreshold >= 1
    requires !s.breaker.halfOpen && s.breaker.failures <= c.failureThreshold
    requires s.breaker.openedAt.Some? <==> s.breaker.failures >= c.failureThreshold
    requires s.breaker.openedAt.Some? ==> s.breaker.openedAt.value >= from
    requires Within([item], from, from + c.recoveryTimeout)
    requires Handled(c, maxRetries, s, item.popped, item.env).1.how !in WORKED
    ensures var (after, e) := Handled(c, maxRetries, s, item.popped, item.env);
            && after.breaker.failures == s.breaker.failures + (if e.how in RAISED then 1 else 0) <= c.failureThreshold
            && (after.breaker.openedAt.Some? ==> after.breaker.openedAt.value >= from)
  {
    hide Cleaned, WithParkTime;
    assert item in [item];
  }

  /** From a breaker that has not opened, pushes that raise can lose at most
      `threshold` jobs within one recovery time of each other, until a push works
      or the worker is replaced: the breaker then refuses the rest. */
  lemma {:induction false} LossIsBounded(c: Config, maxRetries: int, items: seq<Item>, more: seq<Item>, from: real)
    requires c.failureThreshold >= 1
    requires Run(c, maxRetries, items).breaker.failures < c.failureThreshold
    requires Within(more, from, from + c.recoveryTimeout)
    requires forall k :: |items| <= k < |items + more| ==>
              var e := Endings(c, maxRetries, items + more)[k]; e.how !in WORKED && !e.stopped
    ensures var b := Run(c, maxRetries, items + more).breaker;
            && b.failures <= c.failureThreshold
            && (b.openedAt.Some? ==> b.openedAt.value >= from)
            && Count(Endings(c, maxRetries, items + more)[|items|..], {LostPush})
               <= Count(Endings(c, maxRetries, items + more)[|items|..], RAISED)
               == b.failures - Run(c, maxRetries, items).breaker.failures
  {
    CountWithin(Endings(c, maxRetries, items + more)[|items|..], {LostPush}, RAISED);
    if more == [] {
      BreakerCountsFailedPushes(c, maxRetries, items);
      assert items + more == items;
    } else {
      hide Handled, Run, Endings, Count;
      var rest, last := more[..|more|-1], more[|more|-1];
      assert items + more == (items + rest) + [last];
      RunStep(c, maxRetries, items + rest, last);
      var s := Run(c, maxRetries, items + rest);
      var e := Handled(c, maxRetries, s, last.popped, last.env).1;
      var before := Endings(c, maxRetries, items + rest)[|items|..];
      var after := Endings(c, maxRetries, items + more)[|items|..];
      assert after == before + [e];
      CountAppend(before, e, RAISED);
      assert last in more;
      assert Endings(c, maxRetries, items + more)[|items + rest|] == e;
      forall k | |items| <= k < |items + rest|
        ensures var e := Endings(c, maxRetries, items + rest)[k]; e.how !in WORKED && !e.stopped
      {
        assert Endings(c, maxRetries, items + more)[k] == Endings(c, maxRetries, items + rest)[k];
      }
      LossIsBounded(c, maxRetries, items, rest, from);
      BreakerCountsFailedPushes(c, maxRetries, items + rest);
      LossStep(c, maxRetries, s, last, from);
    }
  }

  // ---- What it does not protect ------------------------------------------

  /** The time of job k of a run whose jobs are one recovery time apart. */
  function DoomedTime(c: Config, k: nat): real {
    if k == 0 then 0.0 else DoomedTime(c, k - 1) + c.recoveryTimeout
  }

  function DoomedItem(c: Config, keys: nat -> string, k: nat): Item {
    var at := DoomedTime(c, k);
    Item(Object(map["alert_id" := Json(true, keys(k))]), Env(at, at, INVALID_JSON, map[Pushing := Fault(false, false)]))
  }

  /** n jobs, each naming its own alert, none of which can be pushed. */
  function DoomedRun(c: Config, keys: nat -> string, n: nat): (items: seq<Item>)
    ensures |items| == n
  {
    if n == 0 then [] else DoomedRun(c, keys, n - 1) + [DoomedItem(c, keys, n - 1)]
  }

  lemma DoomedStep(c: Config, maxRetries: int, keys: nat -> string, s: Queues, n: nat)
    requires c.failureThreshold >= 1 && c.recoveryTimeout >= 0.0 && maxRetries >= 1
    requires keys(n) !in s.retries
    requires s.breaker.openedAt.Some? <==> s.breaker.failures >= c.failureThreshold
    requires s.breaker.openedAt.Some? ==> n >= 1 && s.breaker.openedAt.value <= DoomedTime(c, n - 1)
    ensures var item := DoomedItem(c, keys, n);
            var (after, e) := Handled(c, maxRetries, s, item.popped, item.env);
            && e == Ending(LostPush, false)
            && after.triage == s.triage && after.parked == s.parked
            && after.retries == s.retries[keys(n) := 1]
            && (after.breaker.openedAt.Some? ==> after.breaker.openedAt.value <= DoomedTime(c, n))
  {
  }

  ghost predicate AllDiffer(keys: nat -> string) {
    forall i: nat, j: nat :: i != j ==> keys(i) != keys(j)
  }

  /** No job from the n-th on has a retry counter. */
  ghost predicate Untried(keys: nat -> string, retries: map<string, nat>, n: nat) {
    forall i: nat :: i >= n ==> keys(i) !in retries
  }

  lemma StillUntried(keys: nat -> string, retries: map<string, nat>, n: nat)
    requires AllDiffer(keys)
    requires Untried(keys, retries, n)
    ensures Untried(keys, retries[keys(n) := 1], n + 1) && keys(n) !in retries
  {
    forall i: nat | i >= n + 1 ensures keys(i) !in retries[keys(n) := 1] {
      assert keys(i) != keys(n);
    }
  }

  /** Nothing is queued or parked, the breaker has not opened after job n - 1, and
      the later jobs have no retry counter. */
  ghost predicate AllGone(c: Config, keys: nat -> string, s: Queues, n: nat) {
    && s.triage == [] && s.parked == []
    && (s.breaker.openedAt.Some? ==> n >= 1 && s.breaker.openedAt.value <= DoomedTime(c, n - 1))
    && Untried(keys, s.retries, n)
  }

  ghost predicate AllLost(es: seq<Ending>) {
    forall k :: 0 <= k < |es| ==> es[k].how == LostPush
  }

  lemma OneMoreLost(es: seq<Ending>, e: Ending)
    requires AllLost(es) && e.how == LostPush
    ensures AllLost(es + [e])
  {
  }

  lemma {:induction false} DoomedAppend(c: Config, maxRetries: int, keys: nat -> string, items: seq<Item>, n: nat)
    requires c.failureThreshold >= 1 && c.recoveryTimeout >= 0.0 && maxRetries >= 1 && AllDiffer(keys)
    requires AllLost(Endings(c, maxRetries, items)) && AllGone(c, keys, Run(c, maxRetries, items), n)
    ensures AllLost(Endings(c, maxRetries, items + [DoomedItem(c, keys, n)]))
    ensures AllGone(c, keys, Run(c, maxRetries, items + [DoomedItem(c, keys, n)]), n + 1)
  {
    hide Run, Endings, Handled, DoomedItem, DoomedTime, Untried, AllDiffer, AllLost;
    var s := Run(c, maxRetries, items);
    BreakerCountsFailedPushes(c, maxRetries, items);
    StillUntried(keys, s.retries, n);
    DoomedStep(c, maxRetries, keys, s, n);
    RunStep(c, maxRetries, items, DoomedItem(c, keys, n));
    OneMoreLost(Endings(c, maxRetries, items), Ending(LostPush, false));
  }

  /** Because a failed probe does not restart the recovery time, the breaker
      stops protecting once that time has passed: there are runs of any length,
      over distinct alerts, in which every single job is lost. */
  lemma {:induction false} LossIsUnboundedAfterRecovery(c: Config, maxRetries: int, keys: nat -> string, n: nat)
    requires c.failureThreshold >= 1 && c.recoveryTimeout >= 0.0 && maxRetries >= 1 && AllDiffer(keys)
    ensures AllLost(Endings(c, maxRetries, DoomedRun(c, keys, n)))
    ensures AllGone(c, keys, Run(c, maxRetries, DoomedRun(c, keys, n)), n)
  {
    hide AllLost, AllGone, AllDiffer, Run, Endings, DoomedItem;
    if n > 0 {
      LossIsUnboundedAfterRecovery(c, maxRetries, keys, n - 1);
      DoomedAppend(c, maxRetries, keys, DoomedRun(c, keys, n - 1), n - 1);
    } else {
      NothingLostYet(c, maxRetries, keys);
    }
  }

  lemma NothingLostYet(c: Config, maxRetries: int, keys: nat -> string)
    ensures AllLost(Endings(c, maxRetries, [])) && AllGone(c, keys, Run(c, maxRetries, []), 0)
  {
  }
}

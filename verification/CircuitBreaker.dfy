/** The asyncio circuit breaker.

    The breaker's lock is held only around its two bookkeeping sections, never
    across the protected call, so calls interleave freely.  Each section runs
    without an await and is therefore one atomic step: a call is a Start step
    followed, while other calls take their own steps, by a Succeed, Fail or
    Cancel step.  Clock readings are event fields. */
module CircuitBreakers {
  import opened Wrappers

  datatype Config = Config(failureThreshold: int, recoveryTimeout: real)

  datatype BreakerState = BreakerState(failures: nat, openedAt: Option<real>, halfOpen: bool)

  const FRESH := BreakerState(0, None, false)

  // ---- The three critical sections -------------------------------------

  /** The state check: the new state, and whether the call may proceed. */
  function CheckState(c: Config, s: BreakerState, now: real): (BreakerState, bool) {
    if s.failures < c.failureThreshold then (s, true)
    else if s.openedAt.None? then (s.(openedAt := Some(now)), false)
    else if now - s.openedAt.value < c.recoveryTimeout then (s, false)
    else (s.(halfOpen := true), true)
  }

  /** The whole section that opens a call: the check, then clearing `half_open`. */
  function Admit(c: Config, s: BreakerState, now: real): (BreakerState, bool) {
    var (checked, ok) := CheckState(c, s, now);
    if ok && checked.halfOpen then (checked.(halfOpen := false), ok) else (checked, ok)
  }

  function RegisterFailure(c: Config, s: BreakerState, now: real): BreakerState {
    var failures := s.failures + 1;
    if failures >= c.failureThreshold && s.openedAt.None?
    then BreakerState(failures, Some(now), s.halfOpen)
    else BreakerState(failures, s.openedAt, s.halfOpen)
  }

  /** The result of one protected call: refused, or run and returned or raised. */
  datatype CallResult = Refused | Returned | Raised

  class CircuitBreaker {
    const config: Config
    var failures: nat
    var openedAt: Option<real>
    var halfOpen: bool

    function View(): BreakerState
      reads this
    {
      BreakerState(failures, openedAt, halfOpen)
    }

    constructor (failureThreshold: int, recoveryTimeout: real)
      ensures config == Config(failureThreshold, recoveryTimeout)
      ensures View() == FRESH
    {
      config := Config(failureThreshold, recoveryTimeout);
      failures, openedAt, halfOpen := 0, None, false;
    }

    method Check(now: real) returns (ok: bool)
      modifies this
      ensures (View(), ok) == CheckState(config, old(View()), now)
    {
      if failures < config.failureThreshold {
        return true;
      }
      if openedAt.None? {
        openedAt := Some(now);
        return false;
      }
      if now - openedAt.value < config.recoveryTimeout {
        return false;
      }
      halfOpen := true;
      return true;
    }

    method Begin(now: real) returns (ok: bool)
      modifies this
      ensures (View(), ok) == Admit(config, old(View()), now)
    {
      ok := Check(now);
      if ok && halfOpen {
        halfOpen := false;
      }
    }

    method Fail(now: real)
      modifies this
      ensures View() == RegisterFailure(config, old(View()), now)
    {
      failures := failures + 1;
      if failures >= config.failureThreshold && openedAt.None? {
        openedAt := Some(now);
      }
    }

    method Succeed()
      modifies this
      ensures View() == FRESH
    {
      failures, openedAt, halfOpen := 0, None, false;
    }

    /** One call that no other call interrupts.  `works` is what the protected
        function does if it is reached. */
    method Call(startedAt: real, endedAt: real, works: bool) returns (r: CallResult)
      modifies this
      ensures var (started, ok) := Admit(config, old(View()), startedAt);
              && (r == Refused <==> !ok) && (r == Returned <==> ok && works) && (r == Raised <==> ok && !works)
              && View() ==
                 match r
                 case Refused => started
                 case Returned => FRESH
                 case Raised => RegisterFailure(config, started, endedAt)
    {
      var ok := Begin(startedAt);
      if !ok {
        return Refused;
      }
      if works {
        Succeed();
        return Returned;
      }
      Fail(endedAt);
      return Raised;
    }
  }

  // ---- Interleaved calls ------------------------------------------------

  datatype Event =
    | Start(id: nat, now: real)
    | Succeed(id: nat)
    | Fail(id: nat, now: real)
    | Cancel(id: nat)

  datatype System = System(breaker: BreakerState, inFlight: set<nat>)

  const IDLE := System(FRESH, {})

  predicate Enabled(sys: System, e: Event) {
    if e.Start? then e.id !in sys.inFlight else e.id in sys.inFlight
  }

  function Step(c: Config, sys: System, e: Event): System
    requires Enabled(sys, e)
  {
    match e
    case Start(id, now) =>
      var (s, ok) := Admit(c, sys.breaker, now);
      System(s, if ok then sys.inFlight + {id} else sys.inFlight)
    case Succeed(id) => System(FRESH, sys.inFlight - {id})
    case Fail(id, now) => System(RegisterFailure(c, sys.breaker, now), sys.inFlight - {id})
    case Cancel(id) => System(sys.breaker, sys.inFlight - {id})
  }

  /** The trace is one the scheduler can produce from a new breaker. */
  ghost predicate Possible(c: Config, trace: seq<Event>)
    decreases |trace|, 0
  {
    trace == [] ||
    (Possible(c, trace[..|trace|-1]) && Enabled(After(c, trace[..|trace|-1]), trace[|trace|-1]))
  }

  ghost function After(c: Config, trace: seq<Event>): System
    requires Possible(c, trace)
    decreases |trace|, 1
  {
    if trace == [] then IDLE
    else Step(c, After(c, trace[..|trace|-1]), trace[|trace|-1])
  }

  /** The last event of a call is a start that was admitted. */
  ghost predicate StillRunning(c: Config, trace: seq<Event>, id: nat) {
    exists k :: 0 <= k < |trace| && Admitted(c, trace, k) && trace[k].id == id &&
                forall j :: k < j < |trace| ==> trace[j].id != id
  }

  ghost predicate Admitted(c: Config, trace: seq<Event>, k: nat)
    requires k < |trace|
  {
    trace[k].Start? && Possible(c, trace[..k]) && Admit(c, After(c, trace[..k]).breaker, trace[k].now).1
  }

  lemma RunningAppend(c: Config, rest: seq<Event>, e: Event, id: nat)
    ensures var t := rest + [e];
            StillRunning(c, t, id) <==> if e.id == id then Admitted(c, t, |rest|) else StillRunning(c, rest, id)
  {
    hide Admitted;
    var t := rest + [e];
    assert t[|rest|] == e && forall j :: 0 <= j < |rest| ==> t[j] == rest[j];
    forall k | 0 <= k < |rest| ensures Admitted(c, t, k) <==> Admitted(c, rest, k) {
      AdmittedBefore(c, rest, e, k);
    }
    if StillRunning(c, rest, id) && e.id != id {
      var k :| 0 <= k < |rest| && Admitted(c, rest, k) && rest[k].id == id &&
               forall j :: k < j < |rest| ==> rest[j].id != id;
      assert Admitted(c, t, k);
    }
  }

  lemma {:induction false} AdmittedBefore(c: Config, rest: seq<Event>, e: Event, k: nat)
    requires k < |rest|
    ensures Admitted(c, rest + [e], k) <==> Admitted(c, rest, k)
  {
    assert (rest + [e])[..k] == rest[..k];
  }

  /** The calls in flight are those that the trace admitted and has not ended. */
  lemma {:induction false} InFlightIsTheTrace(c: Config, trace: seq<Event>, id: nat)
    requires Possible(c, trace)
    ensures id in After(c, trace).inFlight <==> StillRunning(c, trace, id)
  {
    if trace != [] {
      hide Admit, RegisterFailure, StillRunning;
      var (rest, e) := (trace[..|trace|-1], trace[|trace|-1]);
      assert trace == rest + [e] && trace[..|rest|] == rest;
      InFlightIsTheTrace(c, rest, id);
      RunningAppend(c, rest, e, id);
    }
  }

  /** Which event can come next: a call starts if it is not running, and ends, in any
      way, if it is. */
  lemma NextEvents(c: Config, trace: seq<Event>, e: Event)
    requires Possible(c, trace)
    ensures Possible(c, trace + [e]) <==> (e.Start? <==> !StillRunning(c, trace, e.id))
  {
    hide StillRunning, Step;
    InFlightIsTheTrace(c, trace, e.id);
    assert (trace + [e])[..|trace|] == trace;
  }

  // ---- What the trace alone says ----------------------------------------

  /** Failing completions since the last successful one. */
  function FailuresSince(trace: seq<Event>): nat {
    if trace == [] then 0
    else
      var rest := trace[..|trace|-1];
      match trace[|trace|-1]
      case Succeed(_) => 0
      case Fail(_, _) => FailuresSince(rest) + 1
      case _ => FailuresSince(rest)
  }

  /** Event k is the failure that reached the threshold, and no call has
      succeeded since. */
  ghost predicate Crosses(c: Config, trace: seq<Event>, k: nat) {
    && k < |trace|
    && trace[k].Fail?
    && FailuresSince(trace[..k+1]) == c.failureThreshold
    && forall j :: k < j < |trace| ==> !trace[j].Succeed?
  }

  ghost predicate OpenSince(c: Config, trace: seq<Event>, at: real) {
    exists k: nat :: Crosses(c, trace, k) && trace[k].now == at
  }

  /** The breaker's fields are exactly what the trace says, in every reachable
      state and under every interleaving. */
  ghost predicate Explains(c: Config, trace: seq<Event>, s: BreakerState) {
    && s.failures == FailuresSince(trace)
    && !s.halfOpen
    && (s.openedAt.Some? <==> s.failures >= c.failureThreshold)
    && (forall at :: s.openedAt == Some(at) <==> OpenSince(c, trace, at))
  }

  lemma PrefixOfExtension(rest: seq<Event>, e: Event, k: nat)
    requires k <= |rest|
    ensures (rest + [e])[..k] == rest[..k]
  {
  }

  lemma FailuresSinceFail(rest: seq<Event>, e: Event)
    requires e.Fail?
    ensures FailuresSince(rest + [e]) == FailuresSince(rest) + 1
  {
    assert (rest + [e])[..|rest|] == rest;
  }

  /** Extending a trace by an event that is not a success keeps the crossing
      failure, and adds one only if the event is itself the crossing failure. */
  lemma CrossesExtends(c: Config, rest: seq<Event>, e: Event, k: nat)
    ensures Crosses(c, rest + [e], k) <==>
              if k == |rest|
              then e.Fail? && FailuresSince(rest) + 1 == c.failureThreshold
              else Crosses(c, rest, k) && !e.Succeed?
  {
    if k == |rest| {
      CrossesAtTheEnd(c, rest, e);
    } else if k < |rest| {
      CrossesBefore(c, rest, e, k);
    }
  }

  lemma {:induction false} CrossesAtTheEnd(c: Config, rest: seq<Event>, e: Event)
    ensures Crosses(c, rest + [e], |rest|) <==> e.Fail? && FailuresSince(rest) + 1 == c.failureThreshold
  {
    hide FailuresSince;
    var t := rest + [e];
    assert t[|rest|] == e && t[..|rest|+1] == t;
    if e.Fail? {
      FailuresSinceFail(rest, e);
    }
  }

  lemma {:induction false} CrossesBefore(c: Config, rest: seq<Event>, e: Event, k: nat)
    requires k < |rest|
    ensures Crosses(c, rest + [e], k) <==> Crosses(c, rest, k) && !e.Succeed?
  {
    hide FailuresSince;
    var t := rest + [e];
    PrefixOfExtension(rest, e, k + 1);
    assert t[|rest|] == e;
    assert forall j :: 0 <= j < |rest| ==> rest[j] == t[j];
  }

  lemma OpenSinceExtends(c: Config, rest: seq<Event>, e: Event, at: real)
    ensures OpenSince(c, rest + [e], at) <==>
              (e.Fail? && e.now == at && FailuresSince(rest) + 1 == c.failureThreshold)
              || (!e.Succeed? && OpenSince(c, rest, at))
  {
    var t := rest + [e];
    if OpenSince(c, t, at) {
      var k: nat :| Crosses(c, t, k) && t[k].now == at;
      CrossesExtends(c, rest, e, k);
      if k < |rest| { assert rest[k] == t[k]; }
    }
    if e.Fail? && e.now == at && FailuresSince(rest) + 1 == c.failureThreshold {
      CrossesExtends(c, rest, e, |rest|);
      assert t[|rest|] == e;
      assert Crosses(c, t, |rest|);
    }
    if !e.Succeed? && OpenSince(c, rest, at) {
      var k: nat :| Crosses(c, rest, k) && rest[k].now == at;
      CrossesExtends(c, rest, e, k);
      assert t[k] == rest[k];
    }
  }

  /** Main result: the three fields at any lock-free moment of any run. */
  lemma {:induction false} StateIsTheTrace(c: Config, trace: seq<Event>)
    requires c.failureThreshold >= 1
    requires Possible(c, trace)
    ensures Explains(c, trace, After(c, trace).breaker)
  {
    if trace == [] {
    } else {
      var rest, e := trace[..|trace|-1], trace[|trace|-1];
      assert trace == rest + [e];
      StateIsTheTrace(c, rest);
      forall at ensures After(c, trace).breaker.openedAt == Some(at) <==> OpenSince(c, trace, at) {
        OpenSinceExtends(c, rest, e, at);
        if e.Fail? {
          OpenSinceExtends(c, rest, e, e.now);
        }
      }
    }
  }

  /** Exactly which calls are admitted after a run: all while fewer failures
      than the threshold have been seen since the last success, and after that
      only once the recovery time has passed since the crossing failure.
      Failed probes play no part: they never restart the recovery time. */
  lemma AdmissionIsExact(c: Config, trace: seq<Event>, now: real)
    requires c.failureThreshold >= 1
    requires Possible(c, trace)
    ensures Admit(c, After(c, trace).breaker, now).1 <==>
              FailuresSince(trace) < c.failureThreshold
              || exists at :: OpenSince(c, trace, at) && now - at >= c.recoveryTimeout
  {
    StateIsTheTrace(c, trace);
    var s := After(c, trace).breaker;
    if s.openedAt.Some? {
      assert OpenSince(c, trace, s.openedAt.value);
    }
    forall at | OpenSince(c, trace, at) ensures s.openedAt == Some(at) {
    }
  }

  /** While the breaker is open, a call that starts before the recovery time is
      up is refused and changes nothing, whatever ran in between. */
  lemma NoAdmissionWhileOpen(c: Config, trace: seq<Event>, k: nat, id: nat, now: real)
    requires c.failureThreshold >= 1
    requires Possible(c, trace + [Start(id, now)])
    requires Crosses(c, trace, k) && now - trace[k].now < c.recoveryTimeout
    ensures Possible(c, trace)
    ensures After(c, trace + [Start(id, now)]) == After(c, trace)
  {
    var t := trace + [Start(id, now)];
    assert t[..|t|-1] == trace && t[|t|-1] == Start(id, now);
    StateIsTheTrace(c, trace);
    assert OpenSince(c, trace, trace[k].now);
  }

  /** A failed probe leaves the breaker open to further calls: once one call has
      been admitted after the recovery time, so is every later one until a call
      succeeds, however many of them fail. */
  lemma {:induction false} FailedProbeDoesNotReopen(c: Config, trace: seq<Event>, more: seq<Event>, k: nat, now: real)
    requires c.failureThreshold >= 1
    requires Possible(c, trace + more)
    requires Crosses(c, trace, k) && now - trace[k].now >= c.recoveryTimeout
    requires forall e <- more :: !e.Succeed?
    ensures Admit(c, After(c, trace + more).breaker, now).1
  {
    CrossingSurvives(c, trace, more, k);
    AdmissionIsExact(c, trace + more, now);
    assert (trace + more)[k] == trace[k];
    assert OpenSince(c, trace + more, trace[k].now);
  }

  lemma {:induction false} CrossingSurvives(c: Config, trace: seq<Event>, more: seq<Event>, k: nat)
    requires Crosses(c, trace, k)
    requires forall e <- more :: !e.Succeed?
    ensures Crosses(c, trace + more, k)
  {
    if more == [] {
      assert trace + more == trace;
    } else {
      var rest, e := more[..|more|-1], more[|more|-1];
      forall x | x in rest ensures !x.Succeed? { assert x in more; }
      CrossingSurvives(c, trace, rest, k);
      CrossesExtends(c, trace + rest, e, k);
      assert trace + more == (trace + rest) + [e];
    }
  }

  /** Some run reaches the branch that opens the breaker from inside the check:
      failures at the threshold, but no opening time. */
  ghost predicate OpensInCheck(c: Config, trace: seq<Event>) {
    Possible(c, trace) &&
    var s := After(c, trace).breaker; s.failures >= c.failureThreshold && s.openedAt.None?
  }

  /** That branch is dead exactly when the threshold is positive. */
  lemma OpeningInCheckIsDead(c: Config)
    ensures (exists trace :: OpensInCheck(c, trace)) <==> c.failureThreshold <= 0
  {
    if c.failureThreshold <= 0 {
      var none: seq<Event> := [];
      assert OpensInCheck(c, none);
    } else {
      forall trace ensures !OpensInCheck(c, trace) {
        if Possible(c, trace) {
          StateIsTheTrace(c, trace);
        }
      }
    }
  }
}

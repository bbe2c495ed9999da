// belmont-browse/tools/patch-daemon-lifecycle.py: the drainable lifecycle shim, one named lifecycle.
//
// A tracked operation is a promise under its own id. Every await or `.then` of the shim is a step of
// its own, taken in any order the adversary likes; a call of `start` is two steps, because the
// start operation runs synchronously in between and may call back into the lifecycle.

module Lifecycle {
  import opened Common

  datatype Phase = Idle | Starting | Running | StartFailed | Stopping | Stopped | StopFailed

  /** Cancellation is the error whose code is BELMONT_LIFECYCLE_STOPPING. */
  datatype Reason = Cancellation | Failure(code: nat)

  datatype Settlement = Fulfilled | Rejected(reason: Reason)

  datatype StartRun = Calling | Awaiting(batch: set<nat>)

  datatype StopRun = Hook | Draining(batch: set<nat>) | Drained

  datatype StartReply = Refused | SharedStart(id: nat) | AlreadyRunning

  /** The promise in flight, or an outcome that is known: no failures means resolved. */
  datatype StopReply = SharedStop(id: nat) | Known(failures: seq<Reason>)

  /** The fields of the source's state object, and the promises and suspended continuations that
      belong to it. `work` are the operations admitted as anything but teardown; a start that no longer
      appears in `starts` has settled with the reasons in `startResults` (none: it resolved). */
  datatype State = State(
    phase: Phase,
    pending: set<nat>,
    failures: seq<Reason>,
    start: Option<nat>,
    stop: Option<nat>,
    stopFailure: seq<Reason>,
    settled: map<nat, Settlement>,
    work: set<nat>,
    starts: map<nat, StartRun>,
    startResults: map<nat, set<Reason>>,
    stopRun: Option<StopRun>,
    stopResults: map<nat, seq<Reason>>,
    lastStop: nat,
    nextId: nat)

  const Initial := State(Idle, {}, [], None, None, [], map[], {}, map[], map[], None, map[], 0, 1)

  predicate Blocked(phase: Phase) {
    phase.StartFailed? || phase.Stopping? || phase.Stopped? || phase.StopFailed?
  }

  predicate Fails(settlement: Settlement) {
    settlement.Rejected? && settlement.reason.Failure?
  }

  /** `[...new Set(reasons)]` */
  function Distinct(reasons: seq<Reason>): seq<Reason> {
    if reasons == [] then []
    else
      var before := Distinct(reasons[..|reasons| - 1]);
      var last := reasons[|reasons| - 1];
      if last in before then before else before + [last]
  }

  function Track(s: State, teardown: bool): State {
    if !teardown && Blocked(s.phase) then s
    else s.(pending := s.pending + {s.nextId},
            work := if teardown then s.work else s.work + {s.nextId},
            nextId := s.nextId + 1)
  }

  function Settle(s: State, op: nat, settlement: Settlement): State {
    s.(pending := s.pending - {op},
       settled := s.settled[op := settlement],
       failures := if Fails(settlement) then s.failures + [settlement.reason] else s.failures)
  }

  function ReplyToStart(s: State): Option<StartReply> {
    if s.phase.Stopping? || s.phase.StartFailed? || s.phase.StopFailed? then Some(Refused)
    else if s.start.Some? then Some(SharedStart(s.start.value))
    else if s.phase.Running? then Some(AlreadyRunning)
    else None
  }

  function BeginStart(s: State): State {
    if ReplyToStart(s).Some? then s
    else s.(phase := Starting, start := Some(s.nextId), starts := s.starts[s.nextId := Calling], nextId := s.nextId + 1)
  }

  /** The start operation returned, or threw. */
  function ReturnStart(s: State, id: nat, thrown: Option<Reason>): State {
    match thrown
    case Some(reason) =>
      s.(phase := StartFailed, failures := s.failures + [reason],
         starts := s.starts - {id}, startResults := s.startResults[id := {reason}])
    case None => s.(starts := s.starts[id := Awaiting(s.pending)])
  }

  function Rejections(s: State, batch: set<nat>): set<Reason> {
    set op | op in batch && op in s.settled && s.settled[op].Rejected? :: s.settled[op].reason
  }

  /** Everything that was pending when the start operation returned has settled. */
  function FinishStart(s: State, id: nat): State
    requires id in s.starts && s.starts[id].Awaiting?
  {
    var rejected := Rejections(s, s.starts[id].batch);
    s.(phase := if s.phase != Starting then s.phase else if rejected != {} then StartFailed else Running,
       starts := s.starts - {id},
       startResults := s.startResults[id := rejected])
  }

  function ClearStart(s: State, id: nat): State {
    if s.start == Some(id) then s.(start := None) else s
  }

  function ReplyToStop(s: State): Option<StopReply> {
    if s.stop.Some? then Some(SharedStop(s.stop.value))
    else if s.phase.StopFailed? then Some(Known(s.stopFailure))
    else if s.phase.Stopped? then Some(Known([]))
    else None
  }

  function BeginStop(s: State): State {
    if ReplyToStop(s).Some? then s
    else s.(phase := Stopping, stop := Some(s.nextId), stopRun := Some(Hook), lastStop := s.nextId, nextId := s.nextId + 1)
  }

  /** The head of the drain loop. */
  function DrainCheck(s: State): State {
    s.(stopRun := Some(if s.pending == {} then Drained else Draining(s.pending)))
  }

  function FinishHook(s: State, thrown: Option<Reason>): State {
    DrainCheck(if thrown.Some? then s.(failures := s.failures + [thrown.value]) else s)
  }

  function FinishStop(s: State): State
    requires s.stop.Some?
  {
    var failures := Distinct(s.failures);
    var done := s.(failures := [], stop := None, stopRun := None,
                   stopResults := s.stopResults[s.stop.value := failures]);
    if failures != [] then done.(phase := StopFailed, stopFailure := failures)
    else if s.phase.Stopping? then done.(phase := Stopped)
    else done
  }

  // ----- the shim as an object -----

  class Registration {
    var phase: Phase
    var pending: set<nat>
    var failures: seq<Reason>
    var start: Option<nat>
    var stop: Option<nat>
    var stopFailure: seq<Reason>
    var settled: map<nat, Settlement>
    var work: set<nat>
    var starts: map<nat, StartRun>
    var startResults: map<nat, set<Reason>>
    var stopRun: Option<StopRun>
    var stopResults: map<nat, seq<Reason>>
    var lastStop: nat
    var nextId: nat

    function View(): State
      reads this
    {
      State(phase, pending, failures, start, stop, stopFailure, settled, work,
            starts, startResults, stopRun, stopResults, lastStop, nextId)
    }

    constructor ()
      ensures View() == Initial
    {
      phase, pending, failures, start, stop, stopFailure := Idle, {}, [], None, None, [];
      settled, work, starts, startResults := map[], {}, map[], map[];
      stopRun, stopResults, lastStop, nextId := None, map[], 0, 1;
    }

    /** None: the work was not admitted. */
    method TrackOperation(teardown: bool) returns (op: Option<nat>)
      modifies this
      ensures View() == Track(old(View()), teardown)
      ensures op == if !teardown && Blocked(old(phase)) then None else Some(old(nextId))
    {
      if !teardown && Blocked(phase) { return None; }
      op := Some(nextId);
      pending := pending + {nextId};
      if !teardown { work := work + {nextId}; }
      nextId := nextId + 1;
    }

    method SettleOperation(op: nat, settlement: Settlement)
      modifies this
      ensures View() == Settle(old(View()), op, settlement)
    {
      pending := pending - {op};
      settled := settled[op := settlement];
      match settlement {
        case Fulfilled =>
        case Rejected(reason) => if reason != Cancellation { failures := failures + [reason]; }
      }
    }

    /** None: the caller is to run the start operation now. */
    method CallStart() returns (reply: Option<StartReply>)
      modifies this
      ensures View() == BeginStart(old(View())) && reply == ReplyToStart(old(View()))
    {
      if phase.Stopping? || phase.StartFailed? || phase.StopFailed? { return Some(Refused); }
      if start.Some? { return Some(SharedStart(start.value)); }
      if phase.Running? { return Some(AlreadyRunning); }
      phase := Starting;
      start := Some(nextId);
      starts := starts[nextId := Calling];
      nextId := nextId + 1;
      return None;
    }

    method StartReturned(id: nat, thrown: Option<Reason>)
      modifies this
      ensures View() == ReturnStart(old(View()), id, thrown)
    {
      if thrown.Some? {
        phase := StartFailed;
        failures := failures + [thrown.value];
        startResults := startResults[id := {thrown.value}];
        starts := starts - {id};
        return;
      }
      starts := starts[id := Awaiting(pending)];
    }

    method StartSettled(id: nat)
      requires id in starts && starts[id].Awaiting?
      modifies this
      ensures View() == FinishStart(old(View()), id)
    {
      var rejected := Rejections(View(), starts[id].batch);
      starts := starts - {id};
      startResults := startResults[id := rejected];
      if rejected != {} {
        if phase.Starting? { phase := StartFailed; }
        return;
      }
      if phase.Starting? { phase := Running; }
    }

    method CleanupStart(id: nat)
      modifies this
      ensures View() == ClearStart(old(View()), id)
    {
      if start == Some(id) { start := None; }
    }

    /** None: this call owns the stop, and its hook runs now. */
    method CallStop() returns (reply: Option<StopReply>)
      modifies this
      ensures View() == BeginStop(old(View())) && reply == ReplyToStop(old(View()))
    {
      if stop.Some? { return Some(SharedStop(stop.value)); }
      if phase.StopFailed? { return Some(Known(stopFailure)); }
      if phase.Stopped? { return Some(Known([])); }
      phase := Stopping;
      stop := Some(nextId);
      stopRun := Some(Hook);
      lastStop := nextId;
      nextId := nextId + 1;
      return None;
    }

    method CheckDrain()
      modifies this`stopRun
      ensures View() == DrainCheck(old(View()))
    {
      if pending != {} { stopRun := Some(Draining(pending)); } else { stopRun := Some(Drained); }
    }

    method HookSettled(thrown: Option<Reason>)
      modifies this
      ensures View() == FinishHook(old(View()), thrown)
    {
      if thrown.Some? { failures := failures + [thrown.value]; }
      CheckDrain();
    }

    method StopDrained()
      requires stop.Some?
      modifies this
      ensures View() == FinishStop(old(View()))
    {
      var distinct := Distinct(failures);
      failures := [];
      if distinct != [] {
        phase := StopFailed;
        stopFailure := distinct;
      }
      if phase.Stopping? { phase := Stopped; }
      stopResults := stopResults[stop.value := distinct];
      stop, stopRun := None, None;
    }

    method Perform(e: Event)
      modifies this
      ensures View() == Step(old(View()), e)
    {
      hide Track, Settle, BeginStart, ReturnStart, FinishStart, ClearStart, BeginStop, FinishHook, DrainCheck, FinishStop;
      if !Enabled(View(), e) { return; }
      match e {
        case TrackEvent(teardown) => var _ := TrackOperation(teardown);
        case SettleEvent(op, settlement) => SettleOperation(op, settlement);
        case StartEvent => var _ := CallStart();
        case StartReturnedEvent(id, thrown) => StartReturned(id, thrown);
        case StartSettledEvent(id) => StartSettled(id);
        case CleanupEvent(id) => CleanupStart(id);
        case StopEvent => var _ := CallStop();
        case HookSettledEvent(thrown) => HookSettled(thrown);
        case DrainWakesEvent => CheckDrain();
        case StopDrainedEvent => StopDrained();
      }
    }
  }

  // ----- runs -----

  datatype Event =
    | TrackEvent(teardown: bool)
    | SettleEvent(op: nat, settlement: Settlement)
    | StartEvent
    | StartReturnedEvent(id: nat, thrown: Option<Reason>)
    | StartSettledEvent(id: nat)
    | CleanupEvent(id: nat)
    | StopEvent
    | HookSettledEvent(thrown: Option<Reason>)
    | DrainWakesEvent
    | StopDrainedEvent

  /** A start operation is on the call stack: no continuation can run, only calls. */
  predicate Busy(s: State) {
    exists id | id in s.starts :: s.starts[id].Calling?
  }

  predicate Enabled(s: State, e: Event) {
    match e
    case TrackEvent(_) => true
    case StartEvent => true
    case StopEvent => true
    case StartReturnedEvent(id, _) => id in s.starts && s.starts[id].Calling?
    case SettleEvent(op, _) => !Busy(s) && op in s.pending
    case StartSettledEvent(id) => !Busy(s) && id in s.starts && s.starts[id].Awaiting? && s.starts[id].batch !! s.pending
    case CleanupEvent(id) => !Busy(s) && id in s.startResults
    case HookSettledEvent(_) => !Busy(s) && s.stopRun == Some(Hook)
    case DrainWakesEvent => !Busy(s) && s.stopRun.Some? && s.stopRun.value.Draining? && s.stopRun.value.batch !! s.pending
    case StopDrainedEvent => !Busy(s) && s.stopRun == Some(Drained) && s.stop.Some?
  }

  function Step(s: State, e: Event): State {
    if !Enabled(s, e) then s
    else
      match e
      case TrackEvent(teardown) => Track(s, teardown)
      case SettleEvent(op, settlement) => Settle(s, op, settlement)
      case StartEvent => BeginStart(s)
      case StartReturnedEvent(id, thrown) => ReturnStart(s, id, thrown)
      case StartSettledEvent(id) => FinishStart(s, id)
      case CleanupEvent(id) => ClearStart(s, id)
      case StopEvent => BeginStop(s)
      case HookSettledEvent(thrown) => FinishHook(s, thrown)
      case DrainWakesEvent => DrainCheck(s)
      case StopDrainedEvent => FinishStop(s)
  }

  function Run(s: State, events: seq<Event>): State
    decreases |events|
  {
    if events == [] then s else Run(Step(s, events[0]), events[1..])
  }

  lemma {:induction false} RunOneMore(s: State, events: seq<Event>, i: nat)
    requires i < |events|
    ensures Run(s, events[..i + 1]) == Step(Run(s, events[..i]), events[i])
    decreases |events|
  {
    hide Step;
    if i == 0 {
      assert events[..1] == [events[0]] && events[..1][1..] == [] && events[..0] == [];
    } else {
      assert events[..i + 1][1..] == events[1..][..i] && events[..i][1..] == events[1..][..i - 1];
      RunOneMore(Step(s, events[0]), events[1..], i - 1);
    }
  }

  /** A registration that gets these events is in the state the theorems about runs speak of. */
  method Replay(events: seq<Event>) returns (registration: Registration)
    ensures fresh(registration) && registration.View() == Run(Initial, events)
  {
    hide Step;
    registration := new Registration();
    assert events[..0] == [];
    for i := 0 to |events|
      invariant fresh(registration) && registration.View() == Run(Initial, events[..i])
    {
      registration.Perform(events[i]);
      RunOneMore(Initial, events, i);
    }
    assert events[..|events|] == events;
  }

  /** An operation's id is handed out once; the operation is pending or settled. */
  predicate OperationsHold(s: State) {
    && (forall op | op in s.pending :: op < s.nextId && op !in s.settled)
    && (forall op | op in s.settled :: op < s.nextId)
    && (forall op | op in s.work :: op in s.pending || op in s.settled)
  }

  predicate StartsHold(s: State) {
    && (forall id | id in s.starts :: id < s.nextId && id !in s.startResults)
    && (forall id | id in s.startResults :: id < s.nextId)
  }

  predicate StopsHold(s: State) {
    && (forall id | id in s.stopResults :: id < s.nextId)
    && s.lastStop < s.nextId
    && (s.stop.Some? ==> s.stop.value == s.lastStop && s.stop.value !in s.stopResults)
  }

  predicate PhaseHolds(s: State) {
    && (s.stop.Some? <==> s.stopRun.Some?)
    && (s.stop.Some? ==> s.phase.Stopping? || (s.phase.StartFailed? && s.failures != []))
    && (s.phase.Stopping? ==> s.stop.Some?)
    // Only one start is in flight, and it may still move the phase only if no stop came after it.
    && (forall id | id in s.starts :: s.start == Some(id))
    && (s.phase.Starting? ==> s.start.Some? && s.start.value in s.starts && s.lastStop < s.start.value)
    && (Busy(s) ==> s.phase.Starting? || s.phase.Stopping?)
    // Once a drain has seen nothing pending, only teardown can be pending until the next start.
    && (s.stopRun == Some(Drained) || s.phase.Stopped? ==> s.pending !! s.work)
  }

  /** A failure is kept until a stop reports it, and a stop that reports one is the last. */
  predicate FailuresKept(s: State) {
    s.phase.StopFailed? ||
    forall op | op in s.settled :: Fails(s.settled[op]) ==> s.settled[op].reason in s.failures
  }

  predicate Inv(s: State) {
    OperationsHold(s) && StartsHold(s) && StopsHold(s) && PhaseHolds(s) && FailuresKept(s)
  }

  lemma {:induction false} DistinctMeaning(reasons: seq<Reason>)
    ensures forall r :: r in Distinct(reasons) <==> r in reasons
    ensures Distinct(reasons) == [] <==> reasons == []
    ensures forall i, j :: 0 <= i < j < |Distinct(reasons)| ==> Distinct(reasons)[i] != Distinct(reasons)[j]
  {
    if reasons != [] {
      DistinctMeaning(reasons[..|reasons| - 1]);
      assert reasons == reasons[..|reasons| - 1] + [reasons[|reasons| - 1]];
    }
  }

  lemma StepKeepsOperations(s: State, e: Event)
    requires Inv(s)
    ensures OperationsHold(Step(s, e))
  {
    hide StartsHold, StopsHold, PhaseHolds, FailuresKept, Busy, Distinct, Rejections;
  }

  lemma StepKeepsStarts(s: State, e: Event)
    requires Inv(s)
    ensures StartsHold(Step(s, e))
  {
    hide OperationsHold, StopsHold, PhaseHolds, FailuresKept, Busy, Distinct, Rejections;
  }

  lemma StepKeepsStops(s: State, e: Event)
    requires Inv(s)
    ensures StopsHold(Step(s, e))
  {
    hide OperationsHold, StartsHold, FailuresKept, Busy, Distinct, Rejections;
  }

  lemma StepMovesOn(s: State, e: Event)
    requires Inv(s)
    ensures Step(s, e).nextId >= s.nextId && Step(s, e).lastStop >= s.lastStop
  {
    hide OperationsHold, StartsHold, PhaseHolds, FailuresKept;
  }

  lemma StepSettlesOnce(s: State, e: Event)
    requires Inv(s)
    ensures s.settled.Keys <= Step(s, e).settled.Keys
    ensures forall op :: op in s.settled ==> Step(s, e).settled[op] == s.settled[op]
    ensures s.pending <= Step(s, e).pending + Step(s, e).settled.Keys
  {
    hide StartsHold, StopsHold, PhaseHolds, FailuresKept;
  }

  lemma StepKeepsPhase(s: State, e: Event)
    requires Inv(s)
    ensures PhaseHolds(Step(s, e))
  {
    if e.StopDrainedEvent? && Enabled(s, e) {
      DistinctMeaning(s.failures);
      if s.failures != [] { assert s.failures[0] in Distinct(s.failures); }
    }
  }

  lemma StepKeepsFailures(s: State, e: Event)
    requires Inv(s)
    ensures FailuresKept(Step(s, e))
    ensures s.phase.StopFailed? ==> Step(s, e).phase.StopFailed? && Step(s, e).stopFailure == s.stopFailure
  {
    if e.StopDrainedEvent? && Enabled(s, e) { DistinctMeaning(s.failures); }
  }

  lemma StepKeepsInv(s: State, e: Event)
    requires Inv(s)
    ensures Inv(Step(s, e))
  {
    StepKeepsOperations(s, e);
    StepKeepsStarts(s, e);
    StepKeepsStops(s, e);
    StepKeepsPhase(s, e);
    StepKeepsFailures(s, e);
  }

  lemma {:induction false} RunKeepsInv(s: State, events: seq<Event>)
    requires Inv(s)
    ensures Inv(Run(s, events))
    ensures Run(s, events).lastStop >= s.lastStop && Run(s, events).nextId >= s.nextId
    decreases |events|
  {
    if events != [] {
      StepKeepsInv(s, events[0]);
      StepMovesOn(s, events[0]);
      RunKeepsInv(Step(s, events[0]), events[1..]);
    }
  }

  // ----- no work is admitted after a stop -----

  lemma BlockedStep(s: State, e: Event)
    requires Inv(s) && Blocked(s.phase) && !Step(s, e).phase.Starting?
    ensures Blocked(Step(s, e).phase) && Step(s, e).work == s.work
  {
  }

  /** No start begins along the run. */
  ghost predicate NeverStarting(s: State, events: seq<Event>)
    decreases |events|
  {
    events != [] ==> !Step(s, events[0]).phase.Starting? && NeverStarting(Step(s, events[0]), events[1..])
  }

  /** From a stop (or a failed start) on, no operation but teardown is admitted until a new start
      begins, whatever calls and settlements are interleaved. */
  lemma {:induction false} NoWorkWhileBlocked(s: State, events: seq<Event>)
    requires Inv(s) && Blocked(s.phase) && NeverStarting(s, events)
    ensures Blocked(Run(s, events).phase) && Run(s, events).work == s.work
    decreases |events|
  {
    if events != [] {
      StepKeepsInv(s, events[0]);
      BlockedStep(s, events[0]);
      NoWorkWhileBlocked(Step(s, events[0]), events[1..]);
    }
  }

  // ----- stopped means drained -----

  predicate StopInFlight(s: State, id: nat) {
    s.stop == Some(id)
  }

  predicate BeforeLastCheck(s: State) {
    s.stopRun.Some? && !s.stopRun.value.Drained?
  }

  /** The ids in `owed` are still pending before the last check of the drain, and settled after it. */
  predicate Owes(s: State, owed: set<nat>) {
    && owed <= s.pending + s.settled.Keys
    && (s.stopRun == Some(Drained) ==> owed <= s.settled.Keys)
  }

  lemma OwingStep(s: State, e: Event, id: nat, owed: set<nat>)
    requires Inv(s) && StopInFlight(s, id) && Owes(s, owed)
    ensures StopInFlight(Step(s, e), id) ==> Owes(Step(s, e), owed)
    ensures !StopInFlight(Step(s, e), id) ==> id in Step(s, e).stopResults
  {
    StepSettlesOnce(s, e);
  }

  lemma SettledStopStep(s: State, e: Event, id: nat)
    requires Inv(s) && id in s.stopResults
    ensures id in Step(s, e).stopResults && Step(s, e).stopResults[id] == s.stopResults[id]
  {
  }

  /** A stop id that has settled is never in flight again. */
  lemma {:induction false} StopsSettleOnce(s: State, events: seq<Event>, id: nat)
    requires Inv(s) && id in s.stopResults
    ensures Inv(Run(s, events)) && !StopInFlight(Run(s, events), id)
    ensures id in Run(s, events).stopResults && Run(s, events).stopResults[id] == s.stopResults[id]
    decreases |events|
  {
    if events != [] {
      StepKeepsInv(s, events[0]);
      SettledStopStep(s, events[0], id);
      StopsSettleOnce(Step(s, events[0]), events[1..], id);
    }
  }

  lemma {:induction false} OwingRun(s: State, events: seq<Event>, id: nat, owed: set<nat>)
    requires Inv(s) && StopInFlight(s, id) && Owes(s, owed)
    ensures Inv(Run(s, events))
    ensures StopInFlight(Run(s, events), id) ==> Owes(Run(s, events), owed)
    decreases |events|
  {
    if events != [] {
      var next := Step(s, events[0]);
      StepKeepsInv(s, events[0]);
      OwingStep(s, events[0], id, owed);
      if StopInFlight(next, id) {
        OwingRun(next, events[1..], id, owed);
      } else {
        StopsSettleOnce(next, events[1..], id);
      }
    }
  }

  /** `stopped` is reached only when every operation that was pending at some moment before the last
      check of the drain (at shutdown, or added by the stop hook) has settled, no operation that was
      ever tracked has failed except by cancellation, and no admitted work is pending. */
  lemma StoppedMeansDrained(s: State, events: seq<Event>, id: nat)
    requires Inv(s) && StopInFlight(s, id) && BeforeLastCheck(s)
    requires var t := Run(s, events); StopInFlight(t, id) && Enabled(t, StopDrainedEvent)
    requires Step(Run(s, events), StopDrainedEvent).phase.Stopped?
    ensures var done := Step(Run(s, events), StopDrainedEvent);
            && s.pending <= done.settled.Keys
            && done.pending !! done.work
            && forall op :: op in done.settled ==> !Fails(done.settled[op])
  {
    var t := Run(s, events);
    OwingRun(s, events, id, s.pending);
    DistinctMeaning(t.failures);
    StepKeepsInv(t, StopDrainedEvent);
    assert t.failures == [];
  }

  /** Teardown tracked between the last check of the drain and the end of the stop is not waited for. */
  lemma LateTeardownIsNotAwaited()
    ensures var s := Run(Initial, [StopEvent, HookSettledEvent(None), TrackEvent(true), StopDrainedEvent]);
            s.phase.Stopped? && s.pending == {2}
  {
    var a := Step(Initial, StopEvent);
    var b := Step(a, HookSettledEvent(None));
    var c := Step(b, TrackEvent(true));
    var d := Step(c, StopDrainedEvent);
    assert d.phase.Stopped? && d.pending == {2};
    assert Run(d, []) == d;
    assert Run(c, [StopDrainedEvent]) == d;
    assert [TrackEvent(true), StopDrainedEvent][1..] == [StopDrainedEvent];
    assert Run(b, [TrackEvent(true), StopDrainedEvent]) == d;
    assert [HookSettledEvent(None), TrackEvent(true), StopDrainedEvent][1..] == [TrackEvent(true), StopDrainedEvent];
    assert Run(a, [HookSettledEvent(None), TrackEvent(true), StopDrainedEvent]) == d;
    assert [StopEvent, HookSettledEvent(None), TrackEvent(true), StopDrainedEvent][1..]
        == [HookSettledEvent(None), TrackEvent(true), StopDrainedEvent];
  }

  /** The run ends with the stop `id` about to settle into `stopped`. */
  predicate EndsStopped(s: State, events: seq<Event>, id: nat) {
    var t := Run(s, events);
    StopInFlight(t, id) && Enabled(t, StopDrainedEvent) && Step(t, StopDrainedEvent).phase.Stopped?
  }

  lemma FailuresStayStep(s: State, e: Event, id: nat)
    requires Inv(s) && StopInFlight(s, id) && s.failures != []
    ensures StopInFlight(Step(s, e), id) ==> Step(s, e).failures != []
    ensures !StopInFlight(Step(s, e), id) ==> id in Step(s, e).stopResults
  {
    hide OperationsHold, StartsHold, FailuresKept, Distinct, Rejections;
  }

  lemma {:induction false} FailuresStay(s: State, events: seq<Event>, id: nat)
    requires Inv(s) && StopInFlight(s, id) && s.failures != []
    ensures Inv(Run(s, events))
    ensures StopInFlight(Run(s, events), id) ==> Run(s, events).failures != []
    decreases |events|
  {
    hide Step, Inv;
    if events != [] {
      var next := Step(s, events[0]);
      StepKeepsInv(s, events[0]);
      FailuresStayStep(s, events[0], id);
      if StopInFlight(next, id) { FailuresStay(next, events[1..], id); } else { StopsSettleOnce(next, events[1..], id); }
    }
  }

  /** A stop that has a failure to report never ends in `stopped`. */
  lemma FailureIsNotStopped(s: State, events: seq<Event>, id: nat)
    requires Inv(s) && StopInFlight(s, id) && s.failures != []
    ensures !EndsStopped(s, events, id)
  {
    FailuresStay(s, events, id);
    DistinctMeaning(Run(s, events).failures);
  }

  /** After the last check nothing more is waited for: the stop can end with `op` still pending. */
  lemma CheckedStopMayEnd(s: State, id: nat, op: nat) returns (events: seq<Event>)
    requires Inv(s) && StopInFlight(s, id) && op in s.pending && s.failures == [] && !BeforeLastCheck(s)
    ensures EndsStopped(s, events, id) && op !in Step(Run(s, events), StopDrainedEvent).settled
  {
    assert s.stopRun == Some(Drained) && s.phase.Stopping? && Distinct([]) == [];
    if !Busy(s) {
      events := [];
    } else {
      var starting :| starting in s.starts && s.starts[starting].Calling?;
      var e := StartReturnedEvent(starting, None);
      events := [e];
      assert events[1..] == [] && Run(Step(s, e), []) == Step(s, e);
      assert !Busy(Step(s, e));
    }
  }

  /** Which operations a stop waits for: an operation that is pending now has settled in every run in
      which this stop ends in `stopped`, if and only if the drain has not made its last check yet, or the
      stop has a failure and so never ends there. */
  lemma StopAwaitsExactlyBeforeTheLastCheck(s: State, id: nat, op: nat)
    requires Inv(s) && StopInFlight(s, id) && op in s.pending
    ensures (forall events :: EndsStopped(s, events, id) ==> op in Step(Run(s, events), StopDrainedEvent).settled)
       <==> BeforeLastCheck(s) || s.failures != []
  {
    hide Step, Run, Inv;
    if BeforeLastCheck(s) {
      forall events | EndsStopped(s, events, id) ensures op in Step(Run(s, events), StopDrainedEvent).settled {
        StoppedMeansDrained(s, events, id);
      }
    } else if s.failures != [] {
      forall events ensures !EndsStopped(s, events, id) { FailureIsNotStopped(s, events, id); }
    } else {
      var events := CheckedStopMayEnd(s, id, op);
    }
  }

  // ----- stops share one outcome -----

  /** What a caller of `stop` in state `t` ends up with, seen from the later state `s`. */
  predicate Outcome(reply: StopReply, s: State, failures: seq<Reason>) {
    match reply
    case SharedStop(id) => id in s.stopResults && s.stopResults[id] == failures
    case Known(known) => known == failures
  }

  /** The stop `id` is in flight, or it settled as the phase says. */
  predicate StopAnswers(s: State, id: nat) {
    || StopInFlight(s, id)
    || (&& id in s.stopResults
        && s.stop.None?
        && (s.phase.Stopped? ==> s.stopResults[id] == [])
        && (s.phase.StopFailed? ==> s.stopResults[id] == s.stopFailure)
        && (s.phase.Stopped? || s.phase.StopFailed?))
  }

  lemma StopAnswersStep(s: State, e: Event, id: nat)
    requires Inv(s) && StopAnswers(s, id) && !Step(s, e).phase.Starting?
    ensures StopAnswers(Step(s, e), id)
  {
    if e.StopDrainedEvent? && Enabled(s, e) { DistinctMeaning(s.failures); }
  }

  lemma {:induction false} StopAnswersRun(s: State, events: seq<Event>, id: nat)
    requires Inv(s) && StopAnswers(s, id) && NeverStarting(s, events)
    ensures Inv(Run(s, events)) && StopAnswers(Run(s, events), id)
    decreases |events|
  {
    if events != [] {
      StepKeepsInv(s, events[0]);
      StopAnswersStep(s, events[0], id);
      StopAnswersRun(Step(s, events[0]), events[1..], id);
    }
  }

  /** Every stop called while stop `id` is in flight, or after it but before the next start, gets
      the outcome of `id`: the same promise, or the same failures once it has settled. */
  lemma StopsShareOneOutcome(s: State, during: seq<Event>, after: seq<Event>, id: nat)
    requires Inv(s) && StopInFlight(s, id) && NeverStarting(s, during)
    ensures var t := Run(s, during);
            && ReplyToStop(t).Some?
            && (id in Run(t, after).stopResults ==>
                  Outcome(ReplyToStop(t).value, Run(t, after), Run(t, after).stopResults[id]))
  {
    StopAnswersRun(s, during, id);
    var t := Run(s, during);
    if id in t.stopResults { StopsSettleOnce(t, after, id); }
  }

  // ----- an overtaken start -----

  /** The steps of the start `id`: its operation returns or throws, what it waited for has settled, its
      cleanup runs. */
  predicate OfStart(e: Event, id: nat) {
    e == StartSettledEvent(id) || e == CleanupEvent(id) || (e.StartReturnedEvent? && e.id == id)
  }

  /** A start that began before a stop never makes the phase `running`, however late its work settles,
      and its steps leave the phase alone, but for one: an operation that throws after the stop it called
      moves the phase to `failed`. */
  lemma OvertakenStartNeverRuns(s: State, events: seq<Event>, id: nat, e: Event)
    requires Inv(s) && id < s.lastStop && OfStart(e, id)
    ensures var t := Run(s, events);
            && (Step(t, e).phase.Running? ==> t.phase.Running?)
            && (Step(t, e).phase == t.phase
                <==> !(Enabled(t, e) && e.StartReturnedEvent? && e.thrown.Some? && !t.phase.StartFailed?))
            && (Step(t, e).phase != t.phase ==> Step(t, e).phase.StartFailed?)
  {
    RunKeepsInv(s, events);
  }

  /** Such a throw: the start operation calls `stop` and then throws. The stop, still in flight, ends in
      `stop_failed`. */
  lemma ThrowingStartMovesTheStop()
    ensures var s := Run(Initial, [StartEvent, StopEvent, StartReturnedEvent(1, Some(Failure(0)))]);
            var t := Run(s, [HookSettledEvent(None), StopDrainedEvent]);
            && s.lastStop > 1 && s.stop.Some? && s.phase.StartFailed?
            && t.phase.StopFailed? && t.stopFailure == [Failure(0)]
  {
    hide Step;
    StartThrowsAfterStop();
    RunOfThree(Initial, StartEvent, StopEvent, StartReturnedEvent(1, Some(Failure(0))));
    StopEndsFailed();
    RunOfTwo(OVERTAKEN, HookSettledEvent(None), StopDrainedEvent);
  }

  const OVERTAKEN :=
    State(StartFailed, {}, [Failure(0)], Some(1), Some(2), [], map[], {}, map[], map[1 := {Failure(0)}],
          Some(Hook), map[], 2, 3)

  lemma StartThrowsAfterStop()
    ensures Step(Step(Step(Initial, StartEvent), StopEvent), StartReturnedEvent(1, Some(Failure(0)))) == OVERTAKEN
  {
    var starting := Initial.(phase := Starting, start := Some(1), starts := map[1 := Calling], nextId := 2);
    assert Step(Initial, StartEvent) == starting;
    var stopping := starting.(phase := Stopping, stop := Some(2), stopRun := Some(Hook), lastStop := 2, nextId := 3);
    assert Step(starting, StopEvent) == stopping;
    assert stopping.starts - {1} == map[];
  }

  lemma StopEndsFailed()
    ensures var t := Step(Step(OVERTAKEN, HookSettledEvent(None)), StopDrainedEvent);
            t.phase.StopFailed? && t.stopFailure == [Failure(0)]
  {
    assert Step(OVERTAKEN, HookSettledEvent(None)) == OVERTAKEN.(stopRun := Some(Drained));
    OneReason(Failure(0));
  }

  lemma OneReason(reason: Reason)
    ensures Distinct([reason]) == [reason]
  {
    assert [reason][..0] == [] && Distinct([]) == [];
  }

  lemma RunOfTwo(s: State, first: Event, second: Event)
    ensures Run(s, [first, second]) == Step(Step(s, first), second)
  {
    hide Step;
    var t := Step(Step(s, first), second);
    assert [first, second][1..] == [second] && [second][1..] == [];
    assert Run(t, []) == t && Run(Step(s, first), [second]) == t;
  }

  lemma RunOfThree(s: State, first: Event, second: Event, third: Event)
    ensures Run(s, [first, second, third]) == Step(Step(Step(s, first), second), third)
  {
    hide Step;
    assert [first, second, third][1..] == [second, third];
    RunOfTwo(Step(s, first), second, third);
  }

  lemma RejectionsShow(s: State, batch: set<nat>)
    ensures Rejections(s, batch) == {} <==> forall op :: op in batch && op in s.settled ==> s.settled[op].Fulfilled?
  {
    assert forall op :: op in batch && op in s.settled && s.settled[op].Rejected? ==>
             s.settled[op].reason in Rejections(s, batch);
  }

  /** A start resolves into `running` only if nothing it waited for was rejected. */
  lemma RunningMeansStarted(s: State, e: Event)
    requires Inv(s) && !s.phase.Running? && Step(s, e).phase.Running?
    ensures e.StartSettledEvent? && s.start == Some(e.id) && s.lastStop < e.id
    ensures forall op :: op in s.starts[e.id].batch && op in s.settled ==> s.settled[op].Fulfilled?
    ensures Step(s, e).startResults[e.id] == {}
  {
    RejectionsShow(s, s.starts[e.id].batch);
  }

  /** A failed stop is final, and it reports every failure that was recorded. */
  lemma {:induction false} StopFailureIsFinal(s: State, events: seq<Event>)
    requires Inv(s) && s.phase.StopFailed?
    ensures Run(s, events).phase.StopFailed? && Run(s, events).stopFailure == s.stopFailure
    decreases |events|
  {
    if events != [] {
      StepKeepsInv(s, events[0]);
      StepKeepsFailures(s, events[0]);
      StopFailureIsFinal(Step(s, events[0]), events[1..]);
    }
  }

  lemma StopReportsEveryFailure(s: State, reason: Reason)
    requires Inv(s) && Enabled(s, StopDrainedEvent) && reason in s.failures
    ensures var t := Step(s, StopDrainedEvent);
            && t.phase.StopFailed?
            && reason in t.stopFailure
            && t.stopResults[s.stop.value] == t.stopFailure
  {
    DistinctMeaning(s.failures);
  }

  lemma InitialHolds()
    ensures Inv(Initial)
  {
  }

  // ----- when a start reaches running -----

  lemma AwaitingStep(s: State, e: Event, id: nat)
    requires Inv(s) && id in s.starts && s.starts[id].Awaiting?
    ensures var t := Step(s, e);
            && (id in t.starts ==> t.starts[id] == s.starts[id])
            && (id !in t.starts ==> id in t.startResults)
  {
    hide OperationsHold, StopsHold, FailuresKept, Distinct, Rejections;
  }

  lemma SettledStartStep(s: State, e: Event, id: nat)
    requires Inv(s) && id in s.startResults
    ensures id in Step(s, e).startResults && Step(s, e).startResults[id] == s.startResults[id]
  {
    hide OperationsHold, StopsHold, FailuresKept, Distinct, Rejections;
  }

  /** A start promise settles once. */
  lemma {:induction false} StartsSettleOnce(s: State, events: seq<Event>, id: nat)
    requires Inv(s) && id in s.startResults
    ensures Inv(Run(s, events)) && id !in Run(s, events).starts
    ensures id in Run(s, events).startResults && Run(s, events).startResults[id] == s.startResults[id]
    decreases |events|
  {
    hide Step;
    if events != [] {
      StepKeepsInv(s, events[0]);
      SettledStartStep(s, events[0], id);
      StartsSettleOnce(Step(s, events[0]), events[1..], id);
    }
  }

  lemma {:induction false} AwaitingRun(s: State, events: seq<Event>, id: nat, owed: set<nat>)
    requires Inv(s) && id in s.starts && s.starts[id].Awaiting? && owed <= s.pending + s.settled.Keys
    ensures var t := Run(s, events);
            Inv(t) && (id in t.starts ==> t.starts[id] == s.starts[id] && owed <= t.pending + t.settled.Keys)
    decreases |events|
  {
    hide Step, Inv;
    if events != [] {
      var next := Step(s, events[0]);
      StepKeepsInv(s, events[0]);
      StepSettlesOnce(s, events[0]);
      AwaitingStep(s, events[0], id);
      if id in next.starts { AwaitingRun(next, events[1..], id, owed); } else { StartsSettleOnce(next, events[1..], id); }
    }
  }

  /** In every run: a start whose operation has returned waits for exactly what was pending then. When that
      has settled the start settles too, with exactly the reasons of those that were rejected; unless a stop
      or a failure came in between it is running if all were fulfilled, and failed if one was rejected. */
  lemma StartOutcome(before: seq<Event>, id: nat, during: seq<Event>)
    requires var s := Run(Initial, before);
             && Enabled(s, StartReturnedEvent(id, None))
             && Enabled(Run(Step(s, StartReturnedEvent(id, None)), during), StartSettledEvent(id))
    ensures var s := Run(Initial, before);
            var t := Run(Step(s, StartReturnedEvent(id, None)), during);
            var u := Step(t, StartSettledEvent(id));
            && s.pending <= t.settled.Keys && s.pending !! t.pending
            && id in u.startResults
            && u.startResults[id] == (set op | op in s.pending && t.settled[op].Rejected? :: t.settled[op].reason)
            && (t.phase.Starting? ==>
                  && (u.phase.Running? <==> forall op | op in s.pending :: t.settled[op].Fulfilled?)
                  && (u.phase.StartFailed? <==> exists op | op in s.pending :: t.settled[op].Rejected?))
            && (!t.phase.Starting? ==> u.phase == t.phase)
  {
    hide Inv;
    InitialHolds();
    RunKeepsInv(Initial, before);
    var s := Run(Initial, before);
    var e := StartReturnedEvent(id, None);
    StepKeepsInv(s, e);
    AwaitingRun(Step(s, e), during, id, s.pending);
    var t := Run(Step(s, e), during);
    RejectionsShow(t, s.pending);
    assert Rejections(t, s.pending) == set op | op in s.pending && t.settled[op].Rejected? :: t.settled[op].reason;
  }

  /** Each phase is entered exactly so. */
  lemma PhasesAreEntered(s: State, e: Event)
    requires Inv(s)
    ensures var t := Step(s, e);
            && (t.phase.Starting? && !s.phase.Starting?
                <==> e.StartEvent? && (s.phase.Idle? || s.phase.Stopped?) && s.start.None?)
            && (t.phase.Stopping? && !s.phase.Stopping?
                <==> e.StopEvent? && s.stop.None?
                     && (s.phase.Idle? || s.phase.Starting? || s.phase.Running? || s.phase.StartFailed?))
            && (t.phase.Stopped? && !s.phase.Stopped? <==> Enabled(s, e) && e.StopDrainedEvent? && s.failures == [])
            && (t.phase.StopFailed? && !s.phase.StopFailed? <==> Enabled(s, e) && e.StopDrainedEvent? && s.failures != [])
            && (t.phase.StartFailed? && !s.phase.StartFailed? ==> e.StartReturnedEvent? || e.StartSettledEvent?)
            && (Enabled(s, e) && e.StartReturnedEvent? ==> if e.thrown.Some? then t.phase.StartFailed? else t.phase == s.phase)
            && (t.phase.Idle? ==> s.phase.Idle?)
  {
    hide OperationsHold, StartsHold, StopsHold, FailuresKept, Rejections;
    if e.StopDrainedEvent? && Enabled(s, e) { DistinctMeaning(s.failures); }
  }

  /** Work is admitted exactly while the lifecycle is idle, starting or running, teardown always; an
      operation that was admitted is pending under an id of its own. */
  lemma AdmittedExactly(s: State, teardown: bool)
    requires Inv(s)
    ensures var t := Step(s, TrackEvent(teardown));
            && (t.pending != s.pending <==> teardown || s.phase.Idle? || s.phase.Starting? || s.phase.Running?)
            && (t.pending != s.pending ==> t.pending == s.pending + {s.nextId} && s.nextId !in s.pending + s.settled.Keys)
            && (t.work != s.work <==> !teardown && (s.phase.Idle? || s.phase.Starting? || s.phase.Running?))
  {
  }

  /** What a call of start gives: a refusal while stopping or after a failure, the promise of the start
      that has not been cleaned up yet, an immediate success while running, or a new start. */
  lemma StartReplies(s: State)
    requires Inv(s)
    ensures var reply, t := ReplyToStart(s), Step(s, StartEvent);
            && (reply == Some(Refused) <==> s.phase.Stopping? || s.phase.StartFailed? || s.phase.StopFailed?)
            && (reply == Some(AlreadyRunning) <==> s.phase.Running? && s.start.None?)
            && (forall id: nat :: reply == Some(SharedStart(id)) <==>
                  s.start == Some(id) && !s.phase.Stopping? && !s.phase.StartFailed? && !s.phase.StopFailed?)
            && (reply.Some? <==> t == s)
            && (reply.None? ==> t.start == Some(s.nextId) && t.phase.Starting?)
  {
  }

  /** The promise of a start is given out until its own cleanup runs: no other event takes it away. */
  lemma StartIsSharedUntilCleanup(s: State, e: Event)
    requires Inv(s) && s.start.Some?
    ensures Step(s, e).start != s.start <==> Enabled(s, e) && e == CleanupEvent(s.start.value)
    ensures Step(s, e).start != s.start ==> Step(s, e).start.None?
  {
  }

  /** A stopped lifecycle can be started again, once the start before the stop has settled. */
  lemma StoppedRestarts(s: State)
    requires Inv(s) && s.phase.Stopped? && (s.start.Some? ==> s.start.value !in s.starts && s.start.value in s.startResults)
    ensures var events := (if s.start.Some? then [CleanupEvent(s.start.value)] else []) + [StartEvent];
            var t := Run(s, events);
            t.phase.Starting? && t.start == Some(s.nextId) && Step(t, TrackEvent(false)).work != t.work
  {
    assert [StartEvent][1..] == [] && [] + [StartEvent] == [StartEvent];
    if s.start.Some? {
      var e := CleanupEvent(s.start.value);
      assert ([e] + [StartEvent])[1..] == [StartEvent];
    }
  }

  // ----- what a stop reports -----

  /** The reason an event records: a failed operation, unless it was cancelled, a start operation that
      throws, a stop hook that fails. */
  function Reasons(s: State, e: Event): seq<Reason> {
    if !Enabled(s, e) then []
    else
      match e
      case SettleEvent(_, Rejected(Failure(code))) => [Failure(code)]
      case StartReturnedEvent(_, Some(reason)) => [reason]
      case HookSettledEvent(Some(reason)) => [reason]
      case _ => []
  }

  function Recorded(s: State, events: seq<Event>): seq<Reason>
    decreases |events|
  {
    if events == [] then [] else Reasons(s, events[0]) + Recorded(Step(s, events[0]), events[1..])
  }

  lemma RecordedStep(s: State, e: Event)
    requires Inv(s) && !Step(s, e).phase.StopFailed?
    ensures Step(s, e).failures == s.failures + Reasons(s, e)
  {
    hide OperationsHold, StartsHold, StopsHold, FailuresKept, Rejections;
    if e.StopDrainedEvent? && Enabled(s, e) { DistinctMeaning(s.failures); }
  }

  lemma {:induction false} FailuresAreRecorded(s: State, events: seq<Event>)
    requires Inv(s) && !Run(s, events).phase.StopFailed?
    ensures Run(s, events).failures == s.failures + Recorded(s, events)
    decreases |events|
  {
    hide Step, Inv, Reasons;
    if events != [] {
      var next := Step(s, events[0]);
      StepKeepsInv(s, events[0]);
      if next.phase.StopFailed? { StopFailureIsFinal(next, events[1..]); }
      RecordedStep(s, events[0]);
      FailuresAreRecorded(next, events[1..]);
    }
  }

  /** In every run, a stop that settles reports exactly the reasons recorded since the lifecycle was made,
      each once: with none it ends in `stopped`, with any in `stop_failed`. */
  lemma StopReportsExactlyWhatWasRecorded(events: seq<Event>)
    requires Enabled(Run(Initial, events), StopDrainedEvent)
    ensures var s, recorded := Run(Initial, events), Recorded(Initial, events);
            var t := Step(s, StopDrainedEvent);
            && s.stop.value in t.stopResults && t.stop.None? && t.failures == []
            && var report := t.stopResults[s.stop.value];
               && (forall reason :: reason in report <==> reason in recorded)
               && (forall i, j :: 0 <= i < j < |report| ==> report[i] != report[j])
               && (t.phase.Stopped? <==> recorded == [])
               && (t.phase.StopFailed? <==> recorded != [])
               && (recorded != [] ==> t.stopFailure == report)
  {
    InitialHolds();
    RunKeepsInv(Initial, events);
    FailuresAreRecorded(Initial, events);
    DistinctMeaning(Run(Initial, events).failures);
  }

  lemma QuietStopAdvances(s: State, id: nat, e: Event)
    requires Inv(s) && StopInFlight(s, id) && !Busy(s) && s.pending == {} && s.stopRun != Some(Drained)
    requires e == if s.stopRun == Some(Hook) then HookSettledEvent(None) else DrainWakesEvent
    ensures Step(s, e) == s.(stopRun := Some(Drained))
  {
    hide OperationsHold, StartsHold, FailuresKept, StopsHold;
  }

  lemma DrainedStopEnds(s: State, id: nat)
    requires StopInFlight(s, id) && !Busy(s) && s.stopRun == Some(Drained)
    ensures id in Step(s, StopDrainedEvent).stopResults && Step(s, StopDrainedEvent).stop.None?
  {
    hide Busy, Distinct;
  }

  /** With nothing pending and no start operation on the call stack, each stage of a stop leads on to its
      end: the hook settles, the drain wakes, the stop settles. */
  lemma QuietStopEnds(s: State, id: nat)
    requires Inv(s) && StopInFlight(s, id) && !Busy(s) && s.pending == {}
    ensures var events := (if s.stopRun == Some(Hook) then [HookSettledEvent(None)]
                           else if s.stopRun == Some(Drained) then [] else [DrainWakesEvent]) + [StopDrainedEvent];
            id in Run(s, events).stopResults && Run(s, events).stop.None?
  {
    hide Step, Inv;
    var e := if s.stopRun == Some(Hook) then HookSettledEvent(None) else DrainWakesEvent;
    assert [StopDrainedEvent][1..] == [] && [] + [StopDrainedEvent] == [StopDrainedEvent];
    if s.stopRun == Some(Drained) {
      DrainedStopEnds(s, id);
      assert Run(Step(s, StopDrainedEvent), []) == Step(s, StopDrainedEvent);
    } else {
      QuietStopAdvances(s, id, e);
      DrainedStopEnds(Step(s, e), id);
      assert [e] + [StopDrainedEvent] == [e, StopDrainedEvent];
      RunOfTwo(s, e, StopDrainedEvent);
    }
  }

  lemma SleepingStep(s: State, e: Event, batch: set<nat>)
    requires Inv(s) && s.stopRun == Some(Draining(batch)) && !e.DrainWakesEvent?
    ensures Step(s, e).stopRun == s.stopRun
  {
    hide OperationsHold, StartsHold, StopsHold, FailuresKept, Distinct, Rejections;
  }

  lemma {:induction false} SleepingRun(s: State, events: seq<Event>, batch: set<nat>)
    requires Inv(s) && s.stopRun == Some(Draining(batch)) && DrainWakesEvent !in events
    ensures Run(s, events).stopRun == s.stopRun
    decreases |events|
  {
    hide Step, Inv;
    if events != [] {
      assert events[0] in events;
      StepKeepsInv(s, events[0]);
      SleepingStep(s, events[0], batch);
      SleepingRun(Step(s, events[0]), events[1..], batch);
    }
  }

  /** A drain that found something pending wakes again only when all of that has settled. */
  lemma DrainSleepsUntilSettled(s: State, e: Event, during: seq<Event>)
    requires Inv(s) && Enabled(s, e) && (e.HookSettledEvent? || e.DrainWakesEvent?) && s.pending != {}
    requires DrainWakesEvent !in during
    ensures var t := Run(Step(s, e), during);
            Enabled(t, DrainWakesEvent) <==> !Busy(t) && s.pending !! t.pending
  {
    StepKeepsInv(s, e);
    SleepingRun(Step(s, e), during, s.pending);
  }
}

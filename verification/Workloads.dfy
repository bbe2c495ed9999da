// belmont-browse/tools/patch-daemon-active-workloads.py: ownership of detached work, worker threads and
// model sockets, one registry after another.
//
// Operations, agents, workers and sockets are ids. Every await or `.then` is a step; the adversary
// settles operations, ends workers and prompts, closes sockets and orders all calls.

module Workloads {
  import opened Common

  datatype Phase = Running | Stopping | Drained | Closed | CloseFailed

  /** Cancellation is the error whose code is BELMONT_WORKLOAD_STOPPING. */
  datatype Reason = Cancellation | Failure(code: nat)

  datatype DrainRun = Scheduled | Waiting(operations: set<nat>, workers: set<nat>) | Reported(failures: seq<Reason>)

  datatype CloseRun = CloseScheduled | AwaitingDrain | AwaitingSockets(sockets: set<nat>) | CloseDone

  /** `teardown` are the operations tracked as teardown, `told` the workers whose termination has been
      asked for, `generation` counts the registries. */
  datatype State = State(
    phase: Phase,
    pending: set<nat>,
    teardown: set<nat>,
    agents: set<nat>,
    workers: set<nat>,
    told: set<nat>,
    sockets: set<nat>,
    failures: seq<Reason>,
    drain: Option<DrainRun>,
    close: Option<CloseRun>,
    resourcesClosing: bool,
    nextId: nat,
    generation: nat)

  function Registry(nextId: nat, generation: nat): State {
    State(Running, {}, {}, {}, {}, {}, {}, [], None, None, false, nextId, generation)
  }

  function NewIds(first: nat, count: nat): set<nat> {
    if count == 0 then {} else NewIds(first, count - 1) + {first + count - 1}
  }

  function Track(s: State, teardown: bool): State {
    if !teardown && s.phase != Running then s
    else s.(pending := s.pending + {s.nextId},
            teardown := if teardown then s.teardown + {s.nextId} else s.teardown,
            nextId := s.nextId + 1)
  }

  function TrackTeardown(s: State, count: nat): State {
    s.(pending := s.pending + NewIds(s.nextId, count),
       teardown := s.teardown + NewIds(s.nextId, count),
       nextId := s.nextId + count)
  }

  /** A tracked promise settles, rejected with `rejection` if there is one. */
  function Settle(s: State, op: nat, rejection: Option<Reason>): State {
    s.(pending := s.pending - {op},
       failures := if op in s.teardown && rejection.Some? && rejection.value.Failure?
                   then s.failures + [rejection.value] else s.failures)
  }

  /** The operation itself catches an error and records it. */
  function Record(s: State, reason: Reason): State {
    s.(failures := s.failures + [reason])
  }

  function BeginPrompt(s: State, agent: nat): State {
    if s.phase != Running then s else s.(agents := s.agents + {agent})
  }

  function EndPrompt(s: State, agent: nat, idleFailure: Option<Reason>): State {
    s.(agents := s.agents - {agent},
       failures := if idleFailure.Some? then s.failures + [idleFailure.value] else s.failures)
  }

  function Terminate(s: State, worker: nat): State {
    Track(s.(told := s.told + {worker}), true)
  }

  function AddWorker(s: State, worker: nat): State {
    var owned := s.(workers := s.workers + {worker}, told := s.told - {worker});
    if s.phase != Running then Terminate(owned, worker) else owned
  }

  function EndWorker(s: State, worker: nat): State {
    s.(workers := s.workers - {worker})
  }

  /** `aborts` are the errors thrown by agents' abort; every backfill and every worker is given a
      teardown operation. */
  function BeginShutdown(s: State, aborts: seq<Reason>, backfills: nat): State {
    if s.phase != Running then s
    else
      TrackTeardown(s, backfills + |s.workers|)
        .(phase := Stopping, failures := s.failures + aborts, told := s.told + s.workers)
  }

  function CallDrain(s: State, aborts: seq<Reason>, backfills: nat): State {
    var stopping := BeginShutdown(s, aborts, backfills);
    if stopping.drain.Some? then stopping else stopping.(drain := Some(Scheduled))
  }

  /** The head of the drain loop, and what follows it. */
  function DrainCheck(s: State): State {
    if s.pending != {} || s.workers != {} then s.(drain := Some(Waiting(s.pending, s.workers)))
    else s.(phase := Drained, drain := Some(Reported(s.failures)))
  }

  function CallClose(s: State, validTimeout: bool): State {
    if s.close.Some? || !validTimeout then s else s.(resourcesClosing := true, close := Some(CloseScheduled))
  }

  function CloseDrains(s: State, aborts: seq<Reason>, backfills: nat): State {
    CallDrain(s, aborts, backfills).(close := Some(AwaitingDrain))
  }

  /** The drain has reported: cached sockets are adopted and every socket is being closed. */
  function CloseSockets(s: State, cached: set<nat>): State {
    s.(sockets := s.sockets + cached, close := Some(AwaitingSockets(s.sockets + cached)))
  }

  function FinishClose(s: State, failed: bool): State {
    s.(phase := if failed then CloseFailed else Closed, close := Some(CloseDone))
  }

  predicate MayRestart(s: State) {
    s.phase == Closed && s.pending == {} && s.agents == {} && s.workers == {} && s.sockets == {}
  }

  function Start(s: State): State {
    if s.phase != Running && MayRestart(s) then Registry(s.nextId, s.generation + 1) else s
  }

  lemma {:induction false} NewIdsInTwo(first: nat, a: nat, b: nat)
    ensures NewIds(first, a) + NewIds(first + a, b) == NewIds(first, a + b)
  {
    if b != 0 { NewIdsInTwo(first, a, b - 1); }
  }

  lemma NewIdsNext(first: nat, count: nat)
    ensures NewIds(first, 0) == {}
    ensures NewIds(first, count + 1) == NewIds(first, count) + {first + count}
  {
  }

  lemma TerminateNone(s: State)
    ensures s == TrackTeardown(s, 0).(told := s.told + {})
  {
  }

  lemma TerminateNext(s: State, done: set<nat>, worker: nat)
    requires worker !in done
    ensures Terminate(TrackTeardown(s, |done|).(told := s.told + done), worker)
         == TrackTeardown(s, |done + {worker}|).(told := s.told + (done + {worker}))
  {
    hide NewIds;
    NewIdsNext(s.nextId, |done|);
    assert |done + {worker}| == |done| + 1;
  }

  lemma {:induction false} NewIdsMeaning(first: nat, count: nat)
    ensures forall id :: id in NewIds(first, count) <==> first <= id < first + count
  {
    if count != 0 { NewIdsMeaning(first, count - 1); }
  }

  // ----- the shim as an object -----

  class Owner {
    var phase: Phase
    var pending: set<nat>
    var teardown: set<nat>
    var agents: set<nat>
    var workers: set<nat>
    var told: set<nat>
    var sockets: set<nat>
    var failures: seq<Reason>
    var drain: Option<DrainRun>
    var close: Option<CloseRun>
    var resourcesClosing: bool
    var nextId: nat
    var generation: nat

    function View(): State
      reads this
    {
      State(phase, pending, teardown, agents, workers, told, sockets, failures,
            drain, close, resourcesClosing, nextId, generation)
    }

    constructor ()
      ensures View() == Registry(0, 0)
    {
      phase, pending, teardown, agents, workers, told, sockets := Running, {}, {}, {}, {}, {}, {};
      failures, drain, close, resourcesClosing, nextId, generation := [], None, None, false, 0, 0;
    }

    /** None: rejected with a cancellation. */
    method TrackOperation(isTeardown: bool) returns (op: Option<nat>)
      modifies this`pending, this`teardown, this`nextId
      ensures View() == Track(old(View()), isTeardown)
      ensures op == if !isTeardown && phase != Running then None else Some(old(nextId))
    {
      if !isTeardown && phase != Running { return None; }
      op := Some(nextId);
      pending := pending + {nextId};
      if isTeardown { teardown := teardown + {nextId}; }
      nextId := nextId + 1;
    }

    method OperationSettled(op: nat, rejection: Option<Reason>)
      modifies this
      ensures View() == Settle(old(View()), op, rejection)
    {
      pending := pending - {op};
      if op in teardown && rejection.Some? && rejection.value != Cancellation {
        failures := failures + [rejection.value];
      }
    }

    method PromptBegins(agent: nat) returns (admitted: bool)
      modifies this
      ensures View() == BeginPrompt(old(View()), agent) && admitted == (old(phase) == Running)
    {
      if phase != Running { return false; }
      agents := agents + {agent};
      return true;
    }

    /** `delivered`: the prompt's result reaches its caller. */
    method PromptEnds(agent: nat, idleFailure: Option<Reason>) returns (delivered: bool)
      modifies this
      ensures View() == EndPrompt(old(View()), agent, idleFailure)
      ensures delivered <==> idleFailure.None? && old(phase) == Running
    {
      if idleFailure.Some? { failures := failures + [idleFailure.value]; }
      agents := agents - {agent};
      return idleFailure.None? && phase == Running;
    }

    method TerminateWorker(worker: nat)
      modifies this`told, this`pending, this`teardown, this`nextId
      ensures View() == Terminate(old(View()), worker)
    {
      told := told + {worker};
      var _ := TrackOperation(true);
    }

    method OwnWorker(worker: nat)
      modifies this
      ensures View() == AddWorker(old(View()), worker)
    {
      workers := workers + {worker};
      told := told - {worker};
      if phase != Running { TerminateWorker(worker); }
    }

    method StopBackfills(backfills: nat)
      modifies this`pending, this`teardown, this`nextId
      ensures View() == TrackTeardown(old(View()), backfills)
    {
      for i := 0 to backfills
        invariant View() == TrackTeardown(old(View()), i)
      {
        var _ := TrackOperation(true);
      }
    }

    method TerminateAllWorkers()
      modifies this`told, this`pending, this`teardown, this`nextId
      ensures View() == TrackTeardown(old(View()), |workers|).(told := old(told) + workers)
    {
      hide TrackTeardown, Terminate;
      var done: set<nat> := {};
      ghost var before := View();
      TerminateNone(before);
      assert |done| == 0 && before.told + done == before.told + {};
      while done != workers
        invariant done <= workers
        invariant View() == TrackTeardown(before, |done|).(told := before.told + done)
        decreases |workers - done|
      {
        var worker := AnyOf(workers - done);
        TerminateWorker(worker);
        TerminateNext(before, done, worker);
        done := done + {worker};
      }
    }

    method StartShutdown(aborts: seq<Reason>, backfills: nat)
      modifies this
      ensures View() == BeginShutdown(old(View()), aborts, backfills)
    {
      hide NewIds;
      if phase != Running { return; }
      phase := Stopping;
      failures := failures + aborts;
      ghost var first := nextId;
      StopBackfills(backfills);
      TerminateAllWorkers();
      NewIdsInTwo(first, backfills, |workers|);
    }

    method Drain(aborts: seq<Reason>, backfills: nat)
      modifies this
      ensures View() == CallDrain(old(View()), aborts, backfills)
    {
      StartShutdown(aborts, backfills);
      if drain.None? { drain := Some(Scheduled); }
    }

    method DrainLoop()
      modifies this
      ensures View() == DrainCheck(old(View()))
    {
      if pending != {} || workers != {} {
        drain := Some(Waiting(pending, workers));
        return;
      }
      phase := Drained;
      drain := Some(Reported(failures));
    }

    method CloseSessionResources(validTimeout: bool)
      modifies this
      ensures View() == CallClose(old(View()), validTimeout)
    {
      if close.Some? || !validTimeout { return; }
      resourcesClosing := true;
      close := Some(CloseScheduled);
    }

    method Restart() returns (ok: bool)
      modifies this
      ensures View() == Start(old(View()))
      ensures ok <==> old(phase) == Running || MayRestart(old(View()))
    {
      if phase == Running { return true; }
      if phase != Closed || pending != {} || agents != {} || workers != {} || sockets != {} { return false; }
      phase, teardown, told := Running, {}, {};
      failures, drain, close, resourcesClosing := [], None, None, false;
      generation := generation + 1;
      return true;
    }

    method RecordFailure(reason: Reason)
      modifies this`failures
      ensures View() == Record(old(View()), reason)
    {
      failures := failures + [reason];
    }

    method WorkerExited(worker: nat)
      modifies this`workers
      ensures View() == EndWorker(old(View()), worker)
    {
      workers := workers - {worker};
    }

    method CloseBegins(aborts: seq<Reason>, backfills: nat)
      modifies this
      ensures View() == CloseDrains(old(View()), aborts, backfills)
    {
      Drain(aborts, backfills);
      close := Some(AwaitingDrain);
    }

    method AdoptAndCloseSockets(cached: set<nat>)
      modifies this`sockets, this`close
      ensures View() == CloseSockets(old(View()), cached)
    {
      sockets := sockets + cached;
      close := Some(AwaitingSockets(sockets));
    }

    method CloseEnds(failed: bool)
      modifies this`phase, this`close
      ensures View() == FinishClose(old(View()), failed)
    {
      phase := if failed then CloseFailed else Closed;
      close := Some(CloseDone);
    }

    method Perform(e: Event)
      modifies this
      ensures View() == Step(old(View()), e)
    {
      hide Track, Settle, Record, BeginPrompt, EndPrompt, AddWorker, BeginShutdown, CallDrain, DrainCheck;
      hide CallClose, CloseDrains, CloseSockets, FinishClose, Start;
      if !Enabled(View(), e) { return; }
      match e {
        case TrackEvent(isTeardown) => var _ := TrackOperation(isTeardown);
        case SettleEvent(op, rejection) => OperationSettled(op, rejection);
        case CaughtEvent(_, reason) => RecordFailure(reason);
        case PromptEvent(agent) => var _ := PromptBegins(agent);
        case PromptEndEvent(agent, idleFailure) => var _ := PromptEnds(agent, idleFailure);
        case WorkerEvent(worker) => OwnWorker(worker);
        case WorkerExitEvent(worker) => WorkerExited(worker);
        case ShutdownEvent(aborts, backfills) => StartShutdown(aborts, backfills);
        case DrainEvent(aborts, backfills) => Drain(aborts, backfills);
        case DrainWakesEvent => DrainLoop();
        case SocketEvent(socket) => sockets := sockets + {socket};
        case SocketClosedEvent(socket) => sockets := sockets - {socket};
        case CloseEvent(validTimeout) => CloseSessionResources(validTimeout);
        case CloseDrainsEvent(aborts, backfills) => CloseBegins(aborts, backfills);
        case CloseSocketsEvent(cached) => AdoptAndCloseSockets(cached);
        case CloseSettledEvent(timedOut, cleanupsFailed) =>
          CloseEnds(cleanupsFailed || timedOut * close.value.sockets != {} || drain != Some(Reported([])));
        case RestartEvent => var _ := Restart();
      }
    }
  }

  // ----- runs -----

  datatype Event =
    | TrackEvent(teardown: bool)
    | SettleEvent(op: nat, rejection: Option<Reason>)
    | CaughtEvent(op: nat, reason: Reason)
    | PromptEvent(agent: nat)
    | PromptEndEvent(agent: nat, idleFailure: Option<Reason>)
    | WorkerEvent(worker: nat)
    | WorkerExitEvent(worker: nat)
    | ShutdownEvent(aborts: seq<Reason>, backfills: nat)
    | DrainEvent(aborts: seq<Reason>, backfills: nat)
    | DrainWakesEvent
    | SocketEvent(socket: nat)
    | SocketClosedEvent(socket: nat)
    | CloseEvent(validTimeout: bool)
    | CloseDrainsEvent(aborts: seq<Reason>, backfills: nat)
    | CloseSocketsEvent(cached: set<nat>)
    | CloseSettledEvent(timedOut: set<nat>, cleanupsFailed: bool)
    | RestartEvent

  predicate Enabled(s: State, e: Event) {
    match e
    case SettleEvent(op, _) => op in s.pending
    case CaughtEvent(op, _) => op in s.pending && op in s.teardown
    case PromptEndEvent(agent, _) => agent in s.agents
    case WorkerEvent(worker) => worker !in s.workers
    case WorkerExitEvent(worker) => worker in s.workers
    case DrainWakesEvent =>
      && s.drain.Some?
      && (s.drain.value.Scheduled?
          || (s.drain.value.Waiting? && s.drain.value.operations !! s.pending && s.drain.value.workers !! s.workers))
    case CloseDrainsEvent(_, _) => s.close == Some(CloseScheduled)
    case CloseSocketsEvent(_) => s.close == Some(AwaitingDrain) && s.drain.Some? && s.drain.value.Reported?
    case CloseSettledEvent(timedOut, _) =>
      s.close.Some? && s.close.value.AwaitingSockets? && s.close.value.sockets * s.sockets <= timedOut
    case _ => true
  }

  function Step(s: State, e: Event): State {
    if !Enabled(s, e) then s
    else
      match e
      case TrackEvent(teardown) => Track(s, teardown)
      case SettleEvent(op, rejection) => Settle(s, op, rejection)
      case CaughtEvent(_, reason) => Record(s, reason)
      case PromptEvent(agent) => BeginPrompt(s, agent)
      case PromptEndEvent(agent, idleFailure) => EndPrompt(s, agent, idleFailure)
      case WorkerEvent(worker) => AddWorker(s, worker)
      case WorkerExitEvent(worker) => EndWorker(s, worker)
      case ShutdownEvent(aborts, backfills) => BeginShutdown(s, aborts, backfills)
      case DrainEvent(aborts, backfills) => CallDrain(s, aborts, backfills)
      case DrainWakesEvent => DrainCheck(s)
      case SocketEvent(socket) => s.(sockets := s.sockets + {socket})
      case SocketClosedEvent(socket) => s.(sockets := s.sockets - {socket})
      case CloseEvent(validTimeout) => CallClose(s, validTimeout)
      case CloseDrainsEvent(aborts, backfills) => CloseDrains(s, aborts, backfills)
      case CloseSocketsEvent(cached) => CloseSockets(s, cached)
      case CloseSettledEvent(timedOut, cleanupsFailed) =>
        FinishClose(s, cleanupsFailed
                       || timedOut * s.close.value.sockets != {}
                       || s.drain != Some(Reported([])))
      case RestartEvent => Start(s)
  }

  function Run(s: State, events: seq<Event>): State
    decreases |events|
  {
    if events == [] then s else Run(Step(s, events[0]), events[1..])
  }

  lemma {:induction false} RunOneMore(s: State, events: seq<Event>, i: nat)
    requires i < |events|
    ensures Run(s, events[..i + 1]) == Step(Run(s, events[..i]), events[i])
    decreases |events|
  {
    hide Step;
    if i == 0 {
      assert events[..1] == [events[0]] && events[..1][1..] == [] && events[..0] == [];
    } else {
      assert events[..i + 1][1..] == events[1..][..i] && events[..i][1..] == events[1..][..i - 1];
      RunOneMore(Step(s, events[0]), events[1..], i - 1);
    }
  }

  /** An owner that gets these events is in the state the theorems about runs speak of. */
  method Replay(events: seq<Event>) returns (owner: Owner)
    ensures fresh(owner) && owner.View() == Run(Registry(0, 0), events)
  {
    hide Step;
    owner := new Owner();
    assert events[..0] == [];
    for i := 0 to |events|
      invariant fresh(owner) && owner.View() == Run(Registry(0, 0), events[..i])
    {
      owner.Perform(events[i]);
      RunOneMore(Registry(0, 0), events, i);
    }
    assert events[..|events|] == events;
  }

  function Rank(phase: Phase): nat {
    match phase
    case Running => 0
    case Stopping => 1
    case Drained => 2
    case Closed => 3
    case CloseFailed => 3
  }

  predicate HasReported(s: State) {
    s.drain.Some? && s.drain.value.Reported?
  }

  predicate OwnershipHolds(s: State) {
    && (forall op | op in s.pending :: op < s.nextId)
    && (forall op | op in s.teardown :: op < s.nextId)
    && (if s.phase == Running then s.workers !! s.told else s.workers <= s.told)
  }

  predicate PhaseHolds(s: State) {
    && (s.drain.Some? ==> s.phase != Running)
    && (Rank(s.phase) >= 2 <==> HasReported(s))
    && (HasReported(s) ==> s.drain.value.failures <= s.failures)
    && (s.close.Some? && s.close.value.AwaitingSockets? ==> HasReported(s) && s.phase == Drained)
    && (Rank(s.phase) == 3 <==> s.close == Some(CloseDone))
    && (s.close == Some(AwaitingDrain) ==> s.drain.Some?)
  }

  predicate Inv(s: State) {
    OwnershipHolds(s) && PhaseHolds(s)
  }

  lemma ShutdownKeepsOwnership(s: State, aborts: seq<Reason>, backfills: nat)
    requires OwnershipHolds(s)
    ensures OwnershipHolds(BeginShutdown(s, aborts, backfills))
  {
    hide NewIds;
    NewIdsMeaning(s.nextId, backfills + |s.workers|);
  }

  lemma StepKeepsOwnership(s: State, e: Event)
    requires Inv(s)
    ensures OwnershipHolds(Step(s, e))
  {
    hide BeginShutdown;
    match e {
      case ShutdownEvent(aborts, backfills) => ShutdownKeepsOwnership(s, aborts, backfills);
      case DrainEvent(aborts, backfills) => ShutdownKeepsOwnership(s, aborts, backfills);
      case CloseDrainsEvent(aborts, backfills) => ShutdownKeepsOwnership(s, aborts, backfills);
      case _ =>
    }
  }

  lemma StepKeepsPhase(s: State, e: Event)
    requires Inv(s)
    ensures PhaseHolds(Step(s, e))
    ensures Step(s, e).generation >= s.generation
  {
  }

  lemma StepKeepsInv(s: State, e: Event)
    requires Inv(s)
    ensures Inv(Step(s, e))
    ensures Step(s, e).generation >= s.generation
  {
    StepKeepsOwnership(s, e);
    StepKeepsPhase(s, e);
  }

  lemma {:induction false} RunKeepsInv(s: State, events: seq<Event>)
    requires Inv(s)
    ensures Inv(Run(s, events)) && Run(s, events).generation >= s.generation
    decreases |events|
  {
    if events != [] {
      StepKeepsInv(s, events[0]);
      RunKeepsInv(Step(s, events[0]), events[1..]);
    }
  }

  /** What stays true of a registry from one state to a later one. */
  predicate Later(s: State, t: State) {
    t.generation == s.generation ==>
      && Rank(t.phase) >= Rank(s.phase)
      && s.failures <= t.failures
      && (s.phase != Running ==> t.pending - t.teardown <= s.pending - s.teardown)
      && (HasReported(s) ==> t.drain == s.drain)
      && s.teardown <= t.teardown
  }

  lemma StepIsLater(s: State, e: Event)
    requires Inv(s)
    ensures Later(s, Step(s, e))
  {
  }

  /** Within one registry the phase only moves forward, and after shutdown began no operation but
      teardown is admitted. */
  lemma {:induction false} RegistryMovesForward(s: State, events: seq<Event>)
    requires Inv(s)
    ensures Later(s, Run(s, events))
    decreases |events|
  {
    if events != [] {
      var next := Step(s, events[0]);
      StepKeepsInv(s, events[0]);
      StepIsLater(s, events[0]);
      RunKeepsInv(next, events[1..]);
      RegistryMovesForward(next, events[1..]);
    }
  }

  lemma RegistryHolds(nextId: nat, generation: nat)
    ensures Inv(Registry(nextId, generation))
  {
  }

  /** At any moment of any run, a step that reaches `drained` comes from a shutdown with nothing pending
      and no worker alive, and reports exactly the failures recorded by then. */
  lemma DrainedMeansEmpty(events: seq<Event>, e: Event)
    requires var s := Run(Registry(0, 0), events); s.phase != Drained && Step(s, e).phase == Drained
    ensures var s := Run(Registry(0, 0), events);
            && s.pending == {} && s.workers == {} && s.phase == Stopping
            && Step(s, e).drain == Some(Reported(s.failures))
  {
    RegistryHolds(0, 0);
    RunKeepsInv(Registry(0, 0), events);
  }

  /** Every failure recorded before the drain ends is in the drain's report. */
  lemma {:induction false} DrainReportsEveryFailure(s: State, events: seq<Event>, reason: Reason)
    requires Inv(s) && !HasReported(s) && reason in s.failures
    requires var t := Run(s, events); t.generation == s.generation && HasReported(t)
    ensures reason in Run(s, events).drain.value.failures
    decreases |events|
  {
    if events != [] {
      var e, next := events[0], Step(s, events[0]);
      StepKeepsInv(s, e);
      StepIsLater(s, e);
      RunKeepsInv(next, events[1..]);
      if HasReported(next) {
        ReportComesFromTheCheck(s, e);
        RegistryMovesForward(next, events[1..]);
      } else {
        DrainReportsEveryFailure(next, events[1..], reason);
      }
    }
  }

  lemma ReportComesFromTheCheck(s: State, e: Event)
    requires Inv(s) && !HasReported(s) && HasReported(Step(s, e))
    ensures Step(s, e).drain == Some(Reported(s.failures)) && Step(s, e).failures == s.failures
    ensures Step(s, e).phase == Drained
  {
  }

  lemma WorkerStep(s: State, e: Event, worker: nat)
    requires Inv(s) && worker in s.workers && e != WorkerExitEvent(worker)
    ensures worker in Step(s, e).workers && Step(s, e).generation == s.generation
  {
  }

  /** A live worker has been told to terminate exactly when shutdown has begun, however late it came, and
      it stays owned until it exits. */
  lemma {:induction false} WorkersAreOwnedAndTold(s: State, events: seq<Event>, worker: nat)
    requires Inv(s) && worker in s.workers
    requires WorkerExitEvent(worker) !in events
    ensures var t := Run(s, events);
            worker in t.workers && (worker in t.told <==> t.phase != Running) && t.generation == s.generation
    decreases |events|
  {
    if events != [] {
      assert events[0] in events;
      StepKeepsInv(s, events[0]);
      WorkerStep(s, events[0], worker);
      WorkersAreOwnedAndTold(Step(s, events[0]), events[1..], worker);
    }
  }

  /** At any moment of any run, a new registry is made only after a clean close, with nothing left in the
      old one. */
  lemma RestartOnlyWhenEmpty(events: seq<Event>, e: Event)
    requires var s := Run(Registry(0, 0), events); Step(s, e).generation != s.generation
    ensures var s := Run(Registry(0, 0), events);
            MayRestart(s) && Step(s, e) == Registry(s.nextId, s.generation + 1)
  {
    RegistryHolds(0, 0);
    RunKeepsInv(Registry(0, 0), events);
  }

  lemma NoneLeft(closing: set<nat>, open: set<nat>, timedOut: set<nat>)
    requires closing * open <= timedOut
    ensures timedOut * closing == {} ==> closing !! open
    ensures timedOut * closing == {} <==> closing !! timedOut
  {
    assert forall x :: x in closing && x in timedOut ==> x in timedOut * closing;
    forall x | x in closing && x in open ensures x in timedOut * closing {
      assert x in closing * open;
    }
  }

  lemma ClosingStep(s: State, e: Event)
    requires Inv(s) && s.phase != Closed && Step(s, e).phase == Closed
    ensures s.drain == Some(Reported([]))
    ensures s.close.Some? && s.close.value.AwaitingSockets? && s.close.value.sockets !! s.sockets
    ensures e.CloseSettledEvent? && !e.cleanupsFailed && e.timedOut !! s.close.value.sockets
  {
    match e {
      case CloseSettledEvent(timedOut, _) => NoneLeft(s.close.value.sockets, s.sockets, timedOut);
      case _ =>
    }
  }

  /** At any moment of any run, `closed` is reached only if the drain reported no failure, every cleanup
      succeeded and every socket that was being closed has closed. */
  lemma ClosedMeansReleased(events: seq<Event>, e: Event)
    requires var s := Run(Registry(0, 0), events); s.phase != Closed && Step(s, e).phase == Closed
    ensures var s := Run(Registry(0, 0), events);
            && s.drain == Some(Reported([]))
            && s.close.Some? && s.close.value.AwaitingSockets? && s.close.value.sockets !! s.sockets
            && e.CloseSettledEvent? && !e.cleanupsFailed && e.timedOut !! s.close.value.sockets
  {
    RegistryHolds(0, 0);
    RunKeepsInv(Registry(0, 0), events);
    ClosingStep(Run(Registry(0, 0), events), e);
  }

  /** The moment of the report, and what it leaves out: the report holds exactly the failures there were
      when the drain ended, it never changes again, and it is missing a failure of the registry if and
      only if one was recorded after that step. */
  lemma {:induction false} ReportIsCutAtTheDrain(s: State, events: seq<Event>) returns (k: nat)
    requires Inv(s) && !HasReported(s)
    requires var t := Run(s, events); t.generation == s.generation && HasReported(t)
    ensures k < |events| && !HasReported(Run(s, events[..k]))
    ensures forall n :: k < n <= |events| ==>
              && Run(s, events[..n]).drain == Some(Reported(Run(s, events[..k]).failures))
              && Run(s, events[..k]).failures <= Run(s, events[..n]).failures <= Run(s, events).failures
    ensures Run(s, events).failures == Run(s, events).drain.value.failures <==>
              forall n :: k < n <= |events| ==> Run(s, events[..n]).failures == Run(s, events[..k]).failures
    decreases |events|
  {
    hide Step, Inv, Later;
    k := DrainStep(s, events);
    assert events[..|events|] == events;
    forall n | k < n <= |events|
      ensures Run(s, events[..n]).drain == Some(Reported(Run(s, events[..k]).failures))
      ensures Run(s, events[..k]).failures <= Run(s, events[..n]).failures <= Run(s, events).failures
    {
      ReportStays(s, events, k, n);
    }
  }

  lemma PrefixRun(s: State, events: seq<Event>, n: nat)
    requires n < |events|
    ensures Run(s, events[..n + 1]) == Run(Step(s, events[0]), events[1..][..n])
    ensures Run(s, []) == s
    ensures Run(s, events) == Run(Step(s, events[0]), events[1..])
  {
    hide Step;
    assert events[..n + 1][1..] == events[1..][..n];
  }

  /** The step at which the drain reports. */
  lemma {:induction false} DrainStep(s: State, events: seq<Event>) returns (k: nat)
    requires Inv(s) && !HasReported(s)
    requires var t := Run(s, events); t.generation == s.generation && HasReported(t)
    ensures k < |events| && !HasReported(Run(s, events[..k]))
    ensures HasReported(Run(s, events[..k + 1])) && Run(s, events[..k + 1]).failures == Run(s, events[..k]).failures
    ensures Run(s, events[..k + 1]).drain == Some(Reported(Run(s, events[..k]).failures))
    decreases |events|
  {
    hide Inv, Step;
    var e, next := events[0], Step(s, events[0]);
    StepKeepsInv(s, e);
    RunKeepsInv(next, events[1..]);
    if HasReported(next) {
      k := 0;
      ReportComesFromTheCheck(s, e);
      PrefixRun(s, events, 0);
      assert events[..0] == [];
    } else {
      var later := DrainStep(next, events[1..]);
      k := later + 1;
      PrefixRun(s, events, later);
      PrefixRun(s, events, later + 1);
    }
  }

  lemma {:induction false} RunSplits(s: State, events: seq<Event>, n: nat)
    requires n <= |events|
    ensures Run(s, events) == Run(Run(s, events[..n]), events[n..])
    decreases |events|
  {
    hide Step;
    if n == 0 {
      assert events[..0] == [] && events[0..] == events;
    } else {
      assert events[..n][1..] == events[1..][..n - 1] && events[n..] == events[1..][n - 1..];
      RunSplits(Step(s, events[0]), events[1..], n - 1);
    }
  }

  lemma ReportStays(s: State, events: seq<Event>, k: nat, n: nat)
    requires Inv(s) && k < n <= |events| && Run(s, events).generation == s.generation
    requires HasReported(Run(s, events[..k + 1])) && Run(s, events[..k + 1]).failures == Run(s, events[..k]).failures
    requires Run(s, events[..k + 1]).drain == Some(Reported(Run(s, events[..k]).failures))
    ensures Run(s, events[..n]).drain == Some(Reported(Run(s, events[..k]).failures))
    ensures Run(s, events[..k]).failures <= Run(s, events[..n]).failures <= Run(s, events).failures
  {
    hide Inv, Step, Run;
    var drained, between, t := Run(s, events[..k + 1]), Run(s, events[..n]), Run(s, events);
    RunKeepsInv(s, events[..k + 1]);
    RunSplits(s, events[..n], k + 1);
    assert events[..n][..k + 1] == events[..k + 1];
    RunKeepsInv(drained, events[..n][k + 1..]);
    RegistryMovesForward(drained, events[..n][k + 1..]);
    RunSplits(s, events, n);
    RunKeepsInv(between, events[n..]);
    RegistryMovesForward(between, events[n..]);
  }

  /** Teardown is admitted in every phase, so a session disposed while its sockets close can fail after
      the report; the close still succeeds, and a restart drops the failure. */
  lemma LateFailureIsNotReported()
    ensures var t := Run(Registry(0, 0),
                         [CloseEvent(true), CloseDrainsEvent([], 0), DrainWakesEvent, CloseSocketsEvent({}),
                          TrackEvent(true), SettleEvent(0, Some(Failure(1))), CloseSettledEvent({}, false)]);
            && t.phase == Closed && t.failures == [Failure(1)] && t.drain == Some(Reported([]))
            && Step(t, RestartEvent) == Registry(1, 1)
  {
    hide Run, Step;
    var drains := [CloseEvent(true), CloseDrainsEvent([], 0), DrainWakesEvent];
    var disposes := [CloseSocketsEvent({}), TrackEvent(true), SettleEvent(0, Some(Failure(1))), CloseSettledEvent({}, false)];
    var events := drains + disposes;
    assert events == [CloseEvent(true), CloseDrainsEvent([], 0), DrainWakesEvent, CloseSocketsEvent({}),
                      TrackEvent(true), SettleEvent(0, Some(Failure(1))), CloseSettledEvent({}, false)];
    assert events[..3] == drains && events[3..] == disposes;
    RunSplits(Registry(0, 0), events, 3);
    CloseBeginsToDrain();
    LateTeardownFails();
  }

  const CLOSED := State(Closed, {}, {0}, {}, {}, {}, {}, [Failure(1)], Some(Reported([])), Some(CloseDone), true, 1, 0)

  lemma LateTeardownFails()
    ensures Run(DRAINED, [CloseSocketsEvent({}), TrackEvent(true), SettleEvent(0, Some(Failure(1))), CloseSettledEvent({}, false)])
         == CLOSED
    ensures Step(CLOSED, RestartEvent) == Registry(1, 1)
  {
    var events := [CloseSocketsEvent({}), TrackEvent(true), SettleEvent(0, Some(Failure(1))), CloseSettledEvent({}, false)];
    var closing := DRAINED.(close := Some(AwaitingSockets({})));
    assert DRAINED.sockets + {} == {};
    assert Enabled(DRAINED, events[0]);
    assert Step(DRAINED, events[0]) == CloseSockets(DRAINED, {}) == closing;
    assert events[1..] == [TrackEvent(true), SettleEvent(0, Some(Failure(1))), CloseSettledEvent({}, false)];
    RunOfThree(closing, TrackEvent(true), SettleEvent(0, Some(Failure(1))), CloseSettledEvent({}, false));
    TeardownSettles(closing);
  }

  lemma TeardownSettles(closing: State)
    requires closing == DRAINED.(close := Some(AwaitingSockets({})))
    ensures Step(Step(Step(closing, TrackEvent(true)), SettleEvent(0, Some(Failure(1)))), CloseSettledEvent({}, false)) == CLOSED
  {
    var disposing := Step(closing, TrackEvent(true));
    assert disposing == closing.(pending := {0}, teardown := {0}, nextId := 1);
    assert Step(disposing, SettleEvent(0, Some(Failure(1)))) == closing.(teardown := {0}, nextId := 1, failures := [Failure(1)]);
  }

  const DRAINED := State(Drained, {}, {}, {}, {}, {}, {}, [], Some(Reported([])), Some(AwaitingDrain), true, 0, 0)

  lemma CloseBeginsToDrain()
    ensures Run(Registry(0, 0), [CloseEvent(true), CloseDrainsEvent([], 0), DrainWakesEvent]) == DRAINED
  {
    var called := Step(Registry(0, 0), CloseEvent(true));
    var stopping := Step(called, CloseDrainsEvent([], 0));
    assert stopping == State(Stopping, {}, {}, {}, {}, {}, {}, [], Some(Scheduled), Some(AwaitingDrain), true, 0, 0);
    RunOfThree(Registry(0, 0), CloseEvent(true), CloseDrainsEvent([], 0), DrainWakesEvent);
  }

  lemma RunOfThree(s: State, e1: Event, e2: Event, e3: Event)
    ensures Run(s, [e1, e2, e3]) == Step(Step(Step(s, e1), e2), e3)
  {
    var t := Step(Step(Step(s, e1), e2), e3);
    assert Run(t, []) == t;
    assert [e3][1..] == [];
    assert [e2, e3][1..] == [e3];
    assert [e1, e2, e3][1..] == [e2, e3];
    assert Run(Step(s, e1), [e2, e3]) == Run(Step(Step(s, e1), e2), [e3]);
  }

  // ----- when each phase is entered -----

  /** A shutdown, or a drain or close that begins with one. */
  predicate ShutsDown(s: State, e: Event) {
    e.ShutdownEvent? || e.DrainEvent? || (e.CloseDrainsEvent? && s.close == Some(CloseScheduled))
  }

  /** At any moment of any run, each phase is entered exactly so. */
  lemma PhasesAreEntered(events: seq<Event>, e: Event)
    ensures var s := Run(Registry(0, 0), events);
            var t := Step(s, e);
            && (s.phase == Running && t.phase != Running <==> s.phase == Running && ShutsDown(s, e))
            && (s.phase == Running && t.phase != Running ==> t.phase == Stopping)
            && (t.phase == Drained && s.phase != Drained <==>
                  Enabled(s, e) && e.DrainWakesEvent? && s.pending == {} && s.workers == {})
            && (s.phase != Running && t.phase == Running <==>
                  && e.RestartEvent? && s.phase == Closed
                  && s.pending == {} && s.agents == {} && s.workers == {} && s.sockets == {})
  {
    hide NewIds;
    RegistryHolds(0, 0);
    RunKeepsInv(Registry(0, 0), events);
  }

  /** At any moment of any run, a close begins with the first call that names a valid timeout, a drain with
      the first call or with the close, and from the close on the model sockets are refused. */
  lemma CallsBeginOnce(events: seq<Event>, e: Event)
    ensures var s := Run(Registry(0, 0), events);
            var t := Step(s, e);
            && (s.close.None? && t.close.Some? <==> s.close.None? && e.CloseEvent? && e.validTimeout)
            && (s.drain.None? && t.drain.Some? <==> s.drain.None? && (e.DrainEvent? || (e.CloseDrainsEvent? && ShutsDown(s, e))))
            && (t.resourcesClosing <==> t.close.Some?)
  {
    hide Step;
    ClosingRun(Registry(0, 0), events);
    ClosingStepRemembers(Run(Registry(0, 0), events), e);
    BeginsOnce(Run(Registry(0, 0), events), e);
  }

  lemma BeginsOnce(s: State, e: Event)
    ensures var t := Step(s, e);
            && (s.close.None? && t.close.Some? <==> s.close.None? && e.CloseEvent? && e.validTimeout)
            && (s.drain.None? && t.drain.Some? <==> s.drain.None? && (e.DrainEvent? || (e.CloseDrainsEvent? && ShutsDown(s, e))))
  {
    hide NewIds;
  }

  lemma {:induction false} ClosingRun(s: State, events: seq<Event>)
    requires s.resourcesClosing <==> s.close.Some?
    ensures var t := Run(s, events); t.resourcesClosing <==> t.close.Some?
    decreases |events|
  {
    hide Step;
    if events != [] {
      ClosingStepRemembers(s, events[0]);
      ClosingRun(Step(s, events[0]), events[1..]);
    }
  }

  lemma ClosingStepRemembers(s: State, e: Event)
    requires s.resourcesClosing <==> s.close.Some?
    ensures Step(s, e).resourcesClosing <==> Step(s, e).close.Some?
  {
    hide NewIds;
  }

  /** At any moment of any run, a close that settles succeeds exactly when no cleanup failed, no socket it
      was closing timed out, and the drain had no failure to report; otherwise it fails. Nothing else
      leads to `closed` or `close_failed`. */
  lemma CloseEndsExactly(events: seq<Event>, e: Event)
    ensures var s := Run(Registry(0, 0), events);
            var t := Step(s, e);
            && (Enabled(s, e) && e.CloseSettledEvent? ==>
                  var closing := s.close.value.sockets;
                  if !e.cleanupsFailed && (forall socket | socket in closing :: socket !in e.timedOut) && s.drain == Some(Reported([]))
                  then t.phase == Closed && closing !! s.sockets
                  else t.phase == CloseFailed)
            && (t.phase != s.phase && (t.phase == Closed || t.phase == CloseFailed) ==> Enabled(s, e) && e.CloseSettledEvent?)
  {
    RegistryHolds(0, 0);
    RunKeepsInv(Registry(0, 0), events);
    var s := Run(Registry(0, 0), events);
    if Enabled(s, e) && e.CloseSettledEvent? { NoneLeft(s.close.value.sockets, s.sockets, e.timedOut); }
  }

  lemma AwaitingSocketsStep(s: State, e: Event)
    requires Inv(s) && s.close.Some? && s.close.value.AwaitingSockets?
    ensures var t := Step(s, e);
            || t.close == s.close
            || (t.close == Some(CloseDone) && t.phase != Running)
  {
  }

  lemma {:induction false} AwaitingSocketsRun(s: State, events: seq<Event>)
    requires Inv(s) && s.close.Some? && s.close.value.AwaitingSockets?
    ensures var t := Run(s, events);
            t.generation == s.generation && t.close.Some? && t.close.value.AwaitingSockets? ==> t.close == s.close
    decreases |events|
  {
    hide Step, Inv;
    if events != [] {
      var next := Step(s, events[0]);
      StepKeepsInv(s, events[0]);
      AwaitingSocketsStep(s, events[0]);
      StepKeepsGeneration(s, events[0]);
      if next.close == s.close { AwaitingSocketsRun(next, events[1..]); } else { DoneRun(next, events[1..]); }
    }
  }

  lemma StepKeepsGeneration(s: State, e: Event)
    requires s.close.Some? && s.close.value.AwaitingSockets? && Inv(s)
    ensures Step(s, e).generation == s.generation
  {
  }

  lemma DoneStep(s: State, e: Event)
    requires Inv(s) && s.close == Some(CloseDone)
    ensures Step(s, e).close == Some(CloseDone) || Step(s, e).generation > s.generation
  {
  }

  lemma {:induction false} DoneRun(s: State, events: seq<Event>)
    requires Inv(s) && s.close == Some(CloseDone)
    ensures var t := Run(s, events); t.generation > s.generation || t.close == Some(CloseDone)
    decreases |events|
  {
    hide Step, Inv;
    if events != [] {
      var next := Step(s, events[0]);
      StepKeepsInv(s, events[0]);
      DoneStep(s, events[0]);
      if next.generation > s.generation {
        RunKeepsInv(next, events[1..]);
      } else {
        StepKeepsInv(s, events[0]);
        DoneRun(next, events[1..]);
      }
    }
  }

  /** A close that succeeds has seen every socket closed that was open or in the session cache when the
      drain had reported. */
  lemma SocketsAreAwaited(s: State, cached: set<nat>, during: seq<Event>, timedOut: set<nat>, cleanupsFailed: bool)
    requires Inv(s) && Enabled(s, CloseSocketsEvent(cached))
    requires var t := Run(Step(s, CloseSocketsEvent(cached)), during);
             && t.generation == s.generation && Enabled(t, CloseSettledEvent(timedOut, cleanupsFailed))
             && Step(t, CloseSettledEvent(timedOut, cleanupsFailed)).phase == Closed
    ensures var t := Run(Step(s, CloseSocketsEvent(cached)), during);
            s.sockets !! t.sockets && cached !! t.sockets
  {
    var e := CloseSocketsEvent(cached);
    StepKeepsInv(s, e);
    var next := Step(s, e);
    AwaitingSocketsRun(next, during);
    var t := Run(next, during);
    RunKeepsInv(next, during);
    NoneLeft(t.close.value.sockets, t.sockets, timedOut);
    assert t.close.value.sockets == s.sockets + cached;
  }

  // ----- what is owned -----

  /** Operations are accounted for: a settled one is gone, and exactly these are new, under fresh ids: a
      tracked operation that is admitted, the termination of a worker that comes too late, and at the
      start of a shutdown one teardown for every backfill and every worker. */
  lemma OperationsAreAccounted(s: State, e: Event)
    requires Inv(s) && !e.RestartEvent?
    ensures var t := Step(s, e);
            && (forall op :: op in t.pending <==>
                  (op in s.pending && !(e.SettleEvent? && e.op == op)) || s.nextId <= op < t.nextId)
            && (forall op :: op in t.teardown <==> op in s.teardown || (e != TrackEvent(false) && s.nextId <= op < t.nextId))
            && t.nextId - s.nextId ==
                 (if e.TrackEvent? then if e.teardown || s.phase == Running then 1 else 0
                  else if e.WorkerEvent? then if e.worker !in s.workers && s.phase != Running then 1 else 0
                  else if s.phase == Running && ShutsDown(s, e) then |s.workers| + e.backfills
                  else 0)
  {
    if s.phase == Running && ShutsDown(s, e) {
      ShutdownIsAccounted(s, e);
    } else {
      hide TrackTeardown, NewIds;
      if ShutsDown(s, e) { BeginsNothing(s, e); }
    }
  }

  lemma BeginsNothing(s: State, e: Event)
    requires !(s.phase == Running && ShutsDown(s, e)) && ShutsDown(s, e)
    ensures Step(s, e).pending == s.pending && Step(s, e).teardown == s.teardown && Step(s, e).nextId == s.nextId
  {
  }

  lemma ShutdownIsAccounted(s: State, e: Event)
    requires s.phase == Running && ShutsDown(s, e)
    ensures var t, count := Step(s, e), |s.workers| + e.backfills;
            && t.nextId == s.nextId + count
            && (forall op :: op in t.pending <==> op in s.pending || s.nextId <= op < s.nextId + count)
            && (forall op :: op in t.teardown <==> op in s.teardown || s.nextId <= op < s.nextId + count)
  {
    ShutdownTracks(s, e);
    TeardownIsAccounted(s, e.backfills + |s.workers|);
  }

  lemma ShutdownTracks(s: State, e: Event)
    requires s.phase == Running && ShutsDown(s, e)
    ensures var t, tracked := Step(s, e), TrackTeardown(s, e.backfills + |s.workers|);
            t.pending == tracked.pending && t.teardown == tracked.teardown && t.nextId == tracked.nextId
  {
    hide TrackTeardown;
  }

  lemma TeardownIsAccounted(s: State, count: nat)
    ensures var t := TrackTeardown(s, count);
            && t.nextId == s.nextId + count
            && (forall op :: op in t.pending <==> op in s.pending || s.nextId <= op < s.nextId + count)
            && (forall op :: op in t.teardown <==> op in s.teardown || s.nextId <= op < s.nextId + count)
  {
    hide NewIds;
    NewIdsMeaning(s.nextId, count);
  }

  /** Read off the events: the worker came and has not exited since. */
  predicate WorkerLives(events: seq<Event>, worker: nat) {
    && events != []
    && match events[|events| - 1]
       case WorkerEvent(w) => w == worker || WorkerLives(events[..|events| - 1], worker)
       case WorkerExitEvent(w) => w != worker && WorkerLives(events[..|events| - 1], worker)
       case _ => WorkerLives(events[..|events| - 1], worker)
  }

  /** The socket was made, or adopted from the cache by a close, and has not closed since. */
  predicate SocketLives(events: seq<Event>, socket: nat) {
    && events != []
    && var before := events[..|events| - 1];
       match events[|events| - 1]
       case SocketEvent(x) => x == socket || SocketLives(before, socket)
       case SocketClosedEvent(x) => x != socket && SocketLives(before, socket)
       case CloseSocketsEvent(cached) =>
         || SocketLives(before, socket)
         || (socket in cached && Enabled(Run(Registry(0, 0), before), CloseSocketsEvent(cached)))
       case _ => SocketLives(before, socket)
  }

  /** The agent's prompt was admitted, while the phase was running, and has not ended since. */
  predicate PromptLives(events: seq<Event>, agent: nat) {
    && events != []
    && var before := events[..|events| - 1];
       match events[|events| - 1]
       case PromptEvent(a) => (a == agent && Run(Registry(0, 0), before).phase == Running) || PromptLives(before, agent)
       case PromptEndEvent(a, _) => a != agent && PromptLives(before, agent)
       case _ => PromptLives(before, agent)
  }

  lemma OwnershipStep(s: State, e: Event, id: nat)
    ensures var t := Step(s, e);
            && (id in t.workers <==> e == WorkerEvent(id) || (id in s.workers && e != WorkerExitEvent(id)))
            && (id in t.sockets <==>
                  || e == SocketEvent(id) || (e.CloseSocketsEvent? && id in e.cached && Enabled(s, e))
                  || (id in s.sockets && e != SocketClosedEvent(id)))
            && (id in t.agents <==>
                  || (e == PromptEvent(id) && s.phase == Running)
                  || (id in s.agents && !(e.PromptEndEvent? && e.agent == id)))
  {
  }

  /** In every run the workers, sockets and agents owned are exactly those that the events have brought and
      not taken away, over all registries. */
  lemma {:induction false} OwnedByTheEvents(events: seq<Event>, id: nat)
    ensures var s := Run(Registry(0, 0), events);
            && (id in s.workers <==> WorkerLives(events, id))
            && (id in s.sockets <==> SocketLives(events, id))
            && (id in s.agents <==> PromptLives(events, id))
  {
    hide Step;
    if events != [] {
      var n := |events| - 1;
      OwnedByTheEvents(events[..n], id);
      assert events[..n + 1] == events;
      RunOneMore(Registry(0, 0), events, n);
      OwnershipStep(Run(Registry(0, 0), events[..n]), events[n], id);
    }
  }

  // ----- what a drain reports, and that it ends -----

  /** The reasons an event records: a teardown that failed other than by cancellation, an error caught in
      one, an agent that did not come to rest, and what agents' aborts throw when a shutdown begins. */
  function Reasons(s: State, e: Event): seq<Reason> {
    if !Enabled(s, e) then []
    else
      match e
      case SettleEvent(op, Some(Failure(code))) => if op in s.teardown then [Failure(code)] else []
      case CaughtEvent(_, reason) => [reason]
      case PromptEndEvent(_, Some(reason)) => [reason]
      case ShutdownEvent(aborts, _) => if s.phase == Running then aborts else []
      case DrainEvent(aborts, _) => if s.phase == Running then aborts else []
      case CloseDrainsEvent(aborts, _) => if s.phase == Running then aborts else []
      case _ => []
  }

  function Recorded(s: State, events: seq<Event>): seq<Reason>
    decreases |events|
  {
    if events == [] then [] else Reasons(s, events[0]) + Recorded(Step(s, events[0]), events[1..])
  }

  lemma RecordedStep(s: State, e: Event)
    requires Step(s, e).generation == s.generation
    ensures Step(s, e).failures == s.failures + Reasons(s, e)
  {
  }

  /** The failures of a registry are exactly what was recorded in it, in order. */
  lemma {:induction false} FailuresAreRecorded(s: State, events: seq<Event>)
    requires Inv(s) && Run(s, events).generation == s.generation
    ensures Run(s, events).failures == s.failures + Recorded(s, events)
    decreases |events|
  {
    hide Step, Inv, Reasons;
    if events != [] {
      StepKeepsInv(s, events[0]);
      RunKeepsInv(Step(s, events[0]), events[1..]);
      RecordedStep(s, events[0]);
      FailuresAreRecorded(Step(s, events[0]), events[1..]);
    }
  }

  /** In every run of a registry, the drain ends exactly when it wakes with nothing pending and no worker
      left, and reports exactly what was recorded since the registry was made. */
  lemma DrainReportsWhatWasRecorded(nextId: nat, generation: nat, events: seq<Event>)
    requires var s := Run(Registry(nextId, generation), events);
             s.generation == generation && Enabled(s, DrainWakesEvent)
    ensures var s := Run(Registry(nextId, generation), events);
            var t := Step(s, DrainWakesEvent);
            if s.pending == {} && s.workers == {}
            then t.phase == Drained && t.drain == Some(Reported(Recorded(Registry(nextId, generation), events)))
            else t.phase == s.phase && !HasReported(t) && !Enabled(t, DrainWakesEvent)
  {
    RegistryHolds(nextId, generation);
    FailuresAreRecorded(Registry(nextId, generation), events);
    var s, made := Run(Registry(nextId, generation), events), Registry(nextId, generation);
    assert made.failures + Recorded(made, events) == Recorded(made, events);
    if s.pending != {} {
      var op :| op in s.pending;
    } else if s.workers != {} {
      var worker :| worker in s.workers;
    }
  }

  lemma SleepingStep(s: State, e: Event)
    requires Inv(s) && s.drain.Some? && s.drain.value.Waiting? && !e.DrainWakesEvent?
    ensures Step(s, e).drain == s.drain
  {
  }

  lemma {:induction false} SleepingRun(s: State, events: seq<Event>)
    requires Inv(s) && s.drain.Some? && s.drain.value.Waiting? && DrainWakesEvent !in events
    ensures Run(s, events).drain == s.drain
    decreases |events|
  {
    hide Step, Inv;
    if events != [] {
      assert events[0] in events;
      StepKeepsInv(s, events[0]);
      SleepingStep(s, events[0]);
      SleepingRun(Step(s, events[0]), events[1..]);
    }
  }

  /** A drain that found something left wakes again only when all of that has settled and exited. */
  lemma DrainSleepsUntilSettled(s: State, during: seq<Event>)
    requires Inv(s) && Enabled(s, DrainWakesEvent) && (s.pending != {} || s.workers != {})
    requires DrainWakesEvent !in during
    ensures var t := Run(Step(s, DrainWakesEvent), during);
            Enabled(t, DrainWakesEvent) <==> s.pending !! t.pending && s.workers !! t.workers
  {
    StepKeepsInv(s, DrainWakesEvent);
    SleepingRun(Step(s, DrainWakesEvent), during);
  }
}

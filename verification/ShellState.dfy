// source/box-exec-daemon/server.ts: persistent shell state (cwd and environment) of one state directory.
//
// Every shell call snapshots into a private directory. When its process closes, a job joins the write
// queue of the state directory; only the call that started last may publish its snapshot. Each
// filesystem operation is an await, so starts and closes of other calls interleave with a job. A
// directory is its content (an id), or absent; the adversary decides which operations fail.

module ShellState {
  import opened Common

  /** A private directory; `complete` when it holds the saved working directory. */
  datatype Output = Output(content: nat, complete: bool)

  datatype Job = Job(call: nat, aborted: bool)

  /** The operations of a job that will fail. */
  datatype Faults = Faults(remove: bool, moveAway: bool, moveIn: bool, restore: bool, dropPrevious: bool, dropOutput: bool)

  datatype Stage = RemoveState | MoveAway | MoveIn(moved: bool) | Restore | DropPrevious | DropOutput

  datatype Turn = Turn(job: Job, stage: Stage, faults: Faults)

  /** `newest` is the version map's entry (a call is its own version), `waiting` the calls that still
      wait for the write that was last in the queue when they began, `running` those that have a
      version and no exit yet, `finished` the calls whose jobs are over. */
  datatype State = State(
    newest: Option<nat>,
    published: Option<nat>,
    outputs: map<nat, Output>,
    previous: map<nat, nat>,
    queue: seq<Job>,
    turn: Option<Turn>,
    waiting: map<nat, Option<nat>>,
    running: set<nat>,
    finished: set<nat>)

  function Initial(published: Option<nat>): State {
    State(None, published, map[], map[], [], None, map[], {}, {})
  }

  /** The write a new call has to wait for. */
  function Tail(s: State): Option<nat> {
    if s.queue != [] then Some(s.queue[|s.queue| - 1].call)
    else if s.turn.Some? then Some(s.turn.value.job.call)
    else None
  }

  function Begin(s: State, call: nat): State {
    s.(waiting := s.waiting[call := Tail(s)])
  }

  /** The call takes its version. */
  function Claim(s: State, call: nat): State {
    s.(waiting := s.waiting - {call}, newest := Some(call), running := s.running + {call})
  }

  function Snapshot(s: State, call: nat, output: Output): State {
    s.(outputs := s.outputs[call := output])
  }

  function Close(s: State, call: nat, aborted: bool): State {
    s.(running := s.running - {call}, queue := s.queue + [Job(call, aborted)])
  }

  predicate Complete(s: State, call: nat) {
    call in s.outputs && s.outputs[call].complete
  }

  /** The job at the head of the queue gets its turn: is its version still the newest? */
  function Check(s: State, faults: Faults): State
    requires s.queue != []
  {
    var job := s.queue[0];
    var stage :=
      if s.newest != Some(job.call) then DropOutput
      else if job.aborted then RemoveState
      else if !Complete(s, job.call) then DropOutput
      else MoveAway;
    s.(queue := s.queue[1..], turn := Some(Turn(job, stage, faults)))
  }

  predicate CanAdvance(s: State) {
    && s.turn.Some?
    && (s.turn.value.stage.MoveIn? ==> s.turn.value.job.call in s.outputs)
    && (s.turn.value.stage.Restore? ==> s.turn.value.job.call in s.previous)
  }

  /** The next filesystem operation of the job. */
  function Advance(s: State): State
    requires CanAdvance(s)
  {
    var turn := s.turn.value;
    var call, faults := turn.job.call, turn.faults;
    match turn.stage
    case RemoveState =>
      s.(published := if faults.remove then s.published else None, turn := Some(turn.(stage := DropOutput)))
    case MoveAway =>
      if s.published.None? then s.(turn := Some(turn.(stage := MoveIn(false))))
      else if faults.moveAway then s.(turn := Some(turn.(stage := DropPrevious)))
      else s.(published := None, previous := s.previous[call := s.published.value],
              turn := Some(turn.(stage := MoveIn(true))))
    case MoveIn(moved) =>
      if faults.moveIn then s.(turn := Some(turn.(stage := if moved then Restore else DropPrevious)))
      else s.(published := Some(s.outputs[call].content), outputs := s.outputs - {call},
              turn := Some(turn.(stage := DropPrevious)))
    case Restore =>
      if faults.restore then s.(turn := Some(turn.(stage := DropPrevious)))
      else s.(published := Some(s.previous[call]), previous := s.previous - {call},
              turn := Some(turn.(stage := DropPrevious)))
    case DropPrevious =>
      s.(previous := if faults.dropPrevious then s.previous else s.previous - {call},
         turn := Some(turn.(stage := DropOutput)))
    case DropOutput =>
      s.(outputs := if faults.dropOutput then s.outputs else s.outputs - {call},
         turn := None, finished := s.finished + {call})
  }

  // ----- a job as one action -----

  /** What a job leaves published. */
  function PublishedAfter(before: Option<nat>, newest: bool, aborted: bool, output: Option<Output>, f: Faults): Option<nat> {
    if !newest then before
    else if aborted then if f.remove then before else None
    else if output.None? || !output.value.complete then before
    else if before.Some? && f.moveAway then before
    else if !f.moveIn then Some(output.value.content)
    else if before.Some? && f.restore then None
    else before
  }

  function OutputOf(s: State, call: nat): Option<Output> {
    if call in s.outputs then Some(s.outputs[call]) else None
  }

  /** The state directory as an object, between jobs: calls begin, claim their version and close, and
      `RunTurn` is the job at the head of the queue from its turn to its end. */
  class Directory {
    var newest: Option<nat>
    var published: Option<nat>
    var outputs: map<nat, Output>
    var previous: map<nat, nat>
    var queue: seq<Job>
    var waiting: map<nat, Option<nat>>
    var running: set<nat>
    var finished: set<nat>

    function View(): State
      reads this
    {
      State(newest, published, outputs, previous, queue, None, waiting, running, finished)
    }

    constructor (content: Option<nat>)
      ensures View() == Initial(content)
    {
      newest, published, outputs, previous := None, content, map[], map[];
      queue, waiting, running, finished := [], map[], {}, {};
    }

    method BeginCall(call: nat)
      modifies this
      ensures View() == Begin(old(View()), call)
    {
      waiting := waiting[call := if queue != [] then Some(queue[|queue| - 1].call) else None];
    }

    method ClaimVersion(call: nat)
      modifies this
      ensures View() == Claim(old(View()), call)
    {
      waiting := waiting - {call};
      newest := Some(call);
      running := running + {call};
    }

    method ProcessClosed(call: nat, aborted: bool)
      modifies this
      ensures View() == Close(old(View()), call, aborted)
    {
      running := running - {call};
      queue := queue + [Job(call, aborted)];
    }

    /** Moves the snapshot in, or the old state back. */
    method Swap(version: nat, f: Faults)
      requires version in outputs && outputs[version].complete
      modifies this`published, this`outputs, this`previous
      ensures published == PublishedAfter(old(published), true, false, Some(old(outputs)[version]), f)
      ensures outputs == old(outputs) || outputs == old(outputs) - {version}
      ensures previous - {version} == old(previous) - {version}
      ensures !f.dropPrevious ==> version !in previous
    {
      var movedPrevious, failed := false, false;
      if published.Some? {
        if f.moveAway {
          failed := true;
        } else {
          previous := previous[version := published.value];
          published := None;
          movedPrevious := true;
        }
      }
      if !failed {
        if !f.moveIn {
          published := Some(outputs[version].content);
          outputs := outputs - {version};
        } else if movedPrevious && !f.restore {
          published := Some(previous[version]);
          previous := previous - {version};
        }
      }
      if !f.dropPrevious { previous := previous - {version}; }
    }

    method RunTurn(f: Faults)
      requires queue != []
      modifies this
      ensures newest == old(newest) && queue == old(queue)[1..]
      ensures waiting == old(waiting) && running == old(running) && finished == old(finished) + {old(queue)[0].call}
      ensures var call := old(queue)[0].call;
              && published == PublishedAfter(old(published), newest == Some(call), old(queue)[0].aborted,
                                             OutputOf(old(View()), call), f)
              && outputs - {call} == old(outputs) - {call}
              && (!f.dropOutput ==> call !in outputs)
              && previous - {call} == old(previous) - {call}
              && (!f.dropPrevious && call !in old(previous) ==> call !in previous)
    {
      var version, aborted := queue[0].call, queue[0].aborted;
      queue := queue[1..];
      if newest == Some(version) {
        if aborted {
          if !f.remove { published := None; }
        } else if version in outputs && outputs[version].complete {
          Swap(version, f);
        }
      }
      if !f.dropOutput { outputs := outputs - {version}; }
      finished := finished + {version};
    }
  }

  // ----- runs -----

  datatype Event =
    | BeginEvent(call: nat)
    | ClaimEvent(call: nat)
    | SnapshotEvent(call: nat, output: Output)
    | CloseEvent(call: nat, aborted: bool)
    | CheckEvent(faults: Faults)
    | AdvanceEvent

  predicate Queued(s: State, call: nat) {
    exists k | 0 <= k < |s.queue| :: s.queue[k].call == call
  }

  predicate Known(s: State, call: nat) {
    || call in s.waiting || call in s.running || call in s.finished || Queued(s, call)
    || (s.turn.Some? && s.turn.value.job.call == call)
  }

  predicate Enabled(s: State, e: Event) {
    match e
    case BeginEvent(call) => !Known(s, call)
    case ClaimEvent(call) => call in s.waiting && (s.waiting[call].Some? ==> s.waiting[call].value in s.finished)
    case SnapshotEvent(call, _) => call in s.running
    case CloseEvent(call, _) => call in s.running
    case CheckEvent(_) => s.turn.None? && s.queue != []
    case AdvanceEvent => CanAdvance(s)
  }

  function Step(s: State, e: Event): State {
    if !Enabled(s, e) then s
    else
      match e
      case BeginEvent(call) => Begin(s, call)
      case ClaimEvent(call) => Claim(s, call)
      case SnapshotEvent(call, output) => Snapshot(s, call, output)
      case CloseEvent(call, aborted) => Close(s, call, aborted)
      case CheckEvent(faults) => Check(s, faults)
      case AdvanceEvent => Advance(s)
  }

  function Run(s: State, events: seq<Event>): State
    decreases |events|
  {
    if events == [] then s else Run(Step(s, events[0]), events[1..])
  }

  /** A call is in one place at a time. */
  predicate PlacesHold(s: State) {
    && (forall call | call in s.running :: call !in s.waiting && call !in s.finished && !Queued(s, call))
    && (forall k | 0 <= k < |s.queue| :: s.queue[k].call !in s.waiting && s.queue[k].call !in s.finished)
    && (forall j, k | 0 <= j < k < |s.queue| :: s.queue[j].call != s.queue[k].call)
    && (forall call | call in s.waiting :: call !in s.finished)
    && (s.turn.Some? ==>
          var call := s.turn.value.job.call;
          call !in s.running && call !in s.waiting && call !in s.finished && !Queued(s, call))
  }

  /** A job in its turn has what its stage needs. */
  predicate TurnHolds(s: State) {
    s.turn.Some? ==>
      var call, stage := s.turn.value.job.call, s.turn.value.stage;
      && (stage.MoveAway? || stage.MoveIn? ==> call in s.outputs)
      && (stage.MoveIn? ==> s.published.None? && (stage.moved ==> call in s.previous))
      && (stage.Restore? ==> call in s.previous && s.published.None?)
  }

  predicate Inv(s: State) {
    PlacesHold(s) && TurnHolds(s)
  }

  lemma QueuedAfterClose(s: State, call: nat, aborted: bool, other: nat)
    ensures Queued(Close(s, call, aborted), other) <==> other == call || Queued(s, other)
  {
    var t := Close(s, call, aborted);
    assert t.queue[|s.queue|].call == call;
    assert forall k :: 0 <= k < |s.queue| ==> t.queue[k] == s.queue[k];
  }

  lemma CloseKeepsPlaces(s: State, call: nat, aborted: bool)
    requires PlacesHold(s) && call in s.running
    ensures PlacesHold(Close(s, call, aborted))
  {
    forall other ensures Queued(Close(s, call, aborted), other) <==> other == call || Queued(s, other) {
      QueuedAfterClose(s, call, aborted, other);
    }
  }

  lemma CheckKeepsPlaces(s: State, faults: Faults)
    requires PlacesHold(s) && s.turn.None? && s.queue != []
    ensures PlacesHold(Check(s, faults))
  {
    hide Complete;
    var t := Check(s, faults);
    assert forall k :: 0 <= k < |t.queue| ==> t.queue[k] == s.queue[k + 1];
    assert Queued(s, s.queue[0].call);
  }

  lemma BeginKeepsPlaces(s: State, call: nat)
    requires PlacesHold(s) && !Known(s, call)
    ensures PlacesHold(Begin(s, call))
  {
    hide Tail;
    assert forall k :: 0 <= k < |s.queue| ==> s.queue[k].call != call;
  }

  /** An operation leaves everything that is not its own job's, up to the last, which ends the job. */
  lemma AdvanceLeavesOthers(s: State)
    requires CanAdvance(s)
    ensures var t := Advance(s);
            && t.queue == s.queue && t.waiting == s.waiting && t.running == s.running && t.newest == s.newest
            && (t.turn.Some? ==> t.turn.value.job == s.turn.value.job && t.finished == s.finished)
            && (t.turn.None? ==> t.finished == s.finished + {s.turn.value.job.call})
  {
  }

  lemma AdvanceKeepsPlaces(s: State)
    requires PlacesHold(s) && CanAdvance(s)
    ensures PlacesHold(Advance(s))
  {
    hide Advance;
    AdvanceLeavesOthers(s);
    var call := s.turn.value.job.call;
    assert forall k :: 0 <= k < |s.queue| ==> s.queue[k].call != call;
  }

  lemma StepKeepsPlaces(s: State, e: Event)
    requires Inv(s)
    ensures PlacesHold(Step(s, e))
  {
    hide TurnHolds, Begin, Close, Check, Advance, PlacesHold, Known;
    if Enabled(s, e) {
      match e {
        case BeginEvent(call) => BeginKeepsPlaces(s, call);
        case ClaimEvent(call) => ClaimKeepsPlaces(s, call);
        case SnapshotEvent(call, output) => SnapshotKeepsPlaces(s, call, output);
        case CloseEvent(call, aborted) => CloseKeepsPlaces(s, call, aborted);
        case CheckEvent(faults) => CheckKeepsPlaces(s, faults);
        case AdvanceEvent => AdvanceKeepsPlaces(s);
      }
    }
  }

  lemma ClaimKeepsPlaces(s: State, call: nat)
    requires PlacesHold(s) && call in s.waiting
    ensures PlacesHold(Claim(s, call))
  {
    assert forall k :: 0 <= k < |s.queue| ==> s.queue[k].call != call;
  }

  lemma SnapshotKeepsPlaces(s: State, call: nat, output: Output)
    requires PlacesHold(s)
    ensures PlacesHold(Snapshot(s, call, output))
  {
  }

  lemma StepKeepsTurn(s: State, e: Event)
    requires Inv(s)
    ensures TurnHolds(Step(s, e))
  {
    hide Known, Queued;
  }

  lemma StepKeepsInv(s: State, e: Event)
    requires Inv(s)
    ensures Inv(Step(s, e))
  {
    StepKeepsPlaces(s, e);
    StepKeepsTurn(s, e);
  }

  /** What will be published when the job in its turn is over. */
  function Eventually(s: State): Option<nat>
    requires Inv(s)
  {
    if s.turn.None? then s.published
    else
      var turn := s.turn.value;
      var call, f := turn.job.call, turn.faults;
      match turn.stage
      case RemoveState => if f.remove then s.published else None
      case MoveAway => PublishedAfter(s.published, true, false, Some(s.outputs[call].(complete := true)), f)
      case MoveIn(moved) =>
        if !f.moveIn then Some(s.outputs[call].content)
        else if moved && !f.restore then Some(s.previous[call])
        else None
      case Restore => if f.restore then None else Some(s.previous[call])
      case DropPrevious => s.published
      case DropOutput => s.published
  }

  lemma CheckDecides(s: State, faults: Faults)
    requires Inv(s) && s.turn.None? && s.queue != [] && Inv(Check(s, faults))
    ensures Eventually(Check(s, faults)) ==
              PublishedAfter(s.published, s.newest == Some(s.queue[0].call), s.queue[0].aborted,
                             OutputOf(s, s.queue[0].call), faults)
  {
    hide PlacesHold;
  }

  lemma AdvanceIsDecided(s: State)
    requires Inv(s) && CanAdvance(s) && Inv(Advance(s))
    ensures Eventually(Advance(s)) == Eventually(s)
  {
    hide PlacesHold;
  }

  /** A job is atomic: from its turn on its outcome is the one computed from the state at that moment,
      whatever other calls do meanwhile. */
  lemma JobsAreAtomic(s: State, e: Event)
    requires Inv(s)
    ensures Inv(Step(s, e))
    ensures Eventually(Step(s, e)) ==
              if e.CheckEvent? && Enabled(s, e)
              then PublishedAfter(s.published, s.newest == Some(s.queue[0].call), s.queue[0].aborted,
                                  OutputOf(s, s.queue[0].call), e.faults)
              else Eventually(s)
  {
    hide Check, Advance, PublishedAfter, OutputOf;
    StepKeepsInv(s, e);
    if e.CheckEvent? && Enabled(s, e) { CheckDecides(s, e.faults); }
    if e.AdvanceEvent? && Enabled(s, e) { AdvanceIsDecided(s); }
  }

  /** Read off the claims of the run: the call that started last in it. */
  function LastClaim(s: State, events: seq<Event>): Option<nat>
    decreases |events|
  {
    if events == [] then None
    else
      var later := LastClaim(Step(s, events[0]), events[1..]);
      if later.Some? then later
      else if events[0].ClaimEvent? && Enabled(s, events[0]) then Some(events[0].call)
      else None
  }

  lemma NewestStep(s: State, e: Event)
    ensures Step(s, e).newest == if e.ClaimEvent? && Enabled(s, e) then Some(e.call) else s.newest
  {
  }

  lemma {:induction false} NewestIsTheLastClaim(s: State, events: seq<Event>)
    ensures Run(s, events).newest == if LastClaim(s, events).Some? then LastClaim(s, events) else s.newest
    decreases |events|
  {
    hide Step, Enabled;
    if events != [] {
      NewestStep(s, events[0]);
      NewestIsTheLastClaim(Step(s, events[0]), events[1..]);
    }
  }

  /** In every run the version map names the call that started last, and no call before the first starts. */
  lemma NewestStartedLast(published: Option<nat>, events: seq<Event>)
    ensures Run(Initial(published), events).newest == LastClaim(Initial(published), events)
  {
    NewestIsTheLastClaim(Initial(published), events);
  }

  /** The job of `call` gets its turn along the run. */
  ghost predicate TurnComes(s: State, events: seq<Event>, call: nat)
    decreases |events|
  {
    events != [] && (|| (events[0].CheckEvent? && Enabled(s, events[0]) && s.queue[0].call == call)
                     || TurnComes(Step(s, events[0]), events[1..], call))
  }

  lemma {:induction false} OthersChangeNothing(s: State, events: seq<Event>, latest: nat)
    requires Inv(s) && s.newest == Some(latest) && LastClaim(s, events).None?
    requires !TurnComes(s, events, latest)
    ensures Inv(Run(s, events))
    ensures Eventually(Run(s, events)) == Eventually(s)
    decreases |events|
  {
    hide Step, Enabled, Inv, Eventually, PublishedAfter;
    if events != [] {
      JobsAreAtomic(s, events[0]);
      NewestStep(s, events[0]);
      NotNewest(s, events[0], latest);
      OthersChangeNothing(Step(s, events[0]), events[1..], latest);
    }
  }

  lemma NotNewest(s: State, e: Event, latest: nat)
    requires Inv(s) && s.newest == Some(latest)
    ensures e.CheckEvent? && Enabled(s, e) ==>
              && s.queue != []
              && (s.queue[0].call != latest ==>
                    PublishedAfter(s.published, s.newest == Some(s.queue[0].call), s.queue[0].aborted,
                                   OutputOf(s, s.queue[0].call), e.faults) == s.published
                    && Eventually(s) == s.published)
  {
  }

  /** Latest started wins: in every run, from the moment `latest` has started until another call starts,
      no exit of another call, early or late, changes what is published. */
  lemma LatestStartedWins(published: Option<nat>, before: seq<Event>, events: seq<Event>, latest: nat)
    requires LastClaim(Initial(published), before) == Some(latest)
    requires LastClaim(Run(Initial(published), before), events).None?
    requires !TurnComes(Run(Initial(published), before), events, latest)
    ensures var s := Run(Initial(published), before);
            var t := Run(s, events);
            Inv(s) && Inv(t) && Eventually(t) == Eventually(s) && (t.turn.None? ==> t.published == Eventually(s))
  {
    hide Inv;
    InitialHolds(published);
    RunKeepsInv(Initial(published), before);
    NewestStartedLast(published, before);
    OthersChangeNothing(Run(Initial(published), before), events, latest);
  }

  lemma {:induction false} RunKeepsInv(s: State, events: seq<Event>)
    requires Inv(s)
    ensures Inv(Run(s, events))
    decreases |events|
  {
    if events != [] {
      StepKeepsInv(s, events[0]);
      RunKeepsInv(Step(s, events[0]), events[1..]);
    }
  }

  // ----- the snapshot of a call -----

  /** Read off the events: the last snapshot of `call`. */
  function LastSnapshot(s: State, events: seq<Event>, call: nat): Option<Output>
    decreases |events|
  {
    if events == [] then None
    else
      var later := LastSnapshot(Step(s, events[0]), events[1..], call);
      if later.Some? then later
      else if events[0].SnapshotEvent? && events[0].call == call && Enabled(s, events[0]) then Some(events[0].output)
      else None
  }

  /** The job of `call` has its turn or is over. */
  predicate Past(s: State, call: nat) {
    call in s.finished || (s.turn.Some? && s.turn.value.job.call == call)
  }

  lemma PastStep(s: State, e: Event, call: nat)
    requires Inv(s)
    ensures Past(s, call) ==> Past(Step(s, e), call)
    ensures !Past(Step(s, e), call) ==>
              OutputOf(Step(s, e), call) ==
                if e.SnapshotEvent? && e.call == call && Enabled(s, e) then Some(e.output) else OutputOf(s, call)
  {
    hide PlacesHold, Complete;
  }

  lemma {:induction false} OutputIsTheLastSnapshot(s: State, events: seq<Event>, call: nat)
    requires Inv(s)
    ensures Past(s, call) ==> Past(Run(s, events), call)
    ensures !Past(Run(s, events), call) ==>
              OutputOf(Run(s, events), call) ==
                if LastSnapshot(s, events, call).Some? then LastSnapshot(s, events, call) else OutputOf(s, call)
    decreases |events|
  {
    hide Step, Enabled, Inv, Past, OutputOf;
    if events != [] {
      StepKeepsInv(s, events[0]);
      PastStep(s, events[0], call);
      OutputIsTheLastSnapshot(Step(s, events[0]), events[1..], call);
    }
  }

  lemma HeadIsNotPast(s: State)
    requires Inv(s) && s.turn.None? && s.queue != []
    ensures !Past(s, s.queue[0].call)
  {
  }

  /** In every run: what the job of the call that started last leaves published, whatever other calls do
      until one of them starts. Aborted, it removes the state; without a complete snapshot it leaves the
      state; otherwise its last snapshot is published, unless a move fails. */
  lemma LatestPublishes(published: Option<nat>, before: seq<Event>, f: Faults, after: seq<Event>)
    requires var t := Run(Initial(published), before);
             && Enabled(t, CheckEvent(f)) && LastClaim(Initial(published), before) == Some(t.queue[0].call)
             && LastClaim(Step(t, CheckEvent(f)), after).None?
             && !TurnComes(Step(t, CheckEvent(f)), after, t.queue[0].call)
    ensures var t := Run(Initial(published), before);
            var end := Run(Step(t, CheckEvent(f)), after);
            var output := LastSnapshot(Initial(published), before, t.queue[0].call);
            Inv(end) && (end.turn.None? ==> end.published == Eventually(end))
            && Eventually(end) ==
                 if t.queue[0].aborted then if f.remove then t.published else None
                 else if output.None? || !output.value.complete then t.published
                 else if t.published.Some? && f.moveAway then t.published
                 else if !f.moveIn then Some(output.value.content)
                 else if t.published.Some? && !f.restore then t.published
                 else None
  {
    hide Step, Inv;
    InitialHolds(published);
    RunKeepsInv(Initial(published), before);
    NewestStartedLast(published, before);
    var t := Run(Initial(published), before);
    var call := t.queue[0].call;
    OutputIsTheLastSnapshot(Initial(published), before, call);
    HeadIsNotPast(t);
    JobsAreAtomic(t, CheckEvent(f));
    NewestStep(t, CheckEvent(f));
    OthersChangeNothing(Step(t, CheckEvent(f)), after, call);
  }

  // ----- the order of jobs -----

  function Calls(jobs: seq<Job>): seq<nat> {
    if jobs == [] then [] else [jobs[0].call] + Calls(jobs[1..])
  }

  /** The calls whose jobs have their turn or wait for it, in order. */
  function Line(s: State): seq<nat> {
    (if s.turn.Some? then [s.turn.value.job.call] else []) + Calls(s.queue)
  }

  lemma {:induction false} CallsAppend(jobs: seq<Job>, job: Job)
    ensures Calls(jobs + [job]) == Calls(jobs) + [job.call]
  {
    if jobs != [] {
      assert (jobs + [job])[1..] == jobs[1..] + [job];
      CallsAppend(jobs[1..], job);
    }
  }

  /** From s to t the first of the line goes, finished, or a call that closes comes to its end, or the line
      stays as it is. */
  predicate LineMoves(s: State, t: State) {
    || (t.finished == s.finished && Line(s) <= Line(t) && |Line(t)| <= |Line(s)| + 1)
    || (Line(s) != [] && t.finished == s.finished + {Line(s)[0]} && Line(t) == Line(s)[1..])
  }

  lemma CheckMovesLine(s: State, faults: Faults)
    requires s.turn.None? && s.queue != []
    ensures LineMoves(s, Check(s, faults))
  {
    hide Complete;
  }

  lemma AdvanceMovesLine(s: State)
    requires CanAdvance(s)
    ensures LineMoves(s, Advance(s))
  {
    hide Calls, Advance;
    AdvanceLeavesOthers(s);
    assert Line(s)[1..] == Calls(s.queue);
  }

  lemma LineStep(s: State, e: Event)
    ensures LineMoves(s, Step(s, e))
  {
    hide Check, Advance, CanAdvance, Known, Complete;
    if Enabled(s, e) {
      match e {
        case CheckEvent(faults) => CheckMovesLine(s, faults);
        case AdvanceEvent => AdvanceMovesLine(s);
        case CloseEvent(call, aborted) => CallsAppend(s.queue, Job(call, aborted));
        case _ =>
      }
    }
  }

  /** Some of `jobs` are finished, and the others stand first in the line. */
  ghost predicate InLine(s: State, jobs: seq<nat>) {
    exists n: nat :: n <= |jobs| && (forall k :: 0 <= k < n ==> jobs[k] in s.finished) && jobs[n..] <= Line(s)
  }

  lemma InLineStep(s: State, e: Event, jobs: seq<nat>)
    requires InLine(s, jobs)
    ensures InLine(Step(s, e), jobs)
  {
    hide Step, Line;
    var t := Step(s, e);
    LineStep(s, e);
    var n: nat :| n <= |jobs| && (forall k :: 0 <= k < n ==> jobs[k] in s.finished) && jobs[n..] <= Line(s);
    if t.finished == s.finished && Line(s) <= Line(t) {
      assert jobs[n..] <= Line(t);
    } else if n < |jobs| {
      assert jobs[n] == Line(s)[0] && jobs[n + 1..] == jobs[n..][1..];
      assert jobs[n + 1..] <= Line(t);
    }
  }

  lemma {:induction false} InLineRun(s: State, events: seq<Event>, jobs: seq<nat>)
    requires InLine(s, jobs)
    ensures InLine(Run(s, events), jobs)
    decreases |events|
  {
    hide Step, InLine;
    if events != [] {
      InLineStep(s, events[0], jobs);
      InLineRun(Step(s, events[0]), events[1..], jobs);
    }
  }

  /** Jobs end in the order their calls closed: one that stood in the line at some moment is over only when
      everything before it is. */
  lemma JobsEndInOrder(s: State, events: seq<Event>, k: nat)
    requires Inv(s) && k < |Line(s)| && Line(s)[k] in Run(s, events).finished
    ensures forall j :: 0 <= j < k ==> Line(s)[j] in Run(s, events).finished
  {
    hide Inv, Run, Line, InLine;
    StandsInLine(s);
    InLineRun(s, events, Line(s));
    RunKeepsInv(s, events);
    FinishedInOrder(Run(s, events), Line(s), k);
  }

  lemma StandsInLine(s: State)
    ensures InLine(s, Line(s))
  {
    hide Line;
    assert Line(s)[0..] <= Line(s);
  }

  lemma FinishedInOrder(t: State, jobs: seq<nat>, k: nat)
    requires Inv(t) && InLine(t, jobs) && k < |jobs| && jobs[k] in t.finished
    ensures forall j :: 0 <= j < k ==> jobs[j] in t.finished
  {
    hide Inv, Line;
    var n: nat :| n <= |jobs| && (forall j :: 0 <= j < n ==> jobs[j] in t.finished) && jobs[n..] <= Line(t);
    if k >= n { LineIsUnfinished(t, k - n); }
  }

  lemma {:induction false} CallsAt(jobs: seq<Job>, k: nat)
    requires k < |Calls(jobs)|
    ensures |Calls(jobs)| == |jobs| && Calls(jobs)[k] == jobs[k].call
  {
    if k > 0 { CallsAt(jobs[1..], k - 1); }
    else if |jobs| > 1 { CallsAt(jobs[1..], 0); }
  }

  lemma LineIsUnfinished(s: State, k: nat)
    requires Inv(s) && k < |Line(s)|
    ensures Line(s)[k] !in s.finished
  {
    var n := if s.turn.Some? then 1 else 0;
    if k >= n { CallsAt(s.queue, k - n); }
  }

  predicate HasJob(s: State, job: Job) {
    job in s.queue || (s.turn.Some? && s.turn.value.job == job)
  }

  lemma JobStep(s: State, e: Event, job: Job)
    requires HasJob(Step(s, e), job)
    ensures HasJob(s, job) || (e == CloseEvent(job.call, job.aborted) && job.call in s.running)
  {
    hide Advance, Known, Complete;
    if e.AdvanceEvent? && Enabled(s, e) { AdvanceLeavesOthers(s); }
  }

  /** A job is made by the exit of its call's process, aborted or not as that exit was. */
  lemma {:induction false} JobsComeFromExits(s: State, events: seq<Event>, job: Job)
    requires HasJob(Run(s, events), job)
    ensures HasJob(s, job) || CloseEvent(job.call, job.aborted) in events
    decreases |events|
  {
    hide Step, HasJob;
    if events != [] {
      JobsComeFromExits(Step(s, events[0]), events[1..], job);
      if HasJob(Step(s, events[0]), job) { JobStep(s, events[0], job); }
    }
  }

  /** The call waits as it did when it began, or has its version for good. */
  predicate Waits(s: State, call: nat, tail: Option<nat>) {
    if call in s.waiting then s.waiting[call] == tail else Known(s, call)
  }

  lemma WaitsStep(s: State, e: Event, call: nat, tail: Option<nat>)
    requires Inv(s) && Waits(s, call, tail)
    ensures Waits(Step(s, e), call, tail)
  {
    hide Check, Advance, TurnHolds;
    if Enabled(s, e) {
      match e {
        case CheckEvent(faults) => KnownAfterCheck(s, faults, call);
        case AdvanceEvent => KnownAfterAdvance(s, call);
        case CloseEvent(closed, aborted) => QueuedAfterClose(s, closed, aborted, call);
        case _ =>
      }
    }
  }

  lemma KnownAfterCheck(s: State, faults: Faults, call: nat)
    requires s.turn.None? && s.queue != []
    ensures Known(s, call) ==> Known(Check(s, faults), call)
    ensures Check(s, faults).waiting == s.waiting
  {
    hide Complete;
    if Queued(s, call) {
      var k :| 0 <= k < |s.queue| && s.queue[k].call == call;
      assert k > 0 ==> Check(s, faults).queue[k - 1].call == call;
    }
  }

  lemma KnownAfterAdvance(s: State, call: nat)
    requires CanAdvance(s)
    ensures Known(s, call) ==> Known(Advance(s), call)
    ensures Advance(s).waiting == s.waiting
  {
    hide Advance;
    AdvanceLeavesOthers(s);
  }

  lemma {:induction false} WaitsRun(s: State, events: seq<Event>, call: nat, tail: Option<nat>)
    requires Inv(s) && Waits(s, call, tail)
    ensures Waits(Run(s, events), call, tail)
    decreases |events|
  {
    hide Step, Inv, Waits;
    if events != [] {
      StepKeepsInv(s, events[0]);
      WaitsStep(s, events[0], call, tail);
      WaitsRun(Step(s, events[0]), events[1..], call, tail);
    }
  }

  /** A call takes its version, and so reads the saved state, only after every job that was in the line when
      the call began is over. */
  lemma CallsWaitForEarlierJobs(s: State, call: nat, during: seq<Event>)
    requires Inv(s) && Enabled(s, BeginEvent(call))
    requires Enabled(Run(Step(s, BeginEvent(call)), during), ClaimEvent(call))
    ensures forall k :: 0 <= k < |Line(s)| ==> Line(s)[k] in Run(Step(s, BeginEvent(call)), during).finished
  {
    var begun := Step(s, BeginEvent(call));
    StepKeepsInv(s, BeginEvent(call));
    WaitsRun(begun, during, call, Tail(s));
    if Line(s) != [] {
      TailIsLast(s);
      JobsEndInOrder(begun, during, |Line(s)| - 1);
    }
  }

  lemma TailIsLast(s: State)
    requires Line(s) != []
    ensures Tail(s) == Some(Line(s)[|Line(s)| - 1])
  {
    var n := if s.turn.Some? then 1 else 0;
    if s.queue != [] { CallsAt(s.queue, |Calls(s.queue)| - 1); }
  }

  function StagesLeft(stage: Stage): nat {
    match stage
    case RemoveState => 1
    case MoveAway => 4
    case MoveIn(_) => 3
    case Restore => 2
    case DropPrevious => 1
    case DropOutput => 0
  }

  /** A job that has its turn can always go on, and every step brings it nearer to its end. */
  lemma TurnsEnd(s: State)
    requires Inv(s) && s.turn.Some?
    ensures CanAdvance(s)
    ensures var t := Step(s, AdvanceEvent);
            if s.turn.value.stage.DropOutput? then t.turn.None? && t.finished == s.finished + {s.turn.value.job.call}
            else t.turn.Some? && t.turn.value.job == s.turn.value.job
                 && StagesLeft(t.turn.value.stage) < StagesLeft(s.turn.value.stage)
  {
  }

  lemma InitialHolds(published: Option<nat>)
    ensures Inv(Initial(published))
  {
  }

  /** In any run, when the latest call's job swaps its snapshot in, the old state ends up lost exactly if
      it was moved away and then neither the new one could be moved in nor the old one back: the saved
      copy is dropped all the same. If only the first of these fails, the old state is back. */
  lemma StateLostExactlyWhenRestoreFails(published: Option<nat>, events: seq<Event>, f: Faults)
    requires var s := Run(Initial(published), events);
             && s.turn.None? && s.queue != [] && !s.queue[0].aborted && s.published.Some?
             && LastClaim(Initial(published), events) == Some(s.queue[0].call)
             && var output := LastSnapshot(Initial(published), events, s.queue[0].call);
                output.Some? && output.value.complete
    ensures var s := Run(Initial(published), events);
            var t := Step(s, CheckEvent(f));
            && Inv(t)
            && (Eventually(t).None? <==> !f.moveAway && f.moveIn && f.restore)
            && (f.moveIn && !f.restore ==> Eventually(t) == s.published)
  {
    assert Run(Step(Run(Initial(published), events), CheckEvent(f)), []) == Step(Run(Initial(published), events), CheckEvent(f));
    LatestPublishes(published, events, f, []);
  }

  /** Such a swap: both moves fail after the old state was moved away. */
  lemma OldStateIsLost()
    ensures PublishedAfter(Some(1), true, false, Some(Output(2, true)), Faults(false, false, true, true, false, false)).None?
  {
  }

  /** Directories of calls that are over are gone unless dropping them failed. */
  predicate Swept(s: State, call: nat) {
    call in s.finished ==> call !in s.outputs && call !in s.previous
  }

  /** The leftovers of `call` can only come from its own job, and that job drops them. */
  predicate Tidy(s: State, call: nat) {
    && Swept(s, call)
    && (call in s.previous ==>
          && s.turn.Some? && s.turn.value.job.call == call
          && (s.turn.value.stage.MoveIn? || s.turn.value.stage.Restore? || s.turn.value.stage.DropPrevious?))
    && (call in s.outputs ==> call in s.running || Queued(s, call) || (s.turn.Some? && s.turn.value.job.call == call))
  }

  /** The job of `call` that has its turn, if any, has no failing removals. */
  predicate DropsAsTold(s: State, call: nat) {
    s.turn.Some? && s.turn.value.job.call == call ==>
      !s.turn.value.faults.dropOutput && !s.turn.value.faults.dropPrevious
  }

  lemma TidyCheck(s: State, faults: Faults, call: nat)
    requires Inv(s) && Tidy(s, call) && s.turn.None? && s.queue != []
    ensures Tidy(Check(s, faults), call)
  {
    hide PlacesHold, TurnHolds;
    if Queued(s, call) {
      var k :| 0 <= k < |s.queue| && s.queue[k].call == call;
      assert k > 0 ==> Check(s, faults).queue[k - 1].call == call;
    }
  }

  lemma TidyAdvance(s: State, call: nat)
    requires Inv(s) && Tidy(s, call) && CanAdvance(s)
    requires DropsAsTold(s, call)
    ensures Tidy(Advance(s), call)
  {
    assert Queued(Advance(s), call) <==> Queued(s, call);
    hide Queued;
  }

  lemma TidyStep(s: State, e: Event, call: nat)
    requires Inv(s) && Tidy(s, call)
    requires DropsAsTold(s, call)
    ensures Tidy(Step(s, e), call)
  {
    hide Check, Advance, TurnHolds, Tail;
    if Enabled(s, e) {
      match e {
        case CheckEvent(faults) => TidyCheck(s, faults, call);
        case AdvanceEvent => TidyAdvance(s, call);
        case CloseEvent(closed, aborted) => QueuedAfterClose(s, closed, aborted, call);
        case _ =>
      }
    }
  }

  /** The two removals at the end of the job of `call` do not fail along the run. */
  ghost predicate DropsSucceed(s: State, events: seq<Event>, call: nat)
    decreases |events|
  {
    events != [] ==>
      && (events[0].CheckEvent? && Enabled(s, events[0]) && s.queue[0].call == call ==>
            !events[0].faults.dropOutput && !events[0].faults.dropPrevious)
      && DropsSucceed(Step(s, events[0]), events[1..], call)
  }

  lemma StepDropsAsTold(s: State, e: Event, call: nat)
    requires Inv(s) && DropsAsTold(s, call) && DropsSucceed(s, [e], call)
    ensures DropsAsTold(Step(s, e), call)
  {
    hide PlacesHold, OutputOf;
  }

  lemma {:induction false} TidyRun(s: State, events: seq<Event>, call: nat)
    requires Inv(s) && Tidy(s, call) && DropsAsTold(s, call) && DropsSucceed(s, events, call)
    ensures Tidy(Run(s, events), call)
    decreases |events|
  {
    if events != [] {
      StepKeepsInv(s, events[0]);
      TidyStep(s, events[0], call);
      StepDropsAsTold(s, events[0], call);
      TidyRun(Step(s, events[0]), events[1..], call);
    }
  }

  /** Once a call is over it has left no directory behind, unless a removal at the end of its own job
      failed; what fails in the jobs of other calls does not matter. */
  lemma FinishedCallsLeaveNothing(published: Option<nat>, events: seq<Event>, call: nat)
    requires DropsSucceed(Initial(published), events, call)
    ensures Swept(Run(Initial(published), events), call)
  {
    InitialHolds(published);
    TidyRun(Initial(published), events, call);
  }

  /** A rename moves: what it moves is in one place, before and after, and a rename that fails leaves
      everything where it was. */
  lemma RenamesMove(s: State)
    requires Inv(s) && s.turn.Some?
    ensures var turn, t := s.turn.value, Step(s, AdvanceEvent);
            var call, f := turn.job.call, turn.faults;
            match turn.stage
            case MoveAway =>
              if s.published.Some? && !f.moveAway
              then t.published.None? && t.outputs == s.outputs && t.previous == s.previous[call := s.published.value]
              else t.published == s.published && t.outputs == s.outputs && t.previous == s.previous
            case MoveIn(_) =>
              && t.previous == s.previous
              && if f.moveIn then t.published == s.published && t.outputs == s.outputs
                 else t.published == Some(s.outputs[call].content) && t.outputs == s.outputs - {call}
            case Restore =>
              && t.outputs == s.outputs
              && if f.restore then t.published == s.published && t.previous == s.previous
                 else t.published == Some(s.previous[call]) && t.previous == s.previous - {call}
            case _ => true
  {
  }
}

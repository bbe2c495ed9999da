// grok-mobile-belmont-pwa/src/windows-viewer.ts: the viewer frame, its retries and its watchdog.
//
// Browser events are atomic. Time is an integer of milliseconds that never runs backwards; every event
// carries the time it happens at. Frames are ids, and `attached` are the iframes in the document.

module Viewer {
  import opened Common

  datatype Phase = Connecting | Ready | Suspended | Error

  /** `progress` is the identity of the last decoded frame, or the time of the video. */
  datatype Health = Health(ready: bool, failed: bool, progress: Option<nat>)

  /** `nextFrame` counts all frames made. */
  datatype State = State(
    frame: Option<nat>,
    attached: set<nat>,
    phase: Phase,
    disposed: bool,
    frozen: bool,
    pageHidden: bool,
    visible: bool,
    startedAt: int,
    readyAt: int,
    lastProgressAt: int,
    progress: Option<nat>,
    lastTick: int,
    retries: nat,
    nextFrame: nat)

  const CONNECT_LIMIT := 20_000
  const STALL_LIMIT := 8_000
  const EPISODE_END := 30_000
  const TIMER_GAP := 3_500
  const MAX_RETRIES := 2

  function Blank(visible: bool, now: int): State {
    State(None, {}, Suspended, false, false, false, visible, 0, 0, 0, None, now, 0, 0)
  }

  predicate CanRun(s: State) {
    !s.disposed && !s.frozen && !s.pageHidden && s.visible
  }

  function Detach(s: State): State {
    s.(frame := None, progress := None, attached := if s.frame.Some? then s.attached - {s.frame.value} else s.attached)
  }

  function Suspend(s: State): State {
    Detach(s).(phase := Suspended)
  }

  function Start(s: State, now: int): State {
    if !CanRun(s) || s.frame.Some? then s
    else s.(startedAt := now, lastTick := now, readyAt := 0, lastProgressAt := now, phase := Connecting,
            frame := Some(s.nextFrame), attached := s.attached + {s.nextFrame}, nextFrame := s.nextFrame + 1)
  }

  function Retry(s: State, now: int): State {
    var t := Detach(s);
    if !CanRun(t) then t.(phase := Suspended)
    else if t.retries >= MAX_RETRIES then t.(phase := Error)
    else Start(t.(retries := t.retries + 1), now)
  }

  function Reconnect(s: State, now: int): State {
    if s.phase.Connecting? && now - s.startedAt < CONNECT_LIMIT then s
    else Start(Detach(s.(retries := 0)), now)
  }

  function Resume(s: State, now: int): State {
    if !CanRun(s) || s.frame.Some? || s.phase.Error? then s
    else Start(s.(retries := 0), now)
  }

  /** The watchdog notes what moved. */
  function Noted(s: State, now: int, health: Health): State {
    if health.ready && health.progress != s.progress then s.(progress := health.progress, lastProgressAt := now) else s
  }

  function Judge(s: State, now: int, health: Health): State {
    if s.phase.Ready? && now - s.lastProgressAt >= STALL_LIMIT then Retry(s, now)
    else if health.ready then
      var t := if s.phase.Ready? then s else s.(readyAt := now, phase := Ready);
      if now - t.readyAt >= EPISODE_END then t.(retries := 0) else t
    else if s.phase.Connecting? && now - s.startedAt >= CONNECT_LIMIT then Retry(s, now)
    else s
  }

  function Tick(s: State, now: int, health: Health): State {
    var t := s.(lastTick := now);
    if !CanRun(t) || t.frame.None? then t
    else if health.failed || (s.phase.Ready? && now - s.lastTick > TIMER_GAP) then Retry(t, now)
    else Judge(Noted(t, now, health), now, health)
  }

  // ----- the viewer as an object -----

  class WindowsViewer {
    var frame: Option<nat>
    var attached: set<nat>
    var phase: Phase
    var disposed: bool
    var frozen: bool
    var pageHidden: bool
    var visible: bool
    var startedAt: int
    var readyAt: int
    var lastProgressAt: int
    var progress: Option<nat>
    var lastTick: int
    var retries: nat
    var nextFrame: nat

    ghost function View(): State
      reads this
    {
      State(frame, attached, phase, disposed, frozen, pageHidden, visible, startedAt, readyAt, lastProgressAt,
            progress, lastTick, retries, nextFrame)
    }

    predicate Runnable()
      reads this
    {
      !disposed && !frozen && !pageHidden && visible
    }

    constructor (visible: bool, now: int)
      ensures View() == Start(Blank(visible, now), now)
    {
      frame, attached, phase, nextFrame := None, {}, Suspended, 0;
      disposed, frozen, pageHidden, this.visible := false, false, false, visible;
      startedAt, readyAt, lastProgressAt, progress, lastTick, retries := 0, 0, 0, None, now, 0;
      new;
      StartFrame(now);
    }

    method DetachFrame()
      modifies this
      ensures View() == Detach(old(View()))
    {
      var previous := frame;
      frame := None;
      progress := None;
      if previous.Some? { attached := attached - {previous.value}; }
    }

    method SuspendViewer()
      modifies this
      ensures View() == Suspend(old(View()))
    {
      DetachFrame();
      phase := Suspended;
    }

    method StartFrame(now: int)
      modifies this
      ensures View() == Start(old(View()), now)
    {
      if !Runnable() || frame.Some? { return; }
      startedAt, lastTick := now, now;
      readyAt := 0;
      lastProgressAt := startedAt;
      phase := Connecting;
      frame := Some(nextFrame);
      attached := attached + {nextFrame};
      nextFrame := nextFrame + 1;
    }

    method RetryFrame(now: int)
      modifies this
      ensures View() == Retry(old(View()), now)
    {
      DetachFrame();
      if !Runnable() {
        phase := Suspended;
        return;
      }
      if retries >= MAX_RETRIES {
        phase := Error;
        return;
      }
      retries := retries + 1;
      StartFrame(now);
    }

    method ReconnectFrame(now: int)
      modifies this
      ensures View() == Reconnect(old(View()), now)
    {
      if phase.Connecting? && now - startedAt < CONNECT_LIMIT { return; }
      retries := 0;
      DetachFrame();
      StartFrame(now);
    }

    method ResumeFrame(now: int)
      modifies this
      ensures View() == Resume(old(View()), now)
    {
      if !Runnable() || frame.Some? || phase.Error? { return; }
      retries := 0;
      StartFrame(now);
    }

    method Watchdog(now: int, health: Health)
      modifies this
      ensures View() == Tick(old(View()), now, health)
    {
      var timerGap := now - lastTick > TIMER_GAP;
      lastTick := now;
      if !Runnable() || frame.None? { return; }
      if health.failed || (phase.Ready? && timerGap) {
        RetryFrame(now);
        return;
      }
      if health.ready && health.progress != progress {
        progress := health.progress;
        lastProgressAt := now;
      }
      if phase.Ready? && now - lastProgressAt >= STALL_LIMIT {
        RetryFrame(now);
        return;
      }
      if health.ready {
        if !phase.Ready? {
          readyAt := now;
          phase := Ready;
        }
        if now - readyAt >= EPISODE_END {
          retries := 0;
        }
      } else if phase.Connecting? && now - startedAt >= CONNECT_LIMIT {
        RetryFrame(now);
      }
    }

    method VisibilityChanged(shown: bool, now: int)
      modifies this
      ensures View() == if shown then Resume(old(View()).(visible := true), now) else Suspend(old(View()).(visible := false))
    {
      visible := shown;
      if visible { ResumeFrame(now); } else { SuspendViewer(); }
    }

    method PageHidden()
      modifies this
      ensures View() == Suspend(old(View()).(pageHidden := true))
    {
      pageHidden := true;
      SuspendViewer();
    }

    method PageShown(now: int)
      modifies this
      ensures View() == Resume(old(View()).(pageHidden := false, frozen := false), now)
    {
      pageHidden := false;
      frozen := false;
      ResumeFrame(now);
    }

    method Froze()
      modifies this
      ensures View() == Suspend(old(View()).(frozen := true))
    {
      frozen := true;
      SuspendViewer();
    }

    method Thawed(now: int)
      modifies this
      ensures View() == Resume(old(View()).(frozen := false), now)
    {
      frozen := false;
      ResumeFrame(now);
    }

    method CameOnline(now: int)
      modifies this
      ensures View() == if CanRun(old(View())) && old(phase).Error? then Reconnect(old(View()), now) else old(View())
    {
      if Runnable() && phase.Error? { ReconnectFrame(now); }
    }

    method Dispose()
      modifies this
      ensures View() == Detach(old(View()).(disposed := true))
    {
      disposed := true;
      DetachFrame();
    }

    method Perform(e: Event)
      modifies this
      ensures View() == Step(old(View()), e)
    {
      hide Resume, Suspend, Reconnect, Tick, Detach;
      if disposed && !e.ReconnectEvent? && !e.DisposeEvent? { return; }
      match e {
        case VisibilityEvent(shown, now) => VisibilityChanged(shown, now);
        case PageHideEvent => PageHidden();
        case PageShowEvent(now) => PageShown(now);
        case FreezeEvent => Froze();
        case ThawEvent(now) => Thawed(now);
        case OnlineEvent(now) => CameOnline(now);
        case ReconnectEvent(now) => ReconnectFrame(now);
        case TickEvent(now, health) => Watchdog(now, health);
        case DisposeEvent => Dispose();
      }
    }
  }

  // ----- runs -----

  datatype Event =
    | VisibilityEvent(shown: bool, now: int)
    | PageHideEvent
    | PageShowEvent(now: int)
    | FreezeEvent
    | ThawEvent(now: int)
    | OnlineEvent(now: int)
    | ReconnectEvent(now: int)
    | TickEvent(now: int, health: Health)
    | DisposeEvent

  /** Disposing removes every listener and the timer; the viewer's own methods stay callable. */
  predicate Enabled(s: State, e: Event) {
    !s.disposed || e.ReconnectEvent? || e.DisposeEvent?
  }

  function Step(s: State, e: Event): State {
    if !Enabled(s, e) then s
    else
      match e
      case VisibilityEvent(shown, now) =>
        if shown then Resume(s.(visible := true), now) else Suspend(s.(visible := false))
      case PageHideEvent => Suspend(s.(pageHidden := true))
      case PageShowEvent(now) => Resume(s.(pageHidden := false, frozen := false), now)
      case FreezeEvent => Suspend(s.(frozen := true))
      case ThawEvent(now) => Resume(s.(frozen := false), now)
      case OnlineEvent(now) => if CanRun(s) && s.phase.Error? then Reconnect(s, now) else s
      case ReconnectEvent(now) => Reconnect(s, now)
      case TickEvent(now, health) => Tick(s, now, health)
      case DisposeEvent => Detach(s.(disposed := true))
  }

  function Run(s: State, events: seq<Event>): State
    decreases |events|
  {
    if events == [] then s else Run(Step(s, events[0]), events[1..])
  }

  lemma {:induction false} RunOneMore(s: State, events: seq<Event>, i: nat)
    requires i < |events|
    ensures Run(s, events[..i + 1]) == Step(Run(s, events[..i]), events[i])
    decreases |events|
  {
    hide Step;
    if i == 0 {
      assert events[..1] == [events[0]] && events[..1][1..] == [] && events[..0] == [];
    } else {
      assert events[..i + 1][1..] == events[1..][..i] && events[..i][1..] == events[1..][..i - 1];
      RunOneMore(Step(s, events[0]), events[1..], i - 1);
    }
  }

  /** A viewer that gets these events is in the state the theorems about runs speak of. */
  method Replay(visible: bool, now: int, events: seq<Event>) returns (viewer: WindowsViewer)
    ensures fresh(viewer) && viewer.View() == Run(Start(Blank(visible, now), now), events)
  {
    hide Step;
    viewer := new WindowsViewer(visible, now);
    assert events[..0] == [];
    for i := 0 to |events|
      invariant fresh(viewer) && viewer.View() == Run(Start(Blank(visible, now), now), events[..i])
    {
      viewer.Perform(events[i]);
      RunOneMore(Start(Blank(visible, now), now), events, i);
    }
    assert events[..|events|] == events;
  }

  /** One frame at most, in the document exactly while the viewer has it; it exists only while the page
      can run and in the phases that show it; an episode has at most two retries. */
  predicate Inv(s: State) {
    && s.attached == (if s.frame.Some? then {s.frame.value} else {})
    && (s.frame.Some? ==> s.frame.value < s.nextFrame && CanRun(s) && (s.phase.Connecting? || s.phase.Ready?))
    && (s.frame.None? && !s.disposed ==> s.phase.Suspended? || s.phase.Error?)
    && s.retries <= MAX_RETRIES
  }

  /** At most one new frame came up from s to t. */
  predicate Grew(s: State, t: State) {
    Inv(t) && s.nextFrame <= t.nextFrame <= s.nextFrame + 1
  }

  lemma StartKeepsInv(s: State, now: int)
    requires Inv(s.(phase := if s.frame.Some? then s.phase else Suspended))
    requires s.frame.None? && !s.disposed && !CanRun(s) ==> s.phase.Suspended? || s.phase.Error?
    ensures Grew(s, Start(s, now))
  {
  }

  lemma DetachKeepsInv(s: State)
    requires Inv(s)
    ensures var t := Detach(s); t.attached == {} && t.frame.None? && Inv(t.(phase := Suspended)) && Inv(t.(phase := Error))
  {
  }

  lemma RetryKeepsInv(s: State, now: int)
    requires Inv(s) && CanRun(s)
    ensures Grew(s, Retry(s, now))
  {
    DetachKeepsInv(s);
    if s.retries < MAX_RETRIES {
      StartKeepsInv(Detach(s).(retries := s.retries + 1), now);
    }
  }

  lemma TickKeepsInv(s: State, now: int, health: Health)
    requires Inv(s)
    ensures Grew(s, Tick(s, now, health))
  {
    hide Retry;
    var t := s.(lastTick := now);
    if CanRun(t) && t.frame.Some? {
      RetryKeepsInv(t, now);
      RetryKeepsInv(Noted(t, now, health), now);
    }
  }

  lemma ReconnectKeepsInv(s: State, now: int)
    requires Inv(s)
    ensures Grew(s, Reconnect(s, now))
  {
    hide Start;
    DetachKeepsInv(s.(retries := 0));
    StartKeepsInv(Detach(s.(retries := 0)), now);
  }

  lemma StepKeepsInv(s: State, e: Event)
    requires Inv(s)
    ensures Grew(s, Step(s, e))
  {
    hide Tick, Reconnect;
    match e {
      case TickEvent(now, health) => TickKeepsInv(s, now, health);
      case ReconnectEvent(now) => ReconnectKeepsInv(s, now);
      case OnlineEvent(now) => ReconnectKeepsInv(s, now);
      case _ =>
    }
  }

  lemma {:induction false} RunKeepsInv(s: State, events: seq<Event>)
    requires Inv(s)
    ensures Inv(Run(s, events))
    decreases |events|
  {
    hide Step, Inv;
    if events != [] {
      StepKeepsInv(s, events[0]);
      RunKeepsInv(Step(s, events[0]), events[1..]);
    }
  }

  /** Over any run of a viewer at most one iframe is in the document, and only while it is connecting or
      ready on a page that is shown, not frozen and not left, before the viewer is disposed. */
  lemma FramesOnlyWhileShown(visible: bool, now: int, events: seq<Event>)
    ensures var t := Run(Start(Blank(visible, now), now), events);
            && t.attached == (if t.frame.Some? then {t.frame.value} else {})
            && (t.attached != {} ==> (t.phase.Connecting? || t.phase.Ready?)
                                     && t.visible && !t.frozen && !t.pageHidden && !t.disposed)
            && (t.phase.Connecting? || t.phase.Ready? ==> t.attached != {} || t.disposed)
            && t.retries <= MAX_RETRIES
  {
    StartHoldsInv(visible, now);
    RunKeepsInv(Start(Blank(visible, now), now), events);
  }

  lemma StartHoldsInv(visible: bool, now: int)
    ensures Inv(Start(Blank(visible, now), now))
  {
  }

  /** Once disposed, always without a frame. */
  lemma {:induction false} DisposedForGood(s: State, events: seq<Event>)
    requires Inv(s) && s.disposed
    ensures Run(s, events).disposed && Run(s, events).frame.None? && Run(s, events).nextFrame == s.nextFrame
    decreases |events|
  {
    if events != [] {
      StepKeepsInv(s, events[0]);
      DisposedForGood(Step(s, events[0]), events[1..]);
    }
  }

  // ----- an episode -----

  predicate Resumes(s: State) {
    CanRun(s) && s.frame.None? && !s.phase.Error?
  }

  /** The steps that begin a new episode: a resume that starts a frame, a reconnect that is not too
      early, a tick that finds the frame healthy and ready for 30 seconds. */
  predicate Resets(s: State, e: Event) {
    && Enabled(s, e)
    && match e
       case VisibilityEvent(shown, _) => shown && Resumes(s.(visible := true))
       case PageShowEvent(_) => Resumes(s.(pageHidden := false, frozen := false))
       case ThawEvent(_) => Resumes(s.(frozen := false))
       case OnlineEvent(_) => CanRun(s) && s.phase.Error?
       case ReconnectEvent(now) => !(s.phase.Connecting? && now - s.startedAt < CONNECT_LIMIT)
       case TickEvent(now, health) =>
         && CanRun(s) && s.frame.Some? && health.ready && !health.failed
         && s.phase.Ready? && now - s.lastTick <= TIMER_GAP
         && (health.progress != s.progress || now - s.lastProgressAt < STALL_LIMIT)
         && now - s.readyAt >= EPISODE_END
       case _ => false
  }

  ghost predicate OneEpisode(s: State, events: seq<Event>)
    decreases |events|
  {
    events != [] ==> !Resets(s, events[0]) && OneEpisode(Step(s, events[0]), events[1..])
  }

  lemma QuietTick(s: State, now: int, health: Health)
    requires Inv(s) && !Resets(s, TickEvent(now, health)) && !s.disposed
    ensures var t := Tick(s, now, health);
            t.retries >= s.retries && t.nextFrame - s.nextFrame == t.retries - s.retries
  {
  }

  lemma QuietStep(s: State, e: Event)
    requires Inv(s) && !Resets(s, e)
    ensures Step(s, e).retries >= s.retries
    ensures Step(s, e).nextFrame - s.nextFrame == Step(s, e).retries - s.retries
  {
    hide Tick, Inv;
    if e.TickEvent? && Enabled(s, e) { QuietTick(s, e.now, e.health); }
  }

  /** Within an episode every new frame is the watchdog's and costs one of two retries. */
  lemma {:induction false} EpisodeMakesAtMostTwoFrames(s: State, events: seq<Event>)
    requires Inv(s) && OneEpisode(s, events)
    ensures var t := Run(s, events);
            && t.nextFrame - s.nextFrame == t.retries - s.retries
            && s.nextFrame <= t.nextFrame <= s.nextFrame + (MAX_RETRIES - s.retries)
    decreases |events|
  {
    hide Step, Resets;
    if events != [] {
      StepKeepsInv(s, events[0]);
      QuietStep(s, events[0]);
      RunKeepsInv(Step(s, events[0]), events[1..]);
      EpisodeMakesAtMostTwoFrames(Step(s, events[0]), events[1..]);
    }
  }

  function FailingTicks(times: seq<int>): seq<Event> {
    if times == [] then []
    else [TickEvent(times[0], Health(false, true, None))] + FailingTicks(times[1..])
  }

  /** A frame that keeps failing is retried until the retries are used up; the next failing tick
      publishes the error, with no frame left, and it stays so. */
  lemma {:induction false} PersistentFailureEnds(s: State, times: seq<int>)
    requires Inv(s) && (s.frame.Some? || s.phase.Error?)
    ensures var t := Run(s, FailingTicks(times));
            && (s.frame.Some? && |times| <= MAX_RETRIES - s.retries ==>
                  t.frame.Some? && t.retries == s.retries + |times|)
            && (s.phase.Error? || |times| > MAX_RETRIES - s.retries ==> t.phase.Error? && t.frame.None?)
    decreases |times|
  {
    if times != [] {
      var e := TickEvent(times[0], Health(false, true, None));
      assert FailingTicks(times)[0] == e && FailingTicks(times)[1..] == FailingTicks(times[1..]);
      StepKeepsInv(s, e);
      PersistentFailureEnds(Step(s, e), times[1..]);
    }
  }

  /** At any moment of any run, a tick does not leave a frame that has been connecting for 20 seconds, or
      ready without progress for 8 seconds, as it was: the frame is replaced or the error is published,
      and no frame but the new one is in the document. */
  lemma StuckFramesAreReplaced(visible: bool, start: int, events: seq<Event>, now: int, health: Health)
    requires var s := Run(Start(Blank(visible, start), start), events);
             && s.frame.Some?
             && (|| (s.phase.Connecting? && !health.ready && now - s.startedAt >= CONNECT_LIMIT)
                 || (&& s.phase.Ready? && now - s.lastProgressAt >= STALL_LIMIT
                     && (!health.ready || health.progress == s.progress)))
    ensures var s := Run(Start(Blank(visible, start), start), events);
            var t := Step(s, TickEvent(now, health));
            if s.retries < MAX_RETRIES
            then t.phase.Connecting? && t.frame == Some(s.nextFrame) && t.attached == {s.nextFrame} && t.startedAt == now
            else t.phase.Error? && t.frame.None? && t.attached == {}
  {
    StartHoldsInv(visible, start);
    RunKeepsInv(Start(Blank(visible, start), start), events);
  }

  /** In any run without a resume or a reconnect, if there are fewer retries at the end than at the start
      then some tick on the way found a healthy frame that had been ready for 30 seconds. */
  lemma {:induction false} ForgivenOnlyWhenHealthy(s: State, events: seq<Event>)
    requires Inv(s) && Run(s, events).retries < s.retries
    requires forall k | 0 <= k < |events| :: !events[k].TickEvent? ==> !Resets(Run(s, events[..k]), events[k])
    ensures exists k | 0 <= k < |events| ::
              && events[k].TickEvent? && events[k].health.ready && !events[k].health.failed
              && var before := Run(s, events[..k]);
                 before.frame.Some? && before.phase.Ready? && events[k].now - before.readyAt >= EPISODE_END
    decreases |events|
  {
    hide Step, Resets, Inv;
    var e, next := events[0], Step(s, events[0]);
    assert events[..0] == [] && Run(s, []) == s;
    StepKeepsInv(s, e);
    if Resets(s, e) {
      assert e.TickEvent?;
      ResettingTick(s, e);
    } else {
      QuietStep(s, e);
      forall k | 0 <= k < |events[1..]| && !events[1..][k].TickEvent?
        ensures !Resets(Run(next, events[1..][..k]), events[1..][k])
      {
        PrefixRun(s, events, k);
        assert events[k + 1] == events[1..][k];
      }
      ForgivenOnlyWhenHealthy(next, events[1..]);
      var k :| 0 <= k < |events[1..]|
            && events[1..][k].TickEvent? && events[1..][k].health.ready && !events[1..][k].health.failed
            && var before := Run(next, events[1..][..k]);
               before.frame.Some? && before.phase.Ready? && events[1..][k].now - before.readyAt >= EPISODE_END;
      PrefixRun(s, events, k);
      assert events[k + 1] == events[1..][k];
    }
  }

  lemma ResettingTick(s: State, e: Event)
    requires e.TickEvent? && Resets(s, e)
    ensures e.health.ready && !e.health.failed && s.frame.Some? && s.phase.Ready? && e.now - s.readyAt >= EPISODE_END
  {
  }

  lemma PrefixRun(s: State, events: seq<Event>, k: nat)
    requires k < |events|
    ensures Run(s, events[..k + 1]) == Run(Step(s, events[0]), events[1..][..k])
  {
    hide Step;
    assert events[..k + 1][1..] == events[1..][..k];
  }

  // ----- when there is a frame -----

  // Read off the events: what the page was last told.

  function Visible(events: seq<Event>, before: bool): bool {
    if events == [] then before
    else Visible(events[1..], if events[0].VisibilityEvent? then events[0].shown else before)
  }

  function Left(events: seq<Event>, before: bool): bool {
    if events == [] then before
    else Left(events[1..], if events[0].PageHideEvent? then true else if events[0].PageShowEvent? then false else before)
  }

  function Frozen(events: seq<Event>, before: bool): bool {
    if events == [] then before
    else
      Frozen(events[1..], if events[0].FreezeEvent? then true
                          else if events[0].ThawEvent? || events[0].PageShowEvent? then false
                          else before)
  }

  lemma PageStep(s: State, e: Event)
    requires !s.disposed
    ensures var t := Step(s, e);
            && t.visible == (if e.VisibilityEvent? then e.shown else s.visible)
            && t.pageHidden == (if e.PageHideEvent? then true else if e.PageShowEvent? then false else s.pageHidden)
            && t.frozen == (if e.FreezeEvent? then true else if e.ThawEvent? || e.PageShowEvent? then false else s.frozen)
            && t.disposed == e.DisposeEvent?
  {
  }

  lemma DisposedStep(s: State, e: Event)
    requires s.disposed
    ensures Step(s, e).disposed
  {
  }

  lemma {:induction false} PageIsAsTold(s: State, events: seq<Event>)
    ensures var t := Run(s, events);
            && (t.disposed <==> s.disposed || DisposeEvent in events)
            && (!t.disposed ==>
                  && t.visible == Visible(events, s.visible) && t.pageHidden == Left(events, s.pageHidden)
                  && t.frozen == Frozen(events, s.frozen))
    decreases |events|
  {
    hide Step;
    if events != [] {
      if s.disposed { DisposedStep(s, events[0]); } else { PageStep(s, events[0]); }
      PageIsAsTold(Step(s, events[0]), events[1..]);
    }
  }

  /** A page that can run has a frame or shows the error. */
  predicate Steady(s: State) {
    && Inv(s)
    && (s.phase.Error? && !s.disposed ==> CanRun(s) && s.frame.None?)
    && (CanRun(s) && !s.phase.Error? ==> s.frame.Some?)
    && (s.frame.None? ==> s.progress.None?)
  }

  lemma StepKeepsSteady(s: State, e: Event)
    requires Steady(s)
    ensures Steady(Step(s, e))
  {
    StepKeepsInv(s, e);
  }

  lemma {:induction false} RunKeepsSteady(s: State, events: seq<Event>)
    requires Steady(s)
    ensures Steady(Run(s, events))
    decreases |events|
  {
    hide Step, Steady;
    if events != [] {
      StepKeepsSteady(s, events[0]);
      RunKeepsSteady(Step(s, events[0]), events[1..]);
    }
  }

  lemma StartIsSteady(visible: bool, now: int)
    ensures Steady(Start(Blank(visible, now), now))
  {
  }

  /** In every run there is a frame exactly while the page was last told that it is visible, not left and
      not frozen, the viewer is not disposed, and no error is published. */
  lemma FrameExactlyWhenShown(visible: bool, now: int, events: seq<Event>)
    ensures var t := Run(Start(Blank(visible, now), now), events);
            t.frame.Some? <==>
              && DisposeEvent !in events && Visible(events, visible) && !Left(events, false) && !Frozen(events, false)
              && !t.phase.Error?
  {
    hide Step;
    StartIsSteady(visible, now);
    RunKeepsSteady(Start(Blank(visible, now), now), events);
    PageIsAsTold(Start(Blank(visible, now), now), events);
  }

  // ----- what a tick decides, and what makes a frame -----

  predicate Moved(s: State, health: Health) {
    health.ready && health.progress != s.progress
  }

  /** A frame in trouble: it failed; it was ready and the timer paused, or it shows nothing new for eight
      seconds; or it has been connecting for twenty and is not ready. */
  predicate InTrouble(s: State, now: int, health: Health) {
    || health.failed
    || (s.phase.Ready? && now - s.lastTick > 3_500)
    || (s.phase.Ready? && !Moved(s, health) && now - s.lastProgressAt >= 8_000)
    || (s.phase.Connecting? && !health.ready && now - s.startedAt >= 20_000)
  }

  /** At any moment of any run: a tick that finds a frame in trouble replaces it, or publishes the error
      when two retries are used up. Otherwise the frame stays, is ready from the first healthy tick on, its
      progress is noted, and after thirty healthy seconds the retries are given back. */
  lemma TicksDecide(visible: bool, start: int, events: seq<Event>, now: int, health: Health)
    requires Run(Start(Blank(visible, start), start), events).frame.Some?
    ensures var s := Run(Start(Blank(visible, start), start), events);
            var t := Step(s, TickEvent(now, health));
            t.lastTick == now &&
            if InTrouble(s, now, health) then
              if s.retries < 2
              then t.frame == Some(s.nextFrame) && t.phase.Connecting? && t.startedAt == now && t.retries == s.retries + 1
              else t.frame.None? && t.phase.Error? && t.retries == s.retries
            else
              && t.frame == s.frame && t.startedAt == s.startedAt
              && (t.phase.Ready? <==> s.phase.Ready? || health.ready)
              && t.readyAt == (if s.phase.Connecting? && health.ready then now else s.readyAt)
              && t.lastProgressAt == (if Moved(s, health) then now else s.lastProgressAt)
              && t.progress == (if Moved(s, health) then health.progress else s.progress)
              && t.retries == if health.ready && now - t.readyAt >= 30_000 then 0 else s.retries
  {
    StartIsSteady(visible, start);
    RunKeepsSteady(Start(Blank(visible, start), start), events);
  }

  /** The reasons for a new frame: the page is shown again, a reconnect that is not too early, coming
      online after the error, and a tick that finds trouble with a retry left. */
  predicate MakesFrame(s: State, e: Event) {
    match e
    case VisibilityEvent(shown, _) => shown && !s.frozen && !s.pageHidden && s.frame.None? && !s.phase.Error?
    case PageShowEvent(_) => s.visible && s.frame.None? && !s.phase.Error?
    case ThawEvent(_) => s.visible && !s.pageHidden && s.frame.None? && !s.phase.Error?
    case OnlineEvent(_) => s.phase.Error?
    case ReconnectEvent(now) => s.visible && !s.frozen && !s.pageHidden && !(s.phase.Connecting? && now - s.startedAt < 20_000)
    case TickEvent(now, health) => s.frame.Some? && InTrouble(s, now, health) && s.retries < 2
    case _ => false
  }

  function TimeOf(e: Event): int {
    match e
    case VisibilityEvent(_, now) => now
    case PageShowEvent(now) => now
    case ThawEvent(now) => now
    case OnlineEvent(now) => now
    case ReconnectEvent(now) => now
    case TickEvent(now, _) => now
    case _ => 0
  }

  /** At any moment of any run before disposal a step makes a frame exactly for these reasons; the frame is
      new and connecting, and only a tick's costs a retry. The error goes away only with such a frame or when
      the page is hidden, left or frozen. */
  lemma FramesAreMadeExactly(visible: bool, start: int, events: seq<Event>, e: Event)
    requires DisposeEvent !in events
    ensures var s := Run(Start(Blank(visible, start), start), events);
            var t := Step(s, e);
            && (t.nextFrame != s.nextFrame <==> MakesFrame(s, e))
            && (MakesFrame(s, e) ==>
                  && t.nextFrame == s.nextFrame + 1 && t.frame == Some(s.nextFrame) && t.phase.Connecting?
                  && t.startedAt == TimeOf(e) && t.lastTick == TimeOf(e) && t.lastProgressAt == TimeOf(e) && t.readyAt == 0 && t.progress.None?
                  && t.retries == if e.TickEvent? then s.retries + 1 else 0)
            && (s.phase.Error? && !t.phase.Error? ==>
                  MakesFrame(s, e) || e.PageHideEvent? || e.FreezeEvent? || (e.VisibilityEvent? && !e.shown))
  {
    StartIsSteady(visible, start);
    RunKeepsSteady(Start(Blank(visible, start), start), events);
    PageIsAsTold(Start(Blank(visible, start), start), events);
    var s := Run(Start(Blank(visible, start), start), events);
    StepMakesFrame(s, e);
  }

  lemma StepMakesFrame(s: State, e: Event)
    requires Steady(s) && !s.disposed
    ensures var t := Step(s, e);
            && (t.nextFrame != s.nextFrame <==> MakesFrame(s, e))
            && (MakesFrame(s, e) ==>
                  && t.nextFrame == s.nextFrame + 1 && t.frame == Some(s.nextFrame) && t.phase.Connecting?
                  && t.startedAt == TimeOf(e) && t.lastTick == TimeOf(e) && t.lastProgressAt == TimeOf(e) && t.readyAt == 0 && t.progress.None?
                  && t.retries == if e.TickEvent? then s.retries + 1 else 0)
            && (s.phase.Error? && !t.phase.Error? ==>
                  MakesFrame(s, e) || e.PageHideEvent? || e.FreezeEvent? || (e.VisibilityEvent? && !e.shown))
  {
  }
}

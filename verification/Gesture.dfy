// belmont-mobile-pwa/src/app.js: touches on the screen become pointer events of the remote desktop.
//
// Points are exact reals in display coordinates. The long-press timer is armed exactly while a gesture
// says so; it fires when the adversary likes. What a closed socket would have carried is not sent.

module Gesture {
  import opened Common

  datatype Point = Point(x: real, y: real)

  datatype Pointer = Pointer(id: nat, at: Point)

  datatype Sent =
    | Down(at: Point) | Up(at: Point) | Move(at: Point) | Click(at: Point, button: nat) | Scroll(at: Point, dy: real)

  /** `armed`: the long-press timer of a drag is running. */
  datatype Touch =
    | Drag(start: Point, last: Point, startedAt: int, dragging: bool, finished: bool, armed: bool)
    | Scrolling(lastY: real, at: Point)

  /** `strays` are the start points of gestures whose timer still runs although the gesture is gone. */
  datatype State = State(pointers: seq<Pointer>, gesture: Option<Touch>, strays: seq<Point>, open: bool, log: seq<Sent>)

  const Initial := State([], None, [], true, [])

  const TAP_LIMIT := 500
  const DRAG_DISTANCE := 12.0
  const SCROLL_STEP := 40.0

  function IndexOf(pointers: seq<Pointer>, id: nat): (k: nat)
    ensures k <= |pointers| && (k < |pointers| ==> pointers[k].id == id)
    ensures forall j | 0 <= j < k :: pointers[j].id != id
  {
    if pointers == [] || pointers[0].id == id then 0 else 1 + IndexOf(pointers[1..], id)
  }

  predicate Active(s: State, id: nat) {
    IndexOf(s.pointers, id) < |s.pointers|
  }

  /** Map.set: an entry that exists keeps its place. */
  function Put(pointers: seq<Pointer>, id: nat, at: Point): seq<Pointer> {
    var k := IndexOf(pointers, id);
    if k < |pointers| then pointers[k := Pointer(id, at)] else pointers + [Pointer(id, at)]
  }

  function Remove(pointers: seq<Pointer>, id: nat): seq<Pointer> {
    var k := IndexOf(pointers, id);
    if k < |pointers| then pointers[..k] + pointers[k + 1..] else pointers
  }

  function SumY(pointers: seq<Pointer>): real {
    if pointers == [] then 0.0 else SumY(pointers[..|pointers| - 1]) + pointers[|pointers| - 1].at.y
  }

  function Send(s: State, sent: Sent): State {
    if s.open then s.(log := s.log + [sent]) else s
  }

  predicate FarFrom(a: Point, b: Point) {
    (a.x - b.x) * (a.x - b.x) + (a.y - b.y) * (a.y - b.y) > DRAG_DISTANCE * DRAG_DISTANCE
  }

  /** A gesture that is overwritten leaves its timer running. */
  function Strays(s: State): seq<Point> {
    if s.gesture.Some? && s.gesture.value.Drag? && s.gesture.value.armed then s.strays + [s.gesture.value.start] else s.strays
  }

  function Press(s: State, id: nat, at: Point, now: int, interactive: bool): State {
    if !interactive then s
    else
      var t := s.(pointers := Put(s.pointers, id, at));
      if |t.pointers| == 1 then
        Send(t.(gesture := Some(Drag(at, at, now, false, false, true)), strays := Strays(s)), Move(at))
      else if |t.pointers| == 2 && t.gesture.Some? then
        var released := if t.gesture.value.Drag? && t.gesture.value.dragging then Send(t, Up(t.gesture.value.last)) else t;
        released.(gesture := Some(Scrolling(SumY(t.pointers) / 2.0, t.pointers[0].at)))
      else t
  }

  function DragTo(s: State, at: Point): State
    requires s.gesture.Some? && s.gesture.value.Drag?
  {
    var drag := s.gesture.value;
    if drag.finished then s
    else
      var begins := !drag.dragging && FarFrom(at, drag.start);
      var begun := if begins then Send(s, Down(drag.start)) else s;
      var moved := if drag.dragging || begins then Send(begun, Move(at)) else begun;
      moved.(gesture := Some(drag.(dragging := drag.dragging || begins, armed := drag.armed && !begins, last := at)))
  }

  function ScrollTo(s: State): State
    requires s.gesture.Some? && s.gesture.value.Scrolling? && s.pointers != []
  {
    var scroll := s.gesture.value;
    var y := SumY(s.pointers) / (|s.pointers| as real);
    var dy := scroll.lastY - y;
    if dy >= SCROLL_STEP || -dy >= SCROLL_STEP
    then Send(s, Scroll(scroll.at, dy)).(gesture := Some(scroll.(lastY := y)))
    else s
  }

  function MoveTo(s: State, id: nat, at: Point): State {
    if !Active(s, id) || s.gesture.None? then s
    else
      var t := s.(pointers := Put(s.pointers, id, at));
      if t.gesture.value.Scrolling? then ScrollTo(t) else DragTo(t, at)
  }

  function Finish(s: State, id: nat, now: int): State {
    if !Active(s, id) then s
    else
      var t := s.(pointers := Remove(s.pointers, id));
      match t.gesture
      case None => t
      case Some(Scrolling(_, _)) => if t.pointers == [] then t.(gesture := None) else t
      case Some(Drag(start, last, startedAt, dragging, finished, _)) =>
        (if dragging then Send(t, Up(last))
         else if !finished && now - startedAt < TAP_LIMIT then Send(t, Click(start, 1))
         else t).(gesture := None)
  }

  /** A timer's callback clicks where its own gesture started, but looks at the gesture there is now. */
  function LongPress(s: State, at: Point): State {
    if s.gesture.None? || (s.gesture.value.Drag? && s.gesture.value.dragging) then s
    else
      var marked := if s.gesture.value.Drag? then s.(gesture := Some(s.gesture.value.(finished := true))) else s;
      Send(marked, Click(at, 3))
  }

  /** The timer of the gesture itself. */
  function OwnTimer(s: State): State
    requires s.gesture.Some? && s.gesture.value.Drag?
  {
    LongPress(s.(gesture := Some(s.gesture.value.(armed := false))), s.gesture.value.start)
  }

  class ScreenInput {
    var pointers: seq<Pointer>
    var gesture: Option<Touch>
    var strays: seq<Point>
    var open: bool
    var log: seq<Sent>

    function View(): State
      reads this
    {
      State(pointers, gesture, strays, open, log)
    }

    constructor ()
      ensures View() == Initial
    {
      pointers, gesture, strays, open, log := [], None, [], true, [];
    }

    method Emit(sent: Sent)
      modifies this`log
      ensures View() == Send(old(View()), sent)
    {
      if open { log := log + [sent]; }
    }

    method PointerDown(id: nat, at: Point, now: int, interactive: bool)
      modifies this
      ensures View() == Press(old(View()), id, at, now, interactive)
    {
      if !interactive { return; }
      pointers := Put(pointers, id, at);
      if |pointers| == 1 {
        if gesture.Some? && gesture.value.Drag? && gesture.value.armed { strays := strays + [gesture.value.start]; }
        gesture := Some(Drag(at, at, now, false, false, true));
        Emit(Move(at));
      } else if |pointers| == 2 && gesture.Some? {
        if gesture.value.Drag? && gesture.value.dragging { Emit(Up(gesture.value.last)); }
        gesture := Some(Scrolling(SumY(pointers) / 2.0, pointers[0].at));
      }
    }

    method PointerMove(id: nat, at: Point)
      modifies this
      ensures View() == MoveTo(old(View()), id, at)
    {
      if IndexOf(pointers, id) == |pointers| || gesture.None? { return; }
      pointers := Put(pointers, id, at);
      match gesture.value {
        case Scrolling(lastY, start) =>
          var y := SumY(pointers) / (|pointers| as real);
          var dy := lastY - y;
          if dy >= SCROLL_STEP || -dy >= SCROLL_STEP {
            Emit(Scroll(start, dy));
            gesture := Some(Scrolling(y, start));
          }
        case Drag(start, last, startedAt, dragging, finished, armed) =>
          if finished { return; }
          var drags, timer := dragging, armed;
          if !drags && FarFrom(at, start) {
            drags, timer := true, false;
            Emit(Down(start));
          }
          if drags { Emit(Move(at)); }
          gesture := Some(Drag(start, at, startedAt, drags, finished, timer));
      }
    }

    method PointerFinish(id: nat, now: int)
      modifies this
      ensures View() == Finish(old(View()), id, now)
    {
      if IndexOf(pointers, id) == |pointers| { return; }
      pointers := Remove(pointers, id);
      if gesture.None? { return; }
      match gesture.value {
        case Scrolling(_, _) =>
          if |pointers| == 0 { gesture := None; }
        case Drag(start, last, startedAt, dragging, finished, _) =>
          if dragging {
            Emit(Up(last));
          } else if !finished && now - startedAt < TAP_LIMIT {
            Emit(Click(start, 1));
          }
          gesture := None;
      }
    }

    method TimerFires(at: Point)
      modifies this
      ensures View() == LongPress(old(View()), at)
    {
      if gesture.None? || (gesture.value.Drag? && gesture.value.dragging) { return; }
      if gesture.value.Drag? { gesture := Some(gesture.value.(finished := true)); }
      Emit(Click(at, 3));
    }

    method OwnTimerFires()
      requires gesture.Some? && gesture.value.Drag?
      modifies this
      ensures View() == OwnTimer(old(View()))
    {
      gesture := Some(gesture.value.(armed := false));
      TimerFires(gesture.value.start);
    }

    method StrayTimerFires(index: nat)
      requires index < |strays|
      modifies this
      ensures View() == LongPress(old(View()).(strays := old(strays)[..index] + old(strays)[index + 1..]), old(strays)[index])
    {
      var at := strays[index];
      strays := strays[..index] + strays[index + 1..];
      TimerFires(at);
    }

    method Perform(e: Event)
      modifies this
      ensures View() == Step(old(View()), e)
    {
      hide Press, MoveTo, Finish, LongPress, OwnTimer;
      if !Enabled(View(), e) { return; }
      match e {
        case PressEvent(id, at, now, interactive) => PointerDown(id, at, now, interactive);
        case MoveEvent(id, at) => PointerMove(id, at);
        case FinishEvent(id, now) => PointerFinish(id, now);
        case TimerEvent => OwnTimerFires();
        case StrayEvent(index) => StrayTimerFires(index);
        case SocketClosedEvent => open := false;
      }
    }
  }

  // ----- runs -----

  datatype Event =
    | PressEvent(id: nat, at: Point, now: int, interactive: bool)
    | MoveEvent(id: nat, at: Point)
    | FinishEvent(id: nat, now: int)
    | TimerEvent
    | StrayEvent(index: nat)
    | SocketClosedEvent

  predicate Enabled(s: State, e: Event) {
    match e
    case TimerEvent => s.gesture.Some? && s.gesture.value.Drag? && s.gesture.value.armed
    case StrayEvent(index) => index < |s.strays|
    case _ => true
  }

  function Step(s: State, e: Event): State {
    if !Enabled(s, e) then s
    else
      match e
      case PressEvent(id, at, now, interactive) => Press(s, id, at, now, interactive)
      case MoveEvent(id, at) => MoveTo(s, id, at)
      case FinishEvent(id, now) => Finish(s, id, now)
      case TimerEvent => OwnTimer(s)
      case StrayEvent(index) => LongPress(s.(strays := s.strays[..index] + s.strays[index + 1..]), s.strays[index])
      case SocketClosedEvent => s.(open := false)
  }

  function Run(s: State, events: seq<Event>): State
    decreases |events|
  {
    if events == [] then s else Run(Step(s, events[0]), events[1..])
  }

  lemma {:induction false} RunOneMore(s: State, events: seq<Event>, i: nat)
    requires i < |events|
    ensures Run(s, events[..i + 1]) == Step(Run(s, events[..i]), events[i])
    decreases |events|
  {
    hide Step;
    if i == 0 {
      assert events[..1] == [events[0]] && events[..1][1..] == [] && events[..0] == [];
    } else {
      assert events[..i + 1][1..] == events[1..][..i] && events[..i][1..] == events[1..][..i - 1];
      RunOneMore(Step(s, events[0]), events[1..], i - 1);
    }
  }

  /** A screen that gets these events is in the state the theorems about runs speak of. */
  method Replay(events: seq<Event>) returns (input: ScreenInput)
    ensures fresh(input) && input.View() == Run(Initial, events)
  {
    hide Step;
    input := new ScreenInput();
    assert events[..0] == [];
    for i := 0 to |events|
      invariant fresh(input) && input.View() == Run(Initial, events[..i])
    {
      input.Perform(events[i]);
      RunOneMore(Initial, events, i);
    }
    assert events[..|events|] == events;
  }

  /** The only pointer is pressed again in the middle of its drag. */
  predicate MidDrag(s: State, e: Event) {
    e.PressEvent? && e.interactive && Dragging(s) && Active(s, e.id)
  }

  predicate NeverMidDrag(s: State, events: seq<Event>)
    decreases |events|
  {
    events != [] ==> !MidDrag(s, events[0]) && NeverMidDrag(Step(s, events[0]), events[1..])
  }

  /** The remote button is down after this log. */
  predicate Held(log: seq<Sent>) {
    if log == [] then false
    else
      match log[|log| - 1]
      case Down(_) => true
      case Up(_) => false
      case _ => Held(log[..|log| - 1])
  }

  /** Downs and ups alternate, starting with a down; clicks and scrolls come only while nothing is held. */
  predicate Balanced(log: seq<Sent>) {
    if log == [] then true
    else
      var init := log[..|log| - 1];
      && Balanced(init)
      && match log[|log| - 1]
         case Down(_) => !Held(init)
         case Up(_) => Held(init)
         case Move(_) => true
         case Click(_, _) => !Held(init)
         case Scroll(_, _) => !Held(init)
  }

  predicate Dragging(s: State) {
    s.gesture.Some? && s.gesture.value.Drag? && s.gesture.value.dragging
  }

  predicate Inv(s: State) {
    && (s.gesture.None? <==> s.pointers == [])
    && (s.gesture.Some? && s.gesture.value.Drag? ==>
          && |s.pointers| == 1
          && !(s.gesture.value.dragging && s.gesture.value.finished)
          && (s.gesture.value.armed ==> !s.gesture.value.dragging))
    && Balanced(s.log)
    && (s.open ==> (Held(s.log) <==> Dragging(s)))
  }

  lemma AppendSent(log: seq<Sent>, sent: Sent)
    ensures Held(log + [sent]) == (if sent.Down? then true else if sent.Up? then false else Held(log))
    ensures Balanced(log + [sent]) <==>
              Balanced(log) && (sent.Up? ==> Held(log)) && (sent.Down? || sent.Click? || sent.Scroll? ==> !Held(log))
  {
    assert (log + [sent])[..|log|] == log;
  }

  lemma SendKeeps(s: State, sent: Sent)
    requires Balanced(s.log)
    requires s.open ==> (sent.Up? ==> Held(s.log)) && (sent.Down? || sent.Click? || sent.Scroll? ==> !Held(s.log))
    ensures Balanced(Send(s, sent).log)
    ensures s.open ==> Held(Send(s, sent).log) == (if sent.Down? then true else if sent.Up? then false else Held(s.log))
  {
    AppendSent(s.log, sent);
  }

  lemma PutSize(pointers: seq<Pointer>, id: nat, at: Point)
    ensures |Put(pointers, id, at)| == |pointers| + if IndexOf(pointers, id) < |pointers| then 0 else 1
  {
  }

  lemma PressKeeps(s: State, id: nat, at: Point, now: int, interactive: bool)
    requires Inv(s) && !MidDrag(s, PressEvent(id, at, now, interactive))
    ensures Inv(Press(s, id, at, now, interactive))
  {
    hide Held, Balanced;
    PutSize(s.pointers, id, at);
    SendKeeps(s, Move(at));
    if Dragging(s) { SendKeeps(s, Up(s.gesture.value.last)); }
  }

  lemma DragKeeps(s: State, at: Point)
    requires Inv(s) && s.gesture.Some? && s.gesture.value.Drag?
    ensures Inv(DragTo(s, at))
  {
    hide Held, Balanced, FarFrom;
    var drag := s.gesture.value;
    if !drag.finished {
      if drag.dragging {
        SendKeeps(s, Move(at));
      } else if FarFrom(at, drag.start) {
        SendKeeps(s, Down(drag.start));
        SendKeeps(Send(s, Down(drag.start)), Move(at));
      }
    }
  }

  lemma MoveKeeps(s: State, id: nat, at: Point)
    requires Inv(s)
    ensures Inv(MoveTo(s, id, at))
  {
    hide Held, Balanced, DragTo;
    if Active(s, id) && s.gesture.Some? {
      var t := s.(pointers := Put(s.pointers, id, at));
      PutSize(s.pointers, id, at);
      assert Inv(t);
      if t.gesture.value.Scrolling? {
        var y := SumY(t.pointers) / (|t.pointers| as real);
        SendKeeps(t, Scroll(t.gesture.value.at, t.gesture.value.lastY - y));
      } else {
        DragKeeps(t, at);
      }
    }
  }

  lemma FinishKeeps(s: State, id: nat, now: int)
    requires Inv(s)
    ensures Inv(Finish(s, id, now))
  {
    hide Held, Balanced;
    if Active(s, id) && s.gesture.Some? && s.gesture.value.Drag? {
      if Dragging(s) { SendKeeps(s, Up(s.gesture.value.last)); } else { SendKeeps(s, Click(s.gesture.value.start, 1)); }
    }
  }

  lemma TimerKeeps(s: State, at: Point)
    requires Inv(s)
    ensures Inv(LongPress(s, at))
  {
    hide Held, Balanced;
    if s.gesture.Some? && !Dragging(s) { SendKeeps(s, Click(at, 3)); }
  }

  lemma StepKeepsInv(s: State, e: Event)
    requires Inv(s) && !MidDrag(s, e)
    ensures Inv(Step(s, e))
  {
    hide Press, MoveTo, Finish, LongPress, Held, Balanced;
    match e
    case PressEvent(id, at, now, interactive) => PressKeeps(s, id, at, now, interactive);
    case MoveEvent(id, at) => MoveKeeps(s, id, at);
    case FinishEvent(id, now) => FinishKeeps(s, id, now);
    case TimerEvent =>
      if Enabled(s, e) { TimerKeeps(s.(gesture := Some(s.gesture.value.(armed := false))), s.gesture.value.start); }
    case StrayEvent(index) =>
      if Enabled(s, e) { TimerKeeps(s.(strays := s.strays[..index] + s.strays[index + 1..]), s.strays[index]); }
    case SocketClosedEvent =>
  }

  lemma InitialHolds()
    ensures Inv(Initial)
  {
  }

  /** For every sequence of touches and long presses in which no drag's own pointer is pressed again, the
      downs and ups sent alternate, starting with a down; while the socket is open the remote button is
      held exactly during a drag, and it is released when no finger is left. */
  lemma {:induction false} ButtonsAreBalanced(s: State, events: seq<Event>)
    requires Inv(s) && NeverMidDrag(s, events)
    ensures Inv(Run(s, events))
    ensures Balanced(Run(s, events).log)
    ensures Run(s, events).open ==>
              && (Held(Run(s, events).log) <==> Dragging(Run(s, events)))
              && (Run(s, events).pointers == [] ==> !Held(Run(s, events).log))
    decreases |events|
  {
    hide Step, Balanced, Held, MidDrag;
    if events != [] {
      StepKeepsInv(s, events[0]);
      ButtonsAreBalanced(Step(s, events[0]), events[1..]);
    }
  }

  /** Pressing a drag's pointer again forgets the drag, and the button stays held. */
  lemma MidDragSticks(s: State, e: Event)
    requires Inv(s) && s.open && MidDrag(s, e)
    ensures Held(Step(s, e).log) && !Dragging(Step(s, e)) && Step(s, e).open
  {
    hide Balanced;
    PutSize(s.pointers, e.id, e.at);
    AppendSent(s.log, Move(e.at));
  }

  /** At every moment of the run the button is held exactly during a drag. */
  ghost predicate AlwaysHeldAsDragged(s: State, events: seq<Event>)
    decreases |events|
  {
    && (Held(s.log) <==> Dragging(s))
    && (events != [] ==> AlwaysHeldAsDragged(Step(s, events[0]), events[1..]))
  }

  /** While the socket stays open, the button is held exactly during a drag at every moment of a run if
      and only if no drag's own pointer is pressed again. */
  lemma {:induction false} HeldAsDraggedUnlessPressedAgain(s: State, events: seq<Event>)
    requires Inv(s) && s.open && SocketClosedEvent !in events
    ensures AlwaysHeldAsDragged(s, events) <==> NeverMidDrag(s, events)
    decreases |events|
  {
    hide Step, Balanced, Held, MidDrag;
    if events != [] {
      assert events[0] in events;
      if MidDrag(s, events[0]) {
        MidDragSticks(s, events[0]);
      } else {
        StepKeepsInv(s, events[0]);
        StaysOpen(s, events[0]);
        HeldAsDraggedUnlessPressedAgain(Step(s, events[0]), events[1..]);
      }
    }
  }

  lemma StaysOpen(s: State, e: Event)
    requires s.open && !e.SocketClosedEvent?
    ensures Step(s, e).open
  {
  }

  const HOME := Point(0.0, 0.0)
  const AWAY := Point(20.0, 0.0)
  const PRESSED := State([Pointer(1, HOME)], Some(Drag(HOME, HOME, 0, false, false, true)), [], true, [Move(HOME)])
  const DRAGGED :=
    State([Pointer(1, AWAY)], Some(Drag(HOME, AWAY, 0, true, false, false)), [], true, [Move(HOME), Down(HOME), Move(AWAY)])

  lemma PressThenDrag()
    ensures Step(Initial, PressEvent(1, HOME, 0, true)) == PRESSED
    ensures Step(PRESSED, MoveEvent(1, AWAY)) == DRAGGED
  {
    assert Put(PRESSED.pointers, 1, AWAY) == [Pointer(1, AWAY)];
    assert FarFrom(AWAY, HOME) && !FarFrom(HOME, HOME);
    assert [Move(HOME)] + [Down(HOME)] + [Move(AWAY)] == DRAGGED.log;
  }

  lemma DraggedHolds()
    ensures Inv(DRAGGED) && Dragging(DRAGGED)
  {
    hide Held, Balanced;
    assert Held([]) == false && Balanced([]) by { NothingSent(); }
    AppendSent([], Move(HOME));
    AppendSent([Move(HOME)], Down(HOME));
    AppendSent([Move(HOME), Down(HOME)], Move(AWAY));
    assert [] + [Move(HOME)] == [Move(HOME)] && [Move(HOME)] + [Down(HOME)] == [Move(HOME), Down(HOME)];
    assert [Move(HOME), Down(HOME)] + [Move(AWAY)] == DRAGGED.log;
  }

  lemma NothingSent()
    ensures !Held([]) && Balanced([])
  {
  }

  /** Press, drag, press the same pointer again: the button is held, and nothing drags. */
  lemma PressedAgainStaysHeld()
    ensures var t := Run(Initial, [PressEvent(1, HOME, 0, true), MoveEvent(1, AWAY), PressEvent(1, AWAY, 9, true)]);
            Held(t.log) && !Dragging(t)
  {
    hide Step, Inv, Held;
    PressThenDrag();
    DraggedHolds();
    assert MidDrag(DRAGGED, PressEvent(1, AWAY, 9, true));
    MidDragSticks(DRAGGED, PressEvent(1, AWAY, 9, true));
    RunOfThree(Initial, PressEvent(1, HOME, 0, true), MoveEvent(1, AWAY), PressEvent(1, AWAY, 9, true));
  }

  lemma RunOfThree(s: State, first: Event, second: Event, third: Event)
    ensures Run(s, [first, second, third]) == Step(Step(Step(s, first), second), third)
  {
    hide Step;
    var t := Step(Step(Step(s, first), second), third);
    assert [third][1..] == [] && Run(t, []) == t;
    assert [second, third][1..] == [third] && [first, second, third][1..] == [second, third];
    assert Run(Step(s, first), [second, third]) == Run(Step(Step(s, first), second), [third]);
  }

  // ----- what one finger sends -----

  lemma {:induction false} RunSplits(s: State, a: seq<Event>, b: seq<Event>)
    ensures Run(s, a + b) == Run(Run(s, a), b)
    decreases |a|
  {
    hide Step;
    if a == [] {
      assert a + b == b;
    } else {
      assert (a + b)[1..] == a[1..] + b;
      RunSplits(Step(s, a[0]), a[1..], b);
    }
  }

  lemma RunOfOne(s: State, e: Event)
    ensures Run(s, [e]) == Step(s, e)
  {
    hide Step;
    assert [e][1..] == [] && Run(Step(s, e), []) == Step(s, e);
  }

  function Moves(id: nat, path: seq<Point>): seq<Event> {
    if path == [] then [] else [MoveEvent(id, path[0])] + Moves(id, path[1..])
  }

  function MovesSent(path: seq<Point>): seq<Sent> {
    if path == [] then [] else [Move(path[0])] + MovesSent(path[1..])
  }

  /** More than twelve pixels away. */
  predicate Beyond(a: Point, b: Point) {
    (a.x - b.x) * (a.x - b.x) + (a.y - b.y) * (a.y - b.y) > 144.0
  }

  /** How much of the path stays near the start. */
  function Near(start: Point, path: seq<Point>): (n: nat)
    ensures n <= |path| && (n < |path| ==> Beyond(path[n], start))
    ensures forall k | 0 <= k < n :: !Beyond(path[k], start)
  {
    if path == [] || Beyond(path[0], start) then 0 else 1 + Near(start, path[1..])
  }

  function EndOf(start: Point, path: seq<Point>): Point {
    if path == [] then start else path[|path| - 1]
  }

  /** What a finger that goes down at `start`, along the path and up again sends: a tap if it stays near and
      is short, a drag from the start if it does not stay near. */
  function OneFinger(start: Point, path: seq<Point>, duration: int): seq<Sent> {
    var n := Near(start, path);
    [Move(start)] +
    if n < |path| then [Down(start)] + MovesSent(path[n..]) + [Up(path[|path| - 1])]
    else if duration < 500 then [Click(start, 1)]
    else []
  }

  /** The finger `id`, alone on the screen, and its gesture. */
  predicate Alone(s: State, id: nat, at: Point, drag: Touch, log: seq<Sent>) {
    s.open && s.pointers == [Pointer(id, at)] && s.gesture == Some(drag) && s.log == log
  }

  lemma AloneMoves(s: State, id: nat, at: Point, drag: Touch, to: Point)
    requires Alone(s, id, at, drag, s.log) && drag.Drag?
    ensures Step(s, MoveEvent(id, to)) == DragTo(s.(pointers := [Pointer(id, to)]), to)
  {
    hide DragTo;
    assert IndexOf(s.pointers, id) == 0;
    assert Put(s.pointers, id, to) == [Pointer(id, to)];
  }

  lemma NearStep(s: State, id: nat, at: Point, drag: Touch, to: Point)
    requires Alone(s, id, at, drag, s.log) && drag.Drag? && !drag.dragging && !drag.finished && !Beyond(to, drag.start)
    ensures Alone(Step(s, MoveEvent(id, to)), id, to, drag.(last := to), s.log)
  {
    hide Step;
    AloneMoves(s, id, at, drag, to);
    FarIsBeyond(to, drag.start);
    hide FarFrom, Beyond;
  }

  lemma {:induction false} NearMoves(s: State, id: nat, at: Point, drag: Touch, path: seq<Point>)
    requires Alone(s, id, at, drag, s.log) && drag.Drag? && !drag.dragging && !drag.finished && drag.last == at
    requires Near(drag.start, path) == |path|
    ensures var end := EndOf(at, path); Alone(Run(s, Moves(id, path)), id, end, drag.(last := end), s.log)
    decreases |path|
  {
    hide Step, Alone, Run, Moves, MovesSent, Beyond;
    if path == [] {
      NoMoves(s, id);
    } else {
      var next := Step(s, MoveEvent(id, path[0]));
      NearStep(s, id, at, drag, path[0]);
      LogOf(next, id, path[0], drag.(last := path[0]));
      NearMoves(next, id, path[0], drag.(last := path[0]), path[1..]);
      FirstMove(s, id, path, s.log);
    }
  }

  lemma DragStep(s: State, id: nat, at: Point, drag: Touch, to: Point)
    requires Alone(s, id, at, drag, s.log) && drag.Drag? && drag.dragging && !drag.finished
    ensures Alone(Step(s, MoveEvent(id, to)), id, to, drag.(last := to), s.log + [Move(to)])
  {
    hide Step, FarFrom;
    AloneMoves(s, id, at, drag, to);
  }

  lemma {:induction false} DragMoves(s: State, id: nat, at: Point, drag: Touch, path: seq<Point>)
    requires Alone(s, id, at, drag, s.log) && drag.Drag? && drag.dragging && !drag.finished && drag.last == at
    ensures var end := EndOf(at, path);
            Alone(Run(s, Moves(id, path)), id, end, drag.(last := end), s.log + MovesSent(path))
    decreases |path|
  {
    hide Step, Alone, Run, Moves, MovesSent;
    if path == [] {
      NoMoves(s, id);
    } else {
      var next := Step(s, MoveEvent(id, path[0]));
      DragStep(s, id, at, drag, path[0]);
      LogOf(next, id, path[0], drag.(last := path[0]));
      DragMoves(next, id, path[0], drag.(last := path[0]), path[1..]);
      FirstMove(s, id, path, s.log);
    }
  }

  lemma FirstMove(s: State, id: nat, path: seq<Point>, log: seq<Sent>)
    requires path != []
    ensures Run(s, Moves(id, path)) == Run(Step(s, MoveEvent(id, path[0])), Moves(id, path[1..]))
    ensures log + MovesSent(path) == log + [Move(path[0])] + MovesSent(path[1..])
  {
    hide Step;
    assert Moves(id, path)[1..] == Moves(id, path[1..]);
  }

  lemma {:induction false} FinishedMoves(s: State, id: nat, at: Point, drag: Touch, path: seq<Point>)
    requires Alone(s, id, at, drag, s.log) && drag.Drag? && drag.finished
    ensures Alone(Run(s, Moves(id, path)), id, EndOf(at, path), drag, s.log)
    decreases |path|
  {
    hide Step;
    if path != [] {
      AloneMoves(s, id, at, drag, path[0]);
      FinishedMoves(Step(s, MoveEvent(id, path[0])), id, path[0], drag, path[1..]);
      assert Moves(id, path)[1..] == Moves(id, path[1..]);
    }
  }

  lemma FirstFinger(s: State, id: nat, at: Point, now: int)
    requires Inv(s) && s.open && s.pointers == []
    ensures var t := Step(s, PressEvent(id, at, now, true));
            Alone(t, id, at, Drag(at, at, now, false, false, true), s.log + [Move(at)]) && t.strays == s.strays
  {
    assert Put([], id, at) == [Pointer(id, at)];
  }

  lemma LastFinger(s: State, id: nat, at: Point, drag: Touch, now: int)
    requires Alone(s, id, at, drag, s.log) && drag.Drag?
    ensures var t := Step(s, FinishEvent(id, now));
            && t.pointers == [] && t.gesture.None? && t.open && t.strays == s.strays
            && t.log == s.log + if drag.dragging then [Up(drag.last)]
                                else if !drag.finished && now - drag.startedAt < 500 then [Click(drag.start, 1)]
                                else []
  {
    assert IndexOf(s.pointers, id) == 0;
    assert Remove(s.pointers, id) == [];
  }

  /** On any untouched screen with an open socket, a finger that goes down, moves and goes up before its
      long press sends exactly that, and leaves the screen untouched. */
  lemma OneFingerSends(s: State, id: nat, start: Point, path: seq<Point>, down: int, up: int)
    requires Inv(s) && s.open && s.pointers == []
    ensures var t := Run(s, [PressEvent(id, start, down, true)] + Moves(id, path) + [FinishEvent(id, up)]);
            t.log == s.log + OneFinger(start, path, up - down) && t.pointers == [] && t.gesture.None?
  {
    hide Step, Run, Inv, Moves, MovesSent, Near, Alone;
    var press, finish := PressEvent(id, start, down, true), FinishEvent(id, up);
    RunSplits(s, [press] + Moves(id, path), [finish]);
    RunSplits(s, [press], Moves(id, path));
    RunOfOne(s, press);
    FirstFinger(s, id, start, down);
    var pressed := Step(s, press);
    var moved := Run(pressed, Moves(id, path));
    RunOfOne(moved, finish);
    WholePath(pressed, id, start, down, path);
    var n, end := Near(start, path), EndOf(start, path);
    var drag := Drag(start, end, down, n < |path|, false, n == |path|);
    LogOf(moved, id, end, drag);
    LastFinger(moved, id, end, drag, up);
    LogOf(pressed, id, start, Drag(start, start, down, false, false, true));
    Assemble(s.log, start, path, up - down);
  }

  lemma LogOf(s: State, id: nat, at: Point, drag: Touch)
    ensures forall log :: Alone(s, id, at, drag, log) ==> s.log == log && Alone(s, id, at, drag, s.log)
  {
  }

  /** What the path adds between press and release. */
  function OnTheWay(start: Point, path: seq<Point>): seq<Sent> {
    var n := Near(start, path);
    if n < |path| then [Down(start)] + MovesSent(path[n..]) else []
  }

  lemma WholePath(s: State, id: nat, start: Point, down: int, path: seq<Point>)
    requires Alone(s, id, start, Drag(start, start, down, false, false, true), s.log)
    ensures var n, end := Near(start, path), EndOf(start, path);
            Alone(Run(s, Moves(id, path)), id, end, Drag(start, end, down, n < |path|, false, n == |path|),
                  s.log + OnTheWay(start, path))
  {
    hide Step, Run, Moves, Near, Alone, MovesSent, Beyond;
    var n := Near(start, path);
    var first, rest := path[..n], path[n..];
    assert path == first + rest;
    MovesJoin(id, first, rest);
    RunSplits(s, Moves(id, first), Moves(id, rest));
    NearPrefix(start, path, n);
    var drag := Drag(start, start, down, false, false, true);
    NearMoves(s, id, start, drag, first);
    var near := Run(s, Moves(id, first));
    var at := EndOf(start, first);
    LogOf(near, id, at, drag.(last := at));
    if n < |path| {
      FarMove(near, id, at, drag.(last := at), rest);
      assert EndOf(at, rest) == EndOf(start, path);
    } else {
      assert rest == [] && first == path && s.log + [] == s.log;
      NoMoves(near, id);
    }
  }

  lemma NoMoves(s: State, id: nat)
    ensures Run(s, Moves(id, [])) == s && s.log + MovesSent([]) == s.log
  {
  }

  lemma {:induction false} MovesJoin(id: nat, a: seq<Point>, b: seq<Point>)
    ensures Moves(id, a + b) == Moves(id, a) + Moves(id, b)
  {
    if a == [] {
      assert a + b == b;
    } else {
      assert (a + b)[1..] == a[1..] + b;
      MovesJoin(id, a[1..], b);
    }
  }

  lemma {:induction false} NearPrefix(start: Point, path: seq<Point>, n: nat)
    requires n <= Near(start, path)
    ensures n <= |path| && Near(start, path[..n]) == n
  {
    if n > 0 {
      assert path[..n][1..] == path[1..][..n - 1];
      NearPrefix(start, path[1..], n - 1);
    }
  }

  /** The move that begins the drag, and what follows it. */
  lemma FarMove(s: State, id: nat, at: Point, drag: Touch, path: seq<Point>)
    requires Alone(s, id, at, drag, s.log) && drag.Drag? && !drag.dragging && !drag.finished && drag.armed && drag.last == at
    requires path != [] && Beyond(path[0], drag.start)
    ensures var end := EndOf(at, path);
            Alone(Run(s, Moves(id, path)), id, end, drag.(last := end, dragging := true, armed := false),
                  s.log + ([Down(drag.start)] + MovesSent(path)))
  {
    hide Step, Alone, Run, Moves, MovesSent, Beyond;
    var next := Step(s, MoveEvent(id, path[0]));
    var begun := drag.(last := path[0], dragging := true, armed := false);
    FarStep(s, id, at, drag, path[0]);
    LogOf(next, id, path[0], begun);
    DragMoves(next, id, path[0], begun, path[1..]);
    FirstMove(s, id, path, s.log + [Down(drag.start)]);
    assert s.log + [Down(drag.start)] + MovesSent(path) == s.log + ([Down(drag.start)] + MovesSent(path));
  }

  lemma FarStep(s: State, id: nat, at: Point, drag: Touch, to: Point)
    requires Alone(s, id, at, drag, s.log) && drag.Drag? && !drag.dragging && !drag.finished && drag.armed
    requires Beyond(to, drag.start)
    ensures Alone(Step(s, MoveEvent(id, to)), id, to, drag.(last := to, dragging := true, armed := false),
                  s.log + [Down(drag.start)] + [Move(to)])
  {
    hide Step;
    AloneMoves(s, id, at, drag, to);
    FarIsBeyond(to, drag.start);
    hide FarFrom, Beyond;
  }

  lemma FarIsBeyond(a: Point, b: Point)
    ensures FarFrom(a, b) <==> Beyond(a, b)
  {
  }

  lemma Assemble(log: seq<Sent>, start: Point, path: seq<Point>, duration: int)
    ensures var n := Near(start, path);
            log + [Move(start)] + OnTheWay(start, path)
              + (if n < |path| then [Up(EndOf(start, path))] else if duration < 500 then [Click(start, 1)] else [])
            == log + OneFinger(start, path, duration)
  {
    hide Near, MovesSent;
  }

  /** A finger that stays near until its long press sends a click of the right button, and then nothing
      more, wherever it goes. */
  lemma LongPressSends(s: State, id: nat, start: Point, path: seq<Point>, more: seq<Point>, down: int, up: int)
    requires Inv(s) && s.open && s.pointers == [] && Near(start, path) == |path|
    ensures var events := [PressEvent(id, start, down, true)] + Moves(id, path) + [TimerEvent] + Moves(id, more) + [FinishEvent(id, up)];
            var t := Run(s, events);
            t.log == s.log + [Move(start), Click(start, 3)] && t.pointers == [] && t.gesture.None?
  {
    hide Step, Run, Inv, Moves, Near, Alone;
    var press, finish := PressEvent(id, start, down, true), FinishEvent(id, up);
    var upTo := [press] + Moves(id, path);
    RunSplits(s, upTo + [TimerEvent] + Moves(id, more), [finish]);
    RunSplits(s, upTo + [TimerEvent], Moves(id, more));
    RunSplits(s, upTo, [TimerEvent]);
    RunSplits(s, [press], Moves(id, path));
    RunOfOne(s, press);
    FirstFinger(s, id, start, down);
    var pressed, drag := Step(s, press), Drag(start, start, down, false, false, true);
    LogOf(pressed, id, start, drag);
    NearMoves(pressed, id, start, drag, path);
    var near, at := Run(pressed, Moves(id, path)), EndOf(start, path);
    LogOf(near, id, at, drag.(last := at));
    RunOfOne(near, TimerEvent);
    TimerClicks(near, id, at, drag.(last := at));
    var held := Step(near, TimerEvent);
    var done := drag.(last := at, finished := true, armed := false);
    LogOf(held, id, at, done);
    FinishedMoves(held, id, at, done, more);
    var later := Run(held, Moves(id, more));
    LogOf(later, id, EndOf(at, more), done);
    RunOfOne(later, finish);
    LastFinger(later, id, EndOf(at, more), done, up);
    assert s.log + [Move(start)] + [Click(start, 3)] + [] == s.log + [Move(start), Click(start, 3)];
  }

  lemma TimerClicks(s: State, id: nat, at: Point, drag: Touch)
    requires Alone(s, id, at, drag, s.log) && drag.Drag? && !drag.dragging && drag.armed
    ensures Alone(Step(s, TimerEvent), id, at, drag.(finished := true, armed := false), s.log + [Click(drag.start, 3)])
  {
  }

  /** Once a drag has begun, its long press is off. */
  lemma DragsHaveNoLongPress(s: State)
    requires Inv(s) && Dragging(s)
    ensures !Enabled(s, TimerEvent)
  {
  }

  // ----- what two fingers send -----

  function SumOfScrolls(log: seq<Sent>): real {
    if log == [] then 0.0
    else
      var last := log[|log| - 1];
      SumOfScrolls(log[..|log| - 1]) + if last.Scroll? then last.dy else 0.0
  }

  /** The height half-way between two fingers. */
  function Middle(s: State): real
    requires |s.pointers| == 2
  {
    (s.pointers[0].at.y + s.pointers[1].at.y) / 2.0
  }

  predicate TwoFingers(s: State, start: Point) {
    && |s.pointers| == 2 && s.gesture.Some? && s.gesture.value.Scrolling? && s.gesture.value.at == start
    && -40.0 < s.gesture.value.lastY - Middle(s) < 40.0
  }

  ghost predicate OnlyMoves(events: seq<Event>) {
    forall e :: e in events ==> e.MoveEvent?
  }

  lemma SumYOfTwo(pointers: seq<Pointer>)
    requires |pointers| == 2
    ensures SumY(pointers) == pointers[0].at.y + pointers[1].at.y
  {
    assert pointers[..1][..0] == [];
    assert SumY(pointers[..1]) == pointers[0].at.y;
  }

  lemma ScrollStep(s: State, e: Event, start: Point)
    requires TwoFingers(s, start) && s.open && e.MoveEvent?
    ensures var t := Step(s, e);
            && TwoFingers(t, start) && t.open
            && SumOfScrolls(t.log) == SumOfScrolls(s.log) + s.gesture.value.lastY - t.gesture.value.lastY
            && (t.log == s.log
                || (|t.log| == |s.log| + 1 && t.log[..|s.log|] == s.log
                    && var sent := t.log[|s.log|]; sent.Scroll? && sent.at == start && (sent.dy >= 40.0 || sent.dy <= -40.0)))
  {
    if Active(s, e.id) {
      PutSize(s.pointers, e.id, e.at);
      var moved := s.(pointers := Put(s.pointers, e.id, e.at));
      SumYOfTwo(moved.pointers);
      var y := SumY(moved.pointers) / 2.0;
      assert (|moved.pointers| as real) == 2.0;
      assert y == Middle(moved);
      assert (s.log + [Scroll(start, s.gesture.value.lastY - y)])[..|s.log|] == s.log;
    }
  }

  /** The scrolls sent while two fingers move add up to how far the middle between them has gone up, to
      within one step of forty. */
  lemma {:induction false} ScrollsFollowTheFingers(s: State, events: seq<Event>, start: Point)
    requires TwoFingers(s, start) && s.open && OnlyMoves(events)
    ensures var t := Run(s, events);
            && TwoFingers(t, start)
            && SumOfScrolls(t.log) == SumOfScrolls(s.log) + s.gesture.value.lastY - t.gesture.value.lastY
            && -40.0 < s.gesture.value.lastY - Middle(t) - (SumOfScrolls(t.log) - SumOfScrolls(s.log)) < 40.0
    decreases |events|
  {
    hide Step, SumOfScrolls;
    if events != [] {
      assert events[0] in events;
      ScrollStep(s, events[0], start);
      ScrollsFollowTheFingers(Step(s, events[0]), events[1..], start);
    }
  }

  /** A second finger begins such a scroll at the middle, after letting go of a drag. */
  lemma SecondFingerScrolls(s: State, id: nat, at: Point, now: int)
    requires Inv(s) && s.open && |s.pointers| == 1 && s.pointers[0].id != id
    ensures var t := Step(s, PressEvent(id, at, now, true));
            && TwoFingers(t, s.pointers[0].at) && t.open && t.gesture.value.lastY == Middle(t)
            && t.log == s.log + if Dragging(s) then [Up(s.gesture.value.last)] else []
  {
    PutSize(s.pointers, id, at);
    SumYOfTwo(Put(s.pointers, id, at));
  }

  /** A finger that is pressed again before its long press leaves that timer running: it still clicks with
      the right button, where the finger was first. */
  lemma OverwrittenLongPressClicks(s: State, id: nat, at: Point, drag: Touch, to: Point, now: int)
    requires Alone(s, id, at, drag, s.log) && drag.Drag? && drag.armed && !drag.dragging && s.strays == []
    ensures var t := Step(s, PressEvent(id, to, now, true));
            && t.strays == [drag.start] && Enabled(t, StrayEvent(0)) && Enabled(t, TimerEvent)
            && Step(t, StrayEvent(0)).log == s.log + [Move(to)] + [Click(drag.start, 3)]
            && Step(t, TimerEvent).log == s.log + [Move(to)] + [Click(to, 3)]
  {
    assert IndexOf(s.pointers, id) == 0;
    assert Put(s.pointers, id, to) == [Pointer(id, to)];
  }
}

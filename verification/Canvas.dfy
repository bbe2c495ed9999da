// grok-mobile-belmont-pwa/src/windows-canvas.ts: the duplicate guard and the guarded resize of a canvas.
//
// Frames and canvases are ids; a canvas has one drawing context. What a canvas shows is Blank or a frame
// painted over a size. Losing a context clears its canvas; the adversary decides when contexts are lost
// and restored, which calls throw, and when the pipe gets another frame or another canvas.

module Canvas {
  import opened Common

  datatype Size = Size(width: int, height: int)

  datatype Bitmap = Blank | Painted(frame: nat, size: Size)

  datatype Surface = Surface(size: Size, bitmap: Bitmap, lost: bool)

  datatype Stats = Stats(draws: nat, duplicateSkips: nat, resizes: nat, failures: nat)

  /** What is on the page: the pipe's frame and its display size, its canvas, all canvases. */
  datatype Page = Page(
    current: Option<nat>,
    sizes: map<nat, Size>,
    canvas: Option<nat>,
    surfaces: map<nat, Surface>,
    errored: bool)

  /** `first` is the canvas whose `contextrestored` is listened to; `unheard` are the other canvases
      restored since the guard last forgot or painted its frame. */
  datatype State = State(
    page: Page,
    first: nat,
    lastFrame: Option<nat>,
    lastCanvas: Option<nat>,
    lastSize: Size,
    stats: Stats,
    unheard: set<nat>)

  /** What goes wrong in a draw: no context, a throw while painting, a throw while committing. */
  datatype Faults = Faults(noContext: bool, paint: bool, commit: bool)

  predicate HasCanvas(p: Page) {
    p.canvas.Some? && p.canvas.value in p.surfaces
  }

  function CurrentSize(p: Page): Size {
    if p.current.Some? && p.current.value in p.sizes then p.sizes[p.current.value] else Size(0, 0)
  }

  /** A frame with a positive size, a canvas, and no earlier error. */
  predicate Drawable(p: Page) {
    !p.errored && p.current.Some? && HasCanvas(p) && CurrentSize(p).width > 0 && CurrentSize(p).height > 0
  }

  function Put(p: Page, surface: Surface): Page
    requires HasCanvas(p)
  {
    p.(surfaces := p.surfaces[p.canvas.value := surface])
  }

  /** A canvas given a new width or height is cleared. */
  function Resized(p: Page, size: Size): Page {
    if !HasCanvas(p) || p.surfaces[p.canvas.value].size == size then p
    else Put(p, p.surfaces[p.canvas.value].(size := size, bitmap := Blank))
  }

  function Paint(p: Page): Page
    requires HasCanvas(p) && p.current.Some?
  {
    Put(p, p.surfaces[p.canvas.value].(bitmap := Painted(p.current.value, CurrentSize(p))))
  }

  /** The canvas shows exactly the current frame at its display size. */
  predicate Showing(p: Page) {
    && HasCanvas(p) && p.current.Some?
    && p.surfaces[p.canvas.value].size == CurrentSize(p)
    && p.surfaces[p.canvas.value].bitmap == Painted(p.current.value, CurrentSize(p))
  }

  predicate Live(p: Page, f: Faults) {
    HasCanvas(p) && !f.noContext && !p.surfaces[p.canvas.value].lost
  }

  // ----- the unguarded pipe, which redraws every time -----

  function Redraw(p: Page, f: Faults): Page {
    if !Drawable(p) || !Live(p, f) then p
    else
      var sized := Resized(p, CurrentSize(p));
      if f.paint then sized.(errored := true)
      else if f.commit then Paint(sized).(errored := true)
      else Paint(sized)
  }

  // ----- the guarded pipe -----

  function Invalidate(s: State): State {
    s.(lastFrame := None, unheard := {})
  }

  function Changes(from: Size, to: Size): nat {
    (if from.width != to.width then 1 else 0) + (if from.height != to.height then 1 else 0)
  }

  function SetCanvasSize(s: State, size: Size): State {
    if !HasCanvas(s.page) || s.page.surfaces[s.page.canvas.value].size == size then s
    else
      var changes := Changes(s.page.surfaces[s.page.canvas.value].size, size);
      Invalidate(s).(page := Resized(s.page, size), stats := s.stats.(resizes := s.stats.resizes + changes))
  }

  /** The frame, the canvas and every size are what they were at the last paint. */
  predicate Duplicate(s: State) {
    && HasCanvas(s.page) && s.page.current.Some?
    && s.page.current == s.lastFrame && s.page.canvas == s.lastCanvas
    && CurrentSize(s.page) == s.lastSize
    && s.page.surfaces[s.page.canvas.value].size == CurrentSize(s.page)
  }

  function Failed(s: State): State {
    Invalidate(s).(page := s.page.(errored := true), stats := s.stats.(failures := s.stats.failures + 1))
  }

  function Draw(s: State, f: Faults): State {
    if !Drawable(s.page) then s
    else if !Live(s.page, f) then Invalidate(s)
    else if Duplicate(s) then s.(stats := s.stats.(duplicateSkips := s.stats.duplicateSkips + 1))
    else
      var sized := SetCanvasSize(s, CurrentSize(s.page));
      if f.paint then Failed(sized)
      else
        var painted := sized.(page := Paint(sized.page));
        if f.commit then Failed(painted)
        else painted.(lastFrame := s.page.current, lastCanvas := s.page.canvas, lastSize := CurrentSize(s.page),
                      stats := painted.stats.(draws := painted.stats.draws + 1),
                      unheard := painted.unheard - {s.page.canvas.value})
  }

  class Presenter {
    var page: Page
    const first: nat
    var lastFrame: Option<nat>
    var lastCanvas: Option<nat>
    var lastSize: Size
    var stats: Stats
    ghost var unheard: set<nat>

    ghost function View(): State
      reads this
    {
      State(page, first, lastFrame, lastCanvas, lastSize, stats, unheard)
    }

    constructor (page: Page, first: nat)
      ensures View() == Installed(page, first)
    {
      this.page, this.first := page, first;
      lastFrame, lastCanvas, lastSize := None, None, Size(0, 0);
      stats, unheard := Stats(0, 0, 0, 0), {};
    }

    method Forget()
      modifies this`lastFrame, this`unheard
      ensures View() == Invalidate(old(View()))
    {
      lastFrame := None;
      unheard := {};
    }

    method GuardedResize(width: int, height: int)
      modifies this
      ensures View() == SetCanvasSize(old(View()), Size(width, height))
    {
      if page.canvas.None? || page.canvas.value !in page.surfaces { return; }
      var surface := page.surfaces[page.canvas.value];
      if surface.size.width != width {
        Forget();
        surface := surface.(size := Size(width, surface.size.height), bitmap := Blank);
        stats := stats.(resizes := stats.resizes + 1);
      }
      if surface.size.height != height {
        Forget();
        surface := surface.(size := Size(width, height), bitmap := Blank);
        stats := stats.(resizes := stats.resizes + 1);
      }
      if surface != page.surfaces[page.canvas.value] { page := Put(page, surface); }
    }

    method Fail()
      modifies this
      ensures View() == Failed(old(View()))
    {
      Forget();
      stats := stats.(failures := stats.failures + 1);
      page := page.(errored := true);
    }

    method DrawCurrentFrameIfReady(f: Faults)
      modifies this
      ensures View() == Draw(old(View()), f)
    {
      if page.errored || page.current.None? || page.canvas.None? || page.canvas.value !in page.surfaces { return; }
      var size := CurrentSize(page);
      if size.width <= 0 || size.height <= 0 { return; }
      var canvas := page.canvas.value;
      if f.noContext || page.surfaces[canvas].lost {
        Forget();
        return;
      }
      if && page.current == lastFrame && page.canvas == lastCanvas && size == lastSize
         && page.surfaces[canvas].size == size {
        stats := stats.(duplicateSkips := stats.duplicateSkips + 1);
        return;
      }
      GuardedResize(size.width, size.height);
      if f.paint {
        Fail();
        return;
      }
      page := Paint(page);
      if f.commit {
        Fail();
        return;
      }
      lastFrame, lastCanvas, lastSize := page.current, Some(canvas), size;
      stats := stats.(draws := stats.draws + 1);
      unheard := unheard - {canvas};
    }
  }

  // ----- runs -----

  datatype Event =
    | FrameEvent(frame: Option<nat>)
    | FrameSizeEvent(sized: nat, size: Size)
    | CanvasEvent(canvas: Option<nat>)
    | NewSurfaceEvent(added: nat, size: Size)
    | ResizeEvent(size: Size)
    | LoseEvent(lost: nat)
    | RestoreEvent(restored: nat)
    | RecoverEvent
    | DrawEvent(faults: Faults)

  function Installed(page: Page, first: nat): State {
    State(page, first, None, None, Size(0, 0), Stats(0, 0, 0, 0), {})
  }

  function OnPage(p: Page, e: Event): Page {
    match e
    case FrameEvent(frame) => p.(current := frame)
    case FrameSizeEvent(frame, size) => p.(sizes := p.sizes[frame := size])
    case CanvasEvent(canvas) => p.(canvas := canvas)
    case NewSurfaceEvent(canvas, size) =>
      if canvas in p.surfaces then p else p.(surfaces := p.surfaces[canvas := Surface(size, Blank, false)])
    case ResizeEvent(size) => Resized(p, size)
    case LoseEvent(canvas) =>
      if canvas !in p.surfaces then p
      else p.(surfaces := p.surfaces[canvas := p.surfaces[canvas].(bitmap := Blank, lost := true)])
    case RestoreEvent(canvas) =>
      if canvas !in p.surfaces || !p.surfaces[canvas].lost then p
      else p.(surfaces := p.surfaces[canvas := p.surfaces[canvas].(lost := false)])
    case RecoverEvent => p.(errored := false)
    case DrawEvent(faults) => Redraw(p, faults)
  }

  function Step(s: State, e: Event): State {
    match e
    case DrawEvent(faults) => Draw(s, faults)
    case ResizeEvent(size) => SetCanvasSize(s, size)
    case RestoreEvent(canvas) =>
      if canvas !in s.page.surfaces || !s.page.surfaces[canvas].lost then s
      else if canvas == s.first then Invalidate(s).(page := OnPage(s.page, e))
      else s.(page := OnPage(s.page, e), unheard := s.unheard + {canvas})
    case _ => s.(page := OnPage(s.page, e))
  }

  function Run(s: State, events: seq<Event>): State
    decreases |events|
  {
    if events == [] then s else Run(Step(s, events[0]), events[1..])
  }

  /** The frame remembered is what its canvas shows, unless that canvas is lost or was restored unheard. */
  predicate Inv(s: State) {
    && s.first !in s.unheard
    && (s.lastFrame.Some? ==>
          && s.lastCanvas.Some? && s.lastCanvas.value in s.page.surfaces
          && var surface := s.page.surfaces[s.lastCanvas.value];
             if surface.lost || s.lastCanvas.value in s.unheard then surface.bitmap == Blank
             else surface.size == s.lastSize && surface.bitmap == Painted(s.lastFrame.value, s.lastSize))
  }

  lemma DrawKeepsInv(s: State, f: Faults)
    requires Inv(s)
    ensures Inv(Draw(s, f))
  {
  }

  lemma StepKeepsInv(s: State, e: Event)
    requires Inv(s)
    ensures Inv(Step(s, e))
  {
    hide Draw;
    if e.DrawEvent? { DrawKeepsInv(s, e.faults); }
  }

  lemma {:induction false} RunKeepsInv(s: State, events: seq<Event>)
    requires Inv(s)
    ensures Inv(Run(s, events))
    decreases |events|
  {
    hide Step, Inv;
    if events != [] {
      StepKeepsInv(s, events[0]);
      RunKeepsInv(Step(s, events[0]), events[1..]);
    }
  }

  predicate Skips(s: State, f: Faults) {
    Drawable(s.page) && Live(s.page, f) && Duplicate(s)
  }

  /** A draw skipped as a duplicate finds the canvas showing exactly the current frame, if and only if
      the canvas was not restored behind the guard's back. */
  lemma SkipIsRightUnlessUnheard(page: Page, first: nat, events: seq<Event>, f: Faults)
    ensures var s := Run(Installed(page, first), events);
            Skips(s, f) ==> (Showing(s.page) <==> s.page.canvas.value !in s.unheard)
  {
    assert Inv(Installed(page, first));
    RunKeepsInv(Installed(page, first), events);
  }

  /** At any moment of any run, a draw with a drawable frame and a live context that fails nowhere, skipped
      or not, is counted once and ends with the canvas showing that frame, but for one case: it was
      skipped on a canvas restored unheard. */
  lemma DrawShowsTheFrame(page: Page, first: nat, events: seq<Event>, f: Faults)
    requires var s := Run(Installed(page, first), events);
             Drawable(s.page) && Live(s.page, f) && (Duplicate(s) || (!f.paint && !f.commit))
    ensures var s := Run(Installed(page, first), events);
            && (Showing(Draw(s, f).page) <==> !(Duplicate(s) && s.page.canvas.value in s.unheard))
            && Live(Draw(s, f).page, f) && !Draw(s, f).page.errored
            && Draw(s, f).stats.draws + Draw(s, f).stats.duplicateSkips == s.stats.draws + s.stats.duplicateSkips + 1
  {
    assert Inv(Installed(page, first));
    RunKeepsInv(Installed(page, first), events);
  }

  // ----- against the pipe that redraws every time -----

  function RunPage(p: Page, events: seq<Event>): Page
    decreases |events|
  {
    if events == [] then p else RunPage(OnPage(p, events[0]), events[1..])
  }

  /** The draw is skipped although a redraw would change the page: the canvas was restored unheard and is
      blank, or painting or committing would throw. */
  predicate SkipsAChange(s: State, e: Event) {
    && e.DrawEvent? && Skips(s, e.faults)
    && (s.page.canvas.value in s.unheard || e.faults.paint || e.faults.commit)
  }

  lemma PaintAgain(p: Page)
    requires HasCanvas(p) && p.current.Some? && p.surfaces[p.canvas.value].size == CurrentSize(p)
    ensures Paint(Resized(p, CurrentSize(p))) == p <==> Showing(p)
  {
    if Showing(p) { assert p.surfaces[p.canvas.value := p.surfaces[p.canvas.value]] == p.surfaces; }
  }

  /** One step of both pipes from the same page. */
  lemma StepAgrees(s: State, e: Event)
    requires Inv(s)
    ensures Step(s, e).page == OnPage(s.page, e) <==> !SkipsAChange(s, e)
  {
    if e.DrawEvent? && Skips(s, e.faults) { PaintAgain(s.page); }
  }

  /** The two pages are the same at every moment of the run. */
  ghost predicate AgreesThroughout(s: State, p: Page, events: seq<Event>)
    decreases |events|
  {
    s.page == p && (events != [] ==> AgreesThroughout(Step(s, events[0]), OnPage(p, events[0]), events[1..]))
  }

  predicate NeverSkipsAChange(s: State, events: seq<Event>)
    decreases |events|
  {
    events != [] ==> !SkipsAChange(s, events[0]) && NeverSkipsAChange(Step(s, events[0]), events[1..])
  }

  /** For every run of frames, resizes, losses, restores, replaced canvases and throwing draws: at every
      moment the guarded pipe has on every canvas what a pipe that redraws every time has there, if and
      only if no draw of the run is skipped on a canvas restored unheard, or where the redraw would throw. */
  lemma {:induction false} AgreesWithAlwaysRedrawing(s: State, events: seq<Event>)
    requires Inv(s)
    ensures AgreesThroughout(s, s.page, events) <==> NeverSkipsAChange(s, events)
    ensures NeverSkipsAChange(s, events) ==> Run(s, events).page == RunPage(s.page, events)
    decreases |events|
  {
    hide Step, OnPage, Inv, SkipsAChange;
    if events != [] {
      StepKeepsInv(s, events[0]);
      StepAgrees(s, events[0]);
      AgreesWithAlwaysRedrawing(Step(s, events[0]), events[1..]);
      if SkipsAChange(s, events[0]) { ApartIsNoAgreement(Step(s, events[0]), OnPage(s.page, events[0]), events[1..]); }
    }
  }

  lemma ApartIsNoAgreement(s: State, p: Page, events: seq<Event>)
    requires s.page != p
    ensures !AgreesThroughout(s, p, events)
  {
  }

  /** Only the canvas that is listened to is ever restored. */
  ghost predicate OnlyFirstRestored(first: nat, events: seq<Event>) {
    forall e :: e in events && e.RestoreEvent? ==> e.restored == first
  }

  /** Nothing throws in a draw that the guard skips. */
  predicate QuietSkips(s: State, events: seq<Event>)
    decreases |events|
  {
    events != [] ==>
      && (events[0].DrawEvent? && Skips(s, events[0].faults) ==> !events[0].faults.paint && !events[0].faults.commit)
      && QuietSkips(Step(s, events[0]), events[1..])
  }

  lemma HeardStep(s: State, e: Event)
    requires s.unheard == {} && (e.RestoreEvent? ==> e.restored == s.first)
    ensures Step(s, e).unheard == {} && Step(s, e).first == s.first
  {
  }

  /** With the first canvas alone ever restored, nothing is missed. */
  lemma {:induction false} FirstCanvasIsHeard(s: State, events: seq<Event>)
    requires s.unheard == {} && OnlyFirstRestored(s.first, events) && QuietSkips(s, events)
    ensures NeverSkipsAChange(s, events)
    decreases |events|
  {
    hide Step, Skips;
    if events != [] {
      assert events[0] in events;
      HeardStep(s, events[0]);
      FirstCanvasIsHeard(Step(s, events[0]), events[1..]);
    }
  }

  lemma InstalledHolds(page: Page, first: nat)
    ensures Inv(Installed(page, first))
  {
  }

  /** The one thing the guard misses: another canvas than the first painted, lost and restored between
      two draws is skipped although it is blank. */
  lemma ReplacedCanvasCanStayBlank(p: Page, canvas: nat, first: nat)
    requires Drawable(p) && p.canvas == Some(canvas) && canvas != first && !p.surfaces[canvas].lost
    ensures var drawn := Draw(Installed(p, first), Faults(false, false, false));
            var s := Step(Step(drawn, LoseEvent(canvas)), RestoreEvent(canvas));
            Skips(s, Faults(false, false, false)) && s.page.surfaces[canvas].bitmap == Blank
  {
  }

  // ----- what one draw does -----

  /** No error before, a frame that is shown at a positive size, and a canvas. */
  predicate Ready(p: Page) {
    && !p.errored && p.current.Some? && p.canvas.Some? && p.canvas.value in p.surfaces
    && p.current.value in p.sizes && p.sizes[p.current.value].width > 0 && p.sizes[p.current.value].height > 0
  }

  /** Frame, canvas, frame size and canvas size are those remembered. */
  predicate Remembered(s: State)
    requires Ready(s.page)
  {
    var size := s.page.sizes[s.page.current.value];
    && s.lastFrame == s.page.current && s.lastCanvas == s.page.canvas && s.lastSize == size
    && s.page.surfaces[s.page.canvas.value].size == size
  }

  /** In every state, a draw that is not ready does nothing; without a live context it only forgets; what is
      remembered is skipped and counted; anything else is drawn at the frame's size and remembered, or fails,
      is counted and forgotten. */
  lemma DrawOutcome(s: State, f: Faults)
    ensures var t := Draw(s, f);
            if !Ready(s.page) then t == s
            else
              var canvas, size := s.page.canvas.value, s.page.sizes[s.page.current.value];
              var surface := s.page.surfaces[canvas];
              if f.noContext || surface.lost then t == s.(lastFrame := None, unheard := {})
              else if Remembered(s) then
                t.page == s.page && t.lastFrame == s.lastFrame
                && t.stats == s.stats.(duplicateSkips := s.stats.duplicateSkips + 1)
              else
                var resizes := (if surface.size.width == size.width then 0 else 1) + (if surface.size.height == size.height then 0 else 1);
                && t.stats.resizes == s.stats.resizes + resizes && t.stats.duplicateSkips == s.stats.duplicateSkips
                && t.page.surfaces[canvas].size == size
                && (t.page.errored <==> f.paint || f.commit)
                && t.stats.failures == s.stats.failures + (if f.paint || f.commit then 1 else 0)
                && t.stats.draws == s.stats.draws + (if f.paint || f.commit then 0 else 1)
                && (f.paint || f.commit ==> t.lastFrame.None?)
                && (f.paint ==> t.page.surfaces[canvas].bitmap == if resizes > 0 then Blank else surface.bitmap)
                && (!f.paint ==> t.page.surfaces[canvas].bitmap == Painted(s.page.current.value, size))
                && (!f.paint && !f.commit ==> Ready(t.page) && Remembered(t))
                && forall other | other in s.page.surfaces && other != canvas ::
                     other in t.page.surfaces && t.page.surfaces[other] == s.page.surfaces[other]
  {
  }

  /** So a frame that was drawn is not drawn again: the next draw is skipped. */
  lemma DrawnOnce(s: State, f: Faults, again: Faults)
    requires Ready(s.page) && !f.noContext && !again.noContext && !s.page.surfaces[s.page.canvas.value].lost
    requires !f.paint && !f.commit
    ensures var t := Draw(s, f);
            Draw(t, again) == t.(stats := t.stats.(duplicateSkips := t.stats.duplicateSkips + 1))
  {
  }
}

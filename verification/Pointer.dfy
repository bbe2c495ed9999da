// grok-mobile-belmont-pwa/src/windows-pointer.ts: relative pointer moves in host pixels.
//
// Exact real arithmetic stands for floating point; an input that is not a finite number is NotFinite.

module Pointer {
  import opened Common

  datatype Num = Finite(r: real) | NotFinite

  /** The stream a move goes to; `size` is its picture size, `connected` whether it can take moves. */
  datatype Target = Target(id: nat, channel: nat, connected: bool, width: Num, height: Num)

  datatype Move = Move(target: Target, dx: Num, dy: Num, rectWidth: Num, rectHeight: Num, sensitivity: Num, throws: bool)

  /** What has to stay the same for fractions to carry over. */
  datatype Setup = Setup(target: nat, channel: nat, width: real, height: real, rectWidth: real, rectHeight: real,
                         scaleX: real, scaleY: real)

  datatype Axis = Axis(remainder: real, wanted: real, sent: int)

  /** `wanted` and `sent` of an axis are the scaled deltas and the moves sent since the last reset; `log`
      is every move handed to the target. */
  datatype State = State(setup: Option<Setup>, x: Axis, y: Axis, log: seq<(int, int)>)

  const Zero := Axis(0.0, 0.0, 0)
  const Initial := State(None, Zero, Zero, [])

  /** Math.round: halves go up. */
  function Round(r: real): int {
    (r + 0.5).Floor
  }

  predicate Fits(n: int) {
    -32768 <= n <= 32767
  }

  predicate Usable(m: Move) {
    && m.target.connected
    && m.dx.Finite? && m.dy.Finite? && m.rectWidth.Finite? && m.rectHeight.Finite? && m.sensitivity.Finite?
    && m.target.width.Finite? && m.target.height.Finite?
    && m.rectWidth.r > 0.0 && m.rectHeight.r > 0.0 && m.sensitivity.r > 0.0
    && m.target.width.r > 0.0 && m.target.height.r > 0.0
  }

  function SetupOf(m: Move): Setup
    requires Usable(m)
  {
    Setup(m.target.id, m.target.channel, m.target.width.r, m.target.height.r, m.rectWidth.r, m.rectHeight.r,
          m.target.width.r / m.rectWidth.r * m.sensitivity.r, m.target.height.r / m.rectHeight.r * m.sensitivity.r)
  }

  function Reset(s: State): State {
    State(None, Zero, Zero, s.log)
  }

  function Total(axis: Axis, delta: real): real {
    axis.remainder + delta
  }

  function Advance(axis: Axis, delta: real): Axis {
    var total := Total(axis, delta);
    Axis(total - Round(total) as real, axis.wanted + delta, axis.sent + Round(total))
  }

  /** The remainders a move starts from. */
  function Begin(s: State, m: Move): State
    requires Usable(m)
  {
    if s.setup == Some(SetupOf(m)) then s else Reset(s).(setup := Some(SetupOf(m)))
  }

  function Scaled(delta: real, scale: real): real {
    delta * scale
  }

  function Deltas(m: Move): (real, real)
    requires Usable(m)
  {
    (Scaled(m.dx.r, SetupOf(m).scaleX), Scaled(m.dy.r, SetupOf(m).scaleY))
  }

  predicate InRange(s: State, m: Move)
    requires Usable(m)
  {
    Fits(Round(Total(s.x, Deltas(m).0))) && Fits(Round(Total(s.y, Deltas(m).1)))
  }

  function MovePointer(s: State, m: Move): State {
    if !Usable(m) then Reset(s)
    else
      var begun := Begin(s, m);
      if !InRange(begun, m) then Reset(s)
      else
        var x, y := Round(Total(begun.x, Deltas(m).0)), Round(Total(begun.y, Deltas(m).1));
        var sends := x != 0 || y != 0;
        var log := if sends then s.log + [(x, y)] else s.log;
        if sends && m.throws then Reset(s).(log := log)
        else State(begun.setup, Advance(begun.x, Deltas(m).0), Advance(begun.y, Deltas(m).1), log)
  }

  class RelativePointer {
    var setup: Option<Setup>
    var remainderX: real
    var remainderY: real
    ghost var x: Axis
    ghost var y: Axis
    var log: seq<(int, int)>

    ghost predicate Valid()
      reads this
    {
      x.remainder == remainderX && y.remainder == remainderY
    }

    ghost function View(): State
      reads this
    {
      State(setup, x, y, log)
    }

    constructor ()
      ensures Valid() && View() == Initial
    {
      setup, remainderX, remainderY, x, y, log := None, 0.0, 0.0, Zero, Zero, [];
    }

    method ResetPointer()
      modifies this
      ensures Valid() && View() == Reset(old(View()))
    {
      setup := None;
      remainderX, remainderY := 0.0, 0.0;
      x, y := Zero, Zero;
    }

    method MoveTo(m: Move) returns (ok: bool)
      requires Valid()
      modifies this
      ensures Valid() && View() == MovePointer(old(View()), m)
      ensures ok <==> setup.Some?
    {
      hide SetupOf, Scaled, Round;
      if !Usable(m) {
        ResetPointer();
        return false;
      }
      var next := SetupOf(m);
      if setup != Some(next) { ResetPointer(); }
      setup := Some(next);
      ghost var begun := Begin(old(View()), m);
      assert View() == begun && Deltas(m) == (Scaled(m.dx.r, next.scaleX), Scaled(m.dy.r, next.scaleY));
      var totalX := remainderX + Scaled(m.dx.r, next.scaleX);
      var totalY := remainderY + Scaled(m.dy.r, next.scaleY);
      var moveX, moveY := Round(totalX), Round(totalY);
      if moveX < -32768 || moveX > 32767 || moveY < -32768 || moveY > 32767 {
        ResetPointer();
        return false;
      }
      if moveX != 0 || moveY != 0 {
        log := log + [(moveX, moveY)];
        if m.throws {
          ResetPointer();
          return false;
        }
      }
      assert Total(begun.x, Deltas(m).0) == totalX && Total(begun.y, Deltas(m).1) == totalY;
      remainderX := totalX - moveX as real;
      remainderY := totalY - moveY as real;
      x, y := Advance(x, Scaled(m.dx.r, next.scaleX)), Advance(y, Scaled(m.dy.r, next.scaleY));
      return true;
    }
  }

  // ----- runs -----

  /** None is a reset from outside. */
  function Run(s: State, moves: seq<Option<Move>>): State
    decreases |moves|
  {
    if moves == [] then s
    else Run(if moves[0].None? then Reset(s) else MovePointer(s, moves[0].value), moves[1..])
  }

  /** What was wanted is what was sent and a remainder of at most half a pixel. */
  predicate Conserved(axis: Axis) {
    axis.wanted == axis.sent as real + axis.remainder && -0.5 <= axis.remainder < 0.5
  }

  predicate Inv(s: State) {
    && Conserved(s.x) && Conserved(s.y)
    && (s.setup.None? ==> s.x == Zero && s.y == Zero)
    && forall move | move in s.log :: Fits(move.0) && Fits(move.1)
  }

  lemma RoundIsNearest(r: real)
    ensures -0.5 <= r - Round(r) as real < 0.5
  {
  }

  lemma OnlyOneRounds(r: real, n: int)
    requires -0.5 <= r - n as real < 0.5
    ensures n == Round(r)
  {
  }

  lemma AdvanceConserves(axis: Axis, delta: real)
    requires Conserved(axis)
    ensures Conserved(Advance(axis, delta))
  {
    RoundIsNearest(Total(axis, delta));
  }

  lemma MoveKeepsInv(s: State, m: Move)
    requires Inv(s)
    ensures Inv(MovePointer(s, m))
  {
    hide Usable, SetupOf, Round;
    if Usable(m) {
      var begun := Begin(s, m);
      AdvanceConserves(begun.x, Deltas(m).0);
      AdvanceConserves(begun.y, Deltas(m).1);
    }
  }

  lemma {:induction false} RunKeepsInv(s: State, moves: seq<Option<Move>>)
    requires Inv(s)
    ensures Inv(Run(s, moves))
    decreases |moves|
  {
    if moves != [] {
      hide MovePointer, Inv;
      if moves[0].Some? { MoveKeepsInv(s, moves[0].value); } else { ResetKeepsInv(s); }
      RunKeepsInv(if moves[0].None? then Reset(s) else MovePointer(s, moves[0].value), moves[1..]);
    }
  }

  lemma ResetKeepsInv(s: State)
    requires Inv(s)
    ensures Inv(Reset(s))
  {
  }

  /** However long the run and wherever it was reset, the pointer has moved since the last reset as far
      as rounding the whole distance once would have moved it, and every move sent fits 16 bits. */
  lemma PathIsRoundedOnce(moves: seq<Option<Move>>)
    ensures var t := Run(Initial, moves);
            && t.x.sent == Round(t.x.wanted) && t.y.sent == Round(t.y.wanted)
            && t.x.wanted - t.x.sent as real == t.x.remainder && -0.5 <= t.x.remainder < 0.5
            && t.y.wanted - t.y.sent as real == t.y.remainder && -0.5 <= t.y.remainder < 0.5
            && forall move | move in t.log :: Fits(move.0) && Fits(move.1)
  {
    RunKeepsInv(Initial, moves);
    var t := Run(Initial, moves);
    OnlyOneRounds(t.x.wanted, t.x.sent);
    OnlyOneRounds(t.y.wanted, t.y.sent);
  }

  // ----- wanted and sent are the sums they stand for -----

  /** The move goes through, and the set-up is the one of the moves before it, if there were any. */
  predicate GoesThrough(s: State, m: Move) {
    MovePointer(s, m).setup.Some? && (s.setup.Some? ==> MovePointer(s, m).setup == s.setup)
  }

  /** The moves all go through, without a reset between them; the first may come right after one. */
  predicate Smooth(s: State, moves: seq<Move>)
    decreases |moves|
  {
    moves != [] ==> GoesThrough(s, moves[0]) && Smooth(MovePointer(s, moves[0]), moves[1..])
  }

  /** The parts of a move that a host cannot work with. */
  predicate Malformed(m: Move) {
    || !m.target.connected
    || m.dx.NotFinite? || m.dy.NotFinite? || m.rectWidth.NotFinite? || m.rectHeight.NotFinite?
    || m.sensitivity.NotFinite? || m.target.width.NotFinite? || m.target.height.NotFinite?
    || m.rectWidth.r <= 0.0 || m.rectHeight.r <= 0.0 || m.sensitivity.r <= 0.0
    || m.target.width.r <= 0.0 || m.target.height.r <= 0.0
  }

  /** Horizontal host pixels: the picture's width over the rectangle's, times the sensitivity. */
  function HostX(m: Move): real
    requires !Malformed(m)
  {
    m.dx.r * (m.target.width.r / m.rectWidth.r * m.sensitivity.r)
  }

  function HostY(m: Move): real
    requires !Malformed(m)
  {
    m.dy.r * (m.target.height.r / m.rectHeight.r * m.sensitivity.r)
  }

  lemma DeltasAreHostPixels(m: Move)
    requires Usable(m)
    ensures !Malformed(m) && Deltas(m) == (HostX(m), HostY(m))
  {
    hide Scaled, HostX, HostY, SetupOf, Deltas;
    UsableIsWellFormed(m);
    DeltasAreScaled(m);
    ScalesAre(m);
    HostXIs(m, SetupOf(m).scaleX);
    HostYIs(m, SetupOf(m).scaleY);
  }

  lemma UsableIsWellFormed(m: Move)
    ensures Usable(m) <==> !Malformed(m)
  {
  }

  lemma DeltasAreScaled(m: Move)
    requires Usable(m)
    ensures Deltas(m) == (Scaled(m.dx.r, SetupOf(m).scaleX), Scaled(m.dy.r, SetupOf(m).scaleY))
  {
    hide Scaled, SetupOf;
  }

  lemma ScalesAre(m: Move)
    requires Usable(m) && !Malformed(m)
    ensures SetupOf(m).scaleX == m.target.width.r / m.rectWidth.r * m.sensitivity.r
    ensures SetupOf(m).scaleY == m.target.height.r / m.rectHeight.r * m.sensitivity.r
  {
  }

  lemma HostXIs(m: Move, scale: real)
    requires !Malformed(m) && scale == m.target.width.r / m.rectWidth.r * m.sensitivity.r
    ensures HostX(m) == Scaled(m.dx.r, scale)
  {
  }

  lemma HostYIs(m: Move, scale: real)
    requires !Malformed(m) && scale == m.target.height.r / m.rectHeight.r * m.sensitivity.r
    ensures HostY(m) == Scaled(m.dy.r, scale)
  {
  }

  /** The distance in host pixels: across the rectangle is across the picture, times the sensitivity. */
  function SumOfDeltas(moves: seq<Move>): (real, real) {
    if moves == [] then (0.0, 0.0)
    else
      var m, rest := moves[0], SumOfDeltas(moves[1..]);
      if Malformed(m) then rest else (HostX(m) + rest.0, HostY(m) + rest.1)
  }

  function SumOfMoves(log: seq<(int, int)>): (int, int) {
    if log == [] then (0, 0)
    else (log[0].0 + SumOfMoves(log[1..]).0, log[0].1 + SumOfMoves(log[1..]).1)
  }

  function Inputs(moves: seq<Move>): seq<Option<Move>> {
    if moves == [] then [] else [Some(moves[0])] + Inputs(moves[1..])
  }

  lemma {:induction false} SumOfMovesJoin(a: seq<(int, int)>, b: seq<(int, int)>)
    ensures SumOfMoves(a + b) == (SumOfMoves(a).0 + SumOfMoves(b).0, SumOfMoves(a).1 + SumOfMoves(b).1)
  {
    if a == [] {
      assert a + b == b;
    } else {
      assert (a + b)[1..] == a[1..] + b;
      SumOfMovesJoin(a[1..], b);
    }
  }

  /** One smooth move adds its delta to what is wanted and its log entry to what is sent. */
  lemma SmoothStep(s: State, m: Move)
    requires Inv(s) && GoesThrough(s, m)
    ensures Usable(m)
    ensures var t := MovePointer(s, m);
            && t.x.wanted == s.x.wanted + Deltas(m).0 && t.y.wanted == s.y.wanted + Deltas(m).1
            && SumOfMoves(t.log).0 - SumOfMoves(s.log).0 == t.x.sent - s.x.sent
            && SumOfMoves(t.log).1 - SumOfMoves(s.log).1 == t.y.sent - s.y.sent
  {
    hide Usable, SetupOf, Round;
    var begun := Begin(s, m);
    assert begun.x == s.x && begun.y == s.y && begun.log == s.log;
    var x, y := Round(Total(s.x, Deltas(m).0)), Round(Total(s.y, Deltas(m).1));
    SumOfMovesJoin(s.log, [(x, y)]);
    assert [(x, y)][1..] == [];
  }

  /** Over a run without a reset the moves sent add up to the scaled deltas, up to the two remainders. */
  lemma {:induction false} SmoothRunConserves(s: State, moves: seq<Move>)
    requires Inv(s) && Smooth(s, moves)
    ensures var t := Run(s, Inputs(moves));
            && (SumOfMoves(t.log).0 - SumOfMoves(s.log).0) as real
               == SumOfDeltas(moves).0 + s.x.remainder - t.x.remainder
            && (SumOfMoves(t.log).1 - SumOfMoves(s.log).1) as real
               == SumOfDeltas(moves).1 + s.y.remainder - t.y.remainder
            && -0.5 <= t.x.remainder < 0.5 && -0.5 <= t.y.remainder < 0.5
    decreases |moves|
  {
    hide MovePointer, SumOfMoves, Deltas;
    if moves != [] {
      var next := MovePointer(s, moves[0]);
      assert Inputs(moves)[0] == Some(moves[0]) && Inputs(moves)[1..] == Inputs(moves[1..]);
      SmoothStep(s, moves[0]);
      DeltasAreHostPixels(moves[0]);
      MoveKeepsInv(s, moves[0]);
      SmoothRunConserves(next, moves[1..]);
    }
  }

  /** From a reset on, as long as moves go through, what was sent is the sum of the scaled deltas rounded
      once. */
  lemma SmoothPathIsRoundedOnce(s: State, moves: seq<Move>)
    requires Inv(s) && s.setup.None? && Smooth(s, moves)
    ensures var t := Run(s, Inputs(moves));
            && SumOfMoves(t.log).0 - SumOfMoves(s.log).0 == Round(SumOfDeltas(moves).0)
            && SumOfMoves(t.log).1 - SumOfMoves(s.log).1 == Round(SumOfDeltas(moves).1)
  {
    hide Run, SumOfMoves, SumOfDeltas, Smooth, Round;
    SmoothRunConserves(s, moves);
    var t := Run(s, Inputs(moves));
    OnlyOneRounds(SumOfDeltas(moves).0, SumOfMoves(t.log).0 - SumOfMoves(s.log).0);
    OnlyOneRounds(SumOfDeltas(moves).1, SumOfMoves(t.log).1 - SumOfMoves(s.log).1);
  }

  // ----- what a move means in host pixels -----

  /** The same target, channel and sizes, and the same scales. */
  predicate SameSetup(setup: Setup, m: Move)
    requires !Malformed(m)
  {
    && setup.target == m.target.id && setup.channel == m.target.channel
    && setup.width == m.target.width.r && setup.height == m.target.height.r
    && setup.rectWidth == m.rectWidth.r && setup.rectHeight == m.rectHeight.r
    && setup.scaleX == m.target.width.r / m.rectWidth.r * m.sensitivity.r
    && setup.scaleY == m.target.height.r / m.rectHeight.r * m.sensitivity.r
  }

  lemma SetupMeaning(setup: Setup, m: Move)
    requires Usable(m)
    ensures !Malformed(m) && (setup == SetupOf(m) <==> SameSetup(setup, m))
  {
  }

  /** One move, in every state that a run can reach: it is refused, with everything forgotten, if it is
      malformed or a distance does not fit 16 bits or the target throws. Otherwise the nearest whole
      distances are sent, unless both are zero, and the remainders are kept. A remainder counts only while
      the set-up stays the same. */
  lemma MovesInHostPixels(s: State, m: Move)
    requires Inv(s)
    ensures var t := MovePointer(s, m);
            if Malformed(m) then t == State(None, Zero, Zero, s.log)
            else
              var carried := s.setup.Some? && SameSetup(s.setup.value, m);
              var totalX := (if carried then s.x.remainder else 0.0) + HostX(m);
              var totalY := (if carried then s.y.remainder else 0.0) + HostY(m);
              exists x: int, y: int ::
                && -0.5 <= totalX - x as real < 0.5 && -0.5 <= totalY - y as real < 0.5
                && var sends := x != 0 || y != 0;
                   if !(-32768 <= x <= 32767 && -32768 <= y <= 32767) then t == State(None, Zero, Zero, s.log)
                   else && t.log == s.log + (if sends then [(x, y)] else [])
                        && if sends && m.throws then t.setup.None? && t.x == Zero && t.y == Zero
                           else && t.setup.Some? && SameSetup(t.setup.value, m)
                                && t.x.remainder == totalX - x as real && t.y.remainder == totalY - y as real
  {
    if Usable(m) {
      DeltasAreHostPixels(m);
      if s.setup.Some? { SetupMeaning(s.setup.value, m); }
      SetupMeaning(SetupOf(m), m);
      hide SetupOf, Usable, SameSetup, HostX, HostY, Deltas;
      var begun := Begin(s, m);
      RoundIsNearest(Total(begun.x, Deltas(m).0));
      RoundIsNearest(Total(begun.y, Deltas(m).1));
      hide Round;
      var x, y := Round(Total(begun.x, Deltas(m).0)), Round(Total(begun.y, Deltas(m).1));
      MoveWith(s, m, x, y);
    }
  }

  lemma MoveWith(s: State, m: Move, x: int, y: int)
    requires Usable(m) && x == Round(Total(Begin(s, m).x, Deltas(m).0)) && y == Round(Total(Begin(s, m).y, Deltas(m).1))
    ensures var t, begun, sends := MovePointer(s, m), Begin(s, m), x != 0 || y != 0;
            if !(-32768 <= x <= 32767 && -32768 <= y <= 32767) then t == State(None, Zero, Zero, s.log)
            else && t.log == s.log + (if sends then [(x, y)] else [])
                 && if sends && m.throws then t.setup.None? && t.x == Zero && t.y == Zero
                    else && t.setup == Some(SetupOf(m))
                         && t.x.remainder == Total(begun.x, Deltas(m).0) - x as real
                         && t.y.remainder == Total(begun.y, Deltas(m).1) - y as real
  {
    hide SetupOf, Usable, Round, Deltas;
  }
}

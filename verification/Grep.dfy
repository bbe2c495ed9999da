// source/box-exec-daemon/grep-projection.ts: which lines of a ripgrep event stream are kept.
//
// A stdout line is an event after JSON parsing; empty, unparsable and other lines are `Other`.

module Grep {
  import opened Common

  datatype Event =
    | Match(file: string, lineNumber: int, text: string)
    | Context(file: string, lineNumber: int, text: string)
    | Other

  datatype Options = Options(offset: int, headLimit: int, contextBefore: int, contextAfter: int)

  datatype Line = Line(file: string, lineNumber: int, content: string, isContext: bool)

  datatype Anchor = Anchor(file: string, endLineNumber: int)

  function Content(text: string): string {
    if text != "" && text[|text| - 1] == '\n' then text[..|text| - 1] else text
  }

  function Newlines(text: string): nat {
    if text == "" then 0 else Newlines(text[..|text| - 1]) + if text[|text| - 1] == '\n' then 1 else 0
  }

  /** The last line an event covers; a match may span several. */
  function EndLine(e: Event): int {
    match e
    case Match(_, lineNumber, text) => lineNumber + Newlines(Content(text))
    case Context(_, lineNumber, _) => lineNumber
    case Other => 0
  }

  function LineOf(e: Event): Line {
    match e
    case Match(file, lineNumber, text) => Line(file, lineNumber, Content(text), false)
    case Context(file, lineNumber, text) => Line(file, lineNumber, Content(text), true)
    case Other => Line("", 0, "", true)
  }

  function At(events: seq<Event>, i: nat): Event {
    if i < |events| then events[i] else Other
  }

  // ----- the attribution rule, event by event -----

  function Max(a: int, b: int): int {
    if a < b then b else a
  }

  function Min(a: int, b: int): int {
    if a < b then a else b
  }

  /** Matches among the first n events. */
  function Rank(events: seq<Event>, n: nat): nat
    requires n <= |events|
  {
    if n == 0 then 0 else Rank(events, n - 1) + if events[n - 1].Match? then 1 else 0
  }

  /** The matches kept are those with index in [offset, offset + headLimit). */
  predicate Retained(events: seq<Event>, o: Options, i: nat)
    requires i < |events|
  {
    events[i].Match? && o.offset <= Rank(events, i) && Rank(events, i) - Max(o.offset, 0) < o.headLimit
  }

  /** One past the last match among the first n events. */
  function SectionStart(events: seq<Event>, n: nat): (start: nat)
    requires n <= |events|
    ensures start <= n
  {
    if n == 0 then 0 else if events[n - 1].Match? then n else SectionStart(events, n - 1)
  }

  /** In the after-window of the match just before it, which is kept. */
  predicate Trailing(events: seq<Event>, o: Options, i: nat)
    requires i < |events|
  {
    var start := SectionStart(events, i);
    && events[i].Context?
    && start > 0
    && events[start - 1].Match?
    && Retained(events, o, start - 1)
    && events[start - 1].file == events[i].file
    && 0 < events[i].lineNumber - EndLine(events[start - 1]) <= o.contextAfter
  }

  predicate Buffered(events: seq<Event>, o: Options, i: nat)
    requires i < |events|
  {
    events[i].Context? && !Trailing(events, o, i) && o.contextBefore > 0
  }

  function BufferedCount(events: seq<Event>, o: Options, from: nat, to: nat): nat
    requires to <= |events|
  {
    if to <= from then 0
    else BufferedCount(events, o, from, to - 1) + if Buffered(events, o, to - 1) then 1 else 0
  }

  /** Among the last contextBefore buffered lines before match n, of its file, with no match between. */
  predicate LeadsTo(events: seq<Event>, o: Options, i: nat, n: nat)
    requires i < |events| && n < |events|
  {
    && SectionStart(events, n) <= i < n
    && Buffered(events, o, i)
    && BufferedCount(events, o, i + 1, n) < o.contextBefore
    && !events[n].Other?
    && events[i].file == events[n].file
  }

  ghost predicate Emitted(events: seq<Event>, o: Options, i: nat) {
    && i < |events|
    && (|| Retained(events, o, i)
        || Trailing(events, o, i)
        || exists n :: i < n < |events| && Retained(events, o, n) && LeadsTo(events, o, i, n))
  }

  // ----- the sequence of kept events -----

  function BufferedIn(events: seq<Event>, o: Options, from: nat, to: nat): seq<nat>
    requires to <= |events|
  {
    if to <= from then []
    else BufferedIn(events, o, from, to - 1) + if Buffered(events, o, to - 1) then [to - 1] else []
  }

  function LastOf<T>(s: seq<T>, count: int): seq<T> {
    if count <= 0 then [] else if |s| <= count then s else s[|s| - count..]
  }

  function OfFile(events: seq<Event>, indices: seq<nat>, file: string): seq<nat> {
    if indices == [] then []
    else
      var last := indices[|indices| - 1];
      OfFile(events, indices[..|indices| - 1], file) + if LineOf(At(events, last)).file == file then [last] else []
  }

  lemma {:induction false} BufferedInMeaning(events: seq<Event>, o: Options, from: nat, to: nat)
    requires to <= |events|
    ensures var s := BufferedIn(events, o, from, to);
            && (forall i :: i in s <==> from <= i < to && Buffered(events, o, i))
            && (forall j, k :: 0 <= j < k < |s| ==> s[j] < s[k])
            && |s| == BufferedCount(events, o, from, to)
            && (forall k :: 0 <= k < |s| ==> BufferedCount(events, o, s[k] + 1, to) == |s| - 1 - k)
  {
    if from < to {
      BufferedInMeaning(events, o, from, to - 1);
      var before, s := BufferedIn(events, o, from, to - 1), BufferedIn(events, o, from, to);
      forall k | 0 <= k < |s| ensures BufferedCount(events, o, s[k] + 1, to) == |s| - 1 - k {
        assert k < |before| ==> s[k] == before[k] && before[k] in before;
      }
    }
  }

  /** What the loop holds back before event n. */
  function Pending(events: seq<Event>, o: Options, n: nat): seq<nat>
    requires n <= |events|
  {
    LastOf(BufferedIn(events, o, SectionStart(events, n), n), o.contextBefore)
  }

  /** The pending lines that match n flushes. */
  function Leading(events: seq<Event>, o: Options, n: nat): seq<nat>
    requires n < |events|
  {
    OfFile(events, Pending(events, o, n), LineOf(events[n]).file)
  }

  /** What event i adds to the output. */
  function Block(events: seq<Event>, o: Options, i: nat): seq<nat>
    requires i < |events|
  {
    if Retained(events, o, i) then Leading(events, o, i) + [i]
    else if Trailing(events, o, i) then [i]
    else []
  }

  function Selected(events: seq<Event>, o: Options, n: nat): seq<nat>
    requires n <= |events|
  {
    if n == 0 then [] else Selected(events, o, n - 1) + Block(events, o, n - 1)
  }

  lemma SelectedUnfold(events: seq<Event>, o: Options, n: nat)
    requires n < |events|
    ensures Selected(events, o, n + 1) == Selected(events, o, n) + Block(events, o, n)
  {
  }

  function LinesOf(events: seq<Event>, indices: seq<nat>): seq<Line> {
    seq(|indices|, k requires 0 <= k < |indices| => LineOf(At(events, indices[k])))
  }

  lemma LinesOfAppend(events: seq<Event>, a: seq<nat>, b: seq<nat>)
    ensures LinesOf(events, a + b) == LinesOf(events, a) + LinesOf(events, b)
  {
  }

  function AnchorBefore(events: seq<Event>, o: Options, n: nat): Option<Anchor>
    requires n <= |events|
  {
    var start := SectionStart(events, n);
    if start > 0 && events[start - 1].Match? && Retained(events, o, start - 1)
    then Some(Anchor(events[start - 1].file, EndLine(events[start - 1])))
    else None
  }

  lemma PendingStep(events: seq<Event>, o: Options, n: nat)
    requires n < |events|
    ensures events[n].Match? ==> Pending(events, o, n + 1) == []
    ensures !events[n].Match? && !Buffered(events, o, n) ==> Pending(events, o, n + 1) == Pending(events, o, n)
    ensures Buffered(events, o, n) ==>
              Pending(events, o, n + 1) ==
                if |Pending(events, o, n)| + 1 <= o.contextBefore then Pending(events, o, n) + [n]
                else (Pending(events, o, n) + [n])[1..]
  {
  }

  lemma AnchorStep(events: seq<Event>, o: Options, n: nat)
    requires n < |events|
    ensures AnchorBefore(events, o, n + 1) ==
              if !events[n].Match? then AnchorBefore(events, o, n)
              else if Retained(events, o, n) then Some(Anchor(events[n].file, EndLine(events[n])))
              else None
  {
  }

  lemma TrailingByAnchor(events: seq<Event>, o: Options, n: nat)
    requires n < |events| && events[n].Context?
    ensures var last := AnchorBefore(events, o, n);
            Trailing(events, o, n) <==>
              && last.Some? && last.value.file == events[n].file
              && events[n].lineNumber > last.value.endLineNumber
              && events[n].lineNumber - last.value.endLineNumber <= o.contextAfter
  {
  }

  lemma SelectedStep(events: seq<Event>, o: Options, n: nat)
    requires n < |events|
    ensures Retained(events, o, n) ==>
              Selected(events, o, n + 1) == Selected(events, o, n) + Leading(events, o, n) + [n]
    ensures Trailing(events, o, n) ==> Selected(events, o, n + 1) == Selected(events, o, n) + [n]
    ensures !Retained(events, o, n) && !Trailing(events, o, n) ==> Selected(events, o, n + 1) == Selected(events, o, n)
  {
  }

  function Capped<T>(s: seq<T>, count: int): seq<T> {
    if |s| > 0 && |s| > count then s[1..] else s
  }

  lemma CappedLines(events: seq<Event>, pending: seq<nat>, n: nat, count: int)
    ensures LinesOf(events, Capped(pending + [n], count))
         == Capped(LinesOf(events, pending) + [LineOf(At(events, n))], count)
  {
  }

  // ----- the loop -----

  /** The loop's variables. */
  datatype Scan = Scan(
    matchIndex: nat,
    totalSeen: nat,
    retained: nat,
    lines: seq<Line>,
    pending: seq<Line>,
    last: Option<Anchor>)

  function Flushed(pending: seq<Line>, file: string): seq<Line> {
    if pending == [] then []
    else
      var last := pending[|pending| - 1];
      Flushed(pending[..|pending| - 1], file) + if last.file == file then [last] else []
  }

  function ScanContext(v: Scan, o: Options, line: Line): Scan {
    if && v.last.Some? && v.last.value.file == line.file
       && line.lineNumber > v.last.value.endLineNumber
       && line.lineNumber - v.last.value.endLineNumber <= o.contextAfter
    then v.(lines := v.lines + [line])
    else if o.contextBefore > 0 then v.(pending := Capped(v.pending + [line], o.contextBefore))
    else v
  }

  function ScanMatch(v: Scan, o: Options, line: Line, endLineNumber: int): Scan {
    if v.matchIndex < o.offset then v.(matchIndex := v.matchIndex + 1, pending := [], last := None)
    else if v.retained >= o.headLimit then
      v.(matchIndex := v.matchIndex + 1, totalSeen := v.totalSeen + 1, pending := [], last := None)
    else
      Scan(v.matchIndex + 1, v.totalSeen + 1, v.retained + 1,
           v.lines + Flushed(v.pending, line.file) + [line], [], Some(Anchor(line.file, endLineNumber)))
  }

  function ScanOf(events: seq<Event>, o: Options, n: nat): Scan
    requires n <= |events|
  {
    if n == 0 then Scan(0, 0, 0, [], [], None)
    else
      var v, e := ScanOf(events, o, n - 1), events[n - 1];
      match e
      case Match(_, _, _) => ScanMatch(v, o, LineOf(e), EndLine(e))
      case Context(_, _, _) => ScanContext(v, o, LineOf(e))
      case Other => v
  }

  lemma {:induction false} FlushedLines(events: seq<Event>, pending: seq<nat>, file: string)
    ensures Flushed(LinesOf(events, pending), file) == LinesOf(events, OfFile(events, pending, file))
  {
    if pending != [] {
      var init, last := pending[..|pending| - 1], pending[|pending| - 1];
      FlushedLines(events, init, file);
      var lines := LinesOf(events, pending);
      assert lines[..|lines| - 1] == LinesOf(events, init);
      LinesOfAppend(events, OfFile(events, init, file), [last]);
    }
  }

  lemma {:induction false} ScanCounts(events: seq<Event>, o: Options, n: nat)
    requires n <= |events|
    ensures var v := ScanOf(events, o, n);
            && v.matchIndex == Rank(events, n)
            && v.totalSeen == Max(Rank(events, n) - Max(o.offset, 0), 0)
            && v.retained == Min(v.totalSeen, Max(o.headLimit, 0))
    ensures n < |events| && events[n].Match? ==>
              (Retained(events, o, n) <==>
                 ScanOf(events, o, n).matchIndex >= o.offset && ScanOf(events, o, n).retained < o.headLimit)
  {
    if n != 0 { ScanCounts(events, o, n - 1); }
  }

  lemma {:induction false} ScanAnchor(events: seq<Event>, o: Options, n: nat)
    requires n <= |events|
    ensures ScanOf(events, o, n).last == AnchorBefore(events, o, n)
  {
    if n != 0 {
      ScanAnchor(events, o, n - 1);
      AnchorStep(events, o, n - 1);
      if events[n - 1].Match? { ScanCounts(events, o, n - 1); }
    }
  }

  lemma EventMovesPending(events: seq<Event>, o: Options, n: nat)
    requires n < |events|
    requires ScanOf(events, o, n).pending == LinesOf(events, Pending(events, o, n))
    ensures ScanOf(events, o, n + 1).pending == LinesOf(events, Pending(events, o, n + 1))
  {
    PendingStep(events, o, n);
    if events[n].Context? {
      ScanAnchor(events, o, n);
      TrailingByAnchor(events, o, n);
      CappedLines(events, Pending(events, o, n), n, o.contextBefore);
    }
  }

  lemma {:induction false} ScanPending(events: seq<Event>, o: Options, n: nat)
    requires n <= |events|
    ensures ScanOf(events, o, n).pending == LinesOf(events, Pending(events, o, n))
  {
    if n != 0 {
      ScanPending(events, o, n - 1);
      EventMovesPending(events, o, n - 1);
    }
  }

  lemma SelectedLines(events: seq<Event>, o: Options, n: nat)
    requires n < |events|
    ensures var before := LinesOf(events, Selected(events, o, n));
            LinesOf(events, Selected(events, o, n + 1)) ==
              if Retained(events, o, n)
              then before + LinesOf(events, Leading(events, o, n)) + [LineOf(events[n])]
              else if Trailing(events, o, n) then before + [LineOf(events[n])]
              else before
  {
    SelectedStep(events, o, n);
    LinesOfAppend(events, Selected(events, o, n), [n]);
    if Retained(events, o, n) {
      var led := Leading(events, o, n);
      LinesOfAppend(events, Selected(events, o, n), led);
      LinesOfAppend(events, Selected(events, o, n) + led, [n]);
    }
  }

  lemma MatchAddsLines(events: seq<Event>, o: Options, n: nat)
    requires n < |events| && events[n].Match?
    ensures ScanOf(events, o, n + 1).lines == ScanOf(events, o, n).lines +
              if Retained(events, o, n)
              then LinesOf(events, Leading(events, o, n)) + [LineOf(events[n])]
              else []
  {
    ScanCounts(events, o, n);
    ScanPending(events, o, n);
    FlushedLines(events, Pending(events, o, n), events[n].file);
  }

  lemma ContextAddsLines(events: seq<Event>, o: Options, n: nat)
    requires n < |events| && events[n].Context?
    ensures ScanOf(events, o, n + 1).lines ==
              ScanOf(events, o, n).lines + if Trailing(events, o, n) then [LineOf(events[n])] else []
  {
    ScanAnchor(events, o, n);
    TrailingByAnchor(events, o, n);
  }

  lemma EventAddsLines(events: seq<Event>, o: Options, n: nat)
    requires n < |events|
    requires ScanOf(events, o, n).lines == LinesOf(events, Selected(events, o, n))
    ensures ScanOf(events, o, n + 1).lines == LinesOf(events, Selected(events, o, n + 1))
  {
    SelectedLines(events, o, n);
    match events[n]
    case Match(_, _, _) => MatchAddsLines(events, o, n);
    case Context(_, _, _) => ContextAddsLines(events, o, n);
    case Other =>
  }

  lemma {:induction false} ScanLines(events: seq<Event>, o: Options, n: nat)
    requires n <= |events|
    ensures ScanOf(events, o, n).lines == LinesOf(events, Selected(events, o, n))
  {
    hide Block, ScanMatch, ScanContext;
    if n != 0 {
      ScanLines(events, o, n - 1);
      EventAddsLines(events, o, n - 1);
    }
  }

  method Flush(pending: seq<Line>, file: string) returns (lines: seq<Line>)
    ensures lines == Flushed(pending, file)
  {
    lines := [];
    for k := 0 to |pending|
      invariant lines == Flushed(pending[..k], file)
    {
      assert pending[..k + 1][..k] == pending[..k];
      if pending[k].file == file { lines := lines + [pending[k]]; }
    }
    assert pending[..|pending|] == pending;
  }

  /** The loop keeps exactly the lines of the selected events, in order, and counts the matches after
      the offset and the matches kept. */
  method ProjectGrepEvents(events: seq<Event>, o: Options) returns (lines: seq<Line>, totalSeen: nat, retained: nat)
    ensures lines == LinesOf(events, Selected(events, o, |events|))
    ensures totalSeen == Max(Rank(events, |events|) - Max(o.offset, 0), 0)
    ensures retained == Min(totalSeen, Max(o.headLimit, 0))
  {
    lines, totalSeen, retained := [], 0, 0;
    var matchIndex: nat := 0;
    var lastRetained: Option<Anchor> := None;
    var pendingContext: seq<Line> := [];
    for n := 0 to |events|
      invariant Scan(matchIndex, totalSeen, retained, lines, pendingContext, lastRetained) == ScanOf(events, o, n)
    {
      match events[n] {
        case Other =>
        case Context(file, lineNumber, text) =>
          var line := Line(file, lineNumber, Content(text), true);
          if && lastRetained.Some? && lastRetained.value.file == file
             && lineNumber > lastRetained.value.endLineNumber
             && lineNumber - lastRetained.value.endLineNumber <= o.contextAfter {
            lines := lines + [line];
          } else if o.contextBefore > 0 {
            pendingContext := pendingContext + [line];
            if |pendingContext| > o.contextBefore { pendingContext := pendingContext[1..]; }
          }
        case Match(file, lineNumber, text) =>
          matchIndex := matchIndex + 1;
          if matchIndex - 1 < o.offset {
            pendingContext, lastRetained := [], None;
          } else {
            totalSeen := totalSeen + 1;
            if retained >= o.headLimit {
              pendingContext, lastRetained := [], None;
            } else {
              var flushed := Flush(pendingContext, file);
              lines := lines + flushed;
              pendingContext := [];
              lines := lines + [Line(file, lineNumber, Content(text), false)];
              retained := retained + 1;
              lastRetained := Some(Anchor(file, lineNumber + Newlines(Content(text))));
            }
          }
      }
    }
    ScanCounts(events, o, |events|);
    ScanLines(events, o, |events|);
  }

  // ----- what the kept events are -----

  predicate NoneTwice(s: seq<nat>) {
    forall j, k :: 0 <= j < k < |s| ==> s[j] != s[k]
  }

  predicate Rising(s: seq<nat>) {
    forall j, k :: 0 <= j < k < |s| ==> s[j] < s[k]
  }

  lemma JoinRises(a: seq<nat>, b: seq<nat>)
    requires Rising(a) && Rising(b) && (forall x, y :: x in a && y in b ==> x < y)
    ensures Rising(a + b)
  {
    var c := a + b;
    forall j, k | 0 <= j < k < |c| ensures c[j] < c[k] {
      if j < |a| <= k { assert c[j] in a && c[k] in b; }
    }
  }

  lemma JoinNoneTwice(a: seq<nat>, b: seq<nat>)
    requires NoneTwice(a) && NoneTwice(b) && (forall x :: x in b ==> x !in a)
    ensures NoneTwice(a + b)
  {
    var c := a + b;
    forall j, k | 0 <= j < k < |c| ensures c[j] != c[k] {
      if j < |a| <= k { assert c[j] in a && c[k] in b; }
    }
  }

  lemma {:induction false} SectionMeaning(events: seq<Event>, n: nat)
    requires n <= |events|
    ensures forall k :: SectionStart(events, n) <= k < n ==> !events[k].Match?
    ensures SectionStart(events, n) > 0 ==> events[SectionStart(events, n) - 1].Match?
    ensures forall k :: SectionStart(events, n) <= k <= n ==> SectionStart(events, k) == SectionStart(events, n)
  {
    if n != 0 && !events[n - 1].Match? { SectionMeaning(events, n - 1); }
  }

  lemma {:induction false} OfFileMeaning(events: seq<Event>, indices: seq<nat>, file: string)
    requires forall j, k :: 0 <= j < k < |indices| ==> indices[j] < indices[k]
    ensures var s := OfFile(events, indices, file);
            && (forall i :: i in s <==> i in indices && LineOf(At(events, i)).file == file)
            && (forall j, k :: 0 <= j < k < |s| ==> s[j] < s[k])
  {
    if indices != [] {
      var init := indices[..|indices| - 1];
      OfFileMeaning(events, init, file);
      assert indices == init + [indices[|indices| - 1]];
      var s := OfFile(events, init, file);
      forall k | 0 <= k < |s| ensures s[k] < indices[|indices| - 1] { assert s[k] in init; }
    }
  }

  lemma LastOfMeaning(s: seq<nat>, count: int, k: nat)
    requires Rising(s) && k < |s|
    ensures Rising(LastOf(s, count))
    ensures s[k] in LastOf(s, count) <==> |s| - 1 - k < count
  {
    if 0 < count < |s| {
      var last := LastOf(s, count);
      if s[k] in last { var j :| 0 <= j < count && last[j] == s[k]; }
      if |s| - 1 - k < count { assert last[k - (|s| - count)] == s[k]; }
    }
  }

  lemma LastOfSubset(s: seq<nat>, count: int)
    ensures forall x :: x in LastOf(s, count) ==> x in s
  {
  }

  lemma PendingMember(events: seq<Event>, o: Options, n: nat, i: nat)
    requires n < |events|
    ensures i in Pending(events, o, n) <==>
              && SectionStart(events, n) <= i < n && Buffered(events, o, i)
              && BufferedCount(events, o, i + 1, n) < o.contextBefore
  {
    hide BufferedIn, Buffered, SectionStart;
    var start := SectionStart(events, n);
    var all := BufferedIn(events, o, start, n);
    BufferedInMeaning(events, o, start, n);
    LastOfSubset(all, o.contextBefore);
    if i in all {
      assert BufferedCount(events, o, i + 1, n) < o.contextBefore <==> i in LastOf(all, o.contextBefore) by {
        var k :| 0 <= k < |all| && all[k] == i;
        LastOfMeaning(all, o.contextBefore, k);
      }
    }
  }

  lemma PendingMeaning(events: seq<Event>, o: Options, n: nat)
    requires n < |events|
    ensures Rising(Pending(events, o, n))
    ensures forall i: nat :: i in Pending(events, o, n) <==>
              && SectionStart(events, n) <= i < n && Buffered(events, o, i)
              && BufferedCount(events, o, i + 1, n) < o.contextBefore
  {
    var all := BufferedIn(events, o, SectionStart(events, n), n);
    BufferedInMeaning(events, o, SectionStart(events, n), n);
    if all != [] { LastOfMeaning(all, o.contextBefore, 0); }
    forall i: nat
      ensures i in Pending(events, o, n) <==>
                && SectionStart(events, n) <= i < n && Buffered(events, o, i)
                && BufferedCount(events, o, i + 1, n) < o.contextBefore
    {
      PendingMember(events, o, n, i);
    }
  }

  /** The lines flushed before a kept match are exactly those that lead to it, in order. */
  lemma FlushedMeaning(events: seq<Event>, o: Options, n: nat)
    requires n < |events| && !events[n].Other?
    ensures Rising(Leading(events, o, n))
    ensures forall i: nat :: i in Leading(events, o, n) <==> i < |events| && LeadsTo(events, o, i, n)
  {
    PendingMeaning(events, o, n);
    OfFileMeaning(events, Pending(events, o, n), events[n].file);
    forall i: nat ensures i in Leading(events, o, n) <==> i < |events| && LeadsTo(events, o, i, n) {
      assert i in Pending(events, o, n) ==> i < n;
    }
  }

  ghost predicate EmittedBy(events: seq<Event>, o: Options, i: nat, m: nat)
    requires m <= |events|
  {
    && i < m
    && (|| Retained(events, o, i)
        || Trailing(events, o, i)
        || exists n :: i < n < m && Retained(events, o, n) && LeadsTo(events, o, i, n))
  }

  lemma BlockMeaning(events: seq<Event>, o: Options, m: nat, i: nat)
    requires m < |events|
    ensures i in Block(events, o, m) <==>
              || (i == m && (Retained(events, o, m) || Trailing(events, o, m)))
              || (Retained(events, o, m) && i < |events| && LeadsTo(events, o, i, m))
    ensures i in Block(events, o, m) ==> i <= m
  {
    if Retained(events, o, m) { FlushedMeaning(events, o, m); }
  }

  lemma EmittedStep(events: seq<Event>, o: Options, m: nat, i: nat)
    requires m < |events|
    ensures EmittedBy(events, o, i, m + 1) <==> EmittedBy(events, o, i, m) || i in Block(events, o, m)
  {
    BlockMeaning(events, o, m, i);
    if EmittedBy(events, o, i, m + 1) && i < m && !Retained(events, o, i) && !Trailing(events, o, i) {
      var n: nat :| i < n < m + 1 && Retained(events, o, n) && LeadsTo(events, o, i, n);
    }
  }

  lemma {:induction false} SelectedMeaning(events: seq<Event>, o: Options, m: nat, i: nat)
    requires m <= |events|
    ensures i in Selected(events, o, m) <==> EmittedBy(events, o, i, m)
  {
    hide Block;
    if m != 0 {
      SelectedMeaning(events, o, m - 1, i);
      EmittedStep(events, o, m - 1, i);
      SelectedUnfold(events, o, m - 1);
    }
  }

  /** The one-pass loop keeps exactly the events the rule emits. */
  lemma SelectedIsTheRule(events: seq<Event>, o: Options, i: nat)
    ensures i in Selected(events, o, |events|) <==> Emitted(events, o, i)
  {
    SelectedMeaning(events, o, |events|, i);
  }

  // ----- no event twice, and in input order on ordered streams -----

  lemma LeadsOnce(events: seq<Event>, o: Options, i: nat, n: nat)
    requires n < |events| && i < |events| && LeadsTo(events, o, i, n)
    ensures i !in Selected(events, o, n)
  {
    SelectedMeaning(events, o, n, i);
    SectionMeaning(events, n);
    if m: nat :| i < m < n && Retained(events, o, m) && LeadsTo(events, o, i, m) { assert false; }
  }

  lemma BlockRises(events: seq<Event>, o: Options, m: nat)
    requires m < |events|
    ensures Rising(Block(events, o, m))
  {
    if Retained(events, o, m) {
      FlushedMeaning(events, o, m);
      JoinRises(Leading(events, o, m), [m]);
    }
  }

  lemma BlockIsNew(events: seq<Event>, o: Options, m: nat, i: nat)
    requires m < |events| && i in Block(events, o, m)
    ensures i !in Selected(events, o, m)
  {
    BlockMeaning(events, o, m, i);
    SelectedMeaning(events, o, m, i);
    if i < m { LeadsOnce(events, o, i, m); }
  }

  lemma NoneTwiceStep(events: seq<Event>, o: Options, m: nat)
    requires 0 < m <= |events| && NoneTwice(Selected(events, o, m - 1))
    ensures NoneTwice(Selected(events, o, m))
  {
    hide Block, Ordered;
    var s, block := Selected(events, o, m - 1), Block(events, o, m - 1);
    BlockRises(events, o, m - 1);
    forall i | i in block ensures i !in s { BlockIsNew(events, o, m - 1, i); }
    JoinNoneTwice(s, block);
    SelectedUnfold(events, o, m - 1);
  }

  /** Whatever the stream, no event is kept twice. */
  lemma {:induction false} NoEventTwice(events: seq<Event>, o: Options, m: nat)
    requires m <= |events|
    ensures NoneTwice(Selected(events, o, m))
  {
    hide Block;
    if m != 0 {
      NoEventTwice(events, o, m - 1);
      NoneTwiceStep(events, o, m);
    }
  }

  /** Grouped by file, and each event of a file starts below the lines its earlier events cover. */
  predicate Ordered(events: seq<Event>) {
    && (forall i, j, k | 0 <= i < j < k < |events| :: GroupedAt(events[i], events[j], events[k]))
    && (forall i, k | 0 <= i < k < |events| :: RisesAt(events[i], events[k]))
  }

  predicate GroupedAt(first: Event, between: Event, last: Event) {
    SameFile(first, last) && !between.Other? ==> SameFile(first, between)
  }

  predicate RisesAt(first: Event, last: Event) {
    SameFile(first, last) ==> EndLine(first) < last.lineNumber
  }

  predicate SameFile(a: Event, b: Event) {
    !a.Other? && !b.Other? && a.file == b.file
  }

  /** Between a match and an event of its after-window, every context line is in that window too. */
  lemma WindowIsUnbroken(events: seq<Event>, o: Options, i: nat, e: nat)
    requires Ordered(events) && i < e < |events| && events[i].Context?
    requires Trailing(events, o, e) && SectionStart(events, i) == SectionStart(events, e)
    ensures Trailing(events, o, i)
  {
    var start := SectionStart(events, e);
    SectionMeaning(events, i);
    assert GroupedAt(events[start - 1], events[i], events[e]);
    assert RisesAt(events[start - 1], events[i]) && RisesAt(events[i], events[e]);
  }

  lemma LeadsAfterTrailing(events: seq<Event>, o: Options, i: nat, e: nat, n: nat)
    requires Ordered(events) && e < n < |events| && i < |events|
    requires LeadsTo(events, o, i, n) && Trailing(events, o, e)
    ensures e < i
  {
    if i < e {
      SectionMeaning(events, n);
      WindowIsUnbroken(events, o, i, e);
    }
  }

  lemma LeadsAfterSelected(events: seq<Event>, o: Options, i: nat, e: nat, n: nat)
    requires Ordered(events) && n < |events| && i < |events|
    requires LeadsTo(events, o, i, n) && e in Selected(events, o, n)
    ensures e < i
  {
    SelectedMeaning(events, o, n, e);
    SectionMeaning(events, n);
    if Trailing(events, o, e) { LeadsAfterTrailing(events, o, i, e, n); }
  }

  lemma BlockFollows(events: seq<Event>, o: Options, m: nat, e: nat, i: nat)
    requires Ordered(events) && m < |events|
    requires e in Selected(events, o, m) && i in Block(events, o, m)
    ensures e < i
  {
    BlockMeaning(events, o, m, i);
    SelectedMeaning(events, o, m, e);
    if i < m { LeadsAfterSelected(events, o, i, e, m); }
  }

  lemma RisingStep(events: seq<Event>, o: Options, m: nat)
    requires Ordered(events) && 0 < m <= |events| && Rising(Selected(events, o, m - 1))
    ensures Rising(Selected(events, o, m))
  {
    hide Block, Ordered;
    var s, block := Selected(events, o, m - 1), Block(events, o, m - 1);
    BlockRises(events, o, m - 1);
    forall e, i | e in s && i in block ensures e < i { BlockFollows(events, o, m - 1, e, i); }
    JoinRises(s, block);
    SelectedUnfold(events, o, m - 1);
  }

  lemma {:induction false} SelectedRising(events: seq<Event>, o: Options, m: nat)
    requires Ordered(events) && m <= |events|
    ensures Rising(Selected(events, o, m))
  {
    hide Block, Ordered;
    if m != 0 {
      SelectedRising(events, o, m - 1);
      RisingStep(events, o, m);
    }
  }

  lemma SelectedInRange(events: seq<Event>, o: Options, m: nat, j: nat)
    requires m <= |events| && j < |Selected(events, o, m)|
    ensures Selected(events, o, m)[j] < m
    ensures !events[Selected(events, o, m)[j]].Other?
  {
    hide Block, Selected;
    SelectedMeaning(events, o, m, Selected(events, o, m)[j]);
  }

  /** On an ordered stream the output is a subsequence of the input and shows no line twice. */
  lemma OutputIsASubsequence(events: seq<Event>, o: Options, j: nat, k: nat)
    requires Ordered(events) && j < k < |Selected(events, o, |events|)|
    ensures var s, lines := Selected(events, o, |events|), LinesOf(events, Selected(events, o, |events|));
            && s[j] < s[k] < |events|
            && lines[j] == LineOf(events[s[j]]) && lines[k] == LineOf(events[s[k]])
            && (lines[j].file == lines[k].file ==> lines[j].lineNumber < lines[k].lineNumber)
  {
    hide Block, Selected;
    var s := Selected(events, o, |events|);
    SelectedRising(events, o, |events|);
    SelectedInRange(events, o, |events|, j);
    SelectedInRange(events, o, |events|, k);
    assert RisesAt(events[s[j]], events[s[k]]);
  }

  /** What comes before a kept match in the output comes before it in the stream. */
  ghost predicate MatchesFollow(events: seq<Event>, o: Options, s: seq<nat>) {
    forall j, k :: 0 <= j < k < |s| && s[k] < |events| && Retained(events, o, s[k]) ==> s[j] < s[k]
  }

  lemma MatchesFollowStep(events: seq<Event>, o: Options, m: nat)
    requires 0 < m <= |events| && MatchesFollow(events, o, Selected(events, o, m - 1))
    ensures MatchesFollow(events, o, Selected(events, o, m))
  {
    hide Block, Retained;
    var s, block, t := Selected(events, o, m - 1), Block(events, o, m - 1), Selected(events, o, m);
    SelectedUnfold(events, o, m - 1);
    BlockRises(events, o, m - 1);
    forall j, k | 0 <= j < k < |t| && t[k] < |events| && Retained(events, o, t[k]) ensures t[j] < t[k] {
      if k >= |s| {
        assert t[k] == block[k - |s|];
        KeptMatchEndsBlock(events, o, m - 1, t[k]);
        if j < |s| { SelectedInRange(events, o, m - 1, j); } else { assert t[j] == block[j - |s|]; }
      }
    }
  }

  lemma KeptMatchEndsBlock(events: seq<Event>, o: Options, m: nat, i: nat)
    requires m < |events| && i in Block(events, o, m) && i < |events| && Retained(events, o, i)
    ensures i == m
  {
    BlockMeaning(events, o, m, i);
  }

  /** On any stream the kept matches come out in order, and each after everything that was put out
      before it. */
  lemma {:induction false} MatchesInOrder(events: seq<Event>, o: Options, m: nat)
    requires m <= |events|
    ensures MatchesFollow(events, o, Selected(events, o, m))
  {
    hide Block, Retained;
    if m != 0 {
      MatchesInOrder(events, o, m - 1);
      MatchesFollowStep(events, o, m);
    }
  }

  // ----- the lines a match covers -----

  function Joined(lines: seq<string>): string
    requires lines != []
  {
    if |lines| == 1 then lines[0] else Joined(lines[..|lines| - 1]) + "\n" + lines[|lines| - 1]
  }

  lemma {:induction false} NewlinesJoin(a: string, b: string)
    ensures Newlines(a + b) == Newlines(a) + Newlines(b)
  {
    if b == "" {
      assert a + b == a;
    } else {
      assert (a + b)[..|a + b| - 1] == a + b[..|b| - 1];
      NewlinesJoin(a, b[..|b| - 1]);
    }
  }

  lemma {:induction false} NoNewlines(line: string)
    requires '\n' !in line
    ensures Newlines(line) == 0
  {
    if line != "" { NoNewlines(line[..|line| - 1]); }
  }

  lemma {:induction false} NewlinesOfJoined(lines: seq<string>)
    requires lines != [] && forall line :: line in lines ==> '\n' !in line
    ensures Newlines(Joined(lines)) == |lines| - 1
  {
    hide Newlines;
    var init, last := lines[..|lines| - 1], lines[|lines| - 1];
    NoNewlines(last);
    if |lines| > 1 {
      NewlinesOfJoined(init);
      NewlinesJoin(Joined(init) + "\n", last);
      NewlinesJoin(Joined(init), "\n");
      OneNewline();
    }
  }

  lemma OneNewline()
    ensures Newlines("\n") == 1
  {
    assert "\n"[..0] == "" && Newlines("") == 0;
  }

  /** A match whose text is some lines, each with its line end, is shown as those lines without the last
      line end, and its after-window counts from the last of them. */
  lemma MatchCoversItsLines(file: string, first: int, lines: seq<string>)
    requires lines != [] && forall line :: line in lines ==> '\n' !in line
    ensures var e := Match(file, first, Joined(lines) + "\n");
            && LineOf(e) == Line(file, first, Joined(lines), false)
            && EndLine(e) == first + |lines| - 1
  {
    hide Newlines;
    NewlinesOfJoined(lines);
    assert (Joined(lines) + "\n")[..|Joined(lines)|] == Joined(lines);
  }
}

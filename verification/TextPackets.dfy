// grok-mobile-belmont-pwa/src/windows-keyboard.ts: text packets and key chords for the remote desktop.

module TextPackets {
  import opened Common
  import opened Unicode

  type Packet = seq<Byte>

  const MAX_UNITS := 4000
  const MAX_PAYLOAD := 250

  datatype Refusal = TooLong | ControlCharacter

  datatype Encoded = Refused(why: Refusal) | Packets(packets: seq<Packet>)

  predicate IsControl(c: CodePoint) {
    c <= 0x1F || c == 0x7F
  }

  predicate HasControl(text: seq<Unit>) {
    exists k | 0 <= k < |CodePoints(text)| :: IsControl(CodePoints(text)[k])
  }

  predicate Accepted(text: seq<Unit>) {
    |text| <= MAX_UNITS && !HasControl(text)
  }

  function SizeOf(c: CodePoint): nat {
    |Utf8(Replaced(c))|
  }

  function Size(cs: seq<CodePoint>): nat {
    if cs == [] then 0 else Size(cs[..|cs| - 1]) + SizeOf(cs[|cs| - 1])
  }

  // ----- the greedy split -----

  datatype Progress = Progress(done: seq<seq<CodePoint>>, current: seq<CodePoint>)

  function Flushed(p: Progress): seq<seq<CodePoint>> {
    if p.current == [] then p.done else p.done + [p.current]
  }

  function Push(p: Progress, c: CodePoint): Progress {
    if Size(p.current) + SizeOf(c) > MAX_PAYLOAD then Progress(Flushed(p), [c]) else Progress(p.done, p.current + [c])
  }

  function Greedy(cs: seq<CodePoint>): Progress {
    if cs == [] then Progress([], []) else Push(Greedy(cs[..|cs| - 1]), cs[|cs| - 1])
  }

  function Groups(cs: seq<CodePoint>): seq<seq<CodePoint>> {
    Flushed(Greedy(cs))
  }

  function PacketOf(group: seq<CodePoint>): Packet {
    [1, |group| % 256] + Encode(group)
  }

  function PacketsOf(groups: seq<seq<CodePoint>>): seq<Packet> {
    seq(|groups|, k requires 0 <= k < |groups| => PacketOf(groups[k]))
  }

  function Join(strings: seq<seq<Unit>>): seq<Unit> {
    if strings == [] then [] else Join(strings[..|strings| - 1]) + strings[|strings| - 1]
  }

  function Strings(cs: seq<CodePoint>): seq<seq<Unit>> {
    seq(|cs|, k requires 0 <= k < |cs| => UnitsOf(cs[k]))
  }

  lemma {:induction false} JoinStrings(cs: seq<CodePoint>)
    ensures Join(Strings(cs)) == Units(cs)
  {
    if cs == [] {
      assert Strings(cs) == [];
    } else {
      var init, last := cs[..|cs| - 1], cs[|cs| - 1];
      JoinStrings(init);
      assert Strings(cs)[..|cs| - 1] == Strings(init);
      assert cs == init + [last];
      UnitsJoin(init, [last]);
      assert Units([last]) == UnitsOf(last) + [];
    }
  }

  lemma PushLast(cs: seq<CodePoint>, c: CodePoint)
    ensures Greedy(cs + [c]) == Push(Greedy(cs), c)
  {
    assert (cs + [c])[..|cs|] == cs;
  }

  lemma SizePush(cs: seq<CodePoint>, c: CodePoint)
    ensures Size(cs + [c]) == Size(cs) + SizeOf(c)
    ensures Size([c]) == SizeOf(c)
  {
    assert (cs + [c])[..|cs|] == cs && [c][..0] == [];
  }

  predicate FitsIn(group: seq<CodePoint>) {
    group != [] && Size(group) <= MAX_PAYLOAD
  }

  /** The split covers the text, and every group is non-empty and fits. */
  predicate Covers(p: Progress, cs: seq<CodePoint>) {
    && Flatten(p.done) + p.current == cs
    && Size(p.current) <= MAX_PAYLOAD
    && (forall k | 0 <= k < |p.done| :: FitsIn(p.done[k]))
  }

  lemma PushCovers(p: Progress, cs: seq<CodePoint>, c: CodePoint)
    requires Covers(p, cs)
    ensures Covers(Push(p, c), cs + [c])
  {
    hide Utf8;
    FlattenLast(p.done, p.current);
    SizePush(p.current, c);
    assert Flatten(p.done) + (p.current + [c]) == cs + [c];
    if p.current == [] { assert Flatten(p.done) + [c] == cs + [c]; }
  }

  lemma {:induction false} GreedyCovers(cs: seq<CodePoint>)
    ensures Covers(Greedy(cs), cs)
  {
    hide Covers, Push;
    if cs == [] {
      NothingCovers();
    } else {
      var init, last := cs[..|cs| - 1], cs[|cs| - 1];
      GreedyCovers(init);
      PushCovers(Greedy(init), init, last);
      assert cs == init + [last];
    }
  }

  lemma NothingCovers()
    ensures Covers(Progress([], []), [])
  {
    assert Flatten([]) + [] == [];
  }

  function Flatten(groups: seq<seq<CodePoint>>): seq<CodePoint> {
    if groups == [] then [] else Flatten(groups[..|groups| - 1]) + groups[|groups| - 1]
  }

  lemma FlattenLast(groups: seq<seq<CodePoint>>, group: seq<CodePoint>)
    ensures Flatten(groups + [group]) == Flatten(groups) + group
  {
    assert (groups + [group])[..|groups|] == groups;
  }

  /** The loop's variables hold this split. */
  ghost predicate Holds(p: Progress, packets: seq<Packet>, scalars: seq<seq<Unit>>, bytes: nat) {
    packets == PacketsOf(p.done) && scalars == Strings(p.current) && bytes == Size(p.current)
  }

  /** `flush`: the collected strings become a packet. */
  method Flush(packets: seq<Packet>, scalars: seq<seq<Unit>>, ghost bytes: nat, ghost p: Progress)
    returns (flushed: seq<Packet>)
    requires Holds(p, packets, scalars, bytes) && Separate(p.current)
    ensures flushed == PacketsOf(Flushed(p))
  {
    hide Encode, Units, CodePoints, Size;
    if |scalars| == 0 { return packets; }
    JoinStrings(p.current);
    CodePointsOfUnits(p.current);
    var payload := Encode(CodePoints(Join(scalars)));
    var packet: Packet := [1, |scalars| % 256] + payload;
    assert packet == PacketOf(p.current);
    return packets + [packet];
  }

  lemma PushHolds(p: Progress, packets: seq<Packet>, scalars: seq<seq<Unit>>, bytes: nat, c: CodePoint)
    requires Holds(p, packets, scalars, bytes)
    ensures bytes + SizeOf(c) <= MAX_PAYLOAD ==>
              Holds(Push(p, c), packets, scalars + [UnitsOf(c)], bytes + SizeOf(c))
    ensures bytes + SizeOf(c) > MAX_PAYLOAD ==>
              Holds(Push(p, c), PacketsOf(Flushed(p)), [UnitsOf(c)], SizeOf(c))
  {
    hide Utf8, PacketsOf, UnitsOf, Flushed;
    SizePush(p.current, c);
    assert Strings(p.current + [c]) == Strings(p.current) + [UnitsOf(c)];
    assert Strings([c]) == [UnitsOf(c)];
  }

  /** The loop over the text's code points yields the packets of the greedy split. */
  method EncodeDesktopText(text: seq<Unit>) returns (r: Encoded)
    ensures r.Packets? <==> Accepted(text)
    ensures r.Refused? ==> r.why == if |text| > MAX_UNITS then TooLong else ControlCharacter
    ensures r.Packets? ==> r.packets == PacketsOf(Groups(CodePoints(text)))
  {
    hide Greedy, Push, Holds, PacketsOf, Separate, Flushed, Encode, Utf8;
    if |text| > MAX_UNITS { return Refused(TooLong); }
    if HasControl(text) { return Refused(ControlCharacter); }
    var packets: seq<Packet>, scalars: seq<seq<Unit>>, bytes: nat, i: nat := [], [], 0, 0;
    ghost var seen: seq<CodePoint> := [];
    CodePointsAreSeparate(text);
    StartHolds();
    assert text[0..] == text;
    while i < |text|
      invariant i <= |text| && seen + CodePoints(text[i..]) == CodePoints(text)
      invariant Holds(Greedy(seen), packets, scalars, bytes)
    {
      var width := FirstWidth(text[i..]);
      var scalar := text[i..i + width];
      ghost var c, p := First(text[i..]), Greedy(seen);
      FirstUnits(text[i..]);
      assert scalar == UnitsOf(c);
      OneScalar(c);
      var size := |Encode(CodePoints(scalar))|;
      PushHolds(p, packets, scalars, bytes, c);
      if bytes + size > MAX_PAYLOAD {
        CurrentIsSeparate(seen, CodePoints(text[i..]));
        packets := Flush(packets, scalars, bytes, p);
        scalars, bytes := [], 0;
      }
      assert [] + [scalar] == [scalar];
      scalars := scalars + [scalar];
      bytes := bytes + size;
      PushLast(seen, c);
      NextPoint(seen, text, i);
      seen := seen + [c];
      i := i + width;
    }
    assert text[i..] == [] && seen + [] == seen;
    CurrentIsSeparate(seen, []);
    packets := Flush(packets, scalars, bytes, Greedy(seen));
    return Packets(packets);
  }

  lemma StartHolds()
    ensures Holds(Greedy([]), [], [], 0)
  {
  }

  lemma NextPoint(seen: seq<CodePoint>, text: seq<Unit>, i: nat)
    requires i < |text|
    ensures var width := FirstWidth(text[i..]);
            seen + CodePoints(text[i..]) == (seen + [First(text[i..])]) + CodePoints(text[i + width..])
  {
    assert text[i..][FirstWidth(text[i..])..] == text[i + FirstWidth(text[i..])..];
  }

  lemma OneScalar(c: CodePoint)
    ensures CodePoints(UnitsOf(c)) == [c] && |Encode([c])| == SizeOf(c)
  {
    FirstOfUnits(c, []);
    assert UnitsOf(c) + [] == UnitsOf(c);
    assert CodePoints([]) == [] && [c][1..] == [];
  }

  lemma CurrentIsSeparate(seen: seq<CodePoint>, rest: seq<CodePoint>)
    requires Separate(seen + rest)
    ensures Separate(Greedy(seen).current)
  {
    hide Size, FitsIn, Greedy;
    GreedyCovers(seen);
    var p := Greedy(seen);
    var from := |Flatten(p.done)|;
    assert forall k :: 0 <= k < |p.current| ==> p.current[k] == (seen + rest)[from + k];
  }

  // ----- packets are whole -----

  lemma {:induction false} SizeJoin(a: seq<CodePoint>, b: seq<CodePoint>)
    ensures Size(a + b) == Size(a) + Size(b)
  {
    if b == [] {
      assert a + b == a;
    } else {
      var init, last := b[..|b| - 1], b[|b| - 1];
      assert a + b == (a + init) + [last] && b == init + [last];
      SizeJoin(a, init);
      SizePush(a + init, last);
    }
  }

  lemma {:induction false} EncodeSize(cs: seq<CodePoint>)
    ensures |Encode(cs)| == Size(cs) >= |cs|
  {
    if cs != [] {
      EncodeSize(cs[1..]);
      assert cs == [cs[0]] + cs[1..];
      SizeJoin([cs[0]], cs[1..]);
      SizePush([], cs[0]);
    }
  }

  lemma GroupsFit(cs: seq<CodePoint>, k: nat)
    requires k < |Groups(cs)|
    ensures FitsIn(Groups(cs)[k])
  {
    hide Greedy, Flatten, Size;
    GreedyCovers(cs);
  }

  lemma GroupsCover(cs: seq<CodePoint>)
    ensures Flatten(Groups(cs)) == cs
  {
    hide Greedy;
    GreedyCovers(cs);
    FlattenLast(Greedy(cs).done, Greedy(cs).current);
    assert Flatten(Greedy(cs).done) + [] == Flatten(Greedy(cs).done);
  }

  /** Each packet holds between 1 and 250 payload bytes, which decode on their own to as many scalars
      as the header byte says. */
  lemma PacketsAreWhole(text: seq<Unit>, k: nat)
    requires k < |PacketsOf(Groups(CodePoints(text)))|
    ensures var packet := PacketsOf(Groups(CodePoints(text)))[k];
            && 3 <= |packet| <= 252 && packet[0] == 1
            && Decode(packet[2..]).Some? && |Decode(packet[2..]).value| == packet[1] > 0
  {
    hide Groups, CodePoints, Decode, Encode, Size;
    var group := Groups(CodePoints(text))[k];
    GroupsFit(CodePoints(text), k);
    EncodeSize(group);
    DecodeEncode(group);
    assert PacketOf(group)[2..] == Encode(group);
  }

  // ----- nothing is lost -----

  function Payloads(packets: seq<Packet>): seq<Byte> {
    if packets == [] then []
    else
      var last := packets[|packets| - 1];
      Payloads(packets[..|packets| - 1]) + if |last| >= 2 then last[2..] else []
  }

  /** The text a receiver puts together. */
  function Received(packets: seq<Packet>): Option<seq<Unit>> {
    var cs := Decode(Payloads(packets));
    if cs.None? then None else Some(Units(cs.value))
  }

  lemma {:induction false} PayloadsOfGroups(groups: seq<seq<CodePoint>>)
    ensures Payloads(PacketsOf(groups)) == Encode(Flatten(groups))
  {
    if groups == [] {
      assert PacketsOf(groups) == [];
    } else {
      var init, last := groups[..|groups| - 1], groups[|groups| - 1];
      PayloadsOfGroups(init);
      assert PacketsOf(groups)[..|groups| - 1] == PacketsOf(init);
      assert PacketOf(last)[2..] == Encode(last);
      EncodeJoin(Flatten(init), last);
    }
  }

  predicate HasLoneSurrogate(text: seq<Unit>) {
    exists k | 0 <= k < |CodePoints(text)| :: IsSurrogate(CodePoints(text)[k])
  }

  lemma ReplacementShows(text: seq<Unit>)
    ensures Units(ReplaceAll(CodePoints(text))) == text <==> !HasLoneSurrogate(text)
  {
    var cs := CodePoints(text);
    UnitsOfCodePoints(text);
    if HasLoneSurrogate(text) {
      var k :| 0 <= k < |cs| && IsSurrogate(cs[k]);
      assert ReplaceAll(cs)[k] != cs[k];
      assert Separate(ReplaceAll(cs));
      CodePointsOfUnits(ReplaceAll(cs));
    } else {
      assert ReplaceAll(cs) == cs;
    }
  }

  /** The receiver gets exactly the text if and only if every surrogate in it is paired; a lone one
      arrives as U+FFFD. */
  lemma TextSurvives(text: seq<Unit>)
    ensures var received := Received(PacketsOf(Groups(CodePoints(text))));
            && received == Some(Units(ReplaceAll(CodePoints(text))))
            && (received == Some(text) <==> !HasLoneSurrogate(text))
  {
    var cs := CodePoints(text);
    GroupsCover(cs);
    PayloadsOfGroups(Groups(cs));
    DecodeEncode(cs);
    ReplacementShows(text);
  }

  /** A text of one lone surrogate arrives as another text. */
  lemma LoneSurrogateIsLost()
    ensures Received(PacketsOf(Groups(CodePoints([0xD800])))) == Some([0xFFFD])
  {
    var text: seq<Unit> := [0xD800];
    assert text[1..] == [] && CodePoints(text) == [0xD800];
    TextSurvives(text);
    assert ReplaceAll([0xD800]) == [0xFFFD];
    assert Units([0xFFFD]) == [0xFFFD] by { assert [0xFFFD as CodePoint][1..] == []; }
  }

  // ----- no other split needs fewer packets -----

  /** The first character of each next group would not have fitted into the one before. */
  ghost predicate Tight(groups: seq<seq<CodePoint>>) {
    forall j, k | 0 <= j < k < |groups| && k == j + 1 :: TightPair(groups[j], groups[k])
  }

  predicate TightPair(group: seq<CodePoint>, next: seq<CodePoint>) {
    next != [] && Size(group) + SizeOf(next[0]) > MAX_PAYLOAD
  }

  lemma PushStaysTight(p: Progress, c: CodePoint)
    requires Tight(Flushed(p)) && (p.current == [] ==> p.done == [])
    ensures Tight(Flushed(Push(p, c))) && Push(p, c).current != []
  {
    var t := Push(p, c);
    var n := |p.done|;
    forall j, k | 0 <= j < k < |Flushed(t)| && k == j + 1 ensures TightPair(Flushed(t)[j], Flushed(t)[k]) {
      if k <= n && p.current != [] { assert TightPair(Flushed(p)[j], Flushed(p)[k]); }
    }
  }

  lemma {:induction false} GreedyIsTight(cs: seq<CodePoint>)
    ensures Tight(Groups(cs)) && (Greedy(cs).current == [] ==> Greedy(cs).done == [])
  {
    hide Push, TightPair;
    if cs != [] {
      GreedyIsTight(cs[..|cs| - 1]);
      PushStaysTight(Greedy(cs[..|cs| - 1]), cs[|cs| - 1]);
    }
  }

  function Taken(groups: seq<seq<CodePoint>>, n: nat): nat
    requires n <= |groups|
  {
    |Flatten(groups[..n])|
  }

  lemma {:induction false} FlattenJoin(a: seq<seq<CodePoint>>, b: seq<seq<CodePoint>>)
    ensures Flatten(a + b) == Flatten(a) + Flatten(b)
  {
    if b == [] {
      assert a + b == a && Flatten(a) + [] == Flatten(a);
    } else {
      var init := b[..|b| - 1];
      FlattenJoin(a, init);
      assert (a + b)[..|a + b| - 1] == a + init;
      assert Flatten(a) + (Flatten(init) + b[|b| - 1]) == (Flatten(a) + Flatten(init)) + b[|b| - 1];
    }
  }

  /** Group n takes the code points from Taken(n) on. */
  lemma GroupIsSlice(groups: seq<seq<CodePoint>>, n: nat)
    requires n < |groups|
    ensures Taken(groups, n + 1) == Taken(groups, n) + |groups[n]| <= |Flatten(groups)|
    ensures Flatten(groups)[Taken(groups, n)..Taken(groups, n + 1)] == groups[n]
  {
    var a, b := groups[..n], groups[n + 1..];
    assert groups == (a + [groups[n]]) + b && groups[..n + 1] == a + [groups[n]];
    FlattenJoin(a + [groups[n]], b);
    FlattenLast(a, groups[n]);
  }

  lemma SizeOfSlice(cs: seq<CodePoint>, a: nat, b: nat, c: nat, d: nat)
    requires a <= b <= c <= d <= |cs|
    ensures Size(cs[a..d]) >= Size(cs[b..c])
  {
    assert cs[a..d] == cs[a..b] + cs[b..c] + cs[c..d];
    SizeJoin(cs[a..b] + cs[b..c], cs[c..d]);
    SizeJoin(cs[a..b], cs[b..c]);
  }

  /** A tight group together with the next character is too big. */
  lemma OneMoreIsTooBig(groups: seq<seq<CodePoint>>, n: nat)
    requires Tight(groups) && n + 1 < |groups|
    ensures var cs, from, to := Flatten(groups), Taken(groups, n), Taken(groups, n + 1);
            from <= to < |cs| && Size(cs[from..to + 1]) > MAX_PAYLOAD
  {
    hide Flatten, Taken, Size, SizeOf;
    var cs, from, to := Flatten(groups), Taken(groups, n), Taken(groups, n + 1);
    assert TightPair(groups[n], groups[n + 1]);
    GroupIsSlice(groups, n);
    GroupIsSlice(groups, n + 1);
    var next := groups[n + 1][0];
    assert cs[to] == cs[to..Taken(groups, n + 2)][0] == next;
    assert cs[from..to + 1] == cs[from..to] + [next];
    SizePush(groups[n], next);
  }

  /** A group that started no later than a tight group and went further would be too big. */
  lemma CannotOvertake(groups: seq<seq<CodePoint>>, other: seq<seq<CodePoint>>, n: nat)
    requires Flatten(groups) == Flatten(other) && Tight(groups)
    requires n + 1 < |groups| && n < |other| && Size(other[n]) <= MAX_PAYLOAD
    requires Taken(other, n) <= Taken(groups, n)
    ensures Taken(other, n + 1) <= Taken(groups, n + 1)
  {
    hide Flatten, Taken, Size, Tight;
    OneMoreIsTooBig(groups, n);
    GroupIsSlice(other, n);
    if Taken(other, n + 1) > Taken(groups, n + 1) {
      SizeOfSlice(Flatten(groups), Taken(other, n), Taken(groups, n), Taken(groups, n + 1) + 1, Taken(other, n + 1));
    }
  }

  lemma {:induction false} GreedyStaysAhead(groups: seq<seq<CodePoint>>, other: seq<seq<CodePoint>>, n: nat)
    requires Flatten(groups) == Flatten(other) && Tight(groups)
    requires n < |groups| && n <= |other|
    requires forall k | 0 <= k < |other| :: Size(other[k]) <= MAX_PAYLOAD
    ensures Taken(other, n) <= Taken(groups, n)
  {
    if n != 0 {
      GreedyStaysAhead(groups, other, n - 1);
      CannotOvertake(groups, other, n - 1);
    }
  }

  /** No split of the text into groups of at most 250 bytes has fewer groups. */
  lemma FewestPackets(text: seq<Unit>, other: seq<seq<CodePoint>>)
    requires Flatten(other) == CodePoints(text)
    requires forall k | 0 <= k < |other| :: Size(other[k]) <= 250
    ensures |PacketsOf(Groups(CodePoints(text)))| <= |other|
  {
    var groups := Groups(CodePoints(text));
    GreedyIsTight(CodePoints(text));
    GroupsCover(CodePoints(text));
    if |other| < |groups| {
      GreedyStaysAhead(groups, other, |other|);
      assert other[..|other|] == other;
      GroupIsSlice(groups, |other|);
      GroupsFit(CodePoints(text), |other|);
    }
  }

  // ----- what is refused -----

  predicate IsControlUnit(u: Unit) {
    u < 0x20 || u == 0x7F
  }

  lemma FirstIsControl(text: seq<Unit>)
    requires text != []
    ensures IsControl(First(text)) <==> IsControlUnit(text[0])
    ensures FirstWidth(text) == 2 ==> !IsControlUnit(text[1])
  {
  }

  lemma {:induction false} ControlsAreUnits(text: seq<Unit>)
    ensures HasControl(text) <==> exists k :: 0 <= k < |text| && IsControlUnit(text[k])
    decreases |text|
  {
    if text != [] {
      var width := FirstWidth(text);
      var rest, cs := text[width..], CodePoints(text);
      FirstIsControl(text);
      ControlsAreUnits(rest);
      assert cs == [First(text)] + CodePoints(rest);
      SplitControls(cs, CodePoints(rest), text, width);
    }
  }

  /** The first code point and the others, the first units and the others. */
  lemma SplitControls(cs: seq<CodePoint>, more: seq<CodePoint>, text: seq<Unit>, width: nat)
    requires cs != [] && cs[1..] == more && 1 <= width <= 2 && width <= |text|
    requires IsControl(cs[0]) <==> IsControlUnit(text[0])
    requires width == 2 ==> !IsControlUnit(text[1])
    requires (exists k | 0 <= k < |more| :: IsControl(more[k])) <==> exists k :: 0 <= k < |text[width..]| && IsControlUnit(text[width..][k])
    ensures (exists k | 0 <= k < |cs| :: IsControl(cs[k])) <==> exists k :: 0 <= k < |text| && IsControlUnit(text[k])
  {
    var rest := text[width..];
    if k :| 0 <= k < |cs| && IsControl(cs[k]) {
      if k > 0 {
        assert more[k - 1] == cs[k];
        var j :| 0 <= j < |rest| && IsControlUnit(rest[j]);
        assert text[j + width] == rest[j];
      }
    }
    if k :| 0 <= k < |text| && IsControlUnit(text[k]) {
      if k >= width {
        assert rest[k - width] == text[k];
        var j :| 0 <= j < |more| && IsControl(more[j]);
        assert cs[j + 1] == more[j];
      }
    }
  }

  /** A text is refused exactly when it has more than 4000 units or one of them is a control character. */
  lemma RefusedExactly(text: seq<Unit>)
    ensures Accepted(text) <==> |text| <= 4000 && forall k :: 0 <= k < |text| ==> text[k] >= 0x20 && text[k] != 0x7F
  {
    ControlsAreUnits(text);
    if k :| 0 <= k < |text| && IsControlUnit(text[k]) { assert text[k] < 0x20 || text[k] == 0x7F; }
    if k :| 0 <= k < |text| && (text[k] < 0x20 || text[k] == 0x7F) { assert IsControlUnit(text[k]); }
  }
}

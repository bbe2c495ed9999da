// A catch-up that starts over for ever: head rows that show nothing (grok-mobile-belmont-pwa/server.mjs
// filters the rows of a page and keeps its cursor) move an open gap back to the head on every refresh.

module TranscriptStall {
  import opened Common
  import opened Entries
  import opened TranscriptStore
  import opened TranscriptGap

  /** One shown row, and ten that show nothing. A page is one row here; with longer pages the log is
      longer. */
  const LOG: seq<Row> := [
    Row(1, "a", true), Row(2, "b", false), Row(3, "b", false), Row(4, "b", false), Row(5, "b", false), Row(6, "b", false),
    Row(7, "b", false), Row(8, "b", false), Row(9, "b", false), Row(10, "b", false), Row(11, "b", false)]

  const ANCHOR := Message("a", Text, User, 0, "", None, false, "")

  function Shown(cursor: Option<int>): Snapshot {
    Snapshot([ANCHOR], cursor, false, false, "")
  }

  /** Between refreshes, the next load being `id`: the gap is open above row 3. */
  function Stuck(id: nat): World {
    World(State(Shown(Some(3)), true, false, false, None, Some(Gap(3, {"a"}, None)), map[], id), LOG, map[], 11, 1)
  }

  /** Load `id` waits for the head. */
  function AtHead(id: nat): World {
    World(State(Shown(Some(3)), true, false, false, Some(id), Some(Gap(3, {"a"}, None)),
                map[id := FirstPage(false, false, None)], id + 1),
          LOG, map[id := 11], 11, 1)
  }

  /** Load `id` waits for its gap page number `k`; after the eighth it has ended. */
  function CatchingUp(id: nat, k: nat): World
    requires k <= 8
  {
    if k == 8 then Stuck(id + 1)
    else
      World(State(Shown(Some(11 - k)), true, false, false, Some(id), Some(Gap(11 - k, {"a"}, None)),
                  map[id := CatchUp(k, 11 - k)], id + 1),
            LOG, map[id := 11], 11, 1)
  }

  function HeadPage(id: nat): WorldEvent {
    Answer(id, Arrived(Page([], Some(11))), 11)
  }

  function GapPage(id: nat, k: nat): WorldEvent {
    Answer(id, Arrived(Page([], Some(10 - k))), 11)
  }

  function PagesThen(id: nat, k: nat, rest: seq<WorldEvent>): seq<WorldEvent>
    requires k <= 8
    decreases 8 - k
  {
    if k == 8 then rest else [GapPage(id, k)] + PagesThen(id, k + 1, rest)
  }

  /** `count` refreshes, each with its head page and eight gap pages. */
  function Refreshes(id: nat, count: nat): seq<WorldEvent>
    decreases count
  {
    if count == 0 then []
    else [Local(RefreshEvent)] + ([HeadPage(id)] + PagesThen(id, 0, Refreshes(id + 1, count - 1)))
  }

  lemma AnchorReconciled()
    ensures Reconcile([ANCHOR]) == [ANCHOR] && KnownIds([ANCHOR]) == {"a"} && Ids([ANCHOR]) == {"a"}
  {
    assert Unique([]) == [] && [ANCHOR][..0] == [];
    assert Unique([ANCHOR]) == [ANCHOR];
    assert KeepSurvivors([ANCHOR], []) == [] && KeepSurvivors([ANCHOR], [ANCHOR]) == [ANCHOR];
    assert StableSort([]) == [] && StableSort([ANCHOR]) == [ANCHOR];
  }

  lemma RowsOfLog(i: int)
    requires 0 <= i < |LOG|
    ensures LOG[i].seqNo == i + 1 && (LOG[i].shown <==> i == 0)
  {
  }

  lemma LogIsValid()
    ensures ValidLog(LOG)
  {
    forall i | 0 <= i < |LOG| ensures LOG[i].seqNo == i + 1 && (LOG[i].shown <==> i == 0) { RowsOfLog(i); }
  }

  /** A page of rows that show nothing. */
  lemma EmptyPageIsFaithful(before: Option<int>, next: int)
    requires 2 <= next <= 11 && Under(before, next)
    ensures Faithful(LOG, 11, before, Page([], Some(next)))
  {
    assert Ids([]) == {};
    forall i | 0 <= i < |LOG| ensures LOG[i].seqNo == i + 1 && (LOG[i].shown <==> i == 0) { RowsOfLog(i); }
    RowsOfLog(next - 1);
    assert IsSeqNo(LOG, 11, next);
  }

  lemma RefreshAsks(id: nat)
    ensures Legal(Stuck(id), Local(RefreshEvent)) && WorldStep(Stuck(id), Local(RefreshEvent)) == AtHead(id)
  {
    assert WorldStep(Stuck(id), Local(RefreshEvent)).asOf == map[id := 11];
  }

  lemma HeadStartsOver(id: nat)
    ensures Legal(AtHead(id), HeadPage(id)) && WorldStep(AtHead(id), HeadPage(id)) == CatchingUp(id, 0)
    ensures !IsGapPage(AtHead(id), HeadPage(id))
  {
    hide Reconcile, KnownIds;
    EmptyPageIsFaithful(None, 11);
    AnchorReconciled();
    assert [ANCHOR] + [] == [ANCHOR];
    assert WorldStep(AtHead(id), HeadPage(id)).asOf == map[id := 11];
  }

  lemma GapPageDescends(id: nat, k: nat)
    requires k < 8
    ensures Legal(CatchingUp(id, k), GapPage(id, k))
    ensures WorldStep(CatchingUp(id, k), GapPage(id, k)) == CatchingUp(id, k + 1)
    ensures IsGapPage(CatchingUp(id, k), GapPage(id, k))
  {
    hide Reconcile, KnownIds;
    EmptyPageIsFaithful(Some(11 - k), 10 - k);
    AnchorReconciled();
    assert [] + [ANCHOR] + OnlyAnchors([], {"a"}) == [ANCHOR];
    var w := WorldStep(CatchingUp(id, k), GapPage(id, k));
    assert w.asOf == if k == 7 then map[] else map[id := 11];
  }

  // ----- runs -----

  /** The gap is open before, between and after the events, none of which grows the log. */
  ghost predicate OpenOnStandingLog(w: World, events: seq<WorldEvent>)
    requires LegalRun(w, events)
    decreases |events|
  {
    && w.store.gap.Some?
    && (events != [] ==> !events[0].Grow? && OpenOnStandingLog(WorldStep(w, events[0]), events[1..]))
  }

  /** What one more event in front adds to a run. */
  lemma OneMore(w: World, e: WorldEvent, rest: seq<WorldEvent>)
    requires Legal(w, e) && LegalRun(WorldStep(w, e), rest)
    ensures LegalRun(w, [e] + rest) && WorldRun(w, [e] + rest) == WorldRun(WorldStep(w, e), rest)
    ensures GapPages(w, [e] + rest) == (if IsGapPage(w, e) then 1 else 0) + GapPages(WorldStep(w, e), rest)
    ensures OpenOnStandingLog(w, [e] + rest) <==> w.store.gap.Some? && !e.Grow? && OpenOnStandingLog(WorldStep(w, e), rest)
  {
    hide Legal, WorldStep, IsGapPage;
    assert ([e] + rest)[1..] == rest;
  }

  lemma {:induction false} PagesRun(id: nat, k: nat, rest: seq<WorldEvent>)
    requires k <= 8 && LegalRun(Stuck(id + 1), rest)
    ensures var w, events := CatchingUp(id, k), PagesThen(id, k, rest);
            && LegalRun(w, events) && WorldRun(w, events) == WorldRun(Stuck(id + 1), rest)
            && GapPages(w, events) == (8 - k) + GapPages(Stuck(id + 1), rest)
            && (OpenOnStandingLog(Stuck(id + 1), rest) ==> OpenOnStandingLog(w, events))
    decreases 8 - k
  {
    hide Legal, WorldStep, IsGapPage, LegalRun, WorldRun, GapPages, OpenOnStandingLog;
    if k < 8 {
      PagesRun(id, k + 1, rest);
      GapPageDescends(id, k);
      OneMore(CatchingUp(id, k), GapPage(id, k), PagesThen(id, k + 1, rest));
    }
  }

  lemma NoEvents(w: World)
    ensures LegalRun(w, []) && WorldRun(w, []) == w && GapPages(w, []) == 0
    ensures OpenOnStandingLog(w, []) <==> w.store.gap.Some?
  {
  }

  /** When head pages may be empty the bound of CatchUpClosesTheGap is lost: on a log that stands still
      any number of refreshes, each with all of its eight gap pages, leave the gap open where it was. */
  lemma {:induction false} CatchUpStartsOverForever(id: nat, count: nat)
    ensures var w, events := Stuck(id), Refreshes(id, count);
            && LegalRun(w, events) && WorldRun(w, events) == Stuck(id + count)
            && GapPages(w, events) == 8 * count
            && OpenOnStandingLog(w, events)
            && Stuck(id + count).store.gap == w.store.gap
    decreases count
  {
    hide Legal, WorldStep, IsGapPage, LegalRun, WorldRun, GapPages, OpenOnStandingLog;
    if count == 0 {
      NoEvents(Stuck(id));
    } else {
      var rest := Refreshes(id + 1, count - 1);
      CatchUpStartsOverForever(id + 1, count - 1);
      var pages := PagesThen(id, 0, rest);
      PagesRun(id, 0, rest);
      HeadStartsOver(id);
      OneMore(AtHead(id), HeadPage(id), pages);
      RefreshAsks(id);
      NoGapPage(id);
      OneMore(Stuck(id), Local(RefreshEvent), [HeadPage(id)] + pages);
    }
  }

  lemma NoGapPage(id: nat)
    ensures !IsGapPage(Stuck(id), Local(RefreshEvent))
  {
  }

  // ----- and a client gets there -----

  /** The one shown row is loaded. */
  function FirstLoaded(log: seq<Row>): World {
    World(State(Shown(None), true, false, false, None, None, map[], 1), log, map[], 1, 0)
  }

  function Loading(): World {
    World(State(Snapshot([], None, true, false, ""), false, false, false, Some(0), None,
                map[0 := FirstPage(false, true, None)], 1),
          LOG[..1], map[0 := 1], 0, 0)
  }

  const FIRST_PAGE := Answer(0, Arrived(Page([ANCHOR], None)), 1)

  lemma FirstLoadBegins()
    ensures Legal(Outset(LOG[..1]), Local(StartEvent)) && WorldStep(Outset(LOG[..1]), Local(StartEvent)) == Loading()
  {
    assert WorldStep(Outset(LOG[..1]), Local(StartEvent)).asOf == map[0 := 1];
  }

  lemma FirstPageArrives()
    ensures Legal(Loading(), FIRST_PAGE) && WorldStep(Loading(), FIRST_PAGE) == FirstLoaded(LOG[..1])
  {
    hide Reconcile, KnownIds;
    AnchorReconciled();
    assert LOG[..1][0] == Row(1, "a", true);
    assert Shows(LOG[..1], 0, "a");
    assert [] + [ANCHOR] == [ANCHOR];
    assert Loading().store.loads - {0} == map[];
    assert WorldStep(Loading(), FIRST_PAGE).asOf == map[];
  }

  function Asking(): World {
    World(State(Shown(None), true, false, false, Some(1), None, map[1 := FirstPage(false, false, None)], 2),
          LOG, map[1 := 11], 1, 0)
  }

  lemma LogGrows()
    ensures Legal(FirstLoaded(LOG[..1]), Grow(LOG[1..])) && WorldStep(FirstLoaded(LOG[..1]), Grow(LOG[1..])) == FirstLoaded(LOG)
    ensures Legal(FirstLoaded(LOG), Local(RefreshEvent)) && WorldStep(FirstLoaded(LOG), Local(RefreshEvent)) == Asking()
  {
    LogIsValid();
    assert LOG[..1] + LOG[1..] == LOG;
    assert WorldStep(FirstLoaded(LOG), Local(RefreshEvent)).asOf == map[1 := 11];
  }

  lemma GapOpens()
    ensures Legal(Asking(), HeadPage(1)) && WorldStep(Asking(), HeadPage(1)) == CatchingUp(1, 0)
  {
    hide Reconcile, KnownIds;
    EmptyPageIsFaithful(None, 11);
    AnchorReconciled();
    assert [ANCHOR] + [] == [ANCHOR];
    assert WorldStep(Asking(), HeadPage(1)).asOf == map[1 := 11];
  }

  /** A client that loads the first row, and refreshes after ten rows that show nothing, is in that state. */
  lemma StuckIsReached() returns (events: seq<WorldEvent>)
    ensures ValidLog(LOG[..1]) && LegalRun(Outset(LOG[..1]), events) && WorldRun(Outset(LOG[..1]), events) == Stuck(2)
  {
    hide Legal, WorldStep, IsGapPage, LegalRun, WorldRun, GapPages, OpenOnStandingLog;
    NoEvents(Stuck(2));
    PagesRun(1, 0, []);
    GapOpens();
    var pages := PagesThen(1, 0, []);
    OneMore(Asking(), HeadPage(1), pages);
    LogGrows();
    var asked := [HeadPage(1)] + pages;
    OneMore(FirstLoaded(LOG), Local(RefreshEvent), asked);
    var grown := [Local(RefreshEvent)] + asked;
    OneMore(FirstLoaded(LOG[..1]), Grow(LOG[1..]), grown);
    FirstPageArrives();
    var arrived := [Grow(LOG[1..])] + grown;
    OneMore(Loading(), FIRST_PAGE, arrived);
    FirstLoadBegins();
    events := [Local(StartEvent)] + ([FIRST_PAGE] + arrived);
    OneMore(Outset(LOG[..1]), Local(StartEvent), [FIRST_PAGE] + arrived);
  }

  // ----- a new row moves the gap up once, even though it shows -----

  const NEWS := [Row(12, "z", true)]
  const ENTRY := Message("z", Text, User, 1, "", None, false, "")
  const NEWS_PAGE := Answer(2, Arrived(Page([ENTRY], Some(12))), 12)

  function Grown(w: World): World {
    w.(log := LOG + NEWS)
  }

  lemma NewsArrive()
    ensures Legal(Stuck(2), Grow(NEWS)) && WorldStep(Stuck(2), Grow(NEWS)) == Grown(Stuck(2))
  {
    forall i | 0 <= i < |LOG| ensures LOG[i].seqNo == i + 1 && (LOG[i].shown <==> i == 0) { RowsOfLog(i); }
    assert (LOG + NEWS)[11] == Row(12, "z", true);
    assert forall i :: 0 <= i < 11 ==> (LOG + NEWS)[i] == LOG[i];
    var log := LOG + NEWS;
    assert ValidLog(log) by { hide LOG; }
  }

  lemma NewsAsked()
    ensures Legal(Grown(Stuck(2)), Local(RefreshEvent))
    ensures WorldStep(Grown(Stuck(2)), Local(RefreshEvent)) == Grown(AtHead(2)).(asOf := map[2 := 12])
  {
    assert |LOG + NEWS| == 12;
    assert WorldStep(Grown(Stuck(2)), Local(RefreshEvent)).asOf == map[2 := 12];
  }

  lemma NewsPageRaises()
    ensures var w := Grown(AtHead(2)).(asOf := map[2 := 12]);
            && Legal(w, NEWS_PAGE) && w.top < |w.log| && w.store.gap.value.beforeSeq == 3
            && WorldStep(w, NEWS_PAGE).store.gap == Some(Gap(12, {"a"}, None))
  {
    hide Reconcile, KnownIds;
    var w := Grown(AtHead(2)).(asOf := map[2 := 12]);
    assert (LOG + NEWS)[11] == Row(12, "z", true);
    assert Shows(LOG + NEWS, 11, "z");
    assert Ids([ENTRY]) == {"z"};
    assert IsSeqNo(LOG + NEWS, 12, 12);
    forall i | 0 <= i < 12 ensures (LOG + NEWS)[i].seqNo == i + 1 { if i < 11 { RowsOfLog(i); } }
    assert Faithful(LOG + NEWS, 12, None, Page([ENTRY], Some(12)));
    AnchorReconciled();
  }

  /** A refresh that finds a new row above the stuck gap moves the gap up to that row, from 3 to 12. */
  lemma NewRowRaisesTheGap() returns (events: seq<WorldEvent>)
    ensures |events| == 3 && events[0] == Grow(NEWS) && events[2] == NEWS_PAGE && NEWS_PAGE.outcome.page.entries != []
    ensures LegalRun(Stuck(2), events) && Stuck(2).store.gap == Some(Gap(3, {"a"}, None))
    ensures WorldRun(Stuck(2), events).store.gap == Some(Gap(12, {"a"}, None))
  {
    hide Legal, WorldStep, IsGapPage, LegalRun, WorldRun, GapPages, OpenOnStandingLog;
    var w := Grown(AtHead(2)).(asOf := map[2 := 12]);
    NewsPageRaises();
    NoEvents(WorldStep(w, NEWS_PAGE));
    OneMore(w, NEWS_PAGE, []);
    NewsAsked();
    var asked := [NEWS_PAGE] + [];
    OneMore(Grown(Stuck(2)), Local(RefreshEvent), asked);
    NewsArrive();
    events := [Grow(NEWS)] + ([Local(RefreshEvent)] + asked);
    OneMore(Stuck(2), Grow(NEWS), [Local(RefreshEvent)] + asked);
  }
}

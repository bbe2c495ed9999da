// The transcript store against an append-only server log: no silent holes.
//
// The log is a ghost: rows with rising sequence numbers, some of which show no entry. A page answers
// a request with one contiguous run of rows, as the log stood at some moment between the request and
// the answer (source/host/extensions/session/agent-db-transcript-pages.ts). The adversary grows the
// log, orders answers and failures, disposes and restarts the store.

module TranscriptGap {
  import opened Common
  import opened Entries
  import opened TranscriptStore

  datatype Row = Row(seqNo: int, id: string, shown: bool)

  /** `top` and `anchorTop` are the log's lengths behind the newest head page and behind the
      anchors; `asOf` is the log's length when each waiting request was sent. */
  datatype World = World(store: State, log: seq<Row>, asOf: map<nat, nat>, top: nat, anchorTop: nat)

  ghost predicate ValidLog(log: seq<Row>) {
    && (forall i, j :: 0 <= i < j < |log| ==> log[i].seqNo < log[j].seqNo)
    && (forall i, j :: 0 <= i < j < |log| && log[i].shown && log[j].shown ==> log[i].id != log[j].id)
    && (forall i :: 0 <= i < |log| ==> !LocalId(log[i].id))
  }

  predicate From(cursor: Option<int>, seqNo: int) {
    cursor.Some? ==> cursor.value <= seqNo
  }

  predicate Under(before: Option<int>, seqNo: int) {
    before.Some? ==> seqNo < before.value
  }

  ghost predicate Shows(log: seq<Row>, i: int, id: string) {
    0 <= i < |log| && log[i].shown && log[i].id == id
  }

  ghost predicate IsSeqNo(log: seq<Row>, top: nat, seqNo: int) {
    exists i :: 0 <= i < top && i < |log| && log[i].seqNo == seqNo
  }

  /** `ids` are the entries shown by the rows before `at`, under `before`, down to `next`. */
  ghost predicate RunIds(log: seq<Row>, at: nat, before: Option<int>, next: Option<int>, ids: set<string>) {
    && (forall i :: 0 <= i < at && i < |log| && log[i].shown && Under(before, log[i].seqNo) && From(next, log[i].seqNo)
          ==> log[i].id in ids)
    && (forall id :: id in ids ==> exists i ::
          i < at && Shows(log, i, id) && Under(before, log[i].seqNo) && From(next, log[i].seqNo))
  }

  /** The page is the run of rows just below `before` (or ending at the head) in the first `at` rows;
      it ends at row `next`, or at the start of the log. */
  ghost predicate Faithful(log: seq<Row>, at: nat, before: Option<int>, page: Page) {
    && (forall m :: m in page.entries ==> !IsOptimistic(m))
    && RunIds(log, at, before, page.nextBeforeSeq, Ids(page.entries))
    && (page.nextBeforeSeq.Some? ==>
          IsSeqNo(log, at, page.nextBeforeSeq.value) && Under(before, page.nextBeforeSeq.value))
  }

  // ----- the invariant, on ids -----

  /** Every row before `top` from `cursor` on is loaded. */
  ghost predicate Covered(log: seq<Row>, top: nat, cursor: Option<int>, ids: set<string>) {
    forall i :: 0 <= i < top && i < |log| && log[i].shown && From(cursor, log[i].seqNo) ==> log[i].id in ids
  }

  ghost predicate Within(log: seq<Row>, top: nat, ids: set<string>) {
    forall id :: id in ids ==> exists i :: i < top && Shows(log, i, id)
  }

  ghost predicate GapHolds(log: seq<Row>, top: nat, anchorTop: nat, ids: set<string>, next: Option<int>, gap: Option<Gap>) {
    gap.Some? ==>
      && next == Some(gap.value.beforeSeq)
      && gap.value.anchorIds <= ids
      && anchorTop <= top
      && Within(log, anchorTop, gap.value.anchorIds)
      && Covered(log, anchorTop, gap.value.olderCursor, gap.value.anchorIds)
      && (gap.value.olderCursor.Some? ==> IsSeqNo(log, top, gap.value.olderCursor.value))
  }

  ghost predicate NoHoles(log: seq<Row>, top: nat, anchorTop: nat, ids: set<string>, next: Option<int>, gap: Option<Gap>) {
    && ValidLog(log)
    && top <= |log|
    && Within(log, top, ids)
    && Covered(log, top, next, ids)
    && (next.Some? ==> IsSeqNo(log, top, next.value))
    && GapHolds(log, top, anchorTop, ids, next, gap)
  }

  /** Two runs that share an entry leave nothing out between them. */
  lemma SharedEntryJoins(log: seq<Row>, lower: nat, cursor: Option<int>, ids: set<string>,
                         at: nat, before: Option<int>, next: Option<int>, page: set<string>, id: string, i: nat)
    requires ValidLog(log)
    requires Within(log, lower, ids) && Covered(log, lower, cursor, ids)
    requires RunIds(log, at, before, next, page)
    requires id in ids && id in page
    requires i < at && i < |log| && log[i].shown && Under(before, log[i].seqNo) && From(cursor, log[i].seqNo)
    ensures log[i].id in ids + page
  {
    var j :| j < lower && Shows(log, j, id);
    var k :| k < at && Shows(log, k, id) && Under(before, log[k].seqNo) && From(next, log[k].seqNo);
    assert j == k;
    if !From(next, log[i].seqNo) {
      assert i < j;
    }
  }

  /** The three cases of a head page: it starts over, it touches what is loaded, or it opens or moves
      a gap. */
  lemma HeadPageLeavesNoHole(log: seq<Row>, top: nat, anchorTop: nat, ids: set<string>,
                             cursor: Option<int>, gap: Option<Gap>, at: nat, next: Option<int>, page: set<string>)
    requires NoHoles(log, top, anchorTop, ids, cursor, gap) && top <= at <= |log|
    requires RunIds(log, at, None, next, page)
    requires next.Some? ==> IsSeqNo(log, at, next.value)
    ensures ids == {} || next.None? ==> NoHoles(log, at, anchorTop, ids + page, next, None)
    ensures page * ids != {} ==> NoHoles(log, at, anchorTop, ids + page, cursor, gap)
    ensures next.Some? && gap.None? ==> NoHoles(log, at, top, ids + page, next, Some(Gap(next.value, ids, cursor)))
    ensures next.Some? && gap.Some? ==>
              NoHoles(log, at, anchorTop, ids + page, next, Some(gap.value.(beforeSeq := next.value)))
  {
    assert Within(log, at, ids + page);
    assert Covered(log, at, next, ids + page);
    assert cursor.Some? ==> IsSeqNo(log, at, cursor.value);
    assert gap.Some? && gap.value.olderCursor.Some? ==> IsSeqNo(log, at, gap.value.olderCursor.value);
    if page * ids != {} {
      var id :| id in page * ids;
      forall i | 0 <= i < at && i < |log| && log[i].shown && From(cursor, log[i].seqNo)
        ensures log[i].id in ids + page
      {
        SharedEntryJoins(log, top, cursor, ids, at, None, next, page, id, i);
      }
      assert Covered(log, at, cursor, ids + page);
    }
  }

  /** Rows under the sequence number of a row before `top` are before `top` themselves. */
  lemma RunStaysWithin(log: seq<Row>, top: nat, at: nat, before: int, next: Option<int>, page: set<string>)
    requires ValidLog(log) && top <= at && IsSeqNo(log, top, before)
    requires RunIds(log, at, Some(before), next, page)
    ensures Within(log, top, page)
  {
    var b :| 0 <= b < top && b < |log| && log[b].seqNo == before;
    hide IsSeqNo;
    forall id | id in page ensures exists i :: i < top && Shows(log, i, id) {
      var i :| i < at && Shows(log, i, id) && Under(Some(before), log[i].seqNo) && From(next, log[i].seqNo);
      assert i < b;
    }
  }

  lemma CursorStaysWithin(log: seq<Row>, top: nat, at: nat, before: int, next: int)
    requires ValidLog(log) && IsSeqNo(log, top, before) && IsSeqNo(log, at, next) && next < before
    ensures IsSeqNo(log, top, next)
  {
    var b :| 0 <= b < top && b < |log| && log[b].seqNo == before;
    var i :| 0 <= i < at && i < |log| && log[i].seqNo == next;
    assert i < b;
  }

  /** A page below the cursor, with no gap or with a gap it does not close, moves the cursor down. */
  lemma OlderPageLeavesNoHole(log: seq<Row>, top: nat, anchorTop: nat, ids: set<string>, before: int, gap: Option<Gap>,
                              at: nat, next: Option<int>, page: set<string>)
    requires NoHoles(log, top, anchorTop, ids, Some(before), gap) && top <= at <= |log|
    requires RunIds(log, at, Some(before), next, page)
    requires next.Some? ==> IsSeqNo(log, at, next.value) && next.value < before
    ensures NoHoles(log, top, anchorTop, ids + page, next, None)
    ensures next.Some? && gap.Some? ==>
              NoHoles(log, top, anchorTop, ids + page, next, Some(gap.value.(beforeSeq := next.value)))
  {
    RunStaysWithin(log, top, at, before, next, page);
    if next.Some? { CursorStaysWithin(log, top, at, before, next.value); }
    assert Within(log, top, ids + page);
    assert Covered(log, top, next, ids + page);
  }

  /** A gap page that shows an anchor joins the head segment to the anchors. */
  lemma AnchorPageClosesGap(log: seq<Row>, top: nat, anchorTop: nat, ids: set<string>, gap: Gap,
                            at: nat, next: Option<int>, page: set<string>)
    requires NoHoles(log, top, anchorTop, ids, Some(gap.beforeSeq), Some(gap)) && top <= at <= |log|
    requires RunIds(log, at, Some(gap.beforeSeq), next, page)
    requires page * gap.anchorIds != {}
    ensures NoHoles(log, top, anchorTop, ids + page, gap.olderCursor, None)
  {
    RunStaysWithin(log, top, at, gap.beforeSeq, next, page);
    var id :| id in page * gap.anchorIds;
    forall i | 0 <= i < top && i < |log| && log[i].shown && From(gap.olderCursor, log[i].seqNo)
      ensures log[i].id in ids + page
    {
      if log[i].seqNo < gap.beforeSeq {
        SharedEntryJoins(log, anchorTop, gap.olderCursor, gap.anchorIds, at, Some(gap.beforeSeq), next, page, id, i);
      }
    }
    assert Covered(log, top, gap.olderCursor, ids + page);
    assert Within(log, top, ids + page);
  }

  /** More rows at the end disturb nothing. */
  lemma GrowthLeavesNoHole(log: seq<Row>, rows: seq<Row>, top: nat, anchorTop: nat, ids: set<string>,
                           next: Option<int>, gap: Option<Gap>)
    requires NoHoles(log, top, anchorTop, ids, next, gap) && ValidLog(log + rows)
    ensures NoHoles(log + rows, top, anchorTop, ids, next, gap)
  {
    var grown := log + rows;
    assert forall i :: 0 <= i < |log| ==> grown[i] == log[i];
    assert forall i, id :: Shows(log, i, id) ==> Shows(grown, i, id);
    assert forall n :: IsSeqNo(log, top, n) ==> IsSeqNo(grown, top, n);
  }

  // ----- worlds -----

  datatype WorldEvent =
    | Grow(rows: seq<Row>)
    | Local(event: Event)
    | Answer(id: nat, outcome: Outcome, at: nat)

  function BeforeOf(load: Load): Option<int> {
    match load
    case FirstPage(_, _, before) => before
    case CatchUp(_, gapBefore) => Some(gapBefore)
  }

  /** What the adversary may do. The screen adds and removes only local echoes. */
  ghost predicate Legal(w: World, e: WorldEvent) {
    match e
    case Grow(rows) => ValidLog(w.log + rows)
    case Local(event) =>
      && !event.ResumeEvent?
      && (event.UpdateEvent? ==>
            Hygienic(event.entries) && KnownIds(event.entries) == KnownIds(w.store.snapshot.entries))
    case Answer(id, outcome, at) =>
      && id in w.store.loads && id in w.asOf
      && w.asOf[id] <= at <= |w.log|
      && (outcome.Arrived? ==> Faithful(w.log, at, BeforeOf(w.store.loads[id]), outcome.page))
  }

  ghost predicate IsHeadPage(w: World, e: WorldEvent) {
    && e.Answer? && e.outcome.Arrived? && w.store.active == Some(e.id) && e.id in w.store.loads
    && w.store.loads[e.id].FirstPage? && !w.store.loads[e.id].older
  }

  /** Requests sent by a step see the log as it is then; loads that keep waiting keep their moment. */
  ghost function StepStore(w: World, store: State): World {
    w.(store := store,
       asOf := map id | id in store.loads ::
         if id in w.store.loads && id in w.asOf && w.store.loads[id] == store.loads[id] then w.asOf[id] else |w.log|)
  }

  ghost function WorldStep(w: World, e: WorldEvent): World
    requires Legal(w, e)
  {
    match e
    case Grow(rows) => w.(log := w.log + rows)
    case Local(event) => StepStore(w, Step(w.store, event))
    case Answer(id, outcome, at) =>
      var next := StepStore(w, Resume(w.store, id, outcome));
      if IsHeadPage(w, e) then
        next.(top := at,
              anchorTop := if w.store.gap.None? then w.top else w.anchorTop)
      else next
  }

  function Loaded(s: State): set<string> {
    KnownIds(s.snapshot.entries)
  }

  /** The owner's request still fits the store's cursors. */
  predicate RequestFits(s: State, load: Load) {
    match load
    case FirstPage(older, initial, before) =>
      && initial == !s.initialized
      && (older ==> before.Some? && before == s.snapshot.nextBeforeSeq)
      && (!older ==> before.None?)
    case CatchUp(_, gapBefore) => s.gap.Some? && s.gap.value.beforeSeq == gapBefore
  }

  ghost predicate StoreHolds(s: State, log: seq<Row>, top: nat, anchorTop: nat) {
    && Hygienic(s.snapshot.entries)
    && NoHoles(log, top, anchorTop, Loaded(s), s.snapshot.nextBeforeSeq, s.gap)
    && (!s.initialized ==> Loaded(s) == {} && s.gap.None?)
  }

  ghost predicate Inv(w: World) {
    && Owned(w.store)
    && StoreHolds(w.store, w.log, w.top, w.anchorTop)
    && w.asOf.Keys == w.store.loads.Keys
    && (w.store.active.Some? ==>
          && RequestFits(w.store, w.store.loads[w.store.active.value])
          && w.top <= w.asOf[w.store.active.value] <= |w.log|)
  }

  // ----- steps of the store keep StoreHolds -----

  lemma MergedIds(a: seq<Message>, b: seq<Message>)
    requires Hygienic(a) && Hygienic(b)
    ensures Hygienic(Reconcile(a + b))
    ensures KnownIds(Reconcile(a + b)) == KnownIds(a) + KnownIds(b)
  {
    assert forall m :: m in a + b <==> m in a || m in b;
    ReconcileKeepsKnown(a + b);
  }

  lemma PageIds(log: seq<Row>, at: nat, before: Option<int>, page: Page)
    requires ValidLog(log) && Faithful(log, at, before, page)
    ensures Hygienic(page.entries)
    ensures KnownIds(page.entries) == Ids(page.entries)
    ensures forall ids :: Overlaps(page, ids) <==> Ids(page.entries) * ids != {}
  {
    forall m | m in page.entries ensures !LocalId(m.id) {
      assert m.id in Ids(page.entries);
      var i :| i < at && Shows(log, i, m.id) && Under(before, log[i].seqNo) && From(page.nextBeforeSeq, log[i].seqNo);
    }
    forall ids ensures Overlaps(page, ids) <==> Ids(page.entries) * ids != {} {
      if Overlaps(page, ids) {
        var m :| m in page.entries && m.id in ids;
        assert m.id in Ids(page.entries) * ids;
      }
      if Ids(page.entries) * ids != {} {
        var id :| id in Ids(page.entries) * ids;
        var m :| m in page.entries && m.id == id;
      }
    }
  }

  lemma HeadPageKeeps(s: State, initial: bool, log: seq<Row>, top: nat, anchorTop: nat, at: nat, page: Page)
    requires StoreHolds(s, log, top, anchorTop) && initial == !s.initialized && !s.disposed
    requires top <= at <= |log| && Faithful(log, at, None, page)
    ensures var after := ApplyHeadPage(s, initial, page);
            && Hygienic(after.snapshot.entries)
            && Loaded(after) == Loaded(s) + Ids(page.entries)
            && NoHoles(log, at, if s.gap.None? then top else anchorTop, Loaded(after), after.snapshot.nextBeforeSeq, after.gap)
  {
    PageIds(log, at, None, page);
    MergedIds(s.snapshot.entries, page.entries);
    HeadPageLeavesNoHole(log, top, anchorTop, Loaded(s), s.snapshot.nextBeforeSeq, s.gap,
                         at, page.nextBeforeSeq, Ids(page.entries));
  }

  lemma OlderPageKeeps(s: State, log: seq<Row>, top: nat, anchorTop: nat, at: nat, page: Page)
    requires StoreHolds(s, log, top, anchorTop) && !s.disposed && s.gap.None?
    requires s.snapshot.nextBeforeSeq.Some?
    requires top <= at <= |log| && Faithful(log, at, s.snapshot.nextBeforeSeq, page)
    ensures var after := ApplyOlderPage(s, page).(initialized := true); StoreHolds(after, log, top, anchorTop)
  {
    PageIds(log, at, s.snapshot.nextBeforeSeq, page);
    MergedIds(page.entries, s.snapshot.entries);
    OlderPageLeavesNoHole(log, top, anchorTop, Loaded(s), s.snapshot.nextBeforeSeq.value, None,
                          at, page.nextBeforeSeq, Ids(page.entries));
  }

  /** A faithful gap page is never refused. */
  lemma GapPageKeeps(s: State, log: seq<Row>, top: nat, anchorTop: nat, at: nat, page: Page)
    requires StoreHolds(s, log, top, anchorTop) && !s.disposed && s.gap.Some?
    requires top <= at <= |log| && Faithful(log, at, Some(s.gap.value.beforeSeq), page)
    ensures ApplyGapPage(s, page).Some?
    ensures var after := ApplyGapPage(s, page).value.(initialized := true);
            && StoreHolds(after, log, top, anchorTop)
            && (after.gap.Some? ==> after.gap.value.beforeSeq < s.gap.value.beforeSeq)
  {
    var gap, ids, shown := s.gap.value, Loaded(s), Ids(page.entries);
    PageIds(log, at, Some(gap.beforeSeq), page);
    GapPageIds(s, page);
    if Overlaps(page, gap.anchorIds) {
      AnchorPageClosesGap(log, top, anchorTop, ids, gap, at, page.nextBeforeSeq, shown);
      OlderPageLeavesNoHole(log, top, anchorTop, ids, gap.beforeSeq, s.gap, at, page.nextBeforeSeq, shown);
    } else {
      OlderPageLeavesNoHole(log, top, anchorTop, ids, gap.beforeSeq, s.gap, at, page.nextBeforeSeq, shown);
    }
  }

  lemma GapPageIds(s: State, page: Page)
    requires Hygienic(s.snapshot.entries) && Hygienic(page.entries) && s.gap.Some?
    ensures var merged := MergeGapPage(page, s.snapshot.entries, s.gap.value.anchorIds);
            && Hygienic(merged)
            && KnownIds(merged) == Loaded(s) + KnownIds(page.entries)
  {
    var tail := OnlyAnchors(page.entries, s.gap.value.anchorIds);
    forall m: Message ensures m in tail ==> m in page.entries {
      OnlyAnchorsMeaning(page.entries, s.gap.value.anchorIds, m);
    }
    assert forall m :: m in page.entries + s.snapshot.entries <==> m in page.entries || m in s.snapshot.entries;
    MergedIds(page.entries + s.snapshot.entries, tail);
  }

  // ----- steps of the world keep Inv -----

  ghost predicate Fits(s: State) {
    s.active.Some? ==> s.active.value in s.loads && RequestFits(s, s.loads[s.active.value])
  }

  lemma BeginKeeps(s: State, older: bool, log: seq<Row>, top: nat, anchorTop: nat)
    requires StoreHolds(s, log, top, anchorTop) && !s.disposed
    requires older ==> s.snapshot.nextBeforeSeq.Some?
    ensures StoreHolds(BeginLoad(s, older), log, top, anchorTop) && Fits(BeginLoad(s, older))
  {
  }

  lemma SettleKeeps(s: State, id: nat, log: seq<Row>, top: nat, anchorTop: nat)
    requires StoreHolds(s, log, top, anchorTop)
    requires s.active == Some(id) || Fits(s)
    ensures StoreHolds(Settle(s, id), log, top, anchorTop) && Fits(Settle(s, id))
  {
    if s.active == Some(id) {
      var done := Publish(s.(active := None), s.snapshot.(loading := false, loadingOlder := false));
      assert StoreHolds(done, log, top, anchorTop);
      if done.queuedRefresh && !done.disposed { BeginKeeps(done.(queuedRefresh := false), false, log, top, anchorTop); }
    }
  }

  lemma ThrowKeeps(s: State, id: nat, message: string, log: seq<Row>, top: nat, anchorTop: nat)
    requires StoreHolds(s, log, top, anchorTop)
    requires s.active == Some(id) || Fits(s)
    ensures StoreHolds(Throw(s, id, message), log, top, anchorTop) && Fits(Throw(s, id, message))
  {
    var published := if !s.disposed && s.active == Some(id) then Publish(s, s.snapshot.(error := message)) else s;
    assert StoreHolds(published, log, top, anchorTop);
    SettleKeeps(published, id, log, top, anchorTop);
  }

  /** The owner goes on with a page applied; the store counts as initialized from here on. */
  lemma ContinueKeeps(s: State, id: nat, pageIndex: nat, log: seq<Row>, top: nat, anchorTop: nat)
    requires StoreHolds(s.(initialized := true), log, top, anchorTop) && s.active == Some(id)
    requires s.gap.Some? ==> s.initialized
    ensures StoreHolds(Continue(s, id, pageIndex), log, top, anchorTop) && Fits(Continue(s, id, pageIndex))
  {
    if !(s.gap.Some? && pageIndex < MAX_REFRESH_CATCHUP_PAGES) {
      SettleKeeps(s.(initialized := true), id, log, top, anchorTop);
    }
  }

  /** The owner `id` gets its page: with `top` moved for a head page, nothing is left out. */
  lemma ReceiveKeeps(s: State, id: nat, load: Load, page: Page, log: seq<Row>, top: nat, anchorTop: nat, at: nat)
    requires StoreHolds(s, log, top, anchorTop) && s.active == Some(id) && !s.disposed
    requires RequestFits(s, load) && top <= at <= |log| && Faithful(log, at, BeforeOf(load), page)
    ensures var after := Receive(s, id, load, page);
            var head := load.FirstPage? && !load.older;
            && Fits(after)
            && StoreHolds(after, log, if head then at else top, if head && s.gap.None? then top else anchorTop)
  {
    match load {
      case FirstPage(true, _, _) =>
        if s.gap.None? {
          OlderPageKeeps(s, log, top, anchorTop, at, page);
          SettleKeeps(ApplyOlderPage(s, page).(initialized := true), id, log, top, anchorTop);
        } else {
          GapPageKeeps(s, log, top, anchorTop, at, page);
          SettleKeeps(ApplyGapPage(s, page).value.(initialized := true), id, log, top, anchorTop);
        }
      case FirstPage(false, initial, _) =>
        HeadPageKeeps(s, initial, log, top, anchorTop, at, page);
        ContinueKeeps(ApplyHeadPage(s, initial, page), id, 0, log, at, if s.gap.None? then top else anchorTop);
      case CatchUp(pageIndex, _) =>
        GapPageKeeps(s, log, top, anchorTop, at, page);
        assert s.initialized;
        ContinueKeeps(ApplyGapPage(s, page).value, id, pageIndex + 1, log, top, anchorTop);
    }
  }

  lemma AnswerKeepsInv(w: World, id: nat, outcome: Outcome, at: nat)
    requires Inv(w) && Legal(w, Answer(id, outcome, at))
    ensures Inv(WorldStep(w, Answer(id, outcome, at)))
  {
    hide NoHoles, Hygienic, KnownIds, Faithful, Throw, Receive;
    var s, after := w.store, Resume(w.store, id, outcome);
    var woken := s.(loads := s.loads - {id});
    if s.active != Some(id) {
      SupersededLoadIsIgnored(s, id, outcome);
    } else {
      ActiveLoadEnds(s, id, outcome);
      assert StoreHolds(woken, w.log, w.top, w.anchorTop);
      if outcome.Failed? {
        ThrowKeeps(woken, id, outcome.message, w.log, w.top, w.anchorTop);
      } else {
        ReceiveKeeps(woken, id, s.loads[id], outcome.page, w.log, w.top, w.anchorTop, at);
      }
      OwnerAsksAnew(w, id, outcome, after);
    }
  }

  /** Whoever owns the store after the owner's answer has sent its request just now. */
  lemma OwnerAsksAnew(w: World, id: nat, outcome: Outcome, after: State)
    requires Owned(w.store) && id in w.store.loads && w.store.active == Some(id)
    requires Progressed(w.store, id, w.store.loads[id], after)
    ensures after.active.Some? ==> StepStore(w, after).asOf[after.active.value] == |w.log|
  {
  }

  lemma LocalKeepsInv(w: World, event: Event)
    requires Inv(w) && Legal(w, Local(event))
    ensures Inv(WorldStep(w, Local(event)))
  {
    var s := w.store;
    StepKeepsOwned(s, event);
    match event {
      case StartEvent =>
        if s.active.None? { BeginKeeps(s.(disposed := false), false, w.log, w.top, w.anchorTop); }
      case DisposeEvent =>
      case RefreshEvent =>
        if !s.disposed && s.active.None? { BeginKeeps(s, false, w.log, w.top, w.anchorTop); }
      case LoadOlderEvent =>
        if !(s.disposed || s.active.Some? || s.snapshot.nextBeforeSeq.None?) {
          BeginKeeps(s, true, w.log, w.top, w.anchorTop);
        }
      case UpdateEvent(entries) => ReconcileKeepsKnown(entries);
    }
  }

  lemma WorldStepKeepsInv(w: World, e: WorldEvent)
    requires Inv(w) && Legal(w, e)
    ensures Inv(WorldStep(w, e))
  {
    match e {
      case Grow(rows) =>
        GrowthLeavesNoHole(w.log, rows, w.top, w.anchorTop, Loaded(w.store), w.store.snapshot.nextBeforeSeq, w.store.gap);
      case Local(event) => LocalKeepsInv(w, event);
      case Answer(id, outcome, at) => AnswerKeepsInv(w, id, outcome, at);
    }
  }

  // ----- the theorem -----

  ghost predicate LegalRun(w: World, events: seq<WorldEvent>)
    decreases |events|
  {
    events != [] ==> Legal(w, events[0]) && LegalRun(WorldStep(w, events[0]), events[1..])
  }

  ghost function WorldRun(w: World, events: seq<WorldEvent>): World
    requires LegalRun(w, events)
    decreases |events|
  {
    if events == [] then w else WorldRun(WorldStep(w, events[0]), events[1..])
  }

  lemma {:induction false} WorldRunKeepsInv(w: World, events: seq<WorldEvent>)
    requires Inv(w) && LegalRun(w, events)
    ensures Inv(WorldRun(w, events))
    decreases |events|
  {
    if events != [] {
      WorldStepKeepsInv(w, events[0]);
      WorldRunKeepsInv(WorldStep(w, events[0]), events[1..]);
    }
  }

  /** No row from `cursor` on is missing below a row that is there. */
  ghost predicate NoHoleFrom(log: seq<Row>, cursor: Option<int>, ids: set<string>) {
    forall i, j :: 0 <= i < j < |log| && log[i].shown && log[j].shown && From(cursor, log[i].seqNo) && log[j].id in ids
      ==> log[i].id in ids
  }

  ghost function Outset(log: seq<Row>): World {
    World(Initial, log, map[], 0, 0)
  }

  lemma CoveredHasNoHole(log: seq<Row>, top: nat, cursor: Option<int>, ids: set<string>)
    requires ValidLog(log) && Within(log, top, ids) && Covered(log, top, cursor, ids)
    ensures NoHoleFrom(log, cursor, ids)
  {
    forall i, j | 0 <= i < j < |log| && log[i].shown && log[j].shown && From(cursor, log[i].seqNo) && log[j].id in ids
      ensures log[i].id in ids
    {
      var k :| k < top && Shows(log, k, log[j].id);
      assert k == j;
    }
  }

  /** No silent holes, in every run: without a gap the loaded rows are contiguous from the older
      cursor up; with a gap open the cursor is the gap's, the head segment above it is contiguous, and
      so is the anchor segment above the saved older cursor, all of it still loaded. */
  lemma NoSilentHoles(log: seq<Row>, events: seq<WorldEvent>)
    requires ValidLog(log) && LegalRun(Outset(log), events)
    ensures var w := WorldRun(Outset(log), events);
            var s := w.store;
            && NoHoleFrom(w.log, s.snapshot.nextBeforeSeq, Loaded(s))
            && (s.gap.Some? ==>
                  && s.snapshot.nextBeforeSeq == Some(s.gap.value.beforeSeq)
                  && s.gap.value.anchorIds <= Loaded(s)
                  && NoHoleFrom(w.log, s.gap.value.olderCursor, s.gap.value.anchorIds))
            && (forall id :: id in Loaded(s) ==> exists i :: Shows(w.log, i, id))
  {
    assert Inv(Outset(log));
    WorldRunKeepsInv(Outset(log), events);
    var w := WorldRun(Outset(log), events);
    var s := w.store;
    CoveredHasNoHole(w.log, w.top, s.snapshot.nextBeforeSeq, Loaded(s));
    if s.gap.Some? {
      CoveredHasNoHole(w.log, w.anchorTop, s.gap.value.olderCursor, s.gap.value.anchorIds);
    }
  }

  // ----- on a log that stands still, catching up closes the gap -----

  function RowsBelow(log: seq<Row>, seqNo: int): nat {
    if log == [] then 0
    else RowsBelow(log[..|log| - 1], seqNo) + if log[|log| - 1].seqNo < seqNo then 1 else 0
  }

  lemma {:induction false} FewerRowsBelow(log: seq<Row>, low: int, high: int, k: nat)
    requires low < high && k < |log| && log[k].seqNo == low
    ensures RowsBelow(log, low) < RowsBelow(log, high)
  {
    if k < |log| - 1 {
      FewerRowsBelow(log[..|log| - 1], low, high, k);
    } else {
      NoMoreRowsBelow(log[..|log| - 1], low, high);
    }
  }

  lemma {:induction false} NoMoreRowsBelow(log: seq<Row>, low: int, high: int)
    requires low <= high
    ensures RowsBelow(log, low) <= RowsBelow(log, high)
  {
    if log != [] { NoMoreRowsBelow(log[..|log| - 1], low, high); }
  }

  ghost predicate IsGapPage(w: World, e: WorldEvent) {
    && e.Answer? && e.outcome.Arrived? && w.store.active == Some(e.id) && e.id in w.store.loads
    && w.store.gap.Some? && !IsHeadPage(w, e)
  }

  /** The log stands still, and once a head page of the whole log has arrived, a head page that comes
      while a gap is open shows an entry or starts no higher than the gap. */
  ghost predicate Quiet(w: World, e: WorldEvent) {
    && !e.Grow?
    && (IsHeadPage(w, e) && w.store.gap.Some? && w.top == |w.log| ==>
          var page := e.outcome.page;
          || page.entries != []
          || page.nextBeforeSeq.None?
          || page.nextBeforeSeq.value <= w.store.gap.value.beforeSeq)
  }

  /** The page shows an entry of a row that an earlier head page had behind it. */
  ghost predicate ShowsOld(log: seq<Row>, top: nat, page: Page) {
    exists i :: 0 <= i < top && i < |log| && log[i].shown && log[i].id in Ids(page.entries)
  }

  /** What a head page does to an open gap, whatever the log has grown by since the last one: the cursor
      stays or falls exactly when the page starts no higher than the cursor or shows an old entry. */
  lemma HeadPageMovesGap(s: State, log: seq<Row>, top: nat, anchorTop: nat, at: nat, page: Page)
    requires StoreHolds(s, log, top, anchorTop) && s.gap.Some? && top <= at <= |log|
    requires Faithful(log, at, None, page)
    ensures var after := ApplyHeadPage(s, false, page);
            after.gap.Some? ==>
              && page.nextBeforeSeq.Some?
              && (after.gap.value.beforeSeq <= s.gap.value.beforeSeq <==>
                    page.nextBeforeSeq.value <= s.gap.value.beforeSeq || ShowsOld(log, top, page))
  {
    PageIds(log, at, None, page);
    var after, high := ApplyHeadPage(s, false, page), s.gap.value.beforeSeq;
    if after.gap.Some? && page.nextBeforeSeq.value > high {
      if Overlaps(page, Loaded(s)) {
        var m :| m in page.entries && m.id in Loaded(s);
        var i :| i < top && Shows(log, i, m.id);
        assert log[i].id in Ids(page.entries);
      }
      if ShowsOld(log, top, page) { OldEntryOverlaps(s, log, top, anchorTop, at, page); }
    }
  }

  lemma OldEntryOverlaps(s: State, log: seq<Row>, top: nat, anchorTop: nat, at: nat, page: Page)
    requires StoreHolds(s, log, top, anchorTop) && s.gap.Some? && top <= at <= |log|
    requires Faithful(log, at, None, page) && ShowsOld(log, top, page)
    requires page.nextBeforeSeq.Some? && page.nextBeforeSeq.value > s.gap.value.beforeSeq
    ensures Overlaps(page, Loaded(s))
  {
    var i :| 0 <= i < top && i < |log| && log[i].shown && log[i].id in Ids(page.entries);
    var m :| m in page.entries && m.id == log[i].id;
    var k :| k < at && Shows(log, k, m.id) && Under(None, log[k].seqNo) && From(page.nextBeforeSeq, log[k].seqNo);
    assert k == i;
    assert m.id in Loaded(s);
  }

  /** Once a head page of the whole log has arrived, a head page leaves the gap's cursor where it is or
      lower exactly when it shows an entry or starts no higher than the cursor. A head page whose rows
      show nothing starts the catch-up over from the head. */
  lemma HeadPageRaisesGapOnlyWhenEmpty(s: State, log: seq<Row>, top: nat, anchorTop: nat, page: Page)
    requires StoreHolds(s, log, top, anchorTop) && s.gap.Some? && top == |log|
    requires Faithful(log, top, None, page)
    ensures var after := ApplyHeadPage(s, false, page);
            after.gap.Some? ==>
              (after.gap.value.beforeSeq <= s.gap.value.beforeSeq <==>
                 page.entries != [] || page.nextBeforeSeq.value <= s.gap.value.beforeSeq)
  {
    HeadPageMovesGap(s, log, top, anchorTop, top, page);
    if page.entries != [] {
      var id := page.entries[0].id;
      assert id in Ids(page.entries);
      var i :| i < top && Shows(log, i, id) && Under(None, log[i].seqNo) && From(page.nextBeforeSeq, log[i].seqNo);
      assert ShowsOld(log, top, page);
    }
  }

  lemma GapAfterAnswer(s: State, id: nat, page: Page)
    requires Owned(s) && id in s.loads && s.active == Some(id) && s.gap.Some?
    ensures var after := Resume(s, id, Arrived(page)); var load := s.loads[id];
            if load.FirstPage? && !load.older then after.gap == ApplyHeadPage(s, load.initial, page).gap
            else if ApplyGapPage(s, page).Some? then after.gap == ApplyGapPage(s, page).value.gap
            else after.gap == s.gap
  {
  }

  lemma QuietStepLowersGap(w: World, e: WorldEvent)
    requires Inv(w) && Legal(w, e) && Quiet(w, e) && w.top == |w.log| && w.store.gap.Some?
    ensures var w' := WorldStep(w, e);
            && w'.log == w.log && w'.top == |w'.log|
            && (w'.store.gap.Some? ==>
                  RowsBelow(w.log, w'.store.gap.value.beforeSeq) + (if IsGapPage(w, e) then 1 else 0)
                    <= RowsBelow(w.log, w.store.gap.value.beforeSeq))
  {
    var s := w.store;
    if e.Answer? && s.active == Some(e.id) && e.outcome.Arrived? {
      var page, load, high := e.outcome.page, s.loads[e.id], s.gap.value.beforeSeq;
      GapAfterAnswer(s, e.id, page);
      if load.FirstPage? && !load.older {
        HeadPageRaisesGapOnlyWhenEmpty(s, w.log, w.top, w.anchorTop, page);
        var after := ApplyHeadPage(s, load.initial, page);
        if after.gap.Some? { NoMoreRowsBelow(w.log, after.gap.value.beforeSeq, high); }
      } else {
        GapPageKeeps(s, w.log, w.top, w.anchorTop, e.at, page);
        var after := ApplyGapPage(s, page).value;
        if after.gap.Some? {
          var k :| 0 <= k < w.top && k < |w.log| && w.log[k].seqNo == after.gap.value.beforeSeq;
          FewerRowsBelow(w.log, after.gap.value.beforeSeq, high, k);
        }
      }
    }
  }

  /** The owner waits for a head page of a log that has grown since it asked. */
  ghost predicate AskedEarlier(w: World) {
    && w.store.active.Some? && w.store.active.value in w.store.loads && w.store.active.value in w.asOf
    && w.store.loads[w.store.active.value].FirstPage? && !w.store.loads[w.store.active.value].older
    && w.asOf[w.store.active.value] < |w.log|
  }

  /** By how many rows head pages may still raise the gap: not at all once one of the whole log has
      arrived; before that once, or twice if the owner asked before the log last grew. */
  ghost function Slack(w: World): nat {
    if w.top == |w.log| then 0 else if AskedEarlier(w) then 2 * |w.log| else |w.log|
  }

  lemma {:induction false} RowsBelowBound(log: seq<Row>, seqNo: int)
    ensures RowsBelow(log, seqNo) <= |log|
  {
    if log != [] { RowsBelowBound(log[..|log| - 1], seqNo); }
  }

  ghost predicate Lowers(w: World, w': World, pages: nat) {
    && w'.log == w.log
    && (w.store.gap.Some? && w'.store.gap.Some? ==>
          pages + RowsBelow(w.log, w'.store.gap.value.beforeSeq) + Slack(w')
            <= RowsBelow(w.log, w.store.gap.value.beforeSeq) + Slack(w))
  }

  lemma LocalKeepsSlack(w: World, event: Event)
    requires Inv(w) && Legal(w, Local(event)) && w.store.gap.Some?
    ensures Lowers(w, WorldStep(w, Local(event)), 0)
  {
    hide NoHoles, Hygienic, KnownIds, RowsBelow, Reconcile;
    StepKeepsOwned(w.store, event);
    var w' := WorldStep(w, Local(event));
    assert w'.store.gap == w.store.gap && w'.top == w.top;
    assert AskedEarlier(w') ==> AskedEarlier(w);
  }

  lemma SupersededKeepsSlack(w: World, e: WorldEvent)
    requires Inv(w) && Legal(w, e) && e.Answer? && w.store.active != Some(e.id)
    ensures Lowers(w, WorldStep(w, e), 0)
  {
    hide NoHoles, Hygienic, KnownIds, RowsBelow, Faithful, Resume;
    SupersededLoadIsIgnored(w.store, e.id, e.outcome);
    var w' := WorldStep(w, e);
    assert AskedEarlier(w') ==> AskedEarlier(w);
  }

  /** After its answer the owner, or whoever follows it, waits for the log as it is. */
  lemma OwnerIsUpToDate(w: World, e: WorldEvent)
    requires Inv(w) && Legal(w, e) && e.Answer? && w.store.active == Some(e.id)
    ensures !AskedEarlier(WorldStep(w, e))
    ensures WorldStep(w, e).top == if IsHeadPage(w, e) then e.at else w.top
  {
    hide NoHoles, Hygienic, KnownIds, Faithful, Resume;
    ActiveLoadEnds(w.store, e.id, e.outcome);
    OwnerAsksAnew(w, e.id, e.outcome, Resume(w.store, e.id, e.outcome));
  }

  lemma GapPageLowers(w: World, e: WorldEvent)
    requires Inv(w) && Legal(w, e) && IsGapPage(w, e)
    ensures var w' := WorldStep(w, e);
            w'.log == w.log
            && (w'.store.gap.Some? ==>
                  RowsBelow(w.log, w'.store.gap.value.beforeSeq) < RowsBelow(w.log, w.store.gap.value.beforeSeq))
  {
    var s, page := w.store, e.outcome.page;
    GapAfterAnswer(s, e.id, page);
    GapPageKeeps(s, w.log, w.top, w.anchorTop, e.at, page);
    var after := ApplyGapPage(s, page).value;
    if after.gap.Some? {
      var k :| 0 <= k < w.top && k < |w.log| && w.log[k].seqNo == after.gap.value.beforeSeq;
      FewerRowsBelow(w.log, after.gap.value.beforeSeq, s.gap.value.beforeSeq, k);
    }
  }

  lemma FailureLeavesGap(w: World, e: WorldEvent)
    requires Inv(w) && Legal(w, e) && e.Answer? && e.outcome.Failed?
    ensures WorldStep(w, e).store.gap == w.store.gap && WorldStep(w, e).log == w.log
  {
    hide NoHoles, Hygienic, KnownIds;
  }

  /** On a log that stands still but was not seen whole yet, the rows below the gap and the slack only
      fall together. */
  lemma UnseenStepLowers(w: World, e: WorldEvent)
    requires Inv(w) && Legal(w, e) && !e.Grow? && w.top < |w.log| && w.store.gap.Some?
    ensures Lowers(w, WorldStep(w, e), if IsGapPage(w, e) then 1 else 0)
  {
    hide Inv, Legal, WorldStep, RowsBelow, AskedEarlier;
    var w' := WorldStep(w, e);
    if e.Local? {
      LocalKeepsSlack(w, e.event);
    } else if w.store.active != Some(e.id) {
      SupersededKeepsSlack(w, e);
    } else {
      OwnerIsUpToDate(w, e);
      OwnerWaits(w, e);
      if e.outcome.Failed? {
        FailureLeavesGap(w, e);
      } else if IsHeadPage(w, e) {
        if w'.store.gap.Some? { RowsBelowBound(w.log, w'.store.gap.value.beforeSeq); }
      } else {
        GapPageLowers(w, e);
      }
    }
  }

  lemma OwnerWaits(w: World, e: WorldEvent)
    requires Inv(w) && Legal(w, e) && e.Answer? && w.store.active == Some(e.id)
    ensures e.id in w.store.loads && WorldStep(w, e).log == w.log
    ensures IsHeadPage(w, e) ==> AskedEarlier(w) || e.at == |w.log|
  {
  }

  lemma SeenStepLowers(w: World, e: WorldEvent)
    requires Inv(w) && Legal(w, e) && Quiet(w, e) && w.top == |w.log| && w.store.gap.Some?
    ensures Lowers(w, WorldStep(w, e), if IsGapPage(w, e) then 1 else 0)
  {
    hide RowsBelow, Inv, Legal, WorldStep, Quiet, IsGapPage;
    QuietStepLowersGap(w, e);
  }

  /** The gap is open before, between and after the events. */
  ghost predicate OpenQuietRun(w: World, events: seq<WorldEvent>)
    requires LegalRun(w, events)
    decreases |events|
  {
    && w.store.gap.Some?
    && (events != [] ==> Quiet(w, events[0]) && OpenQuietRun(WorldStep(w, events[0]), events[1..]))
  }

  ghost function GapPages(w: World, events: seq<WorldEvent>): nat
    requires LegalRun(w, events)
    decreases |events|
  {
    if events == [] then 0
    else (if IsGapPage(w, events[0]) then 1 else 0) + GapPages(WorldStep(w, events[0]), events[1..])
  }

  /** From any state on, once the log stands still no run keeps a gap open for ever: gap pages are at most
      the rows below the gap and the slack, however they are split over refreshes, older loads, failures
      and restarts. */
  lemma {:induction false} CatchUpClosesTheGap(w: World, events: seq<WorldEvent>)
    requires Inv(w) && LegalRun(w, events) && OpenQuietRun(w, events)
    ensures WorldRun(w, events).store.gap.Some?
    ensures GapPages(w, events) + RowsBelow(w.log, WorldRun(w, events).store.gap.value.beforeSeq)
              <= RowsBelow(w.log, w.store.gap.value.beforeSeq) + Slack(w)
    decreases |events|
  {
    hide RowsBelow, Inv, Legal, WorldStep, Slack, IsGapPage;
    if events != [] {
      WorldStepKeepsInv(w, events[0]);
      SeenOrNot(w);
      if w.top == |w.log| { SeenStepLowers(w, events[0]); } else { UnseenStepLowers(w, events[0]); }
      CatchUpClosesTheGap(WorldStep(w, events[0]), events[1..]);
    }
  }

  lemma SeenOrNot(w: World)
    requires Inv(w)
    ensures w.top <= |w.log|
  {
  }

  /** Once a head page of the whole log has arrived, gap pages are at most the rows below the gap. */
  lemma SeenLogClosesTheGap(w: World, events: seq<WorldEvent>)
    requires Inv(w) && LegalRun(w, events) && OpenQuietRun(w, events) && w.top == |w.log|
    ensures WorldRun(w, events).store.gap.Some?
    ensures GapPages(w, events) + RowsBelow(w.log, WorldRun(w, events).store.gap.value.beforeSeq)
              <= RowsBelow(w.log, w.store.gap.value.beforeSeq)
  {
    CatchUpClosesTheGap(w, events);
  }
}

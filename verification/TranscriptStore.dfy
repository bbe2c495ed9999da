// grok-mobile-belmont-pwa/src/transcript-store.ts: a client's window onto a server transcript.
//
// Every `await` of the source is a step boundary: a load that waits for a page is a record in
// `loads`, and an adversary chooses which load resumes next and whether its page arrived or its
// wait failed (fetch error, timeout or abort). `State` and the functions over it specify the
// steps; the class `Store` performs them on its fields.

module TranscriptStore {
  import opened Common
  import opened Entries

  const MAX_REFRESH_CATCHUP_PAGES := 8
  const PAGE_STALLED := "the page did not continue the conversation"

  datatype Page = Page(entries: seq<Message>, nextBeforeSeq: Option<int>)

  datatype Gap = Gap(beforeSeq: int, anchorIds: set<string>, olderCursor: Option<int>)

  datatype Snapshot = Snapshot(
    entries: seq<Message>,
    nextBeforeSeq: Option<int>,
    loading: bool,
    loadingOlder: bool,
    error: string)

  /** Where a suspended load continues, with the cursor of the request it waits for. */
  datatype Load =
    | FirstPage(older: bool, initial: bool, before: Option<int>)
    | CatchUp(pageIndex: nat, gapBefore: int)

  datatype Outcome = Arrived(page: Page) | Failed(message: string)

  datatype State = State(
    snapshot: Snapshot,
    initialized: bool,
    disposed: bool,
    queuedRefresh: bool,
    active: Option<nat>,
    gap: Option<Gap>,
    loads: map<nat, Load>,
    nextLoad: nat)

  const Initial := State(Snapshot([], None, true, false, ""), false, false, false, None, None, map[], 0)

  predicate Overlaps(page: Page, ids: set<string>) {
    exists m | m in page.entries :: m.id in ids
  }

  function OnlyAnchors(entries: seq<Message>, anchors: set<string>): seq<Message> {
    if entries == [] then []
    else
      var rest := OnlyAnchors(entries[..|entries| - 1], anchors);
      var last := entries[|entries| - 1];
      if last.id in anchors then rest + [last] else rest
  }

  function Publish(s: State, snapshot: Snapshot): State {
    if s.disposed then s else s.(snapshot := snapshot)
  }

  function Update(s: State, updated: seq<Message>): State {
    Publish(s, s.snapshot.(entries := Reconcile(updated)))
  }

  function BeginLoad(s: State, older: bool): State {
    var begun := Publish(s.(active := Some(s.nextLoad), nextLoad := s.nextLoad + 1),
                         s.snapshot.(loading := !s.initialized, loadingOlder := older, error := ""));
    var before := if older then begun.snapshot.nextBeforeSeq else None;
    begun.(loads := begun.loads[s.nextLoad := FirstPage(older, !s.initialized, before)])
  }

  function Refresh(s: State): State {
    if s.disposed then s
    else if s.active.Some? then s.(queuedRefresh := true)
    else BeginLoad(s, false)
  }

  function LoadOlder(s: State): State {
    if s.disposed || s.active.Some? || s.snapshot.nextBeforeSeq.None? then s else BeginLoad(s, true)
  }

  function Start(s: State): State {
    Refresh(s.(disposed := false))
  }

  function Dispose(s: State): State {
    s.(disposed := true, queuedRefresh := false, active := None)
  }

  /** None when the page does not move the gap down: the source throws. */
  function ApplyGapPage(s: State, page: Page): Option<State> {
    if s.gap.None? then Some(s)
    else
      var gap := s.gap.value;
      var overlaps := Overlaps(page, gap.anchorIds);
      if !overlaps && page.nextBeforeSeq.Some? && page.nextBeforeSeq.value >= gap.beforeSeq then None
      else
        var gap' := if overlaps || page.nextBeforeSeq.None? then None
                    else Some(gap.(beforeSeq := page.nextBeforeSeq.value));
        var next := if page.nextBeforeSeq.None? then None
                    else if overlaps then gap.olderCursor
                    else page.nextBeforeSeq;
        Some(Publish(s.(gap := gap'),
                     s.snapshot.(entries := MergeGapPage(page, s.snapshot.entries, gap.anchorIds),
                                 nextBeforeSeq := next)))
  }

  function MergeGapPage(page: Page, loaded: seq<Message>, anchors: set<string>): seq<Message> {
    Reconcile(page.entries + loaded + OnlyAnchors(page.entries, anchors))
  }

  function ApplyOlderPage(s: State, page: Page): State {
    Publish(s, s.snapshot.(entries := Reconcile(page.entries + s.snapshot.entries),
                           nextBeforeSeq := page.nextBeforeSeq))
  }

  function ApplyHeadPage(s: State, initial: bool, page: Page): State {
    var knownIds := KnownIds(s.snapshot.entries);
    var reset := initial || |knownIds| == 0 || page.nextBeforeSeq.None?;
    var gap :=
      if reset then None
      else if !Overlaps(page, knownIds) then
        Some(Gap(page.nextBeforeSeq.value,
                 if s.gap.Some? then s.gap.value.anchorIds else knownIds,
                 if s.gap.Some? then s.gap.value.olderCursor else s.snapshot.nextBeforeSeq))
      else s.gap;
    var cursor := if reset then page.nextBeforeSeq else s.snapshot.nextBeforeSeq;
    Publish(s.(gap := gap),
            s.snapshot.(entries := Reconcile(s.snapshot.entries + page.entries),
                        nextBeforeSeq := if gap.Some? then Some(gap.value.beforeSeq) else cursor))
  }

  /** The `finally` block of a load. */
  function Settle(s: State, id: nat): State {
    if s.active != Some(id) then s
    else
      var done := Publish(s.(active := None), s.snapshot.(loading := false, loadingOlder := false));
      if done.queuedRefresh && !done.disposed then Refresh(done.(queuedRefresh := false)) else done
  }

  function Throw(s: State, id: nat, message: string): State {
    Settle(if !s.disposed && s.active == Some(id) then Publish(s, s.snapshot.(error := message)) else s, id)
  }

  /** The head of the catch-up loop: ask for one more page, or finish. */
  function Continue(s: State, id: nat, pageIndex: nat): State {
    if s.gap.Some? && pageIndex < MAX_REFRESH_CATCHUP_PAGES
    then s.(loads := s.loads[id := CatchUp(pageIndex, s.gap.value.beforeSeq)])
    else Settle(s.(initialized := true), id)
  }

  /** The owner `id` of the store, no longer suspended, gets the page it waited for. */
  function Receive(s: State, id: nat, load: Load, page: Page): State {
    match load
    case FirstPage(true, _, _) =>
      (match if s.gap.Some? then ApplyGapPage(s, page) else Some(ApplyOlderPage(s, page))
       case None => Throw(s, id, PAGE_STALLED)
       case Some(applied) => Settle(applied.(initialized := true), id))
    case FirstPage(false, initial, _) => Continue(ApplyHeadPage(s, initial, page), id, 0)
    case CatchUp(pageIndex, _) =>
      (match ApplyGapPage(s, page)
       case None => Throw(s, id, PAGE_STALLED)
       case Some(applied) => Continue(applied, id, pageIndex + 1))
  }

  function Resume(s: State, id: nat, outcome: Outcome): State
    requires id in s.loads
  {
    var woken := s.(loads := s.loads - {id});
    match outcome
    case Failed(message) => Throw(woken, id, message)
    case Arrived(page) =>
      if woken.disposed || woken.active != Some(id) then Settle(woken, id)
      else Receive(woken, id, s.loads[id], page)
  }

  /** The store as an object whose methods change its fields. */
  class Store {
    var snapshot: Snapshot
    var initialized: bool
    var disposed: bool
    var queuedRefresh: bool
    var active: Option<nat>
    var gap: Option<Gap>
    var loads: map<nat, Load>
    var nextLoad: nat

    function View(): State
      reads this
    {
      State(snapshot, initialized, disposed, queuedRefresh, active, gap, loads, nextLoad)
    }

    constructor ()
      ensures View() == Initial
    {
      snapshot := Snapshot([], None, true, false, "");
      initialized, disposed, queuedRefresh := false, false, false;
      active, gap, loads, nextLoad := None, None, map[], 0;
    }

    method PublishSnapshot(patched: Snapshot)
      modifies this`snapshot
      ensures View() == Publish(old(View()), patched)
    {
      if disposed { return; }
      snapshot := patched;
    }

    method UpdateEntries(updated: seq<Message>)
      modifies this`snapshot
      ensures View() == Update(old(View()), updated)
    {
      PublishSnapshot(snapshot.(entries := Reconcile(updated)));
    }

    method StartStore()
      modifies this
      ensures View() == Start(old(View()))
    {
      disposed := false;
      RefreshStore();
    }

    method DisposeStore()
      modifies this
      ensures View() == Dispose(old(View()))
    {
      disposed := true;
      queuedRefresh := false;
      active := None;
    }

    method RefreshStore()
      modifies this
      ensures View() == Refresh(old(View()))
    {
      if disposed { return; }
      if active.Some? { queuedRefresh := true; return; }
      StartLoad(false);
    }

    method LoadOlderEntries()
      modifies this
      ensures View() == LoadOlder(old(View()))
    {
      if disposed || active.Some? || snapshot.nextBeforeSeq.None? { return; }
      StartLoad(true);
    }

    /** `load` up to its first await. */
    method StartLoad(older: bool)
      modifies this
      ensures View() == BeginLoad(old(View()), older)
    {
      var controller := nextLoad;
      nextLoad := nextLoad + 1;
      active := Some(controller);
      var initial := !initialized;
      PublishSnapshot(snapshot.(loading := initial, loadingOlder := older, error := ""));
      loads := loads[controller := FirstPage(older, initial, if older then snapshot.nextBeforeSeq else None)];
    }

    method ApplyPageToGap(page: Page) returns (ok: bool)
      modifies this
      ensures ok <==> ApplyGapPage(old(View()), page).Some?
      ensures View() == if ok then ApplyGapPage(old(View()), page).value else old(View())
    {
      if gap.None? { return true; }
      var g := gap.value;
      var next := page.nextBeforeSeq;
      var overlaps := Overlaps(page, g.anchorIds);
      if !overlaps && next.Some? && next.value >= g.beforeSeq { return false; }
      gap := if overlaps || next.None? then None else Some(g.(beforeSeq := next.value));
      PublishSnapshot(snapshot.(
        entries := Reconcile(page.entries + snapshot.entries + OnlyAnchors(page.entries, g.anchorIds)),
        nextBeforeSeq := if next.None? then None else if overlaps then g.olderCursor else next));
      return true;
    }

    method ApplyPageAtHead(initial: bool, page: Page)
      modifies this
      ensures View() == ApplyHeadPage(old(View()), initial, page)
    {
      var knownIds := KnownIds(snapshot.entries);
      var cursor := snapshot.nextBeforeSeq;
      if initial || |knownIds| == 0 || page.nextBeforeSeq.None? {
        gap := None;
        cursor := page.nextBeforeSeq;
      } else if !Overlaps(page, knownIds) {
        gap := Some(Gap(page.nextBeforeSeq.value,
                        if gap.Some? then gap.value.anchorIds else knownIds,
                        if gap.None? then cursor else gap.value.olderCursor));
      }
      PublishSnapshot(snapshot.(entries := Reconcile(snapshot.entries + page.entries),
                                nextBeforeSeq := if gap.Some? then Some(gap.value.beforeSeq) else cursor));
    }

    /** The `finally` block. */
    method Finish(controller: nat)
      modifies this
      ensures View() == Settle(old(View()), controller)
    {
      if active == Some(controller) {
        active := None;
        PublishSnapshot(snapshot.(loading := false, loadingOlder := false));
        if queuedRefresh && !disposed {
          queuedRefresh := false;
          RefreshStore();
        }
      }
    }

    /** The `catch` block, then the `finally` block. */
    method Catch(controller: nat, message: string)
      modifies this
      ensures View() == Throw(old(View()), controller, message)
    {
      if !disposed && active == Some(controller) { PublishSnapshot(snapshot.(error := message)); }
      Finish(controller);
    }

    method CatchUpOrFinish(controller: nat, pageIndex: nat)
      modifies this
      ensures View() == Continue(old(View()), controller, pageIndex)
    {
      if gap.Some? && pageIndex < MAX_REFRESH_CATCHUP_PAGES {
        loads := loads[controller := CatchUp(pageIndex, gap.value.beforeSeq)];
      } else {
        initialized := true;
        Finish(controller);
      }
    }

    /** `load` from one await to the next. */
    method ResumeLoad(controller: nat, outcome: Outcome)
      requires controller in loads
      modifies this
      ensures View() == Resume(old(View()), controller, outcome)
    {
      var load := loads[controller];
      loads := loads - {controller};
      match outcome {
        case Failed(message) => Catch(controller, message);
        case Arrived(page) =>
          if disposed || active != Some(controller) {
            Finish(controller);
          } else {
            match load {
              case FirstPage(true, _, _) =>
                if gap.Some? {
                  var ok := ApplyPageToGap(page);
                  if !ok { Catch(controller, PAGE_STALLED); return; }
                } else {
                  PublishSnapshot(snapshot.(entries := Reconcile(page.entries + snapshot.entries),
                                            nextBeforeSeq := page.nextBeforeSeq));
                }
                initialized := true;
                Finish(controller);
              case FirstPage(false, initial, _) =>
                ApplyPageAtHead(initial, page);
                CatchUpOrFinish(controller, 0);
              case CatchUp(pageIndex, _) =>
                var ok := ApplyPageToGap(page);
                if !ok { Catch(controller, PAGE_STALLED); return; }
                CatchUpOrFinish(controller, pageIndex + 1);
            }
          }
      }
    }

    method Perform(e: Event)
      modifies this
      ensures View() == Step(old(View()), e)
    {
      hide Start, Dispose, Refresh, LoadOlder, Update, Resume;
      match e {
        case StartEvent => StartStore();
        case DisposeEvent => DisposeStore();
        case RefreshEvent => RefreshStore();
        case LoadOlderEvent => LoadOlderEntries();
        case UpdateEvent(entries) => UpdateEntries(entries);
        case ResumeEvent(id, outcome) => if id in loads { ResumeLoad(id, outcome); }
      }
    }
  }

  // ----- runs -----

  datatype Event =
    | StartEvent
    | DisposeEvent
    | RefreshEvent
    | LoadOlderEvent
    | UpdateEvent(entries: seq<Message>)
    | ResumeEvent(id: nat, outcome: Outcome)

  function Step(s: State, e: Event): State {
    match e
    case StartEvent => Start(s)
    case DisposeEvent => Dispose(s)
    case RefreshEvent => Refresh(s)
    case LoadOlderEvent => LoadOlder(s)
    case UpdateEvent(entries) => Update(s, entries)
    case ResumeEvent(id, outcome) => if id in s.loads then Resume(s, id, outcome) else s
  }

  function Run(s: State, events: seq<Event>): State
    decreases |events|
  {
    if events == [] then s else Run(Step(s, events[0]), events[1..])
  }

  lemma {:induction false} RunOneMore(s: State, events: seq<Event>, i: nat)
    requires i < |events|
    ensures Run(s, events[..i + 1]) == Step(Run(s, events[..i]), events[i])
    decreases |events|
  {
    hide Step;
    if i == 0 {
      assert events[..1] == [events[0]] && events[..1][1..] == [] && events[..0] == [];
    } else {
      assert events[..i + 1][1..] == events[1..][..i] && events[..i][1..] == events[1..][..i - 1];
      RunOneMore(Step(s, events[0]), events[1..], i - 1);
    }
  }

  /** A store that gets these events is in the state the theorems about runs speak of. */
  method Replay(events: seq<Event>) returns (store: Store)
    ensures fresh(store) && store.View() == Run(Initial, events)
  {
    hide Step;
    store := new Store();
    assert events[..0] == [];
    for i := 0 to |events|
      invariant fresh(store) && store.View() == Run(Initial, events[..i])
    {
      store.Perform(events[i]);
      RunOneMore(Initial, events, i);
    }
    assert events[..|events|] == events;
  }

  /** One load owns the store: it is suspended in `loads`, or it is the one `running` right now. */
  predicate OwnedWhile(s: State, running: Option<nat>) {
    && (s.active.Some? ==> s.active.value < s.nextLoad && (s.active == running || s.active.value in s.loads))
    && (running.Some? ==> running.value < s.nextLoad && running.value !in s.loads)
    && (forall id | id in s.loads :: id < s.nextLoad)
    && (s.disposed ==> s.active.None?)
    && (s.queuedRefresh ==> s.active.Some?)
    && (forall id | id in s.loads :: s.loads[id].CatchUp? ==> s.loads[id].pageIndex < MAX_REFRESH_CATCHUP_PAGES)
  }

  predicate Owned(s: State) {
    OwnedWhile(s, None)
  }

  predicate BegunRefresh(s: State, id: nat) {
    s.active == Some(id) && id in s.loads && s.loads[id].FirstPage? && !s.loads[id].older
  }

  /** Ownership stays, ends, or goes to a load that did not exist before. */
  predicate OwnerMoves(s: State, after: State) {
    && after.nextLoad >= s.nextLoad
    && (after.active.Some? ==> after.active == s.active || after.active.value >= s.nextLoad)
  }

  /** A queued refresh survives a step of load `id`, the owner, or has begun as a load of its own. */
  predicate HandsOver(s: State, id: nat, after: State) {
    s.active == Some(id) && s.queuedRefresh && !s.disposed ==>
      && !after.disposed
      && (|| (after.active == Some(id) && after.queuedRefresh && after.nextLoad == s.nextLoad)
          || BegunRefresh(after, s.nextLoad))
  }

  lemma SettleKeepsOwned(s: State, id: nat)
    requires OwnedWhile(s, Some(id))
    ensures Owned(Settle(s, id))
    ensures OwnerMoves(s, Settle(s, id))
    ensures Settle(s, id).active != Some(id)
    ensures HandsOver(s, id, Settle(s, id))
  {
  }

  lemma ContinueKeepsOwned(s: State, id: nat, pageIndex: nat)
    requires OwnedWhile(s, Some(id)) && s.active == Some(id)
    ensures Owned(Continue(s, id, pageIndex))
    ensures OwnerMoves(s, Continue(s, id, pageIndex))
    ensures HandsOver(s, id, Continue(s, id, pageIndex))
    ensures Continue(s, id, pageIndex).active == Some(id) ==>
              && id in Continue(s, id, pageIndex).loads
              && Continue(s, id, pageIndex).loads[id].CatchUp?
              && Continue(s, id, pageIndex).loads[id].pageIndex == pageIndex
  {
    if !(s.gap.Some? && pageIndex < MAX_REFRESH_CATCHUP_PAGES) {
      SettleKeepsOwned(s.(initialized := true), id);
    }
  }

  lemma ThrowKeepsOwned(s: State, id: nat, message: string)
    requires OwnedWhile(s, Some(id))
    ensures Owned(Throw(s, id, message))
    ensures OwnerMoves(s, Throw(s, id, message))
    ensures Throw(s, id, message).active != Some(id)
    ensures HandsOver(s, id, Throw(s, id, message))
  {
    SettleKeepsOwned(s, id);
  }

  /** How many more times a load can wait before it gives up the store. */
  function Budget(load: Load): int {
    match load
    case FirstPage(_, _, _) => MAX_REFRESH_CATCHUP_PAGES + 1
    case CatchUp(pageIndex, _) => MAX_REFRESH_CATCHUP_PAGES - pageIndex
  }

  /** `load`, resumed under `id`, kept the rules: it ended, or it waits again with less budget. */
  predicate Progressed(s: State, id: nat, load: Load, after: State) {
    && Owned(after)
    && OwnerMoves(s, after)
    && HandsOver(s, id, after)
    && (after.active == Some(id) ==> id in after.loads && 0 < Budget(after.loads[id]) < Budget(load))
  }

  /** Applying a page changes what is shown and the gap, not who owns the store. */
  lemma PagesLeaveOwnership(s: State, initial: bool, page: Page)
    ensures var after := ApplyHeadPage(s, initial, page); after == s.(snapshot := after.snapshot, gap := after.gap)
    ensures var after := ApplyOlderPage(s, page); after == s.(snapshot := after.snapshot)
    ensures var after := ApplyGapPage(s, page);
            after.Some? ==> after.value == s.(snapshot := after.value.snapshot, gap := after.value.gap)
  {
    hide Reconcile, Ids;
  }

  lemma SettledProgresses(s: State, id: nat, load: Load, applied: State)
    requires OwnedWhile(s, Some(id)) && s.active == Some(id)
    requires applied == s.(snapshot := applied.snapshot, gap := applied.gap)
    ensures Progressed(s, id, load, Settle(applied.(initialized := true), id))
  {
    SettleKeepsOwned(applied.(initialized := true), id);
  }

  lemma ContinuedProgresses(s: State, id: nat, load: Load, applied: State, pageIndex: nat)
    requires OwnedWhile(s, Some(id)) && s.active == Some(id)
    requires applied == s.(snapshot := applied.snapshot, gap := applied.gap)
    requires Budget(load) == MAX_REFRESH_CATCHUP_PAGES - pageIndex + 1 && pageIndex <= MAX_REFRESH_CATCHUP_PAGES
    ensures Progressed(s, id, load, Continue(applied, id, pageIndex))
  {
    ContinueKeepsOwned(applied, id, pageIndex);
  }

  lemma ArrivedProgresses(s: State, id: nat, load: Load, page: Page)
    requires OwnedWhile(s, Some(id)) && s.active == Some(id)
    requires load.CatchUp? ==> load.pageIndex < MAX_REFRESH_CATCHUP_PAGES
    ensures Progressed(s, id, load, Receive(s, id, load, page))
  {
    PagesLeaveOwnership(s, load.FirstPage? && load.initial, page);
    ThrowKeepsOwned(s, id, PAGE_STALLED);
    match load {
      case FirstPage(true, _, _) =>
        var applied := if s.gap.Some? then ApplyGapPage(s, page) else Some(ApplyOlderPage(s, page));
        if applied.Some? { SettledProgresses(s, id, load, applied.value); }
      case FirstPage(false, initial, _) =>
        ContinuedProgresses(s, id, load, ApplyHeadPage(s, initial, page), 0);
      case CatchUp(pageIndex, _) =>
        var applied := ApplyGapPage(s, page);
        if applied.Some? { ContinuedProgresses(s, id, load, applied.value, pageIndex + 1); }
    }
  }

  /** Each answer to the active load uses up one of its nine waits or releases the store. */
  lemma ActiveLoadEnds(s: State, id: nat, outcome: Outcome)
    requires Owned(s) && id in s.loads
    ensures Progressed(s, id, s.loads[id], Resume(s, id, outcome))
  {
    var woken := s.(loads := s.loads - {id});
    if outcome.Failed? {
      ThrowKeepsOwned(woken, id, outcome.message);
    } else if woken.active != Some(id) {
      SettleKeepsOwned(woken, id);
    } else {
      ArrivedProgresses(woken, id, s.loads[id], outcome.page);
    }
  }

  lemma StepKeepsOwned(s: State, e: Event)
    requires Owned(s)
    ensures Owned(Step(s, e))
    ensures OwnerMoves(s, Step(s, e))
  {
    if e.ResumeEvent? && e.id in s.loads { ActiveLoadEnds(s, e.id, e.outcome); }
  }

  lemma InitialHolds()
    ensures Owned(Initial)
  {
  }

  lemma {:induction false} RunKeepsOwned(s: State, events: seq<Event>)
    requires Owned(s)
    ensures Owned(Run(s, events))
    ensures Run(s, events).nextLoad >= s.nextLoad
    decreases |events|
  {
    if events != [] {
      StepKeepsOwned(s, events[0]);
      RunKeepsOwned(Step(s, events[0]), events[1..]);
    }
  }

  /** A response or failure of a superseded or disposed load only ends that load. */
  lemma SupersededLoadIsIgnored(s: State, id: nat, outcome: Outcome)
    requires Owned(s) && id in s.loads && s.active != Some(id)
    ensures Resume(s, id, outcome) == s.(loads := s.loads - {id})
  {
  }

  /** A load that lost the store never gets it back: whatever happens meanwhile, its response
      leaves everything but `loads` as it is. */
  lemma {:induction false} LoadsLoseTheStoreForGood(s: State, events: seq<Event>, id: nat)
    requires Owned(s) && id < s.nextLoad && s.active != Some(id)
    ensures Owned(Run(s, events)) && Run(s, events).active != Some(id)
    ensures forall outcome :: id in Run(s, events).loads ==>
              Resume(Run(s, events), id, outcome) == Run(s, events).(loads := Run(s, events).loads - {id})
    decreases |events|
  {
    if events == [] {
      forall outcome | id in s.loads
        ensures Resume(s, id, outcome) == s.(loads := s.loads - {id})
      {
        SupersededLoadIsIgnored(s, id, outcome);
      }
    } else {
      StepKeepsOwned(s, events[0]);
      LoadsLoseTheStoreForGood(Step(s, events[0]), events[1..], id);
    }
  }

  /** Nothing is published between disposal and the next start. */
  lemma {:induction false} DisposedStoreIsSilent(s: State, events: seq<Event>)
    requires Owned(s) && s.disposed
    requires forall e :: e in events ==> !e.StartEvent?
    ensures Run(s, events).snapshot == s.snapshot
    ensures Run(s, events).gap == s.gap
    ensures Run(s, events).initialized == s.initialized
    decreases |events|
  {
    if events != [] {
      assert events[0] in events;
      StepKeepsOwned(s, events[0]);
      DisposedStoreIsSilent(Step(s, events[0]), events[1..]);
    }
  }

  /** A refresh asked for now is served by a load that starts no earlier than now: at the end of any
      run without disposal either it is still queued behind the load that was active, or along the
      run a refresh load with a fresh id has begun. */
  ghost predicate Served(s: State, events: seq<Event>, id: nat) {
    exists k :: 0 <= k <= |events| && BegunRefresh(Run(s, events[..k]), id)
  }

  lemma {:induction false} RefreshIsHonoured(s: State, events: seq<Event>)
    requires Owned(s) && !s.disposed
    requires forall e :: e in events ==> !e.DisposeEvent?
    ensures var asked := Refresh(s);
            || Served(asked, events, s.nextLoad)
            || (Run(asked, events).queuedRefresh && Run(asked, events).active == s.active)
  {
    var asked := Refresh(s);
    StepKeepsOwned(s, RefreshEvent);
    if s.active.None? {
      assert BegunRefresh(Run(asked, events[..0]), s.nextLoad);
    } else {
      QueuedRefreshWaits(asked, events);
    }
  }

  /** The load that owns the store either keeps it or hands it to the queued refresh. */
  lemma QueuedStep(s: State, e: Event)
    requires Owned(s) && !s.disposed && s.queuedRefresh && !e.DisposeEvent?
    ensures var next := Step(s, e);
            && !next.disposed
            && (|| (next.active == s.active && next.queuedRefresh && next.nextLoad == s.nextLoad)
                || BegunRefresh(next, s.nextLoad))
  {
    if e.ResumeEvent? && e.id in s.loads {
      if s.active == Some(e.id) {
        ActiveLoadEnds(s, e.id, e.outcome);
      } else {
        SupersededLoadIsIgnored(s, e.id, e.outcome);
      }
    }
  }

  lemma {:induction false} QueuedRefreshWaits(s: State, events: seq<Event>)
    requires Owned(s) && !s.disposed && s.queuedRefresh
    requires forall e :: e in events ==> !e.DisposeEvent?
    ensures || Served(s, events, s.nextLoad)
            || (Run(s, events).queuedRefresh && Run(s, events).active == s.active)
    decreases |events|
  {
    if events != [] {
      var e, next := events[0], Step(s, events[0]);
      assert e in events;
      StepKeepsOwned(s, e);
      QueuedStep(s, e);
      if BegunRefresh(next, s.nextLoad) {
        assert events[..1] == [e];
        assert BegunRefresh(Run(s, events[..1]), s.nextLoad);
      } else {
        QueuedRefreshWaits(next, events[1..]);
        if Served(next, events[1..], s.nextLoad) {
          var k :| 0 <= k <= |events[1..]| && BegunRefresh(Run(next, events[1..][..k]), s.nextLoad);
          assert events[..k + 1] == [e] + events[1..][..k];
          assert BegunRefresh(Run(s, events[..k + 1]), s.nextLoad);
        }
      }
    }
  }

  // ----- what a gap page does to the loaded entries -----

  lemma {:induction false} OnlyAnchorsMeaning(entries: seq<Message>, anchors: set<string>, m: Message)
    ensures m in OnlyAnchors(entries, anchors) <==> m in entries && m.id in anchors
    ensures m.id in anchors ==> (LastCopy(OnlyAnchors(entries, anchors), m) <==> LastCopy(entries, m))
  {
    if entries != [] {
      var init, last := entries[..|entries| - 1], entries[|entries| - 1];
      assert entries == init + [last];
      OnlyAnchorsMeaning(init, anchors, m);
      LastCopyStep(init, last);
      LastCopyStep(OnlyAnchors(init, anchors), last);
    }
  }

  lemma {:induction false} LastCopyOfConcat(a: seq<Message>, b: seq<Message>, m: Message)
    ensures LastCopy(a + b, m) <==> LastCopy(b, m) || (m.id !in Ids(b) && LastCopy(a, m))
  {
    hide LastCopy;
    if b == [] {
      assert a + b == a && !LastCopy(b, m) by { NoLastCopy(m); }
    } else {
      var init, last := b[..|b| - 1], b[|b| - 1];
      assert a + b == (a + init) + [last] && b == init + [last];
      LastCopyOfConcat(a, init, m);
      LastCopyStep(a + init, last);
      LastCopyStep(init, last);
      assert Ids(b) == Ids(init) + {last.id};
    }
  }

  lemma NoLastCopy(m: Message)
    ensures !LastCopy([], m)
  {
  }

  /** A gap page keeps every loaded copy, except that an anchor present in the page takes the page's
      copy; ids that were not loaded come from the page. */
  lemma GapPageKeepsLoadedCopies(page: Page, loaded: seq<Message>, anchors: set<string>, m: Message)
    requires !IsOptimistic(m)
    ensures m in MergeGapPage(page, loaded, anchors) <==>
              if m.id in anchors && m.id in Ids(page.entries) then LastCopy(page.entries, m)
              else if m.id in Ids(loaded) then LastCopy(loaded, m)
              else LastCopy(page.entries, m)
  {
    var tail := OnlyAnchors(page.entries, anchors);
    ReconcileMeaning(page.entries + loaded + tail);
    LastCopyOfConcat(page.entries + loaded, tail, m);
    LastCopyOfConcat(page.entries, loaded, m);
    forall x: Message ensures x in tail <==> x in page.entries && x.id in anchors {
      OnlyAnchorsMeaning(page.entries, anchors, x);
    }
    OnlyAnchorsMeaning(page.entries, anchors, m);
    assert m in MergeGapPage(page, loaded, anchors) <==> LastCopy(page.entries + loaded + tail, m);
    if m.id in anchors && m.id in Ids(page.entries) {
      var x :| x in page.entries && x.id == m.id;
      assert x in tail;
    }
  }

  // ----- which copy of an entry a page leaves, and what the reader is told -----

  /** A page that the owner of the store was waiting for. */
  predicate Awaits(s: State, id: nat, older: bool) {
    Owned(s) && id in s.loads && s.active == Some(id) && s.loads[id].FirstPage? && s.loads[id].older == older
  }

  lemma SettleKeepsEntries(s: State, id: nat)
    ensures Settle(s, id).snapshot.entries == s.snapshot.entries
    ensures Settle(s, id).snapshot.nextBeforeSeq == s.snapshot.nextBeforeSeq
    ensures Settle(s, id).gap == s.gap
  {
  }

  lemma ReconciledPair(a: seq<Message>, b: seq<Message>, m: Message)
    requires !IsOptimistic(m)
    ensures m in Reconcile(a + b) <==> if m.id in Ids(b) then LastCopy(b, m) else LastCopy(a, m)
  {
    hide Reconcile;
    ReconcileMeaning(a + b);
    LastCopyOfConcat(a, b, m);
  }

  /** The page of a refresh brings new copies: an entry it lists shows as the page has it, and every other
      entry stays as it was loaded. */
  lemma HeadPageBringsNewCopies(s: State, id: nat, page: Page, m: Message)
    requires Awaits(s, id, false) && !IsOptimistic(m)
    ensures m in Resume(s, id, Arrived(page)).snapshot.entries <==>
              if m.id in Ids(page.entries) then LastCopy(page.entries, m) else LastCopy(s.snapshot.entries, m)
  {
    hide Reconcile, Settle, LastCopy;
    var woken := s.(loads := s.loads - {id});
    var applied := ApplyHeadPage(woken, s.loads[id].initial, page);
    ReconciledPair(s.snapshot.entries, page.entries, m);
    SettleKeepsEntries(applied.(initialized := true), id);
  }

  /** What the page of a refresh does to the gap and the cursor. The window starts over when nothing known
      is loaded yet, or the page goes back to the start of the log; a page without a known entry opens the
      gap, or moves it while its anchors and older cursor stay; any other page leaves both alone. */
  lemma HeadPageDecides(s: State, id: nat, page: Page)
    requires Awaits(s, id, false)
    ensures var t := Resume(s, id, Arrived(page));
            if s.loads[id].initial || page.nextBeforeSeq.None? || forall m | m in s.snapshot.entries :: IsOptimistic(m) then
              t.gap.None? && t.snapshot.nextBeforeSeq == page.nextBeforeSeq
            else if forall m | m in s.snapshot.entries && !IsOptimistic(m) :: forall x | x in page.entries :: x.id != m.id then
              && t.gap.Some? && t.snapshot.nextBeforeSeq == page.nextBeforeSeq == Some(t.gap.value.beforeSeq)
              && (if s.gap.Some? then t.gap == Some(s.gap.value.(beforeSeq := t.gap.value.beforeSeq))
                  else t.gap.value.anchorIds == KnownIds(s.snapshot.entries)
                       && t.gap.value.olderCursor == s.snapshot.nextBeforeSeq)
            else
              t.gap == s.gap
              && t.snapshot.nextBeforeSeq == if s.gap.Some? then Some(s.gap.value.beforeSeq) else s.snapshot.nextBeforeSeq
  {
    hide Reconcile, Settle, KnownIds, Overlaps;
    var woken := s.(loads := s.loads - {id});
    var applied := ApplyHeadPage(woken, s.loads[id].initial, page);
    SettleKeepsEntries(applied.(initialized := true), id);
    NothingKnown(s.snapshot.entries);
    NothingShared(page, s.snapshot.entries);
  }

  lemma NothingShared(page: Page, entries: seq<Message>)
    ensures Overlaps(page, KnownIds(entries)) <==>
              !forall m | m in entries && !IsOptimistic(m) :: forall x | x in page.entries :: x.id != m.id
  {
    if m :| m in entries && !IsOptimistic(m) && exists x | x in page.entries :: x.id == m.id {
      assert m.id in KnownIds(entries);
    }
  }

  lemma NothingKnown(entries: seq<Message>)
    ensures |KnownIds(entries)| == 0 <==> forall m | m in entries :: IsOptimistic(m)
  {
    if m :| m in entries && !IsOptimistic(m) { assert m.id in KnownIds(entries); }
    if forall m | m in entries :: IsOptimistic(m) { assert KnownIds(entries) == {}; }
  }

  /** A page further back only adds: an entry already loaded keeps its copy, and the next request starts
      where the page does. */
  lemma OlderPageKeepsLoadedCopies(s: State, id: nat, page: Page, m: Message)
    requires Awaits(s, id, true) && s.gap.None? && !IsOptimistic(m)
    ensures var t := Resume(s, id, Arrived(page)).snapshot;
            && t.nextBeforeSeq == page.nextBeforeSeq
            && (m in t.entries <==>
                  if m.id in Ids(s.snapshot.entries) then LastCopy(s.snapshot.entries, m) else LastCopy(page.entries, m))
  {
    hide Reconcile, Settle, LastCopy;
    ReconciledPair(page.entries, s.snapshot.entries, m);
    SettleKeepsEntries(ApplyOlderPage(s.(loads := s.loads - {id}), page).(initialized := true), id);
  }

  /** A page that the owner waits for with a gap open, and that is not the page of a refresh. */
  predicate AwaitsGapPage(s: State, id: nat) {
    Owned(s) && id in s.loads && s.active == Some(id) && s.gap.Some? && (s.loads[id].CatchUp? || s.loads[id].older)
  }

  /** A page into the gap is refused exactly when it neither meets an anchor nor goes on below the gap,
      and then what is loaded stays; otherwise anchors take the page's copy and everything else loaded
      stays as it was. */
  lemma GapPageOutcome(s: State, id: nat, page: Page, m: Message)
    requires AwaitsGapPage(s, id) && !IsOptimistic(m)
    ensures var gap := s.gap.value;
            var refused := (forall x | x in page.entries :: x.id !in gap.anchorIds)
                           && page.nextBeforeSeq.Some? && page.nextBeforeSeq.value >= gap.beforeSeq;
            m in Resume(s, id, Arrived(page)).snapshot.entries <==>
              if refused then m in s.snapshot.entries
              else if m.id in gap.anchorIds && m.id in Ids(page.entries) then LastCopy(page.entries, m)
              else if m.id in Ids(s.snapshot.entries) then LastCopy(s.snapshot.entries, m)
              else LastCopy(page.entries, m)
  {
    hide Settle, LastCopy, MergeGapPage, Ids;
    var woken := s.(loads := s.loads - {id});
    GapPageKeepsLoadedCopies(page, s.snapshot.entries, s.gap.value.anchorIds, m);
    SettleKeepsEntries(woken.(snapshot := woken.snapshot.(error := PAGE_STALLED)), id);
    if ApplyGapPage(woken, page).Some? {
      SettleKeepsEntries(ApplyGapPage(woken, page).value.(initialized := true), id);
    }
  }

  /** What the reader is told: while a load is under way the spinner is its own and there is no error;
      when there is none nothing spins. */
  predicate StatusHolds(s: State) {
    && Owned(s)
    && (s.active.Some? ==>
          var load := s.loads[s.active.value];
          && s.snapshot.error == ""
          && (s.snapshot.loadingOlder <==> load.FirstPage? && load.older)
          && (s.snapshot.loading <==> !s.initialized)
          && (load.FirstPage? ==> load.initial == !s.initialized)
          && (load.CatchUp? ==> s.initialized))
    && (!s.disposed && s.active.None? && s.nextLoad > 0 ==> !s.snapshot.loading && !s.snapshot.loadingOlder)
  }

  lemma BegunStatus(s: State, older: bool)
    requires OwnedWhile(s, None) && s.active.None? && !s.disposed && !s.queuedRefresh
    ensures StatusHolds(BeginLoad(s, older))
  {
  }

  lemma SettleStatus(s: State, id: nat)
    requires OwnedWhile(s, Some(id)) && s.active == Some(id)
    ensures StatusHolds(Settle(s, id))
  {
    SettleKeepsOwned(s, id);
  }

  lemma ContinueStatus(s: State, id: nat, pageIndex: nat)
    requires OwnedWhile(s, Some(id)) && s.active == Some(id)
    requires s.gap.Some? ==> s.initialized && s.snapshot.error == "" && !s.snapshot.loading && !s.snapshot.loadingOlder
    ensures StatusHolds(Continue(s, id, pageIndex))
  {
    ContinueKeepsOwned(s, id, pageIndex);
    SettleStatus(s.(initialized := true), id);
  }

  lemma ReceiveStatus(s: State, id: nat, page: Page)
    requires StatusHolds(s) && id in s.loads && s.active == Some(id)
    ensures StatusHolds(Resume(s, id, Arrived(page)))
  {
    hide Settle, Continue, StatusHolds, Reconcile, KnownIds, MergeGapPage;
    var woken, load := s.(loads := s.loads - {id}), s.loads[id];
    assert OwnedWhile(woken, Some(id)) && StatusOf(s, id) by { StatusFacts(s, id); }
    match load {
      case FirstPage(true, _, _) =>
        var applied := if s.gap.Some? then ApplyGapPage(woken, page) else Some(ApplyOlderPage(woken, page));
        if applied.Some? { SettleStatus(applied.value.(initialized := true), id); }
        SettleStatus(woken.(snapshot := woken.snapshot.(error := PAGE_STALLED)), id);
      case FirstPage(false, initial, _) =>
        ContinueStatus(ApplyHeadPage(woken, initial, page), id, 0);
      case CatchUp(pageIndex, _) =>
        var applied := ApplyGapPage(woken, page);
        if applied.Some? { ContinueStatus(applied.value, id, pageIndex + 1); }
        SettleStatus(woken.(snapshot := woken.snapshot.(error := PAGE_STALLED)), id);
    }
  }

  predicate StatusOf(s: State, id: nat)
    requires id in s.loads
  {
    && s.snapshot.error == "" && !s.disposed
    && (s.snapshot.loading <==> !s.initialized)
    && (s.snapshot.loadingOlder <==> s.loads[id].FirstPage? && s.loads[id].older)
    && (s.loads[id].FirstPage? ==> s.loads[id].initial == !s.initialized)
    && (s.loads[id].CatchUp? ==> s.initialized)
  }

  lemma StatusFacts(s: State, id: nat)
    requires StatusHolds(s) && id in s.loads && s.active == Some(id)
    ensures OwnedWhile(s.(loads := s.loads - {id}), Some(id)) && StatusOf(s, id)
  {
  }

  lemma StepKeepsStatus(s: State, e: Event)
    requires StatusHolds(s)
    ensures StatusHolds(Step(s, e))
  {
    hide Receive, Reconcile;
    StepKeepsOwned(s, e);
    if e.ResumeEvent? && e.id in s.loads {
      if s.active != Some(e.id) {
        SupersededLoadIsIgnored(s, e.id, e.outcome);
      } else if e.outcome.Failed? {
        StatusFacts(s, e.id);
        SettleStatus(s.(loads := s.loads - {e.id}, snapshot := s.snapshot.(error := e.outcome.message)), e.id);
      } else {
        ReceiveStatus(s, e.id, e.outcome.page);
      }
    }
  }

  /** In every run the spinners are those of the load under way, the first load's until the store is
      initialized and the older load's, and an error is shown only while no load is under way. */
  lemma {:induction false} StatusIsTheOwners(s: State, events: seq<Event>)
    requires StatusHolds(s)
    ensures StatusHolds(Run(s, events))
    decreases |events|
  {
    hide Step, StatusHolds;
    if events != [] {
      StepKeepsStatus(s, events[0]);
      StatusIsTheOwners(Step(s, events[0]), events[1..]);
    }
  }

  lemma InitialStatus()
    ensures StatusHolds(Initial)
  {
  }

  /** A local update is shown, reconciled, unless the store is disposed, and changes nothing else. */
  lemma UpdatesAreShown(s: State, updated: seq<Message>)
    ensures var t := Step(s, UpdateEvent(updated));
            if s.disposed then t == s
            else IsReconciled(updated, t.snapshot.entries) && t == s.(snapshot := s.snapshot.(entries := t.snapshot.entries))
  {
    ReconcileMeaning(updated);
  }

  /** When the load under way fails, its message is shown and nothing else changes, unless a queued refresh
      takes over at once. */
  lemma FailureIsShown(s: State, id: nat, message: string)
    requires StatusHolds(s) && id in s.loads && s.active == Some(id)
    ensures var t := Resume(s, id, Failed(message));
            && t.snapshot.entries == s.snapshot.entries && t.snapshot.nextBeforeSeq == s.snapshot.nextBeforeSeq
            && t.gap == s.gap && t.initialized == s.initialized
            && (if s.queuedRefresh then BegunRefresh(t, s.nextLoad) && t.snapshot.error == ""
                else t.active.None? && t.snapshot.error == message && !t.snapshot.loading && !t.snapshot.loadingOlder)
  {
  }

  /** A step begins a load exactly when it is a refresh or a start at an idle store, a step further back
      at an idle store that has a cursor, or the answer that releases the store to a queued refresh; and
      the load asks for what its reason says. */
  lemma LoadsBegin(s: State, e: Event)
    requires Owned(s)
    ensures var t := Step(s, e);
            && (t.nextLoad != s.nextLoad <==>
                  || (e.StartEvent? && s.active.None?)
                  || (e.RefreshEvent? && !s.disposed && s.active.None?)
                  || (e.LoadOlderEvent? && !s.disposed && s.active.None? && s.snapshot.nextBeforeSeq.Some?)
                  || (e.ResumeEvent? && s.active == Some(e.id) && s.queuedRefresh && t.active != s.active))
            && (t.nextLoad != s.nextLoad ==>
                  && t.active == Some(s.nextLoad) && t.nextLoad == s.nextLoad + 1
                  && s.nextLoad in t.loads
                  && t.loads[s.nextLoad] == FirstPage(e.LoadOlderEvent?, !t.initialized,
                                                      if e.LoadOlderEvent? then s.snapshot.nextBeforeSeq else None))
  {
    hide Receive, Reconcile;
    if e.ResumeEvent? && e.id in s.loads {
      if s.active == Some(e.id) {
        BeginsOnRelease(s, e.id, e.outcome);
      } else {
        SupersededLoadIsIgnored(s, e.id, e.outcome);
      }
    }
  }

  /** A load that settles hands the store over exactly when a refresh is queued. */
  predicate Released(s: State, id: nat, after: State) {
    && (after.nextLoad != s.nextLoad <==> s.queuedRefresh && after.active != Some(id))
    && (after.nextLoad != s.nextLoad ==>
          && after.active == Some(s.nextLoad) && after.nextLoad == s.nextLoad + 1 && s.nextLoad in after.loads
          && after.loads[s.nextLoad] == FirstPage(false, !after.initialized, None))
  }

  lemma SettleReleases(s: State, id: nat)
    requires OwnedWhile(s, Some(id)) && s.active == Some(id)
    ensures Released(s, id, Settle(s, id))
  {
  }

  lemma ContinueReleases(s: State, id: nat, pageIndex: nat)
    requires OwnedWhile(s, Some(id)) && s.active == Some(id)
    ensures Released(s, id, Continue(s, id, pageIndex))
  {
    SettleReleases(s.(initialized := true), id);
  }

  lemma ReleasedFrom(s: State, begun: State, id: nat, after: State)
    requires Released(begun, id, after) && begun.nextLoad == s.nextLoad && begun.queuedRefresh == s.queuedRefresh
    ensures Released(s, id, after)
  {
  }

  lemma SettledReleases(s: State, begun: State, id: nat)
    requires OwnedWhile(s, Some(id)) && s.active == Some(id)
    requires begun == s.(snapshot := begun.snapshot, gap := begun.gap, initialized := begun.initialized)
    ensures Released(s, id, Settle(begun, id))
  {
    SettleReleases(begun, id);
    ReleasedFrom(s, begun, id, Settle(begun, id));
  }

  lemma ContinuedReleases(s: State, begun: State, id: nat, pageIndex: nat)
    requires OwnedWhile(s, Some(id)) && s.active == Some(id)
    requires begun == s.(snapshot := begun.snapshot, gap := begun.gap)
    ensures Released(s, id, Continue(begun, id, pageIndex))
  {
    ContinueReleases(begun, id, pageIndex);
    ReleasedFrom(s, begun, id, Continue(begun, id, pageIndex));
  }

  lemma ReceiveReleases(s: State, id: nat, load: Load, page: Page)
    requires OwnedWhile(s, Some(id)) && s.active == Some(id)
    ensures Released(s, id, Receive(s, id, load, page))
  {
    hide Settle, Continue, ApplyGapPage, ApplyHeadPage, ApplyOlderPage, Released, OwnedWhile;
    LiveOwner(s, id);
    PagesLeaveOwnership(s, load.FirstPage? && load.initial, page);
    SettledReleases(s, s.(snapshot := s.snapshot.(error := PAGE_STALLED)), id);
    match load {
      case FirstPage(true, _, _) =>
        var applied := if s.gap.Some? then ApplyGapPage(s, page) else Some(ApplyOlderPage(s, page));
        if applied.Some? { SettledReleases(s, applied.value.(initialized := true), id); }
      case FirstPage(false, initial, _) =>
        ContinuedReleases(s, ApplyHeadPage(s, initial, page), id, 0);
      case CatchUp(pageIndex, _) =>
        var applied := ApplyGapPage(s, page);
        if applied.Some? { ContinuedReleases(s, applied.value, id, pageIndex + 1); }
    }
  }

  lemma LiveOwner(s: State, id: nat)
    requires s.active == Some(id)
    ensures OwnedWhile(s, Some(id)) ==> !s.disposed
  {
  }

  lemma BeginsOnRelease(s: State, id: nat, outcome: Outcome)
    requires Owned(s) && id in s.loads && s.active == Some(id)
    ensures Released(s, id, Resume(s, id, outcome))
  {
    hide Settle, Receive, Released;
    var woken := s.(loads := s.loads - {id});
    assert OwnedWhile(woken, Some(id));
    if outcome.Failed? {
      SettledReleases(woken, woken.(snapshot := woken.snapshot.(error := outcome.message)), id);
    } else {
      ReceiveReleases(woken, id, s.loads[id], outcome.page);
    }
    ReleasedFrom(s, woken, id, Resume(s, id, outcome));
  }
}

# Verified models of the Belmont clients and daemons

This Dafny project models the protocols and translations at the core of the Belmont repository and
proves what they promise. Each module follows one source file or one shim. Where the source keeps state
and changes it step by step, the module has a class with the source's fields and methods, each proved
against a function on the state's value. Events then drive that state, the theorems hold over every run,
and a `Replay` method drives an object of the class through the same events. Every `await` is a step
boundary, and an adversary chooses the order of responses, failures, timeouts and cancellations.

- `Entries`, `TranscriptStore`, `TranscriptGap`, `TranscriptStall`: the transcript window of the mobile
  client. `Entries` is the reconciliation of message lists, `TranscriptStore` the store with its loads,
  gap and catch-up, `TranscriptGap` puts a ghost server log beside the store to state that nothing is
  silently missing, and `TranscriptStall` is a client whose catch-up starts over for ever.
- `Lifecycle`, `Workloads`: the two drainable-lifecycle shims, as step systems with phases, pending sets,
  failures and single-flight start, stop, drain and close.
- `ShellState`, `Glob`, `Grep`, `McpClient`: the box exec daemon: publication of shell state, the compiler
  from ignore globs to regular expressions (with a parser and a meaning for the expressions it writes),
  attribution of ripgrep context lines, and the JSON-RPC client.
- `Canvas`, `Transport`, `Viewer`, `Unicode`, `TextPackets`, `KeyChord`, `Pointer`: the adapters of the
  Windows stream.
- `SendIntent`, `JsonKey`: the identity of a message that is being sent, and its journal.
- `Gesture`: touches that become pointer events of a remote desktop.

`dafny verify dfyconfig.toml` checks the whole project. Proofs use `hide` statements to keep definitions
out of steps that do not need them.

Some promises of the source hold only under a condition. The condition is then part of the theorem, and a
lemma gives an input for which the promise fails:

- a head page of a grown log can move an open gap up (`TranscriptGap.HeadPageMovesGap`, with the run
  `TranscriptStall.NewRowRaisesTheGap`), and an empty one can do so on a log whose head was already seen
  (`TranscriptGap.HeadPageRaisesGapOnlyWhenEmpty`), so that catching up need not end
  (`TranscriptStall.CatchUpStartsOverForever`);
- teardown tracked after a drain's last check is not awaited
  (`Lifecycle.StopAwaitsExactlyBeforeTheLastCheck`, with the run `Lifecycle.LateTeardownIsNotAwaited`), and a
  failure recorded after the drain is not reported (`Workloads.ReportIsCutAtTheDrain`, with the run
  `Workloads.LateFailureIsNotReported`);
- a start operation that throws after the stop it called moves the phase
  (`Lifecycle.OvertakenStartNeverRuns`, with the run `Lifecycle.ThrowingStartMovesTheStop`);
- a swap of shell state can lose the old state (`ShellState.StateLostExactlyWhenRestoreFails`, with the swap
  `ShellState.OldStateIsLost`);
- `**` stops at line terminators (`Glob.CompilerKeepsMeaning`, with the path in
  `Glob.LineTerminatorsStopStars`);
- a JSON-RPC line that throws holds back the messages after it
  (`McpClient.DispatchDependsOnCutsOnlyWhenWithheld`, with the text in
  `McpClient.NullLineWithholdsAMessage`), and a response with a null error leaves its request without an
  outcome (`McpClient.ForgottenExactlyByNullErrors`, with the run `McpClient.NullErrorForgets`);
- lone surrogates do not survive text packets (`TextPackets.TextSurvives`, with the text in
  `TextPackets.LoneSurrogateIsLost`);
- a replaced canvas can stay blank (`Canvas.AgreesWithAlwaysRedrawing` and `Canvas.SkipIsRightUnlessUnheard`,
  with the steps in `Canvas.ReplacedCanvasCanStayBlank`);
- pressing a dragging pointer again leaves the button held (`Gesture.HeldAsDraggedUnlessPressedAgain`, with
  the run `Gesture.PressedAgainStaysHeld`), and pressing again before a long press leaves two timers running
  (`Gesture.OverwrittenLongPressClicks`).

## Model

| member | source | states |
|---|---|---|
| TranscriptGap.NoSilentHoles | grok-mobile-belmont-pwa/src/transcript-store.ts:49-98 | in every run against a growing server log, with refreshes, older loads, failures, timeouts and disposals in any order: from `nextBeforeSeq` (or the log's start) to the newest loaded entry every shown log entry is loaded; while a gap is open the anchors cover the log from the older cursor on; nothing loaded is invented |
| TranscriptGap.CatchUpClosesTheGap | grok-mobile-belmont-pwa/src/transcript-store.ts:54-61 | from any state of any run, once the log stands still no run keeps a gap open through more gap pages than there are rows below it plus a slack, however pages are split over refreshes. The slack is nothing once a head page of the whole log has arrived; before that, one log length, or two if the load under way asked before the log last grew. Only head pages after that arrival must show an entry or start no higher than the open gap |
| TranscriptGap.SeenLogClosesTheGap | grok-mobile-belmont-pwa/src/transcript-store.ts:54-61 | the sharp bound: once a head page of the whole log has arrived, and while later ones show an entry or start no higher than the open gap, gap pages are at most the rows below the gap |
| TranscriptGap.UnseenStepLowers | grok-mobile-belmont-pwa/src/transcript-store.ts:77-97 | on a standing log of which no head page has arrived yet, and whatever the pages show, no step that leaves the gap open raises the sum of rows below the gap and slack, and each gap page lowers it |
| TranscriptGap.QuietStepLowersGap | grok-mobile-belmont-pwa/src/transcript-store.ts:77-97 | on a log that stands still, once a head page of the whole log has arrived and while later ones show an entry or start no higher than the gap, no step raises the gap, and each gap page that does not close it moves it strictly below at least one more row |
| TranscriptGap.HeadPageRaisesGapOnlyWhenEmpty | grok-mobile-belmont-pwa/src/transcript-store.ts:86-91 | once a head page of the whole log has arrived, a head page that leaves a gap open moves it up exactly when its rows show nothing and its cursor is above the gap |
| TranscriptGap.HeadPageMovesGap | grok-mobile-belmont-pwa/src/transcript-store.ts:86-92 | whatever the log has grown by since the last head page: one that leaves a gap open moves it up exactly when its cursor is above the gap and it shows no entry that an earlier head page had behind it |
| TranscriptStall.CatchUpStartsOverForever | grok-mobile-belmont-pwa/src/transcript-store.ts:89-97 | with head pages that show nothing and start above the gap the bound is lost: on a log that stands still any number of refreshes, each with all of its eight gap pages, leave the gap open where it was |
| TranscriptStall.StuckIsReached | grok-mobile-belmont-pwa/src/transcript-store.ts:64-98 | a client that starts on a one-row log gets into that state by legal steps |
| TranscriptStall.HeadStartsOver | grok-mobile-belmont-pwa/src/transcript-store.ts:89-92 | the head page that moves the gap back up |
| TranscriptStall.GapPageDescends | grok-mobile-belmont-pwa/src/transcript-store.ts:93-97 | each gap page moves the gap down by one row, and the eighth ends the load with the gap open |
| TranscriptStall.NewRowRaisesTheGap | grok-mobile-belmont-pwa/src/transcript-store.ts:89-92 | from that state a refresh that finds one new row above the gap moves the gap from 3 up to 12, although its page shows an entry |
| TranscriptGap.HeadPageLeavesNoHole | grok-mobile-belmont-pwa/src/transcript-store.ts:82-92 | the three cases of a head page (start over, overlap, new or moved gap) each keep every segment contiguous |
| TranscriptGap.OlderPageLeavesNoHole | grok-mobile-belmont-pwa/src/transcript-store.ts:55-61 | a page below the cursor extends the head segment downwards without a hole, with or without an open gap |
| TranscriptGap.AnchorPageClosesGap | grok-mobile-belmont-pwa/src/transcript-store.ts:55-61 | one shared entry proves that the head segment and the anchors leave nothing out between them, so the gap may close onto the older cursor |
| TranscriptGap.SharedEntryJoins | grok-mobile-belmont-pwa/src/transcript-store.ts:53-55 | two contiguous runs of the log that share an entry join without a hole |
| TranscriptGap.GrowthLeavesNoHole | grok-mobile-belmont-pwa/src/transcript-store.ts:49-98 | rows appended to the log open no hole in what is loaded |
| TranscriptGap.WorldRunKeepsInv | grok-mobile-belmont-pwa/src/transcript-store.ts:64-110 | every legal step, a superseded response or a failure in mid catch-up included, keeps the invariant of store, requests and log together |
| TranscriptStore.RunKeepsOwned | grok-mobile-belmont-pwa/src/transcript-store.ts:64-109 | over all interleavings at most one load owns the store, owners are known loads, and load ids only grow |
| TranscriptStore.InitialHolds | grok-mobile-belmont-pwa/src/transcript-store.ts:13-20 | a new store has the invariant of ownership |
| TranscriptStore.SupersededLoadIsIgnored | grok-mobile-belmont-pwa/src/transcript-store.ts:76-104 | a response, page or error, of a load that lost the store changes nothing but the set of running loads |
| TranscriptStore.LoadsLoseTheStoreForGood | grok-mobile-belmont-pwa/src/transcript-store.ts:76-104 | a load that lost the store never gets it back, so none of its later responses shows |
| TranscriptStore.DisposedStoreIsSilent | grok-mobile-belmont-pwa/src/transcript-store.ts:33-38 | between disposal and the next start nothing changes the snapshot, the gap or `initialized` |
| TranscriptStore.RefreshIsHonoured | grok-mobile-belmont-pwa/src/transcript-store.ts:39-43 | a refresh asked for at any moment is followed by a head load that begins no earlier, or is still queued behind the very load that was active, in every run without disposal |
| TranscriptStore.ActiveLoadEnds | grok-mobile-belmont-pwa/src/transcript-store.ts:93-108 | each answer to the active load releases the store or uses up one of its nine waits; a release hands over to a queued refresh |
| TranscriptStore.GapPageKeepsLoadedCopies | grok-mobile-belmont-pwa/src/transcript-store.ts:56-61 | after a gap page an entry shows the page's copy if it is an anchor present in the page, else the loaded copy, else the page's copy |
| TranscriptStore.HeadPageBringsNewCopies | grok-mobile-belmont-pwa/src/transcript-store.ts:92-92 | when the page of a refresh arrives, an entry it lists shows as the page has it, and every other server entry stays as it was loaded |
| TranscriptStore.OlderPageKeepsLoadedCopies | grok-mobile-belmont-pwa/src/transcript-store.ts:79-80 | a page further back only adds: a loaded entry keeps its copy, and the cursor becomes the page's |
| TranscriptStore.GapPageOutcome | grok-mobile-belmont-pwa/src/transcript-store.ts:49-61 | a page into the gap is refused exactly when it neither meets an anchor nor goes on below the gap, and then what is loaded stays; otherwise anchors take the page's copy and everything else loaded stays |
| TranscriptStore.HeadPageDecides | grok-mobile-belmont-pwa/src/transcript-store.ts:82-92 | the window starts over exactly when nothing known was loaded or the page goes back to the start of the log; a page without a known entry opens the gap or moves it, keeping anchors and older cursor; any other page leaves gap and cursor alone |
| TranscriptStore.StatusIsTheOwners | grok-mobile-belmont-pwa/src/transcript-store.ts:64-108 | in every run the spinners are those of the load under way, no error shows while one is, and nothing spins when none is |
| TranscriptStore.FailureIsShown | grok-mobile-belmont-pwa/src/transcript-store.ts:100-108 | a failure of the load under way shows its message and changes nothing else, unless a queued refresh takes over at once |
| TranscriptStore.LoadsBegin | grok-mobile-belmont-pwa/src/transcript-store.ts:32-47 | a step begins a load exactly when it is a refresh or start at an idle live store, a step back at one with a cursor, or a release to a queued refresh; it asks at the head, or below the cursor for a step back |
| TranscriptStore.UpdatesAreShown | grok-mobile-belmont-pwa/src/transcript-store.ts:31-31 | a local update is shown, reconciled, unless the store is disposed, and changes nothing else |
| TranscriptStore.Store.RefreshStore | grok-mobile-belmont-pwa/src/transcript-store.ts:39-43 | a refresh is dropped, queued or starts a load, as the specification of the store's state says |
| TranscriptStore.Store.LoadOlderEntries | grok-mobile-belmont-pwa/src/transcript-store.ts:44-47 | an older load starts only on an idle live store with a cursor |
| TranscriptStore.Store.StartLoad | grok-mobile-belmont-pwa/src/transcript-store.ts:64-75 | a load takes the store, shows its spinner and sends its request |
| TranscriptStore.Store.ApplyPageToGap | grok-mobile-belmont-pwa/src/transcript-store.ts:49-62 | a gap page advances, closes or refuses; a stalled page throws and leaves the state alone |
| TranscriptStore.Store.ApplyPageAtHead | grok-mobile-belmont-pwa/src/transcript-store.ts:82-92 | a head page merges and decides whether a gap opens, moves, stays or goes |
| TranscriptStore.Store.ResumeLoad | grok-mobile-belmont-pwa/src/transcript-store.ts:75-109 | a settled request drives its load through ownership check, page, catch-up, error and cleanup to the state the run theorems are about |
| TranscriptStore.Store.Finish | grok-mobile-belmont-pwa/src/transcript-store.ts:102-109 | only the owner clears the store, and a queued refresh starts then |
| TranscriptStore.Store.DisposeStore | grok-mobile-belmont-pwa/src/transcript-store.ts:33-38 | disposal takes the store from its owner and forgets the queued refresh |
| TranscriptStore.Store.StartStore | grok-mobile-belmont-pwa/src/transcript-store.ts:32 | starting revives the store and asks for a refresh |
| TranscriptStore.Store.UpdateEntries | grok-mobile-belmont-pwa/src/transcript-store.ts:31 | a local update is reconciled before it shows |
| TranscriptStore.Replay | grok-mobile-belmont-pwa/src/transcript-store.ts:13-111 | a store object that gets any sequence of events is in the state the theorems about runs speak of |
| Entries.ReconcileMeaning | grok-mobile-belmont-pwa/src/entries.ts:10-21 | the result holds exactly the last copy under each id, minus the optimistic user texts that have a confirmed match, sorted by time and then by first appearance |
| Entries.ReconcileIsTheOnlyOne | grok-mobile-belmont-pwa/src/entries.ts:10-21 | that description leaves no freedom: any sequence that meets it is the result |
| Entries.DistinctIds | grok-mobile-belmont-pwa/src/entries.ts:11-20 | ids are unique and times never fall |
| Entries.ReconcileIdempotent | grok-mobile-belmont-pwa/src/entries.ts:10-21 | reconciling a reconciled list changes nothing |
| Entries.ReconcileKeepsKnown | grok-mobile-belmont-pwa/src/entries.ts:10-21 | no entry of the server is lost and none is invented |
| Entries.EchoShowsUntilConfirmed | grok-mobile-belmont-pwa/src/entries.ts:12-19 | the last copy of an optimistic echo is dropped exactly when a confirmed user text is shown that carries the same nonce, or, if either carries none, has the same text and reply within five minutes |
| Entries.SameTextTwice | grok-mobile-belmont-pwa/src/entries.ts:12-19 | of two echoes of one text under two nonces, the desktop's copy of the first, the only confirmed user text, takes away the first only |
| Lifecycle.NoWorkWhileBlocked | belmont-browse/tools/patch-daemon-lifecycle.py:39-41 | from a stop or a failed start on, no operation but teardown is admitted until a new start, over all interleavings |
| Lifecycle.StoppedMeansDrained | belmont-browse/tools/patch-daemon-lifecycle.py:88-116 | `stopped` is reached only when everything pending at any moment before the last drain check has settled, no admitted work is pending, and nothing ever tracked failed except by cancellation |
| Lifecycle.LateTeardownIsNotAwaited | belmont-browse/tools/patch-daemon-lifecycle.py:53-55 | a run that shows the limit of the drain: teardown tracked after its last check is still pending when the phase is `stopped` |
| Lifecycle.StopAwaitsExactlyBeforeTheLastCheck | belmont-browse/tools/patch-daemon-lifecycle.py:88-116 | an operation that is pending now has settled in every run in which this stop ends in `stopped`, if and only if the drain has not made its last check yet, or the stop already has a failure and never ends there |
| Lifecycle.FailureIsNotStopped | belmont-browse/tools/patch-daemon-lifecycle.py:104-112 | a stop that has a failure to report never ends in `stopped` |
| Lifecycle.StopsShareOneOutcome | belmont-browse/tools/patch-daemon-lifecycle.py:90-92 | every stop called while one is in flight, or after it but before the next start, gets the same outcome |
| Lifecycle.StopsSettleOnce | belmont-browse/tools/patch-daemon-lifecycle.py:96-115 | a stop promise settles once, with one list of failures |
| Lifecycle.OvertakenStartNeverRuns | belmont-browse/tools/patch-daemon-lifecycle.py:70-85 | no step of a start that began before a stop makes the phase `running`, and none moves the phase at all but one: an operation that throws after the stop moves it to `failed`, exactly then |
| Lifecycle.ThrowingStartMovesTheStop | belmont-browse/tools/patch-daemon-lifecycle.py:70-75 | a run with that exception: a start operation calls stop and throws; the stop ends in `stop_failed` with its error |
| Lifecycle.Replay | belmont-browse/tools/patch-daemon-lifecycle.py:36-116 | a registration object that gets any sequence of events is in the state the theorems about runs speak of |
| Lifecycle.RunningMeansStarted | belmont-browse/tools/patch-daemon-lifecycle.py:76-85 | `running` is entered only by the current start, later than the last stop, with nothing it waited for rejected |
| Lifecycle.StartOutcome | belmont-browse/tools/patch-daemon-lifecycle.py:76-85 | in every run a start whose operation returned waits for exactly what was pending then; it settles with exactly the reasons of the rejected ones, and a phase still `starting` becomes `running` if and only if all were fulfilled, `failed` if and only if one was rejected |
| Lifecycle.StartsSettleOnce | belmont-browse/tools/patch-daemon-lifecycle.py:66-85 | a start promise settles once |
| Lifecycle.PhasesAreEntered | belmont-browse/tools/patch-daemon-lifecycle.py:56-116 | when each phase is entered: starting by a start when idle or stopped, stopping by a stop, stopped and stop_failed by a drained stop without and with failures |
| Lifecycle.AdmittedExactly | belmont-browse/tools/patch-daemon-lifecycle.py:36-45 | work is admitted exactly while idle, starting or running, teardown always, under an id of its own |
| Lifecycle.StartReplies | belmont-browse/tools/patch-daemon-lifecycle.py:56-67 | exactly when a start is refused, shared, answered at once or begun |
| Lifecycle.StartIsSharedUntilCleanup | belmont-browse/tools/patch-daemon-lifecycle.py:67-69 | the promise of a start is given out until its own cleanup, and no other event takes it away |
| Lifecycle.StoppedRestarts | belmont-browse/tools/patch-daemon-lifecycle.py:56-69 | a stopped lifecycle whose last start has settled can be started again and then admits work |
| Lifecycle.FailuresAreRecorded | belmont-browse/tools/patch-daemon-lifecycle.py:47-50 | until a stop fails, the failures are what was recorded: failed operations other than cancelled ones, throwing start operations, failing hooks |
| Lifecycle.StopReportsExactlyWhatWasRecorded | belmont-browse/tools/patch-daemon-lifecycle.py:96-115 | in every run a stop that settles reports exactly the reasons recorded since the lifecycle was made, each once; it ends in `stopped` if and only if there are none |
| Lifecycle.DrainSleepsUntilSettled | belmont-browse/tools/patch-daemon-lifecycle.py:53-55 | a drain that found something pending wakes exactly when all of that has settled |
| Lifecycle.QuietStopEnds | belmont-browse/tools/patch-daemon-lifecycle.py:96-115 | with nothing pending, each stage of a stop leads on to its end |
| Lifecycle.StopFailureIsFinal | belmont-browse/tools/patch-daemon-lifecycle.py:91 | a failed stop stays failed with the same failures for ever |
| Lifecycle.StopReportsEveryFailure | belmont-browse/tools/patch-daemon-lifecycle.py:104-109 | every failure recorded by the end of the drain is in the stop's rejection |
| Lifecycle.RunKeepsInv | belmont-browse/tools/patch-daemon-lifecycle.py:36-116 | ids are handed out once, one start and one stop are in flight at most, phases agree with them, and no failure is forgotten before a stop reports it |
| Lifecycle.Registration.TrackOperation | belmont-browse/tools/patch-daemon-lifecycle.py:39-52 | work is refused while blocked, teardown never; an admitted operation is pending until it settles |
| Lifecycle.Registration.SettleOperation | belmont-browse/tools/patch-daemon-lifecycle.py:47-50 | a settled operation leaves `pending`, and a failure other than cancellation is recorded |
| Lifecycle.Registration.CallStart | belmont-browse/tools/patch-daemon-lifecycle.py:56-67 | a start is refused, shared, already running, or owns the phase |
| Lifecycle.Registration.StartReturned | belmont-browse/tools/patch-daemon-lifecycle.py:70-76 | a start operation that throws fails the phase; otherwise everything then pending is awaited |
| Lifecycle.Registration.StartSettled | belmont-browse/tools/patch-daemon-lifecycle.py:76-85 | only a phase still `starting` becomes running or failed |
| Lifecycle.Registration.CleanupStart | belmont-browse/tools/patch-daemon-lifecycle.py:68-69 | a settled start is forgotten only while it is the current one |
| Lifecycle.Registration.CallStop | belmont-browse/tools/patch-daemon-lifecycle.py:88-99 | a stop is shared, known, or owns the phase before its hook runs |
| Lifecycle.Registration.CheckDrain | belmont-browse/tools/patch-daemon-lifecycle.py:53-55 | the drain waits for what is pending now, or is over |
| Lifecycle.Registration.HookSettled | belmont-browse/tools/patch-daemon-lifecycle.py:102-103 | a failing stop hook is recorded and the drain still begins |
| Lifecycle.Registration.StopDrained | belmont-browse/tools/patch-daemon-lifecycle.py:104-113 | the failures are taken out without repeats and decide between `stopped` and `stop_failed` |
| Workloads.RegistryMovesForward | belmont-browse/tools/patch-daemon-active-workloads.py:31-33 | within one registry the phase only moves forward, failures only grow, and after shutdown began no operation but teardown is admitted |
| Workloads.DrainedMeansEmpty | belmont-browse/tools/patch-daemon-active-workloads.py:118-124 | at any moment of any run a step that reaches `drained` comes with no operation pending and no worker alive, and reports exactly the failures recorded by then |
| Workloads.DrainReportsEveryFailure | belmont-browse/tools/patch-daemon-active-workloads.py:118-124 | every failure recorded before the drain ends is in its report |
| Workloads.ReportIsCutAtTheDrain | belmont-browse/tools/patch-daemon-active-workloads.py:118-124 | the report holds exactly the failures recorded when the drain ended and never changes; it is missing a failure of the registry if and only if one was recorded after that step |
| Workloads.LateFailureIsNotReported | belmont-browse/tools/patch-daemon-active-workloads.py:241-242 | a run that shows the limit: a session disposed while its sockets close fails after the report, the close succeeds, and a restart drops the failure |
| Workloads.Owner.CloseBegins | belmont-browse/tools/patch-daemon-active-workloads.py:179-181 | the close begins the shared drain |
| Workloads.Owner.AdoptAndCloseSockets | belmont-browse/tools/patch-daemon-active-workloads.py:183-190 | cached sockets are adopted and every socket is being closed |
| Workloads.Owner.CloseEnds | belmont-browse/tools/patch-daemon-active-workloads.py:194-198 | the outcome of the close decides the last phase |
| Workloads.Owner.WorkerExited | belmont-browse/tools/patch-daemon-active-workloads.py:86 | an exited worker is no longer owned |
| Workloads.Owner.RecordFailure | belmont-browse/tools/patch-daemon-active-workloads.py:94-97 | a failure an operation catches is recorded |
| Workloads.Replay | belmont-browse/tools/patch-daemon-active-workloads.py:14-220 | an owner object that gets any sequence of events is in the state the theorems about runs speak of |
| Workloads.WorkersAreOwnedAndTold | belmont-browse/tools/patch-daemon-active-workloads.py:82-98 | a worker, however late it is created, stays owned until it exits, and has been told to terminate exactly when shutdown has begun |
| Workloads.RestartOnlyWhenEmpty | belmont-browse/tools/patch-daemon-active-workloads.py:202-210 | at any moment of any run a new registry is made only after a clean close with nothing left in the old one |
| Workloads.ClosedMeansReleased | belmont-browse/tools/patch-daemon-active-workloads.py:174-199 | at any moment of any run `closed` is reached only by a close that settles without a failed cleanup or a socket that timed out, after a drain that reported nothing, with every socket it was closing closed |
| Workloads.CloseEndsExactly | belmont-browse/tools/patch-daemon-active-workloads.py:192-198 | at any moment of any run a close that settles ends in `closed` if and only if no cleanup failed, no socket it was closing timed out and the drain reported nothing, else in `close_failed`; nothing else reaches either phase |
| Workloads.SocketsAreAwaited | belmont-browse/tools/patch-daemon-active-workloads.py:182-192 | a close that succeeds has seen every socket closed that was open or cached when the drain had reported |
| Workloads.PhasesAreEntered | belmont-browse/tools/patch-daemon-active-workloads.py:99-210 | at any moment of any run: exactly when shutdown begins, the drain ends, and a new registry is made |
| Workloads.CallsBeginOnce | belmont-browse/tools/patch-daemon-active-workloads.py:115-179 | a close begins with the first call that names a valid timeout, a drain with the first call or the close, and sockets are refused from the close on |
| Workloads.OperationsAreAccounted | belmont-browse/tools/patch-daemon-active-workloads.py:31-45 | pending operations are exactly the old ones less the settled one, plus what the event tracks: admitted work, the termination of a late worker, one teardown for every backfill and worker at shutdown |
| Workloads.OwnedByTheEvents | belmont-browse/tools/patch-daemon-active-workloads.py:50-150 | in every run the workers, sockets and agents owned are those the events brought and have not taken away |
| Workloads.FailuresAreRecorded | belmont-browse/tools/patch-daemon-active-workloads.py:37-42 | the failures of a registry are exactly what was recorded in it, in order |
| Workloads.DrainReportsWhatWasRecorded | belmont-browse/tools/patch-daemon-active-workloads.py:118-124 | in every run of a registry a drain that wakes ends exactly when nothing is pending and no worker lives, and reports exactly what was recorded since the registry was made |
| Workloads.DrainSleepsUntilSettled | belmont-browse/tools/patch-daemon-active-workloads.py:119-121 | a drain that found something left wakes exactly when all of that has settled and exited |
| Workloads.RunKeepsInv | belmont-browse/tools/patch-daemon-active-workloads.py:31-210 | ownership of ids, workers and the agreement of phase, drain and close hold over all interleavings |
| Workloads.RegistryHolds | belmont-browse/tools/patch-daemon-active-workloads.py:16-21 | a new registry has that invariant |
| Workloads.Owner.TrackOperation | belmont-browse/tools/patch-daemon-active-workloads.py:31-45 | work is rejected once shutdown began; the obligation is published before it runs |
| Workloads.Owner.OperationSettled | belmont-browse/tools/patch-daemon-active-workloads.py:37-42 | only a failing teardown is recorded, and cancellation never |
| Workloads.Owner.PromptBegins | belmont-browse/tools/patch-daemon-active-workloads.py:50-53 | a prompt registers its agent only while running |
| Workloads.Owner.PromptEnds | belmont-browse/tools/patch-daemon-active-workloads.py:58-67 | the agent leaves, a failure to become idle is recorded, and the result is delivered only if still running |
| Workloads.Owner.OwnWorker | belmont-browse/tools/patch-daemon-active-workloads.py:82-91 | a worker is owned, and told to terminate at once when it comes late |
| Workloads.Owner.TerminateAllWorkers | belmont-browse/tools/patch-daemon-active-workloads.py:113 | every live worker is told once, under a teardown operation of its own |
| Workloads.Owner.StartShutdown | belmont-browse/tools/patch-daemon-active-workloads.py:99-114 | shutdown begins once: agents aborted, backfills stopped, workers told |
| Workloads.Owner.Drain | belmont-browse/tools/patch-daemon-active-workloads.py:115-118 | one drain is shared by all callers |
| Workloads.Owner.DrainLoop | belmont-browse/tools/patch-daemon-active-workloads.py:119-123 | the loop waits while anything is pending or alive, then reports |
| Workloads.Owner.CloseSessionResources | belmont-browse/tools/patch-daemon-active-workloads.py:174-179 | one close is shared; a bad timeout changes nothing |
| Workloads.Owner.Restart | belmont-browse/tools/patch-daemon-active-workloads.py:202-210 | restart succeeds exactly while running or after a clean empty close |
| ShellState.LatestStartedWins | source/box-exec-daemon/server.ts:1573-1575 | in every run, from the moment a call has started until another starts, no exit of any other call, early or late, changes what is or will be published |
| ShellState.JobsAreAtomic | source/box-exec-daemon/server.ts:1573-1596 | a job's outcome is fixed from its turn on, although every file operation is a step boundary for other calls |
| ShellState.LatestPublishes | source/box-exec-daemon/server.ts:1573-1593 | in every run, what the job of the call that started last leaves published until another call starts: aborted it removes the state, without a complete last snapshot it leaves it, and else that snapshot is published unless a move fails |
| ShellState.NewestStartedLast | source/box-exec-daemon/server.ts:1345-1347 | in every run the version map names the call whose start was the last one |
| ShellState.OutputIsTheLastSnapshot | source/box-exec-daemon/server.ts:1573-1582 | until its job has its turn, the private directory of a call holds its last snapshot |
| ShellState.JobsComeFromExits | source/box-exec-daemon/server.ts:1573-1574 | a job is made by the exit of its call, aborted or not as that exit was |
| ShellState.JobsEndInOrder | source/box-exec-daemon/server.ts:1573-1597 | jobs end in the order their calls closed |
| ShellState.CallsWaitForEarlierJobs | source/box-exec-daemon/server.ts:1344-1347 | a call takes its version only after every job that was queued or under way when it began is over |
| ShellState.TurnsEnd | source/box-exec-daemon/server.ts:1574-1596 | a job that has its turn can always go on and comes nearer to its end |
| ShellState.RenamesMove | source/box-exec-daemon/server.ts:1583-1593 | a rename moves what it moves or leaves everything where it was |
| ShellState.StateLostExactlyWhenRestoreFails | source/box-exec-daemon/server.ts:1583-1593 | in any run a swap by the call that started last loses the old state exactly when moving the new one in and the old one back both fail; if only the first fails the old state is back |
| ShellState.OldStateIsLost | source/box-exec-daemon/server.ts:1583-1593 | one such swap |
| ShellState.FinishedCallsLeaveNothing | source/box-exec-daemon/server.ts:1591-1596 | in every run from an unused directory: a call that is over has no private directory and no saved copy left, unless a removal at the end of its own job failed; what fails in other jobs does not matter |
| ShellState.RunKeepsInv | source/box-exec-daemon/server.ts:1345-1347 | a call is waiting, running, queued, in its turn or finished, never two of them, and a job in its turn has what its stage needs |
| ShellState.InitialHolds | source/box-exec-daemon/server.ts:1344-1348 | a state directory nobody uses has that invariant |
| ShellState.Directory.BeginCall | source/box-exec-daemon/server.ts:1344-1345 | a call waits for the write that is last in the queue when it begins |
| ShellState.Directory.ClaimVersion | source/box-exec-daemon/server.ts:1346-1347 | a call's version becomes the newest |
| ShellState.Directory.ProcessClosed | source/box-exec-daemon/server.ts:1573 | a closed call joins the end of the write queue |
| ShellState.Directory.Swap | source/box-exec-daemon/server.ts:1583-1593 | the snapshot is moved in, or the old state is back, or both operations failed |
| ShellState.Directory.RunTurn | source/box-exec-daemon/server.ts:1573-1597 | a whole job publishes what the step-by-step job eventually publishes, and cleans up |
| Grep.ProjectGrepEvents | source/box-exec-daemon/grep-projection.ts:26-77 | the one-pass loop returns exactly the lines of the selected events in order, the number of matches after the offset, and of those the number kept |
| Grep.SelectedIsTheRule | source/box-exec-daemon/grep-projection.ts:8-15 | an event is kept if and only if it is a match with index in [offset, offset + headLimit), or lies in the after-window of the kept match just before it, or is among the last B buffered lines before the next match, of its file, and that match is kept |
| Grep.NoEventTwice | source/box-exec-daemon/grep-projection.ts:37-76 | on any stream no event is kept twice |
| Grep.MatchesInOrder | source/box-exec-daemon/grep-projection.ts:37-76 | on any stream the kept matches come out in order, and each after everything put out before it |
| Grep.OutputIsASubsequence | source/box-exec-daemon/grep-projection.ts:37-76 | on streams grouped by file in which each event starts below the last line that its file's earlier events cover (for single-line matches: with rising line numbers) the output is in input order and shows no line twice |
| Grep.FlushedMeaning | source/box-exec-daemon/grep-projection.ts:70-71 | the lines flushed before a kept match are exactly those the rule attributes to it, in order |
| Grep.MatchCoversItsLines | source/box-exec-daemon/grep-projection.ts:52-74 | a match whose text is several lines is shown without the last line end, and its after-window counts from the last of them |
| Grep.Flush | source/box-exec-daemon/grep-projection.ts:70 | the flush keeps the pending lines of the match's file |
| Glob.CompilerKeepsMeaning | source/box-exec-daemon/server.ts:242-258 | the regular expression written for a glob, read back by a parser of that grammar, accepts exactly the paths the glob denotes, with `**` stopped by line terminators and nothing else |
| Glob.PlainPathsGetTheGlob | source/box-exec-daemon/server.ts:242-258 | on paths without line terminators it accepts exactly what the glob denotes |
| Glob.LineTerminatorsStopStars | source/box-exec-daemon/server.ts:250 | a path with a line terminator where `**` and its regular expression part |
| Glob.UnanchoredMatchesAnySegment | source/box-exec-daemon/server.ts:242-246 | an unanchored pattern matches if and only if it matches the path or its rest from some later segment on |
| Glob.LiteralsStandForThemselves | source/box-exec-daemon/server.ts:254-255 | a pattern without wildcards denotes only itself, whatever regular expression characters it holds |
| Glob.SingleStarsKeepDepth | source/box-exec-daemon/server.ts:252-253 | without `**` a match has as many slashes as the pattern: `*` and `?` stop at slashes |
| Glob.CompiledParses | source/box-exec-daemon/server.ts:247-258 | every compiled pattern is well formed, so that building the regular expression never fails |
| Glob.GlobToIgnoreRegExp | source/box-exec-daemon/server.ts:242-258 | the loop writes the source the compiler's specification gives for the pattern |
| Glob.BuildIgnoreMatcher | source/box-exec-daemon/server.ts:259-263 | one regular expression for each pattern, in order |
| Glob.LiteralPatternsIgnoreByName | source/box-exec-daemon/server.ts:259-263 | a list of plain names ignores exactly the paths that end, at a segment boundary, in one of them |
| McpClient.RequestsSettleAtMostOnce | source/box-exec-daemon/mcp-stdio-client.ts:243-280 | under any mix of responses, timeouts, aborts, write failures, exits and stops every id handed out is pending, settled or forgotten, never two of them, and promises are settled as often as there are outcomes |
| McpClient.RunKeeps | source/box-exec-daemon/mcp-stdio-client.ts:185-298 | outcomes stand, forgotten requests stay forgotten, nothing settled becomes pending again, and a closed or failed client hands out no id |
| McpClient.NothingPendingAfterTheEnd | source/box-exec-daemon/mcp-stdio-client.ts:185-192 | after a failure or a stop nothing is pending in any later run, and every request that was not forgotten has its outcome |
| McpClient.ForgottenForGood | source/box-exec-daemon/mcp-stdio-client.ts:234-239 | a forgotten request never gets an outcome, in any later run |
| McpClient.ForgottenExactlyByNullErrors | source/box-exec-daemon/mcp-stdio-client.ts:201-241 | in any run a request is forgotten if and only if a null error response to it is taken from the stream while it is pending |
| McpClient.OutcomeUnlessForgotten | source/box-exec-daemon/mcp-stdio-client.ts:185-298 | once the client failed or was stopped, a request ever admitted has its outcome if and only if no null error response to it was taken in time |
| McpClient.RequestsEndAsTold | source/box-exec-daemon/mcp-stdio-client.ts:243-280 | in every run a request is refused exactly after a stop, a failure or with an aborted signal; otherwise it is written under the next id and ends as a failing write or the first event that concerns it says |
| McpClient.FirstEventDecides | source/box-exec-daemon/mcp-stdio-client.ts:234-297 | in every run a pending request ends as the first event that concerns it says, and stays so: its first response resolves it, rejects it or forgets it, its timer and abort reject it, a failure or stop rejects it; until then it is pending and can be aborted as before |
| McpClient.TakeLineMeets | source/box-exec-daemon/mcp-stdio-client.ts:234-239 | a line that parses to a response to a pending id settles that request as the response says, and no other pending request changes |
| McpClient.RunRemembers | source/box-exec-daemon/mcp-stdio-client.ts:185-187 | in every run the client is closed exactly after a stop, and keeps the reason of the first failure |
| McpClient.AbortsAreTold | source/box-exec-daemon/mcp-stdio-client.ts:258-263 | an abort that still has its listener tells the server |
| McpClient.RefreshesAreShared | source/box-exec-daemon/mcp-stdio-client.ts:128-129 | a refresh, asked for or announced, begins with one page unless one is under way |
| McpClient.RefreshGoesOn | source/box-exec-daemon/mcp-stdio-client.ts:133-138 | a refresh asks for another page exactly when the last one was resolved and names a cursor, up to 64 pages |
| McpClient.LinesAreDispatched | source/box-exec-daemon/mcp-stdio-client.ts:201-213 | draining a text dispatches what its lines, trimmed, parse to, one by one and in order, and keeps the rest |
| McpClient.TrimMeaning | source/box-exec-daemon/mcp-stdio-client.ts:205-205 | trimming takes away white space at both ends, all of it and nothing else |
| McpClient.RunAccounts | source/box-exec-daemon/mcp-stdio-client.ts:201-280 | the ids sent are 1, 2, 3, ... in order; each server request gets one reply, in order; every result comes from a response to that very request; a request is forgotten only for a response with a null error |
| McpClient.CutsMatterOnlyAfterAStumble | source/box-exec-daemon/mcp-stdio-client.ts:201-241 | from a buffer without a complete line, any two ways to cut a stream lead to the same state, unread buffer included, if and only if no line throws before another complete line |
| McpClient.DispatchDependsOnCutsOnlyWhenWithheld | source/box-exec-daemon/mcp-stdio-client.ts:201-241 | from a buffer without a complete line, any two ways to cut a stream dispatch the same messages, if and only if no line throws before a complete line that parses to a message |
| McpClient.NullLineWithholdsAMessage | source/box-exec-daemon/mcp-stdio-client.ts:208-214 | one text and two ways to cut it: after a null line a message is dispatched with one and withheld with the other |
| McpClient.LineCutsDrain | source/box-exec-daemon/mcp-stdio-client.ts:204-206 | with a chunk for each line every line is handled, even after one that throws |
| McpClient.OneChunkIsWorst | source/box-exec-daemon/mcp-stdio-client.ts:201-241 | no way of cutting dispatches fewer messages than one chunk does |
| McpClient.NullErrorForgets | source/box-exec-daemon/mcp-stdio-client.ts:234-239 | one request and one response to it with a null error, after which the request is forgotten |
| McpClient.Replay | source/box-exec-daemon/mcp-stdio-client.ts:63-298 | a client object that gets any sequence of events is in the state the theorems about runs speak of |
| McpClient.NullLinesStumble | source/box-exec-daemon/mcp-stdio-client.ts:208-214 | any stream with a line `null` before another complete line is such a case |
| McpClient.FeedThenDrain | source/box-exec-daemon/mcp-stdio-client.ts:201-241 | whatever the cuts, what is left in the buffer is what is missing: nothing is lost or reordered |
| McpClient.Client.OnData | source/box-exec-daemon/mcp-stdio-client.ts:201-241 | a chunk is cut into lines and handled until a line throws; the rest stays buffered |
| McpClient.Client.OnMessage | source/box-exec-daemon/mcp-stdio-client.ts:214-240 | a message is a notification, a server request, a response to a pending request, or ignored |
| McpClient.Client.SendRequest | source/box-exec-daemon/mcp-stdio-client.ts:243-280 | a refused request spends no id; an admitted one is pending unless its write throws |
| McpClient.Client.SettlePromise | source/box-exec-daemon/mcp-stdio-client.ts:251-258 | only a pending request can be settled |
| McpClient.Client.OnAbort | source/box-exec-daemon/mcp-stdio-client.ts:259-263 | an abort tells the server and then rejects the request if it is still pending |
| McpClient.Client.RejectPending | source/box-exec-daemon/mcp-stdio-client.ts:187-191 | every pending request is rejected once, for the same reason |
| McpClient.Client.OnFailure | source/box-exec-daemon/mcp-stdio-client.ts:290-297 | the first failure is kept and ends every pending request |
| McpClient.Client.StopClient | source/box-exec-daemon/mcp-stdio-client.ts:185-191 | a stop closes the client and ends every pending request |
| McpClient.Client.StartRefresh | source/box-exec-daemon/mcp-stdio-client.ts:128-129 | one run of tools/list at a time |
| McpClient.Client.PageSettled | source/box-exec-daemon/mcp-stdio-client.ts:133-146 | a run asks for at most 64 pages and ends with the first that fails or names no cursor |
| TextPackets.EncodeDesktopText | grok-mobile-belmont-pwa/src/windows-keyboard.ts:85-110 | a text is refused exactly when it is too long or holds a control character; otherwise the loop yields the packets of the greedy split |
| TextPackets.RefusedExactly | grok-mobile-belmont-pwa/src/windows-keyboard.ts:86-87 | a text is refused exactly when it has more than 4000 units or one of them is a control character |
| TextPackets.TextSurvives | grok-mobile-belmont-pwa/src/windows-keyboard.ts:85-110 | the receiver gets exactly the text if and only if every surrogate in it is paired; a lone one arrives as U+FFFD |
| TextPackets.LoneSurrogateIsLost | grok-mobile-belmont-pwa/src/windows-keyboard.ts:93 | a text that does not survive |
| TextPackets.PacketsAreWhole | grok-mobile-belmont-pwa/src/windows-keyboard.ts:91-100 | each packet is non-empty, has at most 250 payload bytes, and decodes on its own to as many scalars as its header says |
| TextPackets.FewestPackets | grok-mobile-belmont-pwa/src/windows-keyboard.ts:101-107 | no split of the text into groups of at most 250 bytes needs fewer packets |
| TextPackets.GreedyIsTight | grok-mobile-belmont-pwa/src/windows-keyboard.ts:103 | the first scalar of each packet would not have fitted into the one before |
| TextPackets.Flush | grok-mobile-belmont-pwa/src/windows-keyboard.ts:91-100 | the collected strings become one packet, or none if there are none |
| Unicode.DecodeEncode | grok-mobile-belmont-pwa/src/windows-keyboard.ts:93 | strict UTF-8 decoding undoes encoding, but for the replaced surrogates |
| Unicode.UnitsOfCodePoints | grok-mobile-belmont-pwa/src/windows-keyboard.ts:101 | putting a text's code points back together gives the text |
| Unicode.CodePointsOfUnits | grok-mobile-belmont-pwa/src/windows-keyboard.ts:93 | joining code points of one text makes no new surrogate pair |
| KeyChord.SendDesktopKey | grok-mobile-belmont-pwa/src/windows-keyboard.ts:58-80 | however calls throw, the presses run along the chord up to the first that threw and every one of them is then released in reverse order; success means no call threw |
| KeyChord.ReleasesMirrorPresses | grok-mobile-belmont-pwa/src/windows-keyboard.ts:74-77 | each release names the key of its press and restores the modifier state from before it |
| KeyChord.ChordKeysDiffer | grok-mobile-belmont-pwa/src/windows-keyboard.ts:63-66 | no key of a chord is pressed twice |
| KeyChord.KeyGoesDownUnderItsModifiers | grok-mobile-belmont-pwa/src/windows-keyboard.ts:63-76 | the key goes down last and up first, under exactly the wanted modifiers, its own bit aside, and at the end no modifier is held |
| KeyChord.PressChord | grok-mobile-belmont-pwa/src/windows-keyboard.ts:62-71 | the presses stop at the first that throws, with the modifier bits of exactly what is held |
| KeyChord.ReleaseChord | grok-mobile-belmont-pwa/src/windows-keyboard.ts:74-77 | a release that throws does not stop the others |
| Canvas.AgreesWithAlwaysRedrawing | grok-mobile-belmont-pwa/src/windows-canvas.ts:43-89 | for every run of frames, resizes, losses, restores, replaced canvases and throwing draws: at every moment the guarded pipe has on every canvas what a pipe that redraws every time has there, if and only if no draw of the run is skipped on a canvas restored unheard or where the redraw would throw |
| Canvas.StepAgrees | grok-mobile-belmont-pwa/src/windows-canvas.ts:60-89 | one step of both pipes from one page gives one page, unless the guard skips a change |
| Canvas.FirstCanvasIsHeard | grok-mobile-belmont-pwa/src/windows-canvas.ts:52 | with the first canvas alone ever restored, and no redraw that would throw where the guard skips, nothing is missed |
| Canvas.SkipIsRightUnlessUnheard | grok-mobile-belmont-pwa/src/windows-canvas.ts:69-73 | a draw skipped as a duplicate finds exactly the current frame on the canvas, if and only if that canvas was not restored behind the guard's back |
| Canvas.ReplacedCanvasCanStayBlank | grok-mobile-belmont-pwa/src/windows-canvas.ts:52 | the case the guard misses: a later canvas, lost and restored between two draws, stays blank |
| Canvas.DrawShowsTheFrame | grok-mobile-belmont-pwa/src/windows-canvas.ts:60-82 | at any moment of any run a draw that fails nowhere, with a valid frame and a live context, is counted once and ends with the frame showing at its display size, if and only if it was not skipped on a canvas restored unheard |
| Canvas.DrawOutcome | grok-mobile-belmont-pwa/src/windows-canvas.ts:57-88 | every draw: nothing without a frame, size or canvas; forgetting without a live context; a counted skip of what is remembered; else a resize, a paint and a commit that are counted and remembered, or counted as a failure and forgotten |
| Canvas.DrawnOnce | grok-mobile-belmont-pwa/src/windows-canvas.ts:67-71 | a frame that was drawn is skipped by the next draw |
| Canvas.RunKeepsInv | grok-mobile-belmont-pwa/src/windows-canvas.ts:43-89 | the frame remembered is what its canvas shows, unless that canvas is lost or was restored unheard |
| Canvas.Presenter.DrawCurrentFrameIfReady | grok-mobile-belmont-pwa/src/windows-canvas.ts:60-89 | a draw is refused, skipped, done or failed, with the guard's memory updated |
| Canvas.Presenter.GuardedResize | grok-mobile-belmont-pwa/src/windows-canvas.ts:55-60 | only a changed size clears the canvas, and then the guard forgets |
| Transport.Dispatch | grok-mobile-belmont-pwa/src/windows-transport.ts:35-71 | a packet over the 27 lazy buffers: the same outcome and deliveries as over the shared buffer, at most one payload copied, and the original buffer untouched |
| Transport.DispatchCopying | grok-mobile-belmont-pwa/src/windows-transport.ts:28-33 | the reference: the same deliveries, at 27 copies of the packet |
| Transport.DispatchWithEcho | grok-mobile-belmont-pwa/src/windows-transport.ts:41-52 | a listener that answers during the dispatch sends the packet back unchanged and disturbs no delivery |
| Transport.DispatchWhileSending | grok-mobile-belmont-pwa/src/windows-transport.ts:40-70 | a listener that sends any messages on any channels during the dispatch: every message that fits goes out whole and no delivery is disturbed |
| Transport.DispatchNested | grok-mobile-belmont-pwa/src/windows-transport.ts:40-70 | a listener that hands in another packet during the dispatch: both are delivered |
| Transport.SendAll | grok-mobile-belmont-pwa/src/windows-transport.ts:41-63 | any messages on any channels go out whole, one after another |
| Transport.Visit | grok-mobile-belmont-pwa/src/windows-transport.ts:40-70 | reset, put, flip and get on a lazy buffer in any state give the packet's id and, on its own channel, a fresh copy of its payload |
| Transport.VisitCopying | grok-mobile-belmont-pwa/src/windows-transport.ts:6-10 | the same results on the shared buffer |
| Transport.Send | grok-mobile-belmont-pwa/src/windows-transport.ts:41-63 | a message on its way out leaves as its header and payload, through the original buffer |
| Transport.Streamline | grok-mobile-belmont-pwa/src/windows-transport.ts:34-71 | each channel gets a lazy buffer of its own id over the one original buffer |
| Transport.LazyBuffer.GetU8 | grok-mobile-belmont-pwa/src/windows-transport.ts:53-60 | a header is read once, and a foreign packet is dropped at once |
| Transport.LazyBuffer.GetRemainingBuffer | grok-mobile-belmont-pwa/src/windows-transport.ts:61-69 | the payload is an independent exact copy, made once |
| Transport.LazyBuffer.PutU8Array | grok-mobile-belmont-pwa/src/windows-transport.ts:45-51 | an incoming packet is kept by reference; an outgoing one is passed through |
| Transport.LazyBuffer.PutU8 | grok-mobile-belmont-pwa/src/windows-transport.ts:41-44 | the first byte of an outgoing message resets the original buffer |
| Viewer.FramesOnlyWhileShown | grok-mobile-belmont-pwa/src/windows-viewer.ts:149-244 | over any run at most one iframe is in the document, exactly the viewer's frame, only while the page can run and the phase is connecting or ready; at most two retries are used |
| Viewer.EpisodeMakesAtMostTwoFrames | grok-mobile-belmont-pwa/src/windows-viewer.ts:190-198 | between two resets every new frame is the watchdog's and uses up one of two retries |
| Viewer.PersistentFailureEnds | grok-mobile-belmont-pwa/src/windows-viewer.ts:190-198 | a frame that keeps failing is retried until the retries are used up; then the error is published with no frame left, and stays |
| Viewer.DisposedForGood | grok-mobile-belmont-pwa/src/windows-viewer.ts:247-259 | after disposal there is never a frame again |
| Viewer.StuckFramesAreReplaced | grok-mobile-belmont-pwa/src/windows-viewer.ts:237-243 | at any moment of any run a frame connecting for 20 seconds, or ready without progress for 8, is replaced or ends in the error, with no other frame left |
| Viewer.ForgivenOnlyWhenHealthy | grok-mobile-belmont-pwa/src/windows-viewer.ts:238-240 | a run without resume or reconnect gets retries back only if a tick on the way found a healthy frame ready for 30 seconds |
| Viewer.FrameExactlyWhenShown | grok-mobile-belmont-pwa/src/windows-viewer.ts:146-218 | in every run there is a frame exactly while the page was last told that it is visible, not left and not frozen, the viewer is not disposed, and no error is published |
| Viewer.TicksDecide | grok-mobile-belmont-pwa/src/windows-viewer.ts:226-244 | at any moment of any run a tick replaces a frame in trouble or publishes the error; otherwise the frame stays, is ready from the first healthy tick on, its progress is noted, and after thirty healthy seconds the retries are given back |
| Viewer.FramesAreMadeExactly | grok-mobile-belmont-pwa/src/windows-viewer.ts:162-218 | at any moment before disposal the exact reasons for a new frame: shown again, reconnected not too early, online after the error, a tick with a retry left; only the tick costs one, and the error goes away only so or when the page is hidden |
| Viewer.Replay | grok-mobile-belmont-pwa/src/windows-viewer.ts:128-261 | a viewer object that gets any sequence of events is in the state the theorems about runs speak of |
| Viewer.WindowsViewer.Watchdog | grok-mobile-belmont-pwa/src/windows-viewer.ts:226-244 | one tick: health, timer gap, progress, stall, readiness and connection limit, in that order |
| Viewer.WindowsViewer.StartFrame | grok-mobile-belmont-pwa/src/windows-viewer.ts:162-188 | a frame is made only when the page can run and there is none |
| Viewer.WindowsViewer.RetryFrame | grok-mobile-belmont-pwa/src/windows-viewer.ts:190-198 | a retry detaches first and ends suspended, in error, or with a new frame |
| Viewer.WindowsViewer.ReconnectFrame | grok-mobile-belmont-pwa/src/windows-viewer.ts:200-205 | a reconnect begins a new episode unless a connection is under way for less than 20 seconds |
| Viewer.WindowsViewer.ResumeFrame | grok-mobile-belmont-pwa/src/windows-viewer.ts:207-211 | a resume begins a new episode unless there is a frame or an error |
| Viewer.WindowsViewer.SuspendViewer | grok-mobile-belmont-pwa/src/windows-viewer.ts:157-160 | suspending leaves no frame |
| Viewer.WindowsViewer.Dispose | grok-mobile-belmont-pwa/src/windows-viewer.ts:249-259 | disposal leaves no frame |
| SendIntent.SameMessageSameNonce | grok-mobile-belmont-pwa/src/send-intent.ts:13-19 | whatever was lost, reloaded or remounted on the way: while the message submitted last is neither accepted nor replaced by other content, sending it again prepares it again under its own nonce |
| SendIntent.SubmissionsCarryOneNonce | grok-mobile-belmont-pwa/src/screens/ChatScreen.tsx:188-193 | a submission is of the message carried, under its nonce, or there is none to carry; and it is in the journal before it leaves |
| SendIntent.CarriedIsJournaled | grok-mobile-belmont-pwa/src/send-intent-journal.ts:59-62 | until it is accepted the submitted message stays in the journal, whatever happens to its component |
| SendIntent.CarriedUntilAccepted | grok-mobile-belmont-pwa/src/use-send-intent.ts:26-36 | in any run the message carried is given up only by a step that accepts it or prepares other content |
| SendIntent.ResentUnderOneNonce | grok-mobile-belmont-pwa/src/use-send-intent.ts:26-36 | in every run, from a submission until a step accepts the message or prepares another one, it stays in the journal and any send of it is the same intent |
| SendIntent.MountsRecover | grok-mobile-belmont-pwa/src/use-send-intent.ts:13-23 | a mounted component cannot send before the journal has answered; its read brings the record the earlier transactions left |
| SendIntent.SendGoesThrough | grok-mobile-belmont-pwa/src/use-send-intent.ts:26-36 | a whole send: journaled, then submitted, and after acceptance known neither to the journal nor to the component |
| SendIntent.NonceNamesOneMessage | grok-mobile-belmont-pwa/src/send-intent.ts:18 | two submissions under one nonce are the same intent |
| SendIntent.AcceptedMeansNewMessage | grok-mobile-belmont-pwa/src/send-intent.ts:12-19 | at any moment of any run, once nothing is pending the same text is a new message under a nonce no submission had |
| SendIntent.PreparedAgainExactly | grok-mobile-belmont-pwa/src/send-intent.ts:13-19 | at any moment of any run a send prepares the pending intent again exactly when text, files by name and bytes are the same, and else a new intent under a nonce not used before |
| SendIntent.DeletedOnlyByItsOwnNonce | grok-mobile-belmont-pwa/src/send-intent-journal.ts:63-74 | whatever transactions any number of components run, a record disappears only by a clear that names its own nonce or by clearing everything |
| SendIntent.RecordIsTheLastSaved | grok-mobile-belmont-pwa/src/send-intent-journal.ts:59-74 | whatever transactions run on an empty journal, the record under a key is the one saved there last that was not cleared by its own nonce or wholesale |
| SendIntent.OtherConversationsAreSafe | grok-mobile-belmont-pwa/src/send-intent-journal.ts:59-70 | transactions for one conversation never touch the record of another |
| SendIntent.OthersTakeTheirTurn | grok-mobile-belmont-pwa/src/send-intent-journal.ts:59-70 | a transaction for another conversation runs in its turn, and nothing of this one changes |
| SendIntent.RunKeepsInv | grok-mobile-belmont-pwa/src/use-send-intent.ts:13-36 | journal, queue of transactions, recovery read, component and send task agree over every run |
| SendIntent.Journal.ReadIntent | grok-mobile-belmont-pwa/src/send-intent-journal.ts:44-57 | a read finds the record of its conversation |
| SendIntent.Journal.SaveIntent | grok-mobile-belmont-pwa/src/send-intent-journal.ts:59-61 | a save replaces the record of its conversation |
| SendIntent.Journal.ClearIntent | grok-mobile-belmont-pwa/src/send-intent-journal.ts:63-70 | a clear deletes the record only if it still has the same nonce |
| SendIntent.Journal.ClearJournal | grok-mobile-belmont-pwa/src/send-intent-journal.ts:72-74 | everything is deleted |
| SendIntent.SendHook.Prepare | grok-mobile-belmont-pwa/src/use-send-intent.ts:26-31 | nothing is prepared before the recovery read; then the same content gives back the pending intent |
| SendIntent.SendHook.AcceptedCleared | grok-mobile-belmont-pwa/src/use-send-intent.ts:33-36 | only the accepted intent is forgotten |
| SendIntent.Conversation.TransactNext | grok-mobile-belmont-pwa/src/send-intent-journal.ts:40-52 | a transaction commits or aborts as a whole, and only its own component goes on |
| SendIntent.Conversation.SendNext | grok-mobile-belmont-pwa/src/use-send-intent.ts:26-31 | sending prepares the intent and asks for it to be saved |
| SendIntent.Conversation.MountNext | grok-mobile-belmont-pwa/src/use-send-intent.ts:13-23 | a new component starts without a pending intent and asks the journal |
| SendIntent.Replay | grok-mobile-belmont-pwa/src/use-send-intent.ts:6-39 | a conversation object that gets any sequence of events is in the state the theorems about runs speak of |
| JsonKey.KeyReadsBack | grok-mobile-belmont-pwa/src/send-intent-journal.ts:7 | the JSON key of a conversation can be read back |
| JsonKey.KeysDiffer | grok-mobile-belmont-pwa/src/send-intent-journal.ts:7 | two conversations have one key only if they are the same |
| Pointer.PathIsRoundedOnce | grok-mobile-belmont-pwa/src/windows-pointer.ts:45-57 | however long the run and wherever it was reset, the moves sent since the last reset are the distance rounded once, with a remainder in [-1/2, 1/2) on each axis, and every move fits signed 16 bits |
| Pointer.SmoothRunConserves | grok-mobile-belmont-pwa/src/windows-pointer.ts:45-57 | as long as moves go through, right after a reset or later, those sent add up to the distances in host pixels (picture size over rectangle size times sensitivity), up to the two remainders |
| Pointer.SmoothPathIsRoundedOnce | grok-mobile-belmont-pwa/src/windows-pointer.ts:45-57 | from a reset on, as long as moves go through, what was sent is the sum of the distances in host pixels rounded once |
| Pointer.MovesInHostPixels | grok-mobile-belmont-pwa/src/windows-pointer.ts:27-63 | one move in any reachable state: refused and forgotten if malformed, too far for 16 bits or thrown at; else the nearest whole host pixels are sent, unless zero, and the remainders kept, which count only while the set-up is the same |
| Pointer.RunKeepsInv | grok-mobile-belmont-pwa/src/windows-pointer.ts:27-63 | what was wanted is what was sent and the remainder, over resets, bad input, outliers and throwing targets |
| Pointer.RelativePointer.MoveTo | grok-mobile-belmont-pwa/src/windows-pointer.ts:27-63 | a move is refused with a reset or advances both axes; it succeeds exactly when the set-up is kept |
| Pointer.RelativePointer.ResetPointer | grok-mobile-belmont-pwa/src/windows-pointer.ts:17-23 | a reset forgets the set-up and both remainders |
| Gesture.ButtonsAreBalanced | belmont-mobile-pwa/src/app.js:989-1031 | for every sequence of touches and long presses in which no drag's own pointer is pressed again, downs and ups alternate starting with a down, clicks and scrolls come only between them, the button is held exactly during a drag, and it is released when no finger is left |
| Gesture.InitialHolds | belmont-mobile-pwa/src/app.js:981-984 | an untouched screen has the invariant of the theorem |
| Gesture.HeldAsDraggedUnlessPressedAgain | belmont-mobile-pwa/src/app.js:989-1031 | while the socket stays open, the button is held exactly during a drag at every moment of a run if and only if no drag's own pointer is pressed again |
| Gesture.MidDragSticks | belmont-mobile-pwa/src/app.js:992-996 | pressing a drag's pointer again forgets the drag and leaves the button held |
| Gesture.PressedAgainStaysHeld | belmont-mobile-pwa/src/app.js:992-1016 | one such run: press, drag, press again |
| Gesture.OneFingerSends | belmont-mobile-pwa/src/app.js:989-1029 | a finger down, along any path and up again sends exactly a tap if it stays within twelve pixels and under half a second, or a drag from its start if it goes beyond |
| Gesture.LongPressSends | belmont-mobile-pwa/src/app.js:995-1028 | a finger that stays near until its long press sends one right click and then nothing, wherever it goes |
| Gesture.DragsHaveNoLongPress | belmont-mobile-pwa/src/app.js:1015-1015 | once a drag has begun its long press is off |
| Gesture.ScrollsFollowTheFingers | belmont-mobile-pwa/src/app.js:1007-1011 | the scrolls sent while two fingers move add up to how far their middle has gone up, to within one step of forty |
| Gesture.SecondFingerScrolls | belmont-mobile-pwa/src/app.js:997-1001 | a second finger lets go of a drag and begins such a scroll at the middle |
| Gesture.OverwrittenLongPressClicks | belmont-mobile-pwa/src/app.js:992-996 | a finger pressed again before its long press leaves that timer running, and it clicks where the finger was first |
| Gesture.Replay | belmont-mobile-pwa/src/app.js:981-1031 | a screen object that gets any sequence of events is in the state the theorems about runs speak of |
| Gesture.ScreenInput.PointerDown | belmont-mobile-pwa/src/app.js:989-1002 | a first finger begins a gesture, a second one ends its drag and begins a scroll |
| Gesture.ScreenInput.PointerMove | belmont-mobile-pwa/src/app.js:1003-1018 | a move scrolls by steps, begins a drag beyond twelve pixels, or moves one |
| Gesture.ScreenInput.PointerFinish | belmont-mobile-pwa/src/app.js:1019-1029 | the last finger of a drag releases, a short touch clicks |
| Gesture.ScreenInput.TimerFires | belmont-mobile-pwa/src/app.js:995 | a long press clicks unless a drag has begun |

## Left out

- Transcript listeners and re-entrant calls from them: publishing is a single update of the snapshot.
- The server's page building (row filters, ids for rows without one): a page is a contiguous run of log rows, of which some show an entry under a fixed id.
- TranscriptGap.NoSilentHoles: local updates are taken to change only optimistic echoes, as the screens do; an update that deleted confirmed entries would open a hole.
- Timers as durations: a timeout or an abort is a step the adversary may take; only the viewer's watchdog and the tap limit compare times.
- Microtask order below the steps named here, for example between a settled promise and its first continuation.
- Lifecycle.StopReportsEveryFailure: failures are compared by value, so that equal failures count as one, as identical error objects do in the source's set.
- Workloads.Owner.StartShutdown: the errors thrown by agents' aborts are a parameter, and a socket's close events are steps; the socket cache is a set of ids.
- Websocket leases of the workloads shim (`acquireWebSocket`): a single guard before and after an await.
- ShellState.Directory.RunTurn: a directory is its content or absent, and each file operation succeeds or fails as a whole.
- The `ls` tree budget, path resolution, terminal metadata and every other handler of the exec daemon.
- Glob.CompilerKeepsMeaning: the regular-expression engine is its meaning; a `char` stands for one UTF-16 code unit, and the parser reads only the grammar the compiler writes.
- JSON parsing: what a line parses to is a parameter of the grep and JSON-RPC models. A ripgrep line that is the JSON text `null` would throw in the source; the grep model takes it as a line of another kind.
- McpClient.CutsMatterOnlyAfterAStumble: nothing in the daemon catches what the data handler throws, so a process would normally end there; the theorems about a line that throws describe a process that is kept alive.
- McpClient.ForgottenForGood: the same holds for a response with a null error, which throws in the same handler.
- Prompts outside a tracked operation: the workloads model lets a prompt run on its own, which the daemon does only inside operations it tracks; the theorems hold for both.
- McpClient.Client.OnData: whether writing to the server throws is fixed while one chunk is handled; the content of tool lists and tool results is a number.
- The process side of the JSON-RPC client (spawn, signals, stderr tail) and the normalisation of tool results.
- Canvas.AgreesWithAlwaysRedrawing: a canvas has one context, and nothing else draws on it or transfers it away.
- Transport.VisitCopying: the upstream buffer is not part of the repository; it is modelled as a byte list with an optional capacity.
- Viewer health itself (documents, sockets, decoders): a tick's health is a parameter.
- ShellState and Canvas objects are tied to their step functions method by method, without a `Replay`: between the steps of a job, and between draws, the rest of the program acts.
- SendIntent.SameMessageSameNonce: one component of a conversation is mounted at a time and nothing is cleared wholesale on the way; two tabs that prepare the same text at once get two nonces.
- Damaged journal records (`validIntent`) and storage that cannot be opened: a record is a valid intent, and a failing transaction leaves the journal as it was.
- JsonKey.KeyReadsBack: lone surrogates in ids, which JSON escapes too, do not occur.
- Pointer.PathIsRoundedOnce: floating-point rounding; the arithmetic is exact.
- Gesture geometry: display coordinates are given as reals, and the distance is compared by squares.
- Rendering, fetch wrappers, push subscriptions, service workers, text patching and build plumbing.

// grok-mobile-belmont-pwa/src/send-intent.ts, send-intent-journal.ts and use-send-intent.ts: the identity
// of a message that is being sent.
//
// A nonce is a number; the random source and the clock are parameters. The journal's transactions on the
// store run one after another, in the order they were asked for, and each commits or aborts as a whole.

module SendIntent {
  import opened Common
  import JsonKey

  datatype Attachment = Attachment(id: string, name: string, bytes: string)

  datatype Input = Input(botId: string, text: string, attachments: seq<Attachment>, replyToId: Option<string>)

  datatype Intent = Intent(input: Input, nonce: nat, timestamp: int)

  // ----- preparing -----

  predicate SameFiles(a: seq<Attachment>, b: seq<Attachment>) {
    |a| == |b| && forall k | 0 <= k < |a| :: a[k].name == b[k].name && a[k].bytes == b[k].bytes
  }

  /** The same message; the ids of its files do not matter. */
  predicate SameContent(a: Input, b: Input) {
    a.botId == b.botId && a.text == b.text && a.replyToId == b.replyToId && SameFiles(a.attachments, b.attachments)
  }

  function PrepareSendIntent(previous: Option<Intent>, input: Input, nonce: nat, now: int): Intent {
    if previous.Some? && SameContent(previous.value.input, input) then previous.value else Intent(input, nonce, now)
  }

  function Key(input: Input): string {
    JsonKey.ScopeKey(input.botId, input.replyToId)
  }

  // ----- the journal -----

  /** `mount` is the component that waits for the transaction. */
  datatype Op =
    | Read(mount: nat, key: string)
    | Save(mount: nat, intent: Intent)
    | Clear(mount: nat, intent: Intent)
    | ClearAll

  function Apply(journal: map<string, Intent>, op: Op): map<string, Intent> {
    match op
    case Read(_, _) => journal
    case Save(_, intent) => journal[Key(intent.input) := intent]
    case Clear(_, intent) =>
      var key := Key(intent.input);
      if key in journal && journal[key].nonce == intent.nonce then journal - {key} else journal
    case ClearAll => map[]
  }

  function ApplyAll(journal: map<string, Intent>, ops: seq<Op>): map<string, Intent>
    decreases |ops|
  {
    if ops == [] then journal else ApplyAll(Apply(journal, ops[0]), ops[1..])
  }

  class Journal {
    var records: map<string, Intent>

    constructor ()
      ensures records == map[]
    {
      records := map[];
    }

    method ReadIntent(botId: string, replyToId: Option<string>) returns (intent: Option<Intent>)
      ensures var key := JsonKey.ScopeKey(botId, replyToId);
              intent == if key in records then Some(records[key]) else None
    {
      var key := JsonKey.ScopeKey(botId, replyToId);
      if key in records { return Some(records[key]); }
      return None;
    }

    method SaveIntent(intent: Intent, ghost mount: nat)
      modifies this
      ensures records == Apply(old(records), Save(mount, intent))
    {
      records := records[JsonKey.ScopeKey(intent.input.botId, intent.input.replyToId) := intent];
    }

    method ClearIntent(intent: Intent, ghost mount: nat)
      modifies this
      ensures records == Apply(old(records), Clear(mount, intent))
    {
      var key := JsonKey.ScopeKey(intent.input.botId, intent.input.replyToId);
      if key in records && records[key].nonce == intent.nonce { records := records - {key}; }
    }

    method ClearJournal()
      modifies this
      ensures records == Apply(old(records), ClearAll)
    {
      records := map[];
    }
  }

  /** Transaction k takes the record under `key` away: it clears that very nonce, or everything. */
  predicate TakesAway(journal: map<string, Intent>, ops: seq<Op>, k: nat, key: string)
    requires k < |ops|
  {
    var before := ApplyAll(journal, ops[..k]);
    && key in before
    && (|| ops[k].ClearAll?
        || (ops[k].Clear? && Key(ops[k].intent.input) == key && ops[k].intent.nonce == before[key].nonce))
  }

  lemma {:induction false} ApplyLast(journal: map<string, Intent>, ops: seq<Op>)
    requires ops != []
    ensures ApplyAll(journal, ops) == Apply(ApplyAll(journal, ops[..|ops| - 1]), ops[|ops| - 1])
    decreases |ops|
  {
    if |ops| > 1 {
      ApplyLast(Apply(journal, ops[0]), ops[1..]);
      assert ops[1..][..|ops| - 2] == ops[..|ops| - 1][1..];
    }
  }

  /** Whatever transactions any number of components run, a record is gone afterwards only because a
      clear named its own nonce or everything was cleared. */
  lemma {:induction false} DeletedOnlyByItsOwnNonce(journal: map<string, Intent>, ops: seq<Op>, key: string)
    requires key in journal && key !in ApplyAll(journal, ops)
    ensures exists k :: 0 <= k < |ops| && TakesAway(journal, ops, k, key)
    decreases |ops|
  {
    var n := |ops| - 1;
    ApplyLast(journal, ops);
    if key in ApplyAll(journal, ops[..n]) {
      assert TakesAway(journal, ops, n, key);
    } else {
      DeletedOnlyByItsOwnNonce(journal, ops[..n], key);
      var k :| 0 <= k < n && TakesAway(journal, ops[..n], k, key);
      assert ops[..n][..k] == ops[..k];
      assert TakesAway(journal, ops, k, key);
    }
  }

  /** Transactions for one conversation never touch the record of another. */
  lemma OtherConversationsAreSafe(journal: map<string, Intent>, intent: Intent, mount: nat,
                                  botId: string, replyToId: Option<string>)
    requires intent.input.botId != botId || intent.input.replyToId != replyToId
    ensures var key := JsonKey.ScopeKey(botId, replyToId);
            forall op | op == Save(mount, intent) || op == Clear(mount, intent) ::
              && (key in Apply(journal, op) <==> key in journal)
              && (key in journal ==> Apply(journal, op)[key] == journal[key])
  {
    JsonKey.KeysDiffer(intent.input.botId, intent.input.replyToId, botId, replyToId);
  }

  // ----- one conversation, from mount to mount -----

  /** The send task of the mounted component. */
  datatype Task =
    | Idle
    | Persisting(intent: Intent)
    | Persisted(intent: Intent)
    | Sent(intent: Intent)
    | Clearing(intent: Intent)

  /** `mount` numbers the components of the conversation, of which only the last one is mounted;
      `arrived` is what its recovery read has found. `issued` are all intents made here and `carried` is
      the last message submitted, until it is accepted or a different one is prepared. */
  datatype State = State(
    botId: string,
    replyToId: Option<string>,
    journal: map<string, Intent>,
    queue: seq<Op>,
    mount: nat,
    arrived: Option<Option<Intent>>,
    ready: bool,
    pending: Option<Intent>,
    task: Task,
    issued: map<nat, Intent>,
    submitted: seq<Intent>,
    carried: Option<Intent>)

  function Here(s: State): string {
    JsonKey.ScopeKey(s.botId, s.replyToId)
  }

  function Lookup(s: State): Option<Intent> {
    if Here(s) in s.journal then Some(s.journal[Here(s)]) else None
  }

  function InputOf(s: State, text: string, files: seq<Attachment>): Input {
    Input(s.botId, text, files, s.replyToId)
  }

  /** A new component mounts: its recovery read is the last transaction asked for. */
  function Mount(s: State, kept: nat): State {
    s.(mount := s.mount + 1, arrived := None, ready := false, pending := None, task := Idle,
       queue := (if kept < |s.queue| then s.queue[..kept] else s.queue) + [Read(s.mount + 1, Here(s))])
  }

  function Recovered(s: State): State
    requires s.arrived.Some?
  {
    s.(pending := s.arrived.value, ready := true, arrived := None)
  }

  /** `send`: prepare and ask for the intent to be saved. */
  function Send(s: State, text: string, files: seq<Attachment>, nonce: nat, now: int): State {
    var intent := PrepareSendIntent(s.pending, InputOf(s, text, files), nonce, now);
    s.(pending := Some(intent), task := Persisting(intent), queue := s.queue + [Save(s.mount, intent)],
       issued := s.issued[intent.nonce := intent],
       carried := if s.carried.Some? && SameContent(s.carried.value.input, intent.input) then s.carried else None)
  }

  function Submit(s: State): State
    requires s.task.Persisted?
  {
    s.(task := Sent(s.task.intent), submitted := s.submitted + [s.task.intent], carried := Some(s.task.intent))
  }

  /** `accepted` is called. */
  function Accept(s: State, intent: Intent): State {
    s.(task := Clearing(intent), queue := s.queue + [Clear(s.mount, intent)],
       carried := if s.carried.Some? && s.carried.value.nonce == intent.nonce then None else s.carried)
  }

  /** The next transaction commits or aborts, and the mounted component goes on if it was its own. */
  function Transact(s: State, commits: bool): State
    requires s.queue != []
  {
    var op := s.queue[0];
    var t := s.(queue := s.queue[1..], journal := if commits then Apply(s.journal, op) else s.journal);
    match op
    case Read(mount, key) =>
      if mount == s.mount && key == Here(s) && !s.ready && commits then t.(arrived := Some(Lookup(s))) else t
    case Save(mount, intent) =>
      if mount == s.mount && s.task == Persisting(intent) then t.(task := if commits then Persisted(intent) else Idle) else t
    case Clear(mount, intent) =>
      if mount == s.mount && s.task == Clearing(intent) then
        t.(task := Idle,
           pending := if commits && s.pending.Some? && s.pending.value.nonce == intent.nonce then None else s.pending)
      else t
    case ClearAll => t
  }

  /** The mounted component's side of these steps. */
  class SendHook {
    const botId: string
    const replyToId: Option<string>
    var ready: bool
    var pendingIntent: Option<Intent>

    constructor (botId: string, replyToId: Option<string>)
      ensures this.botId == botId && this.replyToId == replyToId && !ready && pendingIntent == None
    {
      this.botId, this.replyToId, ready, pendingIntent := botId, replyToId, false, None;
    }

    method RecoveryRead(found: Option<Intent>)
      modifies this
      ensures ready && pendingIntent == found
    {
      pendingIntent := found;
      ready := true;
    }

    /** None: the earlier sends are not known yet. */
    method Prepare(text: string, files: seq<Attachment>, nonce: nat, now: int) returns (intent: Option<Intent>)
      modifies this`pendingIntent
      ensures if ready then
                && intent == Some(PrepareSendIntent(old(pendingIntent), Input(botId, text, files, replyToId), nonce, now))
                && pendingIntent == intent
              else intent == None && pendingIntent == old(pendingIntent)
    {
      if !ready { return None; }
      var input := Input(botId, text, files, replyToId);
      if pendingIntent.Some? && SameContent(pendingIntent.value.input, input) { return pendingIntent; }
      intent := Some(Intent(input, nonce, now));
      pendingIntent := intent;
    }

    /** The clear has committed. */
    method AcceptedCleared(intent: Intent)
      modifies this`pendingIntent
      ensures pendingIntent ==
                if old(pendingIntent).Some? && old(pendingIntent).value.nonce == intent.nonce then None
                else old(pendingIntent)
    {
      if pendingIntent.Some? && pendingIntent.value.nonce == intent.nonce { pendingIntent := None; }
    }
  }

  // ----- runs -----

  /** A mount after a reload keeps only some of the transactions asked for before; `ElsewhereEvent` are
      transactions for other conversations, from any component or tab. */
  datatype Event =
    | MountEvent(kept: nat)
    | RecoveredEvent
    | SendEvent(text: string, files: seq<Attachment>, nonce: nat, now: int)
    | TransactEvent(commits: bool)
    | SubmitEvent
    | ResponseEvent(accepted: bool)
    | StopAcceptedEvent
    | ElsewhereEvent(op: Op)

  predicate IsElsewhere(s: State, op: Op) {
    match op
    case Read(_, key) => key != Here(s)
    case Save(_, intent) => Key(intent.input) != Here(s)
    case Clear(_, intent) => Key(intent.input) != Here(s)
    case ClearAll => false
  }

  predicate Enabled(s: State, e: Event) {
    match e
    case MountEvent(_) => true
    case RecoveredEvent => s.arrived.Some?
    case SendEvent(_, _, nonce, _) => s.ready && s.task.Idle? && nonce !in s.issued
    case TransactEvent(_) => s.queue != []
    case SubmitEvent => s.task.Persisted?
    case ResponseEvent(_) => s.task.Sent?
    case StopAcceptedEvent => s.ready && s.task.Idle? && s.pending.Some?
    case ElsewhereEvent(op) => IsElsewhere(s, op)
  }

  function Step(s: State, e: Event): State {
    if !Enabled(s, e) then s
    else
      match e
      case MountEvent(kept) => Mount(s, kept)
      case RecoveredEvent => Recovered(s)
      case SendEvent(text, files, nonce, now) => Send(s, text, files, nonce, now)
      case TransactEvent(commits) => Transact(s, commits)
      case SubmitEvent => Submit(s)
      case ResponseEvent(accepted) => if accepted then Accept(s, s.task.intent) else s.(task := Idle)
      case StopAcceptedEvent => Accept(s, s.pending.value)
      case ElsewhereEvent(op) => s.(queue := s.queue + [op])
  }

  function Run(s: State, events: seq<Event>): State
    decreases |events|
  {
    if events == [] then s else Run(Step(s, events[0]), events[1..])
  }

  lemma {:induction false} RunOneMore(s: State, events: seq<Event>, i: nat)
    requires i < |events|
    ensures Run(s, events[..i + 1]) == Step(Run(s, events[..i]), events[i])
    decreases |events|
  {
    hide Step;
    if i == 0 {
      assert events[..1] == [events[0]] && events[..1][1..] == [] && events[..0] == [];
    } else {
      assert events[..i + 1][1..] == events[1..][..i] && events[..i][1..] == events[1..][..i - 1];
      RunOneMore(Step(s, events[0]), events[1..], i - 1);
    }
  }

  /** This transaction leaves the record of `intent` under its key. */
  predicate Harmless(op: Op, intent: Intent) {
    match op
    case Read(_, _) => true
    case Save(_, saved) => Key(saved.input) != Key(intent.input) || saved == intent
    case Clear(_, cleared) => Key(cleared.input) != Key(intent.input) || cleared.nonce != intent.nonce
    case ClearAll => false
  }

  predicate AllHarmless(ops: seq<Op>, intent: Intent) {
    forall op | op in ops :: Harmless(op, intent)
  }

  /** The journal holds the intent, now and after everything asked for so far. */
  predicate Kept(s: State, intent: Intent) {
    Key(intent.input) == Here(s) && Lookup(s) == Some(intent) && AllHarmless(s.queue, intent)
  }

  /** A save of the mounted component. */
  predicate OwnSave(s: State, op: Op) {
    op.Save? && op.mount == s.mount && Key(op.intent.input) == Here(s)
  }

  /** Its save is still to run, and nothing asked for after it harms it. */
  ghost predicate ComingAt(s: State, intent: Intent, k: nat) {
    && k < |s.queue| && s.queue[k] == Save(s.mount, intent)
    && AllHarmless(s.queue[k + 1..], intent)
    && forall j | 0 <= j < |s.queue| && j != k :: !OwnSave(s, s.queue[j])
  }

  ghost predicate Coming(s: State, intent: Intent) {
    Key(intent.input) == Here(s) && exists k: nat :: ComingAt(s, intent, k)
  }

  predicate InTask(s: State, intent: Intent) {
    s.ready && s.pending == Some(intent)
  }

  ghost predicate TaskHolds(s: State) {
    match s.task
    case Idle => true
    case Persisting(intent) => InTask(s, intent) && Coming(s, intent) && (s.carried.Some? ==> s.carried.value == intent)
    case Persisted(intent) => InTask(s, intent) && Kept(s, intent) && (s.carried.Some? ==> s.carried.value == intent)
    case Sent(intent) => InTask(s, intent) && s.carried == Some(intent)
    case Clearing(intent) => InTask(s, intent) && s.carried.None?
  }

  /** The carried message is in the journal, and it is what the mounted component knows or will find. */
  predicate CarriedHolds(s: State) {
    s.carried.Some? ==>
      && Kept(s, s.carried.value)
      && (s.ready ==> s.pending == s.carried)
      && (s.arrived.Some? ==> s.arrived.value == s.carried)
  }

  /** An intent of this conversation, under the one nonce it was made with. */
  predicate Mine(s: State, intent: Intent) {
    Key(intent.input) == Here(s) && intent.nonce in s.issued && s.issued[intent.nonce] == intent
  }

  predicate MineIfAny(s: State, intent: Option<Intent>) {
    intent.Some? ==> Mine(s, intent.value)
  }

  predicate KnownHolds(s: State) {
    && MineIfAny(s, s.pending) && MineIfAny(s, Lookup(s)) && (s.arrived.Some? ==> MineIfAny(s, s.arrived.value))
    && (forall op | op in s.queue && op.Save? :: Key(op.intent.input) == Here(s) ==> Mine(s, op.intent))
    && (forall intent | intent in s.submitted :: Mine(s, intent))
    && (s.ready ==> s.arrived.None?)
  }

  /** Only the mounted component's current save is in the queue under its number. */
  predicate QueueHolds(s: State) {
    && (forall op | op in s.queue && op.Save? && Key(op.intent.input) == Here(s) :: op.mount <= s.mount)
    && (!s.task.Persisting? ==> forall op | op in s.queue :: !OwnSave(s, op))
  }

  ghost predicate Inv(s: State) {
    KnownHolds(s) && QueueHolds(s) && TaskHolds(s) && CarriedHolds(s)
  }

  function Fresh(botId: string, replyToId: Option<string>, journal: map<string, Intent>): State {
    var key := JsonKey.ScopeKey(botId, replyToId);
    State(botId, replyToId, journal, [Read(0, key)], 0, None, false, None, Idle,
          if key in journal then map[journal[key].nonce := journal[key]] else map[], [], None)
  }

  lemma FreshHolds(botId: string, replyToId: Option<string>, journal: map<string, Intent>)
    requires var key := JsonKey.ScopeKey(botId, replyToId); key in journal ==> Key(journal[key].input) == key
    ensures Inv(Fresh(botId, replyToId, journal))
  {
    hide JsonKey.ScopeKey;
  }

  lemma MountKeeps(s: State, kept: nat)
    requires Inv(s)
    ensures Inv(Mount(s, kept))
  {
    hide JsonKey.ScopeKey;
    var t := Mount(s, kept);
    assert forall op | op in t.queue :: op in s.queue || op == Read(t.mount, Here(s));
  }

  lemma SendKeeps(s: State, text: string, files: seq<Attachment>, nonce: nat, now: int)
    requires Inv(s) && s.ready && s.task.Idle? && nonce !in s.issued
    ensures Inv(Send(s, text, files, nonce, now))
  {
    hide JsonKey.ScopeKey;
    var t := Send(s, text, files, nonce, now);
    var intent := t.task.intent;
    assert Mine(t, intent);
    assert forall x | Mine(s, x) :: Mine(t, x);
    var k := |s.queue|;
    assert t.queue[k] == Save(t.mount, intent) && t.queue[k + 1..] == [];
    assert forall j | 0 <= j < k :: t.queue[j] == s.queue[j] && s.queue[j] in s.queue;
    assert ComingAt(t, intent, k);
    assert forall op | op in t.queue :: op in s.queue || op == Save(s.mount, intent);
  }

  lemma AcceptKeeps(s: State, intent: Intent)
    requires Inv(s) && InTask(s, intent) && (s.task.Idle? || s.task == Sent(intent))
    ensures Inv(Accept(s, intent))
  {
    hide JsonKey.ScopeKey;
    var t := Accept(s, intent);
    assert forall op | op in t.queue :: op in s.queue || op == Clear(s.mount, intent);
  }

  lemma AppendedIn(ops: seq<Op>, op: Op)
    ensures forall o :: o in ops + [op] <==> o in ops || o == op
  {
  }

  lemma ComingStays(s: State, op: Op, intent: Intent)
    requires Coming(s, intent) && Harmless(op, intent) && !OwnSave(s, op)
    ensures Coming(s.(queue := s.queue + [op]), intent)
  {
    hide JsonKey.ScopeKey;
    hide Harmless;
    var k: nat :| ComingAt(s, intent, k);
    var t := s.(queue := s.queue + [op]);
    assert t.queue[k + 1..] == s.queue[k + 1..] + [op];
    AppendedIn(s.queue[k + 1..], op);
    assert ComingAt(t, intent, k);
  }

  lemma ElsewhereKeeps(s: State, op: Op)
    requires Inv(s) && IsElsewhere(s, op)
    ensures Inv(s.(queue := s.queue + [op]))
  {
    hide JsonKey.ScopeKey;
    hide Coming;
    AppendedIn(s.queue, op);
    if s.task.Persisting? { ComingStays(s, op, s.task.intent); }
  }

  lemma SubmitKeeps(s: State)
    requires Inv(s) && s.task.Persisted?
    ensures Inv(Submit(s))
  {
    hide JsonKey.ScopeKey;
    assert forall x | x in Submit(s).submitted :: x in s.submitted || x == s.task.intent;
  }

  lemma TailIn(ops: seq<Op>)
    requires ops != []
    ensures ops[0] in ops && forall op :: op in ops[1..] ==> op in ops
  {
  }

  lemma HarmlessApply(journal: map<string, Intent>, op: Op, intent: Intent)
    requires Key(intent.input) in journal && journal[Key(intent.input)] == intent && Harmless(op, intent)
    ensures Key(intent.input) in Apply(journal, op) && Apply(journal, op)[Key(intent.input)] == intent
  {
  }

  /** A kept intent survives the next transaction. */
  lemma KeptSurvives(s: State, commits: bool, intent: Intent)
    requires Kept(s, intent) && s.queue != []
    ensures Kept(Transact(s, commits), intent)
  {
    hide JsonKey.ScopeKey;
    hide Harmless, Apply;
    TailIn(s.queue);
    HarmlessApply(s.journal, s.queue[0], intent);
    assert Here(Transact(s, commits)) == Here(s);
  }

  /** The next transaction runs the save, or brings it one step nearer. */
  lemma ComingAdvances(s: State, commits: bool, intent: Intent)
    requires Coming(s, intent) && s.task == Persisting(intent) && s.queue != []
    ensures var t := Transact(s, commits);
            if OwnSave(s, s.queue[0])
            then && t.task == (if commits then Persisted(intent) else Idle)
                 && (commits ==> Kept(t, intent))
                 && forall op | op in t.queue :: !OwnSave(t, op)
            else t.task == s.task && Coming(t, intent)
  {
    hide JsonKey.ScopeKey;
    hide Harmless;
    var k: nat :| ComingAt(s, intent, k);
    var t := Transact(s, commits);
    assert forall op :: OwnSave(t, op) <==> OwnSave(s, op);
    if k == 0 {
      forall op | op in t.queue ensures !OwnSave(t, op) {
        var j :| 0 <= j < |t.queue| && t.queue[j] == op;
        assert s.queue[j + 1] == op;
      }
    } else {
      assert !OwnSave(s, s.queue[0]);
      assert t.queue[k - 1] == s.queue[k] && t.queue[k..] == s.queue[k + 1..];
      assert ComingAt(t, intent, k - 1);
    }
  }

  lemma TransactKeepsKnown(s: State, commits: bool)
    requires Inv(s) && s.queue != []
    ensures KnownHolds(Transact(s, commits))
  {
    hide TaskHolds, CarriedHolds, QueueHolds, Lookup, Apply, Key, Here;
    TailIn(s.queue);
    var t := Transact(s, commits);
    SameHere(s, commits);
    LookupStaysMine(s, commits);
  }

  lemma SameHere(s: State, commits: bool)
    requires s.queue != []
    ensures var t := Transact(s, commits); Here(t) == Here(s) && forall x :: Mine(t, x) <==> Mine(s, x)
  {
    hide JsonKey.ScopeKey, Apply, Lookup;
  }

  lemma LookupStaysMine(s: State, commits: bool)
    requires KnownHolds(s) && s.queue != []
    ensures MineIfAny(s, Lookup(Transact(s, commits)))
  {
    hide JsonKey.ScopeKey, Apply, Transact;
    LookupAfter(s, commits);
    assert s.queue[0] in s.queue;
  }

  /** What a transaction leaves of the record here: the one before, none, or one of our own saves. */
  lemma LookupAfter(s: State, commits: bool)
    requires s.queue != []
    ensures var t := Transact(s, commits);
            Lookup(t).Some? ==>
              || Lookup(t) == Lookup(s)
              || (s.queue[0].Save? && Key(s.queue[0].intent.input) == Here(s) && Lookup(t).value == s.queue[0].intent)
  {
    hide JsonKey.ScopeKey;
  }

  lemma TransactKeepsQueue(s: State, commits: bool)
    requires Inv(s) && s.queue != []
    ensures QueueHolds(Transact(s, commits))
  {
    hide JsonKey.ScopeKey;
    hide KnownHolds, CarriedHolds, Apply, Kept, Coming;
    TailIn(s.queue);
    var t := Transact(s, commits);
    assert forall op :: OwnSave(t, op) <==> OwnSave(s, op);
    if s.task.Persisting? { ComingAdvances(s, commits, s.task.intent); }
  }

  lemma TransactKeepsTask(s: State, commits: bool)
    requires Inv(s) && s.queue != []
    ensures TaskHolds(Transact(s, commits))
  {
    hide JsonKey.ScopeKey;
    hide KnownHolds, QueueHolds, Apply, Kept, Coming;
    match s.task
    case Persisting(intent) => ComingAdvances(s, commits, intent);
    case Persisted(intent) => KeptSurvives(s, commits, intent);
    case _ =>
  }

  lemma TransactKeepsCarried(s: State, commits: bool)
    requires Inv(s) && s.queue != []
    ensures CarriedHolds(Transact(s, commits))
  {
    hide JsonKey.ScopeKey;
    hide KnownHolds, QueueHolds, Apply, Coming, AllHarmless;
    if s.carried.Some? { KeptSurvives(s, commits, s.carried.value); }
  }

  lemma StepKeepsInv(s: State, e: Event)
    requires Inv(s)
    ensures Inv(Step(s, e))
  {
    hide Transact, Mount, Send, Accept, Submit, KnownHolds, QueueHolds, Coming, Kept;
    if Enabled(s, e) {
      match e {
        case MountEvent(kept) => MountKeeps(s, kept);
        case RecoveredEvent => RecoveredKeeps(s);
        case SendEvent(text, files, nonce, now) => SendKeeps(s, text, files, nonce, now);
        case TransactEvent(commits) =>
          TransactKeepsKnown(s, commits);
          TransactKeepsQueue(s, commits);
          TransactKeepsTask(s, commits);
          TransactKeepsCarried(s, commits);
        case SubmitEvent => SubmitKeeps(s);
        case ResponseEvent(accepted) => if accepted { AcceptKeeps(s, s.task.intent); } else { LostKeeps(s); }
        case StopAcceptedEvent => AcceptKeeps(s, s.pending.value);
        case ElsewhereEvent(op) => ElsewhereKeeps(s, op);
      }
    }
  }

  lemma RecoveredKeeps(s: State)
    requires Inv(s) && s.arrived.Some?
    ensures Inv(Recovered(s))
  {
    hide JsonKey.ScopeKey;
  }

  lemma LostKeeps(s: State)
    requires Inv(s) && s.task.Sent?
    ensures Inv(s.(task := Idle))
  {
  }

  lemma {:induction false} RunKeepsInv(s: State, events: seq<Event>)
    requires Inv(s)
    ensures Inv(Run(s, events))
    decreases |events|
  {
    hide Step, Inv;
    if events != [] {
      StepKeepsInv(s, events[0]);
      RunKeepsInv(Step(s, events[0]), events[1..]);
    }
  }

  // ----- the journal and its components as objects -----

  /** A conversation: the journal, the component mounted now, and the transactions under way. */
  class Conversation {
    const botId: string
    const replyToId: Option<string>
    const journal: Journal
    var hook: SendHook
    var queue: seq<Op>
    var mount: nat
    var arrived: Option<Option<Intent>>
    var task: Task
    var issued: map<nat, Intent>
    var submitted: seq<Intent>
    var carried: Option<Intent>

    predicate Valid()
      reads this, hook
    {
      hook.botId == botId && hook.replyToId == replyToId
    }

    function View(): State
      reads this, hook, journal
    {
      State(botId, replyToId, journal.records, queue, mount, arrived, hook.ready, hook.pendingIntent,
            task, issued, submitted, carried)
    }

    constructor (botId: string, replyToId: Option<string>)
      ensures Valid() && View() == Fresh(botId, replyToId, map[]) && fresh(hook) && fresh(journal)
    {
      this.botId, this.replyToId := botId, replyToId;
      journal := new Journal();
      hook := new SendHook(botId, replyToId);
      queue, mount, arrived, task := [Read(0, JsonKey.ScopeKey(botId, replyToId))], 0, None, Idle;
      issued, submitted, carried := map[], [], None;
    }

    method MountNext(kept: nat)
      requires Valid()
      modifies this
      ensures Valid() && fresh(hook) && View() == Mount(old(View()), kept)
    {
      hide JsonKey.ScopeKey;
      hook := new SendHook(botId, replyToId);
      mount, arrived, task := mount + 1, None, Idle;
      queue := (if kept < |queue| then queue[..kept] else queue) + [Read(mount, JsonKey.ScopeKey(botId, replyToId))];
    }

    method Commit(op: Op)
      modifies journal
      ensures journal.records == Apply(old(journal.records), op)
    {
      match op {
        case Read(_, _) =>
        case Save(owner, intent) => journal.SaveIntent(intent, owner);
        case Clear(owner, intent) => journal.ClearIntent(intent, owner);
        case ClearAll => journal.ClearJournal();
      }
    }

    method TransactNext(commits: bool)
      requires Valid() && queue != []
      modifies this, hook, journal
      ensures Valid() && hook == old(hook) && View() == Transact(old(View()), commits)
    {
      hide Apply, JsonKey.ScopeKey;
      var op := queue[0];
      queue := queue[1..];
      match op {
        case Read(owner, key) =>
          if owner == mount && key == JsonKey.ScopeKey(botId, replyToId) && !hook.ready && commits {
            var found := journal.ReadIntent(botId, replyToId);
            arrived := Some(found);
          }
        case Save(owner, intent) =>
          if owner == mount && task == Persisting(intent) { task := if commits then Persisted(intent) else Idle; }
        case Clear(owner, intent) =>
          if owner == mount && task == Clearing(intent) {
            task := Idle;
            if commits { hook.AcceptedCleared(intent); }
          }
        case ClearAll =>
      }
      if commits { Commit(op); }
    }

    method SendNext(text: string, files: seq<Attachment>, nonce: nat, now: int)
      requires Valid() && hook.ready
      modifies this, hook
      ensures Valid() && hook == old(hook) && View() == Send(old(View()), text, files, nonce, now)
    {
      hide SameContent;
      var prepared := hook.Prepare(text, files, nonce, now);
      var intent := prepared.value;
      task := Persisting(intent);
      queue := queue + [Save(mount, intent)];
      issued := issued[intent.nonce := intent];
      if carried.Some? && !SameContent(carried.value.input, intent.input) { carried := None; }
    }

    method Accepted(intent: Intent)
      modifies this`task, this`queue, this`carried
      ensures View() == Accept(old(View()), intent)
    {
      task := Clearing(intent);
      queue := queue + [Clear(mount, intent)];
      if carried.Some? && carried.value.nonce == intent.nonce { carried := None; }
    }

    method Perform(e: Event)
      requires Valid()
      modifies this, hook, journal
      ensures Valid() && (hook == old(hook) || fresh(hook)) && View() == Step(old(View()), e)
    {
      hide Mount, Transact, Send, Accept;
      if !Enabled(View(), e) { return; }
      match e {
        case MountEvent(kept) => MountNext(kept);
        case RecoveredEvent =>
          hook.RecoveryRead(arrived.value);
          arrived := None;
        case SendEvent(text, files, nonce, now) => SendNext(text, files, nonce, now);
        case TransactEvent(commits) => TransactNext(commits);
        case SubmitEvent =>
          submitted := submitted + [task.intent];
          carried := Some(task.intent);
          task := Sent(task.intent);
        case ResponseEvent(accepted) => if accepted { Accepted(task.intent); } else { task := Idle; }
        case StopAcceptedEvent => Accepted(hook.pendingIntent.value);
        case ElsewhereEvent(op) => queue := queue + [op];
      }
    }
  }

  /** A conversation that gets these events is in the state the theorems about runs speak of. */
  method Replay(botId: string, replyToId: Option<string>, events: seq<Event>) returns (chat: Conversation)
    ensures fresh(chat) && chat.Valid() && chat.View() == Run(Fresh(botId, replyToId, map[]), events)
  {
    hide Step, Fresh;
    chat := new Conversation(botId, replyToId);
    assert events[..0] == [];
    for i := 0 to |events|
      invariant fresh(chat) && fresh(chat.hook) && fresh(chat.journal) && chat.Valid()
      invariant chat.View() == Run(Fresh(botId, replyToId, map[]), events[..i])
    {
      chat.Perform(events[i]);
      RunOneMore(Fresh(botId, replyToId, map[]), events, i);
    }
    assert events[..|events|] == events;
  }

  // ----- one identity per message -----

  /** Whatever was lost, reloaded or remounted on the way: while the message submitted last is not
      accepted and no different one is prepared, sending its text and files again prepares it again,
      under its own nonce. */
  lemma SameMessageSameNonce(s: State, events: seq<Event>, text: string, files: seq<Attachment>, nonce: nat, now: int)
    requires Inv(s)
    requires var t := Run(s, events);
             && t.carried.Some? && Enabled(t, SendEvent(text, files, nonce, now))
             && SameContent(t.carried.value.input, InputOf(t, text, files))
    ensures var t := Run(s, events);
            Step(t, SendEvent(text, files, nonce, now)).task == Persisting(t.carried.value)
  {
    RunKeepsInv(s, events);
  }

  /** So a submission is either of the message carried, under its nonce, or there is none to carry; and
      it is in the journal before it leaves. */
  lemma SubmissionsCarryOneNonce(s: State, events: seq<Event>)
    requires Inv(s) && Run(s, events).task.Persisted?
    ensures var t := Run(s, events);
            && (t.carried.Some? ==> t.task.intent == t.carried.value)
            && Lookup(t) == Some(t.task.intent)
  {
    RunKeepsInv(s, events);
  }

  /** Until it is accepted the carried message is in the journal, whatever happens to the component. */
  lemma CarriedIsJournaled(s: State, events: seq<Event>)
    requires Inv(s) && Run(s, events).carried.Some?
    ensures Lookup(Run(s, events)) == Run(s, events).carried
  {
    RunKeepsInv(s, events);
  }

  /** The steps that give up the message carried: its acceptance, and preparing other content. */
  predicate GivesUp(s: State, e: Event) {
    && s.carried.Some?
    && (|| (e == ResponseEvent(true) && s.task == Sent(s.carried.value))
        || (e.StopAcceptedEvent? && s.pending == s.carried)
        || (e.SendEvent? && !SameContent(s.carried.value.input, InputOf(s, e.text, e.files))))
  }

  lemma GivingUpStep(s: State, e: Event)
    requires Inv(s) && s.carried.Some? && Step(s, e).carried != s.carried
    ensures GivesUp(s, e)
  {
    hide JsonKey.ScopeKey;
  }

  /** In any run, a message carried at the start is no longer carried at the end only if some step on the
      way accepted it or prepared other content. */
  lemma {:induction false} CarriedUntilAccepted(s: State, events: seq<Event>)
    requires Inv(s) && s.carried.Some? && Run(s, events).carried != s.carried
    ensures exists k | 0 <= k < |events| ::
              Run(s, events[..k]).carried == s.carried && GivesUp(Run(s, events[..k]), events[k])
    decreases |events|
  {
    hide Step, Inv, GivesUp;
    assert Run(s, []) == s;
    var n := |events| - 1;
    assert events[..n + 1] == events;
    RunOneMore(s, events, n);
    if Run(s, events[..n]).carried == s.carried {
      RunKeepsInv(s, events[..n]);
      GivingUpStep(Run(s, events[..n]), events[n]);
    } else {
      CarriedUntilAccepted(s, events[..n]);
      var k :| 0 <= k < |events[..n]|
            && Run(s, events[..n][..k]).carried == s.carried && GivesUp(Run(s, events[..n][..k]), events[..n][k]);
      assert events[..n][..k] == events[..k] && events[..n][k] == events[k];
    }
  }

  /** A nonce names one message: two submissions under one nonce are the same intent. */
  lemma NonceNamesOneMessage(s: State, events: seq<Event>, j: nat, k: nat)
    requires Inv(s)
    requires var t := Run(s, events); j < |t.submitted| && k < |t.submitted|
    ensures var t := Run(s, events);
            t.submitted[j].nonce == t.submitted[k].nonce ==> t.submitted[j] == t.submitted[k]
  {
    RunKeepsInv(s, events);
    var t := Run(s, events);
    assert t.submitted[j] in t.submitted && t.submitted[k] in t.submitted;
  }

  /** At any moment of any run, once nothing is pending, any text is a new message, under a nonce that no
      submission had. */
  lemma AcceptedMeansNewMessage(s: State, events: seq<Event>, text: string, files: seq<Attachment>, nonce: nat, now: int)
    requires Inv(s)
    requires var t := Run(s, events); t.pending.None? && Enabled(t, SendEvent(text, files, nonce, now))
    ensures var t := Run(s, events);
            && Step(t, SendEvent(text, files, nonce, now)).task == Persisting(Intent(InputOf(t, text, files), nonce, now))
            && forall intent | intent in t.submitted :: intent.nonce != nonce
  {
    RunKeepsInv(s, events);
  }

  // ----- what is prepared -----

  /** The text, and the names and bytes of the files in their order. */
  predicate IsMessage(input: Input, text: string, files: seq<Attachment>) {
    && input.text == text
    && |input.attachments| == |files|
    && forall k | 0 <= k < |files| :: input.attachments[k].name == files[k].name && input.attachments[k].bytes == files[k].bytes
  }

  lemma MineIsHere(s: State, intent: Intent)
    requires Mine(s, intent)
    ensures intent.input.botId == s.botId && intent.input.replyToId == s.replyToId
  {
    if intent.input.botId != s.botId || intent.input.replyToId != s.replyToId {
      JsonKey.KeysDiffer(intent.input.botId, intent.input.replyToId, s.botId, s.replyToId);
    }
  }

  /** At any moment of any run: what a send prepares is the pending intent, nonce and time included, if that
      is the same message, and otherwise a new intent under a nonce that no intent here had before. */
  lemma PreparedAgainExactly(s: State, events: seq<Event>, text: string, files: seq<Attachment>, nonce: nat, now: int)
    requires Inv(s) && Enabled(Run(s, events), SendEvent(text, files, nonce, now))
    ensures var t := Run(s, events);
            var u := Step(t, SendEvent(text, files, nonce, now));
            && u.task.Persisting? && u.pending == Some(u.task.intent)
            && (t.pending.Some? ==> t.pending.value.nonce != nonce)
            && (Lookup(t).Some? ==> Lookup(t).value.nonce != nonce)
            && u.task.intent ==
                 if t.pending.Some? && IsMessage(t.pending.value.input, text, files) then t.pending.value
                 else Intent(Input(t.botId, text, files, t.replyToId), nonce, now)
  {
    hide JsonKey.ScopeKey;
    RunKeepsInv(s, events);
    var t := Run(s, events);
    if t.pending.Some? { MineIsHere(t, t.pending.value); }
  }

  /** A step that accepts the message or prepares another one. */
  predicate Ends(s: State, e: Event, intent: Intent) {
    && Enabled(s, e)
    && (|| (e == ResponseEvent(true) && s.task == Sent(intent))
        || (e.StopAcceptedEvent? && s.pending == Some(intent))
        || (e.SendEvent? && !IsMessage(intent.input, e.text, e.files)))
  }

  lemma CarriedIsMine(s: State)
    requires Inv(s) && s.carried.Some?
    ensures Mine(s, s.carried.value)
  {
    hide JsonKey.ScopeKey;
  }

  lemma EndsIsGivingUp(s: State, e: Event)
    requires Inv(s) && s.carried.Some?
    ensures GivesUp(s, e) && Step(s, e).carried != s.carried ==> Ends(s, e, s.carried.value)
  {
    CarriedIsMine(s);
    MineIsHere(s, s.carried.value);
    hide JsonKey.ScopeKey;
  }

  ghost predicate NeverEnds(s: State, events: seq<Event>, intent: Intent)
    decreases |events|
  {
    events != [] ==> !Ends(s, events[0], intent) && NeverEnds(Step(s, events[0]), events[1..], intent)
  }

  lemma {:induction false} CarriedOn(s: State, events: seq<Event>, intent: Intent)
    requires Inv(s) && s.carried == Some(intent) && NeverEnds(s, events, intent)
    ensures Inv(Run(s, events)) && Run(s, events).carried == Some(intent)
    decreases |events|
  {
    hide Step, Inv, Ends, GivesUp;
    if events != [] {
      StepKeepsInv(s, events[0]);
      if Step(s, events[0]).carried != s.carried { GivingUpStep(s, events[0]); }
      EndsIsGivingUp(s, events[0]);
      CarriedOn(Step(s, events[0]), events[1..], intent);
    }
  }

  /** In every run: from a submission on, whatever is lost, reloaded, remounted or aborted, until a step
      accepts the message or prepares another one, the message stays in the journal and any send of it
      is the same intent again. */
  lemma ResentUnderOneNonce(s: State, before: seq<Event>, after: seq<Event>, e: Event)
    requires Inv(s) && Enabled(Run(s, before), SubmitEvent)
    requires NeverEnds(Step(Run(s, before), SubmitEvent), after, Run(s, before).task.intent)
    ensures var intent := Run(s, before).task.intent;
            var submitted := Step(Run(s, before), SubmitEvent);
            var t := Run(submitted, after);
            && submitted.submitted == Run(s, before).submitted + [intent]
            && Lookup(t) == Some(intent)
            && (e.SendEvent? && Enabled(t, e) && IsMessage(intent.input, e.text, e.files) ==>
                  Step(t, e).task == Persisting(intent))
            && (t.task.Persisted? ==> t.task.intent == intent)
  {
    hide Step;
    RunKeepsInv(s, before);
    var u := Run(s, before);
    var intent := u.task.intent;
    StepKeepsInv(u, SubmitEvent);
    SubmitCarries(u);
    CarriedOn(Step(u, SubmitEvent), after, intent);
    var t := Run(Step(u, SubmitEvent), after);
    CarriedFacts(t, e);
  }

  lemma SubmitCarries(s: State)
    requires Enabled(s, SubmitEvent)
    ensures Step(s, SubmitEvent).carried == Some(s.task.intent) && Step(s, SubmitEvent).submitted == s.submitted + [s.task.intent]
  {
  }

  lemma CarriedFacts(s: State, e: Event)
    requires Inv(s) && s.carried.Some?
    ensures Lookup(s) == s.carried
    ensures s.task.Persisted? ==> s.task.intent == s.carried.value
    ensures e.SendEvent? && Enabled(s, e) && IsMessage(s.carried.value.input, e.text, e.files) ==>
              Step(s, e).task == Persisting(s.carried.value)
  {
    CarriedIsMine(s);
    MineIsHere(s, s.carried.value);
    hide JsonKey.ScopeKey;
  }

  // ----- the journal and the recovery read -----

  /** The record that this transaction leaves alone. */
  predicate Spares(op: Op, key: string, intent: Intent) {
    match op
    case Read(_, _) => true
    case Save(_, saved) => JsonKey.ScopeKey(saved.input.botId, saved.input.replyToId) != key
    case Clear(_, cleared) =>
      JsonKey.ScopeKey(cleared.input.botId, cleared.input.replyToId) != key || cleared.nonce != intent.nonce
    case ClearAll => false
  }

  predicate SavedAt(ops: seq<Op>, k: nat, key: string, intent: Intent) {
    && k < |ops| && ops[k].Save? && ops[k].intent == intent
    && JsonKey.ScopeKey(intent.input.botId, intent.input.replyToId) == key
    && forall j | k < j < |ops| :: Spares(ops[j], key, intent)
  }

  /** Whatever transactions any number of components run on an empty journal, the record under a key is the
      one saved there last, unless it was cleared by its own nonce or everything was. */
  lemma {:induction false} RecordIsTheLastSaved(ops: seq<Op>, key: string, intent: Intent)
    ensures (key in ApplyAll(map[], ops) && ApplyAll(map[], ops)[key] == intent) <==> exists k: nat :: SavedAt(ops, k, key, intent)
    decreases |ops|
  {
    hide JsonKey.ScopeKey;
    if ops != [] {
      var n := |ops| - 1;
      var init, last := ops[..n], ops[n];
      ApplyLast(map[], ops);
      RecordIsTheLastSaved(init, key, intent);
      SavedInOneMore(init, last, key, intent);
      assert ops == init + [last];
    }
  }

  lemma SavedInOneMore(init: seq<Op>, last: Op, key: string, intent: Intent)
    ensures (exists k: nat :: SavedAt(init + [last], k, key, intent)) <==>
              || (last.Save? && last.intent == intent && JsonKey.ScopeKey(intent.input.botId, intent.input.replyToId) == key)
              || ((exists k: nat :: SavedAt(init, k, key, intent)) && Spares(last, key, intent))
  {
    hide JsonKey.ScopeKey, Spares;
    var ops := init + [last];
    if k: nat :| SavedAt(ops, k, key, intent) {
      if k < |init| {
        assert Spares(ops[|init|], key, intent);
        assert forall j | k < j < |init| :: ops[j] == init[j];
        assert SavedAt(init, k, key, intent);
      }
    }
    if k: nat :| SavedAt(init, k, key, intent) {
      if Spares(last, key, intent) { assert SavedAt(ops, k, key, intent); }
    }
    if last.Save? && last.intent == intent && JsonKey.ScopeKey(intent.input.botId, intent.input.replyToId) == key {
      assert SavedAt(ops, |init|, key, intent);
    }
  }

  function Commits(n: nat): seq<Event> {
    if n == 0 then [] else [TransactEvent(true)] + Commits(n - 1)
  }

  lemma {:induction false} CommitsReachTheRead(s: State)
    requires s.queue != [] && s.queue[|s.queue| - 1] == Read(s.mount, Here(s)) && !s.ready && s.task.Idle?
    ensures var t := Run(s, Commits(|s.queue|));
            && t.queue == [] && t.arrived == Some(Lookup(t)) && t.mount == s.mount && Here(t) == Here(s) && !t.ready
            && t.journal == ApplyAll(s.journal, s.queue)
    decreases |s.queue|
  {
    hide JsonKey.ScopeKey, Apply, Lookup;
    var e, next := TransactEvent(true), Step(s, TransactEvent(true));
    assert Commits(|s.queue|)[0] == e && Commits(|s.queue|)[1..] == Commits(|s.queue| - 1);
    CommitStep(s);
    if |s.queue| > 1 {
      CommitsReachTheRead(next);
    } else {
      assert s.queue[1..] == [] && Commits(0) == [];
    }
  }

  lemma CommitStep(s: State)
    requires s.queue != [] && !s.ready && s.task.Idle?
    ensures var t := Step(s, TransactEvent(true));
            && t.queue == s.queue[1..] && t.mount == s.mount && Here(t) == Here(s) && !t.ready && t.task.Idle?
            && t.journal == Apply(s.journal, s.queue[0])
            && (s.queue[0] == Read(s.mount, Here(s)) ==> t.arrived == Some(Lookup(t)))
  {
    hide JsonKey.ScopeKey;
  }

  /** After a mount nothing can be sent before the journal has answered; once the transactions before have
      committed, the component's read brings the record they left, and with it the component is ready. */
  lemma MountsRecover(s: State, kept: nat)
    ensures var mounted := Step(s, MountEvent(kept));
            var t := Run(mounted, Commits(|mounted.queue|));
            var u := Step(t, RecoveredEvent);
            && !mounted.ready && !t.ready && mounted.pending.None? && mounted.arrived.None?
            && mounted.queue == (if kept < |s.queue| then s.queue[..kept] else s.queue) + [Read(s.mount + 1, Here(s))]
            && t.journal == ApplyAll(s.journal, mounted.queue)
            && u.ready && u.pending == Lookup(t) && u.task.Idle?
            && forall text, files, nonce, now :: !Enabled(mounted, SendEvent(text, files, nonce, now))
  {
    hide JsonKey.ScopeKey, Lookup;
    var mounted := Step(s, MountEvent(kept));
    CommitsReachTheRead(mounted);
    CommitsStayIdle(mounted, |mounted.queue|);
  }

  lemma {:induction false} CommitsStayIdle(s: State, n: nat)
    requires n <= |s.queue| && !s.ready && s.task.Idle?
    ensures Run(s, Commits(n)).task.Idle?
    decreases n
  {
    hide JsonKey.ScopeKey, Apply, Lookup;
    if n > 0 {
      assert Commits(n)[0] == TransactEvent(true) && Commits(n)[1..] == Commits(n - 1);
      CommitStep(s);
      CommitsStayIdle(Step(s, TransactEvent(true)), n - 1);
    }
  }

  /** One whole send from a ready component with no transaction under way: the intent is journaled, then
      submitted, and after its acceptance neither the journal nor the component knows it. */
  lemma SendGoesThrough(s: State, text: string, files: seq<Attachment>, nonce: nat, now: int)
    requires Inv(s) && s.queue == [] && Enabled(s, SendEvent(text, files, nonce, now))
    ensures var intent := PrepareSendIntent(s.pending, InputOf(s, text, files), nonce, now);
            var saved := Step(Step(s, SendEvent(text, files, nonce, now)), TransactEvent(true));
            var sent := Step(saved, SubmitEvent);
            var done := Step(Step(sent, ResponseEvent(true)), TransactEvent(true));
            && Lookup(saved) == Some(intent) && saved.submitted == s.submitted
            && sent.submitted == s.submitted + [intent]
            && Lookup(done).None? && done.pending.None? && done.task.Idle? && done.carried.None?
            && done.journal.Keys == s.journal.Keys - {Here(s)}
  {
    hide JsonKey.ScopeKey;
    var t := Step(s, SendEvent(text, files, nonce, now));
    SendKeeps(s, text, files, nonce, now);
    var intent := t.task.intent;
    assert t.queue == [Save(s.mount, intent)] && Key(intent.input) == Here(s);
    var saved := Step(t, TransactEvent(true));
    assert saved.queue == [] && saved.task == Persisted(intent) && saved.journal == s.journal[Here(s) := intent];
    var sent := Step(saved, SubmitEvent);
    var accepted := Step(sent, ResponseEvent(true));
    assert accepted.queue == [Clear(s.mount, intent)] && accepted.journal == saved.journal;
  }

  /** A transaction for another conversation runs in its turn, and nothing of this one changes. */
  lemma OthersTakeTheirTurn(s: State, op: Op)
    requires Inv(s) && s.queue == [] && IsElsewhere(s, op) && !op.Read?
    ensures var t := Step(Step(s, ElsewhereEvent(op)), TransactEvent(true));
            t == s.(journal := Apply(s.journal, op)) && Lookup(t) == Lookup(s)
  {
    hide JsonKey.ScopeKey;
    assert s.queue + [op] == [op] && [op][1..] == [];
    assert s.task != Persisting(op.intent) && s.task != Clearing(op.intent);
  }
}

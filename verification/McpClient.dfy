// source/box-exec-daemon/mcp-stdio-client.ts: JSON-RPC over the standard streams of a server process.
//
// JSON parsing is a parameter. Data chunks, timers, abort signals, exits and calls come in any order
// the adversary likes; a handler runs to its end before the next one.

module McpClient {
  import opened Common

  datatype Id = Number(n: int) | Text(s: string)

  /** The `error` member of a message: absent, null, or an object with or without a message text. */
  datatype ErrorField = NoError | NullError | ErrorObject(message: string)

  /** `name` is the JSON-RPC member `method`. */
  datatype Message = Message(id: Option<Id>, name: Option<string>, error: ErrorField, result: nat)

  /** What JSON.parse makes of a line: it throws, yields null, or a value with (possibly absent) members. */
  datatype Json = Malformed | Null | Value(message: Message)

  datatype Reason =
    | ServerError(message: string) | Aborted | TimedOut
    | WriteFailed(message: string) | Failed(message: string) | Stopped | Closed

  datatype Outcome = Resolved(result: nat) | Rejected(reason: Reason)

  datatype Signal = NoSignal | Live | AlreadyAborted

  datatype Packet =
    | Call(id: nat, name: string)
    | Cancelled(request: nat)
    | PingReply(to: Id)
    | Unsupported(to: Id, name: string)

  /** A run of tools/list: the pages asked for, and the request the run waits for, if it was admitted. */
  datatype Refresh = Refresh(pages: nat, current: Option<nat>)

  const MAX_PAGES := 64

  /** `listeners` are the requests whose abort listener is attached, `settled` the outcomes of the
      promises, `settles` how often one was resolved or rejected, `dropped` the requests forgotten
      without an outcome, `broken` the error a write to the server throws at the moment. */
  datatype State = State(
    nextId: nat,
    buffer: string,
    pending: set<nat>,
    listeners: set<nat>,
    settled: map<nat, Outcome>,
    settles: nat,
    dropped: set<nat>,
    closed: bool,
    startError: Option<string>,
    broken: Option<string>,
    refresh: Option<Refresh>,
    written: seq<Packet>,
    dispatched: seq<Message>)

  const Initial := State(1, "", {}, {}, map[], 0, {}, false, None, None, None, [], [])

  // ----- requests -----

  /** The promise of `id` is resolved or rejected, if the request is pending. */
  function Settle(s: State, id: nat, outcome: Outcome): State {
    if id !in s.pending then s
    else s.(pending := s.pending - {id}, listeners := s.listeners - {id},
            settled := s.settled[id := outcome], settles := s.settles + 1)
  }

  function Refusal(s: State, signal: Signal): Option<Reason> {
    if s.closed then Some(Closed)
    else if s.startError.Some? then Some(Failed(s.startError.value))
    else if signal.AlreadyAborted? then Some(Aborted)
    else None
  }

  function Request(s: State, name: string, signal: Signal): State {
    if Refusal(s, signal).Some? then s
    else
      var sent := s.(nextId := s.nextId + 1,
                     pending := s.pending + {s.nextId},
                     listeners := if signal.Live? then s.listeners + {s.nextId} else s.listeners,
                     written := s.written + [Call(s.nextId, name)]);
      if s.broken.Some? then Settle(sent, s.nextId, Rejected(WriteFailed(s.broken.value))) else sent
  }

  function RequestPage(s: State, pages: nat): State {
    var t := Request(s, "tools/list", NoSignal);
    t.(refresh := Some(Refresh(pages + 1, if t.nextId > s.nextId then Some(s.nextId) else None)))
  }

  function RefreshTools(s: State): State {
    if s.refresh.Some? then s else RequestPage(s, 0)
  }

  predicate CanResume(s: State) {
    s.refresh.Some? && (s.refresh.value.current.Some? ==> s.refresh.value.current.value in s.settled)
  }

  /** The page of a refresh has settled; `more` tells whether it names a next cursor. */
  function ResumeRefresh(s: State, more: bool): State
    requires CanResume(s)
  {
    var run := s.refresh.value;
    if run.current.Some? && s.settled[run.current.value].Resolved? && more && run.pages < MAX_PAGES
    then RequestPage(s, run.pages)
    else s.(refresh := None)
  }

  function Abort(s: State, id: nat): State {
    Settle(s.(listeners := s.listeners - {id}, written := s.written + [Cancelled(id)]), id, Rejected(Aborted))
  }

  function Rejections(ids: set<nat>, reason: Reason): map<nat, Outcome> {
    map id | id in ids :: Rejected(reason)
  }

  /** Every pending request is rejected for the same reason. */
  function RejectAll(s: State, reason: Reason): State {
    s.(pending := {}, listeners := s.listeners - s.pending,
       settled := s.settled + Rejections(s.pending, reason),
       settles := s.settles + |s.pending|)
  }

  function Fail(s: State, reason: string): State {
    RejectAll(s.(startError := if s.startError.None? then Some(reason) else s.startError), Failed(reason))
  }

  function Stop(s: State): State {
    RejectAll(s.(closed := true), Stopped)
  }

  // ----- incoming lines -----

  /** White space and line terminators of ECMAScript, which `trim` removes. */
  predicate IsSpace(c: char) {
    || '\t' <= c <= '\r' || c == ' ' || c == '\U{00A0}' || c == '\U{1680}' || '\U{2000}' <= c <= '\U{200A}'
    || c == '\U{2028}' || c == '\U{2029}' || c == '\U{202F}' || c == '\U{205F}' || c == '\U{3000}' || c == '\U{FEFF}'
  }

  function Trim(s: string): string {
    if s == "" then s
    else if IsSpace(s[0]) then Trim(s[1..])
    else if IsSpace(s[|s| - 1]) then Trim(s[..|s| - 1])
    else s
  }

  function IndexOf(s: string, c: char): (i: nat)
    ensures i <= |s| && (i < |s| ==> s[i] == c) && forall j :: 0 <= j < i ==> s[j] != c
  {
    if s == "" || s[0] == c then 0 else 1 + IndexOf(s[1..], c)
  }

  predicate HasLine(s: State) {
    '\n' in s.buffer
  }

  function Line(s: State): string
    requires HasLine(s)
  {
    Trim(s.buffer[..IndexOf(s.buffer, '\n')])
  }

  predicate IsResponse(s: State, m: Message) {
    m.id.Some? && m.name.None? && m.id.value.Number? && m.id.value.n >= 0 && m.id.value.n in s.pending
  }

  function Dispatch(s: State, m: Message): State {
    var seen := s.(dispatched := s.dispatched + [m]);
    if m.id.None? then
      if m.name == Some("notifications/tools/list_changed") then RefreshTools(seen) else seen
    else if m.name.Some? then
      seen.(written := s.written + [if m.name.value == "ping" then PingReply(m.id.value)
                                    else Unsupported(m.id.value, m.name.value)])
    else if !IsResponse(s, m) then seen
    else
      var id: nat := m.id.value.n;
      match m.error
      case NoError => Settle(seen, id, Resolved(m.result))
      case ErrorObject(message) => Settle(seen, id, Rejected(ServerError(message)))
      case NullError => seen.(pending := s.pending - {id}, dropped := s.dropped + {id})
  }

  function Parsed(s: State, parse: string -> Json): Json
    requires HasLine(s)
  {
    if Line(s) == "" then Malformed else parse(Line(s))
  }

  /** Handling the first line throws out of the data handler. */
  predicate Throws(s: State, parse: string -> Json)
    requires HasLine(s)
  {
    var json := Parsed(s, parse);
    json.Null? || (json.Value? && IsResponse(s, json.message) && json.message.error.NullError?)
  }

  /** The first line is taken from the buffer and handled. */
  function TakeLine(s: State, parse: string -> Json): State
    requires HasLine(s)
  {
    var json, rest := Parsed(s, parse), s.(buffer := s.buffer[IndexOf(s.buffer, '\n') + 1..]);
    if json.Value? then Dispatch(rest, json.message) else rest
  }

  lemma DispatchLeavesBuffer(s: State, m: Message)
    ensures Dispatch(s, m).buffer == s.buffer && Dispatch(s, m).dispatched == s.dispatched + [m]
  {
  }

  lemma TakeLineShortens(s: State, parse: string -> Json)
    requires HasLine(s)
    ensures TakeLine(s, parse).buffer == s.buffer[IndexOf(s.buffer, '\n') + 1..]
    ensures |TakeLine(s, parse).buffer| < |s.buffer|
  {
  }

  /** The lines of the buffer, up to one that throws. */
  function TakeLines(s: State, parse: string -> Json): State
    decreases |s.buffer|
  {
    if !HasLine(s) then s
    else
      TakeLineShortens(s, parse);
      if Throws(s, parse) then TakeLine(s, parse) else TakeLines(TakeLine(s, parse), parse)
  }

  function Receive(s: State, chunk: string, parse: string -> Json): State {
    TakeLines(s.(buffer := s.buffer + chunk), parse)
  }

  // ----- the client as an object -----

  class Client {
    const parse: string -> Json
    var nextId: nat
    var buffer: string
    var pending: set<nat>
    var listeners: set<nat>
    var settled: map<nat, Outcome>
    var settles: nat
    var dropped: set<nat>
    var closed: bool
    var startError: Option<string>
    var broken: Option<string>
    var refresh: Option<Refresh>
    var written: seq<Packet>
    var dispatched: seq<Message>

    function View(): State
      reads this
    {
      State(nextId, buffer, pending, listeners, settled, settles, dropped,
            closed, startError, broken, refresh, written, dispatched)
    }

    constructor (parse: string -> Json)
      ensures View() == Initial && this.parse == parse
    {
      this.parse := parse;
      nextId, buffer, pending, listeners, settled, settles, dropped := 1, "", {}, {}, map[], 0, {};
      closed, startError, broken, refresh, written, dispatched := false, None, None, None, [], [];
    }

    method SettlePromise(id: nat, outcome: Outcome)
      modifies this`pending, this`listeners, this`settled, this`settles
      ensures View() == Settle(old(View()), id, outcome)
    {
      if id !in pending { return; }
      pending := pending - {id};
      listeners := listeners - {id};
      settled := settled[id := outcome];
      settles := settles + 1;
    }

    /** None: the promise is rejected at once, and no id is spent. */
    method SendRequest(name: string, signal: Signal) returns (id: Option<nat>)
      modifies this
      ensures View() == Request(old(View()), name, signal)
      ensures id == if Refusal(old(View()), signal).Some? then None else Some(old(nextId))
    {
      if closed || startError.Some? || signal.AlreadyAborted? { return None; }
      id := Some(nextId);
      nextId := nextId + 1;
      pending := pending + {id.value};
      if signal.Live? { listeners := listeners + {id.value}; }
      written := written + [Call(id.value, name)];
      if broken.Some? { SettlePromise(id.value, Rejected(WriteFailed(broken.value))); }
    }

    method AskPage(pages: nat)
      modifies this
      ensures View() == RequestPage(old(View()), pages)
    {
      var current := SendRequest("tools/list", NoSignal);
      refresh := Some(Refresh(pages + 1, current));
    }

    method StartRefresh()
      modifies this
      ensures View() == RefreshTools(old(View()))
    {
      if refresh.Some? { return; }
      AskPage(0);
    }

    method PageSettled(more: bool)
      requires CanResume(View())
      modifies this
      ensures View() == ResumeRefresh(old(View()), more)
    {
      var run := refresh.value;
      if run.current.Some? && settled[run.current.value].Resolved? && more && run.pages < MAX_PAGES {
        AskPage(run.pages);
        return;
      }
      refresh := None;
    }

    method OnAbort(id: nat)
      modifies this
      ensures View() == Abort(old(View()), id)
    {
      listeners := listeners - {id};
      written := written + [Cancelled(id)];
      SettlePromise(id, Rejected(Aborted));
    }

    method RejectPending(reason: Reason)
      modifies this`pending, this`listeners, this`settled, this`settles
      ensures View() == RejectAll(old(View()), reason)
    {
      hide Rejections;
      var done: set<nat> := {};
      RejectNone(settled, reason);
      while done != pending
        invariant done <= pending && pending == old(pending)
        invariant listeners == old(listeners) - done
        invariant settled == old(settled) + Rejections(done, reason)
        invariant settles == old(settles) + |done|
        decreases |pending - done|
      {
        var id := AnyOf(pending - done);
        RejectNext(old(settled), done, id, reason);
        listeners := listeners - {id};
        settled := settled[id := Rejected(reason)];
        settles := settles + 1;
        done := done + {id};
      }
      pending := {};
    }

    method OnFailure(reason: string)
      modifies this
      ensures View() == Fail(old(View()), reason)
    {
      if startError.None? { startError := Some(reason); }
      RejectPending(Failed(reason));
    }

    method StopClient()
      modifies this
      ensures View() == Stop(old(View()))
    {
      closed := true;
      RejectPending(Stopped);
    }

    /** One parsed message; `threw` when handling it throws. */
    method OnMessage(m: Message) returns (threw: bool)
      modifies this
      ensures View() == Dispatch(old(View()), m)
      ensures threw <==> IsResponse(old(View()), m) && m.error.NullError?
    {
      threw := false;
      dispatched := dispatched + [m];
      if m.id.None? {
        if m.name == Some("notifications/tools/list_changed") { StartRefresh(); }
        return;
      }
      if m.name.Some? {
        written := written + [if m.name.value == "ping" then PingReply(m.id.value)
                              else Unsupported(m.id.value, m.name.value)];
        return;
      }
      if m.id.value.Text? || m.id.value.n < 0 || m.id.value.n !in pending { return; }
      var id: nat := m.id.value.n;
      match m.error {
        case NoError => SettlePromise(id, Resolved(m.result));
        case ErrorObject(message) => SettlePromise(id, Rejected(ServerError(message)));
        case NullError =>
          pending, dropped := pending - {id}, dropped + {id};
          threw := true;
      }
    }

    method OnData(chunk: string) returns (threw: bool)
      modifies this
      ensures View() == Receive(old(View()), chunk, parse)
      ensures !threw ==> '\n' !in buffer
    {
      buffer := buffer + chunk;
      threw := false;
      ghost var start := View();
      while !threw && '\n' in buffer
        invariant if threw then View() == TakeLines(start, parse) else TakeLines(View(), parse) == TakeLines(start, parse)
        decreases !threw, |buffer|
      {
        ghost var before := View();
        TakeLineShortens(before, parse);
        var index := IndexOf(buffer, '\n');
        var line := Trim(buffer[..index]);
        buffer := buffer[index + 1..];
        if line != "" {
          match parse(line) {
            case Malformed =>
            case Null => threw := true;
            case Value(m) => threw := OnMessage(m);
          }
        }
        assert View() == TakeLine(before, parse);
      }
    }

    method Perform(e: Event)
      modifies this
      ensures View() == Step(old(View()), e, parse)
    {
      hide Request, RefreshTools, ResumeRefresh, Receive, Settle, Abort, RejectAll;
      if !Enabled(View(), e) { return; }
      match e {
        case RequestEvent(name, signal) => var _ := SendRequest(name, signal);
        case RefreshEvent => StartRefresh();
        case RefreshResumedEvent(more) => PageSettled(more);
        case DataEvent(chunk) => var _ := OnData(chunk);
        case TimeoutEvent(id) => SettlePromise(id, Rejected(TimedOut));
        case AbortEvent(id) => OnAbort(id);
        case PipeEvent(now) => broken := now;
        case FailEvent(reason) => OnFailure(reason);
        case StopEvent => StopClient();
      }
    }
  }

  lemma RejectNone(settled: map<nat, Outcome>, reason: Reason)
    ensures settled + Rejections({}, reason) == settled
  {
  }

  lemma RejectNext(settled: map<nat, Outcome>, done: set<nat>, id: nat, reason: Reason)
    ensures (settled + Rejections(done, reason))[id := Rejected(reason)]
         == settled + Rejections(done + {id}, reason)
  {
  }

  // ----- runs -----

  datatype Event =
    | RequestEvent(name: string, signal: Signal)
    | RefreshEvent
    | RefreshResumedEvent(more: bool)
    | DataEvent(chunk: string)
    | TimeoutEvent(id: nat)
    | AbortEvent(id: nat)
    | PipeEvent(broken: Option<string>)
    | FailEvent(reason: string)
    | StopEvent

  predicate Enabled(s: State, e: Event) {
    match e
    case RefreshResumedEvent(_) => CanResume(s)
    case AbortEvent(id) => id in s.listeners
    case _ => true
  }

  function Step(s: State, e: Event, parse: string -> Json): State {
    if !Enabled(s, e) then s
    else
      match e
      case RequestEvent(name, signal) => Request(s, name, signal)
      case RefreshEvent => RefreshTools(s)
      case RefreshResumedEvent(more) => ResumeRefresh(s, more)
      case DataEvent(chunk) => Receive(s, chunk, parse)
      case TimeoutEvent(id) => Settle(s, id, Rejected(TimedOut))
      case AbortEvent(id) => Abort(s, id)
      case PipeEvent(broken) => s.(broken := broken)
      case FailEvent(reason) => Fail(s, reason)
      case StopEvent => Stop(s)
  }

  function Run(s: State, events: seq<Event>, parse: string -> Json): State
    decreases |events|
  {
    if events == [] then s else Run(Step(s, events[0], parse), events[1..], parse)
  }

  lemma {:induction false} RunOneMore(s: State, events: seq<Event>, i: nat, parse: string -> Json)
    requires i < |events|
    ensures Run(s, events[..i + 1], parse) == Step(Run(s, events[..i], parse), events[i], parse)
    decreases |events|
  {
    hide Step;
    if i == 0 {
      assert events[..1] == [events[0]] && events[..1][1..] == [] && events[..0] == [];
    } else {
      assert events[..i + 1][1..] == events[1..][..i] && events[..i][1..] == events[1..][..i - 1];
      RunOneMore(Step(s, events[0], parse), events[1..], i - 1, parse);
    }
  }

  /** A client that gets these events is in the state the theorems about runs speak of. */
  method Replay(parse: string -> Json, events: seq<Event>) returns (client: Client)
    ensures fresh(client) && client.parse == parse && client.View() == Run(Initial, events, parse)
  {
    hide Step;
    client := new Client(parse);
    assert events[..0] == [];
    for i := 0 to |events|
      invariant fresh(client) && client.parse == parse && client.View() == Run(Initial, events[..i], parse)
    {
      client.Perform(events[i]);
      RunOneMore(Initial, events, i, parse);
    }
    assert events[..|events|] == events;
  }

  /** Every id below the next one was admitted once: it is pending, settled, or forgotten. */
  predicate IdsHold(s: State) {
    && s.nextId >= 1
    && (forall id | id in s.pending :: 1 <= id < s.nextId && id !in s.settled && id !in s.dropped)
    && (forall id | id in s.settled :: 1 <= id < s.nextId && id !in s.dropped)
    && (forall id | id in s.dropped :: 1 <= id < s.nextId)
    && (forall id | 1 <= id < s.nextId :: id in s.pending || id in s.settled || id in s.dropped)
    && s.settles == |s.settled|
  }

  predicate EndHolds(s: State) {
    && (s.closed || s.startError.Some? ==> s.pending == {})
    && s.listeners <= s.pending + s.dropped
    && (s.refresh.Some? && s.refresh.value.current.Some? ==> s.refresh.value.current.value < s.nextId)
    && (s.refresh.Some? ==> 1 <= s.refresh.value.pages <= MAX_PAGES)
  }

  predicate Inv(s: State) {
    IdsHold(s) && EndHolds(s)
  }

  /** What stays true from one state to a later one. */
  predicate Later(s: State, t: State) {
    && s.nextId <= t.nextId
    && s.settled.Keys <= t.settled.Keys
    && (forall id | id in s.settled :: t.settled[id] == s.settled[id])
    && s.dropped <= t.dropped
    && (forall id | id in t.pending :: id in s.pending || id >= s.nextId)
    && (s.closed || s.startError.Some? ==> t.nextId == s.nextId)
    && (s.closed ==> t.closed)
    && (s.startError.Some? ==> t.startError == s.startError)
  }

  lemma LaterChain(s: State, t: State, u: State)
    requires Later(s, t) && Later(t, u)
    ensures Later(s, u)
  {
  }

  lemma SettleKeeps(s: State, id: nat, outcome: Outcome)
    requires Inv(s)
    ensures Inv(Settle(s, id, outcome)) && Later(s, Settle(s, id, outcome))
  {
  }

  lemma SentKeeps(s: State, sent: State)
    requires IdsHold(s) && s.pending + {s.nextId} == sent.pending && sent.nextId == s.nextId + 1
    requires sent.settled == s.settled && sent.dropped == s.dropped && sent.settles == s.settles
    ensures IdsHold(sent)
  {
    forall id | 1 <= id < sent.nextId ensures id in sent.pending || id in sent.settled || id in sent.dropped {
      assert id == s.nextId || 1 <= id < s.nextId;
    }
  }

  lemma SentEnds(s: State, sent: State)
    requires Inv(s) && !s.closed && s.startError.None? && IdsHold(sent)
    requires sent == s.(nextId := s.nextId + 1, pending := s.pending + {s.nextId},
                        listeners := sent.listeners, written := sent.written)
    requires sent.listeners <= s.listeners + {s.nextId}
    ensures Inv(sent) && Later(s, sent)
  {
    hide IdsHold;
  }

  lemma RequestKeeps(s: State, name: string, signal: Signal)
    requires Inv(s)
    ensures Inv(Request(s, name, signal)) && Later(s, Request(s, name, signal))
  {
    hide Settle, Later, IdsHold, EndHolds;
    if Refusal(s, signal).Some? {
      LaterSelf(s);
    } else {
      var sent := Request(s.(broken := None), name, signal).(broken := s.broken);
      SentKeeps(s, sent);
      SentEnds(s, sent);
      if s.broken.Some? {
        SettleKeeps(sent, s.nextId, Rejected(WriteFailed(s.broken.value)));
        LaterChain(s, sent, Request(s, name, signal));
      }
    }
  }

  lemma RequestPageKeeps(s: State, pages: nat)
    requires Inv(s) && pages < MAX_PAGES
    ensures Inv(RequestPage(s, pages)) && Later(s, RequestPage(s, pages))
  {
    RequestKeeps(s, "tools/list", NoSignal);
  }

  lemma RefreshKeeps(s: State)
    requires Inv(s)
    ensures Inv(RefreshTools(s)) && Later(s, RefreshTools(s))
  {
    hide RequestPage;
    if s.refresh.None? { RequestPageKeeps(s, 0); }
  }

  lemma RejectedMerge(settled: map<nat, Outcome>, pending: set<nat>, reason: Reason)
    requires settled.Keys !! pending
    ensures var all := settled + Rejections(pending, reason);
            && all.Keys == settled.Keys + pending && |all| == |settled| + |pending|
            && forall id | id in settled :: all[id] == settled[id]
  {
    var all := settled + Rejections(pending, reason);
    assert all.Keys == settled.Keys + pending;
    assert |all.Keys| == |settled.Keys| + |pending|;
  }

  lemma RejectAllKeeps(s: State, reason: Reason)
    requires IdsHold(s) && s.listeners <= s.pending + s.dropped
    ensures IdsHold(RejectAll(s, reason)) && RejectAll(s, reason).listeners <= s.dropped
    ensures Later(s, RejectAll(s, reason))
  {
    assert s.settled.Keys !! s.pending;
    RejectedMerge(s.settled, s.pending, reason);
  }

  lemma EndKeeps(s: State, ended: State, reason: Reason)
    requires Inv(s) && Later(s, ended)
    requires ended == s.(closed := ended.closed, startError := ended.startError)
    ensures Inv(RejectAll(ended, reason)) && Later(s, RejectAll(ended, reason))
  {
    RejectAllKeeps(ended, reason);
    assert EndHolds(RejectAll(ended, reason));
    LaterChain(s, ended, RejectAll(ended, reason));
  }

  lemma AbortKeeps(s: State, id: nat)
    requires Inv(s)
    ensures Inv(Abort(s, id)) && Later(s, Abort(s, id))
  {
    var noted := s.(listeners := s.listeners - {id}, written := s.written + [Cancelled(id)]);
    assert Inv(noted) && Later(s, noted);
    SettleKeeps(noted, id, Rejected(Aborted));
    LaterChain(s, noted, Abort(s, id));
  }

  lemma DropKeeps(s: State, id: nat)
    requires Inv(s) && id in s.pending
    ensures var t := s.(pending := s.pending - {id}, dropped := s.dropped + {id}); Inv(t) && Later(s, t)
  {
  }

  /** The buffer and the two logs are nobody's business. */
  lemma NotesKeep(s: State, t: State)
    requires Inv(s) && t == s.(buffer := t.buffer, written := t.written, dispatched := t.dispatched)
    ensures Inv(t) && Later(s, t)
  {
  }

  lemma DispatchKeeps(s: State, m: Message)
    requires Inv(s)
    ensures Inv(Dispatch(s, m)) && Later(s, Dispatch(s, m))
  {
    hide RefreshTools, Settle, Inv, Later;
    var seen, t := s.(dispatched := s.dispatched + [m]), Dispatch(s, m);
    NotesKeep(s, seen);
    RefreshKeeps(seen);
    LaterChain(s, seen, RefreshTools(seen));
    if IsResponse(s, m) {
      var id: nat := m.id.value.n;
      match m.error {
        case NoError => SettleKeeps(seen, id, Resolved(m.result));
        case ErrorObject(message) => SettleKeeps(seen, id, Rejected(ServerError(message)));
        case NullError => DropKeeps(seen, id);
      }
      LaterChain(s, seen, t);
    } else if m.id.Some? {
      NotesKeep(s, t);
    }
  }

  lemma TakeLineKeeps(s: State, parse: string -> Json)
    requires Inv(s) && HasLine(s)
    ensures Inv(TakeLine(s, parse)) && Later(s, TakeLine(s, parse))
  {
    hide Dispatch, Inv, Later, Parsed;
    var json, rest := Parsed(s, parse), s.(buffer := s.buffer[IndexOf(s.buffer, '\n') + 1..]);
    NotesKeep(s, rest);
    if json.Value? {
      DispatchKeeps(rest, json.message);
      LaterChain(s, rest, Dispatch(rest, json.message));
    }
  }

  lemma {:induction false} TakeLinesKeep(s: State, parse: string -> Json)
    requires Inv(s)
    ensures Inv(TakeLines(s, parse)) && Later(s, TakeLines(s, parse))
    decreases |s.buffer|
  {
    hide TakeLine, Later, Inv;
    if HasLine(s) {
      TakeLineKeeps(s, parse);
      TakeLineShortens(s, parse);
      if !Throws(s, parse) {
        TakeLinesKeep(TakeLine(s, parse), parse);
        LaterChain(s, TakeLine(s, parse), TakeLines(s, parse));
      }
    } else {
      LaterSelf(s);
    }
  }

  lemma LaterSelf(s: State)
    ensures Later(s, s)
  {
  }

  lemma ResumeKeeps(s: State, more: bool)
    requires Inv(s) && CanResume(s)
    ensures Inv(ResumeRefresh(s, more)) && Later(s, ResumeRefresh(s, more))
  {
    hide RequestPage;
    if s.refresh.value.pages < MAX_PAGES { RequestPageKeeps(s, s.refresh.value.pages); }
    assert Inv(s.(refresh := None)) && Later(s, s.(refresh := None));
  }

  lemma ReceiveKeeps(s: State, chunk: string, parse: string -> Json)
    requires Inv(s)
    ensures Inv(Receive(s, chunk, parse)) && Later(s, Receive(s, chunk, parse))
  {
    hide TakeLines;
    var longer := s.(buffer := s.buffer + chunk);
    assert Inv(longer) && Later(s, longer);
    TakeLinesKeep(longer, parse);
    LaterChain(s, longer, Receive(s, chunk, parse));
  }

  lemma PipeKeeps(s: State, broken: Option<string>)
    requires Inv(s)
    ensures Inv(s.(broken := broken)) && Later(s, s.(broken := broken))
  {
  }

  lemma StepKeeps(s: State, e: Event, parse: string -> Json)
    requires Inv(s)
    ensures Inv(Step(s, e, parse)) && Later(s, Step(s, e, parse))
  {
    hide Inv, Later, Request, RefreshTools, ResumeRefresh, Receive, Settle, Abort, RejectAll;
    LaterSelf(s);
    if Enabled(s, e) {
      match e {
        case RequestEvent(name, signal) => RequestKeeps(s, name, signal);
        case RefreshEvent => RefreshKeeps(s);
        case RefreshResumedEvent(more) => ResumeKeeps(s, more);
        case DataEvent(chunk) => ReceiveKeeps(s, chunk, parse);
        case TimeoutEvent(id) => SettleKeeps(s, id, Rejected(TimedOut));
        case AbortEvent(id) => AbortKeeps(s, id);
        case PipeEvent(broken) => PipeKeeps(s, broken);
        case FailEvent(reason) => FailKeeps(s, reason);
        case StopEvent => StopKeeps(s);
      }
    }
  }

  lemma FailKeeps(s: State, reason: string)
    requires Inv(s)
    ensures Inv(Fail(s, reason)) && Later(s, Fail(s, reason))
  {
    hide RejectAll;
    EndKeeps(s, s.(startError := if s.startError.None? then Some(reason) else s.startError), Failed(reason));
  }

  lemma StopKeeps(s: State)
    requires Inv(s)
    ensures Inv(Stop(s)) && Later(s, Stop(s))
  {
    hide RejectAll;
    EndKeeps(s, s.(closed := true), Stopped);
  }

  /** Along any run every id handed out is pending, settled or forgotten, never two of them; each
      settlement is the only one its promise gets, and stands. */
  lemma {:induction false} RunKeeps(s: State, events: seq<Event>, parse: string -> Json)
    requires Inv(s)
    ensures Inv(Run(s, events, parse)) && Later(s, Run(s, events, parse))
    decreases |events|
  {
    hide Step, Inv, Later;
    if events == [] {
      LaterSelf(s);
    } else {
      StepKeeps(s, events[0], parse);
      RunKeeps(Step(s, events[0], parse), events[1..], parse);
      LaterChain(s, Step(s, events[0], parse), Run(s, events, parse));
    }
  }

  /** From a fresh client on: never two of pending, settled and forgotten, one settlement for each
      settled promise. */
  lemma RequestsSettleAtMostOnce(events: seq<Event>, parse: string -> Json, id: nat)
    ensures var t := Run(Initial, events, parse);
            && t.settles == |t.settled|
            && (1 <= id < t.nextId <==> id in t.pending || id in t.settled || id in t.dropped)
            && !(id in t.pending && id in t.settled)
            && !(id in t.dropped && (id in t.pending || id in t.settled))
  {
    RunKeeps(Initial, events, parse);
  }

  /** After a failure or a stop nothing is pending, whatever happens; no id is spent any more; every
      request ever admitted has its one outcome unless it was forgotten. */
  lemma NothingPendingAfterTheEnd(s: State, events: seq<Event>, parse: string -> Json)
    requires Inv(s) && (s.closed || s.startError.Some?)
    ensures var t := Run(s, events, parse);
            && t.pending == {} && t.nextId == s.nextId
            && forall id :: 1 <= id < t.nextId ==> (id in t.settled <==> id !in t.dropped)
  {
    RunKeeps(s, events, parse);
  }

  /** A request that was forgotten never gets an outcome. */
  lemma ForgottenForGood(s: State, events: seq<Event>, parse: string -> Json, id: nat)
    requires Inv(s) && id in s.dropped
    ensures id !in Run(s, events, parse).settled && id !in Run(s, events, parse).pending
  {
    RunKeeps(s, events, parse);
  }

  // ----- which requests are forgotten -----

  /** The lines taken from the buffer end with a null error response to `id`, which is pending then. */
  predicate NullErrorTaken(s: State, parse: string -> Json, id: nat)
    decreases |s.buffer|
  {
    && HasLine(s)
    && (TakeLineShortens(s, parse);
        if Throws(s, parse) then Parsed(s, parse).Value? && Parsed(s, parse).message.id == Some(Number(id))
        else NullErrorTaken(TakeLine(s, parse), parse, id))
  }

  predicate NullErrorArrives(s: State, events: seq<Event>, parse: string -> Json, id: nat)
    decreases |events|
  {
    && events != []
    && (|| (events[0].DataEvent? && NullErrorTaken(s.(buffer := s.buffer + events[0].chunk), parse, id))
        || NullErrorArrives(Step(s, events[0], parse), events[1..], parse, id))
  }

  lemma RequestDropsNone(s: State, name: string, signal: Signal)
    ensures Request(s, name, signal).dropped == s.dropped && RefreshTools(s).dropped == s.dropped
  {
  }

  lemma TakeLineDrops(s: State, parse: string -> Json, id: nat)
    requires HasLine(s)
    ensures id in TakeLine(s, parse).dropped <==>
              id in s.dropped
              || (Throws(s, parse) && Parsed(s, parse).Value? && Parsed(s, parse).message.id == Some(Number(id)))
  {
    hide RefreshTools;
    var rest := s.(buffer := s.buffer[IndexOf(s.buffer, '\n') + 1..]);
    var json := Parsed(s, parse);
    if json.Value? { RequestDropsNone(rest.(dispatched := rest.dispatched + [json.message]), "", NoSignal); }
  }

  lemma {:induction false} TakeLinesDrop(s: State, parse: string -> Json, id: nat)
    ensures id in TakeLines(s, parse).dropped <==> id in s.dropped || NullErrorTaken(s, parse, id)
    decreases |s.buffer|
  {
    hide TakeLine, Throws, Parsed;
    if HasLine(s) {
      TakeLineShortens(s, parse);
      TakeLineDrops(s, parse, id);
      if !Throws(s, parse) { TakeLinesDrop(TakeLine(s, parse), parse, id); }
    }
  }

  lemma StepDrops(s: State, e: Event, parse: string -> Json, id: nat)
    ensures id in Step(s, e, parse).dropped <==>
              id in s.dropped
              || (e.DataEvent? && NullErrorTaken(s.(buffer := s.buffer + e.chunk), parse, id))
  {
    hide TakeLines, NullErrorTaken, RefreshTools, Request;
    RequestDropsNone(s, if e.RequestEvent? then e.name else "tools/list", if e.RequestEvent? then e.signal else NoSignal);
    if e.DataEvent? { TakeLinesDrop(s.(buffer := s.buffer + e.chunk), parse, id); }
  }

  /** A request is forgotten in a run if and only if a null error response to it is taken while it is
      pending. */
  lemma {:induction false} ForgottenExactlyByNullErrors(s: State, events: seq<Event>, parse: string -> Json, id: nat)
    ensures id in Run(s, events, parse).dropped <==> id in s.dropped || NullErrorArrives(s, events, parse, id)
    decreases |events|
  {
    hide Step, NullErrorTaken;
    if events != [] {
      StepDrops(s, events[0], parse, id);
      ForgottenExactlyByNullErrors(Step(s, events[0], parse), events[1..], parse, id);
    }
  }

  /** When a client has failed or was stopped, exactly the requests admitted whose null error responses
      never came in time have an outcome. */
  lemma OutcomeUnlessForgotten(events: seq<Event>, parse: string -> Json, id: nat)
    requires var t := Run(Initial, events, parse); (t.closed || t.startError.Some?) && 1 <= id < t.nextId
    ensures id in Run(Initial, events, parse).settled <==> !NullErrorArrives(Initial, events, parse, id)
  {
    hide Run, NullErrorArrives;
    RunKeeps(Initial, events, parse);
    ForgottenExactlyByNullErrors(Initial, events, parse, id);
  }

  // ----- what is written and where outcomes come from -----

  function CallIds(packets: seq<Packet>): seq<nat> {
    if packets == [] then []
    else
      var last := packets[|packets| - 1];
      CallIds(packets[..|packets| - 1]) + if last.Call? then [last.id] else []
  }

  function Replies(packets: seq<Packet>): seq<Packet> {
    if packets == [] then []
    else
      var last := packets[|packets| - 1];
      Replies(packets[..|packets| - 1]) + if last.PingReply? || last.Unsupported? then [last] else []
  }

  /** What the server's own requests are owed: a result for a ping, an error for anything else. */
  function Owed(messages: seq<Message>): seq<Packet> {
    if messages == [] then []
    else
      var m := messages[|messages| - 1];
      Owed(messages[..|messages| - 1]) +
      if m.id.None? || m.name.None? then []
      else if m.name.value == "ping" then [PingReply(m.id.value)]
      else [Unsupported(m.id.value, m.name.value)]
  }

  function OneTo(n: nat): seq<nat> {
    if n == 0 then [] else OneTo(n - 1) + [n]
  }

  lemma AppendPacket(packets: seq<Packet>, p: Packet)
    ensures CallIds(packets + [p]) == CallIds(packets) + if p.Call? then [p.id] else []
    ensures Replies(packets + [p]) == Replies(packets) + if p.PingReply? || p.Unsupported? then [p] else []
  {
    assert (packets + [p])[..|packets|] == packets;
  }

  lemma AppendMessage(messages: seq<Message>, m: Message)
    ensures Owed(messages + [m]) == Owed(messages) +
              if m.id.None? || m.name.None? then []
              else if m.name.value == "ping" then [PingReply(m.id.value)]
              else [Unsupported(m.id.value, m.name.value)]
  {
    assert (messages + [m])[..|messages|] == messages;
  }

  predicate LogsHold(s: State) {
    s.nextId >= 1 && CallIds(s.written) == OneTo(s.nextId - 1) && Replies(s.written) == Owed(s.dispatched)
  }

  /** A response to `id` with this outcome. */
  predicate Says(m: Message, id: nat, outcome: Outcome) {
    && m.id == Some(Number(id)) && m.name.None?
    && (outcome.Resolved? ==> m.error.NoError? && m.result == outcome.result)
    && (outcome.Rejected? && outcome.reason.ServerError? ==> m.error == ErrorObject(outcome.reason.message))
  }

  predicate FromServer(outcome: Outcome) {
    outcome.Resolved? || outcome.reason.ServerError?
  }

  predicate Vouched(s: State) {
    && (forall id | id in s.settled && FromServer(s.settled[id]) ::
          exists k | 0 <= k < |s.dispatched| :: Says(s.dispatched[k], id, s.settled[id]))
    && (forall id | id in s.dropped ::
          exists k | 0 <= k < |s.dispatched| :: IsNullError(s.dispatched[k], id))
  }

  predicate IsNullError(m: Message, id: nat) {
    m.id == Some(Number(id)) && m.name.None? && m.error.NullError?
  }

  predicate Accounted(s: State) {
    LogsHold(s) && Vouched(s)
  }

  lemma SettleAccounts(s: State, id: nat, outcome: Outcome)
    requires Accounted(s)
    requires FromServer(outcome) ==> s.dispatched != [] && Says(s.dispatched[|s.dispatched| - 1], id, outcome)
    ensures Accounted(Settle(s, id, outcome))
  {
    hide CallIds, Replies, Owed, OneTo;
  }

  lemma SentAccounts(s: State, sent: State, name: string)
    requires Accounted(s) && sent.nextId == s.nextId + 1 && sent.written == s.written + [Call(s.nextId, name)]
    requires sent.dispatched == s.dispatched && sent.settled == s.settled && sent.dropped == s.dropped
    ensures Accounted(sent)
  {
    AppendPacket(s.written, Call(s.nextId, name));
  }

  lemma RequestAccounts(s: State, name: string, signal: Signal)
    requires Accounted(s)
    ensures Accounted(Request(s, name, signal))
  {
    hide Accounted, Settle;
    if Refusal(s, signal).None? {
      var sent := Request(s.(broken := None), name, signal).(broken := s.broken);
      SentAccounts(s, sent, name);
      SettleAccounts(sent, s.nextId, Rejected(WriteFailed(if s.broken.Some? then s.broken.value else "")));
    }
  }

  lemma RequestPageAccounts(s: State, pages: nat)
    requires Accounted(s)
    ensures Accounted(RequestPage(s, pages))
  {
    hide Request, CallIds, Replies, Owed, OneTo;
    RequestAccounts(s, "tools/list", NoSignal);
  }

  lemma RejectAllAccounts(s: State, reason: Reason)
    requires Accounted(s) && !reason.ServerError?
    ensures Accounted(RejectAll(s, reason))
  {
    hide CallIds, Replies, Owed, OneTo;
    var t := RejectAll(s, reason);
    forall id | id in t.settled && FromServer(t.settled[id])
      ensures exists k | 0 <= k < |s.dispatched| :: Says(s.dispatched[k], id, t.settled[id])
    {
      assert id in s.settled && t.settled[id] == s.settled[id];
    }
  }

  /** A dispatched message keeps the accounts when it asks for no reply. */
  lemma NoteAccounts(s: State, m: Message)
    requires Accounted(s) && (m.id.None? || m.name.None?)
    ensures Accounted(s.(dispatched := s.dispatched + [m]))
  {
    AppendMessage(s.dispatched, m);
    NoteKeepsVouched(s, m);
  }

  lemma NoteKeepsVouched(s: State, m: Message)
    requires Vouched(s)
    ensures Vouched(s.(dispatched := s.dispatched + [m]))
  {
    var t := s.(dispatched := s.dispatched + [m]);
    assert forall k :: 0 <= k < |s.dispatched| ==> t.dispatched[k] == s.dispatched[k];
  }

  lemma DropAccounts(s: State, id: nat)
    requires Accounted(s) && s.dispatched != [] && IsNullError(s.dispatched[|s.dispatched| - 1], id)
    ensures Accounted(s.(pending := s.pending - {id}, dropped := s.dropped + {id}))
  {
    hide CallIds, Replies, Owed, OneTo;
  }

  lemma ReplyAccounts(s: State, m: Message)
    requires Accounted(s) && m.id.Some? && m.name.Some?
    ensures Accounted(Dispatch(s, m))
  {
    var t := Dispatch(s, m);
    AppendMessage(s.dispatched, m);
    AppendPacket(s.written, t.written[|s.written|]);
    NoteKeepsVouched(s, m);
  }

  lemma DispatchAccounts(s: State, m: Message)
    requires Accounted(s)
    ensures Accounted(Dispatch(s, m))
  {
    hide RequestPage, Settle, Accounted;
    var seen := s.(dispatched := s.dispatched + [m]);
    if m.id.Some? && m.name.Some? {
      ReplyAccounts(s, m);
    } else {
      NoteAccounts(s, m);
      RequestPageAccounts(seen, 0);
      if IsResponse(s, m) {
        var id: nat := m.id.value.n;
        match m.error {
          case NoError => SettleAccounts(seen, id, Resolved(m.result));
          case ErrorObject(message) => SettleAccounts(seen, id, Rejected(ServerError(message)));
          case NullError => DropAccounts(seen, id);
        }
      }
    }
  }

  lemma {:induction false} TakeLinesAccount(s: State, parse: string -> Json)
    requires Accounted(s)
    ensures Accounted(TakeLines(s, parse))
    decreases |s.buffer|
  {
    hide Dispatch, Accounted;
    if HasLine(s) {
      TakeLineShortens(s, parse);
      TakeLineAccounts(s, parse);
      if !Throws(s, parse) { TakeLinesAccount(TakeLine(s, parse), parse); }
    }
  }

  lemma TakeLineAccounts(s: State, parse: string -> Json)
    requires Accounted(s) && HasLine(s)
    ensures Accounted(TakeLine(s, parse))
  {
    hide Dispatch, CallIds, Replies, Owed, OneTo;
    var json, rest := Parsed(s, parse), s.(buffer := s.buffer[IndexOf(s.buffer, '\n') + 1..]);
    assert Accounted(rest);
    if json.Value? { DispatchAccounts(rest, json.message); }
  }

  lemma StepAccounts(s: State, e: Event, parse: string -> Json)
    requires Accounted(s)
    ensures Accounted(Step(s, e, parse))
  {
    hide Request, RequestPage, TakeLines, RejectAll, CallIds, Replies, Owed, OneTo, Settle;
    match e {
      case RequestEvent(name, signal) => RequestAccounts(s, name, signal);
      case RefreshEvent => RequestPageAccounts(s, 0);
      case RefreshResumedEvent(more) => if s.refresh.Some? { RequestPageAccounts(s, s.refresh.value.pages); }
      case DataEvent(chunk) => TakeLinesAccount(s.(buffer := s.buffer + chunk), parse);
      case TimeoutEvent(id) => SettleAccounts(s, id, Rejected(TimedOut));
      case AbortEvent(id) =>
        AppendPacket(s.written, Cancelled(id));
        SettleAccounts(s.(listeners := s.listeners - {id}, written := s.written + [Cancelled(id)]), id, Rejected(Aborted));
      case PipeEvent(_) =>
      case FailEvent(reason) =>
        RejectAllAccounts(s.(startError := if s.startError.None? then Some(reason) else s.startError), Failed(reason));
      case StopEvent => RejectAllAccounts(s.(closed := true), Stopped);
    }
  }

  /** Along any run the ids sent are 1, 2, 3, ... without a gap or a repeat; the server's requests are
      answered once each and in order; every result or server error given to a caller was in a response
      to that very request, and a request is forgotten only for a response whose error is null. */
  lemma {:induction false} RunAccounts(s: State, events: seq<Event>, parse: string -> Json)
    requires Accounted(s)
    ensures Accounted(Run(s, events, parse))
    decreases |events|
  {
    hide Step, Accounted;
    if events != [] {
      StepAccounts(s, events[0], parse);
      RunAccounts(Step(s, events[0], parse), events[1..], parse);
    }
  }

  lemma FreshIsAccounted()
    ensures Accounted(Initial) && Inv(Initial)
  {
  }

  // ----- where the stream is cut -----

  function Plus(s: State, text: string): State {
    s.(buffer := s.buffer + text)
  }

  /** Every complete line is handled, as if none of them threw. */
  function DrainAll(s: State, parse: string -> Json): State
    decreases |s.buffer|
  {
    if !HasLine(s) then s
    else
      TakeLineShortens(s, parse);
      DrainAll(TakeLine(s, parse), parse)
  }

  /** Some line throws although a complete line comes after it. */
  predicate StumblesEarly(s: State, parse: string -> Json)
    decreases |s.buffer|
  {
    && HasLine(s)
    && (TakeLineShortens(s, parse);
        if Throws(s, parse) then HasLine(TakeLine(s, parse)) else StumblesEarly(TakeLine(s, parse), parse))
  }

  function Feed(s: State, chunks: seq<string>, parse: string -> Json): State
    decreases |chunks|
  {
    if chunks == [] then s else Feed(Receive(s, chunks[0], parse), chunks[1..], parse)
  }

  function Concat(chunks: seq<string>): string {
    if chunks == [] then "" else chunks[0] + Concat(chunks[1..])
  }

  lemma {:induction false} IndexOfAppend(a: string, b: string, c: char)
    requires c in a
    ensures IndexOf(a + b, c) == IndexOf(a, c) < |a|
  {
    if a[0] != c {
      assert (a + b)[1..] == a[1..] + b;
      IndexOfAppend(a[1..], b, c);
    }
  }

  lemma RefreshIgnoresBuffer(s: State, buffer: string)
    ensures RefreshTools(s.(buffer := buffer)) == RefreshTools(s).(buffer := buffer)
  {
  }

  lemma DispatchIgnoresBuffer(s: State, m: Message, buffer: string)
    ensures Dispatch(s.(buffer := buffer), m) == Dispatch(s, m).(buffer := buffer)
  {
    hide RefreshTools;
    RefreshIgnoresBuffer(s.(dispatched := s.dispatched + [m]), buffer);
  }

  lemma TakeLineAppend(s: State, text: string, parse: string -> Json)
    requires HasLine(s)
    ensures HasLine(Plus(s, text)) && TakeLine(Plus(s, text), parse) == Plus(TakeLine(s, parse), text)
    ensures Throws(Plus(s, text), parse) <==> Throws(s, parse)
  {
    hide Dispatch;
    var t, i := Plus(s, text), IndexOf(s.buffer, '\n');
    IndexOfAppend(s.buffer, text, '\n');
    assert t.buffer[..i] == s.buffer[..i];
    var rest, more := s.(buffer := s.buffer[i + 1..]), t.(buffer := t.buffer[i + 1..]);
    assert more.buffer == rest.buffer + text;
    if Parsed(s, parse).Value? {
      DispatchIgnoresBuffer(rest, Parsed(s, parse).message, more.buffer);
      DispatchLeavesBuffer(rest, Parsed(s, parse).message);
    }
  }

  /** What the handler leaves in the buffer is not lost. */
  lemma {:induction false} LinesThenDrain(s: State, text: string, parse: string -> Json)
    ensures DrainAll(Plus(TakeLines(s, parse), text), parse) == DrainAll(Plus(s, text), parse)
    decreases |s.buffer|
  {
    hide TakeLine, Throws;
    if HasLine(s) {
      TakeLineAppend(s, text, parse);
      TakeLineShortens(s, parse);
      if !Throws(s, parse) { LinesThenDrain(TakeLine(s, parse), text, parse); }
    }
  }

  lemma {:induction false} FeedThenDrain(s: State, chunks: seq<string>, parse: string -> Json)
    ensures DrainAll(Feed(s, chunks, parse), parse) == DrainAll(Plus(s, Concat(chunks)), parse)
    decreases |chunks|
  {
    hide TakeLines, DrainAll;
    if chunks == [] {
      assert Plus(s, "") == s;
    } else {
      var rest := Concat(chunks[1..]);
      FeedThenDrain(Receive(s, chunks[0], parse), chunks[1..], parse);
      LinesThenDrain(Plus(s, chunks[0]), rest, parse);
      assert Plus(Plus(s, chunks[0]), rest) == Plus(s, Concat(chunks));
    }
  }

  lemma {:induction false} StopsAtLastLine(s: State, parse: string -> Json)
    requires !StumblesEarly(s, parse)
    ensures !HasLine(TakeLines(s, parse))
    decreases |s.buffer|
  {
    hide TakeLine, Throws;
    if HasLine(s) {
      TakeLineShortens(s, parse);
      if !Throws(s, parse) { StopsAtLastLine(TakeLine(s, parse), parse); }
    }
  }

  /** Handling what is there first leaves the rest no earlier a stumble. */
  lemma {:induction false} StillNoStumble(s: State, text: string, parse: string -> Json)
    requires !StumblesEarly(Plus(s, text), parse)
    ensures !StumblesEarly(Plus(TakeLines(s, parse), text), parse)
    decreases |s.buffer|
  {
    hide TakeLine, Throws;
    if HasLine(s) {
      TakeLineAppend(s, text, parse);
      TakeLineShortens(s, parse);
      if !Throws(s, parse) { StillNoStumble(TakeLine(s, parse), text, parse); }
    }
  }

  lemma {:induction false} FeedLeavesNoLine(s: State, chunks: seq<string>, parse: string -> Json)
    requires !HasLine(s) && !StumblesEarly(Plus(s, Concat(chunks)), parse)
    ensures !HasLine(Feed(s, chunks, parse))
    decreases |chunks|
  {
    hide TakeLines, StumblesEarly;
    if chunks != [] {
      var first, rest := chunks[0], Concat(chunks[1..]);
      assert Plus(Plus(s, first), rest) == Plus(s, Concat(chunks));
      StillNoStumble(Plus(s, first), rest, parse);
      PrefixStumbles(Plus(s, first), rest, parse);
      StopsAtLastLine(Plus(s, first), parse);
      FeedLeavesNoLine(Receive(s, first, parse), chunks[1..], parse);
    }
  }

  lemma {:induction false} PrefixStumbles(s: State, text: string, parse: string -> Json)
    requires !StumblesEarly(Plus(s, text), parse)
    ensures !StumblesEarly(s, parse)
    decreases |s.buffer|
  {
    hide TakeLine, Throws;
    if HasLine(s) {
      TakeLineAppend(s, text, parse);
      TakeLineShortens(s, parse);
      if !Throws(s, parse) { PrefixStumbles(TakeLine(s, parse), text, parse); }
    }
  }

  lemma {:induction false} StumbleLeavesALine(s: State, parse: string -> Json)
    requires StumblesEarly(s, parse)
    ensures HasLine(TakeLines(s, parse))
    decreases |s.buffer|
  {
    hide TakeLine, Throws;
    TakeLineShortens(s, parse);
    if !Throws(s, parse) { StumbleLeavesALine(TakeLine(s, parse), parse); }
  }

  lemma {:induction false} DrainLeavesNoLine(s: State, parse: string -> Json)
    ensures !HasLine(DrainAll(s, parse))
    decreases |s.buffer|
  {
    if HasLine(s) {
      TakeLineShortens(s, parse);
      DrainLeavesNoLine(TakeLine(s, parse), parse);
    }
  }

  // A chunk for each line.

  function LineCuts(text: string): seq<string>
    decreases |text|
  {
    if '\n' !in text then [text]
    else
      var next := IndexOf(text, '\n') + 1;
      [text[..next]] + LineCuts(text[next..])
  }

  lemma {:induction false} LineCutsAreCuts(text: string)
    ensures Concat(LineCuts(text)) == text
    decreases |text|
  {
    if '\n' in text {
      var next := IndexOf(text, '\n') + 1;
      LineCutsAreCuts(text[next..]);
      assert LineCuts(text)[1..] == LineCuts(text[next..]);
      assert text == text[..next] + text[next..];
    } else {
      assert [text][1..] == [] && text + "" == text;
    }
  }

  lemma IndexOfPast(a: string, b: string, c: char)
    requires c !in a && c in b
    ensures IndexOf(a + b, c) == |a| + IndexOf(b, c) < |a| + |b|
  {
    var i := IndexOf(b, c);
    assert (a + b)[|a| + i] == c;
    assert forall j :: 0 <= j < |a| ==> (a + b)[j] == a[j];
    assert forall j :: 0 <= j < i ==> (a + b)[|a| + j] == b[j];
  }

  /** A chunk that ends with its only line end is handled whole, even if the line throws. */
  lemma OneLine(s: State, chunk: string, parse: string -> Json)
    requires !HasLine(s) && chunk != "" && IndexOf(chunk, '\n') == |chunk| - 1
    ensures Receive(s, chunk, parse) == TakeLine(Plus(s, chunk), parse) && !HasLine(Receive(s, chunk, parse))
    ensures HasLine(Plus(s, chunk))
  {
    hide TakeLine, Throws;
    var t := Plus(s, chunk);
    IndexOfPast(s.buffer, chunk, '\n');
    assert t.buffer[IndexOf(t.buffer, '\n') + 1..] == "";
    TakeLineShortens(t, parse);
    NothingTaken(TakeLine(t, parse), parse);
  }

  lemma DrainOne(s: State, parse: string -> Json)
    requires HasLine(s)
    ensures DrainAll(s, parse) == DrainAll(TakeLine(s, parse), parse)
  {
    hide TakeLine;
  }

  lemma FeedOne(s: State, chunks: seq<string>, first: string, rest: seq<string>, parse: string -> Json)
    requires chunks == [first] + rest
    ensures Feed(s, chunks, parse) == Feed(Receive(s, first, parse), rest, parse)
  {
    hide Receive;
    assert chunks[1..] == rest;
  }

  /** With a chunk for each line every line is handled. */
  lemma {:induction false} LineCutsDrain(s: State, text: string, parse: string -> Json)
    requires !HasLine(s)
    ensures Feed(s, LineCuts(text), parse) == DrainAll(Plus(s, text), parse)
    decreases |text|
  {
    hide TakeLine, TakeLines, Feed, DrainAll, Receive;
    if '\n' in text {
      var next := IndexOf(text, '\n') + 1;
      var line, rest := text[..next], text[next..];
      FirstLineEnds(text);
      OneLine(s, line, parse);
      var ended := Receive(s, line, parse);
      FeedOne(s, LineCuts(text), line, LineCuts(rest), parse);
      LineCutsDrain(ended, rest, parse);
      assert Plus(Plus(s, line), rest) == Plus(s, text) by { assert s.buffer + line + rest == s.buffer + text; }
      TakeLineAppend(Plus(s, line), rest, parse);
      DrainOne(Plus(s, text), parse);
    } else {
      OneChunk(s, text, parse);
      NothingTaken(Plus(s, text), parse);
      assert Receive(s, text, parse) == TakeLines(Plus(s, text), parse) by { ReceiveIsLines(s, text, parse); }
    }
  }

  lemma ReceiveIsLines(s: State, text: string, parse: string -> Json)
    ensures Receive(s, text, parse) == TakeLines(Plus(s, text), parse)
  {
  }

  lemma FirstLineEnds(text: string)
    requires '\n' in text
    ensures var next := IndexOf(text, '\n') + 1; IndexOf(text[..next], '\n') == |text[..next]| - 1
  {
    var next := IndexOf(text, '\n') + 1;
    assert text == text[..next] + text[next..] && text[..next][next - 1] == '\n';
    IndexOfAppend(text[..next], text[next..], '\n');
  }

  lemma NothingTaken(s: State, parse: string -> Json)
    requires !HasLine(s)
    ensures TakeLines(s, parse) == s && DrainAll(s, parse) == s
  {
  }

  /** Any two ways to cut a text lead to the same state, dispatched messages and unread buffer included,
      exactly when no line throws before another complete line. */
  lemma CutsMatterOnlyAfterAStumble(s: State, text: string, parse: string -> Json)
    requires !HasLine(s)
    ensures (forall a, b :: Concat(a) == text && Concat(b) == text ==> Feed(s, a, parse) == Feed(s, b, parse))
       <==> !StumblesEarly(Plus(s, text), parse)
  {
    hide TakeLines, DrainAll, StumblesEarly;
    if StumblesEarly(Plus(s, text), parse) {
      var a, b := [text], LineCuts(text);
      OneChunk(s, text, parse);
      LineCutsAreCuts(text);
      LineCutsDrain(s, text, parse);
      StumbleLeavesALine(Plus(s, text), parse);
      DrainLeavesNoLine(Plus(s, text), parse);
      assert Concat(a) == text && Concat(b) == text && Feed(s, a, parse) != Feed(s, b, parse);
    } else {
      forall a | Concat(a) == text ensures Feed(s, a, parse) == DrainAll(Plus(s, text), parse) {
        FeedLeavesNoLine(s, a, parse);
        FeedThenDrain(s, a, parse);
        NothingTaken(Feed(s, a, parse), parse);
      }
    }
  }

  // ----- where the cuts change what is dispatched -----

  /** Some complete line parses to a message. */
  predicate CarriesMessage(s: State, parse: string -> Json)
    decreases |s.buffer|
  {
    && HasLine(s)
    && (TakeLineShortens(s, parse);
        Parsed(s, parse).Value? || CarriesMessage(TakeLine(s, parse), parse))
  }

  /** Some line throws although a complete line after it parses to a message. */
  predicate Withholds(s: State, parse: string -> Json)
    decreases |s.buffer|
  {
    && HasLine(s)
    && (TakeLineShortens(s, parse);
        if Throws(s, parse) then CarriesMessage(TakeLine(s, parse), parse) else Withholds(TakeLine(s, parse), parse))
  }

  lemma TakeLineDispatches(s: State, parse: string -> Json)
    requires HasLine(s)
    ensures TakeLine(s, parse).dispatched ==
              s.dispatched + if Parsed(s, parse).Value? then [Parsed(s, parse).message] else []
  {
    hide Dispatch;
    var rest := s.(buffer := s.buffer[IndexOf(s.buffer, '\n') + 1..]);
    if Parsed(s, parse).Value? { DispatchLeavesBuffer(rest, Parsed(s, parse).message); }
  }

  /** Draining dispatches more exactly when there is a message left. */
  lemma {:induction false} DrainDispatches(s: State, parse: string -> Json)
    ensures s.dispatched <= DrainAll(s, parse).dispatched
    ensures s.dispatched == DrainAll(s, parse).dispatched <==> !CarriesMessage(s, parse)
    decreases |s.buffer|
  {
    hide TakeLine, Parsed;
    if HasLine(s) {
      TakeLineShortens(s, parse);
      TakeLineDispatches(s, parse);
      DrainDispatches(TakeLine(s, parse), parse);
    }
  }

  lemma {:induction false} LinesDispatch(s: State, parse: string -> Json)
    ensures s.dispatched <= TakeLines(s, parse).dispatched <= DrainAll(s, parse).dispatched
    ensures TakeLines(s, parse).dispatched == DrainAll(s, parse).dispatched <==> !Withholds(s, parse)
    decreases |s.buffer|
  {
    hide TakeLine, Parsed, Throws, CarriesMessage;
    if HasLine(s) {
      TakeLineShortens(s, parse);
      TakeLineDispatches(s, parse);
      DrainDispatches(TakeLine(s, parse), parse);
      if !Throws(s, parse) { LinesDispatch(TakeLine(s, parse), parse); }
    }
  }

  /** More text after what is handled: it is dispatched next, or a line threw and the text waits. */
  lemma {:induction false} LinesThenMore(s: State, text: string, parse: string -> Json)
    ensures || TakeLines(Plus(s, text), parse).dispatched == TakeLines(s, parse).dispatched
            || (!HasLine(TakeLines(s, parse))
                && TakeLines(Plus(s, text), parse) == TakeLines(Plus(TakeLines(s, parse), text), parse))
    decreases |s.buffer|
  {
    hide TakeLine, Throws;
    if HasLine(s) {
      TakeLineAppend(s, text, parse);
      TakeLineShortens(s, parse);
      if !Throws(s, parse) { LinesThenMore(TakeLine(s, parse), text, parse); }
    }
  }

  lemma {:induction false} FeedDispatches(s: State, chunks: seq<string>, parse: string -> Json)
    ensures s.dispatched <= Feed(s, chunks, parse).dispatched
    decreases |chunks|
  {
    hide TakeLines;
    if chunks != [] {
      LinesDispatch(Plus(s, chunks[0]), parse);
      FeedDispatches(Receive(s, chunks[0], parse), chunks[1..], parse);
    }
  }

  /** No way of cutting dispatches fewer messages than one chunk. */
  lemma {:induction false} OneChunkIsWorst(s: State, chunks: seq<string>, parse: string -> Json)
    requires !HasLine(s)
    ensures |TakeLines(Plus(s, Concat(chunks)), parse).dispatched| <= |Feed(s, chunks, parse).dispatched|
    decreases |chunks|
  {
    hide TakeLines;
    if chunks == [] {
      assert Plus(s, "") == s;
      NothingTaken(s, parse);
    } else {
      var first, rest := chunks[0], Concat(chunks[1..]);
      assert Plus(Plus(s, first), rest) == Plus(s, Concat(chunks));
      LinesThenMore(Plus(s, first), rest, parse);
      FeedDispatches(Receive(s, first, parse), chunks[1..], parse);
      if !HasLine(Receive(s, first, parse)) { OneChunkIsWorst(Receive(s, first, parse), chunks[1..], parse); }
    }
  }

  /** The messages dispatched do not depend on where the stream was cut, exactly when no line throws
      before a complete line that parses to a message. */
  lemma DispatchDependsOnCutsOnlyWhenWithheld(s: State, text: string, parse: string -> Json)
    requires !HasLine(s)
    ensures (forall a, b :: Concat(a) == text && Concat(b) == text ==>
               Feed(s, a, parse).dispatched == Feed(s, b, parse).dispatched)
       <==> !Withholds(Plus(s, text), parse)
  {
    hide TakeLines, DrainAll, Withholds;
    LinesDispatch(Plus(s, text), parse);
    if Withholds(Plus(s, text), parse) {
      var a, b := [text], LineCuts(text);
      OneChunk(s, text, parse);
      LineCutsAreCuts(text);
      LineCutsDrain(s, text, parse);
      assert Concat(a) == text && Concat(b) == text && Feed(s, a, parse).dispatched != Feed(s, b, parse).dispatched;
    } else {
      forall a | Concat(a) == text ensures Feed(s, a, parse).dispatched == DrainAll(Plus(s, text), parse).dispatched {
        OneChunkIsWorst(s, a, parse);
        FeedThenDrain(s, a, parse);
        DrainDispatches(Feed(s, a, parse), parse);
      }
    }
  }

  lemma OneChunk(s: State, text: string, parse: string -> Json)
    ensures Concat([text]) == text && Feed(s, [text], parse) == Receive(s, text, parse)
  {
    hide Receive;
    assert [text][1..] == [] && text + "" == text;
  }

  /** A null line stumbles whenever a complete line follows it. */
  lemma NullLinesStumble(rest: string, parse: string -> Json)
    requires parse("null").Null? && '\n' in rest
    ensures StumblesEarly(Plus(Initial, "null\n" + rest), parse)
  {
    hide TakeLine;
    var s := Plus(Initial, "null\n" + rest);
    assert s.buffer == "null\n" + rest;
    assert s.buffer[4] == '\n' && s.buffer[..4] == "null" && s.buffer[5..] == rest;
    assert forall j :: 0 <= j < 4 ==> s.buffer[j] != '\n';
    assert IndexOf(s.buffer, '\n') == 4;
    assert Line(s) == Trim("null") == "null";
    assert Throws(s, parse);
    TakeLineShortens(s, parse);
  }

  /** One text, two cuts: after a null line a message waits for the next chunk. */
  lemma NullLineWithholdsAMessage(parse: string -> Json)
    requires parse("null").Null? && parse("{}").Value?
    ensures var one, two := ["null\n{}\n"], ["null\n", "{}\n"];
            && Concat(one) == Concat(two)
            && Feed(Initial, one, parse).dispatched == []
            && Feed(Initial, two, parse).dispatched == [parse("{}").message]
  {
    hide TakeLine, TakeLines, Feed, Throws, Parsed;
    var rest := "{}\n";
    var text := "null\n" + rest;
    assert text == "null\n{}\n";
    TwoChunks("null\n", rest);
    OneChunk(Initial, text, parse);
    NullLine(Initial, rest, parse);
    assert "null\n" + "" == "null\n";
    NullLine(Initial, "", parse);
    var after := Receive(Initial, "null\n", parse);
    FeedOne(Initial, ["null\n", rest], "null\n", [rest], parse);
    OneChunk(after, rest, parse);
    MessageLine(after, parse);
  }

  lemma TwoChunks(a: string, b: string)
    ensures Concat([a, b]) == a + b == Concat([a + b])
  {
    assert [a, b][1..] == [b] && [b][1..] == [] && [a + b][1..] == [];
    assert b + "" == b && (a + b) + "" == a + b;
    assert Concat([b]) == b;
  }

  lemma HeadOf(s: State, line: string, rest: string)
    requires s.buffer == line + "\n" + rest && '\n' !in line
    ensures HasLine(s) && Line(s) == Trim(line) && s.buffer[IndexOf(s.buffer, '\n') + 1..] == rest
  {
    IndexOfPast(line, "\n" + rest, '\n');
    assert line + ("\n" + rest) == s.buffer && s.buffer[|line|] == '\n';
    assert s.buffer[..|line|] == line && s.buffer[|line| + 1..] == rest;
  }

  lemma PlainLines()
    ensures Trim("null") == "null" && Trim("{}") == "{}"
  {
  }

  lemma NullLine(s: State, rest: string, parse: string -> Json)
    requires s.buffer == "" && parse("null").Null?
    ensures var t := Receive(s, "null\n" + rest, parse); t.buffer == rest && t.dispatched == s.dispatched
  {
    hide TakeLine;
    var t := Plus(s, "null\n" + rest);
    assert t.buffer == "null" + "\n" + rest;
    HeadOf(t, "null", rest);
    PlainLines();
    hide Trim, IndexOf;
    assert Parsed(t, parse) == parse("null");
    TakeLineShortens(t, parse);
    TakeLineDispatches(t, parse);
    assert TakeLines(t, parse) == TakeLine(t, parse);
  }

  lemma MessageLine(s: State, parse: string -> Json)
    requires s.buffer == "" && parse("{}").Value?
    ensures var t := Plus(s, "{}\n");
            && HasLine(t) && Parsed(t, parse) == parse("{}")
            && Receive(s, "{}\n", parse) == TakeLine(t, parse)
            && TakeLine(t, parse).dispatched == s.dispatched + [parse("{}").message]
  {
    hide TakeLine;
    var t := Plus(s, "{}\n");
    assert t.buffer == "{}" + "\n" + "";
    HeadOf(t, "{}", "");
    PlainLines();
    hide Trim, IndexOf;
    TakeLineShortens(t, parse);
    TakeLineDispatches(t, parse);
    NothingTaken(TakeLine(t, parse), parse);
    assert TakeLines(t, parse) == TakeLine(t, parse);
  }

  /** One request and one response to it with a null error: the request is forgotten. */
  lemma NullErrorForgets(name: string, parse: string -> Json)
    requires parse("{}") == Value(Message(Some(Number(1)), None, NullError, 0))
    ensures Run(Initial, [RequestEvent(name, NoSignal), DataEvent("{}\n")], parse).dropped == {1}
  {
    hide TakeLines, Receive;
    var asked := Step(Initial, RequestEvent(name, NoSignal), parse);
    assert asked.pending == {1} && asked.buffer == "" && asked.dropped == {};
    MessageLine(asked, parse);
    var t := Plus(asked, "{}\n");
    assert TakeLine(t, parse).dropped == {1};
    RunOfTwo(Initial, RequestEvent(name, NoSignal), DataEvent("{}\n"), parse);
  }

  lemma RunOfTwo(s: State, first: Event, second: Event, parse: string -> Json)
    ensures Run(s, [first, second], parse) == Step(Step(s, first, parse), second, parse)
  {
    hide Step;
    var t := Step(Step(s, first, parse), second, parse);
    assert [first, second][1..] == [second] && [second][1..] == [];
    assert Run(t, [], parse) == t;
    assert Run(Step(s, first, parse), [second], parse) == t;
  }

  // ----- what becomes of a request -----

  datatype Fate = Open | Ended(outcome: Outcome) | Forgotten

  function Standing(s: State, id: nat): Fate {
    if id in s.settled then Ended(s.settled[id]) else if id in s.dropped then Forgotten else Open
  }

  predicate Answers(m: Message, id: nat) {
    m.id == Some(Number(id)) && m.name.None?
  }

  /** The first response to `id` among the complete lines, up to a line that throws. */
  function FirstAnswer(s: State, parse: string -> Json, id: nat): Option<Message>
    decreases |s.buffer|
  {
    if !HasLine(s) then None
    else
      var json := Parsed(s, parse);
      TakeLineShortens(s, parse);
      if json.Value? && Answers(json.message, id) then Some(json.message)
      else if Throws(s, parse) then None
      else FirstAnswer(TakeLine(s, parse), parse, id)
  }

  /** What a response makes of its request. */
  function Verdict(m: Message): Fate {
    match m.error
    case NoError => Ended(Resolved(m.result))
    case ErrorObject(message) => Ended(Rejected(ServerError(message)))
    case NullError => Forgotten
  }

  /** What an event makes of a pending request, whose caller can abort it if it is `live`. */
  function Effect(s: State, e: Event, parse: string -> Json, id: nat, live: bool): Fate {
    match e
    case DataEvent(chunk) =>
      (match FirstAnswer(Plus(s, chunk), parse, id)
       case None => Open
       case Some(m) => Verdict(m))
    case TimeoutEvent(timed) => if timed == id then Ended(Rejected(TimedOut)) else Open
    case AbortEvent(aborted) => if aborted == id && live then Ended(Rejected(Aborted)) else Open
    case FailEvent(reason) => Ended(Rejected(Failed(reason)))
    case StopEvent => Ended(Rejected(Stopped))
    case _ => Open
  }

  /** The first event that makes anything of the request decides. */
  function FateOf(s: State, events: seq<Event>, parse: string -> Json, id: nat, live: bool): Fate
    decreases |events|
  {
    if events == [] then Open
    else
      var effect := Effect(s, events[0], parse, id, live);
      if effect.Open? then FateOf(Step(s, events[0], parse), events[1..], parse, id, live) else effect
  }

  /** The pending request `id` met its fate on the way to t, or still waits, just as abortable as before. */
  predicate Meets(t: State, id: nat, live: bool, fate: Fate) {
    && Standing(t, id) == fate
    && (id in t.pending <==> fate.Open?)
    && (fate.Open? ==> (id in t.listeners <==> live))
  }

  lemma RequestLeavesOthers(s: State, name: string, signal: Signal, id: nat, live: bool)
    requires Inv(s) && id in s.pending && (id in s.listeners <==> live)
    ensures Meets(Request(s, name, signal), id, live, Open)
  {
    hide EndHolds;
  }

  lemma RefreshLeavesOthers(s: State, id: nat, live: bool)
    requires Inv(s) && id in s.pending && (id in s.listeners <==> live)
    ensures Meets(RefreshTools(s), id, live, Open)
    ensures CanResume(s) ==> forall more :: Meets(ResumeRefresh(s, more), id, live, Open)
  {
    hide Request, EndHolds;
    RequestLeavesOthers(s, "tools/list", NoSignal, id, live);
  }

  lemma DispatchMeets(s: State, m: Message, id: nat, live: bool)
    requires Inv(s) && id in s.pending && (id in s.listeners <==> live)
    ensures Meets(Dispatch(s, m), id, live, if Answers(m, id) then Verdict(m) else Open)
  {
    hide RefreshTools;
    var seen := s.(dispatched := s.dispatched + [m]);
    NotesKeep(s, seen);
    RefreshLeavesOthers(seen, id, live);
  }

  lemma TakeLineMeets(s: State, parse: string -> Json, id: nat, live: bool)
    requires Inv(s) && HasLine(s) && id in s.pending && (id in s.listeners <==> live)
    ensures var json := Parsed(s, parse);
            Meets(TakeLine(s, parse), id, live, if json.Value? && Answers(json.message, id) then Verdict(json.message) else Open)
  {
    hide Dispatch, IdsHold;
    var rest := s.(buffer := s.buffer[IndexOf(s.buffer, '\n') + 1..]);
    NotesKeep(s, rest);
    StillMeets(rest, id, live);
    if Parsed(s, parse).Value? { DispatchMeets(rest, Parsed(s, parse).message, id, live); }
  }

  /** A request that has met its fate keeps it. */
  lemma FatesStand(s: State, t: State, id: nat, live: bool, fate: Fate)
    requires Inv(s) && Inv(t) && Later(s, t) && Meets(s, id, live, fate) && !fate.Open?
    ensures Meets(t, id, live, fate)
  {
  }

  lemma {:induction false} TakeLinesMeet(s: State, parse: string -> Json, id: nat, live: bool)
    requires Inv(s) && id in s.pending && (id in s.listeners <==> live)
    ensures Meets(TakeLines(s, parse), id, live,
                  match FirstAnswer(s, parse, id) case None => Open case Some(m) => Verdict(m))
    decreases |s.buffer|
  {
    hide TakeLine, Inv, Later, Meets, Throws, Parsed;
    StillMeets(s, id, live);
    if HasLine(s) {
      var next := TakeLine(s, parse);
      TakeLineShortens(s, parse);
      TakeLineMeets(s, parse, id, live);
      TakeLineKeeps(s, parse);
      if Parsed(s, parse).Value? && Answers(Parsed(s, parse).message, id) {
        TakeLinesKeep(next, parse);
        FatesStand(next, TakeLines(next, parse), id, live, Verdict(Parsed(s, parse).message));
      } else if !Throws(s, parse) {
        MeansPending(next, id, live);
        TakeLinesMeet(next, parse, id, live);
      }
    }
  }

  lemma StillMeets(s: State, id: nat, live: bool)
    requires Inv(s) && id in s.pending && (id in s.listeners <==> live)
    ensures Meets(s, id, live, Open)
  {
  }

  lemma MeansPending(s: State, id: nat, live: bool)
    requires Meets(s, id, live, Open)
    ensures id in s.pending && (id in s.listeners <==> live)
  {
  }

  lemma StepMeets(s: State, e: Event, parse: string -> Json, id: nat, live: bool)
    requires Inv(s) && id in s.pending && (id in s.listeners <==> live)
    ensures Meets(Step(s, e, parse), id, live, Effect(s, e, parse, id, live))
  {
    hide TakeLines, RefreshTools, ResumeRefresh, Request, FirstAnswer;
    match e
    case RequestEvent(name, signal) => RequestLeavesOthers(s, name, signal, id, live);
    case RefreshEvent => RefreshLeavesOthers(s, id, live);
    case RefreshResumedEvent(more) => RefreshLeavesOthers(s, id, live);
    case DataEvent(chunk) =>
      NotesKeep(s, Plus(s, chunk));
      TakeLinesMeet(Plus(s, chunk), parse, id, live);
    case _ =>
  }

  /** In every run, a pending request ends as the first event that concerns it says, and stays so: a
      response resolves it, rejects it or forgets it, its timer and its caller's abort reject it, and a
      failure or a stop of the client rejects it. Until then it is pending. */
  lemma {:induction false} FirstEventDecides(s: State, events: seq<Event>, parse: string -> Json, id: nat, live: bool)
    requires Inv(s) && id in s.pending && (id in s.listeners <==> live)
    ensures Meets(Run(s, events, parse), id, live, FateOf(s, events, parse, id, live))
    decreases |events|
  {
    hide Step, Inv, Later, Meets, Effect;
    StillMeets(s, id, live);
    if events != [] {
      var next, effect := Step(s, events[0], parse), Effect(s, events[0], parse, id, live);
      StepMeets(s, events[0], parse, id, live);
      StepKeeps(s, events[0], parse);
      if effect.Open? {
        MeansPending(next, id, live);
        FirstEventDecides(next, events[1..], parse, id, live);
      } else {
        RunKeeps(next, events[1..], parse);
        FatesStand(next, Run(next, events[1..], parse), id, live, effect);
      }
    }
  }

  // Read off the events: the first failure, and whether writing throws after them.

  function FirstFailure(events: seq<Event>): Option<string> {
    if events == [] then None
    else if events[0].FailEvent? then Some(events[0].reason)
    else FirstFailure(events[1..])
  }

  function LastPipe(events: seq<Event>, before: Option<string>): Option<string> {
    if events == [] then before
    else LastPipe(events[1..], if events[0].PipeEvent? then events[0].broken else before)
  }

  predicate SameEnd(s: State, t: State) {
    t.closed == s.closed && t.startError == s.startError && t.broken == s.broken
  }

  lemma DispatchKeepsEnd(s: State, m: Message)
    ensures SameEnd(s, Dispatch(s, m))
  {
  }

  lemma {:induction false} TakeLinesKeepEnd(s: State, parse: string -> Json)
    ensures SameEnd(s, TakeLines(s, parse))
    decreases |s.buffer|
  {
    hide Dispatch, Parsed, Throws;
    if HasLine(s) {
      TakeLineShortens(s, parse);
      if Parsed(s, parse).Value? {
        DispatchKeepsEnd(s.(buffer := s.buffer[IndexOf(s.buffer, '\n') + 1..]), Parsed(s, parse).message);
      }
      if !Throws(s, parse) { TakeLinesKeepEnd(TakeLine(s, parse), parse); }
    }
  }

  lemma StepRemembers(s: State, e: Event, parse: string -> Json)
    ensures var t := Step(s, e, parse);
            && (t.closed <==> s.closed || e.StopEvent?)
            && t.startError == (if s.startError.Some? || !e.FailEvent? then s.startError else Some(e.reason))
            && t.broken == if e.PipeEvent? then e.broken else s.broken
  {
    hide TakeLines;
    if e.DataEvent? { TakeLinesKeepEnd(Plus(s, e.chunk), parse); }
  }

  lemma {:induction false} RunRemembers(s: State, events: seq<Event>, parse: string -> Json)
    ensures var t := Run(s, events, parse);
            && (t.closed <==> s.closed || StopEvent in events)
            && t.startError == (if s.startError.Some? then s.startError else FirstFailure(events))
            && t.broken == LastPipe(events, s.broken)
    decreases |events|
  {
    hide Step;
    if events != [] {
      StepRemembers(s, events[0], parse);
      RunRemembers(Step(s, events[0], parse), events[1..], parse);
    }
  }

  /** In every run: a request is refused exactly when the client has been stopped or has failed or its
      signal is aborted, and then nothing happens. Otherwise it is written under the next id; if writing
      throws it is rejected for that reason, and else it ends as the first event that concerns it says. */
  lemma RequestsEndAsTold(before: seq<Event>, name: string, signal: Signal, after: seq<Event>, parse: string -> Json)
    ensures var s := Run(Initial, before, parse);
            var t := Step(s, RequestEvent(name, signal), parse);
            if StopEvent in before || FirstFailure(before).Some? || signal.AlreadyAborted? then t == s
            else && t.nextId == s.nextId + 1 && t.written == s.written + [Call(s.nextId, name)]
                 && Standing(Run(t, after, parse), s.nextId) ==
                      if LastPipe(before, None).Some? then Ended(Rejected(WriteFailed(LastPipe(before, None).value)))
                      else FateOf(t, after, parse, s.nextId, signal.Live?)
  {
    hide Run, FateOf, Later;
    RunKeeps(Initial, before, parse);
    RunRemembers(Initial, before, parse);
    var s, e := Run(Initial, before, parse), RequestEvent(name, signal);
    var t := Step(s, e, parse);
    StepKeeps(s, e, parse);
    RunKeeps(t, after, parse);
    if t != s {
      if s.broken.Some? {
        FatesStand(t, Run(t, after, parse), s.nextId, signal.Live?, Ended(Rejected(WriteFailed(s.broken.value))));
      } else {
        FirstEventDecides(t, after, parse, s.nextId, signal.Live?);
      }
    }
  }

  /** An abort that still has its listener tells the server. */
  lemma AbortsAreTold(s: State, id: nat, parse: string -> Json)
    ensures Step(s, AbortEvent(id), parse).written == s.written + if id in s.listeners then [Cancelled(id)] else []
  {
  }

  // ----- refreshing the list of tools -----

  /** The client asks for a page of tools: under the next id, unless it has been stopped or has failed. */
  predicate AsksPage(s: State, t: State, pages: nat) {
    var open := !s.closed && s.startError.None?;
    && t.refresh == Some(Refresh(pages, if open then Some(s.nextId) else None))
    && t.nextId == s.nextId + (if open then 1 else 0)
    && t.written == s.written + if open then [Call(s.nextId, "tools/list")] else []
  }

  /** A refresh, asked for or announced by the server, begins with one page unless one is under way. */
  lemma RefreshesAreShared(s: State, parse: string -> Json, m: Message)
    requires m.id.None? && m.name == Some("notifications/tools/list_changed")
    ensures if s.refresh.Some? then Step(s, RefreshEvent, parse) == s else AsksPage(s, Step(s, RefreshEvent, parse), 1)
    ensures var t := Dispatch(s, m);
            if s.refresh.Some? then t == s.(dispatched := t.dispatched) else AsksPage(s, t, 1)
  {
  }

  /** A refresh goes on exactly when its page was resolved and names a next one, up to 64 pages. */
  lemma RefreshGoesOn(s: State, more: bool, parse: string -> Json)
    requires Enabled(s, RefreshResumedEvent(more))
    ensures var t, run := Step(s, RefreshResumedEvent(more), parse), s.refresh.value;
            if more && run.pages < 64 && run.current.Some? && s.settled[run.current.value].Resolved?
            then AsksPage(s, t, run.pages + 1)
            else t == s.(refresh := None)
  {
  }

  // ----- lines -----

  function Unlines(lines: seq<string>): string {
    if lines == [] then "" else lines[0] + "\n" + Unlines(lines[1..])
  }

  /** What each line parses to, without white space at its ends; empty lines and errors are skipped. */
  function MessagesOf(lines: seq<string>, parse: string -> Json): seq<Message> {
    if lines == [] then []
    else
      var line := Trim(lines[0]);
      (if line != "" && parse(line).Value? then [parse(line).message] else []) + MessagesOf(lines[1..], parse)
  }

  /** Trimming takes away white space at both ends, all of it and nothing else. */
  lemma {:induction false} TrimMeaning(s: string) returns (i: nat, j: nat)
    ensures i <= j <= |s| && Trim(s) == s[i..j]
    ensures forall k | 0 <= k < i || j <= k < |s| :: IsSpace(s[k])
    ensures i < j ==> !IsSpace(s[i]) && !IsSpace(s[j - 1])
    decreases |s|
  {
    hide IsSpace;
    i, j := 0, |s|;
    if s != "" && IsSpace(s[0]) {
      var tail := s[1..];
      i, j := TrimMeaning(tail);
      assert tail[i..j] == s[i + 1..j + 1];
      i, j := i + 1, j + 1;
    } else if s != "" && IsSpace(s[|s| - 1]) {
      var init := s[..|s| - 1];
      i, j := TrimMeaning(init);
      assert init[i..j] == s[i..j];
    }
  }

  /** Draining a text dispatches what its lines parse to, one by one and in order, and leaves what comes
      after the last line end. */
  lemma {:induction false} LinesAreDispatched(s: State, lines: seq<string>, rest: string, parse: string -> Json)
    requires s.buffer == Unlines(lines) + rest && '\n' !in rest && forall line :: line in lines ==> '\n' !in line
    ensures var t := DrainAll(s, parse); t.dispatched == s.dispatched + MessagesOf(lines, parse) && t.buffer == rest
    decreases |lines|
  {
    hide TakeLine, DrainAll, Trim, IndexOf, Unlines, MessagesOf;
    if lines == [] {
      NoLines(rest, parse);
      NothingTaken(s, parse);
    } else {
      var more := Unlines(lines[1..]) + rest;
      FirstOfLines(lines, rest);
      FirstOfMessages(lines, s.dispatched, parse);
      HeadIsTaken(s, lines[0], more, parse);
      LinesAreDispatched(TakeLine(s, parse), lines[1..], rest, parse);
    }
  }

  lemma NoLines(rest: string, parse: string -> Json)
    ensures Unlines([]) + rest == rest && MessagesOf([], parse) == []
  {
  }

  lemma FirstOfLines(lines: seq<string>, rest: string)
    requires lines != []
    ensures Unlines(lines) + rest == lines[0] + "\n" + (Unlines(lines[1..]) + rest)
  {
    ConcatThree(lines[0] + "\n", Unlines(lines[1..]), rest);
  }

  lemma ConcatThree<T>(a: seq<T>, b: seq<T>, c: seq<T>)
    ensures a + b + c == a + (b + c)
  {
  }

  lemma FirstOfMessages(lines: seq<string>, before: seq<Message>, parse: string -> Json)
    requires lines != []
    ensures var line := Trim(lines[0]);
            before + MessagesOf(lines, parse) ==
              before + (if line != "" && parse(line).Value? then [parse(line).message] else []) + MessagesOf(lines[1..], parse)
  {
    hide Trim;
    var line := Trim(lines[0]);
    ConcatThree(before, if line != "" && parse(line).Value? then [parse(line).message] else [], MessagesOf(lines[1..], parse));
  }

  lemma HeadIsTaken(s: State, line: string, more: string, parse: string -> Json)
    requires s.buffer == line + "\n" + more && '\n' !in line
    ensures HasLine(s) && DrainAll(s, parse) == DrainAll(TakeLine(s, parse), parse)
    ensures var t, text := TakeLine(s, parse), Trim(line);
            && t.buffer == more
            && t.dispatched == s.dispatched + if text != "" && parse(text).Value? then [parse(text).message] else []
  {
    hide TakeLine, DrainAll, Trim, IndexOf;
    HeadOf(s, line, more);
    TakeLineShortens(s, parse);
    TakeLineDispatches(s, parse);
    DrainOne(s, parse);
  }
}

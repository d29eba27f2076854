/**
 The ACP gateway agent as a step machine: every synchronous stretch of a method between two
 awaits is one step, and steps of different calls interleave freely (src/acp/translator.ts).

 The agent's promises and the requests it has in flight are part of the state: `started` maps
 every prompt's run id to its session, `settled` says how its promise was settled, `sends` holds
 the `chat.send` requests not yet answered and `aborts` the cancellations that are waiting.
 */
module Gateway {
  import opened Basics
  import opened Sessions

  datatype StopReason = EndTurn | Cancelled | Refusal

  datatype Settlement = Resolved(reason: StopReason) | RejectedWith(error: string)

  datatype Pending = Pending(
    sessionId: string, sessionKey: string, idempotencyKey: RunId,
    sentTextLength: Option<nat>, sentText: Option<string>, toolCalls: Option<set<string>>)

  /** What the client is told; the run tells which prompt it belongs to. */
  datatype Update =
    | Chunk(run: RunId, sessionId: string, text: string)
    | ToolStarted(run: RunId, sessionId: string, toolCallId: string)
    | ToolFinished(run: RunId, sessionId: string, toolCallId: string, isError: bool)

  datatype Agent = Agent(
    store: Store, cfg: Config,
    order: seq<string>, pending: map<string, Pending>,
    started: map<RunId, string>, settled: map<RunId, Settlement>,
    sends: map<RunId, string>, aborts: multiset<string>, updates: seq<Update>)

  datatype ChatState = Delta(text: Option<string>) | Final | Aborted | Error | OtherState

  datatype Phase = Start | Result(isError: bool) | OtherPhase

  datatype Step =
    | CreateSession(id: string, key: string, cwd: string, now: int)
    | GetSession(id: string, now: int)
    | Prompt(id: string, tooLarge: bool, run: RunId, controller: Controller, now: int)
    | SendAnswered(run: RunId)
    | SendFailed(run: RunId, error: string, now: int)
    | CancelBegin(id: string, now: int)
    | CancelEnd(id: string)
    | ChatEvent(key: string, runId: Option<RunId>, state: ChatState, now: int)
    | ToolEvent(key: string, toolCallId: string, phase: Phase)
    | Disconnect(reason: string, now: int)

  // ---------- Helpers on the state ----------

  /** A promise is settled once; settling it again has no effect. */
  function Settled(settled: map<RunId, Settlement>, run: RunId, how: Settlement): map<RunId, Settlement> {
    if run in settled then settled else settled[run := how]
  }

  /** `pendingPrompts.delete(sessionId)`. */
  function Forget(a: Agent, id: string): Agent {
    if id !in a.pending then a
    else a.(order := Keep(a.order, a.pending.Keys - {id}), pending := a.pending - {id})
  }

  /** `pendingPrompts.set(sessionId, ...)`: a key that is already there keeps its place. */
  function Register(a: Agent, id: string, p: Pending): Agent {
    a.(order := if id in a.pending then a.order else a.order + [id], pending := a.pending[id := p])
  }

  ghost predicate Listed(a: Agent) {
    Distinct(a.order) && forall id :: id in a.order <==> id in a.pending
  }

  /** The first pending prompt, in insertion order from `i` on, with the given session key. */
  function FindFrom(a: Agent, key: string, i: nat): Option<Pending>
    requires i <= |a.order| && forall id :: id in a.order ==> id in a.pending
    decreases |a.order| - i
  {
    if i == |a.order| then None
    else if a.pending[a.order[i]].sessionKey == key then Some(a.pending[a.order[i]])
    else FindFrom(a, key, i + 1)
  }

  function FindPending(a: Agent, key: string): Option<Pending>
    requires forall id :: id in a.order ==> id in a.pending
  {
    FindFrom(a, key, 0)
  }

  /** The prompt of session `id` is settled: its record and its session's active run go together. */
  function Close(a: Agent, id: string, run: RunId, how: Settlement, now: int): Agent {
    var b := Forget(a, id);
    b.(store := ClearActive(b.store, id, now), settled := Settled(b.settled, run, how))
  }

  function Finish(a: Agent, p: Pending, reason: StopReason, now: int): Agent {
    Close(a, p.sessionId, p.idempotencyKey, Resolved(reason), now)
  }

  function SentLength(p: Pending): nat {
    if p.sentTextLength.Some? then p.sentTextLength.value else 0
  }

  /** Send what `fullText` adds to the length already sent. */
  function SendDelta(a: Agent, id: string, fullText: string): Agent {
    if id !in a.pending || |fullText| <= SentLength(a.pending[id]) then a
    else
      var p := a.pending[id];
      a.(pending := a.pending[id := p.(sentTextLength := Some(|fullText|), sentText := Some(fullText))],
         updates := a.updates + [Chunk(p.idempotencyKey, id, fullText[SentLength(p)..])])
  }

  function Announced(p: Pending): set<string> {
    if p.toolCalls.Some? then p.toolCalls.value else {}
  }

  // ---------- Steps ----------

  /** When a step may happen: run ids are fresh, only outstanding requests are answered, and only
      waiting cancellations continue. */
  predicate Enabled(a: Agent, step: Step) {
    match step
    case Prompt(_, _, run, _, _) => run !in a.started
    case SendAnswered(run) => run in a.sends
    case SendFailed(run, _, _) => run in a.sends
    case CancelEnd(id) => id in a.aborts
    case _ => true
  }

  /** The state in which a prompt on the live session `id` registers itself. */
  function Freed(a: Agent, id: string, now: int): Agent
    requires id in a.store.sessions
  {
    var touched := Touch(a.store, id, now);
    a.(store := if touched.sessions[id].abortController.Some? then CancelActive(touched, id, now) else touched)
  }

  /** A prompt whose session is free: its run is set, its record registered, its request sent. */
  function Begin(a: Agent, id: string, run: RunId, controller: Controller, now: int): Agent
    requires id in a.store.sessions
  {
    Register(a.(store := SetActive(a.store, id, run, controller, now)), id,
             Pending(id, a.store.sessions[id].sessionKey, run, None, None, None))
      .(started := a.started[run := id], sends := a.sends[run := id])
  }

  function DoPrompt(a: Agent, id: string, tooLarge: bool, run: RunId, controller: Controller, now: int): Agent {
    if id !in a.store.sessions then a
    else
      var free := Freed(a, id, now);
      if tooLarge then free else Begin(free, id, run, controller, now)
  }

  function DoSendFailed(a: Agent, run: RunId, error: string, now: int): Agent
    requires run in a.sends
  {
    Close(a, a.sends[run], run, RejectedWith(error), now).(sends := a.sends - {run})
  }

  function DoCancelBegin(a: Agent, id: string, now: int): Agent {
    if id !in a.store.sessions then a
    else a.(store := CancelActive(Touch(a.store, id, now), id, now), aborts := a.aborts + multiset{id})
  }

  function DoCancelEnd(a: Agent, id: string): Agent {
    var b := a.(aborts := a.aborts - multiset{id});
    if id !in a.pending then b
    else Forget(b, id).(settled := Settled(b.settled, a.pending[id].idempotencyKey, Resolved(Cancelled)))
  }

  function DoChatEvent(a: Agent, key: string, runId: Option<RunId>, state: ChatState, now: int): Agent
    requires forall id :: id in a.order ==> id in a.pending
  {
    if key == "" then a
    else
      match FindPending(a, key)
      case None => a
      case Some(p) =>
        if runId.Some? && p.idempotencyKey != runId.value then a
        else
          match state
          case Delta(text) => if text.Some? then SendDelta(a, p.sessionId, text.value) else a
          case Final => Finish(a, p, EndTurn, now)
          case Aborted => Finish(a, p, Cancelled, now)
          case Error => Finish(a, p, Refusal, now)
          case OtherState => a
  }

  function DoToolEvent(a: Agent, key: string, toolCallId: string, phase: Phase): Agent
    requires forall id :: id in a.order ==> id in a.pending
  {
    if key == "" || toolCallId == "" then a
    else
      match FindPending(a, key)
      case None => a
      case Some(p) =>
        match phase
        case Start =>
          if toolCallId in Announced(p) then a
          else
            a.(pending := a.pending[p.sessionId := p.(toolCalls := Some(Announced(p) + {toolCallId}))],
               updates := a.updates + [ToolStarted(p.idempotencyKey, p.sessionId, toolCallId)])
        case Result(isError) =>
          a.(updates := a.updates + [ToolFinished(p.idempotencyKey, p.sessionId, toolCallId, isError)])
        case OtherPhase => a
  }

  /** The first `n` pending prompts are rejected and their sessions' runs cleared. */
  function RejectFirst(a: Agent, error: string, now: int, n: nat): Agent
    requires n <= |a.order| && forall id :: id in a.order ==> id in a.pending
  {
    if n == 0 then a
    else
      var b := RejectFirst(a, error, now, n - 1);
      var p := a.pending[a.order[n - 1]];
      b.(store := ClearActive(b.store, p.sessionId, now), settled := Settled(b.settled, p.idempotencyKey, RejectedWith(error)))
  }

  function DoDisconnect(a: Agent, reason: string, now: int): Agent
    requires forall id :: id in a.order ==> id in a.pending
  {
    RejectFirst(a, "Gateway disconnected: " + reason, now, |a.order|).(order := [], pending := map[])
  }

  function Next(a: Agent, step: Step): Agent
    requires Enabled(a, step) && Listed(a) && Ordered(a.store)
  {
    match step
    case CreateSession(id, key, cwd, now) => a.(store := Create(a.store, a.cfg, id, key, cwd, now).0)
    case GetSession(id, now) => a.(store := Touch(a.store, id, now))
    case Prompt(id, tooLarge, run, controller, now) => DoPrompt(a, id, tooLarge, run, controller, now)
    case SendAnswered(run) => a.(sends := a.sends - {run})
    case SendFailed(run, error, now) => DoSendFailed(a, run, error, now)
    case CancelBegin(id, now) => DoCancelBegin(a, id, now)
    case CancelEnd(id) => DoCancelEnd(a, id)
    case ChatEvent(key, runId, state, now) => DoChatEvent(a, key, runId, state, now)
    case ToolEvent(key, toolCallId, phase) => DoToolEvent(a, key, toolCallId, phase)
    case Disconnect(reason, now) => DoDisconnect(a, reason, now)
  }

  function Initial(cfg: Config): Agent {
    Agent(EMPTY_STORE, cfg, [], map[], map[], map[], map[], multiset{}, [])
  }
}

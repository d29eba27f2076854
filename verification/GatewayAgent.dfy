/**
 The gateway agent as an object over a session store. Each method covers one synchronous
 stretch of the source's method and is proved to act as the step of `Gateway` named beside it.
 */
module GatewayAgents {
  import opened Basics
  import opened Sessions
  import opened SessionStores
  import opened Gateway

  class AcpGatewayAgent {
    const sessionStore: SessionStore
    var pendingOrder: seq<string>
    var pendingPrompts: map<string, Pending>
    // Promises and requests that the runtime holds for the agent.
    var started: map<RunId, string>
    var settled: map<RunId, Settlement>
    var sends: map<RunId, string>
    var aborts: multiset<string>
    var updates: seq<Update>

    function State(): Agent
      reads this, sessionStore
    {
      Agent(sessionStore.State(), sessionStore.config, pendingOrder, pendingPrompts, started, settled, sends, aborts, updates)
    }

    constructor (sessionStore: SessionStore)
      requires sessionStore.State() == EMPTY_STORE
      ensures this.sessionStore == sessionStore && State() == Initial(sessionStore.config)
    {
      this.sessionStore := sessionStore;
      pendingOrder, pendingPrompts, started, settled := [], map[], map[], map[];
      sends, aborts, updates := map[], multiset{}, [];
    }

    method Settle(runId: RunId, how: Settlement)
      modifies this`settled
      ensures settled == Settled(old(settled), runId, how)
    {
      if runId !in settled { settled := settled[runId := how]; }
    }

    method DeletePending(sessionId: string)
      modifies this`pendingOrder, this`pendingPrompts
      ensures State() == Forget(old(State()), sessionId)
    {
      if sessionId in pendingPrompts {
        pendingOrder := Keep(pendingOrder, pendingPrompts.Keys - {sessionId});
        pendingPrompts := pendingPrompts - {sessionId};
      }
    }

    method FindPendingBySessionKey(sessionKey: string) returns (found: Option<Pending>)
      requires Listed(State())
      ensures found == FindPending(State(), sessionKey)
    {
      for i := 0 to |pendingOrder|
        invariant FindPending(State(), sessionKey) == FindFrom(State(), sessionKey, i)
      {
        var pending := pendingPrompts[pendingOrder[i]];
        if pending.sessionKey == sessionKey { return Some(pending); }
      }
      found := None;
    }

    method HandleGatewayDisconnect(reason: string, now: int)
      requires Listed(State())
      modifies this, sessionStore
      ensures State() == DoDisconnect(old(State()), reason, now)
    {
      ghost var before := State();
      var error := "Gateway disconnected: " + reason;
      for i := 0 to |pendingOrder|
        invariant State() == RejectFirst(before, error, now, i)
        invariant pendingOrder == before.order && pendingPrompts == before.pending
      {
        var pending := pendingPrompts[pendingOrder[i]];
        Settle(pending.idempotencyKey, RejectedWith(error));
        sessionStore.ClearActiveRun(pending.sessionId, now);
      }
      pendingOrder, pendingPrompts := [], map[];
    }

    /** `prompt`: up to the return of its promise; `tooLarge` is the size check's verdict. */
    method Prompt(sessionId: string, tooLarge: bool, runId: RunId, controller: Controller, now: int)
      returns (accepted: bool)
      requires Listed(State())
      modifies this, sessionStore
      ensures State() == DoPrompt(old(State()), sessionId, tooLarge, runId, controller, now)
      ensures accepted <==> sessionId in old(sessionStore.sessions) && !tooLarge
    {
      var session := sessionStore.GetSession(sessionId, now);
      if session.None? { return false; }
      if session.value.abortController.Some? {
        var _ := sessionStore.CancelActiveRun(sessionId, now);
      }
      if tooLarge { return false; }
      sessionStore.SetActiveRun(sessionId, runId, controller, now);
      var record := Pending(sessionId, session.value.sessionKey, runId, None, None, None);
      if sessionId !in pendingPrompts { pendingOrder := pendingOrder + [sessionId]; }
      pendingPrompts := pendingPrompts[sessionId := record];
      started := started[runId := sessionId];
      sends := sends[runId := sessionId];
      accepted := true;
    }

    /** The rejection handler of `chat.send`. */
    method SendRejected(runId: RunId, error: string, now: int)
      requires runId in sends
      modifies this, sessionStore
      ensures State() == DoSendFailed(old(State()), runId, error, now)
    {
      var sessionId := sends[runId];
      DeletePending(sessionId);
      sessionStore.ClearActiveRun(sessionId, now);
      Settle(runId, RejectedWith(error));
      sends := sends - {runId};
    }

    /** `cancel` up to its await. */
    method CancelUntilAbort(sessionId: string, now: int)
      modifies this, sessionStore
      ensures State() == DoCancelBegin(old(State()), sessionId, now)
    {
      var session := sessionStore.GetSession(sessionId, now);
      if session.None? { return; }
      var _ := sessionStore.CancelActiveRun(sessionId, now);
      aborts := aborts + multiset{sessionId};
    }

    /** `cancel` after its await, whether the abort request succeeded or not. */
    method CancelAfterAbort(sessionId: string)
      requires sessionId in aborts
      modifies this
      ensures State() == DoCancelEnd(old(State()), sessionId)
    {
      aborts := aborts - multiset{sessionId};
      if sessionId in pendingPrompts {
        var pending := pendingPrompts[sessionId];
        DeletePending(sessionId);
        Settle(pending.idempotencyKey, Resolved(Cancelled));
      }
    }

    method FinishPrompt(pending: Pending, stopReason: StopReason, now: int)
      modifies this, sessionStore
      ensures State() == Finish(old(State()), pending, stopReason, now)
    {
      DeletePending(pending.sessionId);
      sessionStore.ClearActiveRun(pending.sessionId, now);
      Settle(pending.idempotencyKey, Resolved(stopReason));
    }

    method HandleDeltaEvent(sessionId: string, fullText: string)
      modifies this
      ensures State() == SendDelta(old(State()), sessionId, fullText)
    {
      if sessionId !in pendingPrompts { return; }
      var pending := pendingPrompts[sessionId];
      var sentSoFar := if pending.sentTextLength.Some? then pending.sentTextLength.value else 0;
      if |fullText| <= sentSoFar { return; }
      var newText := fullText[sentSoFar..];
      pending := pending.(sentTextLength := Some(|fullText|));
      pending := pending.(sentText := Some(fullText));
      pendingPrompts := pendingPrompts[sessionId := pending];
      updates := updates + [Chunk(pending.idempotencyKey, sessionId, newText)];
    }

    method HandleChatEvent(sessionKey: string, runId: Option<RunId>, state: ChatState, now: int)
      requires Listed(State())
      modifies this, sessionStore
      ensures State() == DoChatEvent(old(State()), sessionKey, runId, state, now)
    {
      if sessionKey == "" { return; }
      var found := FindPendingBySessionKey(sessionKey);
      if found.None? { return; }
      var pending := found.value;
      if runId.Some? && pending.idempotencyKey != runId.value { return; }
      match state
      case Delta(text) =>
        if text.Some? { HandleDeltaEvent(pending.sessionId, text.value); }
      case Final => FinishPrompt(pending, EndTurn, now);
      case Aborted => FinishPrompt(pending, Cancelled, now);
      case Error => FinishPrompt(pending, Refusal, now);
      case OtherState =>
    }

    method HandleAgentEvent(sessionKey: string, toolCallId: string, phase: Phase)
      requires Listed(State())
      modifies this
      ensures State() == DoToolEvent(old(State()), sessionKey, toolCallId, phase)
    {
      if sessionKey == "" || toolCallId == "" { return; }
      var found := FindPendingBySessionKey(sessionKey);
      if found.None? { return; }
      var pending := found.value;
      match phase
      case Start =>
        var toolCalls := if pending.toolCalls.Some? then pending.toolCalls.value else {};
        if toolCallId in toolCalls { return; }
        pending := pending.(toolCalls := Some(toolCalls + {toolCallId}));
        pendingPrompts := pendingPrompts[pending.sessionId := pending];
        updates := updates + [ToolStarted(pending.idempotencyKey, pending.sessionId, toolCallId)];
      case Result(isError) =>
        updates := updates + [ToolFinished(pending.idempotencyKey, pending.sessionId, toolCallId, isError)];
      case OtherPhase =>
    }
  }
}

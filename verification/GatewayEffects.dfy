/**
 What each step of the gateway agent does, told component by component: which promises it settles and
 how, which records leave or enter the map, which runs end, and what the client is told.
 */
module GatewayEffects {
  import opened Basics
  import opened Sessions
  import opened Gateway
  import opened GatewayProperties

  // ---------- Whom an event is for ----------

  /** The prompt of session `id` has been pending longest under this session key. */
  ghost predicate Finds(a: Agent, key: string, id: string)
    requires Listed(a)
  {
    exists i :: FirstAt(a, key, i) && a.order[i] == id
  }

  lemma FoundIsFirst(a: Agent, key: string)
    requires Inv(a)
    ensures FindPending(a, key).Some? ==> FindPending(a, key).value.sessionId in a.pending
    ensures FindPending(a, key).Some? ==> a.pending[FindPending(a, key).value.sessionId] == FindPending(a, key).value
    ensures forall id :: Finds(a, key, id) <==> FindPending(a, key).Some? && FindPending(a, key).value.sessionId == id
  {
    FindPendingFinds(a, key);
    forall i | FirstAt(a, key, i) ensures FindPending(a, key) == Some(a.pending[a.order[i]]) && a.pending[a.order[i]].sessionId == a.order[i] {
      FindPendingIsFirst(a, key, i);
      assert a.order[i] in a.order;
    }
    if FindPending(a, key).Some? { var i := FirstOfKey(a, key, FindPending(a, key).value.sessionId); }
  }

  lemma FirstOfKey(a: Agent, key: string, id: string) returns (i: nat)
    requires Listed(a) && id in a.pending && a.pending[id].sessionKey == key
    ensures FirstAt(a, key, i)
  {
    assert id in a.order;
    i :| i < |a.order| && a.order[i] == id;
    i := FirstUpTo(a, key, i);
  }

  lemma {:induction false} FirstUpTo(a: Agent, key: string, n: nat) returns (i: nat)
    requires Listed(a) && n < |a.order| && a.pending[a.order[n]].sessionKey == key
    ensures FirstAt(a, key, i)
  {
    i := n;
    if k: nat :| k < n && a.pending[a.order[k]].sessionKey == key { i := FirstUpTo(a, key, k); }
  }

  /** A chat event is for the prompt of session `id`: found by its key, and of its run if it names one. */
  ghost predicate ChatFor(a: Agent, step: Step, id: string)
    requires Listed(a)
  {
    && step.ChatEvent? && step.key != "" && Finds(a, step.key, id) && id in a.pending
    && (step.runId.Some? ==> step.runId.value == a.pending[id].idempotencyKey)
  }

  ghost predicate ToolFor(a: Agent, step: Step, id: string)
    requires Listed(a)
  {
    step.ToolEvent? && step.key != "" && step.toolCallId != "" && Finds(a, step.key, id) && id in a.pending
  }

  /** A prompt that is accepted. */
  ghost predicate Starts(a: Agent, step: Step, id: string) {
    step.Prompt? && step.id == id && !step.tooLarge && id in a.store.sessions
  }

  // ---------- What is settled, and how ----------

  /** The step calls for the promise of run `r` to be settled this way. */
  ghost predicate SettlesAs(a: Agent, step: Step, r: RunId, how: Settlement)
    requires Listed(a)
  {
    match step
    case SendFailed(run, error, _) => r == run && how == RejectedWith(error)
    case CancelEnd(id) => id in a.pending && a.pending[id].idempotencyKey == r && how == Resolved(Cancelled)
    case ChatEvent(_, _, state, _) =>
      && (exists id :: ChatFor(a, step, id) && a.pending[id].idempotencyKey == r)
      && ((state.Final? && how == Resolved(EndTurn))
          || (state.Aborted? && how == Resolved(Cancelled))
          || (state.Error? && how == Resolved(Refusal)))
    case Disconnect(reason, _) =>
      (exists id :: id in a.pending && a.pending[id].idempotencyKey == r) && how == RejectedWith("Gateway disconnected: " + reason)
    case _ => false
  }

  /** The settlements after a step: the earlier ones, and those the step calls for. */
  ghost predicate SettledExactly(a: Agent, step: Step, settled: map<RunId, Settlement>)
    requires Listed(a)
  {
    forall r, how :: (r in settled && settled[r] == how) <==>
      if r in a.settled then a.settled[r] == how else SettlesAs(a, step, r, how)
  }

  lemma ChatSettlesExactly(a: Agent, step: Step)
    requires Inv(a) && step.ChatEvent?
    ensures SettledExactly(a, step, DoChatEvent(a, step.key, step.runId, step.state, step.now).settled)
  {
    FoundIsFirst(a, step.key);
    var found := FindPending(a, step.key);
    if Ends(step.state) && found.Some? && Addressed(a, step.key, step.runId, found.value.idempotencyKey) {
      LastEventFinishes(a, step.key, step.runId, step.state, step.now, found.value.idempotencyKey);
      FinishSettles(a, found.value, ReasonOf(step.state), step.now);
      assert ChatFor(a, step, found.value.sessionId);
    } else {
      OtherEventSettlesNothing(a, step.key, step.runId, step.state, step.now);
    }
  }

  lemma DisconnectSettlesExactly(a: Agent, step: Step)
    requires Inv(a) && step.Disconnect?
    ensures SettledExactly(a, step, DoDisconnect(a, step.reason, step.now).settled)
  {
    DisconnectRejectsAll(a, step.reason, step.now);
    DisconnectExtends(a, step.reason, step.now);
    forall r ensures r in PendingRuns(a) <==> exists id :: id in a.pending && a.pending[id].idempotencyKey == r {
    }
  }

  /** Every step settles exactly the promises it calls for, each as it says, and no settled one again. */
  lemma NextSettlesExactly(a: Agent, step: Step)
    requires Inv(a) && Enabled(a, step)
    ensures SettledExactly(a, step, Next(a, step).settled)
  {
    match step
    case SendFailed(run, error, now) => SendFailedSettles(a, run, error, now);
    case CancelEnd(id) => CancelEndSettles(a, id);
    case ChatEvent(key, runId, state, now) => ChatSettlesExactly(a, step);
    case Disconnect(reason, now) => DisconnectSettlesExactly(a, step);
    case _ =>
      QuietSteps(a, step);
      QuietSettles(a, step);
  }

  lemma SendFailedSettles(a: Agent, run: RunId, error: string, now: int)
    requires Listed(a) && run in a.sends
    ensures SettledExactly(a, SendFailed(run, error, now), DoSendFailed(a, run, error, now).settled)
  {}

  lemma CancelEndSettles(a: Agent, id: string)
    requires Listed(a)
    ensures SettledExactly(a, CancelEnd(id), DoCancelEnd(a, id).settled)
  {}

  lemma QuietSettles(a: Agent, step: Step)
    requires Listed(a) && !step.SendFailed? && !step.CancelEnd? && !step.ChatEvent? && !step.Disconnect?
    ensures SettledExactly(a, step, a.settled)
  {}

  // ---------- Which records there are ----------

  ghost predicate RecordLeaves(a: Agent, step: Step, id: string)
    requires Listed(a) && Enabled(a, step)
  {
    match step
    case SendFailed(run, _, _) => a.sends[run] == id
    case CancelEnd(other) => other == id
    case Disconnect(_, _) => true
    case ChatEvent(_, _, state, _) => ChatFor(a, step, id) && Ends(state)
    case _ => false
  }

  /** The step brings text for the prompt of session `id` that goes beyond what was sent. */
  ghost predicate Brings(a: Agent, step: Step, id: string)
    requires Listed(a)
  {
    ChatFor(a, step, id) && step.state.Delta? && step.state.text.Some? && |step.state.text.value| > SentLength(a.pending[id])
  }

  /** The step is the first to announce a tool call of the prompt of session `id`. */
  ghost predicate Announces(a: Agent, step: Step, id: string)
    requires Listed(a)
  {
    ToolFor(a, step, id) && step.phase.Start? && step.toolCallId !in Announced(a.pending[id])
  }

  /** What becomes of the record of session `id` when it stays. */
  ghost predicate Kept(a: Agent, step: Step, id: string, p: Pending)
    requires Listed(a) && id in a.pending
  {
    var q := a.pending[id];
    && p.sessionId == q.sessionId && p.sessionKey == q.sessionKey && p.idempotencyKey == q.idempotencyKey
    && (p.sentTextLength, p.sentText) ==
       (if Brings(a, step, id) then (Some(|step.state.text.value|), step.state.text) else (q.sentTextLength, q.sentText))
    && Announced(p) == Announced(q) + if Announces(a, step, id) then {step.toolCallId} else {}
  }

  /** The record of session `id` after a step, if there is one. */
  ghost predicate RecordExactly(a: Agent, step: Step, id: string, pending: map<string, Pending>)
    requires Listed(a) && Enabled(a, step)
  {
    if Starts(a, step, id) then
      id in pending && pending[id] == Pending(id, a.store.sessions[id].sessionKey, step.run, None, None, None)
    else
      && (id in pending <==> id in a.pending && !RecordLeaves(a, step, id))
      && (id in pending ==> Kept(a, step, id, pending[id]))
  }

  lemma PromptPending(a: Agent, id: string, tooLarge: bool, run: RunId, controller: Controller, now: int)
    ensures DoPrompt(a, id, tooLarge, run, controller, now).pending ==
            if id in a.store.sessions && !tooLarge
            then a.pending[id := Pending(id, a.store.sessions[id].sessionKey, run, None, None, None)] else a.pending
  {}

  lemma ChatRecord(a: Agent, step: Step, id: string)
    requires Inv(a) && step.ChatEvent?
    ensures RecordExactly(a, step, id, DoChatEvent(a, step.key, step.runId, step.state, step.now).pending)
  {
    FoundIsFirst(a, step.key);
    var found := FindPending(a, step.key);
    if Ends(step.state) && found.Some? && Addressed(a, step.key, step.runId, found.value.idempotencyKey) {
      LastEventFinishes(a, step.key, step.runId, step.state, step.now, found.value.idempotencyKey);
      FinishSettles(a, found.value, ReasonOf(step.state), step.now);
    } else if step.state.Delta? {
      DeltaRecord(a, step, id);
    } else {
      DeafEvent(a, step.key, step.runId, step.state, step.now);
    }
  }

  lemma DeltaRecord(a: Agent, step: Step, id: string)
    requires Inv(a) && step.ChatEvent? && step.state.Delta?
    ensures RecordExactly(a, step, id, DoChatEvent(a, step.key, step.runId, step.state, step.now).pending)
  {
    FoundIsFirst(a, step.key);
  }

  lemma ToolRecord(a: Agent, step: Step, id: string)
    requires Inv(a) && step.ToolEvent?
    ensures RecordExactly(a, step, id, DoToolEvent(a, step.key, step.toolCallId, step.phase).pending)
  {
    FoundIsFirst(a, step.key);
    var found := FindPending(a, step.key);
    if found.Some? && Announces(a, step, found.value.sessionId) {
      AnnouncedRecord(a, step, found.value, id);
    }
  }

  lemma AnnouncedRecord(a: Agent, step: Step, p: Pending, id: string)
    requires Inv(a) && step.ToolEvent? && Announces(a, step, p.sessionId) && a.pending[p.sessionId] == p
    requires forall other :: Finds(a, step.key, other) <==> p.sessionId == other
    ensures RecordExactly(a, step, id, a.pending[p.sessionId := p.(toolCalls := Some(Announced(p) + {step.toolCallId}))])
  {}

  lemma ForgottenRecord(a: Agent, step: Step, id: string, pending: map<string, Pending>)
    requires Inv(a) && Enabled(a, step) && (step.SendFailed? || step.CancelEnd?)
    requires pending == a.pending - {if step.SendFailed? then a.sends[step.run] else step.id}
    ensures RecordExactly(a, step, id, pending)
  {}

  lemma UnchangedRecord(a: Agent, step: Step, id: string)
    requires Inv(a) && Enabled(a, step)
    requires step.CreateSession? || step.GetSession? || step.SendAnswered? || step.CancelBegin?
    ensures RecordExactly(a, step, id, Next(a, step).pending)
  {}

  lemma PromptRecord(a: Agent, step: Step, id: string, pending: map<string, Pending>)
    requires Inv(a) && Enabled(a, step) && step.Prompt?
    requires pending == if step.id in a.store.sessions && !step.tooLarge
                        then a.pending[step.id := Pending(step.id, a.store.sessions[step.id].sessionKey, step.run, None, None, None)] else a.pending
    ensures RecordExactly(a, step, id, pending)
  {}

  /** After every step the pending records are exactly these: that of an accepted prompt, new, and the
      earlier ones that the step does not take away, changed only in what was sent and announced. */
  lemma NextRecordsExactly(a: Agent, step: Step, id: string)
    requires Inv(a) && Enabled(a, step)
    ensures RecordExactly(a, step, id, Next(a, step).pending)
  {
    match step
    case Prompt(sid, tooLarge, run, controller, now) =>
      PromptPending(a, sid, tooLarge, run, controller, now);
      PromptRecord(a, step, id, Next(a, step).pending);
    case ChatEvent(_, _, _, _) => ChatRecord(a, step, id);
    case ToolEvent(_, _, _) => ToolRecord(a, step, id);
    case SendFailed(run, _, _) =>
      ForgetListed(a, a.sends[run]);
      ForgottenRecord(a, step, id, Next(a, step).pending);
    case CancelEnd(sid) =>
      ForgetListed(a, sid);
      ForgottenRecord(a, step, id, Next(a, step).pending);
    case Disconnect(_, _) =>
    case _ => UnchangedRecord(a, step, id);
  }

  // ---------- Which runs are active ----------

  /** The step takes the active run of session `id` away. */
  ghost predicate RunStops(a: Agent, step: Step, id: string)
    requires Listed(a) && Enabled(a, step)
  {
    match step
    case Prompt(other, _, _, _, _) => other == id
    case CancelBegin(other, _) => other == id
    case SendFailed(run, _, _) => a.sends[run] == id
    case Disconnect(_, _) => id in a.pending
    case ChatEvent(_, _, state, _) => ChatFor(a, step, id) && Ends(state)
    case _ => false
  }

  lemma CloseStopsOne(a: Agent, sid: string, run: RunId, how: Settlement, now: int, id: string, r: RunId)
    requires Inv(a)
    ensures Runs(Close(a, sid, run, how, now), id, r) <==> Runs(a, id, r) && id != sid
  {
    ClearsOne(a.store, sid, now);
  }

  lemma ChatStops(a: Agent, step: Step, id: string, r: RunId)
    requires Inv(a) && step.ChatEvent?
    ensures Runs(DoChatEvent(a, step.key, step.runId, step.state, step.now), id, r) <==> Runs(a, id, r) && !RunStops(a, step, id)
  {
    FoundIsFirst(a, step.key);
    var found := FindPending(a, step.key);
    if Ends(step.state) && found.Some? && Addressed(a, step.key, step.runId, found.value.idempotencyKey) {
      LastEventFinishes(a, step.key, step.runId, step.state, step.now, found.value.idempotencyKey);
      CloseStopsOne(a, found.value.sessionId, found.value.idempotencyKey, Resolved(ReasonOf(step.state)), step.now, id, r);
    }
  }

  lemma DisconnectStops(a: Agent, step: Step, id: string, r: RunId)
    requires Inv(a) && step.Disconnect?
    ensures Runs(DoDisconnect(a, step.reason, step.now), id, r) <==> Runs(a, id, r) && id !in a.pending
  {
    RejectFirstClears(a, "Gateway disconnected: " + step.reason, step.now, |a.order|);
    assert a.order[..|a.order|] == a.order;
  }

  lemma PromptStops(a: Agent, step: Step, id: string, r: RunId)
    requires Inv(a) && Enabled(a, step) && step.Prompt?
    ensures Runs(DoPrompt(a, step.id, step.tooLarge, step.run, step.controller, step.now), id, r) <==>
            (Starts(a, step, id) && r == step.run) || (Runs(a, id, r) && id != step.id)
  {
    if step.id in a.store.sessions {
      FreedKeepsInv(a, step.id, step.now);
      FreedFreesOne(a, step.id, step.now, id, r);
      BeginStartsOne(Freed(a, step.id, step.now), step.id, step.run, step.controller, step.now, id, r);
    }
  }

  lemma FreedFreesOne(a: Agent, sid: string, now: int, id: string, r: RunId)
    requires Inv(a) && sid in a.store.sessions
    ensures Runs(Freed(a, sid, now), id, r) <==> Runs(a, id, r) && id != sid
  {}

  lemma BeginStartsOne(a: Agent, sid: string, run: RunId, controller: Controller, now: int, id: string, r: RunId)
    requires sid in a.store.sessions
    ensures Runs(Begin(a, sid, run, controller, now), id, r) <==> if id == sid then r == run else Runs(a, id, r)
  {}

  lemma CreateStopsNothing(a: Agent, step: Step, id: string, r: RunId)
    requires Inv(a) && step.CreateSession?
    ensures Runs(a.(store := Create(a.store, a.cfg, step.id, step.key, step.cwd, step.now).0), id, r) <==> Runs(a, id, r)
  {
    CreateKeepsBusy(a.store, a.cfg, step.id, step.key, step.cwd, step.now, id);
    if Runs(a.(store := Create(a.store, a.cfg, step.id, step.key, step.cwd, step.now).0), id, r) {
      CreateGivesNoRun(a, step.id, step.key, step.cwd, step.now, id, r);
    }
  }

  lemma CreateKeepsBusy(st: Store, cfg: Config, sid: string, key: string, cwd: string, now: int, id: string)
    requires Ordered(st)
    ensures var after := Create(st, cfg, sid, key, cwd, now).0;
            id in st.sessions && st.sessions[id].activeRunId.Some? ==>
              id in after.sessions && after.sessions[id].activeRunId == st.sessions[id].activeRunId
  {
    if sid !in st.sessions {
      var evicted := CreateRemovesOnlyIdle(st, cfg, sid, key, cwd, now);
      ReapKeepsBusy(st, now, cfg.idleTtlMs);
    }
  }

  lemma ReapKeepsBusy(st: Store, now: int, ttl: int)
    ensures forall e :: FirstLeastTouched(Reap(st, now, ttl), e) ==> e in st.sessions && Idle(st.sessions[e])
  {}

  /** After every step a run is active on a session if and only if the step is the prompt that started
      it, or it was active before and the step does not stop it. */
  lemma NextRunsExactly(a: Agent, step: Step, id: string, r: RunId)
    requires Inv(a) && Enabled(a, step)
    ensures Runs(Next(a, step), id, r) <==>
            (Starts(a, step, id) && r == step.run) || (Runs(a, id, r) && !RunStops(a, step, id))
  {
    match step
    case CreateSession(_, _, _, _) => CreateStopsNothing(a, step, id, r);
    case Prompt(_, _, _, _, _) => PromptStops(a, step, id, r);
    case SendFailed(run, error, now) => CloseStopsOne(a, a.sends[run], run, RejectedWith(error), now, id, r);
    case CancelBegin(other, now) => CancelStops(a, other, now, id, r);
    case ChatEvent(_, _, _, _) => ChatStops(a, step, id, r);
    case Disconnect(_, _) => DisconnectStops(a, step, id, r);
    case ToolEvent(key, toolCallId, phase) => ToolStops(a, key, toolCallId, phase);
    case _ =>
  }

  lemma ToolStops(a: Agent, key: string, toolCallId: string, phase: Phase)
    requires Listed(a)
    ensures DoToolEvent(a, key, toolCallId, phase).store == a.store
  {}

  lemma CancelStops(a: Agent, other: string, now: int, id: string, r: RunId)
    requires Inv(a)
    ensures Runs(DoCancelBegin(a, other, now), id, r) <==> Runs(a, id, r) && other != id
  {
    if other in a.store.sessions { CancelClears(Touch(a.store, other, now), other, now); }
  }

  lemma CancelClears(st: Store, id: string, now: int)
    requires Controlled(st)
    ensures var after := CancelActive(st, id, now);
            && after.sessions.Keys == st.sessions.Keys
            && forall other :: other in st.sessions ==>
                 after.sessions[other].activeRunId == if other == id then None else st.sessions[other].activeRunId
  {}

  // ---------- What the client is told ----------

  /** The update a step sends, if any: the new part of a delta, the start of a tool call that is not
      known yet, or the result of one, each for the run and the session of the record it is for. */
  ghost predicate Sends(a: Agent, step: Step, u: Update)
    requires Listed(a)
  {
    || (exists id :: Brings(a, step, id) &&
          u == Chunk(a.pending[id].idempotencyKey, id, step.state.text.value[SentLength(a.pending[id])..]))
    || (exists id :: Announces(a, step, id) && u == ToolStarted(a.pending[id].idempotencyKey, id, step.toolCallId))
    || (exists id :: ToolFor(a, step, id) && step.phase.Result? &&
          u == ToolFinished(a.pending[id].idempotencyKey, id, step.toolCallId, step.phase.isError))
  }

  ghost predicate ToldExactly(a: Agent, step: Step, updates: seq<Update>)
    requires Listed(a)
  {
    || (updates == a.updates && forall u :: !Sends(a, step, u))
    || (exists u :: updates == a.updates + [u] && forall v :: Sends(a, step, v) <==> v == u)
  }

  lemma ToldOne(a: Agent, step: Step, updates: seq<Update>, u: Update)
    requires Listed(a) && updates == a.updates + [u] && forall v :: Sends(a, step, v) <==> v == u
    ensures ToldExactly(a, step, updates)
  {}

  lemma ChatTells(a: Agent, step: Step)
    requires Inv(a) && step.ChatEvent?
    ensures ToldExactly(a, step, DoChatEvent(a, step.key, step.runId, step.state, step.now).updates)
  {
    FoundIsFirst(a, step.key);
    var found := FindPending(a, step.key);
    var after := DoChatEvent(a, step.key, step.runId, step.state, step.now).updates;
    if found.Some? && ChatFor(a, step, found.value.sessionId) && step.state.Delta? && step.state.text.Some?
       && |step.state.text.value| > SentLength(found.value) {
      var id, text := found.value.sessionId, step.state.text.value;
      assert Brings(a, step, id);
      ToldOne(a, step, after, Chunk(found.value.idempotencyKey, id, text[SentLength(found.value)..]));
    } else {
      forall u ensures !Sends(a, step, u) {
      }
    }
  }

  lemma ToolTells(a: Agent, step: Step)
    requires Inv(a) && step.ToolEvent?
    ensures ToldExactly(a, step, DoToolEvent(a, step.key, step.toolCallId, step.phase).updates)
  {
    FoundIsFirst(a, step.key);
    var found := FindPending(a, step.key);
    var after := DoToolEvent(a, step.key, step.toolCallId, step.phase).updates;
    if found.Some? && ToolFor(a, step, found.value.sessionId) {
      var id, run := found.value.sessionId, found.value.idempotencyKey;
      if Announces(a, step, id) { ToldOne(a, step, after, ToolStarted(run, id, step.toolCallId)); }
      if step.phase.Result? { ToldOne(a, step, after, ToolFinished(run, id, step.toolCallId, step.phase.isError)); }
    }
  }

  lemma OthersTellNothing(a: Agent, step: Step)
    requires Inv(a) && Enabled(a, step) && !step.ChatEvent? && !step.ToolEvent?
    ensures Next(a, step).updates == a.updates
  {
    if step.Disconnect? { RejectFirstSettles(a, "Gateway disconnected: " + step.reason, step.now, |a.order|); }
  }

  /** Every step sends exactly the update it calls for. */
  lemma NextTellsExactly(a: Agent, step: Step)
    requires Inv(a) && Enabled(a, step)
    ensures ToldExactly(a, step, Next(a, step).updates)
  {
    match step
    case ChatEvent(_, _, _, _) => ChatTells(a, step);
    case ToolEvent(_, _, _) => ToolTells(a, step);
    case _ =>
      OthersTellNothing(a, step);
      OthersSendNothing(a, step);
  }

  lemma OthersSendNothing(a: Agent, step: Step)
    requires Listed(a) && !step.ChatEvent? && !step.ToolEvent?
    ensures ToldExactly(a, step, a.updates)
  {}

  /** Every update of a run is about the session that the prompt it belongs to was started on. */
  ghost predicate GoHome(a: Agent) {
    forall u :: u in a.updates ==> u.run in a.started && a.started[u.run] == u.sessionId
  }

  lemma NextGoesHome(a: Agent, step: Step)
    requires Inv(a) && Enabled(a, step) && GoHome(a)
    ensures GoHome(Next(a, step))
  {
    NextTellsExactly(a, step);
    NextBooksExactly(a, step);
    var after := Next(a, step).updates;
    forall u | u in after ensures u.run in Next(a, step).started && Next(a, step).started[u.run] == u.sessionId {
      if u !in a.updates { SentHome(a, step, u); }
    }
  }

  lemma SentHome(a: Agent, step: Step, u: Update)
    requires Inv(a) && Sends(a, step, u)
    ensures u.run in a.started && a.started[u.run] == u.sessionId
  {}

  /** Nothing is started, sent or answered. */
  ghost predicate StartsNothing(a: Agent, b: Agent) {
    b.started == a.started && b.sends == a.sends && b.aborts == a.aborts && b.cfg == a.cfg
  }

  /** What a step starts, sends and answers. */
  ghost predicate BooksExactly(a: Agent, step: Step, b: Agent) {
    match step
    case Prompt(id, _, run, _, _) =>
      if Starts(a, step, id) then
        b.started == a.started[run := id] && b.sends == a.sends[run := id] && b.aborts == a.aborts && b.cfg == a.cfg
      else StartsNothing(a, b)
    case SendAnswered(run) => b == a.(sends := a.sends - {run})
    case SendFailed(run, _, _) => b.sends == a.sends - {run} && b.started == a.started && b.aborts == a.aborts && b.cfg == a.cfg
    case CancelBegin(id, _) =>
      && b.aborts == (if id in a.store.sessions then a.aborts + multiset{id} else a.aborts)
      && b.started == a.started && b.sends == a.sends && b.cfg == a.cfg
    case CancelEnd(id) => b.aborts == a.aborts - multiset{id} && b.started == a.started && b.sends == a.sends && b.cfg == a.cfg
    case _ => StartsNothing(a, b)
  }

  lemma NextBooksExactly(a: Agent, step: Step)
    requires Inv(a) && Enabled(a, step)
    ensures BooksExactly(a, step, Next(a, step))
  {
    match step
    case Prompt(id, tooLarge, run, controller, now) => PromptBooks(a, id, tooLarge, run, controller, now);
    case Disconnect(reason, now) => RejectFirstSettles(a, "Gateway disconnected: " + reason, now, |a.order|);
    case ChatEvent(key, runId, state, now) => ChatStartsNothing(a, key, runId, state, now);
    case ToolEvent(key, toolCallId, phase) => ToolStartsNothing(a, key, toolCallId, phase);
    case SendFailed(run, error, now) => SendFailedBooks(a, run, error, now);
    case CancelBegin(id, now) => CancelBeginBooks(a, id, now);
    case CancelEnd(id) => CancelEndBooks(a, id);
    case _ =>
  }

  lemma SendFailedBooks(a: Agent, run: RunId, error: string, now: int)
    requires run in a.sends
    ensures BooksExactly(a, SendFailed(run, error, now), DoSendFailed(a, run, error, now))
  {}

  lemma CancelBeginBooks(a: Agent, id: string, now: int)
    ensures BooksExactly(a, CancelBegin(id, now), DoCancelBegin(a, id, now))
  {}

  lemma CancelEndBooks(a: Agent, id: string)
    ensures BooksExactly(a, CancelEnd(id), DoCancelEnd(a, id))
  {}

  lemma PromptBooks(a: Agent, id: string, tooLarge: bool, run: RunId, controller: Controller, now: int)
    ensures BooksExactly(a, Prompt(id, tooLarge, run, controller, now), DoPrompt(a, id, tooLarge, run, controller, now))
  {}

  lemma ChatStartsNothing(a: Agent, key: string, runId: Option<RunId>, state: ChatState, now: int)
    requires Listed(a)
    ensures StartsNothing(a, DoChatEvent(a, key, runId, state, now))
  {}

  lemma ToolStartsNothing(a: Agent, key: string, toolCallId: string, phase: Phase)
    requires Listed(a)
    ensures StartsNothing(a, DoToolEvent(a, key, toolCallId, phase))
  {}

  /** In every run, every update goes to the session of its prompt. */
  lemma EveryUpdateGoesHome(states: seq<Agent>, steps: seq<Step>, n: nat)
    requires Trail(states, steps) && n <= |steps|
    ensures GoHome(states[n])
  {
    var p := (a: Agent) => GoHome(a);
    TrailStart(states, steps);
    forall i | 0 <= i < n && p(states[i]) ensures p(states[i + 1]) {
      EveryStateInv(states, steps, i);
      TrailStep(states, steps, i);
      NextGoesHome(states[i], steps[i]);
    }
    Along(states, n, p);
  }

  // ---------- The order of the pending prompts ----------

  /** The records that stay keep their order, and a new one comes last. */
  lemma NextOrder(a: Agent, step: Step)
    requires Inv(a) && Enabled(a, step)
    ensures var b := Next(a, step);
            if step.Prompt? && Starts(a, step, step.id) && step.id !in a.pending then b.order == Keep(a.order, b.pending.Keys) + [step.id] else InOrder(a, b)
  {
    match step
    case Prompt(id, tooLarge, run, controller, now) => PromptOrder(a, id, tooLarge, run, controller, now);
    case SendFailed(run, error, now) => ForgetOrder(a, a.sends[run]);
    case CancelEnd(id) => ForgetOrder(a, id);
    case ChatEvent(key, runId, state, now) => ChatOrder(a, key, runId, state, now);
    case ToolEvent(key, toolCallId, phase) =>
      ToolKeys(a, key, toolCallId, phase);
      SameOrder(a, Next(a, step));
    case Disconnect(reason, now) => DisconnectOrder(a, reason, now);
    case _ => SameOrder(a, Next(a, step));
  }

  lemma {:induction false} KeepNone(order: seq<string>)
    ensures Keep(order, {}) == []
  {
    if order != [] { KeepNone(order[..|order| - 1]); }
  }

  lemma DisconnectOrder(a: Agent, reason: string, now: int)
    requires Listed(a)
    ensures InOrder(a, DoDisconnect(a, reason, now))
  {
    KeepNone(a.order);
    var none: map<string, Pending> := map[];
    assert none.Keys == {};
  }

  lemma ForgetOrder(a: Agent, id: string)
    requires Listed(a)
    ensures Forget(a, id).order == Keep(a.order, Forget(a, id).pending.Keys)
  {
    if id in a.pending {
      assert (a.pending - {id}).Keys == a.pending.Keys - {id};
    } else {
      KeepAll(a.order, a.pending.Keys);
    }
  }

  ghost predicate InOrder(a: Agent, b: Agent) { b.order == Keep(a.order, b.pending.Keys) }

  lemma SameOrder(a: Agent, b: Agent)
    requires Listed(a) && b.order == a.order && b.pending.Keys == a.pending.Keys
    ensures InOrder(a, b)
  {
    KeepAll(a.order, a.pending.Keys);
  }

  lemma DeltaOrder(a: Agent, id: string, fullText: string)
    requires Listed(a)
    ensures InOrder(a, SendDelta(a, id, fullText))
  {
    SameOrder(a, SendDelta(a, id, fullText));
  }

  lemma FinishOrder(a: Agent, p: Pending, reason: StopReason, now: int)
    requires Listed(a)
    ensures InOrder(a, Finish(a, p, reason, now))
  {
    ForgetOrder(a, p.sessionId);
  }

  lemma ChatOrder(a: Agent, key: string, runId: Option<RunId>, state: ChatState, now: int)
    requires Inv(a)
    ensures InOrder(a, DoChatEvent(a, key, runId, state, now))
  {
    var found := FindPending(a, key);
    if Ends(state) && found.Some? && Addressed(a, key, runId, found.value.idempotencyKey) {
      LastEventFinishes(a, key, runId, state, now, found.value.idempotencyKey);
      FinishOrder(a, found.value, ReasonOf(state), now);
    } else if state.Delta? {
      DeltaEventOrder(a, key, runId, state, now);
    } else {
      DeafEvent(a, key, runId, state, now);
      SameOrder(a, a);
    }
  }

  lemma DeafEvent(a: Agent, key: string, runId: Option<RunId>, state: ChatState, now: int)
    requires Listed(a) && !state.Delta?
    requires Ends(state) ==> FindPending(a, key).None? || !Addressed(a, key, runId, FindPending(a, key).value.idempotencyKey)
    ensures DoChatEvent(a, key, runId, state, now) == a
  {}

  lemma DeltaEventOrder(a: Agent, key: string, runId: Option<RunId>, state: ChatState, now: int)
    requires Listed(a) && state.Delta?
    ensures InOrder(a, DoChatEvent(a, key, runId, state, now))
  {
    SameOrder(a, a);
    if FindPending(a, key).Some? && state.text.Some? { DeltaOrder(a, FindPending(a, key).value.sessionId, state.text.value); }
  }

  lemma ToolKeys(a: Agent, key: string, toolCallId: string, phase: Phase)
    requires Inv(a)
    ensures var b := DoToolEvent(a, key, toolCallId, phase); b.order == a.order && b.pending.Keys == a.pending.Keys
  {
    FindPendingFinds(a, key);
  }

  lemma PromptOrder(a: Agent, id: string, tooLarge: bool, run: RunId, controller: Controller, now: int)
    requires Listed(a)
    ensures var b := DoPrompt(a, id, tooLarge, run, controller, now);
            if id in a.store.sessions && !tooLarge && id !in a.pending then b.order == Keep(a.order, b.pending.Keys) + [id] else InOrder(a, b)
  {
    var b := DoPrompt(a, id, tooLarge, run, controller, now);
    KeepAll(a.order, b.pending.Keys);
  }
}

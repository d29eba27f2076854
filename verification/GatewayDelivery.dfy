/**
 What the client is told about one prompt: the text chunks and the tool announcements.
 */
module GatewayDelivery {
  import opened Basics
  import opened Sessions
  import opened Gateway
  import opened GatewayProperties

  /** The text delivered for one run so far. */
  function Delivered(updates: seq<Update>, r: RunId): string {
    if updates == [] then ""
    else
      var u := updates[|updates| - 1];
      Delivered(updates[..|updates| - 1], r) + if u.Chunk? && u.run == r then u.text else ""
  }

  lemma DeliveredOne(updates: seq<Update>, u: Update, r: RunId)
    ensures Delivered(updates + [u], r) == Delivered(updates, r) + if u.Chunk? && u.run == r then u.text else ""
  {
    assert (updates + [u])[..|updates|] == updates;
  }

  lemma DeliveredOneForAll(updates: seq<Update>, u: Update)
    ensures forall r :: Delivered(updates + [u], r) == Delivered(updates, r) + if u.Chunk? && u.run == r then u.text else ""
  {
    forall r ensures Delivered(updates + [u], r) == Delivered(updates, r) + if u.Chunk? && u.run == r then u.text else "" {
      DeliveredOne(updates, u, r);
    }
  }

  lemma {:induction false} DeliveredNothing(updates: seq<Update>, r: RunId)
    requires forall u :: u in updates ==> u.run != r
    ensures Delivered(updates, r) == ""
  {
    if updates != [] {
      assert updates[|updates| - 1] in updates;
      DeliveredNothing(updates[..|updates| - 1], r);
    }
  }

  /** Each record knows how much text has been delivered for it, and updates are about started runs. */
  ghost predicate LengthsKnown(a: Agent) {
    && (forall id :: id in a.pending ==> |Delivered(a.updates, a.pending[id].idempotencyKey)| == SentLength(a.pending[id]))
    && (forall u :: u in a.updates ==> u.run in a.started)
  }

  /** The text that a step adds for run `r`: the full text of a delta addressed to its record. */
  ghost function Accepted(a: Agent, step: Step, r: RunId): Option<string> {
    if Listed(a) && step.ChatEvent? && step.state.Delta? && step.state.text.Some? && step.key != "" then
      match FindPending(a, step.key)
      case None => None
      case Some(p) =>
        if p.idempotencyKey == r && (step.runId.None? || step.runId.value == r) then step.state.text else None
    else None
  }

  /** What `fullText` adds to `delivered`, told by their lengths alone. */
  function Extra(delivered: string, fullText: string): string {
    if |fullText| <= |delivered| then "" else fullText[|delivered|..]
  }

  lemma DeltaDelivers(a: Agent, id: string, fullText: string, r: RunId)
    requires Inv(a) && LengthsKnown(a) && id in a.pending
    ensures var b := SendDelta(a, id, fullText);
            Delivered(b.updates, r) ==
            Delivered(a.updates, r) + if a.pending[id].idempotencyKey == r then Extra(Delivered(a.updates, r), fullText) else ""
    ensures LengthsKnown(SendDelta(a, id, fullText))
  {
    var p := a.pending[id];
    if |fullText| > SentLength(p) {
      var u := Chunk(p.idempotencyKey, id, fullText[SentLength(p)..]);
      DeliveredOneForAll(a.updates, u);
    }
  }

  /** Some records are gone and nothing else changed that matters here. */
  ghost predicate Shrinks(a: Agent, b: Agent) {
    && b.updates == a.updates && b.started == a.started
    && forall id :: id in b.pending ==> id in a.pending && b.pending[id] == a.pending[id]
  }

  lemma FinishShrinks(a: Agent, p: Pending, reason: StopReason, now: int)
    requires Listed(a)
    ensures Shrinks(a, Finish(a, p, reason, now))
  {
    ForgetListed(a, p.sessionId);
  }

  lemma OtherEventDelivers(a: Agent, key: string, runId: Option<RunId>, state: ChatState, now: int)
    requires Inv(a) && LengthsKnown(a) && !state.Delta?
    ensures var b := DoChatEvent(a, key, runId, state, now); LengthsKnown(b) && b.updates == a.updates
  {
    if key != "" && FindPending(a, key).Some? {
      var p := FindPending(a, key).value;
      FinishDelivers(a, p, EndTurn, now);
      FinishDelivers(a, p, Cancelled, now);
      FinishDelivers(a, p, Refusal, now);
    }
  }

  lemma FinishDelivers(a: Agent, p: Pending, reason: StopReason, now: int)
    requires Listed(a) && LengthsKnown(a)
    ensures LengthsKnown(Finish(a, p, reason, now)) && Finish(a, p, reason, now).updates == a.updates
  {
    FinishShrinks(a, p, reason, now);
    ShrinkingDelivers(a, Finish(a, p, reason, now));
  }

  lemma DeltaEventDelivers(a: Agent, key: string, runId: Option<RunId>, text: string, now: int, r: RunId)
    requires Inv(a) && LengthsKnown(a)
    ensures var b := DoChatEvent(a, key, runId, Delta(Some(text)), now);
            var accepted := Accepted(a, ChatEvent(key, runId, Delta(Some(text)), now), r);
            && LengthsKnown(b)
            && Delivered(b.updates, r) ==
               Delivered(a.updates, r) + (if accepted.Some? then Extra(Delivered(a.updates, r), accepted.value) else "")
  {
    FindPendingFinds(a, key);
    if key != "" && FindPending(a, key).Some? {
      DeltaDelivers(a, FindPending(a, key).value.sessionId, text, r);
    }
  }

  lemma EventDelivers(a: Agent, step: Step, r: RunId)
    requires Inv(a) && LengthsKnown(a) && step.ChatEvent?
    ensures var b := DoChatEvent(a, step.key, step.runId, step.state, step.now);
            && LengthsKnown(b)
            && Delivered(b.updates, r) == Delivered(a.updates, r) +
                 (if Accepted(a, step, r).Some? then Extra(Delivered(a.updates, r), Accepted(a, step, r).value) else "")
  {
    if !step.state.Delta? {
      OtherEventDelivers(a, step.key, step.runId, step.state, step.now);
    } else if step.state.text.Some? {
      DeltaEventDelivers(a, step.key, step.runId, step.state.text.value, step.now, r);
    }
  }

  lemma ToolEventDelivers(a: Agent, key: string, toolCallId: string, phase: Phase, r: RunId)
    requires Inv(a) && LengthsKnown(a)
    ensures var b := DoToolEvent(a, key, toolCallId, phase);
            LengthsKnown(b) && Delivered(b.updates, r) == Delivered(a.updates, r)
  {
    FindPendingFinds(a, key);
    if FindPending(a, key).Some? {
      StartDelivers(a, FindPending(a, key).value, toolCallId, r);
      if phase.Result? { ResultDelivers(a, FindPending(a, key).value, toolCallId, phase.isError, r); }
    }
  }

  lemma StartDelivers(a: Agent, p: Pending, toolCallId: string, r: RunId)
    requires LengthsKnown(a) && p.sessionId in a.pending && a.pending[p.sessionId] == p && p.idempotencyKey in a.started
    ensures var u := ToolStarted(p.idempotencyKey, p.sessionId, toolCallId);
            var b := a.(pending := a.pending[p.sessionId := p.(toolCalls := Some(Announced(p) + {toolCallId}))], updates := a.updates + [u]);
            LengthsKnown(b) && Delivered(b.updates, r) == Delivered(a.updates, r)
  {
    var u := ToolStarted(p.idempotencyKey, p.sessionId, toolCallId);
    QuietUpdate(a, a.(pending := a.pending[p.sessionId := p.(toolCalls := Some(Announced(p) + {toolCallId}))], updates := a.updates + [u]), u, r);
  }

  lemma ResultDelivers(a: Agent, p: Pending, toolCallId: string, isError: bool, r: RunId)
    requires LengthsKnown(a) && p.idempotencyKey in a.started
    ensures var u := ToolFinished(p.idempotencyKey, p.sessionId, toolCallId, isError);
            var b := a.(updates := a.updates + [u]);
            LengthsKnown(b) && Delivered(b.updates, r) == Delivered(a.updates, r)
  {
    var u := ToolFinished(p.idempotencyKey, p.sessionId, toolCallId, isError);
    QuietUpdate(a, a.(updates := a.updates + [u]), u, r);
  }

  /** An update without text, about a started run, delivers nothing. */
  lemma QuietUpdate(a: Agent, b: Agent, u: Update, r: RunId)
    requires LengthsKnown(a) && b.updates == a.updates + [u] && !u.Chunk? && u.run in a.started && b.started == a.started
    requires forall id :: id in b.pending ==>
      id in a.pending && b.pending[id].idempotencyKey == a.pending[id].idempotencyKey && SentLength(b.pending[id]) == SentLength(a.pending[id])
    ensures LengthsKnown(b) && Delivered(b.updates, r) == Delivered(a.updates, r)
  {
    DeliveredOneForAll(a.updates, u);
  }

  lemma PromptDelivers(a: Agent, id: string, tooLarge: bool, run: RunId, controller: Controller, now: int)
    requires Inv(a) && LengthsKnown(a) && run !in a.started
    ensures LengthsKnown(DoPrompt(a, id, tooLarge, run, controller, now))
    ensures DoPrompt(a, id, tooLarge, run, controller, now).updates == a.updates
  {
    DeliveredNothing(a.updates, run);
  }

  lemma SendFailedShrinks(a: Agent, run: RunId, error: string, now: int)
    requires Listed(a) && run in a.sends
    ensures Shrinks(a, DoSendFailed(a, run, error, now))
  {
    ForgetListed(a, a.sends[run]);
  }

  lemma CancelEndShrinks(a: Agent, id: string)
    requires Listed(a)
    ensures Shrinks(a, DoCancelEnd(a, id))
  {
    ForgetListed(a, id);
  }

  lemma DisconnectShrinks(a: Agent, reason: string, now: int)
    requires Listed(a)
    ensures Shrinks(a, DoDisconnect(a, reason, now))
  {
    RejectFirstSettles(a, "Gateway disconnected: " + reason, now, |a.order|);
  }

  lemma ShrinkingDelivers(a: Agent, b: Agent)
    requires LengthsKnown(a) && Shrinks(a, b)
    ensures LengthsKnown(b)
  {}

  lemma QuietDelivers(a: Agent, step: Step)
    requires Inv(a) && LengthsKnown(a) && Enabled(a, step)
    requires step.CreateSession? || step.GetSession? || step.SendAnswered? || step.CancelBegin?
    ensures LengthsKnown(Next(a, step)) && Next(a, step).updates == a.updates
  {}

  /** A step delivers for run `r` exactly the part of an accepted delta that is longer than what
      was delivered before; every other step delivers nothing for it. */
  lemma NextDelivers(a: Agent, step: Step, r: RunId)
    requires Inv(a) && LengthsKnown(a) && Enabled(a, step)
    ensures LengthsKnown(Next(a, step))
    ensures Delivered(Next(a, step).updates, r) == Delivered(a.updates, r) +
              (if Accepted(a, step, r).Some? then Extra(Delivered(a.updates, r), Accepted(a, step, r).value) else "")
  {
    match step
    case Prompt(id, tooLarge, run, controller, now) => PromptDelivers(a, id, tooLarge, run, controller, now);
    case ChatEvent(key, runId, state, now) => EventDelivers(a, step, r);
    case ToolEvent(key, toolCallId, phase) => ToolEventDelivers(a, key, toolCallId, phase, r);
    case SendFailed(run, error, now) =>
      SendFailedShrinks(a, run, error, now);
      ShrinkingDelivers(a, Next(a, step));
    case CancelEnd(id) =>
      CancelEndShrinks(a, id);
      ShrinkingDelivers(a, Next(a, step));
    case Disconnect(reason, now) =>
      DisconnectShrinks(a, reason, now);
      ShrinkingDelivers(a, Next(a, step));
    case _ => QuietDelivers(a, step);
  }

  lemma InitialLengths(cfg: Config)
    ensures LengthsKnown(Initial(cfg))
  {}

  lemma EveryLengthKnown(states: seq<Agent>, steps: seq<Step>, n: nat)
    requires Trail(states, steps) && n <= |steps|
    ensures LengthsKnown(states[n])
  {
    var p := (a: Agent) => LengthsKnown(a);
    TrailStart(states, steps);
    InitialLengths(states[0].cfg);
    forall i | 0 <= i < n && p(states[i]) ensures p(states[i + 1]) {
      EveryStateInv(states, steps, i);
      TrailStep(states, steps, i);
      NextDelivers(states[i], steps[i], 0);
    }
    Along(states, n, p);
  }

  /** The length of the longest text accepted for run `r` in the first `n` steps. */
  ghost function Longest(states: seq<Agent>, steps: seq<Step>, r: RunId, n: nat): nat
    requires n <= |steps| < |states|
  {
    if n == 0 then 0
    else
      var before := Longest(states, steps, r, n - 1);
      var text := Accepted(states[n - 1], steps[n - 1], r);
      if text.Some? then Max(before, |text.value|) else before
  }

  predicate Prefix(s: string, whole: string) {
    |s| <= |whole| && s == whole[..|s|]
  }

  lemma ExtraCompletes(whole: string, n: nat, fullText: string)
    requires n <= |whole| && Prefix(fullText, whole)
    ensures whole[..n] + Extra(whole[..n], fullText) == whole[..Max(n, |fullText|)]
  {}

  lemma DeliveryStep(states: seq<Agent>, steps: seq<Step>, r: RunId, whole: string, n: nat, length: nat)
    requires Trail(states, steps) && n < |steps|
    requires Accepted(states[n], steps[n], r).Some? ==> Prefix(Accepted(states[n], steps[n], r).value, whole)
    requires length <= |whole| && Delivered(states[n].updates, r) == whole[..length]
    ensures var text := Accepted(states[n], steps[n], r);
            var next := if text.Some? then Max(length, |text.value|) else length;
            next <= |whole| && Delivered(states[n + 1].updates, r) == whole[..next]
  {
    EveryStateInv(states, steps, n);
    EveryLengthKnown(states, steps, n);
    TrailStep(states, steps, n);
    NextDelivers(states[n], steps[n], r);
    var text := Accepted(states[n], steps[n], r);
    if text.Some? { ExtraCompletes(whole, length, text.value); }
  }

  /** If every delta accepted for a prompt carries a prefix of one text, in any order and with any
      repeats, then at every moment the chunks sent for it concatenate to the longest of them. */
  lemma {:induction false} ChunksFormTheLongestPrefix(states: seq<Agent>, steps: seq<Step>, r: RunId, whole: string, n: nat)
    requires Trail(states, steps) && n <= |steps|
    requires forall i {:trigger Accepted(states[i], steps[i], r)} :: 0 <= i < n && Accepted(states[i], steps[i], r).Some? ==>
               Prefix(Accepted(states[i], steps[i], r).value, whole)
    ensures Longest(states, steps, r, n) <= |whole|
    ensures Delivered(states[n].updates, r) == whole[..Longest(states, steps, r, n)]
  {
    if n == 0 {
      TrailStart(states, steps);
    } else {
      ChunksFormTheLongestPrefix(states, steps, r, whole, n - 1);
      DeliveryStep(states, steps, r, whole, n - 1, Longest(states, steps, r, n - 1));
    }
  }

  // ---------- Tool announcements ----------

  predicate SameAnnouncement(u: Update, v: Update) {
    u.ToolStarted? && v.ToolStarted? && u.run == v.run && u.toolCallId == v.toolCallId
  }

  /** No tool call is announced twice for a run, and a record remembers what was announced. */
  ghost predicate AnnouncedOnce(a: Agent) {
    && (forall i, j :: 0 <= i < j < |a.updates| ==> !SameAnnouncement(a.updates[i], a.updates[j]))
    && (forall u, id :: u in a.updates && u.ToolStarted? && id in a.pending && a.pending[id].idempotencyKey == u.run ==>
          u.toolCallId in Announced(a.pending[id]))
    && (forall u :: u in a.updates ==> u.run in a.started)
  }

  lemma ToolEventAnnounces(a: Agent, key: string, toolCallId: string, phase: Phase)
    requires Inv(a) && AnnouncedOnce(a)
    ensures AnnouncedOnce(DoToolEvent(a, key, toolCallId, phase))
  {
    FindPendingFinds(a, key);
    var b := DoToolEvent(a, key, toolCallId, phase);
    if |b.updates| > |a.updates| && phase.Start? {
      var p := FindPending(a, key).value;
      forall i | 0 <= i < |a.updates| && a.updates[i].ToolStarted? && a.updates[i].run == p.idempotencyKey
        ensures a.updates[i].toolCallId != toolCallId
      {
        assert a.updates[i] in a.updates;
      }
    }
  }

  lemma ShrinkingAnnounces(a: Agent, b: Agent)
    requires AnnouncedOnce(a) && Shrinks(a, b)
    ensures AnnouncedOnce(b)
  {}

  lemma DeltaAnnounces(a: Agent, id: string, fullText: string)
    requires Inv(a) && AnnouncedOnce(a) && id in a.pending
    ensures AnnouncedOnce(SendDelta(a, id, fullText))
  {}

  lemma ChatEventAnnounces(a: Agent, key: string, runId: Option<RunId>, state: ChatState, now: int)
    requires Inv(a) && AnnouncedOnce(a)
    ensures AnnouncedOnce(DoChatEvent(a, key, runId, state, now))
  {
    FindPendingFinds(a, key);
    if key != "" && FindPending(a, key).Some? {
      var p := FindPending(a, key).value;
      match state
      case Delta(text) => if text.Some? { DeltaAnnounces(a, p.sessionId, text.value); }
      case Final =>
        FinishShrinks(a, p, EndTurn, now);
        ShrinkingAnnounces(a, Finish(a, p, EndTurn, now));
      case Aborted =>
        FinishShrinks(a, p, Cancelled, now);
        ShrinkingAnnounces(a, Finish(a, p, Cancelled, now));
      case Error =>
        FinishShrinks(a, p, Refusal, now);
        ShrinkingAnnounces(a, Finish(a, p, Refusal, now));
      case OtherState =>
    }
  }

  lemma PromptAnnounces(a: Agent, id: string, tooLarge: bool, run: RunId, controller: Controller, now: int)
    requires Inv(a) && AnnouncedOnce(a) && run !in a.started
    ensures AnnouncedOnce(DoPrompt(a, id, tooLarge, run, controller, now))
  {}

  lemma NextAnnounces(a: Agent, step: Step)
    requires Inv(a) && AnnouncedOnce(a) && Enabled(a, step)
    ensures AnnouncedOnce(Next(a, step))
  {
    match step
    case Prompt(id, tooLarge, run, controller, now) => PromptAnnounces(a, id, tooLarge, run, controller, now);
    case ChatEvent(key, runId, state, now) => ChatEventAnnounces(a, key, runId, state, now);
    case ToolEvent(key, toolCallId, phase) => ToolEventAnnounces(a, key, toolCallId, phase);
    case SendFailed(run, error, now) =>
      SendFailedShrinks(a, run, error, now);
      ShrinkingAnnounces(a, Next(a, step));
    case CancelEnd(id) =>
      CancelEndShrinks(a, id);
      ShrinkingAnnounces(a, Next(a, step));
    case Disconnect(reason, now) =>
      DisconnectShrinks(a, reason, now);
      ShrinkingAnnounces(a, Next(a, step));
    case CreateSession(id, key, cwd, now) =>
    case GetSession(id, now) =>
    case SendAnswered(run) =>
    case CancelBegin(id, now) =>
  }

  /** In every run, each tool call id is announced as started at most once per prompt. */
  lemma EveryToolAnnouncedOnce(states: seq<Agent>, steps: seq<Step>, n: nat)
    requires Trail(states, steps) && n <= |steps|
    ensures AnnouncedOnce(states[n])
  {
    var p := (a: Agent) => AnnouncedOnce(a);
    TrailStart(states, steps);
    forall i | 0 <= i < n && p(states[i]) ensures p(states[i + 1]) {
      EveryStateInv(states, steps, i);
      TrailStep(states, steps, i);
      NextAnnounces(states[i], steps[i]);
    }
    Along(states, n, p);
  }
}

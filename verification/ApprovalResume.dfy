/**
 What happens when the user approves a pending call: the call runs, the deferred calls of the
 same assistant message are replayed, and the loop is entered again (src/agent/thread_ops.rs).
 Approvals may chain; round 0 of a world stands for the replay before its loop.
 */
module ApprovalResume {
  import opened Basics
  import opened ChatProtocol
  import opened Dispatcher
  import opened DispatcherProperties

  /** Deferred calls are checked for approval again, but no hook sees them. */
  function ReplayFrom(w: World, calls: seq<ToolCall>, i: nat): Preflight
    requires i <= |calls|
    decreases |calls| - i
  {
    if i == |calls| then Preflight([], None)
    else if NeedsApproval(w, 0, calls[i]) then Preflight([], Some(calls[i]))
    else
      var rest := ReplayFrom(w, calls, i + 1);
      Preflight([Runnable(calls[i])] + rest.entries, rest.approval)
  }

  lemma {:induction false} ReplayStopsAtFirstAsk(w: World, calls: seq<ToolCall>, i: nat)
    requires i <= |calls|
    ensures var p := ReplayFrom(w, calls, i);
            && i + |p.entries| <= |calls|
            && (forall k :: i <= k < i + |p.entries| ==>
                  !NeedsApproval(w, 0, calls[k]) && p.entries[k - i] == Runnable(calls[k]))
            && (p.approval.None? <==> i + |p.entries| == |calls|)
            && (p.approval.Some? ==>
                  p.approval.value == calls[i + |p.entries|] && NeedsApproval(w, 0, p.approval.value))
    decreases |calls| - i
  {
    if i < |calls| && !NeedsApproval(w, 0, calls[i]) {
      ReplayStopsAtFirstAsk(w, calls, i + 1);
    }
  }

  function ApprovedCall(p: PendingApproval): ToolCall {
    ToolCall(p.toolCallId, p.toolName, p.parameters)
  }

  /** The approved call has position `|deferredToolCalls|` of round 0, the deferred ones 0, 1, ... */
  function Resume(w: World, p: PendingApproval): Step {
    var n := |p.deferredToolCalls|;
    if w.panics(0, n) then Stop(Crashed)
    else
      var result := w.run(0, n, ApprovedCall(p));
      var auth := CheckAuthRequired(w, p.toolName, result);
      if auth.Some? then Stop(Response(auth.value))
      else
        Replay(w, p, p.contextMessages + [Tool(p.toolCallId, p.toolName, Shown(w, p.toolName, result))])
  }

  function Replay(w: World, p: PendingApproval, context: seq<Message>): Step {
    var pre := ReplayFrom(w, p.deferredToolCalls, 0);
    Conclude(w, 0, pre, context, After(p.deferredToolCalls, pre))
  }

  method RunReplayPreflight(w: World, deferred: seq<ToolCall>)
    returns (preflight: seq<Entry>, runnable: seq<(nat, ToolCall)>, approvalNeeded: Option<(nat, ToolCall)>)
    ensures var p := ReplayFrom(w, deferred, 0);
            && preflight == p.entries
            && approvalNeeded == (if p.approval.Some? then Some((|p.entries|, p.approval.value)) else None)
    ensures runnable == RunnablesIn(preflight, |preflight|)
  {
    ghost var p := ReplayFrom(w, deferred, 0);
    ReplayStopsAtFirstAsk(w, deferred, 0);
    preflight, runnable, approvalNeeded := [], [], None;
    for idx := 0 to |deferred|
      invariant idx <= |p.entries| && preflight == p.entries[..idx]
      invariant runnable == RunnablesIn(p.entries, idx)
    {
      var tc := deferred[idx];
      var needsApproval := NeedsApproval(w, 0, tc);
      if needsApproval {
        assert idx == |p.entries| && p.entries[..idx] == p.entries;
        return preflight, runnable, Some((idx, tc));
      }
      runnable := runnable + [(idx, tc)];
      preflight := preflight + [Runnable(tc)];
    }
    assert p.entries[..|p.entries|] == p.entries;
  }

  /** The approved call neither panics nor asks for a token, so that the deferred calls are replayed. */
  predicate Replays(w: World, p: PendingApproval) {
    var n := |p.deferredToolCalls|;
    !w.panics(0, n) && CheckAuthRequired(w, p.toolName, w.run(0, n, ApprovedCall(p))).None?
  }

  function ApprovedExecution(p: PendingApproval): Execution {
    Execution(0, |p.deferredToolCalls|, ApprovedCall(p), ApprovedCall(p))
  }

  /** The deferred calls that a replay hands to their tools. */
  function ReplayExecutions(w: World, p: PendingApproval): seq<Execution> {
    var entries := ReplayFrom(w, p.deferredToolCalls, 0).entries;
    ReplayWithin(w, p.deferredToolCalls);
    if Replays(w, p) then ExecutionsOf(0, p.deferredToolCalls, RunnablesIn(entries, |entries|)) else []
  }

  /** What a resumption hands to tools: the approved call, then the replayed ones. */
  function ResumeExecutions(w: World, p: PendingApproval): seq<Execution> {
    [ApprovedExecution(p)] + ReplayExecutions(w, p)
  }

  lemma ReplayWithin(w: World, calls: seq<ToolCall>)
    ensures var entries := ReplayFrom(w, calls, 0).entries;
            |entries| <= |calls| && Within(RunnablesIn(entries, |entries|), |calls|)
  {
    var entries := ReplayFrom(w, calls, 0).entries;
    ReplayStopsAtFirstAsk(w, calls, 0);
    RunnablesMeaning(entries, |entries|);
  }

  method ProcessApproval(box: Toolbox, pending: PendingApproval) returns (step: Step)
    modifies box
    ensures step == Resume(box.w, pending)
    ensures Logged(old(box.log), box.log, ResumeExecutions(box.w, pending))
  {
    ghost var before := box.log;
    LoggedOne(before, ApprovedExecution(pending));
    var toolResult := box.Call(0, |pending.deferredToolCalls|, ApprovedCall(pending), ApprovedCall(pending));
    if toolResult.None? {
      return Stop(Crashed);
    }
    var auth := CheckAuthRequired(box.w, pending.toolName, toolResult.value);
    if auth.Some? {
      return Stop(Response(auth.value));
    }
    var paid := Tool(pending.toolCallId, pending.toolName, Shown(box.w, pending.toolName, toolResult.value));
    ghost var first := box.log;
    step := ReplayDeferred(box, pending, pending.contextMessages + [paid]);
    LoggedMore(before, first, box.log, [ApprovedExecution(pending)], ReplayExecutions(box.w, pending));
  }

  method ReplayDeferred(box: Toolbox, pending: PendingApproval, context: seq<Message>) returns (step: Step)
    requires Replays(box.w, pending)
    modifies box
    ensures step == Replay(box.w, pending, context)
    ensures Logged(old(box.log), box.log, ReplayExecutions(box.w, pending))
  {
    var deferred := pending.deferredToolCalls;
    ghost var pre := ReplayFrom(box.w, deferred, 0);
    ReplayStopsAtFirstAsk(box.w, deferred, 0);
    ReplayWithin(box.w, deferred);
    var preflight, runnable, approvalNeeded := RunReplayPreflight(box.w, deferred);
    var crashed, execResults := Execute(box, 0, deferred, preflight, runnable);
    if crashed {
      return Stop(Crashed);
    }
    step := FinishBlock(box.w, 0, pre, preflight, execResults, approvalNeeded, context, deferred);
  }

  // ---------- Chained approvals ----------

  /** Why a call was handed to its tool. `asked` is the world in whose loop the approval came up;
      there is none when it came up in a replay. */
  datatype Origin =
    | InLoop
    | ApprovedByUser(pending: PendingApproval, asked: Option<World>)
    | Replayed(pending: PendingApproval)

  datatype Act = Act(world: World, origin: Origin, execution: Execution)

  datatype TurnTrace = TurnTrace(end: LoopEnd, exchanges: seq<Exchange>, acts: seq<Act>)

  function Acts(w: World, origin: Origin, executions: seq<Execution>): (acts: seq<Act>)
    ensures |acts| == |executions|
    ensures forall k :: 0 <= k < |acts| ==> acts[k] == Act(w, origin, executions[k])
  {
    seq(|executions|, k requires 0 <= k < |executions| => Act(w, origin, executions[k]))
  }

  function ResumeActs(w: World, p: PendingApproval, asked: Option<World>): seq<Act> {
    [Act(w, ApprovedByUser(p, asked), ApprovedExecution(p))] + Acts(w, Replayed(p), ReplayExecutions(w, p))
  }

  function Joint(exchanges: seq<Exchange>, acts: seq<Act>, later: TurnTrace): TurnTrace {
    TurnTrace(later.end, exchanges + later.exchanges, acts + later.acts)
  }

  /** The turn from `context` on: world 0 serves the first loop, every further world one approval
      and the loop after it; the turn waits when the worlds run out. */
  function Turn(worlds: seq<World>, cfg: Config, context: seq<Message>): TurnTrace
    requires worlds != []
    decreases |worlds|, 0
  {
    var t := Run(worlds[0], cfg, context);
    var acts := Acts(worlds[0], InLoop, t.executions);
    if t.end.NeedApproval? && |worlds| > 1 then
      Joint(t.exchanges, acts, Approved(worlds[1..], cfg, t.end.pending, Some(worlds[0])))
    else TurnTrace(t.end, t.exchanges, acts)
  }

  function Approved(worlds: seq<World>, cfg: Config, p: PendingApproval, asked: Option<World>): TurnTrace
    requires worlds != []
    decreases |worlds|, 1
  {
    var acts := ResumeActs(worlds[0], p, asked);
    match Resume(worlds[0], p)
    case Continue(context) => Joint([], acts, Turn(worlds, cfg, context))
    case Stop(end) =>
      if end.NeedApproval? && |worlds| > 1 then Joint([], acts, Approved(worlds[1..], cfg, end.pending, None))
      else TurnTrace(end, [], acts)
  }

  lemma ReplayKeepsProtocol(w: World, p: PendingApproval, context: seq<Message>)
    requires Settle(Owing([]), context) == Owing(Ids(p.deferredToolCalls))
    ensures StepKeepsProtocol(Replay(w, p, context))
  {
    ReplayStopsAtFirstAsk(w, p.deferredToolCalls, 0);
    ConcludeKeepsProtocol(w, 0, ReplayFrom(w, p.deferredToolCalls, 0), context, p.deferredToolCalls);
  }

  lemma PendingPaid(p: PendingApproval, paid: Message)
    requires OwesPending(p) && paid.Tool? && paid.callId == p.toolCallId
    ensures Settle(Owing([]), p.contextMessages + [paid]) == Owing(Ids(p.deferredToolCalls))
  {
    var ids := Ids(p.deferredToolCalls);
    assert ([p.toolCallId] + ids)[1..] == ids;
    SettleAppend(Owing([]), p.contextMessages, [paid]);
    SettleOne(Owing([p.toolCallId] + ids), paid);
  }

  /** Approval pays the pending call and then the deferred ones: the loop is re-entered on a
      well-formed history, and a further approval stop again owes exactly what is left. */
  lemma ResumeKeepsProtocol(w: World, p: PendingApproval)
    requires OwesPending(p)
    ensures StepKeepsProtocol(Resume(w, p))
  {
    var paid := Tool(p.toolCallId, p.toolName, Shown(w, p.toolName, w.run(0, |p.deferredToolCalls|, ApprovedCall(p))));
    PendingPaid(p, paid);
    ReplayKeepsProtocol(w, p, p.contextMessages + [paid]);
  }

  /** Over any chain of approvals in a turn, every context sent to the LLM is well-formed. */
  lemma {:induction false} EveryRequestInTurnWellFormed(worlds: seq<World>, cfg: Config, context: seq<Message>)
    requires worlds != [] && WellFormed(context)
    ensures var t := Turn(worlds, cfg, context);
            && (forall e :: e in t.exchanges ==> WellFormed(e.request.messages))
            && (t.end.NeedApproval? ==> OwesPending(t.end.pending))
    decreases |worlds|, 0
  {
    EveryRequestWellFormed(worlds[0], cfg, context);
    var t := Run(worlds[0], cfg, context);
    if t.end.NeedApproval? && |worlds| > 1 {
      EveryRequestAfterApprovalWellFormed(worlds[1..], cfg, t.end.pending, Some(worlds[0]));
    }
  }

  lemma {:induction false} EveryRequestAfterApprovalWellFormed(worlds: seq<World>, cfg: Config, p: PendingApproval, asked: Option<World>)
    requires worlds != [] && OwesPending(p)
    ensures var t := Approved(worlds, cfg, p, asked);
            && (forall e :: e in t.exchanges ==> WellFormed(e.request.messages))
            && (t.end.NeedApproval? ==> OwesPending(t.end.pending))
    decreases |worlds|, 1
  {
    ResumeKeepsProtocol(worlds[0], p);
    match Resume(worlds[0], p)
    case Continue(context) => EveryRequestInTurnWellFormed(worlds, cfg, context);
    case Stop(end) =>
      if end.NeedApproval? && |worlds| > 1 {
        EveryRequestAfterApprovalWellFormed(worlds[1..], cfg, end.pending, None);
      }
  }
}

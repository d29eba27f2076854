/**
 What is handed to tools over a whole turn: the loops' calls have passed their hooks, the pending
 calls were approved by the user, and the deferred calls are replayed with no hook in between.
 */
module ApprovalProperties {
  import opened Basics
  import opened ChatProtocol
  import opened Dispatcher
  import opened DispatcherProperties
  import opened ApprovalResume

  // ---------- Where a pending call comes from ----------

  /** The pending call is call `j` of an LLM reply, and the deferred ones are those after it. */
  predicate StemsAt(p: PendingApproval, e: Exchange, j: int) {
    && AnsweredWithTools(e)
    && var calls := e.answer.reply.calls;
    && 0 <= j < |calls|
    && p.toolCallId == calls[j].id && p.toolName == calls[j].name && p.deferredToolCalls == calls[j + 1..]
  }

  ghost predicate Stems(p: PendingApproval, exchanges: seq<Exchange>) {
    exists e, j :: e in exchanges && StemsAt(p, e, j)
  }

  lemma StemsAmongMore(p: PendingApproval, exchanges: seq<Exchange>, more: seq<Exchange>)
    requires Stems(p, exchanges) && forall e :: e in exchanges ==> e in more
    ensures Stems(p, more)
  {
    var e, j :| e in exchanges && StemsAt(p, e, j);
    assert e in more;
  }

  lemma RunStopStems(w: World, cfg: Config, context: seq<Message>)
    ensures var t := Run(w, cfg, context); t.end.NeedApproval? ==> Stems(t.end.pending, t.exchanges)
  {
    ApprovalSplitsCalls(w, cfg, context);
    var t := Run(w, cfg, context);
    if t.end.NeedApproval? {
      var last := t.exchanges[|t.exchanges| - 1];
      var results :| SplitsCalls(last, t.executions, t.end.pending, results);
      assert last in t.exchanges && StemsAt(t.end.pending, last, |results|);
    }
  }

  /** How a replay stops for approval: at the first deferred call that needs it, as the LLM wrote it. */
  lemma ReplayStop(w: World, p: PendingApproval)
    requires Resume(w, p).Stop? && Resume(w, p).end.NeedApproval?
    ensures var next := Resume(w, p).end.pending;
            var i := |ReplayFrom(w, p.deferredToolCalls, 0).entries|;
            && i < |p.deferredToolCalls| && ApprovedCall(next) == p.deferredToolCalls[i]
            && next.deferredToolCalls == p.deferredToolCalls[i + 1..]
  {
    ReplayStopsAtFirstAsk(w, p.deferredToolCalls, 0);
  }

  lemma ReplayStopStems(w: World, p: PendingApproval, exchanges: seq<Exchange>)
    requires Stems(p, exchanges) && Resume(w, p).Stop? && Resume(w, p).end.NeedApproval?
    ensures Stems(Resume(w, p).end.pending, exchanges)
  {
    ReplayStop(w, p);
    var e, j :| e in exchanges && StemsAt(p, e, j);
    assert StemsAt(Resume(w, p).end.pending, e, j + 1 + |ReplayFrom(w, p.deferredToolCalls, 0).entries|);
  }

  /** The pending call of a loop has passed its hook and is in the form that the hook left it in. */
  ghost predicate PassedHook(w: World, cfg: Config, p: PendingApproval) {
    exists round: nat, index: nat, original ::
      LeftByHook(w, round, index, original, ApprovedCall(p)) && MustAsk(w, cfg, round, ApprovedCall(p))
  }

  lemma PendingOfRoundPassedItsHook(w: World, cfg: Config, round: nat, context: seq<Message>)
    ensures var step := PlayRound(w, cfg, round, context).step;
            step.Stop? && step.end.NeedApproval? ==> PassedHook(w, cfg, step.end.pending)
  {
    var asked := AskLlm(w, cfg, round, Nudged(cfg, round, context));
    if asked.answer.Replied? && asked.answer.reply.ToolCalls? {
      var calls := asked.answer.reply.calls;
      var pre := PreflightFrom(w, cfg, round, calls, 0);
      PreflightStopsAtFirstAsk(w, cfg, round, calls, 0);
      if pre.approval.Some? {
        InspectMeaning(w, cfg, round, |pre.entries|, calls[|pre.entries|]);
        assert LeftByHook(w, round, |pre.entries|, calls[|pre.entries|], pre.approval.value);
        var end := PlayRound(w, cfg, round, context).step;
        assert end.Stop? && end.end.NeedApproval? ==> ApprovedCall(end.end.pending) == pre.approval.value;
      }
    }
  }

  lemma PendingPassedItsHook(w: World, cfg: Config, context: seq<Message>)
    ensures var end := Run(w, cfg, context).end; end.NeedApproval? ==> PassedHook(w, cfg, end.pending)
  {
    var inv := (r: nat, c: seq<Message>) => true;
    var exchangeOk := (e: Exchange) => true;
    var executionOk := (x: Execution) => true;
    var endOk := (end: LoopEnd) => end.NeedApproval? ==> PassedHook(w, cfg, end.pending);
    forall r: nat, c | r <= cfg.maxToolIterations + 1 && inv(r, c)
      ensures RoundKeeps(Rounds(w, cfg)(r, c), r, inv, exchangeOk, executionOk, endOk)
    {
      PendingOfRoundPassedItsHook(w, cfg, r, c);
    }
    RunKeeps(Rounds(w, cfg), cfg.maxToolIterations, 1, context, inv, exchangeOk, executionOk, endOk);
  }

  // ---------- Every call of a turn is justified ----------

  /** A call of a loop is cleared by its world. An approved call is the pending one of a stop that
      stems from an LLM reply, and has passed its hook if the stop came up in a loop. A replayed
      call is one of those deferred by such a stop, unchanged, and needs no approval. */
  ghost predicate Justified(a: Act, cfg: Config, exchanges: seq<Exchange>) {
    match a.origin
    case InLoop => Cleared(a.world, cfg, a.execution)
    case ApprovedByUser(p, asked) =>
      && a.execution.call == ApprovedCall(p) && Stems(p, exchanges)
      && (asked.Some? ==> PassedHook(asked.value, cfg, p))
    case Replayed(p) =>
      && a.execution.call in p.deferredToolCalls && Stems(p, exchanges)
      && !AsksUser(a.world, 0, a.execution.call)
  }

  ghost predicate AllJustified(acts: seq<Act>, cfg: Config, exchanges: seq<Exchange>) {
    forall a :: a in acts ==> Justified(a, cfg, exchanges)
  }

  lemma JustifiedAmongMore(acts: seq<Act>, cfg: Config, exchanges: seq<Exchange>, more: seq<Exchange>)
    requires AllJustified(acts, cfg, exchanges) && forall e :: e in exchanges ==> e in more
    ensures AllJustified(acts, cfg, more)
  {
    forall a | a in acts ensures Justified(a, cfg, more) {
      assert Justified(a, cfg, exchanges);
      if a.origin.ApprovedByUser? || a.origin.Replayed? { StemsAmongMore(a.origin.pending, exchanges, more); }
    }
  }

  lemma ReplayedCallsNeedNoApproval(w: World, p: PendingApproval)
    ensures forall x :: x in ReplayExecutions(w, p) ==> x.call in p.deferredToolCalls && !NeedsApproval(w, 0, x.call)
  {
    var entries := ReplayFrom(w, p.deferredToolCalls, 0).entries;
    ReplayStopsAtFirstAsk(w, p.deferredToolCalls, 0);
    RunnablesMeaning(entries, |entries|);
    var runnable := RunnablesIn(entries, |entries|);
    var executed := ReplayExecutions(w, p);
    forall k | 0 <= k < |executed| ensures executed[k].call in p.deferredToolCalls && !NeedsApproval(w, 0, executed[k].call) {
      assert runnable[k] in runnable;
      assert entries[runnable[k].0] == Runnable(p.deferredToolCalls[runnable[k].0]);
    }
  }

  lemma ResumeActsJustified(w: World, cfg: Config, p: PendingApproval, asked: Option<World>, exchanges: seq<Exchange>)
    requires Stems(p, exchanges) && (asked.Some? ==> PassedHook(asked.value, cfg, p))
    ensures AllJustified(ResumeActs(w, p, asked), cfg, exchanges)
  {
    ReplayedCallsNeedNoApproval(w, p);
    var executed := ReplayExecutions(w, p);
    forall a | a in Acts(w, Replayed(p), executed) ensures Justified(a, cfg, exchanges) {
      assert a.execution in executed;
    }
  }

  lemma LoopActsJustified(w: World, cfg: Config, context: seq<Message>)
    ensures AllJustified(Acts(w, InLoop, Run(w, cfg, context).executions), cfg, [])
  {
    EveryExecutionCleared(w, cfg, context);
    var executed := Run(w, cfg, context).executions;
    forall a | a in Acts(w, InLoop, executed) ensures Justified(a, cfg, []) {
      assert a.execution in executed;
    }
  }

  lemma JointJustified(before: seq<Exchange>, exchanges: seq<Exchange>, acts: seq<Act>, later: TurnTrace, cfg: Config)
    requires AllJustified(acts, cfg, before + exchanges) && AllJustified(later.acts, cfg, before + exchanges + later.exchanges)
    ensures AllJustified(Joint(exchanges, acts, later).acts, cfg, before + Joint(exchanges, acts, later).exchanges)
  {
    assert before + exchanges + later.exchanges == before + (exchanges + later.exchanges);
    JustifiedAmongMore(acts, cfg, before + exchanges, before + exchanges + later.exchanges);
  }

  /** Over any chain of approvals, every call handed to a tool is justified. */
  lemma {:induction false} EveryCallOfATurnJustified(worlds: seq<World>, cfg: Config, context: seq<Message>, before: seq<Exchange>)
    requires worlds != []
    ensures var t := Turn(worlds, cfg, context); AllJustified(t.acts, cfg, before + t.exchanges)
    decreases |worlds|, 0
  {
    var t := Run(worlds[0], cfg, context);
    var acts := Acts(worlds[0], InLoop, t.executions);
    LoopActsJustified(worlds[0], cfg, context);
    JustifiedAmongMore(acts, cfg, [], before + t.exchanges);
    if t.end.NeedApproval? && |worlds| > 1 {
      RunStopStems(worlds[0], cfg, context);
      PendingPassedItsHook(worlds[0], cfg, context);
      StemsAmongMore(t.end.pending, t.exchanges, before + t.exchanges);
      EveryCallAfterApprovalJustified(worlds[1..], cfg, t.end.pending, Some(worlds[0]), before + t.exchanges);
      JointJustified(before, t.exchanges, acts, Approved(worlds[1..], cfg, t.end.pending, Some(worlds[0])), cfg);
    }
  }

  lemma {:induction false} EveryCallAfterApprovalJustified(
    worlds: seq<World>, cfg: Config, p: PendingApproval, asked: Option<World>, before: seq<Exchange>)
    requires worlds != [] && Stems(p, before) && (asked.Some? ==> PassedHook(asked.value, cfg, p))
    ensures var t := Approved(worlds, cfg, p, asked); AllJustified(t.acts, cfg, before + t.exchanges)
    decreases |worlds|, 1
  {
    var acts := ResumeActs(worlds[0], p, asked);
    ResumeActsJustified(worlds[0], cfg, p, asked, before);
    assert before + [] == before;
    match Resume(worlds[0], p)
    case Continue(context) =>
      EveryCallOfATurnJustified(worlds, cfg, context, before);
      JointJustified(before, [], acts, Turn(worlds, cfg, context), cfg);
    case Stop(end) =>
      if end.NeedApproval? && |worlds| > 1 {
        ReplayStopStems(worlds[0], p, before);
        EveryCallAfterApprovalJustified(worlds[1..], cfg, end.pending, None, before);
        JointJustified(before, [], acts, Approved(worlds[1..], cfg, end.pending, None), cfg);
      }
  }

  // ---------- Calls that no hook has seen ----------

  /** A replay runs something exactly when the approved call lets it begin and the first deferred
      call needs no approval. */
  lemma ReplayRunsIff(w: World, p: PendingApproval)
    ensures ReplayExecutions(w, p) != [] <==>
            Replays(w, p) && p.deferredToolCalls != [] && !NeedsApproval(w, 0, p.deferredToolCalls[0])
  {
    var calls := p.deferredToolCalls;
    var entries := ReplayFrom(w, calls, 0).entries;
    ReplayStopsAtFirstAsk(w, calls, 0);
    RunnablesMeaning(entries, |entries|);
    assert entries == [] ==> RunnablesIn(entries, |entries|) == [];
    if entries != [] {
      assert entries[0] == Runnable(calls[0]);
      assert (0, entries[0].call) in RunnablesIn(entries, |entries|);
    }
  }

  /** The same rules of approval, whatever the tools do. */
  ghost predicate SameRules(w: World, v: World) {
    v.requirement == w.requirement && v.autoApproved == w.autoApproved
  }

  /** The calls of a resumption that no hook has seen. */
  function Unhooked(w: World, p: PendingApproval, fromLoop: bool): seq<Execution> {
    if fromLoop then ReplayExecutions(w, p) else ResumeExecutions(w, p)
  }

  function Harmless(w: World): World {
    w.(run := (r: nat, i: nat, tc: ToolCall) => Ok(""), panics := (r: nat, i: nat) => false, parseAuth := (s: string) => None)
  }

  /** A resumption is sure to run nothing unhooked, whatever its tools do, if and only if the
      pending call came up in a loop and no deferred call follows it, or the first one needs
      approval again. */
  lemma NothingUnhookedIff(w: World, p: PendingApproval, fromLoop: bool)
    ensures (forall v :: SameRules(w, v) ==> Unhooked(v, p, fromLoop) == []) <==>
            fromLoop && (p.deferredToolCalls == [] || NeedsApproval(w, 0, p.deferredToolCalls[0]))
  {
    forall v | SameRules(w, v)
      ensures Unhooked(v, p, fromLoop) == [] <==>
              fromLoop && !(Replays(v, p) && p.deferredToolCalls != [] && !NeedsApproval(w, 0, p.deferredToolCalls[0]))
    {
      ReplayRunsIff(v, p);
    }
    assert SameRules(w, Harmless(w)) && Replays(Harmless(w), p);
  }

  /** Tools "a", which always needs approval, and "b", which every hook rejects; the LLM asks for both. */
  const A := ToolCall("1", "a", "")
  const B := ToolCall("2", "b", "")

  function RejectingWorld(): World {
    World(
      (r: Request) => if r.round == 1 then Replied(ToolCalls([A, B], None)) else Replied(Text("")),
      (r: nat) => [], (r: nat) => false, (r: nat) => None,
      (r: nat, i: nat, tc: ToolCall) => if tc.name == "b" then HookRejected("") else HookContinue(None),
      (s: string) => None,
      (r: nat, name: string, args: string) => if name == "a" then Some(Always) else None,
      (r: nat, name: string) => false, (r: nat, i: nat, tc: ToolCall) => Ok(""), (r: nat, i: nat) => false,
      (name: string, output: string) => output, (s: string) => None)
  }

  lemma RejectingWorldStops(cfg: Config)
    requires !cfg.autoApproveTools
    ensures var t := Run(RejectingWorld(), cfg, []);
            && t.end.NeedApproval? && t.executions == []
            && ApprovedCall(t.end.pending) == A && t.end.pending.deferredToolCalls == [B]
  {
    var w := RejectingWorld();
    var asked := AskLlm(w, cfg, 1, Nudged(cfg, 1, []));
    assert asked.answer == Replied(ToolCalls([A, B], None));
    assert Inspect(w, cfg, 1, 0, A) == Ask(A);
    var pre := PreflightFrom(w, cfg, 1, [A, B], 0);
    assert pre == Preflight([], Some(A));
    assert RunnablesIn(pre.entries, |pre.entries|) == [];
    assert After([A, B], pre) == [B];
    var played := PlayRound(w, cfg, 1, []);
    assert played.step.Stop? && played.executions == [];
  }

  /** A call that its hook rejects is nevertheless run, when it was deferred and the call before it
      is approved. */
  lemma RejectedCallRunsWhenDeferred(cfg: Config)
    requires !cfg.autoApproveTools
    ensures forall round: nat, index: nat :: RejectingWorld().hook(round, index, B).HookRejected?
    ensures exists a :: a in Turn([RejectingWorld(), RejectingWorld()], cfg, []).acts && a.origin.Replayed? && a.execution.call == B
  {
    var w := RejectingWorld();
    var worlds := [w, w];
    RejectingWorldStops(cfg);
    var p := Run(w, cfg, []).end.pending;
    assert worlds[1..] == [w];
    assert Replays(w, p) && !NeedsApproval(w, 0, B);
    ReplayRunsIff(w, p);
    ReplayedCallsNeedNoApproval(w, p);
    var x := ReplayExecutions(w, p)[0];
    assert x in ReplayExecutions(w, p) && x.call == B;
    var a := ResumeActs(w, p, Some(w))[1];
    assert a == Act(w, Replayed(p), x);
    assert a in Approved([w], cfg, p, Some(w)).acts;
    assert a in Turn(worlds, cfg, []).acts;
  }
}

/**
 What every run of the agentic loop keeps, for every world.
 */
module DispatcherProperties {
  import opened Basics
  import opened ChatProtocol
  import opened Dispatcher

  /** After a pending approval the history owes exactly the pending call and the deferred ones. */
  predicate OwesPending(p: PendingApproval) {
    Settle(Owing([]), p.contextMessages) == Owing([p.toolCallId] + Ids(p.deferredToolCalls))
  }

  // ---------- Pairing of calls and results ----------

  lemma EntryKeepsIdentity(w: World, cfg: Config, round: nat, calls: seq<ToolCall>, k: nat)
    requires k < |PreflightFrom(w, cfg, round, calls, 0).entries|
    ensures k < |calls|
    ensures PreflightFrom(w, cfg, round, calls, 0).entries[k].call.id == calls[k].id
  {
    PreflightStopsAtFirstAsk(w, cfg, round, calls, 0);
    InspectKeepsIdentity(w, cfg, round, k, calls[k]);
  }

  /** Results written in preflight order pay the debts of their calls from the front. */
  lemma {:induction false} ResultsPayInOrder(w: World, round: nat, calls: seq<ToolCall>, entries: seq<Entry>, n: nat)
    requires n <= |entries| <= |calls|
    requires forall k :: 0 <= k < n ==> entries[k].call.id == calls[k].id
    ensures Settle(Owing(Ids(calls)), Results(w, round, entries, n)) == Owing(Ids(calls)[n..])
  {
    var results := Results(w, round, entries, n);
    if n == 0 {
      assert Ids(calls)[0..] == Ids(calls);
    } else {
      ResultsPayInOrder(w, round, calls, entries, n - 1);
      assert results[..n - 1] == Results(w, round, entries, n - 1);
      var owed := Ids(calls)[n - 1..];
      assert owed[0] == calls[n - 1].id == entries[n - 1].call.id;
      assert owed[1..] == Ids(calls)[n..];
    }
  }

  /** `pre` classifies `calls` from the front, keeps their ids and stops at the call after. */
  ghost predicate Classifies(pre: Preflight, calls: seq<ToolCall>) {
    && |pre.entries| <= |calls|
    && (forall k :: 0 <= k < |pre.entries| ==> pre.entries[k].call.id == calls[k].id)
    && (pre.approval.None? <==> |pre.entries| == |calls|)
    && (pre.approval.Some? ==> pre.approval.value.id == calls[|pre.entries|].id)
  }

  lemma PreflightClassifies(w: World, cfg: Config, round: nat, calls: seq<ToolCall>)
    ensures Classifies(PreflightFrom(w, cfg, round, calls, 0), calls)
  {
    var pre := PreflightFrom(w, cfg, round, calls, 0);
    PreflightStopsAtFirstAsk(w, cfg, round, calls, 0);
    forall k | 0 <= k < |pre.entries| ensures pre.entries[k].call.id == calls[k].id {
      EntryKeepsIdentity(w, cfg, round, calls, k);
    }
    if pre.approval.Some? { InspectKeepsIdentity(w, cfg, round, |pre.entries|, calls[|pre.entries|]); }
  }

  lemma PaidUpTo(w: World, round: nat, pre: Preflight, context: seq<Message>, calls: seq<ToolCall>)
    requires Classifies(pre, calls) && Settle(Owing([]), context) == Owing(Ids(calls))
    ensures Settle(Owing([]), context + Results(w, round, pre.entries, |pre.entries|)) == Owing(Ids(calls)[|pre.entries|..])
  {
    SettleAppend(Owing([]), context, Results(w, round, pre.entries, |pre.entries|));
    ResultsPayInOrder(w, round, calls, pre.entries, |pre.entries|);
  }

  lemma OwedAfter(pre: Preflight, calls: seq<ToolCall>)
    requires Classifies(pre, calls)
    ensures Ids(calls)[|pre.entries|..] ==
            if pre.approval.Some? then [pre.approval.value.id] + Ids(After(calls, pre)) else []
  {}

  ghost predicate StepKeepsProtocol(step: Step) {
    && (step.Continue? ==> WellFormed(step.context))
    && (step.Stop? && step.end.NeedApproval? ==> OwesPending(step.end.pending))
  }

  lemma EndKeepsProtocol(crashed: bool, auth: Option<string>, pre: Preflight, closed: seq<Message>, calls: seq<ToolCall>)
    requires Classifies(pre, calls) && Settle(Owing([]), closed) == Owing(Ids(calls)[|pre.entries|..])
    ensures StepKeepsProtocol(EndOfBlock(crashed, auth, pre.approval, closed, After(calls, pre)))
  {
    OwedAfter(pre, calls);
  }

  lemma ConcludeKeepsProtocol(w: World, round: nat, pre: Preflight, context: seq<Message>, calls: seq<ToolCall>)
    requires Classifies(pre, calls) && Settle(Owing([]), context) == Owing(Ids(calls))
    ensures StepKeepsProtocol(Conclude(w, round, pre, context, After(calls, pre)))
  {
    PaidUpTo(w, round, pre, context, calls);
    EndKeepsProtocol(
      Crashes(w, round, pre.entries), FirstAuth(w, round, pre.entries, |pre.entries|), pre,
      context + Results(w, round, pre.entries, |pre.entries|), calls);
  }

  lemma ToolsKeepProtocol(w: World, cfg: Config, round: nat, context: seq<Message>, calls: seq<ToolCall>, content: Option<string>)
    requires WellFormed(context)
    ensures StepKeepsProtocol(RunTools(w, cfg, round, context, calls, content))
  {
    var opening := Assistant(GetOrEmpty(content), calls);
    SettleAppend(Owing([]), context, [opening]);
    SettleOne(Owing([]), opening);
    PreflightClassifies(w, cfg, round, calls);
    ConcludeKeepsProtocol(w, round, PreflightFrom(w, cfg, round, calls, 0), context + [opening], calls);
  }

  lemma NudgedKeepsProtocol(cfg: Config, round: nat, context: seq<Message>)
    requires WellFormed(context)
    ensures WellFormed(Nudged(cfg, round, context))
  {
    SettleAppend(Owing([]), context, [System(NUDGE)]);
    SettleOne(Owing([]), System(NUDGE));
  }

  lemma RoundKeepsProtocol(w: World, cfg: Config, round: nat, context: seq<Message>)
    requires WellFormed(context)
    ensures var played := PlayRound(w, cfg, round, context);
            && (forall e :: e in played.exchanges ==> WellFormed(e.request.messages))
            && StepKeepsProtocol(played.step)
  {
    NudgedKeepsProtocol(cfg, round, context);
    CompactKeepsWellFormed(Nudged(cfg, round, context));
    var asked := AskLlm(w, cfg, round, Nudged(cfg, round, context));
    assert WellFormed(asked.context);
    match asked.answer
    case Replied(ToolCalls(calls, content)) =>
      ToolsKeepProtocol(w, cfg, round, asked.context, calls, content);
    case _ =>
  }

  // ---------- Induction over the rounds ----------

  /** One round, entered with `inv`, does only what is claimed of it and re-establishes `inv`. */
  ghost predicate RoundKeeps(
    played: Round, round: nat, inv: (nat, seq<Message>) -> bool,
    exchangeOk: Exchange -> bool, executionOk: Execution -> bool, endOk: LoopEnd -> bool)
  {
    && (forall e :: e in played.exchanges ==> exchangeOk(e))
    && (forall x :: x in played.executions ==> executionOk(x))
    && match played.step
       case Stop(end) => endOk(end)
       case Continue(next) => inv(round + 1, next)
  }

  lemma {:induction false} RunKeeps(
    play: Player, limit: nat, round: nat, context: seq<Message>, inv: (nat, seq<Message>) -> bool,
    exchangeOk: Exchange -> bool, executionOk: Execution -> bool, endOk: LoopEnd -> bool)
    requires inv(round, context) && endOk(Failed(MaxIterations(limit)))
    requires forall r: nat, c :: r <= limit + 1 && inv(r, c) ==>
               RoundKeeps(play(r, c), r, inv, exchangeOk, executionOk, endOk)
    ensures var t := PlayFrom(play, limit, round, context);
            && (forall e :: e in t.exchanges ==> exchangeOk(e))
            && (forall x :: x in t.executions ==> executionOk(x))
            && endOk(t.end)
    decreases limit + 2 - round
  {
    if round <= limit + 1 && play(round, context).step.Continue? {
      RunKeeps(play, limit, round + 1, play(round, context).step.context, inv, exchangeOk, executionOk, endOk);
    }
  }

  /** In every run from a well-formed history, every context sent to the LLM is well-formed, and
      an approval stop leaves owed exactly the pending call followed by the deferred calls. */
  lemma EveryRequestWellFormed(w: World, cfg: Config, context: seq<Message>)
    requires WellFormed(context)
    ensures var t := Run(w, cfg, context);
            && (forall e :: e in t.exchanges ==> WellFormed(e.request.messages))
            && (t.end.NeedApproval? ==> OwesPending(t.end.pending))
  {
    var inv := (r: nat, c: seq<Message>) => WellFormed(c);
    var exchangeOk := (e: Exchange) => WellFormed(e.request.messages);
    var executionOk := (x: Execution) => true;
    var endOk := (end: LoopEnd) => end.NeedApproval? ==> OwesPending(end.pending);
    forall r: nat, c | r <= cfg.maxToolIterations + 1 && inv(r, c)
      ensures RoundKeeps(Rounds(w, cfg)(r, c), r, inv, exchangeOk, executionOk, endOk)
    {
      RoundKeepsProtocol(w, cfg, r, c);
    }
    RunKeeps(Rounds(w, cfg), cfg.maxToolIterations, 1, context, inv, exchangeOk, executionOk, endOk);
  }

  // ---------- Iteration bounds ----------

  /** Requests come in strictly increasing (round, retry) order. */
  predicate Before(a: Request, b: Request) {
    a.round < b.round || (a.round == b.round && !a.retry && b.retry)
  }

  /** A round asks at most twice, the second time only as a retry. */
  ghost predicate AsksAtMostTwice(x: seq<Exchange>, round: nat, limit: nat) {
    && |x| <= 2
    && (forall i :: 0 <= i < |x| ==> x[i].request.round == round && (x[i].request.forceText <==> round >= limit))
    && (|x| == 2 ==> Before(x[0].request, x[1].request))
  }

  lemma {:induction false} Schedule(play: Player, limit: nat, round: nat, context: seq<Message>)
    requires round <= limit + 2
    requires forall r: nat, c :: AsksAtMostTwice(play(r, c).exchanges, r, limit)
    ensures var x := PlayFrom(play, limit, round, context).exchanges;
            && |x| <= 2 * (limit + 2 - round)
            && (forall i :: 0 <= i < |x| ==>
                  && round <= x[i].request.round <= limit + 1
                  && (x[i].request.forceText <==> x[i].request.round >= limit))
            && (forall i, j :: 0 <= i < j < |x| ==> Before(x[i].request, x[j].request))
    decreases limit + 2 - round
  {
    if round <= limit + 1 {
      assert AsksAtMostTwice(play(round, context).exchanges, round, limit);
      if play(round, context).step.Continue? {
        Schedule(play, limit, round + 1, play(round, context).step.context);
      }
    }
  }

  /** The loop makes at most two requests a round, the second only as a retry, forces text from
      round `maxToolIterations` on and never asks past one more round. */
  lemma RequestSchedule(w: World, cfg: Config, context: seq<Message>)
    ensures var x := Run(w, cfg, context).exchanges;
            && |x| <= 2 * (cfg.maxToolIterations + 1)
            && (forall i :: 0 <= i < |x| ==>
                  && 1 <= x[i].request.round <= cfg.maxToolIterations + 1
                  && (x[i].request.forceText <==> x[i].request.round >= cfg.maxToolIterations))
            && (forall i, j :: 0 <= i < j < |x| ==> Before(x[i].request, x[j].request))
  {
    forall r: nat, c ensures AsksAtMostTwice(Rounds(w, cfg)(r, c).exchanges, r, cfg.maxToolIterations) {
      var asked := AskLlm(w, cfg, r, Nudged(cfg, r, c));
      assert AsksAtMostTwice(asked.exchanges, r, cfg.maxToolIterations);
    }
    Schedule(Rounds(w, cfg), cfg.maxToolIterations, 1, context);
  }

  predicate AnsweredWithTools(e: Exchange) {
    e.answer.Replied? && e.answer.reply.ToolCalls?
  }

  /** The ceiling error needs an LLM that answers a forced-text request with tool calls: when
      every forced-text request is answered by text or an error, the error is unreachable and no
      request is made past round `max(1, maxToolIterations)`. */
  lemma ForcedTextGuaranteesAnEnd(w: World, cfg: Config, context: seq<Message>)
    requires forall r: Request :: r.forceText ==> !(w.llm(r).Replied? && w.llm(r).reply.ToolCalls?)
    ensures var t := Run(w, cfg, context);
            && t.end != Failed(MaxIterations(cfg.maxToolIterations))
            && (forall e :: e in t.exchanges ==> e.request.round <= cfg.maxToolIterations || e.request.round == 1)
  {
    forall r: nat, c ensures StopsWhenForced(Rounds(w, cfg)(r, c), r, cfg.maxToolIterations) {
      var asked := AskLlm(w, cfg, r, Nudged(cfg, r, c));
    }
    ForcedTextStops(Rounds(w, cfg), cfg.maxToolIterations, 1, context);
  }

  ghost predicate StopsWhenForced(played: Round, round: nat, limit: nat) {
    && (forall e :: e in played.exchanges ==> e.request.round == round)
    && (round >= limit ==> played.step.Stop?)
    && (played.step.Stop? ==> !(played.step.end.Failed? && played.step.end.failure.MaxIterations?))
  }

  lemma {:induction false} ForcedTextStops(play: Player, limit: nat, round: nat, context: seq<Message>)
    requires round <= limit || round == 1
    requires forall r: nat, c :: StopsWhenForced(play(r, c), r, limit)
    ensures var t := PlayFrom(play, limit, round, context);
            && t.end != Failed(MaxIterations(limit))
            && (forall e :: e in t.exchanges ==> e.request.round <= limit || e.request.round == 1)
    decreases limit + 2 - round
  {
    assert StopsWhenForced(play(round, context), round, limit);
    if play(round, context).step.Continue? {
      ForcedTextStops(play, limit, round + 1, play(round, context).step.context);
    }
  }

  /** An LLM that calls tools even when text is forced. */
  function StubbornWorld(): World {
    World(
      (r: Request) => Replied(ToolCalls([], None)), (r: nat) => [], (r: nat) => false, (r: nat) => None,
      (r: nat, i: nat, tc: ToolCall) => HookContinue(None), (s: string) => None,
      (r: nat, name: string, args: string) => None, (r: nat, name: string) => false,
      (r: nat, i: nat, tc: ToolCall) => Ok(""), (r: nat, i: nat) => false,
      (name: string, output: string) => output, (s: string) => None)
  }

  lemma {:induction false} NeverStopping(play: Player, limit: nat, round: nat, context: seq<Message>)
    requires forall r: nat, c :: play(r, c).step.Continue?
    ensures PlayFrom(play, limit, round, context).end == Failed(MaxIterations(limit))
    decreases limit + 2 - round
  {
    if round <= limit + 1 {
      NeverStopping(play, limit, round + 1, play(round, context).step.context);
    }
  }

  /** Without that obedience the ceiling is what ends the run, whatever its limit. */
  lemma CeilingStopsStubbornLlm(cfg: Config, context: seq<Message>)
    ensures Run(StubbornWorld(), cfg, context).end == Failed(MaxIterations(cfg.maxToolIterations))
  {
    NeverStopping(Rounds(StubbornWorld(), cfg), cfg.maxToolIterations, 1, context);
  }

  // ---------- A panic that nothing catches ----------

  /** An LLM that asks for one call, whose tool panics. */
  function PanickingWorld(): World {
    StubbornWorld().(llm := (r: Request) => Replied(ToolCalls([ToolCall("1", "t", "")], None)), panics := (r: nat, i: nat) => true)
  }

  /** A lone call's panic ends the run itself, whatever the configuration and the history. */
  lemma LonePanicCrashes(cfg: Config, context: seq<Message>)
    ensures Run(PanickingWorld(), cfg, context).end == Crashed
  {
    var w, call := PanickingWorld(), ToolCall("1", "t", "");
    assert Inspect(w, cfg, 1, 0, call) == Clear(call);
    var entries := PreflightFrom(w, cfg, 1, [call], 0).entries;
    assert entries == [Runnable(call)];
    assert RunnablesIn(entries, 0) == [] && RunnablesIn(entries, 1) == [(0, call)];
    assert PlayRound(w, cfg, 1, context).step == Stop(Crashed);
  }

  // ---------- The nudge ----------

  function NudgeCount(msgs: seq<Message>): nat {
    Count(msgs, System(NUDGE))
  }

  lemma NoteIsNotNudge()
    ensures System(COMPACTION_NOTE) != System(NUDGE)
  {
    assert |COMPACTION_NOTE| != |NUDGE|;
  }

  lemma CompactKeepsNudges(context: seq<Message>)
    ensures NudgeCount(Compact(context)) == NudgeCount(context)
  {
    NoteIsNotNudge();
    CompactKeepsInstructions(context, System(NUDGE));
  }

  lemma AskKeepsNudges(w: World, cfg: Config, round: nat, context: seq<Message>)
    ensures var asked := AskLlm(w, cfg, round, context);
            && NudgeCount(asked.context) == NudgeCount(context)
            && (forall e :: e in asked.exchanges ==> NudgeCount(e.request.messages) == NudgeCount(context))
            && (forall e :: e in asked.exchanges ==> e.request.round == round)
  {
    CompactKeepsNudges(context);
  }

  lemma ToolsKeepNudges(w: World, cfg: Config, round: nat, context: seq<Message>, calls: seq<ToolCall>, content: Option<string>)
    requires RunTools(w, cfg, round, context, calls, content).Continue?
    ensures NudgeCount(RunTools(w, cfg, round, context, calls, content).context) == NudgeCount(context)
  {
    var entries := PreflightFrom(w, cfg, round, calls, 0).entries;
    var results := Results(w, round, entries, |entries|);
    var opening := [Assistant(GetOrEmpty(content), calls)];
    assert System(NUDGE) !in results && System(NUDGE) !in opening;
    CountAppend(context + opening, results, System(NUDGE));
    CountAppend(context, opening, System(NUDGE));
  }

  lemma NudgedCount(cfg: Config, round: nat, context: seq<Message>)
    ensures NudgeCount(Nudged(cfg, round, context)) == NudgeCount(context) + if round == NudgeAt(cfg) then 1 else 0
  {
    CountAppend(context, [System(NUDGE)], System(NUDGE));
  }

  lemma RoundNudges(w: World, cfg: Config, round: nat, context: seq<Message>)
    ensures var played := PlayRound(w, cfg, round, context);
            var count := NudgeCount(Nudged(cfg, round, context));
            && (forall e :: e in played.exchanges ==> NudgeCount(e.request.messages) == count && e.request.round == round)
            && (played.step.Continue? ==> NudgeCount(played.step.context) == count)
  {
    var nudged := Nudged(cfg, round, context);
    AskKeepsNudges(w, cfg, round, nudged);
    var asked := AskLlm(w, cfg, round, nudged);
    if asked.answer.Replied? && asked.answer.reply.ToolCalls?
       && RunTools(w, cfg, round, asked.context, asked.answer.reply.calls, asked.answer.reply.content).Continue? {
      ToolsKeepNudges(w, cfg, round, asked.context, asked.answer.reply.calls, asked.answer.reply.content);
    }
  }

  /** The nudge is injected once: a request carries one more nudge than the history the run started
      from exactly when its round is the one before `maxToolIterations` or later and there is such a
      round, compaction or not. */
  lemma NudgedExactlyOnce(w: World, cfg: Config, context: seq<Message>)
    ensures forall e :: e in Run(w, cfg, context).exchanges ==>
              NudgeCount(e.request.messages) ==
              NudgeCount(context) + if 2 <= cfg.maxToolIterations <= e.request.round + 1 then 1 else 0
  {
    var start := NudgeCount(context);
    var inv := (r: nat, c: seq<Message>) => r >= 1 && NudgeCount(c) == start + if 1 <= NudgeAt(cfg) < r then 1 else 0;
    var exchangeOk := (e: Exchange) =>
      NudgeCount(e.request.messages) == start + if 2 <= cfg.maxToolIterations <= e.request.round + 1 then 1 else 0;
    var executionOk := (x: Execution) => true;
    var endOk := (end: LoopEnd) => true;
    forall r: nat, c | r <= cfg.maxToolIterations + 1 && inv(r, c)
      ensures RoundKeeps(Rounds(w, cfg)(r, c), r, inv, exchangeOk, executionOk, endOk)
    {
      RoundNudges(w, cfg, r, c);
      NudgedCount(cfg, r, c);
    }
    RunKeeps(Rounds(w, cfg), cfg.maxToolIterations, 1, context, inv, exchangeOk, executionOk, endOk);
  }

  // ---------- What was executed ----------

  /** The call passed its hook, is in the form that the hook left it in, and needs no approval on
      these final parameters. */
  ghost predicate Cleared(w: World, cfg: Config, e: Execution) {
    LeftByHook(w, e.round, e.index, e.original, e.call) && !MustAsk(w, cfg, e.round, e.call)
  }

  lemma RoundExecutesCleared(w: World, cfg: Config, round: nat, calls: seq<ToolCall>)
    ensures forall e :: e in RoundExecutions(w, cfg, round, calls) ==>
              && e.round == round && Cleared(w, cfg, e)
              && e.index < |PreflightFrom(w, cfg, round, calls, 0).entries| <= |calls|
              && e.original == calls[e.index]
  {
    var entries := PreflightFrom(w, cfg, round, calls, 0).entries;
    PreflightStopsAtFirstAsk(w, cfg, round, calls, 0);
    var runnable := RunnablesIn(entries, |entries|);
    RunnablesMeaning(entries, |entries|);
    var executed := RoundExecutions(w, cfg, round, calls);
    forall k | 0 <= k < |executed|
      ensures executed[k].round == round && Cleared(w, cfg, executed[k])
      ensures executed[k].index < |entries| && executed[k].original == calls[executed[k].index]
    {
      assert runnable[k] in runnable;
      InspectMeaning(w, cfg, round, executed[k].index, executed[k].original);
    }
  }

  lemma PlayedExecutionsCleared(w: World, cfg: Config, round: nat, context: seq<Message>)
    ensures forall x :: x in PlayRound(w, cfg, round, context).executions ==> x.round == round && Cleared(w, cfg, x)
  {
    var played := PlayRound(w, cfg, round, context);
    if played.executions != [] {
      var asked := AskLlm(w, cfg, round, Nudged(cfg, round, context));
      RoundExecutesCleared(w, cfg, round, asked.answer.reply.calls);
    }
  }

  /** Every call handed to a tool passed its hook and, on its final parameters, the approval check. */
  lemma EveryExecutionCleared(w: World, cfg: Config, context: seq<Message>)
    ensures forall x :: x in Run(w, cfg, context).executions ==> Cleared(w, cfg, x)
  {
    var inv := (r: nat, c: seq<Message>) => true;
    var exchangeOk := (e: Exchange) => true;
    var executionOk := (x: Execution) => Cleared(w, cfg, x);
    var endOk := (end: LoopEnd) => true;
    forall r: nat, c | r <= cfg.maxToolIterations + 1 && inv(r, c)
      ensures RoundKeeps(Rounds(w, cfg)(r, c), r, inv, exchangeOk, executionOk, endOk)
    {
      PlayedExecutionsCleared(w, cfg, r, c);
    }
    RunKeeps(Rounds(w, cfg), cfg.maxToolIterations, 1, context, inv, exchangeOk, executionOk, endOk);
  }

  /** What the loop logs as handed to tools is cleared, call by call. */
  lemma EveryLoggedCallCleared(w: World, cfg: Config, context: seq<Message>, before: seq<Execution>, after: seq<Execution>)
    requires Logged(before, after, Run(w, cfg, context).executions)
    ensures forall k :: |before| <= k < |after| ==> Cleared(w, cfg, after[k])
  {
    EveryExecutionCleared(w, cfg, context);
    forall k | |before| <= k < |after| ensures Cleared(w, cfg, after[k]) {
      assert after[k] == after[|before|..][k - |before|];
      assert after[k] in multiset(after[|before|..]);
    }
  }

  /** With the auto-approve setting no run ever stops for approval. */
  lemma AutoApproveNeverStops(w: World, cfg: Config, context: seq<Message>)
    requires cfg.autoApproveTools
    ensures !Run(w, cfg, context).end.NeedApproval?
  {
    var endOk := (end: LoopEnd) => !end.NeedApproval?;
    forall r: nat, c | r <= cfg.maxToolIterations + 1
      ensures RoundKeeps(Rounds(w, cfg)(r, c), r, (r: nat, c: seq<Message>) => true, (e: Exchange) => true, (x: Execution) => true, endOk)
    {
      var asked := AskLlm(w, cfg, r, Nudged(cfg, r, c));
      if asked.answer.Replied? && asked.answer.reply.ToolCalls? {
        PreflightStopsAtFirstAsk(w, cfg, r, asked.answer.reply.calls, 0);
      }
    }
    RunKeeps(Rounds(w, cfg), cfg.maxToolIterations, 1, context, (r: nat, c: seq<Message>) => true, (e: Exchange) => true, (x: Execution) => true, endOk);
  }

  /** An approval stop splits the LLM's calls: those before the pending one have their results
      in place, the pending one and the deferred ones follow it, and none of these ran. */
  ghost predicate SplitsCalls(last: Exchange, executions: seq<Execution>, p: PendingApproval, results: seq<Message>) {
    && AnsweredWithTools(last)
    && var calls := last.answer.reply.calls;
    && |results| < |calls|
    && p.contextMessages == last.request.messages + [Assistant(GetOrEmpty(last.answer.reply.content), calls)] + results
    && (forall k :: 0 <= k < |results| ==> results[k].Tool? && results[k].callId == calls[k].id)
    && p.toolCallId == calls[|results|].id
    && p.toolName == calls[|results|].name
    && p.deferredToolCalls == calls[|results| + 1..]
    && (forall e :: e in executions && e.round == last.request.round ==>
          e.index < |results| && e.original == calls[e.index])
  }

  ghost predicate EndsInSplit(end: LoopEnd, exchanges: seq<Exchange>, executions: seq<Execution>) {
    end.NeedApproval? ==> exchanges != [] && LastSplits(exchanges[|exchanges| - 1], executions, end.pending)
  }

  ghost predicate LastSplits(last: Exchange, executions: seq<Execution>, p: PendingApproval) {
    exists results :: SplitsCalls(last, executions, p, results)
  }

  lemma RoundSplitsCalls(w: World, cfg: Config, round: nat, context: seq<Message>)
    ensures var played := PlayRound(w, cfg, round, context);
            played.step.Stop? ==> EndsInSplit(played.step.end, played.exchanges, played.executions)
  {
    var played := PlayRound(w, cfg, round, context);
    if played.step.Stop? && played.step.end.NeedApproval? {
      var asked := AskLlm(w, cfg, round, Nudged(cfg, round, context));
      var calls := asked.answer.reply.calls;
      var pre := PreflightFrom(w, cfg, round, calls, 0);
      var results := Results(w, round, pre.entries, |pre.entries|);
      var last := played.exchanges[|played.exchanges| - 1];
      assert last.answer == asked.answer && last.request.messages == asked.context;
      PreflightStopsAtFirstAsk(w, cfg, round, calls, 0);
      RoundExecutesCleared(w, cfg, round, calls);
      InspectKeepsIdentity(w, cfg, round, |results|, calls[|results|]);
      forall k | 0 <= k < |results| ensures results[k].Tool? && results[k].callId == calls[k].id {
        EntryKeepsIdentity(w, cfg, round, calls, k);
      }
      assert SplitsCalls(last, played.executions, played.step.end.pending, results);
    }
  }

  ghost predicate RoundIsSplit(played: Round, round: nat) {
    && (played.step.Stop? ==> EndsInSplit(played.step.end, played.exchanges, played.executions))
    && (forall x :: x in played.executions ==> x.round == round)
    && (forall e :: e in played.exchanges ==> e.request.round == round)
  }

  lemma {:induction false} RunSplitsCalls(play: Player, limit: nat, round: nat, context: seq<Message>)
    requires forall r: nat, c :: RoundIsSplit(play(r, c), r)
    ensures var t := PlayFrom(play, limit, round, context);
            && EndsInSplit(t.end, t.exchanges, t.executions)
            && (forall x :: x in t.executions ==> x.round >= round)
            && (forall e :: e in t.exchanges ==> e.request.round >= round)
    decreases limit + 2 - round
  {
    if round <= limit + 1 {
      var played := play(round, context);
      assert RoundIsSplit(played, round);
      if played.step.Continue? {
        var rest := PlayFrom(play, limit, round + 1, played.step.context);
        RunSplitsCalls(play, limit, round + 1, played.step.context);
        if rest.end.NeedApproval? {
          var last := rest.exchanges[|rest.exchanges| - 1];
          var results :| SplitsCalls(last, rest.executions, rest.end.pending, results);
          assert last.request.round > round by { assert last in rest.exchanges; }
          assert SplitsCalls(last, played.executions + rest.executions, rest.end.pending, results);
        }
      }
    }
  }

  /** In every run that stops for approval, the stop splits the calls of the last request. */
  lemma ApprovalSplitsCalls(w: World, cfg: Config, context: seq<Message>)
    ensures var t := Run(w, cfg, context); EndsInSplit(t.end, t.exchanges, t.executions)
  {
    forall r: nat, c ensures RoundIsSplit(Rounds(w, cfg)(r, c), r) {
      RoundSplitsCalls(w, cfg, r, c);
      PlayedExecutionsCleared(w, cfg, r, c);
      var asked := AskLlm(w, cfg, r, Nudged(cfg, r, c));
      assert forall e :: e in asked.exchanges ==> e.request.round == r;
    }
    RunSplitsCalls(Rounds(w, cfg), cfg.maxToolIterations, 1, context);
  }
}

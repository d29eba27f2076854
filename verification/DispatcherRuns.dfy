/**
 Runs of the agentic loop told from outside: how each request follows from the exchange before it,
 which calls run, and how a run ends, by the answers of the LLM, the hooks, the tools and the user
 alone.
 */
module DispatcherRuns {
  import opened Basics
  import opened ChatProtocol
  import opened Dispatcher
  import opened DispatcherProperties

  // ---------- What the LLM is told of a call ----------

  /** The text that stands for running `call`: what the tool put out, as it is presented, or an error. */
  ghost predicate TellsResult(w: World, round: nat, index: nat, call: ToolCall, text: string) {
    if w.panics(round, index) then
      text == "Error: " + ("Tool error: Tool " + call.name + " execution failed: Task failed during execution")
    else
      match w.run(round, index, call)
      case Ok(output) => text == w.present(call.name, output)
      case Err(error) => text == "Error: " + error
  }

  /** The message answers call `index` of a reply: its hook turned it down, or it ran as its hook left it. */
  ghost predicate Reports(w: World, round: nat, index: nat, original: ToolCall, m: Message) {
    && m.Tool? && m.callId == original.id && m.name == original.name
    && if w.hook(round, index, original).HookContinue?
       then forall call :: LeftByHook(w, round, index, original, call) ==> TellsResult(w, round, index, call, m.content)
       else TurnedDown(w, round, index, original, m.content)
  }

  ghost predicate ReportsAll(w: World, round: nat, calls: seq<ToolCall>, results: seq<Message>) {
    |results| <= |calls| && forall k :: 0 <= k < |results| ==> Reports(w, round, k, calls[k], results[k])
  }

  lemma ShownTells(w: World, round: nat, index: nat, call: ToolCall)
    ensures TellsResult(w, round, index, call, Shown(w, call.name, RunAlone(w, round, index, call)))
  {}

  lemma RunReported(w: World, round: nat, index: nat, original: ToolCall, call: ToolCall, m: Message)
    requires LeftByHook(w, round, index, original, call)
    requires m.Tool? && m.callId == call.id && m.name == call.name && TellsResult(w, round, index, call, m.content)
    ensures Reports(w, round, index, original, m)
  {
    forall other | LeftByHook(w, round, index, original, other) ensures other == call {
    }
  }

  lemma EntryReported(w: World, cfg: Config, round: nat, index: nat, original: ToolCall, entries: seq<Entry>)
    requires index < |entries| && Judged(w, cfg, round, index, original, entries[index])
    ensures Reports(w, round, index, original, ResultMessage(w, round, entries, index))
  {
    if entries[index].Runnable? {
      var call := entries[index].call;
      ShownTells(w, round, index, call);
      RunReported(w, round, index, original, call, ResultMessage(w, round, entries, index));
    }
  }

  lemma EntriesReported(w: World, cfg: Config, round: nat, calls: seq<ToolCall>, entries: seq<Entry>, approval: Option<ToolCall>)
    requires JudgedUpTo(w, cfg, round, calls, entries, approval)
    ensures ReportsAll(w, round, calls, Results(w, round, entries, |entries|))
  {
    forall k | 0 <= k < |entries| ensures Reports(w, round, k, calls[k], ResultMessage(w, round, entries, k)) {
      EntryReported(w, cfg, round, k, calls[k], entries);
    }
  }

  // ---------- The conversation ----------

  /** The message with which the LLM asked for calls. */
  function Opening(e: Exchange): Message
    requires AnsweredWithTools(e)
  {
    Assistant(if e.answer.reply.content.Some? then e.answer.reply.content.value else "", e.answer.reply.calls)
  }

  /** The first request of a round: all tools, text forced from `maxToolIterations` on, and the
      history with the nudge in the round before that. */
  ghost predicate Opens(w: World, cfg: Config, round: nat, history: seq<Message>, q: Request) {
    && q.round == round && !q.retry && (q.forceText <==> round >= cfg.maxToolIterations) && q.tools == w.tools(round)
    && q.messages == history + if round + 1 == cfg.maxToolIterations then [System(NUDGE)] else []
  }

  /** The retry of a request that was too long: compacted, and without tools when text is forced. */
  ghost predicate Retries(first: Request, q: Request) {
    && !first.retry && q.retry && q.round == first.round && q.forceText == first.forceText
    && q.tools == (if first.forceText then [] else first.tools)
    && q.messages == Compact(first.messages)
  }

  /** `next` is the history of exchange `e` with the calls that it asks for, all answered. */
  ghost predicate Answered(w: World, e: Exchange, next: seq<Message>) {
    AnsweredWithTools(e) && exists results {:trigger ReportsAll(w, e.request.round, e.answer.reply.calls, results)} ::
      && |results| == |e.answer.reply.calls| && ReportsAll(w, e.request.round, e.answer.reply.calls, results)
      && next == e.request.messages + [Opening(e)] + results
  }

  /** One request after another: a retry, or the next round on the answered history. */
  ghost predicate Follows(w: World, cfg: Config, e: Exchange, q: Request) {
    if e.answer.ContextLengthExceeded? then Retries(e.request, q)
    else exists next :: Answered(w, e, next) && Opens(w, cfg, e.request.round + 1, next, q)
  }

  ghost predicate Converses(w: World, cfg: Config, round: nat, context: seq<Message>, x: seq<Exchange>) {
    && (forall i :: 0 <= i < |x| ==> x[i].answer == w.llm(x[i].request))
    && (x != [] ==> Opens(w, cfg, round, context, x[0].request))
    && (forall i, j :: 0 <= i && j == i + 1 < |x| ==> Follows(w, cfg, x[i], x[j].request))
  }

  /** What a round says, and the history it hands on. */
  ghost predicate RoundConverses(w: World, cfg: Config, round: nat, context: seq<Message>, played: Round) {
    && Converses(w, cfg, round, context, played.exchanges)
    && (played.step.Continue? ==>
          && played.exchanges != [] && played.exchanges[|played.exchanges| - 1].request.round == round
          && Answered(w, played.exchanges[|played.exchanges| - 1], played.step.context))
  }

  lemma AskConverses(w: World, cfg: Config, round: nat, context: seq<Message>)
    requires round >= 1
    ensures var asked := AskLlm(w, cfg, round, Nudged(cfg, round, context));
            var last := asked.exchanges[|asked.exchanges| - 1];
            && Converses(w, cfg, round, context, asked.exchanges)
            && last.answer == asked.answer && last.request.messages == asked.context && last.request.round == round
  {
    assert context + [] == context;
  }

  /** Tools that lead on have answered every call. */
  lemma ToolsAnswer(w: World, cfg: Config, e: Exchange)
    requires AnsweredWithTools(e)
    ensures var step := RunTools(w, cfg, e.request.round, e.request.messages, e.answer.reply.calls, e.answer.reply.content);
            step.Continue? ==> Answered(w, e, step.context)
  {
    var round, calls := e.request.round, e.answer.reply.calls;
    var pre := PreflightFrom(w, cfg, round, calls, 0);
    PreflightMeaning(w, cfg, round, calls);
    EntriesReported(w, cfg, round, calls, pre.entries, pre.approval);
    assert Opening(e) == Assistant(GetOrEmpty(e.answer.reply.content), calls);
  }

  lemma PlayedConverses(w: World, cfg: Config, round: nat, context: seq<Message>)
    requires round >= 1
    ensures RoundConverses(w, cfg, round, context, PlayRound(w, cfg, round, context))
  {
    AskConverses(w, cfg, round, context);
    var asked := AskLlm(w, cfg, round, Nudged(cfg, round, context));
    var last := asked.exchanges[|asked.exchanges| - 1];
    if AnsweredWithTools(last) { ToolsAnswer(w, cfg, last); }
  }

  lemma {:induction false} PlayConverses(play: Player, w: World, cfg: Config, round: nat, context: seq<Message>)
    requires round >= 1 && forall r: nat, c :: r >= 1 ==> RoundConverses(w, cfg, r, c, play(r, c))
    ensures Converses(w, cfg, round, context, PlayFrom(play, cfg.maxToolIterations, round, context).exchanges)
    decreases cfg.maxToolIterations + 2 - round
  {
    if round <= cfg.maxToolIterations + 1 {
      var played := play(round, context);
      assert RoundConverses(w, cfg, round, context, played);
      if played.step.Continue? {
        PlayConverses(play, w, cfg, round + 1, played.step.context);
        var rest := PlayFrom(play, cfg.maxToolIterations, round + 1, played.step.context).exchanges;
        JoinConversations(w, cfg, round, context, played.exchanges, played.step.context, rest);
      }
    }
  }

  lemma JoinConversations(
    w: World, cfg: Config, round: nat, context: seq<Message>, x: seq<Exchange>, next: seq<Message>, y: seq<Exchange>)
    requires Converses(w, cfg, round, context, x) && Converses(w, cfg, round + 1, next, y)
    requires x != [] && x[|x| - 1].request.round == round && Answered(w, x[|x| - 1], next)
    ensures Converses(w, cfg, round, context, x + y)
  {
    forall i, j | 0 <= i && j == i + 1 < |x + y| ensures Follows(w, cfg, (x + y)[i], (x + y)[j].request) {
      if j < |x| {
        assert Follows(w, cfg, x[i], x[j].request);
      } else if j > |x| {
        assert Follows(w, cfg, y[i - |x|], y[j - |x|].request);
      }
    }
  }

  /** Every run is a conversation: each answer is the LLM's to its request, the first request opens
      round 1, and every other is the retry of the one before or opens the next round on the history
      in which every call of the reply is answered in order, as its hook and its tool say. */
  lemma EveryRunConverses(w: World, cfg: Config, context: seq<Message>)
    ensures Converses(w, cfg, 1, context, Run(w, cfg, context).exchanges)
  {
    forall r: nat, c | r >= 1 ensures RoundConverses(w, cfg, r, c, Rounds(w, cfg)(r, c)) {
      PlayedConverses(w, cfg, r, c);
    }
    PlayConverses(Rounds(w, cfg), w, cfg, 1, context);
  }

  // ---------- Which calls run ----------

  /** Call `index` of a reply is let pass by its hook and must then be approved. */
  ghost predicate Asked(w: World, cfg: Config, round: nat, index: nat, original: ToolCall) {
    exists call :: LeftByHook(w, round, index, original, call) && MustAsk(w, cfg, round, call)
  }

  /** None of the first `n` calls must be approved. */
  ghost predicate NoneAsked(w: World, cfg: Config, round: nat, calls: seq<ToolCall>, n: nat) {
    n <= |calls| && forall j: nat :: j < n ==> !Asked(w, cfg, round, j, calls[j])
  }

  /** Exchange `e` leads to execution `x`: a call of its reply, in the form its hook let pass, with no
      call that must be approved up to it. */
  ghost predicate LeadsTo(w: World, cfg: Config, e: Exchange, x: Execution) {
    && AnsweredWithTools(e) && x.round == e.request.round
    && var calls := e.answer.reply.calls;
    && x.index < |calls| && x.original == calls[x.index] && LeftByHook(w, x.round, x.index, x.original, x.call)
    && NoneAsked(w, cfg, x.round, calls, x.index + 1)
  }

  lemma JudgedIsNotAsked(w: World, cfg: Config, round: nat, index: nat, original: ToolCall, entry: Entry)
    requires Judged(w, cfg, round, index, original, entry)
    ensures !Asked(w, cfg, round, index, original)
  {}

  lemma NoneAskedUpTo(w: World, cfg: Config, round: nat, calls: seq<ToolCall>, entries: seq<Entry>, approval: Option<ToolCall>)
    requires JudgedUpTo(w, cfg, round, calls, entries, approval)
    ensures forall n: nat :: n <= |calls| ==> (NoneAsked(w, cfg, round, calls, n) <==> n <= |entries|)
  {
    forall j: nat | j < |entries| ensures !Asked(w, cfg, round, j, calls[j]) {
      JudgedIsNotAsked(w, cfg, round, j, calls[j], entries[j]);
    }
    assert approval.Some? ==> Asked(w, cfg, round, |entries|, calls[|entries|]);
  }

  ghost predicate PositionsAscend(runnable: seq<(nat, ToolCall)>) {
    forall i, j :: 0 <= i < j < |runnable| ==> runnable[i].0 < runnable[j].0
  }

  lemma OnePosition(runnable: seq<(nat, ToolCall)>, n: nat)
    requires PositionsAscend(runnable) && runnable != [] && forall t :: t in runnable ==> t.0 == n
    ensures |runnable| == 1
  {
    if |runnable| > 1 {
      PositionAt(runnable, 0, n);
      PositionAt(runnable, 1, n);
    }
  }

  lemma PositionAt(runnable: seq<(nat, ToolCall)>, i: nat, n: nat)
    requires i < |runnable| && forall t :: t in runnable ==> t.0 == n
    ensures runnable[i].0 == n
  {
    assert runnable[i] in runnable;
  }

  lemma {:induction false} RunnablesAscend(entries: seq<Entry>, n: nat)
    requires n <= |entries|
    ensures PositionsAscend(RunnablesIn(entries, n))
  {
    if n > 0 {
      RunnablesAscend(entries, n - 1);
      RunnablesMeaning(entries, n - 1);
      var r := RunnablesIn(entries, n - 1);
      assert forall i :: 0 <= i < |r| ==> r[i] in r;
    }
  }

  lemma JudgedRuns(w: World, cfg: Config, e: Exchange, entries: seq<Entry>, approval: Option<ToolCall>, x: Execution)
    requires AnsweredWithTools(e) && JudgedUpTo(w, cfg, e.request.round, e.answer.reply.calls, entries, approval)
    requires x.round == e.request.round
    ensures LeadsTo(w, cfg, e, x) <==>
            x.index < |entries| && x.original == e.answer.reply.calls[x.index] && entries[x.index] == Runnable(x.call)
  {
    var calls := e.answer.reply.calls;
    NoneAskedUpTo(w, cfg, x.round, calls, entries, approval);
    if x.index < |entries| { assert Judged(w, cfg, x.round, x.index, calls[x.index], entries[x.index]); }
  }

  lemma RoundRuns(w: World, cfg: Config, e: Exchange, x: Execution)
    requires AnsweredWithTools(e)
    ensures x in RoundExecutions(w, cfg, e.request.round, e.answer.reply.calls) <==> LeadsTo(w, cfg, e, x)
  {
    var round, calls := e.request.round, e.answer.reply.calls;
    var p := PreflightFrom(w, cfg, round, calls, 0);
    PreflightMeaning(w, cfg, round, calls);
    RunnablesMeaning(p.entries, |p.entries|);
    RunnablesWithin(w, cfg, round, calls);
    var runnable := RunnablesIn(p.entries, |p.entries|);
    var executed := RoundExecutions(w, cfg, round, calls);
    if x.round == round { JudgedRuns(w, cfg, e, p.entries, p.approval, x); }
    if x in executed {
      var k :| 0 <= k < |executed| && executed[k] == x;
      assert runnable[k] in runnable;
    }
    if LeadsTo(w, cfg, e, x) {
      assert (x.index, x.call) in runnable;
      var k :| 0 <= k < |runnable| && runnable[k] == (x.index, x.call);
      assert executed[k] == x;
    }
  }

  /** Executions come in the order of rounds and positions, so none comes twice. */
  ghost predicate Ascending(executions: seq<Execution>) {
    forall i, j :: 0 <= i < j < |executions| ==>
      executions[i].round < executions[j].round
      || (executions[i].round == executions[j].round && executions[i].index < executions[j].index)
  }

  ghost predicate LedTo(w: World, cfg: Config, exchanges: seq<Exchange>, x: Execution) {
    exists e :: e in exchanges && LeadsTo(w, cfg, e, x)
  }

  ghost predicate RunsExactly(w: World, cfg: Config, exchanges: seq<Exchange>, executions: seq<Execution>) {
    Ascending(executions) && forall x :: x in executions <==> LedTo(w, cfg, exchanges, x)
  }

  lemma RoundAscends(w: World, cfg: Config, round: nat, calls: seq<ToolCall>)
    ensures Ascending(RoundExecutions(w, cfg, round, calls))
  {
    var entries := PreflightFrom(w, cfg, round, calls, 0).entries;
    RunnablesWithin(w, cfg, round, calls);
    RunnablesAscend(entries, |entries|);
    var runnable, executed := RunnablesIn(entries, |entries|), RoundExecutions(w, cfg, round, calls);
    forall i, j | 0 <= i < j < |executed| ensures executed[i].round == executed[j].round && executed[i].index < executed[j].index {
      assert executed[i] == ExecutionOf(round, calls, runnable[i]) && executed[j] == ExecutionOf(round, calls, runnable[j]);
      assert runnable[i].0 < runnable[j].0;
    }
  }

  lemma PlayedRunsExactly(w: World, cfg: Config, round: nat, context: seq<Message>)
    ensures var played := PlayRound(w, cfg, round, context);
            && RunsExactly(w, cfg, played.exchanges, played.executions)
            && forall x :: x in played.executions ==> x.round == round
  {
    var played := PlayRound(w, cfg, round, context);
    var asked := AskLlm(w, cfg, round, Nudged(cfg, round, context));
    if played.exchanges != [] {
      var last := asked.exchanges[|asked.exchanges| - 1];
      assert last in played.exchanges && forall e :: e in played.exchanges && AnsweredWithTools(e) ==> e == last;
      if AnsweredWithTools(last) {
        forall x ensures x in played.executions <==> LeadsTo(w, cfg, last, x) { RoundRuns(w, cfg, last, x); }
        RoundAscends(w, cfg, round, last.answer.reply.calls);
      }
    }
  }

  ghost predicate RoundRunsExactly(w: World, cfg: Config, round: nat, played: Round) {
    RunsExactly(w, cfg, played.exchanges, played.executions) && forall x :: x in played.executions ==> x.round == round
  }

  lemma {:induction false} PlayRunsExactly(play: Player, w: World, cfg: Config, limit: nat, round: nat, context: seq<Message>)
    requires forall r: nat, c :: RoundRunsExactly(w, cfg, r, play(r, c))
    ensures var t := PlayFrom(play, limit, round, context);
            && RunsExactly(w, cfg, t.exchanges, t.executions)
            && forall x :: x in t.executions ==> x.round >= round
    decreases limit + 2 - round
  {
    if round <= limit + 1 {
      var played := play(round, context);
      assert RoundRunsExactly(w, cfg, round, played);
      if played.step.Continue? {
        PlayRunsExactly(play, w, cfg, limit, round + 1, played.step.context);
        var rest := PlayFrom(play, limit, round + 1, played.step.context);
        JoinRuns(w, cfg, round, played.exchanges, played.executions, rest.exchanges, rest.executions);
      }
    }
  }

  lemma JoinRuns(w: World, cfg: Config, round: nat, e: seq<Exchange>, x: seq<Execution>, f: seq<Exchange>, y: seq<Execution>)
    requires RunsExactly(w, cfg, e, x) && RunsExactly(w, cfg, f, y)
    requires (forall a :: a in x ==> a.round == round) && (forall a :: a in y ==> a.round > round)
    ensures RunsExactly(w, cfg, e + f, x + y)
  {
    forall a ensures LedTo(w, cfg, e + f, a) <==> LedTo(w, cfg, e, a) || LedTo(w, cfg, f, a) {
    }
    assert forall i :: 0 <= i < |x| ==> x[i] in x;
    assert forall i :: 0 <= i < |y| ==> y[i] in y;
  }

  /** In every run a call is handed to a tool if and only if a reply asks for it, its hook lets it
      pass, and no call of the reply up to it must be approved; each is handed over once. */
  lemma EveryExecutionIff(w: World, cfg: Config, context: seq<Message>)
    ensures var t := Run(w, cfg, context); RunsExactly(w, cfg, t.exchanges, t.executions)
  {
    forall r: nat, c ensures RoundRunsExactly(w, cfg, r, Rounds(w, cfg)(r, c)) { PlayedRunsExactly(w, cfg, r, c); }
    PlayRunsExactly(Rounds(w, cfg), w, cfg, cfg.maxToolIterations, 1, context);
  }

  // ---------- How a run ends ----------

  /** An executed authentication tool says that an extension awaits a token, with this instruction. */
  ghost predicate AsksForToken(w: World, x: Execution, text: string) {
    && (x.call.name == "tool_auth" || x.call.name == "tool_activate")
    && !w.panics(x.round, x.index) && w.run(x.round, x.index, x.call).Ok?
    && var signal := w.parseAuth(w.run(x.round, x.index, x.call).output);
    && signal.Some? && signal.value.awaitingToken && signal.value.name.Some?
    && text == if signal.value.instructions.Some? then signal.value.instructions.value else "Please provide your API token/key."
  }

  ghost predicate NoToken(w: World, x: Execution) { forall text :: !AsksForToken(w, x, text) }

  ghost predicate NoTokens(w: World, ran: set<Execution>) { forall x :: x in ran ==> NoToken(w, x) }

  /** The first of them that asks for a token asks with this instruction. */
  ghost predicate TokenAsked(w: World, ran: set<Execution>, text: string) {
    exists x :: x in ran && AsksForToken(w, x, text) && forall y :: y in ran && y.index < x.index ==> NoToken(w, y)
  }

  /** A lone execution runs inline, and panics. */
  ghost predicate PanicsAlone(w: World, ran: set<Execution>) {
    exists x :: ran == {x} && w.panics(x.round, x.index)
  }

  /** The run waits for the user: the results up to the first call that must be approved are in the
      history, this call is pending in the form its hook left it in, and the ones after it are deferred. */
  ghost predicate Waits(w: World, cfg: Config, e: Exchange, p: PendingApproval) {
    AnsweredWithTools(e) && exists results {:trigger ReportsAll(w, e.request.round, e.answer.reply.calls, results)} ::
      && ReportsAll(w, e.request.round, e.answer.reply.calls, results) && WaitsAfter(w, cfg, e, p, results)
  }

  ghost predicate WaitsAfter(w: World, cfg: Config, e: Exchange, p: PendingApproval, results: seq<Message>)
    requires AnsweredWithTools(e)
  {
    var round, calls, n := e.request.round, e.answer.reply.calls, |results|;
    var pending := ToolCall(p.toolCallId, p.toolName, p.parameters);
    && n < |calls| && NoneAsked(w, cfg, round, calls, n)
    && LeftByHook(w, round, n, calls[n], pending) && MustAsk(w, cfg, round, pending)
    && p.contextMessages == e.request.messages + [Opening(e)] + results && p.deferredToolCalls == calls[n + 1..]
  }

  /** The exchange leads to another round. */
  ghost predicate MovesOn(w: World, cfg: Config, e: Exchange, ran: set<Execution>) {
    && AnsweredWithTools(e) && !PanicsAlone(w, ran) && NoTokens(w, ran)
    && NoneAsked(w, cfg, e.request.round, e.answer.reply.calls, |e.answer.reply.calls|)
  }

  /** The exchange, with what it made run, ends the run in this way. */
  ghost predicate EndsWith(w: World, cfg: Config, e: Exchange, ran: set<Execution>, end: LoopEnd) {
    match end
    case Response(text) => e.answer == Replied(Text(text)) || (AnsweredWithTools(e) && TokenAsked(w, ran, text))
    case NeedApproval(p) => !PanicsAlone(w, ran) && NoTokens(w, ran) && Waits(w, cfg, e, p)
    case Crashed => AnsweredWithTools(e) && PanicsAlone(w, ran)
    case Failed(failure) => !e.answer.Replied? && failure == Llm(e.answer)
  }

  /** A round that ends before it asks: at the ceiling, by the user, or by the cost guard. */
  ghost predicate EndsBefore(w: World, cfg: Config, round: nat, end: LoopEnd) {
    if round > cfg.maxToolIterations + 1 then end == Failed(MaxIterations(cfg.maxToolIterations))
    else if w.interrupted(round) then end == Failed(Interrupted)
    else w.costLimit(round).Some? && end == Failed(CostLimited(w.costLimit(round).value))
  }

  function Ran(executions: seq<Execution>, round: nat): set<Execution> {
    set x | x in executions && x.round == round
  }

  /** By which round a run had been let through by the user and the cost guard. */
  ghost predicate Through(w: World, from: nat, to: nat) {
    forall r: nat :: from <= r <= to ==> !w.interrupted(r) && w.costLimit(r).None?
  }

  ghost predicate EndsAsAnswered(w: World, cfg: Config, round: nat, t: Trace) {
    if t.exchanges == [] then t.executions == [] && EndsBefore(w, cfg, round, t.end)
    else
      var last := t.exchanges[|t.exchanges| - 1];
      var ran := Ran(t.executions, last.request.round);
      && last.request.round >= round && Through(w, round, last.request.round)
      && if MovesOn(w, cfg, last, ran) then EndsBefore(w, cfg, last.request.round + 1, t.end) else EndsWith(w, cfg, last, ran, t.end)
  }

  // Authentication requests of a block, by its entries.

  ghost predicate EntryAsks(w: World, round: nat, entries: seq<Entry>, i: nat, text: string)
    requires i < |entries|
  {
    entries[i].Runnable? && AsksForToken(w, Execution(round, i, entries[i].call, entries[i].call), text)
  }

  lemma CheckAsks(w: World, round: nat, i: nat, call: ToolCall, text: string)
    ensures CheckAuthRequired(w, call.name, RunAlone(w, round, i, call)) == Some(text) <==>
            AsksForToken(w, Execution(round, i, call, call), text)
  {}

  /** The first authentication request found is the first entry's that asks. */
  lemma {:induction false} FirstAuthAsks(w: World, round: nat, entries: seq<Entry>, n: nat) returns (k: nat)
    requires n <= |entries|
    ensures FirstAuth(w, round, entries, n).None? ==> forall i: nat, text :: i < n ==> !EntryAsks(w, round, entries, i, text)
    ensures FirstAuth(w, round, entries, n).Some? ==>
              && k < n && EntryAsks(w, round, entries, k, FirstAuth(w, round, entries, n).value)
              && forall i: nat, text :: i < k ==> !EntryAsks(w, round, entries, i, text)
  {
    k := 0;
    if n > 0 {
      k := FirstAuthAsks(w, round, entries, n - 1);
      if FirstAuth(w, round, entries, n - 1).None? {
        k := n - 1;
        if entries[n - 1].Runnable? {
          forall text
            ensures CheckAuthRequired(w, entries[n - 1].call.name, RunAlone(w, round, n - 1, entries[n - 1].call)) == Some(text) <==>
                    EntryAsks(w, round, entries, n - 1, text)
          {
            CheckAsks(w, round, n - 1, entries[n - 1].call, text);
          }
        }
      }
    }
  }

  /** What ran is what the entries say. */
  ghost predicate RanEntries(round: nat, entries: seq<Entry>, ran: set<Execution>) {
    && (forall x :: x in ran ==> x.round == round && x.index < |entries| && entries[x.index] == Runnable(x.call))
    && (forall x, y :: x in ran && y in ran && x.index == y.index ==> x == y)
    && (forall i: nat :: i < |entries| && entries[i].Runnable? ==> exists x :: x in ran && x.index == i)
  }

  lemma TokenOfEntries(w: World, round: nat, entries: seq<Entry>, ran: set<Execution>)
    requires RanEntries(round, entries, ran)
    ensures var auth := FirstAuth(w, round, entries, |entries|);
            && (auth.None? ==> NoTokens(w, ran)) && (auth.Some? ==> TokenAsked(w, ran, auth.value))
  {
    var auth := FirstAuth(w, round, entries, |entries|);
    var k := FirstAuthAsks(w, round, entries, |entries|);
    forall x, text | x in ran ensures AsksForToken(w, x, text) <==> EntryAsks(w, round, entries, x.index, text) {
    }
    if auth.Some? {
      var x :| x in ran && x.index == k;
      assert AsksForToken(w, x, auth.value);
    }
  }

  lemma CrashOfEntries(w: World, round: nat, entries: seq<Entry>, ran: set<Execution>)
    requires RanEntries(round, entries, ran)
    ensures Crashes(w, round, entries) <==> PanicsAlone(w, ran)
  {
    var r := RunnablesIn(entries, |entries|);
    RunnablesMeaning(entries, |entries|);
    RunnablesAscend(entries, |entries|);
    if Crashes(w, round, entries) {
      assert r[0] in r;
      var x :| x in ran && x.index == r[0].0;
      forall y | y in ran ensures y == x { assert (y.index, y.call) in r; }
      assert ran == {x};
    }
    if PanicsAlone(w, ran) {
      var x :| ran == {x} && w.panics(x.round, x.index);
      assert (x.index, x.call) in r;
      forall t | t in r ensures t.0 == x.index {
        var y :| y in ran && y.index == t.0;
      }
      OnePosition(r, x.index);
    }
  }

  lemma RanOfRound(w: World, cfg: Config, e: Exchange)
    requires AnsweredWithTools(e)
    ensures var round, calls := e.request.round, e.answer.reply.calls;
            RanEntries(round, PreflightFrom(w, cfg, round, calls, 0).entries, Ran(RoundExecutions(w, cfg, round, calls), round))
  {
    var round, calls := e.request.round, e.answer.reply.calls;
    var p := PreflightFrom(w, cfg, round, calls, 0);
    var ran := Ran(RoundExecutions(w, cfg, round, calls), round);
    PreflightMeaning(w, cfg, round, calls);
    forall x ensures x in ran <==> x.round == round && x.index < |p.entries| && x.original == calls[x.index] && p.entries[x.index] == Runnable(x.call) {
      RoundRuns(w, cfg, e, x);
      if x.round == round { JudgedRuns(w, cfg, e, p.entries, p.approval, x); }
    }
    forall i: nat | i < |p.entries| && p.entries[i].Runnable? ensures exists x :: x in ran && x.index == i {
      assert Execution(round, i, calls[i], p.entries[i].call) in ran;
    }
  }

  lemma EndsDoNotMoveOn(w: World, cfg: Config, e: Exchange, ran: set<Execution>, end: LoopEnd)
    requires EndsWith(w, cfg, e, ran, end)
    ensures !MovesOn(w, cfg, e, ran)
  {
    if end.NeedApproval? && AnsweredWithTools(e) {
      var results :| ReportsAll(w, e.request.round, e.answer.reply.calls, results) && WaitsAfter(w, cfg, e, end.pending, results);
      assert Asked(w, cfg, e.request.round, |results|, e.answer.reply.calls[|results|]);
    }
  }

  /** How a block of calls ends, by what ran and what must be approved. */
  lemma BlockEnds(w: World, cfg: Config, e: Exchange)
    requires AnsweredWithTools(e)
    ensures var round, calls := e.request.round, e.answer.reply.calls;
            var ran := Ran(RoundExecutions(w, cfg, round, calls), round);
            match RunTools(w, cfg, round, e.request.messages, calls, e.answer.reply.content)
            case Continue(_) => MovesOn(w, cfg, e, ran)
            case Stop(end) => EndsWith(w, cfg, e, ran, end)
  {
    var round, calls := e.request.round, e.answer.reply.calls;
    var p := PreflightFrom(w, cfg, round, calls, 0);
    var ran := Ran(RoundExecutions(w, cfg, round, calls), round);
    RanOfRound(w, cfg, e);
    TokenOfEntries(w, round, p.entries, ran);
    CrashOfEntries(w, round, p.entries, ran);
    PreflightMeaning(w, cfg, round, calls);
    NoneAskedUpTo(w, cfg, round, calls, p.entries, p.approval);
    if p.approval.Some? { StopWaits(w, cfg, e); }
  }

  lemma StopWaits(w: World, cfg: Config, e: Exchange)
    requires AnsweredWithTools(e) && PreflightFrom(w, cfg, e.request.round, e.answer.reply.calls, 0).approval.Some?
    ensures var round, calls := e.request.round, e.answer.reply.calls;
            var pre := PreflightFrom(w, cfg, round, calls, 0);
            var tc := pre.approval.value;
            var closed := e.request.messages + [Assistant(GetOrEmpty(e.answer.reply.content), calls)] + Results(w, round, pre.entries, |pre.entries|);
            Waits(w, cfg, e, PendingApproval(tc.name, tc.arguments, tc.id, closed, After(calls, pre)))
  {
    var round, calls := e.request.round, e.answer.reply.calls;
    var pre := PreflightFrom(w, cfg, round, calls, 0);
    PreflightMeaning(w, cfg, round, calls);
    NoneAskedUpTo(w, cfg, round, calls, pre.entries, pre.approval);
    EntriesReported(w, cfg, round, calls, pre.entries, pre.approval);
    var tc := pre.approval.value;
    var results := Results(w, round, pre.entries, |pre.entries|);
    assert ToolCall(tc.id, tc.name, tc.arguments) == tc;
    assert Opening(e) == Assistant(GetOrEmpty(e.answer.reply.content), calls);
    var closed := e.request.messages + [Opening(e)] + results;
    assert WaitsAfter(w, cfg, e, PendingApproval(tc.name, tc.arguments, tc.id, closed, After(calls, pre)), results);
  }

  /** One round: it ends before it asks, or its last exchange decides. */
  ghost predicate RoundEnds(w: World, cfg: Config, round: nat, played: Round) {
    if played.exchanges == [] then
      && played.executions == [] && played.step.Stop?
      && (round <= cfg.maxToolIterations + 1 ==> EndsBefore(w, cfg, round, played.step.end))
    else
      var last := played.exchanges[|played.exchanges| - 1];
      var ran := Ran(played.executions, round);
      && last.request.round == round && Through(w, round, round) && (forall x :: x in played.executions ==> x.round == round)
      && match played.step
         case Continue(_) => MovesOn(w, cfg, last, ran)
         case Stop(end) => EndsWith(w, cfg, last, ran, end)
  }

  lemma PlayedEnds(w: World, cfg: Config, round: nat, context: seq<Message>)
    ensures RoundEnds(w, cfg, round, PlayRound(w, cfg, round, context))
  {
    var played := PlayRound(w, cfg, round, context);
    if played.exchanges != [] {
      var asked := AskLlm(w, cfg, round, Nudged(cfg, round, context));
      var last := asked.exchanges[|asked.exchanges| - 1];
      assert last.answer == asked.answer && last.request.messages == asked.context && last.request.round == round;
      PlayedRunsExactly(w, cfg, round, context);
      if AnsweredWithTools(last) { BlockEnds(w, cfg, last); }
    }
  }

  lemma RanLater(x: seq<Execution>, y: seq<Execution>, round: nat, later: nat)
    requires forall a :: a in x ==> a.round == round
    ensures later > round ==> Ran(x + y, later) == Ran(y, later)
    ensures y == [] ==> Ran(x + y, round) == Ran(x, round)
  {
    if y == [] { assert x + y == x; }
  }

  lemma {:induction false} PlayEnds(play: Player, w: World, cfg: Config, round: nat, context: seq<Message>)
    requires forall r: nat, c :: RoundEnds(w, cfg, r, play(r, c))
    ensures EndsAsAnswered(w, cfg, round, PlayFrom(play, cfg.maxToolIterations, round, context))
    decreases cfg.maxToolIterations + 2 - round
  {
    if round <= cfg.maxToolIterations + 1 {
      var played := play(round, context);
      assert RoundEnds(w, cfg, round, played);
      if played.step.Continue? {
        PlayEnds(play, w, cfg, round + 1, played.step.context);
        JoinEnds(w, cfg, round, played, PlayFrom(play, cfg.maxToolIterations, round + 1, played.step.context));
      } else if played.exchanges != [] {
        EndsDoNotMoveOn(w, cfg, played.exchanges[|played.exchanges| - 1], Ran(played.executions, round), played.step.end);
      }
    }
  }

  lemma JoinEnds(w: World, cfg: Config, round: nat, played: Round, rest: Trace)
    requires RoundEnds(w, cfg, round, played) && played.step.Continue? && EndsAsAnswered(w, cfg, round + 1, rest)
    ensures EndsAsAnswered(w, cfg, round, Trace(rest.end, played.exchanges + rest.exchanges, played.executions + rest.executions))
  {
    if rest.exchanges == [] {
      RanLater(played.executions, rest.executions, round, round);
    } else {
      var last := rest.exchanges[|rest.exchanges| - 1];
      RanLater(played.executions, rest.executions, round, last.request.round);
    }
  }

  /** Every run ends as its last exchange says, exactly: with the text of the LLM, with the first
      request for a token, waiting for the first call that must be approved, in the panic of a lone
      call, or with the LLM's error. If the last exchange leads on, or there is none, the next round
      ends before it asks, and no earlier round was interrupted or over the cost limit. */
  lemma EveryRunEndsAsAnswered(w: World, cfg: Config, context: seq<Message>)
    ensures EndsAsAnswered(w, cfg, 1, Run(w, cfg, context))
  {
    forall r: nat, c ensures RoundEnds(w, cfg, r, Rounds(w, cfg)(r, c)) { PlayedEnds(w, cfg, r, c); }
    PlayEnds(Rounds(w, cfg), w, cfg, 1, context);
  }
}

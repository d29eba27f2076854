/**
 Resumptions told from outside: which deferred calls run and how a resumption ends, by the tools and
 their requirements alone.
 */
module ApprovalRuns {
  import opened Basics
  import opened ChatProtocol
  import opened Dispatcher
  import opened DispatcherProperties
  import opened DispatcherRuns
  import opened ApprovalResume

  /** The message answers the call with the result of running it as the LLM wrote it. */
  ghost predicate Tells(w: World, index: nat, call: ToolCall, m: Message) {
    m.Tool? && m.callId == call.id && m.name == call.name && TellsResult(w, 0, index, call, m.content)
  }

  ghost predicate TellsAll(w: World, calls: seq<ToolCall>, results: seq<Message>) {
    |results| <= |calls| && forall k :: 0 <= k < |results| ==> Tells(w, k, calls[k], results[k])
  }

  /** None of the first `n` deferred calls must be approved. */
  ghost predicate NoneAsks(w: World, calls: seq<ToolCall>, n: nat) {
    n <= |calls| && forall j :: 0 <= j < n ==> !AsksUser(w, 0, calls[j])
  }

  /** The entries are the deferred calls up to the first that must be approved. */
  ghost predicate Replaying(w: World, calls: seq<ToolCall>, entries: seq<Entry>, approval: Option<ToolCall>) {
    && NoneAsks(w, calls, |entries|) && (forall k :: 0 <= k < |entries| ==> entries[k] == Runnable(calls[k]))
    && (approval.None? <==> |entries| == |calls|)
    && (approval.Some? ==> approval.value == calls[|entries|] && AsksUser(w, 0, approval.value))
  }

  lemma ReplayMeaning(w: World, calls: seq<ToolCall>)
    ensures var p := ReplayFrom(w, calls, 0); Replaying(w, calls, p.entries, p.approval)
  {
    ReplayStopsAtFirstAsk(w, calls, 0);
  }

  lemma ReplayTold(w: World, calls: seq<ToolCall>, entries: seq<Entry>, approval: Option<ToolCall>)
    requires Replaying(w, calls, entries, approval)
    ensures TellsAll(w, calls, Results(w, 0, entries, |entries|))
  {
    forall k | 0 <= k < |entries| ensures Tells(w, k, calls[k], ResultMessage(w, 0, entries, k)) {
      ShownTells(w, 0, k, calls[k]);
    }
  }

  // ---------- Which deferred calls run ----------

  /** A deferred call runs when none up to it must be approved. */
  ghost predicate ReplayLeadsTo(w: World, calls: seq<ToolCall>, x: Execution) {
    x.round == 0 && x.index < |calls| && x.original == calls[x.index] && x.call == x.original && NoneAsks(w, calls, x.index + 1)
  }

  /** The approved call runs and neither panics nor asks for a token. */
  ghost predicate GoesThrough(w: World, p: PendingApproval) {
    !w.panics(0, |p.deferredToolCalls|) && NoToken(w, ApprovedExecution(p))
  }

  lemma ReplaysMeaning(w: World, p: PendingApproval)
    ensures Replays(w, p) <==> GoesThrough(w, p)
  {
    var n := |p.deferredToolCalls|;
    forall text
      ensures CheckAuthRequired(w, p.toolName, RunAlone(w, 0, n, ApprovedCall(p))) == Some(text) <==> AsksForToken(w, ApprovedExecution(p), text)
    {
      CheckAsks(w, 0, n, ApprovedCall(p), text);
    }
  }

  /** A resumption hands to tools the approved call first, and then, if it goes through, exactly the
      deferred calls up to the first that must be approved. */
  lemma ReplayedIff(w: World, p: PendingApproval, x: Execution)
    ensures x in ReplayExecutions(w, p) <==> GoesThrough(w, p) && ReplayLeadsTo(w, p.deferredToolCalls, x)
    ensures ResumeExecutions(w, p) == [ApprovedExecution(p)] + ReplayExecutions(w, p)
  {
    var calls := p.deferredToolCalls;
    var q := ReplayFrom(w, calls, 0);
    ReplaysMeaning(w, p);
    ReplayMeaning(w, calls);
    RunnablesMeaning(q.entries, |q.entries|);
    ReplayWithin(w, calls);
    var runnable, executed := RunnablesIn(q.entries, |q.entries|), ReplayExecutions(w, p);
    if x in executed {
      var k :| 0 <= k < |executed| && executed[k] == x;
      assert runnable[k] in runnable;
    }
    if GoesThrough(w, p) && ReplayLeadsTo(w, calls, x) { ReplayedRuns(w, p, x); }
  }

  lemma ReplayedRuns(w: World, p: PendingApproval, x: Execution)
    requires Replays(w, p) && ReplayLeadsTo(w, p.deferredToolCalls, x)
    ensures x in ReplayExecutions(w, p)
  {
    var calls := p.deferredToolCalls;
    var q := ReplayFrom(w, calls, 0);
    ReplayMeaning(w, calls);
    RunnablesMeaning(q.entries, |q.entries|);
    var runnable := RunnablesIn(q.entries, |q.entries|);
    assert (x.index, x.call) in runnable;
    var k :| 0 <= k < |runnable| && runnable[k] == (x.index, x.call);
    assert ReplayExecutions(w, p)[k] == x;
  }

  // ---------- How a resumption ends ----------

  /** The history with the approved call and these results of deferred calls. */
  ghost predicate Paid(w: World, p: PendingApproval, results: seq<Message>, context: seq<Message>) {
    TellsAll(w, p.deferredToolCalls, results) && exists paid ::
      Tells(w, |p.deferredToolCalls|, ApprovedCall(p), paid) && context == p.contextMessages + [paid] + results
  }

  ghost predicate ResumesAs(w: World, p: PendingApproval, step: Step) {
    var calls, ran := p.deferredToolCalls, Ran(ReplayExecutions(w, p), 0);
    match step
    case Continue(context) =>
      && GoesThrough(w, p) && !PanicsAlone(w, ran) && NoTokens(w, ran) && NoneAsks(w, calls, |calls|)
      && exists results {:trigger Paid(w, p, results, context)} :: |results| == |calls| && Paid(w, p, results, context)
    case Stop(end) =>
      match end
      case Response(text) => AsksForToken(w, ApprovedExecution(p), text) || (GoesThrough(w, p) && TokenAsked(w, ran, text))
      case Crashed => w.panics(0, |calls|) || (GoesThrough(w, p) && PanicsAlone(w, ran))
      case NeedApproval(q) =>
        && GoesThrough(w, p) && !PanicsAlone(w, ran) && NoTokens(w, ran)
        && exists results {:trigger Paid(w, p, results, q.contextMessages)} ::
             && |results| < |calls| && NoneAsks(w, calls, |results|) && AsksUser(w, 0, calls[|results|])
             && ApprovedCall(q) == calls[|results|] && q.deferredToolCalls == calls[|results| + 1..]
             && Paid(w, p, results, q.contextMessages)
      case Failed(_) => false
  }

  lemma RanOfReplay(w: World, p: PendingApproval)
    requires GoesThrough(w, p)
    ensures RanEntries(0, ReplayFrom(w, p.deferredToolCalls, 0).entries, Ran(ReplayExecutions(w, p), 0))
  {
    var calls := p.deferredToolCalls;
    var q := ReplayFrom(w, calls, 0);
    var ran := Ran(ReplayExecutions(w, p), 0);
    ReplayMeaning(w, calls);
    forall x ensures x in ran <==> x.round == 0 && x.index < |q.entries| && x == Execution(0, x.index, calls[x.index], calls[x.index]) {
      ReplayedIff(w, p, x);
    }
    forall i: nat | i < |q.entries| && q.entries[i].Runnable? ensures exists x :: x in ran && x.index == i {
      assert Execution(0, i, calls[i], calls[i]) in ran;
    }
  }

  /** Every resumption ends as the approved call and the replayed ones say, exactly. */
  lemma EveryResumptionEndsAsAnswered(w: World, p: PendingApproval)
    ensures ResumesAs(w, p, Resume(w, p))
  {
    var n := |p.deferredToolCalls|;
    ReplaysMeaning(w, p);
    if GoesThrough(w, p) {
      var paid := Tool(p.toolCallId, p.toolName, Shown(w, p.toolName, w.run(0, n, ApprovedCall(p))));
      ShownTells(w, 0, n, ApprovedCall(p));
      ReplayEnds(w, p, paid);
    } else if !w.panics(0, n) {
      var text := CheckAuthRequired(w, p.toolName, w.run(0, n, ApprovedCall(p))).value;
      CheckAsks(w, 0, n, ApprovedCall(p), text);
    }
  }

  lemma ReplayEnds(w: World, p: PendingApproval, paid: Message)
    requires GoesThrough(w, p) && Tells(w, |p.deferredToolCalls|, ApprovedCall(p), paid)
    ensures ResumesAs(w, p, Replay(w, p, p.contextMessages + [paid]))
  {
    var calls := p.deferredToolCalls;
    var q := ReplayFrom(w, calls, 0);
    var results := Results(w, 0, q.entries, |q.entries|);
    ReplayMeaning(w, calls);
    ReplayTold(w, calls, q.entries, q.approval);
    RanOfReplay(w, p);
    TokenOfEntries(w, 0, q.entries, Ran(ReplayExecutions(w, p), 0));
    CrashOfEntries(w, 0, q.entries, Ran(ReplayExecutions(w, p), 0));
    assert Paid(w, p, results, p.contextMessages + [paid] + results);
    if q.approval.Some? { assert ToolCall(q.approval.value.id, q.approval.value.name, q.approval.value.arguments) == calls[|results|]; }
  }

  // ---------- A turn, part by part ----------

  /** A part of a turn: a loop, or a resumption of the pending call of the part before. */
  datatype Part = Loop(w: World, context: seq<Message>) | Resumption(w: World, pending: PendingApproval, asked: Option<World>)

  function Outcome(part: Part, cfg: Config): Step {
    match part
    case Loop(w, context) => Stop(Run(w, cfg, context).end)
    case Resumption(w, p, _) => Resume(w, p)
  }

  /** A resumption that goes through leads to a loop on the paid history, in its world; an approval
      stop leads to a resumption of its pending call, in another. */
  ghost predicate Leads(part: Part, cfg: Config, next: Part) {
    match Outcome(part, cfg)
    case Continue(context) => next == Loop(part.w, context)
    case Stop(end) =>
      end.NeedApproval? && next.Resumption? && next.pending == end.pending && next.asked == if part.Loop? then Some(part.w) else None
  }

  ghost predicate Chained(parts: seq<Part>, cfg: Config) {
    forall i, j :: 0 <= i && j == i + 1 < |parts| ==> Leads(parts[i], cfg, parts[j])
  }

  function ExchangesOfPart(part: Part, cfg: Config): seq<Exchange> {
    if part.Loop? then Run(part.w, cfg, part.context).exchanges else []
  }

  function ActsOfPart(part: Part, cfg: Config): seq<Act> {
    match part
    case Loop(w, context) => Acts(w, InLoop, Run(w, cfg, context).executions)
    case Resumption(w, p, asked) => ResumeActs(w, p, asked)
  }

  function ExchangesIn(parts: seq<Part>, cfg: Config): seq<Exchange> {
    if parts == [] then [] else ExchangesOfPart(parts[0], cfg) + ExchangesIn(parts[1..], cfg)
  }

  function ActsIn(parts: seq<Part>, cfg: Config): seq<Act> {
    if parts == [] then [] else ActsOfPart(parts[0], cfg) + ActsIn(parts[1..], cfg)
  }

  /** The worlds of the resumptions. */
  function WorldsIn(parts: seq<Part>): seq<World> {
    if parts == [] then [] else (if parts[0].Resumption? then [parts[0].w] else []) + WorldsIn(parts[1..])
  }

  /** The turn is these parts one after the other: their exchanges, their acts, the end of the last,
      and it waits for approval only when there is no world left. */
  ghost predicate IsChain(parts: seq<Part>, cfg: Config, worlds: seq<World>, used: seq<World>, t: TurnTrace) {
    && parts != [] && Chained(parts, cfg) && used <= worlds
    && t.exchanges == ExchangesIn(parts, cfg) && t.acts == ActsIn(parts, cfg)
    && Outcome(parts[|parts| - 1], cfg) == Stop(t.end) && (t.end.NeedApproval? ==> used == worlds)
  }

  lemma OnePart(part: Part, cfg: Config, worlds: seq<World>, used: seq<World>, t: TurnTrace)
    requires Outcome(part, cfg) == Stop(t.end) && used <= worlds && (t.end.NeedApproval? ==> used == worlds)
    requires t.exchanges == ExchangesOfPart(part, cfg) && t.acts == ActsOfPart(part, cfg)
    ensures IsChain([part], cfg, worlds, used, t)
  {
    assert [part][1..] == [];
  }

  lemma AddPart(
    part: Part, cfg: Config, parts: seq<Part>, worlds: seq<World>, used: seq<World>, later: TurnTrace,
    allWorlds: seq<World>, allUsed: seq<World>, t: TurnTrace)
    requires IsChain(parts, cfg, worlds, used, later) && Leads(part, cfg, parts[0])
    requires t == Joint(ExchangesOfPart(part, cfg), ActsOfPart(part, cfg), later)
    requires allUsed <= allWorlds && (used == worlds ==> allUsed == allWorlds)
    ensures IsChain([part] + parts, cfg, allWorlds, allUsed, t)
  {
    MorePart(part, cfg, parts);
  }

  lemma WorldsOfMore(part: Part, parts: seq<Part>)
    ensures WorldsIn([part] + parts) == if part.Resumption? then [part.w] + WorldsIn(parts) else WorldsIn(parts)
    ensures WorldsIn([part]) == if part.Resumption? then [part.w] else []
  {
    assert ([part] + parts)[1..] == parts && [part][1..] == [];
    assert [] + WorldsIn(parts) == WorldsIn(parts);
  }

  lemma FrontWorld(worlds: seq<World>, used: seq<World>)
    requires worlds != [] && used <= worlds[1..]
    ensures [worlds[0]] + used <= worlds && (used == worlds[1..] ==> [worlds[0]] + used == worlds)
  {
    var all := [worlds[0]] + used;
    assert used == worlds[1..][..|used|];
    assert all == worlds[..|all|];
  }

  lemma MorePart(part: Part, cfg: Config, parts: seq<Part>)
    requires parts != [] && Chained(parts, cfg) && Leads(part, cfg, parts[0])
    ensures Chained([part] + parts, cfg) && ([part] + parts)[1..] == parts
  {
    forall i, j | 0 <= i && j == i + 1 < |[part] + parts| ensures Leads(([part] + parts)[i], cfg, ([part] + parts)[j]) {
      if i > 0 { assert Leads(parts[i - 1], cfg, parts[j - 1]); }
    }
  }

  lemma TurnGoesOn(worlds: seq<World>, cfg: Config, context: seq<Message>, p: PendingApproval)
    requires |worlds| > 1 && Run(worlds[0], cfg, context).end == NeedApproval(p)
    ensures var part := Loop(worlds[0], context);
            && Turn(worlds, cfg, context) == Joint(ExchangesOfPart(part, cfg), ActsOfPart(part, cfg), Approved(worlds[1..], cfg, p, Some(worlds[0])))
            && Leads(part, cfg, Resumption(worlds[1], p, Some(worlds[0])))
  {}

  lemma TurnStops(worlds: seq<World>, cfg: Config, context: seq<Message>)
    requires worlds != [] && (Run(worlds[0], cfg, context).end.NeedApproval? ==> |worlds| == 1)
    ensures var part, t := Loop(worlds[0], context), Turn(worlds, cfg, context);
            Outcome(part, cfg) == Stop(t.end) && t.exchanges == ExchangesOfPart(part, cfg) && t.acts == ActsOfPart(part, cfg)
  {}

  lemma ApprovalLoops(worlds: seq<World>, cfg: Config, p: PendingApproval, asked: Option<World>, context: seq<Message>)
    requires worlds != [] && Resume(worlds[0], p) == Continue(context)
    ensures var part := Resumption(worlds[0], p, asked);
            && Approved(worlds, cfg, p, asked) == Joint(ExchangesOfPart(part, cfg), ActsOfPart(part, cfg), Turn(worlds, cfg, context))
            && Leads(part, cfg, Loop(worlds[0], context))
  {}

  lemma ApprovalGoesOn(worlds: seq<World>, cfg: Config, p: PendingApproval, asked: Option<World>, q: PendingApproval)
    requires |worlds| > 1 && Resume(worlds[0], p) == Stop(NeedApproval(q))
    ensures var part := Resumption(worlds[0], p, asked);
            && Approved(worlds, cfg, p, asked) == Joint(ExchangesOfPart(part, cfg), ActsOfPart(part, cfg), Approved(worlds[1..], cfg, q, None))
            && Leads(part, cfg, Resumption(worlds[1], q, None))
  {}

  lemma ApprovalStops(worlds: seq<World>, cfg: Config, p: PendingApproval, asked: Option<World>, end: LoopEnd)
    requires worlds != [] && Resume(worlds[0], p) == Stop(end) && (end.NeedApproval? ==> |worlds| == 1)
    ensures var part, t := Resumption(worlds[0], p, asked), Approved(worlds, cfg, p, asked);
            && Outcome(part, cfg) == Stop(t.end) && t.end == end
            && t.exchanges == ExchangesOfPart(part, cfg) && t.acts == ActsOfPart(part, cfg)
  {}

  lemma WaitingLoop(worlds: seq<World>, cfg: Config, context: seq<Message>, p: PendingApproval, rest: seq<Part>)
    requires |worlds| > 1 && Run(worlds[0], cfg, context).end == NeedApproval(p)
    requires IsChain(rest, cfg, worlds[1..], WorldsIn(rest), Approved(worlds[1..], cfg, p, Some(worlds[0])))
    requires rest[0] == Resumption(worlds[1], p, Some(worlds[0]))
    ensures var parts := [Loop(worlds[0], context)] + rest;
            IsChain(parts, cfg, worlds, [worlds[0]] + WorldsIn(parts), Turn(worlds, cfg, context))
  {
    TurnGoesOn(worlds, cfg, context, p);
    AddLoop(Loop(worlds[0], context), cfg, rest, worlds, Approved(worlds[1..], cfg, p, Some(worlds[0])), Turn(worlds, cfg, context));
  }

  lemma AddLoop(part: Part, cfg: Config, rest: seq<Part>, worlds: seq<World>, later: TurnTrace, t: TurnTrace)
    requires part.Loop? && worlds != [] && IsChain(rest, cfg, worlds[1..], WorldsIn(rest), later) && Leads(part, cfg, rest[0])
    requires t == Joint(ExchangesOfPart(part, cfg), ActsOfPart(part, cfg), later)
    ensures IsChain([part] + rest, cfg, worlds, [worlds[0]] + WorldsIn([part] + rest), t)
  {
    WorldsOfMore(part, rest);
    FrontWorld(worlds, WorldsIn(rest));
    AddPart(part, cfg, rest, worlds[1..], WorldsIn(rest), later, worlds, [worlds[0]] + WorldsIn(rest), t);
  }

  lemma LastLoop(worlds: seq<World>, cfg: Config, context: seq<Message>)
    requires worlds != [] && (Run(worlds[0], cfg, context).end.NeedApproval? ==> |worlds| == 1)
    ensures var parts := [Loop(worlds[0], context)];
            IsChain(parts, cfg, worlds, [worlds[0]] + WorldsIn(parts), Turn(worlds, cfg, context))
  {
    TurnStops(worlds, cfg, context);
    WorldsOfMore(Loop(worlds[0], context), []);
    OnePart(Loop(worlds[0], context), cfg, worlds, [worlds[0]], Turn(worlds, cfg, context));
  }

  lemma LoopingResumption(worlds: seq<World>, cfg: Config, p: PendingApproval, asked: Option<World>, context: seq<Message>, rest: seq<Part>)
    requires worlds != [] && Resume(worlds[0], p) == Continue(context)
    requires IsChain(rest, cfg, worlds, [worlds[0]] + WorldsIn(rest), Turn(worlds, cfg, context)) && rest[0] == Loop(worlds[0], context)
    ensures var parts := [Resumption(worlds[0], p, asked)] + rest;
            IsChain(parts, cfg, worlds, WorldsIn(parts), Approved(worlds, cfg, p, asked))
  {
    var part, used := Resumption(worlds[0], p, asked), [worlds[0]] + WorldsIn(rest);
    ApprovalLoops(worlds, cfg, p, asked, context);
    WorldsOfMore(part, rest);
    AddPart(part, cfg, rest, worlds, used, Turn(worlds, cfg, context), worlds, used, Approved(worlds, cfg, p, asked));
  }

  lemma WaitingResumption(worlds: seq<World>, cfg: Config, p: PendingApproval, asked: Option<World>, q: PendingApproval, rest: seq<Part>)
    requires |worlds| > 1 && Resume(worlds[0], p) == Stop(NeedApproval(q))
    requires IsChain(rest, cfg, worlds[1..], WorldsIn(rest), Approved(worlds[1..], cfg, q, None))
    requires rest[0] == Resumption(worlds[1], q, None)
    ensures var parts := [Resumption(worlds[0], p, asked)] + rest;
            IsChain(parts, cfg, worlds, WorldsIn(parts), Approved(worlds, cfg, p, asked))
  {
    var part := Resumption(worlds[0], p, asked);
    ApprovalGoesOn(worlds, cfg, p, asked, q);
    WorldsOfMore(part, rest);
    FrontWorld(worlds, WorldsIn(rest));
    AddPart(
      part, cfg, rest, worlds[1..], WorldsIn(rest), Approved(worlds[1..], cfg, q, None),
      worlds, [worlds[0]] + WorldsIn(rest), Approved(worlds, cfg, p, asked));
  }

  lemma LastResumption(worlds: seq<World>, cfg: Config, p: PendingApproval, asked: Option<World>, end: LoopEnd)
    requires worlds != [] && Resume(worlds[0], p) == Stop(end) && (end.NeedApproval? ==> |worlds| == 1)
    ensures var parts := [Resumption(worlds[0], p, asked)];
            IsChain(parts, cfg, worlds, WorldsIn(parts), Approved(worlds, cfg, p, asked))
  {
    ApprovalStops(worlds, cfg, p, asked, end);
    WorldsOfMore(Resumption(worlds[0], p, asked), []);
    OnePart(Resumption(worlds[0], p, asked), cfg, worlds, [worlds[0]], Approved(worlds, cfg, p, asked));
  }

  /** Every turn is a chain: the first loop, and then for every approval its resumption and, if that
      goes through, the loop on the paid history. */
  lemma {:induction false} EveryTurnIsAChain(worlds: seq<World>, cfg: Config, context: seq<Message>) returns (parts: seq<Part>)
    requires worlds != []
    ensures IsChain(parts, cfg, worlds, [worlds[0]] + WorldsIn(parts), Turn(worlds, cfg, context))
    ensures parts[0] == Loop(worlds[0], context)
    decreases |worlds|, 0
  {
    var end := Run(worlds[0], cfg, context).end;
    if end.NeedApproval? && |worlds| > 1 {
      var rest := EveryApprovalIsAChain(worlds[1..], cfg, end.pending, Some(worlds[0]));
      WaitingLoop(worlds, cfg, context, end.pending, rest);
      parts := [Loop(worlds[0], context)] + rest;
    } else {
      LastLoop(worlds, cfg, context);
      parts := [Loop(worlds[0], context)];
    }
  }

  lemma {:induction false} EveryApprovalIsAChain(worlds: seq<World>, cfg: Config, p: PendingApproval, asked: Option<World>)
    returns (parts: seq<Part>)
    requires worlds != []
    ensures IsChain(parts, cfg, worlds, WorldsIn(parts), Approved(worlds, cfg, p, asked))
    ensures parts[0] == Resumption(worlds[0], p, asked)
    decreases |worlds|, 1
  {
    var step := Resume(worlds[0], p);
    if step.Continue? {
      var rest := EveryTurnIsAChain(worlds, cfg, step.context);
      LoopingResumption(worlds, cfg, p, asked, step.context, rest);
      parts := [Resumption(worlds[0], p, asked)] + rest;
    } else if step.end.NeedApproval? && |worlds| > 1 {
      var rest := EveryApprovalIsAChain(worlds[1..], cfg, step.end.pending, None);
      WaitingResumption(worlds, cfg, p, asked, step.end.pending, rest);
      parts := [Resumption(worlds[0], p, asked)] + rest;
    } else {
      LastResumption(worlds, cfg, p, asked, step.end);
      parts := [Resumption(worlds[0], p, asked)];
    }
  }
}

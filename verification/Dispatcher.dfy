/**
 The agentic loop: ask the LLM, check its tool calls in order, run the cleared ones in
 parallel, write the results back in the original order, repeat (src/agent/dispatcher.rs).

 The LLM, hooks, tools, approval rules and the user's interruption are a `World` of arbitrary
 functions indexed by round, so a statement about every world is one about every behaviour.
 */
module Dispatcher {
  import opened Basics
  import opened ChatProtocol

  const NUDGE: string :=
    "You are approaching the tool call limit. Provide your best final answer on the next response using the information you have gathered so far. Do not call any more tools."

  datatype HookOutcome = HookRejected(reason: string) | HookFailed(error: string) | HookContinue(modified: Option<string>)

  datatype Requirement = Never | UnlessAutoApproved | Always

  /** The result of running a tool; an error is its display text. */
  datatype ToolResult = Ok(output: string) | Err(error: string)

  /** The fields of a tool's JSON output that signal a pending authentication. */
  datatype AuthPayload = AuthPayload(awaitingToken: bool, name: Option<string>, instructions: Option<string>)

  datatype Reply = Text(text: string) | ToolCalls(calls: seq<ToolCall>, content: Option<string>)

  datatype Answer = Replied(reply: Reply) | ContextLengthExceeded | LlmFailed(error: string)

  datatype Request = Request(round: nat, retry: bool, forceText: bool, tools: seq<string>, messages: seq<Message>)

  datatype Exchange = Exchange(request: Request, answer: Answer)

  /** A call handed to its tool: the LLM's call at position `index` and its final form. */
  datatype Execution = Execution(round: nat, index: nat, original: ToolCall, call: ToolCall)

  datatype Config = Config(maxToolIterations: nat, autoApproveTools: bool)

  datatype World = World(
    llm: Request -> Answer,
    tools: nat -> seq<string>,
    interrupted: nat -> bool,
    costLimit: nat -> Option<string>,
    hook: (nat, nat, ToolCall) -> HookOutcome,
    parseArguments: string -> Option<string>,
    requirement: (nat, string, string) -> Option<Requirement>,  // None: no such tool
    autoApproved: (nat, string) -> bool,
    run: (nat, nat, ToolCall) -> ToolResult,
    panics: (nat, nat) -> bool,
    present: (string, string) -> string,                        // sanitize and wrap an output
    parseAuth: string -> Option<AuthPayload>)

  datatype PendingApproval = PendingApproval(
    toolName: string, parameters: string, toolCallId: string,
    contextMessages: seq<Message>, deferredToolCalls: seq<ToolCall>)

  datatype Failure = MaxIterations(limit: nat) | Interrupted | CostLimited(reason: string) | Llm(answer: Answer)

  /** `Crashed`: a panic that nothing caught ended the loop's own task. */
  datatype LoopEnd = Response(text: string) | NeedApproval(pending: PendingApproval) | Failed(failure: Failure) | Crashed

  datatype Step = Stop(end: LoopEnd) | Continue(context: seq<Message>)

  datatype Trace = Trace(end: LoopEnd, exchanges: seq<Exchange>, executions: seq<Execution>)

  // ---------- Phase 1: preflight ----------

  datatype Verdict = Reject(call: ToolCall, message: string) | Ask(call: ToolCall) | Clear(call: ToolCall)

  datatype Entry = Rejected(call: ToolCall, message: string) | Runnable(call: ToolCall)

  datatype Preflight = Preflight(entries: seq<Entry>, approval: Option<ToolCall>)

  predicate NeedsApproval(w: World, round: nat, tc: ToolCall) {
    match w.requirement(round, tc.name, tc.arguments)
    case None => false
    case Some(Never) => false
    case Some(UnlessAutoApproved) => !w.autoApproved(round, tc.name)
    case Some(Always) => true
  }

  /** What preflight decides about the call at position `index`. */
  function Inspect(w: World, cfg: Config, round: nat, index: nat, original: ToolCall): Verdict {
    match w.hook(round, index, original)
    case HookRejected(reason) => Reject(original, "Tool call rejected by hook: " + reason)
    case HookFailed(error) => Reject(original, "Tool call blocked by hook policy: " + error)
    case HookContinue(modified) =>
      var parsed := if modified.Some? then w.parseArguments(modified.value) else None;
      var tc := if parsed.Some? then original.(arguments := parsed.value) else original;
      if !cfg.autoApproveTools && NeedsApproval(w, round, tc) then Ask(tc) else Clear(tc)
  }

  /** What a hook leaves of a call that it lets pass: the same call, with the arguments that the
      hook gives if it gives any and they parse. */
  ghost predicate LeftByHook(w: World, round: nat, index: nat, original: ToolCall, call: ToolCall) {
    && w.hook(round, index, original).HookContinue?
    && var modified := w.hook(round, index, original).modified;
    && call.id == original.id && call.name == original.name
    && call.arguments == if modified.Some? && w.parseArguments(modified.value).Some?
                         then w.parseArguments(modified.value).value else original.arguments
  }

  /** A hook turns a call down, and this is said in the call's place. */
  ghost predicate TurnedDown(w: World, round: nat, index: nat, original: ToolCall, message: string) {
    match w.hook(round, index, original)
    case HookRejected(reason) => message == "Tool call rejected by hook: " + reason
    case HookFailed(error) => message == "Tool call blocked by hook policy: " + error
    case HookContinue(_) => false
  }

  /** The tool exists and asks to be approved, always or because nobody has approved it for good. */
  ghost predicate AsksUser(w: World, round: nat, call: ToolCall) {
    var required := w.requirement(round, call.name, call.arguments);
    required == Some(Always) || (required == Some(UnlessAutoApproved) && !w.autoApproved(round, call.name))
  }

  ghost predicate MustAsk(w: World, cfg: Config, round: nat, call: ToolCall) {
    !cfg.autoApproveTools && AsksUser(w, round, call)
  }

  /** The verdict, by the hook's answer and the tool's requirement alone. */
  lemma InspectMeaning(w: World, cfg: Config, round: nat, index: nat, original: ToolCall)
    ensures var v := Inspect(w, cfg, round, index, original);
            && (v.Reject? ==> v.call == original && TurnedDown(w, round, index, original, v.message))
            && (!v.Reject? ==> LeftByHook(w, round, index, original, v.call))
            && (v.Ask? ==> MustAsk(w, cfg, round, v.call))
            && (v.Clear? ==> !MustAsk(w, cfg, round, v.call))
  {}

  function PreflightFrom(w: World, cfg: Config, round: nat, calls: seq<ToolCall>, i: nat): Preflight
    requires i <= |calls|
    decreases |calls| - i
  {
    if i == |calls| then Preflight([], None)
    else
      match Inspect(w, cfg, round, i, calls[i])
      case Ask(tc) => Preflight([], Some(tc))
      case Reject(tc, message) =>
        var rest := PreflightFrom(w, cfg, round, calls, i + 1);
        Preflight([Rejected(tc, message)] + rest.entries, rest.approval)
      case Clear(tc) =>
        var rest := PreflightFrom(w, cfg, round, calls, i + 1);
        Preflight([Runnable(tc)] + rest.entries, rest.approval)
  }

  /** The entry a verdict leads to, when it is not a request for approval. */
  function EntryOf(v: Verdict): Entry
    requires !v.Ask?
  {
    if v.Reject? then Rejected(v.call, v.message) else Runnable(v.call)
  }

  /** Preflight classifies a prefix of the calls position by position; it stops early exactly
      at the first call that needs approval. */
  lemma {:induction false} PreflightStopsAtFirstAsk(w: World, cfg: Config, round: nat, calls: seq<ToolCall>, i: nat)
    requires i <= |calls|
    ensures var p := PreflightFrom(w, cfg, round, calls, i);
            && i + |p.entries| <= |calls|
            && (forall k :: i <= k < i + |p.entries| ==>
                  !Inspect(w, cfg, round, k, calls[k]).Ask? &&
                  p.entries[k - i] == EntryOf(Inspect(w, cfg, round, k, calls[k])))
            && (p.approval.None? <==> i + |p.entries| == |calls|)
            && (p.approval.Some? ==>
                  Inspect(w, cfg, round, i + |p.entries|, calls[i + |p.entries|]) == Ask(p.approval.value))
    decreases |calls| - i
  {
    if i < |calls| && !Inspect(w, cfg, round, i, calls[i]).Ask? {
      var rest := PreflightFrom(w, cfg, round, calls, i + 1);
      var v := Inspect(w, cfg, round, i, calls[i]);
      PreflightStopsAtFirstAsk(w, cfg, round, calls, i + 1);
      assert PreflightFrom(w, cfg, round, calls, i) == Preflight([EntryOf(v)] + rest.entries, rest.approval);
    }
  }

  /** Hooks may rewrite arguments but never the identity of a call. */
  lemma InspectKeepsIdentity(w: World, cfg: Config, round: nat, index: nat, original: ToolCall)
    ensures Inspect(w, cfg, round, index, original).call.id == original.id
    ensures Inspect(w, cfg, round, index, original).call.name == original.name
  {}

  method InspectCall(w: World, cfg: Config, round: nat, idx: nat, original: ToolCall) returns (v: Verdict)
    ensures v == Inspect(w, cfg, round, idx, original)
  {
    var tc := original;
    match w.hook(round, idx, original) {
      case HookRejected(reason) =>
        return Reject(tc, "Tool call rejected by hook: " + reason);
      case HookFailed(error) =>
        return Reject(tc, "Tool call blocked by hook policy: " + error);
      case HookContinue(modified) =>
        if modified.Some? {
          var parsed := w.parseArguments(modified.value);
          if parsed.Some? { tc := tc.(arguments := parsed.value); }
        }
    }
    if !cfg.autoApproveTools {
      var needsApproval := NeedsApproval(w, round, tc);
      if needsApproval { return Ask(tc); }
    }
    v := Clear(tc);
  }

  /** An entry is the call as its hook turned it down, or as its hook left it when no user need be asked. */
  ghost predicate Judged(w: World, cfg: Config, round: nat, index: nat, original: ToolCall, entry: Entry) {
    match entry
    case Rejected(call, message) => call == original && TurnedDown(w, round, index, original, message)
    case Runnable(call) => LeftByHook(w, round, index, original, call) && !MustAsk(w, cfg, round, call)
  }

  /** Every entry is judged, and they stop exactly at the first call that must be approved, which is
      in the form its hook left it in. */
  ghost predicate JudgedUpTo(w: World, cfg: Config, round: nat, calls: seq<ToolCall>, entries: seq<Entry>, approval: Option<ToolCall>) {
    && |entries| <= |calls| && (approval.None? <==> |entries| == |calls|)
    && (forall k :: 0 <= k < |entries| ==> Judged(w, cfg, round, k, calls[k], entries[k]))
    && (approval.Some? ==> LeftByHook(w, round, |entries|, calls[|entries|], approval.value) && MustAsk(w, cfg, round, approval.value))
  }

  /** Preflight, by hooks and requirements alone. */
  lemma PreflightMeaning(w: World, cfg: Config, round: nat, calls: seq<ToolCall>)
    ensures var p := PreflightFrom(w, cfg, round, calls, 0); JudgedUpTo(w, cfg, round, calls, p.entries, p.approval)
  {
    var p := PreflightFrom(w, cfg, round, calls, 0);
    PreflightStopsAtFirstAsk(w, cfg, round, calls, 0);
    forall k | 0 <= k < |p.entries| ensures Judged(w, cfg, round, k, calls[k], p.entries[k]) {
      InspectMeaning(w, cfg, round, k, calls[k]);
    }
    if p.approval.Some? { InspectMeaning(w, cfg, round, |p.entries|, calls[|p.entries|]); }
  }

  method RunPreflight(w: World, cfg: Config, round: nat, toolCalls: seq<ToolCall>)
    returns (preflight: seq<Entry>, runnable: seq<(nat, ToolCall)>, approvalNeeded: Option<(nat, ToolCall)>)
    ensures var p := PreflightFrom(w, cfg, round, toolCalls, 0);
            && preflight == p.entries
            && approvalNeeded == (if p.approval.Some? then Some((|p.entries|, p.approval.value)) else None)
    ensures runnable == RunnablesIn(preflight, |preflight|)
    ensures JudgedUpTo(w, cfg, round, toolCalls, preflight, if approvalNeeded.Some? then Some(approvalNeeded.value.1) else None)
  {
    ghost var p := PreflightFrom(w, cfg, round, toolCalls, 0);
    PreflightStopsAtFirstAsk(w, cfg, round, toolCalls, 0);
    preflight, runnable, approvalNeeded := [], [], None;
    for idx := 0 to |toolCalls|
      invariant idx <= |p.entries| && preflight == p.entries[..idx]
      invariant runnable == RunnablesIn(p.entries, idx)
    {
      var verdict := InspectCall(w, cfg, round, idx, toolCalls[idx]);
      if verdict.Ask? {
        assert idx == |p.entries| && p.entries[..idx] == p.entries;
        PreflightMeaning(w, cfg, round, toolCalls);
        return preflight, runnable, Some((idx, verdict.call));
      }
      if verdict.Clear? { runnable := runnable + [(|preflight|, verdict.call)]; }
      preflight := preflight + [EntryOf(verdict)];
    }
    assert p.entries[..|p.entries|] == p.entries;
    PreflightMeaning(w, cfg, round, toolCalls);
  }

  // ---------- Phase 2: execution ----------

  /** The runnable entries among the first `n`, with their positions. */
  function RunnablesIn(entries: seq<Entry>, n: nat): seq<(nat, ToolCall)>
    requires n <= |entries|
  {
    if n == 0 then []
    else RunnablesIn(entries, n - 1) + if entries[n - 1].Runnable? then [(n - 1, entries[n - 1].call)] else []
  }

  lemma {:induction false} RunnablesMeaning(entries: seq<Entry>, n: nat)
    requires n <= |entries|
    ensures var r := RunnablesIn(entries, n);
            && (forall t :: t in r ==> t.0 < n && entries[t.0] == Runnable(t.1))
            && (forall i :: 0 <= i < n && entries[i].Runnable? ==> (i, entries[i].call) in r)
  {
    if n > 0 { RunnablesMeaning(entries, n - 1); }
  }

  function TaskFailure(name: string): string {
    "Tool error: Tool " + name + " execution failed: Task failed during execution"
  }

  /** Running one call on its own, with a panic read as an error. */
  function RunAlone(w: World, round: nat, index: nat, tc: ToolCall): ToolResult {
    if w.panics(round, index) then Err(TaskFailure(tc.name)) else w.run(round, index, tc)
  }

  function Slot(w: World, round: nat, entries: seq<Entry>, i: nat): Option<ToolResult>
    requires i < |entries|
  {
    if entries[i].Runnable? then Some(RunAlone(w, round, i, entries[i].call)) else None
  }

  /** A lone runnable call runs inline, where a panic is not contained. */
  predicate Crashes(w: World, round: nat, entries: seq<Entry>) {
    var r := RunnablesIn(entries, |entries|);
    |r| == 1 && w.panics(round, r[0].0)
  }

  /** The call of runnable `t`, which the LLM asked for as `calls[t.0]`. */
  function ExecutionOf(round: nat, calls: seq<ToolCall>, t: (nat, ToolCall)): Execution
    requires t.0 < |calls|
  {
    Execution(round, t.0, calls[t.0], t.1)
  }

  predicate Within(runnable: seq<(nat, ToolCall)>, n: nat) {
    forall t :: t in runnable ==> t.0 < n
  }

  function ExecutionsOf(round: nat, calls: seq<ToolCall>, runnable: seq<(nat, ToolCall)>): (x: seq<Execution>)
    requires Within(runnable, |calls|)
    ensures |x| == |runnable|
    ensures forall k :: 0 <= k < |runnable| ==> x[k] == ExecutionOf(round, calls, runnable[k])
  {
    seq(|runnable|, k requires 0 <= k < |runnable| => ExecutionOf(round, calls, runnable[k]))
  }

  /** `after` is `before` followed by the executions `x`, in some order. */
  ghost predicate Logged(before: seq<Execution>, after: seq<Execution>, x: seq<Execution>) {
    before <= after && multiset(after[|before|..]) == multiset(x)
  }

  lemma LoggedNothing(log: seq<Execution>)
    ensures Logged(log, log, [])
  {
    assert log[|log|..] == [];
  }

  lemma LoggedOne(log: seq<Execution>, x: Execution)
    ensures Logged(log, log + [x], [x])
  {
    assert (log + [x])[|log|..] == [x];
  }

  lemma LoggedMore(a: seq<Execution>, b: seq<Execution>, c: seq<Execution>, x: seq<Execution>, y: seq<Execution>)
    requires Logged(a, b, x) && Logged(b, c, y)
    ensures Logged(a, c, x + y)
  {
    assert c[|a|..] == b[|a|..] + c[|b|..];
  }

  /** The tools. Nothing reaches a tool but through `Call`, which cannot be made unseen. */
  class Toolbox {
    const w: World
    ghost var log: seq<Execution>

    constructor (w: World)
      ensures this.w == w && log == []
    {
      this.w, log := w, [];
    }

    /** No result: the tool panicked. */
    method Call(round: nat, index: nat, ghost original: ToolCall, tc: ToolCall) returns (result: Option<ToolResult>)
      modifies this
      ensures log == old(log) + [Execution(round, index, original, tc)]
      ensures result == if w.panics(round, index) then None else Some(w.run(round, index, tc))
    {
      log := log + [Execution(round, index, original, tc)];
      result := if w.panics(round, index) then None else Some(w.run(round, index, tc));
    }
  }

  /** What the slots hold once all tasks have been joined: nothing for those that panicked. */
  ghost predicate Joined(w: World, round: nat, slots: seq<Option<ToolResult>>, runnable: seq<(nat, ToolCall)>, running: set<(nat, ToolCall)>) {
    && (forall t :: t in runnable ==> t.0 < |slots|)
    && (forall t :: t in runnable ==>
          slots[t.0] == if t in running || w.panics(round, t.0) then None else Some(w.run(round, t.0, t.1)))
  }

  /** The slots come out as if the runnable calls had been run one by one, and exactly those
      calls were handed to their tools, each once. */
  method Execute(box: Toolbox, round: nat, ghost calls: seq<ToolCall>, preflight: seq<Entry>, runnable: seq<(nat, ToolCall)>)
    returns (crashed: bool, execResults: array<Option<ToolResult>>)
    requires runnable == RunnablesIn(preflight, |preflight|) && Within(runnable, |calls|)
    modifies box
    ensures fresh(execResults) && execResults.Length == |preflight|
    ensures crashed <==> Crashes(box.w, round, preflight)
    ensures !crashed ==> forall i :: 0 <= i < |preflight| ==> execResults[i] == Slot(box.w, round, preflight, i)
    ensures Logged(old(box.log), box.log, ExecutionsOf(round, calls, runnable))
  {
    execResults := new Option<ToolResult>[|preflight|](_ => None);
    if |runnable| <= 1 {
      crashed := ExecuteInline(box, round, calls, preflight, runnable, execResults);
    } else {
      crashed := false;
      JoinAll(box, round, calls, preflight, runnable, execResults);
      FillFailedSlots(box.w, round, preflight, runnable, execResults);
    }
  }

  /** At most one call runs without a task of its own. */
  method ExecuteInline(
    box: Toolbox, round: nat, ghost calls: seq<ToolCall>, preflight: seq<Entry>, runnable: seq<(nat, ToolCall)>,
    execResults: array<Option<ToolResult>>) returns (crashed: bool)
    requires runnable == RunnablesIn(preflight, |preflight|) && Within(runnable, |calls|)
    requires execResults.Length == |preflight| && |runnable| <= 1
    requires forall i :: 0 <= i < execResults.Length ==> execResults[i] == None
    modifies box, execResults
    ensures crashed <==> Crashes(box.w, round, preflight)
    ensures !crashed ==> forall i :: 0 <= i < |preflight| ==> execResults[i] == Slot(box.w, round, preflight, i)
    ensures Logged(old(box.log), box.log, ExecutionsOf(round, calls, runnable))
  {
    crashed := false;
    RunnablesMeaning(preflight, |preflight|);
    assert forall i :: 0 <= i < |preflight| && preflight[i].Runnable? ==> (i, preflight[i].call) in runnable;
    if |runnable| == 1 {
      var t := runnable[0];
      assert t in runnable;
      LoggedOne(box.log, ExecutionOf(round, calls, t));
      assert ExecutionsOf(round, calls, runnable) == [ExecutionOf(round, calls, t)];
      var result := box.Call(round, t.0, calls[t.0], t.1);
      if result.None? {
        crashed := true;
      } else {
        execResults[t.0] := result;
      }
    } else {
      LoggedNothing(box.log);
      assert ExecutionsOf(round, calls, runnable) == [];
    }
  }

  /** Tasks finish in any order and any of them may panic: picking a task from `running`
      stands for the next one to be joined. */
  method JoinAll(
    box: Toolbox, round: nat, ghost calls: seq<ToolCall>, preflight: seq<Entry>, runnable: seq<(nat, ToolCall)>,
    execResults: array<Option<ToolResult>>)
    requires runnable == RunnablesIn(preflight, |preflight|) && Within(runnable, |calls|) && execResults.Length == |preflight|
    requires forall i :: 0 <= i < execResults.Length ==> execResults[i] == None
    modifies box, execResults
    ensures Joined(box.w, round, execResults[..], runnable, {})
    ensures forall i :: 0 <= i < |preflight| && preflight[i].Rejected? ==> execResults[i] == None
    ensures Logged(old(box.log), box.log, ExecutionsOf(round, calls, runnable))
  {
    RunnablesMeaning(preflight, |preflight|);
    RunnablesDistinct(preflight, |preflight|);
    var running := Tasks(runnable);
    ghost var before, finished: seq<(nat, ToolCall)> := box.log, [];
    while running != {}
      invariant forall t :: t in running ==> t in runnable
      invariant Joined(box.w, round, execResults[..], runnable, running) && Untouched(preflight, execResults[..])
      invariant Accounted(round, calls, before, box.log, finished, running, runnable)
      decreases running
    {
      var t :| t in running;
      assert t in runnable;
      JoinOne(box, round, calls, preflight, runnable, running, t, execResults, before, finished);
      running, finished := running - {t}, finished + [t];
    }
    AccountedAll(round, calls, before, box.log, finished, runnable);
  }

  /** No rejected slot is filled. */
  ghost predicate Untouched(preflight: seq<Entry>, slots: seq<Option<ToolResult>>) {
    |slots| == |preflight| && forall i :: 0 <= i < |preflight| && preflight[i].Rejected? ==> slots[i] == None
  }

  method JoinOne(
    box: Toolbox, round: nat, ghost calls: seq<ToolCall>, ghost preflight: seq<Entry>, ghost runnable: seq<(nat, ToolCall)>,
    ghost running: set<(nat, ToolCall)>, t: (nat, ToolCall), execResults: array<Option<ToolResult>>,
    ghost before: seq<Execution>, ghost finished: seq<(nat, ToolCall)>)
    requires runnable == RunnablesIn(preflight, |preflight|) && t in running && t in runnable && t.0 < |calls|
    requires Joined(box.w, round, execResults[..], runnable, running) && Untouched(preflight, execResults[..])
    requires Accounted(round, calls, before, box.log, finished, running, runnable)
    modifies box, execResults
    ensures Joined(box.w, round, execResults[..], runnable, running - {t}) && Untouched(preflight, execResults[..])
    ensures Accounted(round, calls, before, box.log, finished + [t], running - {t}, runnable)
  {
    AccountedOne(round, calls, before, box.log, finished, running, runnable, t);
    JoinedOne(box.w, round, preflight, execResults[..], runnable, running, t);
    JoinNext(box, round, calls[t.0], t, execResults);
  }

  /** Every task is still running or has been logged. */
  ghost predicate Accounted(
    round: nat, calls: seq<ToolCall>, before: seq<Execution>, log: seq<Execution>, finished: seq<(nat, ToolCall)>,
    running: set<(nat, ToolCall)>, runnable: seq<(nat, ToolCall)>)
  {
    && Within(finished, |calls|) && log == before + ExecutionsOf(round, calls, finished)
    && multiset(finished) + multiset(running) == multiset(runnable)
  }

  lemma AccountedOne(
    round: nat, calls: seq<ToolCall>, before: seq<Execution>, log: seq<Execution>, finished: seq<(nat, ToolCall)>,
    running: set<(nat, ToolCall)>, runnable: seq<(nat, ToolCall)>, t: (nat, ToolCall))
    requires Accounted(round, calls, before, log, finished, running, runnable) && t in running && t.0 < |calls|
    ensures Accounted(round, calls, before, log + [ExecutionOf(round, calls, t)], finished + [t], running - {t}, runnable)
  {
    assert ExecutionsOf(round, calls, finished + [t]) == ExecutionsOf(round, calls, finished) + [ExecutionOf(round, calls, t)];
  }

  lemma AccountedAll(
    round: nat, calls: seq<ToolCall>, before: seq<Execution>, log: seq<Execution>, finished: seq<(nat, ToolCall)>,
    runnable: seq<(nat, ToolCall)>)
    requires Accounted(round, calls, before, log, finished, {}, runnable) && Within(runnable, |calls|)
    ensures Logged(before, log, ExecutionsOf(round, calls, runnable))
  {
    ReorderedExecutions(round, calls, finished, runnable);
    assert log[|before|..] == ExecutionsOf(round, calls, finished);
  }

  /** One task ends: its result is stored, unless it panicked. */
  method JoinNext(box: Toolbox, round: nat, ghost original: ToolCall, t: (nat, ToolCall), execResults: array<Option<ToolResult>>)
    requires t.0 < execResults.Length && execResults[t.0] == None
    modifies box, execResults
    ensures box.log == old(box.log) + [Execution(round, t.0, original, t.1)]
    ensures execResults[..] == old(execResults[..])[t.0 := if box.w.panics(round, t.0) then None else Some(box.w.run(round, t.0, t.1))]
  {
    var result := box.Call(round, t.0, original, t.1);
    if result.Some? {
      execResults[t.0] := result;
    }
  }

  lemma JoinedOne(
    w: World, round: nat, preflight: seq<Entry>, slots: seq<Option<ToolResult>>, runnable: seq<(nat, ToolCall)>,
    running: set<(nat, ToolCall)>, t: (nat, ToolCall))
    requires runnable == RunnablesIn(preflight, |preflight|) && |slots| == |preflight|
    requires Joined(w, round, slots, runnable, running) && t in runnable && t in running
    ensures slots[t.0] == None && preflight[t.0].Runnable?
    ensures Joined(w, round, slots[t.0 := if w.panics(round, t.0) then None else Some(w.run(round, t.0, t.1))], runnable, running - {t})
  {
    RunnablesMeaning(preflight, |preflight|);
    assert forall u :: u in runnable && u.0 == t.0 ==> u == t;
  }

  function Tasks(runnable: seq<(nat, ToolCall)>): set<(nat, ToolCall)> { set t | t in runnable }

  /** No task is listed twice. */
  ghost predicate Once(runnable: seq<(nat, ToolCall)>) { multiset(Tasks(runnable)) == multiset(runnable) }

  lemma {:induction false} RunnablesDistinct(entries: seq<Entry>, n: nat)
    requires n <= |entries|
    ensures Once(RunnablesIn(entries, n))
  {
    if n > 0 {
      RunnablesDistinct(entries, n - 1);
      RunnablesMeaning(entries, n - 1);
      var before := RunnablesIn(entries, n - 1);
      if entries[n - 1].Runnable? { OneMoreTask(before, (n - 1, entries[n - 1].call)); } else { assert before + [] == before; }
    }
  }

  lemma OneMoreTask(before: seq<(nat, ToolCall)>, t: (nat, ToolCall))
    requires t !in before && Once(before)
    ensures Once(before + [t])
  {
    assert Tasks(before + [t]) == Tasks(before) + {t};
  }

  /** The same tasks in another order are the same executions. */
  lemma {:induction false} ReorderedExecutions(round: nat, calls: seq<ToolCall>, a: seq<(nat, ToolCall)>, b: seq<(nat, ToolCall)>)
    requires Within(a, |calls|) && Within(b, |calls|) && multiset(a) == multiset(b)
    ensures multiset(ExecutionsOf(round, calls, a)) == multiset(ExecutionsOf(round, calls, b))
  {
    if a == [] {
      assert |b| == |multiset(b)|;
    } else {
      assert a[0] in multiset(b);
      var i :| 0 <= i < |b| && b[i] == a[0];
      WithoutBoth(a, b, i);
      var rest := b[..i] + b[i + 1..];
      ReorderedExecutions(round, calls, a[1..], rest);
      ExecutionsWithoutOne(round, calls, b, i, rest);
      ExecutionsWithoutOne(round, calls, a, 0, a[1..]);
    }
  }

  lemma WithoutBoth<T>(a: seq<T>, b: seq<T>, i: nat)
    requires a != [] && multiset(a) == multiset(b) && i < |b| && b[i] == a[0]
    ensures multiset(a[1..]) == multiset(b[..i] + b[i + 1..])
    ensures forall x :: x in b[..i] + b[i + 1..] ==> x in b
  {
    WithoutOne(b, i);
    WithoutOne(a, 0);
    assert a[..0] + a[1..] == a[1..];
    assert multiset(a[1..]) == multiset(a) - multiset{a[0]};
  }

  lemma WithoutOne<T>(b: seq<T>, i: nat)
    requires i < |b|
    ensures multiset(b) == multiset{b[i]} + multiset(b[..i] + b[i + 1..])
    ensures forall x :: x in b[..i] + b[i + 1..] ==> x in b
  {
    assert b == b[..i] + [b[i]] + b[i + 1..];
  }

  lemma ExecutionsWithoutOne(round: nat, calls: seq<ToolCall>, b: seq<(nat, ToolCall)>, i: nat, rest: seq<(nat, ToolCall)>)
    requires i < |b| && rest == b[..i] + b[i + 1..] && Within(b, |calls|) && Within(rest, |calls|)
    ensures multiset(ExecutionsOf(round, calls, b)) ==
            multiset{ExecutionOf(round, calls, b[i])} + multiset(ExecutionsOf(round, calls, rest))
  {
    var x := ExecutionsOf(round, calls, b);
    WithoutOne(x, i);
    assert ExecutionsOf(round, calls, rest) == x[..i] + x[i + 1..];
  }

  method FillFailedSlots(w: World, round: nat, preflight: seq<Entry>, runnable: seq<(nat, ToolCall)>, execResults: array<Option<ToolResult>>)
    requires runnable == RunnablesIn(preflight, |preflight|) && execResults.Length == |preflight|
    requires Joined(w, round, execResults[..], runnable, {})
    requires forall i :: 0 <= i < |preflight| && preflight[i].Rejected? ==> execResults[i] == None
    modifies execResults
    ensures forall i :: 0 <= i < |preflight| ==> execResults[i] == Slot(w, round, preflight, i)
  {
    RunnablesMeaning(preflight, |preflight|);
    for n := 0 to |runnable|
      invariant forall i :: 0 <= i < |preflight| && preflight[i].Runnable? && execResults[i].None? ==>
                  (i, preflight[i].call) in runnable[n..]
      invariant forall i :: 0 <= i < |preflight| ==>
                  execResults[i] == Slot(w, round, preflight, i) ||
                  (execResults[i] == None && preflight[i].Runnable? && w.panics(round, i))
    {
      var t := runnable[n];
      assert t in runnable && runnable[n..] == [t] + runnable[n + 1..];
      if execResults[t.0].None? {
        execResults[t.0] := Some(Err(TaskFailure(t.1.name)));
      }
    }
  }

  // ---------- Phase 3: post-flight ----------

  function Shown(w: World, name: string, result: ToolResult): string {
    match result
    case Ok(output) => w.present(name, output)
    case Err(error) => "Error: " + error
  }

  /** The tool message recorded for entry `i`. */
  function ResultMessage(w: World, round: nat, entries: seq<Entry>, i: nat): Message
    requires i < |entries|
  {
    match entries[i]
    case Rejected(tc, message) => Tool(tc.id, tc.name, message)
    case Runnable(tc) => Tool(tc.id, tc.name, Shown(w, tc.name, RunAlone(w, round, i, tc)))
  }

  function Results(w: World, round: nat, entries: seq<Entry>, n: nat): (r: seq<Message>)
    requires n <= |entries|
    ensures |r| == n
    ensures forall i :: 0 <= i < n ==> r[i] == ResultMessage(w, round, entries, i)
  {
    if n == 0 then [] else Results(w, round, entries, n - 1) + [ResultMessage(w, round, entries, n - 1)]
  }

  const DEFAULT_AUTH_INSTRUCTIONS: string := "Please provide your API token/key."

  /** The instructions to show when a result says that an extension awaits a token. */
  function CheckAuthRequired(w: World, name: string, result: ToolResult): Option<string> {
    if name != "tool_auth" && name != "tool_activate" then None
    else if result.Err? then None
    else
      match w.parseAuth(result.output)
      case None => None
      case Some(p) =>
        if !p.awaitingToken || p.name.None? then None
        else Some(if p.instructions.Some? then p.instructions.value else DEFAULT_AUTH_INSTRUCTIONS)
  }

  /** The first authentication request among the first `n` entries. */
  function FirstAuth(w: World, round: nat, entries: seq<Entry>, n: nat): Option<string>
    requires n <= |entries|
  {
    if n == 0 then None
    else
      var earlier := FirstAuth(w, round, entries, n - 1);
      if earlier.Some? || entries[n - 1].Rejected? then earlier
      else
        var tc := entries[n - 1].call;
        CheckAuthRequired(w, tc.name, RunAlone(w, round, n - 1, tc))
  }

  method PostFlight(w: World, ghost round: nat, preflight: seq<Entry>, execResults: array<Option<ToolResult>>, context: seq<Message>)
    returns (contextMessages: seq<Message>, deferredAuth: Option<string>)
    requires execResults.Length == |preflight|
    requires forall i :: 0 <= i < |preflight| ==> execResults[i] == Slot(w, round, preflight, i)
    modifies execResults
    ensures contextMessages == context + Results(w, round, preflight, |preflight|)
    ensures deferredAuth == FirstAuth(w, round, preflight, |preflight|)
  {
    contextMessages, deferredAuth := context, None;
    for pfIdx := 0 to |preflight|
      invariant forall i :: pfIdx <= i < |preflight| ==> execResults[i] == Slot(w, round, preflight, i)
      invariant contextMessages == context + Results(w, round, preflight, pfIdx)
      invariant deferredAuth == FirstAuth(w, round, preflight, pfIdx)
    {
      match preflight[pfIdx]
      case Rejected(tc, errorMsg) =>
        contextMessages := contextMessages + [Tool(tc.id, tc.name, errorMsg)];
      case Runnable(tc) =>
        var toolResult :=
          if execResults[pfIdx].Some? then execResults[pfIdx].value
          else Err("Tool error: Tool " + tc.name + " execution failed: No result available");
        execResults[pfIdx] := None;
        if deferredAuth.None? {
          deferredAuth := CheckAuthRequired(w, tc.name, toolResult);
        }
        contextMessages := contextMessages + [Tool(tc.id, tc.name, Shown(w, tc.name, toolResult))];
    }
  }

  // ---------- One round and the whole loop ----------

  function GetOrEmpty(content: Option<string>): string {
    if content.Some? then content.value else ""
  }

  datatype Asked = Asked(exchanges: seq<Exchange>, context: seq<Message>, answer: Answer)

  /** One LLM call, with one retry on a compacted context when the first overflows. */
  function AskLlm(w: World, cfg: Config, round: nat, context: seq<Message>): Asked {
    var forceText := round >= cfg.maxToolIterations;
    var first := Request(round, false, forceText, w.tools(round), context);
    if w.llm(first).ContextLengthExceeded? then
      var compacted := Compact(context);
      var second := Request(round, true, forceText, if forceText then [] else w.tools(round), compacted);
      Asked([Exchange(first, ContextLengthExceeded), Exchange(second, w.llm(second))], compacted, w.llm(second))
    else
      Asked([Exchange(first, w.llm(first))], context, w.llm(first))
  }

  /** How a block of calls ends, given what its phases found: an authentication request wins
      over a pending approval, and `closed` is the context with the block's results so far. */
  function EndOfBlock(crashed: bool, auth: Option<string>, approval: Option<ToolCall>, closed: seq<Message>, rest: seq<ToolCall>): Step {
    if crashed then Stop(Crashed)
    else if auth.Some? then Stop(Response(auth.value))
    else if approval.Some? then
      var tc := approval.value;
      Stop(NeedApproval(PendingApproval(tc.name, tc.arguments, tc.id, closed, rest)))
    else Continue(closed)
  }

  function Conclude(w: World, round: nat, pre: Preflight, context: seq<Message>, rest: seq<ToolCall>): Step {
    EndOfBlock(
      Crashes(w, round, pre.entries), FirstAuth(w, round, pre.entries, |pre.entries|), pre.approval,
      context + Results(w, round, pre.entries, |pre.entries|), rest)
  }

  /** The calls after the one that preflight stopped at. */
  function After(calls: seq<ToolCall>, pre: Preflight): seq<ToolCall> {
    if |pre.entries| < |calls| then calls[|pre.entries| + 1..] else []
  }

  function RunTools(w: World, cfg: Config, round: nat, context: seq<Message>, calls: seq<ToolCall>, content: Option<string>): Step {
    var pre := PreflightFrom(w, cfg, round, calls, 0);
    Conclude(w, round, pre, context + [Assistant(GetOrEmpty(content), calls)], After(calls, pre))
  }

  lemma RunnablesWithin(w: World, cfg: Config, round: nat, calls: seq<ToolCall>)
    ensures var entries := PreflightFrom(w, cfg, round, calls, 0).entries;
            |entries| <= |calls| && Within(RunnablesIn(entries, |entries|), |calls|)
  {
    var entries := PreflightFrom(w, cfg, round, calls, 0).entries;
    PreflightStopsAtFirstAsk(w, cfg, round, calls, 0);
    RunnablesMeaning(entries, |entries|);
  }

  /** The calls that a round hands to their tools. */
  function RoundExecutions(w: World, cfg: Config, round: nat, calls: seq<ToolCall>): seq<Execution> {
    var entries := PreflightFrom(w, cfg, round, calls, 0).entries;
    RunnablesWithin(w, cfg, round, calls);
    ExecutionsOf(round, calls, RunnablesIn(entries, |entries|))
  }

  function NudgeAt(cfg: Config): nat {
    if cfg.maxToolIterations == 0 then 0 else cfg.maxToolIterations - 1
  }

  function Nudged(cfg: Config, round: nat, context: seq<Message>): seq<Message> {
    if round == NudgeAt(cfg) then context + [System(NUDGE)] else context
  }

  datatype Round = Round(step: Step, exchanges: seq<Exchange>, executions: seq<Execution>)

  /** Round `round`: its guards, the LLM call and the tool calls it leads to. */
  function PlayRound(w: World, cfg: Config, round: nat, context: seq<Message>): Round {
    if w.interrupted(round) then Round(Stop(Failed(Interrupted)), [], [])
    else if w.costLimit(round).Some? then Round(Stop(Failed(CostLimited(w.costLimit(round).value))), [], [])
    else
      var asked := AskLlm(w, cfg, round, Nudged(cfg, round, context));
      if !asked.answer.Replied? then Round(Stop(Failed(Llm(asked.answer))), asked.exchanges, [])
      else
        match asked.answer.reply
        case Text(text) => Round(Stop(Response(text)), asked.exchanges, [])
        case ToolCalls(calls, content) =>
          Round(RunTools(w, cfg, round, asked.context, calls, content), asked.exchanges, RoundExecutions(w, cfg, round, calls))
  }

  type Player = (nat, seq<Message>) -> Round

  function Rounds(w: World, cfg: Config): Player {
    (round: nat, context: seq<Message>) => PlayRound(w, cfg, round, context)
  }

  /** Rounds played one after the other from round `round`, up to the hard ceiling one past `limit`. */
  function PlayFrom(play: Player, limit: nat, round: nat, context: seq<Message>): Trace
    decreases limit + 2 - round
  {
    if round > limit + 1 then Trace(Failed(MaxIterations(limit)), [], [])
    else
      var played := play(round, context);
      match played.step
      case Stop(end) => Trace(end, played.exchanges, played.executions)
      case Continue(next) =>
        var rest := PlayFrom(play, limit, round + 1, next);
        Trace(rest.end, played.exchanges + rest.exchanges, played.executions + rest.executions)
  }

  /** A run preceded by earlier exchanges and executions. */
  function Preceded(exchanges: seq<Exchange>, executions: seq<Execution>, t: Trace): Trace {
    Trace(t.end, exchanges + t.exchanges, executions + t.executions)
  }

  lemma OneMoreRound(play: Player, limit: nat, round: nat, context: seq<Message>, exchanges: seq<Exchange>, executions: seq<Execution>)
    requires round <= limit + 1
    ensures var played := play(round, context);
            Preceded(exchanges, executions, PlayFrom(play, limit, round, context)) ==
            match played.step
            case Stop(end) => Trace(end, exchanges + played.exchanges, executions + played.executions)
            case Continue(next) =>
              Preceded(exchanges + played.exchanges, executions + played.executions, PlayFrom(play, limit, round + 1, next))
  {
    var played := play(round, context);
    if played.step.Continue? {
      var later := PlayFrom(play, limit, round + 1, played.step.context);
      assert exchanges + (played.exchanges + later.exchanges) == (exchanges + played.exchanges) + later.exchanges;
      assert executions + (played.executions + later.executions) == (executions + played.executions) + later.executions;
    }
  }

  /** The whole run; it starts with round 1. */
  function Run(w: World, cfg: Config, initialMessages: seq<Message>): Trace {
    PlayFrom(Rounds(w, cfg), cfg.maxToolIterations, 1, initialMessages)
  }

  method QueryLlm(w: World, cfg: Config, round: nat, context: seq<Message>)
    returns (exchanges: seq<Exchange>, contextMessages: seq<Message>, answer: Answer)
    ensures Asked(exchanges, contextMessages, answer) == AskLlm(w, cfg, round, context)
  {
    contextMessages := context;
    var forceText := round >= cfg.maxToolIterations;
    var request := Request(round, false, forceText, w.tools(round), contextMessages);
    answer := w.llm(request);
    exchanges := [Exchange(request, answer)];
    if answer.ContextLengthExceeded? {
      contextMessages := CompactMessagesForRetry(contextMessages);
      request := Request(round, true, forceText, if forceText then [] else w.tools(round), contextMessages);
      answer := w.llm(request);
      exchanges := exchanges + [Exchange(request, answer)];
    }
  }

  /** The end of a block of calls whose execution did not crash. */
  method FinishBlock(
    w: World, ghost round: nat, ghost pre: Preflight, preflight: seq<Entry>, execResults: array<Option<ToolResult>>,
    approvalNeeded: Option<(nat, ToolCall)>, context: seq<Message>, calls: seq<ToolCall>) returns (step: Step)
    requires preflight == pre.entries && execResults.Length == |preflight| && !Crashes(w, round, pre.entries)
    requires approvalNeeded == (if pre.approval.Some? then Some((|pre.entries|, pre.approval.value)) else None)
    requires approvalNeeded.Some? ==> approvalNeeded.value.0 < |calls|
    requires forall i :: 0 <= i < |preflight| ==> execResults[i] == Slot(w, round, preflight, i)
    modifies execResults
    ensures step == Conclude(w, round, pre, context, After(calls, pre))
  {
    var contextMessages, deferredAuth := PostFlight(w, round, preflight, execResults, context);
    if deferredAuth.Some? {
      return Stop(Response(deferredAuth.value));
    }
    if approvalNeeded.Some? {
      var (approvalIdx, tc) := approvalNeeded.value;
      var pending := PendingApproval(tc.name, tc.arguments, tc.id, contextMessages, calls[approvalIdx + 1..]);
      return Stop(NeedApproval(pending));
    }
    step := Continue(contextMessages);
  }

  /** The three phases of one round of tool calls. */
  method PerformToolCalls(box: Toolbox, cfg: Config, round: nat, context: seq<Message>, toolCalls: seq<ToolCall>, content: Option<string>)
    returns (step: Step)
    modifies box
    ensures step == RunTools(box.w, cfg, round, context, toolCalls, content)
    ensures Logged(old(box.log), box.log, RoundExecutions(box.w, cfg, round, toolCalls))
  {
    var contextMessages := context + [Assistant(GetOrEmpty(content), toolCalls)];
    ghost var pre := PreflightFrom(box.w, cfg, round, toolCalls, 0);
    PreflightStopsAtFirstAsk(box.w, cfg, round, toolCalls, 0);
    RunnablesWithin(box.w, cfg, round, toolCalls);
    var preflight, runnable, approvalNeeded := RunPreflight(box.w, cfg, round, toolCalls);
    var crashed, execResults := Execute(box, round, toolCalls, preflight, runnable);
    if crashed {
      return Stop(Crashed);
    }
    step := FinishBlock(box.w, round, pre, preflight, execResults, approvalNeeded, contextMessages, toolCalls);
  }

  /** `play` is a name for the rounds of `w`, so that a proof about the loop need not look inside a round. */
  ghost predicate Plays(play: Player, w: World, cfg: Config) {
    forall r: nat, c {:trigger PlayRound(w, cfg, r, c)} :: play(r, c) == PlayRound(w, cfg, r, c)
  }

  method PlayOneRound(box: Toolbox, cfg: Config, ghost play: Player, iteration: nat, context: seq<Message>)
    returns (step: Step, exchanges: seq<Exchange>)
    requires Plays(play, box.w, cfg)
    modifies box
    ensures step == play(iteration, context).step && exchanges == play(iteration, context).exchanges
    ensures Logged(old(box.log), box.log, play(iteration, context).executions)
  {
    assert play(iteration, context) == PlayRound(box.w, cfg, iteration, context);
    LoggedNothing(box.log);
    var contextMessages := context;
    if box.w.interrupted(iteration) {
      return Stop(Failed(Interrupted)), [];
    }
    var blocked := box.w.costLimit(iteration);
    if blocked.Some? {
      return Stop(Failed(CostLimited(blocked.value))), [];
    }
    if iteration == NudgeAt(cfg) {
      contextMessages := contextMessages + [System(NUDGE)];
    }
    var answer;
    exchanges, contextMessages, answer := QueryLlm(box.w, cfg, iteration, contextMessages);
    if !answer.Replied? {
      return Stop(Failed(Llm(answer))), exchanges;
    }
    match answer.reply
    case Text(text) =>
      return Stop(Response(text)), exchanges;
    case ToolCalls(toolCalls, content) =>
      step := PerformToolCalls(box, cfg, iteration, contextMessages, toolCalls, content);
  }

  /** What is left of the run `whole` from round `round` on. */
  ghost predicate Left(whole: Trace, play: Player, limit: nat, round: nat, context: seq<Message>, exchanges: seq<Exchange>, executions: seq<Execution>) {
    whole == Preceded(exchanges, executions, PlayFrom(play, limit, round, context))
  }

  /** One more round of the run `whole`. */
  method PlayAnotherRound(
    box: Toolbox, cfg: Config, ghost play: Player, iteration: nat, context: seq<Message>, earlier: seq<Exchange>,
    ghost whole: Trace, ghost start: seq<Execution>, ghost logged: seq<Execution>)
    returns (step: Step, exchanges: seq<Exchange>, ghost executions: seq<Execution>)
    requires Plays(play, box.w, cfg) && iteration <= cfg.maxToolIterations + 1
    requires Left(whole, play, cfg.maxToolIterations, iteration, context, earlier, logged) && Logged(start, box.log, logged)
    modifies box
    ensures Logged(start, box.log, executions)
    ensures step.Stop? ==> whole == Trace(step.end, exchanges, executions)
    ensures step.Continue? ==> Left(whole, play, cfg.maxToolIterations, iteration + 1, step.context, exchanges, executions)
  {
    ghost var before, played := box.log, play(iteration, context);
    OneMoreRound(play, cfg.maxToolIterations, iteration, context, earlier, logged);
    var asked;
    step, asked := PlayOneRound(box, cfg, play, iteration, context);
    exchanges, executions := earlier + asked, logged + played.executions;
    LoggedMore(start, before, box.log, logged, played.executions);
  }

  /** The loop ends for every world: `iteration` cannot pass the ceiling by more than one. */
  method LoopRounds(box: Toolbox, cfg: Config, ghost play: Player, initialMessages: seq<Message>)
    returns (end: LoopEnd, exchanges: seq<Exchange>)
    requires Plays(play, box.w, cfg)
    modifies box
    ensures var t := PlayFrom(play, cfg.maxToolIterations, 1, initialMessages);
            end == t.end && exchanges == t.exchanges && Logged(old(box.log), box.log, t.executions)
  {
    var contextMessages := initialMessages;
    var iteration := 0;
    exchanges := [];
    ghost var start, executions, whole := box.log, [], PlayFrom(play, cfg.maxToolIterations, 1, initialMessages);
    LoggedNothing(box.log);
    while true
      invariant iteration <= cfg.maxToolIterations + 1
      invariant Left(whole, play, cfg.maxToolIterations, iteration + 1, contextMessages, exchanges, executions)
      invariant Logged(start, box.log, executions)
      decreases cfg.maxToolIterations + 2 - iteration
    {
      iteration := iteration + 1;
      if iteration > cfg.maxToolIterations + 1 {
        return Failed(MaxIterations(cfg.maxToolIterations)), exchanges;
      }
      var step;
      step, exchanges, executions :=
        PlayAnotherRound(box, cfg, play, iteration, contextMessages, exchanges, whole, start, executions);
      match step
      case Stop(stopped) =>
        return stopped, exchanges;
      case Continue(next) =>
        contextMessages := next;
    }
  }

  method RunAgenticLoop(box: Toolbox, cfg: Config, initialMessages: seq<Message>) returns (end: LoopEnd, exchanges: seq<Exchange>)
    modifies box
    ensures var t := Run(box.w, cfg, initialMessages);
            end == t.end && exchanges == t.exchanges && Logged(old(box.log), box.log, t.executions)
  {
    end, exchanges := LoopRounds(box, cfg, Rounds(box.w, cfg), initialMessages);
  }
}

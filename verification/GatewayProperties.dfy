/**
 What every run of the gateway agent keeps, whatever the interleaving of prompts,
 cancellations, gateway events, failed sends and disconnects.
 */
module GatewayProperties {
  import opened Basics
  import opened Sessions
  import opened Gateway

  // ---------- The invariant ----------

  /** Pending records belong to their session and their promise is still open. */
  ghost predicate RecordsOpen(a: Agent) {
    forall id :: id in a.pending ==>
      var p := a.pending[id];
      p.sessionId == id && p.idempotencyKey in a.started && a.started[p.idempotencyKey] == id && p.idempotencyKey !in a.settled
  }

  /** A live session with a pending prompt has no active run or that prompt's. */
  ghost predicate RunsAgree(a: Agent) {
    forall id :: id in a.pending && id in a.store.sessions ==>
      a.store.sessions[id].activeRunId == None || a.store.sessions[id].activeRunId == Some(a.pending[id].idempotencyKey)
  }

  ghost predicate RunsStarted(a: Agent) {
    && (forall id :: id in a.store.sessions && a.store.sessions[id].activeRunId.Some? ==>
          var r := a.store.sessions[id].activeRunId.value; r in a.started && a.started[r] == id)
    && (forall r :: r in a.settled ==> r in a.started)
    && (forall r :: r in a.sends ==> r in a.started && a.started[r] == a.sends[r])
  }

  ghost predicate Inv(a: Agent) {
    && Consistent(a.store) && |a.store.sessions| <= a.cfg.maxSessions
    && Listed(a) && RecordsOpen(a) && RunsAgree(a) && RunsStarted(a)
  }

  lemma {:induction false} FindFromFinds(a: Agent, key: string, i: nat)
    requires i <= |a.order| && forall id :: id in a.order ==> id in a.pending
    ensures FindFrom(a, key, i).Some? ==>
              var p := FindFrom(a, key, i).value;
              p.sessionKey == key && exists id :: id in a.order && a.pending[id] == p
    ensures FindFrom(a, key, i).None? ==> forall j :: i <= j < |a.order| ==> a.pending[a.order[j]].sessionKey != key
    decreases |a.order| - i
  {
    if i < |a.order| {
      assert a.order[i] in a.order;
      if a.pending[a.order[i]].sessionKey != key { FindFromFinds(a, key, i + 1); }
    }
  }

  /** The record an event finds is the registered one of its session. */
  lemma FindPendingFinds(a: Agent, key: string)
    requires Inv(a)
    ensures FindPending(a, key).Some? ==>
              var p := FindPending(a, key).value;
              p.sessionKey == key && p.sessionId in a.pending && a.pending[p.sessionId] == p
    ensures FindPending(a, key).None? ==> forall id :: id in a.pending ==> a.pending[id].sessionKey != key
  {
    FindFromFinds(a, key, 0);
    forall id | id in a.pending ensures exists j :: 0 <= j < |a.order| && a.order[j] == id {
      assert id in a.order;
    }
  }

  /** `i` is the place of the first pending prompt with this session key. */
  predicate FirstAt(a: Agent, key: string, i: int)
    requires forall id :: id in a.order ==> id in a.pending
  {
    && 0 <= i < |a.order| && a.pending[a.order[i]].sessionKey == key
    && forall j :: 0 <= j < i ==> a.pending[a.order[j]].sessionKey != key
  }

  lemma {:induction false} FindFromIsFirst(a: Agent, key: string, from: nat, i: nat)
    requires forall id :: id in a.order ==> id in a.pending
    requires FirstAt(a, key, i) && from <= i
    ensures FindFrom(a, key, from) == Some(a.pending[a.order[i]])
    decreases i - from
  {
    if from < i { FindFromIsFirst(a, key, from + 1, i); }
  }

  /** An event is addressed to the prompt that has been pending longest under its session key. */
  lemma FindPendingIsFirst(a: Agent, key: string, i: nat)
    requires Inv(a) && FirstAt(a, key, i)
    ensures FindPending(a, key) == Some(a.pending[a.order[i]])
  {
    FindFromIsFirst(a, key, 0, i);
  }

  // ---------- Every step keeps the invariant ----------

  lemma ForgetListed(a: Agent, id: string)
    requires Listed(a)
    ensures Listed(Forget(a, id)) && Forget(a, id).pending == a.pending - {id}
  {
    KeepMembers(a.order, a.pending.Keys - {id});
    KeepDistinct(a.order, a.pending.Keys - {id});
    if id !in a.pending { assert a.pending - {id} == a.pending; }
  }

  lemma SameSize(a: Store, b: Store)
    requires a.sessions.Keys == b.sessions.Keys
    ensures |a.sessions| == |b.sessions|
  {
    Smaller(a.sessions, b.sessions);
    Smaller(b.sessions, a.sessions);
  }

  lemma CloseKeepsRecords(a: Agent, id: string, run: RunId, how: Settlement, now: int)
    requires Listed(a) && RecordsOpen(a) && RunsAgree(a) && run in a.started && a.started[run] == id
    ensures Listed(Close(a, id, run, how, now)) && RecordsOpen(Close(a, id, run, how, now)) && RunsAgree(Close(a, id, run, how, now))
  {
    ForgetListed(a, id);
  }

  lemma CloseKeepsStarted(a: Agent, id: string, run: RunId, how: Settlement, now: int)
    requires Consistent(a.store) && RunsStarted(a) && run in a.started && a.started[run] == id
    ensures Consistent(Close(a, id, run, how, now).store) && RunsStarted(Close(a, id, run, how, now))
    ensures |Close(a, id, run, how, now).store.sessions| == |a.store.sessions|
  {
    ClearConsistent(a.store, id, now);
    SameSize(ClearActive(a.store, id, now), a.store);
  }

  lemma CloseKeepsInv(a: Agent, id: string, run: RunId, how: Settlement, now: int)
    requires Inv(a) && run in a.started && a.started[run] == id
    ensures Inv(Close(a, id, run, how, now))
  {
    CloseKeepsRecords(a, id, run, how, now);
    CloseKeepsStarted(a, id, run, how, now);
  }

  lemma FinishKeepsInv(a: Agent, p: Pending, reason: StopReason, now: int)
    requires Inv(a) && p.sessionId in a.pending && a.pending[p.sessionId] == p
    ensures Inv(Finish(a, p, reason, now))
  {
    CloseKeepsInv(a, p.sessionId, p.idempotencyKey, Resolved(reason), now);
  }

  lemma SendFailedKeepsInv(a: Agent, run: RunId, error: string, now: int)
    requires Inv(a) && run in a.sends
    ensures Inv(DoSendFailed(a, run, error, now))
  {
    CloseKeepsInv(a, a.sends[run], run, RejectedWith(error), now);
  }

  /** A run may lose its session's other data but not gain an active run. */
  lemma CreateKeepsInv(a: Agent, id: string, key: string, cwd: string, now: int)
    requires Inv(a)
    ensures Inv(a.(store := Create(a.store, a.cfg, id, key, cwd, now).0))
  {
    var after := Create(a.store, a.cfg, id, key, cwd, now).0;
    CreateConsistent(a.store, a.cfg, id, key, cwd, now);
    CreateBounded(a.store, a.cfg, id, key, cwd, now);
    CreateAddsNoRun(a.store, a.cfg, id, key, cwd, now);
  }

  lemma CreateAddsNoRun(st: Store, cfg: Config, id: string, key: string, cwd: string, now: int)
    requires Consistent(st)
    ensures var after := Create(st, cfg, id, key, cwd, now).0;
            forall other :: other in after.sessions ==>
              if other in st.sessions then after.sessions[other].activeRunId == st.sessions[other].activeRunId
              else after.sessions[other].activeRunId == None
  {
    if id !in st.sessions {
      var _ := CreateRemovesOnlyIdle(st, cfg, id, key, cwd, now);
      CreateAddsOnlyIt(st, cfg, id, key, cwd, now);
    }
  }

  lemma TouchKeepsInv(a: Agent, id: string, now: int)
    requires Inv(a)
    ensures Inv(a.(store := Touch(a.store, id, now)))
  {
    TouchConsistent(a.store, id, now);
    SameSize(Touch(a.store, id, now), a.store);
  }

  lemma CancelKeepsInv(a: Agent, id: string, now: int)
    requires Inv(a)
    ensures Inv(a.(store := CancelActive(a.store, id, now)))
  {
    CancelConsistent(a.store, id, now);
    SameSize(CancelActive(a.store, id, now), a.store);
  }

  lemma BeginListed(a: Agent, id: string, run: RunId, controller: Controller, now: int)
    requires Listed(a) && id in a.store.sessions
    ensures Listed(Begin(a, id, run, controller, now))
  {}

  lemma BeginOpen(a: Agent, id: string, run: RunId, controller: Controller, now: int)
    requires RecordsOpen(a) && id in a.store.sessions && run !in a.started && forall r :: r in a.settled ==> r in a.started
    ensures RecordsOpen(Begin(a, id, run, controller, now))
  {}

  lemma BeginAgrees(a: Agent, id: string, run: RunId, controller: Controller, now: int)
    requires RunsAgree(a) && id in a.store.sessions
    ensures RunsAgree(Begin(a, id, run, controller, now))
  {}

  lemma BeginKeepsRecords(a: Agent, id: string, run: RunId, controller: Controller, now: int)
    requires Listed(a) && RecordsOpen(a) && RunsAgree(a) && RunsStarted(a)
    requires id in a.store.sessions && run !in a.started
    ensures var b := Begin(a, id, run, controller, now); Listed(b) && RecordsOpen(b) && RunsAgree(b)
  {
    BeginListed(a, id, run, controller, now);
    BeginOpen(a, id, run, controller, now);
    BeginAgrees(a, id, run, controller, now);
  }

  lemma BeginConsistent(a: Agent, id: string, run: RunId, controller: Controller, now: int)
    requires Consistent(a.store) && RunsStarted(a)
    requires id in a.store.sessions && a.store.sessions[id].activeRunId == None && run !in a.started
    ensures var after := SetActive(a.store, id, run, controller, now);
            Consistent(after) && |after.sessions| == |a.store.sessions|
  {
    assert run !in a.store.runs;
    SetActiveConsistentIff(a.store, id, run, controller, now);
    SameSize(SetActive(a.store, id, run, controller, now), a.store);
  }

  lemma BeginStarts(a: Agent, id: string, run: RunId, controller: Controller, now: int)
    requires RunsStarted(a) && id in a.store.sessions && run !in a.started
    ensures RunsStarted(Begin(a, id, run, controller, now))
  {}

  lemma BeginKeepsStarted(a: Agent, id: string, run: RunId, controller: Controller, now: int)
    requires Consistent(a.store) && RunsStarted(a)
    requires id in a.store.sessions && a.store.sessions[id].activeRunId == None && run !in a.started
    ensures var b := Begin(a, id, run, controller, now);
            Consistent(b.store) && RunsStarted(b) && |b.store.sessions| == |a.store.sessions|
  {
    BeginConsistent(a, id, run, controller, now);
    BeginStarts(a, id, run, controller, now);
  }

  /** Because a prompt cancels first, the session is free when the new run is set. */
  lemma StartKeepsInv(a: Agent, id: string, run: RunId, controller: Controller, now: int)
    requires Inv(a) && id in a.store.sessions && a.store.sessions[id].activeRunId == None && run !in a.started
    ensures Inv(Begin(a, id, run, controller, now))
  {
    BeginKeepsRecords(a, id, run, controller, now);
    BeginKeepsStarted(a, id, run, controller, now);
  }

  lemma PromptKeepsInv(a: Agent, id: string, tooLarge: bool, run: RunId, controller: Controller, now: int)
    requires Inv(a) && run !in a.started
    ensures Inv(DoPrompt(a, id, tooLarge, run, controller, now))
  {
    if id in a.store.sessions {
      var touched := a.(store := Touch(a.store, id, now));
      TouchKeepsInv(a, id, now);
      CancelKeepsInv(touched, id, now);
      var free := a.(store := if touched.store.sessions[id].abortController.Some? then CancelActive(touched.store, id, now) else touched.store);
      assert Inv(free);
      if !tooLarge { StartKeepsInv(free, id, run, controller, now); }
    }
  }

  /** The runs of the first `n` pending prompts. */
  function RunsOf(a: Agent, n: nat): set<RunId>
    requires n <= |a.order| && forall id :: id in a.order ==> id in a.pending
  {
    set i | 0 <= i < n :: a.pending[a.order[i]].idempotencyKey
  }

  lemma {:induction false} RejectFirstSettles(a: Agent, error: string, now: int, n: nat)
    requires n <= |a.order| && forall id :: id in a.order ==> id in a.pending
    ensures var b := RejectFirst(a, error, now, n);
            && b == a.(store := b.store, settled := b.settled)
            && b.settled.Keys == a.settled.Keys + RunsOf(a, n)
            && (forall r :: r in a.settled ==> b.settled[r] == a.settled[r])
            && (forall r :: r in b.settled && r !in a.settled ==> b.settled[r] == RejectedWith(error))
  {
    if n > 0 {
      RejectFirstSettles(a, error, now, n - 1);
      assert RunsOf(a, n) == RunsOf(a, n - 1) + {a.pending[a.order[n - 1]].idempotencyKey};
    }
  }

  lemma {:induction false} RejectFirstConsistent(a: Agent, error: string, now: int, n: nat)
    requires Consistent(a.store) && n <= |a.order| && forall id :: id in a.order ==> id in a.pending
    ensures Consistent(RejectFirst(a, error, now, n).store)
    ensures RejectFirst(a, error, now, n).store.sessions.Keys == a.store.sessions.Keys
  {
    if n > 0 {
      RejectFirstConsistent(a, error, now, n - 1);
      ClearConsistent(RejectFirst(a, error, now, n - 1).store, a.pending[a.order[n - 1]].sessionId, now);
    }
  }

  lemma ClearsOne(st: Store, id: string, now: int)
    ensures var after := ClearActive(st, id, now);
            && after.sessions.Keys == st.sessions.Keys
            && forall other :: other in st.sessions ==>
                 after.sessions[other].activeRunId == if other == id then None else st.sessions[other].activeRunId
  {}

  lemma {:induction false} RejectFirstClears(a: Agent, error: string, now: int, n: nat)
    requires RecordsOpen(a) && n <= |a.order| && forall id :: id in a.order ==> id in a.pending
    ensures var b := RejectFirst(a, error, now, n);
            && b.store.sessions.Keys == a.store.sessions.Keys
            && (forall id :: id in b.store.sessions ==>
                  b.store.sessions[id].activeRunId == if id in a.order[..n] then None else a.store.sessions[id].activeRunId)
  {
    if n > 0 {
      RejectFirstClears(a, error, now, n - 1);
      var id := a.order[n - 1];
      assert id in a.order && a.pending[id].sessionId == id;
      assert a.order[..n] == a.order[..n - 1] + [id];
      ClearsOne(RejectFirst(a, error, now, n - 1).store, id, now);
    }
  }

  lemma RunsOfStarted(a: Agent, n: nat)
    requires Listed(a) && RecordsOpen(a) && n <= |a.order|
    ensures RunsOf(a, n) <= a.started.Keys
  {
    forall i | 0 <= i < n ensures a.pending[a.order[i]].idempotencyKey in a.started {
      assert a.order[i] in a.order;
    }
  }

  lemma RejectFirstKeepsStarted(a: Agent, error: string, now: int, n: nat)
    requires Inv(a) && n <= |a.order|
    ensures RunsStarted(RejectFirst(a, error, now, n))
  {
    RejectFirstSettles(a, error, now, n);
    RejectFirstClears(a, error, now, n);
    RunsOfStarted(a, n);
  }

  lemma DisconnectKeepsInv(a: Agent, reason: string, now: int)
    requires Inv(a)
    ensures Inv(DoDisconnect(a, reason, now))
  {
    var error, n := "Gateway disconnected: " + reason, |a.order|;
    RejectFirstKeepsStarted(a, error, now, n);
    assert RejectFirst(a, error, now, n).cfg == a.cfg && RejectFirst(a, error, now, n).started == a.started
           && RejectFirst(a, error, now, n).sends == a.sends by { RejectFirstSettles(a, error, now, n); }
    RejectFirstConsistent(a, error, now, n);
    SameSize(RejectFirst(a, error, now, n).store, a.store);
  }

  lemma DeltaKeepsInv(a: Agent, id: string, fullText: string)
    requires Inv(a)
    ensures Inv(SendDelta(a, id, fullText))
  {}

  lemma EventKeepsInv(a: Agent, key: string, runId: Option<RunId>, state: ChatState, now: int)
    requires Inv(a)
    ensures Inv(DoChatEvent(a, key, runId, state, now))
  {
    FindPendingFinds(a, key);
    if key != "" && FindPending(a, key).Some? {
      var p := FindPending(a, key).value;
      match state
      case Delta(text) => if text.Some? { DeltaKeepsInv(a, p.sessionId, text.value); }
      case Final => FinishKeepsInv(a, p, EndTurn, now);
      case Aborted => FinishKeepsInv(a, p, Cancelled, now);
      case Error => FinishKeepsInv(a, p, Refusal, now);
      case OtherState =>
    }
  }

  lemma ToolEventKeepsInv(a: Agent, key: string, toolCallId: string, phase: Phase)
    requires Inv(a)
    ensures Inv(DoToolEvent(a, key, toolCallId, phase))
  {
    FindPendingFinds(a, key);
  }

  /** A record goes and its run is settled; the session is left alone. */
  lemma DropKeepsRecords(a: Agent, id: string, how: Settlement)
    requires Listed(a) && RecordsOpen(a) && RunsAgree(a) && id in a.pending
    ensures var b := Forget(a, id).(settled := Settled(a.settled, a.pending[id].idempotencyKey, how));
            Listed(b) && RecordsOpen(b) && RunsAgree(b)
  {
    ForgetListed(a, id);
  }

  lemma CancelEndKeepsInv(a: Agent, id: string)
    requires Inv(a)
    ensures Inv(DoCancelEnd(a, id))
  {
    var b := a.(aborts := a.aborts - multiset{id});
    assert Inv(b);
    if id in a.pending {
      DropKeepsRecords(b, id, Resolved(Cancelled));
      assert RunsStarted(DoCancelEnd(a, id));
    }
  }

  lemma SendAnsweredKeepsInv(a: Agent, run: RunId)
    requires Inv(a) && run in a.sends
    ensures Inv(a.(sends := a.sends - {run}))
  {}

  lemma CancelBeginKeepsInv(a: Agent, id: string, now: int)
    requires Inv(a)
    ensures Inv(DoCancelBegin(a, id, now))
  {
    TouchKeepsInv(a, id, now);
    CancelKeepsInv(a.(store := Touch(a.store, id, now)), id, now);
  }

  lemma NextKeepsInv(a: Agent, step: Step)
    requires Inv(a) && Enabled(a, step)
    ensures Inv(Next(a, step))
  {
    match step
    case CreateSession(id, key, cwd, now) => CreateKeepsInv(a, id, key, cwd, now);
    case GetSession(id, now) => TouchKeepsInv(a, id, now);
    case Prompt(id, tooLarge, run, controller, now) => PromptKeepsInv(a, id, tooLarge, run, controller, now);
    case SendAnswered(run) => SendAnsweredKeepsInv(a, run);
    case SendFailed(run, error, now) => SendFailedKeepsInv(a, run, error, now);
    case CancelBegin(id, now) => CancelBeginKeepsInv(a, id, now);
    case CancelEnd(id) => CancelEndKeepsInv(a, id);
    case ChatEvent(key, runId, state, now) => EventKeepsInv(a, key, runId, state, now);
    case ToolEvent(key, toolCallId, phase) => ToolEventKeepsInv(a, key, toolCallId, phase);
    case Disconnect(reason, now) => DisconnectKeepsInv(a, reason, now);
  }

  /** The states a run goes through: any enabled steps, in any order. Being listed and ordered
      only makes the next state defined; `TrailsExtend` shows that it never holds a step back. */
  ghost predicate Trail(states: seq<Agent>, steps: seq<Step>) {
    && |states| == |steps| + 1 && states[0] == Initial(states[0].cfg)
    && forall i {:trigger steps[i]} :: 0 <= i < |steps| ==>
         Listed(states[i]) && Ordered(states[i].store) && Enabled(states[i], steps[i]) && states[i + 1] == Next(states[i], steps[i])
  }

  lemma TrailStep(states: seq<Agent>, steps: seq<Step>, i: nat)
    requires Trail(states, steps) && i < |steps| && Inv(states[i])
    ensures Enabled(states[i], steps[i]) && states[i + 1] == Next(states[i], steps[i]) && Inv(states[i + 1])
  {
    NextKeepsInv(states[i], steps[i]);
  }

  lemma InitialInv(cfg: Config)
    ensures Inv(Initial(cfg))
  {}

  lemma TrailStart(states: seq<Agent>, steps: seq<Step>)
    requires Trail(states, steps)
    ensures states[0] == Initial(states[0].cfg)
  {}

  lemma {:induction false} Along(states: seq<Agent>, n: nat, p: Agent -> bool)
    requires n < |states| && p(states[0])
    requires forall i :: 0 <= i < n && p(states[i]) ==> p(states[i + 1])
    ensures p(states[n])
  {
    if n > 0 {
      Along(states, n - 1, p);
      assert p(states[n - 1 + 1]);
    }
  }

  /** In every reachable state the three maps agree: the run index with the active runs, the
      controllers with the active runs, and the pending prompts with both; and no record in the
      pending map has a settled promise. */
  lemma EveryStateInv(states: seq<Agent>, steps: seq<Step>, n: nat)
    requires Trail(states, steps) && n <= |steps|
    ensures Inv(states[n])
  {
    var p := (a: Agent) => Inv(a);
    TrailStart(states, steps);
    InitialInv(states[0].cfg);
    forall i | 0 <= i < n && p(states[i]) ensures p(states[i + 1]) {
      TrailStep(states, steps, i);
    }
    Along(states, n, p);
  }

  /** Every enabled step can follow every run. */
  lemma TrailsExtend(states: seq<Agent>, steps: seq<Step>, step: Step)
    requires Trail(states, steps) && Enabled(states[|steps|], step)
    ensures Listed(states[|steps|]) && Ordered(states[|steps|].store)
    ensures Trail(states + [Next(states[|steps|], step)], steps + [step])
  {
    EveryStateInv(states, steps, |steps|);
    var longer, all := states + [Next(states[|steps|], step)], steps + [step];
    forall i | 0 <= i < |all|
      ensures Listed(longer[i]) && Ordered(longer[i].store) && Enabled(longer[i], all[i]) && longer[i + 1] == Next(longer[i], all[i])
    {
      assert i < |steps| ==> all[i] == steps[i];
    }
  }

  // ---------- Settling ----------

  predicate Ends(state: ChatState) { state.Final? || state.Aborted? || state.Error? }

  /** The event finds the record of run `r`, and carries that run id if it carries any. */
  predicate Addressed(a: Agent, key: string, runId: Option<RunId>, r: RunId)
    requires forall id :: id in a.order ==> id in a.pending
  {
    && key != "" && FindPending(a, key).Some? && FindPending(a, key).value.idempotencyKey == r
    && (runId.Some? ==> runId.value == r)
  }

  function ReasonOf(state: ChatState): StopReason
    requires Ends(state)
  {
    if state.Final? then EndTurn else if state.Aborted? then Cancelled else Refusal
  }

  lemma LastEventFinishes(a: Agent, key: string, runId: Option<RunId>, state: ChatState, now: int, r: RunId)
    requires Inv(a) && Ends(state) && Addressed(a, key, runId, r)
    ensures DoChatEvent(a, key, runId, state, now) == Finish(a, FindPending(a, key).value, ReasonOf(state), now)
  {}

  lemma OtherEventSettlesNothing(a: Agent, key: string, runId: Option<RunId>, state: ChatState, now: int)
    requires Inv(a)
    requires Ends(state) ==> FindPending(a, key).None? || !Addressed(a, key, runId, FindPending(a, key).value.idempotencyKey)
    ensures DoChatEvent(a, key, runId, state, now).settled == a.settled
  {}

  lemma FinishSettles(a: Agent, p: Pending, reason: StopReason, now: int)
    requires Inv(a) && p.sessionId in a.pending && a.pending[p.sessionId] == p
    ensures var r, b := p.idempotencyKey, Finish(a, p, reason, now);
            && r !in a.settled && b.settled == a.settled[r := Resolved(reason)]
            && r in a.started && a.started[r] == p.sessionId
            && b.pending == a.pending - {p.sessionId}
            && (p.sessionId in b.store.sessions ==> b.store.sessions[p.sessionId].activeRunId == None)
  {
    ForgetListed(a, p.sessionId);
    ClearsOne(a.store, p.sessionId, now);
  }

  /** A chat event settles a run exactly when it is a last event and addressed to that run's record,
      the first one with its session key. The record leaves the map as it settles, and its
      session's active run is cleared. */
  lemma ChatEventSettlesItsRecord(a: Agent, key: string, runId: Option<RunId>, state: ChatState, now: int, r: RunId)
    requires Inv(a)
    ensures var b := DoChatEvent(a, key, runId, state, now);
            && (r in b.settled && r !in a.settled <==> Ends(state) && Addressed(a, key, runId, r))
            && (r in b.settled && r !in a.settled ==>
                  && b.settled == a.settled[r := Resolved(ReasonOf(state))]
                  && r in a.started && a.started[r] in a.pending
                  && a.pending[a.started[r]].idempotencyKey == r && a.pending[a.started[r]].sessionKey == key
                  && b.pending == a.pending - {a.started[r]}
                  && (a.started[r] in b.store.sessions ==> b.store.sessions[a.started[r]].activeRunId == None))
  {
    FindPendingFinds(a, key);
    var found := FindPending(a, key);
    if Ends(state) && found.Some? && Addressed(a, key, runId, found.value.idempotencyKey) {
      LastEventFinishes(a, key, runId, state, now, found.value.idempotencyKey);
      FinishSettles(a, found.value, ReasonOf(state), now);
    } else {
      OtherEventSettlesNothing(a, key, runId, state, now);
    }
  }

  /** When two sessions share a key, chat events for the prompt that came second are ignored. */
  lemma SecondPromptOfAKeyIsDeaf(a: Agent, key: string, i: nat, id: string, state: ChatState, now: int)
    requires Inv(a) && FirstAt(a, key, i) && id in a.pending && a.pending[id].sessionKey == key && id != a.order[i]
    ensures DoChatEvent(a, key, Some(a.pending[id].idempotencyKey), state, now) == a
  {
    FindPendingIsFirst(a, key, i);
    assert a.order[i] in a.order;
  }

  predicate Extends(before: map<RunId, Settlement>, after: map<RunId, Settlement>) {
    forall r :: r in before ==> r in after && after[r] == before[r]
  }

  lemma DisconnectExtends(a: Agent, reason: string, now: int)
    requires Listed(a)
    ensures Extends(a.settled, DoDisconnect(a, reason, now).settled)
  {
    RejectFirstSettles(a, "Gateway disconnected: " + reason, now, |a.order|);
  }

  lemma ChatEventExtends(a: Agent, key: string, runId: Option<RunId>, state: ChatState, now: int)
    requires Listed(a)
    ensures Extends(a.settled, DoChatEvent(a, key, runId, state, now).settled)
  {}

  lemma SendFailedExtends(a: Agent, run: RunId, error: string, now: int)
    requires run in a.sends
    ensures Extends(a.settled, DoSendFailed(a, run, error, now).settled)
  {}

  lemma CancelEndExtends(a: Agent, id: string)
    ensures Extends(a.settled, DoCancelEnd(a, id).settled)
  {}

  lemma QuietSteps(a: Agent, step: Step)
    requires Listed(a) && Ordered(a.store) && Enabled(a, step)
    requires !step.SendFailed? && !step.CancelEnd? && !step.ChatEvent? && !step.Disconnect?
    ensures Next(a, step).settled == a.settled
  {
    match step
    case Prompt(id, tooLarge, run, controller, now) => PromptSettlesNothing(a, id, tooLarge, run, controller, now);
    case ToolEvent(key, toolCallId, phase) => ToolEventSettlesNothing(a, key, toolCallId, phase);
    case _ =>
  }

  lemma PromptSettlesNothing(a: Agent, id: string, tooLarge: bool, run: RunId, controller: Controller, now: int)
    ensures DoPrompt(a, id, tooLarge, run, controller, now).settled == a.settled
  {}

  lemma ToolEventSettlesNothing(a: Agent, key: string, toolCallId: string, phase: Phase)
    requires Listed(a)
    ensures DoToolEvent(a, key, toolCallId, phase).settled == a.settled
  {}

  /** A promise is settled once and for all. */
  lemma SettledForGood(a: Agent, step: Step)
    requires Listed(a) && Ordered(a.store) && Enabled(a, step)
    ensures Extends(a.settled, Next(a, step).settled)
  {
    match step
    case Disconnect(reason, now) => DisconnectExtends(a, reason, now);
    case ChatEvent(key, runId, state, now) => ChatEventExtends(a, key, runId, state, now);
    case SendFailed(run, error, now) => SendFailedExtends(a, run, error, now);
    case CancelEnd(id) => CancelEndExtends(a, id);
    case _ => QuietSteps(a, step);
  }

  function PendingRuns(a: Agent): set<RunId> {
    set id | id in a.pending :: a.pending[id].idempotencyKey
  }

  /** Prompts whose promise is open but which no record stands for any more. */
  function Lost(a: Agent): set<RunId> {
    a.started.Keys - a.settled.Keys - PendingRuns(a)
  }

  /** The runs that a step newly loses. */
  function Loses(a: Agent, step: Step): set<RunId>
    requires Enabled(a, step)
  {
    match step
    case Prompt(id, tooLarge, _, _, _) =>
      if id in a.store.sessions && !tooLarge && id in a.pending then {a.pending[id].idempotencyKey} else {}
    case SendFailed(run, _, _) =>
      var id := a.sends[run];
      if id in a.pending && a.pending[id].idempotencyKey != run then {a.pending[id].idempotencyKey} else {}
    case _ => {}
  }

  lemma ForgetRuns(a: Agent, id: string)
    requires Inv(a)
    ensures PendingRuns(Forget(a, id)) ==
            if id in a.pending then PendingRuns(a) - {a.pending[id].idempotencyKey} else PendingRuns(a)
  {
    ForgetListed(a, id);
    if id in a.pending {
      forall other | other in a.pending && a.pending[other].idempotencyKey == a.pending[id].idempotencyKey
        ensures other == id {}
      forall r | r in PendingRuns(a) && r != a.pending[id].idempotencyKey
        ensures r in PendingRuns(Forget(a, id))
      {
        var other :| other in a.pending && a.pending[other].idempotencyKey == r;
        assert other in Forget(a, id).pending;
      }
    }
  }

  lemma UpdateRuns(a: Agent, id: string, p: Pending)
    requires Inv(a) && id in a.pending && p.idempotencyKey == a.pending[id].idempotencyKey
    ensures PendingRuns(a.(pending := a.pending[id := p])) == PendingRuns(a)
  {
    var b := a.(pending := a.pending[id := p]);
    forall r | r in PendingRuns(a) ensures r in PendingRuns(b) {
      var other :| other in a.pending && a.pending[other].idempotencyKey == r;
      assert other in b.pending;
    }
  }

  lemma BeginRuns(a: Agent, id: string, run: RunId, controller: Controller, now: int)
    requires Inv(a) && id in a.store.sessions && run !in a.started
    ensures PendingRuns(Begin(a, id, run, controller, now)) ==
            PendingRuns(a) - (if id in a.pending then {a.pending[id].idempotencyKey} else {}) + {run}
  {
    var b := Begin(a, id, run, controller, now);
    assert id in b.pending && b.pending[id].idempotencyKey == run;
    forall r | r in PendingRuns(a) && !(id in a.pending && r == a.pending[id].idempotencyKey)
      ensures r in PendingRuns(b)
    {
      var other :| other in a.pending && a.pending[other].idempotencyKey == r;
      assert other in b.pending && b.pending[other] == a.pending[other];
    }
    forall r | r in PendingRuns(b) && r != run ensures r in PendingRuns(a) && !(id in a.pending && r == a.pending[id].idempotencyKey) {
      var other :| other in b.pending && b.pending[other].idempotencyKey == r;
      assert other != id && other in a.pending && a.pending[other] == b.pending[other];
    }
  }

  lemma LoseOnStart(started: set<RunId>, settled: set<RunId>, pending: set<RunId>, dropped: set<RunId>, run: RunId)
    requires dropped <= pending && pending <= started && pending !! settled && run !in started
    ensures (started + {run}) - settled - (pending - dropped + {run}) == started - settled - pending + dropped
  {}

  lemma BeginLoses(a: Agent, id: string, run: RunId, controller: Controller, now: int)
    requires Inv(a) && id in a.store.sessions && run !in a.started
    ensures Lost(Begin(a, id, run, controller, now)) ==
            Lost(a) + if id in a.pending then {a.pending[id].idempotencyKey} else {}
  {
    var b := Begin(a, id, run, controller, now);
    var dropped := if id in a.pending then {a.pending[id].idempotencyKey} else {};
    BeginRuns(a, id, run, controller, now);
    LoseOnStart(a.started.Keys, a.settled.Keys, PendingRuns(a), dropped, run);
    assert b.started.Keys == a.started.Keys + {run};
  }

  lemma FreedKeepsInv(a: Agent, id: string, now: int)
    requires Inv(a) && id in a.store.sessions
    ensures Inv(Freed(a, id, now)) && id in Freed(a, id, now).store.sessions
    ensures Freed(a, id, now).store.sessions[id].activeRunId == None
  {
    TouchKeepsInv(a, id, now);
    CancelKeepsInv(a.(store := Touch(a.store, id, now)), id, now);
  }

  lemma PromptLoses(a: Agent, id: string, tooLarge: bool, run: RunId, controller: Controller, now: int)
    requires Inv(a) && run !in a.started
    ensures Lost(DoPrompt(a, id, tooLarge, run, controller, now)) == Lost(a) + Loses(a, Prompt(id, tooLarge, run, controller, now))
  {
    if id in a.store.sessions && !tooLarge {
      FreedKeepsInv(a, id, now);
      BeginLoses(Freed(a, id, now), id, run, controller, now);
    }
  }

  /** Taking record `k` out of the pending runs while settling `r`. */
  lemma SettleOneOfMany(started: set<RunId>, settled: set<RunId>, pending: set<RunId>, r: RunId, k: RunId)
    requires k in pending && k in started && k !in settled
    ensures started - (settled + {r}) - (pending - {k}) == started - settled - pending - {r} + if k != r then {k} else {}
  {}

  lemma SendFailedRuns(a: Agent, run: RunId, error: string, now: int)
    requires run in a.sends
    ensures var after := DoSendFailed(a, run, error, now);
            && PendingRuns(after) == PendingRuns(Forget(a, a.sends[run]))
            && after.started == a.started && after.settled.Keys == a.settled.Keys + {run}
  {}

  lemma SendFailedLoses(a: Agent, run: RunId, error: string, now: int)
    requires Inv(a) && run in a.sends
    ensures Lost(DoSendFailed(a, run, error, now)) == Lost(a) - {run} + Loses(a, SendFailed(run, error, now))
  {
    var id := a.sends[run];
    ForgetRuns(a, id);
    SendFailedRuns(a, run, error, now);
    if id in a.pending {
      assert a.pending[id].idempotencyKey in PendingRuns(a);
      SettleOneOfMany(a.started.Keys, a.settled.Keys, PendingRuns(a), run, a.pending[id].idempotencyKey);
    }
  }

  lemma CancelEndLosesNothing(a: Agent, id: string)
    requires Inv(a)
    ensures Lost(DoCancelEnd(a, id)) == Lost(a)
  {
    ForgetRuns(a, id);
    if id in a.pending { assert a.pending[id].idempotencyKey in PendingRuns(a); }
  }

  lemma AllRuns(a: Agent)
    requires Listed(a)
    ensures RunsOf(a, |a.order|) == PendingRuns(a)
  {
    forall r | r in PendingRuns(a) ensures r in RunsOf(a, |a.order|) {
      var id :| id in a.pending && a.pending[id].idempotencyKey == r;
      assert id in a.order;
      var i :| 0 <= i < |a.order| && a.order[i] == id;
    }
    forall r | r in RunsOf(a, |a.order|) ensures r in PendingRuns(a) {
      var i :| 0 <= i < |a.order| && a.pending[a.order[i]].idempotencyKey == r;
      assert a.order[i] in a.order;
    }
  }

  /** A disconnect rejects every pending prompt and empties the map. */
  lemma DisconnectRejectsAll(a: Agent, reason: string, now: int)
    requires Inv(a)
    ensures var b := DoDisconnect(a, reason, now);
            && b.pending == map[] && b.started == a.started
            && b.settled.Keys == a.settled.Keys + PendingRuns(a)
            && (forall r :: r in PendingRuns(a) ==> b.settled[r] == RejectedWith("Gateway disconnected: " + reason))
  {
    RejectFirstSettles(a, "Gateway disconnected: " + reason, now, |a.order|);
    AllRuns(a);
    forall r | r in PendingRuns(a) ensures r !in a.settled {
      var id :| id in a.pending && a.pending[id].idempotencyKey == r;
    }
  }

  lemma DisconnectLosesNothing(a: Agent, reason: string, now: int)
    requires Inv(a)
    ensures Lost(DoDisconnect(a, reason, now)) == Lost(a)
  {
    DisconnectRejectsAll(a, reason, now);
  }

  lemma FinishLosesNothing(a: Agent, p: Pending, reason: StopReason, now: int)
    requires Inv(a) && p.sessionId in a.pending && a.pending[p.sessionId] == p
    ensures Lost(Finish(a, p, reason, now)) == Lost(a)
  {
    ForgetRuns(a, p.sessionId);
    assert p.idempotencyKey in PendingRuns(a);
  }

  lemma DeltaLosesNothing(a: Agent, id: string, fullText: string)
    requires Inv(a)
    ensures Lost(SendDelta(a, id, fullText)) == Lost(a)
  {
    if id in a.pending {
      UpdateRuns(a, id, a.pending[id].(sentTextLength := Some(|fullText|), sentText := Some(fullText)));
    }
  }

  lemma EventLosesNothing(a: Agent, key: string, runId: Option<RunId>, state: ChatState, now: int)
    requires Inv(a)
    ensures Lost(DoChatEvent(a, key, runId, state, now)) == Lost(a)
  {
    FindPendingFinds(a, key);
    if key != "" && FindPending(a, key).Some? {
      var p := FindPending(a, key).value;
      match state
      case Delta(text) => if text.Some? { DeltaLosesNothing(a, p.sessionId, text.value); }
      case Final => FinishLosesNothing(a, p, EndTurn, now);
      case Aborted => FinishLosesNothing(a, p, Cancelled, now);
      case Error => FinishLosesNothing(a, p, Refusal, now);
      case OtherState =>
    }
  }

  lemma ToolEventLosesNothing(a: Agent, key: string, toolCallId: string, phase: Phase)
    requires Inv(a)
    ensures Lost(DoToolEvent(a, key, toolCallId, phase)) == Lost(a)
  {
    FindPendingFinds(a, key);
    if key != "" && FindPending(a, key).Some? {
      var p := FindPending(a, key).value;
      UpdateRuns(a, p.sessionId, p.(toolCalls := Some(Announced(p) + {toolCallId})));
    }
  }

  /** Exactly two kinds of step lose a prompt: starting one on a session whose earlier prompt is
      still pending, and a failed send that removes a record other than its own. */
  lemma LostExactly(a: Agent, step: Step)
    requires Inv(a) && Enabled(a, step)
    ensures Lost(Next(a, step)) == (if step.SendFailed? then Lost(a) - {step.run} else Lost(a)) + Loses(a, step)
  {
    match step
    case Prompt(id, tooLarge, run, controller, now) => PromptLoses(a, id, tooLarge, run, controller, now);
    case SendFailed(run, error, now) => SendFailedLoses(a, run, error, now);
    case CancelEnd(id) => CancelEndLosesNothing(a, id);
    case ChatEvent(key, runId, state, now) => EventLosesNothing(a, key, runId, state, now);
    case ToolEvent(key, toolCallId, phase) => ToolEventLosesNothing(a, key, toolCallId, phase);
    case Disconnect(reason, now) => DisconnectLosesNothing(a, reason, now);
    case CreateSession(id, key, cwd, now) =>
    case GetSession(id, now) =>
    case SendAnswered(run) =>
    case CancelBegin(id, now) =>
  }

  /** A patient client starts a prompt on a session only once every earlier prompt there is
      settled and its `chat.send` answered. */
  ghost predicate Patient(a: Agent, step: Step) {
    step.Prompt? ==> forall r :: r in a.started && a.started[r] == step.id ==> r in a.settled && r !in a.sends
  }

  /** An outstanding send belongs to the prompt that is pending on its session, if any is. */
  ghost predicate SendsMatch(a: Agent) {
    forall r :: r in a.sends && a.sends[r] in a.pending ==> a.pending[a.sends[r]].idempotencyKey == r
  }

  lemma EventKeepsSendsMatch(a: Agent, key: string, runId: Option<RunId>, state: ChatState, now: int)
    requires Inv(a) && SendsMatch(a)
    ensures SendsMatch(DoChatEvent(a, key, runId, state, now))
  {
    FindPendingFinds(a, key);
  }

  lemma ToolEventKeepsSendsMatch(a: Agent, key: string, toolCallId: string, phase: Phase)
    requires Inv(a) && SendsMatch(a)
    ensures SendsMatch(DoToolEvent(a, key, toolCallId, phase))
  {
    FindPendingFinds(a, key);
  }

  lemma PromptKeepsSendsMatch(a: Agent, id: string, tooLarge: bool, run: RunId, controller: Controller, now: int)
    requires Inv(a) && SendsMatch(a) && run !in a.started && Patient(a, Prompt(id, tooLarge, run, controller, now))
    ensures SendsMatch(DoPrompt(a, id, tooLarge, run, controller, now))
  {}

  lemma NextKeepsSendsMatch(a: Agent, step: Step)
    requires Inv(a) && Enabled(a, step) && SendsMatch(a) && Patient(a, step)
    ensures SendsMatch(Next(a, step))
  {
    match step
    case Prompt(id, tooLarge, run, controller, now) => PromptKeepsSendsMatch(a, id, tooLarge, run, controller, now);
    case ChatEvent(key, runId, state, now) => EventKeepsSendsMatch(a, key, runId, state, now);
    case ToolEvent(key, toolCallId, phase) => ToolEventKeepsSendsMatch(a, key, toolCallId, phase);
    case _ =>
  }

  lemma PendingIsOpen(a: Agent, id: string)
    requires Inv(a) && id in a.pending
    ensures exists r :: r in a.started && a.started[r] == id && r !in a.settled
  {
    assert a.pending[id].idempotencyKey in a.started;
  }

  lemma PatientStepLosesNothing(a: Agent, step: Step)
    requires Inv(a) && Enabled(a, step) && SendsMatch(a) && Patient(a, step)
    ensures Loses(a, step) == {}
  {
    forall id | id in a.pending ensures exists r :: r in a.started && a.started[r] == id && r !in a.settled {
      PendingIsOpen(a, id);
    }
  }

  lemma PatientTrailStep(states: seq<Agent>, steps: seq<Step>, i: nat)
    requires Trail(states, steps) && i < |steps| && Inv(states[i]) && Patient(states[i], steps[i])
    requires Lost(states[i]) == {} && SendsMatch(states[i])
    ensures Lost(states[i + 1]) == {} && SendsMatch(states[i + 1])
  {
    TrailStep(states, steps, i);
    LostExactly(states[i], steps[i]);
    PatientStepLosesNothing(states[i], steps[i]);
    NextKeepsSendsMatch(states[i], steps[i]);
  }

  lemma InitialLostNone(cfg: Config)
    ensures Lost(Initial(cfg)) == {} && SendsMatch(Initial(cfg))
  {}

  /** With patient clients no prompt is ever lost: its promise is settled or its record is there. */
  lemma PatientClientsLoseNothing(states: seq<Agent>, steps: seq<Step>, n: nat)
    requires Trail(states, steps) && n <= |steps|
    requires forall j {:trigger steps[j]} :: 0 <= j < |steps| ==> Patient(states[j], steps[j])
    ensures Lost(states[n]) == {}
  {
    var p := (a: Agent) => Lost(a) == {} && SendsMatch(a);
    TrailStart(states, steps);
    InitialLostNone(states[0].cfg);
    forall i | 0 <= i < n && p(states[i]) ensures p(states[i + 1]) {
      EveryStateInv(states, steps, i);
      assert Patient(states[i], steps[i]);
      PatientTrailStep(states, steps, i);
    }
    Along(states, n, p);
  }

  // ---------- Sessions left with an active run and no pending prompt ----------

  /** The session's active run has no pending record. */
  predicate Orphaned(a: Agent, id: string) {
    id in a.store.sessions && a.store.sessions[id].activeRunId.Some? && id !in a.pending
  }

  lemma ClearUnorphans(a: Agent, id: string, run: RunId, how: Settlement, now: int, other: string)
    requires Inv(a)
    ensures Orphaned(Close(a, id, run, how, now), other) <==> Orphaned(a, other) && other != id
  {
    ForgetListed(a, id);
  }

  lemma CreateOrphansNothing(a: Agent, id: string, key: string, cwd: string, now: int, other: string)
    requires Inv(a)
    ensures Orphaned(a.(store := Create(a.store, a.cfg, id, key, cwd, now).0), other) ==> Orphaned(a, other)
  {
    CreateAddsNoRun(a.store, a.cfg, id, key, cwd, now);
  }

  lemma EventOrphansNothing(a: Agent, key: string, runId: Option<RunId>, state: ChatState, now: int, other: string)
    requires Inv(a) && Orphaned(DoChatEvent(a, key, runId, state, now), other)
    ensures Orphaned(a, other)
  {
    FindPendingFinds(a, key);
    if key != "" && FindPending(a, key).Some? {
      var p := FindPending(a, key).value;
      ClearUnorphans(a, p.sessionId, p.idempotencyKey, Resolved(EndTurn), now, other);
      ClearUnorphans(a, p.sessionId, p.idempotencyKey, Resolved(Cancelled), now, other);
      ClearUnorphans(a, p.sessionId, p.idempotencyKey, Resolved(Refusal), now, other);
    }
  }

  lemma DisconnectOrphansNothing(a: Agent, reason: string, now: int, other: string)
    requires Inv(a) && Orphaned(DoDisconnect(a, reason, now), other)
    ensures Orphaned(a, other)
  {
    RejectFirstClears(a, "Gateway disconnected: " + reason, now, |a.order|);
    assert a.order[..|a.order|] == a.order;
  }

  lemma CancelEndOrphans(a: Agent, id: string, other: string)
    requires Inv(a)
    ensures Orphaned(DoCancelEnd(a, id), other) <==>
            Orphaned(a, other) || (other == id && id in a.pending && id in a.store.sessions && a.store.sessions[id].activeRunId.Some?)
  {
    ForgetListed(a, id);
  }

  lemma ToolEventOrphansNothing(a: Agent, key: string, toolCallId: string, phase: Phase, other: string)
    requires Inv(a)
    ensures Orphaned(DoToolEvent(a, key, toolCallId, phase), other) <==> Orphaned(a, other)
  {
    FindPendingFinds(a, key);
  }

  lemma PromptOrphansNothing(a: Agent, id: string, tooLarge: bool, run: RunId, controller: Controller, now: int, other: string)
    requires Inv(a) && run !in a.started && Orphaned(DoPrompt(a, id, tooLarge, run, controller, now), other)
    ensures Orphaned(a, other)
  {
    if id in a.store.sessions { FreedKeepsInv(a, id, now); }
  }

  lemma CancelBeginOrphansNothing(a: Agent, id: string, now: int, other: string)
    requires Inv(a) && Orphaned(DoCancelBegin(a, id, now), other)
    ensures Orphaned(a, other)
  {}

  /** A session is newly left with an active run but no pending prompt exactly when a waiting
      cancellation resumes on it while a prompt is running there. `LateCancelFollowsAPrompt` says
      that this prompt is a later one. */
  lemma OrphanedOnlyByLateCancel(a: Agent, step: Step, id: string)
    requires Inv(a) && Enabled(a, step)
    ensures Orphaned(Next(a, step), id) && !Orphaned(a, id) <==>
            step == CancelEnd(id) && id in a.pending && id in a.store.sessions && a.store.sessions[id].activeRunId.Some?
  {
    match step
    case CreateSession(sid, key, cwd, now) => CreateOrphansNothing(a, sid, key, cwd, now, id);
    case SendFailed(run, error, now) => ClearUnorphans(a, a.sends[run], run, RejectedWith(error), now, id);
    case CancelEnd(sid) => CancelEndOrphans(a, sid, id);
    case ChatEvent(key, runId, state, now) =>
      if Orphaned(Next(a, step), id) { EventOrphansNothing(a, key, runId, state, now, id); }
    case ToolEvent(key, toolCallId, phase) => ToolEventOrphansNothing(a, key, toolCallId, phase, id);
    case Disconnect(reason, now) =>
      if Orphaned(Next(a, step), id) { DisconnectOrphansNothing(a, reason, now, id); }
    case Prompt(sid, tooLarge, run, controller, now) =>
      if Orphaned(Next(a, step), id) { PromptOrphansNothing(a, sid, tooLarge, run, controller, now, id); }
    case CancelBegin(sid, now) =>
      if Orphaned(Next(a, step), id) { CancelBeginOrphansNothing(a, sid, now, id); }
    case GetSession(sid, now) =>
    case SendAnswered(run) =>
  }

  lemma RejectKeepsNoRun(a: Agent, reason: string, now: int, id: string)
    requires Inv(a) && id in DoDisconnect(a, reason, now).store.sessions
    ensures id in a.store.sessions
    ensures DoDisconnect(a, reason, now).store.sessions[id].activeRunId in {None, a.store.sessions[id].activeRunId}
  {
    RejectFirstClears(a, "Gateway disconnected: " + reason, now, |a.order|);
  }

  /** The session has this active run. */
  predicate Runs(a: Agent, id: string, r: RunId) {
    id in a.store.sessions && a.store.sessions[id].activeRunId == Some(r)
  }

  lemma CloseGivesNoRun(a: Agent, sid: string, run: RunId, how: Settlement, now: int, id: string, r: RunId)
    requires Runs(Close(a, sid, run, how, now), id, r)
    ensures Runs(a, id, r)
  {
    ClearsOne(a.store, sid, now);
  }

  lemma CreateGivesNoRun(a: Agent, sid: string, key: string, cwd: string, now: int, id: string, r: RunId)
    requires Inv(a) && Runs(a.(store := Create(a.store, a.cfg, sid, key, cwd, now).0), id, r)
    ensures Runs(a, id, r)
  {
    CreateAddsNoRun(a.store, a.cfg, sid, key, cwd, now);
  }

  lemma EventGivesNoRun(a: Agent, key: string, runId: Option<RunId>, state: ChatState, now: int, id: string, r: RunId)
    requires Inv(a) && Runs(DoChatEvent(a, key, runId, state, now), id, r)
    ensures Runs(a, id, r)
  {
    if key != "" && FindPending(a, key).Some? && Ends(state) {
      var p := FindPending(a, key).value;
      var closed := Finish(a, p, ReasonOf(state), now);
      if Runs(closed, id, r) { CloseGivesNoRun(a, p.sessionId, p.idempotencyKey, Resolved(ReasonOf(state)), now, id, r); }
    }
  }

  lemma PromptGivesItsRun(a: Agent, sid: string, tooLarge: bool, run: RunId, controller: Controller, now: int, id: string, r: RunId)
    requires Runs(DoPrompt(a, sid, tooLarge, run, controller, now), id, r) && !Runs(a, id, r)
    ensures sid == id && run == r
  {
  }

  lemma CancelGivesNoRun(a: Agent, sid: string, now: int, id: string, r: RunId)
    requires Runs(DoCancelBegin(a, sid, now), id, r)
    ensures Runs(a, id, r)
  {
  }

  /** Only a prompt gives a session a new active run. */
  lemma ActiveRunComesFromPrompt(a: Agent, step: Step, id: string, r: RunId)
    requires Inv(a) && Enabled(a, step) && Runs(Next(a, step), id, r) && !Runs(a, id, r)
    ensures step.Prompt? && step.id == id && step.run == r
  {
    match step
    case CreateSession(sid, key, cwd, now) => CreateGivesNoRun(a, sid, key, cwd, now, id, r);
    case GetSession(sid, now) =>
    case Prompt(sid, tooLarge, run, controller, now) => PromptGivesItsRun(a, sid, tooLarge, run, controller, now, id, r);
    case SendAnswered(run) =>
    case SendFailed(run, error, now) => CloseGivesNoRun(a, a.sends[run], run, RejectedWith(error), now, id, r);
    case CancelBegin(sid, now) => CancelGivesNoRun(a, sid, now, id, r);
    case CancelEnd(sid) =>
    case ChatEvent(key, runId, state, now) => EventGivesNoRun(a, key, runId, state, now, id, r);
    case ToolEvent(key, toolCallId, phase) =>
    case Disconnect(reason, now) => RejectKeepsNoRun(a, reason, now, id);
  }

  /** What holds at `n` and not at `i` began to hold in between. */
  lemma {:induction false} BeginsBetween(states: seq<Agent>, i: nat, n: nat, p: Agent -> bool) returns (j: nat)
    requires i <= n < |states| && !p(states[i]) && p(states[n])
    ensures i <= j < n && !p(states[j]) && p(states[j + 1])
    decreases n
  {
    j := n - 1;
    if p(states[n - 1]) { j := BeginsBetween(states, i, n - 1, p); }
  }

  lemma CancelBeginClears(a: Agent, id: string, now: int, r: RunId)
    requires Inv(a)
    ensures !Runs(DoCancelBegin(a, id, now), id, r)
  {
  }

  /** In every run, the prompt running on a session was started after every cancellation that has
      begun there. */
  lemma LateCancelFollowsAPrompt(states: seq<Agent>, steps: seq<Step>, i: nat, n: nat, id: string, r: RunId) returns (j: nat)
    requires Trail(states, steps) && i < n <= |steps| && steps[i].CancelBegin? && steps[i].id == id
    requires Runs(states[n], id, r)
    ensures i < j < n && steps[j].Prompt? && steps[j].id == id && steps[j].run == r
  {
    EveryStateInv(states, steps, i);
    TrailStep(states, steps, i);
    CancelBeginClears(states[i], id, steps[i].now, r);
    j := BeginsBetween(states, i + 1, n, (a: Agent) => Runs(a, id, r));
    EveryStateInv(states, steps, j);
    TrailStep(states, steps, j);
    ActiveRunComesFromPrompt(states[j], steps[j], id, r);
  }
}

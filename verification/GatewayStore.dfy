/**
 The agent uses its session store through the store's operations alone, so that whatever holds after
 any operations holds of every store of every run.
 */
module GatewayStore {
  import opened Basics
  import opened Sessions
  import opened Gateway
  import opened GatewayProperties
  import opened GatewayEffects
  import SessionUse

  function ApplyAll(st: Store, cfg: Config, ops: seq<Op>): (after: Store)
    requires Ordered(st)
    ensures Ordered(after)
  {
    if ops == [] then st
    else
      var before := ApplyAll(st, cfg, ops[..|ops| - 1]);
      ApplyOrdered(before, cfg, ops[|ops| - 1]);
      Apply(before, cfg, ops[|ops| - 1])
  }

  lemma ApplyOneMore(st: Store, cfg: Config, ops: seq<Op>, op: Op)
    requires Ordered(st)
    ensures ApplyAll(st, cfg, ops + [op]) == Apply(ApplyAll(st, cfg, ops), cfg, op)
  {
    assert (ops + [op])[..|ops|] == ops;
  }

  lemma {:induction false} AfterMore(cfg: Config, ops: seq<Op>, more: seq<Op>)
    ensures After(cfg, ops + more) == ApplyAll(After(cfg, ops), cfg, more)
  {
    if more == [] {
      assert ops + more == ops;
    } else {
      var init, last := more[..|more| - 1], more[|more| - 1];
      AfterMore(cfg, ops, init);
      ApplyOneMore(After(cfg, ops), cfg, init, last);
      SessionUse.AfterOne(cfg, ops + init, last);
      assert init + [last] == more && ops + more == (ops + init) + [last];
    }
  }

  /** The operations on the store that a step consists of. */
  function StoreOps(a: Agent, step: Step): seq<Op>
    requires Listed(a) && Enabled(a, step)
  {
    match step
    case CreateSession(id, key, cwd, now) => [OpCreate(id, key, cwd, now)]
    case GetSession(id, now) => [OpGet(id, now)]
    case Prompt(id, tooLarge, run, controller, now) =>
      [OpGet(id, now), OpCancelActive(id, now)] + if tooLarge then [] else [OpSetActive(id, run, controller, now)]
    case SendFailed(run, _, now) => [OpClearActive(a.sends[run], now)]
    case CancelBegin(id, now) => [OpGet(id, now), OpCancelActive(id, now)]
    case ChatEvent(key, runId, state, now) =>
      var found := FindPending(a, key);
      if Ends(state) && found.Some? && Addressed(a, key, runId, found.value.idempotencyKey) then [OpClearActive(found.value.sessionId, now)] else []
    case Disconnect(_, now) => Clears(a.order, |a.order|, now)
    case _ => []
  }

  function Clears(order: seq<string>, n: nat, now: int): seq<Op>
    requires n <= |order|
  {
    if n == 0 then [] else Clears(order, n - 1, now) + [OpClearActive(order[n - 1], now)]
  }

  function ClearEach(st: Store, order: seq<string>, n: nat, now: int): Store
    requires n <= |order|
  {
    if n == 0 then st else ClearActive(ClearEach(st, order, n - 1, now), order[n - 1], now)
  }

  lemma {:induction false} RejectClears(a: Agent, error: string, now: int, n: nat)
    requires Listed(a) && RecordsOpen(a) && n <= |a.order|
    ensures RejectFirst(a, error, now, n).store == ClearEach(a.store, a.order, n, now)
  {
    if n > 0 {
      RejectClears(a, error, now, n - 1);
      assert a.order[n - 1] in a.order;
    }
  }

  lemma {:induction false} ClearingOperates(st: Store, cfg: Config, order: seq<string>, n: nat, now: int)
    requires Ordered(st) && n <= |order|
    ensures ClearEach(st, order, n, now) == ApplyAll(st, cfg, Clears(order, n, now))
  {
    if n > 0 {
      ClearingOperates(st, cfg, order, n - 1, now);
      ApplyOneMore(st, cfg, Clears(order, n - 1, now), OpClearActive(order[n - 1], now));
    }
  }

  lemma One(st: Store, cfg: Config, op: Op)
    requires Ordered(st)
    ensures ApplyAll(st, cfg, [op]) == Apply(st, cfg, op)
  {
    ApplyOneMore(st, cfg, [], op);
    assert [] + [op] == [op];
  }

  lemma Two(st: Store, cfg: Config, op: Op, next: Op)
    requires Ordered(st)
    ensures ApplyAll(st, cfg, [op, next]) == (ApplyOrdered(st, cfg, op); Apply(Apply(st, cfg, op), cfg, next))
  {
    One(st, cfg, op);
    ApplyOneMore(st, cfg, [op], next);
    assert [op] + [next] == [op, next];
  }

  lemma FreedOps(st: Store, cfg: Config, id: string, now: int)
    requires Ordered(st)
    ensures ApplyAll(st, cfg, [OpGet(id, now), OpCancelActive(id, now)]) == CancelActive(Touch(st, id, now), id, now)
  {
    Two(st, cfg, OpGet(id, now), OpCancelActive(id, now));
  }

  lemma PromptOps(a: Agent, id: string, tooLarge: bool, run: RunId, controller: Controller, now: int)
    requires Inv(a)
    ensures DoPrompt(a, id, tooLarge, run, controller, now).store ==
            ApplyAll(a.store, a.cfg, [OpGet(id, now), OpCancelActive(id, now)] + if tooLarge then [] else [OpSetActive(id, run, controller, now)])
  {
    var first := [OpGet(id, now), OpCancelActive(id, now)];
    FreedOps(a.store, a.cfg, id, now);
    if tooLarge { assert first + [] == first; } else { ApplyOneMore(a.store, a.cfg, first, OpSetActive(id, run, controller, now)); }
  }

  lemma ChatOps(a: Agent, step: Step)
    requires Inv(a) && step.ChatEvent?
    ensures DoChatEvent(a, step.key, step.runId, step.state, step.now).store == ApplyAll(a.store, a.cfg, StoreOps(a, step))
  {
    var found := FindPending(a, step.key);
    var b := DoChatEvent(a, step.key, step.runId, step.state, step.now);
    if Ends(step.state) && found.Some? && Addressed(a, step.key, step.runId, found.value.idempotencyKey) {
      LastEventFinishes(a, step.key, step.runId, step.state, step.now, found.value.idempotencyKey);
      FinishOps(a, found.value, ReasonOf(step.state), step.now);
    } else {
      ChatKeepsStore(a, step.key, step.runId, step.state, step.now);
      assert ApplyAll(a.store, a.cfg, []) == a.store;
    }
  }

  lemma FinishOps(a: Agent, p: Pending, reason: StopReason, now: int)
    requires Inv(a)
    ensures Finish(a, p, reason, now).store == ApplyAll(a.store, a.cfg, [OpClearActive(p.sessionId, now)])
  {
    One(a.store, a.cfg, OpClearActive(p.sessionId, now));
  }

  lemma ChatKeepsStore(a: Agent, key: string, runId: Option<RunId>, state: ChatState, now: int)
    requires Listed(a)
    requires Ends(state) ==> FindPending(a, key).None? || !Addressed(a, key, runId, FindPending(a, key).value.idempotencyKey)
    ensures DoChatEvent(a, key, runId, state, now).store == a.store
  {}

  lemma SendFailedOps(a: Agent, run: RunId, error: string, now: int)
    requires Inv(a) && run in a.sends
    ensures DoSendFailed(a, run, error, now).store == ApplyAll(a.store, a.cfg, [OpClearActive(a.sends[run], now)])
  {
    One(a.store, a.cfg, OpClearActive(a.sends[run], now));
  }

  lemma CancelOps(a: Agent, id: string, now: int)
    requires Inv(a)
    ensures DoCancelBegin(a, id, now).store == ApplyAll(a.store, a.cfg, [OpGet(id, now), OpCancelActive(id, now)])
  {
    Two(a.store, a.cfg, OpGet(id, now), OpCancelActive(id, now));
  }

  lemma DisconnectOps(a: Agent, reason: string, now: int)
    requires Inv(a)
    ensures DoDisconnect(a, reason, now).store == ApplyAll(a.store, a.cfg, Clears(a.order, |a.order|, now))
  {
    RejectClears(a, "Gateway disconnected: " + reason, now, |a.order|);
    ClearingOperates(a.store, a.cfg, a.order, |a.order|, now);
  }

  lemma OthersKeepStore(a: Agent, step: Step)
    requires Listed(a) && Ordered(a.store) && Enabled(a, step) && (step.ToolEvent? || step.SendAnswered? || step.CancelEnd?)
    ensures Next(a, step).store == a.store
  {}

  /** Each step changes the store by its operations, in this order. */
  lemma NextOperates(a: Agent, step: Step)
    requires Inv(a) && Enabled(a, step)
    ensures Next(a, step).store == ApplyAll(a.store, a.cfg, StoreOps(a, step))
  {
    match step
    case CreateSession(id, key, cwd, now) => One(a.store, a.cfg, OpCreate(id, key, cwd, now));
    case GetSession(id, now) => One(a.store, a.cfg, OpGet(id, now));
    case Prompt(id, tooLarge, run, controller, now) => PromptOps(a, id, tooLarge, run, controller, now);
    case SendFailed(run, error, now) => SendFailedOps(a, run, error, now);
    case CancelBegin(id, now) => CancelOps(a, id, now);
    case ChatEvent(key, runId, state, now) => ChatOps(a, step);
    case Disconnect(reason, now) => DisconnectOps(a, reason, now);
    case _ => OthersKeepStore(a, step);
  }

  /** The operations of the first `n` steps of a run. */
  ghost function OpsOf(states: seq<Agent>, steps: seq<Step>, n: nat): seq<Op>
    requires Trail(states, steps) && n <= |steps|
  {
    if n == 0 then [] else OpsOf(states, steps, n - 1) + StoreOps(states[n - 1], steps[n - 1])
  }

  lemma OperateOn(a: Agent, step: Step, ops: seq<Op>)
    requires Inv(a) && Enabled(a, step) && a.store == After(a.cfg, ops)
    ensures Next(a, step).store == After(a.cfg, ops + StoreOps(a, step)) && Next(a, step).cfg == a.cfg
  {
    NextOperates(a, step);
    NextBooksExactly(a, step);
    AfterMore(a.cfg, ops, StoreOps(a, step));
  }

  lemma OperateNext(states: seq<Agent>, steps: seq<Step>, i: nat, ops: seq<Op>, more: seq<Op>)
    requires Trail(states, steps) && i < |steps| && states[i].store == After(states[i].cfg, ops)
    requires more == StoreOps(states[i], steps[i])
    ensures states[i + 1].store == After(states[i].cfg, ops + more) && states[i + 1].cfg == states[i].cfg
  {
    EveryStateInv(states, steps, i);
    TrailStep(states, steps, i);
    OperateOn(states[i], steps[i], ops);
  }

  /** In every run the store is the one that these operations lead to from an empty one. */
  lemma {:induction false} EveryStoreIsOperated(states: seq<Agent>, steps: seq<Step>, n: nat)
    requires Trail(states, steps) && n <= |steps|
    ensures states[n].store == After(states[0].cfg, OpsOf(states, steps, n)) && states[n].cfg == states[0].cfg
  {
    if n == 0 {
      TrailStart(states, steps);
    } else {
      EveryStoreIsOperated(states, steps, n - 1);
      OperateNext(states, steps, n - 1, OpsOf(states, steps, n - 1), StoreOps(states[n - 1], steps[n - 1]));
    }
  }
}

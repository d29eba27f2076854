/**
 What a store remembers of each session, told by the operations alone: when it was created and last
 used, what it was named, which run it has, and which controllers have been aborted.
 */
module SessionUse {
  import opened Basics
  import opened Sessions

  function Instant(op: Op): int
    requires !op.OpClearAll?
  {
    op.now
  }

  /** The operation names session `id` and finds or makes it. */
  ghost predicate Names(st: Store, cfg: Config, op: Op, id: string)
    requires Ordered(st)
  {
    op.OpCreate? && op.id == id && Create(st, cfg, id, op.key, op.cwd, op.now).1
  }

  /** The operation addresses session `id` while it is live. */
  ghost predicate Uses(st: Store, cfg: Config, op: Op, id: string)
    requires Ordered(st)
  {
    match op
    case OpCreate(_, _, _, _) => Names(st, cfg, op, id)
    case OpGet(other, _) => other == id && id in st.sessions
    case OpGetByRun(r, _) => r in st.runs && st.runs[r] == id && id != "" && id in st.sessions
    case OpSetActive(other, _, _, _) => other == id && id in st.sessions
    case OpClearActive(other, _) => other == id && id in st.sessions
    case OpCancelActive(other, _) => other == id && id in st.sessions && st.sessions[id].abortController.Some?
    case OpClearAll => false
  }

  /** The operation takes the run of session `id` away. */
  ghost predicate Frees(st: Store, op: Op, id: string) {
    && id in st.sessions
    && (op.OpClearActive? || (op.OpCancelActive? && st.sessions[id].abortController.Some?)) && op.id == id
  }

  /** The record of a session after an operation, by what the operation does to it. */
  ghost predicate Remembers(st: Store, cfg: Config, op: Op, id: string, s: Session)
    requires Ordered(st)
  {
    && (id !in st.sessions ==> Names(st, cfg, op, id))
    && s.createdAt == (if id in st.sessions then st.sessions[id].createdAt else op.now)
    && s.lastTouchedAt == (if Uses(st, cfg, op, id) then Instant(op) else st.sessions[id].lastTouchedAt)
    && (s.sessionKey, s.cwd) == (if Names(st, cfg, op, id) then (op.key, op.cwd) else (st.sessions[id].sessionKey, st.sessions[id].cwd))
    && (s.activeRunId, s.abortController) ==
       if id !in st.sessions || Frees(st, op, id) then (None, None)
       else if op.OpSetActive? && op.id == id then (Some(op.run), Some(op.controller))
       else (st.sessions[id].activeRunId, st.sessions[id].abortController)
  }

  /** Every operation, for every session that is live after it. */
  lemma ApplyRemembers(st: Store, cfg: Config, op: Op, id: string)
    requires Ordered(st) && id in Apply(st, cfg, op).sessions
    ensures Remembers(st, cfg, op, id, Apply(st, cfg, op).sessions[id])
  {
    match op
    case OpCreate(other, key, cwd, now) => CreateRemembers(st, cfg, other, key, cwd, now, id);
    case OpGet(other, now) => TouchRemembers(st, cfg, other, now, id);
    case OpGetByRun(r, now) => ByRunRemembers(st, cfg, r, now, id);
    case OpSetActive(other, r, c, now) => SetRemembers(st, cfg, other, r, c, now, id);
    case OpClearActive(other, now) => ClearRemembers(st, cfg, other, now, id);
    case OpCancelActive(other, now) => CancelRemembers(st, cfg, other, now, id);
    case OpClearAll =>
  }

  lemma CreateRemembers(st: Store, cfg: Config, other: string, key: string, cwd: string, now: int, id: string)
    requires Ordered(st) && id in Create(st, cfg, other, key, cwd, now).0.sessions
    ensures Remembers(st, cfg, OpCreate(other, key, cwd, now), id, Create(st, cfg, other, key, cwd, now).0.sessions[id])
  {
    if other !in st.sessions {
      CreateNewRemembers(st, cfg, other, key, cwd, now, id);
    } else {
      CreateAgainOnlyRenames(st, cfg, other, key, cwd, now);
    }
  }

  lemma CreateNewRemembers(st: Store, cfg: Config, other: string, key: string, cwd: string, now: int, id: string)
    requires Ordered(st) && other !in st.sessions && id in Create(st, cfg, other, key, cwd, now).0.sessions
    ensures Remembers(st, cfg, OpCreate(other, key, cwd, now), id, Create(st, cfg, other, key, cwd, now).0.sessions[id])
  {
    CreateAddsOnlyIt(st, cfg, other, key, cwd, now);
    var evicted := CreateRemovesOnlyIdle(st, cfg, other, key, cwd, now);
    var (after, created) := Create(st, cfg, other, key, cwd, now);
    assert id == other ==> created && after.sessions[id] == Session(key, cwd, now, now, None, None);
    assert id != other ==> id in st.sessions && after.sessions[id] == st.sessions[id];
  }

  lemma TouchRemembers(st: Store, cfg: Config, other: string, now: int, id: string)
    requires Ordered(st) && id in st.sessions
    ensures Remembers(st, cfg, OpGet(other, now), id, Touch(st, other, now).sessions[id])
  {}

  lemma ByRunRemembers(st: Store, cfg: Config, r: RunId, now: int, id: string)
    requires Ordered(st) && id in st.sessions
    ensures Remembers(st, cfg, OpGetByRun(r, now), id, TouchByRun(st, r, now).sessions[id])
  {}

  lemma SetRemembers(st: Store, cfg: Config, other: string, r: RunId, c: Controller, now: int, id: string)
    requires Ordered(st) && id in st.sessions
    ensures Remembers(st, cfg, OpSetActive(other, r, c, now), id, SetActive(st, other, r, c, now).sessions[id])
  {}

  lemma ClearRemembers(st: Store, cfg: Config, other: string, now: int, id: string)
    requires Ordered(st) && id in st.sessions
    ensures Remembers(st, cfg, OpClearActive(other, now), id, ClearActive(st, other, now).sessions[id])
  {}

  lemma CancelRemembers(st: Store, cfg: Config, other: string, now: int, id: string)
    requires Ordered(st) && id in st.sessions
    ensures Remembers(st, cfg, OpCancelActive(other, now), id, CancelActive(st, other, now).sessions[id])
  {}

  /** Creating a session that is there already renames it and touches it, and that is all. */
  lemma CreateAgainOnlyRenames(st: Store, cfg: Config, id: string, key: string, cwd: string, now: int)
    requires Ordered(st) && id in st.sessions
    ensures var (after, created) := Create(st, cfg, id, key, cwd, now);
            var (s, t) := (st.sessions[id], after.sessions[id]);
            && created && after.order == st.order && after.runs == st.runs && after.aborted == st.aborted
            && after.sessions.Keys == st.sessions.Keys
            && (forall other :: other in st.sessions && other != id ==> after.sessions[other] == st.sessions[other])
            && t.sessionKey == key && t.cwd == cwd && t.lastTouchedAt == now
            && t.createdAt == s.createdAt && t.activeRunId == s.activeRunId && t.abortController == s.abortController
  {}

  /** Exactly the controllers of effective cancellations and of a clearing of everything are aborted. */
  lemma ApplyAborts(st: Store, cfg: Config, op: Op, c: Controller)
    requires Ordered(st)
    ensures c in Apply(st, cfg, op).aborted <==>
            || c in st.aborted
            || exists id :: id in st.sessions && st.sessions[id].abortController == Some(c) &&
                 (op.OpClearAll? || (op.OpCancelActive? && op.id == id))
  {
    if op.OpCreate? && op.id !in st.sessions {
      var evicted := CreateRemovesOnlyIdle(st, cfg, op.id, op.key, op.cwd, op.now);
    }
  }

  // ---------- Over every run ----------

  /** The store before operation `k`. */
  function At(cfg: Config, ops: seq<Op>, k: nat): (st: Store)
    requires k <= |ops|
    ensures Ordered(st)
  {
    After(cfg, ops[..k])
  }

  ghost predicate UsedAt(cfg: Config, ops: seq<Op>, k: nat, id: string)
    requires k < |ops|
  {
    Uses(At(cfg, ops, k), cfg, ops[k], id)
  }

  ghost predicate NamedAt(cfg: Config, ops: seq<Op>, k: nat, id: string)
    requires k < |ops|
  {
    Names(At(cfg, ops, k), cfg, ops[k], id)
  }

  /** Operation `k` used the session last. */
  ghost predicate LastUse(cfg: Config, ops: seq<Op>, k: nat, id: string) {
    k < |ops| && UsedAt(cfg, ops, k, id) && forall j: nat :: k < j < |ops| ==> !UsedAt(cfg, ops, j, id)
  }

  ghost predicate LastName(cfg: Config, ops: seq<Op>, k: nat, id: string) {
    k < |ops| && NamedAt(cfg, ops, k, id) && forall j: nat :: k < j < |ops| ==> !NamedAt(cfg, ops, j, id)
  }

  /** Operation `k` created the session, which has been live since. */
  ghost predicate CreatedAt(cfg: Config, ops: seq<Op>, k: nat, id: string) {
    && k < |ops| && id !in At(cfg, ops, k).sessions && NamedAt(cfg, ops, k, id)
    && forall j: nat :: k < j <= |ops| ==> id in At(cfg, ops, j).sessions
  }

  lemma AtPrefix(cfg: Config, ops: seq<Op>, op: Op, k: nat)
    requires k <= |ops|
    ensures At(cfg, ops + [op], k) == At(cfg, ops, k)
  {
    assert (ops + [op])[..k] == ops[..k];
  }

  lemma AtEnd(cfg: Config, ops: seq<Op>)
    ensures At(cfg, ops, |ops|) == After(cfg, ops)
  {
    assert ops[..|ops|] == ops;
  }

  lemma AfterOne(cfg: Config, ops: seq<Op>, op: Op)
    ensures After(cfg, ops + [op]) == Apply(After(cfg, ops), cfg, op)
  {
    assert (ops + [op])[..|ops|] == ops;
  }

  lemma LastUseLater(cfg: Config, ops: seq<Op>, op: Op, k: nat, id: string)
    requires k < |ops| ==> LastUse(cfg, ops, k, id)
    requires k <= |ops| && (k == |ops| <==> Uses(After(cfg, ops), cfg, op, id))
    ensures LastUse(cfg, ops + [op], k, id)
  {
    var more := ops + [op];
    AtPrefix(cfg, ops, op, |ops|);
    AtEnd(cfg, ops);
    forall j: nat | j < |ops| ensures UsedAt(cfg, more, j, id) == UsedAt(cfg, ops, j, id) { AtPrefix(cfg, ops, op, j); }
  }

  lemma LastNameLater(cfg: Config, ops: seq<Op>, op: Op, k: nat, id: string)
    requires k < |ops| ==> LastName(cfg, ops, k, id)
    requires k <= |ops| && (k == |ops| <==> Names(After(cfg, ops), cfg, op, id))
    ensures LastName(cfg, ops + [op], k, id)
  {
    var more := ops + [op];
    AtPrefix(cfg, ops, op, |ops|);
    AtEnd(cfg, ops);
    forall j: nat | j < |ops| ensures NamedAt(cfg, more, j, id) == NamedAt(cfg, ops, j, id) { AtPrefix(cfg, ops, op, j); }
  }

  lemma CreatedLater(cfg: Config, ops: seq<Op>, op: Op, k: nat, id: string)
    requires k < |ops| ==> CreatedAt(cfg, ops, k, id)
    requires k == |ops| ==> id !in After(cfg, ops).sessions && Names(After(cfg, ops), cfg, op, id)
    requires k <= |ops| && id in After(cfg, ops + [op]).sessions
    ensures CreatedAt(cfg, ops + [op], k, id)
  {
    var more := ops + [op];
    AtPrefix(cfg, ops, op, k);
    AtEnd(cfg, ops);
    forall j: nat | k < j <= |more| ensures id in At(cfg, more, j).sessions { LiveLater(cfg, ops, op, k, id, j); }
  }

  lemma LiveLater(cfg: Config, ops: seq<Op>, op: Op, k: nat, id: string, j: nat)
    requires k < |ops| ==> CreatedAt(cfg, ops, k, id)
    requires k < j <= |ops| + 1 && id in After(cfg, ops + [op]).sessions
    ensures id in At(cfg, ops + [op], j).sessions
  {
    if j <= |ops| { AtPrefix(cfg, ops, op, j); } else { AtEnd(cfg, ops + [op]); }
  }

  /** After any operations, a live session bears the instant of the last operation that used it, the
      instant of the one that created it, and the key and directory of the last that named it. */
  lemma {:induction false} EverySessionRemembers(cfg: Config, ops: seq<Op>, id: string) returns (created: nat, named: nat, used: nat)
    requires id in After(cfg, ops).sessions
    ensures CreatedAt(cfg, ops, created, id) && LastName(cfg, ops, named, id) && LastUse(cfg, ops, used, id)
    ensures var s := After(cfg, ops).sessions[id];
            && s.createdAt == Instant(ops[created]) && s.lastTouchedAt == Instant(ops[used])
            && s.sessionKey == ops[named].key && s.cwd == ops[named].cwd
  {
    var before, op := ops[..|ops| - 1], ops[|ops| - 1];
    var st := After(cfg, before);
    assert ops == before + [op];
    AfterOne(cfg, before, op);
    ApplyRemembers(st, cfg, op, id);
    created, named, used := |before|, |before|, |before|;
    if id in st.sessions {
      var c, n, u := EverySessionRemembers(cfg, before, id);
      created := c;
      if !Names(st, cfg, op, id) { named := n; }
      if !Uses(st, cfg, op, id) { used := u; }
    }
    CreatedLater(cfg, before, op, created, id);
    LastNameLater(cfg, before, op, named, id);
    LastUseLater(cfg, before, op, used, id);
  }

  /** A session is reaped exactly when it has neither run nor controller and was last used at least
      the idle time ago. */
  lemma EverySessionReapedIff(cfg: Config, ops: seq<Op>, id: string, now: int) returns (used: nat)
    requires id in After(cfg, ops).sessions
    ensures LastUse(cfg, ops, used, id)
    ensures var s := After(cfg, ops).sessions[id];
            id !in Reap(After(cfg, ops), now, cfg.idleTtlMs).sessions <==>
            s.activeRunId == None && s.abortController == None && now - Instant(ops[used]) >= cfg.idleTtlMs
  {
    var created, named, last := EverySessionRemembers(cfg, ops, id);
    used := last;
    ReapedIff(After(cfg, ops), id, now, cfg.idleTtlMs);
  }

  lemma ReapedIff(st: Store, id: string, now: int, ttl: int)
    requires id in st.sessions
    ensures id !in Reap(st, now, ttl).sessions <==>
            st.sessions[id].activeRunId == None && st.sessions[id].abortController == None && now - st.sessions[id].lastTouchedAt >= ttl
  {}

  /** Removing a session takes its run out of the index, aborts its controller, and leaves all others. */
  lemma RemoveTakesItsRun(st: Store, id: string, other: string, r: RunId, c: Controller)
    requires Consistent(st) && id in st.sessions
    ensures var after := Remove(st, id);
            && (other in after.sessions <==> other in st.sessions && other != id)
            && (other in after.sessions ==> after.sessions[other] == st.sessions[other])
            && (r in after.runs <==> r in st.runs && st.runs[r] != id)
            && (c in after.aborted <==> c in st.aborted || st.sessions[id].abortController == Some(c))
  {}

  ghost predicate Monotone(ops: seq<Op>) {
    forall i, j :: 0 <= i < j < |ops| && !ops[i].OpClearAll? && !ops[j].OpClearAll? ==> Instant(ops[i]) <= Instant(ops[j])
  }

  /** With clocks that do not go back, a session used within the idle time is never reaped. */
  lemma UsedSessionIsNotReaped(cfg: Config, ops: seq<Op>, id: string, k: nat, now: int)
    requires Monotone(ops) && id in After(cfg, ops).sessions && k < |ops| && UsedAt(cfg, ops, k, id)
    requires Instant(ops[k]) > now - cfg.idleTtlMs
    ensures id in Reap(After(cfg, ops), now, cfg.idleTtlMs).sessions
  {
    var used := EverySessionReapedIff(cfg, ops, id, now);
    LastIsNotEarlier(cfg, ops, k, used, id);
  }

  lemma LastIsNotEarlier(cfg: Config, ops: seq<Op>, k: nat, used: nat, id: string)
    requires Monotone(ops) && LastUse(cfg, ops, used, id) && k < |ops| && UsedAt(cfg, ops, k, id)
    ensures Instant(ops[k]) <= Instant(ops[used])
  {
    assert k <= used;
  }
}

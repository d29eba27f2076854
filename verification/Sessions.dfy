/**
 The in-memory session store of the ACP gateway: sessions in creation order, an index from
 active runs to sessions, reaping of idle sessions and eviction of the oldest idle one
 (src/acp/session.ts).

 Run ids and abort controllers are numbers: they stand for fresh UUIDs and objects, which are
 never falsy. Session ids are strings and may be empty, as the source lets a client choose them.
 */
module Sessions {
  import opened Basics

  type RunId = nat
  type Controller = nat

  datatype Session = Session(
    sessionKey: string, cwd: string, createdAt: int, lastTouchedAt: int,
    abortController: Option<Controller>, activeRunId: Option<RunId>)

  /** `order` lists the keys of `sessions` in insertion order; `aborted` are the controllers
      that have been told to abort. */
  datatype Store = Store(order: seq<string>, sessions: map<string, Session>, runs: map<RunId, string>, aborted: set<Controller>)

  predicate Idle(s: Session) {
    s.activeRunId.None? && s.abortController.None?
  }

  predicate Expired(s: Session, now: int, ttl: int) {
    Idle(s) && s.lastTouchedAt <= now - ttl
  }

  // ---------- Insertion order ----------

  function Keep(order: seq<string>, live: set<string>): seq<string> {
    if order == [] then []
    else
      var init := Keep(order[..|order| - 1], live);
      if order[|order| - 1] in live then init + [order[|order| - 1]] else init
  }

  lemma {:induction false} KeepMembers(order: seq<string>, live: set<string>)
    ensures forall id :: id in Keep(order, live) <==> id in order && id in live
  {
    if order != [] {
      var init := order[..|order| - 1];
      KeepMembers(init, live);
      assert order == init + [order[|order| - 1]];
    }
  }

  predicate Distinct(order: seq<string>) {
    forall i, j :: 0 <= i < j < |order| ==> order[i] != order[j]
  }

  lemma {:induction false} KeepDistinct(order: seq<string>, live: set<string>)
    requires Distinct(order)
    ensures Distinct(Keep(order, live))
  {
    if order != [] {
      var init := order[..|order| - 1];
      KeepDistinct(init, live);
      KeepMembers(init, live);
    }
  }

  lemma {:induction false} KeepAll(order: seq<string>, live: set<string>)
    requires forall id :: id in order ==> id in live
    ensures Keep(order, live) == order
  {
    if order != [] {
      KeepAll(order[..|order| - 1], live);
      assert order[|order| - 1] in order;
    }
  }

  lemma {:induction false} KeepTwice(order: seq<string>, a: set<string>, b: set<string>)
    ensures Keep(Keep(order, a), b) == Keep(order, a * b)
  {
    if order != [] {
      var init, last := order[..|order| - 1], order[|order| - 1];
      KeepTwice(init, a, b);
      if last in a {
        assert Keep(order, a)[..|Keep(order, a)| - 1] == Keep(init, a);
      }
    }
  }

  // ---------- Consistency ----------

  ghost predicate Ordered(st: Store) {
    Distinct(st.order) && forall id :: id in st.order <==> id in st.sessions
  }

  /** A run is indexed to a session exactly when it is that session's active run. */
  ghost predicate Indexed(st: Store) {
    && (forall r :: r in st.runs ==>
          st.runs[r] in st.sessions && st.sessions[st.runs[r]].activeRunId == Some(r))
    && (forall id :: id in st.sessions && st.sessions[id].activeRunId.Some? ==>
          var r := st.sessions[id].activeRunId.value; r in st.runs && st.runs[r] == id)
  }

  ghost predicate Controlled(st: Store) {
    forall id :: id in st.sessions ==>
      (st.sessions[id].activeRunId.None? <==> st.sessions[id].abortController.None?)
  }

  ghost predicate Consistent(st: Store) {
    Ordered(st) && Indexed(st) && Controlled(st)
  }

  const EMPTY_STORE := Store([], map[], map[], {})

  // ---------- Operations ----------

  function Abort(aborted: set<Controller>, c: Option<Controller>): set<Controller> {
    if c.Some? then aborted + {c.value} else aborted
  }

  function Unindex(runs: map<RunId, string>, r: Option<RunId>): map<RunId, string> {
    if r.Some? then runs - {r.value} else runs
  }

  function Remove(st: Store, id: string): Store {
    if id !in st.sessions then st
    else
      var s := st.sessions[id];
      Store(Keep(st.order, st.sessions.Keys - {id}), st.sessions - {id}, Unindex(st.runs, s.activeRunId), Abort(st.aborted, s.abortController))
  }

  /** All expired sessions go at once. */
  function Reap(st: Store, now: int, ttl: int): Store {
    var left := map id | id in st.sessions && !Expired(st.sessions[id], now, ttl) :: st.sessions[id];
    st.(order := Keep(st.order, left.Keys), sessions := left)
  }

  /** The store once the first `i` sessions have been looked at. */
  function ReapFirst(st: Store, now: int, ttl: int, i: nat): Store
    requires i <= |st.order|
  {
    var left := map id | id in st.sessions && !(id in st.order[..i] && Expired(st.sessions[id], now, ttl)) :: st.sessions[id];
    st.(order := Keep(st.order, left.Keys), sessions := left)
  }

  lemma ReapFirstBounds(st: Store, now: int, ttl: int)
    requires Ordered(st)
    ensures ReapFirst(st, now, ttl, 0) == st
    ensures ReapFirst(st, now, ttl, |st.order|) == Reap(st, now, ttl)
  {
    KeepAll(st.order, st.sessions.Keys);
    assert ReapFirst(st, now, ttl, 0).sessions == st.sessions;
    assert st.order[..|st.order|] == st.order;
    assert ReapFirst(st, now, ttl, |st.order|).sessions == Reap(st, now, ttl).sessions;
  }

  /** Reaping one by one through removal: an expired session owns no run and no controller. */
  lemma ReapFirstStep(st: Store, now: int, ttl: int, i: nat)
    requires Ordered(st) && i < |st.order|
    ensures st.order[i] in ReapFirst(st, now, ttl, i).sessions
    ensures ReapFirst(st, now, ttl, i).sessions[st.order[i]] == st.sessions[st.order[i]]
    ensures ReapFirst(st, now, ttl, i + 1) ==
            if Expired(st.sessions[st.order[i]], now, ttl) then Remove(ReapFirst(st, now, ttl, i), st.order[i])
            else ReapFirst(st, now, ttl, i)
  {
    var id := st.order[i];
    var now0, now1 := ReapFirst(st, now, ttl, i), ReapFirst(st, now, ttl, i + 1);
    assert st.order[..i + 1] == st.order[..i] + [id];
    assert id in st.order && id !in st.order[..i];
    if Expired(st.sessions[id], now, ttl) {
      assert now1.sessions == now0.sessions - {id};
      KeepTwice(st.order, now0.sessions.Keys, now1.sessions.Keys);
      assert now0.sessions.Keys * now1.sessions.Keys == now1.sessions.Keys;
    } else {
      assert now1.sessions == now0.sessions;
    }
  }

  /** Idle, and touched no later than any idle session; the earliest such in insertion order. */
  function OldestIdle(st: Store, n: nat): (r: Option<string>)
    requires n <= |st.order| && forall id :: id in st.order ==> id in st.sessions
    ensures r.Some? ==> r.value in st.order[..n] && Idle(st.sessions[r.value])
  {
    if n == 0 then None
    else
      var best := OldestIdle(st, n - 1);
      var id := st.order[n - 1];
      if !Idle(st.sessions[id]) then best
      else if best.Some? && st.sessions[id].lastTouchedAt >= st.sessions[best.value].lastTouchedAt then best
      else Some(id)
  }

  /** Evicting fails when nothing is idle, and also when the choice falls on the empty id, which
      the source takes for "none found". */
  function Evict(st: Store): Option<Store>
    requires forall id :: id in st.order ==> id in st.sessions
  {
    match OldestIdle(st, |st.order|)
    case None => None
    case Some(id) => if id == "" then None else Some(Remove(st, id))
  }

  datatype Config = Config(maxSessions: nat, idleTtlMs: int)

  function Max(a: int, b: int): int {
    if a >= b then a else b
  }

  const DEFAULT_MAX_SESSIONS := 5_000
  const DEFAULT_IDLE_TTL_MS := 24 * 60 * 60 * 1_000

  function ConfigOf(maxSessions: Option<int>, idleTtlMs: Option<int>): (cfg: Config)
    ensures cfg.maxSessions >= 1 && cfg.idleTtlMs >= 1_000
    ensures maxSessions.None? ==> cfg.maxSessions == 5_000
    ensures maxSessions.Some? && maxSessions.value >= 1 ==> cfg.maxSessions == maxSessions.value
    ensures maxSessions.Some? && maxSessions.value < 1 ==> cfg.maxSessions == 1
    ensures idleTtlMs.None? ==> cfg.idleTtlMs == 86_400_000
    ensures idleTtlMs.Some? && idleTtlMs.value >= 1_000 ==> cfg.idleTtlMs == idleTtlMs.value
    ensures idleTtlMs.Some? && idleTtlMs.value < 1_000 ==> cfg.idleTtlMs == 1_000
  {
    Config(
      Max(1, if maxSessions.Some? then maxSessions.value else DEFAULT_MAX_SESSIONS),
      Max(1_000, if idleTtlMs.Some? then idleTtlMs.value else DEFAULT_IDLE_TTL_MS))
  }

  function Insert(st: Store, id: string, key: string, cwd: string, now: int): Store {
    st.(order := st.order + [id], sessions := st.sessions[id := Session(key, cwd, now, now, None, None)])
  }

  /** Creation answers whether it succeeded; a failed creation has still reaped. */
  function Create(st: Store, cfg: Config, id: string, key: string, cwd: string, now: int): (Store, bool)
    requires Ordered(st)
  {
    if id in st.sessions then
      (st.(sessions := st.sessions[id := st.sessions[id].(sessionKey := key, cwd := cwd, lastTouchedAt := now)]), true)
    else
      var reaped := Reap(st, now, cfg.idleTtlMs);
      KeepMembers(st.order, reaped.sessions.Keys);
      if |reaped.sessions| < cfg.maxSessions then (Insert(reaped, id, key, cwd, now), true)
      else
        match Evict(reaped)
        case None => (reaped, false)
        case Some(evicted) => (Insert(evicted, id, key, cwd, now), true)
  }

  function Touch(st: Store, id: string, now: int): Store {
    if id in st.sessions then st.(sessions := st.sessions[id := st.sessions[id].(lastTouchedAt := now)]) else st
  }

  function SetActive(st: Store, id: string, r: RunId, c: Controller, now: int): Store {
    if id !in st.sessions then st
    else
      Touch(st.(sessions := st.sessions[id := st.sessions[id].(activeRunId := Some(r), abortController := Some(c))],
                runs := st.runs[r := id]), id, now)
  }

  function ClearActive(st: Store, id: string, now: int): Store {
    if id !in st.sessions then st
    else
      Touch(st.(sessions := st.sessions[id := st.sessions[id].(activeRunId := None, abortController := None)],
                runs := Unindex(st.runs, st.sessions[id].activeRunId)), id, now)
  }

  function CancelActive(st: Store, id: string, now: int): Store {
    if id !in st.sessions || st.sessions[id].abortController.None? then st
    else ClearActive(st.(aborted := Abort(st.aborted, st.sessions[id].abortController)), id, now)
  }

  // ---------- Each operation keeps the order ----------

  lemma RemoveOrdered(st: Store, id: string)
    requires Ordered(st)
    ensures Ordered(Remove(st, id))
  {
    KeepMembers(st.order, st.sessions.Keys - {id});
    KeepDistinct(st.order, st.sessions.Keys - {id});
  }

  lemma ReapOrdered(st: Store, now: int, ttl: int)
    requires Ordered(st)
    ensures Ordered(Reap(st, now, ttl))
  {
    KeepMembers(st.order, Reap(st, now, ttl).sessions.Keys);
    KeepDistinct(st.order, Reap(st, now, ttl).sessions.Keys);
  }

  lemma EvictOrdered(st: Store)
    requires Ordered(st)
    ensures Evict(st).Some? ==> Ordered(Evict(st).value) && Evict(st).value.sessions.Keys < st.sessions.Keys
  {
    if OldestIdle(st, |st.order|).Some? { RemoveOrdered(st, OldestIdle(st, |st.order|).value); }
  }

  lemma CreateOrdered(st: Store, cfg: Config, id: string, key: string, cwd: string, now: int)
    requires Ordered(st)
    ensures Ordered(Create(st, cfg, id, key, cwd, now).0)
  {
    if id !in st.sessions {
      var reaped := Reap(st, now, cfg.idleTtlMs);
      ReapOrdered(st, now, cfg.idleTtlMs);
      EvictOrdered(reaped);
      InsertOrdered(reaped, id, key, cwd, now);
      if Evict(reaped).Some? { InsertOrdered(Evict(reaped).value, id, key, cwd, now); }
    }
  }

  lemma InsertOrdered(st: Store, id: string, key: string, cwd: string, now: int)
    requires Ordered(st) && id !in st.sessions
    ensures Ordered(Insert(st, id, key, cwd, now))
  {}

  // ---------- Each operation keeps the store consistent ----------

  lemma RemoveConsistent(st: Store, id: string)
    requires Consistent(st)
    ensures Consistent(Remove(st, id))
  {
    KeepMembers(st.order, st.sessions.Keys - {id});
    KeepDistinct(st.order, st.sessions.Keys - {id});
  }

  lemma ReapConsistent(st: Store, now: int, ttl: int)
    requires Consistent(st)
    ensures Consistent(Reap(st, now, ttl))
  {
    KeepMembers(st.order, Reap(st, now, ttl).sessions.Keys);
    KeepDistinct(st.order, Reap(st, now, ttl).sessions.Keys);
  }

  lemma InsertConsistent(st: Store, id: string, key: string, cwd: string, now: int)
    requires Consistent(st) && id !in st.sessions
    ensures Consistent(Insert(st, id, key, cwd, now))
  {}

  lemma EvictConsistent(st: Store)
    requires Consistent(st)
    ensures Evict(st).Some? ==> Consistent(Evict(st).value) && Evict(st).value.sessions.Keys < st.sessions.Keys
  {
    if OldestIdle(st, |st.order|).Some? { RemoveConsistent(st, OldestIdle(st, |st.order|).value); }
  }

  lemma RefreshConsistent(st: Store, id: string, s: Session)
    requires Consistent(st) && id in st.sessions
    requires s.activeRunId == st.sessions[id].activeRunId && s.abortController == st.sessions[id].abortController
    ensures Consistent(st.(sessions := st.sessions[id := s]))
  {}

  lemma CreateConsistent(st: Store, cfg: Config, id: string, key: string, cwd: string, now: int)
    requires Consistent(st)
    ensures Consistent(Create(st, cfg, id, key, cwd, now).0)
  {
    if id in st.sessions {
      RefreshConsistent(st, id, st.sessions[id].(sessionKey := key, cwd := cwd, lastTouchedAt := now));
    } else {
      var reaped := Reap(st, now, cfg.idleTtlMs);
      ReapConsistent(st, now, cfg.idleTtlMs);
      if |reaped.sessions| < cfg.maxSessions {
        InsertConsistent(reaped, id, key, cwd, now);
      } else if Evict(reaped).Some? {
        EvictConsistent(reaped);
        InsertConsistent(Evict(reaped).value, id, key, cwd, now);
      }
    }
  }

  lemma TouchConsistent(st: Store, id: string, now: int)
    requires Consistent(st)
    ensures Consistent(Touch(st, id, now))
  {
    if id in st.sessions { RefreshConsistent(st, id, st.sessions[id].(lastTouchedAt := now)); }
  }

  lemma ClearConsistent(st: Store, id: string, now: int)
    requires Consistent(st)
    ensures Consistent(ClearActive(st, id, now))
  {}

  lemma CancelConsistent(st: Store, id: string, now: int)
    requires Consistent(st)
    ensures Consistent(CancelActive(st, id, now))
  {
    if id in st.sessions && st.sessions[id].abortController.Some? {
      ClearConsistent(st.(aborted := Abort(st.aborted, st.sessions[id].abortController)), id, now);
    }
  }

  /** Setting an active run keeps the index exact if and only if the session has no other active
      run and the run is not indexed to another session. This is why a prompt cancels first. */
  lemma SetActiveConsistentIff(st: Store, id: string, r: RunId, c: Controller, now: int)
    requires Consistent(st) && id in st.sessions
    ensures Consistent(SetActive(st, id, r, c, now)) <==>
            (st.sessions[id].activeRunId == None || st.sessions[id].activeRunId == Some(r))
            && (r in st.runs ==> st.runs[r] == id)
  {
    var free := (st.sessions[id].activeRunId == None || st.sessions[id].activeRunId == Some(r)) && (r in st.runs ==> st.runs[r] == id);
    if free {
      SetActiveOnFree(st, id, r, c, now);
    } else {
      SetActiveOnTaken(st, id, r, c, now);
    }
  }

  lemma SetActiveOnFree(st: Store, id: string, r: RunId, c: Controller, now: int)
    requires Consistent(st) && id in st.sessions
    requires (st.sessions[id].activeRunId == None || st.sessions[id].activeRunId == Some(r)) && (r in st.runs ==> st.runs[r] == id)
    ensures Consistent(SetActive(st, id, r, c, now))
  {}

  lemma SetActiveOnTaken(st: Store, id: string, r: RunId, c: Controller, now: int)
    requires Consistent(st) && id in st.sessions
    requires (st.sessions[id].activeRunId.Some? && st.sessions[id].activeRunId.value != r) || (r in st.runs && st.runs[r] != id)
    ensures !Indexed(SetActive(st, id, r, c, now))
  {
    var after := SetActive(st, id, r, c, now);
    var before := st.sessions[id].activeRunId;
    if before.Some? && before.value != r {
      assert before.value in after.runs && after.runs[before.value] == id;
    } else {
      assert after.sessions[st.runs[r]].activeRunId == Some(r);
    }
  }

  // ---------- Capacity ----------

  /** `id` may be evicted: it is idle and no idle session was touched before it. */
  ghost predicate LeastTouchedIdle(st: Store, id: string) {
    && id in st.sessions && Idle(st.sessions[id])
    && forall other :: other in st.sessions && Idle(st.sessions[other]) ==>
         st.sessions[id].lastTouchedAt <= st.sessions[other].lastTouchedAt
  }

  /** Among the least recently touched idle sessions, `id` was inserted first. */
  ghost predicate FirstLeastTouched(st: Store, id: string) {
    && LeastTouchedIdle(st, id)
    && exists k :: 0 <= k < |st.order| && st.order[k] == id && StrictlyBefore(st, id, k)
  }

  ghost predicate StrictlyBefore(st: Store, id: string, k: nat)
    requires k <= |st.order|
  {
    forall i :: 0 <= i < k && st.order[i] in st.sessions && Idle(st.sessions[st.order[i]]) && id in st.sessions ==>
      st.sessions[id].lastTouchedAt < st.sessions[st.order[i]].lastTouchedAt
  }

  lemma {:induction false} OldestIdleAmong(st: Store, n: nat) returns (k: nat)
    requires n <= |st.order| && forall id :: id in st.order ==> id in st.sessions
    ensures var r := OldestIdle(st, n);
            && (r.None? ==> forall i :: 0 <= i < n ==> !Idle(st.sessions[st.order[i]]))
            && (r.Some? ==>
                  && k < n && st.order[k] == r.value && StrictlyBefore(st, r.value, k)
                  && forall i :: 0 <= i < n && Idle(st.sessions[st.order[i]]) ==>
                       st.sessions[r.value].lastTouchedAt <= st.sessions[st.order[i]].lastTouchedAt)
  {
    k := 0;
    if n > 0 {
      k := OldestIdleAmong(st, n - 1);
      if OldestIdle(st, n) != OldestIdle(st, n - 1) { k := n - 1; }
    }
  }

  /** The eviction scan finds exactly the first of the least recently touched idle sessions. */
  lemma OldestIdleExact(st: Store)
    requires Ordered(st)
    ensures var r := OldestIdle(st, |st.order|);
            && (r.None? <==> forall id :: id in st.sessions ==> !Idle(st.sessions[id]))
            && (forall id :: r == Some(id) <==> FirstLeastTouched(st, id))
  {
    var r := OldestIdle(st, |st.order|);
    var k := OldestIdleAmong(st, |st.order|);
    forall id | id in st.sessions ensures exists i :: 0 <= i < |st.order| && st.order[i] == id {
      assert id in st.order;
    }
    if r.Some? {
      assert FirstLeastTouched(st, r.value);
      forall id | FirstLeastTouched(st, id) ensures id == r.value {
        var j :| 0 <= j < |st.order| && st.order[j] == id && StrictlyBefore(st, id, j);
        assert st.order[j] in st.sessions && st.order[k] in st.sessions;
      }
    }
  }

  /** Creating a session never removes one that is not idle and changes none that it keeps. What
      it removes has expired, except for at most one session: if the store is full even then, the
      first of the least recently touched idle ones goes, unless its id is empty. */
  lemma CreateRemovesOnlyIdle(st: Store, cfg: Config, id: string, key: string, cwd: string, now: int) returns (evicted: set<string>)
    requires Ordered(st) && id !in st.sessions
    ensures var after := Create(st, cfg, id, key, cwd, now).0;
            var reaped := Reap(st, now, cfg.idleTtlMs);
            && |evicted| <= 1
            && (forall e :: e in evicted <==> |reaped.sessions| >= cfg.maxSessions && e != "" && FirstLeastTouched(reaped, e))
            && (forall other :: other in st.sessions ==>
                  (other in after.sessions <==> !Expired(st.sessions[other], now, cfg.idleTtlMs) && other !in evicted))
            && (forall other :: other in st.sessions && other in after.sessions ==> after.sessions[other] == st.sessions[other])
            && after.runs == st.runs && after.aborted == st.aborted
  {
    var reaped := Reap(st, now, cfg.idleTtlMs);
    ReapOrdered(st, now, cfg.idleTtlMs);
    evicted := {};
    OldestIdleExact(reaped);
    if |reaped.sessions| >= cfg.maxSessions {
      var oldest := OldestIdle(reaped, |reaped.order|);
      if oldest.Some? && oldest.value != "" { evicted := {oldest.value}; }
    }
  }

  /** What a creation adds is the new session alone, idle and just touched. */
  lemma CreateAddsOnlyIt(st: Store, cfg: Config, id: string, key: string, cwd: string, now: int)
    requires Ordered(st) && id !in st.sessions
    ensures var (after, created) := Create(st, cfg, id, key, cwd, now);
            && after.sessions.Keys <= st.sessions.Keys + {id}
            && (created <==> id in after.sessions)
            && (created ==> after.sessions[id] == Session(key, cwd, now, now, None, None))
  {
    var reaped := Reap(st, now, cfg.idleTtlMs);
    ReapOrdered(st, now, cfg.idleTtlMs);
    assert reaped.sessions.Keys <= st.sessions.Keys;
    if |reaped.sessions| >= cfg.maxSessions { EvictOrdered(reaped); }
  }

  /** Creation fails exactly when, after reaping, the store is full and nothing can be evicted:
      every session left is in use, or the eviction choice is the session with the empty id. */
  lemma CreateFailsIff(st: Store, cfg: Config, id: string, key: string, cwd: string, now: int)
    requires Ordered(st)
    ensures var reaped := Reap(st, now, cfg.idleTtlMs);
            Create(st, cfg, id, key, cwd, now).1 == false <==>
            && id !in st.sessions
            && |reaped.sessions| >= cfg.maxSessions
            && ((forall other :: other in reaped.sessions ==> !Idle(reaped.sessions[other]))
                || FirstLeastTouched(reaped, ""))
  {
    ReapOrdered(st, now, cfg.idleTtlMs);
    OldestIdleExact(Reap(st, now, cfg.idleTtlMs));
  }

  /** A reachable store whose only session is idle, and in which creation fails all the same. */
  lemma EmptyIdIsNeverEvicted(key: string, cwd: string, id: string)
    requires id != ""
    ensures var cfg := Config(1, 1_000);
            var st := After(cfg, [OpCreate("", key, cwd, 0)]);
            && st.sessions.Keys == {""} && Idle(st.sessions[""])
            && Create(st, cfg, id, key, cwd, 0) == (st, false)
  {
    var cfg := Config(1, 1_000);
    var op := OpCreate("", key, cwd, 0);
    var st := After(cfg, [op]);
    assert [op][..|[op]| - 1] == [] && After(cfg, []) == EMPTY_STORE;
    assert st == Create(EMPTY_STORE, cfg, "", key, cwd, 0).0;
    assert Reap(EMPTY_STORE, 0, 1_000) == EMPTY_STORE;
    assert st == Insert(EMPTY_STORE, "", key, cwd, 0);
    assert !Expired(st.sessions[""], 0, 1_000);
    assert Reap(st, 0, 1_000).sessions == st.sessions;
    KeepAll(st.order, st.sessions.Keys);
    OldestIdleExact(st);
    assert st.order[0] == "" && FirstLeastTouched(st, "");
  }

  /** The bound on the number of sessions survives creation. */
  lemma CreateBounded(st: Store, cfg: Config, id: string, key: string, cwd: string, now: int)
    requires Ordered(st) && |st.sessions| <= cfg.maxSessions
    ensures |Create(st, cfg, id, key, cwd, now).0.sessions| <= cfg.maxSessions
  {
    var reaped := Reap(st, now, cfg.idleTtlMs);
    Smaller(reaped.sessions, st.sessions);
    if id in st.sessions {
      assert Create(st, cfg, id, key, cwd, now).0.sessions.Keys == st.sessions.Keys;
      Smaller(Create(st, cfg, id, key, cwd, now).0.sessions, st.sessions);
    } else if |reaped.sessions| >= cfg.maxSessions {
      ReapOrdered(st, now, cfg.idleTtlMs);
      var oldest := OldestIdle(reaped, |reaped.order|);
      if oldest.Some? {
        assert reaped.sessions.Keys == (reaped.sessions - {oldest.value}).Keys + {oldest.value};
        assert |reaped.sessions - {oldest.value}| == |(reaped.sessions - {oldest.value}).Keys|;
      }
    }
  }

  lemma Smaller<V>(a: map<string, V>, b: map<string, V>)
    requires a.Keys <= b.Keys
    ensures |a| <= |b|
  {
    assert |a| == |a.Keys| && |b| == |b.Keys|;
    SubsetSize(a.Keys, b.Keys);
  }

  lemma {:induction false} SubsetSize(a: set<string>, b: set<string>)
    requires a <= b
    ensures |a| <= |b|
  {
    assert b == a + (b - a);
  }

  // ---------- All sequences of store operations ----------

  datatype Op =
    | OpCreate(id: string, key: string, cwd: string, now: int)
    | OpGet(id: string, now: int)
    | OpGetByRun(run: RunId, now: int)
    | OpSetActive(id: string, run: RunId, controller: Controller, now: int)
    | OpClearActive(id: string, now: int)
    | OpCancelActive(id: string, now: int)
    | OpClearAll

  function TouchByRun(st: Store, r: RunId, now: int): Store {
    if r in st.runs && st.runs[r] != "" then Touch(st, st.runs[r], now) else st
  }

  function Apply(st: Store, cfg: Config, op: Op): Store
    requires Ordered(st)
  {
    match op
    case OpCreate(id, key, cwd, now) => Create(st, cfg, id, key, cwd, now).0
    case OpGet(id, now) => Touch(st, id, now)
    case OpGetByRun(r, now) => TouchByRun(st, r, now)
    case OpSetActive(id, r, c, now) => SetActive(st, id, r, c, now)
    case OpClearActive(id, now) => ClearActive(st, id, now)
    case OpCancelActive(id, now) => CancelActive(st, id, now)
    case OpClearAll =>
      Store([], map[], map[], st.aborted + set id | id in st.sessions && st.sessions[id].abortController.Some? :: st.sessions[id].abortController.value)
  }

  /** What callers promise: an active run is set only on a session without one, under a run id
      that is not in the index. */
  predicate Disciplined(st: Store, op: Op) {
    op.OpSetActive? && op.id in st.sessions ==> st.sessions[op.id].activeRunId == None && op.run !in st.runs
  }

  lemma ApplyOrdered(st: Store, cfg: Config, op: Op)
    requires Ordered(st)
    ensures Ordered(Apply(st, cfg, op))
  {
    if op.OpCreate? { CreateOrdered(st, cfg, op.id, op.key, op.cwd, op.now); }
  }

  /** The store after a sequence of operations from empty. */
  function After(cfg: Config, ops: seq<Op>): (st: Store)
    ensures Ordered(st)
  {
    if ops == [] then EMPTY_STORE
    else
      var before := After(cfg, ops[..|ops| - 1]);
      ApplyOrdered(before, cfg, ops[|ops| - 1]);
      Apply(before, cfg, ops[|ops| - 1])
  }

  lemma ApplyBounded(st: Store, cfg: Config, op: Op)
    requires Ordered(st) && |st.sessions| <= cfg.maxSessions
    ensures |Apply(st, cfg, op).sessions| <= cfg.maxSessions
  {
    match op
    case OpCreate(id, key, cwd, now) => CreateBounded(st, cfg, id, key, cwd, now);
    case _ => Smaller(Apply(st, cfg, op).sessions, st.sessions);
  }

  /** After any sequence of store operations there are at most `maxSessions` sessions. */
  lemma {:induction false} EveryStoreBounded(cfg: Config, ops: seq<Op>)
    ensures |After(cfg, ops).sessions| <= cfg.maxSessions
  {
    if ops != [] {
      EveryStoreBounded(cfg, ops[..|ops| - 1]);
      ApplyBounded(After(cfg, ops[..|ops| - 1]), cfg, ops[|ops| - 1]);
    }
  }

  lemma ApplyConsistent(st: Store, cfg: Config, op: Op)
    requires Consistent(st) && Disciplined(st, op)
    ensures Consistent(Apply(st, cfg, op))
  {
    match op
    case OpCreate(id, key, cwd, now) => CreateConsistent(st, cfg, id, key, cwd, now);
    case OpSetActive(id, r, c, now) => if id in st.sessions { SetActiveConsistentIff(st, id, r, c, now); }
    case OpGet(id, now) => TouchConsistent(st, id, now);
    case OpGetByRun(r, now) => if r in st.runs { TouchConsistent(st, st.runs[r], now); }
    case OpClearActive(id, now) => ClearConsistent(st, id, now);
    case OpCancelActive(id, now) => CancelConsistent(st, id, now);
    case OpClearAll =>
  }

  /** After any sequence of operations by callers that keep the promise, a run is indexed to a
      session exactly when it is the session's active run, and every active run has its controller. */
  lemma {:induction false} EveryStoreConsistent(cfg: Config, ops: seq<Op>)
    requires forall i {:trigger ops[i]} :: 0 <= i < |ops| ==> Disciplined(After(cfg, ops[..i]), ops[i])
    ensures Consistent(After(cfg, ops))
  {
    if ops != [] {
      var before := ops[..|ops| - 1];
      forall i {:trigger before[i]} | 0 <= i < |before| ensures Disciplined(After(cfg, before[..i]), before[i]) {
        assert before[..i] == ops[..i] && before[i] == ops[i];
      }
      EveryStoreConsistent(cfg, before);
      assert Disciplined(After(cfg, before), ops[|ops| - 1]);
      ApplyConsistent(After(cfg, before), cfg, ops[|ops| - 1]);
    }
  }
}

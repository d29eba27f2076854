/**
 What the cost guard guarantees over whole runs: the hourly rate with several calls in flight,
 the conservation of costs and counters, and when the budget flag is up.
 */
module CostGuardProperties {
  import opened Basics
  import opened CostGuards

  // ---------- The hourly rate ----------

  /** How many timestamps are not older than `lo`. */
  function CountFrom(h: seq<int>, lo: int): nat {
    if h == [] then 0 else CountFrom(h[..|h| - 1], lo) + if h[|h| - 1] >= lo then 1 else 0
  }

  function CountIn(h: seq<int>, lo: int, hi: int): nat {
    if h == [] then 0 else CountIn(h[..|h| - 1], lo, hi) + if lo <= h[|h| - 1] <= hi then 1 else 0
  }

  /** A guard in use: `history` is every action ever recorded, `inFlight` counts the calls between
      a passed check and their record, `horizon` is the cutoff of the last check that passed. */
  datatype Use = Use(guard: Guard, history: seq<int>, inFlight: nat, clock: int, horizon: int)

  datatype Event = CheckAt(now: int) | RecordAt(call: Call, now: int) | Abandon | QueryAt(now: int)

  /** Time does not run backwards, and only a call that passed its check ends. */
  predicate Possible(s: Use, e: Event) {
    match e
    case CheckAt(now) => now >= s.clock
    case QueryAt(now) => now >= s.clock
    case RecordAt(_, now) => now >= s.clock && s.inFlight > 0
    case Abandon => s.inFlight > 0
  }

  function Happen(s: Use, cfg: CostGuardConfig, e: Event): Use
    requires Possible(s, e)
  {
    match e
    case CheckAt(now) =>
      var (g, verdict) := Check(s.guard, cfg, now);
      if verdict.Allowed? then Use(g, s.history, s.inFlight + 1, now, now - WINDOW) else s.(guard := g, clock := now)
    case QueryAt(now) => s.(guard := s.guard.(window := Prune(s.guard.window, now - WINDOW)), clock := now)
    case RecordAt(c, now) =>
      s.(guard := Record(s.guard, cfg, c, now), history := s.history + [now], inFlight := s.inFlight - 1, clock := now)
    case Abandon => s.(inFlight := s.inFlight - 1)
  }

  predicate Sorted(h: seq<int>) {
    forall i, j :: 0 <= i < j < |h| ==> h[i] <= h[j]
  }

  /** The pruned window is a suffix of the sorted full history, and what it misses has expired. */
  ghost predicate IsSuffix(window: seq<int>, history: seq<int>, clock: int) {
    && Sorted(history) && (forall i :: 0 <= i < |history| ==> history[i] <= clock)
    && |window| <= |history| && window == history[|history| - |window|..]
    && (forall i :: 0 <= i < |history| - |window| ==> history[i] < clock - WINDOW)
  }

  ghost predicate WindowIsSuffix(s: Use) {
    IsSuffix(s.guard.window, s.history, s.clock)
  }

  lemma {:induction false} PruneDropsPrefix(window: seq<int>, cutoff: int)
    ensures var left := Prune(window, cutoff);
            && |left| <= |window| && left == window[|window| - |left|..]
            && (forall i :: 0 <= i < |window| - |left| ==> window[i] < cutoff)
            && (left != [] ==> left[0] >= cutoff)
  {
    if window != [] && window[0] < cutoff { PruneDropsPrefix(window[1..], cutoff); }
  }

  lemma PruneKeepsSuffix(window: seq<int>, history: seq<int>, clock: int, now: int)
    requires IsSuffix(window, history, clock) && now >= clock
    ensures IsSuffix(Prune(window, now - WINDOW), history, now)
  {
    PruneDropsPrefix(window, now - WINDOW);
    var dropped := |history| - |window|;
    forall i | 0 <= i < |history| - |Prune(window, now - WINDOW)| ensures history[i] < now - WINDOW {
      if i >= dropped { assert history[i] == window[i - dropped]; }
    }
  }

  lemma WaitKeepsSuffix(window: seq<int>, history: seq<int>, clock: int, now: int)
    requires IsSuffix(window, history, clock) && now >= clock
    ensures IsSuffix(window, history, now)
  {}

  lemma PushKeepsSuffix(window: seq<int>, history: seq<int>, clock: int, now: int)
    requires IsSuffix(window, history, clock) && now >= clock
    ensures IsSuffix(window + [now], history + [now], now)
  {
    var h := history + [now];
    assert window + [now] == h[|h| - |window| - 1..];
  }

  lemma HappenKeepsSuffix(s: Use, cfg: CostGuardConfig, e: Event)
    requires WindowIsSuffix(s) && Possible(s, e)
    ensures WindowIsSuffix(Happen(s, cfg, e))
  {
    match e
    case CheckAt(now) =>
      PruneKeepsSuffix(s.guard.window, s.history, s.clock, now);
      WaitKeepsSuffix(s.guard.window, s.history, s.clock, now);
    case QueryAt(now) => PruneKeepsSuffix(s.guard.window, s.history, s.clock, now);
    case RecordAt(c, now) => PushKeepsSuffix(s.guard.window, s.history, s.clock, now);
    case Abandon =>
  }

  lemma {:induction false} CountFromSplit(h: seq<int>, lo: int, d: nat)
    requires d <= |h| && (forall i :: 0 <= i < d ==> h[i] < lo) && (forall i :: d <= i < |h| ==> h[i] >= lo)
    ensures CountFrom(h, lo) == |h| - d
    decreases |h|
  {
    if h != [] {
      if d == |h| { CountFromSplit(h[..|h| - 1], lo, d - 1); } else { CountFromSplit(h[..|h| - 1], lo, d); }
    }
  }

  /** Although old entries are gone, pruning at `now` leaves exactly as many entries as the full
      history has within the hour before `now`: what a check compares and a query reports. */
  lemma PrunedCountIsExact(s: Use, now: int)
    requires WindowIsSuffix(s) && now >= s.clock
    ensures |Prune(s.guard.window, now - WINDOW)| == CountFrom(s.history, now - WINDOW)
  {
    var left := Prune(s.guard.window, now - WINDOW);
    PruneKeepsSuffix(s.guard.window, s.history, s.clock, now);
    PruneDropsPrefix(s.guard.window, now - WINDOW);
    var d := |s.history| - |left|;
    forall i | d <= i < |s.history| ensures s.history[i] >= now - WINDOW {
      assert s.history[d] == left[0];
    }
    CountFromSplit(s.history, now - WINDOW, d);
  }

  lemma {:induction false} CountFromMonotone(h: seq<int>, lo: int, hi: int)
    requires lo <= hi
    ensures CountFrom(h, hi) <= CountFrom(h, lo)
  {
    if h != [] { CountFromMonotone(h[..|h| - 1], lo, hi); }
  }

  lemma {:induction false} CountInBelow(h: seq<int>, lo: int, hi: int)
    ensures CountIn(h, lo, hi) <= CountFrom(h, lo)
  {
    if h != [] { CountInBelow(h[..|h| - 1], lo, hi); }
  }

  /** The calls recorded in the closed hour that starts at `t`. */
  function InHour(h: seq<int>, t: int): nat {
    CountIn(h, t, t + WINDOW)
  }

  lemma CountOneMore(h: seq<int>, x: int, lo: int, hi: int)
    ensures CountFrom(h + [x], lo) == CountFrom(h, lo) + if x >= lo then 1 else 0
    ensures CountIn(h + [x], lo, hi) == CountIn(h, lo, hi) + if lo <= x <= hi then 1 else 0
  {
    assert (h + [x])[..|h|] == h;
  }

  /** Every closed hour is within `bound`; from the horizon on, so are the recorded calls
      together with those in flight. */
  ghost predicate RateInv(s: Use, bound: int) {
    && WindowIsSuffix(s) && s.horizon <= s.clock - WINDOW
    && (forall t {:trigger InHour(s.history, t)} :: InHour(s.history, t) <= bound)
    && (forall t {:trigger CountFrom(s.history, t)} :: t >= s.horizon ==> CountFrom(s.history, t) + s.inFlight <= bound)
  }

  lemma CheckKeepsRate(s: Use, cfg: CostGuardConfig, limit: nat, k: nat, now: int)
    requires cfg.maxActionsPerHour == Some(limit)
    requires RateInv(s, limit + k - 1) && now >= s.clock && Happen(s, cfg, CheckAt(now)).inFlight <= k
    ensures RateInv(Happen(s, cfg, CheckAt(now)), limit + k - 1)
  {
    HappenKeepsSuffix(s, cfg, CheckAt(now));
    PrunedCountIsExact(s, now);
    forall t | t >= now - WINDOW ensures CountFrom(s.history, t) <= CountFrom(s.history, now - WINDOW) {
      CountFromMonotone(s.history, now - WINDOW, t);
    }
  }

  lemma RecordKeepsRate(s: Use, cfg: CostGuardConfig, bound: int, c: Call, now: int)
    requires RateInv(s, bound) && now >= s.clock && s.inFlight > 0
    ensures RateInv(Happen(s, cfg, RecordAt(c, now)), bound)
  {
    var after := Happen(s, cfg, RecordAt(c, now));
    HappenKeepsSuffix(s, cfg, RecordAt(c, now));
    forall t ensures InHour(after.history, t) <= bound { RecordInHour(s, bound, now, t); }
    forall t | t >= s.horizon ensures CountFrom(after.history, t) + after.inFlight <= bound {
      CountOneMore(s.history, now, t, t + WINDOW);
      assert CountFrom(s.history, t) + s.inFlight <= bound;
    }
  }

  lemma RecordInHour(s: Use, bound: int, now: int, t: int)
    requires RateInv(s, bound) && now >= s.clock && s.inFlight > 0
    ensures InHour(s.history + [now], t) <= bound
  {
    CountOneMore(s.history, now, t, t + WINDOW);
    CountInBelow(s.history, t, t + WINDOW);
    assert InHour(s.history, t) <= bound;
    if t <= now <= t + WINDOW { assert CountFrom(s.history, t) + s.inFlight <= bound; }
  }

  lemma HappenKeepsRate(s: Use, cfg: CostGuardConfig, limit: nat, k: nat, e: Event)
    requires cfg.maxActionsPerHour == Some(limit)
    requires RateInv(s, limit + k - 1) && Possible(s, e) && Happen(s, cfg, e).inFlight <= k
    ensures RateInv(Happen(s, cfg, e), limit + k - 1)
  {
    match e
    case CheckAt(now) => CheckKeepsRate(s, cfg, limit, k, now);
    case RecordAt(c, now) => RecordKeepsRate(s, cfg, limit + k - 1, c, now);
    case QueryAt(now) => HappenKeepsSuffix(s, cfg, e);
    case Abandon =>
  }

  function NewGuard(today: int): Guard {
    Guard(0.0, today, false, [], map[])
  }

  function Fresh(today: int): Use {
    Use(NewGuard(today), [], 0, 0, -WINDOW)
  }

  /** A run from a new guard with at most `k` calls in flight at any time. */
  ghost predicate RateTrail(states: seq<Use>, events: seq<Event>, cfg: CostGuardConfig, k: nat) {
    && |states| == |events| + 1 && states[0] == Fresh(states[0].guard.resetDate)
    && forall i {:trigger events[i]} :: 0 <= i < |events| ==>
         Possible(states[i], events[i]) && states[i + 1] == Happen(states[i], cfg, events[i]) && states[i + 1].inFlight <= k
  }

  /** With at most `k` calls between a passed check and its record, no closed hour ever holds more
      than `limit + k - 1` recorded calls; with one call at a time that is the limit itself. */
  lemma {:induction false} RateBound(states: seq<Use>, events: seq<Event>, cfg: CostGuardConfig, limit: nat, k: nat, n: nat)
    requires cfg.maxActionsPerHour == Some(limit)
    requires RateTrail(states, events, cfg, k) && k >= 1 && n <= |events|
    ensures RateInv(states[n], limit + k - 1)
    ensures forall t :: InHour(states[n].history, t) <= limit + k - 1
  {
    if n > 0 {
      RateBound(states, events, cfg, limit, k, n - 1);
      assert Possible(states[n - 1], events[n - 1]);
      HappenKeepsRate(states[n - 1], cfg, limit, k, events[n - 1]);
    }
  }

  // ---------- The bound is tight ----------

  /** A run of events with at most `k` calls in flight, None when some event was not possible. */
  function HappenAll(s: Use, cfg: CostGuardConfig, k: nat, events: seq<Event>): Option<Use> {
    if events == [] then Some(s)
    else
      match HappenAll(s, cfg, k, events[..|events| - 1])
      case None => None
      case Some(before) => HappenOne(before, cfg, k, events[|events| - 1])
  }

  function HappenOne(s: Use, cfg: CostGuardConfig, k: nat, e: Event): Option<Use> {
    if Possible(s, e) && Happen(s, cfg, e).inFlight <= k then Some(Happen(s, cfg, e)) else None
  }

  function Zeros(n: nat): seq<int> {
    seq(n, _ => 0)
  }

  lemma ZerosMore(n: nat)
    ensures Zeros(n) + [0] == Zeros(n + 1)
  {}

  lemma OneMoreEvent(s: Use, cfg: CostGuardConfig, k: nat, events: seq<Event>, e: Event)
    requires HappenAll(s, cfg, k, events).Some?
    ensures HappenAll(s, cfg, k, events + [e]) == HappenOne(HappenAll(s, cfg, k, events).value, cfg, k, e)
  {
    assert (events + [e])[..|events|] == events;
  }

  const FREE_CALL := RecordAt(Call("", 0, 0, 0.0, 0), 0)

  /** At instant 0: `done` calls recorded one after the other, then `flying` more checked. */
  lemma {:induction false} Filling(cfg: CostGuardConfig, limit: nat, k: nat, done: nat, flying: nat) returns (events: seq<Event>)
    requires cfg == CostGuardConfig(None, Some(limit)) && 1 <= limit && 1 <= k && done < limit && flying <= k
    ensures HappenAll(Fresh(0), cfg, k, events).Some?
    ensures var s := HappenAll(Fresh(0), cfg, k, events).value;
            s.guard.window == Zeros(done) && s.history == Zeros(done) && s.inFlight == flying && s.clock == 0 && !s.guard.exceeded
    decreases done + flying
  {
    if flying > 0 {
      events := Filling(cfg, limit, k, done, flying - 1);
      OneMoreEvent(Fresh(0), cfg, k, events, CheckAt(0));
      events := events + [CheckAt(0)];
    } else if done > 0 {
      events := Filling(cfg, limit, k, done - 1, 0);
      OneMoreEvent(Fresh(0), cfg, k, events, CheckAt(0));
      OneMoreEvent(Fresh(0), cfg, k, events + [CheckAt(0)], FREE_CALL);
      ZerosMore(done - 1);
      events := events + [CheckAt(0)] + [FREE_CALL];
    } else {
      events := [];
    }
  }

  lemma {:induction false} Landing(cfg: CostGuardConfig, limit: nat, k: nat, landed: nat) returns (events: seq<Event>)
    requires cfg == CostGuardConfig(None, Some(limit)) && 1 <= limit && 1 <= k && landed <= k
    ensures HappenAll(Fresh(0), cfg, k, events).Some?
    ensures var s := HappenAll(Fresh(0), cfg, k, events).value;
            s.history == Zeros(limit - 1 + landed) && s.inFlight == k - landed && s.clock == 0
  {
    if landed == 0 {
      events := Filling(cfg, limit, k, limit - 1, k);
    } else {
      events := Landing(cfg, limit, k, landed - 1);
      OneMoreEvent(Fresh(0), cfg, k, events, FREE_CALL);
      ZerosMore(limit - 1 + landed - 1);
      events := events + [FREE_CALL];
    }
  }

  lemma {:induction false} CountZeros(n: nat)
    ensures CountIn(Zeros(n), 0, WINDOW) == n
  {
    if n > 0 {
      assert Zeros(n)[..n - 1] == Zeros(n - 1);
      CountZeros(n - 1);
    }
  }

  /** The bound cannot be improved: for every limit and every `k` some run reaches it. */
  lemma RateBoundIsReached(limit: nat, k: nat) returns (events: seq<Event>)
    requires 1 <= limit && 1 <= k
    ensures var end := HappenAll(Fresh(0), CostGuardConfig(None, Some(limit)), k, events);
            end.Some? && InHour(end.value.history, 0) == limit + k - 1
  {
    events := Landing(CostGuardConfig(None, Some(limit)), limit, k, k);
    CountZeros(limit + k - 1);
  }

  // ---------- Conservation of costs and counters ----------

  /** Everything a sequence of calls used, together. */
  function SumCalls(calls: seq<Call>): ModelTokens {
    if calls == [] then NO_TOKENS else Plus(SumCalls(calls[..|calls| - 1]), TokensOf(calls[|calls| - 1]))
  }

  function SumOfModel(calls: seq<Call>, model: string): ModelTokens {
    if calls == [] then NO_TOKENS
    else
      var before := SumOfModel(calls[..|calls| - 1], model);
      if calls[|calls| - 1].model == model then Plus(before, TokensOf(calls[|calls| - 1])) else before
  }

  /** The sum over all entries of the per-model table. */
  ghost function SumModels(models: map<string, ModelTokens>): ModelTokens {
    if models == map[] then NO_TOKENS
    else var m :| m in models; Plus(models[m], SumModels(models - {m}))
  }

  lemma {:induction false} SumModelsPick(models: map<string, ModelTokens>, m: string)
    requires m in models
    ensures SumModels(models) == Plus(models[m], SumModels(models - {m}))
    decreases |models|
  {
    var first :| first in models && SumModels(models) == Plus(models[first], SumModels(models - {first}));
    if first != m {
      SumModelsPick(models - {first}, m);
      SumModelsPick(models - {m}, first);
      var rest := SumModels(models - {m} - {first});
      assert models - {first} - {m} == models - {m} - {first};
      assert SumModels(models) == Plus(models[first], Plus(models[m], rest));
      assert SumModels(models - {m}) == Plus(models[first], rest);
    }
  }

  lemma SumModelsUpdate(models: map<string, ModelTokens>, m: string, extra: ModelTokens)
    ensures SumModels(models[m := Plus(Entry(models, m), extra)]) == Plus(SumModels(models), extra)
  {
    var after := models[m := Plus(Entry(models, m), extra)];
    SumModelsPick(after, m);
    assert after - {m} == models - {m};
    if m in models { SumModelsPick(models, m); } else { assert models - {m} == models; }
  }

  /** The cost of the calls since the day last changed: the trailing calls of one day. */
  function SinceReset(calls: seq<Call>): real {
    if calls == [] then 0.0
    else
      var init, last := calls[..|calls| - 1], calls[|calls| - 1];
      last.cost + if init != [] && init[|init| - 1].day == last.day then SinceReset(init) else 0.0
  }

  datatype Action = Checked(now: int) | Recorded(call: Call, now: int) | Queried(now: int)

  function Act(g: Guard, cfg: CostGuardConfig, a: Action): Guard {
    match a
    case Checked(now) => Check(g, cfg, now).0
    case Recorded(c, now) => Record(g, cfg, c, now)
    case Queried(now) => g.(window := Prune(g.window, now - WINDOW))
  }

  function ActAll(g: Guard, cfg: CostGuardConfig, actions: seq<Action>): Guard {
    if actions == [] then g else Act(ActAll(g, cfg, actions[..|actions| - 1]), cfg, actions[|actions| - 1])
  }

  /** The calls recorded by a sequence of actions. */
  function CallsOf(actions: seq<Action>): seq<Call> {
    if actions == [] then []
    else
      var init, last := CallsOf(actions[..|actions| - 1]), actions[|actions| - 1];
      if last.Recorded? then init + [last.call] else init
  }

  lemma CallsSnoc(calls: seq<Call>, c: Call)
    ensures SumCalls(calls + [c]) == Plus(SumCalls(calls), TokensOf(c))
    ensures forall m :: SumOfModel(calls + [c], m) == if c.model == m then Plus(SumOfModel(calls, m), TokensOf(c)) else SumOfModel(calls, m)
    ensures SinceReset(calls + [c]) == c.cost + if calls != [] && calls[|calls| - 1].day == c.day then SinceReset(calls) else 0.0
  {
    assert (calls + [c])[..|calls|] == calls;
  }

  /** The books agree with the calls recorded so far. */
  ghost predicate Balanced(g: Guard, today: int, calls: seq<Call>) {
    && SumModels(g.models) == SumCalls(calls)
    && (forall m :: Entry(g.models, m) == SumOfModel(calls, m))
    && g.total == SinceReset(calls)
    && g.resetDate == if calls == [] then today else calls[|calls| - 1].day
  }

  lemma RecordBalanced(g: Guard, cfg: CostGuardConfig, today: int, calls: seq<Call>, c: Call, now: int)
    requires Balanced(g, today, calls)
    ensures Balanced(Record(g, cfg, c, now), today, calls + [c])
  {
    CallsSnoc(calls, c);
    SumModelsUpdate(g.models, c.model, TokensOf(c));
  }

  /** Over every run of checks, queries and records, across any day changes: the per-model
      counters sum to the totals over all recorded calls, each counter is that of its own calls,
      and the daily total is the cost of the calls since the day last changed. */
  lemma {:induction false} BooksBalance(cfg: CostGuardConfig, today: int, actions: seq<Action>)
    ensures Balanced(ActAll(NewGuard(today), cfg, actions), today, CallsOf(actions))
  {
    if actions != [] {
      var init, last := actions[..|actions| - 1], actions[|actions| - 1];
      BooksBalance(cfg, today, init);
      if last.Recorded? {
        RecordBalanced(ActAll(NewGuard(today), cfg, init), cfg, today, CallsOf(init), last.call, last.now);
      }
    }
  }

  /** Over every run the spend that is reported for a day is the cost of the calls since the day last
      changed, if that is the day of the last recorded call, and nothing otherwise. */
  lemma EveryReportedSpend(cfg: CostGuardConfig, today: int, actions: seq<Action>, day: int)
    ensures var calls := CallsOf(actions);
            DailySpendOf(ActAll(NewGuard(today), cfg, actions), day) ==
            if calls != [] && calls[|calls| - 1].day == day then SinceReset(calls) else 0.0
  {
    BooksBalance(cfg, today, actions);
  }

  // ---------- The budget flag ----------

  lemma CentsInRange(usd: real)
    requires usd >= 0.0
    ensures usd * 100.0 < U64_LIMIT as real ==> ToCents(usd) == (usd * 100.0).Floor
    ensures usd * 100.0 >= U64_LIMIT as real ==> ToCents(usd) == 0
  {}

  /** The flag is up only over a limit that the day's spending has reached. */
  ghost predicate FlagJustified(g: Guard, cfg: CostGuardConfig) {
    && g.total >= 0.0
    && (g.exceeded ==> cfg.maxCostPerDayCents.Some? && (g.total * 100.0).Floor >= cfg.maxCostPerDayCents.value)
  }

  lemma FloorMonotone(x: real, y: real)
    requires x <= y
    ensures x.Floor <= y.Floor
  {}

  lemma ActJustified(g: Guard, cfg: CostGuardConfig, a: Action)
    requires FlagJustified(g, cfg) && (a.Recorded? ==> a.call.cost >= 0.0)
    ensures FlagJustified(Act(g, cfg, a), cfg)
  {
    if a.Recorded? { FloorMonotone(g.total * 100.0, (g.total + a.call.cost) * 100.0); }
  }

  /** With non-negative costs, in every run the flag is up only if a limit exists and the whole
      cents spent since the last reset have reached it. */
  lemma {:induction false} FlagAlwaysJustified(cfg: CostGuardConfig, today: int, actions: seq<Action>)
    requires forall a :: a in actions && a.Recorded? ==> a.call.cost >= 0.0
    ensures FlagJustified(ActAll(NewGuard(today), cfg, actions), cfg)
  {
    if actions != [] {
      assert actions[|actions| - 1] in actions;
      FlagAlwaysJustified(cfg, today, actions[..|actions| - 1]);
      ActJustified(ActAll(NewGuard(today), cfg, actions[..|actions| - 1]), cfg, actions[|actions| - 1]);
    }
  }

  /** After a record whose running total still fits 64 bits of cents, the flag is up exactly when
      the limit has been reached. */
  lemma RecordFlagsExactly(g: Guard, cfg: CostGuardConfig, c: Call, now: int)
    requires FlagJustified(g, cfg) && c.cost >= 0.0
    requires Record(g, cfg, c, now).total * 100.0 < U64_LIMIT as real
    ensures var after := Record(g, cfg, c, now);
            after.exceeded <==> cfg.maxCostPerDayCents.Some? && (after.total * 100.0).Floor >= cfg.maxCostPerDayCents.value
  {
    FloorMonotone(g.total * 100.0, (g.total + c.cost) * 100.0);
  }

  /** A record misses a limit that the total has reached exactly when the total no longer fits 64
      bits of cents and no flag of the same day was up before. */
  lemma RecordMissesBudgetIff(g: Guard, cfg: CostGuardConfig, c: Call, now: int)
    requires FlagJustified(g, cfg) && c.cost >= 0.0 && cfg.maxCostPerDayCents.Some? && cfg.maxCostPerDayCents.value > 0
    ensures var after := Record(g, cfg, c, now);
            (after.total * 100.0).Floor >= cfg.maxCostPerDayCents.value && !after.exceeded
            <==>
            (after.total * 100.0).Floor >= cfg.maxCostPerDayCents.value
            && after.total * 100.0 >= U64_LIMIT as real && !(g.exceeded && c.day == g.resetDate)
  {
    var after := Record(g, cfg, c, now);
    CentsInRange(after.total);
    FloorMonotone(g.total * 100.0, (g.total + c.cost) * 100.0);
  }

  /** A raised flag outlives midnight: until some call is recorded, the guard refuses every check,
      even when the spend it reports for the new day is zero. */
  lemma {:induction false} BlockedUntilRecorded(g: Guard, cfg: CostGuardConfig, actions: seq<Action>, now: int, today: int)
    requires g.exceeded && forall a :: a in actions ==> !a.Recorded?
    ensures var after := ActAll(g, cfg, actions);
            && Check(after, cfg, now).1.DailyBudget? && after.exceeded
            && after.resetDate == g.resetDate && (today != g.resetDate ==> DailySpendOf(after, today) == 0.0)
  {
    if actions != [] {
      assert actions[|actions| - 1] in actions;
      BlockedUntilRecorded(g, cfg, actions[..|actions| - 1], now, today);
    }
  }

  /** A check leaves the books alone; it raises the flag exactly when it refuses for the budget. */
  lemma CheckLeavesTheBooks(g: Guard, cfg: CostGuardConfig, now: int)
    ensures var (after, verdict) := Check(g, cfg, now);
            && after.total == g.total && after.resetDate == g.resetDate && after.models == g.models
            && (after.exceeded <==> g.exceeded || verdict.DailyBudget?)
  {}

  // ---------- When the budget refuses, and whether it ever stops ----------

  /** A check is refused for the budget; the time of the check does not matter. */
  predicate BudgetRefuses(g: Guard, cfg: CostGuardConfig) {
    g.exceeded || (cfg.maxCostPerDayCents.Some? && ToCents(g.total) >= cfg.maxCostPerDayCents.value)
  }

  lemma CheckRefusesIff(g: Guard, cfg: CostGuardConfig, now: int)
    ensures Check(g, cfg, now).1.DailyBudget? <==> BudgetRefuses(g, cfg)
  {}

  /** In every run a check answers exactly this: a budget that is spent, with the cents spent and the
      limit; else the number of calls recorded in the hour, if that has reached its limit. */
  lemma CheckAnswersExactly(s: Use, cfg: CostGuardConfig, now: int)
    requires WindowIsSuffix(s) && now >= s.clock
    ensures var actions := CountFrom(s.history, now - WINDOW);
            Check(s.guard, cfg, now).1 ==
            if BudgetRefuses(s.guard, cfg) then
              DailyBudget(ToCents(s.guard.total), if cfg.maxCostPerDayCents.Some? then cfg.maxCostPerDayCents.value else 0)
            else if cfg.maxActionsPerHour.Some? && actions >= cfg.maxActionsPerHour.value then
              HourlyRate(actions, cfg.maxActionsPerHour.value)
            else Allowed
  {
    PrunedCountIsExact(s, now);
  }

  /** After any run with non-negative costs whose total fits 64 bits of cents, a check is refused for
      the budget exactly when a limit exists and the whole cents of the calls since the last recorded
      change of day have reached it. The day of the check does not come into it. */
  lemma BudgetRefusesIff(cfg: CostGuardConfig, today: int, actions: seq<Action>, now: int)
    requires forall a :: a in actions && a.Recorded? ==> a.call.cost >= 0.0
    requires SinceReset(CallsOf(actions)) * 100.0 < U64_LIMIT as real
    ensures Check(ActAll(NewGuard(today), cfg, actions), cfg, now).1.DailyBudget? <==>
            cfg.maxCostPerDayCents.Some? && (SinceReset(CallsOf(actions)) * 100.0).Floor >= cfg.maxCostPerDayCents.value
  {
    var g := ActAll(NewGuard(today), cfg, actions);
    FlagAlwaysJustified(cfg, today, actions);
    BooksBalance(cfg, today, actions);
    CentsInRange(g.total);
  }

  /** Refused, and no call is under way that could still be recorded. */
  predicate Locked(s: Use, cfg: CostGuardConfig) {
    BudgetRefuses(s.guard, cfg) && s.inFlight == 0
  }

  lemma HappenKeepsLocked(s: Use, cfg: CostGuardConfig, e: Event)
    requires Locked(s, cfg) && Possible(s, e)
    ensures Locked(Happen(s, cfg, e), cfg)
  {}

  /** A locked guard refuses every check of every run, on every later day: only a record clears the
      flag, and only a call that passed a check is recorded. */
  lemma {:induction false} LockedForever(s: Use, cfg: CostGuardConfig, k: nat, events: seq<Event>, now: int)
    requires Locked(s, cfg)
    ensures var end := HappenAll(s, cfg, k, events);
            end.Some? ==> Locked(end.value, cfg) && Check(end.value.guard, cfg, now).1.DailyBudget?
  {
    if events != [] {
      LockedForever(s, cfg, k, events[..|events| - 1], now);
      var before := HappenAll(s, cfg, k, events[..|events| - 1]);
      var e := events[|events| - 1];
      if before.Some? && Possible(before.value, e) { HappenKeepsLocked(before.value, cfg, e); }
    }
  }

  /** Some run from here leads to a check that the budget does not refuse. */
  ghost predicate Reopens(s: Use, cfg: CostGuardConfig, k: nat, events: seq<Event>) {
    HappenAll(s, cfg, k, events).Some? && !BudgetRefuses(HappenAll(s, cfg, k, events).value.guard, cfg)
  }

  lemma {:induction false} ZeroLimitRefuses(s: Use, cfg: CostGuardConfig, k: nat, events: seq<Event>)
    requires cfg.maxCostPerDayCents == Some(0)
    ensures !Reopens(s, cfg, k, events)
  {}

  /** A record takes a raised flag down exactly when its day is another one and its cost is below
      the limit, if there is one. */
  lemma RecordOpensIff(g: Guard, cfg: CostGuardConfig, c: Call, now: int)
    requires g.exceeded
    ensures !BudgetRefuses(Record(g, cfg, c, now), cfg) <==>
            c.day != g.resetDate && (cfg.maxCostPerDayCents.Some? ==> ToCents(c.cost) < cfg.maxCostPerDayCents.value)
  {
    if c.day != g.resetDate { NewDayOpensIff(g, cfg, c, now); }
  }

  lemma NewDayOpensIff(g: Guard, cfg: CostGuardConfig, c: Call, now: int)
    requires c.day != g.resetDate
    ensures !BudgetRefuses(Record(g, cfg, c, now), cfg) <==>
            (cfg.maxCostPerDayCents.Some? ==> ToCents(c.cost) < cfg.maxCostPerDayCents.value)
  {
    assert 0.0 + c.cost == c.cost;
  }

  lemma NothingIsNoCents()
    ensures ToCents(0.0) == 0
  {}

  lemma OneEvent(s: Use, cfg: CostGuardConfig, k: nat, e: Event)
    ensures HappenAll(s, cfg, k, [e]) == HappenOne(s, cfg, k, e)
  {
    assert HappenAll(s, cfg, k, []) == Some(s);
    assert [e][..0] == [];
  }

  lemma FreeCallReopens(s: Use, cfg: CostGuardConfig) returns (events: seq<Event>)
    requires s.inFlight > 0 && cfg.maxCostPerDayCents != Some(0)
    ensures Reopens(s, cfg, s.inFlight, events)
  {
    var call := Call("", 0, 0, 0.0, s.guard.resetDate + 1);
    events := [RecordAt(call, s.clock)];
    OneEvent(s, cfg, s.inFlight, RecordAt(call, s.clock));
    NothingIsNoCents();
    NewDayOpensIff(s.guard, cfg, call, s.clock);
  }

  /** A guard that refuses can open again exactly when a call is still under way and the limit, if
      there is one, is positive. */
  lemma ReopensIff(s: Use, cfg: CostGuardConfig)
    requires BudgetRefuses(s.guard, cfg)
    ensures (exists k, events :: Reopens(s, cfg, k, events)) <==> s.inFlight > 0 && cfg.maxCostPerDayCents != Some(0)
  {
    if s.inFlight > 0 && cfg.maxCostPerDayCents != Some(0) {
      var events := FreeCallReopens(s, cfg);
    } else {
      forall k, events ensures !Reopens(s, cfg, k, events) { NeverReopens(s, cfg, k, events); }
    }
  }

  lemma NeverReopens(s: Use, cfg: CostGuardConfig, k: nat, events: seq<Event>)
    requires BudgetRefuses(s.guard, cfg) && (s.inFlight == 0 || cfg.maxCostPerDayCents == Some(0))
    ensures !Reopens(s, cfg, k, events)
  {
    if s.inFlight == 0 { LockedForever(s, cfg, k, events, 0); } else { ZeroLimitRefuses(s, cfg, k, events); }
  }

  lemma OneCall(s: Use, cfg: CostGuardConfig, c: Call) returns (events: seq<Event>)
    requires Check(s.guard, cfg, s.clock).1.Allowed? && s.inFlight == 0
    ensures HappenAll(s, cfg, 1, events) ==
            Some(Use(Record(Check(s.guard, cfg, s.clock).0, cfg, c, s.clock), s.history + [s.clock], 0, s.clock, s.clock - WINDOW))
  {
    var check, record := CheckAt(s.clock), RecordAt(c, s.clock);
    events := [check, record];
    assert events[..1] == [check] && [check][..0] == [];
    assert HappenAll(s, cfg, 1, []) == Some(s);
    assert HappenAll(s, cfg, 1, [check]) == HappenOne(s, cfg, 1, check);
  }

  /** Every budget can lock: one call that costs the whole limit, with no other under way. */
  lemma EveryBudgetCanLock(cfg: CostGuardConfig, limit: nat) returns (events: seq<Event>)
    requires cfg.maxCostPerDayCents == Some(limit) && limit < U64_LIMIT
    requires cfg.maxActionsPerHour != Some(0)
    ensures HappenAll(Fresh(0), cfg, 1, events).Some? && Locked(HappenAll(Fresh(0), cfg, 1, events).value, cfg)
  {
    if limit == 0 {
      events := [];
    } else {
      var c := Call("", 0, 0, limit as real / 100.0, 0);
      assert (c.cost * 100.0).Floor == limit;
      events := OneCall(Fresh(0), cfg, c);
    }
  }

  /** A spend of 2^64 cents counts as nothing: the next check passes although the limit is reached. */
  lemma HugeSpendIsAllowed(cfg: CostGuardConfig, limit: nat) returns (events: seq<Event>)
    requires cfg.maxCostPerDayCents == Some(limit) && 0 < limit <= U64_LIMIT
    requires cfg.maxActionsPerHour.Some? ==> cfg.maxActionsPerHour.value >= 2
    ensures var end := HappenAll(Fresh(0), cfg, 1, events);
            && end.Some? && (end.value.guard.total * 100.0).Floor >= limit
            && Check(end.value.guard, cfg, end.value.clock).1.Allowed?
  {
    var c := Call("", 0, 0, U64_LIMIT as real / 100.0, 0);
    assert c.cost * 100.0 == U64_LIMIT as real;
    events := OneCall(Fresh(0), cfg, c);
  }
}

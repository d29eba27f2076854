/**
 The cost guard: a daily budget in exact money, an hourly rate over a pruned window of
 timestamps, and per-model counters (src/agent/cost_guard.rs). Money is `real` (US dollars),
 instants are nanoseconds and days are numbers; the clocks are parameters.
 */
module CostGuards {
  import opened Basics

  datatype CostGuardConfig = CostGuardConfig(maxCostPerDayCents: Option<nat>, maxActionsPerHour: Option<nat>)

  datatype Verdict = Allowed | DailyBudget(spentCents: nat, limitCents: nat) | HourlyRate(actions: nat, limit: nat)

  datatype ModelTokens = ModelTokens(inputTokens: nat, outputTokens: nat, cost: real)

  datatype Guard = Guard(total: real, resetDate: int, exceeded: bool, window: seq<int>, models: map<string, ModelTokens>)

  const WINDOW: int := 3600 * 1_000_000_000
  const U64_LIMIT: int := 0x1_0000_0000_0000_0000

  /** Whole cents, truncated; what does not parse as an unsigned 64-bit number counts as 0. */
  function ToCents(usd: real): nat {
    var cents := (usd * 100.0).Floor;
    if usd < 0.0 || cents >= U64_LIMIT then 0 else cents
  }

  function Prune(window: seq<int>, cutoff: int): seq<int> {
    if window != [] && window[0] < cutoff then Prune(window[1..], cutoff) else window
  }

  /** Check the daily budget, then the hourly rate; only the latter prunes the window. */
  function Check(g: Guard, cfg: CostGuardConfig, now: int): (Guard, Verdict) {
    var limitCents := cfg.maxCostPerDayCents;
    var spent := ToCents(g.total);
    if g.exceeded then (g, DailyBudget(spent, if limitCents.Some? then limitCents.value else 0))
    else if limitCents.Some? && spent >= limitCents.value then (g.(exceeded := true), DailyBudget(spent, limitCents.value))
    else if cfg.maxActionsPerHour.None? then (g, Allowed)
    else
      var left := Prune(g.window, now - WINDOW);
      var limit := cfg.maxActionsPerHour.value;
      (g.(window := left), if |left| >= limit then HourlyRate(|left|, limit) else Allowed)
  }

  datatype Call = Call(model: string, inputTokens: nat, outputTokens: nat, cost: real, day: int)

  function Plus(a: ModelTokens, b: ModelTokens): ModelTokens {
    ModelTokens(a.inputTokens + b.inputTokens, a.outputTokens + b.outputTokens, a.cost + b.cost)
  }

  const NO_TOKENS := ModelTokens(0, 0, 0.0)

  function TokensOf(c: Call): ModelTokens {
    ModelTokens(c.inputTokens, c.outputTokens, c.cost)
  }

  function Entry(models: map<string, ModelTokens>, model: string): ModelTokens {
    if model in models then models[model] else NO_TOKENS
  }

  /** Record a finished call: charge the day, push the action, count for the model. */
  function Record(g: Guard, cfg: CostGuardConfig, c: Call, now: int): Guard {
    var (base, flag) := if c.day != g.resetDate then (0.0, false) else (g.total, g.exceeded);
    var total := base + c.cost;
    var reached := cfg.maxCostPerDayCents.Some? && ToCents(total) >= cfg.maxCostPerDayCents.value;
    Guard(total, c.day, flag || reached, g.window + [now], g.models[c.model := Plus(Entry(g.models, c.model), TokensOf(c))])
  }

  function DailySpendOf(g: Guard, today: int): real {
    if today != g.resetDate then 0.0 else g.total
  }

  class CostGuard {
    const config: CostGuardConfig
    var total: real
    var resetDate: int
    var budgetExceeded: bool
    var actionWindow: seq<int>
    var modelTokens: map<string, ModelTokens>

    function State(): Guard
      reads this
    {
      Guard(total, resetDate, budgetExceeded, actionWindow, modelTokens)
    }

    constructor (config: CostGuardConfig, today: int)
      ensures this.config == config && State() == Guard(0.0, today, false, [], map[])
    {
      this.config := config;
      total, resetDate, budgetExceeded, actionWindow, modelTokens := 0.0, today, false, [], map[];
    }

    method DrainExpired(cutoff: int)
      modifies this`actionWindow
      ensures actionWindow == Prune(old(actionWindow), cutoff)
    {
      while actionWindow != [] && actionWindow[0] < cutoff
        invariant Prune(actionWindow, cutoff) == Prune(old(actionWindow), cutoff)
        decreases |actionWindow|
      {
        actionWindow := actionWindow[1..];
      }
    }

    method CheckAllowed(now: int) returns (verdict: Verdict)
      modifies this
      ensures (State(), verdict) == Check(old(State()), config, now)
    {
      if budgetExceeded {
        return DailyBudget(ToCents(total), if config.maxCostPerDayCents.Some? then config.maxCostPerDayCents.value else 0);
      }
      if config.maxCostPerDayCents.Some? {
        var spentCents := ToCents(total);
        if spentCents >= config.maxCostPerDayCents.value {
          budgetExceeded := true;
          return DailyBudget(spentCents, config.maxCostPerDayCents.value);
        }
      }
      if config.maxActionsPerHour.Some? {
        DrainExpired(now - WINDOW);
        if |actionWindow| >= config.maxActionsPerHour.value {
          return HourlyRate(|actionWindow|, config.maxActionsPerHour.value);
        }
      }
      verdict := Allowed;
    }

    /** `modelCost` and `defaultCost` are what the static price table answers. */
    method RecordLlmCall(
      model: string, inputTokens: nat, outputTokens: nat, costPerToken: Option<(real, real)>,
      modelCost: Option<(real, real)>, defaultCost: (real, real), today: int, now: int) returns (cost: real)
      modifies this
      ensures var rates := if costPerToken.Some? then costPerToken.value
                           else if modelCost.Some? then modelCost.value else defaultCost;
              cost == rates.0 * inputTokens as real + rates.1 * outputTokens as real
      ensures State() == Record(old(State()), config, Call(model, inputTokens, outputTokens, cost, today), now)
    {
      var (inputRate, outputRate) :=
        if costPerToken.Some? then costPerToken.value else if modelCost.Some? then modelCost.value else defaultCost;
      cost := inputRate * inputTokens as real + outputRate * outputTokens as real;
      if today != resetDate {
        total, resetDate, budgetExceeded := 0.0, today, false;
      }
      total := total + cost;
      if config.maxCostPerDayCents.Some? {
        if ToCents(total) >= config.maxCostPerDayCents.value { budgetExceeded := true; }
      }
      actionWindow := actionWindow + [now];
      var entry := Entry(modelTokens, model);
      entry := entry.(inputTokens := entry.inputTokens + inputTokens);
      entry := entry.(outputTokens := entry.outputTokens + outputTokens);
      entry := entry.(cost := entry.cost + cost);
      modelTokens := modelTokens[model := entry];
    }

    method DailySpend(today: int) returns (spend: real)
      ensures spend == DailySpendOf(State(), today)
    {
      if today != resetDate { spend := 0.0; } else { spend := total; }
    }

    method ActionsThisHour(now: int) returns (actions: nat)
      modifies this`actionWindow
      ensures State() == old(State()).(window := Prune(old(actionWindow), now - WINDOW)) && actions == |actionWindow|
    {
      DrainExpired(now - WINDOW);
      actions := |actionWindow|;
    }
  }
}

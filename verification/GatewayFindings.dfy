/** Runs of the gateway agent that end where a client would not expect. */
module GatewayFindings {
  import opened Basics
  import opened Sessions
  import opened Gateway
  import opened GatewayProperties

  lemma Follow(states: seq<Agent>, steps: seq<Step>, step: Step) returns (longer: seq<Agent>, all: seq<Step>)
    requires Trail(states, steps) && Enabled(states[|steps|], step)
    ensures Listed(states[|steps|]) && Ordered(states[|steps|].store) && Inv(states[|steps|])
    ensures Trail(longer, all) && |all| == |steps| + 1 && longer[|all|] == Next(states[|steps|], step)
  {
    EveryStateInv(states, steps, |steps|);
    TrailsExtend(states, steps, step);
    longer, all := states + [Next(states[|steps|], step)], steps + [step];
  }

  lemma OneSession(cfg: Config) returns (states: seq<Agent>, steps: seq<Step>)
    requires cfg.maxSessions >= 1
    ensures Trail(states, steps)
    ensures var a := states[|steps|];
            && a.started == map[] && a.sends == map[] && a.aborts == multiset{} && a.pending == map[] && Lost(a) == {}
            && a.store.sessions == map["s" := Session("k", "", 0, 0, None, None)] && a.order == [] && a.cfg == cfg
  {
    states, steps := [Initial(cfg)], [];
    var create := CreateSession("s", "k", "", 0);
    InitialLostNone(cfg);
    LostExactly(Initial(cfg), create);
    states, steps := Follow(states, steps, create);
    assert Reap(EMPTY_STORE, 0, cfg.idleTtlMs).sessions == map[];
  }

  lemma FollowPrompt(states: seq<Agent>, steps: seq<Step>, id: string, run: RunId) returns (longer: seq<Agent>, all: seq<Step>)
    requires Trail(states, steps) && run !in states[|steps|].started
    ensures Inv(states[|steps|])
    ensures Trail(longer, all) && longer[|all|] == DoPrompt(states[|steps|], id, false, run, run, 0)
  {
    longer, all := Follow(states, steps, Prompt(id, false, run, run, 0));
  }

  /** Session "s" has its first prompt, of run 1. */
  predicate Prompted(a: Agent, cfg: Config) {
    && a.started.Keys == {1} && a.sends == map[1 := "s"] && a.aborts == multiset{} && a.cfg == cfg
    && a.store.sessions.Keys == {"s"} && a.order == ["s"]
    && a.pending.Keys == {"s"} && a.pending["s"].idempotencyKey == 1 && a.pending["s"].sessionKey == "k"
  }

  lemma FirstPrompt(a: Agent, cfg: Config)
    requires a.started == map[] && a.sends == map[] && a.aborts == multiset{} && a.pending == map[] && a.order == [] && a.cfg == cfg
    requires a.store.sessions == map["s" := Session("k", "", 0, 0, None, None)]
    ensures Prompted(DoPrompt(a, "s", false, 1, 1, 0), cfg)
  {
    var free := Freed(a, "s", 0);
    assert free.store.sessions.Keys == {"s"} && free.store.sessions["s"].sessionKey == "k";
  }

  /** A session is created and its first prompt is sent. */
  lemma OnePrompt(cfg: Config) returns (states: seq<Agent>, steps: seq<Step>)
    requires cfg.maxSessions >= 1
    ensures Trail(states, steps) && Prompted(states[|steps|], cfg) && Lost(states[|steps|]) == {}
  {
    states, steps := OneSession(cfg);
    var prompt := Prompt("s", false, 1, 1, 0);
    EveryStateInv(states, steps, |steps|);
    LostExactly(states[|steps|], prompt);
    FirstPrompt(states[|steps|], cfg);
    states, steps := Follow(states, steps, prompt);
  }

  lemma SecondPrompt(a: Agent, cfg: Config)
    requires Prompted(a, cfg)
    ensures var b := DoPrompt(a, "s", false, 2, 2, 0);
            && 1 in b.sends && b.sends[1] == "s" && "s" in b.pending && b.pending["s"].idempotencyKey == 2
  {
    var free := Freed(a, "s", 0);
    assert free.store.sessions.Keys == {"s"} && free.sends == a.sends;
  }

  lemma NewPromptLosesTheOld(a: Agent, id: string, run: RunId, controller: Controller, now: int)
    requires Inv(a) && run !in a.started && id in a.store.sessions && id in a.pending
    ensures Lost(DoPrompt(a, id, false, run, controller, now)) == Lost(a) + {a.pending[id].idempotencyKey}
  {
    PromptLoses(a, id, false, run, controller, now);
  }

  /** A second prompt on the session, while the first is pending. */
  lemma TwoPrompts(cfg: Config) returns (states: seq<Agent>, steps: seq<Step>)
    requires cfg.maxSessions >= 1
    ensures Trail(states, steps)
    ensures var a := states[|steps|];
            && Lost(a) == {1} && 1 in a.sends && a.sends[1] == "s"
            && "s" in a.pending && a.pending["s"].idempotencyKey == 2
  {
    states, steps := OnePrompt(cfg);
    var a := states[|steps|];
    states, steps := FollowPrompt(states, steps, "s", 2);
    NewPromptLosesTheOld(a, "s", 2, 2, 0);
    SecondPrompt(a, cfg);
  }

  /** The first prompt's promise is then never settled by anything but a failed send. */
  lemma SecondPromptLosesTheFirst(cfg: Config) returns (states: seq<Agent>, steps: seq<Step>)
    requires cfg.maxSessions >= 1
    ensures Trail(states, steps) && Lost(states[|steps|]) == {1}
  {
    states, steps := TwoPrompts(cfg);
  }

  /** When the first prompt's send fails after all, the second prompt is lost instead. */
  lemma LateFailureLosesTheSecond(cfg: Config) returns (states: seq<Agent>, steps: seq<Step>)
    requires cfg.maxSessions >= 1
    ensures Trail(states, steps) && Lost(states[|steps|]) == {2}
  {
    states, steps := TwoPrompts(cfg);
    var failed := SendFailed(1, "", 0);
    EveryStateInv(states, steps, |steps|);
    LostExactly(states[|steps|], failed);
    states, steps := Follow(states, steps, failed);
  }

  lemma CancelWaits(a: Agent, cfg: Config)
    requires Prompted(a, cfg)
    ensures var b := DoCancelBegin(a, "s", 0);
            && b.aborts == multiset{"s"} && 2 !in b.started && "s" in b.store.sessions
  {
  }

  lemma PromptWhileWaiting(a: Agent)
    requires a.aborts == multiset{"s"} && "s" in a.store.sessions
    ensures var b := DoPrompt(a, "s", false, 2, 2, 0);
            && b.aborts == multiset{"s"} && "s" in b.pending && b.pending["s"].idempotencyKey == 2 && Runs(b, "s", 2)
  {
    var free := Freed(a, "s", 0);
    assert free.aborts == a.aborts && "s" in free.store.sessions;
  }

  /** A cancellation waits, a second prompt starts, the cancellation resumes: the second prompt is
      resolved as cancelled while its run stays active. */
  lemma LateCancelOrphansTheSecond(cfg: Config) returns (states: seq<Agent>, steps: seq<Step>)
    requires cfg.maxSessions >= 1
    ensures Trail(states, steps)
    ensures var a := states[|steps|];
            Orphaned(a, "s") && Runs(a, "s", 2) && 2 in a.settled && a.settled[2] == Resolved(Cancelled)
  {
    states, steps := OnePrompt(cfg);
    CancelWaits(states[|steps|], cfg);
    states, steps := Follow(states, steps, CancelBegin("s", 0));
    PromptWhileWaiting(states[|steps|]);
    states, steps := Follow(states, steps, Prompt("s", false, 2, 2, 0));
    EveryStateInv(states, steps, |steps|);
    OrphanedOnlyByLateCancel(states[|steps|], CancelEnd("s"), "s");
    states, steps := Follow(states, steps, CancelEnd("s"));
  }

  lemma SecondSession(st: Store, cfg: Config)
    requires Consistent(st) && st.sessions.Keys == {"s"} && cfg.maxSessions >= 2
    ensures "t" in Create(st, cfg, "t", "k", "", 0).0.sessions
    ensures Create(st, cfg, "t", "k", "", 0).0.sessions["t"] == Session("k", "", 0, 0, None, None)
  {
    var reaped := Reap(st, 0, cfg.idleTtlMs);
    Smaller(reaped.sessions, st.sessions);
    assert |st.sessions.Keys| == 1;
    CreateFailsIff(st, cfg, "t", "k", "", 0);
    CreateAddsOnlyIt(st, cfg, "t", "k", "", 0);
  }

  /** The second prompt, on the second session of the key. */
  lemma PromptOnSecond(a: Agent)
    requires a.order == ["s"] && a.pending.Keys == {"s"} && a.pending["s"].sessionKey == "k"
    requires "t" in a.store.sessions && a.store.sessions["t"] == Session("k", "", 0, 0, None, None)
    ensures var b := DoPrompt(a, "t", false, 2, 2, 0);
            && 2 in b.started && b.order == ["s", "t"] && b.pending.Keys == {"s", "t"}
            && b.pending["s"].sessionKey == "k" && b.pending["t"].sessionKey == "k" && b.pending["t"].idempotencyKey == 2
  {
    var free := Freed(a, "t", 0);
    assert free.store.sessions["t"].sessionKey == "k";
    assert a.order + ["t"] == ["s", "t"];
  }

  lemma SecondIsDeaf(a: Agent)
    requires Inv(a) && a.order == ["s", "t"] && a.pending.Keys == {"s", "t"}
    requires a.pending["s"].sessionKey == "k" && a.pending["t"].sessionKey == "k" && a.pending["t"].idempotencyKey == 2
    ensures forall state, now :: DoChatEvent(a, "k", Some(2), state, now) == a
  {
    assert FirstAt(a, "k", 0);
    forall state, now ensures DoChatEvent(a, "k", Some(2), state, now) == a {
      SecondPromptOfAKeyIsDeaf(a, "k", 0, "t", state, now);
    }
  }

  /** Two sessions share the session key, as they do by default, and both have a pending prompt: no
      chat event for the second one's run has any effect. */
  lemma SharedKeyMakesTheSecondDeaf(cfg: Config) returns (states: seq<Agent>, steps: seq<Step>)
    requires cfg.maxSessions >= 2
    ensures Trail(states, steps)
    ensures var a := states[|steps|];
            && Listed(a) && 2 in a.started && 2 !in a.settled
            && "t" in a.pending && a.pending["t"].idempotencyKey == 2 && a.pending["t"].sessionKey == "k"
            && forall state, now :: DoChatEvent(a, "k", Some(2), state, now) == a
  {
    states, steps := OnePrompt(cfg);
    EveryStateInv(states, steps, |steps|);
    SecondSession(states[|steps|].store, cfg);
    states, steps := Follow(states, steps, CreateSession("t", "k", "", 0));
    PromptOnSecond(states[|steps|]);
    states, steps := Follow(states, steps, Prompt("t", false, 2, 2, 0));
    EveryStateInv(states, steps, |steps|);
    SecondIsDeaf(states[|steps|]);
  }
}

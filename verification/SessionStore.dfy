/**
 The store as the object the gateway uses: its maps are reassigned in place by each operation,
 which is proved to act as the function of the same name in `Sessions`.
 */
module SessionStores {
  import opened Basics
  import opened Sessions

  class SessionStore {
    const config: Config
    var order: seq<string>
    var sessions: map<string, Session>
    var runIdToSessionId: map<RunId, string>
    var aborted: set<Controller>

    function State(): Store
      reads this
    {
      Store(order, sessions, runIdToSessionId, aborted)
    }

    constructor (maxSessions: Option<int>, idleTtlMs: Option<int>)
      ensures State() == EMPTY_STORE && config == ConfigOf(maxSessions, idleTtlMs)
    {
      config := ConfigOf(maxSessions, idleTtlMs);
      order, sessions, runIdToSessionId, aborted := [], map[], map[], {};
    }

    method RemoveSession(sessionId: string) returns (removed: bool)
      modifies this
      ensures State() == Remove(old(State()), sessionId)
      ensures removed <==> sessionId in old(sessions)
    {
      if sessionId !in sessions { return false; }
      var session := sessions[sessionId];
      if session.activeRunId.Some? {
        runIdToSessionId := runIdToSessionId - {session.activeRunId.value};
      }
      if session.abortController.Some? {
        aborted := aborted + {session.abortController.value};
      }
      order := Keep(order, sessions.Keys - {sessionId});
      sessions := sessions - {sessionId};
      removed := true;
    }

    method ReapIdleSessions(nowMs: int)
      requires Ordered(State())
      modifies this
      ensures State() == Reap(old(State()), nowMs, config.idleTtlMs)
    {
      var idleBefore := nowMs - config.idleTtlMs;
      var ids := order;
      ghost var before := State();
      ReapFirstBounds(before, nowMs, config.idleTtlMs);
      for i := 0 to |ids|
        invariant State() == ReapFirst(before, nowMs, config.idleTtlMs, i)
      {
        ReapFirstStep(before, nowMs, config.idleTtlMs, i);
        var sessionId := ids[i];
        var session := sessions[sessionId];
        if session.activeRunId.Some? || session.abortController.Some? { continue; }
        if session.lastTouchedAt > idleBefore { continue; }
        var _ := RemoveSession(sessionId);
      }
    }

    method EvictOldestIdleSession() returns (evicted: bool)
      requires Ordered(State())
      modifies this
      ensures evicted <==> Evict(old(State())).Some?
      ensures State() == if evicted then Evict(old(State())).value else old(State())
    {
      var oldestSessionId: Option<string> := None;
      for i := 0 to |order|
        invariant oldestSessionId == OldestIdle(State(), i)
      {
        var session := sessions[order[i]];
        if !(session.activeRunId.Some? || session.abortController.Some?) {
          if oldestSessionId.None? || session.lastTouchedAt < sessions[oldestSessionId.value].lastTouchedAt {
            oldestSessionId := Some(order[i]);
          }
        }
      }
      if oldestSessionId.None? || oldestSessionId.value == "" { return false; }
      assert oldestSessionId.value in order[..|order|];
      evicted := RemoveSession(oldestSessionId.value);
    }

    method CreateSession(sessionId: string, sessionKey: string, cwd: string, nowMs: int) returns (created: bool)
      requires Ordered(State())
      modifies this
      ensures (State(), created) == Create(old(State()), config, sessionId, sessionKey, cwd, nowMs)
    {
      if sessionId in sessions {
        var existing := sessions[sessionId];
        existing := existing.(sessionKey := sessionKey, cwd := cwd);
        existing := existing.(lastTouchedAt := nowMs);
        sessions := sessions[sessionId := existing];
        return true;
      }
      ghost var reaped := Reap(State(), nowMs, config.idleTtlMs);
      KeepMembers(order, reaped.sessions.Keys);
      KeepDistinct(order, reaped.sessions.Keys);
      ReapIdleSessions(nowMs);
      if |sessions| >= config.maxSessions {
        var evicted := EvictOldestIdleSession();
        if !evicted { return false; }
      }
      order := order + [sessionId];
      sessions := sessions[sessionId := Session(sessionKey, cwd, nowMs, nowMs, None, None)];
      created := true;
    }

    method GetSession(sessionId: string, nowMs: int) returns (session: Option<Session>)
      modifies this
      ensures State() == Touch(old(State()), sessionId, nowMs)
      ensures session == if sessionId in sessions then Some(sessions[sessionId]) else None
    {
      if sessionId !in sessions { return None; }
      sessions := sessions[sessionId := sessions[sessionId].(lastTouchedAt := nowMs)];
      session := Some(sessions[sessionId]);
    }

    method GetSessionByRunId(runId: RunId, nowMs: int) returns (session: Option<Session>)
      modifies this
      ensures State() == TouchByRun(old(State()), runId, nowMs)
      ensures session.Some? <==> runId in runIdToSessionId && runIdToSessionId[runId] != "" && runIdToSessionId[runId] in sessions
      ensures session.Some? ==> session.value == sessions[runIdToSessionId[runId]]
    {
      if runId !in runIdToSessionId || runIdToSessionId[runId] == "" { return None; }
      session := GetSession(runIdToSessionId[runId], nowMs);
    }

    method SetActiveRun(sessionId: string, runId: RunId, abortController: Controller, nowMs: int)
      modifies this
      ensures State() == SetActive(old(State()), sessionId, runId, abortController, nowMs)
    {
      if sessionId !in sessions { return; }
      var session := sessions[sessionId];
      session := session.(activeRunId := Some(runId));
      session := session.(abortController := Some(abortController));
      runIdToSessionId := runIdToSessionId[runId := sessionId];
      session := session.(lastTouchedAt := nowMs);
      sessions := sessions[sessionId := session];
    }

    method ClearActiveRun(sessionId: string, nowMs: int)
      modifies this
      ensures State() == ClearActive(old(State()), sessionId, nowMs)
    {
      if sessionId !in sessions { return; }
      var session := sessions[sessionId];
      if session.activeRunId.Some? {
        runIdToSessionId := runIdToSessionId - {session.activeRunId.value};
      }
      session := session.(activeRunId := None, abortController := None);
      session := session.(lastTouchedAt := nowMs);
      sessions := sessions[sessionId := session];
    }

    method CancelActiveRun(sessionId: string, nowMs: int) returns (cancelled: bool)
      modifies this
      ensures State() == CancelActive(old(State()), sessionId, nowMs)
      ensures cancelled <==> sessionId in old(sessions) && old(sessions)[sessionId].abortController.Some?
    {
      if sessionId !in sessions || sessions[sessionId].abortController.None? { return false; }
      var session := sessions[sessionId];
      aborted := aborted + {session.abortController.value};
      if session.activeRunId.Some? {
        runIdToSessionId := runIdToSessionId - {session.activeRunId.value};
      }
      session := session.(abortController := None, activeRunId := None);
      session := session.(lastTouchedAt := nowMs);
      sessions := sessions[sessionId := session];
      cancelled := true;
    }
  }
}

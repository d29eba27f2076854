# Models of the agent's core, with proofs

This project models the parts of the agent whose correctness is hardest to see by reading: the
agentic tool loop and its approval hand-off, the ACP gateway agent with its session store, the cost
guard, the settings tree, the `.env` writer, the UTF-8 truncators, the phone-control plugin and the
message bridge's counters. Each component has a functional description of what the code does, the
code's loops and objects as Dafny methods and classes proved to do exactly that, and theorems about
the description that hold for every input or every run.

`dafny verify dfyconfig.toml` checks everything.

| files | component |
|---|---|
| `ChatProtocol`, `Dispatcher`, `DispatcherProperties`, `DispatcherRuns`, `ApprovalResume`, `ApprovalProperties`, `ApprovalRuns` | tool loop, compaction, approval and replay |
| `Sessions`, `SessionUse`, `SessionStore`, `Gateway`, `GatewayAgent`, `GatewayProperties`, `GatewayEffects`, `GatewayStore`, `GatewayDelivery`, `GatewayFindings` | session store and gateway agent |
| `CostGuard`, `CostGuardProperties` | daily budget, hourly rate, per-model counters |
| `DottedPaths`, `Decimals`, `SettingsTree`, `SettingsShape`, `SettingsProperties`, `SettingsAccepts`, `SettingsFindings`, `SettingsOrder`, `SettingsObject` | settings |
| `BootstrapEnv`, `BootstrapEnvProperties` | `.env` file |
| `Utf8`, `Truncation` | RFC 3629 and the two truncators |
| `CommandLists`, `PhoneControl`, `PhoneControlProperties` | phone arm and disarm |
| `BridgeStats` | bridge statistics and classifier |

## How the world is modelled

* The LLM, hooks, tools, approval rules, interruptions and cost limits of the tool loop are
  arbitrary functions of a `World`, indexed by round, so a theorem about every world covers every
  behaviour. The order in which parallel tasks finish is chosen freely inside `JoinAll`. The methods
  reach tools only through `Toolbox.Call`, which logs every call it hands over.
* Each stretch of the gateway agent between two awaits is one atomic step; `cancel` is two. Run ids
  are fresh and session ids are not empty. A run is any sequence of enabled steps.
* Arming, disarming and a tick of the phone's timer are one step each. The source awaits between
  writing the configuration and writing its state, and a tick reads the state once before disarming
  reads it again, so there a tick that has seen an expired state can disarm a fresh arm.
* Clocks, price tables and the JSON reader and printer are parameters. Of JSON texts the model
  assumes only what `SettingsTree.Faithful` and `SettingsTree.FaithfulOn` say.
* Money is an exact real; instants are integers; a day is a number.

## What the code does that one might not expect

* A lone runnable tool call runs inline, where a panic is not turned into an error result
  (`DispatcherProperties.LonePanicCrashes`; `Dispatcher.Execute` crashes exactly when
  `Dispatcher.Crashes` holds); among two or more calls a panic becomes an error.
* Calls deferred by an approval stop are replayed without the hooks, so a call that its hook rejects
  runs all the same when it was deferred (`ApprovalProperties.RejectedCallRunsWhenDeferred`). A
  resumption is sure to run nothing that no hook has seen exactly when the pending call came up in a
  loop and the first deferred call, if there is one, needs approval again
  (`ApprovalProperties.NothingUnhookedIff`).
* A prompt sent while an earlier one of the session is pending drops the earlier one's promise, and
  a late failure of the earlier `chat.send` removes the newer record
  (`GatewayFindings.SecondPromptLosesTheFirst`, `GatewayFindings.LateFailureLosesTheSecond`; no other
  kind of step does, `GatewayProperties.LostExactly`). A cancellation that resumes after a new prompt
  has started leaves the session with an active run and no pending prompt
  (`GatewayFindings.LateCancelOrphansTheSecond`, `GatewayProperties.OrphanedOnlyByLateCancel`). When
  two sessions share a session key, as all do whose clients name none when a default key is
  configured (src/acp/session-mapper.ts:34), chat events for the second prompt are ignored
  (`GatewayFindings.SharedKeyMakesTheSecondDeaf`, `GatewayProperties.SecondPromptOfAKeyIsDeaf`).
* An eviction choice with the empty session id is treated as no choice, so a store can refuse a
  session although its only one is idle (`Sessions.EmptyIdIsNeverEvicted`, `Sessions.CreateFailsIff`).
* A spent daily budget can lock the guard for good, not for the day. A check refuses exactly when the
  calls since the last recorded change of day have reached the limit, whatever day it is
  (`CostGuardProperties.BudgetRefusesIff`); only a record starts a new day, and only a call that has
  passed a check is recorded (src/agent/dispatcher.rs:165-171, 276-285). With no call under way every
  check of every later day is refused (`CostGuardProperties.LockedForever`), and one call is enough
  to get there (`CostGuardProperties.EveryBudgetCanLock`). A refusing guard can open again exactly
  when a call is still under way and the limit is positive (`CostGuardProperties.ReopensIff`).
* A total beyond 64 bits of cents counts as 0 (`CostGuardProperties.HugeSpendIsAllowed`, exactly
  when: `CostGuardProperties.RecordMissesBudgetIff`).
* An optional text setting that happens to be JSON text does not survive the database, such as a
  model named "null" (`SettingsFindings.NullTextLoadsUnset`, exactly when:
  `SettingsProperties.LoadAfterStoreIff`); a set optional field cannot be reset
  (`SettingsProperties.ResetRestoresIff`); setting an unknown key under a section reports success and
  changes nothing (`SettingsProperties.StrayPathsChangeNothing`). When a section is stored whole and
  a part of it besides, what is loaded depends on the order of the map
  (`SettingsFindings.OrderMatters`), for every such set of keys and no other
  (`SettingsOrder.OrderIndependentIff`).
* Each update of the `.env` file removes one carriage return from the end of other lines
  (`BootstrapEnvProperties.StrayReturnIsEaten`, `BootstrapEnvProperties.LastWriteWinsIff`), and it
  rewrites a part of another value that looks like a line for its key
  (`BootstrapEnvProperties.ValueOverLinesIsHarmed`, exactly when:
  `BootstrapEnvProperties.UpsertUpdatesPrintedVarsIff`).
* Arming the phone twice makes the first arm permanent
  (`PhoneControlProperties.RearmForgetsTheFirst`).

## Model

| member | source | states |
|---|---|---|
| `ChatProtocol.WellFormedIffPaired` | src/llm/provider.rs:19-102 | a history passes the ledger of owed results if and only if every assistant message is followed at once by exactly one result per call, in order, and no result stands elsewhere |
| `ChatProtocol.CompactMessagesForRetry` | src/agent/dispatcher.rs:857-901 | the loops of compaction compute `Compact`, on both branches |
| `ChatProtocol.CompactKeepsWellFormed` | src/agent/dispatcher.rs:851-901 | compaction of a well-formed history, with or without a user message, is well-formed |
| `ChatProtocol.CompactKeepsInstructions` | src/agent/dispatcher.rs:851-901 | every system message occurs afterwards as often as before, apart from the added note |
| `ChatProtocol.CompactKeepsTurn` | src/agent/dispatcher.rs:851-901 | the messages from the last user message on come last, unchanged |
| `ChatProtocol.CompactShrinksIff` | src/agent/dispatcher.rs:851-901 | the context gets shorter exactly when at least two non-system messages precede the last user message |
| `ChatProtocol.CompactExactly` | src/agent/dispatcher.rs:851-901 | the compacted context, message by message: the system messages before the last user message in their order, the note if anything came before, and the turn; without a user message the system messages and then the others, each in their order |
| `Dispatcher.PreflightStopsAtFirstAsk` | src/agent/dispatcher.rs:332-424 | preflight classifies the calls position by position and stops exactly at the first that needs approval |
| `Dispatcher.InspectMeaning` | src/agent/dispatcher.rs:353-424 | a call's verdict by the hook's answer and the tool's requirement alone: turned down with the hook's words, or in the form the hook left it in and asked or cleared |
| `Dispatcher.PreflightMeaning` | src/agent/dispatcher.rs:332-424 | the same of a whole reply, with the stop exactly at the first call that must be approved |
| `Dispatcher.RunPreflight` | src/agent/dispatcher.rs:332-424 | the preflight loop computes the classification, the runnable calls with their positions and the approval stop, and every entry is judged by its hook and its tool's requirement alone |
| `Dispatcher.Execute` | src/agent/dispatcher.rs:426-547 | for every completion order and every set of panics, each runnable slot holds what running its call alone gives, no rejected slot is filled, and exactly the runnable calls were handed to tools, each once; it crashes exactly when a lone runnable call panics |
| `Dispatcher.Toolbox.Call` | src/agent/dispatcher.rs:692-705 | a call is logged as it is handed to its tool, and answers the tool's result or nothing if it panics |
| `Dispatcher.JoinAll` | src/agent/dispatcher.rs:466-530 | tasks joined in any order fill the slots of those that did not panic, and log every task once |
| `Dispatcher.FinishBlock` | src/agent/dispatcher.rs:555-685 | the results, then an authentication request, then an approval stop end the block as `Conclude` says |
| `Dispatcher.PostFlight` | src/agent/dispatcher.rs:549-665 | the results are appended in the original order, independent of the interleaving, and the first authentication request is found |
| `Dispatcher.QueryLlm` | src/agent/dispatcher.rs:205-272 | one request, and on overflow one retry on the compacted context |
| `Dispatcher.PerformToolCalls` | src/agent/dispatcher.rs:305-685 | the three phases of a round of calls act as `RunTools`, and the calls they log are those of `RoundExecutions` |
| `Dispatcher.RunAgenticLoop` | src/agent/dispatcher.rs:131-305 | the loop ends for every world, by the measure `maxToolIterations + 2 - iteration`, with the end, the requests and the logged calls of `Run` |
| `DispatcherProperties.EveryRequestWellFormed` | src/agent/dispatcher.rs:233-305 | in every run from a well-formed history each context sent to the LLM is well-formed, and an approval stop owes exactly the pending call and then the deferred ones |
| `DispatcherRuns.EveryRunConverses` | src/agent/dispatcher.rs:131-665 | in every run each answer is the LLM's to its request; the first request opens round 1 with its tools, and every other is the compacted retry of the one before, without tools when text is forced, or opens the next round on the history with every call answered: turned down in the hook's words, or with the presented output or the error of its tool |
| `DispatcherRuns.EveryExecutionIff` | src/agent/dispatcher.rs:332-547 | in every run a call is handed to its tool, once, if and only if a reply asks for it, its hook lets it pass, and no call of the reply up to it must be approved |
| `DispatcherRuns.EveryRunEndsAsAnswered` | src/agent/dispatcher.rs:131-685 | every run ends as its last exchange says, exactly: with the LLM's text, with the first request for a token, waiting for the first call that must be approved, in the panic of a lone call, or with the LLM's error; if the exchange leads on, with the interruption, the cost limit or the ceiling of the next round, and with none of these in an earlier one |
| `DispatcherProperties.RequestSchedule` | src/agent/dispatcher.rs:131-272 | at most two requests a round, the second only as a retry; text is forced from round `maxToolIterations` on; nothing is asked past one more round |
| `DispatcherProperties.ForcedTextGuaranteesAnEnd` | src/agent/dispatcher.rs:132-148 | if no forced-text request is answered with tool calls, the ceiling error is unreachable |
| `DispatcherProperties.CeilingStopsStubbornLlm` | src/agent/dispatcher.rs:140-148 | for every limit some LLM that disobeys reaches the ceiling |
| `DispatcherProperties.NudgedExactlyOnce` | src/agent/dispatcher.rs:175-182 | a request carries one more nudge than the starting history exactly from the nudge round on, compaction or not |
| `DispatcherProperties.EveryExecutionCleared` | src/agent/dispatcher.rs:353-424 | every call of a run passed its hook, is in the form the hook left it in, kept its id and name, and needs no approval on its final parameters |
| `DispatcherProperties.EveryLoggedCallCleared` | src/agent/dispatcher.rs:353-547 | the same of every call that the loop's methods log as handed to a tool |
| `DispatcherProperties.LonePanicCrashes` | src/agent/dispatcher.rs:432-463 | from every history, if the LLM asks for one call and its tool panics, the run ends in the panic |
| `DispatcherProperties.AutoApproveNeverStops` | src/agent/dispatcher.rs:400-419 | with the auto-approve setting no run stops for approval |
| `DispatcherProperties.ApprovalSplitsCalls` | src/agent/dispatcher.rs:673-685 | at an approval stop the calls of the last request are the answered ones, then the pending one, then the deferred ones, and neither of the latter ran |
| `ApprovalResume.ReplayStopsAtFirstAsk` | src/agent/thread_ops.rs:859-890 | the replay takes the deferred calls that need no approval, up to the first that does |
| `ApprovalRuns.ReplayedIff` | src/agent/thread_ops.rs:859-900 | a resumption hands over the approved call and then, if it neither panics nor asks for a token, exactly the deferred calls up to the first that must be approved |
| `ApprovalRuns.EveryResumptionEndsAsAnswered` | src/agent/thread_ops.rs:715-1126 | every resumption ends as the approved call and the replayed ones say, exactly, with every result in the history as its tool gave it |
| `ApprovalRuns.EveryTurnIsAChain` | src/agent/thread_ops.rs:715-1126 | a turn is its first loop and then for every approval its resumption and, if that goes through, the loop on the paid history |
| `ApprovalResume.ProcessApproval` | src/agent/thread_ops.rs:715-1126 | approving runs the pending call, replays the deferred ones, ends as `Resume`, and hands to tools exactly the calls of `ResumeExecutions` |
| `ApprovalResume.ResumeKeepsProtocol` | src/agent/thread_ops.rs:841-1095 | the loop is re-entered on a well-formed history, and a further stop again owes exactly what is left |
| `ApprovalResume.EveryRequestInTurnWellFormed` | src/agent/thread_ops.rs:715-1126 | over any chain of approvals every context sent to the LLM is well-formed |
| `ApprovalProperties.EveryCallOfATurnJustified` | src/agent/thread_ops.rs:715-1126 | over any chain of approvals every call handed to a tool is cleared by its loop, or is the pending call of a stop that stems from an LLM reply, or was deferred by one and needs no approval |
| `ApprovalProperties.PendingPassedItsHook` | src/agent/dispatcher.rs:353-424 | the pending call of a loop has passed its hook and is in the form the hook left it in |
| `ApprovalProperties.ReplayRunsIff` | src/agent/thread_ops.rs:859-900 | a replay runs something exactly when the approved call neither panics nor asks for a token and the first deferred call needs no approval |
| `ApprovalProperties.NothingUnhookedIff` | src/agent/thread_ops.rs:859-900 | a resumption is sure to run nothing unhooked if and only if the pending call came up in a loop and no deferred call follows or the first one needs approval |
| `ApprovalProperties.RejectedCallRunsWhenDeferred` | src/agent/thread_ops.rs:859-900 | a call that every hook rejects is run after it was deferred |
| `Sessions.OldestIdleExact` | src/acp/session.ts:61-78 | the eviction scan finds exactly the first of the least recently touched idle sessions, and none if and only if no session is idle |
| `Sessions.CreateRemovesOnlyIdle` | src/acp/session.ts:48-107 | creation removes expired sessions and, exactly when the store is full even then, the first of the least recently touched idle ones unless its id is empty; it changes no other and touches no run |
| `Sessions.CreateAddsOnlyIt` | src/acp/session.ts:80-107 | what a creation adds is the new session alone, idle and just touched |
| `Sessions.CreateFailsIff` | src/acp/session.ts:80-107 | creation fails if and only if, after reaping, the store is full and every session is in use or the eviction choice has the empty id |
| `SessionUse.CreateAgainOnlyRenames` | src/acp/session.ts:83-89 | creating a session that is there already sets its key, directory and time and changes nothing else |
| `Sessions.ConfigOf` | src/acp/session.ts:25-30 | the limits in force: the given ones, at least 1 session and 1000 milliseconds, or the defaults |
| `Sessions.EmptyIdIsNeverEvicted` | src/acp/session.ts:74-77 | a reachable full store whose only session is idle and has the empty id, where creation fails |
| `Sessions.EveryStoreBounded` | src/acp/session.ts:80-107 | after any sequence of operations there are at most `maxSessions` sessions |
| `Sessions.SetActiveConsistentIff` | src/acp/session.ts:131-140 | setting an active run keeps the index exact if and only if the session has no other run and the run no other session |
| `Sessions.EveryStoreConsistent` | src/acp/session.ts:35-46 | under callers that set a run only on a free session, a run is indexed to a session exactly when it is its active run, and runs and controllers come together |
| `SessionUse.EverySessionRemembers` | src/acp/session.ts:31-33 | after any operations a live session bears the instant of the last operation that used it and of the one that created it, and the key and directory it was last given |
| `SessionUse.EverySessionReapedIff` | src/acp/session.ts:48-59 | after any operations a session is reaped exactly when it has neither run nor controller and was last used at least the idle time ago |
| `SessionUse.UsedSessionIsNotReaped` | src/acp/session.ts:48-59 | with clocks that do not go back, a session used within the idle time is never reaped |
| `SessionUse.ApplyRemembers` | src/acp/session.ts:80-168 | what every operation makes of every session: its times, names, run and controller |
| `SessionUse.ApplyAborts` | src/acp/session.ts:155-168 | exactly the controllers of effective cancellations, and of a clearing of everything, are aborted |
| `SessionUse.RemoveTakesItsRun` | src/acp/session.ts:35-46 | removing a session takes its run out of the index, aborts its controller and leaves all others |
| `SessionStores.SessionStore.RemoveSession` | src/acp/session.ts:35-46 | removes the session, its index entry, and aborts its controller |
| `SessionStores.SessionStore.ReapIdleSessions` | src/acp/session.ts:48-59 | the loop over the sessions removes all expired ones at once |
| `SessionStores.SessionStore.EvictOldestIdleSession` | src/acp/session.ts:61-78 | the scanning loop evicts as `Evict` says |
| `SessionStores.SessionStore.CreateSession` | src/acp/session.ts:80-107 | creation, with reaping, eviction and failure, acts as `Create` |
| `SessionStores.SessionStore.GetSession` | src/acp/session.ts:111-117 | answers and touches the session |
| `SessionStores.SessionStore.GetSessionByRunId` | src/acp/session.ts:119-129 | answers and touches the session a run is indexed to |
| `SessionStores.SessionStore.SetActiveRun` | src/acp/session.ts:131-140 | sets run, controller and index entry |
| `SessionStores.SessionStore.ClearActiveRun` | src/acp/session.ts:142-153 | clears run, controller and index entry |
| `SessionStores.SessionStore.CancelActiveRun` | src/acp/session.ts:155-168 | aborts and clears, if there is a controller |
| `GatewayProperties.FindPendingFinds` | src/acp/translator.ts:470-477 | the record an event finds is a registered one with its session key, and one is found if there is any |
| `GatewayProperties.FindPendingIsFirst` | src/acp/translator.ts:470-477 | it is the one that has been pending longest under that key |
| `GatewayProperties.NextKeepsInv` | src/acp/translator.ts:103-468 | every step keeps the agreement of sessions, run index, controllers and pending prompts |
| `GatewayProperties.EveryStateInv` | src/acp/translator.ts:252-329 | in every reachable state the maps agree, no pending record has a settled promise, and a live session with a pending prompt has no active run or that prompt's |
| `GatewayProperties.TrailsExtend` | src/acp/translator.ts:103-468 | every enabled step can follow every run |
| `GatewayEffects.NextSettlesExactly` | src/acp/translator.ts:103-468 | every step settles exactly the promises it calls for, each with its own reason or error: a failed send its own run, a resumed cancellation the pending one, a last chat event the one it is for, a disconnect all |
| `GatewayEffects.NextRecordsExactly` | src/acp/translator.ts:280-468 | the pending records after every step are those of an accepted prompt and the earlier ones that the step does not take away, changed only in what was sent and announced |
| `GatewayEffects.NextRunsExactly` | src/acp/translator.ts:252-468 | a run is active after a step if and only if the step is its prompt, or it was active and the step does not stop it |
| `GatewayEffects.NextTellsExactly` | src/acp/translator.ts:331-462 | every step sends exactly the update it calls for: the new part of a delta, a first tool start, or a tool result with its own error flag |
| `GatewayEffects.EveryUpdateGoesHome` | src/acp/translator.ts:331-462 | in every run every update goes to the session of its prompt |
| `GatewayEffects.NextOrder` | src/acp/translator.ts:280-308 | pending prompts keep their order, and a new one comes last |
| `GatewayEffects.NextBooksExactly` | src/acp/translator.ts:252-329 | which prompts are started, which sends and cancellations are outstanding after every step |
| `GatewayStore.EveryStoreIsOperated` | src/acp/translator.ts:103-468 | in every run the session store is the one that the steps' store operations lead to, so that what holds after any operations holds of it |
| `GatewayProperties.ChatEventSettlesItsRecord` | src/acp/translator.ts:409-432 | a chat event settles a run exactly when it is a last event and addressed to that run's record, which then leaves the map with the reason of the event |
| `GatewayProperties.SecondPromptOfAKeyIsDeaf` | src/acp/translator.ts:409-415 | of two pending prompts with one session key the second ignores its chat events |
| `GatewayProperties.SettledForGood` | src/acp/translator.ts:280-329 | a promise is settled once and for all |
| `GatewayProperties.LostExactly` | src/acp/translator.ts:280-308 | the unsettled promises without a record grow in exactly two kinds of step |
| `GatewayProperties.PatientClientsLoseNothing` | src/acp/translator.ts:280-308 | if no prompt starts on a session before its earlier prompt and send have settled, no promise is ever lost |
| `GatewayProperties.DisconnectRejectsAll` | src/acp/translator.ts:103-110 | a disconnect rejects every pending prompt and empties the map |
| `GatewayProperties.OrphanedOnlyByLateCancel` | src/acp/translator.ts:311-329 | a session is newly left with an active run and no pending prompt exactly when a waiting cancellation resumes while a prompt is running there |
| `GatewayProperties.LateCancelFollowsAPrompt` | src/acp/translator.ts:311-329 | in every run that prompt was started after every cancellation that has begun on the session |
| `GatewayFindings.SecondPromptLosesTheFirst` | src/acp/translator.ts:280-287 | a run in which a second prompt leaves the first one's promise without a record |
| `GatewayFindings.LateFailureLosesTheSecond` | src/acp/translator.ts:303-307 | a run in which the first send's failure leaves the second prompt's promise without a record |
| `GatewayFindings.LateCancelOrphansTheSecond` | src/acp/translator.ts:311-329 | a run in which a cancellation resolves a later prompt while its run stays active |
| `GatewayFindings.SharedKeyMakesTheSecondDeaf` | src/acp/translator.ts:409-415 | a run that ends with two pending prompts of one session key, where no chat event for the second has any effect |
| `GatewayDelivery.NextDelivers` | src/acp/translator.ts:435-462 | a step delivers for a run exactly the part of an accepted delta beyond what was delivered before |
| `GatewayDelivery.ChunksFormTheLongestPrefix` | src/acp/translator.ts:435-462 | for deltas that are prefixes of one text, in any order, the chunks sent concatenate to the longest one so far |
| `GatewayDelivery.EveryToolAnnouncedOnce` | src/acp/translator.ts:358-379 | in every run a tool call id is announced as started at most once per prompt |
| `GatewayAgents.AcpGatewayAgent.Prompt` | src/acp/translator.ts:252-308 | cancels an earlier run, sets the new one and registers the prompt, or refuses |
| `GatewayAgents.AcpGatewayAgent.SendRejected` | src/acp/translator.ts:303-307 | the failed send removes the session's record and rejects its own promise |
| `GatewayAgents.AcpGatewayAgent.CancelUntilAbort` | src/acp/translator.ts:311-319 | the first half of a cancellation |
| `GatewayAgents.AcpGatewayAgent.CancelAfterAbort` | src/acp/translator.ts:324-328 | the second half resolves whatever record is there by then |
| `GatewayAgents.AcpGatewayAgent.HandleGatewayDisconnect` | src/acp/translator.ts:103-110 | the loop over the pending prompts acts as `DoDisconnect` |
| `GatewayAgents.AcpGatewayAgent.HandleChatEvent` | src/acp/translator.ts:395-433 | dispatch on the state of the event acts as `DoChatEvent` |
| `GatewayAgents.AcpGatewayAgent.HandleDeltaEvent` | src/acp/translator.ts:435-462 | sends the new part of the text and remembers its length |
| `GatewayAgents.AcpGatewayAgent.HandleAgentEvent` | src/acp/translator.ts:331-393 | announces tool calls and their results |
| `GatewayAgents.AcpGatewayAgent.FinishPrompt` | src/acp/translator.ts:464-468 | removes the record, clears the run and resolves |
| `CostGuards.CostGuard.CheckAllowed` | src/agent/cost_guard.rs:107-149 | the check, with its drain loop, acts as `Check` |
| `CostGuards.CostGuard.RecordLlmCall` | src/agent/cost_guard.rs:158-222 | the record, with the daily reset, acts as `Record` |
| `CostGuards.CostGuard.ActionsThisHour` | src/agent/cost_guard.rs:236-243 | prunes and counts |
| `CostGuards.CostGuard.DailySpend` | src/agent/cost_guard.rs:225-233 | the total of the day, and nothing on another day |
| `CostGuardProperties.HappenKeepsSuffix` | src/agent/cost_guard.rs:132-146 | the window stays a sorted suffix of the full history that holds everything not yet an hour old |
| `CostGuardProperties.PrunedCountIsExact` | src/agent/cost_guard.rs:236-243 | the pruned window has as many entries as the full history has in the last hour |
| `CostGuardProperties.CheckAnswersExactly` | src/agent/cost_guard.rs:107-149 | a check answers the spent budget with its cents and limit, else the number of calls of the last hour if that has reached its limit, else that it is allowed |
| `CostGuardProperties.RateBound` | src/agent/cost_guard.rs:132-146 | with at most `k` calls in flight no closed hour holds more than `limit + k - 1` recorded calls |
| `CostGuardProperties.RateBoundIsReached` | src/agent/cost_guard.rs:132-146 | for every limit and `k` some run reaches that bound |
| `CostGuardProperties.BooksBalance` | src/agent/cost_guard.rs:165-221 | over every run and day change the per-model counters sum to the totals of all calls, and the daily total is the cost since the last reset |
| `CostGuardProperties.EveryReportedSpend` | src/agent/cost_guard.rs:225-233 | over every run the spend reported for a day is the cost of the calls since the day last changed if that is the day of the last call, and 0 on any other |
| `CostGuardProperties.CheckLeavesTheBooks` | src/agent/cost_guard.rs:107-149 | a check changes no cost or counter and raises the flag exactly when it refuses for the budget |
| `CostGuardProperties.FlagAlwaysJustified` | src/agent/cost_guard.rs:107-129 | the exceeded flag is up only if a limit exists and the whole cents since the last reset have reached it |
| `CostGuardProperties.RecordFlagsExactly` | src/agent/cost_guard.rs:182-193 | after a record within 64 bits of cents the flag is up exactly when the limit is reached |
| `CostGuardProperties.RecordMissesBudgetIff` | src/agent/cost_guard.rs:252-255 | the limit is missed exactly when the total leaves 64 bits of cents and no flag of that day was up |
| `CostGuardProperties.BudgetRefusesIff` | src/agent/cost_guard.rs:107-129 | over every run within 64 bits of cents a check is refused for the budget exactly when the whole cents of the calls since the last recorded change of day have reached the limit, on whatever day it is made |
| `CostGuardProperties.RecordOpensIff` | src/agent/cost_guard.rs:169-193 | a record takes a raised flag down if and only if its day is another one and its own cost is below the limit |
| `CostGuardProperties.LockedForever` | src/agent/dispatcher.rs:165-171 | once the budget refuses and no call is under way, every check of every further run is refused |
| `CostGuardProperties.ReopensIff` | src/agent/dispatcher.rs:276-285 | from a refusing guard some run leads to a check that passes the budget if and only if a call is under way and the limit is not 0 |
| `CostGuardProperties.EveryBudgetCanLock` | src/agent/cost_guard.rs:158-193 | for every limit some run from a new guard ends locked, provided an action is allowed in the hour |
| `CostGuardProperties.HugeSpendIsAllowed` | src/agent/cost_guard.rs:252-255 | for every positive limit some run reaches it and the next check is allowed, provided a second action is allowed in the hour |
| `CostGuardProperties.BlockedUntilRecorded` | src/agent/cost_guard.rs:107-116 | a raised flag refuses every check until a call is recorded, while the reported spend of any later day is 0 |
| `Decimals.ReadShow` | src/settings.rs:798-812 | the decimal text of an integer reads back in the integer types that hold it |
| `Decimals.ReadU64Iff` | src/settings.rs:805-808 | exactly the decimal texts of unsigned 64-bit numbers are read, with any zeros in front and at most one plus sign |
| `Decimals.ReadI64Iff` | src/settings.rs:809-812 | the same with a minus sign for signed ones |
| `DottedPaths.SplitJoin` | src/settings.rs:777 | splitting a joined path gives its names back |
| `DottedPaths.JoinSplit` | src/settings.rs:777 | joining the parts of any text gives the text back |
| `SettingsShape.SettingsAreProper` | src/settings.rs:11-604 | the fields, types, ranges and defaults of the settings structs satisfy what the laws ask of a shape |
| `SettingsShape.SettingsAreRoomy` | src/settings.rs:11-604 | every field of them has more than one value, and every section a field |
| `SettingsProperties.MergeIsLeafwise` | src/settings.rs:935-961 | at each leaf the merge is the overlay's value where it differs from the default and the base's elsewhere |
| `SettingsProperties.MergeFromMerges` | src/settings.rs:730-749 | the merged tree always reads back as settings |
| `SettingsProperties.MergeAssociative` | src/settings.rs:725-749 | layers merge in any grouping |
| `SettingsProperties.MergeIdentity` | src/settings.rs:725-749 | the defaults are a two-sided identity |
| `SettingsProperties.WizardRecovers` | src/settings.rs:1278-1343 | loading stored settings and re-applying step 1 keeps every non-default choice of step 1 and equals applying step 1 to what was stored |
| `SettingsProperties.SetChangesOneNode` | src/settings.rs:773-847 | setting a leaf or a section fails exactly when the text does not convert or does not read as that node, and otherwise puts what was read in its place |
| `SettingsProperties.SetChangesOneLeaf` | src/settings.rs:773-847 | at a leaf: no other leaf changes |
| `SettingsAccepts.SetTakes` | src/settings.rs:791-847 | at a leaf, type by type: exactly which texts are taken and what is stored for each; every other text fails with that type's error |
| `SettingsAccepts.SetSection` | src/settings.rs:831-847 | a section takes the text of a JSON object that gives a section; other JSON and other texts fail, each with its error |
| `SettingsAccepts.ReadFillsIn` | src/settings.rs:11-604 | reading an object fills in defaults for what it leaves out, takes either name of a field, and ignores unknown names |
| `SettingsAccepts.ReadRefuses` | src/settings.rs:11-604 | reading fails for what is no object, for a field given under both names, and for a field that does not read |
| `SettingsAccepts.StraySets` | src/settings.rs:781-847 | how setting an unknown path goes: not found, a parent that is no object, a second name, or success without a change |
| `SettingsProperties.StrayPathsChangeNothing` | src/settings.rs:781-847 | a path outside the settings never changes them, and reports success exactly under a section for a name that is no alias |
| `SettingsProperties.TextStoresItsValueIff` | src/settings.rs:791-839 | writing the text of a value over another of its type stores it, except in three stated cases |
| `SettingsProperties.WriteBackChangesNothing` | src/settings.rs:752-768 | setting what `get` answers changes nothing, at every leaf and section |
| `SettingsProperties.ResetRestoresIff` | src/settings.rs:850-857 | a reset restores the default of a leaf if and only if it is not a set optional field, and touches no other |
| `SettingsProperties.LoadedIsDetermined` | src/settings.rs:608-643 | all orders lead to the same settings, also with sections stored whole, as long as nothing within them is stored besides |
| `SettingsOrder.OrderIndependentIff` | src/settings.rs:608-643 | all orders of loading lead to the same settings, whatever the keys hold, if and only if no stored key names something within a section that another stored key names |
| `SettingsFindings.OrderMatters` | src/settings.rs:608-643 | for a section stored whole and a text in it stored besides, the one applied last wins |
| `SettingsFindings.NullTextLoadsUnset` | src/settings.rs:824-828 | an optional field holding the text "null" is stored and loads unset |
| `SettingsFindings.BothHappen` | src/settings.rs:11-604 | the structs have such an optional text and such a section |
| `SettingsProperties.LoadDependsOnLeavesOnly` | src/settings.rs:608-643 | unknown keys in the map make no difference |
| `SettingsProperties.LoadAfterStoreIff` | src/settings.rs:608-657 | loading what was stored, in any order and with unknown keys, gives the same settings if and only if no set optional text is JSON text |
| `SettingsObjects.MergeNonDefault` | src/settings.rs:935-961 | the recursive loop over the overlay's keys, in any order, computes the merge |
| `SettingsObjects.CollectSettingsJson` | src/settings.rs:874-894 | the recursive walk adds exactly the leaves under their dotted paths |
| `SettingsObjects.Settings.MergeFrom` | src/settings.rs:730-749 | acts as the merge of trees |
| `SettingsObjects.Settings.Set` | src/settings.rs:773-847 | changes the tree as `AfterSet` says and answers the error |
| `SettingsObjects.Settings.Get` | src/settings.rs:752-768 | the walk along the path finds what is at it |
| `SettingsObjects.Settings.Reset` | src/settings.rs:850-857 | sets the default's text, if the path is known |
| `SettingsObjects.Settings.ToDbMap` | src/settings.rs:648-657 | the map holds the leaves under their dotted paths and nothing else |
| `SettingsObjects.FromDbMap` | src/settings.rs:608-643 | the settings are those of one order of the whole map, key after key; unless keys cross, each leaf comes from the stored key that names it or its section, if that converts, and is the default otherwise |
| `SettingsObjects.StoreAndLoad` | src/settings.rs:608-657 | settings written to the map and read from it among unknown keys are the same if and only if no set optional text is JSON text |
| `BootstrapEnv.SaveBootstrapEnv` | src/bootstrap.rs:203-217 | the loop prints the variables one a line |
| `BootstrapEnv.UpsertBootstrapVar` | src/bootstrap.rs:230-268 | the loop with its `found` flag computes `Upsert` |
| `BootstrapEnvProperties.EscapeIsOnePass` | src/bootstrap.rs:209-212 | the two replacements equal one character map |
| `BootstrapEnvProperties.ReadQuotedEscaped` | src/bootstrap.rs:209-212 | a reader of quoted values recovers every escaped value and what follows it |
| `BootstrapEnvProperties.PrintedVarsReadBack` | src/bootstrap.rs:203-217 | every printed list of variables reads back, whatever the values hold |
| `BootstrapEnvProperties.UpsertLeavesOneLine` | src/bootstrap.rs:239-264 | exactly one line for the key remains, and all other lines in order |
| `BootstrapEnvProperties.LastWriteWinsIff` | src/bootstrap.rs:239-264 | a second update hides the first, and so updating is idempotent, if and only if no other line ends in a stray carriage return |
| `BootstrapEnvProperties.UpsertThenLookup` | src/bootstrap.rs:239-264 | the updated key reads back as the value, every other key as before |
| `BootstrapEnvProperties.UpsertsCommute` | src/bootstrap.rs:239-264 | updates of different keys commute for every look-up |
| `BootstrapEnvProperties.StrayReturnIsEaten` | src/bootstrap.rs:246-258 | a file for which updating twice differs from updating once |
| `BootstrapEnvProperties.UpsertUpdatesPrintedVarsIff` | src/bootstrap.rs:203-264 | updating a printed file with any new value is printing the updated list if and only if no variable's further lines look like the key's, those of the key do, and no kept line ends in a carriage return |
| `BootstrapEnvProperties.ValueOverLinesIsHarmed` | src/bootstrap.rs:239-264 | for a printed value whose second line begins like a line of another key, updating that key does not print the updated list |
| `BootstrapEnvProperties.UpsertUpdatesPrintedVars` | src/bootstrap.rs:203-264 | so it is whenever no value holds a line break, and a reader finds the updated list |
| `Utf8.BoundaryIff` | src/util.rs:8-17 | in valid text a position is a character boundary exactly when no continuation octet is there |
| `Truncation.Utf8Floor` | src/tracing_fmt.rs:93-101 | the backward loop finds the nearest position without a continuation octet |
| `Truncation.FloorCharBoundary` | src/util.rs:8-17 | the polyfill answers the same at every position inside the text, and its length beyond |
| `Truncation.FloorIsLargestBoundary` | src/tracing_fmt.rs:88-101 | the cut is the largest character boundary at or below the limit, at most three bytes below it |
| `Truncation.FloorCharBoundaryIsLargest` | src/util.rs:3-17 | the same for the polyfill at every position |
| `Truncation.EventBuffer.Write` | src/tracing_fmt.rs:77-86 | appends |
| `Truncation.EventBuffer.Drop` | src/tracing_fmt.rs:103-146 | writes the buffer, or its cut and trimmed prefix with the suffix |
| `Truncation.FlushedIsUtf8` | src/tracing_fmt.rs:103-146 | valid text comes out valid: the text itself, or a prefix of its characters and the suffix |
| `Truncation.SuffixNamesTheSize` | src/tracing_fmt.rs:103-146 | the suffix names the size of the whole in decimal |
| `CommandLists.UniqSortedIsNormal` | extensions/phone-control/index.ts:35-37 | the list is strictly sorted and names exactly what the input names |
| `CommandLists.SameNamesSameList` | extensions/phone-control/index.ts:35-37 | two inputs normalise alike if and only if they name the same commands |
| `CommandLists.LessIff` | extensions/phone-control/index.ts:35-37 | the order of the list: a proper front part first, else the smaller character where two first differ |
| `PhoneControls.PhoneControl.ArmGroupFor` | extensions/phone-control/index.ts:369-407 | the arm branch acts as `Arm` |
| `PhoneControls.PhoneControl.DisarmNow` | extensions/phone-control/index.ts:183-235 | both branches of disarming act as `Disarm`, with the report |
| `PhoneControls.PhoneControl.OnTick` | extensions/phone-control/index.ts:293-307 | the timer disarms once the expiry has passed |
| `PhoneControlProperties.GroupArms` | extensions/phone-control/index.ts:29-42 | which commands each group name arms |
| `PhoneControlProperties.GroupsAreDisjoint` | extensions/phone-control/index.ts:29-33 | no command is in two of the three groups |
| `PhoneControlProperties.TickIff` | extensions/phone-control/index.ts:293-307 | a tick disarms an expired state of either version and otherwise changes nothing |
| `PhoneControlProperties.ArmAllowsTheGroup` | extensions/phone-control/index.ts:377-407 | arming allows the group's commands and denies none, changes no other, and writes down exactly what it changed |
| `PhoneControlProperties.DisarmTakesBack` | extensions/phone-control/index.ts:183-235 | disarming takes back the recorded additions and restores the recorded removals, for both versions of the state file |
| `PhoneControlProperties.DisarmReports` | extensions/phone-control/index.ts:183-235 | the report names exactly the additions that were still there and the removals that were not |
| `PhoneControlProperties.DisarmRestores` | extensions/phone-control/index.ts:183-235 | disarming gives back exactly the normalised lists from before arming |
| `PhoneControlProperties.DisarmUnderEdits` | extensions/phone-control/index.ts:183-235 | with outside edits in between, untouched group commands go back and all others stay as edited |
| `PhoneControlProperties.RearmForgetsTheFirst` | extensions/phone-control/index.ts:399-407 | after arming twice, disarming ends where the first arm left off, which is the start if and only if the first arm had nothing to change |
| `PhoneControlProperties.ArmedStaysInForce` | extensions/phone-control/index.ts:377-407 | at every moment of every run whose outside edits leave the armed commands alone, these are allowed and not denied |
| `PhoneControlProperties.ArmDisarmCycle` | extensions/phone-control/index.ts:183-235 | in every run without edits since the most recent arm, the lists are as armed until the first disarm or tick past the expiry, and then the normalised ones from before |
| `PhoneControlProperties.DisarmRestoresInRun` | extensions/phone-control/index.ts:183-235 | disarming then gives back those lists, however many disarms and ticks came before |
| `PhoneControlProperties.OtherCommandsUntouched` | extensions/phone-control/index.ts:377-396 | in every run, edits included, a command of no group is in a list exactly when the last edit, or the start, put it there |
| `BridgeStats.Bridge.Record` | manychat-bridge/bridge.js:805-815 | one message adds one to its counter, and the ring buffer holds the last ten messages in order |
| `BridgeStats.Bridge.AdminStats` | manychat-bridge/bridge.js:970-982 | the totals are the numbers of messages received, by channel and by classification |
| `BridgeStats.TotalsAddUp` | manychat-bridge/bridge.js:970-982 | both tables of totals sum to the number of messages |
| `BridgeStats.Classify` | manychat-bridge/bridge.js:396-419 | the category has the greatest total score, and of those it matched first; without a score it is the fallback |

## Left out

- The LLM, the hooks, the tools, the safety layer, the channels and the databases: only their answers appear, as oracles.
- `execute_chat_tool_standalone`: validation, timeouts and output handling of one tool are inside the `run` oracle.
- Turn records, status updates and log lines of the tool loop; request ids and descriptions of pending approvals; the rejection branch of an approval.
- Sessions are values in the store's maps: that callers hold a reference to a session object and see later changes is not modelled.
- The other ACP methods (`newSession`, `loadSession`, modes, listing), the creation rate limiter, prompt text assembly and session metadata.
- Abort signals: a controller is a number, and aborting it is recorded only.
- Rust's integer overflow of token counters, the rounding of very long decimals and the warning at 80% of the budget.
- The cost guard's locks: each check and each record is one step, and instants come from one monotonic clock.
- `SettingsTree.Read`: a struct given as a JSON array, which only writing a whole section can cause, counts as an error here; settings have no floating-point fields, so numbers are integers.
- `SettingsObjects.Settings.Set`: the walk with a mutable reference is the recursive function `Place` on values.
- Loading and saving settings as JSON or TOML files, `list`, and paths that are not valid Unicode.
- The reader of `.env` files in `BootstrapEnvProperties` is a small quote-aware one; variable substitution and other features of dotenvy are not part of this model, nor are file permissions.
- `Truncation.Utf8Floor`: a position at or beyond the end of a non-empty buffer, where the original would panic and which its only caller excludes.
- Sinks of the event buffer; the order of several events.
- Interleavings of the phone's arm, disarm and tick at their awaits.
- Parsing of the phone state file, durations and command text; status and help texts.
- The bridge's regular expressions, confidence rounding, HTTP handling and PostgreSQL tables; property names inherited by plain JavaScript objects.
- Characters are Dafny characters; JavaScript's UTF-16 units are not told apart from them.
- `src/agent/routine_engine.rs`, `src/agent/compaction.rs`, OAuth and channel plugins, user interfaces and start-up code: plumbing, or resting on parts that are not visible.

# A verified model of the gude-agents core

This project models the parts of the agent runtime whose correctness is a matter of protocol, and proves what they
promise for every input, every interleaving and every run:

- **Durable tool execution.** A tool batch moves Planned -> Ready -> InFlight -> Completed across two independently
  committed compare-and-swap stores, the append-only conversation log and the versioned execution record. `Protocol.dfy`
  is a labelled step system in which any number of invocations, approval resumes, recoveries and manual
  reconciliations interleave. A write may be acknowledged, refused, or take effect while its acknowledgement is lost;
  a worker may crash anywhere; other writers may append to the conversation. `ProtocolInvariant.dfy` to
  `ProtocolRuns.dfy` prove one inductive invariant; `ProtocolTheorems.dfy`, `ProtocolRecovery.dfy`,
  `ProtocolTail.dfy`, `ProtocolClaims.dfy` and `ProtocolLoss.dfy` state what follows for whole runs, in terms of labels,
  stores and program counters only. Safety alone would hold of a system that refuses everything, so
  `ProtocolProgress.dfy` and `ProtocolFinish.dfy` prove the other direction from every reachable state: what may start
  can start, decisions, pauses and claims take effect as given, and an undisturbed worker finishes what is pending;
  `ProtocolFaults.dfy` proves that no fault is excluded. `ProtocolCounterexample.dfy` is a complete run.
- **The engine's own code.** `Stores.dfy`, `Engine.dfy`, `EngineRun.dfy` and `ToolExec.dfy` are the in-memory stores, the
  boundary scans, the `run` object and the dispatch order in imperative form. Every record save of `Run` is proved to
  have exactly the effect (`Transition`) of saving the record that the step system saves at that point.
- **Rate-limit leases.** `RateCounters.dfy` (binary-search pruning), `RateStore.dfy` (the store object, proved equal to
  fold functions), `RateSafety.dfy`, `RateRuns.dfy` and `RateLeases.dfy` (window safety, conservation and the life of a
  lease over whole runs), `RateAdmission.dfy` (when exactly a reservation is admitted, and what is charged when).
- **MCP connection pool.** `Pool.dfy` (critical sections of the monitor and the step system of its callers),
  `PoolSafety.dfy`.
- **Model-context projection.** `TurnMessages.dfy`, `Normalize.dfy`, `Window.dfy`, `RollingSummary.dfy`.
- **Events.** `EventSink.dfy`, `ParallelRunner.dfy`.

Histories (`History` in `Protocol` and `RateStore`, `yielded`, `enqueued`, `emitted`, `started`, `returned`) record what
happened; no modelled operation reads them.

Two promises of the code are false as stated, and the model says exactly when they hold:

- *A reconciliation claim is cleared only when its outcome is canonical* fails for a resume that loads the record with an
  unfinished claim in it. It does not matter when the claim was saved: before the resume took the paused record
  (`ReconcileToolExecution` does not look at the status, and `LoadInterrupt` hands out the new version) or between the
  take and the reload. What is missing is a look at `ToolBatch.Resolution` at the reload, `agent/engine.go:264-269`.
  `ProtocolClaims.ClaimLostOnlyToResume` proves that a claim without its canonical outcome is lost only to the
  acknowledgement of a worker that reloaded the record with this very claim, and `ClaimClearedOnlyWhenCanonical` the
  promise for every other worker. `ProtocolLoss.ReloadCanLoseClaim` is the other half, for the same worker: whenever a
  resume reloads such a record and its remaining checks pass, its own steps from that reload on, without any other
  worker's, can lose the claim. `ProtocolCounterexample.ResumeOverClaimDropsIt` is a complete run from the start in
  which the canonical result ends up as a denial; the call gets in flight through a recovery whose registry no longer
  gates the tool.
- *The rolling summary covers as many sequence numbers as it folds messages* fails on what the engine passes as recent
  history, because the projection merges the answers of a tool batch into one message.
  `RollingSummary.RollingIsExact` proves exactness for every run whose loaded contexts answer each tool batch in one
  message, `SaveIsExactIf` a sufficient condition for each single save, and `SaveIsExactIff` that a save by a caller that starts where the summary ends is exact if and only if no
  batch answered in the newly covered range has a second answer message. `MergedAnswerShownTwice` is a run of two
  calls in which the second context shows a result again whose use is already summarized.

## Model

| member | source | states |
|---|---|---|
| Execution.KeyPreimageInjective | agent/execution.go:218-222 | the length-delimited key preimage names exactly one (execution ID, call ID) pair, for all strings |
| Execution.KeyNamesOneCall | agent/execution.go:218-222 | under a collision-free digest equal idempotency keys mean equal execution IDs and equal call IDs |
| Stores.ExecutionMemory.Create | agent/execution/memory.go:43-58 | creates at version 1 exactly when the ID is present and unused; otherwise nothing changes |
| Stores.ExecutionMemory.Load | agent/execution/memory.go:61-71 | returns the current record stamped with the store's version, or the matching error |
| Stores.ExecutionMemory.Save | agent/execution/memory.go:76-96 | succeeds exactly at the expected current version, moves to the next one, touches no other record; a missing record is a conflict |
| Stores.ConversationMemory.LoadAfter | agent/conversation/conversation.go:49-65 | the canonical suffix after a sequence number, clamped to the end |
| Stores.ConversationMemory.Append | agent/conversation/conversation.go:69-88 | all messages or none, exactly at the expected revision; an empty batch is a checked no-op; other logs and context states are untouched |
| Stores.ConversationMemory.LoadContextState | agent/conversation/conversation.go:90-98 | the current context state of a key |
| Stores.ConversationMemory.SaveContextState | agent/conversation/conversation.go:100-126 | a per-key compare-and-swap that never touches a canonical log |
| Engine.MatchesBatch | agent/engine.go:1216-1233 | the block-by-block loop decides whether a message requests exactly the batch, in order by ID, name and input hash |
| Engine.CollectResults | agent/engine.go:1143-1152 | accepts an answer message exactly when every result is known, new and not repeated |
| Engine.ActiveToolBatch | agent/engine.go:1113-1155 | succeeds exactly on the batch's ToolUse message followed only by single answers to it, and returns the answered IDs; tells an unsupported boundary from a conflicting answer |
| Engine.ActiveToolBatchFromMessages | agent/engine.go:1213-1238 | finds the last message that requests the batch and validates from there |
| Engine.ResultBlocks | agent/engine.go:1507-1516 | exactly the results of the definitive outcomes, in call order |
| Engine.PendingInterrupt | agent/engine.go:1523-1552 | a human-input request wins and turns exactly the pending approvals into refusals; otherwise the pause names exactly the calls that wait for approval, in order |
| ToolExec.ExecuteBatch | agent/tool_exec.go:49-113 | without decisions gated calls run first, and if one ends pending no other call runs at all; otherwise every call runs exactly once |
| EngineRun.Run.Persist | agent/engine.go:691-710 | an accepted save moves record and run together; a lost compare-and-swap changes neither |
| EngineRun.Run.SaveConversation | agent/engine.go:1767-1792 | appends exactly the messages that the log does not own yet, once, at the held revision |
| EngineRun.Run.PriorToolUses | agent/engine.go:758-781 | the call IDs of all tool uses since the start cursor, failing exactly when an input cannot be hashed |
| EngineRun.PlannedCalls | agent/engine.go:800-833 | the plan records of requests with present, distinct, hashable and unused call IDs, or an error |
| EngineRun.Run.PlanToolBatch | agent/engine.go:783-839 | saves the planned batch exactly when the plan is acceptable and the record is current: one Planned call per request in order, with its name, input, hash, key and replay safety |
| EngineRun.Run.MarkToolBatchReady | agent/engine.go:841-858 | succeeds exactly from a wholly planned current batch; all calls become Ready without inputs, the boundary is recorded, everything else is kept |
| EngineRun.Run.BeginToolExecution | agent/engine.go:876-907 | succeeds if and only if the record is current and the first call with the ID is Ready, or InFlight and replay-safe under recovery; then that call alone is InFlight in the saved record and its key is returned; an InFlight call that may not be replayed is reported uncertain |
| EngineRun.Run.RemoveToolCalls | agent/engine.go:941-962 | completes exactly the given calls, keeps the others, and clears the batch exactly when all of it is completed |
| EngineRun.Run.CommitToolResults | agent/engine.go:912-929 | results are canonical before any call is acknowledged |
| EngineRun.Run.PersistPendingPause | agent/engine.go:723-733 | saves the pause payload and nothing else |
| EngineRun.Run.Conclude | agent/tool_batch.go:44-97 | coordination failure changes nothing; an unknown outcome commits and acknowledges its definitive siblings and fails; the pause is in the record before any result is in the log; otherwise exactly the definitive results become canonical and acknowledged |
| EngineRun.CollectsAsConcluded | agent/tool_batch.go:44-97 | the step system takes the coordinator's decision for every list of outcomes |
| EngineRun.CommittedInOrder | agent/tool_batch.go:60-97 | what a batch leaves in the log: its definitive results in call order, with refusals for pending calls exactly under a human-input pause |
| EngineRun.PauseNamesPending | agent/engine.go:1523-1552 | whether and how a batch pauses: human input wins, otherwise exactly the pending calls are named, in order |
| EngineRun.AfterCommitSays | agent/engine.go:912-962 | a commit completes exactly the answered calls, and none without results |
| EngineRun.Run.PersistApprovalDecisions | agent/engine.go:1334-1362 | succeeds exactly when every named call is in the current batch; then each named call carries its own answer, allow flag and reason, and nothing else changes |
| EngineRun.Run.RecoverToolUses | agent/engine.go:1079-1108 | a planned batch is announced with its recorded requests if needed, validated and marked ready, and with a current record and log this succeeds; an announced batch is left alone |
| ToolBatch.ClaimResult | agent/engine.go:1454-1462 | the result a claim stands for: a success shows its output, a failure is an error that always says something |
| EngineRun.ClaimProjected | agent/engine.go:1445-1474 | tells a canonical claimed outcome from a missing one; another outcome is a conflict |
| EngineRun.Run.FinishResolutionClaim | agent/engine.go:1445-1502 | on success the claimed outcome is canonical, was appended at most once, and the claim is gone with just its call completed; with current stores and no conflicting answer it succeeds |
| ProtocolRuns.StepInv | agent/engine.go:783-962 | every step of every worker, every crash and every foreign append keeps the protocol invariant; stores only move forward |
| ProtocolRuns.RunInv | agent/engine.go:968-1072 | the invariant holds in every state of every run |
| ProtocolTheorems.UnsafeCallStartsAtMostOncePerRetry | agent/engine.go:876-907 | in every run a call recorded as not replay-safe has at most one handler start plus one per successful Retry |
| ProtocolTheorems.OneCanonicalResult | agent/engine.go:912-962 | a call the record ever held has at most one canonical result from then on, exactly one while Completed, and exactly one once its batch is gone |
| ProtocolTheorems.BatchBoundary | agent/engine.go:783-858 | in every reachable state a batch is either wholly planned with inputs kept, or has no planned call and exactly one message, at the recorded boundary, requests it |
| ProtocolTheorems.OneStepPerVersion | agent/execution/memory.go:76-96 | no two steps of a run raise the record from the same version, so a start, a claim, a save and a finalization exclude each other at one version |
| ProtocolTheorems.OneSavePerVersion | agent/engine.go:1396-1423 | two accepted saves never share a version, so one of Retry/Succeeded/Failed wins a version and a paused version has one claimer |
| ProtocolTheorems.NoStartAfterClaim | agent/engine.go:1416-1426 | no handler start of the call follows a saved success or failure claim |
| ProtocolTheorems.GatedStartWasAllowed | agent/engine.go:1334-1362 | a start under an approval gate is preceded by a saved Allow decision for that call |
| ProtocolTheorems.NoStartBesidePendingApproval | agent/tool_exec.go:83-105 | if a call of a batch without decisions is pending approval at any point of its dispatch, that dispatch starts no handler, before or after |
| ProtocolTheorems.StartsShareOneKey | agent/engine.go:876-907 | every start of a call carries the one key derived from execution and call ID |
| ProtocolTheorems.KeysTellExecutionsApart | agent/execution.go:218-222 | starts of two executions with a shared collision-free digest have equal keys only if execution and call are the same |
| ProtocolTheorems.PlansAreDisjoint | agent/engine.go:783-839 | call IDs are never planned twice within an execution |
| ProtocolClaims.ClaimClearedOnlyWhenCanonical | agent/engine.go:1445-1502 | a claim leaves the record only when the call's single canonical result has its content and error flag, unless the saving worker reloaded the record with this claim |
| ProtocolClaims.ClaimLostOnlyToResume | agent/engine.go:264-273 | a claim without its canonical outcome is lost only to an acknowledgement of an invocation that reloaded the record with this claim |
| ProtocolLoss.ResumeCanLoseClaim | agent/engine.go:1334-1362 | conversely, a resume about to save its decisions into a current record with an unconfirmed claim can lose that claim by its own steps alone |
| ProtocolLoss.ReloadCanLoseClaim | agent/engine.go:264-273 | the same from the reload itself: a continuation of this worker's own steps, beginning with the reload, loses the claim once the other resume checks pass |
| ProtocolCounterexample.ResumeOverClaimDropsIt | agent/engine.go:264-273 | a complete run in which such a resume drops a success claim whose canonical result is a denial |
| ProtocolRecovery.RecoveryAcceptsCleanTail | agent/engine.go:1079-1108 | recovery announces a planned batch exactly when nothing, or only its own ToolUse message, follows the cursor |
| ProtocolRecovery.RecoveryMeetsAtOneState | agent/engine.go:1014-1033 | a crash before and a crash after the ToolUse append recover to the same stores, with the batch announced once |
| ProtocolTail.PlanAfterStep | agent/engine.go:562-592 | no step of any worker changes a planned batch or its cursor, except the one that makes its calls ready |
| ProtocolTail.PlanTailStaysClean | agent/engine.go:841-858 | from the save of a plan on the current log until its calls are ready, only the plan's own ToolUse message can follow its cursor, in every run without text appends |
| ProtocolTail.PlannedCrashIsRecovered | agent/engine.go:1014-1033 | in every such run, wherever the workers crashed, a recovery reaches the announced batch, with one ToolUse message right behind the plan's cursor |
| ProtocolProgress.PlanCanStart | agent/engine.go:783-907 | from every reachable state with a plan about to be saved on current stores, this worker's own steps start any call of the plan, with its requested name, hash, key and replay safety |
| ProtocolProgress.ResumeCanStart | agent/engine.go:1334-1362 | a resume over current stores starts, by its own steps, any call it allows or that was not denied |
| ProtocolProgress.RecoveryCanStart | agent/engine.go:1014-1072 | in every reachable state with a recoverable batch, a new recovery starts, by its own steps, any unanswered undenied call that is Ready, or InFlight and replay-safe |
| ProtocolProgress.DecisionsReachDispatch | agent/engine.go:1312-1362 | after accepted decisions the dispatch that this worker opens carries the given answer for every remaining named call, and an allowed one may begin |
| ProtocolProgress.StartHonoursDecision | agent/tool_exec.go:165-220 | in every run a call with a recorded denial never starts, gated or not, and a gated call starts only with a recorded Allow |
| ProtocolProgress.ReconciliationTakesEffect | agent/engine.go:1396-1426 | an accepted Retry makes just its InFlight call Ready; an accepted claim is recorded as given; nothing else changes |
| ProtocolProgress.RetryCanTake | agent/engine.go:1396-1415 | every uncertain call of a batch without a claim can be retried |
| ProtocolProgress.PauseTakesEffect | agent/engine.go:1559-1593 | a pause is recorded as asked for, first pending and then for good, and a resume takes away just it |
| ProtocolProgress.PauseCanTake | agent/tool_batch.go:77-92 | a dispatch that ends with a pause reaches, by its own steps over current stores, a paused record with exactly that pause |
| ProtocolProgress.ResumeTakesPaused | agent/engine.go:194-215 | a resume takes only a paused record |
| ProtocolProgress.ResumeChecksLog | agent/engine.go:1604-1684 | a resume continues exactly over the conversation at which the pause was saved, with the loaded messages and the user's text |
| ProtocolProgress.FinalizationTakesEffect | agent/engine.go:302-331 | an invocation is finalized only without a batch, and the record then carries its outcome and no pause |
| ProtocolFinish.ClaimCanFinish | agent/engine.go:1445-1502 | wherever an unfinished claim waits behind an active batch, a recovery makes its outcome canonical and finishes it |
| ProtocolFinish.ReconciliationCanFinish | agent/engine.go:1379-1440 | for every uncertain call of an active batch a reconciliation records its claim, makes it canonical and finishes it, all by its own steps |
| ProtocolFinish.RecoveryFinishesThenStarts | agent/engine.go:1031-1066 | a recovery that finished a claim goes on and starts any other startable call of the batch |
| ProtocolFinish.PendingPauseIsRecovered | agent/engine.go:979-992 | a pause that was recorded but never shown becomes the record's pause through a recovery, without a handler start |
| ProtocolFaults.AnySaveReply | agent/engine.go:691-710 | every save can be refused, acknowledged, or take effect with its acknowledgement lost, and what the record then holds |
| ProtocolFaults.AnyAppendReply | agent/engine.go:1767-1792 | the same for every append to the conversation |
| ProtocolFaults.HandlerMayEnd | agent/tool_exec.go:264-296 | a running handler can return any result of its call or leave its outcome unknown |
| TurnMessages.ProjectToolResultOrder | agent/turn_messages.go:41-93 | the nested loops compute the projection |
| TurnMessages.AnswersFollowUses | agent/turn_messages.go:41-93 | the answers of a batch become one user message behind it: results in the order of the requested calls, unknown ones last, results of one call in their own order |
| TurnMessages.PlainIsUnchanged | agent/turn_messages.go:41-93 | a transcript without an answered batch is left as it is |
| TurnMessages.ProjectKeepsBlocks | agent/turn_messages.go:41-93 | the projection keeps the multiset of blocks |
| TurnMessages.ProjectIdempotent | agent/turn_messages.go:41-93 | projecting twice is projecting once |
| TurnMessages.SplitInsensitive | agent/turn_messages.go:36-40 | for distinct known call IDs the output does not depend on the order of the results or their split over messages |
| TurnMessages.ProjectConcat | agent/turn_messages.go:25-34 | the projection distributes over concatenation unless the second part begins with a result-only message |
| TurnMessages.ProviderCutInvisible | agent/turn_messages.go:17-34 | without transient context the persisted/current cut does not change what the model sees |
| TurnMessages.ProviderOrder | agent/turn_messages.go:17-34 | the model sees persisted history, then transient context, then the current turn, each complete |
| Normalize.Normalize | agent/normalize.go:16-57 | opener repair followed by the chosen strategy, for every input |
| Normalize.NormMerge | agent/normalize.go:93-110 | the loop computes the merge repair |
| Normalize.NormFill | agent/normalize.go:62-88 | the loop computes the fill repair |
| Normalize.NormRemove | agent/normalize.go:114-130 | the loop computes the remove repair |
| Normalize.OutputIsNormalized | agent/normalize.go:16-57 | every non-empty output starts with the user and strictly alternates |
| Normalize.NormalizedIsFixed | agent/normalize.go:16-57 | a list is normalized if and only if any strategy leaves it alone; outputs are fixed points of every strategy |
| Normalize.MergePreservesBlocks | agent/normalize.go:93-110 | merge keeps every block with its speaker, in order, after the synthetic opener |
| Normalize.FillKeepsOriginals | agent/normalize.go:62-88 | fill keeps all originals as a subsequence and inserts only synthetic messages |
| Normalize.RemoveKeepsLastOfRuns | agent/normalize.go:114-130 | remove keeps exactly the last message of each run |
| Window.HasOrphanedToolResult | agent/contextmanager/contextmanager.go:106-121 | true exactly when some result has no earlier use of its call |
| Window.HistoryBoundary | agent/contextmanager/contextmanager.go:46-65 | the greatest start that keeps the window it found and orphans no result, or zero, while other writers may append before every load |
| RollingSummary.HasUnresolved | agent/contextmanager/contextmanager.go:313-331 | the counting map finds exactly the uses that no later result settles |
| RollingSummary.PendingIsExcess | agent/contextmanager/contextmanager.go:313-331 | the pending uses of a call are the largest excess of uses over results in any suffix |
| RollingSummary.SafeCut | agent/contextmanager/contextmanager.go:281-289 | the largest cut that preserves the recent window and leaves no unresolved use before it |
| RollingSummary.Prepare | agent/contextmanager/contextmanager.go:245-312 | fails exactly when more is covered than was loaded; otherwise answers with the summary message, if there is a text, then the uncovered, the transient and the current messages, and folds the largest resolved cut exactly when the context does not fit and there is one |
| RollingSummary.CutKeepsPairs | agent/contextmanager/contextmanager.go:281-289 | a folded chunk leaves no result of its own uses behind |
| RollingSummary.RollingIsExact | agent/contextmanager/contextmanager.go:245-312 | with racing savers on projected history that answers each batch in one message, folded messages are the canonical prefix up to block order, coverage never decreases, and each answer is that summary plus exactly the uncovered messages |
| RollingSummary.SummaryNeverSplitsPairs | agent/contextmanager/contextmanager.go:281-289 | in every such run no summarized use has its result in the remainder |
| RollingSummary.OneMessagePerSequence | agent/turn_messages.go:29-34 | the projection has one message per sequence number exactly when no batch has two answer messages |
| RollingSummary.CutAgreesExactly | agent/contextmanager/contextmanager.go:290-309 | a cut of the projection holds the messages of the same cut of the log exactly when no batch answered before the cut has a second answer message |
| RollingSummary.CoverageNeverDecreases | agent/contextmanager/contextmanager.go:249-309 | in every run, whatever the answers, coverage never decreases |
| RollingSummary.SaveIsExactIf | agent/contextmanager/contextmanager.go:249-309 | in any run, a save by any caller, overtaken or not, keeps the summary exact if no batch of its context answered before the newly covered end has a second answer message |
| RollingSummary.SaveIsExactIff | agent/contextmanager/contextmanager.go:281-309 | in any run, a save by a caller that starts where the summary ends keeps it exact if and only if that holds for the covered range |
| RollingSummary.MergedAnswerShownTwice | agent/contextmanager/contextmanager.go:255-309 | a run on a twice-answered batch: both results are folded, two sequence numbers recorded, and the next context repeats a summarized result |
| RateCounters.SearchTimes | agent/ratelimit/store.go:290-292 | the binary search finds the least index not before the cutoff |
| RateCounters.PruneTimes | agent/ratelimit/store.go:290-292 | on sorted times, pruning is filtering |
| RateCounters.PruneTokenEvents | agent/ratelimit/store.go:293-295 | the same for token events |
| RateStore.PruneCounter | agent/ratelimit/store.go:246-256 | a fixed window rolls over, a sliding window drops exactly what has left it |
| RateStore.MemoryStore.Settle | agent/ratelimit/store.go:196-210 | settles every token counter of a lease in order |
| RateStore.MemoryStore.Cleanup | agent/ratelimit/store.go:211-223 | expires due leases and forgets retained ones, in any visiting order |
| RateStore.MemoryStore.Reserve | agent/ratelimit/store.go:110-150 | the whole new state and reply of a reservation, as the step that the theorems about runs speak of |
| RateStore.MemoryStore.Commit | agent/ratelimit/store.go:151-174 | the whole new state and error of a commit, a negative report counted as zero |
| RateStore.MemoryStore.Release | agent/ratelimit/store.go:175-195 | the whole new state and error of a release |
| RateSafety.LimiterStaysInScope | agent/ratelimit/limiter.go:283-307 | the limiter's reservations have distinct keys, each with one fixed window and limit |
| RateSafety.LimitsAreCounted | agent/ratelimit/limiter.go:294-307 | each configured limit has its counter with just that limit, window and key, and nothing else is counted |
| RateRuns.RequestSafety | agent/ratelimit/store.go:127-133 | no closed interval of one window ever holds more admitted requests than the limit |
| RateRuns.ReservedIsPending | agent/ratelimit/store.go:196-210 | a counter's reserve is exactly the sum of its pending leases, so the clamp at zero never fires |
| RateRuns.TokenSafety | agent/ratelimit/store.go:134-149 | if commits report no more than reserved, no closed window interval settles more tokens than the limit |
| RateRuns.LeaseSettledOnce | agent/ratelimit/store.go:151-223 | every lease is settled exactly once by commit, release or expiry, or is still pending |
| RateAdmission.AdmittedExactlyWithRoom | agent/ratelimit/store.go:110-140 | in every run a valid reservation that is not retained is admitted if and only if each request key has fewer than limit admissions within its window, and each token key has room for settled, pending and new tokens |
| RateAdmission.AdmissionCharges | agent/ratelimit/store.go:140-149 | an admission is charged once in each of its request counters and reserved in each token counter, and nowhere else |
| RateAdmission.SettlementCharges | agent/ratelimit/store.go:151-210 | a commit settles its reported usage, a release the reserved estimate, in every token counter of the lease and nowhere else |
| RateAdmission.ExpirySettlesEstimates | agent/ratelimit/store.go:211-223 | cleanup moves exactly the expired reserve to settled tokens: their sum stays the same per key |
| RateAdmission.MalformedExactly | agent/ratelimit/store.go:310-322 | a reservation is malformed exactly without an ID or with a limit, window or amount out of range |
| RateAdmission.FixedWindowRequest | agent/ratelimit/store.go:246-279 | one request against a fixed window: admitted exactly below the limit of the current window, which restarts when it is over |
| RateAdmission.FixedWindowTokens | agent/ratelimit/store.go:246-289 | the same for tokens, settled and reserved |
| RateAdmission.FixedWindowSettles | agent/ratelimit/store.go:196-210 | settlement in a fixed window lowers the reserve, not below zero, and charges the current window |
| RateLeases.LeaseLifetime | agent/ratelimit/store.go:224-230 | a lease can be finished if and only if less time has passed than the configured pending lifetime or twice its largest window |
| RateLeases.RefusalChargesNothing | agent/ratelimit/store.go:110-140 | in every run a reservation that is rejected, retained or malformed admits nothing and, beyond cleanup, changes no lease, no history and no reserve |
| RateLeases.LaterCallsChargeNothing | agent/ratelimit/store.go:151-223 | once a lease is settled, every later commit or release of its ID before a new admission leaves the store as cleanup left it and returns the error fixed by how it was settled, or unknown after the retention period |
| Pool.PoolMonitor.Acquire | agent/mcp/pool.go:154-212 | one turn of the acquire loop |
| Pool.PoolMonitor.Release | agent/mcp/pool.go:218-232 | idle again while open, otherwise its capacity is given up; the send never blocks |
| Pool.PoolMonitor.Discard | agent/mcp/pool.go:237-245 | gives up the capacity of the lease |
| Pool.PoolMonitor.Close | agent/mcp/pool.go:331-357 | drains every idle session once |
| PoolSafety.NoWakeupIsLost | agent/mcp/pool.go:154-245 | a sleeping caller implies an open, full pool with a woken caller for every idle session |
| PoolSafety.TurnEnds | agent/mcp/pool.go:154-212 | how a turn ends for its caller: leased, connecting, asleep, or done, the last exactly if the pool is closed, or full without idle sessions and the context is done |
| PoolSafety.WhoIsWoken | agent/mcp/pool.go:190-245 | cancellation, discard and close leave nobody asleep; a release wakes a sleeper if there is one |
| PoolSafety.CapacityIsConserved | agent/mcp/pool.go:154-245 | size is idle plus leased plus connecting, within the maximum; zero after close once all have finished |
| PoolSafety.SessionHasOneOwner | agent/mcp/pool.go:154-245 | a session has at most one lessee and a leased session is neither idle nor closed |
| PoolSafety.ClosedOnce | agent/mcp/pool.go:331-357 | no session is closed twice |
| PoolSafety.NothingIdleAfterClose | agent/mcp/pool.go:331-357 | after close no session becomes idle again |
| EventSink.Stream.Emit | agent/event.go:248-263 | yields unless stopped or closed, and stops when the consumer refuses |
| EventSink.Stream.Drain | agent/event.go:308-322 | emits the queued events in order |
| EventSink.Stream.Finish | agent/event.go:267-278 | drains, yields the terminal event unless stopped, and closes |
| EventSink.EmitsPrefix | agent/event.go:248-263 | the consumer receives a prefix: everything while it wants more, nothing after it stops |
| EventSink.SilentAfterEnd | agent/event.go:248-285 | once stopped or closed, no operation yields anything |
| EventSink.NothingAfterTerminal | agent/event.go:265-278 | in every history of operations nothing is yielded after the terminal event, which itself comes last, behind all queued events, unless the consumer stopped |
| ParallelRunner.ClaimsInOrder | agent/event.go:328-346 | indices are claimed in order, once each, with at most limit running |
| ParallelRunner.LimitIsReached | agent/event.go:328-346 | some run has as many calls in progress as the limit allows, and all of them without a limit |
| ParallelRunner.NoEventIsForgotten | agent/event.go:294-364 | whenever the caller waits beside queued events, a wake-up is posted or about to be |
| ParallelRunner.ReturnsComplete | agent/event.go:347-364 | on return every index has run exactly once, the queue is empty and all worker events were emitted in enqueue order |
| ParallelRunner.DeliveredInOrder | agent/event.go:308-364 | at any moment the consumer has a prefix of the workers' events, all of them unless it stopped |

## Left out

- Providers, embedders, MCP SDK sessions, URL fetching: network clients; a handler is only an arbitrary outcome.
- SQL, Redis and DynamoDB stores: the in-memory stores are the reference compare-and-swap semantics.
- `InMemory.Delete`: resets revisions, so no deletion happens during a run.
- SHA-256, JSON decoding and canonicalization: abstract functions (`hash`, `digest`); injectivity is proved on the preimage.
- Integer width: counters, versions and revisions are unbounded, except the bound that `Save` checks; key lengths are in characters where the source counts bytes.
- Nil versus empty slices, deep copies and aliasing of message content: messages are values.
- Usage, iteration, conversation ID, source revision and version tags of records: carried along by the source, read by none of the modelled decisions.
- Creation of the record and its start cursor: a run begins after both are persisted, with one invocation.
- Foreign writers: they append anything but tool blocks with this execution's call IDs (`own`); a writer that forges them could be adopted as the batch's own ToolUse message.
- Liveness under continued conflicts: `ProtocolProgress` and `ProtocolFinish` state what a worker can reach by its own steps while nobody else writes.
- Authorization, schema validation, guards, middleware: any of them may end a call without a start, as an arbitrary definitive outcome.
- `validateResume` and `decisionFor`: the answers of a resume are an arbitrary function of the call ID.
- Context cancellation: a worker may stop at any point.
- FixedWindow totals over whole runs (`RateAdmission` states its single calls), counter-free reservations, concurrency slots of the limiter, and polling of its block mode.
- Context errors of the rate store and the pool's cancellation goroutine beyond its broadcast.
- Tracing, metrics, audit, hooks, RAG, prompts, catalogs, capability merging, option setters: plumbing.
- RollingSummary.SaveIsExactIff: states the equivalence for a caller that starts where the summary ends; for a caller that an earlier saver overtook only the sufficient condition of `SaveIsExactIf` is stated, since skipped and repeated messages may happen to be equal.
- RateRuns.TokenSafety: supposes that no commit reports more than its lease reserved; usage above the estimate is charged as reported.
- ProtocolTail.PlannedCrashIsRecovered: supposes that nobody appends text while the plan is open, neither another writer nor a second worker of the execution between batches; with such text recovery stops (`RecoveryAcceptsCleanTail`).
- EngineRun.Run.PlanToolBatch: the fallback that persists a missing start cursor is not modelled.
- EventSink.Stream.Drain: events enqueued while it runs are covered by the step system of `ParallelRunner`.

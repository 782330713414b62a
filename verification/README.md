# Verified model of the JARVIS core

A Dafny model of the algorithms JARVIS rests on, with their properties proved for all inputs and all runs:

- **Agent runtime.** Plan validation and wave generation (`TaskGraph`, `PlanValidator`), bounded recovery (`Recovery`),
  evidence-based verification (`Verifier`), and the orchestrator twice: as a machine that interleaves the coroutines of
  a wave at every await (`Orchestrator`) and as the objects it mutates, whose methods refine that machine
  (`AgentOrchestrator`). Theorems over whole runs are in `Provenance` (where results and verdicts come from), `Budgets`
  (what recovery may cost), `RunTheorems` (order, termination, final state), `Endings` (how cancelled, paused and
  resumed runs end) and `Workflow` (from an accepted plan to its outcome).
- **Memory.** The bounded sliding window with eviction, running summary and snapshots (`WorkingMemory`), vector search on
  its two paths (`Embeddings`, `SemanticStore`, `Sorting`), ranking and hybrid retrieval (`Ranking`, `Retriever`), and
  context assembly under token budgets (`Context`).
- **IPC.** Stream reassembly (`Framing`, `Text`), the pending-request table as a machine (`PendingRequests`) and as an
  object (`RequestTable`), the reconnect timer (`Reconnects`), the two clients built from them (`IpcClient`,
  `GatewayConnection`), and the server with its client loops and request tasks (`IpcServer`).
- **Limits.** The notification limiter (`Notifications`), provider failover with retries (`Router`, `Retry`), and
  bounding-box algebra (`BoundingBox`).

Where the source changes an object, the model has a class whose methods are proved against a specification function, and
the laws are lemmas about that function. Concurrent code is a machine with one step for each stretch between two awaits;
theorems quantify over every sequence of steps. `dafny verify dfyconfig.toml` checks everything.

## Findings

- `retry_count` is a field of the planner's JSON and may arrive non-zero. The retry counts then add up to the number of
  RETRYING records only if they arrive adding up to 0 (`Budgets.BudgetsHold`). A task runs at most
  `1 + max_step_retries` times exactly if its count arrives non-negative or the budget of the whole run is no larger than
  the step budget (`Budgets.StepBudgetKeptIff`, for a step budget that is not negative).
- Pausing a cancelled run overwrites the CANCELLED state without lifting the cancellation: cancelled and then paused
  during its last wave the run ends COMPLETED, and once its loop has stopped it ends FAILED with no failed task
  (`Endings.PausedCancellationEnds`, exact for every run).
- The IPC client's table is not protected by ids that are distinct among unsettled requests: a write callback that fails
  after its request timed out removes a younger request with the same id, whose timer stays armed
  (`PendingRequests.LateWriteFailureLosesRequest`), and tries to settle its own promise again
  (`PendingRequests.ResettlesExactly`). A new id is safe exactly if it is neither in flight nor waiting for an earlier
  write callback (`PendingRequests.SendIsSafeIffUnused`).
- The comment beside the reconnect delay says at least 1 s and at most 10 s. Jitter is applied after the cap, so neither
  holds with the default interval (`IpcClients.ShippedDelays`); `IpcClients.TenSecondsIff` and `IpcClients.OneSecondIff`
  say exactly when they do. The model follows the code.
- Pruning the notification caches is exact up to a cooldown of one millisecond more than the window (than twice the
  window, with room for a single notification), and wrong beyond it (`Notifications.PruningExactIff`).
- The de-duplication key joins title and body with `::`, so different notifications can suppress each other: under two
  titles exactly if one, with its separator, begins the other (`Notifications.KeysCollideIff`, and
  `Notifications.KeysCollide` for an example).
- A stored zero vector, or a zero query, scores 0 in the fallback search and 0.5 in the native one, which reads a missing
  distance as 1.0; a stored vector of another dimension empties the native search, as a failing query does. The paths
  agree on every search exactly when neither occurs (`SemanticStores.PathsAgreeIffComparable`).
- A memory known only from the vector index is dropped as soon as it has an expiry date, even one in the future, unless
  expired records are asked for (`Retrieval.VectorOnlyIff`, `Retrieval.UnexpiredIsDropped`).
- A frame whose `id` (or, after the handshake, `type`) is present but no string ends the connection without a reply
  (`IpcServers.SilenceHangsUp`, `IpcServers.NumberedHandshakeIsUnanswered`).
- The framing limit is tested before complete lines are drained, so whether it is hit depends on the chunks
  (`Framing.OverflowDependsOnChunks`; the exact condition is `Framing.OverflowCondition`).
- A cancellation during a provider call is raised as `AICancelledError`, one during a back-off wait leaves as a bare
  cancellation (`Retries.PropagatesIff`).

## Model

| member | source | states |
|---|---|---|
| `PlanValidation.PlanValidator.ValidateAndSort` | services/python-core/jarvis/agents/plan_validator.py:28-115 | waves are returned exactly for well-formed plans with an acyclic dependency graph (duplicate dependency entries allowed); they layer every task; a malformed plan yields a defect it really has; a cyclic one yields exactly the tasks on, or transitively depending on, a cycle, in plan order |
| `PlanValidation.PlanValidator.CheckIds` | services/python-core/jarvis/agents/plan_validator.py:42-49 | succeeds exactly when ids are non-empty and distinct, with the map from id to task; otherwise names a real defect |
| `PlanValidation.PlanValidator.CheckTask` | services/python-core/jarvis/agents/plan_validator.py:52-82 | no error exactly when dependencies exist and are not the task itself, the agent and all tools are registered and available; otherwise an error that is true of the task |
| `PlanValidation.Kahn` | services/python-core/jarvis/agents/plan_validator.py:84-107 | the wave loop terminates; each levelled task sits in the wave of its level; a task is left with positive in-degree exactly when it waits for another task left over |
| `PlanValidation.RunWave` | services/python-core/jarvis/agents/plan_validator.py:96-107 | one iteration appends the current wave, and the next one is exactly the tasks all of whose dependencies are finished and not in an earlier wave |
| `PlanValidation.BuildDependents` | services/python-core/jarvis/agents/plan_validator.py:86-90 | the dependents table inverts the dependency graph, duplicates included |
| `PlanValidation.Sources` | services/python-core/jarvis/agents/plan_validator.py:93-93 | the first wave is exactly the tasks of in-degree 0, each once |
| `PlanValidation.Leftover` | services/python-core/jarvis/agents/plan_validator.py:109-113 | the reported ids are those whose in-degree stayed positive, in plan order |
| `PlanValidation.BlockedExactly` | services/python-core/jarvis/agents/plan_validator.py:109-113 | a task is left over if and only if it lies on a cycle or reaches one |
| `TaskGraph.BlockedIsStuck` | services/python-core/jarvis/agents/plan_validator.py:109-113 | if each blocked task waits for a blocked task, each of them reaches a cycle |
| `TaskGraph.LevelledIsNotStuck` | services/python-core/jarvis/agents/plan_validator.py:96-107 | a task placed in a wave neither lies on a cycle nor depends on one |
| `TaskGraph.LevelIsLongestChain` | services/python-core/jarvis/agents/plan_validator.py:96-107 | the wave index is the length of a longest dependency chain: some chain attains it, none is longer |
| `TaskGraph.LevelIsMinimal` | services/python-core/jarvis/agents/plan_validator.py:96-107 | every numbering that puts dependencies strictly first dominates the wave index of every task |
| `TaskGraph.NoFewerWaves` | services/python-core/jarvis/agents/plan_validator.py:84-115 | no schedule that respects the dependencies has fewer waves |
| `Recovery.DecideKeepsBudget` | services/python-core/jarvis/agents/recovery.py:39-92 | one decision keeps the bounds on records and on REPLANNING records, and pairs each RETRYING record with exactly one increment of that task's retry count |
| `Recovery.DecideExactly` | services/python-core/jarvis/agents/recovery.py:39-92 | which way a failure goes, each as an if-and-only-if: RETRYING, REPLANNING, or ABORTED; and the record it leaves, none once the run's budget is spent |
| `Recovery.RecoveryEngine.EvaluateFailure` | services/python-core/jarvis/agents/recovery.py:39-92 | the decision order (run budget, task budget, replans, abort), the record appended and the retry count charged; the budgets survive |
| `Recovery.RecoveryEngine.CanReplan` | services/python-core/jarvis/agents/recovery.py:32-37 | true exactly while fewer than `max_replans` records are REPLANNING |
| `Verifier.PassedMeansEvidence` | services/python-core/jarvis/agents/verifier.py:22-97 | PASSED if and only if the step completed, no tool observation failed, every claimed artifact exists non-empty, and there is an artifact or an output |
| `Verifier.PartialMeansGaps` | services/python-core/jarvis/agents/verifier.py:22-97 | PARTIAL if and only if the step completed, no tool observation failed, some claimed file is missing or empty, and there is an output or a file that is present |
| `Verifier.ToolFailures` | services/python-core/jarvis/agents/verifier.py:41-42 | an observation counts as a failure exactly if it names a tool and its status is not success |
| `Verifier.OutputShows` | services/python-core/jarvis/agents/verifier.py:71-71 | there is an output exactly if it has a character that is not whitespace |
| `Verifier.VerifyStep` | services/python-core/jarvis/agents/verifier.py:22-97 | the verdict with its score, the artifacts found and the evidence lacking, each claimed artifact looked at once; the first failed tool stops the check |
| `Verifier.VerifyPlan` | services/python-core/jarvis/agents/verifier.py:99-109 | true exactly when every task of the plan has a PASSED verification |
| `AgentModels.AgentRun.RecordWave` | services/python-core/jarvis/agents/orchestrator.py:167-179 | the outcomes of a wave are filed in wave order: results, verdicts, completed or failed, and FAILED as soon as one did not pass |
| `Orchestrator.CallsAreCounted` | services/python-core/jarvis/agents/orchestrator.py:224-277 | a step calls the executor exactly if the call count of its task rises by one, and no other count ever moves |
| `AgentOrchestrators.AgentOrchestrator.GatherWave` | services/python-core/jarvis/agents/orchestrator.py:165-192 | gathering a wave moves the run and its objects as the machine's step does: file, stop on failure, else next wave or final evaluation |
| `AgentOrchestrators.AgentOrchestrator.EnterWave` | services/python-core/jarvis/agents/orchestrator.py:153-164 | the top of the wave loop refines the machine: cancellation is looked at before any coroutine of the wave exists |
| `AgentOrchestrators.AgentOrchestrator.StartTask` | services/python-core/jarvis/agents/orchestrator.py:208-228 | beginning a coroutine is the machine's first executor call for that task |
| `AgentOrchestrators.AgentOrchestrator.OnExecuted` | services/python-core/jarvis/agents/orchestrator.py:224-228 | any step result may come back, for that task alone |
| `AgentOrchestrators.AgentOrchestrator.VerifyResult` | services/python-core/jarvis/agents/orchestrator.py:235-235 | the verdict is the verifier's on this result and the artifacts it sees at that moment |
| `AgentOrchestrators.AgentOrchestrator.StopRun` | services/python-core/jarvis/agents/orchestrator.py:155-158 | a cancellation seen at a boundary leaves the loop for the final evaluation |
| `AgentOrchestrators.AgentOrchestrator.FinishRun` | services/python-core/jarvis/agents/orchestrator.py:185-192 | the final evaluation is the machine's last step; how runs end because of it is stated over whole runs by `Endings.RunsEnd` and `Endings.CancelledRunsEndCancelled` |
| `AgentOrchestrators.AgentOrchestrator.SettleTask` | services/python-core/jarvis/agents/orchestrator.py:243-257 | a passed task is done; any other is charged, through the shared run object, as the machine's step says, and no other task's count moves |
| `AgentOrchestrators.AgentOrchestrator.ContinueTask` | services/python-core/jarvis/agents/orchestrator.py:265-277 | only RETRYING calls the executor again; every other action, REPLANNING included, gives the task up |
| `AgentOrchestrators.AgentOrchestrator.CancelRun` | services/python-core/jarvis/agents/orchestrator.py:279-288 | cancelling marks the run cancelled and changes nothing else |
| `AgentOrchestrators.AgentOrchestrator.PauseRun` | services/python-core/jarvis/agents/orchestrator.py:290-299 | pausing changes the recorded state alone; the loop goes on |
| `AgentOrchestrators.AgentOrchestrator.ResumeRun` | services/python-core/jarvis/agents/orchestrator.py:301-312 | with a checkpoint of the run in the store a cancellation is lifted; without one nothing happens |
| `Orchestrator.StepKeeps` | services/python-core/jarvis/agents/orchestrator.py:149-277 | every step of every interleaving keeps the invariant: the shape of the current wave, balanced books, fail-fast, and the accounts of retries and calls; where results and verdicts come from is `Provenance.FiledMeansWitnessed` |
| `Provenance.FiledMeansWitnessed` | services/python-core/jarvis/agents/orchestrator.py:167-179 | in every run, each result on file is the last one the executor returned for its task, and each verdict on file is the verifier's on that result in the world it saw when it last looked |
| `RunTheorems.ExecutesAfterDependencies` | services/python-core/jarvis/agents/orchestrator.py:153-165 | in every reachable state the executor is called on a task only when all its transitive dependencies are recorded PASSED |
| `RunTheorems.CancelStartsNoWave` | services/python-core/jarvis/agents/orchestrator.py:153-158 | after a cancellation without a later resume, only waves that had already started are ever executed |
| `Budgets.BudgetsHold` | services/python-core/jarvis/agents/recovery.py:28-92 | in every reachable state: the retry counts have grown by the number of RETRYING records, and equal it exactly if they arrive adding up to 0; records and REPLANNING records are bounded; each task is called at most once more than its allowance, which is the smaller of what is left of its step budget and the run's budget; all calls are at most the number of tasks plus `max_recovery_attempts` |
| `Budgets.BoundIsReached` | services/python-core/jarvis/agents/orchestrator.py:149-277 | the bound on a task's calls is attained, for every task of every wave: the earlier waves pass, then the task keeps failing |
| `Budgets.StepBudgetKeptIff` | services/python-core/jarvis/agents/recovery.py:28-57 | a task is executed at most 1 + `max_step_retries` times in every run if and only if `max_step_retries` is not negative and its `retry_count` arrives non-negative or `max_recovery_attempts` is at most `max_step_retries` |
| `RunTheorems.RunsTerminate` | services/python-core/jarvis/agents/orchestrator.py:149-277 | no run takes more than a fixed number of steps of its own, whatever the interleaving and the outside requests |
| `RunTheorems.NeverStuck` | services/python-core/jarvis/agents/orchestrator.py:149-277 | a run that has not finished can always take a step of its own |
| `RunTheorems.CompletedIsProven` | services/python-core/jarvis/agents/orchestrator.py:185-192 | COMPLETED, even with cancel, pause and resume in between, means that each task's result is the last one it returned, and that a verification after it, the last one of the run, saw its tools succeed and its artifacts exist non-empty |
| `RunTheorems.BooksBalance` | services/python-core/jarvis/agents/orchestrator.py:167-179 | completed and failed tasks are duplicate-free, disjoint and together the tasks of the waves gathered, which are the keys of results and verifications; failures lie in the last wave gathered |
| `RunTheorems.FinalState` | services/python-core/jarvis/agents/orchestrator.py:149-192 | without interference the final state is COMPLETED exactly when every task of the plan passed, and FAILED exactly when some task failed |
| `Endings.RunsEnd` | services/python-core/jarvis/agents/orchestrator.py:153-192 | whatever was requested before, once nothing more is, the final state is FAILED if a task failed or a loop stopped early without the CANCELLED mark, CANCELLED if a cancellation was seen at a boundary or its mark stands, and COMPLETED otherwise |
| `Endings.CancelledRunsEndCancelled` | services/python-core/jarvis/agents/orchestrator.py:279-288 | in every run: a cancellation that no request follows ends it CANCELLED, or FAILED exactly if a task of the wave under way fails; no later wave is gathered |
| `Endings.PausedCancellationEnds` | services/python-core/jarvis/agents/orchestrator.py:290-299 | a pause after it overwrites the mark: cancelled in its last wave, the run ends COMPLETED; once the loop has stopped, FAILED without any failed task; only at a later boundary is it CANCELLED after all |
| `Endings.ResumedCancellationEnds` | services/python-core/jarvis/agents/orchestrator.py:301-312 | a resume lifts it: from within a wave the run ends as if never cancelled, all its waves gathered unless a task fails; once the loop has stopped it ends FAILED |
| `Workflow.AcceptPlan` | services/python-core/jarvis/agents/orchestrator.py:139-149 | a plan is accepted exactly if it is well-formed and acyclic, and then provides all that the run theorems ask for |
| `Workflow.AcceptedPlansRunSafely` | services/python-core/jarvis/agents/orchestrator.py:139-192 | end to end, for every interleaving of every accepted plan: dependencies are PASSED before a task runs, no task exceeds its allowance, and COMPLETED is proven task by task |
| `WorkingMemories.EstimateTokens` | services/python-core/jarvis/memory/working/buffer.py:9-14 | a quarter of the length, rounded up |
| `WorkingMemories.StoredLaw` | services/python-core/jarvis/memory/working/buffer.py:23-27 | a message with a positive count keeps it, any other gets the estimate of its content; nothing else about it changes |
| `WorkingMemories.LiveMember` | services/python-core/jarvis/memory/working/buffer.py:41-60 | a message is live exactly until its expiry, and gone from that instant on |
| `WorkingMemories.WorkingBuffer.RemoveExpired` | services/python-core/jarvis/memory/working/buffer.py:41-61 | splits off exactly the expired messages, both sides in order |
| `WorkingMemories.WorkingBuffer.RemoveById` | services/python-core/jarvis/memory/working/buffer.py:69-73 | says whether the id was there; with distinct ids exactly that one message goes, and the others stay in order |
| `WorkingMemories.EnforceIsMinimal` | services/python-core/jarvis/memory/working/window.py:92-116 | both bounds hold afterwards, the contexts stay, and the summary is that of what was evicted; what was evicted is the shortest prefix, of below-threshold messages oldest first and then the others oldest first, that restores them; survivors keep arrival order |
| `WorkingMemories.OrderIsPermutation` | services/python-core/jarvis/memory/working/window.py:100-112 | the eviction order lists every message exactly as often as there are messages |
| `WorkingMemories.SurvivorsCount` | services/python-core/jarvis/memory/working/window.py:96-116 | evicting a prefix of the order leaves the rest of it as the order of the survivors |
| `WorkingMemories.WorkingMemory.EnforceBounds` | services/python-core/jarvis/memory/working/window.py:92-116 | the loop over the mutable buffer computes that declarative eviction and summarizes the victims in turn |
| `WorkingMemories.WorkingMemory.EvictOne` | services/python-core/jarvis/memory/working/window.py:100-116 | one turn removes exactly the head of the eviction order and adds it to the summary |
| `WorkingMemories.WorkingMemory.AppendMessage` | services/python-core/jarvis/memory/working/window.py:39-58 | the message goes last, the bounds are then enforced |
| `WorkingMemories.WorkingMemory.GetRecentMessages` | services/python-core/jarvis/memory/working/window.py:60-66 | the most recent live messages, at most the limit when a positive one is given |
| `WorkingMemories.WorkingMemory.GetMessagesWithinTokens` | services/python-core/jarvis/memory/working/window.py:68-82 | the longest suffix of the live messages within the token limit |
| `WorkingMemories.SummaryIsTailOfLog` | services/python-core/jarvis/memory/working/window.py:118-128 | from an empty summary, after any evictions: the full log if it fits, else an ellipsis and exactly its last `max_summary_length` characters |
| `WorkingMemories.SummaryAccumulates` | services/python-core/jarvis/memory/working/window.py:118-128 | evicting in several rounds gives the summary of evicting in one |
| `WorkingMemories.SnippetReads` | services/python-core/jarvis/memory/working/window.py:118-120 | a snippet is the role, a colon and the first eighty characters of the content |
| `WorkingMemories.LogReads` | services/python-core/jarvis/memory/working/window.py:118-124 | the full log is its title and then the snippet of every evicted message, in the order of eviction, with bars between them |
| `WorkingMemories.RestoreSnapshotIsIdentity` | services/python-core/jarvis/memory/working/window.py:136-154 | restoring one's own snapshot is the identity when nothing expires in between |
| `WorkingMemories.WorkingMemory.Restore` | services/python-core/jarvis/memory/working/window.py:146-154 | clears, re-appends and enforces, on the mutable memory |
| `WorkingMemories.WorkingMemory.TakeSnapshot` | services/python-core/jarvis/memory/working/window.py:136-144 | each field of the snapshot is the memory's own, and nothing changes |
| `WorkingMemories.WorkingMemory.Clear` | services/python-core/jarvis/memory/working/window.py:130-134 | messages, task context and summary are dropped, the system context stays |
| `Framing.MessageBuffer.PushChunk` | services/node-gateway/src/ipc/framing.ts:9-31 | one push on the mutable buffer: overflow is tested before draining, otherwise the complete lines come out and the tail stays |
| `Framing.ReassemblyFrom` | services/node-gateway/src/ipc/framing.ts:9-31 | for any cut that overflows nowhere, the outputs are the non-blank trimmed lines of the stream and the buffer its unterminated tail |
| `Framing.TailFollowsLines` | services/node-gateway/src/ipc/framing.ts:17-31 | every stream is its complete lines, newlines included, followed by the tail the buffer keeps |
| `Framing.ChunkingIsIrrelevant` | services/node-gateway/src/ipc/framing.ts:9-31 | from an empty buffer the result depends on the stream alone |
| `Framing.OverflowCondition` | services/node-gateway/src/ipc/framing.ts:13-19 | a series of pushes succeeds if and only if, at each chunk, the tail of the stream so far plus the chunk keeps the limit |
| `Framing.OverflowDependsOnChunks` | services/node-gateway/src/ipc/framing.ts:13-19 | for every limit some stream keeps it in one cut and exceeds it in another |
| `Framing.FramesRoundTrip` | services/node-gateway/src/ipc/framing.ts:37-39 | serialized messages without newlines come out exactly and in order, however their frames are cut |
| `Framing.MessageBuffer.Clear` | services/node-gateway/src/ipc/framing.ts:33-35 | the pending tail is dropped |
| `Text.TrimCutsSpaces` | services/node-gateway/src/ipc/framing.ts:23-27 | trimming cuts whitespace off both ends, all of it and nothing else |
| `Framing.JsSpacesListed` | services/node-gateway/src/ipc/framing.ts:23-27 | the characters that count as whitespace for the trimming, one by one |
| `Text.PythonSpacesListed` | services/python-core/jarvis/agents/verifier.py:71-71 | the characters that count as whitespace for `strip`, one by one |
| `Text.TrimmedAway` | services/python-core/jarvis/agents/verifier.py:71-71 | nothing is left exactly of what is all whitespace |
| `PendingRequests.ExactIffSafe` | services/node-gateway/src/ipc/client.ts:187-262 | one event keeps "entries = unsettled requests = live timers" if and only if a new id is not pending and a failed write does not find its id taken over |
| `PendingRequests.SendIsSafeIffUnused` | services/node-gateway/src/ipc/client.ts:187-262 | what a sender can check: whatever follows without early reuse, the table stays exact if and only if the new id is neither in flight nor waiting for an earlier write callback |
| `PendingRequests.RunsStayExact` | services/node-gateway/src/ipc/client.ts:187-338 | over every interleaving of send, response, timeout, write error and close in which ids are not reused too early, the table is exact |
| `PendingRequests.ResettlesExactly` | services/node-gateway/src/ipc/client.ts:187-262 | in an exact table an event tries to settle a settled promise exactly if it is that request's own write callback, failing late |
| `PendingRequests.ResettledOnlyByLateWrites` | services/node-gateway/src/ipc/client.ts:187-338 | over whole runs, no promise is resolved or rejected a second time by anything else |
| `PendingRequests.EventsSettleTheirOwn` | services/node-gateway/src/ipc/client.ts:187-262 | an event settles exactly the request it belongs to, a close all of them, each with the outcome that event stands for |
| `PendingRequests.SendsRegister` | services/node-gateway/src/ipc/client.ts:187-228 | a send under an unused id registers the request, arms its timer and waits for the write callback if the frame was queued; if writing throws, the new request has failed at once and nothing of it stays behind |
| `PendingRequests.WriteCallbackOnce` | services/node-gateway/src/ipc/client.ts:215-221 | in every run the callback of a write comes at most once, and only for a queued frame |
| `PendingRequests.CloseSettlesEverything` | services/node-gateway/src/ipc/client.ts:309-329 | after a close every request ever sent has settled and no timer is left |
| `PendingRequests.LateWriteFailureLosesRequest` | services/node-gateway/src/ipc/client.ts:215-221 | distinct ids among unsettled requests alone are not enough: a write callback that fails after its timeout drops a younger request of the same id |
| `RequestTables.RequestTable.Submit` | services/node-gateway/src/ipc/client.ts:187-228 | registering, arming and writing on the mutable table is the machine's send, for each way the write can go |
| `RequestTables.RequestTable.OnTimeout` | services/node-gateway/src/ipc/client.ts:191-204 | the timer callback is the machine's timeout event |
| `RequestTables.RequestTable.OnWritten` | services/node-gateway/src/ipc/client.ts:215-221 | the write callback is the machine's event, also when it comes after the request has settled |
| `RequestTables.RequestTable.OnFrame` | services/node-gateway/src/ipc/client.ts:230-262 | a frame answers only a pending text id, and is the machine's frame event |
| `RequestTables.RequestTable.FailAll` | services/node-gateway/src/ipc/client.ts:314-329 | the loop over the map is the machine's close |
| `RequestTables.LabelledStep` | services/node-gateway/src/ipc/client.ts:206-211 | in every run each entry stands under the id of its own request, so no request is closed twice |
| `Reconnects.OneTimerAtMost` | services/node-gateway/src/ipc/client.ts:309-385 | however connects, handshakes, closes, timers and disconnects interleave, at most one reconnect timer is alive |
| `Reconnects.DisconnectIsFinal` | services/node-gateway/src/ipc/client.ts:367-385 | after a disconnect, whatever timers and late close events follow, no timer is alive and no socket is opened until a connection is asked for |
| `Reconnects.CloseLeadsToReconnect` | services/node-gateway/src/ipc/client.ts:331-365 | a closing socket leaves a live timer that will open another, unless the client was closed on purpose |
| `Reconnects.RequestRevives` | services/node-gateway/src/ipc/client.ts:81-93 | asking for a connection, even after a disconnect, brings reconnecting back: until the next disconnect every closing socket leaves a live timer |
| `Reconnects.AttemptsCountTimers` | services/node-gateway/src/ipc/client.ts:340-344 | the attempt number, from which the delay is computed, counts the timers set since the last connection |
| `Reconnects.Reconnector.ScheduleReconnect` | services/node-gateway/src/ipc/client.ts:340-365 | arms a timer exactly if none is remembered and the client was not closed on purpose |
| `Reconnects.Reconnector.OnTimer` | services/node-gateway/src/ipc/client.ts:355-364 | a fired timer is forgotten and connects unless the client was closed meanwhile or has a connection |
| `IpcClients.IpcClient.SendRequestInternal` | services/node-gateway/src/ipc/client.ts:187-228 | a request goes out whatever the state; without a socket it waits for its timeout |
| `IpcClients.IpcClient.SendRequest` | services/node-gateway/src/ipc/client.ts:170-185 | refused at once, with nothing registered, unless connected |
| `IpcClients.IpcClient.HandleSocketClose` | services/node-gateway/src/ipc/client.ts:309-338 | settles everything; then STOPPED if the close was intended, otherwise a reconnect is pending, with the delay of this attempt if it is a new one |
| `IpcClients.IpcClient.ScheduleReconnect` | services/node-gateway/src/ipc/client.ts:340-365 | counts the attempt and arms the timer for its jittered delay, or does nothing |
| `IpcClients.IpcClient.Connect` | services/node-gateway/src/ipc/client.ts:81-93 | nothing happens while connected or connecting; otherwise a socket is opened and an intended close is forgotten |
| `IpcClients.IpcClient.OnReconnectTimer` | services/node-gateway/src/ipc/client.ts:355-364 | the timer connects unless the client was closed meanwhile or has a connection |
| `IpcClients.IpcClient.Disconnect` | services/node-gateway/src/ipc/client.ts:367-385 | no reconnect stays scheduled; requests wait for the close event |
| `IpcClients.DelayBounds` | services/node-gateway/src/ipc/client.ts:346-351 | every reconnect delay is under twelve seconds and at least four fifths of the interval (or of ten seconds) |
| `IpcClients.TenSecondsIff` | services/node-gateway/src/ipc/client.ts:346-351 | every draw keeps the delay at ten seconds or less if and only if 1.2 times the capped interval is at most 10001 ms |
| `IpcClients.OneSecondIff` | services/node-gateway/src/ipc/client.ts:346-351 | every draw keeps the delay at one second or more if and only if 0.8 times the capped interval is at least 1000 ms |
| `IpcClients.ShippedDelays` | services/node-gateway/src/ipc/client.ts:346-351 | with the default interval the first reconnect may come after 800 ms and the seventh after 11000 ms |
| `GatewayConnections.InFlightStaysExact` | apps/desktop/src/renderer/gateway/connection.ts:107-233 | without write callbacks, ids distinct among requests in flight are enough for exactness, and no promise is settled twice |
| `GatewayConnections.GatewayConnection.Connect` | apps/desktop/src/renderer/gateway/connection.ts:60-105 | another socket is opened unless the present one is open |
| `GatewayConnections.GatewayConnection.SendRequest` | apps/desktop/src/renderer/gateway/connection.ts:107-161 | offline answers touch nothing; otherwise the table's send |
| `GatewayConnections.GatewayConnection.HandleClose` | apps/desktop/src/renderer/gateway/connection.ts:210-233 | settles all in flight; a reconnect is due unless stopped on purpose |
| `GatewayConnections.GatewayConnection.OnReconnectTimer` | apps/desktop/src/renderer/gateway/connection.ts:243-252 | the timer connects unless stopped meanwhile or open |
| `GatewayConnections.GatewayConnection.Disconnect` | apps/desktop/src/renderer/gateway/connection.ts:255-286 | settles all in flight at once and leaves no reconnect |
| `Notifications.NotificationManager.ShowNotification` | apps/desktop/src/main/notifications.ts:29-68 | one call on the mutable caches, pruning included, is the specified decision and record |
| `Notifications.PruningIsExact` | apps/desktop/src/main/notifications.ts:40-54 | over any series of calls the pruned caches decide as the full history would, as long as the cooldown is at most the window plus 1, or twice the window plus 1 with room for a single notification |
| `Notifications.ShippedLimitsAreExact` | apps/desktop/src/main/notifications.ts:18-23 | the shipped limits are such limits |
| `Notifications.NotificationManager.ResetHistory` | apps/desktop/src/main/notifications.ts:73-76 | both caches are emptied |
| `Notifications.PruningExactIff` | apps/desktop/src/main/notifications.ts:40-54 | and, for all limits that admit anything, only then |
| `Notifications.LimitsHold` | apps/desktop/src/main/notifications.ts:33-43 | no half-open interval of one window's length holds more accepted notifications than the maximum, and equal keys keep the cooldown apart |
| `Notifications.ShownNotificationsAreLimited` | apps/desktop/src/main/notifications.ts:29-68 | the same for the calls the pruned limiter itself accepts |
| `Notifications.KeyReads` | apps/desktop/src/main/notifications.ts:31-31 | a notification without a title shares the key of one titled ZARVIS |
| `Notifications.KeysCollideIff` | apps/desktop/src/main/notifications.ts:31-31 | under one title, keys tell bodies apart; under two titles some bodies share a key if and only if one title with its separator begins the other |
| `Notifications.KeysCollide` | apps/desktop/src/main/notifications.ts:31-31 | two different notifications with one key |
| `Routing.AIRouter.ResolveCandidates` | services/python-core/jarvis/ai/router.py:36-63 | the candidates for the request, or an error when there is none |
| `Routing.AIRouter.CandidatesLaw` | services/python-core/jarvis/ai/router.py:36-63 | candidates are duplicate-free; without a request they are exactly the registered providers among the default and the fallbacks, the default first |
| `Routing.AIRouter.Generate` | services/python-core/jarvis/ai/router.py:75-138 | resolves the candidates and ends as their failover, with at most candidates * (`max_retries` + 1) calls and candidates * `max_retries` * `max_delay` of waiting; what the failover does is `Routing.FatalErrorEnds`, `Routing.OtherErrorsLeadOn` and `Routing.FailoverIsFirstSuccess` |
| `Routing.FailoverIsFirstSuccess` | services/python-core/jarvis/ai/router.py:84-138 | a response is the first success in candidate order; on exhaustion the last error is raised; which endings lead on is `Routing.OtherErrorsLeadOn`, which do not `Routing.FatalErrorEnds` |
| `Routing.FatalErrorEnds` | services/python-core/jarvis/ai/router.py:106-127 | a cancellation, or an error of status 400, 401 or 403 that may not be retried and does not say that a capability is missing, ends the request whatever candidates remain, once the earlier ones failed otherwise |
| `Routing.OtherErrorsLeadOn` | services/python-core/jarvis/ai/router.py:106-138 | any other error of the taxonomy leads on to the next candidate, and nothing else does |
| `Retries.Execute` | services/python-core/jarvis/ai/retry.py:41-68 | stops at the first attempt that no other follows, after at most 1 + `max_retries` calls, having waited exactly the delays of the attempts before it |
| `Retries.PropagatesIff` | services/python-core/jarvis/ai/retry.py:48-68 | an operation ends outside the error taxonomy exactly if its deciding call raised a foreign exception or a cancellation cut a back-off wait short |
| `Retries.WaitsAreBounded` | services/python-core/jarvis/ai/retry.py:41-68 | the waits of `n` attempts add up to at most `n` * `max_delay` |
| `Retries.BackoffLaw` | services/python-core/jarvis/ai/retry.py:31-39 | without a hint a wait lies between half the backoff and the backoff, which never shrinks from one attempt to the next |
| `Retries.DelayIsCapped` | services/python-core/jarvis/ai/retry.py:31-39 | no wait exceeds `max_delay`, whatever the draw, the attempt and the server's hint |
| `Embeddings.CauchySchwarz` | services/python-core/jarvis/memory/semantic/embeddings.py:13-15 | the square of the inner product is at most the product of the squared norms |
| `Embeddings.SimilarityIsCosine` | services/python-core/jarvis/memory/semantic/embeddings.py:8-22 | where the cosine is defined the clamp never bites, elsewhere the similarity is 0; symmetric, in [0, 1] |
| `Embeddings.SelfSimilarity` | services/python-core/jarvis/memory/semantic/embeddings.py:8-22 | a non-zero vector has similarity 1 with each of its positive multiples |
| `SemanticStores.SemanticMemoryStore.SearchKnn` | services/python-core/jarvis/memory/semantic/store.py:112-163 | both loops compute the declarative search: filter, rank, cut |
| `SemanticStores.ListingsFollow` | services/python-core/jarvis/memory/semantic/store.py:75-110 | indexing replaces the row of its id, or adds one, and deleting takes it away; every other row stays |
| `SemanticStores.StoredVectorIsFound` | services/python-core/jarvis/memory/semantic/store.py:75-163 | a stored non-zero vector is found by itself: the search begins with a match of similarity 1, whatever else is stored |
| `SemanticStores.SimilaritiesAgreeIffNonZero` | services/python-core/jarvis/memory/semantic/store.py:138-152 | for a row of the query's dimension the native and the fallback similarity agree exactly where neither vector is zero; otherwise they are 0.5 and 0 |
| `SemanticStores.MismatchShows` | services/python-core/jarvis/memory/semantic/store.py:121-166 | one stored vector of another dimension empties every native search, while the fallback still scores all rows |
| `SemanticStores.PathsAgree` | services/python-core/jarvis/memory/semantic/store.py:121-160 | where every cosine is defined, both paths return the same sequence of similarities, whatever the storage order and the order of ties |
| `SemanticStores.PathsAgreeIffComparable` | services/python-core/jarvis/memory/semantic/store.py:121-160 | for every cut, minimum and storage order if and only if every stored vector has the query's dimension and no vector is zero |
| `SemanticStores.SearchIsTopK` | services/python-core/jarvis/memory/semantic/store.py:112-163 | the results are the best matches that reach the minimum, best first, each stored row at most once; on the native path under the same condition |
| `SemanticStores.NegativeTopK` | services/python-core/jarvis/memory/semantic/store.py:121-163 | below zero the fallback drops that many of the worst matches, while the native loop returns its first row at most |
| `Sorting.SortIsStable` | services/python-core/jarvis/memory/retrieval/retriever.py:102-102 | sorting by descending score keeps the order of equal scores |
| `Contexts.MemoryContextBuilder.BuildContext` | services/python-core/jarvis/memory/retrieval/context.py:26-99 | the loops compute the rendering of the selection; what is chosen is `Contexts.ContextFillsCaps`, what is written `Contexts.RenderIsExact` |
| `Contexts.RenderIsExact` | services/python-core/jarvis/memory/retrieval/context.py:31-99 | the output to the character: directives, task, memories, summary and dialogue, each chosen text under its own heading, a blank line between sections, and nothing else |
| `Contexts.SectionsOccurInOrder` | services/python-core/jarvis/memory/retrieval/context.py:31-99 | each chosen section stands in the output where the earlier ones end |
| `Contexts.TextsOccurInOrder` | services/python-core/jarvis/memory/retrieval/context.py:45-96 | each chosen memory and line of dialogue stands on a line of its own, in order, under the heading |
| `Contexts.EntryShows` | services/python-core/jarvis/memory/retrieval/context.py:50-53 | an entry shows kind, trust and content of its memory, in this order |
| `Contexts.LineShows` | services/python-core/jarvis/memory/retrieval/context.py:83-85 | a line shows its speaker and the text |
| `Contexts.BlankMeansWhitespace` | services/python-core/jarvis/memory/retrieval/context.py:31-38 | a text is blank exactly if all of it is whitespace |
| `Contexts.ContextFillsCaps` | services/python-core/jarvis/memory/retrieval/context.py:26-99 | the charges keep the total, memory and working caps; the memories are the longest fitting prefix and the dialogue the longest fitting suffix |
| `Contexts.SelectionIsUnique` | services/python-core/jarvis/memory/retrieval/context.py:26-99 | material and budget determine the selection |
| `Contexts.NothingDroppedIffAllFits` | services/python-core/jarvis/memory/retrieval/context.py:26-99 | everything that is not blank is included if and only if all of it together keeps the three caps |
| `Contexts.ContextTokenBound` | services/python-core/jarvis/memory/retrieval/context.py:39-99 | the estimate of the real output is at most the total plus a quarter, rounded up, of 54 + memory entries + dialogue lines |
| `Ranking.AverageIsBetween` | services/python-core/jarvis/memory/retrieval/ranking.py:83-95 | with positive total weight the unrounded score lies between any bounds on the factors, so between the smallest and the largest |
| `Ranking.FinalScoreIsRoundedAverage` | services/python-core/jarvis/memory/retrieval/ranking.py:65-108 | the clamp never bites: the final score is the average, spelled out by `Ranking.ScoreFormula`, rounded to four decimals, in [0, 1] |
| `Ranking.ScoreFormula` | services/python-core/jarvis/memory/retrieval/ranking.py:74-95 | the unrounded score field by field: each of the six values of a record counts with its own weight over the total weight |
| `Ranking.ImportanceCounts` | services/python-core/jarvis/memory/retrieval/ranking.py:75-95 | changing the importance alone moves the unrounded score by the clamped difference times its weight over the total |
| `Ranking.ConfidenceCounts` | services/python-core/jarvis/memory/retrieval/ranking.py:76-95 | the same for the confidence |
| `Ranking.SimilarityCounts` | services/python-core/jarvis/memory/retrieval/ranking.py:81-95 | the same for the similarity |
| `Ranking.AgeCounts` | services/python-core/jarvis/memory/retrieval/ranking.py:74-95 | the same for the decay by age |
| `Ranking.FactorsAreReported` | services/python-core/jarvis/memory/retrieval/ranking.py:99-108 | each reported factor is the rounding of its own field |
| `Ranking.ScopeOrder` | services/python-core/jarvis/memory/retrieval/ranking.py:29-55 | the wanted scope scores above the global one, that above the user's, that above any other, with the source's values; a conflict scores 0 |
| `Ranking.ConflictLaw` | services/python-core/jarvis/memory/retrieval/ranking.py:38-39 | projects conflict exactly if both are named and differ |
| `Ranking.TaskOrder` | services/python-core/jarvis/memory/retrieval/ranking.py:57-63 | the task asked for scores above no task asked for, that above another task or none |
| `Ranking.RoundingLaw` | services/python-core/jarvis/memory/retrieval/ranking.py:99-108 | rounding takes a nearest integer and breaks ties to the even one |
| `Ranking.Round4Laws` | services/python-core/jarvis/memory/retrieval/ranking.py:99-108 | rounding keeps order and the unit interval and moves by at most half a unit of the last digit |
| `Ranking.ScopeScoreRange` | services/python-core/jarvis/memory/retrieval/ranking.py:29-55 | the scope factor is in [0, 1], and 0 exactly for a conflicting project |
| `Ranking.SimilarityNeverLowers` | services/python-core/jarvis/memory/retrieval/ranking.py:65-108 | more similarity never lowers a final score |
| `Retrieval.MemoryRetriever.Retrieve` | services/python-core/jarvis/memory/retrieval/retriever.py:33-114 | the dictionary loops compute gather, isolate, rank and cut; degraded exactly unless the vector phase finished on a healthy store; every score in it is `Retrieval.CandidateScore` |
| `Retrieval.CandidateScore` | services/python-core/jarvis/memory/retrieval/retriever.py:43-88 | the final score of every candidate from the fields of its record, its latest similarity, and the scope and project of the query |
| `Retrieval.CandidatesAreExact` | services/python-core/jarvis/memory/retrieval/retriever.py:43-88 | an id is a candidate exactly when the structured search returned it or a hit found an admissible row; its score uses its latest similarity, or none |
| `Retrieval.VectorOnlyIff` | services/python-core/jarvis/memory/retrieval/retriever.py:77-88 | a row only the vector phase found, of no other project, becomes a candidate exactly if it has no expiry at all or expired records are asked for |
| `Retrieval.UnexpiredIsDropped` | services/python-core/jarvis/memory/retrieval/retriever.py:77-79 | so a record that has not expired at the time of the query is dropped |
| `Retrieval.CandidatesAreCurrent` | services/python-core/jarvis/memory/retrieval/retriever.py:43-88 | nothing expired becomes a candidate, as long as the structured search returns nothing expired |
| `Retrieval.RetrievalIsSound` | services/python-core/jarvis/memory/retrieval/retriever.py:95-103 | at most `top_k` results, distinct ids, best first, no conflicting project, and no admitted candidate left out scores above one returned |
| `Retrieval.TiesKeepGatheringOrder` | services/python-core/jarvis/memory/retrieval/retriever.py:102-102 | candidates of equal score stay in the order they were gathered |
| `Retrieval.HitsNeverLower` | services/python-core/jarvis/memory/retrieval/retriever.py:67-88 | no candidate scores below what it scores without the vector phase |
| `IpcServers.HandleLaw` | services/python-core/jarvis/ipc/server.py:191-299 | a frame goes unanswered exactly if it is silent (blank, unreadable, or with a non-text id, or type after the handshake); it launches a task only behind the gate and below the limit; the gate opens exactly for a version 1.0 handshake; replies carry the frame's id |
| `IpcServers.RefusalLaw` | services/python-core/jarvis/ipc/server.py:201-296 | what the loop itself replies: success only to a version 1.0 handshake, otherwise each error code exactly for its cause; only the two handshake refusals hang up |
| `IpcServers.RefusalNames` | services/python-core/jarvis/ipc/server.py:205-296 | under which id and type it does: the frame's own where they are text, otherwise the stand-ins of the source |
| `IpcServers.WriteLaw` | services/python-core/jarvis/ipc/server.py:234-264 | writing a reply closes the connection exactly if the write failed or the reply hangs up, and opens the gate exactly for an accepted handshake |
| `IpcServers.NothingAfterRefusal` | services/python-core/jarvis/ipc/server.py:234-264 | in every run nothing is read on a connection after a silent, non-blank frame or a refused handshake |
| `IpcServers.SilenceHangsUp` | services/python-core/jarvis/ipc/server.py:191-305 | reading a frame ends the connection exactly if the frame is silent and not blank, and then it is unanswered |
| `IpcServers.NumberedHandshakeIsUnanswered` | services/python-core/jarvis/ipc/server.py:219-245 | a version 1.0 handshake whose id is no text closes a fresh connection without a reply |
| `IpcServers.IpcServer.ReadFrame` | services/python-core/jarvis/ipc/server.py:191-299 | one turn of the client loop on the mutable server is the machine's step |
| `IpcServers.IpcServer.OnReplyWritten` | services/python-core/jarvis/ipc/server.py:234-264 | after its write the loop goes on, opens the gate, or hangs up; a failed write ends it |
| `IpcServers.IpcServer.StartRequest` | services/python-core/jarvis/ipc/server.py:313-318 | a task counts itself when it starts, not when it is launched |
| `IpcServers.IpcServer.OnDispatched` | services/python-core/jarvis/ipc/server.py:319-338 | the end of a dispatch is the machine's step; what the client is told by it is `IpcServers.DispatchTells` |
| `IpcServers.DispatchTells` | services/python-core/jarvis/ipc/router.py:66-109 | one more reply on the task's own frame: success exactly if the method is registered and its handler returned, METHOD_NOT_FOUND, EXECUTION_ERROR and REQUEST_TIMEOUT each exactly for its own cause |
| `IpcServers.ResponseLaw` | services/python-core/jarvis/ipc/server.py:319-358 | a written response ends its task and uncounts it; one that cannot be written, unless it is the timeout, is followed by one internal error, and that ends the task whether written or not |
| `IpcServers.SuccessIsEarned` | services/python-core/jarvis/ipc/server.py:313-358 | in every run: what a launched frame is told first is how its dispatch ended, and success is told only to frames whose registered handler returned and to opening handshakes |
| `IpcServers.IpcServer.OnResponseWritten` | services/python-core/jarvis/ipc/server.py:341-358 | a response that could not be written is followed by one internal error; anything else ends the task and uncounts it |
| `IpcServers.StepKeepsSound` | services/python-core/jarvis/ipc/server.py:181-358 | every step of every interleaving of client loops and request tasks keeps gate, replies, counters and client set in order |
| `IpcServers.HandlersFollowHandshake` | services/python-core/jarvis/ipc/server.py:218-250 | in every run, a request task exists only behind an earlier version 1.0 handshake on its own connection that was answered with success |
| `IpcServers.OneReplyPerFrame` | services/python-core/jarvis/ipc/server.py:191-358 | once the tasks have finished, a frame has no reply if it is silent, two if its response could not be written, and otherwise exactly one |
| `IpcServers.RepliesSoFar` | services/python-core/jarvis/ipc/server.py:191-358 | at any time no frame has more replies than that, each under the frame's own id |
| `IpcServers.CountersAreExact` | services/python-core/jarvis/ipc/server.py:317-358 | active requests are those started and not finished, never negative, none at rest; the total is those started |
| `BoundingBoxes.IntersectionIsCommonPoints` | services/python-core/jarvis/vision/models.py:107-125 | a point is in both boxes if and only if they intersect and it is in their intersection |
| `BoundingBoxes.CenterIsInside` | services/python-core/jarvis/vision/models.py:97-125 | the center is in the box, and a box is its own intersection |
| `BoundingBoxes.CenterIsMidway` | services/python-core/jarvis/vision/models.py:96-101 | the center lies midway between opposite borders, rounded down |
| `BoundingBoxes.IntersectionLaws` | services/python-core/jarvis/vision/models.py:118-125 | intersection is symmetric and no larger than either box |
| `BoundingBoxes.IouIsRatio` | services/python-core/jarvis/vision/models.py:127-133 | IoU is symmetric and in [0, 1] |
| `BoundingBoxes.IouCountsCells` | services/python-core/jarvis/vision/models.py:127-133 | IoU is the number of unit cells in both boxes over the number of cells in at least one, 0 if they have none |
| `BoundingBoxes.IouOneIffEqual` | services/python-core/jarvis/vision/models.py:127-133 | for boxes of positive area IoU is 1 if and only if they are equal |
| `BoundingBoxes.IouPositiveIffInterior` | services/python-core/jarvis/vision/models.py:127-133 | IoU is positive exactly when the intersection has positive area |

## Left out

- Planning, language-model output, the agents' inner work and the tools: an executed step returns an arbitrary result.
- The event bus, checkpoint files, logging, answer synthesis and exceptions raised by components of a run.
- `collected_observations`, `artifacts`, `error` and timing fields of a run: they influence no decision that is modelled.
- AgentOrchestrators.AgentOrchestrator.ResumeRun: a checkpoint read from a file, whose run is another object that no loop is working on, is not modelled; the store's checkpoint shares the run object.
- Pausing as a way to stop a run, and replanning as a way to continue one: the wave loop never looks at paused runs, and REPLANNING gives the task up. The model follows the code.
- PlanValidation.PlanValidator.ValidateAndSort: the order of tasks inside a wave is not stated beyond each wave listing its level without repetition, because none of the orchestrator's properties depends on it.
- Parsing and comparison of ISO timestamps: an expiry is a point in time or absent, and the age decay of the ranker is a given factor in [0, 1].
- Message ids of the working memory are taken as distinct, as freshly drawn UUIDs are.
- Floating point: delays, weights, similarities and overlap ratios are reals, and the square root is any function that squares back to its argument. Rounding to four decimals is modelled, half to even.
- SQLite: a table is a map, a query returns its rows in any order or by ascending distance with NULL first, and the filters of the structured search are the caller's list of records.
- The vector extension: its cosine distance is taken as 1 minus the cosine, NULL if a vector of the right dimension is zero, and an error, which empties the search, for any other dimension.
- The working messages, summary and latency of a retrieval result, which are handed through.
- Other database errors in `search_knn`, which yield an empty list too; in retrieval a failing vector phase is modelled, at any point among its hits.
- The hash embedding provider, whose vectors are arbitrary here.
- `reserved_system_tokens`, which context assembly never reads, and the upper-casing and capitalisation of labels and roles, which arrive done.
- UTF-8 decoding of chunks and frames, and the text that JSON serialization produces: frames are sequences of UTF-16 units, requests are records of the fields the server looks at.
- Transport details of the two clients: heartbeats, the handshake exchange, listeners, and a new socket opened before the old one's close event.
- Shutting the server down, cancelling its tasks and broadcasting events to clients; a reply counts when it is written, even to a connection that has closed by then.
- A bound on the server's active requests: the limit is tested when a frame is read and counted when its task starts, so none holds.
- `AIRouter.stream`, provider adapters, capability contents, and the redaction of error messages.
- `ScreenObservation` and everything else in the vision module besides bounding boxes.
- Provider HTTP, operating-system, voice, user-interface and release code: no algorithm of its own.

# AgentPG: a verified model

AgentPG runs agents on top of PostgreSQL: several instances claim runs, ask a model (through the batch or
the streaming API), execute the tools the model calls, continue a run when its tools have finished, and
rescue runs that got stuck. This project models that protocol, context compaction, the leader lease, the
message lists sent to the model, the conversation views, the retry backoff and the example's arithmetic
evaluator, and proves what they promise - or, where the code does not keep a promise, exactly when it does.

## How the project is organised

| files | content |
|---|---|
| `Content`, `Rows` | content blocks; run, iteration and tool execution rows, the tables' CHECK constraints, and each SQL statement as a function of a row |
| `RunMachine` | one run with its workers as a transition system; a worker's window between claim and write is open to every other instance |
| `RunInvariants` | what every step keeps under any interleaving: absorbing ends, bounded progress, one continuation per tool round, attempt accounting |
| `OrderlyRuns` | runs that are rescued only when nothing is outstanding: the single request, the counters, the state edges |
| `ToolIds`, `CleanRuns` | calls and results as multisets of ids; conversations of orderly runs that are not rescued while they await tools |
| `Rescues`, `RescueWitnesses` | when a rescue is safe, exactly, and what happens when it is not; how to get into each of these states |
| `DeadEnds` | which live runs can still end without an instance being deleted, exactly |
| `ToolOutcomes` | when the results sent are final, and when a failed tool is flagged as one |
| `System`, `RunHierarchy` | all runs together: child runs, the trigger between child and parent, the forest of runs |
| `Store`, `Workers` | the tables as a mutable object, and the workers' routines with their loops, proved to have the effects of the steps |
| `Claiming` | FOR UPDATE SKIP LOCKED: select, then commit, with other transactions in between |
| `Tokens`, `Partition`, `Pruning`, `Compaction` | the token estimate, the partition in three passes, pruning, the strategies and the compaction call |
| `CompactionCorrect`, `CompactionSizes` | conservation over histories of a session; reported against actual sizes |
| `CompactionTalk` | when a compaction leaves every tool call of the later requests with its results |
| `Lease` | leader election over a moving clock, with lost replies |
| `Turns`, `Requests` | merging stored messages into alternating turns; when every tool call of a request is answered |
| `RunTree` | the conversation view: which runs and messages it shows, and where |
| `Backoff` | retry delays, their bounds and their sum |
| `Evaluator`, `EvaluatorCorrect` | the recursive-descent evaluator; exactly which texts it evaluates, and to what |

Code that changes things step by step is a method with loops and a mutable state, proved equal to a
function of its inputs or its old state; the theorems are lemmas about that function.

## Assumptions

- A routine's read of a row and its write back are one step. The windows that stay open are those in which
  somebody waits: a worker between claiming a run and writing its result, from the copy it claimed; a batch
  poller while it asks for the status, and again between storing that the batch ended and delivering its
  results; a tool worker between claiming an execution and writing its outcome.
- A notification that the tools of a run are complete may be acted on at any time after one was sent for
  that run, however late and however often; so may the stuck check.
- Workers and pollers may fail or die at every point where they wait; a routine does not stop between two of its own
  statements.
- The stored procedures and triggers are those of `storage/migrations/001_agentpg_migration.up.sql`.
- Which agents an instance is capable of is a set given to the claim.
- Strings are sequences of bytes.

## What was found

- *Ended means ended, in spite of unguarded updates.* `UpdateRunState` and `RescueRun` have no condition on
  the state, and overtaken workers do write. It is the CHECK constraint `run_finalized_consistency` that
  keeps a run from leaving the terminal states (`TerminalIsAbsorbing`). It does not keep a completed run
  completed: an overtaken worker can turn it into a failed one (`HarmByStreaming`, `HarmByRequested`).
- *A rescue is safe exactly when nothing is outstanding*: no worker, no batch in progress, no poller, no
  awaited tools. Then every call is answered (`CallsAreAnswered`). In every other state some continuation
  leaves a call unanswered in a claimable run or fails a completed one, with a single exception: a batch run
  with nothing but workers that have not begun, whose next iteration number is taken, will be failed by
  whoever begins (`RescueIsHarmfulIff`). All these states are within a few steps of any fresh run
  (`EveryHarmArises`, `DoomArises`). The rescue query checks none of this: it looks at the age of the claim
  and at the tool executions.
- *Counters, state edges and the finality of completed runs need less*: rescues of runs that await tools do
  not disturb them (`CountersAreSums`, `StepsFollowEdges`, `CompletedIsFinal`).
- *A run that used up its rescues is never failed.* `rescueStuckRuns` has a branch for it, but the query
  leaves such runs out; they stay as they are (`RescueStuckRuns`).
- *A rescued run with no worker is failed by its next worker exactly if its next iteration number is taken*
  (`RescuedRunFailsIff`). That is so after a batch worker died between iteration and submission, and never
  in a streaming run or while a batch was accepted (`NumberIsTakenBy`): such a batch run is rescued in vain.
- *A tool worker that leaves without an outcome can strand its run*: the execution stays running, which
  blocks the stuck check and the rescue alike. A live run can end without the deletion of an instance exactly
  if it is not stranded in this way or out of rescues (`EndsUnlessStranded`, `LeavingStrands`).
- *The results sent are final exactly if every continuation acts in time*: on a notification sent since the
  run last entered pending_tools, or under the condition of the stuck query (`ResultsAreFinalIff`). The code
  checks neither, so a late notification answers a queued tool with an empty result that is no error
  (`LateNotificationAnswersQueuedTool`).
- *A failed tool is flagged as an error exactly as long as no instance is deleted under a running tool*; the
  first such deletion leaves a failure that looks like a success without output (`FailuresAreFlaggedIff`).
- *A run that ends while it awaits its tools breaks its session*: the request over a session pairs its calls
  exactly if no run of it left a call open, so every later request is broken (`SessionIsPairedIff`,
  `DeadInstancePoisonsSession`).
- *Prune-only compaction deletes.* `compaction/config.go:70-73` documents that outputs are replaced by a
  placeholder; the call deletes the messages that hold them (`PrunesAsDocumentedIff`). Its reported size
  counts messages that are gone (`PruningIsHonest`).
- *Compaction can leave calls without results, and results without calls.* The request over a context stays
  paired exactly if no boundary between removed and kept messages separates a call from its answer
  (`CompactionPairsIff`). Pruning alone separates them whenever it removes anything, because it deletes the
  message with the output and keeps the call (`PruningPairsIff`); a summary does so exactly if the partition
  cuts the context behind a call (`SummaryPairsIff`). Neither strategy looks at calls.
- *Compaction loses a message exactly if it deletes it after a failed archive call* and no earlier call
  archived it; the failure is only logged (`EveryMessageIsAccountedFor`).
- *A stopped client keeps believing that it leads* (`StopLeavesTwoBelievers`); two clients that were not
  stopped never do so within their terms (`BelieversInTermAgree`). A leader whose refresh errs cannot take
  its own lease back before it runs out (`NoLeaderUntilExpiry`).
- *The lease holds exactly from one second on*: the refresh interval is never below a second
  (`DisplacedIff`).
- *The calculator ignores what it cannot read*, behind a complete expression and before a closing
  parenthesis; apart from that a text has a value exactly if it is an expression of the grammar
  that divides by no zero (`EvaluatesIffRead`, `UndefinedIffZeroDivisor`).
- *The conversation view leaves out runs whose ancestors the query's limit cut off*, while still counting
  their messages (`HierarchicalConversation`).

## Model

| member | source | states |
|---|---|---|
| `RunInvariants.StepOk` | driver/pgxv5/store.go:612-1360 | every step of every worker, instance, rescue or trigger keeps the table constraints, the attempt accounting, exclusive holders, the progress budget and the counts of claims and continuations; a run keeps its identity and an execution what it is for |
| `RunInvariants.TerminalIsAbsorbing` | storage/migrations/001_agentpg_migration.up.sql:548-565 | no interleaving, stale workers and unguarded updates included, takes a run out of the terminal states |
| `RunInvariants.ToolEndIsAbsorbing` | storage/migrations/001_agentpg_migration.up.sql:1040-1055 | executions are never removed or repurposed, and one that has ended stays ended over every run of the machine |
| `RunInvariants.RescueBound` | rescuer.go:56-108 | rescue_attempts never exceeds the configured maximum |
| `RunInvariants.BoundedProgress` | constants.go:35-71 | a run changes its state at most 5 times per tool round and 4 times per rescue plus 4, whoever acts on it |
| `RunInvariants.AnsweredOncePerEntry` | tool_worker.go:298-370 | in any stretch of any history, from any state, each tool_result message uses up an entry into pending_tools of that stretch or the wait it began with, however often the end of the tools is announced or noticed |
| `RunInvariants.ClaimedOncePerReset` | driver/pgxv5/store.go:651-670 | a run is claimed at most once more than continuations and rescues gave its claim back, and no more often than that while it is unclaimed |
| `RunInvariants.AttemptAccounting` | driver/pgxv5/store.go:1225-1252 | attempts plus snoozes are the claims, claims are at most max_attempts plus snoozes, a pending execution has an attempt left and no holder, and no execution has two holders |
| `RunInvariants.OutcomeKeepsExec` | tool_worker.go:223-296 | every outcome of a held execution, retry and snooze included, leaves it within its attempts and never sends an agent call back to the queue |
| `ToolIds.CallsHaveExecs` | batch_poller.go:268-397 | the content loop and the tool parameter loop agree: one execution per tool_use block, with its id, in both modes |
| `ToolIds.ResultsCarryIds` | tool_worker.go:327-350 | the result blocks carry exactly the ids of the iteration's executions, as a multiset, in whatever order they were fetched |
| `OrderlyRuns.StepOrderly` | batch_poller.go:268-413 | every step of a run that is rescued only when nothing is outstanding keeps the single outstanding request, the bound on iteration numbers and the counters |
| `CleanRuns.StepClean` | streaming_worker.go:221-360 | every step of such a run that is also not rescued while it awaits tools keeps the pairing of calls and results |
| `CleanRuns.CallsAreAnswered` | tool_worker.go:298-370 | with safe rescues, in every reachable state each message with tool calls is followed by one message with exactly their results, or is the last one of a run that awaits them or has ended; a claimable or claimed run misses none; results occur nowhere else |
| `CleanRuns.OpenForEver` | storage/migrations/001_agentpg_migration.up.sql:548-565 | a run that ended with an open call gets no message any more, whatever follows |
| `OrderlyRuns.CountersAreSums` | batch_poller.go:360-397 | tokens, iteration_count and tool_iterations of a run that did not fail are the sums over its completed iterations, in both modes, rescues out of pending_tools included |
| `OrderlyRuns.StepsFollowEdges` | constants.go:35-71 | every change of a live run is a documented edge or a rescue; a completed run changes in no column; a failed one can only be completed by a request that outlived it |
| `OrderlyRuns.CompletedIsFinal` | constants.go:71 | a completed run's row never changes again over any history in which rescues wait for what is outstanding |
| `OrderlyRuns.ProgressInColumns` | constants.go:35-71 | in every history in which rescues wait for what is outstanding, failed runs included, the changes of state are at most 5 times tool_iterations plus 4 times rescue_attempts plus 4 |
| `Rescues.RescueIsHarmfulIff` | storage/migrations/001_agentpg_migration.up.sql:1474-1500 | from every clean state, a possible rescue has a continuation that leaves a call unanswered in a claimable run or fails a completed one exactly if a worker, a batch, a poller or tool results are outstanding and the run is not a batch run that its waiting workers are bound to fail |
| `Rescues.HarmInFlight` | batch_poller.go:127-179 | from every clean state with a batch in progress or being fetched, a possible rescue can lead to a claimable run with an unanswered call |
| `Rescues.HarmByStreaming` | streaming_worker.go:514-529 | from every clean state with a live streaming worker, a possible rescue can lead to a completed run that is failed |
| `Rescues.HarmByRequested` | run_worker.go:193-218 | so it can with a batch worker between its iteration and its submission |
| `Rescues.HarmByClaimed` | run_worker.go:96-123 | and with a batch worker that has not begun, unless the next iteration number is taken |
| `Rescues.HarmWhileAwaiting` | storage/migrations/001_agentpg_migration.up.sql:1474-1500 | a rescue of a run that awaits tools, which the query allows once they are finished, always does harm |
| `RescueWitnesses.EveryHarmArises` | storage/migrations/001_agentpg_migration.up.sql:1474-1500 | from every fresh run, each of the states in which a rescue can do harm is reached without an unclean rescue, and the rescue is possible there |
| `RescueWitnesses.DoomArises` | run_worker.go:114-123 | so is, from every fresh batch run, a state in which even an unclean rescue does no harm |
| `Rescues.RescuedRunFailsIff` | run_worker.go:114-123 | a rescued run without workers is failed by its next worker exactly if the number of its next iteration is taken |
| `Rescues.NumberIsTakenBy` | driver/pgxv5/store.go:1346-1360 | the number is taken after every batch worker that died between iteration and submission, and never in a streaming run or while a batch was accepted |
| `DeadEnds.EndsUnlessStranded` | tool_worker.go:115-145 | over every history in which rescues wait for what is outstanding, a live run can end without the deletion of an instance and within a bound on its rescues exactly if it is not stranded: idle, past pending, and blocked by a running execution without worker and child run, or out of rescues |
| `DeadEnds.LeavingStrands` | tool_worker.go:81-126 | a tool worker that leaves an execution its run waits for strands a run that was never notified exactly if no child run stands for the execution or the run was stranded already |
| `ToolOutcomes.ResultsAreFinalIff` | driver/pgxv5/store.go:700-710 | over any history of any instances, all results ever sent come from executions that have ended exactly if every continuation followed a notification of the current round or the condition of the stuck query |
| `ToolOutcomes.LateNotificationAnswersQueuedTool` | tool_worker.go:298-350 | once a notification was ever sent, from every claimable streaming run some continuation answers a queued tool with an empty result that is no error |
| `ToolOutcomes.FailuresAreFlaggedIff` | storage/migrations/001_agentpg_migration.up.sql:1690-1713 | while no instance is deleted under a running tool an execution has failed exactly if it is flagged; a deletion keeps that exactly if it hits no running tool of the instance, and otherwise leaves a failure with the block of a success without output |
| `System.SystemStepOk` | tool_worker.go:147-203 | creating, stepping and spawning runs, with the child trigger, keeps the per-run invariants, the parent links, one child per agent call and the settled waits |
| `System.ForestAndResults` | storage/migrations/001_agentpg_migration.up.sql:1651-1678 | in every reachable database parent links form a forest with constant session, mode and variables and depth one more than the parent, an agent call has at most one child, and no execution waits for a child that has ended |
| `System.EveryRunClean` | tool_worker.go:147-203 | with clean rescues the conversations and counters of all runs of the database are right at every moment |
| `RunHierarchy.ReachableTablesAreForests` | tool_worker.go:165-182 | the run table of every reachable database is a forest |
| `RunHierarchy.FindRoot` | ui/service/runs.go:266-285 | the upward loop terminates at the one ancestor of depth 0, or early at a run whose parent could not be read |
| `RunHierarchy.AncestorsShare` | tool_worker.go:165-182 | session, mode and variables are those of every ancestor, and depths strictly increase on the way down |
| `RunHierarchy.SessionListIsClosed` | driver/pgxv5/store.go:672-688 | the list of all runs of a session is closed under parents |
| `Store.Database.UpdateRun` | driver/pgxv5/store.go:612-650 | the row is stored exactly if it satisfies the constraints; no other run changes |
| `Store.Database.CreateIteration` | storage/migrations/001_agentpg_migration.up.sql:900 | an iteration number that the run already has is refused and nothing changes; otherwise exactly one iteration is added |
| `Store.Database.CreateToolExecutionsAndUpdateRun` | storage/migrations/001_agentpg_migration.up.sql:1775-1836 | executions and run change together or not at all |
| `Store.Database.UpdateToolExecution` | storage/migrations/001_agentpg_migration.up.sql:1607-1639 | the row is stored exactly if it satisfies the constraint; the run is announced by exactly the update that ends its last execution; nothing else changes |
| `Store.Database.CompleteToolsAndContinueRun` | storage/migrations/001_agentpg_migration.up.sql:1851-1907 | exactly a run in pending_tools gets one user message, loses its claim and is claimable; its executions, iterations and workers stay, and any other run is left as it is |
| `Store.Database.GetStuckRuns` | storage/migrations/001_agentpg_migration.up.sql:1474-1500 | distinct stuck unlocked runs, at most the limit, all of them below it, and those claimed earliest when it cuts |
| `Workers.StartProcessRun` | run_worker.go:96-123 | prompt, iteration and run row change as in the step; a taken iteration number fails the run |
| `Workers.FinishSubmission` | run_worker.go:193-218 | an accepted batch moves iteration and run; a refused update fails the run if that is still possible |
| `Workers.FinishStreaming` | streaming_worker.go:217-344 | the stream's result is recorded from the claimed copy, or the run fails |
| `Workers.ReadResponse` | batch_poller.go:279-301 | the first loop builds exactly the content of the mode, the joined text, and the tool flag |
| `Workers.BuildToolParams` | batch_poller.go:415-453 | one execution row per tool_use block, in order, with the defaults filled in |
| `Workers.RecordResult` | batch_poller.go:268-413 | message, iteration and run change as in the step; when the last write is refused the first two stay |
| `Workers.PollIteration` | batch_poller.go:63-125 | every answer about a batch's status has the effect of its step; one that has ended is stored before its results are fetched |
| `Workers.HandleBatchComplete` | batch_poller.go:127-179 | whatever the fetch brings has the effect of its step on the run as it is by then |
| `Workers.FinishTool` | tool_worker.go:91-145 | every outcome leads to its one update, refused by the constraint where the execution has ended |
| `Workers.HandleAllToolsComplete` | tool_worker.go:298-370 | nothing happens unless the run is in pending_tools with a known iteration; then one result per execution, and the continuation |
| `Workers.CheckForStuckRuns` | tool_worker.go:372-391 | every run of the query continues with results of finished executions only, and no other run changes |
| `Workers.ExecuteAgentTool` | tool_worker.go:147-203 | the child run and the link to it are created as in the system's spawn step |
| `Workers.RescueAll` | rescuer.go:70-108 | exactly the listed runs are rescued, or failed beyond the maximum |
| `Workers.RescueStuckRuns` | rescuer.go:43-108 | only stuck runs change, and only by a rescue; a run at its maximum is left as it is and no run is ever failed |
| `Claiming.SelectedIsRight` | storage/migrations/001_agentpg_migration.up.sql:1313-1366 | the selection is a set of at most the limit of free eligible runs, passes over no older eligible one, and stops early only when none is left |
| `Claiming.TableStep` | storage/migrations/001_agentpg_migration.up.sql:1313-1366 | no interleaving of selections, commits, aborts and other writes locks a run twice or makes a locked one ineligible |
| `Claiming.CommitIsAtomic` | driver/pgxv5/store.go:651-670 | a commit claims at most maxCount runs, each once, that are pending, unclaimed and of the requested mode at that moment, puts each into the claimed state of its mode, and touches no other row |
| `Claiming.ReturnedAtMostOnce` | docs/architecture.md:413-440 | without a statement that gives its claim back, a run is returned to at most one claimer over any interleaving |
| `Tokens.EstimateMessageTokens` | compaction/token_counter.go:128-170 | the loop adds the overhead and the estimate of every block by its type |
| `Tokens.CountWithApproximation` | compaction/token_counter.go:110-126 | the total is the sum and the list holds each message's estimate |
| `Tokens.EstimateOfSpreadText` | compaction/token_counter.go:128-185 | a text spread over several blocks is estimated as in one block, or at most one token more per further block |
| `Tokens.TokenCounter.CountTokens` | compaction/token_counter.go:49-61 | the API's answer is used until it fails once, the estimate from then on |
| `Partition.PartitionMessages` | compaction/message_partition.go:65-147 | the three passes over the category map compute the partition by slices and flags, and its statistics |
| `Partition.ProtectNewest` | compaction/message_partition.go:88-103 | the first pass stops exactly at the start of the protected zone |
| `Partition.KeepRecent` | compaction/message_partition.go:105-117 | the second pass takes exactly the newest preserveLastN messages before the zone, or all there are |
| `Partition.SortOlder` | compaction/message_partition.go:119-142 | the third pass splits the rest by summary flag, then preserved flag, in order |
| `Partition.ZoneIsLongestTail` | compaction/message_partition.go:88-103 | a non-empty tail fits into the protected budget exactly if it lies in the zone |
| `Partition.OfKindIsExact` | compaction/message_partition.go:119-142 | each part of the older messages holds exactly the messages of its kind, at strictly increasing positions |
| `Partition.PartitionSlices` | compaction/message_partition.go:88-117 | the session is older messages, then at most preserveLastN recent ones - fewer only if no older ones are left - then the zone |
| `Partition.PartitionCovers` | compaction/message_partition.go:65-147 | every message lies in exactly one part |
| `Partition.StatsAddUp` | compaction/message_partition.go:38-46 | with the estimate as total the five token sums add up to it |
| `Partition.CompactableIsExact` | compaction/message_partition.go:119-142 | a message is compactable exactly if it has no flag, its tail exceeds the protected budget, and more than preserveLastN messages lie between it and the zone |
| `Pruning.PruneToolOutputs` | compaction/hybrid.go:119-185 | the loops compute the pruned messages and the saving |
| `Pruning.PruningIsExact` | compaction/hybrid.go:119-185 | the reported saving is the change of the estimate, to the token, and at least one per replaced block |
| `Pruning.PruningKeepsShape` | compaction/hybrid.go:148-180 | messages, block order, types, tool ids and error flags survive, and a message changes exactly if it is unflagged and holds a prunable block |
| `Pruning.PruningIsIdempotent` | compaction/hybrid.go:119-185 | a second pass changes nothing and saves nothing |
| `Pruning.WasMessagePruned` | compaction/hybrid.go:202-218 | true exactly if the ids agree and a block is missing or a tool output differs |
| `Pruning.FindPrunedMessageIds` | compaction/hybrid.go:189-199 | for pruned messages the ids of those that changed, in order; none for unchanged ones |
| `Pruning.PrunedIdsAreExact` | compaction/hybrid.go:189-199 | an id is listed exactly if a message with it was changed |
| `Compaction.ExecuteHybrid` | compaction/hybrid.go:37-115 | pruning alone if it reaches the target, otherwise the summary of all compactable messages, or the error |
| `Compaction.ExecuteSummarization` | compaction/summarization.go:165-199 | the summary of all compactable messages with its size, or the error |
| `Compaction.SessionStore.ArchiveMessage` | driver/pgxv5/store.go:2013-2021 | an id that is archived already is refused |
| `Compaction.SessionStore.Compact` | compaction/compaction.go:178-350 | messages, archive, event and result are the function of the session and of what the store, the API and the model answered |
| `CompactionCorrect.OnlyCompactableGo` | compaction/compaction.go:282-291 | a message that a call removes has no flag, lies outside the protected budget and is older than preserveLastN others |
| `CompactionCorrect.TailSurvives` | compaction/compaction.go:282-316 | the recent and protected messages survive in place, followed by the summary |
| `CompactionCorrect.ArchiveIsExact` | compaction/compaction.go:253-280 | the archive keeps what it has and gains exactly the compactable messages whose call did not fail |
| `CompactionCorrect.EveryMessageIsAccountedFor` | compaction/compaction.go:253-316 | over every history of appends and compactions with any failures, each message ever stored is stored unchanged, archived unchanged, or was deleted after a failed archive call without an earlier one; flagged messages are all still stored |
| `CompactionCorrect.StoredOrArchived` | compaction/compaction.go:253-291 | if the archive calls succeed nothing is ever lost |
| `CompactionSizes.SummaryIsHonest` | compaction/hybrid.go:97-114 | after a summary the estimate is exactly the reported size, plus the overhead of the new message as far as it was stored, plus what failing deletes left; the session shrinks exactly if all that is smaller than what it replaces |
| `CompactionSizes.PruningIsHonest` | compaction/hybrid.go:54-68 | after pruning alone the estimate is the reported size less the pruned versions of the messages with something to prune, plus those whose delete failed; within the target if none failed |
| `CompactionSizes.PrunesAsDocumentedIff` | compaction/config.go:70-73 | the session is what the documentation describes exactly if no older message holds anything to prune |
| `CompactionTalk.CompactionPairsIff` | compaction/compaction.go:253-316 | with unique call ids, after a compaction with either strategy and whatever failed, a request over a root or a child context pairs every call with its results exactly if no boundary between what the partition let go and what was kept separates a call from its answer |
| `CompactionTalk.PruningPairsIff` | compaction/hybrid.go:54-68 | after pruning alone it does so exactly if nothing of the context was deleted |
| `CompactionTalk.SummaryPairsIff` | compaction/hybrid.go:97-114 | after a summary of unflagged older messages it does so exactly if the partition does not cut the context behind a call |
| `CompactionTalk.RepeatedIdsPassForOne` | run_worker.go:228-274 | unique ids are needed: for every repeated id there is a session in which two halves of different exchanges, separated from their own, pair up |
| `Lease.LeaderTable.TryAcquireLeader` | driver/pgxv5/store.go:1938-1953 | acquired exactly if there is no row or it has expired, and then the row is the new lease |
| `Lease.LeaderTable.RefreshLeader` | driver/pgxv5/store.go:1955-1966 | refreshed exactly if the row names the client, expired or not |
| `Lease.LeaderTable.GetLeader` | driver/pgxv5/store.go:1968-1985 | at the instant of expiry the row names nobody and cannot be taken |
| `Lease.Client.TryAcquireOrRefreshLeadership` | client.go:933-965 | belief and row after one turn of the loop, whatever error hides the reply |
| `Lease.Client.Stop` | client.go:381-417 | a client that is not started is refused; otherwise the row is released, the belief is not |
| `Lease.LeaseIsExclusive` | client.go:908-965 | over any interleaving, clock and errors at most one client is within the TTL of its last grant; the row names it and nobody else can acquire it |
| `Lease.BelieversInTermAgree` | client.go:933-974 | two clients that believe they lead, were not stopped, and are within the TTL of their last grant are the same, whatever other clients do |
| `Lease.StopLeavesTwoBelievers` | client.go:409-417 | from every state with a running leader a stop and an acquisition leave two clients that believe, at the same instant |
| `Lease.NoLeaderUntilExpiry` | client.go:940-963 | over every history up to the expiry of a lease whose holder lost its belief, the row stays as it is, the holder does not lead again and nobody begins to believe |
| `Lease.NeverDisplaced` | client.go:908-931 | with a TTL of at least a second a leader that refreshes in time leads for ever |
| `Lease.DisplacedIff` | client.go:910-915 | a freshly granted leader that refreshes in time can lose the lease exactly if the TTL is below one second |
| `Turns.BuildMessages` | run_worker.go:231-274 | roles alternate, no turn is empty, and the turns say exactly the convertible blocks in order |
| `Turns.AlternatingIsCanonical` | streaming_worker.go:408-451 | the result depends only on what is said: alternating lists that say the same are equal |
| `Requests.RequestIsPairedIff` | run_worker.go:228-274 | the request of a paired conversation pairs every call with its results in the next turn exactly if no call is open |
| `Requests.RequestOfClaimedRun` | driver/pgxv5/store.go:1548-1551 | after any clean run of the machine the request for a claimed child run is paired |
| `Requests.SessionIsPairedIff` | driver/pgxv5/store.go:1553-1568 | the request over any number of conversations of a session is paired exactly if none of them ends with an open call |
| `Requests.DeadInstancePoisonsSession` | storage/migrations/001_agentpg_migration.up.sql:1690-1713 | deleting the instance of a run that awaits its tools makes every later request of its session unpaired, whatever happens afterwards |
| `RunTree.ReverseRuns` | ui/service/messages.go:224-226 | the swaps reverse the list in place |
| `RunTree.IsToolResultOnlyMessage` | ui/service/messages.go:149-159 | true exactly for a non-empty message of tool results |
| `RunTree.BuildRunMessageGroupsAtDepth` | ui/service/messages.go:359-413 | the recursion terminates, because fewer runs are at the next depth or deeper, and computes the groups |
| `RunTree.GroupMessages` | ui/service/messages.go:257-301 | every counted message is filed once, under its run or as an orphan |
| `RunTree.HierarchicalConversation` | ui/service/messages.go:202-355 | every listed run occurs once under its own parent if its way up to a root is listed, else never; a counted message is shown as often as it was counted if it has no run or such a run, else never |
| `RunTree.EachRunOnce` | ui/service/messages.go:359-413 | a listed run occurs exactly once if it is anchored, else never |
| `RunTree.ClosedShowsEverything` | ui/service/messages.go:257-341 | in a list closed under parents that holds every message's run, nothing is missing and nothing is shown twice |
| `Backoff.NextRetryDelay` | config.go:251-277 | zero without jitter; otherwise the truncated jittered attempt^4 seconds, at least one second |
| `Backoff.DelayBounds` | config.go:251-277 | with jitter j in (0, 1] every draw gives a delay between (1 - j) and (1 + j) times attempt^4 seconds, rounded down to whole nanoseconds, and of at least one second |
| `Backoff.FitsExactlyUpTo260` | config.go:263-269 | the nanoseconds fit into int64 for every jitter up to 1 and every draw exactly up to attempt 260 |
| `Backoff.TotalDelayBound` | tool_worker.go:249-295 | all retry delays of one execution with M attempts, snoozes or not, total at most (1 + j)(M - 1)M(2M - 1)(3M^2 - 3M - 1)/30 seconds |
| `Evaluator.ParseAddSub` | examples/admin_ui_full/main.go:580-603 | the loop computes the left-to-right sum of terms |
| `Evaluator.ParseMulDiv` | examples/admin_ui_full/main.go:605-631 | the loop computes the left-to-right product of factors, or the division error |
| `Evaluator.ParseNumber` | examples/admin_ui_full/main.go:633-683 | sign, literal or parenthesised text between the scanned parentheses |
| `EvaluatorCorrect.EvaluatesIffRead` | examples/admin_ui_full/main.go:574-683 | a text evaluates to a number exactly if, spaces apart, it begins with a text of a tree of that value that nothing continues: the tree's printed form, level by level, up to unread text before closing parentheses |
| `EvaluatorCorrect.EvaluatesWhatIsRead` | examples/admin_ui_full/main.go:574-683 | such a text evaluates to the tree's left-associative, precedence-correct value, or to its error |
| `EvaluatorCorrect.EvaluatesPrintedText` | examples/admin_ui_full/main.go:574-683 | every text that is the printed form of a tree, up to spaces, evaluates to the tree's value, or to its error |
| `EvaluatorCorrect.InsideParens` | examples/admin_ui_full/main.go:640-648 | evaluating the rest of the text on its own, as is done inside parentheses, is the same as going on in the whole text |
| `EvaluatorCorrect.UndefinedIffZeroDivisor` | examples/admin_ui_full/main.go:605-631 | the value is an error exactly if a subexpression divides by zero |
| `EvaluatorCorrect.ScanIsExact` | examples/admin_ui_full/main.go:645-659 | the scan ends behind a character exactly if, counting all parentheses from where it starts, that character is the first at which none is open any more |
| `EvaluatorCorrect.ScanFindsMatchingClose` | examples/admin_ui_full/main.go:633-683 | the scan ends behind the matching parenthesis, for any nesting |
| `EvaluatorCorrect.GroupsToTheLeft` | examples/admin_ui_full/main.go:580-631 | a chain of two operators of one level without parentheses is worth the tree that groups to the left; with its last two operands in parentheses, the tree that groups to the right |
| `EvaluatorCorrect.ExercisesAreAnswered` | examples/admin_ui_full/main.go:574-683 | with exact reals, whole numbers combined by the four operators and written with the customary parentheses evaluate to the exact answer, or to the division error |
| `EvaluatorCorrect.TrailingTextIgnored` | examples/admin_ui_full/main.go:580-603 | text behind a complete expression that cannot continue it is ignored without an error |

## Left out

- The Anthropic API, batch result files, streaming accumulation, JSON and SQL text: a response is any list of text, tool_use and other blocks with any usage.
- Whether an instance is able to run an agent, beyond a set given to the claim.
- Tickers, notification delivery, heartbeats and the deletion of stale instances: any step may come next.
- A routine that stops between two of its own statements because the database failed in the middle.
- Automatic compaction of a session while runs of it are at work.
- 32-bit integer columns and Go's 64-bit integers: numbers are unbounded, except in `Backoff`.
- Floating-point rounding in the evaluator and the backoff: the evaluator is proved for any arithmetic, the backoff over the reals. Decimal literals are values of that arithmetic.
- The database crash after which the unlogged leader table is empty: two clients could then be in term.
- CompactionSizes.SummaryIsHonest: assumes estimated tokens, because with the API's total the per-message estimates do not add up to it.
- CompactionSizes.PruningIsHonest: assumes estimated tokens, for the same reason.
- CleanRuns.CallsAreAnswered: restricts rescues as `CleanStep` says, because the claim is false otherwise: `Rescues.RescueIsHarmfulIff` gives the exact condition of a rescue that can harm.
- RunInvariants.BoundedProgress: counts tool rounds as they happen, because overtaken workers write stale counters; with the column it holds while rescues wait for what is outstanding (`OrderlyRuns.ProgressInColumns`).
- CompactionTalk.CompactionPairsIff: assumes that no two messages call with the same id, because the claim is false otherwise (`CompactionTalk.RepeatedIdsPassForOne`); that what is kept together is paired holds without it.
- Requests.RequestOfClaimedRun: is about child runs, whose context is their own messages; what holds for the session of a root run is `Requests.SessionIsPairedIff`.
- Two root runs of one session at work at the same time, whose messages interleave.
- compaction_count: the code writes the constant 1.
- The text given to the summarizer: its answer is a parameter.
- buildRunNode, which descends by child_run_id instead of the parent links of `RunTree`.
- Tool executions shown beside the messages of the conversation view.
- Metadata, timestamps and foreign keys of messages and content blocks.

# Fornix control plane: verified model

Fornix drives agent runs, derived tables, repository changes and model calls through
durable records, so that work survives crashes, retries and competing workers. This
project models the state machines and transformations behind that claim and proves what
they keep over every run, interleaving and crash, for all inputs.

Each component comes as a specification (pure transition functions) and, where the source
updates state in place, as imperative code proved to do exactly what the specification
says. The theorems are about the specification; what its steps decide is also stated of
inputs and results alone, without the functions that compute it.

| files | component |
|---|---|
| `AgentTypes`, `AgentLoop`, `AgentInvariants` | the bounded agent loop: one proposed write per step, its invariant, conversation grammar and termination measure |
| `AgentOrchestrator` | the loop as the source runs it, over a compare-and-swap cell |
| `AgentOutcomes`, `AgentProvenance` | what every answer a step is given does to the run; where the rows and messages of a whole execution come from |
| `AgentSystem`, `AgentReachability`, `AgentRecovery` | interleaved workers that read, act, commit and crash; executions built step by step; resumption through the model-call ledger |
| `Projection`, `ProjectionReading`, `ProjectionLeases`, `ProjectionRuntime`, `ProjectionSystem`, `ProjectionSharing` | the task projection as a fold, what a row says of the log's deltas, who may write, leased batches, rebuild, whole executions with takeovers and several consumers, and a rebuild of a shared table |
| `Change`, `ChangeInputs`, `ChangeEffects`, `ChangePlanning`, `ChangeExecution`, `ChangeOutcome`, `ChangeExecutor` | planning repository changes, from each input to what it leaves in the tree, applying them, crashing and applying again |
| `Gateway`, `GatewayStream`, `GatewayPersistence`, `GatewayCall`, `GatewaySystem` | retries, fallbacks and stream buffering of one model call; how hard it tries and what it reports; many calls over one ledger |
| `RetrievalQuality`, `RetrievalRanking`, `RetrievalScorer` | ranking metrics, what they count, and their bounds |
| `Chunker`, `Watcher`, `WatcherRetries` | overlapping windows; the debounced retry queue and its counts and delays |
| `Policy`, `PolicyResolution`, `PolicyAdmission` | policy packs, their resolution, and which are admitted |
| `StableSort`, `Distinctness`, `Basics` | sorting, removal of repetitions, and option and result types, used by several components |

Providers, tools, approvals, clocks, crashes, lost writes and cancellation are inputs
that may be anything. Where the code departs from what its comments promise, the code is
modelled as it is and the exact condition under which the promise holds is proved:

- `CompleteExternal` can end a run past its turn budget or with tool calls open
  (`ExternalCompletionBounds`, reached in `ExternalOverrunIsReachable`).
- A worker that dies between the ledger's start and finish leaves its model call in flight
  for ever, and the resumed run then fails (`ResumptionIsTransparentUnlessInFlight`).
- A projection reset deletes every row of a table that another consumer may share
  (`ResetIsSafeOnlyAlone`), and a batch of that consumer during the rebuild can leave rows
  short for good (`RebuildSurvivesForeignBatch`).
- A change that deletes, renames or asks for mode bits above the permission bits applies in
  full and is still reported as needing recovery, because the predicted list drops the
  paths that the observed list keeps as absent, and no check bounds the requested mode
  (`PlannedPacketApplies`).
- A conflict after some operations took effect is labelled conflicted, not as needing
  recovery (`PartialEffectIsFlaggedUnlessConflicted`).
- The scorer rejects a case whose cost is called both known and estimated, after its own
  measurement checks accepted it (`ValidationRejectsOnlyContradictoryCost`).
- The watcher's delay wraps around after 54 attempts, and under a cap that does not fit a
  duration earlier (`BackoffDoublesUntilItWraps`).
- A policy's content hash is documented as the same before and after normalization, which
  holds only of packs that normalizing merely reorders (`HashBeforeNormalizing`), and the
  validator count is held to the policy's limit, not to the tightened one
  (`ValidatorsFitTheTightenedLimit`).
- Planned contents are kept by operation id, so a write that shares its id with a later one
  can lose its content (`PlannedContentsResolve`).

## Model

| member | source | states |
|---|---|---|
| AgentInvariants.ReservedSatisfiesInv | internal/contracts/agent.go:123-153 | a run reserved with any budget that normalizes starts inside the loop's invariant |
| AgentInvariants.LastCallsAreAnsweredThenOpen | internal/agentloop/loop.go:377-387 | in every well-formed conversation the last assistant's tool calls are the ids answered since it, in order, followed by the calls still open |
| AgentInvariants.ProposedWritesAreLegal | internal/agentloop/loop.go:162-292 | every write of any operation in any environment starts from a live run, keeps budgets and conversation shape, only extends the history and moves the attempt counter by at most one |
| AgentInvariants.ToolRetryGuardIsDead | internal/agentloop/loop.go:407-408 | a pending call's attempts always are below the limit, so the retry guard never fires and never feeds a tool count into the model attempts |
| AgentInvariants.ModelRequestsSeeAnsweredConversations | internal/agentloop/loop.go:197-200 | a model call is only issued when every tool call of the last assistant message is answered and turns and attempts are left |
| AgentInvariants.AdvancingLowersMeasure | internal/agentloop/loop.go:294-399 | every step that tells the caller to go on strictly lowers the termination measure and leaves a live run |
| AgentInvariants.MeasureFitsPhases | internal/agentloop/loop.go:143-146 | the measure of any live run is below the phase bound |
| AgentInvariants.ExternalCompletionBounds | internal/agentloop/loop.go:259-292 | an external completion ends inside the turn budget exactly when a turn was left, and with nothing pending and a well-formed history exactly when nothing was pending |
| AgentInvariants.ExternalCompletionCanOverrun | internal/agentloop/loop.go:280-286 | a concrete admitted run that ends past its turn budget with a call pending |
| AgentOrchestrator.RunStore.Commit | internal/store/agent_runs.go:241-460 | a commit replaces the row exactly when the version matches, the row is not terminal with another state and the new one is storable; otherwise nothing changes |
| AgentOrchestrator.Orchestrator.Fail | internal/agentloop/loop.go:501-510 | the terminal failure write, attempt count raised, pending cleared |
| AgentOrchestrator.Orchestrator.Advance | internal/agentloop/loop.go:162-201 | decision and new row are those of the single write the specification proposes |
| AgentOrchestrator.Orchestrator.AdvanceModel | internal/agentloop/loop.go:294-399 | admission, context, provider failure, retry and reply, against the specification's model step |
| AgentOrchestrator.Orchestrator.RecordReply | internal/agentloop/loop.go:353-398 | accounting, cumulative budgets, queueing of tool calls or completion, against the specification |
| AgentOrchestrator.Orchestrator.AdvanceTool | internal/agentloop/loop.go:401-470 | the six answers of a tool call, against the specification's tool step |
| AgentOrchestrator.Orchestrator.AdvanceApproval | internal/agentloop/loop.go:472-495 | the approval branches, against the specification's step, whose meaning `ApprovalDecides` gives |
| AgentOrchestrator.Orchestrator.Cancel | internal/agentloop/loop.go:204-227 | a live run ends cancelled with nothing pending; a terminal one is returned as it is |
| AgentOrchestrator.Orchestrator.WaitExternal | internal/agentloop/loop.go:232-254 | a live run waits for an external result |
| AgentOrchestrator.Orchestrator.CompleteExternal | internal/agentloop/loop.go:259-292 | an external result completes the run or exceeds its output budget |
| AgentOrchestrator.Orchestrator.ComputeRetryDelay | internal/agentloop/loop.go:692-704 | the backoff loop computes the doubling delay capped at ten seconds |
| AgentOrchestrator.Orchestrator.Run | internal/agentloop/loop.go:131-158 | a run from any legal row ends by a decision, an error or the wall clock, never by the phase bound, and leaves a legal row |
| AgentOrchestrator.AdvanceSettles | internal/agentloop/loop.go:162-201 | one settled step leaves a legal row, leaves a terminal one untouched, and lowers the measure whenever it says to go on |
| AgentOutcomes.PausedRunsAreLeftAlone | internal/agentloop/loop.go:170-196 | ended runs are reported, a lost lease is an error, a spent wall clock ends the run, and a paused run stays as it is until its retry time has come |
| AgentOutcomes.ApprovalDecides | internal/agentloop/loop.go:472-495 | from a run that awaits approval: denied and expired fail it, approved takes the head call exactly as a running run's is taken, every other status leaves it alone |
| AgentOutcomes.NoToolProgressWithoutApproval | internal/agentloop/loop.go:472-495 | a step from such a run appends a tool message or counts another attempt only if it was told of the approval |
| AgentOutcomes.ToolAnswerDecides | internal/agentloop/loop.go:417-469 | what each answer of a tool leaves of history, queue, attempts, state and failure |
| AgentOutcomes.UnusableCallsEndTheRun | internal/agentloop/loop.go:401-413 | a head call that is unregistered or malformed ends the run without asking the tool |
| AgentOutcomes.ModelCallsAreAdmittedWithinBudgets | internal/agentloop/loop.go:321-342 | a model call is issued exactly when nothing is open, the context is there, and turns, attempts, context bytes and output tokens are left |
| AgentOutcomes.RefusedModelCallsEndTheRun | internal/agentloop/loop.go:321-342 | a model call refused for a budget ends the run over its budget, or abstained when only the conversation is too long |
| AgentOutcomes.ContextDecides | internal/agentloop/loop.go:295-319 | the context is compiled once and its text appended when there are items; a foreign or failed one ends the run |
| AgentOutcomes.ReplyDecides | internal/agentloop/loop.go:363-398 | an affordable reply is booked once, field by field, and completes the run or queues its calls in order; any other ends the run unbooked |
| AgentOutcomes.ModelFailureDecides | internal/agentloop/loop.go:348-362 | a failed call is retried after its delay exactly when retryable, silent and within the attempts; otherwise it ends the run |
| AgentOutcomes.FailuresSayWhereTheyArose | internal/agentloop/loop.go:411-461 | a recorded failure is retryable or has shown content only if provider or tool said so, and names its phase |
| AgentOutcomes.UnaskedAnswersAreIgnored | internal/agentloop/loop.go:162-201 | an answer to a question the step does not ask changes nothing about what it proposes |
| AgentOutcomes.AppendedMessagesAreAnswers | internal/agentloop/loop.go:305-465 | a step appends at most one message, and that is the answer to a question it asked |
| AgentOutcomes.CancellingEndsTheRun | internal/agentloop/loop.go:204-227 | every live run under its lease ends cancelled with nothing pending and the reason given |
| AgentOutcomes.WaitingParksTheRun | internal/agentloop/loop.go:232-254 | every live run under its lease is parked with its calls kept and no retry time |
| AgentOutcomes.CompletingEndsParkedRuns | internal/agentloop/loop.go:259-292 | a parked run succeeds with the text given, counting a turn and its tokens, exactly when that fits output and context |
| AgentOutcomes.SpentRunsEnd | internal/agentloop/loop.go:139-158 | a live run whose wall clock or phases are spent ends over its budget |
| AgentOutcomes.KeysIdentifyAttempts | internal/agentloop/loop.go:328-332 | two rows yield the same model request exactly when run, turn, step and attempts are the same |
| AgentOutcomes.DelaysDouble | internal/agentloop/loop.go:692-704 | the n-th delay is 100 ms doubled n - 1 times, at most ten seconds |
| AgentOutcomes.BudgetsNormalizeExactly | internal/contracts/agent.go:123-153 | a budget is admitted exactly when each limit is left out, and takes its default, or lies in its range, and stands |
| AgentOutcomes.CommitsSwapExactly | internal/store/agent_runs.go:241-460 | a row is replaced exactly when its version is the one read, an ended run keeps its state and the new row fits; its version rises by one |
| AgentProvenance.RowsWereProposed | internal/agentloop/loop.go:553-563 | over every execution, each version after the first is what some worker proposed from the version before it |
| AgentProvenance.NoExecutionRunsUnapprovedTools | internal/agentloop/loop.go:472-495 | over every execution, the call of a run that awaits approval is answered or tried again only by a worker that was told of the approval |
| AgentProvenance.EveryMessageHasItsSource | internal/agentloop/loop.go:305-465 | over every execution, every message after the goal is the answer some worker got to a question asked over exactly the messages before it |
| AgentSystem.EveryStateSatisfiesInv | internal/agentloop/loop.go:29-38 | the system invariant holds in every state of every interleaving of workers and crashes |
| AgentSystem.CommitExtendsLastRow | internal/store/agent_runs.go:241-460 | a commit that passes the version compare was prepared from the very row it replaces |
| AgentSystem.EveryRowIsWithinBudgets | internal/agentloop/loop.go:321-383 | every row ever durable is within all budgets and, while live, has the conversation shape |
| AgentSystem.HistoryOnlyGrows | internal/agentloop/loop.go:377-387 | a later row's history extends an earlier one's |
| AgentSystem.TerminalRunsAreFrozen | internal/agentloop/loop.go:170-171 | once a terminal row is durable no step of any worker changes the run again |
| AgentSystem.AttemptIdentifiesKey | internal/agentloop/loop.go:328-332 | two model requests ever sent with the same attempt number carry the same idempotency key, however stale the workers |
| AgentSystem.AtMostMaxModelStepsKeys | internal/agentloop/loop.go:328-332 | over every execution a run sends at most MaxModelSteps distinct model requests |
| AgentSystem.CommittedAttemptsUseFreshKeys | internal/agentloop/loop.go:366-394 | once an attempt is committed, no later row yields its key again |
| AgentSystem.SendersOfRetiredKeysCommitNothing | internal/agentloop/loop.go:328-394 | a stale worker that still sends a retired key commits nothing afterwards, whatever it is told and whoever acts in between |
| AgentReachability.ExternalOverrunIsReachable | internal/agentloop/loop.go:259-292 | an execution from a reservation to a run that has succeeded past its turn budget with a tool call pending |
| AgentSystem.ModelOutcomesCountTheAttempt | internal/agentloop/loop.go:334-376 | every write that follows a model request counts the attempt |
| AgentRecovery.FirstTouchDecides | internal/model/gateway.go:231-264 | the first crashed worker that reached the ledger decides what all later ones find there |
| AgentRecovery.ResumptionIsTransparentUnlessInFlight | internal/agentloop/loop.go:328-394 | after any crashes the resumed model step commits what the uncrashed one would have, if and only if the first call to reach the ledger was also finished; otherwise the run fails |
| AgentRecovery.ResumptionBeforeStartAsksAfresh | internal/model/gateway.go:231-264 | crashes before the ledger's start leave no trace: the provider is asked as if for the first time |
| AgentRecovery.DurableOutcomesAreTheRecordedOnes | internal/model/gateway.go:231-319 | in every execution with calls that start and finish at different steps, die, lose their final write or are refused, at most one worker is inside a call, and each durable model outcome is the one the ledger holds for its request, or a refusal |
| AgentRecovery.RefusedWhileInsideFailsTheRun | internal/model/gateway.go:257-261 | a second worker that sends a request while another is inside its call is refused, and what it then proposes is the run's failure |
| Projection.FoldConcat | internal/projection/task.go:69-173 | applying a log in two parts is applying it whole |
| Projection.RedeliveryIsHarmless | internal/projection/task.go:101-110 | redelivering an event that was folded succeeds, changes no row and is not counted as applied |
| Projection.RedeliveredBatchIsHarmless | internal/projection/task.go:101-110 | redelivering any stretch of the folded log leaves the rows as they are |
| Projection.NextEventIsNotSeen | internal/projection/task.go:105-110 | the next event of an increasing log is never taken for a duplicate |
| Projection.AppliedCountsEveryTaskEvent | internal/projection/task.go:116-147 | a row's applied count is the number of its task's events in the log |
| ProjectionReading.RowsTellTheLastEvents | internal/projection/task.go:69-173 | a task has a row exactly when the log has an event of it; status and position are the last event's; result and session are each what the last event to mention it says by its last delta on that path or, for the session, its reference |
| ProjectionReading.ReadingTakesLastDeltas | internal/projection/task.go:268-338 | reading succeeds exactly when every delta on the task's paths is a set that decodes and every status is the expected word; result and session are those of the last delta on their own path |
| ProjectionReading.RefusedExactly | internal/projection/task.go:69-137 | an event is refused exactly for a missing or foreign task or, unless its row has passed it, for an unsound delta, no status, or an unsound session reference that no delta replaces |
| ProjectionReading.AppliedEventDecidesItsRow | internal/projection/task.go:111-147 | an applied event decides its task's row alone: status by its type, result and session by what it says of them, or as they were |
| ProjectionReading.OthersChangeNoRow | internal/projection/task.go:70-110 | other events change no row and are reported as ignored, acknowledged or duplicate |
| ProjectionReading.EventsStandForTheirStatus | internal/projection/task.go:340-361 | the status and the expected word of each event type |
| Projection.TaskTable.ReadChange | internal/projection/task.go:268-317 | the loop over an event's deltas computes the specified reading, which `ReadingTakesLastDeltas` characterizes, and fails on the first bad delta |
| Projection.TaskTable.ApplyEvent | internal/projection/task.go:69-173 | the in-place update of the table is the specification's step, which `RefusedExactly` and `AppliedEventDecidesItsRow` characterize; a failed one leaves the rows alone |
| ProjectionRuntime.BoundedBatchSize | internal/projection/runtime.go:323-331 | sizes from 1 to 1000 are kept, larger ones become 1000 and the rest 100 |
| ProjectionRuntime.BatchKeepsFold | internal/projection/runtime.go:161-231 | a batch of the consumer the rows follow keeps rows and cursor together and moves on by the batch size or to the end |
| ProjectionRuntime.Runner.ApplyAll | internal/projection/runtime.go:186-205 | the loop's rows are the fold and its counters the applied and duplicate events |
| ProjectionRuntime.Runner.RunBatchWithLease | internal/projection/runtime.go:161-231 | a lease of another consumer or owner is refused; one batch writes rows and cursor together or nothing, reports what it read, and says whether events remain |
| ProjectionRuntime.Runner.Rebuild | internal/projection/runtime.go:252-305 | a rebuild takes its lease and ends, for every batch size, with rows, counters and cursor of one whole fold, reading each event once; interrupted, rows and cursor still agree; it fails only for a lost lease or an unappliable event |
| ProjectionRuntime.OutcomesConcat | internal/projection/runtime.go:282-300 | counters of consecutive batches add up to those of the whole |
| ProjectionRuntime.WholeLogHasNoDuplicates | internal/projection/runtime.go:252-305 | a log read from its beginning yields no duplicates and applies exactly the task events |
| ProjectionLeases.OnlyTheHolderWrites | internal/projection/runtime.go:161-231 | batch and reset succeed for the holder of the live lease with its owner and fence only, and leave log, leases and other cursors alone |
| ProjectionLeases.BatchReadsTheNextEvents | internal/projection/runtime.go:186-205 | a batch reads the next events after its cursor, none left out, at most its size |
| ProjectionLeases.LeasesAreGrantedExactly | internal/store/leases.go:53-128 | a lease is granted exactly when there is none, it has lapsed, or to its own holder; the fence starts at one and rises with every takeover |
| ProjectionSystem.DeliveryExtendsFold | internal/projection/task.go:101-147 | delivering any stretch of the log to rows folded further gives the fold up to whichever is further |
| ProjectionSystem.SharedTableFollowsFurthestCursor | internal/projection/task.go:101-110 | with any number of consumers and no reset, rows are the fold up to the furthest cursor in every state of every execution |
| ProjectionSystem.RowsFollowTheCheckpoint | internal/projection/runtime.go:161-282 | with one consumer per table, resets, takeovers and crashes included, rows are the fold of exactly the events up to its checkpoint |
| ProjectionSystem.CaughtUpMeansWholeFold | internal/projection/runtime.go:252-305 | however processing was split and interrupted, once the checkpoint has passed the log the rows are its fold |
| ProjectionSystem.CommitsCarryOrderedFences | internal/contracts/leases.go:16-18 | over every execution a consumer's commits carry non-decreasing fences |
| ProjectionSystem.SupersededOwnersNeverCommit | internal/projection/runtime.go:307-321 | a token below the current fence changes nothing in any later state |
| ProjectionSystem.TakeoverRaisesFence | internal/store/leases.go:53-128 | taking over a lapsed lease raises the fence and grants the new token; a live lease is not taken |
| ProjectionSystem.ResetIsSafeOnlyAlone | internal/projection/task.go:177-190 | after a reset the rows still are the fold up to the furthest remaining cursor exactly when that cursor has passed no task event |
| ProjectionSystem.ResetBreaksASharedTable | internal/projection/runtime.go:274-279 | an execution of two consumers, from an empty database, whose reset leaves the rows behind the second cursor |
| ProjectionSharing.FoldIsPerTask | internal/projection/task.go:69-173 | what a log makes of one task's row depends on that row alone |
| ProjectionSharing.RebuildSurvivesForeignBatch | internal/projection/runtime.go:252-305 | when another consumer's batch slips in before a rebuild has caught up, the rebuild still succeeds, and leaves the fold of the whole log exactly when no task has events both in the part not yet rebuilt before that batch and in the batch |
| ChangeInputs.InputBecomesItsOperation | internal/change/planner.go:333-405 | for each of the five kinds, which inputs the snapshot admits, and every field of the operation an input becomes: kind, path, destination, id, ordinal, expected hash, mode, content hash and size |
| ChangeInputs.PlanGivesEachInputItsOperation | internal/change/planner.go:312-426 | a request is planned as given operations exactly when its inputs are admitted one by one, touch no common path and fit the budgets, and each operation carries what its input asks for |
| ChangeInputs.RequestsArePlannedExactly | internal/change/planner.go:312-426 | whether a request is planned is decided by its inputs and the snapshot alone |
| ChangeInputs.DefaultIdsAreDistinct | internal/change/planner.go:343-345 | ids given to unnamed operations spell their number and never clash |
| ChangePlanning.PlanAcceptsExactly | internal/change/planner.go:312-426 | planning input by input with a seen-set accepts exactly the requests whose inputs are accepted one by one and whose operations touch no common path |
| ChangePlanning.ExecutionOrderIsCanonical | internal/change/planner.go:604-613 | every listing of disjoint operations is executed, and hashed, in the same order |
| ChangePlanning.PredictionIsPointwise | internal/change/planner.go:626-647 | each operation decides its own paths from the snapshot and every other path keeps its entry |
| ChangePlanning.PredictionIgnoresOrder | internal/change/planner.go:626-647 | disjoint operations predict the same tree in every order |
| ChangeExecution.OnlyIdempotentEffectsRepeat | internal/change/planner.go:544-577 | after its effect an operation passes its precondition again exactly when it is a chmod or replaces content by itself, and then repeating it changes nothing |
| ChangeExecution.StoppedRunIsAPrefix | internal/change/planner.go:438-466 | whatever stops a run, the tree is that of a complete run over the operations it counts |
| ChangeExecution.DryRunFindsFirstConflict | internal/change/planner.go:446-449 | a dry run stops at the first operation whose precondition fails on the tree as it is, and changes nothing |
| ChangeExecution.DryRunForetellsTheRealRun | internal/change/planner.go:438-466 | on any tree, disjoint operations pass and stop in a dry run exactly as in the real run |
| ChangeExecution.FinishedRunIsPointwise | internal/change/planner.go:475-541 | a finished run leaves on each footprint what that operation alone makes of the original tree |
| ChangeExecution.RealRunIgnoresOrder | internal/change/planner.go:438-466 | disjoint operations that all apply in one order apply in every order with the same tree |
| ChangeExecution.RerunFinishesOrTouchesNothing | internal/change/planner.go:438-472 | after a crash behind any number of operations a second run ends as the uncrashed one if those were idempotent, and otherwise stops in a conflict at the first that was not, the tree untouched |
| ChangeOutcome.PlannedPacketIsGrounded | internal/change/service.go:223-250 | the service's snapshot covers every path its planned operations touch, and each operation meets its preconditions there |
| ChangeOutcome.PlannedContentsResolve | internal/change/planner.go:355-381 | storing the planned contents makes every operation runnable exactly when each hash to be written is the last one written under some id |
| ChangeOutcome.DistinctWritesLast | internal/change/planner.go:342-345 | with distinct operation ids every write lasts |
| ChangeOutcome.LiveFilesMeetPrediction | internal/change/planner.go:626-656 | after a full run the live files are the predicted ones exactly when no operation asks for more than permission bits |
| ChangeOutcome.FullListMeetsPrediction | internal/change/planner.go:699-746 | the full observed list is the predicted one exactly when, besides, nothing is deleted or renamed |
| ChangeOutcome.PlannedPacketApplies | internal/change/planner.go:430-473 | a packet planned on the mounted tree meets no conflict, applies every operation, touches no other path, and is verified or sent to recovery by exactly that condition |
| ChangeOutcome.DryRunForetellsApplication | internal/change/planner.go:430-473 | dry and real application report the same conflict, and an interrupted one leaves the effect of exactly the operations it counts |
| ChangeOutcome.SecondApplicationFinishesOrTouchesNothing | internal/change/service.go:106-124 | applying again after a crash reports as if there had been none, or conflicts and leaves the tree alone |
| ChangeOutcome.PartialEffectIsFlaggedUnlessConflicted | internal/change/service.go:114-124 | a failed application that changed files is flagged for recovery exactly when a dry run of it reports no conflict |
| ChangeOutcome.PartialEffectCanBeLabelledConflicted | internal/change/service.go:83-124 | a concrete packet with one of two files created whose status is conflicted |
| ChangeEffects.AppliedRequestDoesWhatItAsks | internal/change/planner.go:312-541 | a request planned on a tree and applied to it leaves there, input by input, the content, mode, move or absence it asks for, and every other path as it was |
| ChangeEffects.TreesArePlannedExactly | internal/change/service.go:234-251 | a request is planned on a tree exactly when every path it names is safe and it is plannable on what the tree holds there |
| ChangeEffects.PreconditionsAreExact | internal/change/planner.go:544-577 | an operation passes exactly where its path is as it expects and its destination is free; a conflict names the path at fault and what was found |
| ChangeEffects.OperationsRunByOrdinal | internal/change/planner.go:604-613 | operations run by ascending ordinal, then path, each once |
| ChangeEffects.StatusTellsTheRun | internal/change/service.go:111-148 | each reported status holds exactly of the runs it names, and a failed one has left the tree as it was |
| ChangeExecutor.PlanRequest | internal/change/planner.go:312-426 | the planner's loop with its seen-set, totals and contents computes the specified plan |
| ChangeExecutor.PredictTree | internal/change/planner.go:626-647 | editing a copy of the snapshot step by step computes the specified prediction |
| ChangeExecutor.Mount.Effect | internal/change/planner.go:475-541 | the in-place effect of one operation on the mounted tree; a failed one leaves it alone |
| ChangeExecutor.Mount.ApplyPacket | internal/change/planner.go:430-473 | applying a packet in place gives the specified report and tree |
| GatewayStream.SinkShowsTheWindow | internal/model/gateway.go:147-180 | the buffering sink shows nothing before content, then up to 256 buffered events and everything on to the first event past the output limits |
| GatewayStream.WindowIsWithin | internal/model/gateway.go:155-164 | what is shown stays within the byte and token limits |
| GatewayStream.TryTextIsTheWindows | internal/model/gateway.go:181-207 | the delivered text of an attempt is its window's, whatever its end, and within the limits |
| GatewayStream.OneProviderIsLegal | internal/model/gateway.go:136-217 | attempts on one provider, from any attempt on, follow each other only after a silent failure the policy allows to retry, at most MaxAttempts of them |
| GatewayStream.AllProvidersAreLegal | internal/model/gateway.go:126-224 | so do attempts across providers, in the order in which these are listed, and the end of the call follows from the last attempt |
| GatewayStream.RefsAreDistinctAndComplete | internal/model/gateway.go:353-371 | the references tried are the non-blank ones given, each once, in the order of first mention |
| GatewayStream.EveryCallIsLegal | internal/model/gateway.go:125-228 | every call's attempts are legal, come in the order of the references and number at most the distinct references times MaxAttempts |
| GatewayStream.CallerHearsOneAttempt | internal/model/gateway.go:103-229 | the caller's sink hears the last attempt only, earlier ones leave no trace, none follows shown content, and the text respects the limits |
| GatewayStream.ShownContentIsReported | internal/model/gateway.go:203-223 | once content was shown the call ends with that attempt's reply or with its failure flagged as having emitted content |
| GatewayStream.NoProviderIsSkipped | internal/model/gateway.go:128-223 | a failure without content means every registered reference was tried |
| GatewayStream.AnswersFitTheRequest | internal/model/gateway.go:415-441 | a call that answers gives its last provider's content, within every byte, token and cost limit, with usage filled in, and only from a stream that never exceeded the limits |
| GatewayPersistence.RetryableFailuresAreRetried | internal/model/gateway.go:136-217 | a failure without content that is retryable, admitted and below MaxAttempts is followed by the next attempt on its provider whenever the wait succeeds, unless that attempt's ledger write fails the call |
| GatewayPersistence.GivingUpTakesAllAttempts | internal/model/gateway.go:136-217 | a call that leaves a provider with such a failure has made MaxAttempts attempts on it, in a row |
| GatewayPersistence.NoneIsPassedOver | internal/model/gateway.go:126-224 | whoever is tried, every registered reference listed before it was tried before |
| GatewayPersistence.CallsReportTheirLastFailure | internal/model/gateway.go:126-228 | a call that gives up reports its last attempt's failure, or that of the wait after it, or that the last reference names no registered provider |
| GatewayPersistence.CallersAreToldTheEnd | internal/model/gateway.go:203-228 | the caller is told the accepted reply, the failure given up with, or that of the failed ledger write |
| GatewayPersistence.AttemptDeliversExactly | internal/model/gateway.go:147-207 | the events delivered by an attempt, accepted or not, shown or not, with what was held back and the completion or failure event |
| GatewayPersistence.StreamsAreCutAtTheLimit | internal/model/gateway.go:155-164 | a stream is cut at the first event that brings the counted bytes or tokens over a limit, and nowhere else |
| GatewayPersistence.AnswersAreJudgedExactly | internal/model/gateway.go:415-441 | a reply is accepted exactly when the stream fitted and a well-formed reply with substance fits once its usage is filled in; a refused one is not retryable |
| GatewayPersistence.FailuresAreClassified | internal/model/gateway.go:443-471 | code, retryability and content flag of every kind of error |
| GatewayCall.CollectRefs | internal/model/gateway.go:353-371 | the loop with its seen-set collects the specified references |
| GatewayCall.CallLedger.Start | internal/store/model_calls.go:54-147 | a new key is inserted as running; a known one returns its entry or a hash conflict and changes nothing |
| GatewayCall.CallLedger.Attempt | internal/store/model_calls.go:150-169 | counts an attempt of a running call only |
| GatewayCall.CallLedger.Finish | internal/store/model_calls.go:174-314 | concludes a running call with the larger attempt count; a concluded one never changes |
| GatewayCall.Caller.Receive | internal/model/gateway.go:147-180 | the sink closure, event by event, is the specified sink |
| GatewayCall.Caller.Attempt | internal/model/gateway.go:181-207 | one attempt delivers and judges as specified |
| GatewayCall.Caller.TryProvider | internal/model/gateway.go:136-217 | the retry loop makes the specified attempts and counts each in the ledger |
| GatewayCall.Caller.TryEach | internal/model/gateway.go:126-224 | the fallback loop makes the specified call |
| GatewayCall.Caller.Execute | internal/model/gateway.go:231-319 | a fresh key runs the call and records one terminal entry whose attempt count is that of the call; a known key is refused or replayed and no provider is asked |
| GatewaySystem.OneCallInvokesPerKey | internal/model/gateway.go:48-97 | however callers interleave, all provider invocations for a key belong to one call |
| GatewaySystem.LedgerCountsInvocations | internal/model/gateway.go:266-319 | a key's invocations are bounded by its references and attempts, and its entry counts them exactly, but that an attempt whose ledger write failed the call is counted too, stored or not, at the latest when the entry concludes |
| GatewaySystem.OutcomesAgree | internal/model/gateway.go:485-493 | everyone given an outcome for a key is given the same one |
| GatewaySystem.ConcludedIsFinal | internal/store/model_calls.go:203-208 | once concluded, an entry never changes and no provider is called for its key again |
| RetrievalQuality.RankingIgnoresPackOrder | internal/eval/retrieval_quality.go:205-229 | the ranking does not depend on the order of items in the pack |
| RetrievalQuality.CanonicalIsDistinct | internal/eval/retrieval_quality.go:522-535 | canonical gold has no repetitions and the same hashes |
| RetrievalQuality.RelevantIsBounded | internal/eval/retrieval_quality.go:244-249 | a ranking without repetitions holds no more relevant hashes than gold or places |
| RetrievalQuality.FirstRankIsFirst | internal/eval/retrieval_quality.go:250-256 | the first rank is that of the first gold hash, and zero when there is none |
| RetrievalQuality.FrontLoadingIsBest | internal/eval/retrieval_quality.go:283-305 | for any decreasing positive weights, the gain is at most that of the same hits moved to the front, with equality only when they are there |
| RetrievalQuality.NdcgIsNormalized | internal/eval/retrieval_quality.go:283-305 | nDCG lies in [0, 1] and is 1 exactly when the first places, as many as gold can fill, all hold gold |
| RetrievalQuality.DriftInUnit | internal/eval/retrieval_quality.go:307-335 | rank drift lies in [0, 1] for every baseline |
| RetrievalQuality.MetricsAreInUnit | internal/eval/retrieval_quality.go:231-281 | all six metrics of every pack, gold set and baseline lie in [0, 1] |
| RetrievalQuality.ValidationRejectsOnlyContradictoryCost | internal/contracts/observability.go:740-771 | the scorer's validation of its own metrics rejects an admitted case exactly when its cost is called both known and estimated |
| RetrievalRanking.RankingIsBestFirst | internal/eval/retrieval_quality.go:205-229 | packs with an inadmissible item are refused; any other ranking has each hash once, by the best score of its items, then the smaller source reference, then the smaller hash |
| RetrievalRanking.BestFirstIsUnique | internal/eval/retrieval_quality.go:205-229 | there is one such ranking only |
| RetrievalRanking.CanonicalAscends | internal/eval/retrieval_quality.go:522-535 | canonical gold is listed in ascending order |
| RetrievalRanking.MetricsCountHits | internal/eval/retrieval_quality.go:231-281 | hit, precision, recall and reciprocal rank count the hits among the first k places, per place and per gold hash, and the place of the first |
| RetrievalRanking.GainOfOneMoreHit | internal/eval/retrieval_quality.go:287-292 | a hit adds its own place's weight to the gain |
| RetrievalRanking.IdealIsAllHits | internal/eval/retrieval_quality.go:293-300 | the ideal gain is that of as many places, all hits |
| RetrievalRanking.NdcgIsAShare | internal/eval/retrieval_quality.go:283-305 | nDCG is the share of the ideal gain |
| RetrievalRanking.OneHashDrifts | internal/eval/retrieval_quality.go:316-333 | a gold hash drifts by the distance of its places, k + 1 standing for none among the first k, in units of k |
| RetrievalRanking.DriftIsTheMean | internal/eval/retrieval_quality.go:307-335 | rank drift is the mean over gold, zero without gold or baseline |
| RetrievalRanking.CasesAreScoredExactly | internal/eval/retrieval_quality.go:124-174 | which cases are scored, and with which k |
| RetrievalScorer.RankEvidence | internal/eval/retrieval_quality.go:205-229 | the loop ranks and drops repetitions as specified, which `RankingIsBestFirst` characterizes, and fails on any inadmissible item |
| RetrievalScorer.NdcgAtK | internal/eval/retrieval_quality.go:283-305 | the two summing loops compute the specified nDCG |
| RetrievalScorer.MeasureDrift | internal/eval/retrieval_quality.go:307-335 | the loop over gold with its rank map computes the specified drift |
| RetrievalScorer.ScoreMetrics | internal/eval/retrieval_quality.go:231-281 | the scoring loops compute the specified metrics |
| RetrievalScorer.SummarizeRetrieval | internal/eval/retrieval_quality.go:391-430 | every column of a summary, latency, queries and cost included, is the mean of its cases and stays in [0, 1] when they do; unknown costs are counted |
| Chunker.Chunk | internal/ingest/chunker.go:25-55 | bad sizes and non-text are refused; otherwise the windows tile the text, each a whole number of steps in, with line ranges that count newlines |
| Chunker.WindowsRebuildTheText | internal/ingest/chunker.go:39-53 | the first step of every window but the last, then the last window, is the text |
| Chunker.WindowsAdvance | internal/ingest/chunker.go:39-53 | windows before the last are full, overlap their successor by exactly the overlap, and each brings a new rune |
| Chunker.WindowsSayWhereTheyAre | internal/ingest/chunker.go:39-53 | every window is the stretch of text it says, and its lines are one more than the newlines before its ends |
| Chunker.WindowsAreCounted | internal/ingest/chunker.go:37-38 | the number of windows is the rounded-up quotient of what lies past the overlap by the step, and at least one |
| Chunker.TilingIsUnique | internal/ingest/chunker.go:25-55 | a text has one tiling, so chunks are a function of it |
| Watcher.DurationsAreExactInRange | cmd/fornix-watcher/main.go:240-260 | a delay in milliseconds is the duration meant exactly when its nanoseconds fit a 64-bit word |
| Watcher.BackoffDoublesUntilItWraps | cmd/fornix-watcher/main.go:254-260 | the duration waited is the capped doubling delay exactly when that fits a duration and the attempt is one of the first 54, or the sixtieth; on all other attempts past the 54th the retry is immediate |
| Watcher.NoChangeIsLost | cmd/fornix-watcher/main.go:230-293 | however events and the start-up walk arrive among drains, the one at shutdown included, a file's latest sighting has ended or is pending or in process, with its own delete flag |
| Watcher.DebounceIsKept | cmd/fornix-watcher/main.go:240-285 | no drain before the one at shutdown takes a change until its file's latest sighting has rested for the debounce, however often it was retried |
| Watcher.EventsEndByProcessing | cmd/fornix-watcher/main.go:313-344 | a sighting ends only by being processed with success or a permanent error |
| Watcher.RequeueLowersNothing | cmd/fornix-watcher/main.go:254-275 | taking a failed change back keeps a newer event as it is and never lowers a retry count |
| WatcherRetries.ProcessingEndsOrRetries | cmd/fornix-watcher/main.go:313-344 | no answer, a server's failure or a failed indexer on a file still there leaves the file pending; everything else ends its sighting |
| WatcherRetries.AttemptsCountFailures | cmd/fornix-watcher/main.go:230-275 | over every execution, what is pending or in process has failed just as often in a row as its count says |
| WatcherRetries.RetriesWaitForTheirStreak | cmd/fornix-watcher/main.go:254-275 | over every execution, a failed change is tried again after the backoff for the failures it has in a row, unless a newer event waits |
| WatcherRetries.SightingsFallDueRested | cmd/fornix-watcher/main.go:230-250 | a sighted file falls due when it has rested for the debounce, keeping its count |
| WatcherRetries.DrainsTakeWhatIsDue | cmd/fornix-watcher/main.go:277-309 | a drain takes exactly what is due, and the one at shutdown everything |
| Watcher.FileWatcher.Enqueue | cmd/fornix-watcher/main.go:230-250 | a new event replaces the pending one and inherits its attempts |
| Watcher.FileWatcher.RequeueWithBackoff | cmd/fornix-watcher/main.go:254-275 | the in-place requeue is the specified one |
| Watcher.FileWatcher.Rescan | cmd/fornix-watcher/main.go:415-423 | a walked file overwrites whatever was pending for it |
| Watcher.FileWatcher.TakeReady | cmd/fornix-watcher/main.go:277-305 | exactly the due changes, or at shutdown all, are taken out of the queue, in some order |
| Watcher.FileWatcher.ProcessOne | cmd/fornix-watcher/main.go:313-344 | transient failures go back to the queue, everything else leaves it |
| Watcher.FileWatcher.Drain | cmd/fornix-watcher/main.go:277-309 | a drain takes the due changes, or at shutdown all, and processes each once |
| Policy.ScopesAreCanonical | internal/contracts/policy.go:243-276 | approval scopes become the distinct non-empty names in order |
| Policy.NormalizeIsIdempotent | internal/contracts/policy.go:300-360 | normalizing a normalized pack changes nothing |
| Policy.NormalizeIgnoresOrder | internal/contracts/policy.go:341-347 | packs with the same rules and scopes in any order normalize, and hash, alike |
| Policy.HashBeforeNormalizing | internal/contracts/policy.go:362-387 | hashing before normalization gives the normalized hash exactly when the schema version is set and nothing is filled in, respelled, dropped or switched on |
| Policy.HashCanChangeByNormalizing | internal/contracts/policy.go:304-306 | a pack complete but for its schema version is accepted with another hash, and refused when it carries its own |
| PolicyResolution.ResolvedValidators | internal/policy/resolver.go:77-124 | a resolution runs exactly the validators of the policy, the mandatory floor and the caller, once each, all registered, within the policy's limit |
| PolicyResolution.ResolutionOnlyTightens | internal/policy/resolver.go:211-299 | no limit exceeds the policy's, each is the caller's where set, approval is at least as strict as either asks, and automatic exactly when nothing demands more |
| PolicyResolution.ValidatorsFitTheTightenedLimit | internal/policy/resolver.go:119-125 | a resolution holds as many validators as pack, floor and caller name between them, and fits its own limit exactly when the caller set none or one that admits that many |
| PolicyResolution.TightenedLimitCanBeExceeded | internal/policy/resolver.go:119-125 | a concrete pack and request resolved to two validators under a limit of one |
| PolicyResolution.ResolveIgnoresOrder | internal/policy/resolver.go:58-145 | a resolution does not depend on the order of rules, scopes, requested validators or operation types |
| PolicyAdmission.PacksNormalizeExactly | internal/contracts/policy.go:300-360 | which packs normalize, and that the normal form says what the pack says, with defaults, order and scopes made explicit |
| PolicyAdmission.RequestsResolveExactly | internal/policy/resolver.go:58-145 | a request resolves exactly when bounded, the pack is the one asked for, every named validator is registered and they fit, no limit is raised and neither side denies |
| PolicyAdmission.ApprovalIsAskedExactly | internal/policy/resolver.go:255-299 | a resolution is automatic exactly when the pack is, the caller asks for no more, and no scope covers the operation or one of its types, or a request that names neither |
| PolicyAdmission.ValidatorsAreListedInOrder | internal/policy/resolver.go:115-120 | validators are listed by id, then version |
| PolicyResolution.Collect | internal/policy/resolver.go:77-93 | the add loop keeps first occurrences and fails on an unregistered reference |
| PolicyResolution.TightenBudget | internal/policy/resolver.go:211-253 | the loops refuse a widening request and overlay the limits it sets |
| PolicyResolution.RequiresApproval | internal/policy/resolver.go:279-299 | the nested loops decide whether a scope demands approval |
| PolicyResolution.DecideApproval | internal/policy/resolver.go:255-277 | the approval decision, step by step, is the specified one |
| PolicyResolution.ResolvePack | internal/policy/resolver.go:58-145 | the resolver computes the specified resolution |

## Left out

- Postgres and SQL: a table is a value, a transaction is one atomic step, row locks are the order of steps.
- SHA-256, JSON and random ids: content hashes and keys are injective constructors; nothing is claimed about digests, the integrity check of a stored state hash, or sizes of encoded documents.
- Strings are compared, not trimmed or folded: inputs are the trimmed values the code works on; bounds on lengths of ids, paths and messages are not modelled, nor is redaction.
- Directories, symbolic links, temporary files and fsync: a tree is a flat map, a write is atomic, and mode bits other than permissions are not stored.
- The manifest hash of a snapshot, which hashes the previously stored one, and the expected mode of an operation, which no code reads.
- Sequence numbers are allocated in commit order; a transaction that commits late under a smaller number is not modelled.
- Two keys of one model call: the ledger is keyed by idempotency key alone, without the request id's own uniqueness.
- A gateway without a recorder, the input-size check of a request, and provider, status and retry-after fields of failures.
- AgentOrchestrator.RunStore.Commit: leaves out the store's own lease and task-fence checks, redaction, and limits on encoded sizes; a worker's lease is one answer of its environment.
- ChangeOutcome.PlannedPacketApplies: files are readable; a mode without the owner's read bit makes a process that is not root fail to hash the result, so the packet ends as needing recovery.
- ChangeInputs.InputBecomesItsOperation: a destination given with anything but a rename stays in the packet, where no code reads it; the model drops it.
- Repeated operation ids are planned as they are; the store refuses them later by the key of its table.
- Uniqueness of tool idempotency keys, which follow call ids chosen by the model.
- Chunker.Chunk: bytes are decoded before the call, absent when they are not UTF-8.
- Watcher.NoChangeIsLost: says nothing of what is still pending when the process ends, which is gone; the start-up walk counts as a sighting of the file, so a pending deletion it overwrites is superseded.
- Policy resolution without a pack, lifecycle and storage of policies, and the limit on a policy document's size.
- Gates and regression findings of retrieval scores, and gold hashes that are not canonical, which are refused before scoring.
- Floating point: costs, scores and metrics are reals.
- HTTP providers, the command line, Docker, profiles, disclosure, identity tables, receipts and observability records.

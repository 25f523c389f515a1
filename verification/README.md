# Verification model of the agent runtime

This project models the parts of the runtime where state is kept in more than one place or changed by
more than one thread, and proves what they are there for.

- **Event projection** (`AgentEvents`, `Projector`, `ProjectorLoops`, `StatusHistory`, `ProcessIndex`,
  `TimelineRows`, `ApprovalRows`, `AnswerText`). Events are folded into a projection. Status and timeline are shown to be
  readings of the whole history, the process groups to be an index of the timeline, and streamed answer text
  to be conserved.
- **Event service** (`EventService`). The projection is kept step by step in front of a repository. Loads are
  not atomic; every interleaving of loads, appends and restarts keeps memory equal to the stored log.
- **Agent manager** (`AgentRuns`, `Budget`, `ResourceLocks`, `BatchLocks`, `ParallelExecute`, `WorkerRuns`,
  `SpawnRace`, `LostWakeups`). Each critical section is one atomic step of a transition system; the invariants
  hold in every interleaving. The classes with the same sections are proved to take exactly these steps.
- **Final-text checker** (`Lexers`, `Delimiters`, `Taint`). Two lexers over one mode machine, delimiter
  matching and splitting, and the bounded search through nearest assignments.
- **Canonical forms** (`Sorting`, `SortedStrings`, `Json`, `HashJson`, `ActionInput`, `ToolSurface`, `TurnAssembly`).
  Normalisers that must be fixed points and must identify exactly what they are meant to identify.
- **Agent registry and index** (`Registry`, `AgentIndex`). Two maps over one set of definitions, and a ranked
  listing cut to size.

`Wrappers` and `Text` hold result types and the string operations the code takes from its libraries.

Values that the code passes by value or copies are datatypes with functions; objects updated in place are
classes whose methods are proved against those functions; loops are methods. Clocks, outcomes of repository
calls, runner results, hashes, encodings and scores are parameters, so every result holds for all of them.

Where the code does less than one might expect of it, the model follows the code, the exact condition is
proved and a failing input is given:

- `AgreementAfterAppend`, `RefusedEventClosesApprovals`, `RetryStoresTwice`: a refused event has closed approval
  rows through a shared slice; a failed save leaves an event stored twice.
- `BuiltIsFixed`, `ValidExactlyWhenRefsStay`, `BlankReferenceIsRejected`: source references that are blank only are
  hashed as an empty list first and as no list when the assembly is built again.
- `FailureRestores`, `LeaseIsLost`, `ConflictingKeysAreRefused`: rollback drops a lease held before, and a batch
  cannot hold a read and a write on one resource.
- `ResultsAreCompleteExactly`, `RefusedLaterLosesResults`: the spawning loop of `Execute` writes a failure result
  without the lock the workers use (`internal/agentmgr/parallel.go:245-256`). With a worker that cannot be
  spawned, for instance because its id is taken, listed behind one that can, this is a data race: when the
  loop's write falls into one of a worker, results can be lost, or the process is stopped.
- `StuckExactly`, `ManyCanStrand`: the token a worker leaves with its slot (`internal/agentmgr/parallel.go:183-190`) can
  be taken by a worker that was not promoted. `Execute` says it blocks until all workers complete; with more than
  twice as many workers as slots it can block for ever.
- `FailedIsLeftOnlyByLateFinish`, `FailedCanBecomeCompleted`: a late finish overwrites `failed`.
- `WriteKeepsIndex`, `RowUnderTwoTurns`: a row written under two turns.
- `ReadinessMeansAllReady`, `DuplicateGoesUnnoticed`: duplicate tool identities.
- `DeterminedExactlyWhenSelfSimilar`, `CollidingKeysAreAmbiguous`: keys that collide after trimming.
- `UnregisterUndoesRegister`: untrimmed names. `LimitCombinesBoth`: a negative character limit switches the token
  limit off.

## Model

| member | source | states |
|---|---|---|
| `StatusHistory.StatusMeansHistory` | internal/appui/agent_event_projector.go:15-107 | after any accepted history the status is the declarative reading of the whole history: blocked while some approval is open, else working while some turn, agent or stream is open, else failed when the last deciding turn event was a failure, else reviewing once a diff was seen, else idle |
| `StatusHistory.RecordedIsLive` | internal/appui/agent_event_projector.go:153-223 | an id is in a liveness set after a replay exactly when some event opened it and no later event closed it; a terminal turn closes every agent, stream and approval |
| `StatusHistory.LiveStep` | internal/appui/agent_event_projector.go:254-272 | what is open after one more event: newly opened, or open before and not closed by it |
| `StatusHistory.ApplyFacts` | internal/appui/agent_event_projector.go:15-63 | rows, answers and texts never influence the status: its inputs evolve by the event alone |
| `ProcessIndex.IndexHolds` | internal/appui/agent_event_projector.go:805-814 | if no (row id, kind) is written under two turns, then after the whole history each turn's process group is exactly the timeline filtered to that turn's non-turn rows, in timeline order |
| `ProcessIndex.WriteKeepsIndex` | internal/appui/agent_event_projector.go:380-383 | a single write keeps groups and timeline in agreement if and only if it does not move a row between turns (or moves a turnless last row without leaving old text behind) |
| `ProcessIndex.RowUnderTwoTurns` | internal/appui/agent_event_projector.go:514-548 | any two accepted evidence events that report one row for two turns leave the first turn's group showing a row the timeline has moved away |
| `ProcessIndex.SomeIndexBreaks` | internal/appui/agent_event_projector.go:514-548 | a concrete accepted history of two events after which group and timeline disagree |
| `ProcessIndex.RowsOfUpsert` | internal/appui/agent_event_projector.go:805-830 | filtering by turn commutes with insert-or-merge, so order and merged texts agree in both views |
| `ProcessIndex.CompletedSound` | internal/appui/agent_event_projector.go:225-252 | completing the running activity rows of a finished turn changes timeline and group alike |
| `ProcessIndex.UpsertKeepsUnique` | internal/appui/agent_event_projector.go:805-814 | the timeline never holds two rows with one id and kind |
| `TimelineRows.TimelineShowsLatest` | internal/appui/agent_event_projector.go:805-830 | after any accepted history the timeline lists every row written, once each and in the order of first writes; each row belongs to the turn of its last write and shows, field by field, the last non-blank text written to it |
| `TimelineRows.UpsertReads` | internal/appui/agent_event_projector.go:805-830 | inserting or merging one row keeps that reading of the timeline |
| `TimelineRows.CompletedReads` | internal/appui/agent_event_projector.go:225-252 | completing the activity rows of a finished turn changes no key, turn or text |
| `AnswerText.StreamedIsArchivedThenRunning` | internal/appui/agent_event_projector.go:397-441 | conservation: all text streamed to a turn equals its archived pieces in order followed by the text still running |
| `AnswerText.EntriesCarryPieces` | internal/appui/agent_event_projector.go:417-436 | the archive rows carry exactly the non-blank pieces, trimmed, in order |
| `AnswerText.ArchivedTextStays` | internal/appui/agent_event_projector.go:417-441 | every non-blank archived piece is still on the timeline at the end of the history, with its text |
| `AnswerText.ArchiveIDsDiffer` | internal/appui/agent_event_projector.go:406-419 | archive ids of one turn are distinct for distinct trimmed event ids, and never equal across the two archive kinds |
| `AnswerText.StepFinals` | internal/appui/agent_event_projector.go:698-751 | an event changes the running answers only by completing, streaming or archiving, whatever else it does |
| `ProjectorLoops.UpsertTimelineEntry` | internal/appui/agent_event_projector.go:805-814 | the loop merges into the first row with the same id and kind, or appends |
| `ProjectorLoops.CompleteActivity` | internal/appui/agent_event_projector.go:225-252 | the in-place loop completes exactly the running activity rows of the turn |
| `ProjectorLoops.CloseApprovals` | internal/appui/agent_event_projector.go:264-270 | the loop closes exactly the rows of pending approvals, in the array itself, so every projection that shares it sees them closed |
| `ProjectorLoops.ResolveTurnTimelineRowID` | internal/appui/agent_event_projector.go:292-310 | the turn's existing row is found by the first match, before any fallback id |
| `ProjectorLoops.NormalizePlanSteps` | internal/appui/agent_event_projector.go:486-512 | the loop computes the normal form of a plan |
| `ProjectorLoops.AtMostOneRunning` | internal/appui/agent_event_projector.go:486-512 | a normalised plan has at most one running step |
| `ProjectorLoops.ReplayEvents` | internal/appui/agent_event_projector.go:77-91 | replay stops at the first rejected event, reports its error and returns the projection of exactly the events before it |
| `ProjectorLoops.FailureIsFinal` | internal/appui/agent_event_projector.go:77-91 | once a prefix is rejected, the whole list is rejected with the same error |
| `EventService.EveryRunIsSound` | internal/appui/agent_event_service.go:45-97 | in every interleaving of loads, appends and restarts over a repository whose saves succeed when its appends do, each loaded session equals its stored log: numbers 1..n, distinct ids, the seen-map is the log by id, and the projection is the replay of the log, exactly when every failed append was clean and up to the closing of approval rows otherwise |
| `EventService.AppendMirrors` | internal/appui/agent_event_service.go:65-89 | an unseen event goes to repository and memory at once, with the next number |
| `EventService.RepeatIsReturned` | internal/appui/agent_event_service.go:60-63 | a repeated event id returns the stored event and changes nothing |
| `EventService.AgreementAfterAppend` | internal/appui/agent_event_service.go:56-89 | memory and repository agree after an append if and only if the id was seen, both calls succeed, or the append fails and the event closes no pending approval row that shows something else |
| `EventService.RefusedEventClosesApprovals` | internal/appui/agent_event_projector.go:264-270 | a terminal turn event whose append fails still shows the pending approvals closed in memory, while log, repository and liveness say they are pending |
| `EventService.AgentEventService.CloseShared` | internal/appui/agent_event_projector.go:254-272 | the trace an applied event leaves in the kept projection: its approval rows are closed in the shared array |
| `ApprovalRows.StepAgrees` | internal/appui/agent_event_projector.go:254-272 | projections that differ only in how approval rows are closed still do after any event |
| `ApprovalRows.KindApart` | internal/appui/agent_event_projector.go:660-696 | nothing in a projection but the approval rows depends on the approval rows |
| `EventService.RetryStoresTwice` | internal/appui/agent_event_service.go:76-89 | after a failed save, retrying the event stores it twice under one number |
| `EventService.StaleLoaderIsIgnored` | internal/appui/agent_event_service.go:230-241 | a slower loader changes no session that was loaded meanwhile |
| `EventService.RestartRebuilds` | internal/appui/agent_event_service.go:210-228 | a restarted service that loads again has the same log and seen-map and the replay of the log, which is where it was exactly when it showed no row closed by a lost event |
| `EventService.AfterIsSuffix` | internal/appui/agent_event_service.go:188-192 | the events after number k are the log without its first k events |
| `EventService.AgentEventService.Append` | internal/appui/agent_event_service.go:56-89 | the critical section as code: result and new state of the session, all other sessions unchanged |
| `EventService.AgentEventService.Extend` | internal/appui/agent_event_service.go:65-89 | a rejected event leaves everything alone, an accepted one at least its trace in the approval rows |
| `EventService.AgentEventService.Commit` | internal/appui/agent_event_service.go:76-89 | the order of the two repository calls and of the memory update, with what each failure leaves behind |
| `EventService.AgentEventService.Install` | internal/appui/agent_event_service.go:225-241 | publishes log, seen-map and projection of a load, unless the session is loaded already |
| `EventService.AgentEventService.NextSeq` | internal/appui/agent_event_service.go:243-251 | one more than the largest number in the log |
| `EventService.AgentEventService.ReplayAfter` | internal/appui/agent_event_service.go:186-193 | the loop keeps exactly the events with a larger number, in order |
| `AgentRuns.InvAlways` | internal/agentmgr/manager.go:165-262 | in every interleaving: an executing run is the one its agent's cancel entry names, cancel entries belong to existing runs of that agent, and a running agent has an executing run |
| `AgentRuns.OneExecutingRun` | internal/agentmgr/manager.go:174-195 | an agent has at most one executing run, and `cancels` holds exactly its id |
| `AgentRuns.ClearSparesNewerRun` | internal/agentmgr/manager.go:249-262 | the delayed clear of a finished run never removes the cancel entry of a newer run |
| `AgentRuns.KillCancelsCurrentRun` | internal/agentmgr/manager.go:328-356 | killing a running agent cancels precisely its current run |
| `AgentRuns.KilledForever` | internal/agentmgr/manager.go:211-244 | no continuation of any run of the system leaves `killed` |
| `AgentRuns.FailedIsLeftOnlyByLateFinish` | internal/agentmgr/manager.go:220-244 | `failed` is left exactly by the error-free finish of a run that was still executing |
| `AgentRuns.FailedCanBecomeCompleted` | internal/agentmgr/manager.go:220-244 | a concrete run in which an agent marked failed ends up completed |
| `AgentRuns.AgentManager.Spawn` | internal/agentmgr/manager.go:103-142 | the new instance is idle; a missing field or a taken id changes nothing |
| `AgentRuns.AgentManager.BeginRun` | internal/agentmgr/manager.go:165-195 | the begin section: status check, running status, fresh run id as cancel entry |
| `AgentRuns.AgentManager.FinishRun` | internal/agentmgr/manager.go:211-246 | the finish section: a killed agent stays killed, else failed or completed by the runner's outcome |
| `AgentRuns.AgentManager.ClearActiveRun` | internal/agentmgr/manager.go:249-262 | removes the cancel entry only if it still names this run |
| `AgentRuns.AgentManager.KillAgentWithReason` | internal/agentmgr/manager.go:328-356 | the kill section and the run it owes a cancellation |
| `AgentRuns.AgentManager.MarkAgentFailed` | internal/agentmgr/manager.go:360-375 | fails an unfinished agent and no other |
| `AgentRuns.AgentManager.CollectResults` | internal/agentmgr/manager.go:383-406 | exactly the finished agents of the mission, each once |
| `AgentRuns.AgentManager.FailUnfinished` | internal/agentmgr/reconcile.go:48-73 | every unfinished instance failed, every finished one untouched, and the two reported lists |
| `AgentRuns.ReconcileAgents` | internal/agentmgr/reconcile.go:36-74 | the budget is empty and the instances are partitioned into reconciled and already finished |
| `Budget.EveryRunIsFair` | internal/agentmgr/budget.go:64-170 | after any run: running within budget, queue without repeats and disjoint from running, a non-empty queue only when full, and the enqueue history without removed entries is the list of names releases and removals returned as promoted, followed by the queue (strict FIFO) |
| `Budget.EveryPromotionRuns` | internal/agentmgr/budget.go:103-170 | along any run a release or removal returns a name exactly when it frees a slot while someone waits; the name is the one that waited longest, and that agent runs and no longer waits |
| `Budget.NobodyIsLost` | internal/agentmgr/budget.go:103-170 | apart from the agent that leaves, a release or removal keeps everybody running or waiting |
| `Budget.DoKeepsBudget` | internal/agentmgr/budget.go:64-170 | every operation keeps a mission within budget and its queue full-only, distinct and disjoint |
| `Budget.AgentBudgetController.TryAcquire` | internal/agentmgr/budget.go:64-98 | acquired, queued or refused; other missions unchanged |
| `Budget.AgentBudgetController.Release` | internal/agentmgr/budget.go:103-134 | gives a slot back and promotes the first of the queue; errors change nothing |
| `Budget.AgentBudgetController.Remove` | internal/agentmgr/budget.go:140-170 | takes a running agent out with promotion, or a queued one out of the queue |
| `Budget.AgentBudgetController.ResetMission` | internal/agentmgr/budget.go:268-273 | forgets one mission and no other |
| `Budget.AgentBudgetController.Reset` | internal/agentmgr/budget.go:276-281 | forgets all missions |
| `ResourceLocks.EveryTableIsExclusive` | internal/agentmgr/resource_lock.go:50-112 | in every reachable table two distinct leases on one resource are both reads |
| `ResourceLocks.HolderIsNotBlocked` | internal/agentmgr/resource_lock.go:63-70 | a key the owner already holds is never denied, so own and blocking leases cannot both be met in the scan |
| `ResourceLocks.OthersUntouched` | internal/agentmgr/resource_lock.go:87-112 | acquiring and releasing keep every unexpired lease of other owners |
| `ResourceLocks.NormalizeTwice` | internal/agentmgr/resource_lock.go:114-119 | a normalised key is its own normal form |
| `ResourceLocks.ResourceLockManager.TryAcquire` | internal/agentmgr/resource_lock.go:50-85 | denied if and only if an unexpired lease other than the caller's own on that key conflicts, whatever the iteration order; the new table is the purged one, with the lease when granted |
| `ResourceLocks.ResourceLockManager.Scan` | internal/agentmgr/resource_lock.go:63-70 | for every order of iteration: finds the own lease, a blocking lease, or establishes that there is neither |
| `ResourceLocks.ResourceLockManager.PurgeExpired` | internal/agentmgr/resource_lock.go:101-112 | removes exactly the expired leases and every key left without owners |
| `ResourceLocks.ResourceLockManager.Release` | internal/agentmgr/resource_lock.go:87-99 | removes only the caller's lease and reports whether there was one |
| `BatchLocks.FailureRestores` | internal/agentmgr/parallel.go:282-314 | while nothing expires, a batch with an ungrantable key is refused, and leaves the table as it was if and only if the owner held none of the keys before the first ungrantable one |
| `BatchLocks.BatchVerdict` | internal/agentmgr/parallel.go:282-314 | while nothing expires, a batch is granted if and only if every key is valid, free for the owner and in no conflict with an earlier other key of the batch; else it takes exactly the keys before the first that is not |
| `BatchLocks.LeaseIsLost` | internal/agentmgr/parallel.go:301-307 | an owner that reads one resource and asks for it together with one somebody else writes loses the lease it had |
| `BatchLocks.ConflictingKeysAreRefused` | internal/agentmgr/tool_resource_lock_gate.go:36-55 | a batch with two different conflicting keys on one resource is never granted |
| `BatchLocks.SuccessHoldsAndReleases` | internal/agentmgr/tool_resource_lock_gate.go:19-57 | a batch of grantable keys, repeated ones included, is granted and holds every normalised key; its release restores the table if and only if the owner held none of the keys before |
| `BatchLocks.AcquireToolResourceLocks` | internal/agentmgr/tool_resource_lock_gate.go:19-57 | the gate takes its owner from the request, the call id or the call name, in this order, and acquires the batch for it |
| `BatchLocks.BatchLeavesOthers` | internal/agentmgr/tool_resource_lock_gate.go:29-57 | no batch and no rollback touches a lease of another owner |
| `BatchLocks.AcquireLocks` | internal/agentmgr/parallel.go:282-314 | the loop with its rollback computes the outcome of the batch |
| `BatchLocks.ReleaseReversed` | internal/agentmgr/tool_resource_lock_gate.go:32-55 | the reverse loop releases exactly the acquired keys |
| `ParallelExecute.InvAlways` | internal/agentmgr/parallel.go:139-259 | in every interleaving: the running set and the queue are exactly the workers past acquisition and the waiting ones, no two leases conflict, results are on record exactly for the workers past recording unless the loop wrote into a write, and released keys stay released unless a worker's name is used from outside |
| `ParallelExecute.NeverOverBudget` | internal/agentmgr/parallel.go:139-233 | at most `missionBudget` workers are between acquiring and releasing their slot, in every interleaving |
| `ParallelExecute.NothingIsLeft` | internal/agentmgr/parallel.go:139-279 | when all workers have returned: no id runs or waits in the budget; every worker has exactly one result if no refused worker is listed behind a launched one; no lease of a worker is left if none was there before and nobody uses its name from outside |
| `ParallelExecute.OneWriterAlways` | internal/agentmgr/parallel.go:139-233 | in every interleaving at most one worker writes its result at a time, and the lock of the results is held exactly meanwhile |
| `SpawnRace.ResultsAreCompleteExactly` | internal/agentmgr/parallel.go:139-258 | the record of results is complete in every run if and only if no worker whose spawning is refused is listed behind one that is launched |
| `SpawnRace.RefusedLaterLosesResults` | internal/agentmgr/parallel.go:147-256 | for every such request there is a run in which the launched worker is driven to its own write, the loop's write without the lock falls into it, and the entry of the refused worker is lost while that of the launched one stays |
| `SpawnRace.LostStaysLost` | internal/agentmgr/parallel.go:147-256 | a lost entry is not brought back by any later step, unless another write is torn in turn |
| `WorkerRuns.ReachesWrite` | internal/agentmgr/parallel.go:183-222 | however its locks turn out, a worker with a slot reaches the write of its result by its own steps, which leave all others alone |
| `WorkerRuns.Finishes` | internal/agentmgr/parallel.go:183-233 | it can go on from there to its return: its slot is given back, one token is left, and nobody else has moved |
| `LostWakeups.StuckExactly` | internal/agentmgr/parallel.go:133-190 | an execution that nobody cancels can halt before all workers have returned if and only if more than twice as many workers are launched as the budget allows to run |
| `LostWakeups.ManyCanStrand` | internal/agentmgr/parallel.go:160-190 | with that many workers there is a run in which every slot is promised to a waiting worker and all tokens went to one that was not promoted |
| `LostWakeups.HaltsExactly` | internal/agentmgr/parallel.go:139-233 | no step of the execution but a cancellation changes anything exactly when all workers have returned, or all that have not wait for a slot and there is no token |
| `LostWakeups.WakeAlways` | internal/agentmgr/parallel.go:160-190 | in every uncancelled run: with an empty queue a promoted worker has a token to come, and there are never more promoted workers waiting than launched ones past their slot |
| `LostWakeups.RunsAreBounded` | internal/agentmgr/parallel.go:139-233 | the number of steps of workers that change anything is bounded for the whole execution, whoever takes them in which order |
| `LostWakeups.EveryoneCanReturn` | internal/agentmgr/parallel.go:91-190 | with at most twice as many workers as the budget allows, every uncancelled run can be continued until all workers have returned |
| `ParallelExecute.FitsAlways` | internal/agentmgr/parallel.go:282-314 | in every interleaving the taken keys of a worker are its requested ones in order, normalised, and a running worker has taken all of them |
| `ParallelExecute.NoConflictingRunners` | internal/agentmgr/parallel.go:183-215 | while no lease expires and nobody uses a worker's name from outside, two workers never run with conflicting requested resources |
| `ParallelExecute.OutsiderTakesLease` | internal/agentmgr/parallel.go:183-215 | a release under a running worker's name takes its lease away while it runs |
| `ParallelExecute.NextKeepsResults` | internal/agentmgr/parallel.go:139-258 | unless the loop has written into a write of a worker, no step loses or replaces a recorded result |
| `ParallelExecute.ValidateWorkers` | internal/agentmgr/parallel.go:109-122 | accepted if and only if every worker is named, configured and listed once |
| `ParallelExecute.Partition` | internal/agentmgr/parallel.go:271-277 | succeeded and failed workers: each recorded worker in exactly one list, once |
| `Lexers.StripComments` | scripts/check-aiops-final-text-control.py:110-183 | the in-place loop computes the stripped text |
| `Lexers.MaskStrings` | scripts/check-aiops-final-text-control.py:186-252 | the in-place loop computes the masked text |
| `Lexers.PositionsAreKept` | scripts/check-aiops-final-text-control.py:110-252 | both lexers keep the length and the position of every newline |
| `Lexers.StripIsIdempotent` | scripts/check-aiops-final-text-control.py:110-183 | stripping comments twice is stripping them once |
| `Lexers.CommentsAreGone` | scripts/check-aiops-final-text-control.py:110-183 | on stripped text the lexer never meets a comment and still passes every position of the original reading with the same mode stack |
| `Lexers.MaskIsIdempotent` | scripts/check-aiops-final-text-control.py:186-252 | masked text holds no quote character, so masking it again changes nothing |
| `Lexers.LexersAgreeOnStrippedText` | scripts/check-aiops-final-text-control.py:110-252 | on stripped text both lexers visit the same positions with the same mode stacks |
| `Lexers.StripAt` | scripts/check-aiops-final-text-control.py:115-182 | one turn of the loop writes what the step blanks and leaves the rest of the buffer |
| `Lexers.MaskAt` | scripts/check-aiops-final-text-control.py:191-251 | one turn of the masking loop writes what the step blanks and leaves the rest of the buffer |
| `Lexers.BlankBlock` | scripts/check-aiops-final-text-control.py:162-171 | a block comment is blanked up to its end mark or the end of the source, newlines kept |
| `Delimiters.MatchingDelimiter` | scripts/check-aiops-final-text-control.py:285-295 | the first closing delimiter at which as many have closed as opened, or none if there is no such |
| `Delimiters.MatchingOpeningDelimiter` | scripts/check-aiops-final-text-control.py:298-310 | the last opening delimiter balancing the text up to the given end, or none |
| `Delimiters.MatchingGoesBack` | scripts/check-aiops-final-text-control.py:285-310 | round trip: from the closing delimiter of an opening one the backward search returns to it |
| `Delimiters.PairsNest` | scripts/check-aiops-final-text-control.py:285-295 | matched pairs nest: what opens inside a pair closes inside it |
| `Delimiters.SplitTopLevel` | scripts/check-aiops-final-text-control.py:403-424 | the counting loop computes the split at separators outside all brackets |
| `Delimiters.JoinUndoesSplit` | scripts/check-aiops-final-text-control.py:403-424 | joining the parts with the separator gives text and masked text back |
| `Delimiters.PartsSplitNoFurther` | scripts/check-aiops-final-text-control.py:403-424 | no part holds a further top-level separator: splitting it again gives the part alone |
| `Taint.FindsExactlyTheTainted` | scripts/check-aiops-final-text-control.py:657-699 | a path is found if and only if a chain of at most 16 nearest preceding assignments leads from the expression to a source, and the result is such a chain |
| `Taint.SeenDoesNotMatter` | scripts/check-aiops-final-text-control.py:685-687 | the check for repeated assignments never fires: offsets strictly decrease along the search |
| `Taint.FindTaintPath` | scripts/check-aiops-final-text-control.py:657-699 | the recursive search with its loop computes the path and terminates |
| `Taint.NearestAssignment` | scripts/check-aiops-final-text-control.py:641-654 | the nested loops find the last earlier assignment in the innermost scope that has one |
| `Taint.InnermostScopeWins` | scripts/check-aiops-final-text-control.py:648-653 | an assignment is the nearest exactly when its scope has it as last earlier one and no scope further in has any |
| `Taint.LastIsClosest` | scripts/check-aiops-final-text-control.py:635-654 | among assignments sorted by offset the one found is the closest before the given offset |
| `Taint.ChainIsInnermostFirst` | scripts/check-aiops-final-text-control.py:338-344 | the scope chain holds exactly the scopes around the offset and the file, smaller before larger |
| `HashJson.NormalizeHashJson` | internal/agentassembly/hash.go:44-73 | the recursion over maps and arrays yields a canonical form of the tree, for every order of map iteration |
| `HashJson.NormalizingIsIdempotent` | internal/agentassembly/hash.go:44-73 | normalising a result again gives exactly that result, for every tree and every order |
| `HashJson.AlikeExactlyWhenSimilar` | internal/agentassembly/hash.go:44-73 | two trees are bound to the same canonical form if and only if they differ only in white space around strings and keys and in the order of string-only arrays, at every depth |
| `HashJson.DeterminedExactlyWhenSelfSimilar` | internal/agentassembly/hash.go:47-52 | the form is independent of map iteration order exactly when colliding keys hold similar values, in particular when keys stay distinct |
| `HashJson.CollidingKeysAreAmbiguous` | internal/agentassembly/hash.go:47-52 | an object with two colliding keys that has two possible canonical forms |
| `SortedStrings.UniqueSortedStrings` | internal/agentassembly/hash.go:75-94 | the loop with its seen-set computes the sorted unique values: no list for no values, an empty list for blank ones |
| `SortedStrings.UniqueSortedIsTheSortedSet` | internal/agentassembly/hash.go:75-94 | sorted, without repetition, and exactly the trimmed non-empty values; a list at all exactly when there were values |
| `SortedStrings.UniqueSortedByValues` | internal/agentassembly/hash.go:75-94 | two lists give one result if and only if they have the same trimmed non-empty values and are both empty or both not |
| `SortedStrings.UniqueSortedAbsorbs` | internal/agentassembly/turn_assembly.go:72-72 | merging a result with part of its own input again changes nothing, unless that part is empty and the rest was blank only |
| `TurnAssembly.BuiltIsFixed` | internal/agentassembly/turn_assembly.go:138-145 | building a built assembly again gives the same assembly and hash if and only if sorting its tool lists settles at once and its source references were not blank only while none were admitted |
| `TurnAssembly.BuiltIsValid` | internal/agentassembly/turn_assembly.go:124-136 | under that condition a freshly built assembly passes validation |
| `TurnAssembly.ValidExactlyWhenRefsStay` | internal/agentassembly/turn_assembly.go:124-136 | without hash collisions and with settled sorting, a freshly built assembly passes validation if and only if its source references were not blank only while none were admitted |
| `TurnAssembly.BlankReferenceIsRejected` | internal/agentassembly/turn_assembly.go:124-136 | a turn whose only source reference is a blank is built and then fails its own validation, where the same turn without it passes |
| `TurnAssembly.SettledIsInPlace` | internal/agentassembly/turn_assembly.go:147-176 | sorting leaves the lists of a built surface in place exactly when it settles at once on the lists given |
| `TurnAssembly.DistinctStaysInPlace` | internal/agentassembly/tool_surface.go:211-218 | sorting settles at once when identities are distinct within each list, or when sorting keeps sorted lists |
| `TurnAssembly.SurfaceIsFixed` | internal/agentassembly/turn_assembly.go:147-176 | defaulted tool lists, fingerprint and hash of a surface are reproduced exactly when its sorted lists are |
| `TurnAssembly.DraftAgain` | internal/agentassembly/turn_assembly.go:51-73 | permission fallback and trimmed policies are reproduced from a built assembly; surface and source references are normalised once more |
| `TurnAssembly.PermissionIsFixed` | internal/agentassembly/turn_assembly.go:51-56 | the chosen permission never conflicts with the admitted one and is chosen again |
| `TurnAssembly.ContextIsFixed` | internal/agentassembly/builder.go:121-129 | the context selector normalises to itself once its hash is cleared |
| `TurnAssembly.LoopIsFixed` | internal/agentassembly/builder.go:131-142 | the loop policy normalises to itself |
| `TurnAssembly.ContractIsFixed` | internal/agentassembly/builder.go:144-151 | the final contract normalises to itself once its hash is cleared |
| `TurnAssembly.ValidHashPinsTheParts` | internal/agentassembly/turn_assembly.go:94-136 | without hash collisions, an assembly that validates under the hash of a built one rebuilds to the same hashed parts |
| `TurnAssembly.ChangesAreCovered` | internal/agentassembly/turn_assembly.go:57-84 | a built turn that changes something has a permission profile and a rollback policy, its surface is valid, and its mutating tools are ready when tools of one identity agree about it |
| `ToolSurface.Validate` | internal/agentassembly/tool_surface.go:87-125 | the loops find the first error of a surface, list by list |
| `ToolSurface.CheckPassesTheValid` | internal/agentassembly/tool_surface.go:87-125 | the check passes exactly when visible tools are dispatchable, hidden ones have a known reason, and rollback flags match their declarations |
| `ToolSurface.ValidateReadiness` | internal/agentassembly/turn_assembly.go:104-122 | the loop with its seen-map looks at the first mutating tool of each identity |
| `ToolSurface.ReadinessMeansAllReady` | internal/agentassembly/turn_assembly.go:104-122 | a passed check, together with agreement between tools of one identity, is the same as every mutating tool being ready |
| `ToolSurface.DuplicateGoesUnnoticed` | internal/agentassembly/turn_assembly.go:112-116 | a second tool of a ready identity passes although it is not ready |
| `ToolSurface.DistinctToolsAreSeparate` | internal/agentassembly/tool_surface.go:211-218 | tools that sort as equal have one identity, so with distinct identities they are one tool |
| `Sorting.OneOrder` | internal/agentassembly/tool_surface.go:211-218 | a list in which only equal elements sort as equal has one sorted order |
| `TurnAssembly.StableSortIsSound` | internal/agentassembly/tool_surface.go:211-218 | a stable sort meets what the results ask of sorting, and keeps sorted lists |
| `TurnAssembly.PlainTurnIsBuilt` | internal/agentassembly/turn_assembly.go:40-102 | under every sound environment a turn without tools is built, whatever its source references |
| `ActionInput.NormalFormIsFixed` | internal/actionproposal/token.go:134-149 | normalising a normal form gives it back |
| `ActionInput.TokensDoNotMatter` | internal/actionproposal/token.go:134-171 | inputs that differ only in token and intent keys, at any depth, have one normal form |
| `ActionInput.NormalizeIgnoresTokens` | internal/actionproposal/token.go:151-171 | trees lose exactly the token and intent keys: they become equal if and only if they differ in nothing else |
| `ActionInput.CommandLineIsItsWords` | internal/actionproposal/token.go:173-196 | a command line without a usable command has the normal form of its first word as command and the rest as arguments |
| `ActionInput.JoinedWordsAreTheCall` | internal/actionproposal/token.go:173-196 | any command and arguments without white space have the same normal form given as one line, joined by blanks, as given as command and arguments |
| `Text.FieldsOfJoined` | internal/actionproposal/token.go:176-182 | splitting into words undoes joining words by blanks |
| `ActionInput.SameFormSameCall` | internal/actionproposal/token.go:173-196 | objects with a command are rewritten alike if and only if command, arguments and all other keys agree |
| `ActionInput.RewriteCarriesTheCall` | internal/actionproposal/token.go:173-196 | the rewritten object is read as the same command and arguments and keeps every other key |
| `ActionInput.CallIsClean` | internal/actionproposal/token.go:198-220 | commands are trimmed and arguments are trimmed and non-empty |
| `ActionInput.NormalizeTree` | internal/actionproposal/token.go:151-171 | the recursion with its map and array loops, in every order of iteration |
| `ActionInput.RewriteCommand` | internal/actionproposal/token.go:173-196 | the rewriting loop in every order of iteration |
| `ActionInput.CollectStrings` | internal/actionproposal/token.go:205-220 | the loop keeps the usable strings in order |
| `Registry.EveryRunKeepsViews` | internal/agents/registry.go:135-250 | after any run of operations the two maps are views of one set of definitions |
| `Registry.ViewsAgree` | internal/agents/registry.go:160-165 | a name stands for a definition if and only if its kind and source do |
| `Registry.BatchIsOneByOne` | internal/agents/registry.go:169-231 | a batch succeeds if and only if registering one by one does, with the same registry |
| `Registry.UnregisterUndoesRegister` | internal/agents/registry.go:275-296 | unregistering what was just registered restores the registry if and only if the name is trimmed |
| `Registry.KindFindsTheStrongest` | internal/agents/registry.go:234-250 | a kind is answered with its definition of the highest source precedence, and answered whenever it has one |
| `Registry.Registry.Register` | internal/agents/registry.go:135-166 | adds the definition to both maps, or changes nothing and says why |
| `Registry.Registry.RegisterBatch` | internal/agents/registry.go:169-231 | all definitions or none: a failing batch leaves the registry unchanged |
| `Registry.Registry.Unregister` | internal/agents/registry.go:275-296 | takes the definition out of both maps and drops an emptied kind |
| `Registry.Registry.Get` | internal/agents/registry.go:234-250 | by name first, else by kind from the strongest source down |
| `AgentIndex.BuildAgentIndex` | internal/agents/index.go:58-127 | the ranked entries cut to the limit, the dropped ones and the encoded size |
| `AgentIndex.Cut` | internal/agents/index.go:101-117 | keeps the longest prefix that fits, or the first entry alone, and drops the rest from the end |
| `AgentIndex.CutSeparates` | internal/agents/index.go:101-117 | when encodings grow with the list, exactly the prefixes up to the cut fit |
| `AgentIndex.KeptThenDropped` | internal/agents/index.go:101-117 | kept entries followed by the dropped ones reversed are the ranked list by kind and name |
| `AgentIndex.RankingIsTheSort` | internal/agents/index.go:83-94 | the ranking is a permutation of the numbered entries, best first, and the only sorted one, so the listing does not depend on how it is sorted |
| `AgentIndex.ListingIsDetermined` | internal/agents/index.go:58-127 | entries, scores and limit leave one listing only |
| `AgentIndex.LimitCombinesBoth` | internal/agents/index.go:181-190 | the limit enforces both the character and the token limit if and only if the character limit is not negative or there is no token limit |

## Left out

- Subscriber channels of the event service: events are sent outside the lock, without any ordering guarantee.
- JSON decoding, timestamps, and fields that are only copied to the screen: a payload is the decoded record.
- The lazily allocated liveness maps: they are sets, their values are only ever `true`.
- The width of sequence numbers, run ids and character limits: all are unbounded integers.
- A service without a repository, and repository reads that fail: a failing read leaves the session unloaded.
- Sharing between projection snapshots: an approval row closed in place also changes snapshots handed out
  earlier. Its effect on the projection the service keeps is modelled (`WrittenThrough`); the repository is
  taken to keep copies.
- Case folding beyond ASCII: `ToLower` and `EqualFold` are modelled on ASCII letters.
- Aliasing of `*AgentInstance` through `GetInstance`, the definition checks of `Spawn` and the agent factory.
- ParallelExecute.NoConflictingRunners: does not cover runs during which a lease expires or a worker's name is used from outside, because then the lease protects nobody.
- The end of a process stopped by a concurrent map write: a racing write leaves arbitrary results here and the run goes on.
- Which spawns are refused is fixed for one execution (`refused`); that the manager refuses taken ids is in `AgentRuns`.
- BatchLocks.FailureRestores: does not cover leases that expire while the batch runs; they are purged and not restored.
- BatchLocks.BatchVerdict: does not cover leases that expire while the batch runs; they may free a key in between.
- BatchLocks.SuccessHoldsAndReleases: does not cover leases that expire while the batch runs.
- BatchLocks.BatchLeavesOthers: does not cover leases of others that expire while the batch runs.
- LostWakeups.StuckExactly: does not cover runs with a cancellation, as a cancelled worker stops waiting by itself. A run of an agent is taken to end.
- Other users of the mission's budget during one execution: it is idle at the start and used by the workers alone.
- EventService.EveryRunIsSound: needs saves to succeed whenever appends do; `AgreementAfterAppend` and `RetryStoresTwice` say what happens otherwise.
- AnswerText.ArchivedTextStays: needs archive ids to be reserved, as a row written under an archive id replaces its text.
- ProcessIndex.IndexHolds: needs each row id to stay within one turn; `WriteKeepsIndex` is the exact condition of one write.
- Regular expressions, file walking, parameter and condition extraction of the checker: an expression is a match
  of the source pattern and a list of identifiers, assignments are given by scope and name.
- Delimiters.JoinUndoesSplit: a blank as separator is excluded, as blanking would create separators the text does not have.
- SHA-256, HMAC, base64 and JSON encoding: hashes and encoded sizes are parameters.
- TurnAssembly.ValidHashPinsTheParts: says nothing about parts that the hash does not cover, such as compatibility keys.
- Integrity of admission facts and the list of known hidden reasons: parameters.
- Lossy JSON clones of an assembly input (invalid UTF-8): cloning is the identity.
- Trimming and copying of the fields of index entries, and the hash of the listing: entries come as they are listed.
- Scoring of index entries: a sum of constants per match, a parameter here.
- `List` of the registry, discovery metadata and the copying of slices in definitions: values are copied as such.
- Chat routing, catalogue merging, delegation, gates and server wiring: branch tables and plumbing.

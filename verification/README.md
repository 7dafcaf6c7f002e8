# A verified model of specifyr's state machines

specifyr orchestrates agents: users edit and publish specifications, task graphs are executed by runners, a company of
agents takes tasks from queues, chat turns are run and logged. This project models the parts of it in which order matters
(transactions, executors, dispatchers, logs, queues, small codecs) in Dafny and proves what holds over all of their
inputs and runs. `dafny verify dfyconfig.toml` checks everything.

Code that changes things step by step is modelled twice. A class with the source's fields and methods updates them in
place, and each method is proved equal to a function on values; the functions together form a state machine whose steps
are the stretches of code between two awaits (or two database statements), so that "every run" means every interleaving.
The theorems are about those runs. Runners, clocks, ids, decisions and faults are arguments of steps, so every behaviour
of theirs is covered.

| file | component |
|---|---|
| SpecDrafts, SpecDraftTransactions, SpecDraftAnswers, DraftStore | the draft publish protocol: requests one at a time, the same as interleaved transactions under two row locks, what each request stores and answers, and the store updated in place |
| Orchestrator | the round-based executor `SpecOrchestrator.startRun` |
| BlockPropagation, RunScheduler, SchedulerRuns, SchedulerResults, SchedulerShared, SchedulerForgets, SchedulerKeeps | the parallel executor `RunScheduler` |
| SseClient | the parser of server-sent events |
| CompanyDispatch, CompanyRuns, SupervisorRuns | the company's dispatcher and its watchdog |
| EventIndex, EventQueries | the event log, its index and the index's queries |
| TurnBroker, TurnRuns, TurnReplies, TurnSessions | the life of a turn, the session's event log, what a turn replies, and the runner it keeps alive |
| JsBits, Subnets | JavaScript's 32-bit operators, CIDR texts and the subnet allocator |
| ReportingDag | the check of the reporting graph |
| MetaWrites | the serialised writes to meta.json |
| CapabilityGate, CapabilityApproval | the capability gate and the approval service |

## Findings

The theorems state what the code does. Where that differs from what its comments promise, the file has the exact
condition or a concrete run:

- `RunScheduler` reads the run record once. With the default store a completion never reaches that snapshot, so one
  `execute` starts exactly the tasks that were ready at the beginning (`OnlyFirstReadyStart`), and the save of a later
  launch puts "running" over results recorded in the meantime, after which the run can only end paused
  (`LaterSaveForgets`, `ForgottenRunEndsPaused`, `SuccessIsForgotten`). Exactly when a result is safe is
  `ResultStaysIff`; before the call, `NoResultIsLostIff`. With a store that hands out one shared object the strategy
  described at the top of the file holds (`SharedRunSettles`).
- The final status is lost if a launch's un-awaited save lands after it, and only then (`OutcomeStaysIff`; before the
  call, `NoOutcomeIsLostIff`).
- `propagateBlock` repeats its sweep only if a status changed, so it can stop early (`SkippedTaskHidesDependents`); which
  tasks it blocks whatever the statuses is decided by the order of the graph (`AlwaysBlockedIff`).
- `startRun` compares counts; an id left over from an earlier batch can make it skip a task (`StaleIdSkipsTask`), and
  `AccountsIff` says for which starting sets it never does.
- A file of a draft whose name is a symbolic link in specs/ is written through the link and does not show among the
  public files (`LinkHidesSpec`, `PlainIsAllIff`).
- After a crash in the middle of a log line, `getLastEventSeq` starts again at 0, the next event is lost in the broken
  line and `readEventsSince` repeats old events (`TornEndLosesFirst`); `AlwaysReadsBackIff` says which logs are safe.
- An event appended behind a broken line of the company's log is indexed although no line holds it, so a rebuild and one
  from an empty database differ (`TornEndKeepsRow`, with the exact condition in `RebuildRestoresIff`).
- `checkCapability` takes an empty grant for a missing one, so for the empty request the order of the grants matters
  (`OrderMattersOnlyForEmpty`).
- The entry `enqueueMetaWrite` keeps per project is never removed: the promise in the map is the one `finally` returned,
  the cleanup compares it with another (`EntriesStay`).
- A task file that a poller reports while it starts, before it is registered, is accepted but not begun; its role stays
  idle with it until another file arrives (`EarlyTaskWaits`, with the exact condition in `RolesAreServedInOrder`).
- An answer to an approval request that arrives between the request's event and its registration is dropped
  (`EarlyApprovalIsLost`, `FirstAnswerWinsIff`).
- `pendingDispatches` compares timestamps with `>=`; `PendingIsAPassIff` says when equal timestamps matter.
- The comment above `publishDraft` says a flip that affects no row is treated as not_found; the code throws, and
  `FlipNeverMisses` shows that neither happens.

## Model

| member | source | states |
|---|---|---|
| SpecDrafts.SerialKeepsInv | server/shared/utils/spec-draft-store.ts:177-394 | every request keeps: published drafts have base versions 0..version-1, each once, and, unless a write was cut short, the regular files are those of the newest one but for names that are links |
| SpecDrafts.VersionIsPublishedCount | server/shared/utils/spec-draft-store.ts:368-384 | the public version of a project is the number of its published drafts |
| SpecDrafts.PlainIsAllIff | server/shared/utils/spec-public-state.ts:128-137 | all files of a bundle become regular files if and only if none of its names is a link |
| SpecDrafts.LinkHidesSpec | server/shared/utils/spec-public-state.ts:62-72 | a publish through a link succeeds and shows no file |
| SpecDraftTransactions.NextRefines | server/shared/utils/spec-draft-store.ts:320-393 | every step of a transaction keeps the invariant and is, seen from outside, nothing or one whole request |
| SpecDraftTransactions.RunRefinesSerial | server/shared/utils/spec-draft-store.ts:310-394 | serialisability: rows, versions and files after any interleaving are those of the logged requests run one at a time |
| SpecDraftTransactions.RunAnswersMatch | server/shared/utils/spec-draft-store.ts:228-274 | every caller is told what it would have been told in that serial order |
| SpecDraftTransactions.RunKeepsPublicState | server/shared/utils/spec-draft-store.ts:310-394 | at every moment the version counts the published drafts, base versions are 0..version-1 without repeats, and the regular files are those of the draft with base version - 1, all of them if and only if no name of it is a link |
| SpecDraftTransactions.ConflictBodyIsConsistent | server/shared/utils/spec-draft-store.ts:347-359 | version and regular files of a conflict answer belong to one moment |
| SpecDraftTransactions.RunKeepsPublished | server/shared/utils/spec-draft-store.ts:196-208 | a published draft never changes again in the run |
| SpecDraftTransactions.FlipNeverMisses | server/shared/utils/spec-draft-store.ts:374-390 | the throw for a draft no longer in 'draft' status is unreachable |
| SpecDraftTransactions.DeleteAnswerIsStable | server/shared/utils/spec-draft-store.ts:248-273 | the query after an empty DELETE answers the same whenever it runs |
| SpecDraftTransactions.TransactionsGoOn | server/shared/utils/spec-draft-store.ts:289-294 | the two row locks leave nobody stuck: every open transaction can go on, or waits for a patch that can commit |
| SpecDraftAnswers.CreateMeans | server/shared/utils/spec-draft-store.ts:47-81 | refused exactly for a taken id, an unknown project or a repeated file name; otherwise one new row with just what was given |
| SpecDraftAnswers.PatchMeans | server/shared/utils/spec-draft-store.ts:177-226 | finds only the requester's own unpublished draft of the project, and changes the given fields of that row |
| SpecDraftAnswers.DeleteMeans | server/shared/utils/spec-draft-store.ts:233-274 | removes the requester's own unpublished draft, calls a published one of theirs immutable, and does not find any other |
| SpecDraftAnswers.PublishMeans | server/shared/utils/spec-draft-store.ts:310-394 | the exact conditions of not found, conflict, throw and success, the body of a conflict, and rows, version and directory after a success |
| SpecDraftAnswers.PublishedIsRequested | server/shared/utils/spec-draft-store.ts:310-394 | in every interleaving the files given when the draft was stored last are, once published and while that version is current, the public files, each with its content unless its name is a link |
| DraftStores.DraftStore.CreateDraft | server/shared/utils/spec-draft-store.ts:47-81 | new state and answer are the serial create's; an accepted draft holds the given title and conversation and exactly the files of the bundle, each with its own content |
| DraftStores.DraftStore.PatchDraft | server/shared/utils/spec-draft-store.ts:177-226 | new state and answer are the serial patch's; what was given replaces what was there, file by file, and the rest stays |
| DraftStores.DraftStore.DeleteDraft | server/shared/utils/spec-draft-store.ts:233-274 | new state and answer are the serial delete's |
| DraftStores.DraftStore.PublishDraft | server/shared/utils/spec-draft-store.ts:310-394 | new state and answer are the serial publish's, or those of one whose disk write was cut short because a name belongs to a directory |
| DraftStores.DraftStore.WritePublicSpecFiles | server/shared/utils/spec-public-state.ts:106-138 | succeeds exactly for flat names that are no directories; then the regular files are the given ones but for links, which are written through, and everything else stays; a bad name changes nothing |
| DraftStores.DraftStore.ReadPublicSpecFiles | server/shared/utils/spec-public-state.ts:46-73 | exactly the regular files, or the one asked for, each once |
| Orchestrator.SpecOrchestrator.StartRun | src/core/orchestrator.js:147-240 | rejects without approval or tasks; otherwise record, statuses and per-task results are those of the rounds. For starting sets that fit the batch: completed exactly if all tasks are completed, failed if some failed and none is left, blocked if some is left; a task that ran is completed exactly if its runner said "completed" and an output was expected, else failed; a throwing runner leaves the record "running" |
| Orchestrator.SortOutcomes | src/core/orchestrator.js:203-217 | each outcome lands in the results, in completed if it is "completed" and an output was expected, and else in failed |
| Orchestrator.CompletedIsLeast | src/core/orchestrator.js:162-239 | unless a runner throws, the completed set is the least set closed under "not failed before, dependencies completed, own outcome good"; the failed set is what could be tried and was not good |
| Orchestrator.OnlyGoodComplete | src/core/orchestrator.js:168-216 | a task completes only with its dependencies completed and a good outcome |
| Orchestrator.FailedWereTried | src/core/orchestrator.js:168-216 | a task fails only with its dependencies completed and a bad outcome |
| Orchestrator.ThrowsIff | src/core/orchestrator.js:190-201 | a run breaks off exactly when it gets to an unsettled task whose dependencies are completed and whose runner throws |
| Orchestrator.OrderDoesNotMatter | src/core/orchestrator.js:167-218 | the order of the batch, and so of a round, does not matter, whatever the starting sets and the runner, throwing ones included |
| Orchestrator.NothingLeftReady | src/core/orchestrator.js:167-188 | a finished run accounts for every task, a blocked one leaves none ready |
| Orchestrator.BlockedIffHopeless | src/core/orchestrator.js:175-188 | blocked exactly if some unsettled task depends through unsettled tasks on a failed one, a missing id or itself |
| Orchestrator.HopelessNeverCompletes | src/core/orchestrator.js:168-188 | no task on such a chain is ever completed |
| Orchestrator.StaleIdSkipsTask | src/core/orchestrator.js:163-167 | a stale completed id makes a run finish without its only task |
| Orchestrator.AccountsIff | src/core/orchestrator.js:162-167 | a finished run has settled every task, whatever the batch of these ids and the runner, if and only if the sets it starts with are apart and drawn from the ids, or nothing was left to do |
| BlockPropagation.PropagateBlock | src/core/run-scheduler.js:300-322 | the sweep in place computes `Propagate`, on cyclic graphs too |
| BlockPropagation.LiveTasksAreBlocked | src/core/run-scheduler.js:300-322 | only waiting tasks downstream of the failed one become blocked, and all reachable through waiting tasks do |
| BlockPropagation.PropagateIsExact | src/core/run-scheduler.js:300-322 | if every waiting task downstream is so through waiting tasks, exactly the waiting tasks downstream are blocked; a closed blocked set is closed again |
| BlockPropagation.ClosedIsLive | src/core/run-scheduler.js:300-322 | a closed blocked set is enough for that |
| BlockPropagation.AlwaysBlockedIff | src/core/run-scheduler.js:303-321 | a task is blocked under all statuses in which it waits if and only if the first sweep takes it in, that is, if a path in graph order leads to it |
| BlockPropagation.NothingWaitsOnBlocked | src/core/run-scheduler.js:305-319 | no task is left waiting on the failed one or one blocked because of it |
| BlockPropagation.SkippedTaskHidesDependents | src/core/run-scheduler.js:303-321 | an input on which the loop stops early |
| RunScheduler.PickMeans | src/core/run-scheduler.js:170-194 | the pick is the first task in graph order that may start, and there is one whenever any may: a free slot, nothing solo in flight, the task pending or ready with its dependencies completed, and alone if it is solo |
| RunScheduler.Scheduler.PickLaunchable | src/core/run-scheduler.js:170-194 | the loop finds the first task that may start, and nothing only if none may |
| RunScheduler.Scheduler.LaunchAll | src/core/run-scheduler.js:118-123 | launches one after the other until nothing is launchable |
| RunScheduler.Scheduler.TaskAnswered | src/core/run-scheduler.js:261-290 | the result goes into a record read afresh, with downstream tasks blocked on failure |
| SchedulerRuns.RunKeepsInv | src/core/run-scheduler.js:104-164 | every run keeps the invariant the results below rest on |
| SchedulerResults.RunIsSafe | src/core/run-scheduler.js:170-194 | in every state of every run: at most maxParallel in flight, a task that is not parallel-safe is alone, none starts twice, all started ones were waiting and have their dependencies completed |
| SchedulerResults.SweepUsesSlots | src/core/run-scheduler.js:115-131 | in every run: when a sweep ends uncancelled, a slot stays free only if no parallel-safe task could use it, or something solo is in flight, and with nothing in flight no task could start; once the loop is over none is left that could |
| SchedulerResults.VerdictMeans | src/core/run-scheduler.js:139-150 | completed, failed or paused, read off the statuses of the record |
| SchedulerResults.ExecuteTerminates | src/core/run-scheduler.js:115-134 | at most 8n+7 effective steps whatever the interleaving, and something can happen until the end |
| SchedulerResults.RecordsAreTrue | src/core/run-scheduler.js:265-290 | every status the store ever holds is true to what happened, and so is a reported outcome |
| SchedulerResults.OnlyFirstReadyStart | src/core/run-scheduler.js:113-134 | with a store that re-reads its file exactly the tasks ready at the beginning start |
| SchedulerShared.SharedRunSettles | src/core/run-scheduler.js:11-19 | with a shared store a fresh acyclic graph is settled: run are exactly the tasks with nothing failed upstream, the rest is blocked, completed if no runner failed and failed otherwise |
| SchedulerForgets.LaterSaveForgets | src/core/run-scheduler.js:206 | a later launch's save makes the store forget every result recorded before |
| SchedulerForgets.ForgottenRunEndsPaused | src/core/run-scheduler.js:136-150 | a run that has forgotten a result can only end paused |
| SchedulerForgets.SuccessIsForgotten | src/core/run-scheduler.js:113-206 | a concrete run in which a success is lost |
| SchedulerKeeps.ResultStaysIff | src/core/run-scheduler.js:196-206 | in every reachable state: a result stays in the store in all continuations if and only if the store and all copies about to be saved hold it, no launch's save is under way and none will be |
| SchedulerKeeps.NoResultIsLostIff | src/core/run-scheduler.js:104-134 | before the call: no run loses a recorded result if and only if the store shares its object, the scheduler is cancelled already or no task is ready |
| SchedulerForgets.OutcomeStaysIff | src/core/run-scheduler.js:152-156 | the recorded outcome stays if and only if the store holds it and no launch's save is under way |
| SchedulerKeeps.NoOutcomeIsLostIff | src/core/run-scheduler.js:104-156 | before the call: the outcome stays in every run if and only if the store shares its object, the scheduler is cancelled already or no task is ready |
| SchedulerForgets.OutcomeSticks | src/core/run-scheduler.js:152-156 | with no save under way the whole record stays |
| SchedulerForgets.PendingSaveUnsticks | src/core/run-scheduler.js:206 | otherwise "running" can come back |
| SseClient.ParseSseBlock | app/utils/sse-client.ts:91-106 | the loop over lines computes the block's event, none without a data line |
| SseClient.BlockMeans | app/utils/sse-client.ts:91-105 | a block is an event exactly if some line carries data: all the data, line by line, under the name given last or "message"; one space after the colon does not belong to a value |
| SseClient.ReadStream | app/utils/sse-client.ts:59-88 | for every cutting into chunks the events are those of the whole text in one piece; errors and close are reported as the stream ends |
| SseClient.Resume | app/utils/sse-client.ts:63-75 | more text leaves complete blocks alone and goes on where they end, delimiters split across chunks included |
| SseClient.DeliveredIsPrefix | app/utils/sse-client.ts:60-75 | what is delivered after any chunk is a prefix of the final sequence |
| SseClient.BlankHasNoEvent | app/utils/sse-client.ts:78-81 | the trim test never suppresses an event |
| SseClient.ParsePrinted | app/utils/sse-client.ts:63-81 | printing events and reading them back through any chunks gives the same list if and only if no name has a newline |
| CompanyDispatch.CompanyRuntime.EnqueueDispatch | src/core/company-runtime.js:247-255 | the whole new state of accepting or dropping a task |
| CompanyDispatch.CompanyRuntime.ProcessNextDispatch | src/core/company-runtime.js:263-269 | the whole new state when a role begins its next task; none begins while no poller is registered |
| CompanyDispatch.CompanyRuntime.DispatchSettled | src/core/company-runtime.js:272-280 | the path is freed and the role drains on |
| CompanyDispatch.Supervisor.Tick | src/core/supervisor.js:116-125 | an undisturbed tick marks and reports exactly the overdue ones |
| CompanyRuns.LinesMove | src/core/company-runtime.js:247-281 | a task enters its role's line at the end and leaves it at the front |
| CompanyRuns.RunKeepsRuntimeInv | src/core/company-runtime.js:218-281 | the invariants behind the rows below over every interleaving, the start of the pollers included |
| CompanyRuns.RolesAreServedInOrder | src/core/company-runtime.js:263-281 | per role: one dispatch at a time, begun in order of arrival, none lost; an idle role has finished all it accepted if and only if it accepted nothing before the first poller was registered or something since |
| CompanyRuns.EarlyTaskWaits | src/core/company-runtime.js:228-267 | a task picked up before its poller is registered stays queued at an idle role, whatever else happens, until another file arrives for the role |
| CompanyRuns.PathsAreUnique | src/core/company-runtime.js:247-249 | inFlightPaths is the disjoint union of queued and active paths over all roles |
| SupervisorRuns.PendingIsRunning | src/core/supervisor.js:65-80 | pending is exactly the running dispatches begun since listening; its keys are active paths |
| SupervisorRuns.FirstWatchCounts | src/core/supervisor.js:60-80 | the supervisor watches from its first start on, and what began before is not watched |
| SupervisorRuns.ReportedOnceAndLate | src/core/supervisor.js:116-134 | with overlapping ticks each dispatch is reported at most once and only past its limit |
| EventIndex.CompanyEventIndex.Append | src/core/company-event-index.js:108-129 | inserts or ignores; fails exactly on a closed index or a missing id, at or type |
| EventIndex.CompanyEventIndex.RebuildFromDisk | src/core/company-event-index.js:191-215 | the nested loops replay all lines of all files |
| EventIndex.CompanyEventLog.Append | src/core/company-event-log.js:54-73 | the line goes to the log whatever happens to the index |
| EventIndex.ReplayIsRebuildIff | src/core/company-event-index.js:191-215 | a replay equals one from an empty table if and only if the rows there are among its rows |
| EventIndex.RunKeepsInv | src/core/company-event-log.js:61-71 | in every run an event of the index is one of the log, or its line ran together with one that was cut off |
| EventIndex.RebuildRestoresIff | src/core/company-event-index.js:176-215 | after any appends, lost index writes, writes cut off anywhere and dropped databases: a rebuild brings in the whole log and is idempotent, from empty it is exactly the log in any file order, and from the table there it is the same if and only if no row is of an event whose line ran together with another |
| EventIndex.RebuildRestoresIndex | src/core/company-event-index.js:176-215 | with no write cut off every rebuild is exactly the log |
| EventIndex.TornEndKeepsRow | src/core/company-event-log.js:61-71 | behind a broken line an event is indexed that no line holds; a rebuild keeps it, one from empty does not |
| EventIndex.RepeatedIdSticks | src/core/company-event-index.js:115 | with a repeated id a rebuild can keep the wrong event |
| EventQueries.KeepAnswers | src/core/company-event-index.js:146-151 | reading one more event keeps the newest `limit` ones |
| EventQueries.AnswersAreUnique | src/core/company-event-index.js:150-151 | the query has one correct answer |
| EventQueries.RecentIsAPassOverTheLog | src/core/company-event-index.js:140-165 | `recent` on a rebuilt index is what one bounded pass over the log keeps |
| EventQueries.RecentMeans | src/core/company-event-index.js:140-165 | `recent` word for word: events of the log asked for, newest first with ties by id, at most `limit`, and any other one asked for is older than all of a full answer |
| EventQueries.PendingMeans | src/core/company-event-index.js:217-230 | query and pass word for word: starts whose file has no end at that time or later, and starts with no end behind them |
| EventQueries.PendingIsAPassIff | src/core/company-event-index.js:217-230 | for timestamps that never go back within a task file the query equals the pass exactly if masked starts are closed later anyway |
| EventQueries.PendingIsAPassByTime | src/core/company-event-index.js:217-240 | with timestamps that increase within each task file the correct answers are what the left fold leaves open, by time, for any crashes and re-dispatches |
| EventQueries.PendingIsAPassOverTheLog | src/core/company-event-index.js:217-240 | with timestamps that increase over the whole log it equals the left fold, order included |
| TurnBroker.ReadEventsSince | src/core/session-store.js:180-194 | the loop gives the well-formed entries after the cursor |
| TurnBroker.Broker.ResolveRunner | src/core/turn-broker.js:115-144 | reuse of a live runner, replacement of a dead one, caching of keep-alive ones only |
| TurnBroker.Broker.OnEvent | src/core/turn-broker.js:179-196 | text bookkeeping and one log entry |
| TurnBroker.Broker.PromptSettled | src/core/turn-broker.js:232-279 | retry, failure or reply |
| TurnBroker.Broker.SettleMeta | src/core/turn-broker.js:306-333 | status and cursor at the end, a dead runner's session closed |
| TurnBroker.Broker.CloseTurn | src/core/turn-broker.js:334-344 | not running any more, idle timer armed for a cached runner |
| TurnBroker.Broker.RunTurn | src/core/turn-broker.js:155-351 | an undisturbed turn is a run of the machine, from startTurn to its end |
| TurnRuns.RunKeepsInv | src/core/turn-broker.js:155-351 | every run, crashes included, keeps the invariant |
| TurnRuns.TurnIsReadBack | src/core/turn-broker.js:161-171 | at every moment of a turn its numbers are contiguous from startSeq+1 and reading from startSeq, the cursor kept while it runs, gives exactly its events |
| TurnRuns.EndedTurnIsReadBack | src/core/turn-broker.js:300-344 | after the turn and before the next one reading from its startSeq gives exactly its events, the cursor is null and the status not running |
| TurnRuns.TurnsEndOnce | src/core/turn-broker.js:300-344 | one of done and turn_failed, once and last, at most one session_reset, afterwards status not running and cursor null, idle timer never armed while running |
| TurnRuns.ReadBackIff | src/core/session-store.js:164-194 | on a log with a whole last line, reading back is exact if and only if no number is above its last |
| TurnRuns.AlwaysReadsBackIff | src/core/session-store.js:164-194 | every turn that finds a log, whatever it comes to, can be read back if and only if the last line is whole and no number is above it |
| TurnRuns.TornEndLosesFirst | src/core/session-store.js:157-175 | behind a line cut off the next event is lost; if the stub does not parse, numbers restart and old events are repeated |
| TurnReplies.TurnsReplyWhatTheySaid | src/core/turn-broker.js:179-300 | every turn that ended failed exactly if its last prompt threw, or reported an error with nothing said; otherwise its message is the text of its chunks since the last reset, with an empty line where a tool call came between, trimmed, or the answer's own text, or "(keine Antwort)" |
| TurnReplies.FinishMeans | src/core/turn-broker.js:221-282 | how the end of a prompt is taken: failure, another attempt for an expired session, or the reply |
| TurnReplies.TrimMeans | src/core/turn-broker.js:223 | trimming removes exactly the blanks at both ends |
| TurnReplies.SpacesAre | src/core/turn-broker.js:223 | the characters `trim` takes for blank |
| TurnSessions.RunnersAreReused | src/core/turn-broker.js:115-144 | in every run a turn takes over the cached runner if it is alive, with its idle timer stopped; a dead one is dropped and a fresh one made, cached exactly if it is to be kept alive |
| TurnSessions.IdleIsTimed | src/core/turn-broker.js:122-133 | the idle timer of a cached runner is armed exactly while no turn uses it |
| TurnSessions.DeadRunnersAreDropped | src/core/turn-broker.js:306-333 | at its last write a turn drops the cached session exactly if it failed and the runner it kept alive is dead |
| TurnSessions.TurnsDoNotOverlap | src/core/turn-broker.js:155-162 | a turn begins only if none is in progress, with the last number of the log |
| TurnSessions.CrashMeans | src/core/session-store.js:157-162 | what a crash leaves at the end of the log, and of the session |
| JsBits.Int32Means | server/shared/utils/bridge-subnet-allocator.ts:80-82 | an int32 is congruent to the number and lies between -2^31 and 2^31-1 |
| JsBits.AndClears | server/shared/utils/bridge-subnet-allocator.ts:81-82 | and-ing with a mask clears the low bits |
| JsBits.AllOnesShifted | server/shared/utils/bridge-subnet-allocator.ts:81 | the int32 shift of ~0 is the mask |
| Subnets.RawIsAddress | server/shared/utils/bridge-subnet-allocator.ts:80 | int32 shifts and ors of four octets give the 32-bit address |
| Subnets.MaskedIsRounded | server/shared/utils/bridge-subnet-allocator.ts:81-82 | masking rounds down to a multiple of 2^(32-prefix), prefix 0 and 32 included |
| Subnets.ParseCidrMeans | server/shared/utils/bridge-subnet-allocator.ts:62-83 | exactly the texts of four octets and a prefix up to 32 are accepted, as the rounded address |
| Subnets.PrintedIsParsed | server/shared/utils/bridge-subnet-allocator.ts:62-87 | parsing a printed address gives it back, rounded to the prefix |
| Subnets.DecimalIsShortest | server/shared/utils/bridge-subnet-allocator.ts:85-87 | a printed octet has no zero in front |
| Subnets.PrintingIsInjective | server/shared/utils/bridge-subnet-allocator.ts:85-87 | comparing texts is comparing addresses |
| Subnets.AllocateBridgeSubnet | server/shared/utils/bridge-subnet-allocator.ts:31-60 | the loop computes `Allocate` |
| Subnets.AllocationMeans | server/shared/utils/bridge-subnet-allocator.ts:52-59 | the lowest free slot, an aligned /24 inside the pool and inside 32 bits; exhausted exactly when all 2^(24-prefix) are used |
| Subnets.SubnetsStayDisjoint | server/shared/utils/bridge-subnet-allocator.ts:46-57 | after any allocations and releases no address belongs to two orgs |
| ReportingDag.CheckReferences | src/agents/spec-loader.js:114-127 | accepts exactly known references, otherwise names the first unknown one |
| ReportingDag.WalkUp | src/agents/spec-loader.js:135-148 | one walk finds a real cycle or settles its roles |
| ReportingDag.CheckChains | src/agents/spec-loader.js:132-149 | accepts exactly if every chain reaches a root, in a linear number of steps |
| ReportingDag.ValidateReportingDag | src/agents/spec-loader.js:113-150 | returns normally exactly if all references are known and every chain reaches a root |
| ReportingDag.CyclesAreEndless | src/agents/spec-loader.js:129-149 | a graph has a cycle if and only if some chain never ends |
| MetaWrites.MetaStore.EnqueueMetaWrite | server/shared/utils/project-repository.ts:31-46 | the whole new state of a call |
| MetaWrites.MetaStore.EndOperation | server/shared/utils/project-repository.ts:103-180 | the write half of each operation; two of them answer a write that meets a missing directory with success |
| MetaWrites.MetaStore.Cleanup | server/shared/utils/project-repository.ts:39-44 | the callback of finally |
| MetaWrites.WritesAreSerial | server/shared/utils/project-repository.ts:31-46 | concurrent calls leave what they leave one at a time in call order, with the same answers; each is rejected exactly in the cases of the source, a rejected one has changed nothing, and a fulfilled one has changed the fields it is for and no others unless it swallowed ENOENT |
| MetaWrites.SomeCallGoesOn | server/shared/utils/project-repository.ts:38 | failures hold nothing up |
| MetaWrites.OtherProjectsStay | server/shared/utils/project-repository.ts:27-37 | however long the calls for other projects go on, a project's file stays as it is |
| MetaWrites.EntriesStay | server/shared/utils/project-repository.ts:39-44 | the map's entry of a project is never removed |
| CapabilityGate.FindGrantInOrder | src/core/capability-gate.js:60-68 | the loop finds the first matching grant |
| CapabilityGate.GateMeans | src/core/capability-gate.js:14-75 | allowed exactly under a grant that is the capability or the wildcard of its class (for the empty request, unless the first match is the empty grant); approval needed exactly for "payment:execute_unrestricted", "secrets:read_vault" and the class "account" |
| CapabilityGate.OrderMattersOnlyForEmpty | src/core/capability-gate.js:32-39 | which matching grant is met first plays no part if and only if the request is not empty |
| CapabilityApproval.CapabilityApprovalService.Resolve | src/core/capability-approval-service.js:200-222 | the whole new state, true exactly for a pending request |
| CapabilityApproval.CapabilityApprovalService.OnTimer | src/core/capability-approval-service.js:146-177 | the whole new state of a timeout |
| CapabilityApproval.TimeoutMeans | src/core/capability-approval-service.js:272-297 | a timeout escalates if the policy says so, to escalate_to, else reports_to, else "ceo", and otherwise denies |
| CapabilityApproval.TransportMeans | src/core/capability-approval-service.js:133-143 | a transport's answer counts like a decision if it approves or denies, and else for nothing |
| CapabilityApproval.RunKeepsInv | src/core/capability-approval-service.js:91-222 | pending, timers and settlements agree in every run |
| CapabilityApproval.SettledByTheFirst | src/core/capability-approval-service.js:133-222 | pending holds exactly the waiting requests, and a settled one was settled by the first attempt since it was registered |
| CapabilityApproval.FirstAnswerWinsIff | src/core/capability-approval-service.js:104-203 | of all answers to a settled request the first one decides if and only if none came before the request was registered |
| CapabilityApproval.EarlyApprovalIsLost | src/core/capability-approval-service.js:106-203 | an approval given between the request's event and its registration is dropped, and the timeout decides |
| CapabilityApproval.SettledForGood | src/core/capability-approval-service.js:200-204 | a settlement is final |
| CapabilityApproval.SensitiveNeedsApproval | src/core/company-runtime.js:452-473 | allowed exactly under such a grant and, for those capabilities, an "approved" answer, which a decision or a transport gave and never a timeout |

## Left out

- Runners, containers, git, HTTP, the databases' own machinery: a runner is an oracle with any result, tables are maps with row locks and atomic commit.
- The lock-free reader `spec-public-state.get.ts`: it may pair an old version with new files, and nothing is claimed about it.
- DraftStores.DraftStore.ReadPublicSpecFiles: states the files and that each comes once, not the locale-dependent order of the final sort; a missing specs/ is an empty one.
- Timestamps, ids and titles of drafts beyond what the protocol compares; `listDraftsForUser` and the other plain queries.
- The foreign-key lock an insert of a draft takes on its project: the model lets creates through at more moments than the database does.
- Disk failures during publish other than a name that belongs to a directory appear as an abort with whatever is on disk at that step, not as a half-written file. A symbolic link is taken to lead to a file outside specs/ (what the write does there is not modelled) or, if to a directory, counts as one; a link to another file of specs/ is not part of this model.
- SseClient.ReadStream: works on decoded characters; a rejected fetch or an error status before the loop is not modelled. The parser's deviations from sections 9.2.5 and 9.2.6 of the HTML Living Standard (LF only, lines without a colon ignored, the unterminated last block delivered) are the code's and are kept.
- Orchestrator.SpecOrchestrator.StartRun: the events it appends, the review it asks a provider for and the two failing loads before the checks are not in the state.
- RunScheduler: prompts, log texts, event emission and the runner's fallback chain; task ids are taken to be unique, store operations to succeed and to replace the file as a whole, and the runner factory not to throw.
- SchedulerForgets.LaterSaveForgets: is about a save with no other write under way; `ResultStaysIff` has no such condition.
- SchedulerForgets.ForgottenRunEndsPaused: is about a run not yet judged when the result is forgotten; one judged before keeps the outcome it was judged with.
- CompanyDispatch: the span from the first listener of `start` to `stop` only; `_recipientsFor`, the content of log entries and the removal of finished task files.
- CompanyDispatch.Supervisor.Tick: as a method it covers a tick nothing interrupts; interrupted and overlapping ticks are the `Visit` steps of the machine.
- EventIndex: event lines are records, not JSON texts; blank and malformed lines are `Junk`, and so are two texts that ran together on one line.
- EventQueries.PendingIsAPassByTime: order among equal timestamps is left open by SQL and only fixed by increasing timestamps (`PendingIsAPassOverTheLog`).
- TurnBroker: one session; sessions share nothing but `closeAllSessions`, which is a step here. Overlapping starts for one session, updates after a prompt has settled and failing store operations are excluded, as in the code's own assumptions; message files, the text of the retry prompt and costs are not modelled.
- TurnRuns.TurnIsReadBack, TurnRuns.EndedTurnIsReadBack: are about runs in which no line is cut off; `AlwaysReadsBackIff` and `TornEndLosesFirst` cover the rest.
- Subnets: rows are taken to satisfy the table's own constraint that every subnet is a /24; the advisory lock is modelled as each allocation being one step.
- MetaWrites: checks of the URL before a call is queued, JSON syntax, a file half written by a failing write, files removed by somebody else, and the unhandled rejection of a stored promise.
- CapabilityApproval: parsing of timeout texts, notifications and stored events; fresh request ids are a condition of the runs.
- Encryption, access checks, user interface code and configuration: they would only add easy members.

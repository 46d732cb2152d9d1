# Verified model of the exercise engine

A Dafny 4.11 model of how a tabletop exercise runs: a scenario graph is walked by per-team cursors,
injects are released by hand or on schedule, responses move cursors, a pause-aware clock and a durable
job queue decide when things happen, and committed events reach every replica. `dafny verify
dfyconfig.toml` checks the whole project.

Tables are maps, one committed transaction is one atomic step, instants are whole microseconds under a
clock that never goes back, and a "run" is any finite sequence of steps. Everything under "main result"
below holds of every run, for every definition, every interleaving and every stale caller.

## How the files fit together

| file | what it holds |
|---|---|
| `Scenario`, `Validation` | the authored graph, its lookups, and the validator that accepts it |
| `Progression`, `ProgressionInvariants` | the rows of one run, every transaction on them, and what each transaction keeps |
| `Provenance`, `CursorLedger`, `Timeline`, `Suggestions` | why an inject could be released, how often a cursor moved, the derived view, the suggested next injects |
| `Outcomes`, `RunOutcomes`, `QueueOutcomes`, `ReleaseDecisions` | each transaction told in stored fields alone: when it goes through and what it changes, which release jobs it queues and for when, what a worker decides |
| `Lifecycle`, `Clock` | the exercise row's compare-and-swap under stale callers, its log, and three clocks against one definition of active time |
| `Scheduling`, `ScheduleTheorems`, `ReleaseTiming` | the run with its release jobs: nothing lost, stale jobs only early, re-deferral bounded |
| `OffsetEdits`, `Refusals`, `ScheduleWitnesses` | which offset edits take effect and when no release is late, which moves take a refused release up again, and the runs in which each promise fails |
| `MessageTheorems`, `MessageTiming`, `MessageQueue`, `TriggerKeys` | triggered communications: exactly once, none forgotten, never early, queued for the delay the definition gives and runnable when it has passed |
| `RunTheorems` | the progression results restated for runs with workers and retries |
| `ExerciseRecord`, `RunStore` | the same run as classes whose fields the services update in place; each method refines its transaction's specification function, and the theorems are about those functions |
| `Events`, `Outbox`, `OutboxTheorems`, `EventBuffer` | domain events, their descriptors, the transactional outbox across replicas, and the session buffer as a class |
| `ConfigSync` | one replica's configuration caches against LISTEN/NOTIFY: the consumer, the reconnect hook and saving requests, each with its read and its install as separate steps |
| `LaunchSnapshot`, `ScenarioLibrary` | the canonical launch content, and the definition an exercise sees while the library is edited, with the library's rows as a class |
| `RateLimit`, `Communications` | the sliding-window limiter and its sweep; who may read a message; each with its tables as classes |
| `Wrappers`, `Filtering`, `Sorting`, `Ordering` | options and results, filtering, a stable sort, string and key orders |

## What the results found

Where the code falls short of what its comments promise, the model keeps the code, and a lemma says
exactly where the line runs.

- **A stale resume distorts the pause total.** The swap compares the state only
  (`app/services/exercise_service.py:148-154`), while the new total is computed from the caller's copy.
  The comment there says a stale request cannot overwrite a completed pause calculation; it can, when a
  pause, a resume and a second pause happen between its read and its swap. `PacingStaysExactExactlyWhen`
  gives the condition, `StaleResumeDrifts` a history. The lifecycle log itself is never affected.
- **Completing from paused leaves the last pause out of the total**
  (`app/services/exercise_service.py:139-145`), so the browser's clock is ahead by exactly that pause.
- **An offset edited while paused is not re-armed**: the edit adds no job, and the resume skips an inject
  that still has one (`app/services/schedule_service.py:193-200`, `:228`), so a shortened offset waits for
  the old time. `PausedEditRunsLate` is such a run, for every definition. `EditTakesEffectExactlyWhen`
  says which edits take effect: exactly those made while running, or with nothing waiting, or with
  something waiting at that offset already.
- **An offset shortened while running can be lost too.** The worker's comment says a pause re-defers
  everything on resume (`app/services/task_queue.py:176-177`); the job the edit added stands down if it
  falls due in a pause, and the resume skips the inject because of the old job. `RunningEditCanBeLost` is
  such a run. What does hold: if no edit comes upon a job later than the new offset, then once the
  exercise has been active for the inject's offset every job of it may run (`DueReleasesAreRunnable`); every
  first schedule and postponement is such an edit (`PostponingIsTimely`).
- **A job refused for an empty audience is not re-armed by a later enrolment**: `EnrolmentDoesNotRearm` is
  a run that ends with the release due, its audience present, and no job. `RefusalLiftedExactlyWhen`
  lists the moves that take it up again: an edit of its offset while running, a response whose cursor
  reaches it, the next re-enqueue, an older job coming back.
- **Two refreshes of one configuration scope can cross**, and the one that read first may install last. The
  tasks are the consumer, the reconnect hook, and every request that saves settings, which re-reads the row
  after its commit (`app/services/general_settings_service.py:93-96`, and likewise for the other five
  scopes). `CrossedRefreshGoesStale` and `SavingRequestGoesStale` are runs that end with nothing of the scope
  in flight or missed and an old value cached. `QuietCacheEqualsRow` is the exact condition, `InstallShowsRowExactlyWhen` the check an install
  could make, `CacheIsCoherent` what installing in the order of the reads would give, and
  `AtomicRefreshesAreCoherent` what refreshes without an interruption give.
- **Two responders at the closing instant**: the stored resolver and the one derived from the rows may
  differ, and only then (`ScalarEqualsProjection`, `TiedResolverDependsOnOrder`).
- **Each re-deferral consumes a pause longer than the epsilon** (`app/services/task_queue.py:180-185`) is
  true of the pauses between two re-deferrals taken together, not of a single one: `ShortPausesAddUp` is a
  run with two pauses of seven tenths of a second and one re-deferral. `RedefersAreBounded` states what
  follows.
- **Tied log entries may misfold**: the log is read without an order, so a pause and a resume at one instant
  may be folded the wrong way round (`TiedRowsMisfold`); the clock results ask for distinct instants.
- **A widened rate-limit window may miss swept hits**; with fixed limits the sweep is invisible
  (`WidenedWindowMayForget`, `SweepIsInvisible`). A limit of zero or less still lets one attempt through.
- **A blank node id counts as no node for the release gate and as a node for the cursor**
  (`app/services/progression_service.py:191` against `:227`): answering such an inject moves the cursor
  to a dead end (`CursorMovesExactlyWhen`). Scenario validation never produces one.

## Model

| member | source | states |
|---|---|---|
| Provenance.BranchProvenance | app/services/progression_service.py:212-254 | main result: every released scenario inject is the end of a path from the start or an unreferenced node; each hop was released, then resolved by a context whose first responder's recorded selection names the option - or, with no options, nothing - that leads to the next node, before the next release; the path is shorter than the number of nodes |
| Provenance.UnchosenBranchesStayDead | app/services/progression_service.py:186-254 | main result: once every audience context of p has resolved it and none chose m, no continuation in which no facilitator creates another inject of node p releases m or opens its gate, by hand or on schedule |
| Provenance.AudienceIsImmutable | app/services/progression_service.py:54-96 | main result: an opened inject has a row for exactly the groups of enrolled participants that it is scoped to or targets, under today's roster and for ever; it never reopens or disappears, and no resolution changes |
| Provenance.OnlyReleaseOpens | app/services/inject_service.py:146-161 | no other transaction takes an inject out of pending |
| RunTheorems.EveryReleaseWasChosen | app/services/task_queue.py:153-203 | the provenance result for runs with workers, duplicate and retried jobs, and stale requests |
| RunTheorems.EveryAudienceIsCurrent | app/services/progression_service.py:54-78 | the audience result, group by group, for the same runs |
| ProgressionInvariants.ExecutionKeeps | app/services/progression_service.py:119-209 | every run keeps the row invariants, and opened injects, audiences, resolutions and responses are permanent |
| ProgressionInvariants.ReseedingAddsNothing | app/services/progression_service.py:142 | recomputing the audience when a response arrives adds no row |
| ProgressionInvariants.ResolutionKeepsInject | app/services/progression_service.py:161-187 | a shared inject closes when its last context resolves and not before, and the scalar then agrees with the rows |
| ProgressionInvariants.ReleaseKeeps | app/services/inject_service.py:105-180 | a release freezes a non-empty audience and keeps every invariant |
| ProgressionInvariants.RosterKeeps | app/services/exercise_service.py:261-398 | roster edits keep every invariant as long as nothing has been released |
| ProgressionInvariants.AudienceExactlyWhen | app/services/progression_service.py:33-51 | a path is in an inject's audience if and only if some enrolled participant - no facilitator, no observer - is on it and the inject is scoped to it, targets it, or is for everyone |
| Outcomes.GateExactlyWhen | app/services/progression_service.py:212-254 | the gate lets an inject out if and only if it has no node, some cursor stands on its node, there are no cursors, or no branch links to its node and, for a facilitator, no branch has been taken yet |
| Outcomes.ReleaseOutcome | app/services/inject_service.py:105-180 | a release goes through if and only if the inject is pending, its gate open and somebody is to receive it; it opens one unresolved row per such group, stamps instant and actor, and changes nothing else |
| Outcomes.ResponseOutcome | app/services/progression_service.py:119-209 | a response goes through if and only if the inject is released and this user has not answered; the first of an eligible path resolves that path's row and no other, and the inject closes with the last row, at its instant and by its user |
| Outcomes.CreatedExactly | app/services/exercise_service.py:40-84 | a new exercise has, node by node in the authored order, one pending inject with the node's offset per target team or one for all, and every path's cursor at the start |
| Outcomes.CreateOutcome | app/routers/injects.py:253-276 | a facilitator's inject is pending and unscheduled, scoped to the group named or to its only target team, and no other inject changes |
| Outcomes.RosterOutcome | app/services/exercise_service.py:261-398 | an enrolment, regrouping or removal goes through if and only if nothing has been released and the team is known; a repeated enrolment changes nothing, a regrouping keeps the role, and no other member changes |
| RunOutcomes.DeleteRequest | app/routers/injects.py:296-312 | an inject is deleted if and only if it is pending, the exercise not completed, and the inject the run's own or the exercise still a draft |
| RunOutcomes.ReleaseRequest | app/routers/injects.py:363-388 | a release needs the exercise active besides what the board asks, and commits exactly the board's release |
| RunOutcomes.AnswerRequest | app/services/response_service.py:70-141 | a response needs its request to have seen the exercise active besides what the board asks, and commits exactly the board's response |
| CursorLedger.CursorConservation | app/services/progression_service.py:135-209 | main result: one cursor move per resolved scenario row, no move without one, each to the target of the option its first responder selected or of the linear successor, and every cursor where its last move left it |
| CursorLedger.CursorMovesExactlyWhen | app/services/progression_service.py:142-209 | a response moves the cursor of its path if and only if that path is eligible, unresolved and on an inject with a node; then to where its selection leads, and nowhere at a dead end; replays and ad-hoc injects never move one |
| Timeline.ScalarEqualsProjection | app/services/timeline_service.py:173-206 | main result: derived state and instant are the stored ones, and so is the resolver unless the closing instant is shared |
| Timeline.TiedResolverDependsOnOrder | app/services/timeline_service.py:180-187 | with a shared closing instant some row order derives another resolver |
| Timeline.DerivedExactly | app/services/timeline_service.py:173-206 | the derived view is resolved, by the latest row, once every row is; before that released, or pending if never released; and as stored without rows |
| Suggestions.SuggestionsBulk | app/services/response_service.py:161-193 | the batched suggestions are, response by response, what the per-row query gives |
| Suggestions.SuggestedExactlyWhen | app/services/response_service.py:161-229 | an inject is suggested if and only if it is loaded, pending, on the node the response's selection leads to, and scoped to the responder's group, targeting it, or for everyone |
| Suggestions.SuggestionsAreReleasable | app/services/response_service.py:196-229 | a response that moved its cursor suggests only pending injects at the chosen successor that the gate now lets out |
| Scenario.ReferencedCharacterised | app/services/progression_service.py:245-254 | the collected set is exactly the targets of the graph's edges |
| Scenario.NextNodeFollowsAnEdge | app/services/response_service.py:51-67 | a response opens at most one successor, and only along an authored edge |
| Scenario.FindNodeCharacterised | app/services/scenario_service.py:126-128 | the lookup returns the first node with the id, or none exists |
| Scenario.OptionTargetIsAnOption | app/services/scenario_service.py:139-151 | a branch resolves to the target of the first option with the chosen id, and to none if no option has it |
| Scenario.NextNodeExactlyWhen | app/services/response_service.py:51-67 | a response opens a node if and only if, at the first node with its inject's node id, it selects an option whose first occurrence leads there, or selects nothing where there are no options and the linear successor is that node |
| Validation.ValidateStructure | app/schemas/scenario_json.py:134-182 | the validator accepts exactly the definitions of acceptable size with unique ids, known references and no cycle |
| Validation.CheckNode | app/schemas/scenario_json.py:157-177 | a node passes if and only if its teams and successors are known and its option ids unique |
| Lifecycle.LifecycleLogIsHistory | app/services/exercise_service.py:103-206 | main result: under arbitrarily stale callers the log is a chain of valid transitions from draft ending in the row's state; the start is stamped once, the end exactly at completion |
| Lifecycle.TransitionOutcome | app/services/exercise_service.py:118-177 | a request succeeds if and only if the state it saw is still the state and it goes from draft to active, active to paused or completed, or paused to active or completed; it appends exactly that transition |
| Clock.FoldIsActiveTime | app/services/schedule_service.py:77-97 | main result: for a release made while active and a log whose instants strictly increase, the fold over the log, read in any order, is the number of active instants since |
| Clock.AccumulatorIsActiveTime | app/services/schedule_service.py:58-67 | while active the accumulator clock is the active time since the start |
| Clock.ClientClockIsActiveTime | static/js/app.js:225-238 | the browser's clock is the active time since the start, plus exactly the last pause after completing from paused |
| Clock.TiedRowsMisfold | app/services/schedule_service.py:87-95 | a pause and a resume at one instant, read the other way round, count the time since as paused |
| Clock.ClocksAgree | app/services/schedule_service.py:58-97 | main result: over any history whose resumes read current pause fields and whose log instants strictly increase the three clocks agree |
| Clock.PacingStaysExactExactlyWhen | app/services/exercise_service.py:137-145 | a transition keeps the pause total exact if and only if it is not a resume with an outdated pause reading |
| Clock.StaleResumeDrifts | app/services/exercise_service.py:148-154 | a history in which a stale resume wins the swap and the total is wrong |
| Clock.ComputeActiveElapsed | app/services/schedule_service.py:77-97 | the loop over sorted transitions computes the fold the results are about |
| ScheduleTheorems.NoScheduledReleaseIsLost | app/services/schedule_service.py:204-231 | main result: in an active, re-enqueued run every pending scheduled inject has a job that will act, or a shut gate, or was refused under a roster in which no participant was meant to receive it |
| ScheduleTheorems.RunIsAProgression | app/services/task_queue.py:153-203 | every run with workers is, row for row, a run of the progression engine |
| ScheduleTheorems.GateOpensOnlyWhereReached | app/services/schedule_service.py:341-379 | a response opens the scheduled gate only of injects its cursor reached, which it arms |
| ScheduleTheorems.StandDownIsJustified | app/services/task_queue.py:166-201 | a worker stands down only for a settled inject, an exercise not running, or a shut gate |
| ReleaseDecisions.WorkersDecideExactly | app/services/task_queue.py:166-201 | in a run whose resumes read current pause fields, a worker that reads the rows comes back if and only if more than a second of active time is left of the offset in minutes, else releases if the gate is open, and stands down in every other case |
| ReleaseDecisions.ScheduledReleasesAreNeverEarly | app/services/task_queue.py:153-203 | main result: an inject released by schedule had been read by a worker while active, pending and with its gate open, when active time had reached the offset it then had, less a second - whatever was paused, edited or retried in between |
| QueueOutcomes.EditQueues | app/routers/injects.py:396-431 | an offset edit is refused exactly after completion, on frozen configuration and on an inject not pending; it queues one job for the new offset, in minutes of active time and not before now, exactly when active, and changes no other job |
| QueueOutcomes.AnswerQueues | app/services/schedule_service.py:341-379 | a response queues one such job for each pending scheduled inject some cursor now stands on, and no other |
| QueueOutcomes.RearmQueues | app/services/schedule_service.py:204-231 | the re-enqueue queues one such job for each pending scheduled inject with none waiting, and no other |
| QueueOutcomes.ReturnQueues | app/services/task_queue.py:180-185 | a release job sent back is replaced by one job for the offset its worker read, timed by the row it read |
| ReleaseTiming.StaleJobsAreOnlyEarly | app/services/schedule_service.py:119-148 | main result: in a run whose resumes read current pause fields, a job's time is at most the later of its enqueueing and its due instant; while it waits, the exercise has been active for less than the offset it was timed by |
| ReleaseTiming.RedefersAreBounded | app/services/task_queue.py:180-185 | main result: in a run whose resumes read current pause fields, a job comes back at most once per resume, and at most once per second of pause counted |
| OffsetEdits.DueReleasesAreRunnable | app/services/task_queue.py:153-203 | main result: a pending inject with an open gate has a job that will act, no later than the offset it was timed by; once the exercise has been active for the inject's own offset a worker that reads the rows will release it, and if no edit of the offset came upon a later job, every job of it is then runnable |
| OffsetEdits.PostponingIsTimely | app/routers/injects.py:425-430 | an edit that shortens nothing still to come finds no later job |
| OffsetEdits.EditTakesEffectExactlyWhen | app/routers/injects.py:403-430 | main result: by the next re-enqueue some waiting job is timed by the edited offset if and only if the exercise was running at the edit, or nothing waited for the inject, or something already waited with that offset |
| OffsetEdits.PausedEditIsNotRearmed | app/services/schedule_service.py:189-231 | after an edit while not running, whatever happens elsewhere and the next re-enqueue, an inject with a job waiting has exactly the jobs it had before |
| ScheduleWitnesses.PausedEditRunsLate | app/services/schedule_service.py:204-231 | a run of every definition: shortened to 3 minutes while paused, the release is still to come after 5 active minutes |
| ScheduleWitnesses.RunningEditCanBeLost | app/services/task_queue.py:171-178 | a run of every definition: shortened while running, its new job stands down in a pause, and the release is still to come after 5 active minutes |
| ScheduleWitnesses.EnrolmentDoesNotRearm | app/services/inject_service.py:137-145 | a run of every definition that ends active and re-enqueued with a release due, allowed and with an audience, and no job for it |
| ScheduleWitnesses.ShortPausesAddUp | app/services/task_queue.py:180-185 | a run of every definition in which every pause is shorter than the epsilon and a job has come back |
| Refusals.RosterLeavesQueue | app/services/exercise_service.py:261-398 | a roster edit changes the members and nothing else: no job, no refusal |
| Refusals.RefusalLiftedExactlyWhen | app/services/schedule_service.py:189-231 | a move takes a refused release up again if and only if it edits its offset while running, is a response whose cursor reaches it, re-enqueues what has nothing waiting, or is a job of it coming back; it then has a job that will act |
| MessageTheorems.TriggeredExactlyOnce | app/services/schedule_service.py:234-338 | main result: one event and one communication per trigger key, with the definition's text, for a released inject of that node; in an active, re-enqueued run every trigger of a released inject is delivered or has a job that will act |
| MessageTheorems.DeliveriesAreForever | app/services/communication_service.py:305-349 | no continuation changes, repeats or withdraws a delivery |
| MessageTheorems.RearmCovers | app/services/schedule_service.py:286-308 | the re-enqueue leaves no trigger of a released inject without a delivery or a waiting job, duplicates across teams included |
| MessageTiming.MessagesAreNeverEarly | app/services/task_queue.py:244-269 | main result: a communication is sent only after its delay, less one second, of active time since its release, through any pauses, retries and stale jobs |
| MessageTiming.FoldCountsActiveTimeForEveryRelease | app/services/inject_service.py:117-130 | every release of a run fell while active, so the log fold is exact for each of them |
| MessageQueue.ReleaseQueuesTriggers | app/services/schedule_service.py:311-338 | a release queues exactly one job per trigger of its node, due its delay in seconds after the release, and no other |
| MessageQueue.RearmQueuesWhatIsLeft | app/services/schedule_service.py:286-308 | in every run, a job the re-enqueue adds is due after exactly what is left of its trigger's delay once the active time since the release is taken off |
| MessageQueue.ComesBackForWhatIsLeft | app/services/task_queue.py:244-258 | in every run, a job sent back is due, counted from then, after exactly what was unserved of its delay when its worker read the rows |
| MessageQueue.JudgesExactlyWhen | app/services/task_queue.py:229-248 | a communication worker drops, sends back or delivers exactly by the stored rows: back if more than a second of the delay is unserved, delivered if not |
| MessageQueue.DueMessagesAreRunnable | app/services/task_queue.py:229-269 | main result: in an active, re-enqueued run every trigger of a released inject is delivered or has a job that will act; once the exercise has been active for the delay since the release, a worker that reads the rows decides to deliver and every job of the trigger may run - one sent back, as much later as its worker took to do so |
| TriggerKeys.KeysIdentifyTriggers | app/services/task_queue.py:268 | no two triggers share a key, even when node ids contain colons |
| ExerciseRecord.Record.ChangeState | app/services/exercise_service.py:103-177 | the row's in-place update is the specified transition, and a refusal changes nothing |
| RunStore.Store.constructor | app/services/exercise_service.py:40-84 | a new exercise has one pending inject per node or target team and a cursor per path |
| RunStore.Store.SeedResolutionContexts | app/services/progression_service.py:54-78 | the missing audience rows are inserted and existing rows stand |
| RunStore.Store.ReleaseInject | app/services/inject_service.py:105-180 | the release commits the specified rows and jobs, or rolls back with the specified refusal |
| RunStore.Store.ResolvePath | app/services/progression_service.py:119-209 | resolving a path changes rows, inject and cursor as specified |
| RunStore.Store.SubmitAnswer | app/services/response_service.py:70-141 | the response transaction records, resolves and arms, or refuses, as specified |
| RunStore.Store.EnrolMember | app/services/exercise_service.py:261-335 | enrolment is idempotent, locked after the first release, and refuses unknown teams |
| RunStore.Store.UpdateMemberGroup | app/services/exercise_service.py:338-371 | regrouping as specified, refusals included |
| RunStore.Store.RemoveMember | app/services/exercise_service.py:374-398 | removal as specified, refusals included |
| RunStore.Store.CreateInject | app/routers/injects.py:253-276 | a new pending inject, scoped to its only target team |
| RunStore.Store.DeletePending | app/routers/injects.py:296-312 | only a pending inject that is not frozen launch configuration is deleted |
| RunStore.Store.UpdateOffset | app/routers/injects.py:396-431 | an offset edit arms the inject in the same transaction when the exercise runs |
| RunStore.Store.ArmCursorReached | app/services/schedule_service.py:341-379 | exactly the pending scheduled injects some cursor stands on get a job |
| RunStore.Store.Rearm | app/services/schedule_service.py:204-308 | exactly what has no waiting job gets one: releases, then owed communications |
| RunStore.Store.JudgeRelease | app/services/task_queue.py:166-201 | the worker's guards, in order, give the specified verdict |
| RunStore.Store.ReadRelease | app/services/task_queue.py:166-201 | the verdict is the one for the rows as they are, recorded on the job |
| RunStore.Store.FinishRelease | app/services/task_queue.py:180-203 | the worker's action on what it decided, refusals included |
| RunStore.Store.JudgeMessage | app/services/task_queue.py:229-248 | the communication worker's guards and its log fold give the specified verdict |
| RunStore.Store.ReadMessage | app/services/task_queue.py:229-248 | the communication worker's verdict for the rows as they are is recorded on its job |
| RunStore.Store.Deliver | app/services/communication_service.py:323-341 | insert unless the key is taken, and announce only an insert |
| RunStore.Store.FinishMessage | app/services/task_queue.py:247-269 | the communication worker's action on what it decided |
| RunStore.SeededRows | app/services/inject_service.py:291-324 | the nested loop seeds the specified rows in order |
| RunStore.SeededCursors | app/services/progression_service.py:16-30 | one cursor at the start for the shared path and each team |
| RunStore.QueueTriggers | app/services/schedule_service.py:311-338 | one job per trigger of the released node, due after its delay |
| RunStore.OwedMessages | app/services/schedule_service.py:286-308 | the nested loop over released injects enqueues exactly what is owed |
| Events.DescriptorRoundTrip | app/services/domain_events.py:150-168 | a peer rebuilds exactly the recorded event, and a descriptor is its own only to its origin |
| Events.OnlyKnownEventsAreRebuilt | app/services/domain_events.py:155-168 | whatever arrives, an event is rebuilt only from a known name with all its fields |
| Events.WireNamesAreUnique | app/services/domain_events.py:133-147 | no two event classes share a wire name |
| OutboxTheorems.OriginIsExact | app/services/domain_events.py:203-365 | main result: what a session projected, is dispatching and still holds committed is, in order, exactly the events recorded in transactions that ended in a commit; the bus carries the same |
| OutboxTheorems.PeersAreExact | app/services/ws_relay.py:43-54 | main result: through any disconnects and reconnects, a replica's relayed and queued events are the others' events committed while it was subscribed, in commit order, none of its own |
| OutboxTheorems.ActingHandlersRunOnlyAtOrigin | app/services/domain_events.py:292-345 | main result: acting handlers run once per local projection and for nothing relayed; the local projections are, session by session, a prefix of what each session of this replica committed, all of it once it has dispatched, and of no other session |
| OutboxTheorems.HandlersRunAsListed | app/services/domain_events.py:325-345 | main result: on every replica of every run a projection handler has run, in order, for each event projected there - its own sessions' and its peers' - whose kind lists it, and an acting handler for each of its own |
| OutboxTheorems.RelayedEventsAreProjected | app/services/ws_relay.py:43-54 | whatever a peer relays has been run through every projection subscribed to it |
| OutboxTheorems.RelayedExactlyWhen | app/services/pg_bus.py:77-110 | a replica rebuilds an event if and only if the payload is of version 1 and another origin, names the event's class, and brings each field |
| EventBuffer.SessionBuffer.BeginTransaction | app/services/domain_events.py:203-210 | opens the transaction that recording asks for, and touches nothing buffered |
| EventBuffer.SessionBuffer.RecordEvent | app/services/domain_events.py:203-218 | recorded only inside a transaction and with every id flushed |
| EventBuffer.SessionBuffer.Publish | app/services/domain_events.py:222-247 | the committing transaction announces every pending event, in order |
| EventBuffer.SessionBuffer.PromoteOnCommit | app/services/domain_events.py:251-256 | a commit turns pending into committed |
| EventBuffer.SessionBuffer.DiscardOnRollback | app/services/domain_events.py:260-272 | a rollback leaves nothing behind for the next commit |
| EventBuffer.SessionBuffer.Dispatch | app/services/domain_events.py:348-365 | every committed event is projected once, in order, every handler running for the events whose kind lists it, and a transaction in progress is left alone |
| EventBuffer.RunSubscribers | app/services/domain_events.py:325-345 | all handlers run at the origin, only the projections elsewhere |
| EventBuffer.BatchRunsHandlers | app/services/domain_events.py:325-345 | a batch runs each handler for exactly the events whose kind lists it, in order, an acting one only at the origin |
| ConfigSync.EverySaveIsRead | app/services/config_sync.py:97-146 | main result: for every interleaving, the last read of a scope returned its row as it is, or a read of it is still to come, or was missed |
| ConfigSync.MissedExactlyWhen | app/services/pg_listener.py:146-197 | a scope counts as missed exactly from a save nobody was subscribed for, a full queue, a disconnect or a refresh that raised, until its row is read |
| ConfigSync.CacheIsCoherent | app/services/config_sync.py:97-146 | main result: for every interleaving in which no task installs an older read over a newer one, the cache equals the row, or a task holding the row's value will install it, or a read is still to come or was missed |
| ConfigSync.QuietCacheEqualsRow | app/services/config_sync.py:97-119 | main result: for every interleaving, unless a read is still to come or was missed, the cache equals the row if and only if the last install put in what the last read returned |
| ConfigSync.InstallShowsRowExactlyWhen | app/services/config_sync.py:105-106 | checked before an install: it leaves the cache at the row if and only if the value held is the one the scope's last read returned |
| ConfigSync.AtomicRefreshesAreCoherent | app/services/config_sync.py:97-106 | main result: if every read is followed at once by its install, the cache equals the row, or a read is still to come or was missed, whatever else interleaves |
| ConfigSync.ReconnectRecovers | app/services/pg_listener.py:146-163 | main result: after a reconnect whose hook read every scope, with nothing lost meanwhile, nothing is missed |
| ConfigSync.FirstConnectNeedsNoRefresh | app/services/config_sync.py:125-137 | skipping the first refresh is harmless when nothing was saved since the load |
| ConfigSync.CrossedRefreshGoesStale | app/services/config_sync.py:110-119 | a run in which a save falls between the hook's read and install, and the hook puts the old value back with nothing pending |
| ConfigSync.SavingRequestGoesStale | app/services/general_settings_service.py:86-97 | a run in which a saving request installs its own older read last: the bus is quiet, nothing missed, and the cache is not the row |
| ConfigSync.RefreshRemainingInstalls | app/services/config_sync.py:110-119 | an uninterrupted refresh installs the row of every scope |
| ConfigSync.ConfigCaches.OnNotify | app/services/pg_listener.py:184-197 | a notification is queued, or dropped when the queue is full |
| ConfigSync.ConfigCaches.ConnectAndSubscribe | app/services/pg_listener.py:146-163 | subscribe first, then refresh all but the first time |
| ConfigSync.ConfigCaches.RefreshAll | app/services/config_sync.py:110-119 | the loop refreshes every scope in order |
| ConfigSync.ConfigCaches.ConsumeNext | app/services/config_sync.py:140-146 | one notification re-reads its scope; unknown scopes are ignored |
| ConfigSync.ConfigCaches.UpdateSettings | app/services/general_settings_service.py:86-97 | a request saves a scope, announces it, and installs what it then reads |
| LaunchSnapshot.ContentIsCanonical | app/services/launch_snapshot_service.py:170-275 | main result: equal multisets of projected rows freeze to equal content, whatever the ids and load order |
| LaunchSnapshot.ContentDeterminesRows | app/services/launch_snapshot_service.py:262-275 | equal content means equal multisets of projected rows |
| LaunchSnapshot.ContentEqualExactlyWhen | app/services/launch_snapshot_service.py:170-275 | main result: two drafts freeze to equal content if and only if title, setting and canonical definition agree and they hold equally many injects, members and messages of each kind, compared field by field, files by name, type, size and digest |
| LaunchSnapshot.CanonicalEqualExactlyWhen | app/services/launch_snapshot_service.py:40-45 | two definitions have one canonical form if and only if they agree in every field but the order of target teams |
| LaunchSnapshot.FrozenIsInOrder | app/services/launch_snapshot_service.py:226-259 | the content lists injects by order, node and group, members by user and messages by time, one entry per row |
| LaunchSnapshot.FreezableExactlyWhen | app/services/launch_snapshot_service.py:179-213 | a draft can be frozen if and only if every row is known to be draft configuration and every attachment can be read and has its stored size |
| LaunchSnapshot.AttachmentExactlyWhen | app/services/launch_snapshot_service.py:146-167 | a file freezes with its stored name and type and the size and digest read now |
| LaunchSnapshot.CanonicalForgetsTeamOrder | app/services/launch_snapshot_service.py:40-45 | definitions that differ only in the order of team lists have one canonical form |
| LaunchSnapshot.ProjectionForgetsTeamOrder | app/services/launch_snapshot_service.py:214-225 | a row's projection forgets its id and the order of its teams |
| LaunchSnapshot.BuildLaunchContent | app/services/launch_snapshot_service.py:170-275 | content is built if and only if every row is draft configuration and every attachment unchanged, and is then the canonical one |
| ScenarioLibrary.GraphNeverChanges | app/services/scenario_service.py:36-123 | main result: through every interleaving of edits, deletions, creations and launches an exercise sees the graph it was created from |
| ScenarioLibrary.CreationIsRemembered | app/services/exercise_service.py:40-84 | the remembered definition is the library's at creation and is never touched |
| ScenarioLibrary.CanonicalIsSameGraph | app/services/launch_snapshot_service.py:40-45 | canonicalisation preserves nodes, branches, successors and the referenced set |
| ScenarioLibrary.EditOutcome | app/services/scenario_service.py:36-74 | an edit rewrites a scenario no exercise runs under its author, and otherwise leaves it and adds a scenario under the editor |
| ScenarioLibrary.LaunchOutcome | app/services/launch_snapshot_service.py:278-329 | a launch goes through if and only if the exercise is unlaunched, its draft freezable and no other content has its digest; it then sees the canonical form of its definition, and no other launched exercise sees a change |
| ScenarioLibrary.Store.EditScenario | app/services/scenario_service.py:36-74 | an unused scenario is rewritten in place, one in use is left alone and forked |
| ScenarioLibrary.Store.RemoveScenario | app/routers/scenarios.py:121-133 | only an unused scenario is deleted |
| ScenarioLibrary.Store.AddExercise | app/services/exercise_service.py:40-84 | an exercise captures the scenario it is created from |
| ScenarioLibrary.Store.Freeze | app/services/launch_snapshot_service.py:278-329 | the content is stored under its digest unless it is there, a collision is refused, and the exercise points at it |
| RateLimit.WindowHoldsAllowed | app/services/rate_limit.py:53-96 | main result: with fixed limits no window of the configured length holds more than the allowed attempts of a key |
| RateLimit.SweepIsInvisible | app/services/rate_limit.py:169-182 | main result: whatever was swept, every check answers as if nothing had been |
| RateLimit.WidenedWindowMayForget | app/services/rate_limit.py:117-124 | after a reconfiguration a check counts the same in every swept table if and only if its window does not reach past the sweep |
| RateLimit.RetryHintIsHonest | app/services/rate_limit.py:72-77 | main result: waiting the hint plus a second suffices; the hint alone suffices exactly when what remained was whole seconds or less than one |
| RateLimit.AdmittedExactlyWhen | app/services/rate_limit.py:53-77 | a limited caller is let through exactly when its oldest counted hit has left the window |
| RateLimit.LimitedExactlyWhen | app/services/rate_limit.py:53-77 | a caller is limited if and only if at least the allowed number of rows of the scope and key lie within the window; the hint is the whole seconds left to the oldest of them, at least one |
| RateLimit.SweepOutcome | app/services/rate_limit.py:169-182 | a sweep keeps exactly the rows that lie within some limiter's window |
| RateLimit.RateLimiter.ReconfigureLimits | app/services/rate_limit.py:117-124 | new limits apply at once, and the recorded hits stay |
| RateLimit.RateLimiter.CheckKey | app/services/rate_limit.py:53-77 | count and oldest hit in one pass give the specified answer |
| RateLimit.RateLimiter.RecordFailure | app/services/rate_limit.py:87-96 | one row is appended |
| RateLimit.RateLimiter.Reset | app/services/rate_limit.py:98-108 | no row of the key remains, and every other row does, as often as it was there |
| RateLimit.RateLimiter.ClearHistory | app/services/rate_limit.py:110-115 | no row of the scope remains, and every other row does, as often as it was there |
| RateLimit.SweepTable | app/services/rate_limit.py:169-182 | exactly the rows older than the widest window go, and are counted |
| Communications.InboxIsWhatIsAccessible | app/services/communication_service.py:168-202 | main result: the inbox holds, latest first, exactly the messages single-message access allows |
| Communications.InboxShowsExactly | app/routers/communications.py:65-82 | main result: in every reachable mailbox a participant's inbox holds exactly the exercise's inbound messages to everyone, those naming the participant's group, and what the participant sent from that group or from none; a facilitator's or observer's holds all |
| Communications.BadgeCountsUnread | app/services/communication_service.py:205-228 | main result: the badge is the number of such messages the viewer has no receipt for |
| Communications.MailboxOutcome | app/services/communication_service.py:21-82 | sending stores the audience as given, none if empty; a triggered message is stored exactly when its key is free; reading leaves a receipt exactly where reading is allowed, the first one standing |
| Communications.RulesAgreeExactlyWhen | app/routers/communications.py:65-82 | the two rules differ exactly on an inbound message stored with an empty audience, for a participant |
| Communications.ReadingLowersBadgeByOne | app/services/communication_service.py:60-82 | the first read of an accessible message lowers the badge by one; anything else leaves it |
| Communications.SenderTeamsForComms | app/services/communication_service.py:109-165 | the batched resolution is, message by message, the per-row one |
| Communications.ListCommunications | app/services/communication_service.py:168-202 | the loop over batched sender teams lists what the rule lists |
| Communications.Store.CreateCommunication | app/services/communication_service.py:21-57 | an empty audience is stored as none |
| Communications.Store.DeliverTriggeredCommunication | app/services/communication_service.py:305-349 | inserted if and only if the exercise has no message with the key |
| Communications.Store.OpenCommunication | app/routers/communications.py:233-247 | only an accessible message gets a receipt, and the first one stands |
| Communications.UnreadCount | app/services/communication_service.py:205-228 | the badge counts the listed messages without a receipt |

## Left out

- Cycle detection: the topological sorter is asked, not modelled; acyclicity is the existence of a rank
  that grows along every edge.
- Digest and serialisation: a digest is any function of the content (a collision is refused, as in the
  code) and a serialisation any injective function; JSON text, SHA-256 and attachment bytes are not part
  of this model.
- LaunchSnapshot.BuildLaunchContent: does not model writing the attachment digest back to the inject row.
- Response bodies and their validation (required option, required prose): the model admits every option
  id, known or not, so its results cover the validated ones.
- RunStore.Store.EnrolMember: the user's existence and default team are resolved by the caller; group ids
  arrive stripped.
- Request authorisation, role preview and HTTP status codes; refusals are the distinct reasons.
- Worker reads: the release and communication workers read their rows in one step and act in another;
  reads spread over several statements, and jobs that die between commits without being retried, are not
  separate steps. A job whose worker only stalled may run twice; that worker's end is assumed not to withdraw
  the row retried meanwhile.
- procrastinate: a job runs no earlier than its time, possibly more than once; heartbeats, cron and the
  queueing lock of the LLM jobs are not part of this model.
- Events.DescriptorRoundTrip: the payload size limit, and the control message that closes a user's
  sockets, are not part of this model.
- OutboxTheorems.PeersAreExact: notifications arrive in commit order and the events queue does not
  overflow; PostgreSQL's merging of identical notifications within one transaction is not modelled.
- Savepoints and nested transactions in the session buffer; handlers that fail or record further events.
- ConfigSync.CacheIsCoherent: the cached value stands for the whole settings row; dependants rebuilt from
  it (the OIDC client, limiter thresholds), and the first read that seeds a missing row, are not modelled.
- Provenance.UnchosenBranchesStayDead: does not cover a continuation in which a facilitator creates another
  inject of the parent node, because that inject may be answered with the branch not taken before.
- The identity map and the memo on a scenario's parsed definition; locks are atomic steps.
- Legacy paths: exercises without cursors, unknown launch provenance, rows of unknown origin after launch.
- Timeline assembly, reports, CSV and Markdown rendering, WebSocket delivery, reconnect back-off, LLM
  pipelines, e-mail, OIDC, SIEM and retention.

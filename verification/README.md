# Agentic PR dashboard: verified model

This project models the parts of the dashboard whose correctness spans many calls, and proves what their
code, documentation and tests promise of them.

- **Durable lifecycle.** `LifecycleModels`, `LifecycleStore`, `StoreLaws`, `StoreRuns`, `Settlement`, `ReviewWatch`,
  `SnapshotFacts`, `Workflow`, `NeverDropped`, `OpenPrs`, `SnapshotCarry`, `JobRuns`, `SnapshotRaces`, `DrainSchedule`,
  `FutureRequests` and `DrainQueue` model the filesystem intent store and the drain that consumes it. The store is a class of two maps of
  files; `StoreRuns` replays it at the grain of single file replacements, with crashes between them, readers and bare
  snapshot writes that take no lock, and workers that write back the version they read. `JobRuns` carries the
  settlement theorem from one job's history over to those runs, with the record, the clock and the snapshot file read
  at different points, and `DrainQueue` carries the waiting theorems over to the drain's own turns.
- **Observation controller.** `Observation`, `ObservationRuns` and `NamedEvents`: events, plans and acknowledgements in
  any order.
- **Dashboard caches.** `DashboardCache` and `DashboardRuns`: event-loop steps and worker threads over the two caches.
- **Loop health.** `LoopHealth`: several loop processes over one locked health file and one unlocked marker file.
- **Session ledger.** `SessionLedger`: the append-only log as an insertion-ordered map.
- **Folds and parsers.** `ArgvSanitizer`, `ArgvRedaction`, `RequiredChecks`, `ReviewThreads`,
  `DeliveryChecklist`.

Conventions: times are whole microseconds; an identity digest is injective, so its tuple stands for it; JSON is
lossless; clocks, remote answers and the TOML reader are parameters. Code that changes state is a class or a method
with a loop, proved against a function; the theorems are lemmas about those functions over all inputs, runs and
reachable states.

## What turned out not to hold

Each of these is a lemma with a concrete input or an if-and-only-if condition; the model keeps what the code does.

- A hand-over enqueues its replacement under repository, ref, head and workflow, not under its PR. When another PR's
  live intent already holds that identity, the enqueue is a duplicate and the first PR ends with no intent, although
  the turn reports progress (`Workflow.HandOverKeepsPrExactlyWhen`). It happens to an adopted head
  (`Workflow.AdoptionCanLosePr`) and to the placeholder the hook enqueues for a new PR
  (`Workflow.ReplacementCanLosePr`). Identities are never dropped (`NeverDropped.DrainsNeverDrop`), and PRs are not when
  no hand-over meets another one (`OpenPrs.PrNeverDropped`).
- A merged or closed PR whose repository was renamed makes `settle_intent` raise an error that leaves the drain,
  because the repository comparison comes after the settlement branch (`Workflow.EscapesExactlyWhen`,
  `Workflow.RenamedMergedPrEscapes`).
- An intent requested in the future and never scheduled is eligible but sorts last, so it can be passed over by drain
  after drain (`FutureRequests.PassedOver`). It is examined in its turn exactly when it is in the first batch, is timely,
  or has too few rivals (`FutureRequests.PunctualExactlyWhen`); every timely intent waits a bounded number of drains
  (`DrainSchedule.ExaminedWithin`).
- A clock that runs backwards, or a clean verdict on a PR that is not mergeable, stores a snapshot its own validator
  refuses on the next read, and the settlement chain restarts (`Settlement.SettledExactlyAtWindow`,
  `Settlement.BackwardClockRestarts`, `Settlement.UnmergeableRestarts`).
- A snapshot file is replaced before its record and one file serves every record of its job, so the version fence does
  not protect it from a worker that crashes in between or from a second record: another worker that had read before can
  settle over a dirty observation (`SnapshotRaces.CrashIsOverlooked`, `SnapshotRaces.SecondRecordIsOverlooked`). Nothing
  else can come between (`JobRuns.FencedOff`), and it matters exactly when the watch or the chain carried over differs
  (`JobRuns.ContinuesExactlyWhen`).
- A worker reads its clock before the snapshot file, so with no clock running backwards it can still take up a chain
  that began after its own reading, and store a snapshot under a PROMOTED record that no reader can use
  (`SnapshotRaces.LateReadIsRefused`). Exactly this, and settling a PR that is not mergeable, makes a stored snapshot
  unreadable (`JobRuns.RefusedExactlyWhen`).
- Pruning a head between a plan and its acknowledgement lets the old plan clear a newer event, exactly when the events
  counted since are as many as before (`ObservationRuns.LostExactlyWhen`, `ObservationRuns.PruneLosesAnEvent`).
- The escalation marker is read and rewritten without a lock, so it is exact only for schedules in which no rewrite
  overlaps another (`LoopHealth.MarkerExactExactlyWhen`, `LoopHealth.OverlapLosesMarker`).
- The required-check scan takes a page that claims a successor without a cursor for the last one and notes no failure
  (`RequiredChecks.MissingCursorHidesRequired`), where the thread reader raises; such an answer can be relied on exactly
  when a required check was seen running (`RequiredChecks.PrefixDecidesExactlyWhen`). A PR without commits is an
  observation to the batch and a failure to the live scan (`RequiredChecks.PrimedAgreesWithLive`).
- `_thread_is_addressed_or_claimed` disagrees with the scan exactly on threads where only the author followed up
  (`ReviewThreads.HandledDiffersOnFollowUps`).
- A codex run with `--oss` whose configuration names the provider `openai`, and whose local provider is absent or empty,
  is recorded as having an explicit provider and no provider name (`ArgvSanitizer.NamelessExactlyWhen`,
  `ArgvSanitizer.NamelessRun`).
- On a claude command line the session after `--session` is hidden and the one after `-s` is shown
  (`ArgvRedaction.SessionOptionsServe`).

## Model

| member | source | states |
|---|---|---|
| `ReviewWatch.DeadlinesIncrease` | src/agentic_pr_dash/lifecycle_models.py:122-136 | the deadlines of a watch grow strictly with the interval index, table and repeating tail alike |
| `ReviewWatch.ChecksFall` | src/agentic_pr_dash/lifecycle_models.py:122-136 | the checks fall one, five, fifteen and thirty minutes and one, two, four and eight hours after the reset, then every eight hours |
| `ReviewWatch.CatchUp` | src/agentic_pr_dash/lifecycle_workflow.py:111-114 | the unbounded catch-up terminates at the first index from its start whose deadline is after now |
| `ReviewWatch.NextReviewWatch` | src/agentic_pr_dash/lifecycle_workflow.py:58-144 | the method with its while loop returns exactly the specified next watch, for every head, CI state, outcome and count; under passing CI a head without a watch is armed at the time it is seen, with its first check a minute later, and under any other CI state it gets none |
| `ReviewWatch.ScheduleIsAnchored` | src/agentic_pr_dash/lifecycle_workflow.py:58-123 | over any polls, outages and CI pauses with a nondecreasing clock, the stored index is the least one whose deadline from the reset lies after the last good observation |
| `ReviewWatch.FirstGreenArms` | src/agentic_pr_dash/lifecycle_workflow.py:58-144 | a job without a watch of its head, or with another head's, has none until the first observation under passing CI, and is armed by that one at its time |
| `ReviewWatch.AnchoredFromFirstGreen` | src/agentic_pr_dash/lifecycle_workflow.py:58-144 | from there, whatever polls, outages and CI pauses follow under a nondecreasing clock, the stored index is the least one whose deadline from the first green observation lies after the last good one |
| `ReviewWatch.NextCheckIsNear` | src/agentic_pr_dash/lifecycle_workflow.py:58-123 | a watch's next check is never more than eight hours after its last good observation |
| `ReviewWatch.OnlyGoodMoves` | src/agentic_pr_dash/lifecycle_workflow.py:58-123 | only a successful observation under passing CI moves the schedule |
| `ReviewWatch.HistoryIsForgotten` | src/agentic_pr_dash/lifecycle_workflow.py:58-123 | two histories with the same reset and the same last good observation leave the very same watch |
| `ReviewWatch.DueMeansOverdue` | src/agentic_pr_dash/lifecycle_workflow.py:1224-1241 | in any run a watch is Due only once its next check has passed, also across resets |
| `ReviewWatch.FeedbackReanchors` | src/agentic_pr_dash/lifecycle_workflow.py:58-123 | after any history, feedback observed under passing CI makes the schedule a function of the time it was seen and of the last good observation since |
| `Settlement.UniqueKeepsEachOnce` | src/agentic_pr_dash/lifecycle_workflow.py:1125-1126 | dropping duplicates keeps every value exactly once |
| `Settlement.ProjectBlockers` | src/agentic_pr_dash/lifecycle_workflow.py:1087-1122 | the loop over blocker names yields every reason in order, each with its own action |
| `Settlement.SnapshotBlockers` | src/agentic_pr_dash/lifecycle_workflow.py:779-788 | the blockers and actions of a snapshot, review findings added last and duplicates dropped twice |
| `Settlement.CleanMeansGreen` | src/agentic_pr_dash/lifecycle_workflow.py:859-873 | a clean observation has no findings, passing CI and clean review |
| `Settlement.SettledIsWatched` | src/agentic_pr_dash/lifecycle_workflow.py:685-733 | a settled snapshot carries an armed watch whose next check is after now |
| `Settlement.SettledStaysWatched` | src/agentic_pr_dash/lifecycle_workflow.py:544-569 | it keeps a watch through any number of missed observations |
| `Settlement.StabilizeCases` | src/agentic_pr_dash/lifecycle_workflow.py:735-767 | what stabilization does to a clean snapshot: facts kept, first time carried on or restarted, settled exactly at the interval |
| `Settlement.TakenCases` | src/agentic_pr_dash/lifecycle_workflow.py:685-733 | what one recorded observation stores, in terms of the snapshot it read back |
| `Settlement.SettledExactlyAtWindow` | src/agentic_pr_dash/lifecycle_workflow.py:537-767 | over every history of a job, with any clock, the stored snapshot is settled if and only if the last recorded observation is clean, combinable and ends a chain of equal promoted facts, each readable by the next, that began at least the interval ago; missed observations keep it so exactly while it can be read back |
| `Settlement.SettledHasChain` | src/agentic_pr_dash/lifecycle_workflow.py:704-767 | behind every settled snapshot stand at least two recorded clean observations with equal facts and settlement key, unbroken by a reactivation, spanning the interval |
| `Settlement.ChainRestarts` | src/agentic_pr_dash/lifecycle_workflow.py:928-972 | a differing recorded fact, a reactivation or an unreadable stored snapshot restarts the chain |
| `Settlement.StoredSnapshotsAreAccepted` | src/agentic_pr_dash/lifecycle_models.py:411-437 | given a nondecreasing clock and clean verdicts that imply mergeability, every snapshot stored through unvalidated copies passes the validator when read back, and it is settled exactly when the last observation closes the interval of an unbroken run of equal facts |
| `Settlement.BackwardClockRestarts` | src/agentic_pr_dash/lifecycle_workflow.py:537-543 | a concrete history in which the clock runs back once and an unbroken run over the interval does not settle |
| `Settlement.UnmergeableRestarts` | src/agentic_pr_dash/lifecycle_workflow.py:537-543 | a concrete history with an ordered clock in which a clean verdict on a PR that is not mergeable settles, cannot be read back, and the next observation does not settle |
| `SnapshotFacts.BlockersExactlyWhen` | src/agentic_pr_dash/lifecycle_workflow.py:779-788 | which blockers a snapshot lists, each once, in terms of what was observed |
| `SnapshotFacts.ActionsExactlyWhen` | src/agentic_pr_dash/lifecycle_workflow.py:1087-1126 | it asks for the remedy of each blocker it lists and for nothing else |
| `SnapshotFacts.CleanExactlyWhen` | src/agentic_pr_dash/lifecycle_workflow.py:859-873 | an observation is clean exactly when the evaluator says so, review was observed and nothing blocks |
| `SnapshotFacts.SnapshotTells` | src/agentic_pr_dash/lifecycle_workflow.py:791-826 | whatever was stored before, a snapshot reports CI, mergeability, review, health, blockers, actions and counts as they were observed, and a clean one asks for another look unless it is settled |
| `SnapshotFacts.CleanFactsAgreeExactlyWhen` | src/agentic_pr_dash/lifecycle_workflow.py:928-972 | two clean observations are of one chain exactly when key, raw thread count, settlement key and mergeability agree |
| `SnapshotFacts.CleanDiffers` | src/agentic_pr_dash/lifecycle_workflow.py:928-972 | a clean observation is never of one chain with one that is not |
| `SnapshotFacts.FirstMissKnowsNothing` | src/agentic_pr_dash/lifecycle_workflow.py:544-569 | the first missed observation of a job stores that nothing is known of it and asks for another look |
| `SnapshotFacts.LaterMissMarksDue` | src/agentic_pr_dash/lifecycle_workflow.py:544-569 | a later one changes nothing but the status of an overdue armed watch |
| `SnapshotFacts.NextCheckIsSoon` | src/agentic_pr_dash/lifecycle_workflow.py:58-123 | over every history of a job with an ordered clock the watch's next check is at most eight hours after the last event |
| `LifecycleStore.LifecycleStore.LoadValidated` | src/agentic_pr_dash/lifecycle_store.py:258-270 | a stored record is returned only if its digest and identity match the intent asked for |
| `LifecycleStore.LifecycleStore.Enqueue` | src/agentic_pr_dash/lifecycle_store.py:312-367 | the whole new disk: created, reactivated at the next generation, or refreshed in place |
| `LifecycleStore.LifecycleStore.PromoteIntent` | src/agentic_pr_dash/lifecycle_store.py:369-417 | the whole new disk, or the error and an unchanged disk, in the source's order of checks |
| `LifecycleStore.LifecycleStore.MarkNoPr` | src/agentic_pr_dash/lifecycle_store.py:419-457 | the same; a promoted intent is refused |
| `LifecycleStore.LifecycleStore.ScheduleRetry` | src/agentic_pr_dash/lifecycle_store.py:459-494 | the same; only the retry time and the revision change |
| `LifecycleStore.LifecycleStore.SettleIntent` | src/agentic_pr_dash/lifecycle_store.py:496-541 | the same; the record is linked and leaves the list |
| `LifecycleStore.LifecycleStore.WriteSnapshot` | src/agentic_pr_dash/lifecycle_store.py:557-589 | unversioned it replaces one snapshot file; versioned it is a fenced transaction |
| `LifecycleStore.LifecycleStore.ReadSnapshot` | src/agentic_pr_dash/lifecycle_store.py:591-660 | what a reader of exact or unresolved targets gets: missing, invalid, or a snapshot that is fresh exactly when it is within the age limit or its armed watch has its check ahead, else stale |
| `LifecycleStore.FreshUntil` | src/agentic_pr_dash/lifecycle_store.py:160-181 | for each stored snapshot and age limit there is one last moment at which a reader finds it fresh: its age limit, or the moment before its armed watch's next check if that is later; from then on it is stale for good |
| `StoreLaws.OneFileExactlyWhen` | src/agentic_pr_dash/lifecycle_store.py:86-117 | two keys name one snapshot file exactly when they are the same job, repository case apart; two intents name one record file exactly when repository, ref, head and workflow agree |
| `StoreLaws.AdmittedExactlyWhen` | src/agentic_pr_dash/lifecycle_store.py:312-589 | which requests a sound store admits: every enqueue, any other exactly when it is at the expected version and fits the record |
| `StoreLaws.RefusedBecause` | src/agentic_pr_dash/lifecycle_store.py:369-541 | why a fitting request is refused, error by error |
| `StoreLaws.TouchesItsOwn` | src/agentic_pr_dash/lifecycle_store.py:312-589 | a request touches its own record and the snapshot file it carries and nothing else, and its version is spent by it |
| `StoreLaws.EnqueueMeans` | src/agentic_pr_dash/lifecycle_store.py:312-367 | an enqueue starts a missing or settled record over, or one without a PR when it brings one, due at once; of any other it only renews session, worktree and request time |
| `StoreLaws.EnqueueIsIdempotent` | src/agentic_pr_dash/lifecycle_store.py:312-367 | a repeated enqueue changes nothing but the revision |
| `StoreLaws.GenerationsCount` | src/agentic_pr_dash/lifecycle_store.py:312-541 | generations count exactly the enqueues that started the record over |
| `StoreLaws.LeavesOfRecord` | src/agentic_pr_dash/lifecycle_store.py:369-589 | state, link, PR and retry time each other request leaves |
| `StoreLaws.LostWithoutRecord` | src/agentic_pr_dash/lifecycle_store.py:419-457 | a PR lost before anything was enqueued is recorded as a new record without one |
| `StoreLaws.LinkIsReadExactlyWhen` | src/agentic_pr_dash/lifecycle_store.py:591-623 | a reader that knows only the pushed ref is led to the linked job exactly while the record is promoted or settled |
| `StoreLaws.ReaderFindsWritten` | src/agentic_pr_dash/lifecycle_store.py:369-660 | it finds what a promotion or settlement carried, fresh or stale by its age, and nothing after a lost PR |
| `StoreLaws.UnusableExactlyWhen` | src/agentic_pr_dash/lifecycle_store.py:603-642 | a reader is told invalid exactly for a settled snapshot that is not what settlement means or one whose stable times are out of order, and missing exactly without a file or with another job's |
| `StoreLaws.ForeignIsRefused` | src/agentic_pr_dash/lifecycle_store.py:258-270 | a record file of another identity stops every fitting request and its link is not followed |
| `StoreLaws.LinkIsTrusted` | src/agentic_pr_dash/lifecycle_store.py:644-711 | a link that is followed is of the target's repository, head and workflow and of the record's own PR |
| `StoreRuns.PlanIsLinked` | src/agentic_pr_dash/lifecycle_store.py:312-541 | every admitted request leaves a well-linked record one revision further |
| `StoreRuns.ReachableIsSound` | src/agentic_pr_dash/lifecycle_store.py:369-457 | in every reachable store a record has a key exactly when PROMOTED or SETTLED, the key agrees with its intent, NO_PR holds exactly without a PR number, and generation is at most revision |
| `StoreRuns.RevisionCountsCommits` | src/agentic_pr_dash/lifecycle_store.py:312-541 | a record's revision is the number of writes committed to it |
| `StoreRuns.RevisionsNeverRecur` | src/agentic_pr_dash/lifecycle_store.py:312-541 | equal revisions at two points of a run mean the record never changed in between |
| `StoreRuns.FenceHolds` | src/agentic_pr_dash/lifecycle_store.py:41-55 | a versioned write is admitted only while the very record its worker read is still there |
| `StoreRuns.CommitSeesWhatWasRead` | src/agentic_pr_dash/lifecycle_store.py:312-541 | a versioned commit replaces that record, raising its revision by one: no concurrent enqueue is overwritten |
| `StoreRuns.SettledLeftByEnqueue` | src/agentic_pr_dash/lifecycle_store.py:312-345 | SETTLED is left only by an enqueue of that identity |
| `StoreRuns.PromotionsAreBacked` | src/agentic_pr_dash/lifecycle_store.py:369-417 | while promotions carry snapshots, every promoted record's job has a snapshot file, also after crashes |
| `StoreRuns.ReaderFindsSnapshot` | src/agentic_pr_dash/lifecycle_store.py:591-660 | a reader without a lock who saw a PROMOTED record then finds a snapshot of exactly that job, whatever commits or crashes in between |
| `StoreRuns.StoredAreAccepted` | src/agentic_pr_dash/lifecycle_store.py:624-642 | if every written snapshot passes the validator, no stored one fails it |
| `SnapshotCarry.StoresAlikeExactlyWhen` | src/agentic_pr_dash/lifecycle_workflow.py:685-767 | for all observations, times and combining verdicts, an observation of a promoted record stores the same over two files if and only if they carry the same watch of its head, its status aside, and the same clean facts, first time and next count |
| `SnapshotCarry.UnpromotedStoresAlike` | src/agentic_pr_dash/lifecycle_workflow.py:704-708 | an observation of any other record stores the same over all files |
| `SnapshotCarry.MissesAlikeExactlyWhen` | src/agentic_pr_dash/lifecycle_workflow.py:544-569 | whenever a missed observation over one file writes, it leaves what it would leave over another if and only if they differ at most in whether an armed watch is marked due |
| `JobRuns.TurnBuilds` | src/agentic_pr_dash/lifecycle_workflow.py:477-569 | whatever snapshot a turn asks the store to write is built from the snapshot it read for that job |
| `JobRuns.FencedOff` | src/agentic_pr_dash/lifecycle_store.py:41-55 | in any interleaving of drain writes, a snapshot write between a worker's reading of its record and its own write crashed before its record or was for another record; every other is fenced off |
| `JobRuns.RefusedExactlyWhen` | src/agentic_pr_dash/lifecycle_workflow.py:685-767 | for all clocks and interleavings, a written snapshot is one its validator refuses if and only if its clean observation takes up a chain begun after its own clock reading or settles a PR that is not mergeable |
| `JobRuns.InvalidExactlyWhen` | src/agentic_pr_dash/lifecycle_store.py:624-642 | a reader finds a job's file invalid exactly when the last write to it is such a one |
| `JobRuns.RefusedOnly` | src/agentic_pr_dash/lifecycle_workflow.py:685-745 | with a clock that does not run backwards and clean verdicts that imply mergeability, a write is refused only because another one to its job fell between its clock reading and its last file read, and that one crashed or was for another record |
| `JobRuns.ReaderNeverFails` | src/agentic_pr_dash/lifecycle_store.py:591-660 | then a reader without a lock who saw a PROMOTED record gets a fresh or stale snapshot of its job, never a missing or invalid one, unless such a write fell in between on that job |
| `JobRuns.NothingIntervenes` | src/agentic_pr_dash/lifecycle_workflow.py:685-745 | with one record per job and no crash between snapshot and record none does |
| `JobRuns.ContinuesExactlyWhen` | src/agentic_pr_dash/lifecycle_workflow.py:477-569 | exactly when a write carries on the history of the file it replaces, whatever its worker may have observed and whenever: what it read carries over the same as that file |
| `JobRuns.BreaksOnly` | src/agentic_pr_dash/lifecycle_workflow.py:477-569 | a write that does not misses an earlier one to its job, which crashed before its record or was for another record |
| `JobRuns.OrderlyIsUnbroken` | src/agentic_pr_dash/lifecycle_workflow.py:477-569 | with one record per job and no such crash every write carries the history on |
| `JobRuns.FileIsHistory` | src/agentic_pr_dash/lifecycle_workflow.py:477-569 | in any interleaving in which every write carries on what it replaces, the snapshot file of a job is at every point what its history of observations stores |
| `JobRuns.FileSettlesExactlyAtWindow` | src/agentic_pr_dash/lifecycle_workflow.py:685-767 | so the file says settled exactly when the window of that history closes |
| `SnapshotRaces.CrashIsOverlooked` | src/agentic_pr_dash/lifecycle_workflow.py:477-518 | a run in which a worker crashes after a dirty snapshot, another that read before it passes the fence, and the file says settled over it |
| `SnapshotRaces.SecondRecordIsOverlooked` | src/agentic_pr_dash/lifecycle_workflow.py:477-518 | a run without a crash in which a second record of the job writes a dirty snapshot between the read and the write of the first, and the file says settled over it |
| `SnapshotRaces.LateReadIsRefused` | src/agentic_pr_dash/lifecycle_workflow.py:690-745 | a run with a forward clock and clean, mergeable verdicts in which a worker reads its clock before and the file after another's write that crashed, and the snapshot under a PROMOTED record is invalid |
| `Workflow.LifecycleWorkflow.PersistUnavailable` | src/agentic_pr_dash/lifecycle_workflow.py:544-569 | an unobservable turn only reschedules to exactly the retry interval from now, marks a passed watch due or writes a first unavailable snapshot; a stale version is swallowed and changes nothing |
| `Workflow.LifecycleWorkflow.ResolutionOutcome` | src/agentic_pr_dash/lifecycle_workflow.py:362-458 | the disk and outcome of resolution, or the error that escapes, for every remote answer; an intent without a PR is retried after exactly the retry interval |
| `Workflow.LifecycleWorkflow.EnqueueThenSettle` | src/agentic_pr_dash/lifecycle_workflow.py:437-457 | the replacement is enqueued before the old record is settled |
| `Workflow.LifecycleWorkflow.ConsumeObserved` | src/agentic_pr_dash/lifecycle_workflow.py:477-518 | an observation is stored by promotion with its snapshot, observed now; the record is retried after exactly the retry interval when that is not settled, and at its watch's next check when it is |
| `Workflow.LifecycleWorkflow.StoreObserved` | src/agentic_pr_dash/lifecycle_workflow.py:493-518 | the promotion and the retry time it carries |
| `Workflow.ConsumedStores` | src/agentic_pr_dash/lifecycle_workflow.py:477-518 | what is on disk after an observation was consumed: the snapshot, and the record's next attempt at the time the settled or unsettled snapshot calls for |
| `Workflow.UnobservedStores` | src/agentic_pr_dash/lifecycle_workflow.py:544-569 | what an unobservable turn leaves in the snapshot file: a readable one stays but for an overdue watch, anything else gives way to one that knows nothing |
| `Workflow.RequestsAreFenced` | src/agentic_pr_dash/lifecycle_workflow.py:308-518 | all a turn asks of the store, enqueues apart, carries the version it read, also when the lookup or the observation raised, and every promotion carries a snapshot of its job |
| `Workflow.EnqueueLists` | src/agentic_pr_dash/lifecycle_store.py:312-367 | an enqueue is never refused in a sound store and leaves its identity listable |
| `Workflow.HandOver` | src/agentic_pr_dash/lifecycle_workflow.py:437-457 | at no point of a hand-over is neither identity listable |
| `Workflow.NoCrashPointDrops` | src/agentic_pr_dash/lifecycle_workflow.py:362-458 | after any number of a turn's requests the intent or its successor is listable, or its PR is merged or closed |
| `Workflow.OpenPrStaysWatched` | src/agentic_pr_dash/lifecycle_workflow.py:477-518 | an open PR at its head is never settled by resolution; its promotion keeps it listable, retried after exactly the retry interval while its snapshot is not settled, and at the next check of its armed watch when it is |
| `Workflow.TurnReschedules` | src/agentic_pr_dash/lifecycle_workflow.py:308-569 | whatever a turn writes to a record it leaves on the list, also when the lookup or the observation raised, keeps its request time and sets its next attempt: to the next check of the stored watch for a settled snapshot, to the retry interval from now for everything else |
| `Workflow.AdoptionListsHead` | src/agentic_pr_dash/lifecycle_workflow.py:417-457 | an adopted head is listed under its own identity, requested now, and the old head is settled |
| `Workflow.ReplacementListsHead` | src/agentic_pr_dash/lifecycle_workflow.py:378-409 | a replaced placeholder is listed under the ref, head and worktree of the local checkout |
| `Workflow.SettlementLeaves` | src/agentic_pr_dash/lifecycle_workflow.py:404-415 | a merged or closed PR's record is settled under its own key, without a retry time |
| `Workflow.SettledIsFreshUntilRetry` | src/agentic_pr_dash/lifecycle_store.py:160-181 | a stored settled snapshot reads as fresh at any age until the time the record is retried |
| `Workflow.SettlesExactlyWhen` | src/agentic_pr_dash/lifecycle_workflow.py:362-458 | resolution settles exactly for a replaced placeholder, a merged or closed PR, or a superseded head |
| `Workflow.EscapesExactlyWhen` | src/agentic_pr_dash/lifecycle_workflow.py:404-457 | in terms of the record and the remote PR, exactly when a turn's error leaves the drain: a merged or closed PR under another repository name, or a settlement under another PR number |
| `Workflow.RenamedMergedPrEscapes` | src/agentic_pr_dash/lifecycle_workflow.py:404-415 | a concrete store and merged PR of a renamed repository at which it does |
| `Workflow.UnobservableNeverEscapes` | src/agentic_pr_dash/lifecycle_workflow.py:544-569 | an unobservable turn on a current record is never refused |
| `Workflow.HandOverKeepsPrExactlyWhen` | src/agentic_pr_dash/lifecycle_workflow.py:378-457 | after an adoption or a replaced placeholder the replacement's record carries the PR exactly when a live intent with a number under its identity has this one, or there is none and the replacement names the PR |
| `Workflow.AdoptionCanLosePr` | src/agentic_pr_dash/lifecycle_workflow.py:437-457 | a concrete store in which an adoption that reports progress leaves an open PR without any intent |
| `Workflow.ReplacementCanLosePr` | src/agentic_pr_dash/lifecycle_workflow.py:378-409 | a concrete store in which replacing the placeholder of a PR does |
| `NeverDropped.SuccessorIsYounger` | src/agentic_pr_dash/lifecycle_workflow.py:362-458 | whatever replaced an identity after its enqueue was enqueued later than it |
| `NeverDropped.NothingIsDropped` | src/agentic_pr_dash/lifecycle_workflow.py:362-458 | at every point of every run each identity leads, through its successors, to a listable one or to a PR that is gone |
| `NeverDropped.OpenPrsStayListable` | src/agentic_pr_dash/lifecycle_workflow.py:362-458 | while no PR is merged or closed the line of successors of every identity ends at a listable one |
| `NeverDropped.DrainsNeverDrop` | src/agentic_pr_dash/lifecycle_workflow.py:362-458 | the same for runs whose settlements are the drain's own decisions, under any interleaving and crash |
| `OpenPrs.PrNeverDropped` | src/agentic_pr_dash/lifecycle_workflow.py:362-458 | in every run of drain decisions in which no hand-over meets a live intent of another PR, a PR number carried by a listed record is carried by one at every later point, or its PR was seen merged or closed |
| `DrainSchedule.ColumnsAddUp` | src/agentic_pr_dash/lifecycle_workflow.py:975-985 | examined is the sum of progressed, no_pr, deferred and failed |
| `DrainSchedule.TimesCounts` | src/agentic_pr_dash/lifecycle_workflow.py:308-344 | a column holds as many as there are turns that count so |
| `DrainSchedule.GroupsPartition` | src/agentic_pr_dash/lifecycle_workflow.py:770-776 | grouping gives one group per repository, holding exactly that repository's records in order |
| `DrainSchedule.GroupsCountAlike` | src/agentic_pr_dash/lifecycle_workflow.py:770-776 | no record is lost or counted twice by grouping |
| `DrainSchedule.GroupResolved` | src/agentic_pr_dash/lifecycle_workflow.py:770-776 | the grouping loop computes that partition |
| `DrainSchedule.ResolveBatch` | src/agentic_pr_dash/lifecycle_workflow.py:308-324 | the resolution loop counts what it ends and passes on the rest |
| `DrainSchedule.ObserveGroups` | src/agentic_pr_dash/lifecycle_workflow.py:326-344 | the group loops count every record passed on, a raising group as deferred |
| `DrainSchedule.Drain` | src/agentic_pr_dash/lifecycle_workflow.py:285-345 | a drain counts every batch record exactly once, and each column is the number of records that count so: deferred when the lookup raised, the group could not be observed or the record is missing from the answer, else as its turn ended |
| `DrainSchedule.MovesUp` | src/agentic_pr_dash/lifecycle_workflow.py:285-302 | one drain moves every timely waiting intent up by a whole batch, whether the examined records are rescheduled or leave the list |
| `DrainSchedule.ExaminedWithin` | src/agentic_pr_dash/lifecycle_workflow.py:285-302 | a timely intent at position p is examined within n drains when p is below n batches |
| `FutureRequests.NotMovedUp` | src/agentic_pr_dash/lifecycle_workflow.py:285-302 | an unscheduled intent behind the batch that asks for a time beyond the next moment need not move up: there is a legal next drain in which it stands no further ahead |
| `FutureRequests.PassedOver` | src/agentic_pr_dash/lifecycle_workflow.py:285-302 | so it can be passed over by any number of drains below the time it asked for |
| `FutureRequests.PunctualExactlyWhen` | src/agentic_pr_dash/lifecycle_workflow.py:285-302 | an intent is examined by the drain its place entitles it to, in every legal run, if and only if it is in the first batch, is timely, or has too few rivals to fill the room left in its batch |
| `DrainQueue.TurnIsReschedule` | src/agentic_pr_dash/lifecycle_workflow.py:362-569 | one committed request of a turn takes its record off the list or behind the clock and moves no other |
| `DrainQueue.DrainIsReschedule` | src/agentic_pr_dash/lifecycle_workflow.py:285-345 | the turns of a whole drain, one after the other, do exactly what the waiting results assume of a drain |
| `DrainQueue.IntentExaminedWithin` | src/agentic_pr_dash/lifecycle_workflow.py:285-345 | over drains of the store, one after the other, with nothing enqueued in between, a timely intent listed at position p is the subject of a turn within n drains when p is below n batches |
| `Observation.ObservationController.PlanFor` | src/agentic_pr_dash/observation.py:164-272 | asking for a plan returns the specified one, changes nothing, and never raises in a valid controller |
| `Observation.ObservationController.RecordRefresh` | src/agentic_pr_dash/observation.py:274-303 | an acknowledgement marks the plan's slices read and clears those whose generation it recorded |
| `Observation.ObservationController.MarkRead` | src/agentic_pr_dash/observation.py:288-297 | the loop over the plan's slices does so for each of them |
| `Observation.ObservationController.HandleEvent` | src/agentic_pr_dash/observation.py:305-354 | a check event marks CI, a review event review, an opened, reopened or synchronized PR all three slices with the head as the reason, any other PR event metadata, an unknown one nothing; each slice hit is one generation on, the others and the reason of an earlier event stay |
| `Observation.ObservationController.Prune` | src/agentic_pr_dash/observation.py:356-367 | exactly the inactive heads are dropped |
| `Observation.PlanContents` | src/agentic_pr_dash/observation.py:164-272 | an unforced plan holds every invalidated slice and only due or invalidated ones; there is none exactly while an invalidation debounces or nothing is due or invalidated |
| `Observation.PlannedExactlyWhen` | src/agentic_pr_dash/observation.py:164-272 | slice by slice, exactly when an unforced plan includes it |
| `Observation.PlanSaysWhy` | src/agentic_pr_dash/observation.py:164-272 | the reason a plan gives, case by case |
| `Observation.AckLeaves` | src/agentic_pr_dash/observation.py:274-303 | what an acknowledgement leaves of a state, slice by slice |
| `Observation.ReadIsNotRepeated` | src/agentic_pr_dash/observation.py:164-303 | a slice just read and not hit since is not planned again before its interval ends |
| `Observation.StopsAfterTwo` | src/agentic_pr_dash/observation.py:164-303 | plan and acknowledge at one time past the debounce stops after at most two acknowledgements |
| `ObservationRuns.NeverFaults` | src/agentic_pr_dash/observation.py:229-254 | in every reachable controller neither RuntimeError can be raised |
| `ObservationRuns.GenerationCounts` | src/agentic_pr_dash/observation.py:336-367 | a slice's generation is the number of events that hit it since the head was last dropped |
| `ObservationRuns.MarkedExactlyWhen` | src/agentic_pr_dash/observation.py:274-367 | over all interleavings, with prunes anywhere, a slice is marked exactly when it was hit since the head was last dropped and no acknowledgement after the last hit clears it: none of a plan issued after that hit, nor of one older than the drop with the same count |
| `ObservationRuns.LostExactlyWhen` | src/agentic_pr_dash/observation.py:274-367 | exactly which acknowledgements lose an event: those of a plan issued before the last drop at the count reached again since |
| `ObservationRuns.NoInvalidationIsLost` | src/agentic_pr_dash/observation.py:274-354 | with no drop of the head between a plan and its acknowledgement, a slice is marked exactly when its latest event is not followed by a plan with that slice, issued after it and acknowledged |
| `ObservationRuns.PruneLosesAnEvent` | src/agentic_pr_dash/observation.py:356-367 | a concrete run in which a prune between a plan and its acknowledgement loses the newer event |
| `NamedEvents.NoNewsIsLost` | src/agentic_pr_dash/observation.py:97-354 | over all runs of named events, plans and acknowledgements without a drop in between, a slice is marked exactly when the latest event that is about it has not been answered |
| `NamedEvents.CheckIsPlanned` | src/agentic_pr_dash/observation.py:97-272 | and once the debounce is over the next plan includes the slice an unanswered check event is about |
| `DashboardCache.Dashboard.InvalidateDashboardContext` | src/agentic_pr_dash/app.py:77-89 | the generation advances, every context goes stale but stays displayable, every ownership entry goes |
| `DashboardCache.Dashboard.LookUpOwnership` | src/agentic_pr_dash/app.py:1047-1070 | expired entries are dropped and only a fresh entry is a hit |
| `DashboardCache.Dashboard.KeepOwnership` | src/agentic_pr_dash/app.py:1077-1080 | an entry is kept only if no invalidation ran since its generation was captured |
| `DashboardCache.Dashboard.DashboardContext` | src/agentic_pr_dash/app.py:1573-1655 | what a poll serves and the rebuild it may start |
| `DashboardCache.Dashboard.FinishRebuild` | src/agentic_pr_dash/app.py:1613-1643 | a rebuild of an older generation is stored as stale |
| `DashboardCache.StepIsSafe` | src/agentic_pr_dash/app.py:77-89 | every step of the loop and of the workers keeps the freshness invariant |
| `DashboardCache.NothingOldIsFresh` | src/agentic_pr_dash/app.py:1573-1655 | once an invalidation has returned, no later lookup treats as fresh a context or ownership entry read before it |
| `DashboardCache.AtMostOneRebuild` | src/agentic_pr_dash/app.py:1604-1655 | at most one unfinished rebuild per cache key |
| `DashboardRuns.PollServesOrRebuilds` | src/agentic_pr_dash/app.py:1573-1655 | what every poll of a run serves, and exactly when it starts a rebuild in the generation in force: the board is missing, stale or older than half a minute and none is under way; so a board that is not fresh is being rebuilt after every poll |
| `DashboardRuns.RebuildIsStored` | src/agentic_pr_dash/app.py:1613-1643 | a finished rebuild is stored, as fresh exactly when no invalidation began since it was started |
| `DashboardRuns.RebuildIsServed` | src/agentic_pr_dash/app.py:1573-1655 | such a rebuild is what every poll gets for half a minute, until an invalidation or the next rebuild |
| `DashboardRuns.BoardStaysDisplayed` | src/agentic_pr_dash/app.py:77-89 | no invalidation takes a board off the screen: it is displayed until a rebuild of it finishes |
| `DashboardRuns.OwnershipIsKeptExactlyWhen` | src/agentic_pr_dash/app.py:1077-1080 | a computed ownership is kept exactly when no invalidation began since its generation was captured |
| `DashboardRuns.OwnershipStays` | src/agentic_pr_dash/app.py:1047-1080 | and is found for a minute, until an invalidation or a newer one of its key |
| `DashboardRuns.OldOwnershipGoes` | src/agentic_pr_dash/app.py:1057-1069 | an older one is dropped by the next look and used by no build |
| `LoopHealth.ScopeOf` | src/agentic_pr_dash/loop.py:320-374 | the scope of a heartbeat: session, restricted, oneshot, and machine only without a session, a restriction and the one-shot flag |
| `LoopHealth.LoopFiles.RecordLoopHealth` | src/agentic_pr_dash/loop.py:320-374 | the loop's own record says what was observed, and no other entry changes |
| `LoopHealth.LoopFiles.RecordExecutorFailure` | src/agentic_pr_dash/loop.py:547-558 | the stored streak grows by one from what the locked file holds, and is returned |
| `LoopHealth.LoopFiles.ResetExecutorFailure` | src/agentic_pr_dash/loop.py:603-611 | the streak and the marker entry of that PR go |
| `LoopHealth.LoopFiles.MaybeEscalate` | src/agentic_pr_dash/loop.py:704-761 | it fires at the threshold and at no other streak |
| `LoopHealth.StreakCountsFailures` | src/agentic_pr_dash/loop.py:226-275 | over any interleaving of processes a streak is the failures recorded since the last reset |
| `LoopHealth.LoopRecordIsLastBeat` | src/agentic_pr_dash/loop.py:320-374 | over any interleaving the loop's record is its last heartbeat |
| `LoopHealth.EntryHasLastError` | src/agentic_pr_dash/loop.py:547-558 | and a streak entry carries the error of its last failure since the reset, which leaves no entry |
| `LoopHealth.HeartbeatsAreInvisible` | src/agentic_pr_dash/loop.py:320-374 | any run leaves every entry of the health file but the loop's own exactly as the run without its heartbeats does |
| `LoopHealth.EscalatesOnce` | src/agentic_pr_dash/loop.py:704-714 | in a stretch without a reset escalation fires once if the failures cross the threshold, else never |
| `LoopHealth.EscalatesOnceBetweenResets` | src/agentic_pr_dash/loop.py:704-714 | after a reset it fires exactly once if the failures reach the threshold |
| `LoopHealth.SerialMarkerIsExact` | src/agentic_pr_dash/loop.py:571-600 | without overlaps the marker names exactly the PRs escalated and not cleared since |
| `LoopHealth.OverlapLosesMarker` | src/agentic_pr_dash/loop.py:571-600 | in every schedule any overlap can lose an entry: some operations end with an escalation the marker does not name |
| `LoopHealth.MarkerExactExactlyWhen` | src/agentic_pr_dash/loop.py:571-600 | for every schedule, the marker is exact at every point for all operations if and only if no rewrite loads before its own turn |
| `SessionLedger.LastLineWins` | src/agentic_pr_dash/session_ledger.py:75-124 | the entry on a key's last line is read |
| `SessionLedger.ReadsOnlyLastLines` | src/agentic_pr_dash/session_ledger.py:75-124 | every entry read is the last line of its key |
| `SessionLedger.OrderedByFirstLine` | src/agentic_pr_dash/session_ledger.py:75-124 | keys are read in the order of their first lines |
| `SessionLedger.RoundTrip` | src/agentic_pr_dash/session_ledger.py:127-145 | reading what was written gives it back |
| `SessionLedger.PruneIsScoped` | src/agentic_pr_dash/session_ledger.py:214-254 | pruning one repository leaves every other repository's rows, in order |
| `SessionLedger.PruneDropsExactly` | src/agentic_pr_dash/session_ledger.py:214-254 | whatever the file held, a prune drops exactly the rows of the named PRs that it concerns: the repository's own, the legacy ones if asked, all without a repository |
| `SessionLedger.PruneEmptiesRead` | src/agentic_pr_dash/session_ledger.py:75-254 | a prune of every PR a reader sees leaves that reader nothing |
| `SessionLedger.FilterKeepsOrder` | src/agentic_pr_dash/session_ledger.py:214-254 | what remains keeps its order |
| `SessionLedger.AppendReplacesItsPr` | src/agentic_pr_dash/session_ledger.py:148-185 | an append is read back in the place of what was recorded for the same PR of the same repository, and changes nothing else that is read |
| `SessionLedger.EffectHasMeaning` | src/agentic_pr_dash/session_ledger.py:148-249 | each operation on the file is the operation on the map |
| `SessionLedger.LedgerIsOrderedMap` | src/agentic_pr_dash/session_ledger.py:75-249 | after any operations the log reads as the insertion-ordered map; compaction is invisible |
| `SessionLedger.AppendBoundsFile` | src/agentic_pr_dash/session_ledger.py:148-185 | after an append the file is below a positive threshold or holds one line per key |
| `SessionLedger.SessionLedger.Read` | src/agentic_pr_dash/session_ledger.py:75-124 | the entries of the map that the repository filter lets through, in order, and which those are |
| `SessionLedger.SessionLedger.Append` | src/agentic_pr_dash/session_ledger.py:148-185 | the file grows by one line, and compacts itself at the threshold and not before |
| `SessionLedger.SessionLedger.Compact` | src/agentic_pr_dash/session_ledger.py:201-211 | the file becomes one line per key |
| `SessionLedger.SessionLedger.Prune` | src/agentic_pr_dash/session_ledger.py:214-254 | the file keeps exactly the surviving entries, and the dropped keys are returned |
| `ArgvSanitizer.ValueFollows` | src/agentic_pr_dash/dispatch_telemetry.py:416-454 | a token is taken as a value exactly when the token before it is an option that takes one |
| `ArgvSanitizer.TablesAreSane` | src/agentic_pr_dash/dispatch_telemetry.py:39-106 | in every provider's tables no option or switch can be a value, the double dash or anything else |
| `ArgvSanitizer.ReadToken` | src/agentic_pr_dash/dispatch_telemetry.py:340-480 | one turn of the loop shows and hears what the specification says of its token |
| `ArgvSanitizer.TakeToken` | src/agentic_pr_dash/dispatch_telemetry.py:339-481 | one turn keeps every loop variable equal to its specification at the next index |
| `ArgvSanitizer.HoldsMeans` | src/agentic_pr_dash/dispatch_telemetry.py:463-475 | a switch counts exactly when some token before the position is one |
| `ArgvSanitizer.Scan` | src/agentic_pr_dash/dispatch_telemetry.py:288-481 | the index loop computes the token-by-token specification |
| `ArgvSanitizer.SettingsReflect` | src/agentic_pr_dash/dispatch_telemetry.py:308-532 | at every position each variable is what was last said about it, flags before configuration, a bypass before both |
| `ArgvSanitizer.HeardIsLatest` | src/agentic_pr_dash/dispatch_telemetry.py:339-481 | what was heard in a way is what the last position speaking in that way said |
| `ArgvSanitizer.FlagDecides` | src/agentic_pr_dash/dispatch_telemetry.py:308-532 | the last explicit flag decides a setting wherever configuration text stands; without one the last accepted configuration text does |
| `ArgvSanitizer.SourceMeans` | src/agentic_pr_dash/dispatch_telemetry.py:308-532 | who is recorded as having chosen the model: a flag, else configuration, else a profile |
| `ArgvSanitizer.NameProvider` | src/agentic_pr_dash/dispatch_telemetry.py:482-496 | the provider name and whether the command line gave it, per provider, from the last thing said of each |
| `ArgvSanitizer.ProviderMeans` | src/agentic_pr_dash/dispatch_telemetry.py:482-496 | whom a run is attributed to, per provider, local run and what was configured |
| `ArgvSanitizer.OpenCodeNamesProvider` | src/agentic_pr_dash/dispatch_telemetry.py:494-496 | an opencode run goes to what its model has before the first slash |
| `ArgvSanitizer.SanitizeAndResolve` | src/agentic_pr_dash/dispatch_telemetry.py:284-509 | the model is the last explicit flag, else the last accepted configuration value; a bypass flag anywhere before the double dash fixes sandbox and approval, else full-auto does, else the last said; the provider name is fixed by provider, local run and what was said last |
| `ArgvSanitizer.NamelessExactlyWhen` | src/agentic_pr_dash/dispatch_telemetry.py:482-496 | a provider is recorded as given and yet without a name exactly for a codex local run whose configuration names openai and whose local provider is absent or empty |
| `ArgvSanitizer.NamelessRun` | src/agentic_pr_dash/dispatch_telemetry.py:284-509 | a concrete command line whose pass ends so |
| `ArgvSanitizer.PositionalsAreHidden` | src/agentic_pr_dash/dispatch_telemetry.py:339-481 | the list is as long as argv; every bare positional but the first subcommand, and everything after the double dash, is a marker |
| `ArgvRedaction.RedactedHasNoInfluence` | src/agentic_pr_dash/dispatch_telemetry.py:284-509 | two command lines that differ only in hidden text (payload, hidden option values, refused configuration text, detached or attached, the text behind an unknown option's equals sign, the tail of a short switch) are recorded alike and decide the same settings |
| `ArgvRedaction.RecordedAlike` | src/agentic_pr_dash/dispatch_telemetry.py:284-509 | so for every provider's own tables |
| `ArgvRedaction.ReadExactlyWhen` | src/agentic_pr_dash/dispatch_telemetry.py:547-560 | which configuration texts are accepted, and as what: an assignment of a TOML string or a bare word to one of the recorded keys |
| `ArgvRedaction.DetachedIsTreated` | src/agentic_pr_dash/dispatch_telemetry.py:419-454 | the value after an option: hidden and refused values are replaced by their marker and say nothing, accepted assignments are shown and heard as read, others as they stand |
| `ArgvRedaction.AttachedIsTreated` | src/agentic_pr_dash/dispatch_telemetry.py:345-374 | the same for a value written into the token of a short option, with or without an equals sign |
| `ArgvRedaction.EqualsIsTreated` | src/agentic_pr_dash/dispatch_telemetry.py:375-414 | and for the value behind the equals sign of a long option |
| `ArgvRedaction.UnknownIsHidden` | src/agentic_pr_dash/dispatch_telemetry.py:415-418 | what stands behind the equals sign of any other option is replaced and says nothing |
| `ArgvRedaction.TailIsHidden` | src/agentic_pr_dash/dispatch_telemetry.py:455-475 | any other switch says nothing; of a short one only the letter is shown |
| `ArgvRedaction.SentinelIsHidden` | tests/test_dispatch_telemetry.py:147-155 | the malformed configuration text of the tests, and the prompt behind it, are markers in the record |
| `ArgvRedaction.OptionsServe` | src/agentic_pr_dash/dispatch_telemetry.py:56-87 | which codex options take a value and what it is for, in all three spellings |
| `ArgvRedaction.SessionOptionsServe` | src/agentic_pr_dash/dispatch_telemetry.py:79-87 | the other two providers' options; they differ in whether the value of -s is hidden or shown |
| `ArgvRedaction.SwitchesAndKeysServe` | src/agentic_pr_dash/dispatch_telemetry.py:88-94 | the switches every provider's pass looks for, and which configuration key decides what |
| `ArgvRedaction.StripMeans` | src/agentic_pr_dash/dispatch_telemetry.py:547-560 | what stripping leaves of a key or value: the text between its first and last character that is no white space |
| `ArgvRedaction.SpaceMeans` | src/agentic_pr_dash/dispatch_telemetry.py:547-560 | which ASCII characters are white space |
| `ArgvRedaction.TruncateMeans` | src/agentic_pr_dash/dispatch_telemetry.py:563-567 | a record holds at most 1024 characters of a token |
| `ArgvRedaction.BoundedMeans` | src/agentic_pr_dash/dispatch_telemetry.py:491-494 | and at most 128 tokens and a mark that counts the others |
| `RequiredChecks.ScanPage` | src/agentic_pr_dash/github_api.py:3652-3660 | the loop over one page finds a required running check, or reports whether any is required or runs |
| `RequiredChecks.ScanUpTo` | src/agentic_pr_dash/github_api.py:3617-3670 | the paging loop answers the rule on what it fetched, or notes a failure |
| `RequiredChecks.LiveAnswersTheRule` | src/agentic_pr_dash/github_api.py:3617-3670 | over any split into at most 20 pages it answers the rule on the whole rollup; over more, exactly when it still does |
| `RequiredChecks.LiveTells` | src/agentic_pr_dash/github_api.py:3540-3670 | context by context: CI is going on exactly when a gating context is running or, where nothing gates, any is; a check run runs until completed, a commit status while expected or pending |
| `RequiredChecks.MissingCursorAnswersPrefix` | src/agentic_pr_dash/github_api.py:3617-3670 | a page among the first 20 that claims a successor without a cursor makes the scan answer the rule on the pages read, noting no failure |
| `RequiredChecks.PrefixDecidesExactlyWhen` | src/agentic_pr_dash/github_api.py:3644-3664 | such an answer holds whatever the unread pages hold if and only if a required check was seen running |
| `RequiredChecks.MissingCursorHidesRequired` | src/agentic_pr_dash/github_api.py:3661-3664 | so a required running check can be reported as finished CI |
| `RequiredChecks.CursorlessPageEnds` | src/agentic_pr_dash/github_api.py:3661-3664 | an empty cursor is no cursor: a first page that claims a successor behind one ends the scan on what it holds |
| `RequiredChecks.CursorlessPageFails` | src/agentic_pr_dash/github_api.py:2540-2573 | where the thread reader returns an error |
| `RequiredChecks.BatchRow` | src/agentic_pr_dash/github_api.py:3973-4021 | a PR enters the batch exactly when nothing of it is truncated or malformed, with the rule's answer |
| `RequiredChecks.RequiredChecksPendingLive` | src/agentic_pr_dash/github_api.py:3576-3670 | a primed entry answers for the server, otherwise the scan does |
| `RequiredChecks.PrimedAgreesWithLive` | src/agentic_pr_dash/github_api.py:3989-4021 | a primed entry and the live query agree, however the server pages the rollup |
| `RequiredChecks.GetReviewThreads` | src/agentic_pr_dash/github_api.py:2458-2573 | within any number of requests the loop returns all pages, or the error its first, later or cursorless page calls for, or is still asking |
| `RequiredChecks.EnoughIsEnough` | src/agentic_pr_dash/github_api.py:2458-2573 | once a number of requests suffices, more change nothing |
| `RequiredChecks.NeverPartial` | src/agentic_pr_dash/github_api.py:2458-2573 | after a first page it returns threads exactly when it has every page |
| `ReviewThreads.Order` | src/agentic_pr_dash/github_api.py:4816 | the stable sort enumerates every reply once, by stamp and then place |
| `ReviewThreads.MarkerMeans` | src/agentic_pr_dash/github_api.py:4817-4825 | which marker a reply counts as, by where the marker texts stand in it |
| `ReviewThreads.ReadThreadState` | src/agentic_pr_dash/github_api.py:4791-4846 | the reply loop computes the fold and the age of an open claim |
| `ReviewThreads.FoldMeans` | src/agentic_pr_dash/github_api.py:4791-4846 | the fold equals its declarative form on the replies as given |
| `ReviewThreads.TouchedHasLast` | src/agentic_pr_dash/github_api.py:4791-4846 | a thread with a marker has a last one, so the declarative form is total |
| `ReviewThreads.ScanThreads` | src/agentic_pr_dash/github_api.py:4905-5016 | one decision per thread in order, one inline comment per picked decision in order |
| `ReviewThreads.OneDecisionEach` | src/agentic_pr_dash/github_api.py:4905-5016 | the k-th decision is the one on the k-th thread |
| `ReviewThreads.PickedExactlyWhen` | src/agentic_pr_dash/github_api.py:4905-5016 | in terms of the replies alone, exactly when a thread is picked |
| `ReviewThreads.PassedOverExactlyWhen` | src/agentic_pr_dash/github_api.py:4905-5016 | and, verdict by verdict, exactly when it is passed over |
| `ReviewThreads.DecisionTells` | src/agentic_pr_dash/github_api.py:4905-5016 | what the audit record tells of a thread |
| `ReviewThreads.HandledDiffersOnFollowUps` | src/agentic_pr_dash/github_api.py:4849-4867 | where the older helper and the scan agree, and where they do not |
| `DeliveryChecklist.NeverTripsValidators` | src/agentic_pr_dash/lifecycle_models.py:236-305 | for all valid inputs the projection meets every checklist validator |
| `DeliveryChecklist.RemoteTells` | src/agentic_pr_dash/delivery_checklist.py:65-205 | for every recorded observation, whatever was stored before, the state and next step of each remote item in terms of what was observed |
| `DeliveryChecklist.HalvesShow` | src/agentic_pr_dash/delivery_checklist.py:208-302 | what both halves show for missing evidence, evidence of another head, and a missing or other job's snapshot |
| `DeliveryChecklist.RemoteSatisfiedExactlyWhen` | src/agentic_pr_dash/delivery_checklist.py:65-205 | the remote items are all satisfied exactly when the snapshot is settled and watched |
| `DeliveryChecklist.RemoteSatisfiedExactlyAtWindow` | src/agentic_pr_dash/delivery_checklist.py:65-205 | over a job's whole orderly history that is exactly while the last observation closes the settlement interval |
| `DeliveryChecklist.CompleteExactlyWhen` | src/agentic_pr_dash/delivery_checklist.py:208-302 | a checklist is complete exactly for satisfied local evidence of the exact head and a settled, watched snapshot matching any target |
| `DeliveryChecklist.NothingNextExactlyWhenComplete` | src/agentic_pr_dash/delivery_checklist.py:305-321 | the rendered tail line says none exactly for a complete checklist |
| `DeliveryChecklist.NextIsFirst` | src/agentic_pr_dash/delivery_checklist.py:305-321 | otherwise it names the first action of the first item that is not satisfied |

## Left out

- Subprocess, gh, git, HTTP, templates, terminals and command lines: their results are inputs.
- Ownership, finalization leases and the coordinator: their guarantees rest on a package that is not part of this model.
- The finalization evaluator and the combination of two clean observations are not part of this model: their results are
  data, with the one assumption `Settlement.CleanIsMergeable`.
- Byte-level JSON, SHA-256, TOML, timestamp parsing and file permissions; records tampered with on disk; partial last
  lines of the ledger.
- URL forms of repository names, blank-text validation and case folding beyond ASCII.
- The enqueue status value, the one-time rearm of old review watches, dispatch to the orchestrator, cancellation inside a
  drain, and lock timeouts.
- Settlement.SettledExactlyAtWindow: is about the history of one job; `JobRuns.FileIsHistory` says for which interleaved
  runs the file has that history. A turn of `Workflow` reads its clock and the snapshot file once, where the drain reads
  them several times; `JobRuns` has those readings apart.
- JobRuns.RefusedExactlyWhen: is about snapshots built by the drain; bare snapshot writes carry whatever their caller
  built.
- NeverDropped.DrainsNeverDrop: is about identities; `OpenPrs.PrNeverDropped` is about PR numbers, under the assumption
  that the lemmas above show is needed.
- DrainQueue.IntentExaminedWithin: leaves out drains whose turns fail or enqueue, and enqueues between drains.
- DrainSchedule.ExaminedWithin: leaves out drains with failed outcomes, which reschedule nothing.
- Observation.StopsAfterTwo: takes one fixed answer about pending CI for all its requests.
- ObservationRuns.NoInvalidationIsLost: assumes no drop of the head between a plan and its acknowledgement, which
  `PruneLosesAnEvent` shows is needed; `MarkedExactlyWhen` is without that assumption.
- StoreRuns.FenceHolds: is about callers that pass versions, as the drain does; unversioned calls other than the bare
  snapshot write have no fence to prove.
- LoopHealth: health-file saves that fail, the unlocked fallback, and the reader that judges heartbeats by age.
- SessionLedger.SessionLedger.Prune: returns the keys whose claim files go; the claim files themselves are not modelled.
- ArgvSanitizer: attributes other than the parsed ones, and white space beyond ASCII when a configuration key is stripped.
- RequiredChecks.GetReviewThreads: the source's loop has no page limit and need not end on a server whose cursors never
  end; the model stops asking after a given number of requests and says so, for every such number.
- ReviewThreads.ScanThreads: review-level comments and the deferral store, which are inputs or follow the loop.
- DeliveryChecklist: the wording of authorities and summaries.

# PgRelay: a model of the job queue and proofs about it

PgRelay keeps jobs in PostgreSQL and runs them from asyncio workers. This project models its core in Dafny: the
guarded statements on the queue, job and attempt tables, the claim transaction with its locks and snapshots, the
worker's tasks, and the loops and arithmetic around them.

## How the model is built

- `Rows`, `Statements`: the rows, and every statement of the job repository as a function from tables to tables.
- `Repository`, `Services`: the repositories and services as methods that update a `Store` in place, statement by
  statement, with roll back; each is proved to take one step of `Statements`. `Schema` holds the constraints of the
  tables, which `Store.Valid()` requires and every method keeps. `Earliest` and `Names` hold the orders used.
- `Protocol`: the lease protocol as a state machine. A step is one committed transaction of any worker, administrator
  or application, with its own transaction time; nothing orders transaction times. A history records what tables
  forget. A run may claim beyond a concurrency limit: what is proved of runs needs no limit to hold.
- `Accounting`, `Lifecycle`, `Idempotency`, `Lineage`: invariants of every run. `Fence` and `Fidelity` add what needs
  H1 (below), job by job; `Fence` and `Reclaim` say exactly which steps break it without H1, and `Overlap` holds such
  runs.
- `Transitions`: the status diagram, and column by column what each step changes; `Queues`: the settings of a queue over
  whole runs, and that nothing is claimed from a paused one.
- `Selection`: the two-level ordered and limited selection of a claim, and in which sense it is optimal.
- `ClaimTx`: claim transactions as they interleave: recover, lock queue rows in name order, take the second
  statement's snapshot, lock again, pick with SKIP LOCKED, commit or abort, among all other steps. Guards are
  re-evaluated on the current row version and counts come from the snapshot, as PostgreSQL's documentation of Read
  Committed (section 13.2.1) describes. `ClaimSafety`, `ClaimLimits`, `ClaimOrder` and `ClaimSerial` prove refinement
  of the protocol (with or without H2), limits, absence of deadlock and serializability; `StaleSnapshot` says exactly
  when a pick can oversubscribe a queue, and it and `LockCycle` hold runs without H2.
- `Drain`: rounds of recover, claim and record end.
- `Heartbeat`, `LeaseTiming`: the extension loop, and what its timing guarantees in every run.
- `Execution`, `Worker`: one execution over every outcome of its awaits, and the claim loop, its map and its shutdown.
- `Backoff`: retry delays, over the reals, with the random draw as an argument.

## Assumptions that some results need

- **H1** (`Protocol.NoSelfOverlap`): a worker claims no job that one of its own tasks is still executing. Worker ids
  are unique. The fence of complete, fail, return and extend compares only `locked_by` and `status`
  (src/pgrelay/repositories/job_sql.py:96, :106, :125, :142), while the retry decision and the attempt number come
  from the claimed snapshot (src/pgrelay/repositories/job_state.py:99, :147), so a worker that re-claims a job after
  its own lease expired passes the fence with an old snapshot. A result about one job needs it of claims of that job
  only (`Protocol.NoOverlapRunOn`).
- **H2** (`ClaimTx.NoNewQueue`): the second claim statement works only on queues that the first has locked. A queue
  created or resumed between the two statements is locked after the snapshot that counts its leases. A limit needs it
  of its own queue only (`ClaimLimits.NoStrayRun`).

## Where the code does not do what the documentation says

- docs/architecture.md:38-39 says concurrent workers cannot oversubscribe a queue. That needs H2 for that queue:
  `StaleSnapshot.LimitExceededWithoutH2` is a run that does, `ClaimLimits.OverrunStrays` says that every such run has
  a second statement working on that queue without its first having locked it, and `StaleSnapshot.PickCanOverrunIff`
  says exactly when a pick can do it.
- docs/architecture.md:21 says a replay creates a new job id. It does exactly when no row of the source's queue holds
  the key "replay:" and the source's id: `Lineage.ReplayCreatesIff`. So a second replay answers the first one's id,
  whatever its status has become (`Lineage.SecondReplayAnswersTheFirst`), and after an ordinary enqueue with that key
  even the first replay creates nothing (`Lineage.FirstReplayCanCreateNothing`).
- A retryable failure goes back to pending with backoff (docs/architecture.md:54). Without H1 it can go back to
  pending with no attempt left, and then stays there: `Overlap.StuckWithoutH1`; exactly which step does it:
  `Reclaim.StrandsIff`.
- An execution that has lost its lease records no result (docs/architecture.md:56). That needs H1 for its job:
  `Fence.EffectsAreOwn`, `Fence.LostLeaseHasNoEffect`. H1 is the exact condition for the fence to be a token of one
  claim (`Fence.FenceIsToken`), and a late effect always has such a claim before it (`Fence.LateEffectRegains`).
  Without H1 an execution can complete a later claim of its worker (`Overlap.ForeignResultWithoutH1`), two attempts
  can get one number (`Overlap.StuckWithoutH1`; exactly which step: `Reclaim.MisattributesIff`), and one execution can
  take effect twice (`Overlap.TwoEffectsWithoutH1`; exactly which step: `Reclaim.SecondEffectIff`).

## Model

| member | source | states |
|---|---|---|
| `Accounting.StepKeepsBalance` | src/pgrelay/repositories/job_sql.py:80-182 | every statement, by whoever and in any order, keeps for each job: attempt rows + [leased] = attempt_count = claims - effective returns <= max_attempts; lease columns set exactly when leased; completed_at set exactly when terminal. No assumption about overlapping executions |
| `Accounting.AttemptConservation` | src/pgrelay/repositories/job_sql.py:80-182 | the same over all runs from the empty schema |
| `Accounting.ReturnUndoesClaim` | src/pgrelay/repositories/job_sql.py:99-107 | after any run the clamp of the decrement at zero does not fire, and an effective return lowers attempt_count by exactly one, makes the row pending and leaves the attempt table alone; whose claim it takes back is `Fidelity.ReturnUndoesOwnClaim` |
| `Accounting.ClaimThenReturnIsIdentity` | docs/architecture.md:24-25 | claiming a ready row and returning it restores the whole table but for updated_at |
| `Fidelity.StepKeepsSharp` | src/pgrelay/repositories/job_state.py:48-156 | under H1 every step keeps: pending means attempts left, the lease holder is the worker of the claim that set attempt_count, the log is numbered 1..n with the right workers, and a live task whose fence is open has a current snapshot and no effect yet |
| `Fidelity.NoStuckJob` | src/pgrelay/repositories/job_sql.py:69-72 | over all runs in which no worker claims this job while executing it (H1 for one job): if pending it passes the claim guard exactly when it is due; if leased, 1 <= attempt_count <= max_attempts |
| `Fidelity.AttemptLogFidelity` | src/pgrelay/repositories/job_state.py:130-156 | over the same runs: attempt rows of the job are numbered 1..n without gap or duplicate and row k names the worker of the last claim that set attempt_count to k |
| `Fidelity.OneExecutionOneEffect` | src/pgrelay/worker/runner.py:117-152 | over the same runs: of complete, fail and return at most one takes effect for a claim, and it does so on the lease that this claim made |
| `Fidelity.ReturnUndoesOwnClaim` | src/pgrelay/repositories/job_sql.py:99-107 | over the same runs: an effective return is by the execution of the latest claim and sets attempt_count back to what that claim found |
| `Fence.TokenIff` | src/pgrelay/repositories/job_sql.py:96-142 | the fence compares the worker only. From a state where it is a token (of the live executions of a job only that of the latest claim passes it), a step keeps it one exactly when it is no claim of the job by a worker still executing it |
| `Fence.FenceIsToken` | src/pgrelay/repositories/job_sql.py:96-142 | over all runs: the fence of a job is a token all along exactly when H1 holds for the job all along |
| `Fence.EffectsAreOwn` | docs/architecture.md:56 | over all runs under H1 for the job: whatever an execution records or gives back with effect is on the lease of its own claim, the latest |
| `Fence.RegainedIff` | src/pgrelay/repositories/job_sql.py:96-142 | with or without H1: of all steps, exactly a claim of the job by the execution's own worker while it is live reopens a fence that was shut for it |
| `Fence.LostLeaseHasNoEffect` | docs/architecture.md:56 | from any state in which an execution does not pass its fence, and along any run under H1 for the job: nothing of it takes effect |
| `Fence.LateEffectRegains` | docs/architecture.md:56 | with or without H1: if something of such an execution does take effect, its own worker has claimed the job in between while it was live |
| `Reclaim.StrandsIff` | src/pgrelay/repositories/job_state.py:99-116 | with or without H1, of all steps exactly this one makes a job pending with no attempt left: a failure that passes the fence and retries on its snapshot while the row has no attempt left |
| `Reclaim.FailStrandsIff` | src/pgrelay/repositories/job_state.py:99 | the same of a recorded failure: it strands its job exactly when it decides to retry while the row has no attempt left |
| `Reclaim.StrandedStays` | src/pgrelay/repositories/job_sql.py:69-72 | no step but a cancellation ends that state: no claim, recovery, record or purge |
| `Reclaim.StrandedByOverlap` | src/pgrelay/repositories/job_sql.py:109-144 | over all runs: no claim at any time can take a stranded job; it has had such a failure, and a claim by a worker that was still executing it |
| `Reclaim.RecordNumbersNextIff` | src/pgrelay/repositories/job_state.py:142-152 | with or without H1: a recorded success or failure adds one attempt row, which gets the next free number exactly when the claimed snapshot has the row's attempt_count |
| `Reclaim.MisnumbersIff` | src/pgrelay/repositories/job_state.py:130-156 | of all steps exactly this one leaves a gap or a duplicate in numbers that were 1..n: a record that passes the fence with the snapshot of an earlier attempt |
| `Reclaim.MisattributesIff` | src/pgrelay/repositories/job_state.py:130-156 | the same of numbers and workers together: exactly a record with the snapshot of an earlier attempt makes the attempts of a job not numbered 1..n, or not naming the workers of the claims that reached these numbers, or its lease not that of the claim that reached its attempt_count |
| `Reclaim.MisattributedByOverlap` | src/pgrelay/repositories/job_state.py:130-156 | over all runs: a job of which that is not so was claimed by a worker that was still executing it |
| `Reclaim.SecondEffectIff` | src/pgrelay/worker/runner.py:117-152 | of all steps exactly this one is a second effect of an execution: a return that passes the fence after the execution's record took effect |
| `Reclaim.SecondEffectByOverlap` | src/pgrelay/worker/runner.py:117-152 | over all runs: an execution has at most two effects, and two only if its worker claimed its job while still executing it |
| `Overlap.StuckWithoutH1` | src/pgrelay/repositories/job_state.py:99-116 | a five-step run without H1 that ends with a pending job no claim can take and two attempts numbered 1 |
| `Overlap.TwoEffectsWithoutH1` | src/pgrelay/repositories/job_sql.py:99-107 | a run without H1 in which the failure and the return of one execution both take effect |
| `Overlap.ForeignResultWithoutH1` | docs/architecture.md:56 | a run without H1 in which an execution that has lost its lease completes a later claim, as its first effect and with the right attempt number |
| `Transitions.StatusFollowsDiagram` | docs/architecture.md:14-21 | of every step of anyone, each change of a job's status has exactly the cause that the diagram gives it, and each such cause has its effect: in particular a failure that lands is retried exactly when it is retryable and the claimed row had attempts left, and a recovery dead-letters exactly when no attempt is left |
| `Transitions.StepMovesColumns` | src/pgrelay/repositories/job_sql.py:80-182 | of every step: queue, work, priority, max_attempts, key and created_at never change; available_at only by a retry, to its time plus the delay; attempt_count only by a claim or a return; completed_at is the time of the step that made the job terminal; a lease comes from a claim, is renewed by its owner and ends with the leased status; a replay reference is cleared exactly when its job is purged; a changed row carries the time of the change |
| `Transitions.FailureLeaves` | src/pgrelay/repositories/job_state.py:99-124 | a failure that lands leaves the row pending and available after the delay exactly when it is retryable and the claimed row had attempts left, otherwise dead-lettered and completed now with available_at as it was, and writes one attempt, a timeout exactly when it timed out |
| `Transitions.FinalFailureIsFinal` | docs/architecture.md:54-55 | after a failure that is permanent or the last attempt's, no claim of any further run takes the job, which stays dead-lettered since that failure until it is purged |
| `Transitions.SuccessIsFinal` | docs/architecture.md:16 | after a success that lands, no claim of any further run takes the job, which stays succeeded since then until it is purged |
| `Transitions.CreatedAsAsked` | src/pgrelay/repositories/job_sql.py:8-22 | a created row carries what was asked for, is available at the asked time or at once when none was given, and is pending with no attempt made |
| `Transitions.ReplayStartsOver` | src/pgrelay/repositories/jobs.py:182-200 | the row of a replay has its terminal source's queue, work, priority and max_attempts, no attempt made, is available at once and holds the key that names the source |
| `Transitions.ScheduledJobWaits` | src/pgrelay/repositories/job_sql.py:18 | over any run: no claim of a job before its first failure has a transaction time before the time the job was asked for |
| `Lifecycle.TerminalIsAbsorbing` | src/pgrelay/repositories/job_sql.py:80-205 | from any terminal row and along any run, the row stays as it is (a replay reference may be nulled) or is purged as it was |
| `Lifecycle.QueueCensus` | src/pgrelay/repositories/job_sql.py:80-205 | over all runs and per queue: rows inserted = pending + leased + succeeded + dead_letter + cancelled + purged |
| `Lifecycle.NoJobVanishes` | src/pgrelay/repositories/job_sql.py:184-205 | over all runs: every job ever inserted is in the table or was purged with a terminal row |
| `Lifecycle.RetryWaitsItsDelay` | src/pgrelay/repositories/job_sql.py:130-134 | after an effective retryable failure no claim of the job before its next failure has a transaction time before the failure plus the delay |
| `Selection.TopOfUpSet` | src/pgrelay/repositories/job_sql.py:73-74 | an ordered, limited selection holds as many jobs of any up-set of the order as limit and candidates allow |
| `Selection.ClaimSize` | src/pgrelay/repositories/job_sql.py:63-79 | a claim takes min(batch, sum over queues of min(slots, ready jobs)) jobs and is feasible: within each queue's slots and the batch |
| `Selection.ClaimDominates` | src/pgrelay/repositories/job_sql.py:63-79 | optimal basis: of every up-set of the order the claim holds at least as many jobs as any feasible set |
| `Selection.ClaimHasBestPrefixes` | src/pgrelay/repositories/job_sql.py:73-78 | no feasible set has more jobs among those of higher priority than any given row, or as high and available earlier, or as early too and not created later |
| `Selection.ClaimMaximizesPriority` | src/pgrelay/repositories/job_sql.py:73-78 | no feasible set of the claim's size has a higher priority total |
| `Selection.ClaimLeavesNoneAhead` | src/pgrelay/repositories/job_sql.py:73-78 | column by column: no ready row left behind has a higher priority than a claimed row of its queue, nor at equal priority an earlier available_at, nor at equal both an earlier created_at; nor than any claimed row when its queue has slots left |
| `Selection.ClaimIsMaximal` | src/pgrelay/repositories/job_sql.py:54-78 | a claim below its batch has used up the slots of every queue in which it leaves a ready row behind |
| `Queues.SettingsAreTheLast` | src/pgrelay/repositories/queues.py:72-103 | over all runs: a queue exists exactly when an enqueue or an administrator has named it, and its paused flag and its limit are each the last value given for that setting, or else running and eight; giving one leaves the other alone |
| `Queues.NothingFromPausedQueues` | src/pgrelay/repositories/job_sql.py:48-53 | in every reachable state of interleaved claim transactions, with or without H2: what a transaction has picked lies in queues that it asked for and that are not paused, so no commit leases anything of a paused queue |
| `ClaimSafety.CommitNeverBlocked` | src/pgrelay/repositories/job_sql.py:75-87 | in every reachable state, with or without H2, row locks keep what a claim transaction picked and recovered: its commit is a possible recover step followed by a possible claim step |
| `ClaimSafety.PickFits` | src/pgrelay/repositories/job_sql.py:54-56 | if the queue was locked before the second statement's snapshot, the slots computed from that snapshot are really free when the pick is made; rows are picked of held queues only |
| `ClaimSafety.StepKeepsSafeAt` | src/pgrelay/repositories/jobs.py:165-177 | queue by queue: every action of every transaction and every other step that does not stray on the queue keeps the lock and slot invariants of all open transactions on it |
| `ClaimSafety.StepKeepsSafe` | src/pgrelay/repositories/jobs.py:165-177 | the same for all queues at once, under H2 |
| `ClaimLimits.RunRefinesProtocol` | src/pgrelay/repositories/jobs.py:165-177 | with or without H2, any interleaving of any number of claim transactions with all other steps changes the committed tables by legal atomic steps, so every result about runs of the protocol holds of it, and no transaction that has picked is kept from committing |
| `ClaimLimits.RefinedClaimsFit` | src/pgrelay/repositories/job_sql.py:54-56 | what H2 adds to that, queue by queue: where no second statement works on the queue without its first having locked it, every claim of the atomic run fills free slots of the queue only |
| `ClaimLimits.LimitNeverExceeded` | docs/architecture.md:38-39 | in every interleaving from the empty schema in which no second statement works on this queue without its first having locked it (whatever happens to other queues) and while its limit is not lowered: committed leases never exceed the limit, nor do they (less those the transaction itself recovers) together with one transaction's uncommitted picks |
| `ClaimLimits.NoActionPassesLimit` | src/pgrelay/repositories/job_sql.py:54-56 | after any such run, also one that lowers the limit, no action takes the queue above the larger of its count and its current limit |
| `ClaimLimits.OverrunStrays` | docs/architecture.md:38-39 | with or without H2: an interleaving that leaves a queue above its never lowered limit has a second statement that worked on that very queue without its first having locked it |
| `StaleSnapshot.PickCanOverrunIff` | src/pgrelay/repositories/job_sql.py:48-79 | in any state, with or without H2: a transaction about to pick can oversubscribe a queue exactly when its batch reaches one more of the top rows of that queue than the queue has slots free |
| `StaleSnapshot.OverrunIffStale` | src/pgrelay/repositories/job_sql.py:48-62 | a pick that oversubscribes a queue has a snapshot that misses a lease of it and shows a free slot, and with such a snapshot a pick that uses all its slots does |
| `StaleSnapshot.LimitExceededWithoutH2` | docs/architecture.md:38-39 | a run without H2 in which a queue whose limit is one from its creation on ends with two leases |
| `ClaimOrder.CycleStrays` | src/pgrelay/repositories/job_sql.py:35-53 | in every reachable state, with or without H2, a cycle of waiting claim transactions contains one whose second statement waits for a queue its first did not lock |
| `ClaimOrder.NoDeadlock` | src/pgrelay/repositories/job_sql.py:35-53 | under H2 the wait-for graph of claim transactions is acyclic in every reachable state |
| `ClaimOrder.SomeoneProceeds` | src/pgrelay/repositories/job_sql.py:35-53 | under H2, whenever claim transactions are open one of them waits for no other |
| `LockCycle.DeadlockWithoutH2` | src/pgrelay/repositories/job_sql.py:35-53 | a run without H2 after which two claim transactions wait for each other |
| `ClaimSerial.ClaimsAreSerializable` | src/pgrelay/repositories/jobs.py:165-177 | every interleaving of claim transactions without recovery leaves the tables as running them one at a time in commit order, each as an atomic optimal claim of all it could take at its turn |
| `ClaimSerial.ClaimsAreSerializableFromIdle` | src/pgrelay/repositories/jobs.py:165-177 | the same from any reachable tables with no claim transaction open |
| `ClaimSerial.AtomicClaimIsLegal` | src/pgrelay/repositories/job_sql.py:48-88 | an atomic claim takes ready rows only and fits the limit of every queue |
| `ClaimSerial.DisjointClaimsCommute` | src/pgrelay/repositories/job_sql.py:47-88 | claims over disjoint sets of unpaused queues commute, and each stays the atomic claim it was |
| `ClaimSerial.ClaimsAreDisjoint` | src/pgrelay/repositories/job_sql.py:80-88 | no job is handed out by two claims of a serial run |
| `Drain.RoundDecreases` | src/pgrelay/worker/runner.py:81-115 | a round of recover, claim and anything but inserts, returns and queue changes never raises the sum over live jobs of 2*(max_attempts - attempt_count) + [leased], and lowers it while a job is live |
| `Drain.Drains` | src/pgrelay/worker/runner.py:81-115 | drain theorem (H1): after as many rounds as that sum, no job is pending or leased, whatever the outcomes |
| `Drain.DrainsAfterAnyRun` | src/pgrelay/worker/runner.py:81-115 | the same from the end of any run, positive limits being kept by the check constraint |
| `Drain.RoundExists` | src/pgrelay/worker/runner.py:84-97 | a worker with nothing in flight whose clock has passed the live jobs' times can always start a round |
| `Heartbeat.RunLeaseHeartbeat` | src/pgrelay/worker/heartbeat.py:11-35 | the loop returns lost and cancels the execution exactly when an extension matches no row; its extensions are spaced by the interval and the delays; the chain of leases is unbroken exactly when consecutive delays fit lease - interval |
| `Heartbeat.SlackOfSettings` | src/pgrelay/worker/heartbeat.py:21 | for every lease the settings allow from five seconds on the interval is a third rounded down, and at least two thirds of the lease are slack |
| `LeaseTiming.TimedLeaseSafety` | src/pgrelay/repositories/job_sql.py:93-97 | if each of the owner's transactions on a job commits within lease seconds of the transaction time of the one before, no recovery takes the job in any run while it is owned, transaction times being unordered |
| `LeaseTiming.ClaimedJobIsKept` | src/pgrelay/worker/heartbeat.py:11-35 | from the claim step to the record: if the first extension commits within the lease of the claim, the loop's beats fit its slack and the record commits within the lease of the last extension, then in any run no recovery takes the job, every extension and the record find the row owned by the claiming worker, and the loop reports the lease owned |
| `Idempotency.InsertRefinesMap` | src/pgrelay/repositories/jobs.py:49-78 | over any run, insert_job answers as a plain map from (queue, key) to the first row does |
| `Idempotency.RepeatsAnswerTheFirst` | src/pgrelay/repositories/jobs.py:73-78 | repeating a keyed call answers the first call's id with created = false until that row is purged |
| `Idempotency.CreatedCount` | src/pgrelay/db/models.py:89-95 | over a run without purges, rows created = calls without key + distinct pairs not present before |
| `Lineage.AtMostOneLiveReplay` | src/pgrelay/services/jobs.py:85 | over all runs a job has at most one live replay, which shares its source's queue and copied columns |
| `Lineage.LineageIsChains` | src/pgrelay/db/models.py:53-56 | over all runs the replayed-from relation is a disjoint union of finite chains, preserved by SET NULL |
| `Lineage.ReplayCreatesIff` | docs/architecture.md:21 | over all runs: a replay creates a job exactly when no row of the source's queue holds the replay's key, which is when the map from (queue, key) to first rows has no entry for it; otherwise it answers that entry |
| `Lineage.SecondReplayAnswersTheFirst` | docs/architecture.md:21 | replaying again before the first replay is purged creates nothing and answers the first replay's id |
| `Lineage.FirstReplayCanCreateNothing` | src/pgrelay/services/jobs.py:85 | a run in which an ordinary enqueue has taken the key, so that even the first replay creates nothing and answers a job that never was a replay |
| `Lineage.ReplaysOfDifferentSourcesDiffer` | src/pgrelay/repositories/jobs.py:182-200 | replays of different sources never answer with one row, whatever rows hold their keys |
| `Backoff.DelayBounds` | src/pgrelay/worker/backoff.py:8-14 | every delay lies in [1, retry_max_seconds] and within the jitter window up to truncation |
| `Backoff.DelayFollowsDraw` | src/pgrelay/worker/backoff.py:10-14 | the delay is the capped exponential plus the draw, rounded down to whole seconds, where that lies between one second and the maximum, and the nearer of the two otherwise |
| `Backoff.PlainDelaysGrow` | src/pgrelay/worker/backoff.py:10-11 | without jitter delays never decrease and stay at the maximum once there |
| `Backoff.TotalDelayFormula` | src/pgrelay/worker/backoff.py:10-11 | without jitter the first m delays sum to base*(2^k - 1) + (m - k)*max with k the unsaturated ones |
| `Schema.DeleteKeepsConstraints` | src/pgrelay/db/models.py:53-56 | deleting any rows with CASCADE and SET NULL leaves no attempt row and no replay reference dangling and keeps all other constraints |
| `Schema.InsertKeepsConstraints` | src/pgrelay/db/models.py:67-101 | an insert that passes its checks keeps every constraint, the partial unique index included |
| `Repository.Store.ExtendLease` | src/pgrelay/repositories/job_state.py:27-37 | changes the row and answers true exactly when the worker owns it |
| `Repository.Store.ReturnLeasedJobToPending` | src/pgrelay/repositories/job_state.py:39-46 | changes the row and answers true exactly when the worker owns it |
| `Repository.Store.InsertAttempt` | src/pgrelay/repositories/job_state.py:130-156 | appends the row, or is rejected exactly when the number is not positive |
| `Repository.Store.CompleteJob` | src/pgrelay/repositories/job_state.py:48-80 | update then attempt row are one atomic step: fenced out, both done, or both rolled back with an error |
| `Repository.Store.FailJob` | src/pgrelay/repositories/job_state.py:82-128 | the same for a failure: pending and available after the delay exactly when retryable with attempts left on the claimed snapshot, otherwise dead-lettered now |
| `Repository.Store.PickExpired` | src/pgrelay/repositories/job_sql.py:146-153 | picks rows that nobody has locked and whose lease ended before now, at most batch, those that ended earliest, and all of them if they fit |
| `Repository.Store.RecoverExpiredLeases` | src/pgrelay/repositories/job_state.py:158-165 | recovers exactly the picked rows and writes one attempt each, or changes nothing when an attempt number is rejected |
| `Repository.Store.CancelPendingJob` | src/pgrelay/repositories/job_state.py:167-175 | cancels and returns the row exactly when it is pending |
| `Repository.Store.PickPurgeable` | src/pgrelay/repositories/job_sql.py:185-200 | picks at most batch rows completed longer ago than the retention of their status (succeeded, or dead-lettered and cancelled), the earliest completed, and all of them if they fit; counts them by status |
| `Repository.Store.PurgeJobs` | src/pgrelay/repositories/job_state.py:177-203 | deletes exactly the picked rows with their cascades and returns their number by status |
| `Repository.Store.UpsertQueue` | src/pgrelay/repositories/queues.py:38-51 | creates the queue with its defaults exactly when it is missing |
| `Repository.Store.UpdateQueue` | src/pgrelay/repositories/queues.py:72-103 | changes exactly the settings given; a limit that is not positive rolls back everything, the upsert included |
| `Repository.Store.InsertJob` | src/pgrelay/repositories/jobs.py:29-81 | the answer and the tables in every case: rejected by a check or a foreign key and rolled back; created as asked, available at the asked time or now; answered with the existing row; or an error because that row was purged between the two statements |
| `Repository.Store.FindByKey` | src/pgrelay/repositories/jobs.py:83-96 | finds a row exactly when one holds the key |
| `Repository.Store.LockClaimQueues` | src/pgrelay/repositories/job_sql.py:31-41 | the unpaused queues asked for, in name order |
| `Repository.Store.PickClaims` | src/pgrelay/repositories/job_sql.py:54-79 | the picked rows are the two-level top selection, ties aside, and one always exists; in columns: `Selection.ClaimLeavesNoneAhead` |
| `Repository.Store.ClaimJobs` | src/pgrelay/repositories/jobs.py:155-180 | leases rows of unpaused queues asked for that are pending, due, with attempts left and unlocked, within the batch and each queue's limit; leaves one only when the batch is full or its queue's slots are used up; none left is ahead of a claimed one by priority, available_at and created_at, within a queue and across queues with slots left; returns the rows as updated; with no row locked by others it is the atomic claim that the serial runs of `ClaimSerial` are made of |
| `Repository.Store.ReplayJob` | src/pgrelay/repositories/jobs.py:182-200 | inserts a copy of the source's columns with a null available_at, or answers the row that holds the key |
| `Services.JobService.Replay` | src/pgrelay/services/jobs.py:75-91 | admission by the status read earlier, dead-lettered, cancelled or with force succeeded, with its two errors; then the insert on the current tables, with a foreign key error if the source was purged in between |
| `Services.JobService.Cancel` | src/pgrelay/services/jobs.py:93-105 | succeeds exactly when the job is pending both when read and when updated; otherwise the right error and no change |
| `Services.PurgeService.PurgeBatch` | src/pgrelay/services/purge.py:34-41 | one batch deletes the earliest completed rows past the retention of their status, at most batch of them and all if they fit, with their cascades, and returns their number by status |
| `Services.PurgeService.PurgeUntilDone` | src/pgrelay/services/purge.py:43-56 | with no other writer and each batch at a transaction time of its own: terminates after exactly D / batch_size + 1 batches, having deleted D rows, each past its retention at the time of some batch, and left none that is past it at the time of the last; returns their number by status and keeps every constraint |
| `Services.PurgedRowsAreOld` | src/pgrelay/repositories/job_sql.py:188-197 | every row that a purge deletes had succeeded more than succeeded_days days before the time of some batch, or was dead-lettered or cancelled more than dead_letter_days days before one |
| `Services.NoOldRowIsLeft` | src/pgrelay/repositories/job_sql.py:188-197 | after the last batch no terminal row is left that is older than the retention of its status |
| `Services.PurgeIsExact` | src/pgrelay/services/purge.py:43-56 | if no batch is later than the last, the rows deleted are exactly those past their retention at the last batch |
| `Services.PurgeSparesTheRest` | src/pgrelay/repositories/job_state.py:177-203 | a purge leaves every row that was past its retention at no batch, and its attempts, as they were, but for a reference to a purged source |
| `Services.BatchesForIsQuotient` | src/pgrelay/services/purge.py:48-56 | the number of batches is D / batch_size rounded down, plus one |
| `Services.DeletesCompose` | src/pgrelay/repositories/job_sql.py:201-203 | deleting two batches one after the other is deleting them at once, cascades included |
| `Services.PurgedTotal` | src/pgrelay/services/purge.py:20-23 | the three counts are those of the succeeded, dead-lettered and cancelled rows deleted and add up to all of them: only terminal rows are |
| `Services.PurgeSparesLiveJobs` | src/pgrelay/repositories/job_state.py:177-203 | a purge at one time leaves every live or too recent row and its attempts as they were, but for a reference to a purged source |
| `Execution.FinishHeartbeat` | src/pgrelay/worker/runner.py:211-226 | the lease counts as owned unless the heartbeat has ended without saying so |
| `Execution.ExecuteJob` | src/pgrelay/worker/runner.py:117-209 | over every outcome of every await: which transactions the execution commits, in which order, exactly when, and how its task ends; and wherever it may record, the job then has succeeded exactly when the execution returned success, is pending again exactly when it raised, timed out or failed retryably with attempts left, available 1 to retry_max_seconds seconds later, and is dead-lettered otherwise, with an attempt that tells which and why |
| `Execution.ExecutionFitsProtocol` | src/pgrelay/worker/runner.py:117-152 | however the execution's steps interleave with everyone else's, the next one is possible, and after the last its task has ended |
| `Execution.NoEffectWithoutRecord` | docs/architecture.md:56 | an execution that neither records nor gives back has no effect on its row in any run |
| `Execution.ExecutionHasOneEffect` | src/pgrelay/worker/runner.py:117-152 | under H1 for the job the steps of one execution have at most one effect in any run; none once an extension of its heartbeat matched no row before, although the execution is then cancelled and gives the job back, and none when it neither records nor unwinds |
| `Worker.IterationFits` | src/pgrelay/worker/runner.py:85-113 | from a map with a free slot an iteration asks for at least one and at most worker_batch_size jobs, and its tasks fit |
| `Worker.BatchIsTheMinimum` | src/pgrelay/worker/runner.py:86-87 | a session asks for no more than the batch size and the free slots, and for fewer than the batch size only if that fills the map |
| `Worker.StartsAllItCan` | src/pgrelay/worker/runner.py:82-111 | a session that does not fail starts a task for each of the first jobs offered: all of them, unless the batch size or the free slots do not allow it; one that fails starts none |
| `Worker.NeverAboveCapacity` | src/pgrelay/worker/runner.py:81-115 | for every interleaving of completions, failures and offers with the loop, the map never holds more than worker_concurrency tasks, and every session that computes slots asks for at least one and at most worker_batch_size jobs |
| `Worker.LoopCarries` | src/pgrelay/worker/runner.py:107-111 | over the whole loop, each job of a committed claim gets one task of its own, in order |
| `Worker.WorkerRunner.ClaimBatch` | src/pgrelay/worker/runner.py:82-105 | one session with tasks finishing around it: what it asks for, what it returns, and that it still fits although the slots were computed earlier |
| `Worker.WorkerRunner.ClaimLoop` | src/pgrelay/worker/runner.py:80-115 | the loop leaves in flight, starts and asks for exactly what the functions of its script say, about which the capacity results are proved |
| `Worker.WorkerRunner.OnInflightDone` | src/pgrelay/worker/runner.py:288-290 | pops the task if it is still in the map and keeps every task accounted for |
| `Worker.WorkerRunner.ShutdownInflight` | src/pgrelay/worker/runner.py:275-286 | leaves the map empty, cancelling exactly the tasks that did not finish in the grace period |

## Left out

- The HTTP executor, transport, name resolution and address checks: an execution is any of its possible outcomes.
- The admin API, authentication, schemas, CLI, logging, metrics, migrations and the stats queries.
- `drain_async` reads pending and leased by two separate queries, so that a queue is drained is not a stable claim.
- Size limits, URL and queue name validation, and redaction; payload, headers and metadata are only copied.
- Column widths: `integer` columns are unbounded here, and timestamps neither overflow nor pass through a time zone,
  so an `interval '1 day'` is 24 hours.
- Attempt rows have no id and the attempt table is a sequence; the order of rows inserted by one recovery is any.
- Worker rows, their registration and heartbeat, and list, detail and lookup queries beyond those the operations use.
- Locks between an insert's foreign key check and a claim's queue row lock, and lock timeouts: an insert is never made
  to wait, which only adds interleavings. A purge waits for every job row that it would delete.
- Deadlocks that involve application transactions or purges: these take locks in an order of the caller's choosing.
- An enqueue runs in the caller's transaction; here its rollback restores the tables as they were before the call.
- Rows that a claim's FOR UPDATE locks in the top of a queue but that its batch then drops are not locked here: only
  picked rows are. Until that claim commits, other claims skip such a row in the program and see it as free here.
  Limits, legality of steps and lock order do not depend on it; which rows concurrent claims pick does.
- A claim picks from all its queues in one atomic action. In the program the LATERAL join picks from one queue before
  it locks the next one's rows; the lock on a queue row comes first in both.
- Repository.Store.ClaimJobs: one transaction without concurrent ones; their interleaving is `ClaimTx`, on values, and
  `ClaimSerial.ClaimsAreSerializable` ties it to the atomic claims that this method makes.
- Services.PurgeService.PurgeUntilDone: no other writer between its batches. The clock is a parameter.
- Worker.WorkerRunner.ClaimLoop: the database side of a session is what `ClaimTx` models; here it offers any jobs, and
  tasks finish at the awaits as a script says.
- Heartbeat.RunLeaseHeartbeat: whether an extension matches a row comes from a script, which
  `LeaseTiming.ClaimedJobIsKept` ties to the row's owner in a run; both speak of one job at a time.
- Backoff.DelayBounds: rounding of floating point numbers; the jitter is a real number.
- Fence.EffectsAreOwn: needs H1 for the job; without it `Fence.LateEffectRegains` says which claim comes before a late
  effect, and `Fence.RegainedIff` that no other step can reopen the fence.
- Fidelity.NoStuckJob: needs H1 for the job; without it `Reclaim.StrandsIff` gives the exact step that fails, as do
  `Reclaim.MisattributesIff` for `Fidelity.AttemptLogFidelity` and `Reclaim.SecondEffectIff` for
  `Fidelity.OneExecutionOneEffect`.
- ClaimLimits.LimitNeverExceeded: needs H2 for the queue; without it `ClaimLimits.OverrunStrays` says which statement
  is in every run that fails and `StaleSnapshot.PickCanOverrunIff` when a pick can.
- ClaimOrder.NoDeadlock: needs H2; without it `ClaimOrder.CycleStrays` says which transaction is in every cycle.

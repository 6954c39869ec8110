// Admin use cases (src/pgrelay/services/jobs.py) and the purge loop (src/pgrelay/services/purge.py).
module Services {
  import opened Rows
  import opened Statements
  import opened Protocol
  import opened Idempotency
  import opened Schema
  import opened Earliest
  import opened Repository
  import Lifecycle
  import Selection

  // ---- replay and cancel ----

  class JobService {
    const store: Store

    constructor (store: Store)
      ensures this.store == store
    {
      this.store := store;
    }

    /** The status is checked on the row that get_job read, seen being the tables at that moment; the insert then acts
        on the current tables. A terminal source keeps its status until it is purged, so only a purge in between
        matters: it turns the insert into a foreign key error, unless the replay already exists. */
    method Replay(seen: map<JobId, Job>, source: JobId, force: bool, id: JobId,
                  now: Time) returns (answer: Result<JobId>)
      requires store.Valid() && id !in store.jobs
      modifies store
      ensures store.Valid()
      ensures source !in seen ==> answer == Err(JobNotFound) && store.Contents() == old(store.Contents())
      ensures source in seen && (seen[source].status == Pending || seen[source].status == Leased
                                 || (seen[source].status == Succeeded && !force)) ==>
                answer == Err(JobStateConflict) && store.Contents() == old(store.Contents())
      ensures source in seen && (seen[source].status == DeadLetter || seen[source].status == Cancelled
                                 || (seen[source].status == Succeeded && force)) ==>
                var before, ask := old(store.Contents()), ReplayAsk(source, seen[source]);
                if PassesChecks(ask) && (Conflicts(before, ask) || source in before.jobs) then
                  answer == Ok(InsertAnswer(before, id, ask).0) && store.Contents() == InsertJob(before, id, ask, now)
                else
                  answer == Err(RepositoryError) && store.Contents() == before
    {
      if source !in seen {
        return Err(JobNotFound);
      }
      var row := seen[source];
      var allowed := row.status == DeadLetter || row.status == Cancelled;
      if row.status == Succeeded && force {
        allowed := true;
      }
      if !allowed {
        return Err(JobStateConflict);
      }
      var replay := store.ReplayJob(source, row, id, now);
      answer := if replay.Ok? then Ok(replay.value.0) else Err(replay.error);
    }

    /** The row may stop being pending between the read and the update, whose guard then matches nothing. */
    method Cancel(seen: map<JobId, Job>, job: JobId, now: Time) returns (answer: Result<Job>)
      requires store.Valid()
      modifies store
      ensures store.Valid()
      ensures answer.Ok? <==> job in seen && seen[job].status == Pending
                              && job in old(store.jobs) && old(store.jobs)[job].status == Pending
      ensures answer.Ok? ==>
                && store.Contents() == CancelPending(old(store.Contents()), job, now)
                && answer.value
                   == old(store.jobs)[job].(status := Cancelled, completedAt := Some(now), updatedAt := now)
                && store.jobs == old(store.jobs)[job := answer.value]
      ensures answer.Err? ==> store.Contents() == old(store.Contents())
                              && answer.error == if job !in seen then JobNotFound else JobStateConflict
    {
      if job !in seen {
        return Err(JobNotFound);
      }
      if seen[job].status != Pending {
        return Err(JobStateConflict);
      }
      var cancelled := store.CancelPendingJob(job, now);
      answer := if cancelled.Some? then Ok(cancelled.value) else Err(JobStateConflict);
    }
  }

  // ---- purge ----

  /** The rows past their retention. */
  function Eligible(jobs: map<JobId, Job>, now: Time, succeededDays: int, deadLetterDays: int): set<JobId> {
    PurgeTimes(jobs, now, succeededDays, deadLetterDays).Keys
  }

  lemma {:induction false} CascadesCompose(log: seq<Attempt>, a: set<JobId>, b: set<JobId>)
    ensures WithoutJobs(WithoutJobs(log, a), b) == WithoutJobs(log, a + b)
  {
    if log != [] {
      var init, last := log[..|log| - 1], log[|log| - 1];
      CascadesCompose(init, a, b);
      var rest := WithoutJobs(init, a);
      assert (rest + [last])[..|rest|] == rest;
    }
  }

  /** Deleting in two batches is deleting at once. */
  lemma DeletesCompose(db: Db, a: set<JobId>, b: set<JobId>)
    ensures DeleteJobs(DeleteJobs(db, a), b) == DeleteJobs(db, a + b)
  {
    CascadesCompose(db.log, a, b);
    assert KeptRows(KeptRows(db.jobs, a), b) == KeptRows(db.jobs, a + b);
  }

  /** A batch neither adds nor spares rows outside it. */
  lemma EligibleAfter(db: Db, picked: set<JobId>, now: Time, succeededDays: int, deadLetterDays: int)
    ensures Eligible(DeleteJobs(db, picked).jobs, now, succeededDays, deadLetterDays)
         == Eligible(db.jobs, now, succeededDays, deadLetterDays) - picked
  {
  }

  lemma StatusesAdd(jobs: map<JobId, Job>, done: set<JobId>, picked: set<JobId>, status: Status)
    requires done !! picked
    ensures |WithStatus(jobs, done + picked, status)|
         == |WithStatus(jobs, done, status)| + |WithStatus(KeptRows(jobs, done), picked, status)|
  {
    var a, b := WithStatus(jobs, done, status), WithStatus(KeptRows(jobs, done), picked, status);
    assert a !! b;
    forall j ensures j in WithStatus(jobs, done + picked, status) <==> j in a || j in b {
      if j in jobs && j !in done { assert KeptRows(jobs, done)[j].status == jobs[j].status; }
    }
    assert WithStatus(jobs, done + picked, status) == a + b;
  }

  /** Status by status, all counts what the two parts count together. */
  predicate AddUp(part: PurgeResult, rest: PurgeResult, all: PurgeResult) {
    && all.succeeded == part.succeeded + rest.succeeded
    && all.deadLetter == part.deadLetter + rest.deadLetter
    && all.cancelled == part.cancelled + rest.cancelled
  }

  lemma TalliesAdd(jobs: map<JobId, Job>, done: set<JobId>, picked: set<JobId>)
    requires done !! picked
    ensures AddUp(Tally(jobs, done), Tally(KeptRows(jobs, done), picked), Tally(jobs, done + picked))
  {
    StatusesAdd(jobs, done, picked, Succeeded);
    StatusesAdd(jobs, done, picked, DeadLetter);
    StatusesAdd(jobs, done, picked, Cancelled);
  }

  // ---- how many batches ----

  /** Full batches while there are rows for one, and a last partial one, which may be empty. */
  function BatchesFor(rows: nat, batch: nat): nat
    requires batch > 0
  {
    if rows < batch then 1 else 1 + BatchesFor(rows - batch, batch)
  }

  /** The rows of n full batches. */
  function FullBatches(n: nat, batch: nat): nat { if n == 0 then 0 else FullBatches(n - 1, batch) + batch }

  lemma {:induction false} LastBatch(rows: nat, n: nat, batch: nat, last: nat)
    requires last < batch && rows == FullBatches(n, batch) + last
    ensures BatchesFor(rows, batch) == n + 1
  {
    if n > 0 { LastBatch(rows - batch, n - 1, batch, last); }
  }

  lemma {:induction false} ProductsOrder(a: int, b: int, c: nat)
    requires a < b
    ensures a * c + c <= b * c
    decreases c
  {
    if c > 0 { ProductsOrder(a, b, c - 1); }
  }

  lemma QuotientIsUnique(q: int, full: int, batch: nat, m: nat, last: nat)
    requires q * batch + m == full * batch + last && m < batch && last < batch
    ensures q == full
  {
    if q < full { ProductsOrder(q, full, batch); }
    if full < q { ProductsOrder(full, q, batch); }
  }

  /** The number of batches is the quotient, rounded down, and one. */
  lemma {:induction false} BatchesForIsQuotient(rows: nat, batch: nat)
    requires batch > 0
    ensures BatchesFor(rows, batch) == rows / batch + 1
  {
    if rows < batch {
      QuotientIsUnique(rows / batch, 0, batch, rows % batch, rows);
    } else {
      BatchesForIsQuotient(rows - batch, batch);
      var q, r := (rows - batch) / batch, (rows - batch) % batch;
      assert rows == (q + 1) * batch + r;
      QuotientIsUnique(rows / batch, q + 1, batch, rows % batch, r);
    }
  }

  // ---- one batch after another ----

  /** The rows past their retention at one of the times of the batches. */
  function DueRows(jobs: map<JobId, Job>, times: seq<Time>, succeededDays: int, deadLetterDays: int): set<JobId> {
    if times == [] then {} else
      DueRows(jobs, times[..|times| - 1], succeededDays, deadLetterDays)
      + Eligible(jobs, times[|times| - 1], succeededDays, deadLetterDays)
  }

  lemma DueRowsGrow(jobs: map<JobId, Job>, times: seq<Time>, now: Time, succeededDays: int,
                    deadLetterDays: int)
    ensures DueRows(jobs, times + [now], succeededDays, deadLetterDays)
         == DueRows(jobs, times, succeededDays, deadLetterDays) + Eligible(jobs, now, succeededDays, deadLetterDays)
  {
    assert (times + [now])[..|times|] == times;
  }

  lemma {:induction false} DueIsTerminal(jobs: map<JobId, Job>, times: seq<Time>, succeededDays: int,
                                         deadLetterDays: int)
    ensures forall j | j in DueRows(jobs, times, succeededDays, deadLetterDays) ::
              j in jobs && jobs[j].status.Terminal()
  {
    if times != [] { DueIsTerminal(jobs, times[..|times| - 1], succeededDays, deadLetterDays); }
  }

  /** Full batches at these times have deleted the rows done. */
  ghost predicate Swept(jobs: map<JobId, Job>, done: set<JobId>, times: seq<Time>, batch: nat, succeededDays: int,
                        deadLetterDays: int)
  {
    |done| == FullBatches(|times|, batch) && done <= DueRows(jobs, times, succeededDays, deadLetterDays)
  }

  /** Batches at these times, the last of them partial, have deleted the rows purged, each past its retention at one of
      the times, and have left none that is past it at the last. */
  ghost predicate Purged(jobs: map<JobId, Job>, purged: set<JobId>, times: seq<Time>, batch: nat, succeededDays: int,
                         deadLetterDays: int)
    requires batch > 0
  {
    && times != [] && |times| == BatchesFor(|purged|, batch)
    && purged <= DueRows(jobs, times, succeededDays, deadLetterDays)
    && Eligible(jobs, times[|times| - 1], succeededDays, deadLetterDays) <= purged
  }

  /** What a batch takes is new, due now, and all that is due if the batch is not full. */
  lemma BatchTakes(before: Db, done: set<JobId>, picked: set<JobId>, batch: nat, now: Time,
                   succeededDays: int, deadLetterDays: int)
    requires IsEarliest(PurgeTimes(DeleteJobs(before, done).jobs, now, succeededDays, deadLetterDays), batch, picked)
    ensures done !! picked && picked <= Eligible(before.jobs, now, succeededDays, deadLetterDays) && |picked| <= batch
    ensures |done + picked| == |done| + |picked|
    ensures |picked| < batch ==> Eligible(before.jobs, now, succeededDays, deadLetterDays) <= done + picked
  {
    EligibleAfter(before, done, now, succeededDays, deadLetterDays);
    if |picked| < batch {
      AllPicked(PurgeTimes(DeleteJobs(before, done).jobs, now, succeededDays, deadLetterDays), batch, picked);
    }
  }

  /** One more full batch, and the sweep goes on. */
  lemma BatchSweeps(before: Db, done: set<JobId>, picked: set<JobId>, times: seq<Time>, now: Time,
                    batch: nat, succeededDays: int, deadLetterDays: int)
    requires Swept(before.jobs, done, times, batch, succeededDays, deadLetterDays) && |picked| >= batch
    requires IsEarliest(PurgeTimes(DeleteJobs(before, done).jobs, now, succeededDays, deadLetterDays), batch, picked)
    ensures Swept(before.jobs, done + picked, times + [now], batch, succeededDays, deadLetterDays)
  {
    BatchTakes(before, done, picked, batch, now, succeededDays, deadLetterDays);
    DueRowsGrow(before.jobs, times, now, succeededDays, deadLetterDays);
    assert FullBatches(|times| + 1, batch) == FullBatches(|times|, batch) + batch;
  }

  /** A last partial batch, and the purge is done. */
  lemma BatchEnds(before: Db, done: set<JobId>, picked: set<JobId>, times: seq<Time>, now: Time,
                  batch: nat, succeededDays: int, deadLetterDays: int)
    requires Swept(before.jobs, done, times, batch, succeededDays, deadLetterDays) && |picked| < batch
    requires IsEarliest(PurgeTimes(DeleteJobs(before, done).jobs, now, succeededDays, deadLetterDays), batch, picked)
    ensures Purged(before.jobs, done + picked, times + [now], batch, succeededDays, deadLetterDays)
  {
    BatchTakes(before, done, picked, batch, now, succeededDays, deadLetterDays);
    DueRowsGrow(before.jobs, times, now, succeededDays, deadLetterDays);
    LastBatch(|done + picked|, |times|, batch, |picked|);
    assert |times + [now]| == |times| + 1;
  }

  /** A full batch leaves fewer rows. */
  lemma FullBatchShrinks(before: Db, done: set<JobId>, picked: set<JobId>, batch: nat, now: Time,
                         succeededDays: int, deadLetterDays: int)
    requires IsEarliest(PurgeTimes(DeleteJobs(before, done).jobs, now, succeededDays, deadLetterDays), batch, picked)
    requires |picked| > 0
    ensures |before.jobs.Keys - (done + picked)| < |before.jobs.Keys - done|
  {
    BatchTakes(before, done, picked, batch, now, succeededDays, deadLetterDays);
    var j :| j in picked;
    assert j in before.jobs.Keys - done;
    Selection.SubsetCard(before.jobs.Keys - (done + picked), before.jobs.Keys - done - {j});
  }

  /** One batch, by how many rows it took. */
  lemma OneBatch(before: Db, done: set<JobId>, picked: set<JobId>, times: seq<Time>, now: Time,
                 batch: nat, succeededDays: int, deadLetterDays: int)
    requires batch >= 1 && Swept(before.jobs, done, times, batch, succeededDays, deadLetterDays)
    requires IsEarliest(PurgeTimes(DeleteJobs(before, done).jobs, now, succeededDays, deadLetterDays), batch, picked)
    ensures DeleteJobs(DeleteJobs(before, done), picked) == DeleteJobs(before, done + picked)
    ensures AddUp(Tally(before.jobs, done), Tally(DeleteJobs(before, done).jobs, picked),
                  Tally(before.jobs, done + picked))
    ensures if |picked| < batch then
              Purged(before.jobs, done + picked, times + [now], batch, succeededDays, deadLetterDays)
            else
              && Swept(before.jobs, done + picked, times + [now], batch, succeededDays, deadLetterDays)
              && |before.jobs.Keys - (done + picked)| < |before.jobs.Keys - done|
  {
    BatchTakes(before, done, picked, batch, now, succeededDays, deadLetterDays);
    DeletesCompose(before, done, picked);
    TalliesAdd(before.jobs, done, picked);
    if |picked| < batch {
      BatchEnds(before, done, picked, times, now, batch, succeededDays, deadLetterDays);
    } else {
      BatchSweeps(before, done, picked, times, now, batch, succeededDays, deadLetterDays);
      FullBatchShrinks(before, done, picked, batch, now, succeededDays, deadLetterDays);
    }
  }

  lemma NothingSwept(before: Db, batch: nat, succeededDays: int, deadLetterDays: int)
    ensures DeleteJobs(before, {}) == before && Tally(before.jobs, {}) == PurgeResult(0, 0, 0)
    ensures Swept(before.jobs, {}, [], batch, succeededDays, deadLetterDays)
  {
    NothingDeleted(before);
    assert WithStatus(before.jobs, {}, Succeeded) == {} && WithStatus(before.jobs, {}, DeadLetter) == {};
    assert WithStatus(before.jobs, {}, Cancelled) == {};
  }

  /** The transaction times of the first n batches. */
  function Readings(clock: nat -> Time, n: nat): seq<Time> {
    if n == 0 then [] else Readings(clock, n - 1) + [clock(n - 1)]
  }

  lemma {:induction false} ReadingAt(clock: nat -> Time, n: nat, i: nat)
    requires i < n
    ensures |Readings(clock, n)| == n && Readings(clock, n)[i] == clock(i)
  {
    if n > 1 { ReadingAt(clock, n - 1, if i < n - 1 then i else 0); }
  }

  class PurgeService {
    const store: Store
    const succeededDays: int
    const deadLetterDays: int
    const batch: nat

    /** The settings bound purge_batch_size below by one. */
    constructor (store: Store, succeededDays: int, deadLetterDays: int, batch: nat)
      requires batch >= 1
      ensures this.store == store && this.batch == batch
      ensures this.succeededDays == succeededDays && this.deadLetterDays == deadLetterDays
    {
      this.store, this.succeededDays, this.deadLetterDays, this.batch := store, succeededDays, deadLetterDays, batch;
    }

    /** One limited batch, the earliest completed rows first. */
    method PurgeBatch(now: Time) returns (result: PurgeResult, ghost picked: set<JobId>)
      requires store.Valid()
      modifies store
      ensures store.Valid() && store.Contents() == DeleteJobs(old(store.Contents()), picked)
      ensures IsEarliest(PurgeTimes(old(store.jobs), now, succeededDays, deadLetterDays), batch, picked)
      ensures PurgesOldest(old(store.jobs), now, succeededDays, deadLetterDays, batch, picked)
      ensures result == Tally(old(store.jobs), picked) && result.Total() == |picked|
    {
      result, picked := store.PurgeJobs(succeededDays, deadLetterDays, batch, now);
    }

    /** A batch within the loop, after full batches at these times. */
    method NextBatch(now: Time, ghost before: Db, ghost done: set<JobId>, ghost times: seq<Time>)
      returns (result: PurgeResult, ghost done': set<JobId>)
      requires store.Valid() && batch >= 1 && store.Contents() == DeleteJobs(before, done)
      requires Swept(before.jobs, done, times, batch, succeededDays, deadLetterDays)
      modifies store
      ensures store.Valid() && store.Contents() == DeleteJobs(before, done')
      ensures AddUp(Tally(before.jobs, done), result, Tally(before.jobs, done'))
      ensures if result.Total() < batch then
                Purged(before.jobs, done', times + [now], batch, succeededDays, deadLetterDays)
              else
                && Swept(before.jobs, done', times + [now], batch, succeededDays, deadLetterDays)
                && |before.jobs.Keys - done'| < |before.jobs.Keys - done|
    {
      ghost var picked;
      result, picked := PurgeBatch(now);
      done' := done + picked;
      OneBatch(before, done, picked, times, now, batch, succeededDays, deadLetterDays);
    }

    /** With no other writer the loop ends, whatever the transaction times of its batches: after exactly D / batch + 1
        batches it has deleted D rows, each past its retention at the time of some batch, has left none that is past it
        at the time of the last, and returns their number by status. Valid() leaves no attempt row and no replay
        reference dangling. */
    method PurgeUntilDone(clock: nat -> Time)
      returns (summary: PurgeResult, ghost batches: nat, ghost purged: set<JobId>)
      requires store.Valid() && batch >= 1
      modifies store
      ensures store.Valid() && store.Contents() == DeleteJobs(old(store.Contents()), purged)
      ensures summary == Tally(old(store.jobs), purged)
      ensures Purged(old(store.jobs), purged, Readings(clock, batches), batch, succeededDays, deadLetterDays)
    {
      ghost var before := store.Contents();
      var succeeded: nat, deadLetter: nat, cancelled: nat, n: nat := 0, 0, 0, 0;
      purged := {};
      NothingSwept(before, batch, succeededDays, deadLetterDays);
      while true
        invariant store.Valid() && store.Contents() == DeleteJobs(before, purged)
        invariant PurgeResult(succeeded, deadLetter, cancelled) == Tally(before.jobs, purged)
        invariant Swept(before.jobs, purged, Readings(clock, n), batch, succeededDays, deadLetterDays)
        decreases |before.jobs.Keys - purged|
      {
        var result;
        result, purged := NextBatch(clock(n), before, purged, Readings(clock, n));
        succeeded := succeeded + result.succeeded;
        deadLetter := deadLetter + result.deadLetter;
        cancelled := cancelled + result.cancelled;
        n := n + 1;
        if result.Total() < batch {
          return PurgeResult(succeeded, deadLetter, cancelled), n, purged;
        }
      }
    }
  }

  // ---- what was deleted ----

  lemma RetentionPasses(jobs: map<JobId, Job>, now: Time, later: Time, succeededDays: int,
                        deadLetterDays: int)
    requires now <= later
    ensures Eligible(jobs, now, succeededDays, deadLetterDays) <= Eligible(jobs, later, succeededDays, deadLetterDays)
  {
  }

  lemma {:induction false} DueByTheLast(jobs: map<JobId, Job>, times: seq<Time>, last: Time, succeededDays: int,
                                        deadLetterDays: int)
    requires forall i | 0 <= i < |times| :: times[i] <= last
    ensures DueRows(jobs, times, succeededDays, deadLetterDays) <= Eligible(jobs, last, succeededDays, deadLetterDays)
  {
    if times != [] {
      DueByTheLast(jobs, times[..|times| - 1], last, succeededDays, deadLetterDays);
      RetentionPasses(jobs, times[|times| - 1], last, succeededDays, deadLetterDays);
    }
  }

  lemma {:induction false} DueAtSomeBatch(jobs: map<JobId, Job>, times: seq<Time>, succeededDays: int,
                                          deadLetterDays: int, j: JobId)
    requires j in DueRows(jobs, times, succeededDays, deadLetterDays)
    ensures exists i :: 0 <= i < |times| && j in Eligible(jobs, times[i], succeededDays, deadLetterDays)
  {
    var init := times[..|times| - 1];
    if j in DueRows(jobs, init, succeededDays, deadLetterDays) {
      DueAtSomeBatch(jobs, init, succeededDays, deadLetterDays, j);
      var i :| 0 <= i < |init| && j in Eligible(jobs, init[i], succeededDays, deadLetterDays);
      assert times[i] == init[i];
    } else {
      assert j in Eligible(jobs, times[|times| - 1], succeededDays, deadLetterDays);
    }
  }

  /** What a purge deletes: a succeeded row completed more than succeededDays days before the time of some batch, or a
      dead-lettered or cancelled row completed more than deadLetterDays days before one. */
  lemma PurgedRowsAreOld(jobs: map<JobId, Job>, purged: set<JobId>, times: seq<Time>, batch: nat, succeededDays: int,
                         deadLetterDays: int, j: JobId)
    requires batch > 0 && Purged(jobs, purged, times, batch, succeededDays, deadLetterDays) && j in purged
    ensures j in jobs && jobs[j].completedAt.Some?
    ensures jobs[j].status == Succeeded || jobs[j].status == DeadLetter || jobs[j].status == Cancelled
    ensures exists i :: 0 <= i < |times| &&
              (if jobs[j].status == Succeeded
               then jobs[j].completedAt.value < times[i] - 86_400_000_000 * succeededDays
               else jobs[j].completedAt.value < times[i] - 86_400_000_000 * deadLetterDays)
  {
    DueAtSomeBatch(jobs, times, succeededDays, deadLetterDays, j);
    var i :| 0 <= i < |times| && j in Eligible(jobs, times[i], succeededDays, deadLetterDays);
  }

  /** What it leaves: after the last batch no terminal row is older than its own retention. */
  lemma NoOldRowIsLeft(jobs: map<JobId, Job>, purged: set<JobId>, times: seq<Time>, batch: nat, succeededDays: int,
                       deadLetterDays: int, j: JobId)
    requires batch > 0 && Purged(jobs, purged, times, batch, succeededDays, deadLetterDays)
    requires j in jobs && j !in purged && jobs[j].completedAt.Some?
    ensures jobs[j].status == Succeeded ==>
              jobs[j].completedAt.value >= times[|times| - 1] - 86_400_000_000 * succeededDays
    ensures jobs[j].status == DeadLetter || jobs[j].status == Cancelled ==>
              jobs[j].completedAt.value >= times[|times| - 1] - 86_400_000_000 * deadLetterDays
  {
    assert j !in Eligible(jobs, times[|times| - 1], succeededDays, deadLetterDays);
  }

  /** If no batch is later than the last, a purge deletes exactly the rows past their retention at the last batch: with
      one time for all batches, exactly the rows past their retention then. */
  lemma PurgeIsExact(jobs: map<JobId, Job>, purged: set<JobId>, times: seq<Time>, batch: nat,
                     succeededDays: int, deadLetterDays: int)
    requires batch > 0 && Purged(jobs, purged, times, batch, succeededDays, deadLetterDays)
    requires forall i | 0 <= i < |times| :: times[i] <= times[|times| - 1]
    ensures purged == Eligible(jobs, times[|times| - 1], succeededDays, deadLetterDays)
  {
    DueByTheLast(jobs, times, times[|times| - 1], succeededDays, deadLetterDays);
  }

  /** The counts by status are those of all rows deleted: only terminal rows are. */
  lemma PurgedTotal(jobs: map<JobId, Job>, purged: set<JobId>, times: seq<Time>, batch: nat,
                    succeededDays: int, deadLetterDays: int)
    requires batch > 0 && Purged(jobs, purged, times, batch, succeededDays, deadLetterDays)
    ensures Tally(jobs, purged).Total() == |purged|
    ensures Tally(jobs, purged).succeeded == |set j | j in purged && j in jobs && jobs[j].status == Succeeded|
    ensures Tally(jobs, purged).deadLetter == |set j | j in purged && j in jobs && jobs[j].status == DeadLetter|
    ensures Tally(jobs, purged).cancelled == |set j | j in purged && j in jobs && jobs[j].status == Cancelled|
  {
    DueIsTerminal(jobs, times, succeededDays, deadLetterDays);
    TallyIsTotal(jobs, purged);
    assert (set j | j in purged && j in jobs && jobs[j].status == Succeeded) == WithStatus(jobs, purged, Succeeded);
    assert (set j | j in purged && j in jobs && jobs[j].status == DeadLetter) == WithStatus(jobs, purged, DeadLetter);
    assert (set j | j in purged && j in jobs && jobs[j].status == Cancelled) == WithStatus(jobs, purged, Cancelled);
  }

  lemma {:induction false} NeverDue(jobs: map<JobId, Job>, times: seq<Time>, succeededDays: int, deadLetterDays: int,
                                    j: JobId)
    requires j in jobs
    requires forall i | 0 <= i < |times| :: !Purgeable(jobs[j], times[i], succeededDays, deadLetterDays)
    ensures j !in DueRows(jobs, times, succeededDays, deadLetterDays)
  {
    if times != [] { NeverDue(jobs, times[..|times| - 1], succeededDays, deadLetterDays, j); }
  }

  /** A purge never touches a row that was not past its retention at the time of any batch, such as a live job; a replay
      reference to a purged source is set to null. */
  lemma PurgeSparesTheRest(before: Db, purged: set<JobId>, times: seq<Time>, batch: nat,
                           succeededDays: int, deadLetterDays: int, j: JobId)
    requires batch > 0 && Purged(before.jobs, purged, times, batch, succeededDays, deadLetterDays) && j in before.jobs
    requires forall i | 0 <= i < |times| :: !Purgeable(before.jobs[j], times[i], succeededDays, deadLetterDays)
    ensures var after := DeleteJobs(before, purged);
            && j in after.jobs && Lifecycle.SameJob(before.jobs[j], after.jobs[j])
            && RowsOf(after.log, j) == RowsOf(before.log, j)
  {
    NeverDue(before.jobs, times, succeededDays, deadLetterDays, j);
    RowsOfCascade(before.log, purged, j);
  }

  /** A purge of rows past their retention leaves every other row as it was, but for a reference to a purged source. */
  lemma PurgeSparesLiveJobs(db: Db, now: Time, succeededDays: int, deadLetterDays: int, j: JobId)
    requires j in db.jobs && (db.jobs[j].status.Live() || !Purgeable(db.jobs[j], now, succeededDays, deadLetterDays))
    ensures var ids := Eligible(db.jobs, now, succeededDays, deadLetterDays);
            var db' := DeleteJobs(db, ids);
            && j in db'.jobs && Lifecycle.SameJob(db.jobs[j], db'.jobs[j])
            && RowsOf(db'.log, j) == RowsOf(db.log, j)
  {
    RowsOfCascade(db.log, Eligible(db.jobs, now, succeededDays, deadLetterDays), j);
  }
}

// The statements of src/pgrelay/repositories/job_sql.py as functions from table contents to table contents.
// An UPDATE is one guarded step: its WHERE clause is evaluated on the row version it changes.
module Statements {
  import opened Rows

  // ---- claim ----

  predicate Ready(r: Job, now: Time) {
    r.status == Pending && r.availableAt <= now && r.attemptCount < r.maxAttempts
  }

  function LeasedRow(r: Job, worker: WorkerId, now: Time, leaseSeconds: int): Job {
    r.(status := Leased, lockedBy := Some(worker), lockedUntil := Some(now + Seconds(leaseSeconds)),
       attemptCount := r.attemptCount + 1, updatedAt := now)
  }

  function ClaimRows(db: Db, ids: set<JobId>, worker: WorkerId, now: Time, leaseSeconds: int): Db {
    db.(jobs := map j | j in db.jobs ::
        if j in ids then LeasedRow(db.jobs[j], worker, now, leaseSeconds) else db.jobs[j])
  }

  // ---- the fence shared by extend, return, complete and fail ----

  predicate Owns(db: Db, j: JobId, worker: WorkerId) {
    j in db.jobs && db.jobs[j].lockedBy == Some(worker) && db.jobs[j].status == Leased
  }

  function Extended(r: Job, now: Time, leaseSeconds: int): Job {
    r.(lockedUntil := Some(now + Seconds(leaseSeconds)), updatedAt := now)
  }

  function ExtendLease(db: Db, j: JobId, worker: WorkerId, now: Time, leaseSeconds: int): Db {
    if Owns(db, j, worker) then db.(jobs := db.jobs[j := Extended(db.jobs[j], now, leaseSeconds)]) else db
  }

  function Released(r: Job, now: Time): Job {
    r.(status := Pending, attemptCount := if r.attemptCount - 1 > 0 then r.attemptCount - 1 else 0,
       lockedBy := None, lockedUntil := None, updatedAt := now)
  }

  function ReturnToPending(db: Db, j: JobId, worker: WorkerId, now: Time): Db {
    if Owns(db, j, worker) then db.(jobs := db.jobs[j := Released(db.jobs[j], now)]) else db
  }

  // ---- recording an outcome ----

  function AttemptRow(j: JobId, number: int, worker: WorkerId, status: AttemptStatus, now: Time,
                      report: Report): Attempt {
    Attempt(j, number, worker, status, now - Milliseconds(report.durationMs), now, report.durationMs, report.last,
            report.bodyPreview)
  }

  /** INSERT_ATTEMPT is rejected by the check constraint attempt_number > 0. */
  predicate Loggable(snapshot: Job) { snapshot.attemptCount > 0 }

  function Finished(r: Job, status: Status, now: Time): Job {
    r.(status := status, lockedBy := None, lockedUntil := None, completedAt := Some(now), updatedAt := now)
  }

  function CompletedRow(r: Job, now: Time, report: Report): Job {
    Finished(r, Succeeded, now).(last := r.last.(responseStatus := report.last.responseStatus))
  }

  /** The update and the attempt row commit together; a rejected attempt row rolls both back. */
  function Complete(db: Db, j: JobId, snapshot: Job, worker: WorkerId, now: Time, report: Report): Db {
    if Owns(db, j, worker) && Loggable(snapshot) then
      var success := report.(last := Diagnosis(None, None, report.last.responseStatus));
      db.(jobs := db.jobs[j := CompletedRow(db.jobs[j], now, report)],
          log := db.log + [AttemptRow(j, snapshot.attemptCount, worker, AttemptSucceeded, now, success)])
    else
      db
  }

  /** The retry decision reads the claimed snapshot, not the row the update will change. */
  predicate ShouldRetry(snapshot: Job, retryable: bool) {
    retryable && snapshot.attemptCount < snapshot.maxAttempts
  }

  function FailedRow(r: Job, retry: bool, now: Time, delaySeconds: int, report: Report): Job {
    (if retry then
       r.(status := Pending, availableAt := now + Seconds(delaySeconds), lockedBy := None, lockedUntil := None,
          updatedAt := now)
     else
       Finished(r, DeadLetter, now)).(last := report.last)
  }

  function Fail(db: Db, j: JobId, snapshot: Job, worker: WorkerId, now: Time, retryable: bool, timedOut: bool,
                delaySeconds: int, report: Report): Db {
    if Owns(db, j, worker) && Loggable(snapshot) then
      var status := if timedOut then AttemptTimeout else AttemptFailed;
      db.(jobs := db.jobs[j := FailedRow(db.jobs[j], ShouldRetry(snapshot, retryable), now, delaySeconds, report)],
          log := db.log + [AttemptRow(j, snapshot.attemptCount, worker, status, now, report)])
    else
      db
  }

  // ---- recovery ----

  predicate Expired(r: Job, now: Time) {
    r.status == Leased && r.lockedUntil.Some? && r.lockedUntil.value < now
  }

  const LEASE_EXPIRED := Diagnosis(Some("lease_expired"), Some("Worker lease expired before completion"), None)

  function RecoveredRow(r: Job, now: Time): Job {
    var last := LEASE_EXPIRED.(responseStatus := r.last.responseStatus);
    (if r.attemptCount >= r.maxAttempts then
       Finished(r, DeadLetter, now)
     else
       r.(status := Pending, lockedBy := None, lockedUntil := None, updatedAt := now)).(last := last)
  }

  function ExpiredAttempt(j: JobId, r: Job, now: Time): Attempt {
    Attempt(j, r.attemptCount, if r.lockedBy.Some? then r.lockedBy.value else "unknown", AttemptLeaseExpired,
            if r.lockedUntil.Some? then r.lockedUntil.value else now, now, 0, LEASE_EXPIRED, None)
  }

  /** One attempt row for each recovered job. */
  function ExpiredAttempts(jobs: map<JobId, Job>, ids: seq<JobId>, now: Time): seq<Attempt>
    requires forall i | 0 <= i < |ids| :: ids[i] in jobs
  {
    if ids == [] then [] else
      var j := ids[|ids| - 1];
      ExpiredAttempts(jobs, ids[..|ids| - 1], now) + [ExpiredAttempt(j, jobs[j], now)]
  }

  function RecoverRows(db: Db, ids: seq<JobId>, now: Time): Db
    requires forall i | 0 <= i < |ids| :: ids[i] in db.jobs
  {
    db.(jobs := map j | j in db.jobs :: if j in ids then RecoveredRow(db.jobs[j], now) else db.jobs[j],
        log := db.log + ExpiredAttempts(db.jobs, ids, now))
  }

  // ---- cancel ----

  function CancelledRow(r: Job, now: Time): Job {
    r.(status := Cancelled, completedAt := Some(now), updatedAt := now)
  }

  function CancelPending(db: Db, j: JobId, now: Time): Db {
    if j in db.jobs && db.jobs[j].status == Pending then
      db.(jobs := db.jobs[j := CancelledRow(db.jobs[j], now)])
    else
      db
  }

  // ---- purge ----

  predicate Purgeable(r: Job, now: Time, succeededDays: int, deadLetterDays: int) {
    && r.completedAt.Some?
    && ((r.status == Succeeded && r.completedAt.value < now - Days(succeededDays))
       || (r.status == DeadLetter && r.completedAt.value < now - Days(deadLetterDays))
       || (r.status == Cancelled && r.completedAt.value < now - Days(deadLetterDays)))
  }

  /** The foreign key replayed_from_job_id is ON DELETE SET NULL. */
  function Detached(source: Option<JobId>, ids: set<JobId>): Option<JobId> {
    if exists k | k in ids :: source == Some(k) then None else source
  }

  function Orphaned(r: Job, ids: set<JobId>): Job { r.(replayedFrom := Detached(r.replayedFrom, ids)) }

  /** The foreign key of an attempt row is ON DELETE CASCADE. */
  function WithoutJobs(log: seq<Attempt>, ids: set<JobId>): seq<Attempt> {
    if log == [] then [] else
      var rest := WithoutJobs(log[..|log| - 1], ids);
      if log[|log| - 1].job in ids then rest else rest + [log[|log| - 1]]
  }

  function KeptRows(jobs: map<JobId, Job>, ids: set<JobId>): map<JobId, Job> {
    map j | j in jobs && j !in ids :: Orphaned(jobs[j], ids)
  }

  function DeleteJobs(db: Db, ids: set<JobId>): Db {
    db.(jobs := KeptRows(db.jobs, ids), log := WithoutJobs(db.log, ids))
  }

  // ---- insert and queue settings ----

  predicate Holds(r: Job, queue: Name, key: string) { r.queue == queue && r.key == Some(key) }

  /** The row that the partial unique index on (queue_name, idempotency_key) finds. */
  predicate Conflicts(db: Db, ask: Ask) {
    ask.key.Some? && exists j | j in db.jobs :: Holds(db.jobs[j], ask.queue, ask.key.value)
  }

  predicate ValidKind(kind: string) { kind == "http" || kind == "handler" }

  /** The check constraints on kind and max_attempts are evaluated before the conflict is looked up. */
  predicate PassesChecks(ask: Ask) { ValidKind(ask.work.kind) && ask.maxAttempts > 0 }

  /** The foreign key to the source of a replay is checked for the row actually inserted. */
  predicate Insertable(db: Db, ask: Ask) {
    PassesChecks(ask) && (ask.replayedFrom.Some? ==> ask.replayedFrom.value in db.jobs)
  }

  function NewRow(ask: Ask, now: Time): Job {
    Job(ask.queue, ask.work, ask.priority, ask.maxAttempts, 0,
        if ask.availableAt.Some? then ask.availableAt.value else now, ask.key, ask.replayedFrom, Pending, None, None,
        Diagnosis(None, None, None), now, now, None)
  }

  function UpsertQueue(db: Db, queue: Name, now: Time): Db {
    if queue in db.queues then db else
      db.(queues := db.queues[queue := Queue(false, DEFAULT_CONCURRENCY_LIMIT, now, now)])
  }

  /** insert_job: the queue is created when missing, then the job unless its key is already taken. */
  function InsertJob(db: Db, id: JobId, ask: Ask, now: Time): Db {
    var upserted := UpsertQueue(db, ask.queue, now);
    if Conflicts(db, ask) then upserted else upserted.(jobs := db.jobs[id := NewRow(ask, now)])
  }

  function Reconfigured(q: Queue, paused: Option<bool>, limit: Option<int>, now: Time): Queue {
    if paused.None? && limit.None? then q else
      q.(paused := if paused.Some? then paused.value else q.paused,
         limit := if limit.Some? then limit.value else q.limit,
         updatedAt := now)
  }

  function UpdateQueue(db: Db, queue: Name, paused: Option<bool>, limit: Option<int>, now: Time): Db {
    var upserted := UpsertQueue(db, queue, now);
    upserted.(queues := upserted.queues[queue := Reconfigured(upserted.queues[queue], paused, limit, now)])
  }

  // ---- replay ----

  function ReplayKey(source: JobId): string { "replay:" + source }

  function ReplayAsk(source: JobId, r: Job): Ask {
    Ask(r.queue, r.work, r.priority, r.maxAttempts, None, Some(ReplayKey(source)), Some(source))
  }

  // ---- reading the attempt table ----

  /** The attempt rows of one job, in insertion order. */
  function RowsOf(log: seq<Attempt>, j: JobId): seq<Attempt> {
    if log == [] then [] else
      RowsOf(log[..|log| - 1], j) + if log[|log| - 1].job == j then [log[|log| - 1]] else []
  }

  lemma RowsOfAppend(log: seq<Attempt>, a: Attempt, j: JobId)
    ensures RowsOf(log + [a], j) == RowsOf(log, j) + if a.job == j then [a] else []
  {
    assert (log + [a])[..|log|] == log;
  }

  lemma {:induction false} RowsOfConcat(log: seq<Attempt>, more: seq<Attempt>, j: JobId)
    ensures RowsOf(log + more, j) == RowsOf(log, j) + RowsOf(more, j)
  {
    if more == [] {
      assert log + more == log;
    } else {
      var init, a := more[..|more| - 1], more[|more| - 1];
      assert more == init + [a] && log + more == (log + init) + [a];
      RowsOfConcat(log, init, j);
      RowsOfAppend(log + init, a, j);
      RowsOfAppend(init, a, j);
    }
  }

  lemma {:induction false} RowsOfNone(log: seq<Attempt>, j: JobId)
    requires forall i | 0 <= i < |log| :: log[i].job != j
    ensures RowsOf(log, j) == []
  {
    if log != [] { RowsOfNone(log[..|log| - 1], j); }
  }

  lemma {:induction false} RowsOfOne(extra: seq<Attempt>, j: JobId, k: JobId)
    requires |extra| <= 1 && forall i | 0 <= i < |extra| :: extra[i].job == j
    ensures RowsOf(extra, k) == if k == j then extra else []
  {
    if extra != [] { RowsOfAppend([], extra[0], k); assert [] + [extra[0]] == extra; }
  }

  /** A recovery writes one attempt row for each recovered job and none for the others. */
  lemma {:induction false} RowsOfExpired(jobs: map<JobId, Job>, ids: seq<JobId>, now: Time, j: JobId)
    requires forall i | 0 <= i < |ids| :: ids[i] in jobs
    requires forall i, k | 0 <= i < k < |ids| :: ids[i] != ids[k]
    ensures RowsOf(ExpiredAttempts(jobs, ids, now), j)
         == if j in ids then [ExpiredAttempt(j, jobs[j], now)] else []
  {
    if ids != [] {
      var init, last := ids[..|ids| - 1], ids[|ids| - 1];
      assert ids == init + [last];
      RowsOfExpired(jobs, init, now, j);
      RowsOfAppend(ExpiredAttempts(jobs, init, now), ExpiredAttempt(last, jobs[last], now), j);
    }
  }

  lemma {:induction false} ExpiredAttemptsJobs(jobs: map<JobId, Job>, ids: seq<JobId>, now: Time)
    requires forall i | 0 <= i < |ids| :: ids[i] in jobs
    ensures forall i | 0 <= i < |ExpiredAttempts(jobs, ids, now)| :: ExpiredAttempts(jobs, ids, now)[i].job in jobs
  {
    if ids != [] { ExpiredAttemptsJobs(jobs, ids[..|ids| - 1], now); }
  }

  lemma RecoverRowsOf(db: Db, ids: seq<JobId>, now: Time, j: JobId)
    requires forall i | 0 <= i < |ids| :: ids[i] in db.jobs
    requires forall i, k | 0 <= i < k < |ids| :: ids[i] != ids[k]
    ensures RowsOf(RecoverRows(db, ids, now).log, j)
         == if j in ids then RowsOf(db.log, j) + [ExpiredAttempt(j, db.jobs[j], now)] else RowsOf(db.log, j)
  {
    RowsOfConcat(db.log, ExpiredAttempts(db.jobs, ids, now), j);
    RowsOfExpired(db.jobs, ids, now, j);
  }

  /** The cascade removes every attempt row of a deleted job and keeps the others in order. */
  lemma {:induction false} RowsOfCascade(log: seq<Attempt>, ids: set<JobId>, j: JobId)
    ensures RowsOf(WithoutJobs(log, ids), j) == if j in ids then [] else RowsOf(log, j)
  {
    if log != [] {
      var init, a := log[..|log| - 1], log[|log| - 1];
      RowsOfCascade(init, ids, j);
      RowsOfAppend(WithoutJobs(init, ids), a, j);
    }
  }

  lemma {:induction false} CascadeKeeps(log: seq<Attempt>, ids: set<JobId>)
    ensures forall i | 0 <= i < |WithoutJobs(log, ids)| ::
              WithoutJobs(log, ids)[i] in log && WithoutJobs(log, ids)[i].job !in ids
  {
    if log != [] { CascadeKeeps(log[..|log| - 1], ids); }
  }
}

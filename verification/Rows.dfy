// The rows of the queue, job and attempt tables (src/pgrelay/db/models.py) and the values they hold.
module Rows {
  /** The textual form of a UUID. */
  type JobId = string
  type WorkerId = string
  type Name = string

  /** A timestamp with time zone, in microseconds, PostgreSQL's own resolution. */
  type Time = int

  function Seconds(n: int): Time { 1_000_000 * n }

  function Milliseconds(n: int): Time { 1_000 * n }

  function Days(n: int): Time { 86_400_000_000 * n }

  const DEFAULT_CONCURRENCY_LIMIT: int := 8

  datatype Option<+T> = None | Some(value: T)

  /** The exceptions of src/pgrelay/errors.py that the modelled operations raise. */
  datatype Error = RepositoryError | JobNotFound | JobStateConflict
  datatype Result<+T> = Ok(value: T) | Err(error: Error)

  datatype Queue = Queue(paused: bool, limit: int, createdAt: Time, updatedAt: Time)

  datatype Status = Pending | Leased | Succeeded | DeadLetter | Cancelled
  {
    predicate Terminal() { Succeeded? || DeadLetter? || Cancelled? }

    predicate Live() { Pending? || Leased? }
  }

  /** What a job asks to be executed: columns that no statement reads or changes after the insert. */
  datatype Work = Work(kind: string, name: string, payload: string, headers: string, metadata: string,
                       timeoutSeconds: int, dedupeKey: Option<string>, traceId: Option<string>)

  /** The last_error_type, last_error_message and last_response_status columns. */
  datatype Diagnosis = Diagnosis(errorType: Option<string>, errorMessage: Option<string>, responseStatus: Option<int>)

  datatype Job = Job(queue: Name, work: Work, priority: int, maxAttempts: int, attemptCount: int, availableAt: Time,
                     key: Option<string>, replayedFrom: Option<JobId>, status: Status,
                     lockedBy: Option<WorkerId>, lockedUntil: Option<Time>, last: Diagnosis,
                     createdAt: Time, updatedAt: Time, completedAt: Option<Time>)

  datatype AttemptStatus = AttemptSucceeded | AttemptFailed | AttemptTimeout | AttemptLeaseExpired

  datatype Attempt = Attempt(job: JobId, number: int, worker: WorkerId, status: AttemptStatus, startedAt: Time,
                             finishedAt: Time, durationMs: int, last: Diagnosis, bodyPreview: Option<string>)

  /** What an execution reports: durations and diagnostics of ExecutorResult. */
  datatype Report = Report(durationMs: int, last: Diagnosis, bodyPreview: Option<string>)

  /** The arguments of insert_job. */
  datatype Ask = Ask(queue: Name, work: Work, priority: int, maxAttempts: int, availableAt: Option<Time>,
                     key: Option<string>, replayedFrom: Option<JobId>)

  /** The committed contents of the queue, job and attempt tables. */
  datatype Db = Db(queues: map<Name, Queue>, jobs: map<JobId, Job>, log: seq<Attempt>)

  // ---- reading the tables ----

  predicate Distinct<T(==)>(s: seq<T>) { forall i, k | 0 <= i < k < |s| :: s[i] != s[k] }

  /** The jobs of one queue within a set. */
  function InQueue(jobs: map<JobId, Job>, ids: set<JobId>, q: Name): set<JobId> {
    set j | j in ids && j in jobs && jobs[j].queue == q
  }

  /** The jobs of one status within a set. */
  function WithStatus(jobs: map<JobId, Job>, ids: set<JobId>, status: Status): set<JobId> {
    set j | j in ids && j in jobs && jobs[j].status == status
  }
}

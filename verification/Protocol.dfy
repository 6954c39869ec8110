// The lease protocol as a state machine: every step is one committed transaction of a worker, an administrator or an
// application, in any order. History records what the tables forget.
module Protocol {
  import opened Rows
  import opened Statements

  /** The claim-th claim of a job, as run by the worker that made it. */
  datatype ExecId = ExecId(job: JobId, claim: nat)

  /** Running: the job's work is awaited or its result is about to be recorded. Recorded: the recording transaction
      has committed. Unwinding: CancelledError was raised at some await. Ended: the task is done. */
  datatype Phase = Running | Recorded | Unwinding | Ended

  /** One _execute_job task: the row as the claim returned it, and how many of its own row transitions took effect. */
  datatype Exec = Exec(worker: WorkerId, row: Job, phase: Phase, effects: nat)
  {
    predicate InFlight() { !phase.Ended? }
  }

  datatype History = History(
    claims: map<JobId, nat>,                     // claims of a job
    undone: map<JobId, nat>,                     // effective returns of a job
    setters: map<JobId, map<int, WorkerId>>,     // k -> worker of the last claim that set attempt_count to k
    birth: map<JobId, nat>,                      // insertion rank of every job ever inserted
    inserted: map<Name, nat>,                    // rows inserted into a queue
    grave: map<JobId, Job>)                      // the last row of every purged job

  datatype World = World(db: Db, execs: map<ExecId, Exec>, hist: History)

  datatype Step =
    | Insert(id: JobId, ask: Ask, now: Time)
    | Claim(worker: WorkerId, ids: set<JobId>, now: Time, lease: int)
    | Extend(job: JobId, worker: WorkerId, now: Time, lease: int)
    | Complete(exec: ExecId, now: Time, report: Report)
    | Fail(exec: ExecId, now: Time, retryable: bool, timedOut: bool, delay: int, report: Report)
    | Return(exec: ExecId, now: Time)
    | Interrupt(exec: ExecId)
    | End(exec: ExecId)
    | Recover(expired: seq<JobId>, now: Time)
    | Cancel(job: JobId, now: Time)
    | Purge(ids: set<JobId>, now: Time, succeededDays: int, deadLetterDays: int)
    | Configure(queue: Name, paused: Option<bool>, limit: Option<int>, now: Time)

  function Count<K>(m: map<K, nat>, k: K): nat { if k in m then m[k] else 0 }

  function Bump<K>(m: map<K, nat>, k: K): map<K, nat> { m[k := Count(m, k) + 1] }

  function Setters(h: History, j: JobId): map<int, WorkerId> { if j in h.setters then h.setters[j] else map[] }

  /** The leases a queue holds in the committed table. */
  function LeasedIn(db: Db, queue: Name): set<JobId> {
    set j | j in db.jobs && db.jobs[j].status == Leased && db.jobs[j].queue == queue
  }

  function LimitOf(db: Db, queue: Name): int { if queue in db.queues then db.queues[queue].limit else 0 }

  function Max(a: int, b: int): int { if a < b then b else a }

  /** A claim fills free slots of q only: q is not taken above its limit and, if already above it, does not grow. */
  ghost predicate FitsQueue(db: Db, ids: set<JobId>, q: Name) {
    |LeasedIn(db, q)| + |InQueue(db.jobs, ids, q)| <= Max(|LeasedIn(db, q)|, LimitOf(db, q))
  }

  /** What the source, the constraints of the tables and the life of an asyncio task allow. Concurrency limits are no
      part of it: that a claim fits them is a result (ClaimLimits), and nothing proved of runs depends on it. */
  ghost predicate Legal(w: World, s: Step) {
    match s
    case Insert(id, ask, now) =>
      && id !in w.hist.birth && PassesChecks(ask)
      && (ask.replayedFrom.Some? ==>
            var source := ask.replayedFrom.value;
            source in w.db.jobs && w.db.jobs[source].status.Terminal() && ask == ReplayAsk(source, w.db.jobs[source]))
    case Claim(worker, ids, now, lease) => forall j | j in ids :: j in w.db.jobs && Ready(w.db.jobs[j], now)
    case Extend(_, _, _, _) => true
    case Complete(e, _, _) => e in w.execs && w.execs[e].phase.Running?
    case Fail(e, _, _, _, _, _) => e in w.execs && w.execs[e].phase.Running?
    case Return(e, _) => e in w.execs && w.execs[e].phase.Unwinding?
    case Interrupt(e) => e in w.execs && (w.execs[e].phase.Running? || w.execs[e].phase.Recorded?)
    case End(e) => e in w.execs && w.execs[e].InFlight()
    case Recover(ids, now) =>
      && Distinct(ids)
      && forall i | 0 <= i < |ids| :: ids[i] in w.db.jobs && Expired(w.db.jobs[ids[i]], now)
    case Cancel(_, _) => true
    case Purge(ids, now, succeededDays, deadLetterDays) =>
      forall j | j in ids :: j in w.db.jobs && Purgeable(w.db.jobs[j], now, succeededDays, deadLetterDays)
    case Configure(_, _, limit, _) => limit.Some? ==> limit.value > 0
  }

  /** Assumption H1: a worker claims no job that one of its own tasks is still executing. */
  ghost predicate NoSelfOverlap(w: World, s: Step) {
    s.Claim? ==>
      forall e | e in w.execs :: w.execs[e].InFlight() && w.execs[e].worker == s.worker ==> e.job !in s.ids
  }

  /** The same for one job. */
  ghost predicate NoOverlapOn(w: World, s: Step, j: JobId) {
    s.Claim? && j in s.ids ==>
      forall e | e in w.execs && e.job == j :: !(w.execs[e].InFlight() && w.execs[e].worker == s.worker)
  }

  function NewExecs(w: World, ids: set<JobId>, worker: WorkerId, now: Time, lease: int): map<ExecId, Exec>
    requires forall j | j in ids :: j in w.db.jobs
  {
    var keys := set j | j in ids :: ExecId(j, Count(w.hist.claims, j) + 1);
    map e | e in keys :: Exec(worker, LeasedRow(w.db.jobs[e.job], worker, now, lease), Running, 0)
  }

  function ClaimHistory(w: World, ids: set<JobId>, worker: WorkerId): History
    requires forall j | j in ids :: j in w.db.jobs
  {
    w.hist.(
      claims := map j | j in w.hist.claims.Keys + ids :: Count(w.hist.claims, j) + if j in ids then 1 else 0,
      setters := map j | j in w.hist.setters.Keys + ids ::
        if j in ids then Setters(w.hist, j)[w.db.jobs[j].attemptCount + 1 := worker] else w.hist.setters[j])
  }

  /** The fence of the task's own updates. */
  predicate FenceOpen(w: World, e: ExecId)
    requires e in w.execs
  {
    Owns(w.db, e.job, w.execs[e].worker)
  }

  function Advance(w: World, e: ExecId, phase: Phase, db: Db, effective: bool): World
    requires e in w.execs
  {
    var x := w.execs[e];
    w.(db := db, execs := w.execs[e := x.(phase := phase, effects := x.effects + if effective then 1 else 0)])
  }

  ghost function Apply(w: World, s: Step): World
    requires Legal(w, s)
  {
    match s
    case Insert(id, ask, now) =>
      var db := InsertJob(w.db, id, ask, now);
      if Conflicts(w.db, ask) then w.(db := db) else
        w.(db := db, hist := w.hist.(birth := w.hist.birth[id := |w.hist.birth|],
                                     inserted := Bump(w.hist.inserted, ask.queue)))
    case Claim(worker, ids, now, lease) =>
      World(ClaimRows(w.db, ids, worker, now, lease), w.execs + NewExecs(w, ids, worker, now, lease),
            ClaimHistory(w, ids, worker))
    case Extend(j, worker, now, lease) => w.(db := ExtendLease(w.db, j, worker, now, lease))
    case Complete(e, now, report) =>
      var x := w.execs[e];
      Advance(w, e, Recorded, Statements.Complete(w.db, e.job, x.row, x.worker, now, report),
              FenceOpen(w, e) && Loggable(x.row))
    case Fail(e, now, retryable, timedOut, delay, report) =>
      var x := w.execs[e];
      Advance(w, e, Recorded,
              Statements.Fail(w.db, e.job, x.row, x.worker, now, retryable, timedOut, delay, report),
              FenceOpen(w, e) && Loggable(x.row))
    case Return(e, now) =>
      var x := w.execs[e];
      var next := Advance(w, e, Ended, ReturnToPending(w.db, e.job, x.worker, now), FenceOpen(w, e));
      if FenceOpen(w, e) then next.(hist := w.hist.(undone := Bump(w.hist.undone, e.job))) else next
    case Interrupt(e) => Advance(w, e, Unwinding, w.db, false)
    case End(e) => Advance(w, e, Ended, w.db, false)
    case Recover(ids, now) => w.(db := RecoverRows(w.db, ids, now))
    case Cancel(j, now) => w.(db := CancelPending(w.db, j, now))
    case Purge(ids, _, _, _) =>
      w.(db := DeleteJobs(w.db, ids),
         hist := w.hist.(grave := w.hist.grave + map j | j in ids && j in w.db.jobs :: w.db.jobs[j]))
    case Configure(queue, paused, limit, now) => w.(db := UpdateQueue(w.db, queue, paused, limit, now))
  }

  const EMPTY := World(Db(map[], map[], []), map[], History(map[], map[], map[], map[], map[], map[]))

  /** A run is a list of steps, each legal where it is taken. */
  ghost predicate LegalRun(w: World, run: seq<Step>)
    decreases |run|
  {
    run != [] ==> Legal(w, run[0]) && LegalRun(Apply(w, run[0]), run[1..])
  }

  ghost function After(w: World, run: seq<Step>): World
    requires LegalRun(w, run)
    decreases |run|
  {
    if run == [] then w else After(Apply(w, run[0]), run[1..])
  }

  /** Assumption H1 along a run. */
  ghost predicate NoOverlapRun(w: World, run: seq<Step>)
    requires LegalRun(w, run)
    decreases |run|
  {
    run != [] ==> NoSelfOverlap(w, run[0]) && NoOverlapRun(Apply(w, run[0]), run[1..])
  }

  ghost predicate NoOverlapRunOn(w: World, run: seq<Step>, j: JobId)
    requires LegalRun(w, run)
    decreases |run|
  {
    run != [] ==> NoOverlapOn(w, run[0], j) && NoOverlapRunOn(Apply(w, run[0]), run[1..], j)
  }

  /** H1 covers every job. */
  lemma {:induction false} NoOverlapCovers(w: World, run: seq<Step>, j: JobId)
    requires LegalRun(w, run) && NoOverlapRun(w, run)
    ensures NoOverlapRunOn(w, run, j)
    decreases |run|
  {
    if run != [] { NoOverlapCovers(Apply(w, run[0]), run[1..], j); }
  }

  /** The i-th step of the run is a claim of j by a worker that is still executing j. */
  ghost predicate OverlapsAt(w: World, run: seq<Step>, i: nat, j: JobId)
    requires LegalRun(w, run) && i < |run|
    decreases i
  {
    if i == 0 then !NoOverlapOn(w, run[0], j) else OverlapsAt(Apply(w, run[0]), run[1..], i - 1, j)
  }

  lemma {:induction false} SomeClaimOverlaps(w: World, run: seq<Step>, j: JobId)
    requires LegalRun(w, run) && !NoOverlapRunOn(w, run, j)
    ensures exists i: nat | i < |run| :: OverlapsAt(w, run, i, j)
    decreases |run|
  {
    if NoOverlapOn(w, run[0], j) {
      SomeClaimOverlaps(Apply(w, run[0]), run[1..], j);
      var i: nat :| i < |run[1..]| && OverlapsAt(Apply(w, run[0]), run[1..], i, j);
      assert OverlapsAt(w, run, i + 1, j);
    } else {
      assert OverlapsAt(w, run, 0, j);
    }
  }

  lemma RunCons(w: World, s: Step, rest: seq<Step>)
    requires Legal(w, s) && LegalRun(Apply(w, s), rest)
    ensures LegalRun(w, [s] + rest) && After(w, [s] + rest) == After(Apply(w, s), rest)
  {
    assert ([s] + rest)[1..] == rest;
  }
}

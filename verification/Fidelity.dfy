// What holds when no worker re-claims a job it is still executing (assumption H1): no pending job is stuck, the
// attempt log is numbered 1..n and names the right workers, and an execution has at most one effect.
module Fidelity {
  import opened Rows
  import opened Statements
  import opened Protocol
  import opened Accounting
  import opened Fence

  /** The attempt rows of a job are numbered 1..n, and row k names the worker of the last claim that reached k. */
  predicate LogFaithful(rows: seq<Attempt>, setters: map<int, WorkerId>) {
    forall i | 0 <= i < |rows| :: rows[i].number == i + 1 && i + 1 in setters && rows[i].worker == setters[i + 1]
  }

  predicate RowSharp(r: Job, rows: seq<Attempt>, setters: map<int, WorkerId>) {
    && (r.status == Pending ==> r.attemptCount < r.maxAttempts)
    && (r.status == Leased ==> r.attemptCount in setters && r.lockedBy == Some(setters[r.attemptCount]))
    && LogFaithful(rows, setters)
  }

  ghost predicate JobSharp(w: World, j: JobId)
    requires j in w.db.jobs
  {
    RowSharp(w.db.jobs[j], RowsOf(w.db.log, j), Setters(w.hist, j))
  }

  /** While the fence of a live task is open, its snapshot is current and it has had no effect yet. */
  predicate ExecSharp(w: World, e: ExecId)
    requires e in w.execs
  {
    var x := w.execs[e];
    && x.effects <= 1
    && (e.job in w.db.jobs ==> x.row.maxAttempts == w.db.jobs[e.job].maxAttempts)
    && (x.InFlight() && FenceOpen(w, e) ==> x.effects == 0 && x.row.attemptCount == w.db.jobs[e.job].attemptCount)
  }

  ghost predicate Sharp(w: World) {
    && (forall j | j in w.db.jobs :: JobSharp(w, j))
    && (forall e | e in w.execs :: ExecSharp(w, e))
    && w.hist.setters.Keys <= w.hist.birth.Keys
  }

  /** What the sharp invariant says of one job and its executions. */
  ghost predicate SharpAt(w: World, j: JobId) {
    && (j in w.db.jobs ==> JobSharp(w, j))
    && (forall e | e in w.execs && e.job == j :: ExecSharp(w, e))
    && (j in w.hist.setters ==> j in w.hist.birth)
  }

  lemma OneRowKeepsSharpRow(w: World, v: World, j: JobId, extra: seq<Attempt>, k: JobId)
    requires OneRow(w, v, j, extra) && v.hist.setters == w.hist.setters && k in w.db.jobs && JobSharp(w, k)
    requires k == j ==> RowSharp(v.db.jobs[j], RowsOf(w.db.log, j) + extra, Setters(w.hist, j))
    ensures JobSharp(v, k)
  {
    RowsOfConcat(w.db.log, extra, k);
    RowsOfOne(extra, j, k);
    assert RowsOf(w.db.log, k) + [] == RowsOf(w.db.log, k);
  }

  lemma OneRowKeepsSharp(w: World, v: World, j: JobId, extra: seq<Attempt>, k: JobId)
    requires SharpAt(w, k) && OneRow(w, v, j, extra) && v.hist.setters == w.hist.setters
    requires k == j ==> RowSharp(v.db.jobs[j], RowsOf(w.db.log, j) + extra, Setters(w.hist, j))
    requires forall e | e in v.execs && e.job == k :: ExecSharp(v, e)
    ensures SharpAt(v, k)
  {
    if k in w.db.jobs { OneRowKeepsSharpRow(w, v, j, extra, k); }
  }

  predicate SameButPhase(x: Exec, y: Exec) { y == x.(phase := y.phase) && (y.InFlight() ==> x.InFlight()) }

  lemma NoRowKeepsSharp(w: World, v: World, k: JobId)
    requires SharpAt(w, k) && v.db.jobs == w.db.jobs && v.db.log == w.db.log && v.hist == w.hist
    requires v.execs.Keys == w.execs.Keys
    requires forall e | e in w.execs :: SameButPhase(w.execs[e], v.execs[e])
    ensures SharpAt(v, k)
  {
    forall e | e in v.execs && e.job == k ensures ExecSharp(v, e) { assert ExecSharp(w, e); }
  }

  lemma InsertKeepsSharp(w: World, s: Step, k: JobId)
    requires Balanced(w) && SharpAt(w, k) && s.Insert? && Legal(w, s)
    ensures SharpAt(Apply(w, s), k)
  {
    var v := Apply(w, s);
    if k in v.db.jobs && k !in w.db.jobs { RowsOfNone(w.db.log, k); }
    forall e | e in v.execs && e.job == k ensures ExecSharp(v, e) { assert ExecSharp(w, e) && ExecKnown(w, e); }
  }

  lemma ClaimKeepsSharpJob(w: World, s: Step, k: JobId)
    requires Balanced(w) && s.Claim? && Legal(w, s) && k in w.db.jobs && JobSharp(w, k)
    ensures JobSharp(Apply(w, s), k)
  {
    assert JobBalances(w, k);
  }

  lemma ClaimKeepsSharp(w: World, s: Step, k: JobId)
    requires Balanced(w) && SharpAt(w, k) && s.Claim? && Legal(w, s) && NoOverlapOn(w, s, k)
    ensures SharpAt(Apply(w, s), k)
  {
    var v := Apply(w, s);
    if k in w.db.jobs { ClaimKeepsSharpJob(w, s, k); }
    forall e | e in v.execs && e.job == k ensures ExecSharp(v, e) {
      if e !in NewExecs(w, s.ids, s.worker, s.now, s.lease) { assert ExecSharp(w, e); }
    }
    assert k in s.ids ==> JobBalances(w, k);
  }

  lemma RecoveredRowSharp(k: JobId, r: Job, rows: seq<Attempt>, setters: map<int, WorkerId>,
                          now: Time)
    requires RowSharp(r, rows, setters) && Expired(r, now) && |rows| + 1 == r.attemptCount
    ensures RowSharp(RecoveredRow(r, now), rows + [ExpiredAttempt(k, r, now)], setters)
  {
  }

  lemma RecoverKeepsSharpJob(w: World, s: Step, k: JobId)
    requires Balanced(w) && s.Recover? && Legal(w, s) && k in w.db.jobs && JobSharp(w, k)
    ensures JobSharp(Apply(w, s), k)
  {
    assert JobBalances(w, k);
    RecoverRowsOf(w.db, s.expired, s.now, k);
    if k in s.expired {
      RecoveredRowSharp(k, w.db.jobs[k], RowsOf(w.db.log, k), Setters(w.hist, k), s.now);
    }
  }

  lemma RecoverKeepsSharp(w: World, s: Step, k: JobId)
    requires Balanced(w) && SharpAt(w, k) && s.Recover? && Legal(w, s)
    ensures SharpAt(Apply(w, s), k)
  {
    var v := Apply(w, s);
    if k in w.db.jobs { RecoverKeepsSharpJob(w, s, k); }
    forall e | e in v.execs && e.job == k ensures ExecSharp(v, e) { assert ExecSharp(w, e); }
  }

  lemma PurgeKeepsSharp(w: World, s: Step, k: JobId)
    requires SharpAt(w, k) && s.Purge? && Legal(w, s)
    ensures SharpAt(Apply(w, s), k)
  {
    var v := Apply(w, s);
    RowsOfCascade(w.db.log, s.ids, k);
    forall e | e in v.execs && e.job == k ensures ExecSharp(v, e) { assert ExecSharp(w, e); }
  }

  lemma RecordedRowSharp(r: Job, r': Job, rows: seq<Attempt>, a: Attempt,
                         setters: map<int, WorkerId>)
    requires RowSharp(r, rows, setters) && r.status == Leased && |rows| + 1 == r.attemptCount
    requires a.number == r.attemptCount && Some(a.worker) == r.lockedBy
    requires r'.status != Leased && (r'.status == Pending ==> r'.attemptCount < r'.maxAttempts)
    ensures RowSharp(r', rows + [a], setters)
  {
  }

  /** The row and the attempt that an effective record leaves. */
  lemma RecordOutcome(w: World, s: Step)
    requires (s.Complete? || s.Fail?) && Legal(w, s) && FenceOpen(w, s.exec) && Loggable(w.execs[s.exec].row)
    ensures var v, j, x := Apply(w, s), s.exec.job, w.execs[s.exec];
            && |v.db.log| == |w.db.log| + 1 && OneRow(w, v, j, [v.db.log[|w.db.log|]]) && v.hist == w.hist
            && var r', a := v.db.jobs[j], v.db.log[|w.db.log|];
               && a.job == j && a.number == x.row.attemptCount && a.worker == x.worker
               && r'.attemptCount == w.db.jobs[j].attemptCount && r'.maxAttempts == w.db.jobs[j].maxAttempts
               && r'.lockedBy.None? && r'.status != Leased
               && (r'.status == Pending <==> s.Fail? && ShouldRetry(x.row, s.retryable))
               && v.execs[s.exec].effects == x.effects + 1
               && forall f | f in w.execs && f != s.exec :: v.execs[f] == w.execs[f]
  {
  }

  lemma RecordKeepsSharpRow(w: World, s: Step)
    requires Balanced(w) && (s.Complete? || s.Fail?) && Legal(w, s) && FenceOpen(w, s.exec)
    requires JobSharp(w, s.exec.job) && ExecSharp(w, s.exec) && w.execs[s.exec].InFlight()
    requires Loggable(w.execs[s.exec].row)
    ensures var v, j := Apply(w, s), s.exec.job;
            |v.db.log| > |w.db.log| && j in v.db.jobs
            && RowSharp(v.db.jobs[j], RowsOf(w.db.log, j) + [v.db.log[|w.db.log|]], Setters(w.hist, j))
  {
    var v, j := Apply(w, s), s.exec.job;
    RecordOutcome(w, s);
    assert JobBalances(w, j);
    RecordedRowSharp(w.db.jobs[j], v.db.jobs[j], RowsOf(w.db.log, j), v.db.log[|w.db.log|], Setters(w.hist, j));
  }

  lemma RecordKeepsSharp(w: World, s: Step, k: JobId)
    requires Balanced(w) && SharpAt(w, k) && (s.Complete? || s.Fail?) && Legal(w, s)
    ensures SharpAt(Apply(w, s), k)
  {
    var v, e := Apply(w, s), s.exec;
    assert ExecKnown(w, e);
    if FenceOpen(w, e) {
      RecordOutcome(w, s);
      if k == e.job {
        assert ExecSharp(w, e);
        RecordKeepsSharpRow(w, s);
      }
      ReleasedKeepsExecs(w, v, e, [v.db.log[|w.db.log|]], k);
      OneRowKeepsSharp(w, v, e.job, [v.db.log[|w.db.log|]], k);
    } else {
      forall f | f in w.execs && f != e ensures v.execs[f] == w.execs[f] {}
      NoRowKeepsSharp(w, v, k);
    }
  }

  /** Once a row is released, the fence of every task on it is shut. */
  lemma ReleasedKeepsExecs(w: World, v: World, e: ExecId, extra: seq<Attempt>, k: JobId)
    requires SharpAt(w, k) && OneRow(w, v, e.job, extra) && e in w.execs
    requires v.db.jobs[e.job].lockedBy.None? && v.db.jobs[e.job].maxAttempts == w.db.jobs[e.job].maxAttempts
    requires forall f | f in w.execs && f != e :: v.execs[f] == w.execs[f]
    requires e.job == k ==> v.execs[e].effects <= 1
    ensures forall f | f in v.execs && f.job == k :: ExecSharp(v, f)
  {
    forall f | f in v.execs && f.job == k ensures ExecSharp(v, f) { assert ExecSharp(w, f); }
  }

  lemma ReturnOutcome(w: World, s: Step)
    requires Balanced(w) && s.Return? && Legal(w, s) && FenceOpen(w, s.exec)
    ensures var v, j := Apply(w, s), s.exec.job;
            && OneRow(w, v, j, []) && v.hist.setters == w.hist.setters
            && v.db.jobs[j].status == Pending && v.db.jobs[j].attemptCount == w.db.jobs[j].attemptCount - 1
            && v.db.jobs[j].lockedBy.None? && v.db.jobs[j].maxAttempts == w.db.jobs[j].maxAttempts
            && v.execs[s.exec].effects == w.execs[s.exec].effects + 1
            && forall f | f in w.execs && f != s.exec :: v.execs[f] == w.execs[f]
  {
    assert JobBalances(w, s.exec.job);
  }

  lemma ReturnKeepsSharp(w: World, s: Step, k: JobId)
    requires Balanced(w) && SharpAt(w, k) && s.Return? && Legal(w, s)
    ensures SharpAt(Apply(w, s), k)
  {
    var v, e := Apply(w, s), s.exec;
    if FenceOpen(w, e) {
      assert JobBalances(w, e.job);
      ReturnOutcome(w, s);
      if k == e.job {
        assert ExecSharp(w, e);
        assert RowsOf(w.db.log, k) + [] == RowsOf(w.db.log, k);
      }
      ReleasedKeepsExecs(w, v, e, [], k);
      OneRowKeepsSharp(w, v, e.job, [], k);
    } else {
      NoRowKeepsSharp(w, v, k);
    }
  }

  lemma TouchKeepsSharp(w: World, s: Step, k: JobId)
    requires SharpAt(w, k) && (s.Extend? || s.Cancel?) && Legal(w, s)
    ensures SharpAt(Apply(w, s), k)
  {
    var v := Apply(w, s);
    forall e | e in v.execs && e.job == k ensures ExecSharp(v, e) { assert ExecSharp(w, e); }
  }

  /** Every step keeps the sharp invariant of a job, unless it is a claim of the job by a worker still executing it. */
  lemma StepKeepsSharpAt(w: World, s: Step, j: JobId)
    requires Balanced(w) && SharpAt(w, j) && Legal(w, s) && NoOverlapOn(w, s, j)
    ensures SharpAt(Apply(w, s), j)
  {
    match s
    case Insert(_, _, _) => InsertKeepsSharp(w, s, j);
    case Claim(_, _, _, _) => ClaimKeepsSharp(w, s, j);
    case Recover(_, _) => RecoverKeepsSharp(w, s, j);
    case Purge(_, _, _, _) => PurgeKeepsSharp(w, s, j);
    case Configure(_, _, _, _) => NoRowKeepsSharp(w, Apply(w, s), j);
    case Extend(_, _, _, _) => TouchKeepsSharp(w, s, j);
    case Cancel(_, _) => TouchKeepsSharp(w, s, j);
    case Complete(_, _, _) => RecordKeepsSharp(w, s, j);
    case Fail(_, _, _, _, _, _) => RecordKeepsSharp(w, s, j);
    case Return(_, _) => ReturnKeepsSharp(w, s, j);
    case Interrupt(_) => NoRowKeepsSharp(w, Apply(w, s), j);
    case End(_) => NoRowKeepsSharp(w, Apply(w, s), j);
  }

  lemma {:induction false} RunKeepsSharpAt(w: World, run: seq<Step>, j: JobId)
    requires Balanced(w) && SharpAt(w, j) && LegalRun(w, run) && NoOverlapRunOn(w, run, j)
    ensures Balanced(After(w, run)) && SharpAt(After(w, run), j)
    decreases |run|
  {
    if run != [] {
      StepKeepsBalance(w, run[0]);
      StepKeepsSharpAt(w, run[0], j);
      RunKeepsSharpAt(Apply(w, run[0]), run[1..], j);
    }
  }

  lemma SharpEverywhere(w: World)
    ensures Sharp(w) <==> forall j :: SharpAt(w, j)
  {
    if forall j :: SharpAt(w, j) {
      forall j | j in w.db.jobs ensures JobSharp(w, j) { assert SharpAt(w, j); }
      forall e | e in w.execs ensures ExecSharp(w, e) { assert SharpAt(w, e.job); }
      forall j | j in w.hist.setters ensures j in w.hist.birth { assert SharpAt(w, j); }
    }
  }

  /** Under H1 every step keeps the sharp invariant of all jobs. */
  lemma StepKeepsSharp(w: World, s: Step)
    requires Balanced(w) && Sharp(w) && Legal(w, s) && NoSelfOverlap(w, s)
    ensures Sharp(Apply(w, s))
  {
    SharpEverywhere(w);
    forall j ensures SharpAt(Apply(w, s), j) { StepKeepsSharpAt(w, s, j); }
    SharpEverywhere(Apply(w, s));
  }

  lemma {:induction false} RunKeepsSharp(w: World, run: seq<Step>)
    requires Balanced(w) && Sharp(w) && LegalRun(w, run) && NoOverlapRun(w, run)
    ensures Balanced(After(w, run)) && Sharp(After(w, run))
    decreases |run|
  {
    if run != [] {
      StepKeepsBalance(w, run[0]);
      StepKeepsSharp(w, run[0]);
      RunKeepsSharp(Apply(w, run[0]), run[1..]);
    }
  }

  // ---- over all runs, with H1 for the one job ----

  /** No stuck job: once due, every pending job passes the claim guard; a leased job is within its attempts. */
  lemma NoStuckJob(run: seq<Step>, j: JobId, now: Time)
    requires LegalRun(EMPTY, run) && NoOverlapRunOn(EMPTY, run, j) && j in After(EMPTY, run).db.jobs
    ensures var r := After(EMPTY, run).db.jobs[j];
            && (r.status == Pending ==> (Ready(r, now) <==> r.availableAt <= now))
            && (r.status == Leased ==> 1 <= r.attemptCount <= r.maxAttempts)
  {
    RunKeepsSharpAt(EMPTY, run, j);
    assert JobSharp(After(EMPTY, run), j) && JobBalances(After(EMPTY, run), j);
  }

  /** The attempt log of a job is 1..n without gap or duplicate, n its attempt_count less the attempt in progress,
      and row k carries the worker of the last claim that set attempt_count to k. */
  lemma AttemptLogFidelity(run: seq<Step>, j: JobId)
    requires LegalRun(EMPTY, run) && NoOverlapRunOn(EMPTY, run, j) && j in After(EMPTY, run).db.jobs
    ensures var w := After(EMPTY, run);
            var rows, setters := RowsOf(w.db.log, j), Setters(w.hist, j);
            && |rows| == w.db.jobs[j].attemptCount - Held(w.db.jobs[j])
            && forall k | 0 <= k < |rows| ::
                 rows[k].number == k + 1 && k + 1 in setters && rows[k].worker == setters[k + 1]
  {
    RunKeepsSharpAt(EMPTY, run, j);
    assert JobSharp(After(EMPTY, run), j) && JobBalances(After(EMPTY, run), j);
  }

  /** One execution, one effect: over every interleaving, a claim's task makes at most one of complete, fail and
      return take effect, and that on the lease of its own claim. */
  lemma OneExecutionOneEffect(run: seq<Step>, e: ExecId)
    requires LegalRun(EMPTY, run) && NoOverlapRunOn(EMPTY, run, e.job) && e in After(EMPTY, run).execs
    ensures After(EMPTY, run).execs[e].effects <= 1 && OwnEffects(EMPTY, run, e)
  {
    RunKeepsSharpAt(EMPTY, run, e.job);
    assert ExecSharp(After(EMPTY, run), e);
    EffectsAreOwn(run, e);
  }

  /** An effective return takes back the increment of its own claim, the latest of the job: the count is again what
      that claim found. */
  lemma ReturnUndoesOwnClaim(run: seq<Step>, e: ExecId, now: Time)
    requires LegalRun(EMPTY, run) && NoOverlapRunOn(EMPTY, run, e.job)
    requires Legal(After(EMPTY, run), Return(e, now)) && FenceOpen(After(EMPTY, run), e)
    ensures var w := After(EMPTY, run);
            var v := Apply(w, Return(e, now));
            && e.claim == Count(w.hist.claims, e.job) && e.job in v.db.jobs
            && v.db.jobs[e.job].status == Pending
            && v.db.jobs[e.job].attemptCount == w.execs[e].row.attemptCount - 1
  {
    RunKeepsSharpAt(EMPTY, run, e.job);
    var w := After(EMPTY, run);
    assert ExecSharp(w, e) && JobBalances(w, e.job);
    TokenAlongIff(EMPTY, run, e.job);
    assert Passes(w, e);
  }
}

// Without assumption H1: exactly which steps strand a job, misnumber an attempt or let an execution take effect twice.
// All need a worker that claims a job it is still executing.
module Reclaim {
  import opened Rows
  import opened Statements
  import opened Protocol
  import opened Accounting
  import opened Fidelity

  // ---- stranded jobs ----

  /** Pending with no attempt left. */
  predicate Stranded(r: Job) { r.status == Pending && r.attemptCount >= r.maxAttempts }

  /** No claim can ever take the row. */
  lemma StrandedIsUnclaimable(r: Job)
    ensures Stranded(r) <==> r.status == Pending && forall t: Time :: !Ready(r, t)
  {
    if r.status == Pending && r.attemptCount < r.maxAttempts { assert Ready(r, r.availableAt); }
  }

  /** A failure that passes the fence and retries on the word of its snapshot, while the row has no attempt left. */
  predicate StaleRetry(w: World, s: Step, j: JobId) {
    && s.Fail? && s.exec.job == j && s.exec in w.execs && FenceOpen(w, s.exec)
    && ShouldRetry(w.execs[s.exec].row, s.retryable) && w.db.jobs[j].attemptCount == w.db.jobs[j].maxAttempts
  }

  lemma FailStrandsIff(w: World, s: Step)
    requires Balanced(w) && s.Fail? && Legal(w, s) && FenceOpen(w, s.exec)
    ensures s.exec.job in Apply(w, s).db.jobs
    ensures Stranded(Apply(w, s).db.jobs[s.exec.job]) <==> StaleRetry(w, s, s.exec.job)
  {
    assert JobBalances(w, s.exec.job) && ExecKnown(w, s.exec);
    RecordOutcome(w, s);
  }

  lemma OtherRowsStay(w: World, s: Step, j: JobId)
    requires Balanced(w) && (s.Complete? || s.Fail?) && Legal(w, s) && j in w.db.jobs
    requires s.exec.job != j || !FenceOpen(w, s.exec)
    ensures j in Apply(w, s).db.jobs && Apply(w, s).db.jobs[j] == w.db.jobs[j]
    ensures RowsOf(Apply(w, s).db.log, j) == RowsOf(w.db.log, j)
  {
    assert ExecKnown(w, s.exec);
    if FenceOpen(w, s.exec) {
      RecordOutcome(w, s);
      RowsOfAppend(w.db.log, Apply(w, s).db.log[|w.db.log|], j);
    }
  }

  /** Of all steps, a stale retry and nothing else strands a job. */
  lemma StrandsIff(w: World, s: Step, j: JobId)
    requires Balanced(w) && Legal(w, s) && j in w.db.jobs && !Stranded(w.db.jobs[j])
    ensures (j in Apply(w, s).db.jobs && Stranded(Apply(w, s).db.jobs[j])) <==> StaleRetry(w, s, j)
  {
    assert JobBalances(w, j);
    if s.Complete? || s.Fail? {
      if s.exec.job != j || !FenceOpen(w, s.exec) {
        OtherRowsStay(w, s, j);
      } else if s.Fail? {
        FailStrandsIff(w, s);
      } else {
        assert ExecKnown(w, s.exec);
        RecordOutcome(w, s);
      }
    }
  }

  /** And only a cancellation ends it. */
  lemma StrandedStays(w: World, s: Step, j: JobId)
    requires Balanced(w) && Legal(w, s) && j in w.db.jobs && Stranded(w.db.jobs[j]) && !(s.Cancel? && s.job == j)
    ensures j in Apply(w, s).db.jobs && Stranded(Apply(w, s).db.jobs[j])
  {
    assert JobBalances(w, j);
    if s.Complete? || s.Fail? { OtherRowsStay(w, s, j); }
  }

  /** The i-th step of the run is a stale retry of j. */
  ghost predicate StaleRetryAt(w: World, run: seq<Step>, i: nat, j: JobId)
    requires LegalRun(w, run) && i < |run|
    decreases i
  {
    if i == 0 then StaleRetry(w, run[0], j) else StaleRetryAt(Apply(w, run[0]), run[1..], i - 1, j)
  }

  lemma NewRowsAreClaimable(w: World, s: Step, j: JobId)
    requires Legal(w, s) && j !in w.db.jobs && j in Apply(w, s).db.jobs
    ensures !Stranded(Apply(w, s).db.jobs[j])
  {
  }

  lemma {:induction false} RunStrands(w: World, run: seq<Step>, j: JobId)
    requires Balanced(w) && LegalRun(w, run) && (j in w.db.jobs ==> !Stranded(w.db.jobs[j]))
    requires j in After(w, run).db.jobs && Stranded(After(w, run).db.jobs[j])
    ensures exists i: nat | i < |run| :: StaleRetryAt(w, run, i, j)
    decreases |run|
  {
    var v := Apply(w, run[0]);
    StepKeepsBalance(w, run[0]);
    if j in w.db.jobs { StrandsIff(w, run[0], j); } else if j in v.db.jobs { NewRowsAreClaimable(w, run[0], j); }
    if StaleRetry(w, run[0], j) {
      assert StaleRetryAt(w, run, 0, j);
    } else {
      RunStrands(v, run[1..], j);
      var i: nat :| i < |run[1..]| && StaleRetryAt(v, run[1..], i, j);
      assert StaleRetryAt(w, run, i + 1, j);
    }
  }

  /** Over all runs: no claim can ever take a stranded job; it has had a stale retry, and a claim by a worker still
      executing it. */
  lemma StrandedByOverlap(run: seq<Step>, j: JobId)
    requires LegalRun(EMPTY, run) && j in After(EMPTY, run).db.jobs && Stranded(After(EMPTY, run).db.jobs[j])
    ensures forall t: Time :: !Ready(After(EMPTY, run).db.jobs[j], t)
    ensures exists i: nat | i < |run| :: StaleRetryAt(EMPTY, run, i, j)
    ensures exists i: nat | i < |run| :: OverlapsAt(EMPTY, run, i, j)
  {
    StrandedIsUnclaimable(After(EMPTY, run).db.jobs[j]);
    RunStrands(EMPTY, run, j);
    if NoOverlapRunOn(EMPTY, run, j) {
      NoStuckJob(run, j, After(EMPTY, run).db.jobs[j].availableAt);
    } else {
      SomeClaimOverlaps(EMPTY, run, j);
    }
  }

  // ---- attempt numbers ----

  predicate Numbered(rows: seq<Attempt>) { forall i | 0 <= i < |rows| :: rows[i].number == i + 1 }

  lemma NumberedAppend(rows: seq<Attempt>, a: Attempt)
    requires Numbered(rows)
    ensures Numbered(rows + [a]) <==> a.number == |rows| + 1
  {
    assert (rows + [a])[|rows|] == a;
  }

  /** A record, of a success or a failure, gets the next free number exactly when its snapshot is current. */
  lemma RecordNumbersNextIff(w: World, s: Step)
    requires Balanced(w) && (s.Complete? || s.Fail?) && Legal(w, s) && FenceOpen(w, s.exec)
    ensures var rows := RowsOf(Apply(w, s).db.log, s.exec.job);
            && |rows| == |RowsOf(w.db.log, s.exec.job)| + 1 && rows[..|rows| - 1] == RowsOf(w.db.log, s.exec.job)
            && (rows[|rows| - 1].number == |rows| <==>
                w.execs[s.exec].row.attemptCount == w.db.jobs[s.exec.job].attemptCount)
  {
    assert JobBalances(w, s.exec.job) && ExecKnown(w, s.exec);
    RecordOutcome(w, s);
    RowsOfAppend(w.db.log, Apply(w, s).db.log[|w.db.log|], s.exec.job);
  }

  /** A record that passes the fence with a snapshot of an earlier attempt. */
  predicate StaleRecord(w: World, s: Step, j: JobId) {
    && (s.Complete? || s.Fail?) && s.exec.job == j && s.exec in w.execs && FenceOpen(w, s.exec)
    && w.execs[s.exec].row.attemptCount != w.db.jobs[j].attemptCount
  }

  lemma RecordBreaksIff(w: World, s: Step)
    requires Balanced(w) && (s.Complete? || s.Fail?) && Legal(w, s) && FenceOpen(w, s.exec)
    requires Numbered(RowsOf(w.db.log, s.exec.job))
    ensures Numbered(RowsOf(Apply(w, s).db.log, s.exec.job)) <==> !StaleRecord(w, s, s.exec.job)
  {
    RecordNumbersNextIff(w, s);
    var rows := RowsOf(Apply(w, s).db.log, s.exec.job);
    assert rows == rows[..|rows| - 1] + [rows[|rows| - 1]];
    NumberedAppend(rows[..|rows| - 1], rows[|rows| - 1]);
  }

  lemma RecoveryNumbers(w: World, s: Step, j: JobId)
    requires Balanced(w) && s.Recover? && Legal(w, s) && j in w.db.jobs && Numbered(RowsOf(w.db.log, j))
    ensures Numbered(RowsOf(Apply(w, s).db.log, j))
  {
    assert JobBalances(w, j);
    RecoverRowsOf(w.db, s.expired, s.now, j);
    if j in s.expired { NumberedAppend(RowsOf(w.db.log, j), ExpiredAttempt(j, w.db.jobs[j], s.now)); }
  }

  /** Of all steps, a stale record and nothing else leaves a gap or a duplicate in the numbers of a job's attempts. */
  lemma MisnumbersIff(w: World, s: Step, j: JobId)
    requires Balanced(w) && Legal(w, s) && j in w.db.jobs && Numbered(RowsOf(w.db.log, j))
    ensures !Numbered(RowsOf(Apply(w, s).db.log, j)) <==> StaleRecord(w, s, j)
  {
    if s.Complete? || s.Fail? {
      if s.exec.job != j || !FenceOpen(w, s.exec) { OtherRowsStay(w, s, j); } else { RecordBreaksIff(w, s); }
    } else if s.Recover? {
      RecoveryNumbers(w, s, j);
    } else if s.Purge? {
      RowsOfCascade(w.db.log, s.ids, j);
    }
  }

  // ---- attempt numbers and workers ----

  /** The attempts of a job are numbered 1..n and name the workers of the claims that reached these numbers, and its
      lease, if it has one, is that of the worker of the claim that reached its attempt_count. */
  ghost predicate Attributed(w: World, j: JobId) {
    && LogFaithful(RowsOf(w.db.log, j), Setters(w.hist, j))
    && (j in w.db.jobs && w.db.jobs[j].status == Leased ==>
          && w.db.jobs[j].attemptCount in Setters(w.hist, j)
          && w.db.jobs[j].lockedBy == Some(Setters(w.hist, j)[w.db.jobs[j].attemptCount]))
  }

  /** What the next attempt row has to be. */
  predicate Continues(rows: seq<Attempt>, a: Attempt, setters: map<int, WorkerId>) {
    a.number == |rows| + 1 && |rows| + 1 in setters && a.worker == setters[|rows| + 1]
  }

  lemma FaithfulAppend(rows: seq<Attempt>, a: Attempt, setters: map<int, WorkerId>)
    requires LogFaithful(rows, setters)
    ensures LogFaithful(rows + [a], setters) ==> Continues(rows, a, setters)
    ensures Continues(rows, a, setters) ==> LogFaithful(rows + [a], setters)
  {
    assert (rows + [a])[|rows|] == a;
  }

  lemma RecordMisattributesIff(w: World, s: Step)
    requires Balanced(w) && (s.Complete? || s.Fail?) && Legal(w, s) && FenceOpen(w, s.exec)
    requires Attributed(w, s.exec.job)
    ensures Attributed(Apply(w, s), s.exec.job) <==> !StaleRecord(w, s, s.exec.job)
  {
    var v, j := Apply(w, s), s.exec.job;
    assert JobBalances(w, j) && ExecKnown(w, s.exec);
    RecordOutcome(w, s);
    RowsOfAppend(w.db.log, v.db.log[|w.db.log|], j);
    FaithfulAppend(RowsOf(w.db.log, j), v.db.log[|w.db.log|], Setters(w.hist, j));
  }

  lemma RecoveryAttributes(w: World, s: Step, j: JobId)
    requires Balanced(w) && s.Recover? && Legal(w, s) && j in w.db.jobs && Attributed(w, j)
    ensures Attributed(Apply(w, s), j)
  {
    assert JobBalances(w, j);
    RecoverRowsOf(w.db, s.expired, s.now, j);
    if j in s.expired {
      FaithfulAppend(RowsOf(w.db.log, j), ExpiredAttempt(j, w.db.jobs[j], s.now), Setters(w.hist, j));
    }
  }

  lemma ClaimSets(w: World, s: Step, j: JobId)
    requires s.Claim? && Legal(w, s) && j in w.db.jobs
    ensures var v, r := Apply(w, s), w.db.jobs[j];
            && v.db.log == w.db.log && j in v.db.jobs
            && v.db.jobs[j] == (if j in s.ids then LeasedRow(r, s.worker, s.now, s.lease) else r)
            && Setters(v.hist, j) == if j in s.ids then Setters(w.hist, j)[r.attemptCount + 1 := s.worker]
                                     else Setters(w.hist, j)
  {
  }

  lemma FaithfulExtend(rows: seq<Attempt>, setters: map<int, WorkerId>, k: int, worker: WorkerId)
    requires LogFaithful(rows, setters) && k > |rows|
    ensures LogFaithful(rows, setters[k := worker])
  {
  }

  /** A claim reaches a number that no attempt of the job has yet. */
  lemma ClaimAttributes(w: World, s: Step, j: JobId)
    requires Balanced(w) && s.Claim? && Legal(w, s) && j in w.db.jobs && Attributed(w, j)
    ensures Attributed(Apply(w, s), j)
  {
    assert JobBalances(w, j);
    ClaimSets(w, s, j);
    FaithfulExtend(RowsOf(w.db.log, j), Setters(w.hist, j), w.db.jobs[j].attemptCount + 1, s.worker);
  }

  /** The lease of the row, if it has one, is the one it had. */
  predicate NoNewLease(r: Job, r': Job) {
    r'.status == Leased ==> r.status == Leased && r'.attemptCount == r.attemptCount && r'.lockedBy == r.lockedBy
  }

  lemma ReturnLeasesNothing(w: World, s: Step, j: JobId)
    requires Legal(w, s) && s.Return? && j in w.db.jobs
    ensures var v := Apply(w, s);
            && v.db.log == w.db.log && v.hist.setters == w.hist.setters
            && j in v.db.jobs && NoNewLease(w.db.jobs[j], v.db.jobs[j])
  {
  }

  lemma OthersLeaseNothing(w: World, s: Step, j: JobId)
    requires Legal(w, s) && j in w.db.jobs && (s.Insert? ==> s.id != j)
    requires !s.Complete? && !s.Fail? && !s.Recover? && !s.Claim? && !s.Purge?
    ensures var v := Apply(w, s);
            && v.db.log == w.db.log && v.hist.setters == w.hist.setters
            && j in v.db.jobs && NoNewLease(w.db.jobs[j], v.db.jobs[j])
  {
    if s.Return? { ReturnLeasesNothing(w, s, j); }
  }

  lemma OthersAttribute(w: World, s: Step, j: JobId)
    requires Balanced(w) && Legal(w, s) && j in w.db.jobs && Attributed(w, j)
    requires !s.Complete? && !s.Fail? && !s.Recover? && !s.Claim? && !s.Purge?
    ensures Attributed(Apply(w, s), j)
  {
    assert JobBalances(w, j);
    OthersLeaseNothing(w, s, j);
  }

  lemma PurgeAttributes(w: World, s: Step, j: JobId)
    requires s.Purge? && Legal(w, s) && j in w.db.jobs && Attributed(w, j)
    ensures Attributed(Apply(w, s), j)
  {
    RowsOfCascade(w.db.log, s.ids, j);
  }

  lemma OtherRecordAttributes(w: World, s: Step, j: JobId)
    requires Balanced(w) && (s.Complete? || s.Fail?) && Legal(w, s) && j in w.db.jobs && Attributed(w, j)
    requires s.exec.job != j || !FenceOpen(w, s.exec)
    ensures Attributed(Apply(w, s), j)
  {
    OtherRowsStay(w, s, j);
    assert Apply(w, s).hist == w.hist;
  }

  lemma AnyRecordMisattributesIff(w: World, s: Step, j: JobId)
    requires Balanced(w) && (s.Complete? || s.Fail?) && Legal(w, s) && j in w.db.jobs && Attributed(w, j)
    ensures !Attributed(Apply(w, s), j) <==> StaleRecord(w, s, j)
  {
    if s.exec.job != j || !FenceOpen(w, s.exec) {
      OtherRecordAttributes(w, s, j);
    } else {
      RecordMisattributesIff(w, s);
    }
  }

  lemma NonRecordAttributes(w: World, s: Step, j: JobId)
    requires Balanced(w) && !s.Complete? && !s.Fail? && Legal(w, s) && j in w.db.jobs && Attributed(w, j)
    ensures Attributed(Apply(w, s), j)
  {
    if s.Recover? {
      RecoveryAttributes(w, s, j);
    } else if s.Claim? {
      ClaimAttributes(w, s, j);
    } else if s.Purge? {
      PurgeAttributes(w, s, j);
    } else {
      OthersAttribute(w, s, j);
    }
  }

  /** Of all steps, a stale record and nothing else leaves the attempts of a job misnumbered or misattributed. */
  lemma MisattributesIff(w: World, s: Step, j: JobId)
    requires Balanced(w) && Legal(w, s) && j in w.db.jobs && Attributed(w, j)
    ensures !Attributed(Apply(w, s), j) <==> StaleRecord(w, s, j)
  {
    if s.Complete? || s.Fail? { AnyRecordMisattributesIff(w, s, j); } else { NonRecordAttributes(w, s, j); }
  }

  /** Over all runs: a job with misnumbered or misattributed attempts was claimed by a worker still executing it. */
  lemma MisattributedByOverlap(run: seq<Step>, j: JobId)
    requires LegalRun(EMPTY, run) && j in After(EMPTY, run).db.jobs && !Attributed(After(EMPTY, run), j)
    ensures exists i: nat | i < |run| :: OverlapsAt(EMPTY, run, i, j)
  {
    if NoOverlapRunOn(EMPTY, run, j) {
      RunKeepsSharpAt(EMPTY, run, j);
    } else {
      SomeClaimOverlaps(EMPTY, run, j);
    }
  }

  // ---- effects ----

  /** Before its record a task has had no effect, before its end at most one, and never more than two. */
  predicate EffectsFit(x: Exec) {
    x.effects <= (if x.phase.Running? then 0 else if x.phase.Ended? then 2 else 1)
  }

  ghost predicate AllEffectsFit(w: World) { forall e | e in w.execs :: EffectsFit(w.execs[e]) }

  lemma StepKeepsEffects(w: World, s: Step)
    requires Balanced(w) && AllEffectsFit(w) && Legal(w, s)
    ensures AllEffectsFit(Apply(w, s))
  {
    var v := Apply(w, s);
    forall e | e in v.execs ensures EffectsFit(v.execs[e]) {
      if e in w.execs { assert EffectsFit(w.execs[e]); }
    }
  }

  /** Of all steps, only a job given back through the fence after its record took effect is a second effect. */
  lemma SecondEffectIff(w: World, s: Step, e: ExecId)
    requires Balanced(w) && AllEffectsFit(w) && Legal(w, s) && e in w.execs && w.execs[e].effects <= 1
    ensures e in Apply(w, s).execs
    ensures Apply(w, s).execs[e].effects > 1 <==>
              s.Return? && s.exec == e && FenceOpen(w, e) && w.execs[e].effects == 1
  {
    assert EffectsFit(w.execs[e]) && ExecKnown(w, e);
  }

  lemma {:induction false} RunKeepsEffects(w: World, run: seq<Step>)
    requires Balanced(w) && AllEffectsFit(w) && LegalRun(w, run)
    ensures AllEffectsFit(After(w, run))
    decreases |run|
  {
    if run != [] {
      StepKeepsBalance(w, run[0]);
      StepKeepsEffects(w, run[0]);
      RunKeepsEffects(Apply(w, run[0]), run[1..]);
    }
  }

  /** Over all runs: an execution has at most two effects, and two only if its job was claimed by its worker while the
      worker was still executing it. */
  lemma SecondEffectByOverlap(run: seq<Step>, e: ExecId)
    requires LegalRun(EMPTY, run) && e in After(EMPTY, run).execs
    ensures After(EMPTY, run).execs[e].effects <= 2
    ensures After(EMPTY, run).execs[e].effects == 2 ==> exists i: nat | i < |run| :: OverlapsAt(EMPTY, run, i, e.job)
  {
    RunKeepsEffects(EMPTY, run);
    assert EffectsFit(After(EMPTY, run).execs[e]);
    if NoOverlapRunOn(EMPTY, run, e.job) {
      OneExecutionOneEffect(run, e);
    } else {
      SomeClaimOverlaps(EMPTY, run, e.job);
    }
  }
}

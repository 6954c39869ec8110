// The lifecycle of a job, transaction by transaction and column by column: which step changes its status and to what,
// what else a step may change, and what the attempt table tells of it.
module Transitions {
  import opened Rows
  import opened Statements
  import opened Protocol
  import opened Accounting
  import opened Lifecycle
  import Fidelity

  // ---- what a result leaves ----

  /** The job's own record or return passes the fence. */
  predicate Lands(w: World, s: Step, j: JobId) {
    (s.Complete? || s.Fail? || s.Return?) && s.exec.job == j && s.exec in w.execs && FenceOpen(w, s.exec)
  }

  /** A failure that is to be retried: the caller says so and the claimed row had attempts left. */
  predicate Retries(w: World, s: Step) {
    && s.Fail? && s.exec in w.execs && s.retryable
    && w.execs[s.exec].row.attemptCount < w.execs[s.exec].row.maxAttempts
  }

  /** One attempt row is written, with the worker, the number and the times of the attempt and what it reported. */
  ghost predicate Tells(w: World, v: World, e: ExecId, now: Time, report: Report, status: AttemptStatus,
                        last: Diagnosis)
    requires e in w.execs
  {
    && |v.db.log| == |w.db.log| + 1 && v.db.log[..|w.db.log|] == w.db.log
    && var a := v.db.log[|w.db.log|];
       && a.job == e.job && a.number == w.execs[e].row.attemptCount && a.worker == w.execs[e].worker
       && a.status == status && a.last == last && a.bodyPreview == report.bodyPreview
       && a.finishedAt == now && a.durationMs == report.durationMs && a.startedAt == now - 1_000 * report.durationMs
  }

  /** An effective success. */
  lemma SuccessLeaves(w: World, s: Step)
    requires Balanced(w) && s.Complete? && Legal(w, s) && FenceOpen(w, s.exec)
    ensures s.exec.job in w.db.jobs && s.exec.job in Apply(w, s).db.jobs
    ensures var r, r' := w.db.jobs[s.exec.job], Apply(w, s).db.jobs[s.exec.job];
            r' == r.(status := Succeeded, lockedBy := None, lockedUntil := None, completedAt := Some(s.now),
                     updatedAt := s.now,
                     last := Diagnosis(r.last.errorType, r.last.errorMessage, s.report.last.responseStatus))
    ensures Tells(w, Apply(w, s), s.exec, s.now, s.report, AttemptSucceeded,
                  Diagnosis(None, None, s.report.last.responseStatus))
  {
    assert ExecKnown(w, s.exec);
  }

  /** An effective failure goes back to pending, available after the delay, exactly when it is retryable and the claimed
      row had attempts left; otherwise the job is dead-lettered, now. */
  lemma FailureLeaves(w: World, s: Step)
    requires Balanced(w) && s.Fail? && Legal(w, s) && FenceOpen(w, s.exec)
    ensures s.exec.job in w.db.jobs && s.exec.job in Apply(w, s).db.jobs
    ensures var r, r', row := w.db.jobs[s.exec.job], Apply(w, s).db.jobs[s.exec.job], w.execs[s.exec].row;
            if s.retryable && row.attemptCount < row.maxAttempts then
              r' == r.(status := Pending, lockedBy := None, lockedUntil := None, last := s.report.last,
                       availableAt := s.now + 1_000_000 * s.delay, updatedAt := s.now)
            else
              r' == r.(status := DeadLetter, lockedBy := None, lockedUntil := None, last := s.report.last,
                       completedAt := Some(s.now), updatedAt := s.now)
    ensures Tells(w, Apply(w, s), s.exec, s.now, s.report, if s.timedOut then AttemptTimeout else AttemptFailed,
                  s.report.last)
  {
    assert ExecKnown(w, s.exec);
  }

  /** A recovered lease: dead-lettered exactly when no attempt is left. */
  lemma RecoveryLeaves(w: World, s: Step, j: JobId)
    requires Balanced(w) && s.Recover? && Legal(w, s) && j in s.expired
    ensures j in w.db.jobs && j in Apply(w, s).db.jobs
    ensures var r, r' := w.db.jobs[j], Apply(w, s).db.jobs[j];
            var last := Diagnosis(Some("lease_expired"), Some("Worker lease expired before completion"),
                                  r.last.responseStatus);
            if r.attemptCount >= r.maxAttempts then
              r' == r.(status := DeadLetter, lockedBy := None, lockedUntil := None, last := last,
                       completedAt := Some(s.now), updatedAt := s.now)
            else
              r' == r.(status := Pending, lockedBy := None, lockedUntil := None, last := last, updatedAt := s.now)
    ensures var r := w.db.jobs[j];
            && r.lockedBy.Some? && r.lockedUntil.Some? && r.lockedUntil.value < s.now
            && RowsOf(Apply(w, s).db.log, j)
               == RowsOf(w.db.log, j)
                  + [Attempt(j, r.attemptCount, r.lockedBy.value, AttemptLeaseExpired, r.lockedUntil.value, s.now, 0,
                             Diagnosis(Some("lease_expired"), Some("Worker lease expired before completion"), None),
                             None)]
  {
    assert JobBalances(w, j);
    RecoverRowsOf(w.db, s.expired, s.now, j);
  }

  // ---- the status diagram ----

  ghost predicate BothHave(w: World, s: Step, j: JobId) { Legal(w, s) && j in w.db.jobs && j in Apply(w, s).db.jobs }

  /** What each change of status is caused by. */
  ghost predicate Diagram(w: World, s: Step, j: JobId, from: Status, to: Status)
    requires j in w.db.jobs
  {
    var r := w.db.jobs[j];
    && (from == Pending && to == Leased <==> s.Claim? && j in s.ids)
    && (from == Pending && to == Cancelled <==> s.Cancel? && s.job == j && from == Pending)
    && (from == Leased && to == Succeeded <==> s.Complete? && Lands(w, s, j))
    && (from == Leased && to == Pending <==>
          (Lands(w, s, j) && (s.Return? || Retries(w, s)))
          || (s.Recover? && j in s.expired && r.attemptCount < r.maxAttempts))
    && (from == Leased && to == DeadLetter <==>
          (Lands(w, s, j) && s.Fail? && !Retries(w, s))
          || (s.Recover? && j in s.expired && r.attemptCount >= r.maxAttempts))
    && (from != to ==>
          || (from == Pending && (to == Leased || to == Cancelled))
          || (from == Leased && (to == Pending || to == Succeeded || to == DeadLetter)))
  }

  lemma ResultFollowsDiagram(w: World, s: Step, j: JobId)
    requires Balanced(w) && (s.Complete? || s.Fail?) && BothHave(w, s, j)
    ensures Diagram(w, s, j, w.db.jobs[j].status, Apply(w, s).db.jobs[j].status)
  {
    assert ExecKnown(w, s.exec);
    if FenceOpen(w, s.exec) && s.exec.job == j {
      if s.Complete? { SuccessLeaves(w, s); } else { FailureLeaves(w, s); }
    } else {
      OtherRowStays(w, s, j);
    }
  }

  lemma OtherRowStays(w: World, s: Step, j: JobId)
    requires Balanced(w) && (s.Complete? || s.Fail?) && BothHave(w, s, j)
    requires !FenceOpen(w, s.exec) || s.exec.job != j
    ensures Apply(w, s).db.jobs[j] == w.db.jobs[j]
  {
    assert ExecKnown(w, s.exec);
    if FenceOpen(w, s.exec) { Fidelity.RecordOutcome(w, s); }
  }

  lemma RecoveryFollowsDiagram(w: World, s: Step, j: JobId)
    requires Balanced(w) && s.Recover? && BothHave(w, s, j)
    ensures Diagram(w, s, j, w.db.jobs[j].status, Apply(w, s).db.jobs[j].status)
  {
    if j in s.expired { RecoveryLeaves(w, s, j); }
  }

  /** The states and transitions of a job, exactly: of every step of any worker, application or administrator, each
      change of status has the one cause that the diagram gives it, and each such cause has its effect. */
  lemma StatusFollowsDiagram(w: World, s: Step, j: JobId)
    requires Balanced(w) && BothHave(w, s, j)
    ensures Diagram(w, s, j, w.db.jobs[j].status, Apply(w, s).db.jobs[j].status)
  {
    assert JobBalances(w, j);
    if s.Complete? || s.Fail? {
      ResultFollowsDiagram(w, s, j);
    } else if s.Recover? {
      RecoveryFollowsDiagram(w, s, j);
    } else {
      SimpleFollowsDiagram(w, s, j);
    }
  }

  lemma SimpleFollowsDiagram(w: World, s: Step, j: JobId)
    requires !s.Complete? && !s.Fail? && !s.Recover? && BothHave(w, s, j) && (s.Insert? ==> s.id != j)
    ensures Diagram(w, s, j, w.db.jobs[j].status, Apply(w, s).db.jobs[j].status)
  {
  }

  // ---- the other columns ----

  predicate Timed(s: Step) { !s.Interrupt? && !s.End? }

  /** An extension that finds the row owned by the worker. */
  predicate Renews(r: Job, s: Step, j: JobId) {
    s.Extend? && s.job == j && r.status == Leased && r.lockedBy == Some(s.worker)
  }

  /** What a step may do to the columns of a row, and when: the rest never changes after the insert. */
  ghost predicate ColumnsMove(w: World, s: Step, j: JobId, r: Job, r': Job) {
    && r' == r.(status := r'.status, lockedBy := r'.lockedBy, lockedUntil := r'.lockedUntil, last := r'.last,
                attemptCount := r'.attemptCount, availableAt := r'.availableAt, completedAt := r'.completedAt,
                updatedAt := r'.updatedAt, replayedFrom := r'.replayedFrom)
    && r'.attemptCount == r.attemptCount + (if s.Claim? && j in s.ids then 1
                                            else if s.Return? && Lands(w, s, j) then -1 else 0)
    && r'.availableAt == (if Lands(w, s, j) && Retries(w, s) then s.now + 1_000_000 * s.delay else r.availableAt)
    && (if r.status.Live() && r'.status.Terminal() then Timed(s) && r'.completedAt == Some(s.now)
        else r'.completedAt == r.completedAt)
    && (r'.last != r.last ==> (Lands(w, s, j) && !s.Return?) || (s.Recover? && j in s.expired))
    && (r' != r && !s.Purge? ==> Timed(s) && r'.updatedAt == s.now)
    && r'.replayedFrom == (if s.Purge? && r.replayedFrom.Some? && r.replayedFrom.value in s.ids then None
                           else r.replayedFrom)
    && LeaseMoves(s, j, r, r')
  }

  /** The lease of a row: from its claim, renewed by its owner, none otherwise. */
  predicate LeaseMoves(s: Step, j: JobId, r: Job, r': Job) {
    if r'.status != Leased then r'.lockedBy == None && r'.lockedUntil == None
    else if s.Claim? && j in s.ids then
      r'.lockedBy == Some(s.worker) && r'.lockedUntil == Some(s.now + 1_000_000 * s.lease)
    else
      && r'.lockedBy == r.lockedBy
      && r'.lockedUntil == if Renews(r, s, j) then Some(s.now + 1_000_000 * s.lease) else r.lockedUntil
  }

  lemma SuccessMovesColumns(w: World, s: Step)
    requires Balanced(w) && s.Complete? && BothHave(w, s, s.exec.job) && FenceOpen(w, s.exec)
    ensures ColumnsMove(w, s, s.exec.job, w.db.jobs[s.exec.job], Apply(w, s).db.jobs[s.exec.job])
  {
    SuccessLeaves(w, s);
  }

  lemma FailureMovesColumns(w: World, s: Step)
    requires Balanced(w) && s.Fail? && BothHave(w, s, s.exec.job) && FenceOpen(w, s.exec)
    ensures ColumnsMove(w, s, s.exec.job, w.db.jobs[s.exec.job], Apply(w, s).db.jobs[s.exec.job])
  {
    FailureLeaves(w, s);
  }

  lemma ResultMovesColumns(w: World, s: Step, j: JobId)
    requires Balanced(w) && (s.Complete? || s.Fail?) && BothHave(w, s, j)
    ensures ColumnsMove(w, s, j, w.db.jobs[j], Apply(w, s).db.jobs[j])
  {
    if s.exec.job != j || !FenceOpen(w, s.exec) {
      assert JobBalances(w, j);
      OtherRowStays(w, s, j);
    } else if s.Complete? {
      SuccessMovesColumns(w, s);
    } else {
      FailureMovesColumns(w, s);
    }
  }

  lemma RecoveryMovesColumns(w: World, s: Step, j: JobId)
    requires Balanced(w) && s.Recover? && BothHave(w, s, j)
    ensures ColumnsMove(w, s, j, w.db.jobs[j], Apply(w, s).db.jobs[j])
  {
    assert JobBalances(w, j);
    if j in s.expired { RecoveryLeaves(w, s, j); }
  }

  lemma ClaimLeaves(w: World, s: Step, j: JobId)
    requires s.Claim? && BothHave(w, s, j)
    ensures var r := w.db.jobs[j];
            Apply(w, s).db.jobs[j] == if j !in s.ids then r else
              r.(status := Leased, lockedBy := Some(s.worker), lockedUntil := Some(s.now + 1_000_000 * s.lease),
                 attemptCount := r.attemptCount + 1, updatedAt := s.now)
    ensures j in s.ids ==> w.db.jobs[j].status == Pending
  {
  }

  lemma ClaimMovesColumns(w: World, s: Step, j: JobId)
    requires Balanced(w) && s.Claim? && BothHave(w, s, j)
    ensures ColumnsMove(w, s, j, w.db.jobs[j], Apply(w, s).db.jobs[j])
  {
    ClaimLeaves(w, s, j);
    assert JobBalances(w, j);
    ClaimMovesRow(w, s, j, w.db.jobs[j], Apply(w, s).db.jobs[j]);
  }

  lemma ClaimMovesRow(w: World, s: Step, j: JobId, r: Job, r': Job)
    requires s.Claim? && (r.status != Leased ==> r.lockedBy == None && r.lockedUntil == None)
    requires r' == if j !in s.ids then r else
                     r.(status := Leased, lockedBy := Some(s.worker), lockedUntil := Some(s.now + 1_000_000 * s.lease),
                        attemptCount := r.attemptCount + 1, updatedAt := s.now)
    ensures ColumnsMove(w, s, j, r, r')
  {
  }

  lemma RenewalMovesColumns(w: World, s: Step, j: JobId)
    requires Balanced(w) && s.Extend? && BothHave(w, s, j)
    ensures ColumnsMove(w, s, j, w.db.jobs[j], Apply(w, s).db.jobs[j])
  {
    assert JobBalances(w, j);
  }

  lemma ReturnMovesColumns(w: World, s: Step, j: JobId)
    requires Balanced(w) && s.Return? && BothHave(w, s, j)
    ensures ColumnsMove(w, s, j, w.db.jobs[j], Apply(w, s).db.jobs[j])
  {
    assert JobBalances(w, j);
  }

  lemma OthersMoveColumns(w: World, s: Step, j: JobId)
    requires Balanced(w) && BothHave(w, s, j)
    requires s.Insert? || s.Interrupt? || s.End? || s.Cancel? || s.Purge? || s.Configure?
    ensures ColumnsMove(w, s, j, w.db.jobs[j], Apply(w, s).db.jobs[j])
  {
    assert JobBalances(w, j);
  }

  /** Column by column, of every step: queue, work, priority, max_attempts, key and created_at never change;
      available_at only by a retry; attempt_count by a claim or a return only; completed_at is the time of the step that
      made the job terminal; a lease comes from a claim, is renewed by its owner and ends with the leased status; the
      replay reference is cleared exactly when its job is purged; and a changed row carries the time of the change. */
  lemma StepMovesColumns(w: World, s: Step, j: JobId)
    requires Balanced(w) && BothHave(w, s, j)
    ensures ColumnsMove(w, s, j, w.db.jobs[j], Apply(w, s).db.jobs[j])
  {
    if s.Complete? || s.Fail? {
      ResultMovesColumns(w, s, j);
    } else if s.Recover? {
      RecoveryMovesColumns(w, s, j);
    } else if s.Claim? {
      ClaimMovesColumns(w, s, j);
    } else if s.Extend? {
      RenewalMovesColumns(w, s, j);
    } else if s.Return? {
      ReturnMovesColumns(w, s, j);
    } else {
      OthersMoveColumns(w, s, j);
    }
  }

  // ---- over whole runs ----

  /** No claim of the run takes j. */
  predicate NeverClaimed(run: seq<Step>, j: JobId) { forall i | 0 <= i < |run| && run[i].Claim? :: j !in run[i].ids }

  lemma {:induction false} GoneIsNotClaimed(w: World, run: seq<Step>, j: JobId)
    requires Ledger(w) && LegalRun(w, run) && (j in w.hist.grave || (j in w.db.jobs && w.db.jobs[j].status.Terminal()))
    requires Balanced(w)
    ensures NeverClaimed(run, j)
    decreases |run|
  {
    if run != [] {
      StepKeepsBalance(w, run[0]);
      StepKeepsLedger(w, run[0]);
      if j in w.hist.grave { GraveStep(w, run[0], j); } else { TerminalStep(w, run[0], j); }
      GoneIsNotClaimed(Apply(w, run[0]), run[1..], j);
      assert run[0].Claim? ==> j !in run[0].ids;
      assert forall i | 0 < i < |run| :: run[i] == run[1..][i - 1];
    }
  }

  /** A failure that is permanent, or the last attempt's, is final: in every further run the job is not claimed again,
      and while its row is there it is dead-lettered since the failure. */
  lemma FinalFailureIsFinal(w: World, fail: Step, v: World, run: seq<Step>)
    requires Balanced(w) && Ledger(w) && fail.Fail? && Legal(w, fail) && FenceOpen(w, fail.exec)
    requires var row := w.execs[fail.exec].row; !fail.retryable || row.attemptCount >= row.maxAttempts
    requires v == Apply(w, fail) && LegalRun(v, run)
    ensures NeverClaimed(run, fail.exec.job)
    ensures var j := fail.exec.job;
            j in After(v, run).db.jobs ==>
              After(v, run).db.jobs[j].status == DeadLetter && After(v, run).db.jobs[j].completedAt == Some(fail.now)
  {
    FailureLeaves(w, fail);
    StepKeepsBalance(w, fail);
    StepKeepsLedger(w, fail);
    GoneIsNotClaimed(v, run, fail.exec.job);
    TerminalIsAbsorbing(v, run, fail.exec.job);
  }

  lemma SuccessIsFinal(w: World, success: Step, v: World, run: seq<Step>)
    requires Balanced(w) && Ledger(w) && success.Complete? && Legal(w, success) && FenceOpen(w, success.exec)
    requires v == Apply(w, success) && LegalRun(v, run)
    ensures NeverClaimed(run, success.exec.job)
    ensures var j := success.exec.job;
            j in After(v, run).db.jobs ==>
              After(v, run).db.jobs[j].status == Succeeded && After(v, run).db.jobs[j].completedAt == Some(success.now)
  {
    SuccessLeaves(w, success);
    StepKeepsBalance(w, success);
    StepKeepsLedger(w, success);
    GoneIsNotClaimed(v, run, success.exec.job);
    TerminalIsAbsorbing(v, run, success.exec.job);
  }

  // ---- what an enqueue leaves ----

  /** A created row carries what was asked for; it is available at the asked time, or at once when none was given. */
  lemma CreatedAsAsked(w: World, s: Step)
    requires s.Insert? && Legal(w, s) && !Conflicts(w.db, s.ask)
    ensures s.id in Apply(w, s).db.jobs && s.ask.queue in Apply(w, s).db.queues
    ensures var r, ask := Apply(w, s).db.jobs[s.id], s.ask;
            && r.queue == ask.queue && r.work == ask.work && r.priority == ask.priority
            && r.maxAttempts == ask.maxAttempts && r.key == ask.key && r.replayedFrom == ask.replayedFrom
            && r.availableAt == (match ask.availableAt case Some(t) => t case None => s.now)
            && r.status == Pending && r.attemptCount == 0 && r.lockedBy == None && r.lockedUntil == None
            && r.last == Diagnosis(None, None, None) && r.completedAt == None
            && r.createdAt == s.now && r.updatedAt == s.now
            && (r.work.kind == "http" || r.work.kind == "handler") && r.maxAttempts >= 1
  {
  }

  /** A replay starts over with its source's columns, at once, under the key that names the source. */
  lemma ReplayStartsOver(w: World, s: Step, source: JobId)
    requires s.Insert? && Legal(w, s) && !Conflicts(w.db, s.ask) && s.ask.replayedFrom == Some(source)
    ensures source in w.db.jobs && s.id in Apply(w, s).db.jobs
    ensures var from, r := w.db.jobs[source], Apply(w, s).db.jobs[s.id];
            && (from.status == Succeeded || from.status == DeadLetter || from.status == Cancelled)
            && r.queue == from.queue && r.work == from.work && r.priority == from.priority
            && r.maxAttempts == from.maxAttempts && r.key == Some("replay:" + source) && r.replayedFrom == Some(source)
            && r.availableAt == s.now && r.status == Pending && r.attemptCount == 0
  {
    CreatedAsAsked(w, s);
  }

  /** A scheduled job waits: no claim of it before its first failure has a transaction time before the asked time. */
  lemma ScheduledJobWaits(w: World, insert: Step, v: World, run: seq<Step>, i: nat, t: Time)
    requires insert.Insert? && Legal(w, insert) && !Conflicts(w.db, insert.ask) && insert.ask.availableAt == Some(t)
    requires v == Apply(w, insert) && LegalRun(v, run)
    requires i < |run| && run[i].Claim? && insert.id in run[i].ids
    requires forall k | 0 <= k < i :: !(run[k].Fail? && run[k].exec.job == insert.id)
    ensures run[i].now >= t
  {
    CreatedAsAsked(w, insert);
    NoClaimBefore(v, run, i, insert.id, t);
  }
}

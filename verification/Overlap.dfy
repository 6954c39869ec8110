// Runs without assumption H1: a worker re-claims a job whose earlier execution it has not finished.
module Overlap {
  import opened Rows
  import opened Statements
  import opened Protocol
  import Fence
  import Fidelity
  import Reclaim

  const ASK := Ask("q", Work("handler", "n", "{}", "{}", "{}", 30, None, None), 0, 2, None, None, None)
  const REPORT := Report(0, Diagnosis(None, None, None), None)

  /** Insert with two attempts; claim; the lease expires and is recovered; the same worker claims again; then the
      first execution fails with a retryable error and passes the fence of the second lease. */
  const SUBMIT := Insert("j", ASK, 0)
  const FIRST_CLAIM := Claim("w", {"j"}, 0, 5)
  const EXPIRE := Recover(["j"], Seconds(6))
  const SECOND_CLAIM := Claim("w", {"j"}, Seconds(6), 5)
  const STALE_FAILURE := Fail(ExecId("j", 1), Seconds(7), true, false, 2, REPORT)

  const RUN: seq<Step> := [SUBMIT] + ([FIRST_CLAIM] + ([EXPIRE] + ([SECOND_CLAIM] + ([STALE_FAILURE] + []))))

  const FRESH := NewRow(ASK, 0)
  const LEASED_ONCE := LeasedRow(FRESH, "w", 0, 5)
  const RECOVERED := RecoveredRow(LEASED_ONCE, Seconds(6))
  const LEASED_TWICE := LeasedRow(RECOVERED, "w", Seconds(6), 5)

  lemma OneRowLeased(db: Db, j: JobId, r: Job, now: Time)
    requires db.jobs == map[j := r]
    ensures ClaimRows(db, {j}, "w", now, 5) == db.(jobs := map[j := LeasedRow(r, "w", now, 5)])
  {
  }

  lemma OneExec(w: World, j: JobId, r: Job, now: Time)
    requires j in w.db.jobs && w.db.jobs[j] == r
    ensures NewExecs(w, {j}, "w", now, 5)
         == map[ExecId(j, Count(w.hist.claims, j) + 1) := Exec("w", LeasedRow(r, "w", now, 5), Running, 0)]
  {
  }

  lemma OneMoreClaim(w: World, j: JobId)
    requires j in w.db.jobs
    ensures Count(ClaimHistory(w, {j}, "w").claims, j) == Count(w.hist.claims, j) + 1
  {
  }

  /** Claiming the one job of the table. */
  lemma OneClaim(w: World, j: JobId, r: Job, now: Time)
    requires w.db.jobs == map[j := r] && Ready(r, now)
    ensures Legal(w, Claim("w", {j}, now, 5))
    ensures var v, e := Apply(w, Claim("w", {j}, now, 5)), ExecId(j, Count(w.hist.claims, j) + 1);
            && v.db == w.db.(jobs := map[j := LeasedRow(r, "w", now, 5)])
            && v.execs == w.execs + map[e := Exec("w", LeasedRow(r, "w", now, 5), Running, 0)]
            && Count(v.hist.claims, j) == Count(w.hist.claims, j) + 1
  {
    assert w.db.jobs.Keys == {j} && w.db.jobs[j] == r;
    OneRowLeased(w.db, j, r, now);
    OneExec(w, j, r, now);
    OneMoreClaim(w, j);
  }

  lemma Submitted() returns (w: World)
    ensures Legal(EMPTY, SUBMIT) && w == Apply(EMPTY, SUBMIT)
    ensures w.db.jobs == map["j" := FRESH] && w.db.log == []
    ensures w.execs == map[] && w.hist.claims == map[]
  {
    w := Apply(EMPTY, SUBMIT);
  }

  lemma ClaimedOnce(w: World) returns (v: World)
    requires w.db.jobs == map["j" := FRESH] && w.db.log == []
    requires w.execs == map[] && w.hist.claims == map[]
    ensures Legal(w, FIRST_CLAIM) && v == Apply(w, FIRST_CLAIM)
    ensures v.db.jobs == map["j" := LEASED_ONCE] && v.db.queues == w.db.queues && v.db.log == []
    ensures v.execs == map[ExecId("j", 1) := Exec("w", LEASED_ONCE, Running, 0)] && Count(v.hist.claims, "j") == 1
  {
    OneClaim(w, "j", FRESH, 0);
    v := Apply(w, FIRST_CLAIM);
  }

  lemma RecoveredOnce(w: World) returns (v: World)
    requires w.db.jobs == map["j" := LEASED_ONCE] && w.db.log == []
    ensures Legal(w, EXPIRE) && v == Apply(w, EXPIRE)
    ensures v.db.jobs == map["j" := RECOVERED] && v.db.queues == w.db.queues
    ensures v.db.log == [ExpiredAttempt("j", LEASED_ONCE, Seconds(6))]
    ensures v.execs == w.execs && v.hist == w.hist
  {
    assert Expired(LEASED_ONCE, Seconds(6));
    assert ["j"][..0] == [];
    assert ExpiredAttempts(w.db.jobs, ["j"], Seconds(6)) == [] + [ExpiredAttempt("j", LEASED_ONCE, Seconds(6))];
    v := Apply(w, EXPIRE);
  }

  lemma ClaimedTwice(w: World) returns (v: World)
    requires w.db.jobs == map["j" := RECOVERED]
    requires w.execs == map[ExecId("j", 1) := Exec("w", LEASED_ONCE, Running, 0)] && Count(w.hist.claims, "j") == 1
    ensures Legal(w, SECOND_CLAIM) && v == Apply(w, SECOND_CLAIM)
    ensures v.db.jobs == map["j" := LEASED_TWICE] && v.db.log == w.db.log
    ensures ExecId("j", 1) in v.execs && v.execs[ExecId("j", 1)] == Exec("w", LEASED_ONCE, Running, 0)
    ensures ExecId("j", 2) in v.execs && v.execs[ExecId("j", 2)] == Exec("w", LEASED_TWICE, Running, 0)
    ensures Count(v.hist.claims, "j") == 2
  {
    assert RECOVERED.status == Pending && RECOVERED.attemptCount == 1 && RECOVERED.availableAt == 0;
    OneClaim(w, "j", RECOVERED, Seconds(6));
    v := Apply(w, SECOND_CLAIM);
  }

  lemma FailedStale(w: World) returns (v: World)
    requires w.db.jobs == map["j" := LEASED_TWICE] && w.db.log == [ExpiredAttempt("j", LEASED_ONCE, Seconds(6))]
    requires ExecId("j", 1) in w.execs && w.execs[ExecId("j", 1)] == Exec("w", LEASED_ONCE, Running, 0)
    ensures Legal(w, STALE_FAILURE) && v == Apply(w, STALE_FAILURE)
    ensures "j" in v.db.jobs && v.db.jobs["j"].status == Pending
    ensures v.db.jobs["j"].attemptCount == 2 == v.db.jobs["j"].maxAttempts
    ensures |v.db.log| == 2 && v.db.log[0].number == 1 && v.db.log[1].number == 1
  {
    assert LEASED_ONCE.attemptCount == 1 && LEASED_TWICE.attemptCount == 2;
    assert Owns(w.db, "j", "w");
    v := Apply(w, STALE_FAILURE);
    Fidelity.RecordOutcome(w, STALE_FAILURE);
  }

  /** Without H1 a pending job can be stuck for ever, and its log can hold two first attempts: the run is legal, and
      after it no time makes the job claimable. */
  lemma StuckWithoutH1()
    ensures LegalRun(EMPTY, RUN)
    ensures var w := After(EMPTY, RUN);
            && "j" in w.db.jobs && w.db.jobs["j"].status == Pending
            && (forall t: Time :: !Ready(w.db.jobs["j"], t))
            && |w.db.log| == 2 && w.db.log[0].number == 1 && w.db.log[1].number == 1
  {
    var w1 := Submitted();
    var w2 := ClaimedOnce(w1);
    var w3 := RecoveredOnce(w2);
    var w4 := ClaimedTwice(w3);
    var w5 := FailedStale(w4);
    RunCons(w4, STALE_FAILURE, []);
    RunCons(w3, SECOND_CLAIM, [STALE_FAILURE] + []);
    RunCons(w2, EXPIRE, [SECOND_CLAIM] + ([STALE_FAILURE] + []));
    RunCons(w1, FIRST_CLAIM, [EXPIRE] + ([SECOND_CLAIM] + ([STALE_FAILURE] + [])));
    RunCons(EMPTY, SUBMIT, [FIRST_CLAIM] + ([EXPIRE] + ([SECOND_CLAIM] + ([STALE_FAILURE] + []))));
  }

  // ---- two effects of one execution ----

  /** The first execution fails and is recorded; before its task has ended the same worker claims the job again; then
      the task is cancelled and gives the job back, through the fence of the second lease. */
  const FAILURE := Fail(ExecId("j", 1), Seconds(1), true, false, 2, REPORT)
  const RECLAIM := Claim("w", {"j"}, Seconds(6), 5)
  const CANCELLATION := Interrupt(ExecId("j", 1))
  const GIVE_BACK := Return(ExecId("j", 1), Seconds(7))

  const TWICE: seq<Step> :=
    [SUBMIT] + ([FIRST_CLAIM] + ([FAILURE] + ([RECLAIM] + ([CANCELLATION] + ([GIVE_BACK] + [])))))

  const RETRIED := FailedRow(LEASED_ONCE, true, Seconds(1), 2, REPORT)

  lemma OneRowFailed(db: Db, j: JobId, r: Job, now: Time)
    requires db.jobs == map[j := r] && Owns(db, j, "w") && 0 < r.attemptCount < r.maxAttempts
    ensures var db' := Statements.Fail(db, j, r, "w", now, true, false, 2, REPORT);
            db'.jobs == map[j := FailedRow(r, true, now, 2, REPORT)] && db'.queues == db.queues
  {
  }

  /** Failing the one job of the table. */
  lemma OneFailure(w: World, e: ExecId, r: Job, now: Time)
    requires w.db.jobs == map[e.job := r] && Owns(w.db, e.job, "w") && 0 < r.attemptCount < r.maxAttempts
    requires e in w.execs && w.execs[e] == Exec("w", r, Running, 0)
    ensures Legal(w, Fail(e, now, true, false, 2, REPORT))
    ensures var v := Apply(w, Fail(e, now, true, false, 2, REPORT));
            && v.db.jobs == map[e.job := FailedRow(r, true, now, 2, REPORT)] && v.db.queues == w.db.queues
            && v.hist == w.hist && e in v.execs && v.execs[e] == Exec("w", r, Recorded, 1)
  {
    OneRowFailed(w.db, e.job, r, now);
  }

  lemma FailedFirst(w: World) returns (v: World)
    requires w.db.jobs == map["j" := LEASED_ONCE]
    requires w.execs == map[ExecId("j", 1) := Exec("w", LEASED_ONCE, Running, 0)] && Count(w.hist.claims, "j") == 1
    ensures Legal(w, FAILURE) && v == Apply(w, FAILURE)
    ensures v.db.jobs == map["j" := RETRIED] && v.db.queues == w.db.queues && v.hist == w.hist
    ensures ExecId("j", 1) in v.execs && v.execs[ExecId("j", 1)] == Exec("w", LEASED_ONCE, Recorded, 1)
  {
    assert LEASED_ONCE.attemptCount == 1 && LEASED_ONCE.maxAttempts == 2;
    OneFailure(w, ExecId("j", 1), LEASED_ONCE, Seconds(1));
    v := Apply(w, FAILURE);
  }

  lemma Reclaimed(w: World) returns (v: World)
    requires w.db.jobs == map["j" := RETRIED]
    requires ExecId("j", 1) in w.execs && w.execs[ExecId("j", 1)] == Exec("w", LEASED_ONCE, Recorded, 1)
    requires Count(w.hist.claims, "j") == 1
    ensures Legal(w, RECLAIM) && v == Apply(w, RECLAIM)
    ensures Owns(v.db, "j", "w")
    ensures ExecId("j", 1) in v.execs && v.execs[ExecId("j", 1)] == Exec("w", LEASED_ONCE, Recorded, 1)
  {
    assert RETRIED.status == Pending && RETRIED.attemptCount == 1 && RETRIED.availableAt == Seconds(3);
    OneClaim(w, "j", RETRIED, Seconds(6));
    v := Apply(w, RECLAIM);
  }

  lemma GivenBack(w: World) returns (v: World, u: World)
    requires Owns(w.db, "j", "w")
    requires ExecId("j", 1) in w.execs && w.execs[ExecId("j", 1)] == Exec("w", LEASED_ONCE, Recorded, 1)
    ensures Legal(w, CANCELLATION) && v == Apply(w, CANCELLATION) && Legal(v, GIVE_BACK) && u == Apply(v, GIVE_BACK)
    ensures ExecId("j", 1) in u.execs && u.execs[ExecId("j", 1)].effects == 2
  {
    v := Apply(w, CANCELLATION);
    u := Apply(v, GIVE_BACK);
  }

  /** Without H1 one execution can take effect twice. */
  lemma TwoEffectsWithoutH1()
    ensures LegalRun(EMPTY, TWICE)
    ensures ExecId("j", 1) in After(EMPTY, TWICE).execs && After(EMPTY, TWICE).execs[ExecId("j", 1)].effects == 2
  {
    var w1 := Submitted();
    var w2 := ClaimedOnce(w1);
    var w3 := FailedFirst(w2);
    var w4 := Reclaimed(w3);
    var w5, w6 := GivenBack(w4);
    RunCons(w5, GIVE_BACK, []);
    RunCons(w4, CANCELLATION, [GIVE_BACK] + []);
    RunCons(w3, RECLAIM, [CANCELLATION] + ([GIVE_BACK] + []));
    RunCons(w2, FAILURE, [RECLAIM] + ([CANCELLATION] + ([GIVE_BACK] + [])));
    RunCons(w1, FIRST_CLAIM, [FAILURE] + ([RECLAIM] + ([CANCELLATION] + ([GIVE_BACK] + []))));
    RunCons(EMPTY, SUBMIT, [FIRST_CLAIM] + ([FAILURE] + ([RECLAIM] + ([CANCELLATION] + ([GIVE_BACK] + [])))));
  }

  // ---- a result recorded on the lease of a later claim ----

  /** As in RUN, two executions are live. The first is cancelled, because its heartbeat was lost, and gives
      the second lease back; the same worker claims a third time; then the second execution, which has lost its lease,
      completes through the fence of the third. */
  const LOST := Interrupt(ExecId("j", 1))
  const LATE_RETURN := Return(ExecId("j", 1), Seconds(7))
  const THIRD_CLAIM := Claim("w", {"j"}, Seconds(8), 5)
  const FOREIGN_SUCCESS := Complete(ExecId("j", 2), Seconds(9), REPORT)

  const FOREIGN: seq<Step> :=
    [SUBMIT] + ([FIRST_CLAIM] + ([EXPIRE] + ([SECOND_CLAIM] + ([LOST] + ([LATE_RETURN] + ([THIRD_CLAIM] + []))))))

  const GIVEN_BACK := Released(LEASED_TWICE, Seconds(7))
  const LEASED_AGAIN := LeasedRow(GIVEN_BACK, "w", Seconds(8), 5)

  lemma LateReturned(w: World) returns (v: World, u: World)
    requires w.db.jobs == map["j" := LEASED_TWICE] && Count(w.hist.claims, "j") == 2
    requires ExecId("j", 1) in w.execs && w.execs[ExecId("j", 1)] == Exec("w", LEASED_ONCE, Running, 0)
    requires ExecId("j", 2) in w.execs && w.execs[ExecId("j", 2)] == Exec("w", LEASED_TWICE, Running, 0)
    ensures Legal(w, LOST) && v == Apply(w, LOST) && Legal(v, LATE_RETURN) && u == Apply(v, LATE_RETURN)
    ensures u.db.jobs == map["j" := GIVEN_BACK] && Count(u.hist.claims, "j") == 2
    ensures ExecId("j", 2) in u.execs && u.execs[ExecId("j", 2)] == Exec("w", LEASED_TWICE, Running, 0)
  {
    v := Apply(w, LOST);
    assert Owns(v.db, "j", "w");
    u := Apply(v, LATE_RETURN);
  }

  lemma ClaimedThrice(w: World) returns (v: World)
    requires w.db.jobs == map["j" := GIVEN_BACK] && Count(w.hist.claims, "j") == 2
    requires ExecId("j", 2) in w.execs && w.execs[ExecId("j", 2)] == Exec("w", LEASED_TWICE, Running, 0)
    ensures Legal(w, THIRD_CLAIM) && v == Apply(w, THIRD_CLAIM)
    ensures v.db.jobs == map["j" := LEASED_AGAIN] && Count(v.hist.claims, "j") == 3
    ensures ExecId("j", 2) in v.execs && v.execs[ExecId("j", 2)] == Exec("w", LEASED_TWICE, Running, 0)
  {
    assert GIVEN_BACK.status == Pending && GIVEN_BACK.attemptCount == 1 && GIVEN_BACK.availableAt == 0;
    OneClaim(w, "j", GIVEN_BACK, Seconds(8));
    v := Apply(w, THIRD_CLAIM);
  }

  lemma CompletedForeign(w: World)
    requires w.db.jobs == map["j" := LEASED_AGAIN]
    requires ExecId("j", 2) in w.execs && w.execs[ExecId("j", 2)] == Exec("w", LEASED_TWICE, Running, 0)
    ensures Legal(w, FOREIGN_SUCCESS) && Fence.TakesEffect(w, FOREIGN_SUCCESS, ExecId("j", 2))
    ensures !Reclaim.StaleRecord(w, FOREIGN_SUCCESS, "j")
    ensures var v := Apply(w, FOREIGN_SUCCESS);
            && "j" in v.db.jobs && v.db.jobs["j"].status == Succeeded
            && ExecId("j", 2) in v.execs && v.execs[ExecId("j", 2)].effects == 1
  {
    assert LEASED_TWICE.attemptCount == 2 && LEASED_AGAIN.attemptCount == 2;
    assert Owns(w.db, "j", "w");
  }

  /** Without H1 an execution can record its result although it has lost its lease: the second execution completes the
      third claim of the job. The step is its first effect and numbers its attempt correctly. */
  lemma ForeignResultWithoutH1()
    ensures LegalRun(EMPTY, FOREIGN)
    ensures var w := After(EMPTY, FOREIGN);
            && Legal(w, FOREIGN_SUCCESS) && Fence.TakesEffect(w, FOREIGN_SUCCESS, ExecId("j", 2))
            && Count(w.hist.claims, "j") == 3 && !Reclaim.StaleRecord(w, FOREIGN_SUCCESS, "j")
            && var v := Apply(w, FOREIGN_SUCCESS);
               && "j" in v.db.jobs && v.db.jobs["j"].status == Succeeded
               && ExecId("j", 2) in v.execs && v.execs[ExecId("j", 2)].effects == 1
  {
    var w1 := Submitted();
    var w2 := ClaimedOnce(w1);
    var w3 := RecoveredOnce(w2);
    var w4 := ClaimedTwice(w3);
    var w5, w6 := LateReturned(w4);
    var w7 := ClaimedThrice(w6);
    CompletedForeign(w7);
    RunCons(w6, THIRD_CLAIM, []);
    RunCons(w5, LATE_RETURN, [THIRD_CLAIM] + []);
    RunCons(w4, LOST, [LATE_RETURN] + ([THIRD_CLAIM] + []));
    RunCons(w3, SECOND_CLAIM, [LOST] + ([LATE_RETURN] + ([THIRD_CLAIM] + [])));
    RunCons(w2, EXPIRE, [SECOND_CLAIM] + ([LOST] + ([LATE_RETURN] + ([THIRD_CLAIM] + []))));
    RunCons(w1, FIRST_CLAIM, [EXPIRE] + ([SECOND_CLAIM] + ([LOST] + ([LATE_RETURN] + ([THIRD_CLAIM] + [])))));
    RunCons(EMPTY, SUBMIT,
            [FIRST_CLAIM] + ([EXPIRE] + ([SECOND_CLAIM] + ([LOST] + ([LATE_RETURN] + ([THIRD_CLAIM] + []))))));
  }
}

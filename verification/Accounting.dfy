// What every step keeps whether or not a worker overlaps with itself: lease columns, completion time, the bounds of
// attempt_count and its balance with the attempt table.
module Accounting {
  import opened Rows
  import opened Statements
  import opened Protocol

  function Held(r: Job): nat { if r.status == Leased then 1 else 0 }

  /** One row against the number of its attempt rows, of its claims and of the claims rolled back. */
  predicate RowBalances(r: Job, attempts: nat, claims: nat, undone: nat) {
    && r.maxAttempts > 0
    && (r.status == Leased <==> r.lockedBy.Some?)
    && (r.status == Leased <==> r.lockedUntil.Some?)
    && (r.status.Terminal() <==> r.completedAt.Some?)
    && attempts + Held(r) == r.attemptCount == claims - undone
    && r.attemptCount <= r.maxAttempts
  }

  ghost predicate JobBalances(w: World, j: JobId)
    requires j in w.db.jobs
  {
    && RowBalances(w.db.jobs[j], |RowsOf(w.db.log, j)|, Count(w.hist.claims, j), Count(w.hist.undone, j))
    && w.db.jobs[j].queue in w.db.queues
    && j in w.hist.birth
  }

  predicate ExecKnown(w: World, e: ExecId)
    requires e in w.execs
  {
    && Loggable(w.execs[e].row)
    && e.claim <= Count(w.hist.claims, e.job)
    && e.job in w.hist.birth
  }

  ghost predicate JobsBalance(w: World) { forall j | j in w.db.jobs :: JobBalances(w, j) }

  ghost predicate ExecsKnown(w: World) { forall e | e in w.execs :: ExecKnown(w, e) }

  predicate LogGrounded(db: Db) { forall i | 0 <= i < |db.log| :: db.log[i].job in db.jobs }

  ghost predicate Balanced(w: World) {
    && JobsBalance(w)
    && ExecsKnown(w)
    && LogGrounded(w.db)
    && w.hist.claims.Keys <= w.hist.birth.Keys && w.hist.undone.Keys <= w.hist.birth.Keys
  }

  /** v differs from w in one row, in attempt rows of that job and in how often a claim of it was undone. */
  ghost predicate OneRow(w: World, v: World, j: JobId, extra: seq<Attempt>) {
    && j in w.db.jobs && v.db.jobs.Keys == w.db.jobs.Keys
    && (forall k | k in w.db.jobs && k != j :: v.db.jobs[k] == w.db.jobs[k])
    && v.db.log == w.db.log + extra && |extra| <= 1 && (forall i | 0 <= i < |extra| :: extra[i].job == j)
    && v.db.jobs[j].queue == w.db.jobs[j].queue && v.db.queues == w.db.queues
    && v.hist.birth == w.hist.birth && v.hist.claims == w.hist.claims
    && (forall k | k != j :: Count(v.hist.undone, k) == Count(w.hist.undone, k))
    && v.hist.undone.Keys <= w.hist.undone.Keys + {j}
    && v.execs.Keys == w.execs.Keys && (forall e | e in w.execs :: v.execs[e].row == w.execs[e].row)
  }

  lemma OneRowKeepsOthers(w: World, v: World, j: JobId, extra: seq<Attempt>, k: JobId)
    requires OneRow(w, v, j, extra) && k in w.db.jobs && JobBalances(w, k)
    requires k == j ==>
      RowBalances(v.db.jobs[j], |RowsOf(w.db.log, j)| + |extra|, Count(w.hist.claims, j), Count(v.hist.undone, j))
    ensures JobBalances(v, k)
  {
    RowsOfConcat(w.db.log, extra, k);
    RowsOfOne(extra, j, k);
  }

  lemma OneRowKeepsBalance(w: World, v: World, j: JobId, extra: seq<Attempt>)
    requires Balanced(w) && OneRow(w, v, j, extra)
    requires RowBalances(v.db.jobs[j], |RowsOf(w.db.log, j)| + |extra|, Count(w.hist.claims, j),
                         Count(v.hist.undone, j))
    ensures Balanced(v)
  {
    assert JobBalances(w, j);
    forall k | k in v.db.jobs ensures JobBalances(v, k) { OneRowKeepsOthers(w, v, j, extra, k); }
    KnownExecsStay(w, v);
    assert LogGrounded(v.db);
  }

  lemma ClaimKeepsBalance(w: World, s: Step)
    requires Balanced(w) && s.Claim? && Legal(w, s)
    ensures Balanced(Apply(w, s))
  {
    var v := Apply(w, s);
    forall j | j in v.db.jobs ensures JobBalances(v, j) { assert JobBalances(w, j); }
    forall e | e in v.execs ensures ExecKnown(v, e) {
      if e in w.execs && e !in NewExecs(w, s.ids, s.worker, s.now, s.lease) {
        assert ExecKnown(w, e);
      } else {
        assert e.job in s.ids && JobBalances(w, e.job);
      }
    }
    assert forall j | j in s.ids :: JobBalances(w, j);
  }

  lemma RecoverKeepsJob(w: World, s: Step, j: JobId)
    requires Balanced(w) && s.Recover? && Legal(w, s) && j in w.db.jobs
    ensures JobBalances(Apply(w, s), j)
  {
    assert JobBalances(w, j);
    RecoverRowsOf(w.db, s.expired, s.now, j);
  }

  lemma RecoverKeepsBalance(w: World, s: Step)
    requires Balanced(w) && s.Recover? && Legal(w, s)
    ensures Balanced(Apply(w, s))
  {
    var v := Apply(w, s);
    forall j | j in v.db.jobs ensures JobBalances(v, j) { RecoverKeepsJob(w, s, j); }
    ExpiredAttemptsJobs(w.db.jobs, s.expired, s.now);
    assert LogGrounded(v.db);
    KnownExecsStay(w, v);
  }

  lemma KnownExecsStay(w: World, v: World)
    requires ExecsKnown(w) && v.execs.Keys == w.execs.Keys && v.hist.claims == w.hist.claims
    requires forall e | e in w.execs :: v.execs[e].row == w.execs[e].row
    requires w.hist.birth.Keys <= v.hist.birth.Keys
    ensures ExecsKnown(v)
  {
    forall e | e in v.execs ensures ExecKnown(v, e) { assert ExecKnown(w, e); }
  }

  lemma PurgeKeepsBalance(w: World, s: Step)
    requires Balanced(w) && s.Purge? && Legal(w, s)
    ensures Balanced(Apply(w, s))
  {
    var v := Apply(w, s);
    forall j | j in v.db.jobs ensures JobBalances(v, j) {
      assert JobBalances(w, j);
      RowsOfCascade(w.db.log, s.ids, j);
    }
    CascadeKeeps(w.db.log, s.ids);
    KnownExecsStay(w, v);
  }

  lemma InsertKeepsOldJob(w: World, s: Step, j: JobId)
    requires s.Insert? && Legal(w, s) && j in w.db.jobs && JobBalances(w, j)
    ensures j in Apply(w, s).db.jobs && JobBalances(Apply(w, s), j)
  {
  }

  /** The rows and the history that an insert leaves. */
  lemma InsertAdds(w: World, s: Step)
    requires Legal(w, s) && s.Insert? && !Conflicts(w.db, s.ask)
    ensures var v := Apply(w, s);
            && v.db.jobs == w.db.jobs[s.id := NewRow(s.ask, s.now)]
            && v.hist == w.hist.(birth := w.hist.birth[s.id := |w.hist.birth|],
                                 inserted := Bump(w.hist.inserted, s.ask.queue))
            && v.db.log == w.db.log && s.ask.queue in v.db.queues
  {
  }

  lemma ConflictAddsNothing(w: World, s: Step)
    requires Legal(w, s) && s.Insert? && Conflicts(w.db, s.ask)
    ensures Apply(w, s).db.jobs == w.db.jobs && Apply(w, s).hist == w.hist
  {
  }

  lemma NewRowBalances(ask: Ask, now: Time)
    requires PassesChecks(ask)
    ensures RowBalances(NewRow(ask, now), 0, 0, 0)
  {
  }

  lemma InsertBalancesNewJob(w: World, s: Step, j: JobId)
    requires s.Insert? && Legal(w, s) && j !in w.db.jobs && j in Apply(w, s).db.jobs
    requires RowsOf(w.db.log, j) == []
    requires w.hist.claims.Keys <= w.hist.birth.Keys && w.hist.undone.Keys <= w.hist.birth.Keys
    ensures JobBalances(Apply(w, s), j)
  {
    if Conflicts(w.db, s.ask) {
      ConflictAddsNothing(w, s);
    } else {
      InsertAdds(w, s);
      NewRowBalances(s.ask, s.now);
    }
  }

  lemma InsertKeepsJob(w: World, s: Step, j: JobId)
    requires Balanced(w) && s.Insert? && Legal(w, s) && j in Apply(w, s).db.jobs
    ensures JobBalances(Apply(w, s), j)
  {
    if j in w.db.jobs {
      assert JobBalances(w, j);
      InsertKeepsOldJob(w, s, j);
    } else {
      RowsOfNone(w.db.log, j);
      InsertBalancesNewJob(w, s, j);
    }
  }

  lemma InsertKeepsBalance(w: World, s: Step)
    requires Balanced(w) && s.Insert? && Legal(w, s)
    ensures Balanced(Apply(w, s))
  {
    var v := Apply(w, s);
    forall j | j in v.db.jobs ensures JobBalances(v, j) { InsertKeepsJob(w, s, j); }
    assert w.hist.birth.Keys <= v.hist.birth.Keys;
    KnownExecsStay(w, v);
  }

  /** What a record does to its row, at the level of the tables. */
  lemma RecordedRowBalances(r: Job, r': Job, attempts: nat, claims: nat, undone: nat)
    requires RowBalances(r, attempts, claims, undone) && r.status == Leased
    requires r'.attemptCount == r.attemptCount && r'.maxAttempts == r.maxAttempts && r'.status != Leased
    requires r'.lockedBy.None? && r'.lockedUntil.None?
    requires r'.completedAt.Some? <==> r'.status.Terminal()
    ensures RowBalances(r', attempts + 1, claims, undone)
  {
  }

  lemma RecordBalancesRow(w: World, s: Step)
    requires Balanced(w) && (s.Complete? || s.Fail?) && Legal(w, s) && FenceOpen(w, s.exec)
              && Loggable(w.execs[s.exec].row)
    ensures var v, j := Apply(w, s), s.exec.job;
            && |v.db.log| == |w.db.log| + 1 && OneRow(w, v, j, [v.db.log[|w.db.log|]])
            && RowBalances(v.db.jobs[j], |RowsOf(w.db.log, j)| + 1, Count(w.hist.claims, j), Count(v.hist.undone, j))
  {
    var j := s.exec.job;
    assert JobBalances(w, j);
    RecordedRowBalances(w.db.jobs[j], Apply(w, s).db.jobs[j], |RowsOf(w.db.log, j)|, Count(w.hist.claims, j),
                        Count(w.hist.undone, j));
  }

  lemma RecordKeepsBalance(w: World, s: Step)
    requires Balanced(w) && (s.Complete? || s.Fail?) && Legal(w, s)
    ensures Balanced(Apply(w, s))
  {
    var v, e := Apply(w, s), s.exec;
    assert ExecKnown(w, e);
    if FenceOpen(w, e) {
      RecordBalancesRow(w, s);
      OneRowKeepsBalance(w, v, e.job, [v.db.log[|w.db.log|]]);
    } else {
      NoRowKeepsBalance(w, v);
    }
  }

  lemma ReturnBalancesRow(w: World, s: Step)
    requires Balanced(w) && s.Return? && Legal(w, s) && FenceOpen(w, s.exec)
    ensures var v, j := Apply(w, s), s.exec.job;
            && OneRow(w, v, j, [])
            && RowBalances(v.db.jobs[j], |RowsOf(w.db.log, j)|, Count(w.hist.claims, j), Count(v.hist.undone, j))
  {
    assert JobBalances(w, s.exec.job);
  }

  lemma ReturnKeepsBalance(w: World, s: Step)
    requires Balanced(w) && s.Return? && Legal(w, s)
    ensures Balanced(Apply(w, s))
  {
    if FenceOpen(w, s.exec) {
      ReturnBalancesRow(w, s);
      OneRowKeepsBalance(w, Apply(w, s), s.exec.job, []);
    } else {
      NoRowKeepsBalance(w, Apply(w, s));
    }
  }

  lemma TouchBalancesRow(w: World, s: Step)
    requires Balanced(w) && (s.Extend? || s.Cancel?) && Legal(w, s) && s.job in w.db.jobs
    ensures var v, j := Apply(w, s), s.job;
            && OneRow(w, v, j, [])
            && RowBalances(v.db.jobs[j], |RowsOf(w.db.log, j)|, Count(w.hist.claims, j), Count(v.hist.undone, j))
  {
    assert JobBalances(w, s.job);
  }

  lemma TouchKeepsBalance(w: World, s: Step)
    requires Balanced(w) && (s.Extend? || s.Cancel?) && Legal(w, s)
    ensures Balanced(Apply(w, s))
  {
    if s.job in w.db.jobs {
      TouchBalancesRow(w, s);
      OneRowKeepsBalance(w, Apply(w, s), s.job, []);
    }
  }

  lemma NoRowKeepsBalance(w: World, v: World)
    requires Balanced(w) && v.db.jobs == w.db.jobs && v.db.log == w.db.log && v.hist == w.hist
    requires w.db.queues.Keys <= v.db.queues.Keys
    requires v.execs.Keys == w.execs.Keys && forall e | e in w.execs :: v.execs[e].row == w.execs[e].row
    ensures Balanced(v)
  {
    assert forall j | j in v.db.jobs :: JobBalances(w, j) ==> JobBalances(v, j);
    assert forall e | e in v.execs :: ExecKnown(w, e) ==> ExecKnown(v, e);
  }

  /** Every step keeps the balance, with no assumption about overlapping executions. */
  lemma StepKeepsBalance(w: World, s: Step)
    requires Balanced(w) && Legal(w, s)
    ensures Balanced(Apply(w, s))
  {
    match s
    case Insert(_, _, _) => InsertKeepsBalance(w, s);
    case Claim(_, _, _, _) => ClaimKeepsBalance(w, s);
    case Recover(_, _) => RecoverKeepsBalance(w, s);
    case Purge(_, _, _, _) => PurgeKeepsBalance(w, s);
    case Configure(_, _, _, _) => NoRowKeepsBalance(w, Apply(w, s));
    case Extend(_, _, _, _) => TouchKeepsBalance(w, s);
    case Cancel(_, _) => TouchKeepsBalance(w, s);
    case Complete(_, _, _) => RecordKeepsBalance(w, s);
    case Fail(_, _, _, _, _, _) => RecordKeepsBalance(w, s);
    case Return(_, _) => ReturnKeepsBalance(w, s);
    case Interrupt(_) => NoRowKeepsBalance(w, Apply(w, s));
    case End(_) => NoRowKeepsBalance(w, Apply(w, s));
  }

  lemma {:induction false} RunKeepsBalance(w: World, run: seq<Step>)
    requires Balanced(w) && LegalRun(w, run)
    ensures Balanced(After(w, run))
    decreases |run|
  {
    if run != [] {
      StepKeepsBalance(w, run[0]);
      RunKeepsBalance(Apply(w, run[0]), run[1..]);
    }
  }

  /** Attempt conservation over all runs from the empty schema: attempt rows plus the running attempt equal
      attempt_count, which equals claims minus effective returns and never passes max_attempts. */
  lemma AttemptConservation(run: seq<Step>, j: JobId)
    requires LegalRun(EMPTY, run) && j in After(EMPTY, run).db.jobs
    ensures var w := After(EMPTY, run);
            var r := w.db.jobs[j];
            && |RowsOf(w.db.log, j)| + Held(r) == r.attemptCount
            && r.attemptCount == Count(w.hist.claims, j) - Count(w.hist.undone, j)
            && r.attemptCount <= r.maxAttempts
            && (r.status == Leased <==> r.lockedBy.Some?) && (r.status == Leased <==> r.lockedUntil.Some?)
            && (r.status.Terminal() <==> r.completedAt.Some?)
  {
    RunKeepsBalance(EMPTY, run);
    assert JobBalances(After(EMPTY, run), j);
  }

  /** After any run the clamp GREATEST(attempt_count - 1, 0) does not fire, and an effective return exactly undoes its
      claim's increment. */
  lemma ReturnUndoesClaim(run: seq<Step>, e: ExecId, now: Time)
    requires LegalRun(EMPTY, run) && e in After(EMPTY, run).execs && FenceOpen(After(EMPTY, run), e)
    requires Legal(After(EMPTY, run), Return(e, now))
    ensures var w := After(EMPTY, run);
            var v := Apply(w, Return(e, now));
            && w.db.jobs[e.job].attemptCount > 0
            && v.db.jobs[e.job].attemptCount == w.db.jobs[e.job].attemptCount - 1
            && v.db.jobs[e.job].status == Pending && v.db.log == w.db.log
  {
    RunKeepsBalance(EMPTY, run);
    assert JobBalances(After(EMPTY, run), e.job);
  }

  /** Claiming a ready row and returning it leaves the row as it was, but for updated_at. */
  lemma ClaimThenReturnIsIdentity(db: Db, j: JobId, worker: WorkerId, now: Time, later: Time,
                                  lease: int)
    requires j in db.jobs && Ready(db.jobs[j], now) && db.jobs[j].attemptCount >= 0
    requires db.jobs[j].lockedBy.None? && db.jobs[j].lockedUntil.None?
    ensures var back := ReturnToPending(ClaimRows(db, {j}, worker, now, lease), j, worker, later);
            back == db.(jobs := db.jobs[j := db.jobs[j].(updatedAt := later)])
  {
    var back := ReturnToPending(ClaimRows(db, {j}, worker, now, lease), j, worker, later);
    assert back.jobs.Keys == db.jobs.Keys;
    assert back.jobs == db.jobs[j := db.jobs[j].(updatedAt := later)];
  }
}

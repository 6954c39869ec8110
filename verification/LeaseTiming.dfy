// Timed lease safety: an unbroken chain of renewals keeps recovery away from a job, in every run.
module LeaseTiming {
  import opened Rows
  import opened Statements
  import opened Protocol
  import opened Accounting
  import opened Heartbeat

  /** The transaction time of a step, for steps that have one. */
  function NowOf(s: Step): Option<Time> {
    if s.Interrupt? || s.End? then None else Some(s.now)
  }

  /** The moments at which the steps of a run commit: in order, and none before its transaction has started. Nothing
      orders the transaction times themselves. */
  ghost predicate Clocked(run: seq<Step>, at: seq<Time>) {
    && |at| == |run|
    && (forall i, k | 0 <= i < k < |at| :: at[i] <= at[k])
    && (forall i | 0 <= i < |run| :: NowOf(run[i]).Some? ==> NowOf(run[i]).value <= at[i])
  }

  /** A step by which the owner itself renews or gives up its lease. */
  ghost predicate WorkerStep(w: World, s: Step, j: JobId, worker: WorkerId) {
    || (s.Extend? && s.job == j && s.worker == worker)
    || ((s.Complete? || s.Fail? || s.Return?) && s.exec.job == j && s.exec in w.execs
        && w.execs[s.exec].worker == worker)
  }

  /** The worker's own transactions on the job, whether or not they match its row. */
  ghost function OwnRenewals(w: World, run: seq<Step>, at: seq<Time>, j: JobId, worker: WorkerId): seq<Renewal>
    requires LegalRun(w, run) && Clocked(run, at)
    decreases |run|
  {
    if run == [] then [] else
      ClockedTail(run, at);
      (if WorkerStep(w, run[0], j, worker) then [Renewal(run[0].now, at[0])] else [])
      + OwnRenewals(Apply(w, run[0]), run[1..], at[1..], j, worker)
  }

  /** The stretch of the run considered ends with one of them. */
  ghost predicate EndsWithOwnStep(w: World, run: seq<Step>, j: JobId, worker: WorkerId)
    requires LegalRun(w, run)
    decreases |run|
  {
    run != [] ==>
      if |run| == 1 then WorkerStep(w, run[0], j, worker) else EndsWithOwnStep(Apply(w, run[0]), run[1..], j, worker)
  }

  /** Every extension asks for the configured lease. */
  predicate SameLease(run: seq<Step>, j: JobId, lease: int) {
    forall i | 0 <= i < |run| :: run[i].Extend? && run[i].job == j ==> run[i].lease == lease
  }

  /** While the worker owns the job, no recovery takes it. */
  ghost predicate NeverTaken(w: World, run: seq<Step>, j: JobId, worker: WorkerId)
    requires LegalRun(w, run)
    decreases |run|
  {
    run != [] && Owns(w.db, j, worker) ==>
      && !(run[0].Recover? && j in run[0].expired)
      && NeverTaken(Apply(w, run[0]), run[1..], j, worker)
  }

  lemma ClockedTail(run: seq<Step>, at: seq<Time>)
    requires run != [] && Clocked(run, at)
    ensures Clocked(run[1..], at[1..])
  {
    assert forall i | 0 <= i < |run[1..]| :: run[1..][i] == run[i + 1] && at[1..][i] == at[i + 1];
  }

  lemma {:induction false} NextRenewalIsLater(w: World, run: seq<Step>, at: seq<Time>, j: JobId, worker: WorkerId)
    requires LegalRun(w, run) && Clocked(run, at) && run != [] && EndsWithOwnStep(w, run, j, worker)
    ensures OwnRenewals(w, run, at, j, worker) != [] && OwnRenewals(w, run, at, j, worker)[0].commit >= at[0]
    decreases |run|
  {
    if !WorkerStep(w, run[0], j, worker) {
      ClockedTail(run, at);
      NextRenewalIsLater(Apply(w, run[0]), run[1..], at[1..], j, worker);
      assert at[0] <= at[1];
    }
  }

  /** A step that is not the owner's leaves an unexpired lease as it is. */
  lemma OthersKeepLease(w: World, s: Step, j: JobId, worker: WorkerId, until: Time)
    requires Balanced(w) && Legal(w, s) && !WorkerStep(w, s, j, worker)
    requires Owns(w.db, j, worker) && w.db.jobs[j].lockedUntil == Some(until)
    requires s.Recover? ==> s.now <= until
    ensures Owns(Apply(w, s).db, j, worker) ==> Apply(w, s).db.jobs[j].lockedUntil == Some(until)
    ensures !(s.Recover? && j in s.expired)
  {
    assert JobBalances(w, j);
    if s.Claim? { assert j !in s.ids; }
  }

  /** An own step renews the lease from its transaction time, or gives it up. */
  lemma OwnStepRenews(w: World, s: Step, j: JobId, worker: WorkerId)
    requires Balanced(w) && Legal(w, s) && WorkerStep(w, s, j, worker) && Owns(w.db, j, worker)
    ensures Owns(Apply(w, s).db, j, worker) ==>
              s.Extend? && Apply(w, s).db.jobs[j].lockedUntil == Some(s.now + Seconds(s.lease))
  {
    if !s.Extend? { assert ExecKnown(w, s.exec); }
  }

  /** Timed lease safety: if each of the worker's transactions on the job commits within lease seconds of the
      transaction time of the one before (first the claim or extension that set the lease), then in whatever run they
      are embedded no recovery takes the job while the worker owns it. */
  lemma {:induction false} TimedLeaseSafety(w: World, run: seq<Step>, at: seq<Time>, j: JobId, worker: WorkerId,
                                            last: Time, lease: int)
    requires Balanced(w) && LegalRun(w, run) && Clocked(run, at) && SameLease(run, j, lease)
    requires Owns(w.db, j, worker) ==> w.db.jobs[j].lockedUntil == Some(last + Seconds(lease))
    requires EndsWithOwnStep(w, run, j, worker) && Chained(last, OwnRenewals(w, run, at, j, worker), lease)
    ensures NeverTaken(w, run, j, worker)
    decreases |run|
  {
    if run != [] && Owns(w.db, j, worker) {
      StepKeepsBalance(w, run[0]);
      assert SameLease(run[1..], j, lease) by {
        assert forall i | 0 <= i < |run[1..]| :: run[1..][i] == run[i + 1];
      }
      if WorkerStep(w, run[0], j, worker) {
        OwnStepRenews(w, run[0], j, worker);
        OwnStepChains(w, run, at, j, worker, last, lease);
        TimedLeaseSafety(Apply(w, run[0]), run[1..], at[1..], j, worker, run[0].now, lease);
      } else {
        OtherStepChains(w, run, at, j, worker, last, lease);
        TimedLeaseSafety(Apply(w, run[0]), run[1..], at[1..], j, worker, last, lease);
      }
    }
  }

  lemma OwnStepChains(w: World, run: seq<Step>, at: seq<Time>, j: JobId, worker: WorkerId,
                      last: Time, lease: int)
    requires LegalRun(w, run) && Clocked(run, at) && run != [] && WorkerStep(w, run[0], j, worker)
    requires Chained(last, OwnRenewals(w, run, at, j, worker), lease)
    ensures Clocked(run[1..], at[1..])
    ensures Chained(run[0].now, OwnRenewals(Apply(w, run[0]), run[1..], at[1..], j, worker), lease)
  {
    ClockedTail(run, at);
    var rest := OwnRenewals(Apply(w, run[0]), run[1..], at[1..], j, worker);
    assert OwnRenewals(w, run, at, j, worker) == [Renewal(run[0].now, at[0])] + rest;
    assert ([Renewal(run[0].now, at[0])] + rest)[1..] == rest;
  }

  /** Between two own steps nothing is late enough to expire the lease. */
  lemma OtherStepChains(w: World, run: seq<Step>, at: seq<Time>, j: JobId, worker: WorkerId,
                        last: Time, lease: int)
    requires Balanced(w) && LegalRun(w, run) && Clocked(run, at) && run != [] && !WorkerStep(w, run[0], j, worker)
    requires Owns(w.db, j, worker) && w.db.jobs[j].lockedUntil == Some(last + Seconds(lease))
    requires EndsWithOwnStep(w, run, j, worker) && Chained(last, OwnRenewals(w, run, at, j, worker), lease)
    ensures Clocked(run[1..], at[1..]) && |run| > 1
    ensures Chained(last, OwnRenewals(Apply(w, run[0]), run[1..], at[1..], j, worker), lease)
    ensures var v := Apply(w, run[0]); Owns(v.db, j, worker) ==> v.db.jobs[j].lockedUntil == Some(last + Seconds(lease))
    ensures !(run[0].Recover? && j in run[0].expired)
  {
    ClockedTail(run, at);
    NextRenewalIsLater(w, run, at, j, worker);
    assert run[0].Recover? ==> NowOf(run[0]).Some?;
    OthersKeepLease(w, run[0], j, worker, last + Seconds(lease));
    var rest := OwnRenewals(Apply(w, run[0]), run[1..], at[1..], j, worker);
    assert OwnRenewals(w, run, at, j, worker) == [] + rest;
    assert [] + rest == rest;
  }

  // ---- from the claim to the record ----

  /** Whether the worker's transactions on the job find the row its own: what rowcount tells the heartbeat. */
  ghost function OwnedAt(w: World, run: seq<Step>, j: JobId, worker: WorkerId): seq<bool>
    requires LegalRun(w, run)
    decreases |run|
  {
    if run == [] then [] else
      (if WorkerStep(w, run[0], j, worker) then [Owns(w.db, j, worker)] else [])
      + OwnedAt(Apply(w, run[0]), run[1..], j, worker)
  }

  /** All of them but the last step of the run are extensions: the heartbeat's, before the record or the return. */
  ghost predicate ExtendsUntilLast(w: World, run: seq<Step>, j: JobId, worker: WorkerId)
    requires LegalRun(w, run)
    decreases |run|
  {
    |run| > 1 ==>
      && (WorkerStep(w, run[0], j, worker) ==> run[0].Extend?)
      && ExtendsUntilLast(Apply(w, run[0]), run[1..], j, worker)
  }

  /** Nobody else takes a job whose lease has not expired. */
  lemma OthersKeepOwner(w: World, s: Step, j: JobId, worker: WorkerId)
    requires Balanced(w) && Legal(w, s) && !WorkerStep(w, s, j, worker) && Owns(w.db, j, worker)
    requires !(s.Recover? && j in s.expired)
    ensures Owns(Apply(w, s).db, j, worker)
  {
    assert JobBalances(w, j);
    if s.Claim? { assert j !in s.ids; }
  }

  /** Under the conditions of timed lease safety every one of the worker's transactions finds the row its own, the last
      included. */
  lemma {:induction false} AlwaysOwned(w: World, run: seq<Step>, at: seq<Time>, j: JobId, worker: WorkerId, last: Time,
                                       lease: int)
    requires Balanced(w) && LegalRun(w, run) && Clocked(run, at) && SameLease(run, j, lease)
    requires Owns(w.db, j, worker) && w.db.jobs[j].lockedUntil == Some(last + Seconds(lease))
    requires EndsWithOwnStep(w, run, j, worker) && ExtendsUntilLast(w, run, j, worker)
    requires Chained(last, OwnRenewals(w, run, at, j, worker), lease)
    ensures forall k | 0 <= k < |OwnedAt(w, run, j, worker)| :: OwnedAt(w, run, j, worker)[k]
    decreases |run|
  {
    if run != [] {
      StepKeepsBalance(w, run[0]);
      assert SameLease(run[1..], j, lease) by {
        assert forall i | 0 <= i < |run[1..]| :: run[1..][i] == run[i + 1];
      }
      if WorkerStep(w, run[0], j, worker) {
        OwnStepChains(w, run, at, j, worker, last, lease);
        if |run| > 1 { AlwaysOwned(Apply(w, run[0]), run[1..], at[1..], j, worker, run[0].now, lease); }
      } else {
        OtherStepChains(w, run, at, j, worker, last, lease);
        OthersKeepOwner(w, run[0], j, worker);
        AlwaysOwned(Apply(w, run[0]), run[1..], at[1..], j, worker, last, lease);
      }
    }
  }

  lemma {:induction false} SameCount(w: World, run: seq<Step>, at: seq<Time>, j: JobId, worker: WorkerId)
    requires LegalRun(w, run) && Clocked(run, at)
    ensures |OwnedAt(w, run, j, worker)| == |OwnRenewals(w, run, at, j, worker)|
    decreases |run|
  {
    if run != [] {
      ClockedTail(run, at);
      SameCount(Apply(w, run[0]), run[1..], at[1..], j, worker);
    }
  }

  lemma LoopChains(last: Time, renewals: seq<Renewal>, beats: seq<Beat>, n: nat, lease: int)
    requires |renewals| == n + 1 && TimedBy(renewals, beats, n, lease) && FitsSlack(beats, n, lease)
    requires renewals[0].commit <= last + Seconds(lease)
    requires n > 0 ==> renewals[n].commit <= renewals[n - 1].tx + Seconds(lease)
    ensures Chained(last, renewals, lease)
  {
    forall k | 0 <= k < |renewals| ensures renewals[k].commit <= Previous(last, renewals, k) + Seconds(lease) {
      if 0 < k < n {
        assert beats[k - 1].latency + beats[k].wait + beats[k].latency <= Seconds(lease - Interval(lease));
      }
    }
    ChainedByIndex(last, renewals, lease);
  }

  /** What the run holds of the worker's own transactions on the job: n extensions on the beats of the loop, each beat
      told whether the row was owned, and then one more, each soon enough after the one before. */
  ghost predicate OnTime(w: World, run: seq<Step>, at: seq<Time>, j: JobId, worker: WorkerId, last: Time, lease: int,
                         beats: seq<Beat>, n: nat)
    requires LegalRun(w, run) && Clocked(run, at)
  {
    var own, owned := OwnRenewals(w, run, at, j, worker), OwnedAt(w, run, j, worker);
    && EndsWithOwnStep(w, run, j, worker) && ExtendsUntilLast(w, run, j, worker) && SameLease(run, j, lease)
    && |own| == n + 1 && TimedBy(own, beats, n, lease) && FitsSlack(beats, n, lease)
    && own[0].commit <= last + Seconds(lease)
    && (n > 0 ==> own[n].commit <= own[n - 1].tx + Seconds(lease))
    && (forall k | 0 <= k < n && k < |owned| ::
          !beats[k].done && !beats[k].raises && (beats[k].extended <==> owned[k]))
  }

  lemma LeaseIsKept(w: World, run: seq<Step>, at: seq<Time>, j: JobId, worker: WorkerId, last: Time,
                    lease: int, beats: seq<Beat>, n: nat)
    requires Balanced(w) && LegalRun(w, run) && Clocked(run, at) && OnTime(w, run, at, j, worker, last, lease, beats, n)
    requires Owns(w.db, j, worker) && w.db.jobs[j].lockedUntil == Some(last + Seconds(lease))
    ensures NeverTaken(w, run, j, worker)
    ensures |OwnedAt(w, run, j, worker)| == n + 1 && forall k | 0 <= k <= n :: OwnedAt(w, run, j, worker)[k]
  {
    LoopChains(last, OwnRenewals(w, run, at, j, worker), beats, n, lease);
    TimedLeaseSafety(w, run, at, j, worker, last, lease);
    AlwaysOwned(w, run, at, j, worker, last, lease);
    SameCount(w, run, at, j, worker);
  }

  lemma BeatsGoOn(w: World, run: seq<Step>, at: seq<Time>, j: JobId, worker: WorkerId, last: Time,
                  lease: int, beats: seq<Beat>, n: nat)
    requires LegalRun(w, run) && Clocked(run, at) && OnTime(w, run, at, j, worker, last, lease, beats, n)
    requires |OwnedAt(w, run, j, worker)| == n + 1 && forall k | 0 <= k <= n :: OwnedAt(w, run, j, worker)[k]
    ensures n <= |beats| && forall k | 0 <= k < n :: !beats[k].done && !beats[k].raises && beats[k].extended
  {
  }

  lemma HeldJobIsKept(w: World, run: seq<Step>, at: seq<Time>, j: JobId, worker: WorkerId,
                      last: Time, lease: int, beats: seq<Beat>, n: nat)
    requires Balanced(w) && LegalRun(w, run) && Clocked(run, at) && OnTime(w, run, at, j, worker, last, lease, beats, n)
    requires Owns(w.db, j, worker) && w.db.jobs[j].lockedUntil == Some(last + Seconds(lease))
    ensures NeverTaken(w, run, j, worker)
    ensures |OwnedAt(w, run, j, worker)| == n + 1 && forall k | 0 <= k <= n :: OwnedAt(w, run, j, worker)[k]
    ensures n < |beats| && beats[n].done ==> OutcomeOf(beats) == Heartbeat.Owned && Extensions(beats) == n
  {
    LeaseIsKept(w, run, at, j, worker, last, lease, beats, n);
    BeatsGoOn(w, run, at, j, worker, last, lease, beats, n);
    ExtensionsBound(beats, n);
  }

  /** A claim by the worker at time last leaves it a lease from then on. */
  ghost predicate JustClaimed(w: World, v: World, ids: set<JobId>, worker: WorkerId, last: Time, lease: int) {
    Legal(w, Claim(worker, ids, last, lease)) && v == Apply(w, Claim(worker, ids, last, lease))
  }

  lemma ClaimLeases(w: World, v: World, ids: set<JobId>, worker: WorkerId, last: Time, lease: int,
                    j: JobId)
    requires Balanced(w) && JustClaimed(w, v, ids, worker, last, lease) && j in ids
    ensures Balanced(v) && Owns(v.db, j, worker) && v.db.jobs[j].lockedUntil == Some(last + Seconds(lease))
  {
    ClaimKeepsBalance(w, Claim(worker, ids, last, lease));
  }

  /** From claim to record, v being the world after the claim: the first extension (or the record) commits within the
      lease of the claim, the extensions are spaced as the heartbeat loop spaces them and fit its slack, and the record
      commits within the lease of the last extension. Then, whatever else happens in the run, no recovery takes the job,
      every extension and the record find the row owned by the worker that claimed it, and so the loop ends by reporting
      the lease owned. */
  lemma ClaimedJobIsKept(w: World, v: World, ids: set<JobId>, run: seq<Step>, at: seq<Time>,
                         j: JobId, worker: WorkerId, last: Time, lease: int, beats: seq<Beat>,
                         n: nat)
    requires Balanced(w) && JustClaimed(w, v, ids, worker, last, lease) && j in ids
    requires LegalRun(v, run) && Clocked(run, at) && OnTime(v, run, at, j, worker, last, lease, beats, n)
    ensures NeverTaken(v, run, j, worker)
    ensures |OwnedAt(v, run, j, worker)| == n + 1 && forall k | 0 <= k <= n :: OwnedAt(v, run, j, worker)[k]
    ensures n < |beats| && beats[n].done ==> OutcomeOf(beats) == Heartbeat.Owned && Extensions(beats) == n
  {
    ClaimLeases(w, v, ids, worker, last, lease, j);
    HeldJobIsKept(v, run, at, j, worker, last, lease, beats, n);
  }
}

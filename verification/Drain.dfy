// Draining: rounds of recover, claim and record empty the queues, however the executions turn out.
module Drain {
  import opened Rows
  import opened Statements
  import opened Protocol
  import opened Accounting
  import opened Fidelity
  import opened ClaimTx
  import ClaimSerial
  import Earliest
  import Repository
  import Selection

  /** Steps that neither add work nor give an attempt back, nor change a queue. */
  predicate Quiet(s: Step) { !s.Insert? && !s.Return? && !s.Configure? }

  /** What a job still has before it: two for each attempt left and one for the attempt in progress. */
  function Weight(r: Job): int { if r.status.Live() then 2 * (r.maxAttempts - r.attemptCount) + Held(r) else 0 }

  ghost function Measure(jobs: map<JobId, Job>, keys: set<JobId>): int
    requires keys <= jobs.Keys
  {
    if keys == {} then 0 else
      var j :| j in keys;
      Weight(jobs[j]) + Measure(jobs, keys - {j})
  }

  ghost function Remaining(w: World): int { Measure(w.db.jobs, w.db.jobs.Keys) }

  lemma {:induction false} MeasureSplits(jobs: map<JobId, Job>, keys: set<JobId>, j: JobId)
    requires j in keys && keys <= jobs.Keys
    ensures Measure(jobs, keys) == Weight(jobs[j]) + Measure(jobs, keys - {j})
    decreases |keys|
  {
    var k :| k in keys && Measure(jobs, keys) == Weight(jobs[k]) + Measure(jobs, keys - {k});
    if k != j {
      MeasureSplits(jobs, keys - {k}, j);
      MeasureSplits(jobs, keys - {j}, k);
      assert keys - {k} - {j} == keys - {j} - {k};
    }
  }

  lemma {:induction false} MeasureIsNatural(jobs: map<JobId, Job>, keys: set<JobId>)
    requires keys <= jobs.Keys && forall j | j in keys :: Weight(jobs[j]) >= 0
    ensures Measure(jobs, keys) >= 0
    decreases |keys|
  {
    if keys != {} {
      var j :| j in keys && Measure(jobs, keys) == Weight(jobs[j]) + Measure(jobs, keys - {j});
      MeasureIsNatural(jobs, keys - {j});
    }
  }

  lemma {:induction false} MeasureFalls(jobs: map<JobId, Job>, jobs': map<JobId, Job>, keys: set<JobId>,
                                        keys': set<JobId>)
    requires keys' <= keys <= jobs.Keys && keys' <= jobs'.Keys
    requires forall j | j in keys :: Weight(jobs[j]) >= 0
    requires forall j | j in keys' :: Weight(jobs'[j]) <= Weight(jobs[j])
    ensures Measure(jobs', keys') <= Measure(jobs, keys)
    ensures (exists j | j in keys' ::
              Weight(jobs'[j]) < Weight(jobs[j])) ==> Measure(jobs', keys') < Measure(jobs, keys)
    decreases |keys|
  {
    if keys != {} {
      var j :| j in keys && Measure(jobs, keys) == Weight(jobs[j]) + Measure(jobs, keys - {j});
      MeasureFalls(jobs, jobs', keys - {j}, keys' - {j});
      if j in keys' { MeasureSplits(jobs', keys', j); } else { assert keys' - {j} == keys'; }
    }
  }

  lemma RecordWeighsLess(w: World, s: Step, j: JobId)
    requires Balanced(w) && Legal(w, s) && (s.Complete? || s.Fail?) && j in w.db.jobs
    ensures j in Apply(w, s).db.jobs && Weight(Apply(w, s).db.jobs[j]) <= Weight(w.db.jobs[j])
  {
    assert JobBalances(w, j);
  }

  lemma TakenWeighsLess(w: World, s: Step, j: JobId)
    requires Balanced(w) && Legal(w, s) && (s.Claim? || s.Recover?) && j in w.db.jobs
    ensures j in Apply(w, s).db.jobs && Weight(Apply(w, s).db.jobs[j]) <= Weight(w.db.jobs[j])
    ensures (s.Claim? && j in s.ids) || (s.Recover? && j in s.expired) ==>
              Weight(Apply(w, s).db.jobs[j]) < Weight(w.db.jobs[j])
  {
    assert JobBalances(w, j);
  }

  /** No quiet step adds weight to a job, and one that is claimed or recovered loses some. */
  lemma StepWeighsLess(w: World, s: Step, j: JobId)
    requires Balanced(w) && Legal(w, s) && Quiet(s) && j in w.db.jobs
    ensures Weight(w.db.jobs[j]) >= 0
    ensures var v := Apply(w, s);
            && (j in v.db.jobs ==> Weight(v.db.jobs[j]) <= Weight(w.db.jobs[j]))
            && ((s.Claim? && j in s.ids) || (s.Recover? && j in s.expired) ==>
                  j in v.db.jobs && Weight(v.db.jobs[j]) < Weight(w.db.jobs[j]))
  {
    assert JobBalances(w, j);
    if s.Complete? || s.Fail? {
      RecordWeighsLess(w, s, j);
    } else if s.Claim? || s.Recover? {
      TakenWeighsLess(w, s, j);
    }
  }

  lemma NoNewJobs(w: World, s: Step)
    requires Legal(w, s) && Quiet(s)
    ensures Apply(w, s).db.jobs.Keys <= w.db.jobs.Keys && Apply(w, s).db.queues == w.db.queues
  {
  }

  lemma QuietStep(w: World, s: Step)
    requires Balanced(w) && Legal(w, s) && Quiet(s)
    ensures Remaining(Apply(w, s)) <= Remaining(w)
    ensures (s.Claim? && s.ids != {}) || (s.Recover? && s.expired != []) ==> Remaining(Apply(w, s)) < Remaining(w)
  {
    var v := Apply(w, s);
    NoNewJobs(w, s);
    forall j | j in w.db.jobs
      ensures Weight(w.db.jobs[j]) >= 0 && (j in v.db.jobs ==> Weight(v.db.jobs[j]) <= Weight(w.db.jobs[j]))
    {
      StepWeighsLess(w, s, j);
    }
    if s.Claim? && s.ids != {} {
      var j :| j in s.ids;
      StepWeighsLess(w, s, j);
    } else if s.Recover? && s.expired != [] {
      StepWeighsLess(w, s, s.expired[0]);
    }
    MeasureFalls(w.db.jobs, v.db.jobs, w.db.jobs.Keys, v.db.jobs.Keys);
  }

  lemma {:induction false} QuietRun(w: World, run: seq<Step>)
    requires Balanced(w) && LegalRun(w, run) && forall i | 0 <= i < |run| :: Quiet(run[i])
    ensures Remaining(After(w, run)) <= Remaining(w)
    decreases |run|
  {
    if run != [] {
      QuietStep(w, run[0]);
      StepKeepsBalance(w, run[0]);
      assert forall i | 0 <= i < |run[1..]| :: run[1..][i] == run[i + 1];
      QuietRun(Apply(w, run[0]), run[1..]);
    }
  }

  // ---- rounds ----

  function ExpiredIn(db: Db, now: Time): set<JobId> { set j | j in db.jobs && Expired(db.jobs[j], now) }

  /** One round: a worker's claim transaction, then whatever executions, recoveries and administrators do. */
  datatype Round = Round(claim: Txn, rest: seq<Step>)

  /** The worker looks at every queue with live jobs, none is paused, and its clock has passed every available_at and
      locked_until. */
  predicate Due(db: Db, x: Txn) {
    && x.batch >= 1
    && forall j | j in db.jobs && db.jobs[j].status.Live() ::
         && db.jobs[j].queue in Unpaused(db, x.names)
         && db.jobs[j].availableAt <= x.now
         && (db.jobs[j].lockedUntil.Some? ==> db.jobs[j].lockedUntil.value < x.now)
  }

  /** The claim transaction of the round: recovery takes something if anything has expired, and the claim is the
      atomic optimal claim on the recovered tables. */
  ghost predicate StartOk(w: World, x: Txn) {
    && Due(w.db, x)
    && Legal(w, RecoverStep(x))
    && (ExpiredIn(w.db, x.now) != {} ==> x.expired != [])
    && ClaimOk(Apply(w, RecoverStep(x)), x)
  }

  ghost predicate ClaimOk(w: World, x: Txn) {
    ClaimSerial.AtomicClaim(w.db, x) && NoSelfOverlap(w, ClaimStep(x))
  }

  /** Atomic claims exist on any tables. */
  lemma ClaimExists(db: Db, x: Txn) returns (y: Txn)
    ensures ClaimSerial.AtomicClaim(db, y) && y == x.(active := y.active, picks := y.picks)
  {
    Earliest.SortExists(Unpaused(db, x.names));
    var qs :| Earliest.Sorts(qs, Unpaused(db, x.names));
    assert Elements(qs) == Unpaused(db, x.names);
    var slots, ready := SlotMap(db, db, qs), ClaimSerial.ReadyIn(db, qs, x.now);
    Repository.AscendingIsDistinct(qs);
    Selection.TopsExist(db.jobs, qs, slots, ready);
    var tops :| Selection.TopOfEach(db.jobs, qs, slots, ready, tops);
    Selection.MergedMembers(db.jobs, qs, slots, ready, tops);
    var picks := Selection.TopExists(db.jobs, Selection.Merged(qs, tops), x.batch);
    y := x.(active := qs, picks := picks);
    assert Selection.IsClaim(db.jobs, y.active, slots, ready, y.batch, tops, y.picks);
  }

  /** There is always a next round: a worker with nothing in flight, once its clock has passed the live jobs' times, can
      start one. */
  lemma RoundExists(w: World, x: Txn) returns (y: Txn)
    requires Balanced(w) && Due(w.db, x)
    requires forall e | e in w.execs && w.execs[e].InFlight() :: w.execs[e].worker != x.worker
    ensures StartOk(w, y) && y.worker == x.worker && y.now == x.now
  {
    Earliest.EnumerationExists(ExpiredIn(w.db, x.now));
    var expired :| Earliest.Enumerates(expired, ExpiredIn(w.db, x.now));
    assert forall i | 0 <= i < |expired| :: expired[i] in ExpiredIn(w.db, x.now);
    var x' := x.(expired := expired);
    var v := Apply(w, RecoverStep(x'));
    y := ClaimExists(v.db, x');
    assert RecoverStep(y) == RecoverStep(x');
    if ExpiredIn(w.db, x.now) != {} {
      var j :| j in ExpiredIn(w.db, x.now);
      assert j in expired;
    }
    assert v.execs == w.execs;
  }

  ghost function Started(w: World, x: Txn): World
    requires StartOk(w, x)
  {
    ClaimSerial.AtomicClaimIsLegal(Apply(w, RecoverStep(x)), x);
    Apply(Apply(w, RecoverStep(x)), ClaimStep(x))
  }

  ghost predicate RoundOk(w: World, r: Round) {
    && StartOk(w, r.claim)
    && LegalRun(Started(w, r.claim), r.rest) && NoOverlapRun(Started(w, r.claim), r.rest)
    && forall i | 0 <= i < |r.rest| :: Quiet(r.rest[i])
  }

  ghost function AfterRound(w: World, r: Round): World
    requires RoundOk(w, r)
  {
    After(Started(w, r.claim), r.rest)
  }

  ghost predicate RoundsOk(w: World, rounds: seq<Round>)
    decreases |rounds|
  {
    rounds != [] ==> RoundOk(w, rounds[0]) && RoundsOk(AfterRound(w, rounds[0]), rounds[1..])
  }

  ghost function AfterRounds(w: World, rounds: seq<Round>): World
    requires RoundsOk(w, rounds)
    decreases |rounds|
  {
    if rounds == [] then w else AfterRounds(AfterRound(w, rounds[0]), rounds[1..])
  }

  predicate Idle(db: Db) { forall j | j in db.jobs :: !db.jobs[j].status.Live() }

  /** The check constraint on concurrency_limit. */
  predicate LimitsPositive(db: Db) { forall q | q in db.queues :: db.queues[q].limit > 0 }

  lemma {:induction false} CapacityReaches(jobs: Selection.Jobs, qs: seq<Name>, slots: map<Name, nat>,
                                           ready: set<JobId>, j: JobId)
    requires forall i | 0 <= i < |qs| :: qs[i] in slots
    requires j in ready && j in jobs && jobs[j].queue in qs && slots[jobs[j].queue] >= 1
    ensures Selection.Capacity(jobs, qs, slots, ready, jobs.Keys) >= 1
  {
    if jobs[j].queue == qs[0] {
      assert j in InQueue(jobs, ready, qs[0]) * jobs.Keys;
    } else {
      assert forall i | 0 <= i < |qs[1..]| :: qs[1..][i] == qs[i + 1];
      CapacityReaches(jobs, qs[1..], slots, ready, j);
    }
  }

  /** With nothing leased and a pending job due, a claim takes something. */
  lemma ClaimProgress(w: World, x: Txn, j: JobId)
    requires Balanced(w) && Sharp(w) && LimitsPositive(w.db) && ClaimSerial.AtomicClaim(w.db, x) && Due(w.db, x)
    requires forall k | k in w.db.jobs :: w.db.jobs[k].status != Leased
    requires j in w.db.jobs && w.db.jobs[j].status == Pending
    ensures x.picks != {}
  {
    var db := w.db;
    var slots, ready := SlotMap(db, db, x.active), ClaimSerial.ReadyIn(db, x.active, x.now);
    var tops :| Selection.IsClaim(db.jobs, x.active, slots, ready, x.batch, tops, x.picks);
    assert JobSharp(w, j) && JobBalances(w, j);
    var q := db.jobs[j].queue;
    assert q in Elements(x.active);
    assert LeasedIn(db, q) == {};
    Selection.ClaimSize(db.jobs, x.active, slots, ready, x.batch, tops, x.picks);
    CapacityReaches(db.jobs, x.active, slots, ready, j);
  }

  /** When the recovery finds nothing, nothing is leased: every lease was past its time. */
  lemma NothingLeased(w: World, x: Txn)
    requires Balanced(w) && Due(w.db, x) && ExpiredIn(w.db, x.now) == {}
    ensures forall k | k in w.db.jobs :: w.db.jobs[k].status != Leased
  {
    forall k | k in w.db.jobs ensures w.db.jobs[k].status != Leased {
      assert JobBalances(w, k);
      assert w.db.jobs[k].status == Leased ==> k in ExpiredIn(w.db, x.now);
    }
  }

  lemma EmptyRecovery(w: World, x: Txn)
    requires x.expired == []
    ensures Legal(w, RecoverStep(x)) && Apply(w, RecoverStep(x)).db == w.db
  {
    ClaimSerial.OwnIsCommitted(w.db, x);
  }

  /** A transaction that has nothing to recover claims something. */
  lemma StartClaims(w: World, x: Txn)
    requires Balanced(w) && Sharp(w) && LimitsPositive(w.db) && StartOk(w, x) && !Idle(w.db) && x.expired == []
    ensures x.picks != {}
  {
    EmptyRecovery(w, x);
    NothingLeased(w, x);
    var j :| j in w.db.jobs && w.db.jobs[j].status.Live();
    ClaimProgress(w, x, j);
  }

  lemma StartDecreases(w: World, x: Txn)
    requires Balanced(w) && Sharp(w) && LimitsPositive(w.db) && StartOk(w, x)
    ensures Remaining(Started(w, x)) <= Remaining(w)
    ensures !Idle(w.db) ==> Remaining(Started(w, x)) < Remaining(w)
  {
    QuietStep(w, RecoverStep(x));
    StepKeepsBalance(w, RecoverStep(x));
    ClaimSerial.AtomicClaimIsLegal(Apply(w, RecoverStep(x)), x);
    QuietStep(Apply(w, RecoverStep(x)), ClaimStep(x));
    if !Idle(w.db) && x.expired == [] { StartClaims(w, x); }
  }

  lemma StartKeeps(w: World, x: Txn)
    requires Balanced(w) && Sharp(w) && StartOk(w, x)
    ensures Balanced(Started(w, x)) && Sharp(Started(w, x)) && Started(w, x).db.queues == w.db.queues
  {
    var w1 := Apply(w, RecoverStep(x));
    ClaimSerial.AtomicClaimIsLegal(w1, x);
    StepKeepsBalance(w, RecoverStep(x));
    StepKeepsSharp(w, RecoverStep(x));
    StepKeepsBalance(w1, ClaimStep(x));
    StepKeepsSharp(w1, ClaimStep(x));
    NoNewJobs(w, RecoverStep(x));
    NoNewJobs(w1, ClaimStep(x));
  }

  lemma RoundKeeps(w: World, r: Round)
    requires Balanced(w) && Sharp(w) && LimitsPositive(w.db) && RoundOk(w, r)
    ensures Balanced(AfterRound(w, r)) && Sharp(AfterRound(w, r)) && LimitsPositive(AfterRound(w, r).db)
  {
    StartKeeps(w, r.claim);
    RunKeepsSharp(Started(w, r.claim), r.rest);
    QuietKeepsQueues(Started(w, r.claim), r.rest);
  }

  lemma {:induction false} QuietKeepsQueues(w: World, run: seq<Step>)
    requires LegalRun(w, run) && forall i | 0 <= i < |run| :: Quiet(run[i])
    ensures After(w, run).db.queues == w.db.queues
    decreases |run|
  {
    if run != [] {
      NoNewJobs(w, run[0]);
      assert forall i | 0 <= i < |run[1..]| :: run[1..][i] == run[i + 1];
      QuietKeepsQueues(Apply(w, run[0]), run[1..]);
    }
  }

  lemma RoundDecreases(w: World, r: Round)
    requires Balanced(w) && Sharp(w) && LimitsPositive(w.db) && RoundOk(w, r)
    ensures Remaining(AfterRound(w, r)) <= Remaining(w)
    ensures !Idle(w.db) ==> Remaining(AfterRound(w, r)) < Remaining(w)
  {
    StartKeeps(w, r.claim);
    StartDecreases(w, r.claim);
    QuietRun(Started(w, r.claim), r.rest);
  }

  lemma LiveWeighs(w: World)
    requires Balanced(w) && Sharp(w)
    ensures Remaining(w) >= 0 && (Remaining(w) == 0 <==> Idle(w.db))
  {
    forall j | j in w.db.jobs
      ensures Weight(w.db.jobs[j]) >= 0 && (Weight(w.db.jobs[j]) == 0 <==> !w.db.jobs[j].status.Live())
    {
      assert JobBalances(w, j) && JobSharp(w, j);
    }
    MeasureIsNatural(w.db.jobs, w.db.jobs.Keys);
    if j :| j in w.db.jobs && w.db.jobs[j].status.Live() {
      MeasureSplits(w.db.jobs, w.db.jobs.Keys, j);
      MeasureIsNatural(w.db.jobs, w.db.jobs.Keys - {j});
    } else {
      WeightlessSum(w.db.jobs, w.db.jobs.Keys);
    }
  }

  lemma {:induction false} WeightlessSum(jobs: map<JobId, Job>, keys: set<JobId>)
    requires keys <= jobs.Keys && forall j | j in keys :: Weight(jobs[j]) == 0
    ensures Measure(jobs, keys) == 0
    decreases |keys|
  {
    if keys != {} {
      var j :| j in keys && Measure(jobs, keys) == Weight(jobs[j]) + Measure(jobs, keys - {j});
      WeightlessSum(jobs, keys - {j});
    }
  }

  /** Drain theorem: after as many rounds as the sum over live jobs of twice the attempts left plus one if leased, no
      job is pending or leased, whatever the outcomes. */
  lemma {:induction false} Drains(w: World, rounds: seq<Round>)
    requires Balanced(w) && Sharp(w) && LimitsPositive(w.db) && RoundsOk(w, rounds)
    requires |rounds| >= Remaining(w)
    ensures Idle(AfterRounds(w, rounds).db)
    decreases |rounds|
  {
    LiveWeighs(w);
    if rounds != [] {
      RoundDecreases(w, rounds[0]);
      RoundKeeps(w, rounds[0]);
      LiveWeighs(AfterRound(w, rounds[0]));
      Drains(AfterRound(w, rounds[0]), rounds[1..]);
    }
  }

  lemma {:induction false} LimitsStayPositive(w: World, run: seq<Step>)
    requires LegalRun(w, run) && LimitsPositive(w.db)
    ensures LimitsPositive(After(w, run).db)
    decreases |run|
  {
    if run != [] {
      assert LimitsPositive(Apply(w, run[0]).db);
      LimitsStayPositive(Apply(w, run[0]), run[1..]);
    }
  }

  /** In particular after any run from the empty schema. */
  lemma DrainsAfterAnyRun(run: seq<Step>, rounds: seq<Round>)
    requires LegalRun(EMPTY, run) && NoOverlapRun(EMPTY, run) && RoundsOk(After(EMPTY, run), rounds)
    requires |rounds| >= Remaining(After(EMPTY, run))
    ensures Idle(AfterRounds(After(EMPTY, run), rounds).db)
  {
    RunKeepsSharp(EMPTY, run);
    LimitsStayPositive(EMPTY, run);
    Drains(After(EMPTY, run), rounds);
  }
}

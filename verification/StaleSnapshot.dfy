// Claims without assumption H2: a queue resumed between the two claim statements is locked by the second only, after
// that statement's snapshot has already counted its leases.
module StaleSnapshot {
  import opened Rows
  import opened Statements
  import opened Protocol
  import opened Names
  import opened ClaimTx
  import opened ClaimSafety
  import opened ClaimLimits
  import ClaimSerial
  import Selection

  // ---- exactly when a claim oversubscribes a queue ----

  ghost predicate Overruns(own: Db, picks: set<JobId>, q: Name) {
    |LeasedIn(own, q)| + |InQueue(own.jobs, picks, q)| > Max(|LeasedIn(own, q)|, LimitOf(own, q))
  }

  ghost predicate FillsSlots(s: Sys, a: Action, q: Name)
    requires a.Pick? && a.t in s.txns
  {
    |InQueue(Own(s.world.db, s.txns[a.t]).jobs, a.picks, q)| == Slots(s.world.db, s.txns[a.t].snap, q)
  }

  /** In any state, with or without H2: a pick that uses all the slots it computed oversubscribes a queue exactly when
      the snapshot misses a lease of it and shows a free slot; a pick that uses fewer oversubscribes only then. */
  lemma OverrunIffStale(s: Sys, a: Action, q: Name)
    requires a.Pick? && Enabled(s, a) && q in s.txns[a.t].active
    ensures var x := s.txns[a.t];
            var own := Own(s.world.db, x);
            var stale := |LeasedIn(x.snap, q)| < |LeasedIn(own, q)| && |LeasedIn(x.snap, q)| < LimitOf(own, q);
            && (Overruns(own, a.picks, q) ==> stale)
            && (FillsSlots(s, a, q) ==> (Overruns(own, a.picks, q) <==> stale))
  {
    var x := s.txns[a.t];
    var own := Own(s.world.db, x);
    PickTakesReady(s, a);
    assert InQueue(own.jobs, a.picks, q) == InQueue(own.jobs, a.picks, q);
  }

  /** The slots that q really has free, in the transaction's own tables. */
  function FreeSlots(own: Db, q: Name): nat { Slots(own, own, q) }

  /** One more row of q than is free, among the top rows that the slots of the snapshot admit: together with everything
      ahead of them they are within the batch. */
  ghost predicate Reaches(s: Sys, t: nat, q: Name, tops: map<Name, set<JobId>>, rows: set<JobId>)
    requires t in s.txns && q in s.txns[t].active
  {
    var x, ready := s.txns[t], ReadyRows(s, t);
    var own := Own(s.world.db, x);
    && Selection.TopOfEach(own.jobs, x.active, SlotMap(s.world.db, x.snap, x.active), ready, tops)
    && Selection.Merged(x.active, tops) <= own.jobs.Keys
    && rows <= tops[q] && rows <= Selection.Merged(x.active, tops) && |rows| == FreeSlots(own, q) + 1
    && |Selection.WithAhead(own.jobs, Selection.Merged(x.active, tops), rows)| <= x.batch
  }

  lemma OverrunReaches(s: Sys, t: nat, q: Name, tops: map<Name, set<JobId>>, picks: set<JobId>)
    returns (rows: set<JobId>)
    requires Enabled(s, Pick(t, tops, picks)) && q in s.txns[t].active
    requires Overruns(Own(s.world.db, s.txns[t]), picks, q)
    ensures Reaches(s, t, q, tops, rows)
  {
    var x, ready := s.txns[t], ReadyRows(s, t);
    var own := Own(s.world.db, x);
    rows := Selection.SubsetOfSize(InQueue(own.jobs, picks, q), FreeSlots(own, q) + 1);
    Selection.MergedMembers(own.jobs, x.active, SlotMap(s.world.db, x.snap, x.active), ready, tops);
    Selection.TopTakesAhead(own.jobs, Selection.Merged(x.active, tops), x.batch, picks, rows);
  }

  lemma ReachedCanOverrun(s: Sys, t: nat, q: Name, tops: map<Name, set<JobId>>, rows: set<JobId>)
    returns (picks: set<JobId>)
    requires t in s.txns && s.txns[t].mode.Second? && s.txns[t].todo == [] && Distinct(s.txns[t].active)
    requires q in s.txns[t].active && Reaches(s, t, q, tops, rows)
    ensures Enabled(s, Pick(t, tops, picks)) && Overruns(Own(s.world.db, s.txns[t]), picks, q)
  {
    var x, ready := s.txns[t], ReadyRows(s, t);
    var own := Own(s.world.db, x);
    picks := Selection.TopCanTake(own.jobs, Selection.Merged(x.active, tops), x.batch, rows);
    assert forall j | j in tops[q] :: j in InQueue(own.jobs, ready, q);
    Selection.SubsetCard(rows, InQueue(own.jobs, picks, q));
  }

  /** Exactly when a transaction about to pick can oversubscribe a queue, by what it could look up before: when its
      batch reaches one more of the queue's top rows than the queue has slots free. */
  lemma PickCanOverrunIff(s: Sys, t: nat, q: Name)
    requires t in s.txns && s.txns[t].mode.Second? && s.txns[t].todo == [] && Distinct(s.txns[t].active)
    requires q in s.txns[t].active
    ensures (exists tops, picks :: Enabled(s, Pick(t, tops, picks)) && Overruns(Own(s.world.db, s.txns[t]), picks, q))
       <==> (exists tops, rows :: Reaches(s, t, q, tops, rows))
  {
    if tops, picks :| Enabled(s, Pick(t, tops, picks)) && Overruns(Own(s.world.db, s.txns[t]), picks, q) {
      var rows := OverrunReaches(s, t, q, tops, picks);
    }
    if tops, rows :| Reaches(s, t, q, tops, rows) {
      var picks := ReachedCanOverrun(s, t, q, tops, rows);
    }
  }

  // ---- a run that oversubscribes ----

  const ASK := Ask("q", Work("handler", "n", "{}", "{}", "{}", 30, None, None), 0, 1, None, None, None)
  const READY := NewRow(ASK, 0)
  const HELD_BACK := Queue(true, 1, 0, 0)
  const RESUMED := Queue(false, 1, 0, 1)

  /** Two jobs wait in a paused queue of limit one; two workers open claim transactions and lock nothing; the queue is
      resumed; both take their second snapshot; then each locks, picks and commits in turn. */
  const PREPARE: seq<Action> := [
    Env(Configure("q", Some(true), Some(1), 0)), Env(Insert("a", ASK, 0)), Env(Insert("b", ASK, 0))]
  const OPEN: seq<Action> := [
    Begin(1, "v", {"q"}, 1, 60, 1, [], []), Begin(2, "w", {"q"}, 1, 60, 1, [], []),
    Env(Configure("q", Some(false), None, 1)), Snapshot(1, ["q"]), Snapshot(2, ["q"])]
  const CLAIM: seq<Action> := [
    Lock(1), Pick(1, map["q" := {"a"}], {"a"}), Commit(1),
    Lock(2), Pick(2, map["q" := {"b"}], {"b"}), Commit(2)]

  const WAITING := map["a" := READY, "b" := READY]

  function Snapped(worker: WorkerId, db: Db): Txn {
    Txn(worker, {"q"}, 1, 60, 1, [], Second, ["q"], {}, [], db, {})
  }

  lemma KeylessInsert(w: World, id: JobId, ask: Ask)
    requires ask.key.None? && ask.replayedFrom.None? && PassesChecks(ask)
    requires id !in w.hist.birth && ask.queue in w.db.queues
    ensures Legal(w, Insert(id, ask, 0))
    ensures var v := Apply(w, Insert(id, ask, 0));
            && v.db.queues == w.db.queues && v.db.jobs == w.db.jobs[id := NewRow(ask, 0)]
            && v.hist.birth.Keys == w.hist.birth.Keys + {id}
  {
    KeylessRow(w.db, id, ask);
  }

  lemma KeylessRow(db: Db, id: JobId, ask: Ask)
    requires ask.key.None? && ask.queue in db.queues
    ensures !Conflicts(db, ask) && InsertJob(db, id, ask, 0) == db.(jobs := db.jobs[id := NewRow(ask, 0)])
  {
  }

  lemma QueueCreated()
    ensures Enabled(IDLE, PREPARE[0])
    ensures var s := Next(IDLE, PREPARE[0]);
            && s.world.db.queues == map["q" := HELD_BACK] && s.world.db.jobs == map[] && s.txns == map[]
            && s.world.hist.birth == map[]
  {
  }

  lemma Submits(s: Sys, id: JobId)
    requires id !in s.world.hist.birth && s.world.db.queues == map["q" := HELD_BACK] && s.txns == map[]
    ensures Enabled(s, Env(Insert(id, ASK, 0)))
    ensures var s' := Next(s, Env(Insert(id, ASK, 0)));
            && s'.world.db.queues == s.world.db.queues && s'.world.db.jobs == s.world.db.jobs[id := READY]
            && s'.txns == map[] && s'.world.hist.birth.Keys == s.world.hist.birth.Keys + {id}
  {
    KeylessInsert(s.world, id, ASK);
  }

  lemma Prepared()
    ensures EnabledRun(IDLE, PREPARE)
    ensures var s := AfterAll(IDLE, PREPARE);
            s.world.db.queues == map["q" := HELD_BACK] && s.world.db.jobs == WAITING && s.txns == map[]
  {
    QueueCreated();
    var s1 := Next(IDLE, PREPARE[0]);
    Submits(s1, "a");
    var s2 := Next(s1, PREPARE[1]);
    Submits(s2, "b");
    var s3 := Next(s2, PREPARE[2]);
    RunThree(IDLE, PREPARE[0], s1, PREPARE[1], s2, PREPARE[2], s3);
    assert PREPARE == [PREPARE[0], PREPARE[1], PREPARE[2]];
    assert s3.world.db.jobs == WAITING;
  }

  /** The first statement of a transaction finds no unpaused queue. */
  function Begun(worker: WorkerId, db: Db): Txn { Txn(worker, {"q"}, 1, 60, 1, [], First, [], {}, [], db, {}) }

  lemma Begins(s: Sys, t: nat, worker: WorkerId)
    requires s.world.db.queues == map["q" := HELD_BACK] && t !in s.txns
    ensures var a := Begin(t, worker, {"q"}, 1, 60, 1, [], []);
            Enabled(s, a) && Next(s, a) == s.(txns := s.txns[t := Begun(worker, s.world.db)])
  {
    assert Unpaused(s.world.db, {"q"}) == {} && Elements([]) == {};
  }

  lemma Resumes(s: Sys)
    requires s.world.db.queues == map["q" := HELD_BACK] && forall t | t in s.txns :: s.txns[t].held == {}
    ensures var a := Env(Configure("q", Some(false), None, 1));
            && Enabled(s, a) && Next(s, a).txns == s.txns
            && Next(s, a).world.db.queues == map["q" := RESUMED] && Next(s, a).world.db.jobs == s.world.db.jobs
  {
    assert map["q" := HELD_BACK]["q" := RESUMED] == map["q" := RESUMED];
  }

  lemma Snaps(s: Sys, t: nat, worker: WorkerId, before: Db)
    requires s.world.db.queues == map["q" := RESUMED] && t in s.txns && s.txns[t] == Begun(worker, before)
    ensures Enabled(s, Snapshot(t, ["q"]))
    ensures Next(s, Snapshot(t, ["q"])) == s.(txns := s.txns[t := Snapped(worker, s.world.db)])
  {
    assert Unpaused(s.world.db, {"q"}) == {"q"} && Elements(["q"]) == {"q"};
    ClaimSerial.OwnIsCommitted(s.world.db, s.txns[t]);
  }

  /** Both transactions took their snapshot after the queue was resumed and before either locks it. */
  ghost predicate BothSnapped(s: Sys) {
    && s.world.db.queues == map["q" := RESUMED] && s.world.db.jobs == WAITING
    && s.txns == map[1 := Snapped("v", s.world.db), 2 := Snapped("w", s.world.db)]
  }

  lemma BothBegin(s: Sys)
    requires s.world.db.queues == map["q" := HELD_BACK] && s.world.db.jobs == WAITING && s.txns == map[]
    ensures EnabledRun(s, OPEN[..3])
    ensures var s3 := AfterAll(s, OPEN[..3]);
            && s3.world.db.queues == map["q" := RESUMED] && s3.world.db.jobs == WAITING
            && s3.txns == map[1 := Begun("v", s.world.db), 2 := Begun("w", s.world.db)]
  {
    var a, b := Begin(1, "v", {"q"}, 1, 60, 1, [], []), Begin(2, "w", {"q"}, 1, 60, 1, [], []);
    var c := Env(Configure("q", Some(false), None, 1));
    Begins(s, 1, "v");
    var s1 := Next(s, a);
    Begins(s1, 2, "w");
    var s2 := Next(s1, b);
    Resumes(s2);
    var s3 := Next(s2, c);
    RunThree(s, a, s1, b, s2, c, s3);
    assert [a, b, c] == OPEN[..3];
  }

  lemma Opened(s: Sys)
    requires s.world.db.queues == map["q" := HELD_BACK] && s.world.db.jobs == WAITING && s.txns == map[]
    ensures EnabledRun(s, OPEN) && BothSnapped(AfterAll(s, OPEN))
  {
    BothBegin(s);
    var s3 := AfterAll(s, OPEN[..3]);
    SnappedBoth(s3, s.world.db);
    RunsJoin(s, OPEN[..3], [Snapshot(1, ["q"]), Snapshot(2, ["q"])]);
    assert OPEN[..3] + [Snapshot(1, ["q"]), Snapshot(2, ["q"])] == OPEN;
  }

  lemma SnappedBoth(s: Sys, before: Db)
    requires s.world.db.queues == map["q" := RESUMED] && s.world.db.jobs == WAITING
    requires s.txns == map[1 := Begun("v", before), 2 := Begun("w", before)]
    ensures EnabledRun(s, [Snapshot(1, ["q"]), Snapshot(2, ["q"])])
    ensures BothSnapped(AfterAll(s, [Snapshot(1, ["q"]), Snapshot(2, ["q"])]))
  {
    Snaps(s, 1, "v", before);
    var s1 := Next(s, Snapshot(1, ["q"]));
    Snaps(s1, 2, "w", before);
    RunOne(s1, Snapshot(2, ["q"]));
    assert [Snapshot(1, ["q"]), Snapshot(2, ["q"])][1..] == [Snapshot(2, ["q"])];
  }

  /** Every job is one of the two: still as inserted, or leased. */
  ghost predicate TwoJobs(db: Db) {
    forall k | k in db.jobs :: k in WAITING && (db.jobs[k] == READY || db.jobs[k].status == Leased)
  }

  /** Lock the resumed queue, pick one ready job of it with the slot the old snapshot shows, and commit. */
  lemma ClaimsOne(s: Sys, t: nat, j: JobId, worker: WorkerId, snap: Db)
    requires t in s.txns && s.txns[t] == Snapped(worker, snap) && snap.jobs == WAITING && TwoJobs(s.world.db)
    requires s.world.db.queues == map["q" := RESUMED] && j in s.world.db.jobs && s.world.db.jobs[j] == READY
    requires forall u | u in s.txns :: s.txns[u].held == {} && RowLocks(s.txns[u]) == {}
    ensures var run, s' := Claiming(t, j), s.world.db.jobs[j := LeasedRow(READY, worker, 1, 60)];
            && EnabledRun(s, run) && AfterAll(s, run).world.db.jobs == s'
            && AfterAll(s, run).world.db.queues == s.world.db.queues && AfterAll(s, run).txns == s.txns - {t}
  {
    var s1, s2 := LocksAndPicks(s, t, j, worker, snap);
    CommitsOne(s2, t, j);
    RunThree(s, Lock(t), s1, Pick(t, map["q" := {j}], {j}), s2, Commit(t), Next(s2, Commit(t)));
    assert s.txns[t := s2.txns[t]] - {t} == s.txns - {t};
  }

  function Claiming(t: nat, j: JobId): seq<Action> { [Lock(t), Pick(t, map["q" := {j}], {j}), Commit(t)] }

  function LockedTxn(worker: WorkerId, snap: Db): Txn {
    Snapped(worker, snap).(todo := [], held := {"q"}, active := ["q"])
  }

  lemma LocksAndPicks(s: Sys, t: nat, j: JobId, worker: WorkerId, snap: Db) returns (s1: Sys,
                      s2: Sys)
    requires t in s.txns && s.txns[t] == Snapped(worker, snap) && snap.jobs == WAITING && TwoJobs(s.world.db)
    requires s.world.db.queues == map["q" := RESUMED] && j in s.world.db.jobs && s.world.db.jobs[j] == READY
    requires forall u | u in s.txns :: s.txns[u].held == {} && RowLocks(s.txns[u]) == {}
    ensures Enabled(s, Lock(t)) && s1 == Next(s, Lock(t))
    ensures Enabled(s1, Pick(t, map["q" := {j}], {j})) && s2 == Next(s1, Pick(t, map["q" := {j}], {j}))
    ensures s2 == s.(txns := s.txns[t := LockedTxn(worker, snap).(mode := Picked, picks := {j})])
  {
    Locks(s, t, worker, snap);
    s1 := Next(s, Lock(t));
    StillUnlocked(s, s1, t, worker, snap);
    PicksOne(s1, t, j);
    s2 := Next(s1, Pick(t, map["q" := {j}], {j}));
    Overwrite(s.txns, t, LockedTxn(worker, snap), LockedTxn(worker, snap).(mode := Picked, picks := {j}));
  }

  lemma StillUnlocked(s: Sys, s1: Sys, t: nat, worker: WorkerId, snap: Db)
    requires forall u | u in s.txns :: RowLocks(s.txns[u]) == {}
    requires s1.txns == s.txns[t := LockedTxn(worker, snap)]
    ensures forall u | u in s1.txns :: RowLocks(s1.txns[u]) == {}
  {
  }

  lemma Overwrite(txns: map<nat, Txn>, t: nat, x: Txn, y: Txn)
    ensures txns[t := x][t := y] == txns[t := y]
  {
  }

  lemma Locks(s: Sys, t: nat, worker: WorkerId, snap: Db)
    requires t in s.txns && s.txns[t] == Snapped(worker, snap) && s.world.db.queues == map["q" := RESUMED]
    requires forall u | u in s.txns :: s.txns[u].held == {}
    ensures Enabled(s, Lock(t))
    ensures Next(s, Lock(t)) == s.(txns := s.txns[t := LockedTxn(worker, snap)])
  {
    assert "q" in Unpaused(s.world.db, {"q"}) && [] + ["q"] == ["q"] && ["q"][1..] == [] && {} + {"q"} == {"q"};
  }

  lemma CommitsOne(s: Sys, t: nat, j: JobId)
    requires t in s.txns && j in s.world.db.jobs && s.world.db.jobs[j] == READY
    requires var x := s.txns[t]; x.mode == Picked && x.expired == [] && x.picks == {j} && x.now == 1 && x.lease == 60
    ensures Enabled(s, Commit(t))
    ensures var s' := Next(s, Commit(t));
            && s'.txns == s.txns - {t} && s'.world.db.queues == s.world.db.queues
            && s'.world.db.jobs == s.world.db.jobs[j := LeasedRow(READY, s.txns[t].worker, 1, 60)]
  {
    var x := s.txns[t];
    ClaimSerial.OwnIsCommitted(s.world.db, x);
    assert RowsKept(s.world.db, x);
    KeptCanCommit(s.world, x);
    var mid := Apply(s.world, RecoverStep(x));
    assert mid.db == s.world.db;
  }

  lemma PicksOne(s: Sys, t: nat, j: JobId)
    requires t in s.txns && s.txns[t].mode == Second && s.txns[t].todo == [] && s.txns[t].active == ["q"]
    requires s.txns[t].expired == [] && s.txns[t].now == 1 && s.txns[t].batch == 1 && s.txns[t].snap.jobs == WAITING
    requires s.world.db.queues == map["q" := RESUMED] && j in s.world.db.jobs && s.world.db.jobs[j] == READY
    requires TwoJobs(s.world.db) && forall u | u in s.txns :: RowLocks(s.txns[u]) == {}
    ensures Enabled(s, Pick(t, map["q" := {j}], {j}))
  {
    var x, db := s.txns[t], s.world.db;
    ClaimSerial.OwnIsCommitted(db, x);
    EqualRowsReady(s, t, j);
    assert LeasedIn(x.snap, "q") == {};
    OneOfEquals(db.jobs, ReadyRows(s, t), j);
    assert SlotMap(db, x.snap, ["q"]) == map["q" := 1];
  }

  lemma EqualRowsReady(s: Sys, t: nat, j: JobId)
    requires t in s.txns && s.txns[t].active == ["q"] && s.txns[t].now == 1 && s.txns[t].snap.jobs == WAITING
    requires Own(s.world.db, s.txns[t]) == s.world.db && j in s.world.db.jobs && s.world.db.jobs[j] == READY
    requires TwoJobs(s.world.db) && forall u | u in s.txns :: RowLocks(s.txns[u]) == {}
    ensures j in ReadyRows(s, t) && ReadyRows(s, t) <= s.world.db.jobs.Keys
    ensures forall k | k in ReadyRows(s, t) :: s.world.db.jobs[k] == READY
  {
    assert Ready(READY, 1);
  }

  lemma OneOfEquals(jobs: map<JobId, Job>, ready: set<JobId>, j: JobId)
    requires j in ready && ready <= jobs.Keys && forall k | k in ready :: jobs[k] == READY
    ensures Selection.IsClaim(jobs, ["q"], map["q" := 1], ready, 1, map["q" := {j}], {j})
  {
    assert InQueue(jobs, ready, "q") == ready;
    Selection.SubsetCard({j}, ready);
    assert Selection.IsTop(jobs, ready, 1, {j});
    assert Selection.Merged(["q"], map["q" := {j}]) == {j} by { assert ["q"][1..] == []; }
  }

  lemma SecondClaim(s: Sys, snap: Db)
    requires s.txns == map[2 := Snapped("w", snap)] && snap.jobs == WAITING && s.world.db.queues == map["q" := RESUMED]
    requires s.world.db.jobs == WAITING["a" := LeasedRow(READY, "v", 1, 60)]
    ensures EnabledRun(s, Claiming(2, "b")) && Oversubscribed(AfterAll(s, Claiming(2, "b")))
  {
    ClaimsOne(s, 2, "b", "w", snap);
    BothLeased(AfterAll(s, Claiming(2, "b")).world.db);
    assert s.txns - {2} == map[];
  }

  lemma BothLeased(db: Db)
    requires db.jobs == WAITING["a" := LeasedRow(READY, "v", 1, 60)]["b" := LeasedRow(READY, "w", 1, 60)]
    ensures LeasedIn(db, "q") == {"a", "b"}
  {
  }

  lemma OtherRemains(txns: map<nat, Txn>, x: Txn, y: Txn)
    requires txns == map[1 := x, 2 := y]
    ensures txns.Keys == {1, 2} && txns[1] == x && txns[2] == y && txns - {1} == map[2 := y]
  {
  }

  lemma FirstClaim(s: Sys, snap: Db)
    requires s.txns == map[1 := Snapped("v", snap), 2 := Snapped("w", snap)] && snap.jobs == WAITING
    requires s.world.db.queues == map["q" := RESUMED] && s.world.db.jobs == WAITING
    ensures EnabledRun(s, Claiming(1, "a"))
    ensures var s1 := AfterAll(s, Claiming(1, "a"));
            && s1.txns == map[2 := Snapped("w", snap)] && s1.world.db.queues == map["q" := RESUMED]
            && s1.world.db.jobs == WAITING["a" := LeasedRow(READY, "v", 1, 60)]
  {
    OtherRemains(s.txns, Snapped("v", snap), Snapped("w", snap));
    ClaimsOne(s, 1, "a", "v", snap);
  }

  lemma BothClaim(s: Sys, snap: Db)
    requires s.txns == map[1 := Snapped("v", snap), 2 := Snapped("w", snap)] && snap.jobs == WAITING
    requires s.world.db.queues == map["q" := RESUMED] && s.world.db.jobs == WAITING
    ensures EnabledRun(s, Claiming(1, "a") + Claiming(2, "b"))
    ensures Oversubscribed(AfterAll(s, Claiming(1, "a") + Claiming(2, "b")))
  {
    FirstClaim(s, snap);
    SecondClaim(AfterAll(s, Claiming(1, "a")), snap);
    RunsJoin(s, Claiming(1, "a"), Claiming(2, "b"));
  }

  /** A queue of limit one has two leases. */
  ghost predicate Oversubscribed(s: Sys) {
    LimitOf(s.world.db, "q") == 1 && LeasedIn(s.world.db, "q") == {"a", "b"} && s.txns == map[]
  }

  /** Without H2 the concurrency limit can be exceeded: the queue's limit is one from its creation on, the run is one
      the two workers can make, and both jobs end leased. */
  lemma LimitExceededWithoutH2()
    ensures EnabledRun(IDLE, PREPARE + (OPEN + CLAIM)) && Oversubscribed(AfterAll(IDLE, PREPARE + (OPEN + CLAIM)))
  {
    Prepared();
    OpenThenClaim(AfterAll(IDLE, PREPARE));
    RunsJoin(IDLE, PREPARE, OPEN + CLAIM);
  }

  lemma OpenThenClaim(s: Sys)
    requires s.world.db.queues == map["q" := HELD_BACK] && s.world.db.jobs == WAITING && s.txns == map[]
    ensures EnabledRun(s, OPEN + CLAIM) && Oversubscribed(AfterAll(s, OPEN + CLAIM))
  {
    Opened(s);
    assert Claiming(1, "a") + Claiming(2, "b") == CLAIM;
    BothClaim(AfterAll(s, OPEN), AfterAll(s, OPEN).world.db);
    RunsJoin(s, OPEN, CLAIM);
  }
}

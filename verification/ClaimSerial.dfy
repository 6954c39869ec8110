// Serializability: claim transactions interleaved only with each other (and without recovery) leave the tables as if
// run one at a time in commit order, each an atomic optimal claim.
module ClaimSerial {
  import opened Rows
  import opened Statements
  import opened Protocol
  import opened Names
  import opened Accounting
  import opened ClaimTx
  import opened ClaimSafety
  import opened ClaimLimits
  import Selection

  predicate ClaimOnly(a: Action) { !a.Env? && (a.Begin? ==> a.expired == []) }

  function ReadyIn(db: Db, qs: seq<Name>, now: Time): set<JobId> {
    set j | j in db.jobs && db.jobs[j].queue in qs && Ready(db.jobs[j], now)
  }

  /** The whole claim run at once on db: all unpaused queues, their free slots, all ready rows, the two-level top. */
  ghost predicate AtomicClaim(db: Db, x: Txn) {
    && Ascending(x.active) && Elements(x.active) == Unpaused(db, x.names)
    && exists tops ::
         Selection.IsClaim(db.jobs, x.active, SlotMap(db, db, x.active), ReadyIn(db, x.active, x.now), x.batch, tops,
                           x.picks)
  }

  function Claimed(db: Db, x: Txn): Db { ClaimRows(db, x.picks, x.worker, x.now, x.lease) }

  /** One claim after the other. */
  ghost predicate SerialRun(db: Db, commits: seq<Txn>)
    decreases |commits|
  {
    commits != [] ==> AtomicClaim(db, commits[0]) && SerialRun(Claimed(db, commits[0]), commits[1..])
  }

  function SerialDb(db: Db, commits: seq<Txn>): Db
    decreases |commits|
  {
    if commits == [] then db else SerialDb(Claimed(db, commits[0]), commits[1..])
  }

  ghost function Commits(s: Sys, run: seq<Action>): seq<Txn>
    requires EnabledRun(s, run)
    decreases |run|
  {
    if run == [] then [] else
      (if run[0].Commit? then [s.txns[run[0].t]] else []) + Commits(Next(s, run[0]), run[1..])
  }

  /** The rows of the transaction's queues are as its snapshot shows them. */
  ghost predicate SnapshotCurrent(db: Db, x: Txn) {
    && x.snap.jobs.Keys == db.jobs.Keys
    && forall j | j in db.jobs :: x.snap.jobs[j].queue == db.jobs[j].queue
                                  && (db.jobs[j].queue in x.held ==> x.snap.jobs[j] == db.jobs[j])
  }

  ghost predicate Current(db: Db, x: Txn) {
    && x.expired == []
    && Ascending(x.active + x.todo)
    && (x.mode.First? ==> x.active == [] && Elements(x.todo) + x.held == Unpaused(db, x.names))
    && (!x.mode.First? ==> Elements(x.active) + Elements(x.todo) == Unpaused(db, x.names) && SnapshotCurrent(db, x))
    && (x.mode.Picked? ==> x.todo == [] && AtomicClaim(db, x))
  }

  ghost predicate AllCurrent(s: Sys) { forall t | t in s.txns :: Current(s.world.db, s.txns[t]) }

  /** Without new or resumed queues H2 holds by itself. */
  lemma NoQueueAppears(s: Sys, a: Action)
    requires AllCurrent(s) && Enabled(s, a) && ClaimOnly(a)
    ensures NoNewQueue(s, a)
  {
    if a.Snapshot? { assert Current(s.world.db, s.txns[a.t]); }
  }

  lemma OwnIsCommitted(db: Db, x: Txn)
    requires x.expired == []
    ensures Own(db, x) == db && RecoverRows(db, [], x.now) == db
  {
    assert Own(db, x).jobs == db.jobs;
    assert RecoverRows(db, [], x.now).jobs == db.jobs;
    assert db.log + [] == db.log;
  }

  lemma LockKeepsCurrent(db: Db, x: Txn)
    requires Current(db, x) && Capped(db, x) && x.todo != [] && !x.mode.Picked?
    ensures Current(db, Locked(db, x))
  {
    var y := Locked(db, x);
    assert x.todo == [x.todo[0]] + x.todo[1..];
    assert x.todo[0] in Elements(x.todo);
    assert Elements(x.todo) == Elements(x.todo[1..]) + {x.todo[0]};
    if x.mode.Second? {
      assert y.active + y.todo == x.active + x.todo;
      assert Elements(y.active) == Elements(x.active) + {x.todo[0]};
      assert y.held == x.held;
    } else {
      assert forall i | 0 <= i < |y.todo| :: (y.active + y.todo)[i] == (x.active + x.todo)[i + 1];
    }
  }

  lemma SameLeases(db: Db, x: Txn, q: Name)
    requires SnapshotCurrent(db, x) && q in x.held
    ensures LeasedIn(x.snap, q) == LeasedIn(db, q)
  {
  }

  /** What SKIP LOCKED skips lies in other queues, so a pick sees every ready row. */
  lemma PickSeesAll(s: Sys, t: nat)
    requires Safe(s) && AllCurrent(s) && t in s.txns && s.txns[t].mode.Second?
    ensures ReadyRows(s, t) == ReadyIn(s.world.db, s.txns[t].active, s.txns[t].now)
  {
    var x, db := s.txns[t], s.world.db;
    assert Current(db, x) && Capped(db, x);
    OwnIsCommitted(db, x);
    forall j | j in ReadyIn(db, x.active, x.now)
      ensures !LockedByOther(s, t, j) && j in x.snap.jobs && x.snap.jobs[j] == db.jobs[j]
    {
      assert db.jobs[j].queue in Elements(x.active);
      forall u | u in s.txns && u != t ensures j !in RowLocks(s.txns[u]) {
        assert Current(db, s.txns[u]) && Capped(db, s.txns[u]) && RowsKept(db, s.txns[u]);
        assert x.held !! s.txns[u].held;
      }
    }
  }

  lemma SameSlots(db: Db, x: Txn)
    requires SnapshotCurrent(db, x) && Elements(x.active) <= x.held
    ensures SlotMap(db, x.snap, x.active) == SlotMap(db, db, x.active)
  {
    forall q | q in x.active ensures Slots(db, x.snap, q) == Slots(db, db, q) {
      assert q in Elements(x.active);
      SameLeases(db, x, q);
    }
  }

  lemma PickIsAtomic(s: Sys, a: Action)
    requires Safe(s) && AllCurrent(s) && a.Pick? && Enabled(s, a)
    ensures AtomicClaim(s.world.db, Next(s, a).txns[a.t])
  {
    var x, db := s.txns[a.t], s.world.db;
    assert Current(db, x) && Capped(db, x);
    OwnIsCommitted(db, x);
    PickSeesAll(s, a.t);
    SameSlots(db, x);
    assert x.active + [] == x.active && Elements([]) == {};
    var y := x.(mode := Picked, picks := a.picks);
    assert Selection.IsClaim(db.jobs, y.active, SlotMap(db, db, y.active), ReadyIn(db, y.active, y.now), y.batch,
                             a.tops, y.picks);
    assert AtomicClaim(db, y);
  }

  /** A claim elsewhere changes nothing an atomic claim depends on. */
  lemma SameInputsElsewhere(db: Db, qs: seq<Name>, now: Time, y: Txn)
    requires forall j | j in y.picks && j in db.jobs :: db.jobs[j].queue !in qs
    ensures ReadyIn(Claimed(db, y), qs, now) == ReadyIn(db, qs, now)
    ensures SlotMap(Claimed(db, y), Claimed(db, y), qs) == SlotMap(db, db, qs)
  {
    var db' := Claimed(db, y);
    forall q | q in qs ensures Slots(db', db', q) == Slots(db, db, q) { assert LeasedIn(db', q) == LeasedIn(db, q); }
  }

  lemma ClaimElsewhere(db: Db, x: Txn, y: Txn)
    requires AtomicClaim(db, x)
    requires forall j | j in y.picks && j in db.jobs :: db.jobs[j].queue !in x.active
    ensures AtomicClaim(Claimed(db, y), x)
  {
    var db' := Claimed(db, y);
    var ready, slots := ReadyIn(db, x.active, x.now), SlotMap(db, db, x.active);
    var tops :| Selection.IsClaim(db.jobs, x.active, slots, ready, x.batch, tops, x.picks);
    Selection.ClaimTransfers(db.jobs, db'.jobs, x.active, slots, ready, x.batch, tops, x.picks);
    SameInputsElsewhere(db, x.active, x.now, y);
    assert Unpaused(db', x.names) == Unpaused(db, x.names);
  }

  lemma OtherKeepsCurrent(db: Db, x: Txn, y: Txn)
    requires Current(db, x) && Capped(db, x) && Capped(db, y) && y.mode.Picked? && x.held !! y.held
    ensures Current(Claimed(db, y), x)
  {
    var db' := Claimed(db, y);
    assert Unpaused(db', x.names) == Unpaused(db, x.names);
    if x.mode.Picked? {
      assert forall q | q in x.active :: q in Elements(x.active);
      ClaimElsewhere(db, x, y);
    }
  }

  lemma CommitKeepsCurrent(s: Sys, a: Action, t: nat)
    requires Safe(s) && AllCurrent(s) && a.Commit? && Enabled(s, a) && t in s.txns && t != a.t
    ensures Current(Next(s, a).world.db, s.txns[t])
  {
    CommitClaims(s, a);
    assert Current(s.world.db, s.txns[t]) && Capped(s.world.db, s.txns[t]) && Capped(s.world.db, s.txns[a.t]);
    assert s.txns[t].held !! s.txns[a.t].held;
    OtherKeepsCurrent(s.world.db, s.txns[t], s.txns[a.t]);
  }

  lemma CommitClaims(s: Sys, a: Action)
    requires AllCurrent(s) && a.Commit? && Enabled(s, a)
    ensures Next(s, a).world.db == Claimed(s.world.db, s.txns[a.t])
  {
    var y := s.txns[a.t];
    assert Current(s.world.db, y);
    OwnIsCommitted(s.world.db, y);
    var mid := Apply(s.world, RecoverStep(y));
    assert mid.db == RecoverRows(s.world.db, [], y.now);
    assert Apply(mid, ClaimStep(y)).db == Claimed(mid.db, y);
  }

  lemma StepKeepsCurrent(s: Sys, a: Action)
    requires Safe(s) && AllCurrent(s) && Enabled(s, a) && ClaimOnly(a)
    ensures AllCurrent(Next(s, a))
  {
    var s' := Next(s, a);
    forall t | t in s'.txns ensures Current(s'.world.db, s'.txns[t]) {
      if t in s.txns { assert Current(s.world.db, s.txns[t]) && Capped(s.world.db, s.txns[t]); }
      if a.Commit? {
        CommitKeepsCurrent(s, a, t);
      } else if !a.Abort? && t == a.t {
        ActorKeepsCurrent(s, a);
      }
    }
  }

  lemma ActorKeepsCurrent(s: Sys, a: Action)
    requires Safe(s) && AllCurrent(s) && Enabled(s, a) && ClaimOnly(a) && !a.Commit? && !a.Abort?
    ensures Current(Next(s, a).world.db, Next(s, a).txns[a.t])
  {
    if !a.Begin? { assert Current(s.world.db, s.txns[a.t]) && Capped(s.world.db, s.txns[a.t]); }
    match a
    case Begin(_, _, _, _, _, _, _, todo) => assert [] + todo == todo;
    case Lock(t) => LockKeepsCurrent(s.world.db, s.txns[t]);
    case Snapshot(t, todo) =>
      OwnIsCommitted(s.world.db, s.txns[t]);
      assert [] + todo == todo && Elements([]) == {};
    case Pick(t, _, _) => PickIsAtomic(s, a);
  }

  lemma ClaimKeepsAll(s: Sys, a: Action)
    requires Safe(s) && AllCurrent(s) && Balanced(s.world) && Enabled(s, a) && ClaimOnly(a)
    ensures Safe(Next(s, a)) && AllCurrent(Next(s, a)) && Balanced(Next(s, a).world)
  {
    NoQueueAppears(s, a);
    BornJobs(s.world);
    StepKeepsSafe(s, a);
    StepKeepsCurrent(s, a);
    ActionRefines(s, a);
    RunKeepsBalance(s.world, Committed(s, a));
  }

  /** Every interleaving of claim transactions leaves the tables as running them one at a time in commit order does,
      each as one atomic claim of everything it could take at its turn. */
  lemma {:induction false} ClaimsAreSerializable(s: Sys, run: seq<Action>)
    requires Safe(s) && AllCurrent(s) && Balanced(s.world) && EnabledRun(s, run)
    requires forall i | 0 <= i < |run| :: ClaimOnly(run[i])
    ensures SerialRun(s.world.db, Commits(s, run))
    ensures SerialDb(s.world.db, Commits(s, run)) == AfterAll(s, run).world.db
    decreases |run|
  {
    if run != [] {
      var a, s' := run[0], Next(s, run[0]);
      ClaimKeepsAll(s, a);
      assert forall i | 0 <= i < |run[1..]| :: run[1..][i] == run[i + 1];
      ClaimsAreSerializable(s', run[1..]);
      if a.Commit? {
        CommitClaims(s, a);
        assert Current(s.world.db, s.txns[a.t]);
        assert Commits(s, run)[1..] == Commits(s', run[1..]);
      } else {
        assert Commits(s, run) == Commits(s', run[1..]);
      }
    }
  }

  /** In particular from any reachable world with no claim transaction open. */
  lemma ClaimsAreSerializableFromIdle(w: World, run: seq<Action>)
    requires Balanced(w) && EnabledRun(Sys(w, map[]), run) && forall i | 0 <= i < |run| :: ClaimOnly(run[i])
    ensures var s := Sys(w, map[]);
            SerialRun(w.db, Commits(s, run)) && SerialDb(w.db, Commits(s, run)) == AfterAll(s, run).world.db
  {
    ClaimsAreSerializable(Sys(w, map[]), run);
  }

  /** Claims over disjoint sets of queues commute. */
  lemma DisjointClaimsCommute(db: Db, x: Txn, y: Txn)
    requires AtomicClaim(db, x) && AtomicClaim(db, y) && Unpaused(db, x.names) !! Unpaused(db, y.names)
    ensures AtomicClaim(Claimed(db, y), x) && AtomicClaim(Claimed(db, x), y)
    ensures Claimed(Claimed(db, x), y) == Claimed(Claimed(db, y), x)
  {
    PicksAreReady(db, x);
    PicksAreReady(db, y);
    assert forall q :: q in x.active <==> q in Elements(x.active);
    assert forall q :: q in y.active <==> q in Elements(y.active);
    ClaimElsewhere(db, x, y);
    ClaimElsewhere(db, y, x);
    RowsCommute(db, x, y);
  }

  lemma RowsCommute(db: Db, x: Txn, y: Txn)
    requires x.picks !! y.picks
    ensures Claimed(Claimed(db, x), y) == Claimed(Claimed(db, y), x)
  {
    assert Claimed(Claimed(db, x), y).jobs == Claimed(Claimed(db, y), x).jobs;
  }

  lemma PicksAreReady(db: Db, x: Txn)
    requires AtomicClaim(db, x)
    ensures forall j | j in x.picks :: j in db.jobs && Ready(db.jobs[j], x.now) && db.jobs[j].queue in x.active
  {
    var slots, ready := SlotMap(db, db, x.active), ReadyIn(db, x.active, x.now);
    var tops :| Selection.IsClaim(db.jobs, x.active, slots, ready, x.batch, tops, x.picks);
    Selection.ClaimSize(db.jobs, x.active, slots, ready, x.batch, tops, x.picks);
  }

  /** An atomic claim is a legal step of the protocol, and it fills free slots only. */
  lemma AtomicClaimIsLegal(w: World, x: Txn)
    requires AtomicClaim(w.db, x)
    ensures Legal(w, ClaimStep(x)) && forall q :: FitsQueue(w.db, x.picks, q)
  {
    var db, slots, ready := w.db, SlotMap(w.db, w.db, x.active), ReadyIn(w.db, x.active, x.now);
    var tops :| Selection.IsClaim(db.jobs, x.active, slots, ready, x.batch, tops, x.picks);
    Selection.ClaimSize(db.jobs, x.active, slots, ready, x.batch, tops, x.picks);
    PicksAreReady(db, x);
    forall q ensures FitsQueue(db, x.picks, q) {
      assert InQueue(db.jobs, x.picks, q) == InQueue(db.jobs, x.picks, q);
      if q !in x.active { assert InQueue(db.jobs, x.picks, q) == {}; }
    }
  }

  lemma {:induction false} LeasedIsNotClaimed(db: Db, commits: seq<Txn>, k: nat, j: JobId)
    requires SerialRun(db, commits) && k < |commits| && j in db.jobs && db.jobs[j].status == Leased
    ensures j !in commits[k].picks
    decreases k
  {
    PicksAreReady(db, commits[0]);
    if k > 0 {
      assert commits[1..][k - 1] == commits[k];
      LeasedIsNotClaimed(Claimed(db, commits[0]), commits[1..], k - 1, j);
    }
  }

  /** No job is handed out by two claims. */
  lemma {:induction false} ClaimsAreDisjoint(db: Db, commits: seq<Txn>, i: nat, k: nat)
    requires SerialRun(db, commits) && i < k < |commits|
    ensures commits[i].picks !! commits[k].picks
    decreases i
  {
    if i == 0 {
      PicksAreReady(db, commits[0]);
      forall j | j in commits[0].picks ensures j !in commits[k].picks {
        assert commits[1..][k - 1] == commits[k];
        LeasedIsNotClaimed(Claimed(db, commits[0]), commits[1..], k - 1, j);
      }
    } else {
      assert commits[1..][i - 1] == commits[i] && commits[1..][k - 1] == commits[k];
      ClaimsAreDisjoint(Claimed(db, commits[0]), commits[1..], i - 1, k - 1);
    }
  }
}

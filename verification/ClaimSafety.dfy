// What open claim transactions keep in every interleaving: by their row locks the rows they recovered and picked, with
// or without assumption H2; by their queue locks the slots they counted, under H2.
module ClaimSafety {
  import opened Rows
  import opened Statements
  import opened Protocol
  import opened Lifecycle
  import opened ClaimTx
  import Selection

  // ---- what row locks protect, with or without H2 ----

  predicate OwnReady(db: Db, x: Txn, j: JobId) { j in db.jobs && Ready(Own(db, x).jobs[j], x.now) }

  predicate RowsKept(db: Db, x: Txn) {
    && Distinct(x.expired)
    && (forall i | 0 <= i < |x.expired| :: x.expired[i] in db.jobs && Expired(db.jobs[x.expired[i]], x.now))
    && (!x.mode.Picked? ==> x.picks == {})
    && (forall j | j in x.picks :: OwnReady(db, x, j))
  }

  ghost predicate LocksExclusive(s: Sys) {
    forall t, u | t in s.txns && u in s.txns && t != u ::
      RowLocks(s.txns[t]) !! RowLocks(s.txns[u]) && s.txns[t].held !! s.txns[u].held
  }

  ghost predicate RowSafe(s: Sys) {
    LocksExclusive(s) && forall t | t in s.txns :: RowsKept(s.world.db, s.txns[t])
  }

  /** The rows an open transaction holds are as it left them. */
  ghost predicate KeepsRowsOf(db: Db, db': Db, x: Txn) {
    forall j | j in RowLocks(x) && j in db.jobs :: j in db'.jobs && SameJob(db.jobs[j], db'.jobs[j])
  }

  lemma KeptRowsStay(db: Db, db': Db, x: Txn)
    requires RowsKept(db, x) && KeepsRowsOf(db, db', x)
    ensures RowsKept(db', x)
  {
    forall j | j in x.picks ensures OwnReady(db', x, j) {
      assert OwnReady(db, x, j) && j in RowLocks(x);
    }
    forall i | 0 <= i < |x.expired| ensures x.expired[i] in db'.jobs && Expired(db'.jobs[x.expired[i]], x.now) {
      assert x.expired[i] in RowLocks(x);
    }
  }

  lemma UntouchedRow(w: World, step: Step, j: JobId)
    requires Legal(w, step) && !step.Claim? && j in w.db.jobs && j !in Touches(w, step)
    requires step.Insert? ==> step.id != j
    ensures j in Apply(w, step).db.jobs && SameJob(w.db.jobs[j], Apply(w, step).db.jobs[j])
  {
  }

  lemma EnvKeepsRows(w: World, step: Step, x: Txn)
    requires Legal(w, step) && !step.Claim? && Touches(w, step) !! RowLocks(x)
    requires w.db.jobs.Keys <= w.hist.birth.Keys
    ensures KeepsRowsOf(w.db, Apply(w, step).db, x)
  {
    forall j | j in RowLocks(x) && j in w.db.jobs
      ensures j in Apply(w, step).db.jobs && SameJob(w.db.jobs[j], Apply(w, step).db.jobs[j])
    {
      UntouchedRow(w, step, j);
    }
  }

  lemma ClaimKeepsOtherRows(w: World, step: Step, x: Txn)
    requires Legal(w, step) && step.Claim? && step.ids !! RowLocks(x)
    ensures KeepsRowsOf(w.db, Apply(w, step).db, x)
  {
  }

  /** The recover step of a commit gives every transaction's committed tables their recovered rows. */
  lemma RecoverGivesOwn(w: World, x: Txn)
    requires RowsKept(w.db, x)
    ensures Legal(w, RecoverStep(x))
    ensures Apply(w, RecoverStep(x)).db.jobs == Own(w.db, x).jobs
    ensures Apply(w, RecoverStep(x)).db.queues == w.db.queues
  {
  }

  /** Row locks keep what a transaction has recovered and picked. */
  lemma KeptCanCommit(w: World, x: Txn)
    requires RowsKept(w.db, x)
    ensures CanCommit(w, x)
  {
    RecoverGivesOwn(w, x);
    forall j | j in x.picks ensures OwnReady(w.db, x, j) {}
  }

  lemma OthersKeepRows(s: Sys, a: Action, t: nat)
    requires RowSafe(s) && Enabled(s, a) && s.world.db.jobs.Keys <= s.world.hist.birth.Keys
    requires t in s.txns && t in Next(s, a).txns && Next(s, a).txns[t] == s.txns[t]
    ensures RowsKept(Next(s, a).world.db, s.txns[t])
  {
    var x := s.txns[t];
    assert RowsKept(s.world.db, x);
    match a
    case Commit(u) =>
      var y := s.txns[u];
      var mid := Apply(s.world, RecoverStep(y));
      assert RowsKept(s.world.db, y) && RowLocks(x) !! RowLocks(y);
      EnvKeepsRows(s.world, RecoverStep(y), x);
      KeptRowsStay(s.world.db, mid.db, x);
      ClaimKeepsOtherRows(mid, ClaimStep(y), x);
      KeptRowsStay(mid.db, Next(s, a).world.db, x);
    case Env(step) =>
      EnvKeepsRows(s.world, step, x);
      KeptRowsStay(s.world.db, Next(s, a).world.db, x);
    case _ =>
  }

  /** What a pick takes: ready rows of the transaction's own tables, in queues it works on, within their slots. */
  lemma PickTakesReady(s: Sys, a: Action)
    requires a.Pick? && Enabled(s, a)
    ensures var x := s.txns[a.t];
            var own := Own(s.world.db, x).jobs;
            && (forall j | j in a.picks :: j in ReadyRows(s, a.t) && own[j].queue in x.active)
            && (forall q | q in x.active ::
                  |InQueue(own, a.picks, q)| <= Slots(s.world.db, x.snap, q))
  {
    var x := s.txns[a.t];
    var own := Own(s.world.db, x).jobs;
    Selection.ClaimSize(own, x.active, SlotMap(s.world.db, x.snap, x.active), ReadyRows(s, a.t), x.batch, a.tops,
        a.picks);
  }

  lemma ActorKeepsRows(s: Sys, a: Action, t: nat)
    requires RowSafe(s) && Enabled(s, a) && t in Next(s, a).txns
    requires t !in s.txns || Next(s, a).txns[t] != s.txns[t]
    ensures RowsKept(Next(s, a).world.db, Next(s, a).txns[t])
  {
    if t in s.txns { assert RowsKept(s.world.db, s.txns[t]); }
    if a.Pick? {
      PickTakesReady(s, a);
      var y := Next(s, a).txns[t];
      forall j | j in y.picks ensures OwnReady(s.world.db, y, j) { assert j in ReadyRows(s, t); }
    }
  }

  lemma LocksStayExclusive(s: Sys, a: Action)
    requires RowSafe(s) && Enabled(s, a)
    ensures LocksExclusive(Next(s, a))
  {
    var s' := Next(s, a);
    forall t, u | t in s'.txns && u in s'.txns && t != u
      ensures RowLocks(s'.txns[t]) !! RowLocks(s'.txns[u]) && s'.txns[t].held !! s'.txns[u].held
    {
      if u in s.txns && s'.txns[u] == s.txns[u] { LocksApart(s, a, t, u); } else { LocksApart(s, a, u, t); }
    }
  }

  /** What the acting transaction newly locks, no other holds. */
  lemma LocksApart(s: Sys, a: Action, t: nat, u: nat)
    requires RowSafe(s) && Enabled(s, a) && t != u && t in Next(s, a).txns && u in Next(s, a).txns
    requires u in s.txns && Next(s, a).txns[u] == s.txns[u]
    ensures RowLocks(Next(s, a).txns[t]) !! RowLocks(Next(s, a).txns[u])
    ensures Next(s, a).txns[t].held !! Next(s, a).txns[u].held
  {
    if a.Pick? && a.t == t {
      PickTakesReady(s, a);
      forall j | j in a.picks ensures j !in RowLocks(s.txns[u]) { assert j in ReadyRows(s, t); }
    } else if a.Begin? && a.t == t {
      forall j | j in a.expired ensures j !in RowLocks(s.txns[u]) { assert !LockedByOther(s, t, j); }
    }
  }

  lemma StepKeepsRowSafe(s: Sys, a: Action)
    requires RowSafe(s) && Enabled(s, a) && s.world.db.jobs.Keys <= s.world.hist.birth.Keys
    ensures RowSafe(Next(s, a))
  {
    var s' := Next(s, a);
    LocksStayExclusive(s, a);
    forall t | t in s'.txns ensures RowsKept(s'.world.db, s'.txns[t]) {
      if t in s.txns && s'.txns[t] == s.txns[t] { OthersKeepRows(s, a, t); } else { ActorKeepsRows(s, a, t); }
    }
  }

  /** Every row in the table was inserted at some time. */
  lemma BirthsStay(w: World, step: Step)
    requires Legal(w, step) && w.db.jobs.Keys <= w.hist.birth.Keys
    ensures Apply(w, step).db.jobs.Keys <= Apply(w, step).hist.birth.Keys
  {
    match step
    case Complete(_, _, _) =>
    case Fail(_, _, _, _, _, _) =>
    case _ =>
  }

  lemma ActionKeepsBirths(s: Sys, a: Action)
    requires Enabled(s, a) && s.world.db.jobs.Keys <= s.world.hist.birth.Keys
    ensures Next(s, a).world.db.jobs.Keys <= Next(s, a).world.hist.birth.Keys
  {
    match a
    case Commit(t) =>
      BirthsStay(s.world, RecoverStep(s.txns[t]));
      BirthsStay(Apply(s.world, RecoverStep(s.txns[t])), ClaimStep(s.txns[t]));
    case Env(step) => BirthsStay(s.world, step);
    case _ =>
  }

  lemma {:induction false} RunKeepsRowSafe(s: Sys, run: seq<Action>)
    requires RowSafe(s) && EnabledRun(s, run) && s.world.db.jobs.Keys <= s.world.hist.birth.Keys
    ensures RowSafe(AfterAll(s, run))
    decreases |run|
  {
    if run != [] {
      StepKeepsRowSafe(s, run[0]);
      ActionKeepsBirths(s, run[0]);
      RunKeepsRowSafe(Next(s, run[0]), run[1..]);
    }
  }

  /** In every reachable state, with or without H2, a transaction that has picked can commit: its recoveries and then
      its claims are still possible. */
  lemma CommitNeverBlocked(run: seq<Action>, t: nat)
    requires EnabledRun(Sys(EMPTY, map[]), run)
    requires var s := AfterAll(Sys(EMPTY, map[]), run); t in s.txns && s.txns[t].mode.Picked?
    ensures Enabled(AfterAll(Sys(EMPTY, map[]), run), Commit(t))
  {
    var s := AfterAll(Sys(EMPTY, map[]), run);
    RunKeepsRowSafe(Sys(EMPTY, map[]), run);
    KeptCanCommit(s.world, s.txns[t]);
  }

  // ---- what queue locks protect, queue by queue ----

  /** No new queue, for one queue: a second statement that works on q finds it locked by the first. */
  ghost predicate NoStray(s: Sys, a: Action, q: Name) {
    a.Snapshot? && a.t in s.txns && q in Elements(a.todo) ==> q in s.txns[a.t].held
  }

  /** A transaction's claim on a queue: it works on q only if it holds it; while its second statement runs, the snapshot
      counts at least the leases that q still has; once it has picked, its picks fit what is free in q. */
  ghost predicate CappedAt(db: Db, x: Txn, q: Name) {
    && (q in x.held ==> q in db.queues)
    && (!x.mode.First? && (q in Elements(x.todo) || q in Elements(x.active)) ==> q in x.held)
    && (x.mode.Second? && q in x.held ==> |LeasedIn(Own(db, x), q)| <= |LeasedIn(x.snap, q)|)
    && (x.mode.Picked? ==>
          FitsQueue(Own(db, x), x.picks, q) && (InQueue(db.jobs, x.picks, q) != {} ==> q in x.held))
  }

  ghost predicate SafeAt(s: Sys, q: Name) { RowSafe(s) && forall t | t in s.txns :: CappedAt(s.world.db, s.txns[t], q) }

  /** The queue, if x holds it, gains no lease and keeps its limit. */
  ghost predicate KeepsQueue(db: Db, db': Db, x: Txn, q: Name) {
    && db.queues.Keys <= db'.queues.Keys
    && (q in x.held ==> LeasedIn(db', q) <= LeasedIn(db, q) && LimitOf(db', q) == LimitOf(db, q))
  }

  lemma OwnLeased(db: Db, x: Txn, q: Name)
    requires RowsKept(db, x)
    ensures LeasedIn(Own(db, x), q) == LeasedIn(db, q) - set j | j in x.expired
  {
  }

  lemma FewerLeases(db: Db, db': Db, x: Txn, q: Name)
    requires RowsKept(db, x) && RowsKept(db', x) && KeepsQueue(db, db', x, q) && q in x.held
    ensures |LeasedIn(Own(db', x), q)| <= |LeasedIn(Own(db, x), q)|
  {
    OwnLeased(db, x, q);
    OwnLeased(db', x, q);
    Selection.SubsetCard(LeasedIn(Own(db', x), q), LeasedIn(Own(db, x), q));
  }

  lemma PicksOfQueue(db: Db, db': Db, x: Txn, q: Name)
    requires RowsKept(db, x) && RowsKept(db', x) && KeepsRowsOf(db, db', x)
    ensures InQueue(db'.jobs, x.picks, q) == InQueue(db.jobs, x.picks, q)
    ensures InQueue(Own(db, x).jobs, x.picks, q) == InQueue(db.jobs, x.picks, q)
    ensures InQueue(Own(db', x).jobs, x.picks, q) == InQueue(db.jobs, x.picks, q)
  {
    forall j | j in x.picks ensures j in db.jobs && j in db'.jobs && db'.jobs[j].queue == db.jobs[j].queue {
      assert OwnReady(db, x, j) && j in RowLocks(x);
    }
  }

  lemma KeptQueueStays(db: Db, db': Db, x: Txn, q: Name)
    requires RowsKept(db, x) && RowsKept(db', x) && KeepsRowsOf(db, db', x) && KeepsQueue(db, db', x, q)
    requires CappedAt(db, x, q)
    ensures CappedAt(db', x, q)
  {
    PicksOfQueue(db, db', x, q);
    if q in x.held { FewerLeases(db, db', x, q); }
  }

  lemma NoNewLeases(w: World, step: Step, q: Name)
    requires Legal(w, step) && !step.Claim?
    ensures LeasedIn(Apply(w, step).db, q) <= LeasedIn(w.db, q)
  {
  }

  /** Only claims lease rows, and queue settings wait for the queue's row lock. */
  lemma EnvKeepsQueue(w: World, step: Step, x: Txn, q: Name)
    requires Legal(w, step) && !step.Claim? && (step.Configure? ==> step.queue !in x.held)
    requires q in x.held ==> q in w.db.queues
    ensures KeepsQueue(w.db, Apply(w, step).db, x, q)
  {
    NoNewLeases(w, step, q);
  }

  lemma ClaimKeepsOtherQueue(w: World, step: Step, x: Txn, q: Name)
    requires Legal(w, step) && step.Claim? && (InQueue(w.db.jobs, step.ids, q) != {} ==> q !in x.held)
    ensures KeepsQueue(w.db, Apply(w, step).db, x, q)
  {
    if q in x.held {
      forall j | j in LeasedIn(Apply(w, step).db, q) ensures j in LeasedIn(w.db, q) {
        assert j !in InQueue(w.db.jobs, step.ids, q);
      }
    }
  }

  lemma CommitKeepsOthers(s: Sys, a: Action, t: nat, q: Name)
    requires SafeAt(s, q) && Enabled(s, a) && a.Commit? && t in s.txns && t != a.t
    requires s.world.db.jobs.Keys <= s.world.hist.birth.Keys
    ensures CappedAt(Next(s, a).world.db, s.txns[t], q)
  {
    var x, y := s.txns[t], s.txns[a.t];
    assert RowsKept(s.world.db, x) && RowsKept(s.world.db, y) && CappedAt(s.world.db, x, q)
        && CappedAt(s.world.db, y, q);
    assert RowLocks(x) !! RowLocks(y) && x.held !! y.held;
    RecoveryKeepsOther(s.world, x, y, q);
    assert Apply(s.world, RecoverStep(y)).db.jobs == Own(s.world.db, y).jobs by { RecoverGivesOwn(s.world, y); }
    PicksOfQueue(s.world.db, s.world.db, y, q);
    ClaimKeepsOther(Apply(s.world, RecoverStep(y)), x, y, q);
  }

  lemma RecoveryKeepsOther(w: World, x: Txn, y: Txn, q: Name)
    requires RowsKept(w.db, x) && CappedAt(w.db, x, q) && RowLocks(x) !! RowLocks(y) && Legal(w, RecoverStep(y))
    requires w.db.jobs.Keys <= w.hist.birth.Keys
    ensures RowsKept(Apply(w, RecoverStep(y)).db, x) && CappedAt(Apply(w, RecoverStep(y)).db, x, q)
  {
    var v := Apply(w, RecoverStep(y));
    EnvKeepsRows(w, RecoverStep(y), x);
    KeptRowsStay(w.db, v.db, x);
    EnvKeepsQueue(w, RecoverStep(y), x, q);
    KeptQueueStays(w.db, v.db, x, q);
  }

  lemma ClaimKeepsOther(w: World, x: Txn, y: Txn, q: Name)
    requires RowsKept(w.db, x) && CappedAt(w.db, x, q) && RowLocks(x) !! RowLocks(y) && Legal(w, ClaimStep(y))
    requires InQueue(w.db.jobs, y.picks, q) != {} ==> q !in x.held
    ensures CappedAt(Apply(w, ClaimStep(y)).db, x, q)
  {
    var v := Apply(w, ClaimStep(y));
    ClaimKeepsOtherRows(w, ClaimStep(y), x);
    KeptRowsStay(w.db, v.db, x);
    ClaimKeepsOtherQueue(w, ClaimStep(y), x, q);
    KeptQueueStays(w.db, v.db, x, q);
  }

  lemma EnvKeepsOthers(s: Sys, a: Action, t: nat, q: Name)
    requires SafeAt(s, q) && Enabled(s, a) && a.Env? && t in s.txns
    requires s.world.db.jobs.Keys <= s.world.hist.birth.Keys
    ensures CappedAt(Next(s, a).world.db, s.txns[t], q)
  {
    var x := s.txns[t];
    assert RowsKept(s.world.db, x) && CappedAt(s.world.db, x, q);
    EnvKeepsRows(s.world, a.step, x);
    KeptRowsStay(s.world.db, Next(s, a).world.db, x);
    assert a.step.Configure? ==> a.step.queue !in x.held;
    EnvKeepsQueue(s.world, a.step, x, q);
    KeptQueueStays(s.world.db, Next(s, a).world.db, x, q);
  }

  /** With the queue row locked before the snapshot, the slots it computes for q are free when the pick is made. */
  lemma PickFits(s: Sys, a: Action, q: Name)
    requires SafeAt(s, q) && Enabled(s, a) && a.Pick?
    ensures FitsQueue(Own(s.world.db, s.txns[a.t]), a.picks, q)
    ensures InQueue(Own(s.world.db, s.txns[a.t]).jobs, a.picks, q) != {} ==> q in s.txns[a.t].held
  {
    var x := s.txns[a.t];
    var own := Own(s.world.db, x);
    assert CappedAt(s.world.db, x, q) && RowsKept(s.world.db, x);
    PickTakesReady(s, a);
    if q in x.active {
      assert q in Elements(x.active);
    } else {
      assert InQueue(own.jobs, a.picks, q) == {};
    }
  }

  lemma ActorStaysCapped(s: Sys, a: Action, q: Name)
    requires SafeAt(s, q) && Enabled(s, a) && NoStray(s, a, q) && !a.Env? && !a.Commit? && !a.Abort?
    ensures CappedAt(Next(s, a).world.db, Next(s, a).txns[a.t], q)
  {
    if !a.Begin? { assert CappedAt(s.world.db, s.txns[a.t], q) && RowsKept(s.world.db, s.txns[a.t]); }
    match a
    case Lock(t) => LockStaysCapped(s.world.db, s.txns[t], q);
    case Snapshot(t, todo) =>
      var y := Next(s, a).txns[t];
      assert Own(s.world.db, y) == y.snap;
    case Pick(_, _, _) => PickStaysCapped(s, a, q);
    case _ =>
  }

  lemma PickStaysCapped(s: Sys, a: Action, q: Name)
    requires SafeAt(s, q) && Enabled(s, a) && a.Pick?
    ensures CappedAt(s.world.db, s.txns[a.t].(mode := Picked, picks := a.picks), q)
  {
    var x, y := s.txns[a.t], s.txns[a.t].(mode := Picked, picks := a.picks);
    assert CappedAt(s.world.db, x, q);
    PickFits(s, a, q);
    assert Own(s.world.db, y) == Own(s.world.db, x);
    OwnQueues(s.world.db, x, a.picks, q);
  }

  lemma OwnQueues(db: Db, x: Txn, ids: set<JobId>, q: Name)
    ensures InQueue(Own(db, x).jobs, ids, q) == InQueue(db.jobs, ids, q)
  {
  }

  lemma LockStaysCapped(db: Db, x: Txn, q: Name)
    requires CappedAt(db, x, q) && !x.mode.Picked? && x.todo != []
    ensures CappedAt(db, Locked(db, x), q)
  {
    var y := Locked(db, x);
    assert Own(db, y) == Own(db, x);
    assert x.todo == [x.todo[0]] + x.todo[1..];
    assert q in Elements(x.todo) <==> q == x.todo[0] || q in Elements(x.todo[1..]);
    assert q in Elements(x.active + [x.todo[0]]) <==> q in Elements(x.active) || q == x.todo[0];
  }

  lemma StepKeepsSafeAt(s: Sys, a: Action, q: Name)
    requires SafeAt(s, q) && Enabled(s, a) && NoStray(s, a, q) && s.world.db.jobs.Keys <= s.world.hist.birth.Keys
    ensures SafeAt(Next(s, a), q)
  {
    var s' := Next(s, a);
    StepKeepsRowSafe(s, a);
    forall t | t in s'.txns ensures CappedAt(s'.world.db, s'.txns[t], q) {
      match a
      case Commit(u) => CommitKeepsOthers(s, a, t, q);
      case Env(_) => EnvKeepsOthers(s, a, t, q);
      case Abort(_) => assert CappedAt(s.world.db, s.txns[t], q);
      case _ => if t == a.t { ActorStaysCapped(s, a, q); } else { assert CappedAt(s.world.db, s.txns[t], q); }
    }
  }

  // ---- all queues at once, under H2 ----

  ghost predicate Capped(db: Db, x: Txn) {
    && x.held <= db.queues.Keys
    && (!x.mode.First? ==> Elements(x.todo) <= x.held && Elements(x.active) <= x.held)
    && (x.mode.Second? ==> forall q | q in x.held :: |LeasedIn(Own(db, x), q)| <= |LeasedIn(x.snap, q)|)
    && (x.mode.Picked? ==>
          (forall q :: FitsQueue(Own(db, x), x.picks, q))
          && forall j | j in x.picks :: j in db.jobs && db.jobs[j].queue in x.held)
  }

  ghost predicate Safe(s: Sys) { RowSafe(s) && forall t | t in s.txns :: Capped(s.world.db, s.txns[t]) }

  lemma CappedIsCappedAt(db: Db, x: Txn)
    requires RowsKept(db, x)
    ensures Capped(db, x) <==> forall q :: CappedAt(db, x, q)
  {
    if Capped(db, x) {
      forall q ensures CappedAt(db, x, q) { PicksOfQueue(db, db, x, q); }
    }
    if forall q :: CappedAt(db, x, q) {
      forall q | q in x.held ensures q in db.queues { assert CappedAt(db, x, q); }
      if !x.mode.First? {
        forall q | q in Elements(x.todo) || q in Elements(x.active) ensures q in x.held { assert CappedAt(db, x, q); }
      }
      if x.mode.Second? {
        forall q | q in x.held ensures |LeasedIn(Own(db, x), q)| <= |LeasedIn(x.snap, q)| { assert CappedAt(db, x, q); }
      }
      if x.mode.Picked? {
        forall q ensures FitsQueue(Own(db, x), x.picks, q) { assert CappedAt(db, x, q); }
        forall j | j in x.picks ensures j in db.jobs && db.jobs[j].queue in x.held {
          assert OwnReady(db, x, j) && CappedAt(db, x, db.jobs[j].queue);
          assert j in InQueue(db.jobs, x.picks, db.jobs[j].queue);
        }
      }
    }
  }

  lemma SafeIsSafeAt(s: Sys)
    requires RowSafe(s)
    ensures Safe(s) <==> forall q :: SafeAt(s, q)
  {
    forall t | t in s.txns ensures Capped(s.world.db, s.txns[t]) <==> forall q :: CappedAt(s.world.db, s.txns[t], q) {
      CappedIsCappedAt(s.world.db, s.txns[t]);
    }
    if forall q :: SafeAt(s, q) {
      forall t, q | t in s.txns ensures CappedAt(s.world.db, s.txns[t], q) { assert SafeAt(s, q); }
    }
  }

  lemma StepKeepsSafe(s: Sys, a: Action)
    requires Safe(s) && Enabled(s, a) && NoNewQueue(s, a) && s.world.db.jobs.Keys <= s.world.hist.birth.Keys
    ensures Safe(Next(s, a))
  {
    SafeIsSafeAt(s);
    StepKeepsRowSafe(s, a);
    forall q ensures SafeAt(Next(s, a), q) { StepKeepsSafeAt(s, a, q); }
    SafeIsSafeAt(Next(s, a));
  }
}

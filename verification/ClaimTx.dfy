// Claim transactions (the body of _claim_loop's session): recover expired leases, lock the queue rows in name order,
// take the second statement's snapshot, pick, commit. Any number of them interleave with every other step.
module ClaimTx {
  import opened Rows
  import opened Statements
  import opened Protocol
  import opened Names
  import Selection

  /** First: recovering and running lock_claim_queues_statement. Second: running claim_jobs_statement, which locks its
      queue rows again. Picked: its update is done and uncommitted. */
  datatype Mode = First | Second | Picked

  datatype Txn = Txn(
    worker: WorkerId, names: set<Name>, batch: nat, lease: int,
    now: Time,                         // now() is the transaction's start
    expired: seq<JobId>,               // rows recovered and not yet committed
    mode: Mode,
    todo: seq<Name>,                   // queue rows the running statement has still to lock
    held: set<Name>,                   // queue rows locked
    active: seq<Name>,                 // the rows of locked_queues so far
    snap: Db,                          // what the second statement's snapshot shows the transaction
    picks: set<JobId>)                 // rows leased and not yet committed

  datatype Sys = Sys(world: World, txns: map<nat, Txn>)

  datatype Action =
    | Begin(t: nat, worker: WorkerId, names: set<Name>, batch: nat, lease: int, now: Time, expired: seq<JobId>,
            todo: seq<Name>)
    | Lock(t: nat)
    | Snapshot(t: nat, todo: seq<Name>)
    | Pick(t: nat, tops: map<Name, set<JobId>>, picks: set<JobId>)
    | Commit(t: nat)
    | Abort(t: nat)
    | Env(step: Step)

  /** The tables as the transaction sees them: committed rows and its own recoveries. */
  function Own(db: Db, x: Txn): Db {
    db.(jobs := map j | j in db.jobs :: if j in x.expired then RecoveredRow(db.jobs[j], x.now) else db.jobs[j])
  }

  function Unpaused(db: Db, names: set<Name>): set<Name> {
    set q | q in names && q in db.queues && !db.queues[q].paused
  }

  function Elements(names: seq<Name>): set<Name> { set q | q in names }

  /** The job rows an open transaction has locked. */
  function RowLocks(x: Txn): set<JobId> { x.picks + set j | j in x.expired }

  ghost predicate LockedByOther(s: Sys, t: nat, j: JobId) {
    exists u | u in s.txns :: u != t && j in RowLocks(s.txns[u])
  }

  /** GREATEST(concurrency_limit - leased_count, 0): the limit is read from the locked row, the count from the
      snapshot. */
  function Slots(db: Db, snap: Db, q: Name): nat {
    var free := LimitOf(db, q) - |LeasedIn(snap, q)|;
    if free > 0 then free else 0
  }

  function SlotMap(db: Db, snap: Db, active: seq<Name>): map<Name, nat> { map q | q in active :: Slots(db, snap, q) }

  /** Rows found by the snapshot that still pass on their current version and are not locked by others (SKIP LOCKED). */
  ghost function ReadyRows(s: Sys, t: nat): set<JobId>
    requires t in s.txns
  {
    var x := s.txns[t];
    var own := Own(s.world.db, x);
    set j | j in own.jobs && own.jobs[j].queue in x.active && Ready(own.jobs[j], x.now)
            && j in x.snap.jobs && Ready(x.snap.jobs[j], x.now) && !LockedByOther(s, t, j)
  }

  /** The rows a step would change; a step that changes a locked row waits, one that matches no row does not. */
  ghost function Touches(w: World, step: Step): set<JobId>
    requires Legal(w, step)
  {
    match step
    case Extend(j, worker, _, _) => if Owns(w.db, j, worker) then {j} else {}
    case Complete(e, _, _) => if FenceOpen(w, e) then {e.job} else {}
    case Fail(e, _, _, _, _, _) => if FenceOpen(w, e) then {e.job} else {}
    case Return(e, _) => if FenceOpen(w, e) then {e.job} else {}
    case Recover(ids, _) => set j | j in ids
    case Cancel(j, _) => if j in w.db.jobs && w.db.jobs[j].status == Pending then {j} else {}
    case Purge(ids, _, _, _) => ids
    case _ => {}
  }

  ghost predicate QueueHeld(s: Sys, q: Name) { exists t | t in s.txns :: q in s.txns[t].held }

  predicate HeldByOther(s: Sys, t: nat, q: Name) { exists u | u in s.txns :: u != t && q in s.txns[u].held }

  /** The committed effect of a claim transaction on the protocol. */
  function RecoverStep(x: Txn): Step { Recover(x.expired, x.now) }

  function ClaimStep(x: Txn): Step { Claim(x.worker, x.picks, x.now, x.lease) }

  ghost predicate CanCommit(w: World, x: Txn) {
    Legal(w, RecoverStep(x)) && Legal(Apply(w, RecoverStep(x)), ClaimStep(x))
  }

  ghost predicate Enabled(s: Sys, a: Action) {
    match a
    case Begin(t, _, names, _, _, now, expired, todo) =>
      && t !in s.txns
      && Distinct(expired)
      && (forall i | 0 <= i < |expired| ::
            && expired[i] in s.world.db.jobs && Expired(s.world.db.jobs[expired[i]], now)
            && !LockedByOther(s, t, expired[i]))
      && Ascending(todo) && Elements(todo) == Unpaused(s.world.db, names)
    case Lock(t) =>
      t in s.txns && s.txns[t].todo != [] && !s.txns[t].mode.Picked? && !HeldByOther(s, t, s.txns[t].todo[0])
    case Snapshot(t, todo) =>
      && t in s.txns && s.txns[t].mode.First? && s.txns[t].todo == []
      && Ascending(todo) && Elements(todo) == Unpaused(s.world.db, s.txns[t].names)
    case Pick(t, tops, picks) =>
      && t in s.txns && s.txns[t].mode.Second? && s.txns[t].todo == []
      && var x := s.txns[t];
         var own := Own(s.world.db, x);
         Selection.IsClaim(own.jobs, x.active, SlotMap(s.world.db, x.snap, x.active), ReadyRows(s, t), x.batch, tops,
             picks)
    case Commit(t) => t in s.txns && s.txns[t].mode.Picked? && CanCommit(s.world, s.txns[t])
    case Abort(t) => t in s.txns
    case Env(step) =>
      && Legal(s.world, step) && !step.Claim?
      && (forall t | t in s.txns :: Touches(s.world, step) !! RowLocks(s.txns[t]))
      && (step.Configure? ==> !QueueHeld(s, step.queue))
  }

  /** Locking a row re-evaluates the WHERE clause on its current version. */
  function Locked(db: Db, x: Txn): Txn
    requires x.todo != []
  {
    var q := x.todo[0];
    if q in Unpaused(db, x.names) then
      x.(todo := x.todo[1..], held := x.held + {q}, active := if x.mode.Second? then x.active + [q] else x.active)
    else
      x.(todo := x.todo[1..])
  }

  ghost function Next(s: Sys, a: Action): Sys
    requires Enabled(s, a)
  {
    match a
    case Begin(t, worker, names, batch, lease, now, expired, todo) =>
      s.(txns := s.txns[t := Txn(worker, names, batch, lease, now, expired, First, todo, {}, [], s.world.db, {})])
    case Lock(t) => s.(txns := s.txns[t := Locked(s.world.db, s.txns[t])])
    case Snapshot(t, todo) =>
      var x := s.txns[t];
      s.(txns := s.txns[t := x.(mode := Second, todo := todo, active := [], snap := Own(s.world.db, x))])
    case Pick(t, _, picks) => s.(txns := s.txns[t := s.txns[t].(mode := Picked, picks := picks)])
    case Commit(t) =>
      var x := s.txns[t];
      Sys(Apply(Apply(s.world, RecoverStep(x)), ClaimStep(x)), s.txns - {t})
    case Abort(t) => s.(txns := s.txns - {t})
    case Env(step) => s.(world := Apply(s.world, step))
  }

  /** Assumption H2: the second statement works only on queues the first has locked. */
  ghost predicate NoNewQueue(s: Sys, a: Action) {
    a.Snapshot? && a.t in s.txns ==> Elements(a.todo) <= s.txns[a.t].held
  }

  ghost predicate EnabledRun(s: Sys, run: seq<Action>)
    decreases |run|
  {
    run != [] ==> Enabled(s, run[0]) && EnabledRun(Next(s, run[0]), run[1..])
  }

  ghost function AfterAll(s: Sys, run: seq<Action>): Sys
    requires EnabledRun(s, run)
    decreases |run|
  {
    if run == [] then s else AfterAll(Next(s, run[0]), run[1..])
  }

  ghost predicate NoNewQueueRun(s: Sys, run: seq<Action>)
    requires EnabledRun(s, run)
    decreases |run|
  {
    run != [] ==> NoNewQueue(s, run[0]) && NoNewQueueRun(Next(s, run[0]), run[1..])
  }

  // ---- composing runs ----

  lemma RunOne(s: Sys, a: Action)
    requires Enabled(s, a)
    ensures EnabledRun(s, [a]) && AfterAll(s, [a]) == Next(s, a)
  {
    assert [a][1..] == [];
  }

  lemma RunAfter(s: Sys, a: Action, rest: seq<Action>)
    requires Enabled(s, a) && EnabledRun(Next(s, a), rest)
    ensures EnabledRun(s, [a] + rest) && AfterAll(s, [a] + rest) == AfterAll(Next(s, a), rest)
  {
    assert ([a] + rest)[1..] == rest;
  }

  /** Three actions that follow each other are a run. */
  lemma RunThree(s: Sys, a: Action, s1: Sys, b: Action, s2: Sys, c: Action, s3: Sys)
    requires Enabled(s, a) && s1 == Next(s, a) && Enabled(s1, b) && s2 == Next(s1, b) && Enabled(s2, c)
              && s3 == Next(s2, c)
    ensures EnabledRun(s, [a, b, c]) && AfterAll(s, [a, b, c]) == s3
  {
    RunOne(s2, c);
    assert [b, c][1..] == [c] && [a, b, c][1..] == [b, c];
    assert EnabledRun(s1, [b, c]) && AfterAll(s1, [b, c]) == s3;
  }

  lemma {:induction false} RunsJoin(s: Sys, a: seq<Action>, b: seq<Action>)
    requires EnabledRun(s, a) && EnabledRun(AfterAll(s, a), b)
    ensures EnabledRun(s, a + b) && AfterAll(s, a + b) == AfterAll(AfterAll(s, a), b)
    decreases |a|
  {
    if a == [] {
      assert a + b == b;
    } else {
      var head, tail := a[0], a[1..];
      assert a + b == [head] + (tail + b);
      RunsJoin(Next(s, head), tail, b);
      RunAfter(s, head, tail + b);
    }
  }
}

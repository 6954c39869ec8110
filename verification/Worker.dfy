// The claim loop and the shutdown of the worker (src/pgrelay/worker/runner.py): the map of tasks in flight and its
// capacity, while tasks finish at any await.
module Worker {
  import opened Rows

  /** The identity of an asyncio task: its rank of creation. */
  type TaskId = nat

  /** The _inflight map, the number of tasks created so far, the tasks whose done callback has run, and the most tasks
      ever in flight. */
  datatype Pool = Pool(inflight: map<TaskId, JobId>, next: TaskId, finished: set<TaskId>, peak: nat)

  /** Every task created is in flight or finished, and the map has never held more than cap tasks. */
  ghost predicate Fits(p: Pool, cap: nat) {
    && |p.inflight| <= p.peak <= cap
    && (forall t: TaskId :: t < p.next <==> t in p.inflight || t in p.finished)
    && (forall t | t in p.finished :: t !in p.inflight)
  }

  /** The tasks from base on run the jobs started, in order. */
  ghost predicate Carries(p: Pool, base: TaskId, started: seq<JobId>) {
    p.next == base + |started| && forall t | t in p.inflight && base <= t < p.next :: p.inflight[t] == started[t - base]
  }

  // ---- single changes ----

  /** _inflight.pop(task, None). */
  function Pop(p: Pool, t: TaskId): Pool {
    if t in p.inflight then p.(inflight := p.inflight - {t}, finished := p.finished + {t}) else p
  }

  function Start(p: Pool, job: JobId): Pool {
    var size := |p.inflight| + 1;
    p.(inflight := p.inflight[p.next := job], next := p.next + 1, peak := if size > p.peak then size else p.peak)
  }

  function PopAll(p: Pool, done: seq<TaskId>): Pool
    decreases |done|
  {
    if done == [] then p else PopAll(Pop(p, done[0]), done[1..])
  }

  function StartAll(p: Pool, jobs: seq<JobId>): Pool
    decreases |jobs|
  {
    if jobs == [] then p else StartAll(Start(p, jobs[0]), jobs[1..])
  }

  lemma PopFits(p: Pool, cap: nat, t: TaskId)
    requires Fits(p, cap)
    ensures Fits(Pop(p, t), cap) && |Pop(p, t).inflight| == |p.inflight| - if t in p.inflight then 1 else 0
  {
    if t in p.inflight {
      var m := p.inflight - {t};
      assert p.inflight == m[t := p.inflight[t]];
      assert |p.inflight| == |m| + 1;
    }
  }

  lemma StartFits(p: Pool, cap: nat, job: JobId)
    requires Fits(p, cap) && |p.inflight| < cap
    ensures Fits(Start(p, job), cap) && |Start(p, job).inflight| == |p.inflight| + 1
  {
    assert p.next !in p.inflight;
  }

  lemma {:induction false} PopAllFits(p: Pool, cap: nat, done: seq<TaskId>)
    requires Fits(p, cap)
    ensures Fits(PopAll(p, done), cap) && |PopAll(p, done).inflight| <= |p.inflight|
    ensures PopAll(p, done).next == p.next && PopAll(p, done).peak == p.peak
    decreases |done|
  {
    if done != [] {
      PopFits(p, cap, done[0]);
      PopAllFits(Pop(p, done[0]), cap, done[1..]);
    }
  }

  lemma {:induction false} StartAllFits(p: Pool, cap: nat, jobs: seq<JobId>)
    requires Fits(p, cap) && |p.inflight| + |jobs| <= cap
    ensures Fits(StartAll(p, jobs), cap) && |StartAll(p, jobs).inflight| == |p.inflight| + |jobs|
    decreases |jobs|
  {
    if jobs != [] {
      StartFits(p, cap, jobs[0]);
      StartAllFits(Start(p, jobs[0]), cap, jobs[1..]);
    }
  }

  lemma {:induction false} PopAllCarries(p: Pool, done: seq<TaskId>, base: TaskId, started: seq<JobId>)
    requires Carries(p, base, started)
    ensures Carries(PopAll(p, done), base, started)
    decreases |done|
  {
    if done != [] { PopAllCarries(Pop(p, done[0]), done[1..], base, started); }
  }

  lemma {:induction false} StartAllCarries(p: Pool, jobs: seq<JobId>, base: TaskId, started: seq<JobId>)
    requires Carries(p, base, started)
    ensures Carries(StartAll(p, jobs), base, started + jobs)
    decreases |jobs|
  {
    if jobs == [] {
      assert started + jobs == started;
    } else {
      assert (started + [jobs[0]]) + jobs[1..] == started + jobs;
      StartAllCarries(Start(p, jobs[0]), jobs[1..], base, started + [jobs[0]]);
    }
  }

  // ---- the claim loop as a function of what happens around it ----

  /** What happens around one iteration. early, late and last are the tasks that finish while it awaits: up to the
      computation of the free slots, between that and the creation of the tasks, and in the sleep or wait at the end.
      offered is what the claim would return without its limit. */
  datatype Turn = Turn(stop: bool, early: seq<TaskId>, raisesEarly: bool, offered: seq<JobId>, late: seq<TaskId>,
                       raisesLate: bool, last: seq<TaskId>)

  /** LIMIT batch. */
  function Selected(offered: seq<JobId>, batch: nat): seq<JobId> {
    if batch < |offered| then offered[..batch] else offered
  }

  function BatchFor(p: Pool, cap: nat, batchSize: nat): nat {
    var free := cap - |p.inflight|;
    if batchSize < free then batchSize else if free > 0 then free else 0
  }

  /** One iteration: the jobs it starts, and what it leaves in flight. An exception leaves its jobs to lease expiry. */
  function Jobs(p: Pool, cap: nat, batchSize: nat, turn: Turn): seq<JobId> {
    if turn.raisesEarly || turn.raisesLate then [] else
      Selected(turn.offered, BatchFor(PopAll(p, turn.early), cap, batchSize))
  }

  function Iteration(p: Pool, cap: nat, batchSize: nat, turn: Turn): Pool {
    var first := PopAll(p, turn.early);
    var second := if turn.raisesEarly then first else PopAll(first, turn.late);
    PopAll(StartAll(second, Jobs(p, cap, batchSize, turn)), turn.last)
  }

  /** The loop stops when asked to, and blocks while the map is full and no task finishes. */
  function Loop(p: Pool, cap: nat, batchSize: nat, stopping: bool, turns: seq<Turn>): Pool
    decreases |turns|
  {
    if turns == [] || stopping || turns[0].stop then p else
      var q := Iteration(p, cap, batchSize, turns[0]);
      if |q.inflight| >= cap then q else Loop(q, cap, batchSize, false, turns[1..])
  }

  /** The jobs the loop starts tasks for, and the batches it asks for: none if the session fails before the claim. */
  function AllJobs(p: Pool, cap: nat, batchSize: nat, stopping: bool, turns: seq<Turn>): seq<JobId>
    decreases |turns|
  {
    if turns == [] || stopping || turns[0].stop then [] else
      var q, jobs := Iteration(p, cap, batchSize, turns[0]), Jobs(p, cap, batchSize, turns[0]);
      if |q.inflight| >= cap then jobs else jobs + AllJobs(q, cap, batchSize, false, turns[1..])
  }

  function Asks(p: Pool, cap: nat, batchSize: nat, turn: Turn): seq<nat> {
    if turn.raisesEarly then [] else [BatchFor(PopAll(p, turn.early), cap, batchSize)]
  }

  function AllAsks(p: Pool, cap: nat, batchSize: nat, stopping: bool, turns: seq<Turn>): seq<nat>
    decreases |turns|
  {
    if turns == [] || stopping || turns[0].stop then [] else
      var q, asks := Iteration(p, cap, batchSize, turns[0]), Asks(p, cap, batchSize, turns[0]);
      if |q.inflight| >= cap then asks else asks + AllAsks(q, cap, batchSize, false, turns[1..])
  }

  /** A session asks for as many jobs as the batch size and the free slots allow, and for no more. */
  lemma BatchIsTheMinimum(p: Pool, cap: nat, batchSize: nat)
    ensures var n := BatchFor(p, cap, batchSize);
            && n <= batchSize && (|p.inflight| <= cap ==> |p.inflight| + n <= cap)
            && (n < batchSize ==> |p.inflight| + n >= cap)
  {
  }

  /** Of the jobs offered a session that does not fail starts the first ones: all of them, unless the batch size or the
      free slots do not allow it. A session that fails starts none. */
  lemma StartsAllItCan(p: Pool, cap: nat, batchSize: nat, turn: Turn)
    requires Fits(p, cap)
    ensures var jobs, first := Jobs(p, cap, batchSize, turn), PopAll(p, turn.early);
            if turn.raisesEarly || turn.raisesLate then jobs == []
            else
              && jobs <= turn.offered
              && (|jobs| < |turn.offered| ==> |jobs| == batchSize || |first.inflight| + |jobs| == cap)
              && |jobs| <= batchSize && |first.inflight| + |jobs| <= cap
  {
    PopAllFits(p, cap, turn.early);
  }

  /** The callbacks take exactly their tasks out of the map. */
  lemma {:induction false} PopAllRemoves(p: Pool, done: seq<TaskId>)
    ensures PopAll(p, done).inflight.Keys == p.inflight.Keys - set t | t in done
    decreases |done|
  {
    if done != [] {
      PopAllRemoves(Pop(p, done[0]), done[1..]);
      assert (set t | t in done) == {done[0]} + set t | t in done[1..];
    }
  }

  /** A free slot is a batch of at least one, and the tasks started fit although others may have finished meanwhile. */
  lemma IterationFits(p: Pool, cap: nat, batchSize: nat, turn: Turn)
    requires Fits(p, cap) && |p.inflight| < cap && batchSize >= 1
    ensures 1 <= BatchFor(PopAll(p, turn.early), cap, batchSize) <= batchSize
    ensures Fits(Iteration(p, cap, batchSize, turn), cap)
    ensures Iteration(p, cap, batchSize, turn).next == p.next + |Jobs(p, cap, batchSize, turn)|
  {
    var first := PopAll(p, turn.early);
    PopAllFits(p, cap, turn.early);
    PopAllFits(first, cap, turn.late);
    var second := if turn.raisesEarly then first else PopAll(first, turn.late);
    StartAllFits(second, cap, Jobs(p, cap, batchSize, turn));
    StartAllCarries(second, Jobs(p, cap, batchSize, turn), second.next, []);
    PopAllFits(StartAll(second, Jobs(p, cap, batchSize, turn)), cap, turn.last);
  }

  /** Capacity: whatever finishes, fails or is offered when, and for however long the loop runs, the map never holds
      more than worker_concurrency tasks. And whenever slots are computed one is free: max(0, free) never clamps, and
      every session that gets that far asks for at least one job. */
  lemma {:induction false} NeverAboveCapacity(p: Pool, cap: nat, batchSize: nat, stopping: bool, turns: seq<Turn>)
    requires Fits(p, cap) && |p.inflight| < cap && batchSize >= 1
    ensures Fits(Loop(p, cap, batchSize, stopping, turns), cap) && Loop(p, cap, batchSize, stopping, turns).peak <= cap
    ensures forall n | n in AllAsks(p, cap, batchSize, stopping, turns) :: 1 <= n <= batchSize
    decreases |turns|
  {
    if turns != [] && !stopping && !turns[0].stop {
      var q := Iteration(p, cap, batchSize, turns[0]);
      IterationFits(p, cap, batchSize, turns[0]);
      if |q.inflight| < cap { NeverAboveCapacity(q, cap, batchSize, false, turns[1..]); }
    }
  }

  /** Every job of a committed claim gets a task of its own: the tasks created are the jobs of the iterations, in
      order. */
  lemma IterationCarries(p: Pool, cap: nat, batchSize: nat, turn: Turn, base: TaskId,
                         started: seq<JobId>)
    requires Carries(p, base, started)
    ensures Carries(Iteration(p, cap, batchSize, turn), base, started + Jobs(p, cap, batchSize, turn))
  {
    var first, jobs := PopAll(p, turn.early), Jobs(p, cap, batchSize, turn);
    PopAllCarries(p, turn.early, base, started);
    PopAllCarries(first, turn.late, base, started);
    var second := if turn.raisesEarly then first else PopAll(first, turn.late);
    StartAllCarries(second, jobs, base, started);
    PopAllCarries(StartAll(second, jobs), turn.last, base, started + jobs);
  }

  /** One turn of the loop, with what has been started and asked before it. */
  lemma Unroll(p: Pool, cap: nat, batchSize: nat, turns: seq<Turn>, n: nat, started: seq<JobId>,
               asked: seq<nat>)
    requires n < |turns| && !turns[n].stop
    ensures var q, rest := Iteration(p, cap, batchSize, turns[n]), turns[n + 1..];
            var jobs, asks := Jobs(p, cap, batchSize, turns[n]), Asks(p, cap, batchSize, turns[n]);
            && Loop(p, cap, batchSize, false, turns[n..])
               == (if |q.inflight| >= cap then q else Loop(q, cap, batchSize, false, rest))
            && started + AllJobs(p, cap, batchSize, false, turns[n..])
               == (started + jobs) + (if |q.inflight| >= cap then [] else AllJobs(q, cap, batchSize, false, rest))
            && asked + AllAsks(p, cap, batchSize, false, turns[n..])
               == (asked + asks) + (if |q.inflight| >= cap then [] else AllAsks(q, cap, batchSize, false, rest))
  {
    assert turns[n..][0] == turns[n] && turns[n..][1..] == turns[n + 1..];
  }

  lemma Stops(p: Pool, cap: nat, batchSize: nat, stopping: bool, turns: seq<Turn>, n: nat,
              started: seq<JobId>, asked: seq<nat>)
    requires n < |turns| && (stopping || turns[n].stop)
    ensures Loop(p, cap, batchSize, stopping, turns[n..]) == p
    ensures started + AllJobs(p, cap, batchSize, stopping, turns[n..]) == started
    ensures asked + AllAsks(p, cap, batchSize, stopping, turns[n..]) == asked
  {
    assert turns[n..][0] == turns[n];
    NothingMore(started, asked);
  }

  lemma NothingMore(started: seq<JobId>, asked: seq<nat>)
    ensures started + [] == started && asked + [] == asked
  {
  }

  /** Over the whole loop: every claimed job gets one task, in order. */
  lemma {:induction false} LoopCarries(p: Pool, cap: nat, batchSize: nat, stopping: bool, turns: seq<Turn>,
                                       base: TaskId, started: seq<JobId>)
    requires Carries(p, base, started)
    ensures Carries(Loop(p, cap, batchSize, stopping, turns), base, started
              + AllJobs(p, cap, batchSize, stopping, turns))
    decreases |turns|
  {
    assert started + [] == started;
    if turns != [] && !stopping && !turns[0].stop {
      var q, jobs := Iteration(p, cap, batchSize, turns[0]), Jobs(p, cap, batchSize, turns[0]);
      IterationCarries(p, cap, batchSize, turns[0], base, started);
      if |q.inflight| < cap {
        LoopCarries(q, cap, batchSize, false, turns[1..], base, started + jobs);
        var rest := AllJobs(q, cap, batchSize, false, turns[1..]);
        assert (started + jobs) + rest == started + (jobs + rest);
      }
    }
  }

  class WorkerRunner {
    const concurrency: nat
    const batchSize: nat
    var stopping: bool
    var pool: Pool

    ghost predicate Valid()
      reads this
    {
      concurrency >= 1 && batchSize >= 1 && Fits(pool, concurrency)
    }

    /** The settings bound both sizes below by one. */
    constructor (concurrency: nat, batchSize: nat)
      requires concurrency >= 1 && batchSize >= 1
      ensures Valid() && pool == Pool(map[], 0, {}, 0) && !stopping
      ensures this.concurrency == concurrency && this.batchSize == batchSize
    {
      this.concurrency, this.batchSize := concurrency, batchSize;
      stopping, pool := false, Pool(map[], 0, {}, 0);
    }

    method RequestStop()
      modifies this`stopping
      ensures stopping
    {
      stopping := true;
    }

    /** The done callback. */
    method OnInflightDone(task: TaskId)
      requires Valid()
      modifies this`pool
      ensures Valid() && pool == Pop(old(pool), task)
    {
      PopFits(pool, concurrency, task);
      if task in pool.inflight {
        pool := pool.(inflight := pool.inflight - {task}, finished := pool.finished + {task});
      }
    }

    /** The callbacks that run while the worker awaits. */
    method Await(done: seq<TaskId>)
      requires Valid()
      modifies this`pool
      ensures Valid() && pool == PopAll(old(pool), done)
    {
      var i := 0;
      while i < |done|
        invariant 0 <= i <= |done| && Valid() && PopAll(pool, done[i..]) == PopAll(old(pool), done)
      {
        assert done[i..][1..] == done[i + 1..];
        OnInflightDone(done[i]);
        i := i + 1;
      }
    }

    /** Create a task for each claimed job. */
    method StartTasks(jobs: seq<JobId>)
      requires Valid() && |pool.inflight| + |jobs| <= concurrency
      modifies this`pool
      ensures Valid() && pool == StartAll(old(pool), jobs)
    {
      var i := 0;
      while i < |jobs|
        invariant 0 <= i <= |jobs| && Valid() && StartAll(pool, jobs[i..]) == StartAll(old(pool), jobs)
        invariant |pool.inflight| + |jobs| - i <= concurrency
      {
        assert jobs[i..][1..] == jobs[i + 1..];
        StartFits(pool, concurrency, jobs[i]);
        pool := Start(pool, jobs[i]);
        i := i + 1;
      }
    }

    /** One session of the loop: recover, compute the free slots, claim, commit. Tasks may finish before and after the
        slots are computed; the claim returns at most the batch it is asked for. */
    method ClaimBatch(turn: Turn) returns (jobs: seq<JobId>, asked: Option<nat>)
      requires Valid()
      modifies this`pool
      ensures Valid()
      ensures var first := PopAll(old(pool), turn.early);
              if turn.raisesEarly then asked == None && pool == first
              else asked == Some(BatchFor(first, concurrency, batchSize)) && pool == PopAll(first, turn.late)
      ensures jobs == if asked.Some? && !turn.raisesLate then Selected(turn.offered, asked.value) else []
      ensures |pool.inflight| <= |old(pool).inflight| && |pool.inflight| + |jobs| <= concurrency
    {
      jobs, asked := [], None;
      PopAllFits(pool, concurrency, turn.early);
      Await(turn.early);
      if turn.raisesEarly {
        return;
      }
      var freeSlots := concurrency - |pool.inflight|;
      var batch := if batchSize < freeSlots then batchSize else if freeSlots > 0 then freeSlots else 0;
      asked := Some(batch);
      if batch > 0 {
        jobs := Selected(turn.offered, batch);
      }
      PopAllFits(pool, concurrency, turn.late);
      Await(turn.late);
      if turn.raisesLate {
        jobs := [];
      }
    }

    /** The body of the loop: the session, a task for each job, and the sleep or wait. */
    method Iterate(turn: Turn) returns (jobs: seq<JobId>, asked: Option<nat>)
      requires Valid() && |pool.inflight| < concurrency
      modifies this`pool
      ensures Valid() && pool == Iteration(old(pool), concurrency, batchSize, turn)
      ensures jobs == Jobs(old(pool), concurrency, batchSize, turn)
      ensures (if asked.Some? then [asked.value] else []) == Asks(old(pool), concurrency, batchSize, turn)
    {
      IterationFits(pool, concurrency, batchSize, turn);
      jobs, asked := ClaimBatch(turn);
      StartTasks(jobs);
      Await(turn.last);
    }

    /** Run the claim loop for as long as the script lasts, or until it is stopped or waits for a task that does not
        finish. */
    method ClaimLoop(turns: seq<Turn>) returns (asked: seq<nat>, started: seq<JobId>)
      requires Valid() && |pool.inflight| < concurrency
      modifies this
      ensures Valid() && pool == Loop(old(pool), concurrency, batchSize, old(stopping), turns)
      ensures started == AllJobs(old(pool), concurrency, batchSize, old(stopping), turns)
      ensures asked == AllAsks(old(pool), concurrency, batchSize, old(stopping), turns)
    {
      asked, started := [], [];
      var n := 0;
      while n < |turns|
        invariant 0 <= n <= |turns| && Valid() && |pool.inflight| < concurrency
        invariant Loop(pool, concurrency, batchSize, stopping, turns[n..])
               == Loop(old(pool), concurrency, batchSize, old(stopping), turns)
        invariant started + AllJobs(pool, concurrency, batchSize, stopping, turns[n..])
               == AllJobs(old(pool), concurrency, batchSize, old(stopping), turns)
        invariant asked + AllAsks(pool, concurrency, batchSize, stopping, turns[n..])
               == AllAsks(old(pool), concurrency, batchSize, old(stopping), turns)
      {
        var turn := turns[n];
        if turn.stop || stopping { Stops(pool, concurrency, batchSize, stopping, turns, n, started, asked); }
        if turn.stop { RequestStop(); }
        if stopping {
          return;
        }
        Unroll(pool, concurrency, batchSize, turns, n, started, asked);
        NothingMore(started + Jobs(pool, concurrency, batchSize, turn), asked
            + Asks(pool, concurrency, batchSize, turn));
        var jobs, batch := Iterate(turn);
        asked := asked + if batch.Some? then [batch.value] else [];
        started := started + jobs;
        if |pool.inflight| >= concurrency {
          return;
        }
        n := n + 1;
      }
      NothingMore(started, asked);
    }

    /** Shut down: the tasks that finish within the grace period are popped, the others are cancelled and awaited, and
        the done callbacks may find a task popped already. */
    method ShutdownInflight(done: seq<TaskId>, callbacks: seq<TaskId>) returns (cancelled: set<TaskId>)
      requires Valid()
      modifies this`pool
      ensures Valid() && pool.inflight == map[] && pool.next == old(pool).next && pool.peak == old(pool).peak
      ensures cancelled == old(pool).inflight.Keys - set t | t in done
    {
      PopAllRemoves(pool, done);
      PopAllFits(pool, concurrency, done);
      Await(done);
      cancelled := pool.inflight.Keys;
      while pool.inflight.Keys != {}
        invariant Valid() && pool.next == old(pool).next && pool.peak == old(pool).peak
        decreases |pool.inflight|
      {
        var task :| task in pool.inflight.Keys;
        PopFits(pool, concurrency, task);
        OnInflightDone(task);
      }
      assert pool.inflight == map[];
      PopAllFits(pool, concurrency, callbacks);
      Await(callbacks);
    }
  }
}

// The settings of a queue over whole runs, and that nothing is claimed from a paused queue, however transactions
// interleave.
module Queues {
  import opened Rows
  import opened Statements
  import opened Protocol
  import opened Accounting
  import opened ClaimTx
  import opened ClaimSafety
  import opened ClaimLimits

  // ---- settings ----

  /** An enqueue or an administrator names q, which creates it when it is missing. */
  predicate Names(s: Step, q: Name) { (s.Insert? && s.ask.queue == q) || (s.Configure? && s.queue == q) }

  predicate NamedIn(run: seq<Step>, q: Name) { exists i | 0 <= i < |run| :: Names(run[i], q) }

  /** The last value that the run gives a setting of q, if it gives one. */
  function LastPaused(run: seq<Step>, q: Name): Option<bool>
    decreases |run|
  {
    if run == [] then None else
      var later := LastPaused(run[1..], q);
      if later.Some? then later else if run[0].Configure? && run[0].queue == q then run[0].paused else None
  }

  function LastLimit(run: seq<Step>, q: Name): Option<int>
    decreases |run|
  {
    if run == [] then None else
      var later := LastLimit(run[1..], q);
      if later.Some? then later else if run[0].Configure? && run[0].queue == q then run[0].limit else None
  }

  /** The settings of q, those of a queue not yet created being the defaults. */
  function PausedIn(db: Db, q: Name): bool { q in db.queues && db.queues[q].paused }

  function LimitIn(db: Db, q: Name): int { if q in db.queues then db.queues[q].limit else 8 }

  function Or<T>(o: Option<T>, otherwise: T): T { if o.Some? then o.value else otherwise }

  lemma ResultKeepsQueues(w: World, s: Step)
    requires Legal(w, s) && (s.Complete? || s.Fail?)
    ensures Apply(w, s).db.queues == w.db.queues
  {
  }

  lemma StepSetsQueue(w: World, s: Step, q: Name)
    requires Legal(w, s)
    ensures q in Apply(w, s).db.queues <==> q in w.db.queues || Names(s, q)
    ensures PausedIn(Apply(w, s).db, q)
         == if s.Configure? && s.queue == q && s.paused.Some? then s.paused.value else PausedIn(w.db, q)
    ensures LimitIn(Apply(w, s).db, q)
         == if s.Configure? && s.queue == q && s.limit.Some? then s.limit.value else LimitIn(w.db, q)
  {
    if s.Complete? || s.Fail? { ResultKeepsQueues(w, s); }
  }

  lemma {:induction false} RunSetsQueue(w: World, run: seq<Step>, q: Name)
    requires LegalRun(w, run)
    ensures q in After(w, run).db.queues <==> q in w.db.queues || NamedIn(run, q)
    ensures PausedIn(After(w, run).db, q) == Or(LastPaused(run, q), PausedIn(w.db, q))
    ensures LimitIn(After(w, run).db, q) == Or(LastLimit(run, q), LimitIn(w.db, q))
    decreases |run|
  {
    if run != [] {
      StepSetsQueue(w, run[0], q);
      RunSetsQueue(Apply(w, run[0]), run[1..], q);
      NamedInTail(run, q);
    }
  }

  lemma NamedInTail(run: seq<Step>, q: Name)
    requires run != []
    ensures NamedIn(run, q) <==> Names(run[0], q) || NamedIn(run[1..], q)
  {
    if NamedIn(run[1..], q) {
      var i :| 0 <= i < |run[1..]| && Names(run[1..][i], q);
      assert Names(run[i + 1], q);
    }
    if i :| 0 < i < |run| && Names(run[i], q) { assert Names(run[1..][i - 1], q); }
  }

  /** Over all runs: a queue exists when an enqueue or an administrator has named it, and each of its settings is the
      last that was given for it, or the default: running, with a limit of eight. Giving one leaves the other alone. */
  lemma SettingsAreTheLast(run: seq<Step>, q: Name)
    requires LegalRun(EMPTY, run)
    ensures var queues := After(EMPTY, run).db.queues;
            && (q in queues <==> NamedIn(run, q))
            && (q in queues ==> queues[q].paused == Or(LastPaused(run, q), false)
                                && queues[q].limit == Or(LastLimit(run, q), 8))
  {
    RunSetsQueue(EMPTY, run, q);
  }

  // ---- paused queues ----

  /** What an open claim transaction works on, it asked for, has locked, and finds running. */
  predicate HoldsRunning(db: Db, x: Txn) {
    && (forall q | q in x.active :: q in x.held)
    && (forall q | q in x.held :: q in x.names && q in db.queues && !db.queues[q].paused)
  }

  ghost predicate AllHoldRunning(s: Sys) { forall t | t in s.txns :: HoldsRunning(s.world.db, s.txns[t]) }

  ghost predicate PicksActive(s: Sys) {
    forall t, j | t in s.txns && j in s.txns[t].picks ::
      j in s.world.db.jobs && s.world.db.jobs[j].queue in s.txns[t].active
  }

  lemma QueueStays(w: World, s: Step, q: Name)
    requires Legal(w, s) && q in w.db.queues && !(s.Configure? && s.queue == q)
    ensures q in Apply(w, s).db.queues && Apply(w, s).db.queues[q].paused == w.db.queues[q].paused
  {
    StepSetsQueue(w, s, q);
  }

  lemma OthersKeepRunning(w: World, s: Step, x: Txn)
    requires Legal(w, s) && HoldsRunning(w.db, x) && (s.Configure? ==> s.queue !in x.held)
    ensures HoldsRunning(Apply(w, s).db, x)
  {
    forall q | q in x.held ensures q in Apply(w, s).db.queues && !Apply(w, s).db.queues[q].paused {
      QueueStays(w, s, q);
    }
  }

  lemma StepKeepsRunning(s: Sys, a: Action)
    requires AllHoldRunning(s) && Enabled(s, a)
    ensures AllHoldRunning(Next(s, a))
  {
    var s' := Next(s, a);
    forall t | t in s'.txns ensures HoldsRunning(s'.world.db, s'.txns[t]) {
      if t in s.txns { assert HoldsRunning(s.world.db, s.txns[t]); }
      match a
      case Commit(u) =>
        OthersKeepRunning(s.world, RecoverStep(s.txns[u]), s.txns[t]);
        OthersKeepRunning(Apply(s.world, RecoverStep(s.txns[u])), ClaimStep(s.txns[u]), s.txns[t]);
      case Env(step) => OthersKeepRunning(s.world, step, s.txns[t]);
      case _ =>
    }
  }

  lemma {:induction false} RunKeepsRunning(s: Sys, run: seq<Action>)
    requires AllHoldRunning(s) && EnabledRun(s, run)
    ensures AllHoldRunning(AfterAll(s, run))
    decreases |run|
  {
    if run != [] {
      StepKeepsRunning(s, run[0]);
      RunKeepsRunning(Next(s, run[0]), run[1..]);
    }
  }

  lemma KeptPick(s: Sys, a: Action, t: nat, j: JobId)
    requires RowSafe(s) && Enabled(s, a) && s.world.db.jobs.Keys <= s.world.hist.birth.Keys
    requires t in s.txns && t in Next(s, a).txns && j in s.txns[t].picks && !(a.Pick? && a.t == t)
    requires j in s.world.db.jobs && j in Next(s, a).world.db.jobs
    ensures Next(s, a).world.db.jobs[j].queue == s.world.db.jobs[j].queue
    ensures Next(s, a).txns[t].mode.Picked? ==> Next(s, a).txns[t].active == s.txns[t].active
  {
    var x := s.txns[t];
    assert RowsKept(s.world.db, x);
    match a
    case Commit(u) =>
      var y := s.txns[u];
      RecoverGivesOwn(s.world, y);
    case Env(step) => EnvKeepsRows(s.world, step, x);
    case _ =>
  }

  lemma PickIsActive(s: Sys, a: Action, j: JobId)
    requires a.Pick? && Enabled(s, a) && j in a.picks
    ensures j in s.world.db.jobs && s.world.db.jobs[j].queue in s.txns[a.t].active
  {
    PickTakesReady(s, a);
  }

  lemma OldPickStays(s: Sys, a: Action, t: nat, j: JobId)
    requires RowSafe(s) && PicksActive(s) && Enabled(s, a) && s.world.db.jobs.Keys <= s.world.hist.birth.Keys
    requires t in s.txns && t in Next(s, a).txns && j in s.txns[t].picks && Next(s, a).txns[t].mode.Picked?
    requires j in Next(s, a).world.db.jobs && !(a.Pick? && a.t == t)
    ensures Next(s, a).world.db.jobs[j].queue in Next(s, a).txns[t].active
  {
    assert j in s.world.db.jobs && s.world.db.jobs[j].queue in s.txns[t].active;
    KeptPick(s, a, t, j);
  }

  lemma PicksOf(s: Sys, a: Action, t: nat)
    requires RowSafe(s) && Enabled(s, a) && t in Next(s, a).txns && Next(s, a).txns[t].picks != {}
    ensures if a.Pick? && a.t == t then Next(s, a).txns[t].picks == a.picks && Next(s, a).world == s.world
                                        && Next(s, a).txns[t].active == s.txns[t].active
            else t in s.txns && Next(s, a).txns[t].picks == s.txns[t].picks
  {
  }

  lemma PickStaysActive(s: Sys, a: Action, t: nat, j: JobId)
    requires RowSafe(s) && PicksActive(s) && Enabled(s, a) && s.world.db.jobs.Keys <= s.world.hist.birth.Keys
    requires RowSafe(Next(s, a)) && t in Next(s, a).txns && j in Next(s, a).txns[t].picks
    ensures j in Next(s, a).world.db.jobs && Next(s, a).world.db.jobs[j].queue in Next(s, a).txns[t].active
  {
    var db, x := Next(s, a).world.db, Next(s, a).txns[t];
    assert RowsKept(db, x) && OwnReady(db, x, j);
    PicksOf(s, a, t);
    if a.Pick? && a.t == t { PickIsActive(s, a, j); } else { OldPickStays(s, a, t, j); }
  }

  /** Picked rows are kept by their locks, and no row changes its queue. */
  lemma StepKeepsPicks(s: Sys, a: Action)
    requires RowSafe(s) && PicksActive(s) && Enabled(s, a) && s.world.db.jobs.Keys <= s.world.hist.birth.Keys
    ensures PicksActive(Next(s, a))
  {
    var s' := Next(s, a);
    StepKeepsRowSafe(s, a);
    forall t, j | t in s'.txns && j in s'.txns[t].picks
      ensures j in s'.world.db.jobs && s'.world.db.jobs[j].queue in s'.txns[t].active
    {
      PickStaysActive(s, a, t, j);
    }
  }

  lemma {:induction false} RunKeepsPicks(s: Sys, run: seq<Action>)
    requires RowSafe(s) && PicksActive(s) && EnabledRun(s, run) && s.world.db.jobs.Keys <= s.world.hist.birth.Keys
    ensures PicksActive(AfterAll(s, run))
    decreases |run|
  {
    if run != [] {
      StepKeepsPicks(s, run[0]);
      StepKeepsRowSafe(s, run[0]);
      ActionKeepsBirths(s, run[0]);
      RunKeepsPicks(Next(s, run[0]), run[1..]);
    }
  }

  /** In every reachable state, with or without H2: what a claim transaction has picked lies in queues that it asked for
      and that are running, so that whenever it commits it leases nothing of a paused queue. */
  lemma NothingFromPausedQueues(run: seq<Action>, t: nat, j: JobId)
    requires EnabledRun(IDLE, run) && t in AfterAll(IDLE, run).txns && j in AfterAll(IDLE, run).txns[t].picks
    ensures var s := AfterAll(IDLE, run);
            && j in s.world.db.jobs && s.world.db.jobs[j].queue in s.txns[t].names
            && s.world.db.jobs[j].queue in s.world.db.queues && !s.world.db.queues[s.world.db.jobs[j].queue].paused
  {
    RunKeepsRunning(IDLE, run);
    RunKeepsPicks(IDLE, run);
    assert HoldsRunning(AfterAll(IDLE, run).world.db, AfterAll(IDLE, run).txns[t]);
  }
}

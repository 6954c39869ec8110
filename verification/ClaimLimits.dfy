// Main results about concurrent claim transactions: refinement of the atomic protocol in every interleaving, and with
// assumption H2 for a queue its concurrency limit.
module ClaimLimits {
  import opened Rows
  import opened Statements
  import opened Protocol
  import opened Accounting
  import opened ClaimTx
  import opened ClaimSafety
  import Selection

  const IDLE := Sys(EMPTY, map[])

  /** The protocol steps an action commits. */
  function Committed(s: Sys, a: Action): seq<Step> {
    match a
    case Commit(t) => if t in s.txns then [RecoverStep(s.txns[t]), ClaimStep(s.txns[t])] else []
    case Env(step) => [step]
    case _ => []
  }

  ghost function Trace(s: Sys, run: seq<Action>): seq<Step>
    requires EnabledRun(s, run)
    decreases |run|
  {
    if run == [] then [] else Committed(s, run[0]) + Trace(Next(s, run[0]), run[1..])
  }

  lemma BornJobs(w: World)
    requires Balanced(w)
    ensures w.db.jobs.Keys <= w.hist.birth.Keys
  {
    forall j | j in w.db.jobs ensures j in w.hist.birth { assert JobBalances(w, j); }
  }

  /** A commit is a legal recover step and then a legal claim step. */
  lemma ActionRefines(s: Sys, a: Action)
    requires Enabled(s, a)
    ensures LegalRun(s.world, Committed(s, a)) && After(s.world, Committed(s, a)) == Next(s, a).world
  {
    match a
    case Commit(t) =>
      var x := s.txns[t];
      RunCons(Apply(s.world, RecoverStep(x)), ClaimStep(x), []);
      RunCons(s.world, RecoverStep(x), [ClaimStep(x)] + []);
      assert Committed(s, a) == [RecoverStep(x)] + ([ClaimStep(x)] + []);
    case Env(step) =>
      RunCons(s.world, step, []);
      assert Committed(s, a) == [step] + [];
    case _ =>
  }

  lemma {:induction false} RunConcat(w: World, a: seq<Step>, b: seq<Step>)
    requires LegalRun(w, a) && LegalRun(After(w, a), b)
    ensures LegalRun(w, a + b) && After(w, a + b) == After(After(w, a), b)
    decreases |a|
  {
    if a == [] {
      assert a + b == b;
    } else {
      var head, tail := a[0], a[1..];
      assert a + b == [head] + (tail + b);
      RunConcat(Apply(w, head), tail, b);
      RunCons(w, head, tail + b);
    }
  }

  ghost predicate NoneBlocked(s: Sys) {
    forall t | t in s.txns && s.txns[t].mode.Picked? :: Enabled(s, Commit(t))
  }

  /** Refinement, with or without H2: whatever the interleaving, the committed tables change by legal steps of the
      atomic protocol, so what is proved of its runs holds of the concurrent system; and no transaction that has picked
      is ever kept from committing. */
  lemma {:induction false} RunRefinesProtocol(s: Sys, run: seq<Action>)
    requires RowSafe(s) && Balanced(s.world) && EnabledRun(s, run)
    ensures LegalRun(s.world, Trace(s, run)) && After(s.world, Trace(s, run)) == AfterAll(s, run).world
    ensures RowSafe(AfterAll(s, run)) && Balanced(AfterAll(s, run).world) && NoneBlocked(AfterAll(s, run))
    decreases |run|
  {
    if run == [] {
      forall t | t in s.txns && s.txns[t].mode.Picked? ensures Enabled(s, Commit(t)) {
        KeptCanCommit(s.world, s.txns[t]);
      }
    } else {
      BornJobs(s.world);
      ActionRefines(s, run[0]);
      RunKeepsBalance(s.world, Committed(s, run[0]));
      StepKeepsRowSafe(s, run[0]);
      RunRefinesProtocol(Next(s, run[0]), run[1..]);
      RunConcat(s.world, Committed(s, run[0]), Trace(Next(s, run[0]), run[1..]));
    }
  }

  // ---- concurrency limits, queue by queue and with H2 for that queue only ----

  ghost predicate Within(db: Db, q: Name) { |LeasedIn(db, q)| <= LimitOf(db, q) }

  predicate Lowers(db: Db, s: Step, q: Name) {
    s.Configure? && s.queue == q && s.limit.Some? && s.limit.value < LimitOf(db, q)
  }

  lemma LimitsStay(w: World, s: Step, q: Name)
    requires Legal(w, s) && !Lowers(w.db, s, q)
    ensures LimitOf(w.db, q) <= LimitOf(Apply(w, s).db, q)
  {
  }

  /** No action takes a queue above the larger of its former count and its limit: not after a lowering either. */
  lemma ActionStaysUnder(s: Sys, a: Action, q: Name)
    requires SafeAt(s, q) && Enabled(s, a)
    ensures |LeasedIn(Next(s, a).world.db, q)| <= Max(|LeasedIn(s.world.db, q)|, LimitOf(s.world.db, q))
  {
    match a
    case Commit(t) => CommitStaysUnder(s, a, q);
    case Env(step) =>
      NoNewLeases(s.world, step, q);
      Selection.SubsetCard(LeasedIn(Next(s, a).world.db, q), LeasedIn(s.world.db, q));
    case _ =>
  }

  lemma CommitStaysUnder(s: Sys, a: Action, q: Name)
    requires SafeAt(s, q) && Enabled(s, a) && a.Commit?
    ensures |LeasedIn(Next(s, a).world.db, q)| <= Max(|LeasedIn(s.world.db, q)|, LimitOf(s.world.db, q))
  {
    var x := s.txns[a.t];
    var own, mid := Own(s.world.db, x), Apply(s.world, RecoverStep(x));
    assert RowsKept(s.world.db, x) && CappedAt(s.world.db, x, q);
    RecoverGivesOwn(s.world, x);
    assert LeasedIn(mid.db, q) == LeasedIn(own, q);
    ClaimAddsLeases(mid, ClaimStep(x), q);
    OwnLeased(s.world.db, x, q);
    Selection.SubsetCard(LeasedIn(own, q), LeasedIn(s.world.db, q));
  }

  lemma ClaimAddsLeases(w: World, step: Step, q: Name)
    requires Legal(w, step) && step.Claim?
    ensures |LeasedIn(Apply(w, step).db, q)| <= |LeasedIn(w.db, q)| + |InQueue(w.db.jobs, step.ids, q)|
  {
    assert LeasedIn(Apply(w, step).db, q) == LeasedIn(w.db, q) + InQueue(w.db.jobs, step.ids, q);
  }

  /** No action of the run lowers the limit of q. */
  ghost predicate NeverLowered(s: Sys, run: seq<Action>, q: Name)
    requires EnabledRun(s, run)
    decreases |run|
  {
    run != [] ==>
      (run[0].Env? ==> !Lowers(s.world.db, run[0].step, q)) && NeverLowered(Next(s, run[0]), run[1..], q)
  }

  /** No second statement of the run works on q unless the first has locked it. Other queues may come and go. */
  ghost predicate NoStrayRun(s: Sys, run: seq<Action>, q: Name)
    requires EnabledRun(s, run)
    decreases |run|
  {
    run != [] ==> NoStray(s, run[0], q) && NoStrayRun(Next(s, run[0]), run[1..], q)
  }

  lemma ActionKeepsLimit(s: Sys, a: Action, q: Name)
    requires Enabled(s, a) && (a.Env? ==> !Lowers(s.world.db, a.step, q))
    ensures LimitOf(s.world.db, q) <= LimitOf(Next(s, a).world.db, q)
  {
    match a
    case Commit(t) =>
      LimitsStay(s.world, RecoverStep(s.txns[t]), q);
      LimitsStay(Apply(s.world, RecoverStep(s.txns[t])), ClaimStep(s.txns[t]), q);
    case Env(step) => LimitsStay(s.world, step, q);
    case _ =>
  }

  lemma {:induction false} RunKeepsSafeAt(s: Sys, run: seq<Action>, q: Name)
    requires SafeAt(s, q) && s.world.db.jobs.Keys <= s.world.hist.birth.Keys
    requires EnabledRun(s, run) && NoStrayRun(s, run, q)
    ensures SafeAt(AfterAll(s, run), q)
    ensures Within(s.world.db, q) && NeverLowered(s, run, q) ==> Within(AfterAll(s, run).world.db, q)
    decreases |run|
  {
    if run != [] {
      StepKeepsSafeAt(s, run[0], q);
      ActionKeepsBirths(s, run[0]);
      ActionStaysUnder(s, run[0], q);
      if NeverLowered(s, run, q) { ActionKeepsLimit(s, run[0], q); }
      RunKeepsSafeAt(Next(s, run[0]), run[1..], q);
    }
  }

  /** Every claim of the run fills free slots of q only. */
  ghost predicate ClaimsFit(w: World, run: seq<Step>, q: Name)
    requires LegalRun(w, run)
    decreases |run|
  {
    run != [] ==>
      (run[0].Claim? ==> FitsQueue(w.db, run[0].ids, q)) && ClaimsFit(Apply(w, run[0]), run[1..], q)
  }

  lemma FitsCons(w: World, s: Step, rest: seq<Step>, q: Name)
    requires Legal(w, s) && LegalRun(Apply(w, s), rest)
    requires (s.Claim? ==> FitsQueue(w.db, s.ids, q)) && ClaimsFit(Apply(w, s), rest, q)
    ensures LegalRun(w, [s] + rest) && ClaimsFit(w, [s] + rest, q)
  {
    assert ([s] + rest)[1..] == rest;
  }

  lemma {:induction false} FitsConcat(w: World, a: seq<Step>, b: seq<Step>, q: Name)
    requires LegalRun(w, a) && LegalRun(After(w, a), b) && ClaimsFit(w, a, q) && ClaimsFit(After(w, a), b, q)
    ensures LegalRun(w, a + b) && ClaimsFit(w, a + b, q)
    decreases |a|
  {
    if a == [] {
      assert a + b == b;
    } else {
      var head, tail := a[0], a[1..];
      assert a + b == [head] + (tail + b);
      FitsConcat(Apply(w, head), tail, b, q);
      FitsCons(w, head, tail + b, q);
    }
  }

  lemma CommitFits(s: Sys, a: Action, q: Name)
    requires SafeAt(s, q) && Enabled(s, a) && a.Commit?
    ensures var x := s.txns[a.t]; FitsQueue(Apply(s.world, RecoverStep(x)).db, x.picks, q)
  {
    var x := s.txns[a.t];
    var own, mid := Own(s.world.db, x), Apply(s.world, RecoverStep(x)).db;
    assert RowsKept(s.world.db, x) && CappedAt(s.world.db, x, q);
    RecoverGivesOwn(s.world, x);
    assert LeasedIn(mid, q) == LeasedIn(own, q) && InQueue(mid.jobs, x.picks, q) == InQueue(own.jobs, x.picks, q);
  }

  lemma ActionFits(s: Sys, a: Action, q: Name)
    requires SafeAt(s, q) && Enabled(s, a)
    ensures LegalRun(s.world, Committed(s, a)) && ClaimsFit(s.world, Committed(s, a), q)
  {
    ActionRefines(s, a);
    if a.Commit? {
      CommitFits(s, a, q);
      var run := Committed(s, a);
      assert run[1..] == [ClaimStep(s.txns[a.t])] && run[1..][1..] == [];
    }
  }

  /** What H2 adds to the refinement, queue by queue: where no second statement strays on q, every claim of the atomic
      run fits the limit of q. */
  lemma {:induction false} RefinedClaimsFit(s: Sys, run: seq<Action>, q: Name)
    requires SafeAt(s, q) && Balanced(s.world) && EnabledRun(s, run) && NoStrayRun(s, run, q)
    ensures LegalRun(s.world, Trace(s, run)) && ClaimsFit(s.world, Trace(s, run), q)
    decreases |run|
  {
    RunRefinesProtocol(s, run);
    if run != [] {
      BornJobs(s.world);
      ActionFits(s, run[0], q);
      ActionRefines(s, run[0]);
      RunKeepsBalance(s.world, Committed(s, run[0]));
      StepKeepsSafeAt(s, run[0], q);
      RefinedClaimsFit(Next(s, run[0]), run[1..], q);
      FitsConcat(s.world, Committed(s, run[0]), Trace(Next(s, run[0]), run[1..]), q);
    }
  }

  /** Concurrency limit, over every interleaving from the empty schema: if no second statement works on q without its
      first having locked it, then while the limit of q is not lowered, the committed leases of q never exceed it, nor
      do they together with the uncommitted leases of any one transaction (less the leases that transaction has itself
      recovered). What is created, resumed or paused elsewhere does not matter. */
  lemma LimitNeverExceeded(run: seq<Action>, q: Name, t: nat)
    requires EnabledRun(IDLE, run) && NoStrayRun(IDLE, run, q) && NeverLowered(IDLE, run, q)
    ensures var s := AfterAll(IDLE, run);
            && |LeasedIn(s.world.db, q)| <= LimitOf(s.world.db, q)
            && (t in s.txns && s.txns[t].mode.Picked? ==>
                  var own := Own(s.world.db, s.txns[t]);
                  |LeasedIn(own, q)| + |InQueue(own.jobs, s.txns[t].picks, q)| <= LimitOf(s.world.db, q))
  {
    assert LeasedIn(EMPTY.db, q) == {};
    RunKeepsSafeAt(IDLE, run, q);
    var s := AfterAll(IDLE, run);
    if t in s.txns && s.txns[t].mode.Picked? { PicksStayWithin(s, q, t); }
  }

  lemma PicksStayWithin(s: Sys, q: Name, t: nat)
    requires SafeAt(s, q) && Within(s.world.db, q) && t in s.txns && s.txns[t].mode.Picked?
    ensures var own := Own(s.world.db, s.txns[t]);
            |LeasedIn(own, q)| + |InQueue(own.jobs, s.txns[t].picks, q)| <= LimitOf(s.world.db, q)
  {
    var own := Own(s.world.db, s.txns[t]);
    assert RowsKept(s.world.db, s.txns[t]) && CappedAt(s.world.db, s.txns[t], q);
    OwnLeased(s.world.db, s.txns[t], q);
    Selection.SubsetCard(LeasedIn(own, q), LeasedIn(s.world.db, q));
  }

  /** After any such run, whether or not the limit of q was lowered in it, the next action does not take q above the
      larger of its count and its limit. */
  lemma NoActionPassesLimit(run: seq<Action>, a: Action, q: Name)
    requires EnabledRun(IDLE, run) && NoStrayRun(IDLE, run, q) && Enabled(AfterAll(IDLE, run), a)
    ensures var s := AfterAll(IDLE, run);
            |LeasedIn(Next(s, a).world.db, q)| <= Max(|LeasedIn(s.world.db, q)|, LimitOf(s.world.db, q))
  {
    RunKeepsSafeAt(IDLE, run, q);
    ActionStaysUnder(AfterAll(IDLE, run), a, q);
  }

  // ---- an oversubscribed queue was worked on without being locked first ----

  /** The i-th action of the run is a snapshot whose second statement works on q, which its first has not locked. */
  ghost predicate StraysAt(s: Sys, run: seq<Action>, i: nat, q: Name)
    requires EnabledRun(s, run) && i < |run|
    decreases i
  {
    if i == 0 then !NoStray(s, run[0], q) else StraysAt(Next(s, run[0]), run[1..], i - 1, q)
  }

  lemma {:induction false} SomeActionStrays(s: Sys, run: seq<Action>, q: Name)
    requires EnabledRun(s, run) && !NoStrayRun(s, run, q)
    ensures exists i: nat | i < |run| :: StraysAt(s, run, i, q)
    decreases |run|
  {
    if NoStray(s, run[0], q) {
      SomeActionStrays(Next(s, run[0]), run[1..], q);
      var i: nat :| i < |run[1..]| && StraysAt(Next(s, run[0]), run[1..], i, q);
      assert StraysAt(s, run, i + 1, q);
    } else {
      assert StraysAt(s, run, 0, q);
    }
  }

  /** In every interleaving, with or without H2: if a queue ends above its limit, which was never lowered, then some
      second statement worked on that very queue without its first having locked it. */
  lemma OverrunStrays(run: seq<Action>, q: Name)
    requires EnabledRun(IDLE, run) && NeverLowered(IDLE, run, q)
    requires var db := AfterAll(IDLE, run).world.db; |LeasedIn(db, q)| > LimitOf(db, q)
    ensures exists i: nat | i < |run| :: StraysAt(IDLE, run, i, q)
  {
    if NoStrayRun(IDLE, run, q) { LimitNeverExceeded(run, q, 0); } else { SomeActionStrays(IDLE, run, q); }
  }

  /** H2 means that no queue is strayed on. */
  lemma {:induction false} NoNewQueueNoStray(s: Sys, run: seq<Action>, q: Name)
    requires EnabledRun(s, run) && NoNewQueueRun(s, run)
    ensures NoStrayRun(s, run, q)
    decreases |run|
  {
    if run != [] { NoNewQueueNoStray(Next(s, run[0]), run[1..], q); }
  }

  /** And where it fails, some queue is. */
  lemma {:induction false} NewQueueStrays(s: Sys, run: seq<Action>) returns (q: Name)
    requires EnabledRun(s, run) && !NoNewQueueRun(s, run)
    ensures !NoStrayRun(s, run, q)
    decreases |run|
  {
    if NoNewQueue(s, run[0]) {
      q := NewQueueStrays(Next(s, run[0]), run[1..]);
    } else {
      q :| q in Elements(run[0].todo) && q !in s.txns[run[0].t].held;
    }
  }
}

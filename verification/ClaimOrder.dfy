// Queue row locks are taken in name order: claim transactions can wait for each other in a circle only if a second
// statement locks a queue that the first did not, which assumption H2 excludes.
module ClaimOrder {
  import opened Rows
  import opened Protocol
  import opened Names
  import opened ClaimTx
  import opened ClaimLimits

  /** t's next queue row is held by u. Job rows are never waited for: they are taken with SKIP LOCKED. */
  predicate WaitsFor(s: Sys, t: nat, u: nat) {
    t in s.txns && u in s.txns && t != u && s.txns[t].todo != [] && s.txns[t].todo[0] in s.txns[u].held
  }

  /** While the first statement runs, every row held comes before every row to come. */
  ghost predicate InOrder(x: Txn) {
    Ascending(x.todo) && (x.mode.First? ==> forall q, i | q in x.held && 0 <= i < |x.todo| :: Precedes(q, x.todo[i]))
  }

  ghost predicate Ordered(s: Sys) {
    && (forall t | t in s.txns :: InOrder(s.txns[t]))
    && (forall t, u | t in s.txns && u in s.txns && t != u :: s.txns[t].held !! s.txns[u].held)
  }

  /** Under H2 the second statement locks again what the first has locked. */
  ghost predicate Confined(x: Txn) { !x.mode.First? ==> Elements(x.todo) <= x.held }

  ghost predicate AllConfined(s: Sys) { forall t | t in s.txns :: Confined(s.txns[t]) }

  lemma LockKeepsOrder(s: Sys, t: nat)
    requires Ordered(s) && Enabled(s, Lock(t))
    ensures InOrder(Next(s, Lock(t)).txns[t])
  {
    var x, y := s.txns[t], Next(s, Lock(t)).txns[t];
    assert InOrder(x);
    assert forall i | 0 <= i < |y.todo| :: y.todo[i] == x.todo[i + 1];
  }

  lemma StepKeepsOrder(s: Sys, a: Action)
    requires Ordered(s) && Enabled(s, a)
    ensures Ordered(Next(s, a))
  {
    var s' := Next(s, a);
    forall t | t in s'.txns ensures InOrder(s'.txns[t]) {
      if t in s.txns { assert InOrder(s.txns[t]); }
      if a.Lock? && t == a.t { LockKeepsOrder(s, t); }
    }
  }

  lemma StepKeepsConfined(s: Sys, a: Action)
    requires AllConfined(s) && Enabled(s, a) && NoNewQueue(s, a)
    ensures AllConfined(Next(s, a))
  {
    var s' := Next(s, a);
    forall t | t in s'.txns ensures Confined(s'.txns[t]) {
      if t in s.txns { assert Confined(s.txns[t]); }
      if a.Lock? && t == a.t {
        forall q | q in Elements(s'.txns[t].todo) ensures q in Elements(s.txns[t].todo) {
          var i :| 0 <= i < |s'.txns[t].todo| && s'.txns[t].todo[i] == q;
          assert s.txns[t].todo[i + 1] == q;
        }
      }
    }
  }

  lemma {:induction false} RunKeepsOrder(s: Sys, run: seq<Action>)
    requires Ordered(s) && EnabledRun(s, run)
    ensures Ordered(AfterAll(s, run))
    decreases |run|
  {
    if run != [] {
      StepKeepsOrder(s, run[0]);
      RunKeepsOrder(Next(s, run[0]), run[1..]);
    }
  }

  lemma {:induction false} RunKeepsConfined(s: Sys, run: seq<Action>)
    requires AllConfined(s) && EnabledRun(s, run) && NoNewQueueRun(s, run)
    ensures AllConfined(AfterAll(s, run))
    decreases |run|
  {
    if run != [] {
      StepKeepsConfined(s, run[0]);
      RunKeepsConfined(Next(s, run[0]), run[1..]);
    }
  }

  function Wanted(s: Sys, t: nat): Name
    requires t in s.txns && s.txns[t].todo != []
  {
    s.txns[t].todo[0]
  }

  /** A second statement that waits for a row the first did not lock. */
  predicate Strays(s: Sys, t: nat) {
    t in s.txns && s.txns[t].mode.Second? && s.txns[t].todo != [] && s.txns[t].todo[0] !in s.txns[t].held
  }

  lemma ConfinedNeverStrays(s: Sys, t: nat)
    requires AllConfined(s)
    ensures !Strays(s, t)
  {
    if t in s.txns && s.txns[t].todo != [] {
      assert Confined(s.txns[t]) && s.txns[t].todo[0] in Elements(s.txns[t].todo);
    }
  }

  /** A transaction that has picked has nothing left to lock. */
  ghost predicate PickedAreDone(s: Sys) { forall t | t in s.txns && s.txns[t].mode.Picked? :: s.txns[t].todo == [] }

  lemma {:induction false} RunKeepsPicked(s: Sys, run: seq<Action>)
    requires PickedAreDone(s) && EnabledRun(s, run)
    ensures PickedAreDone(AfterAll(s, run))
    decreases |run|
  {
    if run != [] {
      assert PickedAreDone(Next(s, run[0]));
      RunKeepsPicked(Next(s, run[0]), run[1..]);
    }
  }

  /** Whoever is waited for and waits wants a later row, unless its second statement strays. */
  lemma WaitingClimbs(s: Sys, t: nat, u: nat, v: nat)
    requires Ordered(s) && PickedAreDone(s) && WaitsFor(s, t, u) && WaitsFor(s, u, v) && !Strays(s, u)
    ensures Precedes(Wanted(s, t), Wanted(s, u))
  {
    assert InOrder(s.txns[u]) && s.txns[u].held !! s.txns[v].held;
  }

  /** Each transaction waits for the next. */
  ghost predicate WaitPath(s: Sys, path: seq<nat>) {
    forall i | 0 <= i < |path| - 1 :: WaitsFor(s, path[i], path[i + 1])
  }

  lemma {:induction false} PathClimbs(s: Sys, path: seq<nat>)
    requires Ordered(s) && PickedAreDone(s) && WaitPath(s, path) && |path| >= 3
    requires forall i | 0 <= i < |path| :: !Strays(s, path[i])
    ensures WaitsFor(s, path[0], path[1]) && WaitsFor(s, path[|path| - 2], path[|path| - 1])
    ensures Precedes(Wanted(s, path[0]), Wanted(s, path[|path| - 2]))
    decreases |path|
  {
    var n := |path|;
    assert WaitsFor(s, path[n - 3], path[n - 2]) && WaitsFor(s, path[n - 2], path[n - 1]);
    WaitingClimbs(s, path[n - 3], path[n - 2], path[n - 1]);
    if n > 3 {
      var init := path[..n - 1];
      assert forall i | 0 <= i < |init| :: init[i] == path[i];
      PathClimbs(s, init);
      Transitive(Wanted(s, path[0]), Wanted(s, path[n - 3]), Wanted(s, path[n - 2]));
    }
  }

  /** In any reachable state, with or without H2, a cycle of waiting claim transactions contains one whose second
      statement waits for a queue that its first did not lock. */
  lemma CycleStrays(run: seq<Action>, cycle: seq<nat>)
    requires EnabledRun(IDLE, run) && WaitPath(AfterAll(IDLE, run), cycle)
    requires |cycle| >= 2 && cycle[0] == cycle[|cycle| - 1]
    ensures exists i | 0 <= i < |cycle| :: Strays(AfterAll(IDLE, run), cycle[i])
  {
    RunKeepsOrder(IDLE, run);
    RunKeepsPicked(IDLE, run);
    var s := AfterAll(IDLE, run);
    if forall i | 0 <= i < |cycle| :: !Strays(s, cycle[i]) {
      assert WaitsFor(s, cycle[0], cycle[1]);
      var longer := cycle + [cycle[1]];
      assert forall i | 0 <= i < |cycle| :: longer[i] == cycle[i];
      PathClimbs(s, longer);
      Irreflexive(Wanted(s, cycle[0]));
    }
  }

  /** No deadlock (assumption H2): the wait-for graph of claim transactions has no cycle in any reachable state. */
  lemma NoDeadlock(run: seq<Action>, cycle: seq<nat>)
    requires EnabledRun(IDLE, run) && NoNewQueueRun(IDLE, run)
    requires |cycle| >= 2 && cycle[0] == cycle[|cycle| - 1]
    ensures !WaitPath(AfterAll(IDLE, run), cycle)
  {
    RunKeepsConfined(IDLE, run);
    if WaitPath(AfterAll(IDLE, run), cycle) {
      CycleStrays(run, cycle);
      var i :| 0 <= i < |cycle| && Strays(AfterAll(IDLE, run), cycle[i]);
      ConfinedNeverStrays(AfterAll(IDLE, run), cycle[i]);
    }
  }

  /** Among transactions that all wait, one that wants a row no other wants after. */
  lemma {:induction false} LastWanted(s: Sys, waiting: set<nat>) returns (t: nat)
    requires waiting != {} && forall u | u in waiting :: u in s.txns && s.txns[u].todo != []
    ensures t in waiting && forall u | u in waiting :: !Precedes(Wanted(s, t), Wanted(s, u))
    decreases |waiting|
  {
    var u :| u in waiting;
    if waiting == {u} {
      t := u;
      Irreflexive(Wanted(s, u));
    } else {
      var rest := waiting - {u};
      assert waiting == rest + {u};
      t := LastWanted(s, rest);
      Irreflexive(Wanted(s, u));
      if Precedes(Wanted(s, t), Wanted(s, u)) {
        forall v | v in waiting ensures !Precedes(Wanted(s, u), Wanted(s, v)) {
          if Precedes(Wanted(s, u), Wanted(s, v)) && v != u { Transitive(Wanted(s, t), Wanted(s, u), Wanted(s, v)); }
        }
        t := u;
      }
    }
  }

  ghost predicate Waits(s: Sys, t: nat) { exists u :: WaitsFor(s, t, u) }

  /** The transaction that wants the last row: its holder, were it waiting, would want a later one. */
  lemma NotAllWait(s: Sys)
    requires Ordered(s) && PickedAreDone(s) && AllConfined(s) && s.txns.Keys != {}
    ensures exists t | t in s.txns :: !Waits(s, t)
  {
    if t :| t in s.txns && s.txns[t].todo == [] {
      assert !Waits(s, t);
    } else {
      var t := LastWanted(s, s.txns.Keys);
      if u :| WaitsFor(s, t, u) {
        assert !Waits(s, u) by {
          ConfinedNeverStrays(s, u);
          if v :| WaitsFor(s, u, v) { WaitingClimbs(s, t, u, v); }
        }
      } else {
        assert !Waits(s, t);
      }
    }
  }

  /** In every reachable state with open claim transactions, some transaction waits for no other. */
  lemma SomeoneProceeds(run: seq<Action>)
    requires EnabledRun(IDLE, run) && NoNewQueueRun(IDLE, run) && AfterAll(IDLE, run).txns.Keys != {}
    ensures exists t | t in AfterAll(IDLE, run).txns :: !Waits(AfterAll(IDLE, run), t)
  {
    RunKeepsOrder(IDLE, run);
    RunKeepsPicked(IDLE, run);
    RunKeepsConfined(IDLE, run);
    NotAllWait(AfterAll(IDLE, run));
  }
}

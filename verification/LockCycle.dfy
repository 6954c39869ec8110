// A run without assumption H2 in which two claim transactions wait for each other.
module LockCycle {
  import opened Rows
  import opened Statements
  import opened Protocol
  import opened Names
  import opened ClaimTx
  import opened ClaimLimits
  import opened ClaimOrder

  const A_PAUSED := Queue(true, DEFAULT_CONCURRENCY_LIMIT, 0, 0)
  const A_RESUMED := Queue(false, DEFAULT_CONCURRENCY_LIMIT, 0, 1)
  const B_OPEN := Queue(false, DEFAULT_CONCURRENCY_LIMIT, 0, 0)

  /** Queue a is paused when the first transaction locks b; it is resumed; the second transaction locks a; then the
      first runs its second statement, which wants a before b. */
  const QUEUES: seq<Action> := [Env(Configure("a", Some(true), None, 0)), Env(Configure("b", None, None, 0))]
  const FIRST: seq<Action> := [
    Begin(1, "v", {"a", "b"}, 1, 60, 1, [], ["b"]), Lock(1), Env(Configure("a", Some(false), None, 1))]
  const CROSS: seq<Action> := [Begin(2, "w", {"a", "b"}, 1, 60, 1, [], ["a", "b"]), Lock(2), Snapshot(1, ["a", "b"])]

  lemma Alphabetical()
    ensures Ascending(["b"]) && Ascending(["a", "b"]) && Elements(["b"]) == {"b"} && Elements(["a", "b"]) == {"a", "b"}
  {
    assert Precedes("a", "b");
  }

  lemma QueuesCreated()
    ensures EnabledRun(IDLE, QUEUES)
    ensures var s := AfterAll(IDLE, QUEUES);
            s.world.db.queues == map["a" := A_PAUSED, "b" := B_OPEN] && s.txns == map[]
  {
    var a, b := Env(Configure("a", Some(true), None, 0)), Env(Configure("b", None, None, 0));
    var s1 := Next(IDLE, a);
    assert s1.world.db.queues == map["a" := A_PAUSED];
    var s2 := Next(s1, b);
    assert s2.world.db.queues == map["a" := A_PAUSED, "b" := B_OPEN];
    RunOne(s1, b);
    RunAfter(IDLE, a, [b]);
    assert [a] + [b] == QUEUES;
  }

  lemma FirstBegins(s: Sys, a: Action, b: Action)
    requires s.world.db.queues == map["a" := A_PAUSED, "b" := B_OPEN] && s.txns == map[]
    requires a == Begin(1, "v", {"a", "b"}, 1, 60, 1, [], ["b"]) && b == Lock(1)
    ensures Enabled(s, a) && Enabled(Next(s, a), b)
    ensures var s2 := Next(Next(s, a), b);
            && s2.world == s.world && s2.txns.Keys == {1}
            && s2.txns[1].mode == First && s2.txns[1].names == {"a", "b"} && s2.txns[1].todo == []
            && s2.txns[1].held == {"b"}
  {
    Alphabetical();
    assert Unpaused(s.world.db, {"a", "b"}) == {"b"};
    var s2 := Next(Next(s, a), b);
    assert s2.txns[1].held == {"b"} && s2.txns[1].todo == [];
  }

  lemma AResumes(s: Sys, c: Action)
    requires s.world.db.queues == map["a" := A_PAUSED, "b" := B_OPEN] && s.txns.Keys == {1}
    requires s.txns[1].held == {"b"} && c == Env(Configure("a", Some(false), None, 1))
    ensures Enabled(s, c) && Next(s, c).txns == s.txns
    ensures Next(s, c).world.db.queues == map["a" := A_RESUMED, "b" := B_OPEN]
  {
  }

  lemma FirstLocks(s: Sys)
    requires s.world.db.queues == map["a" := A_PAUSED, "b" := B_OPEN] && s.txns == map[]
    ensures EnabledRun(s, FIRST)
    ensures var s' := AfterAll(s, FIRST);
            && s'.world.db.queues == map["a" := A_RESUMED, "b" := B_OPEN] && s'.txns.Keys == {1}
            && s'.txns[1].mode == First && s'.txns[1].names == {"a", "b"} && s'.txns[1].todo == []
            && s'.txns[1].held == {"b"}
  {
    var a, b, c := Begin(1, "v", {"a", "b"}, 1, 60, 1, [], ["b"]), Lock(1), Env(Configure("a", Some(false), None, 1));
    FirstBegins(s, a, b);
    var s2 := Next(Next(s, a), b);
    AResumes(s2, c);
    RunThree(s, a, Next(s, a), b, s2, c, Next(s2, c));
  }

  lemma Crosses(s: Sys)
    requires s.world.db.queues == map["a" := A_RESUMED, "b" := B_OPEN] && s.txns.Keys == {1}
    requires s.txns[1].mode == First && s.txns[1].names == {"a", "b"} && s.txns[1].todo == [] && s.txns[1].held == {"b"}
    ensures EnabledRun(s, CROSS) && WaitPath(AfterAll(s, CROSS), [1, 2, 1])
  {
    Alphabetical();
    var a, b, c := Begin(2, "w", {"a", "b"}, 1, 60, 1, [], ["a", "b"]), Lock(2), Snapshot(1, ["a", "b"]);
    assert Unpaused(s.world.db, {"a", "b"}) == {"a", "b"};
    var s1 := Next(s, a);
    var s2 := Next(s1, b);
    assert s2.txns[2].held == {"a"} && s2.txns[2].todo == ["b"];
    var s3 := Next(s2, c);
    RunThree(s, a, s1, b, s2, c, s3);
    assert WaitsFor(s3, 1, 2) && WaitsFor(s3, 2, 1);
  }

  /** Without H2 claim transactions can deadlock: both wait, each for a row the other holds. */
  lemma DeadlockWithoutH2()
    ensures EnabledRun(IDLE, QUEUES + (FIRST + CROSS))
    ensures WaitPath(AfterAll(IDLE, QUEUES + (FIRST + CROSS)), [1, 2, 1])
  {
    QueuesCreated();
    var s := AfterAll(IDLE, QUEUES);
    FirstLocks(s);
    Crosses(AfterAll(s, FIRST));
    RunsJoin(s, FIRST, CROSS);
    RunsJoin(IDLE, QUEUES, FIRST + CROSS);
  }
}

// The lease heartbeat (src/pgrelay/worker/heartbeat.py) and what its timing guarantees against recovery.
module Heartbeat {
  import opened Rows
  import opened Statements
  import opened Protocol

  /** A transaction on a lease: its now() and the moment it commits. */
  datatype Renewal = Renewal(tx: Time, commit: Time)

  /** Each commits within the lease that the one before it started. */
  predicate Chained(last: Time, renewals: seq<Renewal>, lease: int)
    decreases |renewals|
  {
    renewals != [] ==>
      renewals[0].commit <= last + Seconds(lease) && Chained(renewals[0].tx, renewals[1..], lease)
  }

  // ---- the loop ----

  /** What the environment does in one iteration: whether the execution is already done, how long until the extension's
      transaction starts and how long it then takes, and whether it raises or matches a row. */
  datatype Beat = Beat(done: bool, wait: nat, latency: nat, raises: bool, extended: bool)

  /** Owned and Lost are the returned booleans; Interrupted is the end of the script: cancellation at an await. */
  datatype Outcome = Owned | Lost | Raised | Interrupted

  function Interval(lease: int): int { if lease / 3 > 1 then lease / 3 else 1 }

  /** The first iteration that ends the loop decides. */
  function OutcomeOf(beats: seq<Beat>): Outcome {
    if beats == [] then Interrupted
    else if beats[0].done then Owned
    else if beats[0].raises then Raised
    else if !beats[0].extended then Lost
    else OutcomeOf(beats[1..])
  }

  /** How many extensions took effect before that. */
  function Extensions(beats: seq<Beat>): nat {
    if beats == [] || beats[0].done || beats[0].raises || !beats[0].extended then 0 else 1 + Extensions(beats[1..])
  }

  /** The first n extensions, one after the other, fit the slack that the sleep leaves of the lease. */
  predicate FitsSlack(beats: seq<Beat>, n: nat, lease: int) {
    forall k | 0 < k < n && k < |beats| ::
      beats[k - 1].latency + beats[k].wait + beats[k].latency <= Seconds(lease - Interval(lease))
  }

  /** The first n renewals are spaced as the loop spaces them on these beats. */
  predicate TimedBy(renewals: seq<Renewal>, beats: seq<Beat>, n: nat, lease: int) {
    && n <= |renewals| && n <= |beats|
    && (forall k | 0 <= k < n :: renewals[k].commit == renewals[k].tx + beats[k].latency)
    && (forall k | 0 < k < n :: renewals[k].tx == renewals[k - 1].commit + Seconds(Interval(lease)) + beats[k].wait)
  }

  lemma TimedByNext(renewals: seq<Renewal>, beats: seq<Beat>, lease: int, next: Renewal)
    requires TimedBy(renewals, beats, |renewals|, lease) && |renewals| < |beats|
    requires next.commit == next.tx + beats[|renewals|].latency
    requires renewals != [] ==>
               next.tx == renewals[|renewals| - 1].commit + Seconds(Interval(lease)) + beats[|renewals|].wait
    ensures TimedBy(renewals + [next], beats, |renewals| + 1, lease)
  {
  }

  lemma {:induction false} ExtensionsBound(beats: seq<Beat>, i: nat)
    requires i <= |beats| && forall k | 0 <= k < i :: !beats[k].done && !beats[k].raises && beats[k].extended
    ensures Extensions(beats) == i + Extensions(beats[i..]) && OutcomeOf(beats) == OutcomeOf(beats[i..])
  {
    if i > 0 {
      assert beats[1..][i - 1..] == beats[i..];
      assert forall k | 0 <= k < i - 1 :: beats[1..][k] == beats[k + 1];
      ExtensionsBound(beats[1..], i - 1);
    } else {
      assert beats[0..] == beats;
    }
  }

  /** Run the loop. It returns Lost, and cancels the execution, exactly when an extension matches no row; the sleep
      spaces the extensions so that the chain of leases is unbroken exactly when their delays fit the slack. */
  method RunLeaseHeartbeat(lease: int, started: Time, beats: seq<Beat>)
    returns (outcome: Outcome, cancelExecution: bool, renewals: seq<Renewal>)
    ensures outcome == OutcomeOf(beats) && (cancelExecution <==> outcome == Lost)
    ensures |renewals| <= |beats|
    ensures forall k | 0 <= k < |renewals| :: !beats[k].done && !beats[k].raises && beats[k].extended
    ensures outcome == if |renewals| == |beats| then Interrupted
                       else if beats[|renewals|].done then Owned
                       else if beats[|renewals|].raises then Raised else Lost
    ensures outcome == Lost ==> !beats[|renewals|].extended
    ensures |renewals| == Extensions(beats) && TimedBy(renewals, beats, |renewals|, lease)
    ensures renewals != [] ==> (Chained(renewals[0].tx, renewals[1..], lease) <==> FitsSlack(beats, |renewals|, lease))
  {
    outcome, cancelExecution, renewals := Interrupted, false, [];
    var interval := if lease / 3 > 1 then lease / 3 else 1;
    var clock, i := started, 0;
    while i < |beats| && !beats[i].done
      invariant 0 <= i <= |beats| && |renewals| == i && !cancelExecution
      invariant forall k | 0 <= k < i :: !beats[k].done && !beats[k].raises && beats[k].extended
      invariant TimedBy(renewals, beats, i, lease)
      invariant i > 0 ==> clock == renewals[i - 1].commit + Seconds(interval)
    {
      var tx := clock + beats[i].wait;
      var commit := tx + beats[i].latency;
      if beats[i].raises {
        outcome := Raised;
        break;
      }
      if !beats[i].extended {
        outcome, cancelExecution := Lost, true;
        break;
      }
      TimedByNext(renewals, beats, lease, Renewal(tx, commit));
      renewals := renewals + [Renewal(tx, commit)];
      clock := commit + Seconds(interval);
      i := i + 1;
    }
    if i < |beats| && beats[i].done { outcome := Owned; }
    ExtensionsBound(beats, i);
    if renewals != [] { ChainIsSlack(lease, renewals, beats); }
  }

  /** Gap by gap: the next commit is within the lease exactly when the delays are within lease - interval. */
  lemma ChainIsSlack(lease: int, renewals: seq<Renewal>, beats: seq<Beat>)
    requires renewals != [] && TimedBy(renewals, beats, |renewals|, lease)
    ensures Chained(renewals[0].tx, renewals[1..], lease) <==> FitsSlack(beats, |renewals|, lease)
  {
    ChainedByIndex(renewals[0].tx, renewals[1..], lease);
    var rest := renewals[1..];
    assert forall k | 0 < k < |renewals| :: renewals[k] == rest[k - 1];
    forall k | 0 < k < |renewals|
      ensures renewals[k].commit <= renewals[k - 1].tx + Seconds(lease)
        <==> beats[k - 1].latency + beats[k].wait + beats[k].latency <= Seconds(lease - Interval(lease))
    {
    }
    if FitsSlack(beats, |renewals|, lease) {
      forall k | 0 <= k < |rest| ensures rest[k].commit <= Previous(renewals[0].tx, rest, k) + Seconds(lease) {
        assert rest[k] == renewals[k + 1];
      }
    }
    if Chained(renewals[0].tx, rest, lease) {
      forall k | 0 < k < |renewals| && k < |beats|
        ensures beats[k - 1].latency + beats[k].wait + beats[k].latency <= Seconds(lease - Interval(lease))
      {
        assert rest[k - 1].commit <= Previous(renewals[0].tx, rest, k - 1) + Seconds(lease);
      }
    }
  }

  function Previous(last: Time, renewals: seq<Renewal>, k: nat): Time
    requires k < |renewals|
  {
    if k == 0 then last else renewals[k - 1].tx
  }

  lemma {:induction false} ChainedByIndex(last: Time, renewals: seq<Renewal>, lease: int)
    ensures Chained(last, renewals, lease)
       <==> forall k | 0 <= k < |renewals| :: renewals[k].commit <= Previous(last, renewals, k) + Seconds(lease)
    decreases |renewals|
  {
    if renewals != [] {
      var rest := renewals[1..];
      ChainedByIndex(renewals[0].tx, rest, lease);
      assert forall k | 0 <= k < |rest| ::
          rest[k] == renewals[k + 1] && Previous(renewals[0].tx, rest, k) == Previous(last, renewals, k + 1);
      if Chained(last, renewals, lease) {
        forall k | 0 <= k < |renewals| ensures renewals[k].commit <= Previous(last, renewals, k) + Seconds(lease) {
          if k > 0 { assert rest[k - 1] == renewals[k]; }
        }
      }
    }
  }

  /** For every configurable lease the sleep is a third of it, rounded down: two thirds are slack. */
  lemma SlackOfSettings(lease: int)
    requires 5 <= lease <= 3600
    ensures Interval(lease) == lease / 3 && lease - Interval(lease) == lease - lease / 3
    ensures 3 * (lease - Interval(lease)) >= 2 * lease
  {
  }
}

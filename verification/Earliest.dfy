// ORDER BY t ASC LIMIT k, and enumerations of finite sets.
module Earliest {
  import opened Rows
  import opened Names
  import opened Protocol

  /** picked is a result of ORDER BY ... ASC LIMIT k over the keys; equal times are interchangeable. */
  predicate IsEarliest(times: map<JobId, Time>, k: nat, picked: set<JobId>) {
    && picked <= times.Keys
    && |picked| == (if k < |times.Keys| then k else |times.Keys|)
    && forall p, c | p in picked && c in times.Keys - picked :: times[p] <= times[c]
  }

  lemma {:induction false} FirstTime(times: map<JobId, Time>) returns (first: JobId)
    requires times.Keys != {}
    ensures first in times && forall j | j in times :: times[first] <= times[j]
    decreases |times.Keys|
  {
    first :| first in times;
    if times.Keys != {first} {
      var rest := times - {first};
      assert rest.Keys == times.Keys - {first};
      var other := FirstTime(rest);
      assert forall j | j in times && j != first :: j in rest.Keys;
      if times[other] < times[first] { first := other; }
    } else {
      assert forall j | j in times :: j in times.Keys;
    }
  }

  lemma {:induction false} EarliestExists(times: map<JobId, Time>, k: nat)
    ensures exists picked :: IsEarliest(times, k, picked)
    decreases k
  {

    if k == 0 || times.Keys == {} {
      assert IsEarliest(times, k, {});
    } else {
      var first := FirstTime(times);
      var rest := times - {first};
      assert rest.Keys == times.Keys - {first};
      EarliestExists(rest, k - 1);
      var picked :| IsEarliest(rest, k - 1, picked);
      var more := picked + {first};
      assert first !in picked && |more| == |picked| + 1 && |times.Keys| == |rest.Keys| + 1;
      forall p, c | p in more && c in times.Keys - more ensures times[p] <= times[c] {
        assert c in rest.Keys - picked && (p != first ==> rest[p] <= rest[c]);
      }
      assert IsEarliest(times, k, more);
    }
  }

  /** Nothing is left over when the limit is not reached. */
  lemma AllPicked(times: map<JobId, Time>, k: nat, picked: set<JobId>)
    requires IsEarliest(times, k, picked) && |picked| < k
    ensures picked == times.Keys
  {
    assert times.Keys == picked + (times.Keys - picked);
  }

  predicate Enumerates(s: seq<string>, all: set<string>) {
    Distinct(s) && (forall x | x in s :: x in all) && (forall x | x in all :: x in s)
  }

  lemma {:induction false} EnumerationExists(all: set<string>)
    ensures exists s :: Enumerates(s, all)
    decreases |all|
  {
    if all == {} {
      assert Enumerates([], all);
    } else {
      var x :| x in all;
      EnumerationExists(all - {x});
      var s :| Enumerates(s, all - {x});
      assert Enumerates(s + [x], all);
    }
  }

  lemma {:induction false} LastName(all: set<string>) returns (last: string)
    requires all != {}
    ensures last in all && forall x | x in all && x != last :: Precedes(x, last)
    decreases |all|
  {
    last :| last in all;
    if all != {last} {
      var other := LastName(all - {last});
      Connected(last, other);
      if Precedes(last, other) {
        last := other;
      } else {
        forall x | x in all && x != last ensures Precedes(x, last) {
          if x != other { Transitive(x, other, last); }
        }
      }
    }
  }

  predicate Sorts(s: seq<string>, all: set<string>) {
    Ascending(s) && (forall x | x in s :: x in all) && (forall x | x in all :: x in s)
  }

  /** ORDER BY name has a result. */
  lemma {:induction false} SortExists(all: set<string>)
    ensures exists s :: Sorts(s, all)
    decreases |all|
  {
    if all == {} {
      assert Sorts([], all);
    } else {
      var last := LastName(all);
      SortExists(all - {last});
      var s :| Sorts(s, all - {last});
      assert Ascending(s + [last]) by {
        forall i, k | 0 <= i < k < |s + [last]| ensures Precedes((s + [last])[i], (s + [last])[k]) {
          if k == |s| { assert s[i] in s; }
        }
      }
      assert Sorts(s + [last], all);
    }
  }
}

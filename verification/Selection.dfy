// The ORDER BY ... LIMIT selections of the claim statement, and why what they pick is optimal.
module Selection {
  import opened Rows

  type Jobs = map<JobId, Job>

  /** ORDER BY priority DESC, available_at ASC, created_at ASC: a comes strictly before b. */
  predicate Before(a: Job, b: Job) {
    || a.priority > b.priority
    || (a.priority == b.priority && a.availableAt < b.availableAt)
    || (a.priority == b.priority && a.availableAt == b.availableAt && a.createdAt < b.createdAt)
  }

  function Min(a: nat, b: nat): nat { if a < b then a else b }

  /** picked is a result of ORDER BY ... LIMIT k over candidates; rows equal in the order are interchangeable. */
  predicate IsTop(jobs: Jobs, candidates: set<JobId>, k: nat, picked: set<JobId>)
    requires candidates <= jobs.Keys
  {
    && picked <= candidates
    && |picked| == Min(k, |candidates|)
    && forall p, c | p in picked && c in candidates - picked :: !Before(jobs[c], jobs[p])
  }

  /** An up-set of the order: with a job it contains every job that does not come after it. */
  ghost predicate UpSet(jobs: Jobs, up: set<JobId>) {
    && up <= jobs.Keys
    && forall a, b | a in up && b in jobs && !Before(jobs[a], jobs[b]) :: b in up
  }

  lemma SubsetCard<T>(a: set<T>, b: set<T>)
    requires a <= b
    ensures |a| <= |b| && (|a| == |b| ==> a == b)
  {
    assert b == a + (b - a);
  }

  /** Of any up-set, a top-k selection holds as many jobs as the limit and the candidates allow. */
  lemma TopOfUpSet(jobs: Jobs, candidates: set<JobId>, k: nat, picked: set<JobId>, up: set<JobId>)
    requires candidates <= jobs.Keys && IsTop(jobs, candidates, k, picked) && UpSet(jobs, up)
    ensures |picked * up| == Min(k, |candidates * up|)
  {
    if c :| c in candidates * up && c !in picked {
      assert picked <= up;
      assert picked * up == picked;
      SubsetCard(picked, candidates);
      SubsetCard(picked, candidates * up);
    } else {
      assert picked * up == candidates * up;
      SubsetCard(picked * up, picked);
    }
  }

  // ---- the two-level selection of claim_jobs ----

  /** The LATERAL subquery: the top slots[q] of each queue, side by side. */
  function Merged(qs: seq<Name>, tops: map<Name, set<JobId>>): set<JobId>
    requires forall i | 0 <= i < |qs| :: qs[i] in tops
  {
    if qs == [] then {} else tops[qs[0]] + Merged(qs[1..], tops)
  }

  /** Sum over the queues of min(slots, ready jobs that belong to up). */
  function Capacity(jobs: Jobs, qs: seq<Name>, slots: map<Name, nat>, ready: set<JobId>, up: set<JobId>): nat
    requires forall i | 0 <= i < |qs| :: qs[i] in slots
  {
    if qs == [] then 0 else
      Min(slots[qs[0]], |InQueue(jobs, ready, qs[0]) * up|) + Capacity(jobs, qs[1..], slots, ready, up)
  }

  /** One claim: the locked queues qs with their free slots, the ready rows, each queue's top rows, the batch. */
  predicate IsClaim(jobs: Jobs, qs: seq<Name>, slots: map<Name, nat>, ready: set<JobId>, batch: nat,
                    tops: map<Name, set<JobId>>, picked: set<JobId>)
  {
    && Distinct(qs) && ready <= jobs.Keys
    && (forall i | 0 <= i < |qs| :: qs[i] in slots && qs[i] in tops)
    && (forall i | 0 <= i < |qs| :: IsTop(jobs, InQueue(jobs, ready, qs[i]), slots[qs[i]], tops[qs[i]]))
    && Merged(qs, tops) <= jobs.Keys
    && IsTop(jobs, Merged(qs, tops), batch, picked)
  }

  /** What any claim may take: ready jobs of the locked queues, within each queue's slots and the batch. */
  ghost predicate Feasible(jobs: Jobs, qs: seq<Name>, slots: map<Name, nat>, ready: set<JobId>, batch: nat,
                           f: set<JobId>) {
    && f <= ready <= jobs.Keys && |f| <= batch
    && (forall j | j in f :: jobs[j].queue in qs)
    && (forall i | 0 <= i < |qs| :: qs[i] in slots && |InQueue(jobs, f, qs[i])| <= slots[qs[i]])
  }

  lemma {:induction false} MergedMembers(jobs: Jobs, qs: seq<Name>, slots: map<Name, nat>, ready: set<JobId>,
                                         tops: map<Name, set<JobId>>)
    requires Distinct(qs) && ready <= jobs.Keys
    requires forall i | 0 <= i < |qs| :: qs[i] in slots && qs[i] in tops
    requires forall i | 0 <= i < |qs| :: IsTop(jobs, InQueue(jobs, ready, qs[i]), slots[qs[i]], tops[qs[i]])
    ensures forall j | j in Merged(qs, tops) :: j in ready && jobs[j].queue in qs && j in tops[jobs[j].queue]
    ensures forall i | 0 <= i < |qs| :: tops[qs[i]] <= Merged(qs, tops)
  {
    if qs != [] {
      var rest := qs[1..];
      assert forall i | 0 <= i < |rest| :: rest[i] == qs[i + 1];
      MergedMembers(jobs, rest, slots, ready, tops);
      forall i | 0 <= i < |qs| ensures tops[qs[i]] <= Merged(qs, tops) {
        if i > 0 { assert rest[i - 1] == qs[i]; }
      }
    }
  }

  lemma DisjointParts(a: set<JobId>, b: set<JobId>, up: set<JobId>)
    requires a !! b
    ensures |(a + b) * up| == |a * up| + |b * up|
  {
    assert (a + b) * up == a * up + b * up;
  }

  lemma TopsApart(jobs: Jobs, qs: seq<Name>, slots: map<Name, nat>, ready: set<JobId>,
                  tops: map<Name, set<JobId>>)
    requires qs != [] && Distinct(qs) && ready <= jobs.Keys
    requires forall i | 0 <= i < |qs| :: qs[i] in slots && qs[i] in tops
    requires forall i | 0 <= i < |qs| :: IsTop(jobs, InQueue(jobs, ready, qs[i]), slots[qs[i]], tops[qs[i]])
    ensures tops[qs[0]] !! Merged(qs[1..], tops)
  {
    var q, rest := qs[0], qs[1..];
    assert forall i | 0 <= i < |rest| :: rest[i] == qs[i + 1];
    MergedMembers(jobs, rest, slots, ready, tops);
    forall j | j in tops[q] ensures j !in Merged(rest, tops) {
      assert j in InQueue(jobs, ready, q) && q !in rest;
    }
  }

  lemma FirstTop(jobs: Jobs, qs: seq<Name>, slots: map<Name, nat>, ready: set<JobId>,
                 tops: map<Name, set<JobId>>, up: set<JobId>)
    requires qs != [] && ready <= jobs.Keys && UpSet(jobs, up) && qs[0] in slots && qs[0] in tops
    requires IsTop(jobs, InQueue(jobs, ready, qs[0]), slots[qs[0]], tops[qs[0]])
    ensures |tops[qs[0]] * up| == Min(slots[qs[0]], |InQueue(jobs, ready, qs[0]) * up|)
  {
    TopOfUpSet(jobs, InQueue(jobs, ready, qs[0]), slots[qs[0]], tops[qs[0]], up);
  }

  /** The merged rows of an up-set number exactly its capacity. */
  lemma {:induction false} MergedCount(jobs: Jobs, qs: seq<Name>, slots: map<Name, nat>, ready: set<JobId>,
                                       tops: map<Name, set<JobId>>, up: set<JobId>)
    requires Distinct(qs) && ready <= jobs.Keys && UpSet(jobs, up)
    requires forall i | 0 <= i < |qs| :: qs[i] in slots && qs[i] in tops
    requires forall i | 0 <= i < |qs| :: IsTop(jobs, InQueue(jobs, ready, qs[i]), slots[qs[i]], tops[qs[i]])
    ensures |Merged(qs, tops) * up| == Capacity(jobs, qs, slots, ready, up)
  {
    if qs != [] {
      var rest := qs[1..];
      TopsApart(jobs, qs, slots, ready, tops);
      FirstTop(jobs, qs, slots, ready, tops, up);
      assert forall i | 0 <= i < |rest| :: rest[i] == qs[i + 1];
      MergedCount(jobs, rest, slots, ready, tops, up);
      DisjointParts(tops[qs[0]], Merged(rest, tops), up);
    }
  }

  lemma OtherQueue(jobs: Jobs, f: set<JobId>, q: Name, r: Name)
    requires q != r
    ensures InQueue(jobs, f - InQueue(jobs, f, q), r) == InQueue(jobs, f, r)
  {
  }

  /** A feasible set holds no more of an up-set than the capacity of its queues. */
  lemma {:induction false} FeasibleCount(jobs: Jobs, qs: seq<Name>, slots: map<Name, nat>, ready: set<JobId>,
                                         f: set<JobId>, up: set<JobId>)
    requires Distinct(qs) && f <= ready <= jobs.Keys
    requires forall i | 0 <= i < |qs| :: qs[i] in slots && |InQueue(jobs, f, qs[i])| <= slots[qs[i]]
    requires forall j | j in f :: jobs[j].queue in qs
    ensures |f * up| <= Capacity(jobs, qs, slots, ready, up)
  {
    if qs == [] {
      assert f * up == {};
    } else {
      var q, rest := qs[0], qs[1..];
      var mine, others := InQueue(jobs, f, q), f - InQueue(jobs, f, q);
      assert forall i | 0 <= i < |rest| :: rest[i] == qs[i + 1];
      forall i | 0 <= i < |rest| ensures |InQueue(jobs, others, rest[i])| <= slots[rest[i]] {
        OtherQueue(jobs, f, q, rest[i]);
      }
      assert |others * up| <= Capacity(jobs, rest, slots, ready, up) by {
        FeasibleCount(jobs, rest, slots, ready, others, up);
      }
      SubsetCard(mine * up, InQueue(jobs, ready, q) * up);
      SubsetCard(mine * up, mine);
      assert f == mine + others;
      DisjointParts(mine, others, up);
    }
  }

  lemma PickedFitsSlots(jobs: Jobs, qs: seq<Name>, slots: map<Name, nat>, ready: set<JobId>,
                        tops: map<Name, set<JobId>>, picked: set<JobId>)
    requires Distinct(qs) && ready <= jobs.Keys && forall i | 0 <= i < |qs| :: qs[i] in slots && qs[i] in tops
    requires picked <= Merged(qs, tops)
    requires forall i | 0 <= i < |qs| :: IsTop(jobs, InQueue(jobs, ready, qs[i]), slots[qs[i]], tops[qs[i]])
    ensures forall j | j in picked :: j in ready && jobs[j].queue in qs
    ensures forall i | 0 <= i < |qs| :: |InQueue(jobs, picked, qs[i])| <= slots[qs[i]]
  {
    MergedMembers(jobs, qs, slots, ready, tops);
    forall i | 0 <= i < |qs| ensures |InQueue(jobs, picked, qs[i])| <= slots[qs[i]] {
      SubsetCard(InQueue(jobs, picked, qs[i]), tops[qs[i]]);
    }
  }

  /** A claim takes as many jobs as slots, ready rows and batch allow, and a feasible set of them. */
  lemma ClaimSize(jobs: Jobs, qs: seq<Name>, slots: map<Name, nat>, ready: set<JobId>, batch: nat,
                  tops: map<Name, set<JobId>>, picked: set<JobId>)
    requires IsClaim(jobs, qs, slots, ready, batch, tops, picked)
    ensures |picked| == Min(batch, Capacity(jobs, qs, slots, ready, jobs.Keys))
    ensures Feasible(jobs, qs, slots, ready, batch, picked)
  {
    MergedCount(jobs, qs, slots, ready, tops, jobs.Keys);
    assert Merged(qs, tops) * jobs.Keys == Merged(qs, tops);
    PickedFitsSlots(jobs, qs, slots, ready, tops, picked);
  }

  /** Optimal basis: of every up-set of the order a claim holds at least as many jobs as any feasible set. Taking for
      the up-set the jobs no worse than a given one, no feasible set has a better n-th job for any n. */
  lemma ClaimDominates(jobs: Jobs, qs: seq<Name>, slots: map<Name, nat>, ready: set<JobId>,
                       batch: nat, tops: map<Name, set<JobId>>, picked: set<JobId>, f: set<JobId>,
                       up: set<JobId>)
    requires IsClaim(jobs, qs, slots, ready, batch, tops, picked)
    requires Feasible(jobs, qs, slots, ready, batch, f) && UpSet(jobs, up)
    ensures |f * up| <= |picked * up|
  {
    MergedCount(jobs, qs, slots, ready, tops, up);
    TopOfUpSet(jobs, Merged(qs, tops), batch, picked, up);
    FeasibleCount(jobs, qs, slots, ready, f, up);
    SubsetCard(f * up, f);
  }

  /** A claim depends only on the rows of its own queues. */
  lemma ClaimTransfers(jobs: Jobs, jobs': Jobs, qs: seq<Name>, slots: map<Name, nat>,
                       ready: set<JobId>,
                       batch: nat, tops: map<Name, set<JobId>>, picked: set<JobId>)
    requires IsClaim(jobs, qs, slots, ready, batch, tops, picked) && jobs'.Keys == jobs.Keys
    requires forall j | j in jobs :: jobs'[j].queue == jobs[j].queue && (jobs[j].queue in qs ==> jobs'[j] == jobs[j])
    ensures IsClaim(jobs', qs, slots, ready, batch, tops, picked)
  {
    MergedMembers(jobs, qs, slots, ready, tops);
    forall i | 0 <= i < |qs| ensures IsTop(jobs', InQueue(jobs', ready, qs[i]), slots[qs[i]], tops[qs[i]]) {
      assert InQueue(jobs', ready, qs[i]) == InQueue(jobs, ready, qs[i]);
      assert IsTop(jobs, InQueue(jobs, ready, qs[i]), slots[qs[i]], tops[qs[i]]);
    }
    assert IsTop(jobs', Merged(qs, tops), batch, picked) by {
      assert IsTop(jobs, Merged(qs, tops), batch, picked);
    }
  }

  /** The jobs that do not come after t: of higher priority, or as high and available earlier, or as early too and not
      created later. */
  ghost function NoWorseThan(jobs: Jobs, t: Job): set<JobId> {
    set j | j in jobs
            && (jobs[j].priority > t.priority
                || (jobs[j].priority == t.priority && jobs[j].availableAt < t.availableAt)
                || (jobs[j].priority == t.priority && jobs[j].availableAt == t.availableAt
                    && jobs[j].createdAt <= t.createdAt))
  }

  /** In every prefix of the order a claim holds at least as many jobs as any feasible set. */
  lemma ClaimHasBestPrefixes(jobs: Jobs, qs: seq<Name>, slots: map<Name, nat>, ready: set<JobId>,
                             batch: nat, tops: map<Name, set<JobId>>, picked: set<JobId>,
                             f: set<JobId>, t: Job)
    requires IsClaim(jobs, qs, slots, ready, batch, tops, picked)
    requires Feasible(jobs, qs, slots, ready, batch, f)
    ensures |f * NoWorseThan(jobs, t)| <= |picked * NoWorseThan(jobs, t)|
  {
    ClaimDominates(jobs, qs, slots, ready, batch, tops, picked, f, NoWorseThan(jobs, t));
  }

  // ---- what a claim leaves behind ----

  /** No row left behind comes before a claimed row of its queue, nor before any claimed row if its queue has slots
      left: column by column. */
  lemma ClaimLeavesNoneAhead(jobs: Jobs, qs: seq<Name>, slots: map<Name, nat>, ready: set<JobId>, batch: nat,
                             tops: map<Name, set<JobId>>, picked: set<JobId>, p: JobId, c: JobId)
    requires IsClaim(jobs, qs, slots, ready, batch, tops, picked) && p in picked
    requires c in ready - picked && jobs[c].queue in qs && p in jobs
    requires jobs[c].queue == jobs[p].queue || |InQueue(jobs, picked, jobs[c].queue)| < slots[jobs[c].queue]
    ensures jobs[c].priority <= jobs[p].priority
    ensures jobs[c].priority == jobs[p].priority ==> jobs[c].availableAt >= jobs[p].availableAt
    ensures jobs[c].priority == jobs[p].priority && jobs[c].availableAt == jobs[p].availableAt ==>
              jobs[c].createdAt >= jobs[p].createdAt
  {
    var q := jobs[c].queue;
    MergedMembers(jobs, qs, slots, ready, tops);
    var i :| 0 <= i < |qs| && qs[i] == q;
    assert IsTop(jobs, InQueue(jobs, ready, qs[i]), slots[qs[i]], tops[qs[i]]);
    assert c in InQueue(jobs, ready, q);
    if c in tops[q] {
      assert c in Merged(qs, tops) - picked;
    } else if jobs[p].queue == q {
      assert p in tops[q];
    } else {
      var t := SomeTopUnpicked(jobs, qs, slots, ready, tops, picked, q, c);
      assert t in Merged(qs, tops) - picked;
      assert !Before(jobs[c], jobs[t]) && !Before(jobs[t], jobs[p]);
    }
  }

  /** When a row of q is not among its top rows, these fill the slots; so if a slot is left, one is not picked. */
  lemma SomeTopUnpicked(jobs: Jobs, qs: seq<Name>, slots: map<Name, nat>, ready: set<JobId>,
                        tops: map<Name, set<JobId>>, picked: set<JobId>, q: Name, c: JobId)
    returns (t: JobId)
    requires ready <= jobs.Keys && q in slots && q in tops && IsTop(jobs, InQueue(jobs, ready, q), slots[q], tops[q])
    requires c in InQueue(jobs, ready, q) - tops[q] && |InQueue(jobs, picked, q)| < slots[q]
    ensures t in tops[q] && t !in picked
  {
    if forall k | k in tops[q] :: k in picked {
      SubsetCard(tops[q], InQueue(jobs, picked, q));
      SubsetCard(tops[q], InQueue(jobs, ready, q));
    }
    t :| t in tops[q] && t !in picked;
  }

  /** A claim below its batch uses up the slots of every queue in which it leaves a row behind. */
  lemma ClaimIsMaximal(jobs: Jobs, qs: seq<Name>, slots: map<Name, nat>, ready: set<JobId>, batch: nat,
                       tops: map<Name, set<JobId>>, picked: set<JobId>, c: JobId)
    requires IsClaim(jobs, qs, slots, ready, batch, tops, picked) && |picked| < batch
    requires c in ready - picked && jobs[c].queue in qs
    ensures |InQueue(jobs, picked, jobs[c].queue)| == slots[jobs[c].queue]
  {
    var q := jobs[c].queue;
    MergedMembers(jobs, qs, slots, ready, tops);
    PickedFitsSlots(jobs, qs, slots, ready, tops, picked);
    SubsetCard(picked, Merged(qs, tops));
    var i :| 0 <= i < |qs| && qs[i] == q;
    assert IsTop(jobs, InQueue(jobs, ready, qs[i]), slots[qs[i]], tops[qs[i]]) && c in InQueue(jobs, ready, q);
    if |InQueue(jobs, picked, q)| < slots[q] {
      var t := SomeTopUnpicked(jobs, qs, slots, ready, tops, picked, q, c);
    }
  }

  // ---- priority totals ----

  ghost function PrioritySum(jobs: Jobs, s: set<JobId>): int
    requires s <= jobs.Keys
  {
    if s == {} then 0 else
      var j :| j in s;
      jobs[j].priority + PrioritySum(jobs, s - {j})
  }

  ghost function AtLeast(jobs: Jobs, s: set<JobId>, p: int): set<JobId> {
    set j | j in s && j in jobs && jobs[j].priority >= p
  }

  /** Number of pairs of a job of s and a level p in lo < p <= hi that its priority reaches. */
  ghost function Levels(jobs: Jobs, s: set<JobId>, lo: int, hi: int): int
    requires lo <= hi
    decreases hi - lo
  {
    if lo == hi then 0 else |AtLeast(jobs, s, hi)| + Levels(jobs, s, lo, hi - 1)
  }

  function Clamp(p: int, lo: int, hi: int): int { if p < lo then lo else if p > hi then hi else p }

  lemma {:induction false} LevelsOfOneMore(jobs: Jobs, s: set<JobId>, j: JobId, lo: int, hi: int)
    requires j in s && j in jobs && lo <= hi
    ensures Levels(jobs, s, lo, hi) == Levels(jobs, s - {j}, lo, hi) + Clamp(jobs[j].priority, lo, hi) - lo
    decreases hi - lo
  {
    if lo < hi {
      LevelsOfOneMore(jobs, s, j, lo, hi - 1);
      if jobs[j].priority >= hi {
        assert AtLeast(jobs, s, hi) == AtLeast(jobs, s - {j}, hi) + {j};
      } else {
        assert AtLeast(jobs, s, hi) == AtLeast(jobs, s - {j}, hi);
      }
    }
  }

  lemma {:induction false} NoLevels(jobs: Jobs, lo: int, hi: int)
    requires lo <= hi
    ensures Levels(jobs, {}, lo, hi) == 0
    decreases hi - lo
  {
    if lo < hi { NoLevels(jobs, lo, hi - 1); assert AtLeast(jobs, {}, hi) == {}; }
  }

  lemma {:induction false} SumByLevels(jobs: Jobs, s: set<JobId>, lo: int, hi: int)
    requires s <= jobs.Keys && lo <= hi && forall j | j in s :: lo <= jobs[j].priority <= hi
    ensures PrioritySum(jobs, s) == lo * |s| + Levels(jobs, s, lo, hi)
    decreases |s|
  {
    if s == {} {
      NoLevels(jobs, lo, hi);
    } else {
      var j :| j in s && PrioritySum(jobs, s) == jobs[j].priority + PrioritySum(jobs, s - {j});
      SumByLevels(jobs, s - {j}, lo, hi);
      LevelsOfOneMore(jobs, s, j, lo, hi);
      OneMoreTimes(lo, |s - {j}|, |s|);
    }
  }

  lemma OneMoreTimes(lo: int, n: nat, m: nat)
    requires m == n + 1
    ensures lo * m == lo * n + lo
  {
  }

  lemma {:induction false} MoreLevels(jobs: Jobs, f: set<JobId>, picked: set<JobId>, lo: int, hi: int)
    requires lo <= hi && forall p: int :: |AtLeast(jobs, f, p)| <= |AtLeast(jobs, picked, p)|
    ensures Levels(jobs, f, lo, hi) <= Levels(jobs, picked, lo, hi)
    decreases hi - lo
  {
    if lo < hi { MoreLevels(jobs, f, picked, lo, hi - 1); }
  }

  ghost function Bound(jobs: Jobs, s: set<JobId>): (b: int)
    requires s <= jobs.Keys
    ensures b >= 0 && forall j | j in s :: -b <= jobs[j].priority <= b
  {
    if s == {} then 0 else
      var j :| j in s;
      var rest := Bound(jobs, s - {j});
      var p: int := jobs[j].priority;
      if p > rest then p else if -p > rest then -p else rest
  }

  lemma AtLeastIsUpSet(jobs: Jobs, s: set<JobId>, p: int)
    requires s <= jobs.Keys
    ensures UpSet(jobs, AtLeast(jobs, jobs.Keys, p))
    ensures s * AtLeast(jobs, jobs.Keys, p) == AtLeast(jobs, s, p)
  {
  }

  lemma {:induction false} MoreOfEveryLevel(jobs: Jobs, f: set<JobId>, picked: set<JobId>)
    requires f <= jobs.Keys && picked <= jobs.Keys && |f| == |picked|
    requires forall p: int :: |AtLeast(jobs, f, p)| <= |AtLeast(jobs, picked, p)|
    ensures PrioritySum(jobs, f) <= PrioritySum(jobs, picked)
  {
    var b := Bound(jobs, jobs.Keys);
    assert forall j | j in jobs.Keys :: -b <= jobs[j].priority <= b;
    MoreLevels(jobs, f, picked, -b, b);
    SumByLevels(jobs, f, -b, b);
    SumByLevels(jobs, picked, -b, b);
  }

  /** No feasible set of the claim's size has a higher priority total. */
  lemma ClaimMaximizesPriority(jobs: Jobs, qs: seq<Name>, slots: map<Name, nat>, ready: set<JobId>,
                               batch: nat, tops: map<Name, set<JobId>>, picked: set<JobId>,
                               f: set<JobId>)
    requires IsClaim(jobs, qs, slots, ready, batch, tops, picked)
    requires Feasible(jobs, qs, slots, ready, batch, f) && |f| == |picked|
    ensures f <= jobs.Keys && picked <= jobs.Keys && PrioritySum(jobs, f) <= PrioritySum(jobs, picked)
  {
    forall p: int ensures |AtLeast(jobs, f, p)| <= |AtLeast(jobs, picked, p)| {
      AtLeastIsUpSet(jobs, f, p);
      AtLeastIsUpSet(jobs, picked, p);
      ClaimDominates(jobs, qs, slots, ready, batch, tops, picked, f, AtLeast(jobs, jobs.Keys, p));
    }
    MoreOfEveryLevel(jobs, f, picked);
  }

  // ---- a selection always exists ----

  ghost function First(jobs: Jobs, s: set<JobId>): (best: JobId)
    requires s != {} && s <= jobs.Keys
    ensures best in s && forall j | j in s :: !Before(jobs[j], jobs[best])
  {
    var j :| j in s;
    if s == {j} then j else
      assert s - {j} != {};
      var best := First(jobs, s - {j});
      if Before(jobs[j], jobs[best]) then j else best
  }

  /** ORDER BY ... LIMIT has a result for every candidate set and limit. */
  lemma {:induction false} TopExists(jobs: Jobs, candidates: set<JobId>, k: nat) returns (picked: set<JobId>)
    requires candidates <= jobs.Keys
    ensures IsTop(jobs, candidates, k, picked)
    decreases k
  {
    if k == 0 || candidates == {} {
      picked := {};
    } else {
      var best := First(jobs, candidates);
      assert k > 0;
      var rest := TopExists(jobs, candidates - {best}, k - 1);
      picked := rest + {best};
    }
  }

  predicate TopOfEach(jobs: Jobs, qs: seq<Name>, slots: map<Name, nat>, ready: set<JobId>,
                      tops: map<Name, set<JobId>>)
    requires ready <= jobs.Keys && forall i | 0 <= i < |qs| :: qs[i] in slots
  {
    forall i | 0 <= i < |qs| ::
      qs[i] in tops && IsTop(jobs, InQueue(jobs, ready, qs[i]), slots[qs[i]], tops[qs[i]])
  }

  lemma {:induction false} TopsExist(jobs: Jobs, qs: seq<Name>, slots: map<Name, nat>, ready: set<JobId>)
    requires ready <= jobs.Keys && Distinct(qs) && forall i | 0 <= i < |qs| :: qs[i] in slots
    ensures exists tops :: TopOfEach(jobs, qs, slots, ready, tops)
  {
    if qs == [] {
      assert TopOfEach(jobs, qs, slots, ready, map[]);
    } else {
      var rest := qs[1..];
      assert forall i | 0 <= i < |rest| :: rest[i] == qs[i + 1];
      TopsExist(jobs, rest, slots, ready);
      var tops :| TopOfEach(jobs, rest, slots, ready, tops);
      var top := TopExists(jobs, InQueue(jobs, ready, qs[0]), slots[qs[0]]);
      var more := tops[qs[0] := top];
      forall i | 0 <= i < |qs|
        ensures qs[i] in more && IsTop(jobs, InQueue(jobs, ready, qs[i]), slots[qs[i]], more[qs[i]])
      {
        if i > 0 { assert qs[i] == rest[i - 1]; }
      }
      assert TopOfEach(jobs, qs, slots, ready, more);
    }
  }

  lemma {:induction false} SubsetOfSize(all: set<JobId>, n: nat) returns (some: set<JobId>)
    requires n <= |all|
    ensures some <= all && |some| == n
    decreases |all|
  {
    if n == |all| {
      some := all;
    } else {
      var j :| j in all;
      some := SubsetOfSize(all - {j}, n);
    }
  }

  /** Rows together with all candidates that come strictly before one of them. */
  ghost function WithAhead(jobs: Jobs, candidates: set<JobId>, rows: set<JobId>): set<JobId>
    requires candidates <= jobs.Keys && rows <= jobs.Keys
  {
    set c | c in candidates && (c in rows || exists j | j in rows :: Before(jobs[c], jobs[j]))
  }

  /** A selection that takes rows takes whatever is ahead of them. */
  lemma TopTakesAhead(jobs: Jobs, candidates: set<JobId>, k: nat, picked: set<JobId>,
                      rows: set<JobId>)
    requires candidates <= jobs.Keys && IsTop(jobs, candidates, k, picked) && rows <= picked
    ensures |WithAhead(jobs, candidates, rows)| <= k
  {
    var ahead := WithAhead(jobs, candidates, rows);
    forall c | c in ahead ensures c in picked {
      if c !in rows {
        var j :| j in rows && Before(jobs[c], jobs[j]);
        assert j in picked;
      }
    }
    SubsetCard(ahead, picked);
  }

  /** Rows that fit the limit together with what is ahead of them are taken by some selection. */
  lemma TopCanTake(jobs: Jobs, candidates: set<JobId>, k: nat,
                   rows: set<JobId>) returns (picked: set<JobId>)
    requires candidates <= jobs.Keys && rows <= candidates && |WithAhead(jobs, candidates, rows)| <= k
    ensures IsTop(jobs, candidates, k, picked) && rows <= picked
  {
    var ahead := WithAhead(jobs, candidates, rows);
    var rest := TopExists(jobs, candidates - ahead, k - |ahead|);
    picked := ahead + rest;
    forall p, c | p in picked && c in candidates - picked ensures !Before(jobs[c], jobs[p]) {
      if p in ahead { NoneAhead(jobs, candidates, rows, p, c); }
    }
    assert candidates == ahead + (candidates - ahead);
  }

  lemma NoneAhead(jobs: Jobs, candidates: set<JobId>, rows: set<JobId>, p: JobId, c: JobId)
    requires candidates <= jobs.Keys && rows <= candidates && c in candidates
    requires p in WithAhead(jobs, candidates, rows) && c !in WithAhead(jobs, candidates, rows)
    ensures !Before(jobs[c], jobs[p])
  {
    if p !in rows {
      var j :| j in rows && Before(jobs[p], jobs[j]);
      assert !Before(jobs[c], jobs[j]);
    }
  }
}

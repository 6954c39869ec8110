// The life of a job over whole runs: terminal statuses are absorbing, no job vanishes, and a retry waits its delay.
module Lifecycle {
  import opened Rows
  import opened Statements
  import opened Protocol
  import opened Accounting

  /** A row as it was, but for the replay reference that a purge of its source sets to null. */
  predicate SameJob(r: Job, r': Job) {
    r' == r.(replayedFrom := r'.replayedFrom) && (r'.replayedFrom == r.replayedFrom || r'.replayedFrom.None?)
  }

  lemma TerminalIsFencedOff(w: World, s: Step, j: JobId)
    requires Legal(w, s) && (s.Complete? || s.Fail?) && j in w.db.jobs && w.db.jobs[j].status.Terminal()
    ensures j in Apply(w, s).db.jobs && Apply(w, s).db.jobs[j] == w.db.jobs[j]
  {
  }

  /** A step either leaves a terminal row alone or purges it after its retention. */
  lemma TerminalStep(w: World, s: Step, j: JobId)
    requires Balanced(w) && Legal(w, s) && j in w.db.jobs && w.db.jobs[j].status.Terminal()
    ensures var v := Apply(w, s);
            if j in v.db.jobs then SameJob(w.db.jobs[j], v.db.jobs[j])
            else s.Purge? && Purgeable(w.db.jobs[j], s.now, s.succeededDays, s.deadLetterDays)
                 && j in v.hist.grave && v.hist.grave[j] == w.db.jobs[j]
  {
    assert JobBalances(w, j);
    if s.Complete? || s.Fail? { TerminalIsFencedOff(w, s, j); }
  }

  /** The tables against the record of every job ever inserted. */
  ghost predicate Ledger(w: World) { Split(w.hist.birth.Keys, w.db.jobs, w.hist.grave) }

  ghost predicate Censused(w: World, q: Name) { Count(w.hist.inserted, q) == RowsIn(w.db.jobs, w.hist.grave, q) }

  function CountIn(jobs: map<JobId, Job>, q: Name, status: Status): nat { |WithStatus(jobs, JobsIn(jobs, q), status)| }

  function JobsIn(jobs: map<JobId, Job>, q: Name): set<JobId> { InQueue(jobs, jobs.Keys, q) }

  /** Only inserts and purges add or remove rows, and no row ever changes its queue. */
  ghost predicate SameRows(w: World, v: World) {
    && v.db.jobs.Keys == w.db.jobs.Keys
    && (forall j | j in w.db.jobs :: v.db.jobs[j].queue == w.db.jobs[j].queue)
    && v.hist.grave == w.hist.grave && v.hist.birth == w.hist.birth && v.hist.inserted == w.hist.inserted
  }

  lemma RecordKeepsRows(w: World, s: Step)
    requires Legal(w, s) && (s.Complete? || s.Fail?)
    ensures SameRows(w, Apply(w, s))
  {
  }

  lemma StepKeepsRows(w: World, s: Step)
    requires Legal(w, s) && !s.Insert? && !s.Purge?
    ensures SameRows(w, Apply(w, s))
  {
    if s.Complete? || s.Fail? { RecordKeepsRows(w, s); }
  }

  /** The two tables of rows, live and purged, as maps. */
  ghost predicate Split(birth: set<JobId>, jobs: map<JobId, Job>, grave: map<JobId, Job>) {
    && (forall j :: j in birth <==> j in jobs || j in grave)
    && (forall j | j in jobs :: j !in grave)
    && (forall j | j in grave :: grave[j].status.Terminal())
  }

  function RowsIn(jobs: map<JobId, Job>, grave: map<JobId, Job>, q: Name): nat {
    |JobsIn(jobs, q)| + |JobsIn(grave, q)|
  }

  lemma AddRow(birth: set<JobId>, jobs: map<JobId, Job>, grave: map<JobId, Job>, id: JobId, r: Job)
    requires Split(birth, jobs, grave) && id !in birth
    ensures Split(birth + {id}, jobs[id := r], grave)
  {
  }

  lemma AddToQueue(jobs: map<JobId, Job>, id: JobId, r: Job, q: Name)
    requires id !in jobs
    ensures |JobsIn(jobs[id := r], q)| == |JobsIn(jobs, q)| + if r.queue == q then 1 else 0
  {
    if r.queue == q {
      assert JobsIn(jobs[id := r], q) == JobsIn(jobs, q) + {id};
    } else {
      assert JobsIn(jobs[id := r], q) == JobsIn(jobs, q);
    }
  }

  /** The rows ids are deleted from the table and remembered in the grave. */
  ghost predicate Buried(jobs: map<JobId, Job>, grave: map<JobId, Job>, jobs': map<JobId, Job>, grave': map<JobId, Job>,
                         ids: set<JobId>)
  {
    && (forall j | j in ids :: j in jobs && jobs[j].status.Terminal())
    && (forall j :: j in jobs' <==> j in jobs && j !in ids)
    && (forall j | j in jobs' :: jobs'[j].queue == jobs[j].queue)
    && (forall j :: j in grave' <==> j in grave || j in ids)
    && (forall j | j in grave' :: grave'[j] == if j in ids then jobs[j] else grave[j])
  }

  lemma BuryRows(birth: set<JobId>, jobs: map<JobId, Job>, grave: map<JobId, Job>,
                 jobs': map<JobId, Job>, grave': map<JobId, Job>, ids: set<JobId>)
    requires Split(birth, jobs, grave) && Buried(jobs, grave, jobs', grave', ids)
    ensures Split(birth, jobs', grave')
  {
  }

  lemma BuryInQueue(birth: set<JobId>, jobs: map<JobId, Job>, grave: map<JobId, Job>,
                    jobs': map<JobId, Job>, grave': map<JobId, Job>, ids: set<JobId>, q: Name)
    requires Split(birth, jobs, grave) && Buried(jobs, grave, jobs', grave', ids)
    ensures RowsIn(jobs', grave', q) == RowsIn(jobs, grave, q)
  {
    var gone := set j | j in ids && jobs[j].queue == q;
    assert |JobsIn(jobs, q)| == |JobsIn(jobs', q)| + |gone| by {
      Partition(JobsIn(jobs, q), JobsIn(jobs', q), gone);
    }
    assert |JobsIn(grave', q)| == |JobsIn(grave, q)| + |gone| by {
      Partition(JobsIn(grave', q), JobsIn(grave, q), gone);
    }
  }

  lemma PurgeBuries(w: World, s: Step)
    requires Legal(w, s) && s.Purge?
    ensures var v := Apply(w, s);
            && Buried(w.db.jobs, w.hist.grave, v.db.jobs, v.hist.grave, s.ids) && v.hist.birth == w.hist.birth
            && v.hist.inserted == w.hist.inserted
  {
  }

  lemma InsertKeepsLedger(w: World, s: Step)
    requires Ledger(w) && Legal(w, s) && s.Insert?
    ensures Ledger(Apply(w, s))
  {
    if Conflicts(w.db, s.ask) {
      ConflictAddsNothing(w, s);
    } else {
      InsertAdds(w, s);
      AddRow(w.hist.birth.Keys, w.db.jobs, w.hist.grave, s.id, NewRow(s.ask, s.now));
      assert Apply(w, s).hist.birth.Keys == w.hist.birth.Keys + {s.id};
    }
  }

  lemma PurgeKeepsLedger(w: World, s: Step)
    requires Ledger(w) && Legal(w, s) && s.Purge?
    ensures Ledger(Apply(w, s))
  {
    PurgeBuries(w, s);
    BuryRows(w.hist.birth.Keys, w.db.jobs, w.hist.grave, Apply(w, s).db.jobs, Apply(w, s).hist.grave, s.ids);
  }

  lemma StepKeepsLedger(w: World, s: Step)
    requires Ledger(w) && Legal(w, s)
    ensures Ledger(Apply(w, s))
  {
    if s.Insert? {
      InsertKeepsLedger(w, s);
    } else if s.Purge? {
      PurgeKeepsLedger(w, s);
    } else {
      StepKeepsRows(w, s);
    }
  }

  lemma InsertKeepsCensus(w: World, s: Step, q: Name)
    requires Ledger(w) && Censused(w, q) && Legal(w, s) && s.Insert?
    ensures Censused(Apply(w, s), q)
  {
    if Conflicts(w.db, s.ask) {
      ConflictAddsNothing(w, s);
    } else {
      InsertAdds(w, s);
      AddToQueue(w.db.jobs, s.id, NewRow(s.ask, s.now), q);
    }
  }

  lemma StepKeepsCensus(w: World, s: Step, q: Name)
    requires Ledger(w) && Censused(w, q) && Legal(w, s)
    ensures Censused(Apply(w, s), q)
  {
    var v := Apply(w, s);
    if s.Insert? {
      InsertKeepsCensus(w, s, q);
    } else if s.Purge? {
      PurgeBuries(w, s);
      BuryInQueue(w.hist.birth.Keys, w.db.jobs, w.hist.grave, v.db.jobs, v.hist.grave, s.ids, q);
    } else {
      StepKeepsRows(w, s);
      assert JobsIn(v.db.jobs, q) == JobsIn(w.db.jobs, q);
    }
  }

  lemma {:induction false} RunKeepsLedger(w: World, run: seq<Step>, q: Name)
    requires Ledger(w) && Censused(w, q) && LegalRun(w, run)
    ensures Ledger(After(w, run)) && Censused(After(w, run), q)
    decreases |run|
  {
    if run != [] {
      StepKeepsLedger(w, run[0]);
      StepKeepsCensus(w, run[0], q);
      RunKeepsLedger(Apply(w, run[0]), run[1..], q);
    }
  }

  lemma StatusesPartition(jobs: map<JobId, Job>, q: Name)
    ensures |JobsIn(jobs, q)|
         == CountIn(jobs, q, Pending) + CountIn(jobs, q, Leased) + CountIn(jobs, q, Succeeded)
            + CountIn(jobs, q, DeadLetter) + CountIn(jobs, q, Cancelled)
  {
    var live := set j | j in jobs && jobs[j].queue == q && jobs[j].status.Live();
    var dead := set j | j in jobs && jobs[j].queue == q
        && (jobs[j].status == DeadLetter || jobs[j].status == Cancelled);
    var over := set j | j in jobs && jobs[j].queue == q && jobs[j].status.Terminal();
    assert |live| == CountIn(jobs, q, Pending) + CountIn(jobs, q, Leased) by {
      Partition(live, WithStatus(jobs, JobsIn(jobs, q), Pending), WithStatus(jobs, JobsIn(jobs, q), Leased));
    }
    assert |dead| == CountIn(jobs, q, DeadLetter) + CountIn(jobs, q, Cancelled) by {
      Partition(dead, WithStatus(jobs, JobsIn(jobs, q), DeadLetter), WithStatus(jobs, JobsIn(jobs, q), Cancelled));
    }
    assert |over| == CountIn(jobs, q, Succeeded) + |dead| by {
      Partition(over, WithStatus(jobs, JobsIn(jobs, q), Succeeded), dead);
    }
    assert |JobsIn(jobs, q)| == |live| + |over| by { Partition(JobsIn(jobs, q), live, over); }
  }

  lemma Partition<T(!new)>(all: set<T>, some: set<T>, others: set<T>)
    requires forall x :: x in all <==> x in some || x in others
    requires forall x | x in some :: x !in others
    ensures |all| == |some| + |others|
  {
    assert all == some + others && some !! others;
  }

  /** Per queue, every row ever inserted is pending, leased, succeeded, dead-lettered, cancelled or purged. */
  lemma QueueCensus(run: seq<Step>, q: Name)
    requires LegalRun(EMPTY, run)
    ensures var w := After(EMPTY, run);
            Count(w.hist.inserted, q)
            == CountIn(w.db.jobs, q, Pending) + CountIn(w.db.jobs, q, Leased)
               + CountIn(w.db.jobs, q, Succeeded) + CountIn(w.db.jobs, q, DeadLetter)
               + CountIn(w.db.jobs, q, Cancelled) + |JobsIn(w.hist.grave, q)|
  {
    RunKeepsLedger(EMPTY, run, q);
    StatusesPartition(After(EMPTY, run).db.jobs, q);
  }

  /** No job vanishes before it reaches a terminal status: whatever was inserted is still there or was purged, with a
      terminal row. */
  lemma NoJobVanishes(run: seq<Step>, j: JobId)
    requires LegalRun(EMPTY, run) && j in After(EMPTY, run).hist.birth
    ensures var w := After(EMPTY, run);
            j in w.db.jobs || (j in w.hist.grave && w.hist.grave[j].status.Terminal())
  {
    RunKeepsLedger(EMPTY, run, "");
  }

  /** A job seen terminal is found as it was, or purged as it was, after any further run. */
  lemma {:induction false} TerminalIsAbsorbing(w: World, run: seq<Step>, j: JobId)
    requires Balanced(w) && Ledger(w) && LegalRun(w, run) && j in w.db.jobs && w.db.jobs[j].status.Terminal()
    ensures var v := After(w, run);
            if j in v.db.jobs then SameJob(w.db.jobs[j], v.db.jobs[j])
            else j in v.hist.grave && SameJob(w.db.jobs[j], v.hist.grave[j])
    decreases |run|
  {
    if run != [] {
      var v := Apply(w, run[0]);
      TerminalStep(w, run[0], j);
      StepKeepsBalance(w, run[0]);
      StepKeepsLedger(w, run[0]);
      if j in v.db.jobs { TerminalIsAbsorbing(v, run[1..], j); } else { GraveIsFinal(v, run[1..], j); }
    }
  }

  lemma GraveStep(w: World, s: Step, j: JobId)
    requires Ledger(w) && Legal(w, s) && j in w.hist.grave
    ensures var v := Apply(w, s); j in v.hist.grave && v.hist.grave[j] == w.hist.grave[j]
  {
    if !s.Insert? && !s.Purge? { StepKeepsRows(w, s); }
  }

  lemma {:induction false} GraveIsFinal(w: World, run: seq<Step>, j: JobId)
    requires Ledger(w) && LegalRun(w, run) && j in w.hist.grave
    ensures var v := After(w, run);
            j !in v.db.jobs && j in v.hist.grave && v.hist.grave[j] == w.hist.grave[j]
    decreases |run|
  {
    if run != [] {
      GraveStep(w, run[0], j);
      StepKeepsLedger(w, run[0]);
      GraveIsFinal(Apply(w, run[0]), run[1..], j);
    }
  }

  // ---- retry delay ----

  ghost predicate NotAvailableBefore(w: World, j: JobId, t: Time) {
    j in w.hist.birth && (j in w.db.jobs ==> w.db.jobs[j].availableAt >= t)
  }

  lemma StepKeepsDelay(w: World, s: Step, j: JobId, t: Time)
    requires Legal(w, s) && NotAvailableBefore(w, j, t) && !(s.Fail? && s.exec.job == j)
    ensures NotAvailableBefore(Apply(w, s), j, t)
  {
  }

  /** Until the job fails again, no claim of it has a transaction time before t. */
  lemma {:induction false} NoClaimBefore(w: World, run: seq<Step>, i: nat, j: JobId, t: Time)
    requires LegalRun(w, run) && NotAvailableBefore(w, j, t)
    requires i < |run| && run[i].Claim? && j in run[i].ids
    requires forall k | 0 <= k < i :: !(run[k].Fail? && run[k].exec.job == j)
    ensures run[i].now >= t
    decreases |run|
  {
    if i > 0 {
      StepKeepsDelay(w, run[0], j, t);
      assert forall k | 0 <= k < i - 1 :: run[1..][k] == run[k + 1];
      NoClaimBefore(Apply(w, run[0]), run[1..], i - 1, j, t);
    }
  }

  /** After an effective retryable failure, no claim before the job's next failure starts earlier than the failure's
      time plus the delay. */
  lemma RetryWaitsItsDelay(w: World, fail: Step, run: seq<Step>, i: nat)
    requires Balanced(w) && fail.Fail? && LegalRun(w, [fail] + run) && FenceOpen(w, fail.exec)
    requires ShouldRetry(w.execs[fail.exec].row, fail.retryable)
    requires i < |run| && run[i].Claim? && fail.exec.job in run[i].ids
    requires forall k | 0 <= k < i :: !(run[k].Fail? && run[k].exec.job == fail.exec.job)
    ensures run[i].now >= fail.now + Seconds(fail.delay)
  {
    assert ([fail] + run)[0] == fail && ([fail] + run)[1..] == run;
    assert JobBalances(w, fail.exec.job) && ExecKnown(w, fail.exec);
    NoClaimBefore(Apply(w, fail), run, i, fail.exec.job, fail.now + Seconds(fail.delay));
  }
}

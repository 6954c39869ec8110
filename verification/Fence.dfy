// The fence of complete, fail, return and extend compares the worker only (locked_by = :worker_id). When it is a token
// of one claim: exactly as long as no worker claims a job it is still executing (assumption H1).
module Fence {
  import opened Rows
  import opened Statements
  import opened Protocol
  import opened Accounting

  /** A live task passes the fence. */
  predicate Passes(w: World, e: ExecId)
    requires e in w.execs
  {
    w.execs[e].InFlight() && FenceOpen(w, e)
  }

  /** Of all live tasks of a job, only that of its latest claim passes the fence. */
  ghost predicate TokenAt(w: World, j: JobId) {
    forall e | e in w.execs && e.job == j && Passes(w, e) :: e.claim == Count(w.hist.claims, j)
  }

  /** A record or a return of e that takes effect. */
  predicate TakesEffect(w: World, s: Step, e: ExecId) {
    (s.Complete? || s.Fail? || s.Return?) && s.exec == e && e in w.execs && FenceOpen(w, e)
  }

  // ---- which step opens a shut fence ----

  /** The task's own worker claims its job again while the task is live. */
  predicate Regains(w: World, s: Step, e: ExecId)
    requires e in w.execs
  {
    s.Claim? && e.job in s.ids && s.worker == w.execs[e].worker && w.execs[e].InFlight()
  }

  lemma ClaimedExec(w: World, s: Step, e: ExecId)
    requires Balanced(w) && s.Claim? && Legal(w, s) && e in w.execs
    ensures var v := Apply(w, s);
            && e in v.execs && v.execs[e] == w.execs[e] && (e.job in s.ids ==> e.claim < Count(v.hist.claims, e.job))
            && (FenceOpen(v, e) <==> if e.job in s.ids then w.execs[e].worker == s.worker else FenceOpen(w, e))
  {
    assert ExecKnown(w, e);
    assert e !in NewExecs(w, s.ids, s.worker, s.now, s.lease);
  }

  lemma RecordShuts(w: World, s: Step, e: ExecId)
    requires Balanced(w) && (s.Complete? || s.Fail?) && Legal(w, s) && e in w.execs && !Passes(w, e)
    ensures e in Apply(w, s).execs && !Passes(Apply(w, s), e)
  {
    assert ExecKnown(w, s.exec);
  }

  lemma OthersShut(w: World, s: Step, e: ExecId)
    requires Legal(w, s) && !s.Claim? && !s.Complete? && !s.Fail? && e in w.execs && e.job in w.hist.birth
    requires !Passes(w, e)
    ensures e in Apply(w, s).execs && !Passes(Apply(w, s), e)
  {
  }

  /** Of all steps, exactly such a claim opens the fence of a task that it was shut for. */
  lemma RegainedIff(w: World, s: Step, e: ExecId)
    requires Balanced(w) && Legal(w, s) && e in w.execs && !Passes(w, e)
    ensures e in Apply(w, s).execs && (Passes(Apply(w, s), e) <==> Regains(w, s, e))
  {
    if s.Claim? {
      ClaimedExec(w, s, e);
    } else if s.Complete? || s.Fail? {
      RecordShuts(w, s, e);
    } else {
      assert ExecKnown(w, e);
      OthersShut(w, s, e);
    }
  }

  // ---- a token, exactly under H1 ----

  lemma NewExecIsLatest(w: World, s: Step, e: ExecId)
    requires s.Claim? && Legal(w, s) && e in Apply(w, s).execs && e !in w.execs
    ensures e.claim == Count(Apply(w, s).hist.claims, e.job)
  {
  }

  lemma ClaimKeepsTokenIff(w: World, s: Step, j: JobId)
    requires Balanced(w) && TokenAt(w, j) && s.Claim? && Legal(w, s)
    ensures TokenAt(Apply(w, s), j) <==> NoOverlapOn(w, s, j)
  {
    var v := Apply(w, s);
    if NoOverlapOn(w, s, j) {
      forall e | e in v.execs && e.job == j && Passes(v, e) ensures e.claim == Count(v.hist.claims, j) {
        if e in w.execs { ClaimedExec(w, s, e); } else { NewExecIsLatest(w, s, e); }
      }
    } else {
      var e :| e in w.execs && e.job == j && w.execs[e].InFlight() && w.execs[e].worker == s.worker;
      ClaimedExec(w, s, e);
      assert Passes(v, e);
    }
  }

  lemma NoClaimNoTask(w: World, s: Step)
    requires Legal(w, s) && !s.Claim?
    ensures Apply(w, s).execs.Keys == w.execs.Keys && Apply(w, s).hist.claims == w.hist.claims
  {
  }

  /** Every step keeps the fence a token of the latest claim, unless it is a claim of the job by a worker still
      executing it; and every such claim breaks it. */
  lemma TokenIff(w: World, s: Step, j: JobId)
    requires Balanced(w) && TokenAt(w, j) && Legal(w, s)
    ensures TokenAt(Apply(w, s), j) <==> NoOverlapOn(w, s, j)
  {
    if s.Claim? {
      ClaimKeepsTokenIff(w, s, j);
    } else {
      var v := Apply(w, s);
      NoClaimNoTask(w, s);
      forall e | e in v.execs && e.job == j && Passes(v, e) ensures e.claim == Count(v.hist.claims, j) {
        if !Passes(w, e) { RegainedIff(w, s, e); }
      }
    }
  }

  /** The fence is a token all along the run. */
  ghost predicate TokenAlong(w: World, run: seq<Step>, j: JobId)
    requires LegalRun(w, run)
    decreases |run|
  {
    TokenAt(w, j) && (run != [] ==> TokenAlong(Apply(w, run[0]), run[1..], j))
  }

  /** H1 for a job, along a run, is the same as: its fence is a token all along. */
  lemma {:induction false} TokenAlongIff(w: World, run: seq<Step>, j: JobId)
    requires Balanced(w) && TokenAt(w, j) && LegalRun(w, run)
    ensures TokenAlong(w, run, j) <==> NoOverlapRunOn(w, run, j)
    ensures NoOverlapRunOn(w, run, j) ==> TokenAt(After(w, run), j)
    decreases |run|
  {
    if run != [] {
      StepKeepsBalance(w, run[0]);
      TokenIff(w, run[0], j);
      if NoOverlapOn(w, run[0], j) { TokenAlongIff(Apply(w, run[0]), run[1..], j); }
    }
  }

  lemma FenceIsToken(run: seq<Step>, j: JobId)
    requires LegalRun(EMPTY, run)
    ensures TokenAlong(EMPTY, run, j) <==> NoOverlapRunOn(EMPTY, run, j)
  {
    TokenAlongIff(EMPTY, run, j);
  }

  // ---- what an execution that has lost its lease can still do ----

  /** No step of the run is a record or a return of e that takes effect. */
  ghost predicate NoEffect(w: World, run: seq<Step>, e: ExecId)
    requires LegalRun(w, run)
    decreases |run|
  {
    run != [] ==> !TakesEffect(w, run[0], e) && NoEffect(Apply(w, run[0]), run[1..], e)
  }

  lemma EffectNeedsFence(w: World, s: Step, e: ExecId)
    requires Legal(w, s) && e in w.execs && TakesEffect(w, s, e)
    ensures Passes(w, e)
  {
  }

  /** Once its fence is shut, whoever shut it, a task takes no effect in any run in which its worker does not claim the
      job again while the task is live. */
  lemma {:induction false} LostLeaseHasNoEffect(w: World, run: seq<Step>, e: ExecId)
    requires Balanced(w) && LegalRun(w, run) && NoOverlapRunOn(w, run, e.job) && e in w.execs && !Passes(w, e)
    ensures NoEffect(w, run, e) && e in After(w, run).execs && !Passes(After(w, run), e)
    decreases |run|
  {
    if run != [] {
      StepKeepsBalance(w, run[0]);
      RegainedIff(w, run[0], e);
      if TakesEffect(w, run[0], e) { EffectNeedsFence(w, run[0], e); }
      LostLeaseHasNoEffect(Apply(w, run[0]), run[1..], e);
    }
  }

  /** The i-th step of the run is a claim by which e gets its fence back. */
  ghost predicate RegainsAt(w: World, run: seq<Step>, i: nat, e: ExecId)
    requires LegalRun(w, run) && i < |run|
    decreases i
  {
    if i == 0 then e in w.execs && Regains(w, run[0], e) else RegainsAt(Apply(w, run[0]), run[1..], i - 1, e)
  }

  /** With or without H1: if a task whose fence was shut does take effect, its own worker has claimed the job again in
      between, while the task was live. */
  lemma {:induction false} LateEffectRegains(w: World, run: seq<Step>, e: ExecId)
    requires Balanced(w) && LegalRun(w, run) && e in w.execs && !Passes(w, e) && !NoEffect(w, run, e)
    ensures exists i: nat | i < |run| :: RegainsAt(w, run, i, e)
    decreases |run|
  {
    if TakesEffect(w, run[0], e) { EffectNeedsFence(w, run[0], e); }
    if Regains(w, run[0], e) {
      assert RegainsAt(w, run, 0, e);
    } else {
      StepKeepsBalance(w, run[0]);
      RegainedIff(w, run[0], e);
      LateEffectRegains(Apply(w, run[0]), run[1..], e);
      var i: nat :| i < |run[1..]| && RegainsAt(Apply(w, run[0]), run[1..], i, e);
      assert RegainsAt(w, run, i + 1, e);
    }
  }

  // ---- whose claim an effect belongs to ----

  /** Every effect of e along the run belongs to its own claim, the latest of the job. */
  ghost predicate OwnEffects(w: World, run: seq<Step>, e: ExecId)
    requires LegalRun(w, run)
    decreases |run|
  {
    run != [] ==>
      && (TakesEffect(w, run[0], e) ==> e.claim == Count(w.hist.claims, e.job))
      && OwnEffects(Apply(w, run[0]), run[1..], e)
  }

  lemma {:induction false} TokenOwnsEffects(w: World, run: seq<Step>, e: ExecId)
    requires LegalRun(w, run) && TokenAlong(w, run, e.job)
    ensures OwnEffects(w, run, e)
    decreases |run|
  {
    if run != [] {
      if TakesEffect(w, run[0], e) { EffectNeedsFence(w, run[0], e); }
      TokenOwnsEffects(Apply(w, run[0]), run[1..], e);
    }
  }

  /** An execution that has lost its lease records no result, over all runs under H1 for the job: whatever e records or
      gives back and takes effect, it does to the lease that its own claim made. */
  lemma EffectsAreOwn(run: seq<Step>, e: ExecId)
    requires LegalRun(EMPTY, run) && NoOverlapRunOn(EMPTY, run, e.job)
    ensures OwnEffects(EMPTY, run, e)
  {
    FenceIsToken(run, e.job);
    TokenOwnsEffects(EMPTY, run, e);
  }
}

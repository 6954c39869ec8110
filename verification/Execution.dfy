// One execution in the worker (src/pgrelay/worker/runner.py, _execute_job and what it awaits): which transactions of a
// claimed job it commits, over every outcome of every await.
module Execution {
  import opened Rows
  import opened Statements
  import opened Protocol
  import Accounting
  import Backoff
  import Fence
  import Fidelity
  import Heartbeat
  import Transitions

  datatype Kind = Success | RetryableFailure | PermanentFailure | TimedOut

  /** How awaiting the execution task ends. Cancelled: the worker or the lost heartbeat cancelled it. */
  datatype Dispatch = Returned(kind: Kind, report: Report) | Raised(errorType: string, message: string) | Cancelled

  /** How awaiting a transaction ends. A cancellation or an error can strike before its commit lands or after. */
  datatype Tx = Done | Raises(landed: bool) | Cancels(landed: bool)
  {
    predicate Lands() { Done? || (Raises? && landed) || (Cancels? && landed) }
  }

  /** beat is the heartbeat task's result if it is done once the execution is; draw the jitter of the retry delay. */
  datatype Script = Script(dispatch: Dispatch, beat: Option<Heartbeat.Outcome>, record: Tx, giveBack: Tx, now: Time,
                           later: Time, draw: real)

  datatype Ending = Normal | Failed | CancelledEnd

  /** _exception_result: any exception is a retryable failure. */
  function ExceptionResult(errorType: string, message: string): (Kind, Report) {
    (RetryableFailure,
     Report(0, Diagnosis(Some(errorType), Some(if |message| > 2000 then message[..2000] else message), None), None))
  }

  /** The step that _record_result commits. */
  function RecordStep(e: ExecId, row: Job, kind: Kind, report: Report, now: Time, settings: Backoff.Settings,
                      draw: real): Step {
    if kind == Success then Complete(e, now, report) else
      Fail(e, now, kind == RetryableFailure || kind == TimedOut, kind == TimedOut,
           Backoff.RetryDelay(row.attemptCount, settings, draw), report)
  }

  /** The lease is still owned unless the heartbeat has ended without saying so. */
  predicate LeaseKept(beat: Option<Heartbeat.Outcome>) { beat == None || beat == Some(Heartbeat.Owned) }

  /** The result is to be recorded: the execution was not cancelled and the lease is owned. */
  predicate Records(script: Script) { !script.dispatch.Cancelled? && LeaseKept(script.beat) }

  /** CancelledError reaches the handler that gives the job back. */
  predicate Unwinds(script: Script) { script.dispatch.Cancelled? || (Records(script) && script.record.Cancels?) }

  predicate IsRecord(s: Step) { s.Complete? || s.Fail? }

  /** A step of the execution e itself. */
  predicate OwnStep(s: Step, e: ExecId) {
    (s.Complete? || s.Fail? || s.Return? || s.Interrupt? || s.End?) && s.exec == e
  }

  /** The phases that the protocol allows a task, one own step at a time. */
  predicate Allowed(phase: Phase, s: Step) {
    match s
    case Complete(_, _, _) => phase.Running?
    case Fail(_, _, _, _, _, _) => phase.Running?
    case Return(_, _) => phase.Unwinding?
    case Interrupt(_) => phase.Running? || phase.Recorded?
    case End(_) => !phase.Ended?
    case _ => false
  }

  function PhaseAfter(phase: Phase, s: Step): Phase {
    match s
    case Complete(_, _, _) => Recorded
    case Fail(_, _, _, _, _, _) => Recorded
    case Interrupt(_) => Unwinding
    case Return(_, _) => Ended
    case End(_) => Ended
    case _ => phase
  }

  /** From phase the steps are own steps of e, each allowed, and the task is over after the last. */
  predicate Accepts(phase: Phase, e: ExecId, steps: seq<Step>)
    decreases |steps|
  {
    if steps == [] then phase.Ended?
    else OwnStep(steps[0], e) && Allowed(phase, steps[0]) && Accepts(PhaseAfter(phase, steps[0]), e, steps[1..])
  }

  lemma AcceptsCons(phase: Phase, e: ExecId, s: Step, rest: seq<Step>)
    requires OwnStep(s, e) && Allowed(phase, s) && Accepts(PhaseAfter(phase, s), e, rest)
    ensures Accepts(phase, e, [s] + rest)
  {
    assert ([s] + rest)[1..] == rest;
  }

  lemma {:induction false} TailAccepted(phase: Phase, e: ExecId, rest: seq<Step>)
    requires phase.Running? || phase.Recorded?
    requires || rest == [End(e)]
             || (|rest| == 2 && rest[0] == Interrupt(e) && (rest[1].End? || rest[1].Return?) && rest[1].exec == e)
    ensures Accepts(phase, e, rest)
  {
    if |rest| == 2 {
      assert rest[1..] == [rest[1]];
      AcceptsCons(Unwinding, e, rest[1], []);
      assert rest == [rest[0]] + [rest[1]] && [rest[1]] + [] == [rest[1]];
    } else {
      AcceptsCons(phase, e, End(e), []);
    }
  }

  // ---- what is recorded ----

  /** The tables let e record: its task is running, on the row that it claimed, and still passes the fence. */
  ghost predicate MayRecord(w: World, e: ExecId, row: Job) {
    Accounting.Balanced(w) && e in w.execs && w.execs[e].phase.Running? && w.execs[e].row == row && FenceOpen(w, e)
  }

  /** What the step leaves of the job: it has succeeded exactly when the execution did; it is pending again exactly when
      the execution raised, timed out or failed retryably with attempts left, available after the delay that the backoff
      draws; and it is dead-lettered otherwise. */
  ghost predicate LeavesOutcome(w: World, s: Step, e: ExecId, row: Job, settings: Backoff.Settings, script: Script)
    requires e in w.execs && !script.dispatch.Cancelled?
  {
    && Legal(w, s) && e.job in w.db.jobs && e.job in Apply(w, s).db.jobs
    && var r, r', dispatch := w.db.jobs[e.job], Apply(w, s).db.jobs[e.job], script.dispatch;
       && (r'.status == Succeeded <==> dispatch.Returned? && dispatch.kind == Success)
       && (r'.status == Pending <==>
             && row.attemptCount < row.maxAttempts
             && (dispatch.Raised? || dispatch.kind == RetryableFailure || dispatch.kind == TimedOut))
       && (r'.status == Succeeded || r'.status == Pending || r'.status == DeadLetter)
       && (r'.status != Pending ==> r'.completedAt == Some(script.now) && r'.availableAt == r.availableAt)
       && (r'.status == Pending ==>
             && r'.availableAt == script.now + 1_000_000 * Backoff.RetryDelay(row.attemptCount, settings, script.draw)
             && (settings.Valid() && Backoff.Drawn(row.attemptCount, settings, script.draw) ==>
                   script.now + 1_000_000 <= r'.availableAt <= script.now + 1_000_000 * settings.max))
  }

  /** And what it writes to the attempt table. */
  ghost predicate TellsOutcome(w: World, s: Step, e: ExecId, script: Script)
    requires e in w.execs && !script.dispatch.Cancelled? && Legal(w, s)
  {
    && |Apply(w, s).db.log| == |w.db.log| + 1
    && var a, dispatch := Apply(w, s).db.log[|w.db.log|], script.dispatch;
       && a.job == e.job && a.number == w.execs[e].row.attemptCount && a.worker == w.execs[e].worker
       && a.finishedAt == script.now
       && (a.status == AttemptSucceeded <==> dispatch.Returned? && dispatch.kind == Success)
       && (a.status == AttemptTimeout <==> dispatch.Returned? && dispatch.kind == TimedOut)
       && (a.status == AttemptSucceeded || a.status == AttemptTimeout || a.status == AttemptFailed)
       && (if dispatch.Returned? then
             && a.durationMs == dispatch.report.durationMs && a.bodyPreview == dispatch.report.bodyPreview
             && a.last == (if dispatch.kind == Success then Diagnosis(None, None, dispatch.report.last.responseStatus)
                           else dispatch.report.last)
           else
             && a.durationMs == 0 && a.bodyPreview == None && a.last.errorType == Some(dispatch.errorType)
             && a.last.responseStatus == None && a.last.errorMessage.Some?
             && a.last.errorMessage.value <= dispatch.message
             && |a.last.errorMessage.value| == if |dispatch.message| < 2000 then |dispatch.message| else 2000)
  }

  /** What the caller passes on: the kind and the report that the execution returned, or those of its exception. */
  function Outcome(dispatch: Dispatch): (Kind, Report)
    requires !dispatch.Cancelled?
  {
    if dispatch.Returned? then (dispatch.kind, dispatch.report)
    else ExceptionResult(dispatch.errorType, dispatch.message)
  }

  function ScriptRecord(e: ExecId, row: Job, settings: Backoff.Settings, script: Script): Step
    requires !script.dispatch.Cancelled?
  {
    var (kind, report) := Outcome(script.dispatch);
    RecordStep(e, row, kind, report, script.now, settings, script.draw)
  }

  lemma RecordLeavesOutcome(w: World, e: ExecId, row: Job, settings: Backoff.Settings, script: Script, s: Step)
    requires MayRecord(w, e, row) && !script.dispatch.Cancelled? && s == ScriptRecord(e, row, settings, script)
    ensures LeavesOutcome(w, s, e, row, settings, script) && TellsOutcome(w, s, e, script)
  {
    if settings.Valid() && Backoff.Drawn(row.attemptCount, settings, script.draw) {
      Backoff.DelayBounds(row.attemptCount, settings, script.draw);
    }
    if s.Complete? { Transitions.SuccessLeaves(w, s); } else { Transitions.FailureLeaves(w, s); }
  }

  /** Wherever the step may be taken, it records the outcome of the script. */
  ghost predicate RecordsOutcome(s: Step, e: ExecId, row: Job, settings: Backoff.Settings, script: Script)
    requires !script.dispatch.Cancelled?
  {
    forall w | MayRecord(w, e, row) ::
      LeavesOutcome(w, s, e, row, settings, script) && TellsOutcome(w, s, e, script)
  }

  lemma RecordIsOutcome(e: ExecId, row: Job, settings: Backoff.Settings, script: Script, s: Step)
    requires !script.dispatch.Cancelled? && s == ScriptRecord(e, row, settings, script)
    ensures RecordsOutcome(s, e, row, settings, script)
  {
    forall w | MayRecord(w, e, row)
      ensures LeavesOutcome(w, s, e, row, settings, script) && TellsOutcome(w, s, e, script)
    {
      RecordLeavesOutcome(w, e, row, settings, script, s);
    }
  }

  /** _finish_heartbeat. A cancellation while it awaits the cancelled heartbeat is swallowed by _await_cancelled. */
  method FinishHeartbeat(beat: Option<Heartbeat.Outcome>) returns (leaseOwned: bool)
    ensures leaseOwned <==> beat == None || beat == Some(Heartbeat.Owned)
  {
    if beat.Some? {
      match beat.value {
        case Owned => return true;
        case Lost => return false;
        case Interrupted => return false;
        case Raised => return false;
      }
    }
    leaseOwned := true;
  }

  /** Run one execution to its end, whatever happens at each await. The result is recorded when the transaction lands
      and the execution was neither cancelled nor left without its lease; the job is given back only after a
      cancellation. */
  method ExecuteJob(e: ExecId, row: Job, settings: Backoff.Settings, script: Script)
    returns (steps: seq<Step>, ending: Ending)
    ensures Accepts(Running, e, steps)
    ensures (exists i | 0 <= i < |steps| :: IsRecord(steps[i])) <==> Records(script) && script.record.Lands()
    ensures (exists i | 0 <= i < |steps| :: steps[i].Return?) <==> Unwinds(script) && script.giveBack.Lands()
    ensures Records(script) <==>
              !script.dispatch.Cancelled? && (script.beat == None || script.beat == Some(Heartbeat.Owned))
    ensures Unwinds(script) <==> script.dispatch.Cancelled? || (Records(script) && script.record.Cancels?)
    ensures Records(script) && script.record.Lands() ==>
              && steps != [] && steps[0] == ScriptRecord(e, row, settings, script)
              && RecordsOutcome(steps[0], e, row, settings, script)
    ensures ending == if Unwinds(script) then CancelledEnd
                      else if Records(script) && script.record.Raises? then Failed else Normal
  {
    steps, ending := [], Normal;
    var cancelled := script.dispatch.Cancelled?;
    if !cancelled {
      var kind, report;
      match script.dispatch {
        case Returned(k, r) => kind, report := k, r;
        case Raised(errorType, message) =>
          var result := ExceptionResult(errorType, message);
          kind, report := result.0, result.1;
        case Cancelled =>
      }
      var leaseOwned := FinishHeartbeat(script.beat);
      if leaseOwned {
        if script.record.Lands() {
          steps := [RecordStep(e, row, kind, report, script.now, settings, script.draw)];
        }
        cancelled := script.record.Cancels?;
        if script.record.Raises? { ending := Failed; }
      }
    }
    ghost var phase, recorded := if steps == [] then Running else Recorded, steps;
    var rest := [End(e)];
    if cancelled {
      ending := CancelledEnd;
      rest := [Interrupt(e), if script.giveBack.Lands() then Return(e, script.later) else End(e)];
    }
    if steps != [] { RecordIsOutcome(e, row, settings, script, steps[0]); }
    TailAccepted(phase, e, rest);
    steps := steps + rest;
    if recorded != [] { AcceptsCons(Running, e, recorded[0], rest); } else { assert steps == rest; }
    assert cancelled ==> rest[1] == steps[|steps| - 1];
  }

  // ---- within the protocol ----

  /** The steps of a run that e itself takes. */
  function OwnSteps(run: seq<Step>, e: ExecId): seq<Step> {
    if run == [] then [] else (if OwnStep(run[0], e) then [run[0]] else []) + OwnSteps(run[1..], e)
  }

  lemma OwnStepMoves(w: World, s: Step, e: ExecId)
    requires Legal(w, s) && e in w.execs && OwnStep(s, e)
    ensures Allowed(w.execs[e].phase, s)
    ensures e in Apply(w, s).execs && Apply(w, s).execs[e].phase == PhaseAfter(w.execs[e].phase, s)
    ensures !IsRecord(s) && !s.Return? ==> Apply(w, s).execs[e].effects == w.execs[e].effects
  {
  }

  /** No other step touches the task; a later claim of the job is another execution. */
  lemma OthersKeepTask(w: World, s: Step, e: ExecId)
    requires Accounting.Balanced(w) && Legal(w, s) && e in w.execs && !OwnStep(s, e)
    ensures e in Apply(w, s).execs && Apply(w, s).execs[e] == w.execs[e]
  {
    assert Accounting.ExecKnown(w, e);
    if s.Claim? { assert e !in NewExecs(w, s.ids, s.worker, s.now, s.lease); }
  }

  /** The worker refines the protocol: however the steps of an execution are interleaved with those of everyone else,
      its next step is possible, and after the last its task has ended. */
  lemma {:induction false} ExecutionFitsProtocol(w: World, run: seq<Step>, e: ExecId, steps: seq<Step>)
    requires Accounting.Balanced(w) && LegalRun(w, run) && e in w.execs && Accepts(w.execs[e].phase, e, steps)
    requires |OwnSteps(run, e)| <= |steps| && OwnSteps(run, e) == steps[..|OwnSteps(run, e)|]
    ensures e in After(w, run).execs
    ensures var k := |OwnSteps(run, e)|;
            if k < |steps| then Legal(After(w, run), steps[k]) else After(w, run).execs[e].phase.Ended?
    decreases |run|
  {
    if run != [] {
      var s, v := run[0], Apply(w, run[0]);
      Accounting.StepKeepsBalance(w, s);
      if OwnStep(s, e) {
        OwnStepMoves(w, s, e);
        var own := OwnSteps(run[1..], e);
        assert OwnSteps(run, e) == [s] + own && steps[0] == s;
        assert own == steps[1..][..|own|] by { assert ([s] + own)[1..] == own; }
        ExecutionFitsProtocol(v, run[1..], e, steps[1..]);
      } else {
        OthersKeepTask(w, s, e);
        assert [] + OwnSteps(run[1..], e) == OwnSteps(run[1..], e);
        ExecutionFitsProtocol(v, run[1..], e, steps);
      }
    }
  }

  predicate NoTransaction(steps: seq<Step>) { forall i | 0 <= i < |steps| :: !IsRecord(steps[i]) && !steps[i].Return? }

  lemma OwnStepsCons(run: seq<Step>, e: ExecId)
    requires run != []
    ensures OwnSteps(run, e) == if OwnStep(run[0], e) then [run[0]] + OwnSteps(run[1..], e) else OwnSteps(run[1..], e)
    ensures NoTransaction(OwnSteps(run, e)) ==> NoTransaction(OwnSteps(run[1..], e))
    ensures NoTransaction(OwnSteps(run, e)) && OwnStep(run[0], e) ==> !IsRecord(run[0]) && !run[0].Return?
  {
    var own := OwnSteps(run[1..], e);
    if OwnStep(run[0], e) {
      assert OwnSteps(run, e)[0] == run[0];
      assert forall i | 0 <= i < |own| :: own[i] == OwnSteps(run, e)[i + 1];
    } else {
      assert [] + own == own;
    }
  }

  /** An execution that neither records nor gives back has no effect on its row: it is left for recovery. */
  lemma {:induction false} NoEffectWithoutRecord(w: World, run: seq<Step>, e: ExecId)
    requires Accounting.Balanced(w) && LegalRun(w, run) && e in w.execs && NoTransaction(OwnSteps(run, e))
    ensures e in After(w, run).execs && After(w, run).execs[e].effects == w.execs[e].effects
    decreases |run|
  {
    if run != [] {
      OwnStepsCons(run, e);
      Accounting.StepKeepsBalance(w, run[0]);
      if OwnStep(run[0], e) { OwnStepMoves(w, run[0], e); } else { OthersKeepTask(w, run[0], e); }
      NoEffectWithoutRecord(Apply(w, run[0]), run[1..], e);
    }
  }

  /** The heartbeat's extension of e's lease matches no row: it has been lost. */
  predicate BeatLost(w: World, s: Step, e: ExecId)
    requires e in w.execs
  {
    s.Extend? && s.job == e.job && s.worker == w.execs[e].worker && !FenceOpen(w, e)
  }

  /** In the run an extension is found lost before any record or return of e takes effect. */
  ghost predicate LosesLease(w: World, run: seq<Step>, e: ExecId)
    requires LegalRun(w, run)
    decreases |run|
  {
    && run != [] && e in w.execs
    && (BeatLost(w, run[0], e) ||
        (!Fence.TakesEffect(w, run[0], e) && LosesLease(Apply(w, run[0]), run[1..], e)))
  }

  lemma NoEffectNoCount(w: World, s: Step, e: ExecId)
    requires Accounting.Balanced(w) && Legal(w, s) && e in w.execs && !Fence.TakesEffect(w, s, e)
    ensures e in Apply(w, s).execs && Apply(w, s).execs[e].effects == w.execs[e].effects
  {
    if !OwnStep(s, e) { OthersKeepTask(w, s, e); }
  }

  lemma {:induction false} CountStays(w: World, run: seq<Step>, e: ExecId)
    requires Accounting.Balanced(w) && LegalRun(w, run) && e in w.execs && Fence.NoEffect(w, run, e)
    ensures e in After(w, run).execs && After(w, run).execs[e].effects == w.execs[e].effects
    decreases |run|
  {
    if run != [] {
      Accounting.StepKeepsBalance(w, run[0]);
      NoEffectNoCount(w, run[0], e);
      CountStays(Apply(w, run[0]), run[1..], e);
    }
  }

  /** After a lost heartbeat nothing of the execution takes effect, the return of its cancellation included (H1 for the
      job): it is left for recovery. */
  lemma {:induction false} LostHeartbeatHasNoEffect(w: World, run: seq<Step>, e: ExecId)
    requires Accounting.Balanced(w) && LegalRun(w, run) && NoOverlapRunOn(w, run, e.job)
    requires e in w.execs && LosesLease(w, run, e)
    ensures e in After(w, run).execs && After(w, run).execs[e].effects == w.execs[e].effects
    decreases |run|
  {
    if BeatLost(w, run[0], e) {
      Fence.LostLeaseHasNoEffect(w, run, e);
      CountStays(w, run, e);
    } else {
      Accounting.StepKeepsBalance(w, run[0]);
      NoEffectNoCount(w, run[0], e);
      LostHeartbeatHasNoEffect(Apply(w, run[0]), run[1..], e);
    }
  }

  /** One execution, one effect (assumption H1 for the job): over every outcome of every await and every interleaving,
      at most one of the transactions of a claim takes effect; none does once its heartbeat has found the lease lost,
      though the execution is then cancelled and gives the job back, nor when it neither records nor unwinds. */
  lemma ExecutionHasOneEffect(w: World, run: seq<Step>, e: ExecId, script: Script, steps: seq<Step>)
    requires Accounting.Balanced(w) && Fidelity.SharpAt(w, e.job)
    requires LegalRun(w, run) && NoOverlapRunOn(w, run, e.job)
    requires e in w.execs && w.execs[e].effects == 0
    requires (exists i | 0 <= i < |steps| :: IsRecord(steps[i])) <==> Records(script) && script.record.Lands()
    requires (exists i | 0 <= i < |steps| :: steps[i].Return?) <==> Unwinds(script) && script.giveBack.Lands()
    requires |OwnSteps(run, e)| <= |steps| && OwnSteps(run, e) == steps[..|OwnSteps(run, e)|]
    ensures var v := After(w, run);
            && e in v.execs && v.execs[e].effects <= 1
            && (LosesLease(w, run, e) || (!Records(script) && !Unwinds(script)) ==> v.execs[e].effects == 0)
  {
    TasksStay(w, run, e);
    Fidelity.RunKeepsSharpAt(w, run, e.job);
    assert Fidelity.ExecSharp(After(w, run), e);
    if LosesLease(w, run, e) { LostHeartbeatHasNoEffect(w, run, e); }
    if !Records(script) && !Unwinds(script) {
      assert forall i | 0 <= i < |OwnSteps(run, e)| :: OwnSteps(run, e)[i] == steps[i];
      NoEffectWithoutRecord(w, run, e);
    }
  }

  lemma {:induction false} TasksStay(w: World, run: seq<Step>, e: ExecId)
    requires Accounting.Balanced(w) && LegalRun(w, run) && e in w.execs
    ensures e in After(w, run).execs
    decreases |run|
  {
    if run != [] {
      Accounting.StepKeepsBalance(w, run[0]);
      if OwnStep(run[0], e) { OwnStepMoves(w, run[0], e); } else { OthersKeepTask(w, run[0], e); }
      TasksStay(Apply(w, run[0]), run[1..], e);
    }
  }
}

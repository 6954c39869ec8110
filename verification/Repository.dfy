// The repositories (src/pgrelay/repositories/job_state.py, jobs.py and queues.py) over tables updated in place. Each
// method runs its statements one by one and is proved to take one atomic step; a statement rejected by a constraint
// rolls the transaction back.
module Repository {
  import opened Rows
  import opened Statements
  import opened Protocol
  import opened Names
  import opened ClaimTx
  import opened Idempotency
  import opened Schema
  import opened Earliest
  import ClaimSerial
  import Selection

  /** The deleted rows of a purge batch, by their status (src/pgrelay/repositories/job_rows.py). */
  datatype PurgeResult = PurgeResult(succeeded: nat, deadLetter: nat, cancelled: nat)
  {
    function Total(): nat { succeeded + deadLetter + cancelled }
  }

  function Tally(jobs: map<JobId, Job>, ids: set<JobId>): PurgeResult {
    PurgeResult(|WithStatus(jobs, ids, Succeeded)|, |WithStatus(jobs, ids, DeadLetter)|,
                |WithStatus(jobs, ids, Cancelled)|)
  }

  /** completed_at of the rows that the purge may delete. */
  function PurgeTimes(jobs: map<JobId, Job>, now: Time, succeededDays: int, deadLetterDays: int): map<JobId, Time> {
    map j | j in jobs && Purgeable(jobs[j], now, succeededDays, deadLetterDays) :: jobs[j].completedAt.value
  }

  /** locked_until of the expired rows that no other transaction has locked. */
  function ExpiryTimes(jobs: map<JobId, Job>, skipped: set<JobId>, now: Time): map<JobId, Time> {
    map j | j in jobs && j !in skipped && Expired(jobs[j], now) :: jobs[j].lockedUntil.value
  }

  /** Past its retention: completed more than succeededDays days ago if it succeeded, more than deadLetterDays days ago
      if it was dead-lettered or cancelled. */
  predicate PastRetention(r: Job, now: Time, succeededDays: int, deadLetterDays: int) {
    && r.completedAt.Some?
    && ((r.status == Succeeded && now - r.completedAt.value > 86_400_000_000 * succeededDays)
        || ((r.status == DeadLetter || r.status == Cancelled)
            && now - r.completedAt.value > 86_400_000_000 * deadLetterDays))
  }

  /** A purge batch takes rows past their retention, as many as there are up to the batch, the earliest completed. */
  predicate PurgesOldest(jobs: map<JobId, Job>, now: Time, succeededDays: int, deadLetterDays: int, batch: nat,
                         picked: set<JobId>)
  {
    && |picked| <= batch
    && (forall j | j in picked :: j in jobs && PastRetention(jobs[j], now, succeededDays, deadLetterDays))
    && (forall j | j in jobs && j !in picked && PastRetention(jobs[j], now, succeededDays, deadLetterDays) ::
          |picked| == batch
          && forall p | p in picked && p in jobs :: jobs[p].completedAt.Some?
                                                    && jobs[p].completedAt.value <= jobs[j].completedAt.value)
  }

  lemma PickedIsOldest(jobs: map<JobId, Job>, now: Time, succeededDays: int, deadLetterDays: int, batch: nat,
                       picked: set<JobId>)
    requires IsEarliest(PurgeTimes(jobs, now, succeededDays, deadLetterDays), batch, picked)
    ensures PurgesOldest(jobs, now, succeededDays, deadLetterDays, batch, picked)
  {
    var times := PurgeTimes(jobs, now, succeededDays, deadLetterDays);
    assert forall j :: j in times <==> j in jobs && PastRetention(jobs[j], now, succeededDays, deadLetterDays);
    if |picked| < batch { AllPicked(times, batch, picked); }
  }

  /** A recovery takes leases that are past their time and not locked by others, as many as there are up to the batch,
      those that ended earliest. */
  predicate RecoversEarliest(jobs: map<JobId, Job>, skipped: set<JobId>, now: Time, batch: nat, picked: set<JobId>) {
    && |picked| <= batch
    && (forall j | j in picked :: j in jobs && j !in skipped && Overdue(jobs[j], now))
    && (forall j | j in jobs && j !in skipped && j !in picked && Overdue(jobs[j], now) ::
          |picked| == batch
          && forall p | p in picked && p in jobs :: jobs[p].lockedUntil.Some?
                                                    && jobs[p].lockedUntil.value <= jobs[j].lockedUntil.value)
  }

  predicate Overdue(r: Job, now: Time) { r.status == Leased && r.lockedUntil.Some? && now > r.lockedUntil.value }

  lemma PickedIsEarliest(jobs: map<JobId, Job>, skipped: set<JobId>, now: Time, batch: nat, picked: set<JobId>)
    requires IsEarliest(ExpiryTimes(jobs, skipped, now), batch, picked)
    ensures RecoversEarliest(jobs, skipped, now, batch, picked)
  {
    var times := ExpiryTimes(jobs, skipped, now);
    assert forall j :: j in times <==> j in jobs && j !in skipped && Overdue(jobs[j], now);
    if |picked| < batch { AllPicked(times, batch, picked); }
  }

  /** A row that a claim of these queues may take: in an unpaused queue asked for, pending, due, with attempts left, and
      not locked by others. */
  predicate Claimable(db: Db, names: set<Name>, skipped: set<JobId>, now: Time, j: JobId) {
    && j in db.jobs && j !in skipped
    && db.jobs[j].queue in names && db.jobs[j].queue in db.queues && !db.queues[db.jobs[j].queue].paused
    && db.jobs[j].status == Pending && db.jobs[j].availableAt <= now && db.jobs[j].attemptCount < db.jobs[j].maxAttempts
  }

  /** Not one more row of q would fit beside its leases and its claimed rows. */
  ghost predicate SlotsUsedUp(db: Db, q: Name, claimed: set<JobId>)
    requires q in db.queues
  {
    |LeasedIn(db, q)| + |InQueue(db.jobs, claimed, q)| >= db.queues[q].limit
  }

  /** A claim takes claimable rows within the batch and the limits, and leaves one only if the batch is full or the
      slots of its queue are used up. */
  ghost predicate TakesWhatFits(db: Db, names: set<Name>, batch: nat, skipped: set<JobId>, now: Time,
                                claimed: set<JobId>)
  {
    && |claimed| <= batch && (forall j | j in claimed :: Claimable(db, names, skipped, now, j))
    && (forall q | q in db.queues && InQueue(db.jobs, claimed, q) != {} ::
          |LeasedIn(db, q)| + |InQueue(db.jobs, claimed, q)| <= db.queues[q].limit)
    && (forall c | Claimable(db, names, skipped, now, c) && c !in claimed ::
          |claimed| == batch || SlotsUsedUp(db, db.jobs[c].queue, claimed))
  }

  /** A row left behind has no higher priority than a claimed row of its queue, is not available earlier at the same
      priority, and not created earlier at the same priority and time; nor than any claimed row, if the slots of its
      queue are not used up. */
  ghost predicate LeavesNoneAhead(db: Db, names: set<Name>, skipped: set<JobId>, now: Time, claimed: set<JobId>) {
    forall c, p | Claimable(db, names, skipped, now, c) && c !in claimed && p in claimed && p in db.jobs
      && (db.jobs[c].queue == db.jobs[p].queue || !SlotsUsedUp(db, db.jobs[c].queue, claimed)) ::
      && db.jobs[c].priority <= db.jobs[p].priority
      && (db.jobs[c].priority == db.jobs[p].priority ==> db.jobs[c].availableAt >= db.jobs[p].availableAt)
      && (db.jobs[c].priority == db.jobs[p].priority && db.jobs[c].availableAt == db.jobs[p].availableAt ==>
            db.jobs[c].createdAt >= db.jobs[p].createdAt)
  }

  class Store {
    var queues: map<Name, Queue>
    var jobs: map<JobId, Job>
    var log: seq<Attempt>

    ghost function Contents(): Db
      reads this
    {
      Db(queues, jobs, log)
    }

    ghost predicate Valid()
      reads this
    {
      Constraints(Contents())
    }

    constructor ()
      ensures Valid() && Contents() == EMPTY.db
    {
      queues, jobs, log := map[], map[], [];
    }

    // ---- job_state.py ----

    method ExtendLease(job: JobId, worker: WorkerId, now: Time, leaseSeconds: int) returns (extended: bool)
      requires Valid()
      modifies this`jobs
      ensures Valid() && extended == Owns(old(Contents()), job, worker)
      ensures Contents() == Statements.ExtendLease(old(Contents()), job, worker, now, leaseSeconds)
    {
      ghost var before := Contents();
      extended := job in jobs && jobs[job].lockedBy == Some(worker) && jobs[job].status == Leased;
      if extended {
        jobs := jobs[job := jobs[job].(lockedUntil := Some(now + Seconds(leaseSeconds)), updatedAt := now)];
        UpdateKeepsConstraints(before, Contents(), []);
      }
    }

    method ReturnLeasedJobToPending(job: JobId, worker: WorkerId, now: Time) returns (returned: bool)
      requires Valid()
      modifies this`jobs
      ensures Valid() && returned == Owns(old(Contents()), job, worker)
      ensures Contents() == ReturnToPending(old(Contents()), job, worker, now)
    {
      ghost var before := Contents();
      returned := job in jobs && jobs[job].lockedBy == Some(worker) && jobs[job].status == Leased;
      if returned {
        var row := jobs[job];
        var count := if row.attemptCount - 1 > 0 then row.attemptCount - 1 else 0;
        jobs := jobs[job := row.(status := Pending, attemptCount := count, lockedBy := None, lockedUntil := None,
                                 updatedAt := now)];
        UpdateKeepsConstraints(before, Contents(), []);
      }
    }

    /** INSERT_ATTEMPT: false when the check constraint rejects the number. */
    method InsertAttempt(job: JobId, number: int, worker: WorkerId, status: AttemptStatus, now: Time, report: Report)
      returns (accepted: bool)
      requires job in jobs
      modifies this`log
      ensures accepted == (number > 0)
      ensures log == old(log) + if accepted then [AttemptRow(job, number, worker, status, now, report)] else []
    {
      accepted := number > 0;
      if accepted {
        var started := now - Milliseconds(report.durationMs);
        log := log + [Attempt(job, number, worker, status, started, now, report.durationMs, report.last,
                              report.bodyPreview)];
      } else {
        assert log == log + [];
      }
    }

    /** The row changes first, then the attempt is written; if that is rejected both are rolled back. */
    method CompleteJob(job: JobId, snapshot: Job, worker: WorkerId, now: Time, report: Report)
      returns (updated: Result<bool>)
      requires Valid()
      modifies this`jobs, this`log
      ensures Valid()
      ensures Contents() == Statements.Complete(old(Contents()), job, snapshot, worker, now, report)
      ensures updated == if !Owns(old(Contents()), job, worker) then Ok(false)
                         else if Loggable(snapshot) then Ok(true) else Err(RepositoryError)
    {
      var saved := jobs;
      CompleteKeepsConstraints(Contents(), job, snapshot, worker, now, report);
      if !(job in jobs && jobs[job].lockedBy == Some(worker) && jobs[job].status == Leased) {
        return Ok(false);
      }
      var row := jobs[job];
      jobs := jobs[job := row.(status := Succeeded, lockedBy := None, lockedUntil := None,
                               last := row.last.(responseStatus := report.last.responseStatus),
                               completedAt := Some(now), updatedAt := now)];
      var success := report.(last := Diagnosis(None, None, report.last.responseStatus));
      var accepted := InsertAttempt(job, snapshot.attemptCount, worker, AttemptSucceeded, now, success);
      if !accepted {
        jobs := saved;
        assert Contents() == old(Contents());
        return Err(RepositoryError);
      }
      updated := Ok(true);
    }

    method FailJob(job: JobId, snapshot: Job, worker: WorkerId, now: Time, retryable: bool, timedOut: bool,
                   delaySeconds: int, report: Report)
      returns (updated: Result<bool>)
      requires Valid()
      modifies this`jobs, this`log
      ensures Valid()
      ensures Contents()
           == Statements.Fail(old(Contents()), job, snapshot, worker, now, retryable, timedOut, delaySeconds, report)
      ensures updated == Ok(true) ==>
                && job in old(jobs) && job in jobs
                && var r, r' := old(jobs)[job], jobs[job];
                   if retryable && snapshot.attemptCount < snapshot.maxAttempts then
                     r'.status == Pending && r'.availableAt == now + 1_000_000 * delaySeconds
                     && r'.completedAt == r.completedAt
                   else
                     r'.status == DeadLetter && r'.availableAt == r.availableAt && r'.completedAt == Some(now)
      ensures updated == if !Owns(old(Contents()), job, worker) then Ok(false)
                         else if Loggable(snapshot) then Ok(true) else Err(RepositoryError)
    {
      var saved := jobs;
      FailKeepsConstraints(Contents(), job, snapshot, worker, now, retryable, timedOut, delaySeconds, report);
      var shouldRetry := retryable && snapshot.attemptCount < snapshot.maxAttempts;
      if !(job in jobs && jobs[job].lockedBy == Some(worker) && jobs[job].status == Leased) {
        return Ok(false);
      }
      var row := jobs[job];
      jobs := jobs[job := row.(status := if shouldRetry then Pending else DeadLetter,
                               availableAt := if shouldRetry then now + Seconds(delaySeconds) else row.availableAt,
                               lockedBy := None, lockedUntil := None, last := report.last,
                               completedAt := if shouldRetry then row.completedAt else Some(now), updatedAt := now)];
      var status := if timedOut then AttemptTimeout else AttemptFailed;
      var accepted := InsertAttempt(job, snapshot.attemptCount, worker, status, now, report);
      if !accepted {
        jobs := saved;
        assert Contents() == old(Contents());
        return Err(RepositoryError);
      }
      updated := Ok(true);
    }

    /** The picked rows of the recovery: at most batch expired leases, the earliest first, past the rows that others
        have locked; in the order in which their attempts are inserted. */
    method PickExpired(batch: nat, skipped: set<JobId>, now: Time) returns (ids: seq<JobId>)
      ensures Distinct(ids) && forall i | 0 <= i < |ids| :: ids[i] in jobs && Expired(jobs[ids[i]], now)
      ensures IsEarliest(ExpiryTimes(jobs, skipped, now), batch, Elements(ids))
      ensures RecoversEarliest(jobs, skipped, now, batch, Elements(ids))
    {
      var times := ExpiryTimes(jobs, skipped, now);
      EarliestExists(times, batch);
      var picked :| IsEarliest(times, batch, picked);
      EnumerationExists(picked);
      ids :| Enumerates(ids, picked);
      assert Elements(ids) == picked;
      assert forall i | 0 <= i < |ids| :: ids[i] in times;
      PickedIsEarliest(jobs, skipped, now, batch, picked);
    }

    /** An attempt number that is not positive is rejected and rolls the whole statement back. */
    method RecoverExpiredLeases(batch: nat, skipped: set<JobId>, now: Time)
      returns (recovered: Result<nat>, ghost ids: seq<JobId>)
      requires Valid()
      modifies this`jobs, this`log
      ensures Valid() && Distinct(ids) && IsEarliest(ExpiryTimes(old(jobs), skipped, now), batch, Elements(ids))
      ensures RecoversEarliest(old(jobs), skipped, now, batch, Elements(ids))
      ensures forall i | 0 <= i < |ids| :: ids[i] in old(jobs)
      ensures if forall i | 0 <= i < |ids| :: old(jobs)[ids[i]].attemptCount > 0
              then recovered == Ok(|ids|) && Contents() == RecoverRows(old(Contents()), ids, now)
              else recovered == Err(RepositoryError) && Contents() == old(Contents())
    {
      ghost var before := Contents();
      var order := PickExpired(batch, skipped, now);
      ids := order;
      var attempts := ExpiredAttempts(jobs, order, now);
      if !(forall i | 0 <= i < |order| :: jobs[order[i]].attemptCount > 0) {
        return Err(RepositoryError), ids;
      }
      RecoverKeepsConstraints(before, order, now);
      jobs := map j | j in jobs :: if j in order then RecoveredRow(jobs[j], now) else jobs[j];
      log := log + attempts;
      assert Contents() == RecoverRows(before, order, now);
      recovered := Ok(|order|);
    }

    method CancelPendingJob(job: JobId, now: Time) returns (row: Option<Job>)
      requires Valid()
      modifies this`jobs
      ensures Valid() && Contents() == CancelPending(old(Contents()), job, now)
      ensures row == if job in old(jobs)
                && old(jobs)[job].status == Pending then Some(CancelledRow(old(jobs)[job], now))
                     else None
    {
      ghost var before := Contents();
      if job in jobs && jobs[job].status == Pending {
        row := Some(jobs[job].(status := Cancelled, completedAt := Some(now), updatedAt := now));
        jobs := jobs[job := row.value];
        UpdateKeepsConstraints(before, Contents(), []);
      } else {
        row := None;
      }
    }

    /** The picked rows of a purge batch, at most batch rows past their retention, the earliest completed first; and
        what RETURNING counts. */
    method PickPurgeable(succeededDays: int, deadLetterDays: int, batch: nat, now: Time)
      returns (picked: set<JobId>, result: PurgeResult)
      ensures IsEarliest(PurgeTimes(jobs, now, succeededDays, deadLetterDays), batch, picked)
      ensures PurgesOldest(jobs, now, succeededDays, deadLetterDays, batch, picked)
      ensures result == Tally(jobs, picked) && result.Total() == |picked|
    {
      var times := PurgeTimes(jobs, now, succeededDays, deadLetterDays);
      EarliestExists(times, batch);
      picked :| IsEarliest(times, batch, picked);
      assert forall j | j in picked :: j in times;
      PickedIsOldest(jobs, now, succeededDays, deadLetterDays, batch, picked);
      result := Tally(jobs, picked);
      TallyIsTotal(jobs, picked);
    }

    /** DELETE with its cascades. */
    method DeleteRows(ids: set<JobId>)
      requires Valid()
      modifies this`jobs, this`log
      ensures Valid() && Contents() == DeleteJobs(old(Contents()), ids)
    {
      DeleteKeepsConstraints(Contents(), ids);
      jobs, log := KeptRows(jobs, ids), WithoutJobs(log, ids);
    }

    method PurgeJobs(succeededDays: int, deadLetterDays: int, batch: nat, now: Time)
      returns (result: PurgeResult, ghost picked: set<JobId>)
      requires Valid()
      modifies this`jobs, this`log
      ensures Valid() && IsEarliest(PurgeTimes(old(jobs), now, succeededDays, deadLetterDays), batch, picked)
      ensures PurgesOldest(old(jobs), now, succeededDays, deadLetterDays, batch, picked)
      ensures Contents() == DeleteJobs(old(Contents()), picked)
      ensures result == Tally(old(jobs), picked) && result.Total() == |picked|
    {
      var ids;
      ids, result := PickPurgeable(succeededDays, deadLetterDays, batch, now);
      picked := ids;
      DeleteRows(ids);
    }

    // ---- queues.py ----

    method UpsertQueue(queue: Name, now: Time)
      requires Valid()
      modifies this`queues
      ensures Valid() && Contents() == Statements.UpsertQueue(old(Contents()), queue, now)
    {
      UpsertKeepsConstraints(Contents(), queue, now);
      if queue !in queues {
        queues := queues[queue := Queue(false, DEFAULT_CONCURRENCY_LIMIT, now, now)];
      }
    }

    /** The update lists only the settings given, and updated_at only if there is one; a limit that is not positive is
        rejected and rolls back the upsert too. */
    method UpdateQueue(queue: Name, paused: Option<bool>, limit: Option<int>, now: Time) returns (row: Result<Queue>)
      requires Valid()
      modifies this`queues
      ensures Valid()
      ensures if limit.Some? && limit.value <= 0 then row == Err(RepositoryError) && Contents() == old(Contents())
              else Contents() == Statements.UpdateQueue(old(Contents()), queue, paused, limit, now)
                   && queue in queues && row == Ok(queues[queue])
    {
      var saved := queues;
      UpsertQueue(queue, now);
      var updated, changed := queues[queue], false;
      if paused.Some? {
        updated, changed := updated.(paused := paused.value), true;
      }
      if limit.Some? {
        updated, changed := updated.(limit := limit.value), true;
      }
      if changed {
        updated := updated.(updatedAt := now);
      }
      if limit.Some? && limit.value <= 0 {
        queues := saved;
        return Err(RepositoryError);
      }
      SettingsKeepConstraints(Contents(), queue, updated);
      queues := queues[queue := updated];
      row := Ok(updated);
    }

    // ---- jobs.py ----

    /** Upsert the queue, insert unless the key is taken, otherwise look the existing row up. purged are terminal rows
        that another transaction deletes between the insert and the lookup. */
    method InsertJob(id: JobId, ask: Ask, now: Time, purged: set<JobId>) returns (answer: Result<(JobId, bool)>)
      requires Valid() && id !in jobs
      requires forall j | j in purged :: j in jobs && jobs[j].status.Terminal()
      modifies this`queues, this`jobs, this`log
      ensures Valid()
      ensures answer.Ok? && answer.value.1 ==>
                && answer.value.0 == id && id in jobs
                && var r := jobs[id];
                   && r.queue == ask.queue && r.work == ask.work && r.priority == ask.priority && r.key == ask.key
                   && r.maxAttempts == ask.maxAttempts && r.attemptCount == 0 && r.status == Pending
                   && r.availableAt == (if ask.availableAt.Some? then ask.availableAt.value else now)
      ensures answer.Ok? ==> (ask.work.kind == "http" || ask.work.kind == "handler") && ask.maxAttempts > 0
      ensures var before := old(Contents());
              if !PassesChecks(ask) || !(Conflicts(before, ask) || Insertable(before, ask)) then
                answer == Err(RepositoryError) && Contents() == before
              else if Conflicts(before, ask) && !Conflicts(DeleteJobs(before, purged), ask) then
                answer == Err(RepositoryError) && Contents() == DeleteJobs(before, purged)
              else
                && answer == Ok(InsertAnswer(before, id, ask))
                && Contents() == if Conflicts(before, ask) then DeleteJobs(before, purged)
                                 else Statements.InsertJob(before, id, ask, now)
    {
      var saved := queues;
      ghost var before := Contents();
      UpsertQueue(ask.queue, now);
      if !PassesChecks(ask) {
        queues := saved;
        return Err(RepositoryError);
      }
      if ask.key.Some? && exists j | j in jobs :: Holds(jobs[j], ask.queue, ask.key.value) {
        ConflictKeepsQueues(before, ask, now);
        DeleteRows(purged);
        answer := FindByKey(ask);
        if answer.Ok? { SurvivorAnswers(before, purged, id, ask, answer.value.0); }
        return;
      }
      if ask.replayedFrom.Some? && ask.replayedFrom.value !in jobs {
        queues := saved;
        return Err(RepositoryError);
      }
      InsertKeepsConstraints(before, id, ask, now);
      jobs := jobs[id := NewRow(ask, now)];
      answer := Ok((id, true));
    }

    /** _get_by_idempotency_key, and the error when the conflicting row has gone. */
    method FindByKey(ask: Ask) returns (answer: Result<(JobId, bool)>)
      requires ask.key.Some?
      ensures answer.Ok? <==> Conflicts(Contents(), ask)
      ensures answer.Ok? ==> var (j, created) := answer.value;
                             !created && j in jobs && Holds(jobs[j], ask.queue, ask.key.value)
      ensures answer.Err? ==> answer.error == RepositoryError
    {
      if exists j | j in jobs :: Holds(jobs[j], ask.queue, ask.key.value) {
        var j :| j in jobs && Holds(jobs[j], ask.queue, ask.key.value);
        answer := Ok((j, false));
      } else {
        answer := Err(RepositoryError);
      }
    }

    /** lock_claim_queues_statement. */
    method LockClaimQueues(names: set<Name>) returns (active: seq<Name>)
      ensures Ascending(active) && Elements(active) == Unpaused(Contents(), names)
    {
      var unpaused := Unpaused(Db(queues, jobs, log), names);
      SortExists(unpaused);
      active :| Sorts(active, unpaused);
      assert Elements(active) == unpaused;
    }

    /** The picked rows of claim_jobs_statement: the top slots of each queue, then the top batch of those. */
    method PickClaims(active: seq<Name>, batch: nat, skipped: set<JobId>, now: Time)
      returns (picked: set<JobId>, tops: map<Name, set<JobId>>)
      requires Ascending(active)
      ensures var db := Contents();
              Selection.IsClaim(jobs, active, SlotMap(db, db, active), ClaimSerial.ReadyIn(db, active, now) - skipped,
                                batch, tops, picked)
    {
      var db := Db(queues, jobs, log);
      var slots, ready := SlotMap(db, db, active), ClaimSerial.ReadyIn(db, active, now) - skipped;
      AscendingIsDistinct(active);
      Selection.TopsExist(jobs, active, slots, ready);
      var tops' :| Selection.TopOfEach(jobs, active, slots, ready, tops');
      Selection.MergedMembers(jobs, active, slots, ready, tops');
      var merged := Selection.Merged(active, tops');
      var top := Selection.TopExists(jobs, merged, batch);
      picked :| Selection.IsTop(jobs, merged, batch, picked);
      tops := tops';
    }

    /** The two statements of a claim without concurrent transactions, past the job rows that others have locked. */
    method ClaimJobs(worker: WorkerId, names: set<Name>, batch: nat, leaseSeconds: int, skipped: set<JobId>, now: Time)
      returns (claimed: map<JobId, Job>, ghost active: seq<Name>, ghost tops: map<Name, set<JobId>>)
      requires Valid()
      modifies this`jobs
      ensures Valid() && Ascending(active) && Elements(active) == Unpaused(old(Contents()), names)
      ensures var db := old(Contents());
              && Selection.IsClaim(db.jobs, active, SlotMap(db, db, active),
                                   ClaimSerial.ReadyIn(db, active, now) - skipped, batch, tops, claimed.Keys)
              && Contents() == ClaimRows(db, claimed.Keys, worker, now, leaseSeconds)
      ensures claimed.Keys <= jobs.Keys && forall j | j in claimed :: claimed[j] == jobs[j]
      ensures TakesWhatFits(old(Contents()), names, batch, skipped, now, claimed.Keys)
      ensures LeavesNoneAhead(old(Contents()), names, skipped, now, claimed.Keys)
      ensures forall x: Txn | skipped == {} && x.names == names && x.batch == batch && x.now == now
                && x.active == active && x.picks == claimed.Keys :: ClaimSerial.AtomicClaim(old(Contents()), x)
    {
      ghost var before := Contents();
      var locked := LockClaimQueues(names);
      var picked;
      picked, tops := PickClaims(locked, batch, skipped, now);
      active := locked;
      var leased := ClaimRows(Db(queues, jobs, log), picked, worker, now, leaseSeconds);
      ClaimKeepsConstraints(before, picked, worker, now, leaseSeconds);
      assert picked <= jobs.Keys;
      jobs := leased.jobs;
      claimed := map j | j in picked :: jobs[j];
      assert claimed.Keys == picked;
      ClaimInColumns(before, names, active, batch, skipped, now, tops, picked);
      forall x: Txn | skipped == {} && x.names == names && x.batch == batch && x.now == now && x.active == active
                      && x.picks == picked
        ensures ClaimSerial.AtomicClaim(before, x)
      {
        WholeClaimIsAtomic(before, x, tops);
      }
    }

    method ReplayJob(source: JobId, row: Job, id: JobId, now: Time) returns (answer: Result<(JobId, bool)>)
      requires Valid() && id !in jobs
      modifies this`queues, this`jobs, this`log
      ensures Valid()
      ensures var before, ask := old(Contents()), ReplayAsk(source, row);
              if !PassesChecks(ask) || !(Conflicts(before, ask) || Insertable(before, ask)) then
                answer == Err(RepositoryError) && Contents() == before
              else
                answer == Ok(InsertAnswer(before, id, ask)) && Contents() == Statements.InsertJob(before, id, ask, now)
    {
      var ask := Ask(row.queue, row.work, row.priority, row.maxAttempts, None, Some("replay:" + source), Some(source));
      NothingDeleted(Contents());
      if Conflicts(Db(queues, jobs, log), ask) { ConflictKeepsQueues(Contents(), ask, now); }
      answer := InsertJob(id, ask, now, {});
    }
  }

  // ---- what the statements keep ----

  lemma NothingDeleted(db: Db)
    ensures DeleteJobs(db, {}) == db
  {
    assert KeptRows(db.jobs, {}) == db.jobs;
    NoneCascades(db.log);
  }

  lemma {:induction false} NoneCascades(log: seq<Attempt>)
    ensures WithoutJobs(log, {}) == log
  {
    if log != [] { NoneCascades(log[..|log| - 1]); }
  }

  lemma SettingsKeepConstraints(db: Db, queue: Name, settings: Queue)
    requires Constraints(db) && queue in db.queues && settings.limit > 0
    ensures Constraints(db.(queues := db.queues[queue := settings]))
  {
    var db' := db.(queues := db.queues[queue := settings]);
    forall j | j in db'.jobs ensures RowAllowed(db', db'.jobs[j]) { assert RowAllowed(db, db.jobs[j]); }
    forall i | 0 <= i < |db'.log| ensures AttemptAllowed(db', db'.log[i]) { assert AttemptAllowed(db, db.log[i]); }
  }

  lemma ClaimKeepsConstraints(db: Db, ids: set<JobId>, worker: WorkerId, now: Time, lease: int)
    requires Constraints(db)
    ensures Constraints(ClaimRows(db, ids, worker, now, lease))
  {
    UpdateKeepsConstraints(db, ClaimRows(db, ids, worker, now, lease), []);
  }

  /** A conflict means the queue exists already. */
  lemma ConflictKeepsQueues(db: Db, ask: Ask, now: Time)
    requires Constraints(db) && Conflicts(db, ask)
    ensures Statements.UpsertQueue(db, ask.queue, now) == db && InsertJob(db, "", ask, now) == db
  {
    var j :| j in db.jobs && Holds(db.jobs[j], ask.queue, ask.key.value);
    assert RowAllowed(db, db.jobs[j]);
  }

  /** The row found after the purge is the one that conflicted. */
  lemma SurvivorAnswers(db: Db, purged: set<JobId>, id: JobId, ask: Ask, j: JobId)
    requires Constraints(db) && Conflicts(db, ask) && ask.key.Some?
    requires j in DeleteJobs(db, purged).jobs && Holds(DeleteJobs(db, purged).jobs[j], ask.queue, ask.key.value)
    ensures InsertAnswer(db, id, ask) == (j, false)
  {
    var (k, created) := InsertAnswer(db, id, ask);
    assert KeyOf(db.jobs[k]) == AskKey(ask) == KeyOf(db.jobs[j]);
  }

  // ---- selections exist ----

  lemma WholeClaimIsAtomic(db: Db, x: Txn, tops: map<Name, set<JobId>>)
    requires Ascending(x.active) && Elements(x.active) == Unpaused(db, x.names)
    requires Selection.IsClaim(db.jobs, x.active, SlotMap(db, db, x.active),
                               ClaimSerial.ReadyIn(db, x.active, x.now) - {}, x.batch, tops, x.picks)
    ensures ClaimSerial.AtomicClaim(db, x)
  {
    assert ClaimSerial.ReadyIn(db, x.active, x.now) - {} == ClaimSerial.ReadyIn(db, x.active, x.now);
  }

  lemma ClaimableIsReady(db: Db, names: set<Name>, active: seq<Name>, skipped: set<JobId>, now: Time, j: JobId)
    requires Elements(active) == Unpaused(db, names)
    ensures Claimable(db, names, skipped, now, j) <==> j in ClaimSerial.ReadyIn(db, active, now) - skipped
  {
    if j in db.jobs { assert db.jobs[j].queue in active <==> db.jobs[j].queue in Elements(active); }
  }

  /** Which rows a claim takes, in the terms of the tables. */
  lemma ClaimTakes(db: Db, names: set<Name>, active: seq<Name>, batch: nat, skipped: set<JobId>, now: Time,
                   tops: map<Name, set<JobId>>, picked: set<JobId>)
    requires Elements(active) == Unpaused(db, names)
    requires Selection.IsClaim(db.jobs, active, SlotMap(db, db, active),
                               ClaimSerial.ReadyIn(db, active, now) - skipped, batch, tops, picked)
    ensures |picked| <= batch && forall j | j in picked :: Claimable(db, names, skipped, now, j)
    ensures forall q | q in db.queues && InQueue(db.jobs, picked, q) != {} ::
              |LeasedIn(db, q)| + |InQueue(db.jobs, picked, q)| <= db.queues[q].limit
  {
    var slots, ready := SlotMap(db, db, active), ClaimSerial.ReadyIn(db, active, now) - skipped;
    Selection.ClaimSize(db.jobs, active, slots, ready, batch, tops, picked);
    forall j | j in picked ensures Claimable(db, names, skipped, now, j) {
      ClaimableIsReady(db, names, active, skipped, now, j);
    }
    forall q | q in db.queues && InQueue(db.jobs, picked, q) != {}
      ensures |LeasedIn(db, q)| + |InQueue(db.jobs, picked, q)| <= db.queues[q].limit
    {
      var j :| j in InQueue(db.jobs, picked, q);
      var i :| 0 <= i < |active| && active[i] == q;
      assert |InQueue(db.jobs, picked, active[i])| <= slots[active[i]];
    }
  }

  /** And which it leaves. */
  lemma ClaimLeaves(db: Db, names: set<Name>, active: seq<Name>, batch: nat, skipped: set<JobId>, now: Time,
                    tops: map<Name, set<JobId>>, picked: set<JobId>, c: JobId)
    requires Elements(active) == Unpaused(db, names) && Claimable(db, names, skipped, now, c) && c !in picked
    requires Selection.IsClaim(db.jobs, active, SlotMap(db, db, active),
                               ClaimSerial.ReadyIn(db, active, now) - skipped, batch, tops, picked)
    ensures |picked| == batch || SlotsUsedUp(db, db.jobs[c].queue, picked)
    ensures forall p | p in picked && p in db.jobs
              && (db.jobs[c].queue == db.jobs[p].queue || !SlotsUsedUp(db, db.jobs[c].queue, picked)) ::
              && db.jobs[c].priority <= db.jobs[p].priority
              && (db.jobs[c].priority == db.jobs[p].priority ==> db.jobs[c].availableAt >= db.jobs[p].availableAt)
              && (db.jobs[c].priority == db.jobs[p].priority && db.jobs[c].availableAt == db.jobs[p].availableAt ==>
                    db.jobs[c].createdAt >= db.jobs[p].createdAt)
  {
    var slots, ready, q := SlotMap(db, db, active), ClaimSerial.ReadyIn(db, active, now) - skipped, db.jobs[c].queue;
    ClaimableIsReady(db, names, active, skipped, now, c);
    ClaimTakes(db, names, active, batch, skipped, now, tops, picked);
    if |picked| < batch { Selection.ClaimIsMaximal(db.jobs, active, slots, ready, batch, tops, picked, c); }
    forall p | p in picked && p in db.jobs && (q == db.jobs[p].queue || !SlotsUsedUp(db, q, picked))
      ensures && db.jobs[c].priority <= db.jobs[p].priority
              && (db.jobs[c].priority == db.jobs[p].priority ==> db.jobs[c].availableAt >= db.jobs[p].availableAt)
              && (db.jobs[c].priority == db.jobs[p].priority && db.jobs[c].availableAt == db.jobs[p].availableAt ==>
                    db.jobs[c].createdAt >= db.jobs[p].createdAt)
    {
      Selection.ClaimLeavesNoneAhead(db.jobs, active, slots, ready, batch, tops, picked, p, c);
    }
  }

  lemma ClaimInColumns(db: Db, names: set<Name>, active: seq<Name>, batch: nat, skipped: set<JobId>, now: Time,
                       tops: map<Name, set<JobId>>, picked: set<JobId>)
    requires Elements(active) == Unpaused(db, names)
    requires Selection.IsClaim(db.jobs, active, SlotMap(db, db, active),
                               ClaimSerial.ReadyIn(db, active, now) - skipped, batch, tops, picked)
    ensures TakesWhatFits(db, names, batch, skipped, now, picked) && LeavesNoneAhead(db, names, skipped, now, picked)
  {
    ClaimTakes(db, names, active, batch, skipped, now, tops, picked);
    forall c | Claimable(db, names, skipped, now, c) && c !in picked
      ensures |picked| == batch || SlotsUsedUp(db, db.jobs[c].queue, picked)
    {
      ClaimLeaves(db, names, active, batch, skipped, now, tops, picked, c);
    }
    forall c, p | Claimable(db, names, skipped, now, c) && c !in picked && p in picked && p in db.jobs
      && (db.jobs[c].queue == db.jobs[p].queue || !SlotsUsedUp(db, db.jobs[c].queue, picked))
      ensures && db.jobs[c].priority <= db.jobs[p].priority
              && (db.jobs[c].priority == db.jobs[p].priority ==> db.jobs[c].availableAt >= db.jobs[p].availableAt)
              && (db.jobs[c].priority == db.jobs[p].priority && db.jobs[c].availableAt == db.jobs[p].availableAt ==>
                    db.jobs[c].createdAt >= db.jobs[p].createdAt)
    {
      ClaimLeaves(db, names, active, batch, skipped, now, tops, picked, c);
    }
  }

  lemma AscendingIsDistinct(names: seq<Name>)
    requires Ascending(names)
    ensures Distinct(names)
  {
    forall i, k | 0 <= i < k < |names| ensures names[i] != names[k] { Irreflexive(names[i]); }
  }

  lemma {:induction false} AttemptsAllowed(db: Db, ids: seq<JobId>, now: Time)
    requires forall i | 0 <= i < |ids| :: ids[i] in db.jobs && db.jobs[ids[i]].attemptCount > 0
    ensures forall i | 0 <= i < |ExpiredAttempts(db.jobs, ids, now)| ::
              AttemptAllowed(db, ExpiredAttempts(db.jobs, ids, now)[i])
  {
    if ids != [] { AttemptsAllowed(db, ids[..|ids| - 1], now); }
  }

  lemma RecoverKeepsConstraints(db: Db, ids: seq<JobId>, now: Time)
    requires Constraints(db) && forall i | 0 <= i < |ids| :: ids[i] in db.jobs && db.jobs[ids[i]].attemptCount > 0
    ensures Constraints(RecoverRows(db, ids, now))
  {
    AttemptsAllowed(db, ids, now);
    assert forall j | j in db.jobs :: SameReferences(db.jobs[j], RecoveredRow(db.jobs[j], now));
    UpdateKeepsConstraints(db, RecoverRows(db, ids, now), ExpiredAttempts(db.jobs, ids, now));
  }

  lemma ThreeParts(all: set<JobId>, a: set<JobId>, b: set<JobId>, c: set<JobId>)
    requires a !! b && a !! c && b !! c && a <= all && b <= all && c <= all
    requires forall j | j in all :: j in a || j in b || j in c
    ensures |a| + |b| + |c| == |all|
  {
    assert all == (a + b) + c;
    assert |a + b| == |a| + |b| && |(a + b) + c| == |a + b| + |c|;
  }

  lemma CompleteKeepsConstraints(db: Db, j: JobId, snapshot: Job, worker: WorkerId, now: Time,
                                 report: Report)
    requires Constraints(db)
    ensures Constraints(Statements.Complete(db, j, snapshot, worker, now, report))
  {
    var db' := Statements.Complete(db, j, snapshot, worker, now, report);
    if Owns(db, j, worker) && Loggable(snapshot) { UpdateKeepsConstraints(db, db', [db'.log[|db.log|]]); }
  }

  lemma FailKeepsConstraints(db: Db, j: JobId, snapshot: Job, worker: WorkerId, now: Time,
                             retryable: bool, timedOut: bool, delaySeconds: int, report: Report)
    requires Constraints(db)
    ensures Constraints(Statements.Fail(db, j, snapshot, worker, now, retryable, timedOut, delaySeconds, report))
  {
    var db' := Statements.Fail(db, j, snapshot, worker, now, retryable, timedOut, delaySeconds, report);
    if Owns(db, j, worker) && Loggable(snapshot) { UpdateKeepsConstraints(db, db', [db'.log[|db.log|]]); }
  }

  /** Purged rows are terminal, so the three counts cover them. */
  lemma TallyIsTotal(jobs: map<JobId, Job>, ids: set<JobId>)
    requires forall j | j in ids :: j in jobs && jobs[j].status.Terminal()
    ensures Tally(jobs, ids).Total() == |ids|
  {
    var a, b := WithStatus(jobs, ids, Succeeded), WithStatus(jobs, ids, DeadLetter);
    var c := WithStatus(jobs, ids, Cancelled);
    forall j | j in ids ensures j in a || j in b || j in c { var status := jobs[j].status; }
    ThreeParts(ids, a, b, c);
  }
}

// The constraints of the tables (src/pgrelay/db/models.py) and which statements keep them by themselves.
module Schema {
  import opened Rows
  import opened Statements
  import opened Protocol
  import opened Accounting
  import opened Idempotency

  /** Check constraints and foreign keys of one job row. */
  predicate RowAllowed(db: Db, r: Job) {
    && ValidKind(r.work.kind) && r.maxAttempts > 0 && r.queue in db.queues
    && (r.replayedFrom.Some? ==> r.replayedFrom.value in db.jobs)
  }

  /** Check constraint and foreign key of one attempt row. */
  predicate AttemptAllowed(db: Db, a: Attempt) { a.number > 0 && a.job in db.jobs }

  ghost predicate Constraints(db: Db) {
    && (forall q | q in db.queues :: db.queues[q].limit > 0)
    && (forall j {:trigger RowAllowed(db, db.jobs[j])} | j in db.jobs :: RowAllowed(db, db.jobs[j]))
    && (forall i {:trigger AttemptAllowed(db, db.log[i])} | 0 <= i < |db.log| :: AttemptAllowed(db, db.log[i]))
    && UniqueKeys(db)
  }

  /** An update that touches none of the constrained columns. */
  predicate SameReferences(r: Job, r': Job) {
    r'.work == r.work && r'.maxAttempts == r.maxAttempts && r'.queue == r.queue && r'.key == r.key
    && (r'.replayedFrom == r.replayedFrom || r'.replayedFrom.None?)
  }

  lemma UpdateKeepsConstraints(db: Db, db': Db, extra: seq<Attempt>)
    requires Constraints(db) && db'.queues == db.queues && db'.jobs.Keys == db.jobs.Keys
    requires forall j | j in db.jobs :: SameReferences(db.jobs[j], db'.jobs[j])
    requires db'.log == db.log + extra && forall i | 0 <= i < |extra| :: AttemptAllowed(db, extra[i])
    ensures Constraints(db')
  {
    forall i | 0 <= i < |db'.log| ensures AttemptAllowed(db', db'.log[i]) {
      if i < |db.log| { assert AttemptAllowed(db, db.log[i]); } else { assert AttemptAllowed(db, extra[i - |db.log|]); }
    }
    forall j | j in db'.jobs ensures RowAllowed(db', db'.jobs[j]) { assert RowAllowed(db, db.jobs[j]); }
    assert forall j | j in db'.jobs :: KeyOf(db'.jobs[j]) == KeyOf(db.jobs[j]);
  }

  lemma CascadeKeepsAttempts(db: Db, ids: set<JobId>)
    requires forall i | 0 <= i < |db.log| :: AttemptAllowed(db, db.log[i])
    ensures forall i | 0 <= i < |WithoutJobs(db.log, ids)| ::
              AttemptAllowed(DeleteJobs(db, ids), WithoutJobs(db.log, ids)[i])
  {
    CascadeKeeps(db.log, ids);
    forall i | 0 <= i < |WithoutJobs(db.log, ids)|
      ensures AttemptAllowed(DeleteJobs(db, ids), WithoutJobs(db.log, ids)[i])
    {
      var k :| 0 <= k < |db.log| && db.log[k] == WithoutJobs(db.log, ids)[i];
      assert AttemptAllowed(db, db.log[k]);
    }
  }

  /** CASCADE and SET NULL: a delete leaves no attempt row and no replay reference dangling. */
  lemma DeleteKeepsConstraints(db: Db, ids: set<JobId>)
    requires Constraints(db)
    ensures Constraints(DeleteJobs(db, ids))
  {
    CascadeKeepsAttempts(db, ids);
    var db' := DeleteJobs(db, ids);
    forall j | j in db'.jobs ensures RowAllowed(db', db'.jobs[j]) { assert RowAllowed(db, db.jobs[j]); }
    assert forall j | j in db'.jobs :: KeyOf(db'.jobs[j]) == KeyOf(db.jobs[j]);
  }

  lemma UpsertKeepsConstraints(db: Db, queue: Name, now: Time)
    requires Constraints(db)
    ensures Constraints(UpsertQueue(db, queue, now))
  {
    var db' := UpsertQueue(db, queue, now);
    forall j | j in db'.jobs ensures RowAllowed(db', db'.jobs[j]) { assert RowAllowed(db, db.jobs[j]); }
    forall i | 0 <= i < |db'.log| ensures AttemptAllowed(db', db'.log[i]) { assert AttemptAllowed(db, db.log[i]); }
  }

  /** A job that passes its own checks and does not conflict can be added; a new row has no attempts yet. */
  lemma InsertKeepsConstraints(db: Db, id: JobId, ask: Ask, now: Time)
    requires Constraints(db) && id !in db.jobs && Insertable(db, ask)
    ensures Constraints(InsertJob(db, id, ask, now))
  {
    var up, db' := UpsertQueue(db, ask.queue, now), InsertJob(db, id, ask, now);
    UpsertKeepsConstraints(db, ask.queue, now);
    if !Conflicts(db, ask) {
      forall j | j in db'.jobs ensures RowAllowed(db', db'.jobs[j]) {
        if j in db.jobs { assert RowAllowed(up, up.jobs[j]); }
      }
      forall i | 0 <= i < |db'.log| ensures AttemptAllowed(db', db'.log[i]) { assert AttemptAllowed(up, up.log[i]); }
      if ask.key.Some? {
        forall k | k in db.jobs ensures KeyOf(db.jobs[k]) != AskKey(ask) {
          assert !Holds(db.jobs[k], ask.queue, ask.key.value);
        }
      }
    }
  }
}

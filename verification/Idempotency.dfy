// insert_job against a plain map from (queue, idempotency key) to the first row inserted with it.
module Idempotency {
  import opened Rows
  import opened Statements
  import opened Protocol

  type Key = (Name, string)

  function KeyOf(r: Job): Option<Key> { if r.key.Some? then Some((r.queue, r.key.value)) else None }

  function AskKey(ask: Ask): Option<Key> { if ask.key.Some? then Some((ask.queue, ask.key.value)) else None }

  /** The partial unique index on (queue_name, idempotency_key). */
  ghost predicate UniqueKeys(db: Db) {
    forall j, k {:trigger KeyOf(db.jobs[j]), KeyOf(db.jobs[k])} |
        j in db.jobs && k in db.jobs && KeyOf(db.jobs[j]).Some? && KeyOf(db.jobs[j]) == KeyOf(db.jobs[k]) ::
      j == k
  }

  /** The map m is the index of db. */
  ghost predicate Indexes(m: map<Key, JobId>, db: Db) {
    && (forall p | p in m :: m[p] in db.jobs && KeyOf(db.jobs[m[p]]) == Some(p))
    && (forall j | j in db.jobs && KeyOf(db.jobs[j]).Some? ::
          KeyOf(db.jobs[j]).value in m && m[KeyOf(db.jobs[j]).value] == j)
  }

  /** The specification: a map, and what a call answers. */
  function Put(m: map<Key, JobId>, id: JobId, ask: Ask): map<Key, JobId> {
    if AskKey(ask).Some? && AskKey(ask).value !in m then m[AskKey(ask).value := id] else m
  }

  function Answer(m: map<Key, JobId>, id: JobId, ask: Ask): (JobId, bool) {
    if AskKey(ask).Some? && AskKey(ask).value in m then (m[AskKey(ask).value], false) else (id, true)
  }

  function Drop(m: map<Key, JobId>, ids: set<JobId>): map<Key, JobId> { map p | p in m && m[p] !in ids :: m[p] }

  function SpecStep(m: map<Key, JobId>, s: Step): map<Key, JobId> {
    match s
    case Insert(id, ask, _) => Put(m, id, ask)
    case Purge(ids, _, _, _) => Drop(m, ids)
    case _ => m
  }

  /** What insert_job answers: the id of the row and whether it was created. */
  ghost function InsertAnswer(db: Db, id: JobId, ask: Ask): (JobId, bool) {
    if Conflicts(db, ask) then
      var j :| j in db.jobs && Holds(db.jobs[j], ask.queue, ask.key.value);
      (j, false)
    else
      (id, true)
  }

  lemma IndexGivesUnique(m: map<Key, JobId>, db: Db)
    requires Indexes(m, db)
    ensures UniqueKeys(db)
  {
  }

  lemma AnswerAgrees(m: map<Key, JobId>, db: Db, id: JobId, ask: Ask)
    requires Indexes(m, db)
    ensures InsertAnswer(db, id, ask) == Answer(m, id, ask)
    ensures Conflicts(db, ask) <==> AskKey(ask).Some? && AskKey(ask).value in m
  {
    if AskKey(ask).Some? && AskKey(ask).value in m {
      assert Holds(db.jobs[m[AskKey(ask).value]], ask.queue, ask.key.value);
    }
    if Conflicts(db, ask) {
      var j :| j in db.jobs && Holds(db.jobs[j], ask.queue, ask.key.value);
      assert KeyOf(db.jobs[j]) == AskKey(ask);
    }
  }

  lemma NoKeyChanges(w: World, s: Step)
    requires Legal(w, s) && !s.Insert? && !s.Purge?
    ensures var v := Apply(w, s);
            v.db.jobs.Keys == w.db.jobs.Keys && forall j | j in w.db.jobs :: KeyOf(v.db.jobs[j]) == KeyOf(w.db.jobs[j])
  {
    match s
    case Complete(_, _, _) =>
    case Fail(_, _, _, _, _, _) =>
    case _ =>
  }

  lemma InsertMovesIndex(m: map<Key, JobId>, db: Db, id: JobId, ask: Ask, now: Time)
    requires Indexes(m, db) && id !in db.jobs
    ensures Indexes(Put(m, id, ask), InsertJob(db, id, ask, now))
  {
    AnswerAgrees(m, db, id, ask);
  }

  lemma PurgeMovesIndex(m: map<Key, JobId>, db: Db, ids: set<JobId>)
    requires Indexes(m, db)
    ensures Indexes(Drop(m, ids), DeleteJobs(db, ids))
  {
  }

  lemma SameKeysSameIndex(m: map<Key, JobId>, db: Db, db': Db)
    requires Indexes(m, db) && db'.jobs.Keys == db.jobs.Keys
    requires forall j | j in db.jobs :: KeyOf(db'.jobs[j]) == KeyOf(db.jobs[j])
    ensures Indexes(m, db')
  {
  }

  /** Every step of the protocol moves the index as the specification says. */
  lemma StepRefinesMap(w: World, m: map<Key, JobId>, s: Step)
    requires Indexes(m, w.db) && Born(w) && Legal(w, s)
    ensures Indexes(SpecStep(m, s), Apply(w, s).db)
  {
    if s.Insert? {
      InsertMovesIndex(m, w.db, s.id, s.ask, s.now);
    } else if s.Purge? {
      PurgeMovesIndex(m, w.db, s.ids);
    } else {
      NoKeyChanges(w, s);
      SameKeysSameIndex(m, w.db, Apply(w, s).db);
    }
  }

  ghost predicate Born(w: World) { w.db.jobs.Keys <= w.hist.birth.Keys }

  lemma BornStays(w: World, s: Step)
    requires Born(w) && Legal(w, s)
    ensures Born(Apply(w, s)) && w.hist.birth.Keys <= Apply(w, s).hist.birth.Keys
  {
    if !s.Insert? && !s.Purge? { NoKeyChanges(w, s); }
  }

  function SpecRun(m: map<Key, JobId>, run: seq<Step>): map<Key, JobId>
    decreases |run|
  {
    if run == [] then m else SpecRun(SpecStep(m, run[0]), run[1..])
  }

  /** Over any run, the next call of insert_job answers as the map of the specification does. */
  lemma {:induction false} InsertRefinesMap(w: World, m: map<Key, JobId>, run: seq<Step>, id: JobId, ask: Ask)
    requires Indexes(m, w.db) && Born(w) && LegalRun(w, run)
    ensures Indexes(SpecRun(m, run), After(w, run).db)
    ensures InsertAnswer(After(w, run).db, id, ask) == Answer(SpecRun(m, run), id, ask)
    decreases |run|
  {
    if run == [] {
      AnswerAgrees(m, w.db, id, ask);
    } else {
      StepRefinesMap(w, m, run[0]);
      BornStays(w, run[0]);
      InsertRefinesMap(Apply(w, run[0]), SpecStep(m, run[0]), run[1..], id, ask);
    }
  }

  predicate Purges(run: seq<Step>, j: JobId) { exists i | 0 <= i < |run| :: run[i].Purge? && j in run[i].ids }

  lemma {:induction false} KeptUntilPurged(m: map<Key, JobId>, run: seq<Step>, p: Key)
    requires p in m && !Purges(run, m[p])
    ensures p in SpecRun(m, run) && SpecRun(m, run)[p] == m[p]
    decreases |run|
  {
    if run != [] {
      assert forall i | 0 <= i < |run[1..]| :: run[1..][i] == run[i + 1];
      assert !(run[0].Purge? && m[p] in run[0].ids);
      KeptUntilPurged(SpecStep(m, run[0]), run[1..], p);
    }
  }

  /** Repeating a keyed call answers the id of the first, with created = false, until that row is purged. */
  lemma RepeatsAnswerTheFirst(w: World, m: map<Key, JobId>, first: Step, run: seq<Step>, id: JobId,
                              again: Ask)
    requires Indexes(m, w.db) && Born(w) && first.Insert? && LegalRun(w, [first] + run)
    requires AskKey(first.ask).Some? && AskKey(again) == AskKey(first.ask)
    requires !Purges(run, InsertAnswer(w.db, first.id, first.ask).0)
    ensures InsertAnswer(After(w, [first] + run).db, id, again) == (InsertAnswer(w.db, first.id, first.ask).0, false)
  {
    assert ([first] + run)[1..] == run;
    AnswerAgrees(m, w.db, first.id, first.ask);
    StepRefinesMap(w, m, first);
    BornStays(w, first);
    InsertRefinesMap(Apply(w, first), SpecStep(m, first), run, id, again);
    KeptUntilPurged(SpecStep(m, first), run, AskKey(first.ask).value);
  }

  // ---- how many rows a run creates ----

  ghost function Created(w: World, run: seq<Step>): nat
    requires LegalRun(w, run)
    decreases |run|
  {
    if run == [] then 0 else
      (if run[0].Insert? && !Conflicts(w.db, run[0].ask) then 1 else 0) + Created(Apply(w, run[0]), run[1..])
  }

  function NullCalls(run: seq<Step>): nat {
    if run == [] then 0 else (if run[0].Insert? && run[0].ask.key.None? then 1 else 0) + NullCalls(run[1..])
  }

  function KeysCalled(run: seq<Step>): set<Key> {
    if run == [] then {} else
      (if run[0].Insert? && AskKey(run[0].ask).Some? then {AskKey(run[0].ask).value} else {}) + KeysCalled(run[1..])
  }

  /** Without purges, the rows created are the calls without key and the distinct pairs not present before. */
  lemma {:induction false} CreatedCount(w: World, m: map<Key, JobId>, run: seq<Step>)
    requires Indexes(m, w.db) && Born(w) && LegalRun(w, run) && forall i | 0 <= i < |run| :: !run[i].Purge?
    ensures Created(w, run) == NullCalls(run) + |KeysCalled(run) - m.Keys|
    decreases |run|
  {
    if run != [] {
      assert forall i | 0 <= i < |run[1..]| :: run[1..][i] == run[i + 1];
      StepRefinesMap(w, m, run[0]);
      BornStays(w, run[0]);
      CreatedCount(Apply(w, run[0]), SpecStep(m, run[0]), run[1..]);
      CountsOneStep(w, m, run);
    }
  }

  lemma CountsOneStep(w: World, m: map<Key, JobId>, run: seq<Step>)
    requires Indexes(m, w.db) && LegalRun(w, run) && run != [] && !run[0].Purge?
    ensures Created(w, run) - Created(Apply(w, run[0]), run[1..])
         == NullCalls(run) - NullCalls(run[1..])
            + |KeysCalled(run) - m.Keys| - |KeysCalled(run[1..]) - SpecStep(m, run[0]).Keys|
  {
    var s := run[0];
    var created := if s.Insert? && !Conflicts(w.db, s.ask) then 1 else 0;
    var keyless := if s.Insert? && s.ask.key.None? then 1 else 0;
    assert Created(w, run) == created + Created(Apply(w, s), run[1..]);
    assert NullCalls(run) == keyless + NullCalls(run[1..]);
    assert |KeysCalled(run) - m.Keys| == created - keyless + |KeysCalled(run[1..]) - SpecStep(m, s).Keys| by {
      KeysOneStep(w.db, m, run);
    }
  }

  lemma {:induction false} KeysOneStep(db: Db, m: map<Key, JobId>, run: seq<Step>)
    requires Indexes(m, db) && run != [] && !run[0].Purge?
    ensures |KeysCalled(run) - m.Keys| - |KeysCalled(run[1..]) - SpecStep(m, run[0]).Keys|
         == (if run[0].Insert? && !Conflicts(db, run[0].ask) then 1 else 0)
            - (if run[0].Insert? && run[0].ask.key.None? then 1 else 0)
  {
    var s := run[0];
    if s.Insert? && AskKey(s.ask).Some? {
      AnswerAgrees(m, db, s.id, s.ask);
      KeyedCall(KeysCalled(run[1..]), m, s.id, s.ask);
    } else {
      assert KeysCalled(run) == KeysCalled(run[1..]);
    }
  }

  lemma KeyedCall(called: set<Key>, m: map<Key, JobId>, id: JobId, ask: Ask)
    requires AskKey(ask).Some?
    ensures |{AskKey(ask).value} + called - m.Keys|
         == (if AskKey(ask).value in m then 0 else 1) + |called - Put(m, id, ask).Keys|
  {
    var p := AskKey(ask).value;
    OneKeyMore(called, m.Keys, p);
    assert Put(m, id, ask).Keys == m.Keys + {p};
  }

  lemma OneKeyMore(called: set<Key>, present: set<Key>, p: Key)
    ensures |{p} + called - present| == (if p in present then 0 else 1) + |called - (present + {p})|
  {
    if p in present {
      assert {p} + called - present == called - (present + {p});
    } else {
      assert {p} + called - present == {p} + (called - (present + {p}));
    }
  }
}

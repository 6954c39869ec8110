// Replays: each job has at most one live replay, replays copy their source, and the replayed-from references form
// disjoint finite chains.
module Lineage {
  import opened Rows
  import opened Statements
  import opened Protocol
  import opened Accounting
  import opened Idempotency

  /** What a replay shares with its source. */
  predicate Copies(r: Job, source: Job) {
    r.queue == source.queue && r.work == source.work && r.priority == source.priority
        && r.maxAttempts == source.maxAttempts
  }

  ghost predicate RefersBack(w: World, j: JobId)
    requires j in w.db.jobs
  {
    var r := w.db.jobs[j];
    r.replayedFrom.Some? ==>
      var source := r.replayedFrom.value;
      && source in w.db.jobs && Copies(r, w.db.jobs[source]) && r.key == Some(ReplayKey(source))
      && source in w.hist.birth && j in w.hist.birth && w.hist.birth[source] < w.hist.birth[j]
  }

  ghost predicate Lineal(w: World) {
    && (forall j {:trigger RefersBack(w, j)} | j in w.db.jobs :: RefersBack(w, j))
    && (forall j | j in w.hist.birth :: w.hist.birth[j] < |w.hist.birth|)
  }

  lemma ReplayKeyInjective(a: JobId, b: JobId)
    requires ReplayKey(a) == ReplayKey(b)
    ensures a == b
  {
    assert a == ReplayKey(a)[7..] && b == ReplayKey(b)[7..];
  }

  // ---- preserved by every step ----

  /** Copied columns and the reference are never updated, except that a purge may clear the reference. */
  ghost predicate SameOrigin(r: Job, r': Job) {
    && Copies(r', r) && r'.key == r.key
    && (r'.replayedFrom == r.replayedFrom || r'.replayedFrom.None?)
  }

  lemma RecordKeepsOrigin(w: World, s: Step, j: JobId)
    requires Legal(w, s) && (s.Complete? || s.Fail?) && j in w.db.jobs
    ensures j in Apply(w, s).db.jobs && SameOrigin(w.db.jobs[j], Apply(w, s).db.jobs[j])
    ensures Apply(w, s).db.jobs[j].replayedFrom == w.db.jobs[j].replayedFrom
  {
  }

  lemma StepKeepsOrigin(w: World, s: Step, j: JobId)
    requires Legal(w, s) && j in w.db.jobs && j in Apply(w, s).db.jobs && (s.Insert? ==> s.id != j)
    ensures SameOrigin(w.db.jobs[j], Apply(w, s).db.jobs[j])
    ensures !s.Purge? ==> Apply(w, s).db.jobs[j].replayedFrom == w.db.jobs[j].replayedFrom
  {
    if s.Complete? || s.Fail? { RecordKeepsOrigin(w, s, j); }
  }

  lemma JobsStayUnlessPurged(w: World, s: Step, j: JobId)
    requires Legal(w, s) && j in w.db.jobs && !(s.Purge? && j in s.ids)
    ensures j in Apply(w, s).db.jobs
  {
  }

  lemma OldJobKeepsReference(w: World, s: Step, j: JobId)
    requires Balanced(w) && Lineal(w) && Legal(w, s) && j in w.db.jobs && j in Apply(w, s).db.jobs
    ensures RefersBack(Apply(w, s), j)
  {
    var v := Apply(w, s);
    assert RefersBack(w, j) && JobBalances(w, j);
    StepKeepsOrigin(w, s, j);
    if v.db.jobs[j].replayedFrom.Some? {
      var source := v.db.jobs[j].replayedFrom.value;
      assert JobBalances(w, source);
      if s.Purge? { assert source !in s.ids; }
      JobsStayUnlessPurged(w, s, source);
      StepKeepsOrigin(w, s, source);
      BirthStays(w, s);
    }
  }

  lemma BirthStays(w: World, s: Step)
    requires Legal(w, s)
    ensures var v := Apply(w, s);
            && (forall j | j in w.hist.birth :: j in v.hist.birth && v.hist.birth[j] == w.hist.birth[j])
            && ((forall j | j in w.hist.birth :: w.hist.birth[j] < |w.hist.birth|) ==>
                 forall j | j in v.hist.birth :: v.hist.birth[j] < |v.hist.birth|)
  {
    if s.Insert? && !Conflicts(w.db, s.ask) {
      assert |Apply(w, s).hist.birth| == |w.hist.birth| + 1 by {
        assert Apply(w, s).hist.birth.Keys == w.hist.birth.Keys + {s.id};
      }
    }
  }

  lemma NewJobRefersBack(w: World, s: Step)
    requires Balanced(w) && Lineal(w) && Legal(w, s) && s.Insert? && !Conflicts(w.db, s.ask)
    ensures s.id in Apply(w, s).db.jobs && RefersBack(Apply(w, s), s.id)
  {
    var v := Apply(w, s);
    if s.ask.replayedFrom.Some? {
      var source := s.ask.replayedFrom.value;
      assert JobBalances(w, source);
      assert v.db.jobs[s.id] == NewRow(s.ask, s.now);
      assert v.hist.birth[s.id] == |w.hist.birth|;
    }
  }

  lemma StepKeepsLineage(w: World, s: Step)
    requires Balanced(w) && Lineal(w) && Legal(w, s)
    ensures Lineal(Apply(w, s))
  {
    var v := Apply(w, s);
    forall j | j in v.db.jobs ensures RefersBack(v, j) {
      if j in w.db.jobs {
        OldJobKeepsReference(w, s, j);
      } else {
        OnlyInsertsAdd(w, s, j);
        NewJobRefersBack(w, s);
      }
    }
    BirthStays(w, s);
  }

  lemma OnlyInsertsAdd(w: World, s: Step, j: JobId)
    requires Legal(w, s) && j in Apply(w, s).db.jobs && j !in w.db.jobs
    ensures s.Insert? && s.id == j && !Conflicts(w.db, s.ask)
  {
  }

  lemma {:induction false} RunKeepsLineage(w: World, m: map<Key, JobId>, run: seq<Step>)
    requires Balanced(w) && Lineal(w) && Indexes(m, w.db) && LegalRun(w, run)
    ensures Balanced(After(w, run)) && Lineal(After(w, run)) && UniqueKeys(After(w, run).db)
    decreases |run|
  {
    if run == [] {
      IndexGivesUnique(m, w.db);
    } else {
      forall j | j in w.db.jobs ensures j in w.hist.birth { assert JobBalances(w, j); }
      StepKeepsBalance(w, run[0]);
      StepKeepsLineage(w, run[0]);
      StepRefinesMap(w, m, run[0]);
      RunKeepsLineage(Apply(w, run[0]), SpecStep(m, run[0]), run[1..]);
    }
  }

  // ---- chains ----

  /** A job, the job it replays, and so on back. */
  ghost function Chain(w: World, j: JobId): (c: seq<JobId>)
    requires Lineal(w) && j in w.db.jobs
    ensures c != [] && c[0] == j && forall i | 0 <= i < |c| :: c[i] in w.db.jobs
    decreases if j in w.hist.birth then w.hist.birth[j] else 0
  {
    assert RefersBack(w, j);
    if w.db.jobs[j].replayedFrom.None? then [j] else [j] + Chain(w, w.db.jobs[j].replayedFrom.value)
  }

  /** Chains are finite sequences of ever earlier jobs. */
  lemma {:induction false} ChainDescends(w: World, j: JobId, i: nat, k: nat)
    requires Lineal(w) && j in w.db.jobs && i < k < |Chain(w, j)|
    ensures Chain(w, j)[i] in w.hist.birth && Chain(w, j)[k] in w.hist.birth
    ensures w.hist.birth[Chain(w, j)[k]] < w.hist.birth[Chain(w, j)[i]]
    decreases k
  {
    assert RefersBack(w, j);
    var source := w.db.jobs[j].replayedFrom.value;
    assert Chain(w, j) == [j] + Chain(w, source);
    if i > 0 {
      ChainDescends(w, source, i - 1, k - 1);
    } else if k > 1 {
      ChainDescends(w, source, 0, k - 1);
    }
  }

  lemma {:induction false} ChainLink(w: World, j: JobId, i: nat)
    requires Lineal(w) && j in w.db.jobs && 0 < i < |Chain(w, j)|
    ensures w.db.jobs[Chain(w, j)[i - 1]].replayedFrom == Some(Chain(w, j)[i])
    decreases i
  {
    assert RefersBack(w, j);
    var source := w.db.jobs[j].replayedFrom.value;
    assert Chain(w, j) == [j] + Chain(w, source);
    if i > 1 { ChainLink(w, source, i - 1); }
  }

  lemma OneReplay(w: World, source: JobId, j: JobId, k: JobId)
    requires Lineal(w) && UniqueKeys(w.db) && j in w.db.jobs && k in w.db.jobs
    requires w.db.jobs[j].replayedFrom == Some(source) && w.db.jobs[k].replayedFrom == Some(source)
    ensures j == k
  {
    assert RefersBack(w, j) && RefersBack(w, k);
    assert KeyOf(w.db.jobs[j]) == KeyOf(w.db.jobs[k]);
  }

  lemma {:induction false} ChainsMeetOnce(w: World, j: JobId, k: JobId, a: nat, b: nat)
    requires Lineal(w) && UniqueKeys(w.db) && j in w.db.jobs && k in w.db.jobs
    requires a < |Chain(w, j)| && b < |Chain(w, k)| && a <= b && Chain(w, j)[a] == Chain(w, k)[b]
    ensures Chain(w, k)[b - a] == j
    decreases a
  {
    if a > 0 {
      ChainLink(w, j, a);
      ChainLink(w, k, b);
      OneReplay(w, Chain(w, j)[a], Chain(w, j)[a - 1], Chain(w, k)[b - 1]);
      ChainsMeetOnce(w, j, k, a - 1, b - 1);
    }
  }

  /** At most one live replay of a job, in every run; a replay shares its source's queue and copied columns. */
  lemma AtMostOneLiveReplay(run: seq<Step>, source: JobId, j: JobId, k: JobId)
    requires LegalRun(EMPTY, run)
    requires var db := After(EMPTY, run).db;
             && j in db.jobs && db.jobs[j].replayedFrom == Some(source)
             && k in db.jobs && db.jobs[k].replayedFrom == Some(source)
    ensures j == k
    ensures var db := After(EMPTY, run).db; source in db.jobs && Copies(db.jobs[j], db.jobs[source])
  {
    RunKeepsLineage(EMPTY, map[], run);
    assert RefersBack(After(EMPTY, run), j);
    OneReplay(After(EMPTY, run), source, j, k);
  }

  /** In every run the replayed-from relation is a disjoint union of finite chains: no chain repeats a job, and of two
      chains that meet one continues the other. */
  lemma LineageIsChains(run: seq<Step>, j: JobId, k: JobId)
    requires LegalRun(EMPTY, run) && j in After(EMPTY, run).db.jobs && k in After(EMPTY, run).db.jobs
    ensures Lineal(After(EMPTY, run))
    ensures Distinct(Chain(After(EMPTY, run), j))
    ensures (exists x :: x in Chain(After(EMPTY, run), j) && x in Chain(After(EMPTY, run), k)) ==>
              j in Chain(After(EMPTY, run), k) || k in Chain(After(EMPTY, run), j)
  {
    RunKeepsLineage(EMPTY, map[], run);
    var w := After(EMPTY, run);
    var cj, ck := Chain(w, j), Chain(w, k);
    forall a, b | 0 <= a < b < |cj| ensures cj[a] != cj[b] { ChainDescends(w, j, a, b); }
    if x :| x in cj && x in ck {
      var a :| 0 <= a < |cj| && cj[a] == x;
      var b :| 0 <= b < |ck| && ck[b] == x;
      if a <= b { ChainsMeetOnce(w, j, k, a, b); } else { ChainsMeetOnce(w, k, j, b, a); }
    }
  }

  // ---- what a replay answers ----

  /** Replaying a job again before its first replay is purged creates nothing: it answers the first replay's id,
      whatever has become of that job since. */
  lemma SecondReplayAnswersTheFirst(w: World, m: map<Key, JobId>, source: JobId, r: Job,
                                    first: Step, run: seq<Step>, id: JobId, r': Job)
    requires Indexes(m, w.db) && Born(w) && first.Insert? && first.ask == ReplayAsk(source, r)
    requires LegalRun(w, [first] + run) && r'.queue == r.queue
    requires !Conflicts(w.db, first.ask) && !Purges(run, first.id)
    ensures InsertAnswer(After(w, [first] + run).db, id, ReplayAsk(source, r')) == (first.id, false)
  {
    AnswerAgrees(m, w.db, first.id, first.ask);
    RepeatsAnswerTheFirst(w, m, first, run, id, ReplayAsk(source, r'));
  }

  /** Over all runs: a replay creates a job exactly when no row of the source's queue holds the replay's key, which is
      when that key has not been used in the queue since the last purge of its row, by a replay or by any other call. */
  lemma ReplayCreatesIff(run: seq<Step>, source: JobId, r: Job, id: JobId)
    requires LegalRun(EMPTY, run)
    ensures var db, p := After(EMPTY, run).db, (r.queue, ReplayKey(source));
            && (InsertAnswer(db, id, ReplayAsk(source, r)).1 <==>
                  forall j | j in db.jobs :: !Holds(db.jobs[j], r.queue, ReplayKey(source)))
            && (InsertAnswer(db, id, ReplayAsk(source, r)).1 <==> p !in SpecRun(map[], run))
            && (p in SpecRun(map[], run) ==>
                  InsertAnswer(db, id, ReplayAsk(source, r)).0 == SpecRun(map[], run)[p])
  {
    InsertRefinesMap(EMPTY, map[], run, id, ReplayAsk(source, r));
  }

  /** A job is submitted, an ordinary call takes the key of its replay, and the job is cancelled. */
  const WORK := Work("handler", "n", "{}", "{}", "{}", 30, None, None)
  const PLAIN := Ask("q", WORK, 0, 1, None, None, None)
  const TAKING := Ask("q", WORK, 0, 1, None, Some(ReplayKey("a")), None)
  const KEY_TAKEN: seq<Step> := [Insert("a", PLAIN, 0)] + ([Insert("b", TAKING, 1)] + ([Cancel("a", 2)] + []))

  const TAKEN := map["a" := CancelledRow(NewRow(PLAIN, 0), 2), "b" := NewRow(TAKING, 1)]

  lemma Submits(w: World) returns (v: World)
    requires w == EMPTY
    ensures Legal(w, Insert("a", PLAIN, 0)) && v == Apply(w, Insert("a", PLAIN, 0))
    ensures v.db.jobs == map["a" := NewRow(PLAIN, 0)] && v.hist.birth.Keys == {"a"}
  {
    v := Apply(w, Insert("a", PLAIN, 0));
  }

  lemma TakesKey(w: World) returns (v: World)
    requires w.db.jobs == map["a" := NewRow(PLAIN, 0)] && w.hist.birth.Keys == {"a"}
    ensures Legal(w, Insert("b", TAKING, 1)) && v == Apply(w, Insert("b", TAKING, 1))
    ensures v.db.jobs == map["a" := NewRow(PLAIN, 0), "b" := NewRow(TAKING, 1)]
  {
    assert !Conflicts(w.db, TAKING);
    v := Apply(w, Insert("b", TAKING, 1));
  }

  lemma CancelsSource(w: World) returns (v: World)
    requires w.db.jobs == map["a" := NewRow(PLAIN, 0), "b" := NewRow(TAKING, 1)]
    ensures Legal(w, Cancel("a", 2)) && v == Apply(w, Cancel("a", 2)) && v.db.jobs == TAKEN
  {
    v := Apply(w, Cancel("a", 2));
  }

  lemma TakenKeyAnswers(db: Db, id: JobId)
    requires db.jobs == TAKEN
    ensures InsertAnswer(db, id, ReplayAsk("a", TAKEN["a"])) == ("b", false)
  {
    assert Holds(db.jobs["b"], "q", ReplayKey("a"));
  }

  /** Then even the first replay creates nothing: it answers a job that has never been a replay. */
  lemma FirstReplayCanCreateNothing(id: JobId)
    ensures LegalRun(EMPTY, KEY_TAKEN)
    ensures var db := After(EMPTY, KEY_TAKEN).db;
            && "a" in db.jobs && db.jobs["a"].status == Cancelled
            && "b" in db.jobs && db.jobs["b"].replayedFrom.None?
            && InsertAnswer(db, id, ReplayAsk("a", db.jobs["a"])) == ("b", false)
  {
    var w1 := Submits(EMPTY);
    var w2 := TakesKey(w1);
    var w3 := CancelsSource(w2);
    RunCons(w2, Cancel("a", 2), []);
    RunCons(w1, Insert("b", TAKING, 1), [Cancel("a", 2)] + []);
    RunCons(EMPTY, Insert("a", PLAIN, 0), [Insert("b", TAKING, 1)] + ([Cancel("a", 2)] + []));
    TakenKeyAnswers(w3.db, id);
  }

  /** Replays of different sources never share a row, whatever rows hold their keys. */
  lemma ReplaysOfDifferentSourcesDiffer(db: Db, a: JobId, r: Job, id: JobId, b: JobId, r': Job,
                                        id': JobId)
    requires a != b && id != id' && id !in db.jobs && id' !in db.jobs
    ensures InsertAnswer(db, id, ReplayAsk(a, r)).0 != InsertAnswer(db, id', ReplayAsk(b, r')).0
  {
    if ReplayKey(a) == ReplayKey(b) { ReplayKeyInjective(a, b); }
  }
}

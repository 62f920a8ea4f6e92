/** What Resume does to the job store and the target before the data phase starts again. The ghost
    results show that its writes are steps of the state machine, so that a crash between any two of
    them is covered by the theorem over all runs. */
module Resume {
  import opened Collections
  import opened JobStore
  import opened Protocol
  import opened RunInvariant
  import opened ResumeLimits
  import Keys

  class Database {
    var relations: Target

    constructor (relations: Target)
      ensures this.relations == relations
    {
      this.relations := relations;
    }

    method TruncateTable(table: string)
      modifies this
      ensures relations == Protocol.TruncateTable(old(relations), table)
    {
      relations := map r | r in relations && r.table != table :: relations[r];
    }

    method TruncateRelation(r: Relation)
      modifies this
      ensures relations == Protocol.TruncateRelation(old(relations), r)
    {
      relations := relations - {r};
    }

    method Insert(r: Relation, rows: multiset<Row>)
      modifies this
      ensures relations == Protocol.Insert(old(relations), r, rows)
    {
      relations := relations[r := (if r in relations then relations[r] else multiset{}) + rows];
    }
  }

  /** The chunk jobs of one table. */
  datatype TableInfo = TableInfo(hasRetrying: bool, chunkIDs: seq<nat>)

  ghost predicate InfoOf(jobs: seq<Job>, n: nat, table: string, info: TableInfo)
    requires n <= |jobs|
  {
    && (forall i: nat :: i in info.chunkIDs <==> i < n && ChunkOf(jobs, i, table))
    && (forall a, b :: 0 <= a < b < |info.chunkIDs| ==> info.chunkIDs[a] < info.chunkIDs[b])
    && (info.hasRetrying <==> exists i: nat :: i < n && ChunkOf(jobs, i, table) && jobs[i].state == Retrying)
  }

  /** Groups the chunk jobs by table. */
  method ChunkTables(store: Store) returns (tables: map<string, TableInfo>)
    ensures forall t :: t in tables ==> InfoOf(store.jobs, |store.jobs|, t, tables[t])
    ensures forall i: nat :: i < |store.jobs| && Keys.IsResettable(store.jobs[i].partition)
              ==> store.jobs[i].table in tables
  {
    tables := map[];
    for k := 0 to |store.jobs|
      invariant forall t :: t in tables ==> InfoOf(store.jobs, k, t, tables[t])
      invariant forall i: nat :: i < k && Keys.IsResettable(store.jobs[i].partition) ==> store.jobs[i].table in tables
    {
      var j := store.jobs[k];
      if Keys.IsResettable(j.partition) {
        var info := if j.table in tables then tables[j.table] else TableInfo(false, []);
        assert InfoOf(store.jobs, k, j.table, info);
        assert forall a :: 0 <= a < |info.chunkIDs| ==> info.chunkIDs[a] in info.chunkIDs;
        info := TableInfo(info.hasRetrying || j.state == Retrying, info.chunkIDs + [k]);
        assert ChunkOf(store.jobs, k, j.table);
        assert InfoOf(store.jobs, k + 1, j.table, info);
        tables := tables[j.table := info];
      }
    }
  }

  /** Passing over jobs that are no chunks of the table changes nothing. */
  lemma SkipTo(plan: seq<CopyTask>, w: World, stop: nat) returns (run: seq<Action>, w': World)
    requires w.proc.Resetting? && w.proc.current.Some? && w.proc.cursor <= stop <= |w.jobs|
    requires forall i :: w.proc.cursor <= i < stop ==> !ChunkOf(w.jobs, i, w.proc.current.value)
    ensures Leads(plan, w, run, w') && w' == w.(proc := w.proc.(cursor := stop))
    decreases stop - w.proc.cursor
  {
    if w.proc.cursor == stop {
      run, w' := [], w;
    } else {
      Step(plan, w, ResetJob);
      var rest;
      rest, w' := SkipTo(plan, Apply(plan, w, ResetJob), stop);
      Then(plan, w, [ResetJob], Apply(plan, w, ResetJob), rest, w');
      run := [ResetJob] + rest;
    }
  }

  /** From anywhere before it, the reset gets to the next chunk of the table, or to the end. */
  lemma ResetNext(plan: seq<CopyTask>, w0: World, run: seq<Action>, w: World, next: nat)
      returns (run': seq<Action>, w': World)
    requires w.proc.Resetting? && w.proc.current.Some? && w.proc.cursor <= next <= |w.jobs|
    requires forall i :: w.proc.cursor <= i < next ==> !ChunkOf(w.jobs, i, w.proc.current.value)
    requires Leads(plan, w0, run, w)
    ensures Leads(plan, w0, run', w') && w' == Apply(plan, w.(proc := w.proc.(cursor := next)), ResetJob)
  {
    var skip, mid := SkipTo(plan, w, next);
    Then(plan, w0, run, w, skip, mid);
    ThenStep(plan, w0, run + skip, mid, ResetJob);
    run', w' := run + skip + [ResetJob], Apply(plan, mid, ResetJob);
  }

  /** The jobs with some of them set to RETRYING. */
  function Retried(jobs: seq<Job>, ids: seq<nat>): seq<Job> {
    seq(|jobs|, i requires 0 <= i < |jobs| => if i in ids then jobs[i].(state := Retrying) else jobs[i])
  }

  /** The jobs with the chunks of some tables set to RETRYING. */
  function ResetIn(jobs: seq<Job>, tables: set<string>): seq<Job> {
    seq(|jobs|, i requires 0 <= i < |jobs| =>
      if Keys.IsResettable(jobs[i].partition) && jobs[i].table in tables then jobs[i].(state := Retrying) else jobs[i])
  }

  /** The machine has followed the first k updates of a reset that started in w. */
  ghost predicate Following(plan: seq<CopyTask>, w: World, ids: seq<nat>, table: string, k: nat,
                            jobs: seq<Job>, run: seq<Action>, w': World)
    requires k <= |ids|
  {
    && w.proc.Resetting? && w.proc.current == Some(table) && w.proc.cursor == 0
    && (forall i: nat :: i in ids <==> ChunkOf(w.jobs, i, table))
    && (forall a, b :: 0 <= a < b < |ids| ==> ids[a] < ids[b])
    && jobs == Retried(w.jobs, ids[..k])
    && Leads(plan, w, run, w')
    && w' == w.(jobs := jobs, proc := w.proc.(cursor := if k == 0 then 0 else ids[k - 1] + 1))
  }

  /** Between two neighbours of an ascending list nothing is in it. */
  lemma NotListed(ids: seq<nat>, k: nat, from: nat, next: nat)
    requires k <= |ids| && forall a, b :: 0 <= a < b < |ids| ==> ids[a] < ids[b]
    requires k > 0 ==> ids[k - 1] < from
    requires k < |ids| ==> next <= ids[k]
    ensures forall i: nat :: from <= i < next ==> i !in ids
  {
    forall a | 0 <= a < |ids| ensures !(from <= ids[a] < next) {
      assert a < k ==> ids[a] <= ids[k - 1];
      assert a > k ==> ids[k] < ids[a];
    }
  }

  /** From after the k-th update nothing is in the way of the next chunk, or of the end. */
  lemma NothingBetween(plan: seq<CopyTask>, w: World, ids: seq<nat>, table: string, k: nat,
                       jobs: seq<Job>, run: seq<Action>, w': World, next: nat)
    requires k <= |ids| && Following(plan, w, ids, table, k, jobs, run, w')
    requires next == if k < |ids| then ids[k] else |w.jobs|
    ensures w'.proc.cursor <= next <= |w.jobs|
    ensures forall i :: w'.proc.cursor <= i < next ==> !ChunkOf(jobs, i, table)
  {
    assert forall a :: 0 <= a < |ids| ==> ids[a] in ids;
    NotListed(ids, k, w'.proc.cursor, next);
    forall i: nat | w'.proc.cursor <= i < next ensures !ChunkOf(jobs, i, table) {
      assert ChunkOf(jobs, i, table) <==> ChunkOf(w.jobs, i, table);
    }
  }

  lemma FollowNext(plan: seq<CopyTask>, w: World, ids: seq<nat>, table: string, k: nat,
                   jobs: seq<Job>, run: seq<Action>, w': World) returns (run': seq<Action>, w'': World)
    requires k < |ids| && Following(plan, w, ids, table, k, jobs, run, w')
    ensures ids[k] < |jobs|
    ensures Following(plan, w, ids, table, k + 1, jobs[ids[k] := jobs[ids[k]].(state := Retrying)], run', w'')
  {
    hide Leads, Valid, Exec;
    NothingBetween(plan, w, ids, table, k, jobs, run, w', ids[k]);
    assert ids[k] in ids && ChunkOf(w.jobs, ids[k], table);
    assert ChunkOf(jobs, ids[k], table);
    run', w'' := ResetNext(plan, w, run, w', ids[k]);
    assert ids[..k + 1] == ids[..k] + [ids[k]];
    assert jobs[ids[k] := jobs[ids[k]].(state := Retrying)] == Retried(w.jobs, ids[..k + 1]);
  }

  lemma FollowStart(plan: seq<CopyTask>, w: World, ids: seq<nat>, table: string)
    requires w.proc.Resetting? && w.proc.current == Some(table) && w.proc.cursor == 0
    requires forall i: nat :: i in ids <==> ChunkOf(w.jobs, i, table)
    requires forall a, b :: 0 <= a < b < |ids| ==> ids[a] < ids[b]
    ensures Following(plan, w, ids, table, 0, w.jobs, [], w)
  {
    Stay(plan, w);
    assert w.jobs == Retried(w.jobs, ids[..0]);
  }

  lemma FollowEnd(plan: seq<CopyTask>, w: World, ids: seq<nat>, table: string,
                  jobs: seq<Job>, run: seq<Action>, w': World) returns (run': seq<Action>, w'': World)
    requires Following(plan, w, ids, table, |ids|, jobs, run, w')
    ensures jobs == Retried(w.jobs, ids)
    ensures Leads(plan, w, run', w'') && w'' == w.(jobs := jobs, proc := Resetting(w.proc.tables - {table}, None, 0))
  {
    assert ids[..|ids|] == ids;
    NothingBetween(plan, w, ids, table, |ids|, jobs, run, w', |w.jobs|);
    run', w'' := ResetNext(plan, w, run, w', |w.jobs|);
  }

  /** Sets the listed chunks of one table to RETRYING, one store update after the other. */
  method ResetChunks(store: Store, ids: seq<nat>, table: string, ghost plan: seq<CopyTask>, ghost w: World)
    returns (ghost run: seq<Action>, ghost w': World)
    requires w.jobs == store.jobs && w.proc.Resetting? && w.proc.current == Some(table) && w.proc.cursor == 0
    requires forall i: nat :: i in ids <==> ChunkOf(store.jobs, i, table)
    requires forall a, b :: 0 <= a < b < |ids| ==> ids[a] < ids[b]
    modifies store
    ensures store.jobs == Retried(old(store.jobs), ids)
    ensures Leads(plan, w, run, w') && w' == w.(jobs := store.jobs, proc := Resetting(w.proc.tables - {table}, None, 0))
  {
    hide Following;
    run, w' := [], w;
    FollowStart(plan, w, ids, table);
    for k := 0 to |ids|
      invariant Following(plan, w, ids, table, k, store.jobs, run, w')
    {
      run, w' := FollowNext(plan, w, ids, table, k, store.jobs, run, w');
      store.UpdateState(ids[k], Retrying);
    }
    run, w' := FollowEnd(plan, w, ids, table, store.jobs, run, w');
  }

  lemma RetriedIsReset(jobs: seq<Job>, done: set<string>, table: string, ids: seq<nat>)
    requires forall i: nat :: i in ids <==> ChunkOf(jobs, i, table)
    ensures Retried(ResetIn(jobs, done), ids) == ResetIn(jobs, done + {table})
    ensures forall i: nat :: i in ids <==> ChunkOf(ResetIn(jobs, done), i, table)
  {
    forall i: nat | i < |jobs|
      ensures Retried(ResetIn(jobs, done), ids)[i] == ResetIn(jobs, done + {table})[i]
    {
      assert i in ids <==> ChunkOf(jobs, i, table);
    }
  }

  /** The target without some tables. */
  function Without(target: Target, tables: set<string>): Target {
    map r | r in target && r.table !in tables :: target[r]
  }

  /** Of the tables to reset, the ones in done are reset; the machine has followed. */
  ghost predicate PartlyReset(plan: seq<CopyTask>, w: World, done: set<string>,
                              jobs: seq<Job>, target: Target, run: seq<Action>, w': World)
  {
    && jobs == ResetIn(w.jobs, done) && target == Without(w.target, done)
    && Leads(plan, w, run, w')
    && w' == World(w.ddl, jobs, target, Resetting(TablesToReset(w.jobs) - done, None, 0))
  }

  lemma PartlyResetStart(plan: seq<CopyTask>, w: World) returns (run: seq<Action>, w': World)
    requires w.proc.Marked?
    ensures PartlyReset(plan, w, {}, w.jobs, w.target, run, w')
  {
    Step(plan, w, ListChunks);
    run, w' := [ListChunks], Apply(plan, w, ListChunks);
    assert w.jobs == ResetIn(w.jobs, {}) && w.target == Without(w.target, {});
    assert TablesToReset(w.jobs) - {} == TablesToReset(w.jobs);
  }

  lemma InfoTellsDoomed(jobs: seq<Job>, tables: map<string, TableInfo>)
    requires forall t :: t in tables ==> InfoOf(jobs, |jobs|, t, tables[t])
    requires forall i: nat :: i < |jobs| && Keys.IsResettable(jobs[i].partition) ==> jobs[i].table in tables
    ensures TablesToReset(jobs) <= tables.Keys
    ensures forall t :: t in tables ==> (tables[t].hasRetrying <==> t in TablesToReset(jobs))
  {
    forall t | t in tables ensures tables[t].hasRetrying <==> t in TablesToReset(jobs) {
      assert InfoOf(jobs, |jobs|, t, tables[t]);
      if t in TablesToReset(jobs) {
        var i :| 0 <= i < |jobs| && Keys.IsResettable(jobs[i].partition) && jobs[i].state == Retrying
          && jobs[i].table == t;
        assert ChunkOf(jobs, i, t);
      }
    }
  }

  lemma PartlyResetNext(plan: seq<CopyTask>, w: World, done: set<string>, jobs: seq<Job>, target: Target,
                        run: seq<Action>, w': World, table: string, more: seq<Action>, next: World)
    requires Leads(plan, w, run, w') && Leads(plan, w', more, next)
    requires w'.target == Without(w.target, done) && w'.ddl == w.ddl
    requires w'.proc == Resetting(TablesToReset(w.jobs) - done, None, 0)
    requires jobs == ResetIn(w.jobs, done + {table}) && target == TruncateTable(w'.target, table)
    requires next == World(w.ddl, jobs, target, Resetting(w'.proc.tables - {table}, None, 0))
    ensures PartlyReset(plan, w, done + {table}, jobs, target, run + more, next)
  {
    Then(plan, w, run, w', more, next);
    assert TablesToReset(w.jobs) - done - {table} == TablesToReset(w.jobs) - (done + {table});
  }

  lemma PartlyResetEnd(plan: seq<CopyTask>, w: World, done: set<string>, jobs: seq<Job>, target: Target,
      run: seq<Action>, w': World)
    requires PartlyReset(plan, w, done, jobs, target, run, w') && done <= TablesToReset(w.jobs) <= done
    ensures done == TablesToReset(w.jobs) && w' == World(w.ddl, jobs, target, Resetting({}, None, 0))
  {
    assert done == TablesToReset(w.jobs);
    assert TablesToReset(w.jobs) - done == {};
  }

  /** Empties one table and sends all its chunks back. */
  method ResetTable(store: Store, db: Database, table: string, ids: seq<nat>, ghost plan: seq<CopyTask>,
                    ghost w: World, ghost done: set<string>, ghost run: seq<Action>, ghost w': World)
    returns (ghost run': seq<Action>, ghost w'': World)
    requires PartlyReset(plan, w, done, store.jobs, db.relations, run, w')
    requires table in TablesToReset(w.jobs) && table !in done
    requires forall i: nat :: i in ids <==> ChunkOf(w.jobs, i, table)
    requires forall a, b :: 0 <= a < b < |ids| ==> ids[a] < ids[b]
    modifies store, db
    ensures PartlyReset(plan, w, done + {table}, store.jobs, db.relations, run', w'')
  {
    RetriedIsReset(w.jobs, done, table, ids);
    Step(plan, w', ResetTruncate(table));
    ghost var mid := Apply(plan, w', ResetTruncate(table));
    db.TruncateTable(table);
    ghost var chunks;
    chunks, w'' := ResetChunks(store, ids, table, plan, mid);
    Then(plan, w', [ResetTruncate(table)], mid, chunks, w'');
    PartlyResetNext(plan, w, done, store.jobs, db.relations, run, w', table, [ResetTruncate(table)] + chunks, w'');
    run' := run + ([ResetTruncate(table)] + chunks);
  }

  /** Some chunk of the whole table is to be retried. */
  ghost predicate HasChunkToRetry(jobs: seq<Job>, table: string) {
    exists i :: 0 <= i < |jobs| && jobs[i].table == table && Keys.IsResettable(jobs[i].partition)
      && jobs[i].state == Retrying
  }

  /** Of these tables the relations are gone, and the chunks are to be retried; everything else is as it was. */
  ghost predicate ResetBetween(was: seq<Job>, jobs: seq<Job>, before: Target, after: Target) {
    && |jobs| == |was|
    && (forall i :: 0 <= i < |jobs| ==>
          jobs[i] == if Keys.IsResettable(was[i].partition) && HasChunkToRetry(was, was[i].table)
                     then was[i].(state := Retrying) else was[i])
    && (forall r :: r in after <==> r in before && !HasChunkToRetry(was, r.table))
    && (forall r :: r in after ==> after[r] == before[r])
  }

  lemma ResetIsBetween(was: seq<Job>, before: Target)
    ensures ResetBetween(was, ResetIn(was, TablesToReset(was)), before, Without(before, TablesToReset(was)))
  {
    forall t ensures t in TablesToReset(was) <==> HasChunkToRetry(was, t) {
    }
  }

  /** The reset of the chunked tables with a chunk to retry: their relations are emptied and all
      their chunks are set to RETRYING; nothing else changes, and every write is a step. */
  method ResetFailedChunkedTables(store: Store, db: Database, ghost plan: seq<CopyTask>, ghost w: World)
    returns (ghost run: seq<Action>, ghost w': World)
    requires w.jobs == store.jobs && w.target == db.relations && w.proc.Marked?
    modifies store, db
    ensures store.jobs == ResetIn(old(store.jobs), TablesToReset(old(store.jobs)))
    ensures db.relations == Without(old(db.relations), TablesToReset(old(store.jobs)))
    ensures ResetBetween(old(store.jobs), store.jobs, old(db.relations), db.relations)
    ensures Leads(plan, w, run, w') && w' == World(w.ddl, store.jobs, db.relations, Resetting({}, None, 0))
  {
    var tables := ChunkTables(store);
    ghost var doomed := TablesToReset(w.jobs);
    InfoTellsDoomed(w.jobs, tables);
    run, w' := PartlyResetStart(plan, w);
    var todo := tables.Keys;
    ghost var done: set<string> := {};
    while todo != {}
      invariant todo <= tables.Keys && done !! todo && done <= doomed <= done + todo
      invariant PartlyReset(plan, w, done, store.jobs, db.relations, run, w')
      decreases |todo|
    {
      var table :| table in todo;
      todo := todo - {table};
      if tables[table].hasRetrying {
        assert InfoOf(w.jobs, |w.jobs|, table, tables[table]);
        run, w' := ResetTable(store, db, table, tables[table].chunkIDs, plan, w, done, run, w');
        done := done + {table};
      }
    }
    PartlyResetEnd(plan, w, done, store.jobs, db.relations, run, w');
    ResetIsBetween(w.jobs, w.target);
  }

  /** Resume, up to the data phase. Starting from a state that a run of the plan can have reached, it
      takes only steps of the machine; so wherever it stops, the invariant holds, and where it ends,
      every relation whose jobs are chunks of a table holds the rows of its completed jobs alone. */
  method Resume(store: Store, db: Database, ghost plan: seq<CopyTask>, ghost before: Target, ghost w: World)
    returns (pending: seq<nat>, ghost run: seq<Action>, ghost w': World)
    requires PlanShape(plan) && Inv(plan, before, w) && w.proc.Down?
    requires w.jobs == store.jobs && w.target == db.relations
    modifies store, db
    ensures Leads(plan, w, run, w') && w'.proc == Resetting({}, None, 0)
    ensures w'.jobs == store.jobs && w'.target == db.relations && Inv(plan, before, w')
    ensures forall r :: Grounded(before, w', r) && HasTableChunk(plan, r) ==> Settled(plan, w', r)
    ensures forall i: nat :: i in pending <==> i < |store.jobs| && Awaiting(store.jobs[i])
    ensures forall i :: 0 <= i < |store.jobs| ==> store.jobs[i].state != Running && store.jobs[i].state != Failed
  {
    Step(plan, w, Action.Resume);
    ghost var marked := Apply(plan, w, Action.Resume);
    var count := store.MarkFailedAsRetrying();
    ghost var reset;
    reset, w' := ResetFailedChunkedTables(store, db, plan, marked);
    Then(plan, w, [Action.Resume], marked, reset, w');
    run := [Action.Resume] + reset;
    RunKeeps(plan, before, w, run);
    forall r | Grounded(before, w', r) && HasTableChunk(plan, r) ensures Settled(plan, w', r) {
      assert RelOk(plan, w', r);
    }
    pending := store.GetPendingJobs();
  }
}

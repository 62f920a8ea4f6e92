/** The identities of the planned tasks: no two of them ever share a job row, and only chunks share a relation. */
module PlanShapes {
  import opened Collections
  import opened Schema
  import opened Placeholders
  import opened Planner
  import opened PlanResolution
  import opened PlanCoverage
  import opened Keys
  import MergeChunks

  function PartName(part: Option<Partition>): Option<string> { if part.Some? then Some(part.value.name) else None }

  function IdOf(task: TableTask): TaskId {
    TaskId(task.table.name, PartName(task.partition), if task.chunk.Some? then Some(task.chunk.value.id) else None)
  }

  function Ids(tasks: seq<TableTask>): seq<TaskId> { seq(|tasks|, i requires 0 <= i < |tasks| => IdOf(tasks[i])) }

  /** Two tasks of a table are either both for partitions or both not; and only different chunks share a relation. */
  predicate Compatible(a: TaskId, b: TaskId) {
    a.table == b.table ==>
      (a.part.None? <==> b.part.None?) && (a.part == b.part ==> a.chunk.Some? && b.chunk.Some? && a.chunk != b.chunk)
  }

  ghost predicate Apart(a: TaskId, ids: seq<TaskId>) { forall b :: b in ids ==> Compatible(a, b) }

  ghost predicate AllApart(ids: seq<TaskId>) { ids != [] ==> Apart(ids[0], ids[1..]) && AllApart(ids[1..]) }

  lemma {:induction false} ApartConcat(a: seq<TaskId>, b: seq<TaskId>)
    requires AllApart(a) && AllApart(b) && forall x :: x in a ==> Apart(x, b)
    ensures AllApart(a + b)
  {
    if a == [] {
      assert a + b == b;
    } else {
      assert (a + b)[0] == a[0] && (a + b)[1..] == a[1..] + b;
      assert a[0] in a && forall x :: x in a[1..] ==> x in a;
      ApartConcat(a[1..], b);
      assert forall y :: y in a[1..] + b ==> y in a[1..] || y in b;
    }
  }

  /** Task by task: any two are compatible. */
  lemma {:induction false} ApartMeans(ids: seq<TaskId>, i: nat, j: nat)
    requires AllApart(ids) && i < j < |ids|
    ensures Compatible(ids[i], ids[j])
  {
    if i == 0 {
      assert ids[j] == ids[1..][j - 1];
    } else {
      ApartMeans(ids[1..], i - 1, j - 1);
    }
  }

  lemma IdsConcat(a: seq<TableTask>, b: seq<TableTask>)
    ensures Ids(a + b) == Ids(a) + Ids(b)
  {
  }

  lemma IdsFlattenHead(blocks: seq<seq<TableTask>>)
    requires blocks != []
    ensures Ids(Flatten(blocks)) == Ids(blocks[0]) + Ids(Flatten(blocks[1..]))
  {
    IdsConcat(blocks[0], Flatten(blocks[1..]));
  }

  // ---------- One relation

  /** The tasks of one relation. */
  ghost predicate RelationIds(ids: seq<TaskId>, table: string, part: Option<string>) {
    AllApart(ids) && forall x :: x in ids ==> x.table == table && x.part == part
  }

  /** Chunks of a relation with different numbers. */
  ghost predicate Numbered(ids: seq<TaskId>, table: string, part: Option<string>) {
    && (forall i :: 0 <= i < |ids| ==> ids[i].table == table && ids[i].part == part && ids[i].chunk.Some?)
    && (forall i, j :: 0 <= i < j < |ids| ==> ids[i].chunk != ids[j].chunk)
  }

  lemma {:induction false} NumberedApart(ids: seq<TaskId>, table: string, part: Option<string>)
    requires Numbered(ids, table, part)
    ensures RelationIds(ids, table, part)
  {
    if ids != [] {
      NumberedApart(ids[1..], table, part);
      forall b | b in ids[1..] ensures Compatible(ids[0], b) {
        var j :| 0 <= j < |ids[1..]| && ids[1..][j] == b;
        assert b == ids[j + 1];
      }
    }
  }

  lemma SingleApart(id: TaskId)
    ensures RelationIds([id], id.table, id.part)
  {
    assert [id][1..] == [];
  }

  lemma SingleIds(t: Table, part: Option<Partition>, o: TableOverride)
    ensures RelationIds(Ids([SingleTask(t, part, o)]), t.name, PartName(part))
  {
    var id := IdOf(SingleTask(t, part, o));
    assert Ids([SingleTask(t, part, o)]) == [id];
    SingleApart(id);
  }

  lemma HashIds(t: Table, part: Option<Partition>, n: nat, o: TableOverride)
    ensures RelationIds(Ids(HashTasks(t, part, n, o)), t.name, PartName(part))
  {
    NumberedApart(Ids(HashTasks(t, part, n, o)), t.name, PartName(part));
  }

  lemma HashSplitIds(t: Table, p: Partition, o: TableOverride, batchSize: int, workers: int)
    ensures RelationIds(Ids(HashSplit(t, p, o, batchSize, workers)), t.name, Some(p.name))
  {
    HashIds(t, Some(p), PartitionChunkCount(p.numRows, batchSize, workers), o);
    SingleIds(t, Some(p), o);
  }

  /** The chunks have different numbers. */
  ghost predicate DistinctChunks(chunks: seq<RowIdChunk>) {
    forall i, j :: 0 <= i < j < |chunks| ==> chunks[i].id != chunks[j].id
  }

  lemma ChunkIds(t: Table, part: Option<Partition>, chunks: seq<RowIdChunk>, o: TableOverride, batchSize: int,
      mode: Option<TargetMode>)
    requires DistinctChunks(chunks)
    ensures RelationIds(Ids(ChunkTasks(t, part, chunks, o, batchSize, mode)), t.name, PartName(part))
  {
    var ids := Ids(ChunkTasks(t, part, chunks, o, batchSize, mode));
    assert forall i :: 0 <= i < |ids| ==> ids[i] == TaskId(t.name, PartName(part), Some(chunks[i].id));
    NumberedApart(ids, t.name, PartName(part));
  }

  lemma MergedDistinct(chunks: seq<RowIdChunk>, n: int)
    requires DistinctChunks(chunks)
    ensures DistinctChunks(MergeChunks.Merged(chunks, n))
  {
  }

  lemma {:induction false} FilterDistinct(chunks: seq<RowIdChunk>, p: RowIdChunk -> bool)
    requires DistinctChunks(chunks)
    ensures DistinctChunks(Filter(chunks, p)) && forall c :: c in Filter(chunks, p) ==> c in chunks
  {
    if chunks != [] {
      var rest := Filter(chunks[1..], p);
      assert DistinctChunks(chunks[1..]);
      FilterDistinct(chunks[1..], p);
      forall j | 0 <= j < |rest| ensures rest[j].id != chunks[0].id {
        assert rest[j] in chunks[1..];
        var k :| 0 <= k < |chunks[1..]| && chunks[1..][k] == rest[j];
        assert chunks[k + 1] == rest[j];
      }
    }
  }

  /** Oracle numbers the chunks of a table differently. */
  ghost predicate GoodNumbers(r: Resolver) {
    r.ByRowId? ==> forall name :: name in r.oracle.chunks ==> DistinctChunks(r.oracle.chunks[name])
  }

  lemma PartitionIds(r: Resolver, cfg: MigrationConfig, t: Table, p: Partition, o: TableOverride)
    requires GoodNumbers(r)
    ensures RelationIds(Ids(PartitionExpansion(r, cfg, t, p, o)), t.name, Some(p.name))
  {
    var chunks := if r.ByRowId? then TableChunks(r.oracle, t, cfg.workers * 4) else [];
    if chunks == [] {
      HashSplitIds(t, p, o, if o.batchSize <= 0 then cfg.batchSize else o.batchSize, cfg.workers);
    } else {
      var group := Filter(chunks, InPartition(p.name));
      FilterDistinct(chunks, InPartition(p.name));
      SingleIds(t, Some(p), o);
      MergedDistinct(group, MaxChunksPerPartition(cfg.workers));
      ChunkIds(t, Some(p), MergeChunks.Merged(group, MaxChunksPerPartition(cfg.workers)), o, o.batchSize,
        Some(o.ResolveTargetMode()));
    }
  }

  // ---------- One table

  ghost predicate HasPart(t: Table, name: string) { exists k :: 0 <= k < |t.parts| && t.parts[k].name == name }

  /** The tasks of one table. */
  ghost predicate TableIds(ids: seq<TaskId>, t: Table) {
    && AllApart(ids)
    && forall x :: x in ids ==>
         && x.table == t.name && (x.part.None? <==> t.parts == [])
         && (x.part.Some? ==> HasPart(t, x.part.value))
  }

  /** Block k holds the tasks of the k-th included partition. */
  ghost predicate BlockIds(blocks: seq<seq<TableTask>>, t: Table, included: seq<nat>) {
    && InBounds(t, included) && |blocks| == |included|
    && forall k :: 0 <= k < |blocks| ==> RelationIds(Ids(blocks[k]), t.name, Some(t.parts[included[k]].name))
  }

  lemma {:induction false} BlocksApart(blocks: seq<seq<TableTask>>, t: Table, included: seq<nat>)
    requires BlockIds(blocks, t, included) && DistinctParts(t)
    requires forall a, b :: 0 <= a < b < |included| ==> included[a] < included[b]
    ensures TableIds(Ids(Flatten(blocks)), t)
    ensures forall x :: x in Ids(Flatten(blocks))
              ==> exists k :: 0 <= k < |included| && x.part == Some(t.parts[included[k]].name)
  {
    if blocks != [] {
      BlocksApart(blocks[1..], t, included[1..]);
      IdsFlattenHead(blocks);
      var head, rest := Ids(blocks[0]), Ids(Flatten(blocks[1..]));
      var name := t.parts[included[0]].name;
      forall x | x in rest
        ensures x.part.Some? && x.part.value != name
                && exists k :: 0 <= k < |included| && x.part == Some(t.parts[included[k]].name)
      {
        var k :| 0 <= k < |included[1..]| && x.part == Some(t.parts[included[1..][k]].name);
        assert included[0] < included[k + 1];
      }
      ApartConcat(head, rest);
      assert HasPart(t, name);
    }
  }

  lemma PartitionTaskIds(t: Table, o: TableOverride)
    requires DistinctParts(t) && t.parts != []
    ensures TableIds(Ids(PartitionTasks(t, o, Included(t, o, |t.parts|))), t)
  {
    var included := Included(t, o, |t.parts|);
    var tasks := PartitionTasks(t, o, included);
    var blocks := seq(|tasks|, k requires 0 <= k < |tasks| => [tasks[k]]);
    Singletons(tasks);
    forall k | 0 <= k < |blocks| ensures RelationIds(Ids(blocks[k]), t.name, Some(t.parts[included[k]].name)) {
      SingleIds(t, Some(t.parts[included[k]]), o);
    }
    IncludedAscends(t, o, |t.parts|);
    BlocksApart(blocks, t, included);
  }

  lemma HashBlockIds(t: Table, o: TableOverride, batchSize: int, workers: int)
    requires DistinctParts(t) && t.parts != []
    ensures TableIds(Ids(Flatten(HashBlocks(t, o, Included(t, o, |t.parts|), batchSize, workers))), t)
  {
    var included := Included(t, o, |t.parts|);
    var blocks := HashBlocks(t, o, included, batchSize, workers);
    forall k | 0 <= k < |blocks| ensures RelationIds(Ids(blocks[k]), t.name, Some(t.parts[included[k]].name)) {
      HashSplitIds(t, t.parts[included[k]], o, batchSize, workers);
    }
    IncludedAscends(t, o, |t.parts|);
    BlocksApart(blocks, t, included);
  }

  lemma ExpansionIds(r: Resolver, cfg: MigrationConfig, t: Table, o: TableOverride)
    requires DistinctParts(t) && t.parts != [] && GoodNumbers(r)
    ensures TableIds(Ids(PartitionsExpansion(r, cfg, t, o, Included(t, o, |t.parts|))), t)
  {
    var included := Included(t, o, |t.parts|);
    var blocks := ExpansionBlocks(r, cfg, t, o, included);
    forall k | 0 <= k < |blocks| ensures RelationIds(Ids(blocks[k]), t.name, Some(t.parts[included[k]].name)) {
      PartitionIds(r, cfg, t, t.parts[included[k]], o);
    }
    IncludedAscends(t, o, |t.parts|);
    BlocksApart(blocks, t, included);
  }

  lemma TableExpansionIds(r: Resolver, cfg: MigrationConfig, t: Table, o: TableOverride, chunkSize: int)
    requires t.parts == [] && GoodNumbers(r) && TableExpansion(r, cfg, t, o, chunkSize).Some?
    ensures TableIds(Ids(TableExpansion(r, cfg, t, o, chunkSize).value), t)
  {
    var tasks := TableExpansion(r, cfg, t, o, chunkSize).value;
    if r.ByHash? {
      var ids := Ids(tasks);
      var size := if chunkSize <= 0 then cfg.batchSize else chunkSize;
      var n := if t.numRows / size > MAX_TABLE_CHUNKS then MAX_TABLE_CHUNKS else t.numRows / size;
      forall i: nat | i < |ids| ensures ids[i] == TaskId(t.name, None, Some(i)) {
        assert tasks[i] == HashTask(t, None, n, i, o).(batchSize := 0, targetMode := None);
      }
      NumberedApart(ids, t.name, None);
    } else {
      var estimate := r.oracle.estimates[t.name] / chunkSize;
      var n := if estimate > MAX_TABLE_CHUNKS then MAX_TABLE_CHUNKS else estimate;
      var chunks := if t.name in r.oracle.chunks then r.oracle.chunks[t.name] else ChunksViaOraHash(n);
      MergedDistinct(chunks, n);
      ChunkIds(t, None, MergeChunks.Merged(chunks, n), o, 0, None);
    }
  }

  lemma PlannedIds(cfg: MigrationConfig, t: Table)
    requires DistinctParts(t)
    ensures TableIds(Ids(PlanTable(cfg, t).tasks), t)
  {
    hide Included, NeedsSplit, PartitionChunkCount, Flatten, SingleTask;
    var o := cfg.Override(t);
    var bs := if o.batchSize <= 0 then cfg.batchSize else o.batchSize;
    if t.parts != [] {
      PartitionTaskIds(t, o);
      HashBlockIds(t, o, bs, cfg.workers);
    } else {
      SingleIds(t, None, o);
      HashIds(t, None, PartitionChunkCount(t.numRows, if o.chunkSize <= 0 then bs else o.chunkSize, cfg.workers), o);
    }
  }

  lemma RequestIs(cfg: MigrationConfig, t: Table)
    ensures var p, o := PlanTable(cfg, t), cfg.Override(t);
            && p.table == t && p.override == o
            && (p.request.SplitPartitions? ==> t.parts != [] && p.request.included == Included(t, o, |t.parts|))
            && (p.request.SplitTable? ==> t.parts == [])
  {
  }

  lemma FinalIds(r: Resolver, cfg: MigrationConfig, t: Table)
    requires DistinctParts(t) && GoodNumbers(r)
    ensures SoundRequest(PlanTable(cfg, t)) && TableIds(Ids(Final(SegmentOf(r, cfg, PlanTable(cfg, t)))), t)
  {
    hide PlanTable, TableIds, PartitionsExpansion, TableExpansion;
    var p := PlanTable(cfg, t);
    PlanTableIsProper(r, cfg, t);
    PlannedIds(cfg, t);
    RequestIs(cfg, t);
    if p.request.SplitPartitions? {
      ExpansionIds(r, cfg, t, p.override);
    }
    if p.request.SplitTable? && TableExpansion(r, cfg, t, p.override, p.request.chunkSize).Some? {
      TableExpansionIds(r, cfg, t, p.override, p.request.chunkSize);
    }
  }

  // ---------- The whole plan

  /** The task belongs to one of the tables. */
  ghost predicate Listed(x: TaskId, tables: seq<Table>) {
    exists t :: t in tables && x.table == t.name && (x.part.None? <==> t.parts == [])
      && (x.part.Some? ==> HasPart(t, x.part.value))
  }

  ghost predicate PlanIds(ids: seq<TaskId>, tables: seq<Table>) {
    AllApart(ids) && forall x :: x in ids ==> Listed(x, tables)
  }

  lemma {:induction false} IdealIds(r: Resolver, cfg: MigrationConfig, sorted: seq<Table>)
    requires DistinctNames(sorted) && GoodNumbers(r) && forall t :: t in sorted ==> DistinctParts(t)
    ensures PlanIds(Ids(Ideal(PlanSegments(r, cfg, sorted))), sorted)
  {
    if sorted != [] {
      var before, t := sorted[..|sorted| - 1], sorted[|sorted| - 1];
      assert t in sorted && forall x :: x in before ==> x in sorted;
      IdealIds(r, cfg, before);
      PlanSegmentsSnoc(r, cfg, sorted);
      var front := PlanSegments(r, cfg, before);
      MorePlanIds(Ids(Ideal(front)), before, sorted);
      if cfg.Override(t).ResolveTargetMode().Skip? {
        assert PlanSegments(r, cfg, sorted) == front;
      } else {
        var segs, g := PlanSegments(r, cfg, sorted), SegmentOf(r, cfg, PlanTable(cfg, t));
        assert segs[..|segs| - 1] == front && segs[|segs| - 1] == g;
        FinalIds(r, cfg, t);
        IdsConcat(Ideal(front), Final(g));
        JoinTable(Ids(Ideal(front)), Ids(Final(g)), sorted);
      }
    }
  }

  lemma MorePlanIds(ids: seq<TaskId>, before: seq<Table>, sorted: seq<Table>)
    requires PlanIds(ids, before) && forall t :: t in before ==> t in sorted
    ensures PlanIds(ids, sorted)
  {
  }

  lemma JoinTable(front: seq<TaskId>, ids: seq<TaskId>, sorted: seq<Table>)
    requires sorted != [] && DistinctNames(sorted) && PlanIds(front, sorted[..|sorted| - 1])
    requires TableIds(ids, sorted[|sorted| - 1])
    ensures PlanIds(front + ids, sorted)
  {
    var before, t := sorted[..|sorted| - 1], sorted[|sorted| - 1];
    assert t in sorted;
    forall x | x in front ensures x.table != t.name && Listed(x, sorted) {
      var u :| u in before && x.table == u.name && (x.part.None? <==> u.parts == [])
        && (x.part.Some? ==> HasPart(u, x.part.value));
      var i :| 0 <= i < |before| && before[i] == u;
      assert sorted[i] == u;
    }
    ApartConcat(front, ids);
  }
}

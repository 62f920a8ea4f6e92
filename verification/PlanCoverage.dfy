/** Which tasks read a source row: the plan reads every selected row exactly once. */
module PlanCoverage {
  import opened Collections
  import opened Schema
  import opened Splicing
  import opened Placeholders
  import opened Planner
  import opened PlanResolution
  import MergeChunks

  datatype SourceRow = SourceRow(table: string, part: string, rid: nat)

  /** Oracle's ORA_HASH of a row id with a largest bucket, and its evaluation of a user's filter. */
  datatype Source = Source(hash: (nat, nat) -> nat, holds: (string, SourceRow) -> bool)

  ghost predicate GoodSource(src: Source) { forall rid, top :: src.hash(rid, top) <= top }

  predicate UserHolds(src: Source, where: string, row: SourceRow) { where == "" || src.holds(where, row) }

  predicate ChunkHolds(src: Source, f: ChunkFilter, row: SourceRow) {
    match f
    case Bucket(buckets, id) => buckets > 0 && src.hash(row.rid, buckets - 1) == id
    case Range(lo, hi) => lo <= row.rid <= hi
  }

  /** Does the task's query return the row? */
  predicate Selects(src: Source, task: TableTask, row: SourceRow) {
    && row.table == task.table.name
    && (task.partition.Some? ==> row.part == task.partition.value.name)
    && (task.where.chunk.Some? ==> ChunkHolds(src, task.where.chunk.value, row))
    && UserHolds(src, task.where.user, row)
  }

  function Reads(src: Source, row: SourceRow): TableTask -> bool { (t: TableTask) => Selects(src, t, row) }

  function ReadCount(src: Source, tasks: seq<TableTask>, row: SourceRow): nat { Count(tasks, Reads(src, row)) }

  /** Is the row in the table, in the given partition if there is one, and past the user's filter? */
  predicate InScope(src: Source, t: Table, part: Option<Partition>, o: TableOverride, row: SourceRow) {
    row.table == t.name && (part.Some? ==> row.part == part.value.name) && UserHolds(src, o.where, row)
  }

  // ---------- One table or partition

  lemma SingleOnce(src: Source, t: Table, part: Option<Partition>, o: TableOverride, row: SourceRow)
    ensures ReadCount(src, [SingleTask(t, part, o)], row) == if InScope(src, t, part, o, row) then 1 else 0
  {
    CountOnly([SingleTask(t, part, o)], Reads(src, row), if InScope(src, t, part, o, row) then 0 else 1);
  }

  /** Tasks over all the buckets of one hash. */
  ghost predicate HashList(tasks: seq<TableTask>, t: Table, part: Option<Partition>, o: TableOverride) {
    forall k :: 0 <= k < |tasks| ==>
      tasks[k].table == t && tasks[k].partition == part && tasks[k].where == Where(Some(Bucket(|tasks|, k)), o.where)
  }

  lemma HashOnce(src: Source, tasks: seq<TableTask>, t: Table, part: Option<Partition>, o: TableOverride,
      row: SourceRow)
    requires GoodSource(src) && HashList(tasks, t, part, o) && tasks != []
    ensures ReadCount(src, tasks, row) == if InScope(src, t, part, o, row) then 1 else 0
  {
    var h := if InScope(src, t, part, o, row) then src.hash(row.rid, |tasks| - 1) else |tasks|;
    assert src.hash(row.rid, |tasks| - 1) <= |tasks| - 1;
    CountOnly(tasks, Reads(src, row), h);
  }

  lemma HashSplitOnce(src: Source, t: Table, p: Partition, o: TableOverride, batchSize: int, workers: int,
      row: SourceRow)
    requires GoodSource(src)
    ensures ReadCount(src, HashSplit(t, p, o, batchSize, workers), row) ==
            if InScope(src, t, Some(p), o, row) then 1 else 0
  {
    var n := PartitionChunkCount(p.numRows, batchSize, workers);
    if n > 1 {
      assert HashList(HashTasks(t, Some(p), n, o), t, Some(p), o);
      HashOnce(src, HashTasks(t, Some(p), n, o), t, Some(p), o, row);
    } else {
      SingleOnce(src, t, Some(p), o, row);
    }
  }

  /** Tasks over row-id ranges read a row in scope as often as ranges cover it. */
  lemma RangesRead(src: Source, t: Table, part: Option<Partition>, chunks: seq<RowIdChunk>, o: TableOverride,
                   batchSize: int, mode: Option<TargetMode>, row: SourceRow)
    requires MergeChunks.Ascending(chunks)
    ensures ReadCount(src, ChunkTasks(t, part, chunks, o, batchSize, mode), row)
         == if InScope(src, t, part, o, row) then MergeChunks.CoverCount(chunks, row.rid) else 0
  {
    var tasks := ChunkTasks(t, part, chunks, o, batchSize, mode);
    if InScope(src, t, part, o, row) {
      CountParallel(tasks, Reads(src, row), chunks, (c: RowIdChunk) => MergeChunks.Covers(c, row.rid));
    } else {
      CountOnly(tasks, Reads(src, row), |tasks|);
    }
  }

  /** The row-id ranges cover a row exactly once. */
  ghost predicate TiledAt(chunks: seq<RowIdChunk>, rid: nat) {
    MergeChunks.Ascending(chunks) && MergeChunks.CoverCount(chunks, rid) == 1
  }

  lemma MergedOnce(src: Source, t: Table, part: Option<Partition>, chunks: seq<RowIdChunk>, n: int, o: TableOverride,
                   batchSize: int, mode: Option<TargetMode>, row: SourceRow)
    requires MergeChunks.Ascending(chunks)
    requires InScope(src, t, part, o, row) ==> TiledAt(chunks, row.rid)
    ensures ReadCount(src, ChunkTasks(t, part, MergeChunks.Merged(chunks, n), o, batchSize, mode), row)
         == if InScope(src, t, part, o, row) then 1 else 0
  {
    var merged := MergeChunks.Merged(chunks, n);
    if 0 < n < |chunks| {
      MergeChunks.MergedAscend(chunks, n);
    }
    if InScope(src, t, part, o, row) {
      MergeChunks.MergedCover(chunks, n, row.rid);
    }
    RangesRead(src, t, part, merged, o, batchSize, mode, row);
  }

  // ---------- What Oracle promises about its chunks

  /** The chunks that DBMS_PARALLEL_EXECUTE returns ascend and tile the rows: of the table if it has no
      partitions, and of each partition that has chunks at all. */
  ghost predicate Tiled(r: Resolver, cfg: MigrationConfig, t: Table, rows: set<SourceRow>) {
    r.ByRowId? && t.name in r.oracle.chunks ==>
      var chunks := r.oracle.chunks[t.name];
      if t.parts == [] then chunks != [] ==> TilesRows(chunks, t, None, rows)
      else forall k :: 0 <= k < |t.parts| ==>
             var group := Filter(chunks, InPartition(t.parts[k].name));
             group != [] ==> TilesRows(group, t, Some(t.parts[k]), rows)
  }

  ghost predicate TilesRows(chunks: seq<RowIdChunk>, t: Table, part: Option<Partition>, rows: set<SourceRow>) {
    && MergeChunks.Ascending(chunks)
    && forall row :: row in rows && row.table == t.name && (part.Some? ==> row.part == part.value.name) ==>
         MergeChunks.CoverCount(chunks, row.rid) == 1
  }

  // ---------- One table with its resolution

  ghost predicate DistinctParts(t: Table) {
    forall i, j :: 0 <= i < j < |t.parts| ==> t.parts[i].name != t.parts[j].name
  }

  /** The table's override selects the row: its partition is asked for, and the filter holds. */
  ghost predicate Wanted(src: Source, cfg: MigrationConfig, t: Table, row: SourceRow) {
    && row.table == t.name && UserHolds(src, cfg.Override(t).where, row)
    && (t.parts == [] || exists i :: 0 <= i < |t.parts| && Asked(t, cfg.Override(t), i) && t.parts[i].name == row.part)
  }

  lemma PartitionExpansionOnce(src: Source, r: Resolver, cfg: MigrationConfig, t: Table, k: nat, o: TableOverride,
      rows: set<SourceRow>, row: SourceRow)
    requires GoodSource(src) && k < |t.parts| && Tiled(r, cfg, t, rows) && row in rows
    ensures ReadCount(src, PartitionExpansion(r, cfg, t, t.parts[k], o), row) ==
            if InScope(src, t, Some(t.parts[k]), o, row) then 1 else 0
  {
    var p := t.parts[k];
    var chunks := if r.ByRowId? then TableChunks(r.oracle, t, cfg.workers * 4) else [];
    if chunks == [] {
      HashSplitOnce(src, t, p, o, if o.batchSize <= 0 then cfg.batchSize else o.batchSize, cfg.workers, row);
    } else {
      var group := Filter(chunks, InPartition(p.name));
      if group == [] {
        SingleOnce(src, t, Some(p), o, row);
      } else {
        MergedOnce(src, t, Some(p), group, MaxChunksPerPartition(cfg.workers), o, o.batchSize,
          Some(o.ResolveTargetMode()), row);
      }
    }
  }

  /** The position of the row's partition among the included ones, or beyond their end. */
  lemma PartitionOfRow(src: Source, cfg: MigrationConfig, t: Table, row: SourceRow) returns (h: nat)
    requires DistinctParts(t) && t.parts != [] && row.table == t.name && UserHolds(src, cfg.Override(t).where, row)
    ensures var included := Included(t, cfg.Override(t), |t.parts|);
            && (forall k :: 0 <= k < |included| ==> (t.parts[included[k]].name == row.part <==> k == h))
            && (h < |included| <==> Wanted(src, cfg, t, row))
  {
    var included := Included(t, cfg.Override(t), |t.parts|);
    AllAreAsked(t, cfg.Override(t));
    if Wanted(src, cfg, t, row) {
      var i :| 0 <= i < |t.parts| && Asked(t, cfg.Override(t), i) && t.parts[i].name == row.part;
      assert i in included;
      h :| 0 <= h < |included| && included[h] == i;
      forall k | 0 <= k < |included| ensures t.parts[included[k]].name == row.part <==> k == h {
        if k < h {
          assert included[k] < included[h];
        } else if h < k {
          assert included[h] < included[k];
        }
      }
    } else {
      h := |included|;
      forall k | 0 <= k < |included| ensures t.parts[included[k]].name != row.part {
        assert included[k] in included;
      }
    }
  }

  /** A list that has one block of tasks for each included partition reads every wanted row once. */
  lemma BlocksOnce(src: Source, cfg: MigrationConfig, t: Table, blocks: seq<seq<TableTask>>, row: SourceRow)
    requires DistinctParts(t) && t.parts != []
    requires var o, included := cfg.Override(t), Included(t, cfg.Override(t), |t.parts|);
             |blocks| == |included| && forall k :: 0 <= k < |blocks| ==>
               ReadCount(src, blocks[k], row) == if InScope(src, t, Some(t.parts[included[k]]), o, row) then 1 else 0
    ensures ReadCount(src, Flatten(blocks), row) == if Wanted(src, cfg, t, row) then 1 else 0
  {
    if row.table == t.name && UserHolds(src, cfg.Override(t).where, row) {
      var h := PartitionOfRow(src, cfg, t, row);
      CountBlocks(blocks, Reads(src, row), h);
    } else {
      CountNoBlocks(blocks, Reads(src, row));
    }
  }

  lemma {:induction false} Singletons<T>(s: seq<T>)
    ensures Flatten(seq(|s|, k requires 0 <= k < |s| => [s[k]])) == s
  {
    if s != [] {
      var blocks := seq(|s|, k requires 0 <= k < |s| => [s[k]]);
      var rest := s[1..];
      assert blocks[1..] == seq(|rest|, k requires 0 <= k < |rest| => [rest[k]]);
      Singletons(rest);
    }
  }

  lemma PartitionTasksOnce(src: Source, cfg: MigrationConfig, t: Table, row: SourceRow)
    requires DistinctParts(t) && t.parts != []
    ensures var o := cfg.Override(t);
            ReadCount(src, PartitionTasks(t, o, Included(t, o, |t.parts|)), row) ==
              if Wanted(src, cfg, t, row) then 1 else 0
  {
    var o := cfg.Override(t);
    var tasks := PartitionTasks(t, o, Included(t, o, |t.parts|));
    var blocks := seq(|tasks|, k requires 0 <= k < |tasks| => [tasks[k]]);
    forall k | 0 <= k < |blocks|
      ensures ReadCount(src, blocks[k], row) ==
              if InScope(src, t, Some(t.parts[Included(t, o, |t.parts|)[k]]), o, row) then 1 else 0
    {
      SingleOnce(src, t, Some(t.parts[Included(t, o, |t.parts|)[k]]), o, row);
    }
    Singletons(tasks);
    BlocksOnce(src, cfg, t, blocks, row);
  }

  lemma HashBlocksOnce(src: Source, cfg: MigrationConfig, t: Table, batchSize: int, row: SourceRow)
    requires GoodSource(src) && DistinctParts(t) && t.parts != []
    ensures var o := cfg.Override(t);
            ReadCount(src, Flatten(HashBlocks(t, o, Included(t, o, |t.parts|), batchSize, cfg.workers)), row)
              == if Wanted(src, cfg, t, row) then 1 else 0
  {
    var o := cfg.Override(t);
    var included := Included(t, o, |t.parts|);
    var blocks := HashBlocks(t, o, included, batchSize, cfg.workers);
    forall k | 0 <= k < |blocks|
      ensures ReadCount(src, blocks[k], row) == if InScope(src, t, Some(t.parts[included[k]]), o, row) then 1 else 0
    {
      HashSplitOnce(src, t, t.parts[included[k]], o, batchSize, cfg.workers, row);
    }
    BlocksOnce(src, cfg, t, blocks, row);
  }

  lemma ExpansionOnce(src: Source, r: Resolver, cfg: MigrationConfig, t: Table, rows: set<SourceRow>, row: SourceRow)
    requires GoodSource(src) && DistinctParts(t) && t.parts != [] && Tiled(r, cfg, t, rows) && row in rows
    ensures var o := cfg.Override(t);
            ReadCount(src, PartitionsExpansion(r, cfg, t, o, Included(t, o, |t.parts|)), row) ==
              if Wanted(src, cfg, t, row) then 1 else 0
  {
    var o := cfg.Override(t);
    var included := Included(t, o, |t.parts|);
    var blocks := ExpansionBlocks(r, cfg, t, o, included);
    forall k | 0 <= k < |blocks|
      ensures ReadCount(src, blocks[k], row) == if InScope(src, t, Some(t.parts[included[k]]), o, row) then 1 else 0
    {
      PartitionExpansionOnce(src, r, cfg, t, included[k], o, rows, row);
    }
    BlocksOnce(src, cfg, t, blocks, row);
  }

  lemma TableExpansionOnce(src: Source, r: Resolver, cfg: MigrationConfig, t: Table, chunkSize: int,
      rows: set<SourceRow>, row: SourceRow)
    requires GoodSource(src) && t.parts == [] && Tiled(r, cfg, t, rows) && row in rows
    requires TableExpansion(r, cfg, t, cfg.Override(t), chunkSize).Some?
    ensures ReadCount(src, TableExpansion(r, cfg, t, cfg.Override(t), chunkSize).value, row) ==
            if Wanted(src, cfg, t, row) then 1 else 0
  {
    var o := cfg.Override(t);
    var tasks := TableExpansion(r, cfg, t, o, chunkSize).value;
    if r.ByRowId? && t.name in r.oracle.chunks {
      var estimate := r.oracle.estimates[t.name] / chunkSize;
      var n := if estimate > MAX_TABLE_CHUNKS then MAX_TABLE_CHUNKS else estimate;
      MergedOnce(src, t, None, r.oracle.chunks[t.name], n, o, 0, None, row);
    } else {
      HashExpansion(r, cfg, t, o, chunkSize);
      HashOnce(src, tasks, t, None, o, row);
    }
  }

  /** Without row-id chunks from Oracle the expansion runs over the buckets of a hash. */
  lemma HashExpansion(r: Resolver, cfg: MigrationConfig, t: Table, o: TableOverride, chunkSize: int)
    requires TableExpansion(r, cfg, t, o, chunkSize).Some? && (r.ByRowId? ==> t.name !in r.oracle.chunks)
    ensures TableExpansion(r, cfg, t, o, chunkSize).value != []
    ensures HashList(TableExpansion(r, cfg, t, o, chunkSize).value, t, None, o)
  {
    var tasks := TableExpansion(r, cfg, t, o, chunkSize).value;
    if r.ByRowId? {
      var estimate := r.oracle.estimates[t.name] / chunkSize;
      var n := if estimate > MAX_TABLE_CHUNKS then MAX_TABLE_CHUNKS else estimate;
      assert MergeChunks.Merged(ChunksViaOraHash(n), n) == ChunksViaOraHash(n);
      assert tasks == ChunkTasks(t, None, ChunksViaOraHash(n), o, 0, None);
    } else {
      var size := if chunkSize <= 0 then cfg.batchSize else chunkSize;
      var n := if t.numRows / size > MAX_TABLE_CHUNKS then MAX_TABLE_CHUNKS else t.numRows / size;
      assert |tasks| == n;
      forall k | 0 <= k < |tasks|
        ensures tasks[k].table == t && tasks[k].partition == None
                && tasks[k].where == Where(Some(Bucket(|tasks|, k)), o.where)
      {
        assert tasks[k] == HashTask(t, None, n, k, o).(batchSize := 0, targetMode := None);
      }
    }
  }

  /** The tasks planned for a table read each wanted row once, and so does everything that the two
      phases may put in their place. */
  lemma PlannedOnce(src: Source, cfg: MigrationConfig, t: Table, row: SourceRow)
    requires GoodSource(src) && DistinctParts(t)
    ensures ReadCount(src, PlanTable(cfg, t).tasks, row) == if Wanted(src, cfg, t, row) then 1 else 0
  {
    var o := cfg.Override(t);
    var bs := if o.batchSize <= 0 then cfg.batchSize else o.batchSize;
    if t.parts != [] {
      PartitionTasksOnce(src, cfg, t, row);
      HashBlocksOnce(src, cfg, t, bs, row);
    } else {
      SingleOnce(src, t, None, o, row);
      var n := PartitionChunkCount(t.numRows, if o.chunkSize <= 0 then bs else o.chunkSize, cfg.workers);
      assert HashList(HashTasks(t, None, n, o), t, None, o);
      HashOnce(src, HashTasks(t, None, n, o), t, None, o, row);
    }
  }

  lemma FinalOnce(src: Source, r: Resolver, cfg: MigrationConfig, t: Table, rows: set<SourceRow>, row: SourceRow)
    requires GoodSource(src) && DistinctParts(t) && Tiled(r, cfg, t, rows) && row in rows
    ensures SoundRequest(PlanTable(cfg, t))
    ensures var g := SegmentOf(r, cfg, PlanTable(cfg, t));
            && ReadCount(src, Final(g), row) == (if Wanted(src, cfg, t, row) then 1 else 0)
            && (g.second.Some? ==> ReadCount(src, g.second.value, row) == if Wanted(src, cfg, t, row) then 1 else 0)
  {
    var p := PlanTable(cfg, t);
    PlanTableIsProper(r, cfg, t);
    PlannedOnce(src, cfg, t, row);
    if p.request.SplitPartitions? {
      ExpansionOnce(src, r, cfg, t, rows, row);
    }
    if p.request.SplitTable? && TableExpansion(r, cfg, t, p.override, p.request.chunkSize).Some? {
      TableExpansionOnce(src, r, cfg, t, p.request.chunkSize, rows, row);
    }
  }

  // ---------- The whole plan

  /** Some table that is not skipped wants the row. */
  ghost predicate Selected(src: Source, cfg: MigrationConfig, sorted: seq<Table>, row: SourceRow) {
    exists t :: t in sorted && !cfg.Override(t).ResolveTargetMode().Skip? && Wanted(src, cfg, t, row)
  }

  /** Each table is partitioned properly, and Oracle's chunks tile it. */
  ghost predicate GoodTables(r: Resolver, cfg: MigrationConfig, sorted: seq<Table>, rows: set<SourceRow>) {
    DistinctNames(sorted) && forall t :: t in sorted ==> DistinctParts(t) && Tiled(r, cfg, t, rows)
  }

  function PlanSegments(r: Resolver, cfg: MigrationConfig, sorted: seq<Table>): seq<Segment<TableTask>> {
    PlansAreSound(cfg, sorted);
    Segments(r, cfg, Plans(cfg, sorted))
  }

  lemma PlanSegmentsSnoc(r: Resolver, cfg: MigrationConfig, sorted: seq<Table>)
    requires sorted != []
    ensures var t := sorted[|sorted| - 1];
            SoundRequest(PlanTable(cfg, t)) && PlanSegments(r, cfg, sorted)
              == PlanSegments(r, cfg, sorted[..|sorted| - 1])
                 + (if cfg.Override(t).ResolveTargetMode().Skip? then [] else [SegmentOf(r, cfg, PlanTable(cfg, t))])
  {
    var t := sorted[|sorted| - 1];
    PlanTableIsProper(r, cfg, t);
    PlansAreSound(cfg, sorted[..|sorted| - 1]);
  }

  lemma SelectedSnoc(src: Source, cfg: MigrationConfig, sorted: seq<Table>, row: SourceRow)
    requires sorted != [] && DistinctNames(sorted)
    ensures var before, t := sorted[..|sorted| - 1], sorted[|sorted| - 1];
            var here := !cfg.Override(t).ResolveTargetMode().Skip? && Wanted(src, cfg, t, row);
            && (Selected(src, cfg, sorted, row) <==> Selected(src, cfg, before, row) || here)
            && !(Selected(src, cfg, before, row) && here)
  {
    var before, t := sorted[..|sorted| - 1], sorted[|sorted| - 1];
    assert forall x :: x in sorted <==> x in before || x == t;
    assert forall x :: x in before ==> x.name != t.name;
  }

  lemma IdealSnoc(src: Source, r: Resolver, cfg: MigrationConfig, sorted: seq<Table>, row: SourceRow)
    requires sorted != []
    ensures var before, t := sorted[..|sorted| - 1], sorted[|sorted| - 1];
            SoundRequest(PlanTable(cfg, t)) && ReadCount(src, Ideal(PlanSegments(r, cfg, sorted)), row)
              == ReadCount(src, Ideal(PlanSegments(r, cfg, before)), row)
                 + (if cfg.Override(t).ResolveTargetMode().Skip? then 0
                    else ReadCount(src, Final(SegmentOf(r, cfg, PlanTable(cfg, t))), row))
  {
    PlanSegmentsSnoc(r, cfg, sorted);
    var before, t := sorted[..|sorted| - 1], sorted[|sorted| - 1];
    var segs, front := PlanSegments(r, cfg, sorted), PlanSegments(r, cfg, before);
    if cfg.Override(t).ResolveTargetMode().Skip? {
      assert segs == front;
    } else {
      var g := SegmentOf(r, cfg, PlanTable(cfg, t));
      assert segs[..|segs| - 1] == front && segs[|segs| - 1] == g;
      CountConcat(Ideal(front), Final(g), Reads(src, row));
    }
  }

  /** With every placeholder replaced by its own expansion, each selected row is read once and no other
      row at all. */
  lemma {:induction false} IdealIsExact(src: Source, r: Resolver, cfg: MigrationConfig, sorted: seq<Table>,
      rows: set<SourceRow>, row: SourceRow)
    requires GoodSource(src) && GoodTables(r, cfg, sorted, rows) && row in rows
    ensures ReadCount(src, Ideal(PlanSegments(r, cfg, sorted)), row) == if Selected(src, cfg, sorted, row) then 1 else 0
  {
    if sorted != [] {
      var before, t := sorted[..|sorted| - 1], sorted[|sorted| - 1];
      assert t in sorted && forall x :: x in before ==> x in sorted;
      IdealIsExact(src, r, cfg, before, rows, row);
      IdealSnoc(src, r, cfg, sorted, row);
      SelectedSnoc(src, cfg, sorted, row);
      FinalOnce(src, r, cfg, t, rows, row);
    }
  }

  /** What resolving the placeholders of the plan leaves in DataTasks. */
  function ResolvedTasks(r: Resolver, cfg: MigrationConfig, sorted: seq<Table>): seq<TableTask> {
    PlansAreProper(r, cfg, sorted);
    SecondFits(PlanSegments(r, cfg, sorted));
    Outcome(PlanSegments(r, cfg, sorted))
  }

  /** Every source row is read by exactly one task if the plan selects it, and by none otherwise. */
  ghost predicate ReadsExactlyOnce(src: Source, cfg: MigrationConfig, sorted: seq<Table>, tasks: seq<TableTask>,
      rows: set<SourceRow>) {
    forall row :: row in rows ==> ReadCount(src, tasks, row) == if Selected(src, cfg, sorted, row) then 1 else 0
  }

  /** The plan's order is safe for the positions it recorded: no partitioned table that gets more tasks
      stands before an unpartitioned table that is cut into chunks. */
  ghost predicate OrderIsSafe(r: Resolver, cfg: MigrationConfig, sorted: seq<Table>) {
    InStep(PlanSegments(r, cfg, sorted))
  }

  /** The resolution cuts the table into chunks. */
  predicate IsCut(r: Resolver, cfg: MigrationConfig, t: Table) {
    var p := PlanTable(cfg, t);
    && !cfg.Override(t).ResolveTargetMode().Skip? && p.request.SplitTable?
    && TableExpansion(r, cfg, t, cfg.Override(t), p.request.chunkSize).Some?
  }

  /** Every table that is cut into chunks has a row to copy. */
  ghost predicate ChunkedTablesHaveRows(src: Source, r: Resolver, cfg: MigrationConfig, sorted: seq<Table>,
      rows: set<SourceRow>) {
    forall t :: t in sorted && IsCut(r, cfg, t) ==> exists row :: row in rows && Wanted(src, cfg, t, row)
  }

  /** Out of order, a row of some chunked table is read twice: by its chunk and by the placeholder. */
  lemma DoubledRow(src: Source, r: Resolver, cfg: MigrationConfig, sorted: seq<Table>, rows: set<SourceRow>)
      returns (row: SourceRow)
    requires GoodSource(src) && GoodTables(r, cfg, sorted, rows) && ChunkedTablesHaveRows(src, r, cfg, sorted, rows)
    requires !OrderIsSafe(r, cfg, sorted)
    ensures row in rows && ReadCount(src, ResolvedTasks(r, cfg, sorted), row) > 1
  {
    PlansAreProper(r, cfg, sorted);
    var segs := PlanSegments(r, cfg, sorted);
    var j := OutOfStepDoubles(segs);
    var t := PlansAre(cfg, sorted, j);
    assert IsCut(r, cfg, t);
    row :| row in rows && Wanted(src, cfg, t, row);
    PlannedOnce(src, cfg, t, row);
    FinalOnce(src, r, cfg, t, rows, row);
    assert Count(Outcome(segs), Reads(src, row)) >= Count(segs[j].tasks, Reads(src, row))
           + Count(segs[j].second.value, Reads(src, row));
  }

  /** The resolved plan reads every selected row exactly once, and no other row, if and only if its
      order is safe. */
  lemma PlanIsExactly(src: Source, r: Resolver, cfg: MigrationConfig, sorted: seq<Table>, rows: set<SourceRow>)
    requires GoodSource(src) && GoodTables(r, cfg, sorted, rows) && ChunkedTablesHaveRows(src, r, cfg, sorted, rows)
    ensures ReadsExactlyOnce(src, cfg, sorted, ResolvedTasks(r, cfg, sorted), rows) <==> OrderIsSafe(r, cfg, sorted)
  {
    if OrderIsSafe(r, cfg, sorted) {
      SafeOrderIsExact(src, r, cfg, sorted, rows);
    } else {
      var row := DoubledRow(src, r, cfg, sorted, rows);
    }
  }

  /** In a safe order the resolved plan is exact, whether or not the chunked tables have rows. */
  lemma SafeOrderIsExact(src: Source, r: Resolver, cfg: MigrationConfig, sorted: seq<Table>, rows: set<SourceRow>)
    requires GoodSource(src) && GoodTables(r, cfg, sorted, rows) && OrderIsSafe(r, cfg, sorted)
    ensures ReadsExactlyOnce(src, cfg, sorted, ResolvedTasks(r, cfg, sorted), rows)
  {
    PlansAreProper(r, cfg, sorted);
    InStepIsIdeal(PlanSegments(r, cfg, sorted));
    forall row | row in rows
      ensures ReadCount(src, ResolvedTasks(r, cfg, sorted), row) == if Selected(src, cfg, sorted, row) then 1 else 0
    {
      IdealIsExact(src, r, cfg, sorted, rows, row);
    }
  }
}

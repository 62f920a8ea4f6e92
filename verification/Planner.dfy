/** BuildPlan and the resolution of its placeholders. */
module Planner {
  import opened Collections
  import opened Schema
  import opened Splicing
  import opened Placeholders
  import ForeignKeys
  import MergeChunks
  import Pruning
  import TopoSort

  datatype ChunkStrategy = Unset | OraHash | RowId | Offset | Auto

  datatype TargetMode = Recreate | Truncate | Append | Skip | TruncatePartition

  datatype RangeFilter = RangeFilter(from: KeyText, upTo: KeyText)

  datatype TableOverride = TableOverride(
    where: string, partitionFilter: seq<string>, partitionRange: Option<RangeFilter>, targetMode: Option<TargetMode>,
    batchSize: int, fetchSize: int, maxParallel: int, chunkSize: int, chunkStrategy: ChunkStrategy)
  {
    function ResolveTargetMode(): (r: TargetMode)
      ensures targetMode.None? ==> r == Recreate
      ensures r == Skip <==> targetMode == Some(Skip)
    { if targetMode.Some? then targetMode.value else Recreate }
  }

  const NO_OVERRIDE := TableOverride("", [], None, None, 0, 0, 0, 0, Unset)

  datatype MigrationConfig = MigrationConfig(
    workers: int, batchSize: int, chunkStrategy: ChunkStrategy, overrides: map<string, TableOverride>)
  {
    /** The table's own settings; without any, all of its rows and partitions are copied. */
    function Override(t: Table): (o: TableOverride)
      ensures t.name in overrides ==> o == overrides[t.name]
      ensures t.name !in overrides ==> o.where == "" && o.partitionFilter == [] && o.partitionRange == None
      ensures t.name !in overrides ==> o.ResolveTargetMode() == Recreate
    {
      if t.name in overrides then overrides[t.name] else NO_OVERRIDE
    }
  }

  /** The generated part of a WHERE clause: a hash bucket or a row-id range. */
  datatype ChunkFilter = Bucket(buckets: nat, id: nat) | Range(lo: nat, hi: nat)

  /** The chunk filter, if any, and the user's filter, both of which must hold. */
  datatype Where = Where(chunk: Option<ChunkFilter>, user: string)

  datatype TableTask = TableTask(
    table: Table, partition: Option<Partition>, chunk: Option<RowIdChunk>, totalChunks: nat, where: Where,
    fetchSize: int, batchSize: int, maxParallel: int, targetMode: Option<TargetMode>)

  // ---------- Chunk counts and clauses

  const DEFAULT_BATCH := 50000
  const MAX_TABLE_CHUNKS := 256

  /** Into how many chunks a partition or table is cut; small ones are not cut at all. */
  function PartitionChunkCount(numRows: int, batchSize: int, workers: int): (n: nat)
    ensures n > 1 <==> numRows > 10 * (if batchSize <= 0 then DEFAULT_BATCH else batchSize)
    ensures 1 <= n && (n <= 8 || n <= workers * 4)
  {
    var bs := if batchSize <= 0 then DEFAULT_BATCH else batchSize;
    if numRows <= bs * 10 then 1
    else
      var maxChunks := if workers * 4 < 8 then 8 else workers * 4;
      var capped := if numRows / bs > maxChunks then maxChunks else numRows / bs;
      if capped < 2 then 2 else capped
  }

  /** When there are chunks, each has at least a batch of rows, and there are as many as that and the limits allow:
      eight, or four for each worker. */
  lemma ChunkCountIsFull(numRows: int, batchSize: int, workers: int)
    ensures var n, bs := PartitionChunkCount(numRows, batchSize, workers), if batchSize <= 0 then 50000 else batchSize;
            var most := if 4 * workers < 8 then 8 else 4 * workers;
            if numRows <= 10 * bs then n == 1
            else 8 <= n <= most && n * bs <= numRows && (n < most ==> numRows < (n + 1) * bs)
  {
    var n, bs := PartitionChunkCount(numRows, batchSize, workers), if batchSize <= 0 then 50000 else batchSize;
    if numRows > 10 * bs {
      var most := if 4 * workers < 8 then 8 else 4 * workers;
      Quotient(numRows, bs, 10);
      assert n == if numRows / bs > most then most else numRows / bs;
      hide PartitionChunkCount;
      Quotient(numRows, bs, n);
      Quotient(numRows, bs, n + 1);
    }
  }

  lemma Quotient(rows: int, size: int, n: int)
    requires size > 0
    ensures n <= rows / size <==> n * size <= rows
  {
    var q := rows / size;
    assert rows == q * size + rows % size && q * size <= rows < (q + 1) * size;
    if n <= q {
      Monotone(n, q, size);
    } else {
      Monotone(q + 1, n, size);
    }
  }

  lemma Monotone(a: int, b: int, c: int)
    requires a <= b && c > 0
    ensures a * c <= b * c
  {
    assert b * c == a * c + (b - a) * c;
  }

  function BuildChunkWhereClause(c: RowIdChunk, totalChunks: nat, user: string): Where {
    Where(Some(if c.start.Some? && c.end.Some? then Range(c.start.value, c.end.value) else Bucket(totalChunks, c.id)),
      user)
  }

  // ---------- Tasks

  function SingleTask(t: Table, part: Option<Partition>, o: TableOverride): TableTask {
    TableTask(t, part, None, 0, Where(None, o.where), o.fetchSize, o.batchSize, o.maxParallel,
      Some(o.ResolveTargetMode()))
  }

  function HashTask(t: Table, part: Option<Partition>, n: nat, id: nat, o: TableOverride): TableTask {
    TableTask(t, part, Some(RowIdChunk(id, None, None, "")), n, Where(Some(Bucket(n, id)), o.where),
              o.fetchSize, o.batchSize, o.maxParallel, Some(o.ResolveTargetMode()))
  }

  function HashTasks(t: Table, part: Option<Partition>, n: nat, o: TableOverride): seq<TableTask> {
    seq(n, id requires 0 <= id < n => HashTask(t, part, n, id, o))
  }

  /** The tasks of one partition when it is cut by hash. */
  function HashSplit(t: Table, p: Partition, o: TableOverride, batchSize: int, workers: int): seq<TableTask> {
    var n := PartitionChunkCount(p.numRows, batchSize, workers);
    if n > 1 then HashTasks(t, Some(p), n, o) else [SingleTask(t, Some(p), o)]
  }

  method HashSplitTasks(t: Table, p: Partition, o: TableOverride, batchSize: int, workers: int)
      returns (tasks: seq<TableTask>)
    ensures tasks == HashSplit(t, p, o, batchSize, workers)
  {
    var numChunks := PartitionChunkCount(p.numRows, batchSize, workers);
    if numChunks > 1 {
      tasks := [];
      for chunkID := 0 to numChunks
        invariant tasks == HashTasks(t, Some(p), numChunks, o)[..chunkID]
      {
        tasks := tasks + [HashTask(t, Some(p), numChunks, chunkID, o)];
      }
    } else {
      tasks := [SingleTask(t, Some(p), o)];
    }
  }

  // ---------- Partitions to copy

  predicate IsIncluded(t: Table, o: TableOverride, i: nat)
    requires i < |t.parts|
  {
    if o.partitionFilter != [] then t.parts[i].name in o.partitionFilter
    else if o.partitionRange.Some? && !Pruning.Unbounded(o.partitionRange.value.from) then
      Pruning.Overlaps(t.parts, i, o.partitionRange.value.from, o.partitionRange.value.upTo)
    else true
  }

  predicate InBounds(t: Table, included: seq<nat>) {
    forall k :: 0 <= k < |included| ==> included[k] < |t.parts|
  }

  /** The partitions a table's override selects, in order. */
  function Included(t: Table, o: TableOverride, n: nat): (r: seq<nat>)
    requires n <= |t.parts|
    ensures InBounds(t, r)
    ensures forall i: nat :: i in r <==> i < n && IsIncluded(t, o, i)
  {
    if n == 0 then [] else Included(t, o, n - 1) + (if IsIncluded(t, o, n - 1) then [n - 1] else [])
  }

  ghost predicate Ascending(indices: seq<nat>) { forall a, b :: 0 <= a < b < |indices| ==> indices[a] < indices[b] }

  lemma {:induction false} IncludedAscends(t: Table, o: TableOverride, n: nat)
    requires n <= |t.parts|
    ensures Ascending(Included(t, o, n)) && forall a :: 0 <= a < |Included(t, o, n)| ==> Included(t, o, n)[a] < n
  {
    if n > 0 {
      IncludedAscends(t, o, n - 1);
    }
  }

  /** The range has a lower end. */
  predicate HasRange(o: TableOverride) { o.partitionRange.Some? && o.partitionRange.value.from.text != "" }

  /** The partitions and the range are of one class of keys, so that keys are ordered. */
  ghost predicate RangeIsGood(t: Table, range: RangeFilter) {
    var numeric := range.from.number.Some?;
    Pruning.WellPartitioned(numeric, t.parts) && Pruning.GoodRange(numeric, range.from, range.upTo)
  }

  /** Can a row of the partition have a key in the range? */
  ghost predicate MeetsRange(t: Table, range: RangeFilter, i: nat)
    requires i < |t.parts|
  {
    Pruning.SomeKey(range.from.number.Some?, t.parts, i, range.from, range.upTo)
  }

  /** The override asks for the partition: by its name, or without names by a range that some key of the partition lies
      in, or without both. Where keys are not ordered, the comparisons with its bounds decide. */
  ghost predicate Asked(t: Table, o: TableOverride, i: nat)
    requires i < |t.parts|
  {
    && (o.partitionFilter != [] ==> t.parts[i].name in o.partitionFilter)
    && (o.partitionFilter == [] && HasRange(o) ==>
          var range := o.partitionRange.value;
          if RangeIsGood(t, range) then MeetsRange(t, range, i)
          else Pruning.Overlaps(t.parts, i, range.from, range.upTo))
  }

  /** What is included is what is asked for. */
  lemma IncludedIsAsked(t: Table, o: TableOverride, i: nat)
    requires i < |t.parts|
    ensures IsIncluded(t, o, i) <==> Asked(t, o, i)
  {
    if o.partitionFilter == [] && HasRange(o) {
      var range := o.partitionRange.value;
      if RangeIsGood(t, range) {
        Pruning.SelectedExactly(range.from.number.Some?, t.parts, i, range.from, range.upTo);
      }
    }
  }

  lemma AllAreAsked(t: Table, o: TableOverride)
    ensures Ascending(Included(t, o, |t.parts|))
    ensures forall i: nat :: i in Included(t, o, |t.parts|) <==> i < |t.parts| && Asked(t, o, i)
  {
    IncludedAscends(t, o, |t.parts|);
    forall i: nat ensures i in Included(t, o, |t.parts|) <==> i < |t.parts| && Asked(t, o, i) {
      if i < |t.parts| {
        IncludedIsAsked(t, o, i);
      }
    }
  }

  /** The partitions to copy, in order: the ones that are named, or those that can hold a key of the range, or all. */
  method ResolvePartitions(t: Table, o: TableOverride) returns (indices: seq<nat>)
    ensures indices == Included(t, o, |t.parts|) && Ascending(indices)
    ensures o.partitionFilter != [] ==>
              forall i: nat :: i in indices <==> i < |t.parts| && t.parts[i].name in o.partitionFilter
    ensures o.partitionFilter == [] && HasRange(o) && RangeIsGood(t, o.partitionRange.value) ==>
              forall i: nat :: i in indices <==> i < |t.parts| && MeetsRange(t, o.partitionRange.value, i)
    ensures o.partitionFilter == [] && !HasRange(o) ==> forall i: nat :: i in indices <==> i < |t.parts|
  {
    AllAreAsked(t, o);
    indices := [];
    if o.partitionFilter != [] {
      for i := 0 to |t.parts|
        invariant indices == Included(t, o, i)
      {
        if t.parts[i].name in o.partitionFilter {
          indices := indices + [i];
        }
      }
      return;
    }
    if o.partitionRange.Some? && !Pruning.Unbounded(o.partitionRange.value.from) {
      indices := Pruning.PrunePartitionsByRange(t.parts, o.partitionRange.value.from, o.partitionRange.value.upTo);
      IncludedByRange(t, o, |t.parts|);
      return;
    }
    for i := 0 to |t.parts|
      invariant indices == Included(t, o, i)
    {
      indices := indices + [i];
    }
  }

  lemma {:induction false} IncludedByRange(t: Table, o: TableOverride, n: nat)
    requires n <= |t.parts| && o.partitionFilter == []
    requires o.partitionRange.Some? && !Pruning.Unbounded(o.partitionRange.value.from)
    ensures Included(t, o, n) == Pruning.Selected(t.parts, o.partitionRange.value.from, o.partitionRange.value.upTo, n)
  {
    if n > 0 {
      IncludedByRange(t, o, n - 1);
    }
  }

  // ---------- The plan of one table

  datatype Request = Ready | SplitPartitions(included: seq<nat>) | SplitTable(chunkSize: int)

  /** The tasks planned for a table, and the placeholder resolution it asks for. */
  datatype TablePlan = TablePlan(table: Table, override: TableOverride, tasks: seq<TableTask>, request: Request)

  function PartitionTasks(t: Table, o: TableOverride, included: seq<nat>): seq<TableTask>
    requires InBounds(t, included)
  {
    seq(|included|, k requires 0 <= k < |included| => SingleTask(t, Some(t.parts[included[k]]), o))
  }

  /** The hash chunks of the selected partitions, partition by partition. */
  function HashBlocks(t: Table, o: TableOverride, included: seq<nat>, batchSize: int, workers: int): seq<seq<TableTask>>
    requires InBounds(t, included)
  {
    seq(|included|, k requires 0 <= k < |included| => HashSplit(t, t.parts[included[k]], o, batchSize, workers))
  }

  predicate NeedsSplit(t: Table, included: seq<nat>, batchSize: int, workers: int)
    requires InBounds(t, included)
  {
    exists k :: 0 <= k < |included| && PartitionChunkCount(t.parts[included[k]].numRows, batchSize, workers) > 1
  }

  function PlanTable(cfg: MigrationConfig, t: Table): TablePlan {
    var o := cfg.Override(t);
    var strategy := if o.chunkStrategy.Unset? then cfg.chunkStrategy else o.chunkStrategy;
    var bs := if o.batchSize <= 0 then cfg.batchSize else o.batchSize;
    if t.parts != [] then
      var included := Included(t, o, |t.parts|);
      var split := !strategy.Offset? && NeedsSplit(t, included, bs, cfg.workers);
      if split && strategy.OraHash? then
        TablePlan(t, o, Flatten(HashBlocks(t, o, included, bs, cfg.workers)), Ready)
      else
        TablePlan(t, o, PartitionTasks(t, o, included),
                  if split && (strategy.RowId? || strategy.Auto?) then SplitPartitions(included) else Ready)
    else
      var needed := o.chunkSize > 0 || (!strategy.Offset? && PartitionChunkCount(t.numRows, bs, cfg.workers) > 1);
      var chunkSize := if o.chunkSize <= 0 then bs else o.chunkSize;
      if strategy.Offset? || !needed then TablePlan(t, o, [SingleTask(t, None, o)], Ready)
      else if strategy.OraHash? then
        var n := PartitionChunkCount(t.numRows, chunkSize, cfg.workers);
        TablePlan(t, o, if n > 1 then HashTasks(t, None, n, o) else [SingleTask(t, None, o)], Ready)
      else TablePlan(t, o, [SingleTask(t, None, o)], SplitTable(chunkSize))
  }

  /** More than ten batches. */
  predicate IsBig(numRows: int, batchSize: int) { numRows > 10 * (if batchSize <= 0 then 50000 else batchSize) }

  ghost predicate HasChunks(tasks: seq<TableTask>) { exists i :: 0 <= i < |tasks| && tasks[i].chunk.Some? }

  ghost predicate SomeAskedIsBig(t: Table, o: TableOverride, batchSize: int) {
    exists i :: 0 <= i < |t.parts| && Asked(t, o, i) && IsBig(t.parts[i].numRows, batchSize)
  }

  lemma NeedsSplitExactly(t: Table, o: TableOverride, batchSize: int, workers: int)
    ensures NeedsSplit(t, Included(t, o, |t.parts|), batchSize, workers) <==> SomeAskedIsBig(t, o, batchSize)
  {
    var included := Included(t, o, |t.parts|);
    AllAreAsked(t, o);
    if NeedsSplit(t, included, batchSize, workers) {
      var k :| 0 <= k < |included| && PartitionChunkCount(t.parts[included[k]].numRows, batchSize, workers) > 1;
      assert included[k] in included;
    }
    if SomeAskedIsBig(t, o, batchSize) {
      var i :| 0 <= i < |t.parts| && Asked(t, o, i) && IsBig(t.parts[i].numRows, batchSize);
      assert i in included;
      var k :| 0 <= k < |included| && included[k] == i;
      assert PartitionChunkCount(t.parts[included[k]].numRows, batchSize, workers) > 1;
    }
  }

  /** Which partitioned tables are cut, and how: by hash at once, or later by row ids; if one of the partitions that are
      asked for is big. */
  lemma PartitionsCutExactly(cfg: MigrationConfig, t: Table)
    requires t.parts != []
    ensures var p, o := PlanTable(cfg, t), cfg.Override(t);
            var strategy := if o.chunkStrategy.Unset? then cfg.chunkStrategy else o.chunkStrategy;
            var big := SomeAskedIsBig(t, o, if o.batchSize <= 0 then cfg.batchSize else o.batchSize);
            && (HasChunks(p.tasks) <==> strategy == OraHash && big)
            && (p.request.SplitPartitions? <==> (strategy == RowId || strategy == Auto) && big)
            && !p.request.SplitTable?
  {
    var o := cfg.Override(t);
    var bs := if o.batchSize <= 0 then cfg.batchSize else o.batchSize;
    var included := Included(t, o, |t.parts|);
    NeedsSplitExactly(t, o, bs, cfg.workers);
    hide Included, SomeAskedIsBig;
    if NeedsSplit(t, included, bs, cfg.workers) {
      var k :| 0 <= k < |included| && PartitionChunkCount(t.parts[included[k]].numRows, bs, cfg.workers) > 1;
      var blocks := HashBlocks(t, o, included, bs, cfg.workers);
      assert HashSplit(t, t.parts[included[k]], o, bs, cfg.workers)[0].chunk.Some?;
      assert blocks[k] == HashSplit(t, t.parts[included[k]], o, bs, cfg.workers);
      BlockHasChunks(blocks, k);
    }
  }

  /** Which tables without partitions are cut, and how: if they are big or a chunk size is given. */
  lemma TableCutExactly(cfg: MigrationConfig, t: Table)
    requires t.parts == []
    ensures var p, o := PlanTable(cfg, t), cfg.Override(t);
            var strategy := if o.chunkStrategy.Unset? then cfg.chunkStrategy else o.chunkStrategy;
            var bs := if o.batchSize <= 0 then cfg.batchSize else o.batchSize;
            var cut := o.chunkSize > 0 || IsBig(t.numRows, bs);
            && (HasChunks(p.tasks) <==>
                  strategy == OraHash && cut && IsBig(t.numRows, if o.chunkSize > 0 then o.chunkSize else bs))
            && (p.request.SplitTable? <==> strategy != OraHash && strategy != Offset && cut)
            && !p.request.SplitPartitions?
  {
    var p := PlanTable(cfg, t);
    assert |p.tasks| > 0;
    assert p.tasks[0].chunk.Some? <==> |p.tasks| > 1;
    assert forall i :: 0 <= i < |p.tasks| ==> (p.tasks[i].chunk.Some? <==> p.tasks[0].chunk.Some?);
  }

  lemma BlockHasChunks(blocks: seq<seq<TableTask>>, k: nat)
    requires k < |blocks| && HasChunks(blocks[k])
    ensures HasChunks(Flatten(blocks))
    decreases k
  {
    var i :| 0 <= i < |blocks[k]| && blocks[k][i].chunk.Some?;
    if k == 0 {
      assert Flatten(blocks)[i] == blocks[0][i];
    } else {
      BlockHasChunks(blocks[1..], k - 1);
      var j :| 0 <= j < |Flatten(blocks[1..])| && Flatten(blocks[1..])[j].chunk.Some?;
      assert Flatten(blocks)[|blocks[0]| + j] == Flatten(blocks[1..])[j];
    }
  }

  method NeedsChunking(t: Table, included: seq<nat>, batchSize: int, workers: int) returns (needed: bool)
    requires InBounds(t, included)
    ensures needed == NeedsSplit(t, included, batchSize, workers)
  {
    for k := 0 to |included|
      invariant forall j :: 0 <= j < k ==> PartitionChunkCount(t.parts[included[j]].numRows, batchSize, workers) <= 1
    {
      if PartitionChunkCount(t.parts[included[k]].numRows, batchSize, workers) > 1 {
        return true;
      }
    }
    needed := false;
  }

  method PartitionTaskList(t: Table, o: TableOverride, included: seq<nat>) returns (tasks: seq<TableTask>)
    requires InBounds(t, included)
    ensures tasks == PartitionTasks(t, o, included)
  {
    tasks := [];
    for k := 0 to |included|
      invariant tasks == PartitionTasks(t, o, included)[..k]
    {
      tasks := tasks + [SingleTask(t, Some(t.parts[included[k]]), o)];
    }
  }

  method HashPartitionTaskList(t: Table, o: TableOverride, included: seq<nat>, batchSize: int, workers: int)
      returns (tasks: seq<TableTask>)
    requires InBounds(t, included)
    ensures tasks == Flatten(HashBlocks(t, o, included, batchSize, workers))
  {
    ghost var blocks := HashBlocks(t, o, included, batchSize, workers);
    tasks := [];
    for k := 0 to |included|
      invariant tasks == Flatten(blocks[..k])
    {
      var more := HashSplitTasks(t, t.parts[included[k]], o, batchSize, workers);
      FlattenNext(blocks, k);
      tasks := tasks + more;
    }
    assert blocks[..|included|] == blocks;
  }

  method PlanPartitions(cfg: MigrationConfig, t: Table, o: TableOverride, strategy: ChunkStrategy, bs: int)
      returns (p: TablePlan)
    requires t.parts != [] && o == cfg.Override(t)
    requires strategy == (if o.chunkStrategy.Unset? then cfg.chunkStrategy else o.chunkStrategy)
    requires bs == (if o.batchSize <= 0 then cfg.batchSize else o.batchSize)
    ensures p == PlanTable(cfg, t)
  {
    var included := ResolvePartitions(t, o);
    var needsChunking := false;
    if !strategy.Offset? {
      needsChunking := NeedsChunking(t, included, bs, cfg.workers);
    }
    if needsChunking && strategy.OraHash? {
      var tasks := HashPartitionTaskList(t, o, included, bs, cfg.workers);
      p := TablePlan(t, o, tasks, Ready);
    } else {
      var tasks := PartitionTaskList(t, o, included);
      p := TablePlan(t, o, tasks,
                     if needsChunking && (strategy.RowId? || strategy.Auto?) then SplitPartitions(included) else Ready);
    }
  }

  method PlanWhole(cfg: MigrationConfig, t: Table, o: TableOverride, strategy: ChunkStrategy, bs: int)
      returns (p: TablePlan)
    requires t.parts == [] && o == cfg.Override(t)
    requires strategy == (if o.chunkStrategy.Unset? then cfg.chunkStrategy else o.chunkStrategy)
    requires bs == (if o.batchSize <= 0 then cfg.batchSize else o.batchSize)
    ensures p == PlanTable(cfg, t)
  {
    var needsChunking := o.chunkSize > 0
      || (!strategy.Offset? && PartitionChunkCount(t.numRows, bs, cfg.workers) > 1);
    if strategy.Offset? || !needsChunking {
      return TablePlan(t, o, [SingleTask(t, None, o)], Ready);
    }
    var chunkSize := o.chunkSize;
    if chunkSize <= 0 {
      chunkSize := bs;
    }
    if strategy.OraHash? {
      var numChunks := PartitionChunkCount(t.numRows, chunkSize, cfg.workers);
      if numChunks > 1 {
        var tasks: seq<TableTask> := [];
        for chunkID := 0 to numChunks
          invariant tasks == HashTasks(t, None, numChunks, o)[..chunkID]
        {
          tasks := tasks + [HashTask(t, None, numChunks, chunkID, o)];
        }
        return TablePlan(t, o, tasks, Ready);
      }
      return TablePlan(t, o, [SingleTask(t, None, o)], Ready);
    }
    p := TablePlan(t, o, [SingleTask(t, None, o)], SplitTable(chunkSize));
  }
}

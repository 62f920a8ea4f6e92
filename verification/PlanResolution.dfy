/** The migration plan as BuildPlan leaves it, and the methods that put chunk tasks in the place of its
    placeholders. */
module PlanResolution {
  import opened Collections
  import opened Schema
  import opened Splicing
  import opened Placeholders
  import opened Planner
  import ForeignKeys
  import MergeChunks
  import TopoSort

  /** What Oracle answers: row estimates, and the row-id chunks of DBMS_PARALLEL_EXECUTE. A table that
      is missing stands for an error. */
  datatype Oracle = Oracle(estimates: map<string, int>, chunks: map<string, seq<RowIdChunk>>)

  /** The two ways of resolving: asking Oracle, or by hash from the statistics alone. */
  datatype Resolver = ByRowId(oracle: Oracle) | ByHash

  // ---------- Expansions

  function ChunkTask(t: Table, part: Option<Partition>, c: RowIdChunk, n: nat, o: TableOverride, batchSize: int,
      mode: Option<TargetMode>): TableTask {
    TableTask(t, part, Some(c), n, BuildChunkWhereClause(c, n, o.where), o.fetchSize, batchSize, o.maxParallel, mode)
  }

  function ChunkTasks(t: Table, part: Option<Partition>, chunks: seq<RowIdChunk>, o: TableOverride, batchSize: int,
      mode: Option<TargetMode>): seq<TableTask> {
    seq(|chunks|, k requires 0 <= k < |chunks| => ChunkTask(t, part, chunks[k], |chunks|, o, batchSize, mode))
  }

  method ChunkTaskList(t: Table, part: Option<Partition>, chunks: seq<RowIdChunk>, o: TableOverride, batchSize: int,
      mode: Option<TargetMode>)
    returns (tasks: seq<TableTask>)
    ensures tasks == ChunkTasks(t, part, chunks, o, batchSize, mode)
  {
    tasks := [];
    for k := 0 to |chunks|
      invariant tasks == ChunkTasks(t, part, chunks, o, batchSize, mode)[..k]
    {
      tasks := tasks + [ChunkTask(t, part, chunks[k], |chunks|, o, batchSize, mode)];
    }
  }

  function InPartition(name: string): RowIdChunk -> bool { (c: RowIdChunk) => c.partition == name }

  /** The row-id chunks grouped by the partition they lie in. */
  ghost predicate GroupedByPartition(chunks: seq<RowIdChunk>, groups: map<string, seq<RowIdChunk>>) {
    && (groups == map[] <==> chunks == [])
    && (forall c :: c in chunks ==> c.partition in groups)
    && (forall name :: name in groups ==> groups[name] == Filter(chunks, InPartition(name)) && groups[name] != [])
  }

  method ComputePartitionedChunks(chunks: seq<RowIdChunk>) returns (groups: map<string, seq<RowIdChunk>>)
    ensures GroupedByPartition(chunks, groups)
  {
    groups := map[];
    for k := 0 to |chunks|
      invariant GroupedByPartition(chunks[..k], groups)
    {
      GroupNext(chunks, k, groups);
      groups := AddToGroup(groups, chunks[k]);
    }
    assert chunks[..|chunks|] == chunks;
  }

  function AddToGroup(groups: map<string, seq<RowIdChunk>>, c: RowIdChunk): map<string, seq<RowIdChunk>> {
    groups[c.partition := (if c.partition in groups then groups[c.partition] else []) + [c]]
  }

  lemma GroupNext(chunks: seq<RowIdChunk>, k: nat, groups: map<string, seq<RowIdChunk>>)
    requires k < |chunks| && GroupedByPartition(chunks[..k], groups)
    ensures GroupedByPartition(chunks[..k + 1], AddToGroup(groups, chunks[k]))
  {
    var next := AddToGroup(groups, chunks[k]);
    assert chunks[..k + 1] == chunks[..k] + [chunks[k]];
    assert chunks[k].partition in next;
    forall n | n in next ensures next[n] == Filter(chunks[..k + 1], InPartition(n)) && next[n] != [] {
      FilterConcat(chunks[..k], [chunks[k]], InPartition(n));
      assert [chunks[k]][1..] == [];
      if n !in groups {
        NoneLeft(chunks[..k], n);
      }
    }
  }

  lemma {:induction false} NoneLeft(chunks: seq<RowIdChunk>, name: string)
    requires forall c :: c in chunks ==> c.partition != name
    ensures Filter(chunks, InPartition(name)) == []
  {
    if chunks != [] {
      assert forall c :: c in chunks[1..] ==> c in chunks;
      NoneLeft(chunks[1..], name);
    }
  }

  function MaxChunksPerPartition(workers: int): int { if workers * 4 < 8 then 8 else workers * 4 }

  /** The row-id chunks of one table, unless Oracle has none to offer. */
  function TableChunks(oracle: Oracle, t: Table, numChunks: int): seq<RowIdChunk> {
    if numChunks > 1 && t.name in oracle.chunks then oracle.chunks[t.name] else []
  }

  /** What replaces the placeholder of one partition. */
  function PartitionExpansion(r: Resolver, cfg: MigrationConfig, t: Table, p: Partition,
      o: TableOverride): seq<TableTask> {
    var chunks := if r.ByRowId? then TableChunks(r.oracle, t, cfg.workers * 4) else [];
    if chunks == [] then HashSplit(t, p, o, if o.batchSize <= 0 then cfg.batchSize else o.batchSize, cfg.workers)
    else
      var group := Filter(chunks, InPartition(p.name));
      if group == [] then [SingleTask(t, Some(p), o)]
      else ChunkTasks(t, Some(p), MergeChunks.Merged(group, MaxChunksPerPartition(cfg.workers)), o, o.batchSize,
        Some(o.ResolveTargetMode()))
  }

  function ExpansionBlocks(r: Resolver, cfg: MigrationConfig, t: Table, o: TableOverride,
      included: seq<nat>): seq<seq<TableTask>>
    requires InBounds(t, included)
  {
    seq(|included|, k requires 0 <= k < |included| => PartitionExpansion(r, cfg, t, t.parts[included[k]], o))
  }

  /** What replaces the placeholders of a partitioned table, partition by partition. */
  function PartitionsExpansion(r: Resolver, cfg: MigrationConfig, t: Table, o: TableOverride,
      included: seq<nat>): seq<TableTask>
    requires InBounds(t, included)
  {
    Flatten(ExpansionBlocks(r, cfg, t, o, included))
  }

  /** The hash chunks that stand in for row-id chunks when Oracle refuses them. */
  function ChunksViaOraHash(numChunks: nat): seq<RowIdChunk> {
    seq(numChunks, i requires 0 <= i < numChunks => RowIdChunk(i, None, None, ""))
  }

  /** What replaces the placeholder of an unpartitioned table; nothing if it stays whole. */
  function TableExpansion(r: Resolver, cfg: MigrationConfig, t: Table, o: TableOverride,
      chunkSize: int): Option<seq<TableTask>> {
    if r.ByHash? then
      var size := if chunkSize <= 0 then cfg.batchSize else chunkSize;
      if size <= 0 || t.numRows / size < 2 then None
      else
        var n := if t.numRows / size > MAX_TABLE_CHUNKS then MAX_TABLE_CHUNKS else t.numRows / size;
        Some(seq(n, id requires 0 <= id < n => HashTask(t, None, n, id, o).(batchSize := 0, targetMode := None)))
    else if t.name !in r.oracle.estimates || chunkSize <= 0 || r.oracle.estimates[t.name] / chunkSize < 2 then None
    else
      var n := if r.oracle.estimates[t.name] / chunkSize > MAX_TABLE_CHUNKS then MAX_TABLE_CHUNKS
        else r.oracle.estimates[t.name] / chunkSize;
      var chunks := if t.name in r.oracle.chunks then r.oracle.chunks[t.name] else ChunksViaOraHash(n);
      if chunks == [] then None
      else Some(ChunkTasks(t, None, MergeChunks.Merged(chunks, n), o, 0, None))
  }

  ghost predicate ByRanges(tasks: seq<TableTask>) {
    forall i :: 0 <= i < |tasks| ==> tasks[i].where.chunk.Some? && tasks[i].where.chunk.value.Range?
  }

  /** Where Oracle offers row-id chunks of a partition, it is cut by them, into as many as there are, but no more than
      eight or four for each worker. */
  lemma PartitionIsCutByRowId(r: Resolver, cfg: MigrationConfig, t: Table, p: Partition, o: TableOverride)
    requires r.ByRowId? && cfg.workers > 0 && t.name in r.oracle.chunks
    requires var group := Filter(r.oracle.chunks[t.name], InPartition(p.name));
             group != [] && MergeChunks.Ascending(group)
    ensures var group := Filter(r.oracle.chunks[t.name], InPartition(p.name));
            var most, tasks := if 4 * cfg.workers < 8 then 8 else 4 * cfg.workers, PartitionExpansion(r, cfg, t, p, o);
            ByRanges(tasks) && |tasks| == if |group| < most then |group| else most
  {
    var group := Filter(r.oracle.chunks[t.name], InPartition(p.name));
    if MaxChunksPerPartition(cfg.workers) < |group| {
      MergeChunks.MergedAscend(group, MaxChunksPerPartition(cfg.workers));
    }
  }

  /** The same for a table without partitions; without chunks from Oracle its chunks are by hash. */
  lemma TableIsCutByRowId(r: Resolver, cfg: MigrationConfig, t: Table, o: TableOverride, chunkSize: int)
    requires r.ByRowId? && TableExpansion(r, cfg, t, o, chunkSize).Some?
    requires t.name in r.oracle.chunks && MergeChunks.Ascending(r.oracle.chunks[t.name])
    ensures ByRanges(TableExpansion(r, cfg, t, o, chunkSize).value)
  {
    var n := if r.oracle.estimates[t.name] / chunkSize > 256 then 256 else r.oracle.estimates[t.name] / chunkSize;
    if n < |r.oracle.chunks[t.name]| {
      MergeChunks.MergedAscend(r.oracle.chunks[t.name], n);
    }
  }

  /** The rows that the statistics tell, and how many a chunk is to have. */
  function KnownRows(r: Resolver, t: Table): int
    requires r.ByRowId? ==> t.name in r.oracle.estimates
  {
    if r.ByHash? then t.numRows else r.oracle.estimates[t.name]
  }

  function SizeOf(r: Resolver, cfg: MigrationConfig, chunkSize: int): int {
    if r.ByHash? && chunkSize <= 0 then cfg.batchSize else chunkSize
  }

  lemma ExpansionCount(r: Resolver, cfg: MigrationConfig, t: Table, o: TableOverride, chunkSize: int)
    requires (r.ByRowId? ==> t.name in r.oracle.estimates) && SizeOf(r, cfg, chunkSize) > 0
    ensures var x, q := TableExpansion(r, cfg, t, o, chunkSize), KnownRows(r, t) / SizeOf(r, cfg, chunkSize);
            && (x.Some? ==> 2 <= q && 0 < |x.value| <= 256 && |x.value| <= q)
            && (r.ByHash? && 2 <= q ==> x.Some? && (|x.value| == 256 || |x.value| == q))
  {
  }

  /** The chunks are no more than 256, and each stands for a whole chunk of the rows that are known of; by hash there
      are as many as that allows. */
  lemma ExpansionIsBounded(r: Resolver, cfg: MigrationConfig, t: Table, o: TableOverride, chunkSize: int)
    requires r.ByRowId? ==> t.name in r.oracle.estimates
    ensures var x, rows := TableExpansion(r, cfg, t, o, chunkSize), KnownRows(r, t);
            var size := SizeOf(r, cfg, chunkSize);
            && (x.Some? ==> size > 0 && 2 * size <= rows && 0 < |x.value| <= 256 && |x.value| * size <= rows)
            && (r.ByHash? && size > 0 && 2 * size <= rows ==>
                  x.Some? && (|x.value| == 256 || rows < (|x.value| + 1) * size))
  {
    var x, rows, size := TableExpansion(r, cfg, t, o, chunkSize), KnownRows(r, t), SizeOf(r, cfg, chunkSize);
    if size > 0 {
      ExpansionCount(r, cfg, t, o, chunkSize);
      hide TableExpansion, KnownRows, SizeOf;
      Quotient(rows, size, 2);
      if x.Some? {
        Quotient(rows, size, |x.value|);
        Quotient(rows, size, |x.value| + 1);
      }
    }
  }

  // ---------- The plan

  datatype ChunkableTask = ChunkableTask(table: Table, override: TableOverride, chunkSize: int, idx: nat)

  datatype PartitionChunkTask = PartitionChunkTask(table: Table, override: TableOverride, included: seq<nat>, idx: nat,
      cnt: nat)

  /** The plans of the tables that are not skipped, in sorted order. */
  function Plans(cfg: MigrationConfig, sorted: seq<Table>): seq<TablePlan> {
    if sorted == [] then []
    else
      var t := sorted[|sorted| - 1];
      Plans(cfg, sorted[..|sorted| - 1])
        + (if cfg.Override(t).ResolveTargetMode().Skip? then [] else [PlanTable(cfg, t)])
  }

  predicate SoundRequest(p: TablePlan) { p.request.SplitPartitions? ==> InBounds(p.table, p.request.included) }

  /** A table's segment: its planned tasks, and what the two phases make of them. */
  function SegmentOf(r: Resolver, cfg: MigrationConfig, p: TablePlan): Segment<TableTask>
    requires SoundRequest(p)
  {
    Segment(p.tasks,
            if p.request.SplitPartitions?
              then Some(PartitionsExpansion(r, cfg, p.table, p.override, p.request.included)) else None,
            if p.request.SplitTable? then TableExpansion(r, cfg, p.table, p.override, p.request.chunkSize) else None)
  }

  ghost predicate AllSound(plans: seq<TablePlan>) { forall i :: 0 <= i < |plans| ==> SoundRequest(plans[i]) }

  function Segments(r: Resolver, cfg: MigrationConfig, plans: seq<TablePlan>): seq<Segment<TableTask>>
    requires AllSound(plans)
  {
    seq(|plans|, i requires 0 <= i < |plans| => SegmentOf(r, cfg, plans[i]))
  }

  lemma {:induction false} PlansAreSound(cfg: MigrationConfig, sorted: seq<Table>)
    ensures AllSound(Plans(cfg, sorted))
  {
    if sorted != [] {
      PlansAreSound(cfg, sorted[..|sorted| - 1]);
    }
  }

  function PlannedTasks(plans: seq<TablePlan>): seq<TableTask> {
    if plans == [] then [] else PlannedTasks(plans[..|plans| - 1]) + plans[|plans| - 1].tasks
  }

  function PartItems(plans: seq<TablePlan>): seq<PartitionChunkTask> {
    if plans == [] then []
    else
      var before, p := plans[..|plans| - 1], plans[|plans| - 1];
      PartItems(before)
      + (if p.request.SplitPartitions? then
           [PartitionChunkTask(p.table, p.override, p.request.included, |PlannedTasks(before)|, |p.tasks|)] else [])
  }

  function ChunkItems(plans: seq<TablePlan>): seq<ChunkableTask> {
    if plans == [] then []
    else
      var before, p := plans[..|plans| - 1], plans[|plans| - 1];
      ChunkItems(before)
      + (if p.request.SplitTable? then [ChunkableTask(p.table, p.override, p.request.chunkSize, |PlannedTasks(before)|)]
        else [])
  }

  predicate SoundItems(items: seq<PartitionChunkTask>) {
    forall i :: 0 <= i < |items| ==> InBounds(items[i].table, items[i].included)
  }

  function PartEdits(r: Resolver, cfg: MigrationConfig, items: seq<PartitionChunkTask>): seq<Edit<TableTask>>
    requires SoundItems(items)
  {
    seq(|items|, i requires 0 <= i < |items| =>
      Edit(items[i].idx, items[i].cnt,
        PartitionsExpansion(r, cfg, items[i].table, items[i].override, items[i].included)))
  }

  function ChunkEdits(r: Resolver, cfg: MigrationConfig, items: seq<ChunkableTask>): seq<Edit<TableTask>> {
    if items == [] then []
    else
      var x := TableExpansion(r, cfg, items[0].table, items[0].override, items[0].chunkSize);
      (if x.Some? then [Edit(items[0].idx, 1, x.value)] else []) + ChunkEdits(r, cfg, items[1..])
  }

  method PlanOf(cfg: MigrationConfig, t: Table, o: TableOverride) returns (p: TablePlan)
    requires o == cfg.Override(t)
    ensures p == PlanTable(cfg, t) && p.table == t && p.override == o
  {
    var strategy := o.chunkStrategy;
    if strategy.Unset? {
      strategy := cfg.chunkStrategy;
    }
    var bs := o.batchSize;
    if bs <= 0 {
      bs := cfg.batchSize;
    }
    if t.parts != [] {
      p := PlanPartitions(cfg, t, o, strategy, bs);
    } else {
      p := PlanWhole(cfg, t, o, strategy, bs);
    }
  }

  class MigrationPlan {
    var ddlOrder: seq<Table>
    var constraintOrder: seq<Table>
    var dataTasks: seq<TableTask>
    var partitionChunkTables: seq<PartitionChunkTask>
    var chunkableTasks: seq<ChunkableTask>

    constructor ()
      ensures ddlOrder == [] && constraintOrder == [] && dataTasks == [] && partitionChunkTables == []
              && chunkableTasks == []
    {
      ddlOrder, constraintOrder, dataTasks, partitionChunkTables, chunkableTasks := [], [], [], [], [];
    }

    /** The plan holds the tasks and the placeholder items of these tables. */
    ghost predicate Holds(cfg: MigrationConfig, plans: seq<TablePlan>)
      reads this
    {
      dataTasks == PlannedTasks(plans) && partitionChunkTables == PartItems(plans)
        && chunkableTasks == ChunkItems(plans)
    }

    /** Appends the tasks of one table, and notes where its placeholders are. */
    method AddTable(cfg: MigrationConfig, t: Table, ghost plans: seq<TablePlan>)
      requires Holds(cfg, plans)
      modifies this`dataTasks, this`partitionChunkTables, this`chunkableTasks
      ensures Holds(cfg, plans + [PlanTable(cfg, t)])
    {
      hide PlanTable;
      var o := cfg.Override(t);
      var p := PlanOf(cfg, t, o);
      assert (plans + [p])[..|plans|] == plans;
      match p.request {
        case SplitPartitions(included) =>
          partitionChunkTables := partitionChunkTables + [PartitionChunkTask(t, o, included, |dataTasks|, |p.tasks|)];
        case SplitTable(chunkSize) =>
          chunkableTasks := chunkableTasks + [ChunkableTask(t, o, chunkSize, |dataTasks|)];
        case Ready =>
      }
      dataTasks := dataTasks + p.tasks;
    }

    /** Puts new tasks in the place of cnt tasks. */
    method Replace(idx: nat, cnt: nat, tasks: seq<TableTask>)
      requires idx + cnt <= |dataTasks|
      modifies this`dataTasks
      ensures dataTasks == Splice(old(dataTasks), Edit(idx, cnt, tasks))
    {
      dataTasks := dataTasks[..idx] + tasks + dataTasks[idx + cnt..];
    }

    /** Puts the chunk tasks of every partitioned table in the place of its placeholders, from the
        last table to the first. */
    method ResolvePartitionChunks(r: Resolver, cfg: MigrationConfig)
      requires SoundItems(partitionChunkTables)
      requires Fit(|dataTasks|, 0, PartEdits(r, cfg, partitionChunkTables))
      modifies this`dataTasks, this`partitionChunkTables
      ensures dataTasks == Substitute(old(dataTasks), PartEdits(r, cfg, old(partitionChunkTables)), 0)
      ensures partitionChunkTables == []
    {
      ghost var edits := PartEdits(r, cfg, partitionChunkTables);
      ghost var tasks := dataTasks;
      assert edits[|edits|..] == [];
      var items := partitionChunkTables;
      for i := |items| downto 0
        invariant Fit(|tasks|, 0, edits[i..]) && dataTasks == Substitute(tasks, edits[i..], 0)
      {
        var pct := items[i];
        var replacement := ExpandPartitions(r, cfg, pct.table, pct.override, pct.included);
        BackStep(tasks, edits, i);
        Replace(pct.idx, pct.cnt, replacement);
      }
      assert edits[0..] == edits;
      partitionChunkTables := [];
    }

    /** Puts the chunk tasks of every table that is worth it in the place of its placeholder. */
    method ResolveChunks(r: Resolver, cfg: MigrationConfig)
      requires Fit(|dataTasks|, 0, ChunkEdits(r, cfg, chunkableTasks))
      modifies this`dataTasks, this`chunkableTasks
      ensures dataTasks == Substitute(old(dataTasks), ChunkEdits(r, cfg, old(chunkableTasks)), 0)
      ensures chunkableTasks == []
    {
      var items := chunkableTasks;
      ghost var tasks := dataTasks;
      assert items[|items|..] == [];
      assert items[0..] == items;
      for i := |items| downto 0
        invariant Fit(|tasks|, 0, ChunkEdits(r, cfg, items[i..]))
                  && dataTasks == Substitute(tasks, ChunkEdits(r, cfg, items[i..]), 0)
      {
        var ct := items[i];
        var chunkTasks := ExpandTable(r, cfg, ct.table, ct.override, ct.chunkSize);
        ChunkStep(r, cfg, items, i, tasks);
        if chunkTasks.Some? {
          Replace(ct.idx, 1, chunkTasks.value);
        }
      }
      chunkableTasks := [];
    }
  }

  /** One step of working backwards through the items, of which some are left alone. */
  lemma ChunkStep(r: Resolver, cfg: MigrationConfig, items: seq<ChunkableTask>, i: nat, tasks: seq<TableTask>)
    requires i < |items| && Fit(|tasks|, 0, ChunkEdits(r, cfg, items))
    ensures Fit(|tasks|, 0, ChunkEdits(r, cfg, items[i..])) && Fit(|tasks|, 0, ChunkEdits(r, cfg, items[i + 1..]))
    ensures var now := Substitute(tasks, ChunkEdits(r, cfg, items[i + 1..]), 0);
            var x := TableExpansion(r, cfg, items[i].table, items[i].override, items[i].chunkSize);
            if x.Some? then
              && items[i].idx + 1 <= |now|
              && Splice(now, Edit(items[i].idx, 1, x.value)) == Substitute(tasks, ChunkEdits(r, cfg, items[i..]), 0)
            else now == Substitute(tasks, ChunkEdits(r, cfg, items[i..]), 0)
  {
    assert items[i..][1..] == items[i + 1..];
    ChunkEditsFit(r, cfg, items, i, |tasks|);
    if i + 1 < |items| {
      ChunkEditsFit(r, cfg, items, i + 1, |tasks|);
    }
    var edits := ChunkEdits(r, cfg, items[i..]);
    if TableExpansion(r, cfg, items[i].table, items[i].override, items[i].chunkSize).Some? {
      assert edits[1..] == ChunkEdits(r, cfg, items[i + 1..]);
      SpliceBefore(tasks, edits);
    } else {
      assert edits == ChunkEdits(r, cfg, items[i + 1..]);
    }
  }

  lemma ChunkEditsFit(r: Resolver, cfg: MigrationConfig, items: seq<ChunkableTask>, i: nat, n: nat)
    requires i < |items| && Fit(n, 0, ChunkEdits(r, cfg, items))
    ensures Fit(n, 0, ChunkEdits(r, cfg, items[i..]))
  {
    ChunkEditsConcat(r, cfg, items[..i], items[i..]);
    assert items == items[..i] + items[i..];
    var a, b := ChunkEdits(r, cfg, items[..i]), ChunkEdits(r, cfg, items[i..]);
    FitSuffix(n, a + b, |a|);
    assert (a + b)[|a|..] == b;
  }

  lemma {:induction false} ChunkEditsConcat(r: Resolver, cfg: MigrationConfig, a: seq<ChunkableTask>,
      b: seq<ChunkableTask>)
    ensures ChunkEdits(r, cfg, a + b) == ChunkEdits(r, cfg, a) + ChunkEdits(r, cfg, b)
  {
    if a == [] {
      assert a + b == b;
    } else {
      assert (a + b)[1..] == a[1..] + b;
      ChunkEditsConcat(r, cfg, a[1..], b);
      var x := TableExpansion(r, cfg, a[0].table, a[0].override, a[0].chunkSize);
      var head := if x.Some? then [Edit(a[0].idx, 1, x.value)] else [];
      assert head + (ChunkEdits(r, cfg, a[1..]) + ChunkEdits(r, cfg, b))
             == (head + ChunkEdits(r, cfg, a[1..])) + ChunkEdits(r, cfg, b);
    }
  }

  method ExpandPartition(r: Resolver, cfg: MigrationConfig, t: Table, p: Partition, o: TableOverride,
      groups: map<string, seq<RowIdChunk>>)
    returns (tasks: seq<TableTask>)
    requires GroupedByPartition(if r.ByRowId? then TableChunks(r.oracle, t, cfg.workers * 4) else [], groups)
    ensures tasks == PartitionExpansion(r, cfg, t, p, o)
  {
    ghost var chunks := if r.ByRowId? then TableChunks(r.oracle, t, cfg.workers * 4) else [];
    if groups != map[] {
      if p.name !in groups {
        NoneLeft(chunks, p.name);
        return [SingleTask(t, Some(p), o)];
      }
      var merged := MergeChunks.MergeChunks(groups[p.name], MaxChunksPerPartition(cfg.workers));
      tasks := ChunkTaskList(t, Some(p), merged, o, o.batchSize, Some(o.ResolveTargetMode()));
    } else {
      tasks := HashSplitTasks(t, p, o, if o.batchSize <= 0 then cfg.batchSize else o.batchSize, cfg.workers);
    }
  }

  method ExpandPartitions(r: Resolver, cfg: MigrationConfig, t: Table, o: TableOverride, included: seq<nat>)
      returns (tasks: seq<TableTask>)
    requires InBounds(t, included)
    ensures tasks == PartitionsExpansion(r, cfg, t, o, included)
  {
    var groups := ComputePartitionedChunks(if r.ByRowId? then TableChunks(r.oracle, t, cfg.workers * 4) else []);
    ghost var blocks := ExpansionBlocks(r, cfg, t, o, included);
    tasks := [];
    for k := 0 to |included|
      invariant tasks == Flatten(blocks[..k])
    {
      var more := ExpandPartition(r, cfg, t, t.parts[included[k]], o, groups);
      FlattenNext(blocks, k);
      tasks := tasks + more;
    }
    assert blocks[..|included|] == blocks;
  }

  method ExpandTable(r: Resolver, cfg: MigrationConfig, t: Table, o: TableOverride, chunkSize: int)
      returns (tasks: Option<seq<TableTask>>)
    ensures tasks == TableExpansion(r, cfg, t, o, chunkSize)
  {
    if r.ByHash? {
      var size := chunkSize;
      if size <= 0 {
        size := cfg.batchSize;
      }
      if size <= 0 || t.numRows / size < 2 {
        return None;
      }
      var n := t.numRows / size;
      if n > MAX_TABLE_CHUNKS {
        n := MAX_TABLE_CHUNKS;
      }
      var list: seq<TableTask> := [];
      for id := 0 to n
        invariant |list| == id
        invariant forall k :: 0 <= k < id ==> list[k] == HashTask(t, None, n, k, o).(batchSize := 0, targetMode := None)
      {
        list := list + [HashTask(t, None, n, id, o).(batchSize := 0, targetMode := None)];
      }
      assert list == TableExpansion(r, cfg, t, o, chunkSize).value;
      return Some(list);
    }
    if t.name !in r.oracle.estimates || chunkSize <= 0 || r.oracle.estimates[t.name] / chunkSize < 2 {
      return None;
    }
    var n := r.oracle.estimates[t.name] / chunkSize;
    if n > MAX_TABLE_CHUNKS {
      n := MAX_TABLE_CHUNKS;
    }
    var chunks := if t.name in r.oracle.chunks then r.oracle.chunks[t.name] else ChunksViaOraHash(n);
    if chunks == [] {
      return None;
    }
    var merged := MergeChunks.MergeChunks(chunks, n);
    var list := ChunkTaskList(t, None, merged, o, 0, None);
    tasks := Some(list);
  }

  // ---------- The plan and its segments

  lemma SegmentsSnoc(r: Resolver, cfg: MigrationConfig, plans: seq<TablePlan>)
    requires AllSound(plans) && plans != []
    ensures AllSound(plans[..|plans| - 1]) && SoundRequest(plans[|plans| - 1])
    ensures var segs := Segments(r, cfg, plans);
            segs[..|plans| - 1] == Segments(r, cfg, plans[..|plans| - 1])
              && segs[|plans| - 1] == SegmentOf(r, cfg, plans[|plans| - 1])
  {
    assert Segments(r, cfg, plans)[..|plans| - 1] == Segments(r, cfg, plans[..|plans| - 1]);
  }

  lemma {:induction false} SegmentTasks(r: Resolver, cfg: MigrationConfig, plans: seq<TablePlan>)
    requires AllSound(plans)
    ensures Tasks(Segments(r, cfg, plans)) == PlannedTasks(plans)
  {
    if plans != [] {
      SegmentsSnoc(r, cfg, plans);
      SegmentTasks(r, cfg, plans[..|plans| - 1]);
    }
  }

  lemma {:induction false} PartItemsAre(r: Resolver, cfg: MigrationConfig, plans: seq<TablePlan>)
    requires AllSound(plans)
    ensures SoundItems(PartItems(plans)) && PartEdits(r, cfg, PartItems(plans)) == FirstEdits(Segments(r, cfg, plans))
  {
    if plans != [] {
      SegmentsSnoc(r, cfg, plans);
      PartItemsAre(r, cfg, plans[..|plans| - 1]);
      SegmentTasks(r, cfg, plans[..|plans| - 1]);
    }
  }

  lemma {:induction false} ChunkItemsAre(r: Resolver, cfg: MigrationConfig, plans: seq<TablePlan>)
    requires AllSound(plans)
    requires forall i :: 0 <= i < |plans| && plans[i].request.SplitTable? ==> |plans[i].tasks| == 1
    ensures ChunkEdits(r, cfg, ChunkItems(plans)) == SecondEdits(Segments(r, cfg, plans))
  {
    if plans != [] {
      var before, p := plans[..|plans| - 1], plans[|plans| - 1];
      SegmentsSnoc(r, cfg, plans);
      ChunkItemsAre(r, cfg, before);
      SegmentTasks(r, cfg, before);
      if p.request.SplitTable? {
        var item := ChunkableTask(p.table, p.override, p.request.chunkSize, |PlannedTasks(before)|);
        ChunkEditsConcat(r, cfg, ChunkItems(before), [item]);
        assert [item][1..] == [];
      } else {
        assert ChunkItems(plans) == ChunkItems(before);
        assert SegmentOf(r, cfg, p).second.None?;
      }
    }
  }

  lemma {:induction false} NonEmptyBlocks<T>(blocks: seq<seq<T>>)
    requires forall k :: 0 <= k < |blocks| ==> blocks[k] != []
    ensures |Flatten(blocks)| >= |blocks|
  {
    if blocks != [] {
      assert forall k :: 0 <= k < |blocks[1..]| ==> blocks[1..][k] == blocks[k + 1];
      NonEmptyBlocks(blocks[1..]);
    }
  }

  /** Every partition keeps at least one task, so that a partitioned table never gets fewer. */
  lemma ExpansionNeverShrinks(r: Resolver, cfg: MigrationConfig, t: Table, o: TableOverride, included: seq<nat>)
    requires InBounds(t, included)
    ensures |PartitionsExpansion(r, cfg, t, o, included)| >= |included|
  {
    NonEmptyBlocks(ExpansionBlocks(r, cfg, t, o, included));
  }

  lemma PlanTableIsProper(r: Resolver, cfg: MigrationConfig, t: Table)
    ensures var p := PlanTable(cfg, t);
            SoundRequest(p) && Proper(SegmentOf(r, cfg, p)) && (p.request.SplitTable? ==> |p.tasks| == 1)
  {
    var p := PlanTable(cfg, t);
    if p.request.SplitPartitions? {
      ExpansionNeverShrinks(r, cfg, t, p.override, p.request.included);
    }
  }

  lemma {:induction false} PlansAre(cfg: MigrationConfig, sorted: seq<Table>, i: nat) returns (t: Table)
    requires i < |Plans(cfg, sorted)|
    ensures t in sorted && !cfg.Override(t).ResolveTargetMode().Skip? && Plans(cfg, sorted)[i] == PlanTable(cfg, t)
  {
    var before, last := sorted[..|sorted| - 1], sorted[|sorted| - 1];
    if i < |Plans(cfg, before)| {
      t := PlansAre(cfg, before, i);
    } else {
      t := last;
    }
  }

  lemma PlansAreProper(r: Resolver, cfg: MigrationConfig, sorted: seq<Table>)
    ensures AllSound(Plans(cfg, sorted))
    ensures AllProper(Segments(r, cfg, Plans(cfg, sorted)))
    ensures forall i :: 0 <= i < |Plans(cfg, sorted)| && Plans(cfg, sorted)[i].request.SplitTable?
              ==> |Plans(cfg, sorted)[i].tasks| == 1
  {
    PlansAreSound(cfg, sorted);
    var plans := Plans(cfg, sorted);
    var segs := Segments(r, cfg, plans);
    forall i | 0 <= i < |plans|
      ensures Proper(segs[i]) && (plans[i].request.SplitTable? ==> |plans[i].tasks| == 1)
    {
      var t := PlansAre(cfg, sorted, i);
      PlanTableIsProper(r, cfg, t);
    }
    assert forall g :: g in segs ==> Proper(g);
  }

  /** Both phases of the resolution, in the order in which Run and Resume call them. */
  method Resolve(plan: MigrationPlan, r: Resolver, cfg: MigrationConfig, ghost sorted: seq<Table>)
    requires plan.Holds(cfg, Plans(cfg, sorted))
    modifies plan
    ensures AllSound(Plans(cfg, sorted))
    ensures var segs := Segments(r, cfg, Plans(cfg, sorted));
            Fit(|AfterFirst(segs)|, 0, SecondEdits(segs)) && plan.dataTasks == Outcome(segs)
  {
    PlansAreProper(r, cfg, sorted);
    SegmentTasks(r, cfg, Plans(cfg, sorted));
    PartItemsAre(r, cfg, Plans(cfg, sorted));
    ChunkItemsAre(r, cfg, Plans(cfg, sorted));
    ghost var segs := Segments(r, cfg, Plans(cfg, sorted));
    FirstPhase(segs);
    SecondFits(segs);
    plan.ResolvePartitionChunks(r, cfg);
    plan.ResolveChunks(r, cfg);
  }

  /** The tables that are not skipped, in order. */
  method DdlOrder(order: seq<Table>, cfg: MigrationConfig) returns (ddl: seq<Table>)
    ensures ddl == Filter(order, NotSkipped(cfg))
  {
    ddl := [];
    for i := 0 to |order|
      invariant ddl == Filter(order[..i], NotSkipped(cfg))
    {
      assert order[..i + 1] == order[..i] + [order[i]];
      FilterConcat(order[..i], [order[i]], NotSkipped(cfg));
      assert [order[i]][1..] == [];
      if !cfg.Override(order[i]).ResolveTargetMode().Skip? {
        ddl := ddl + [order[i]];
      }
    }
    assert order[..|order|] == order;
  }

  lemma PlansNext(cfg: MigrationConfig, order: seq<Table>, i: nat)
    requires i < |order|
    ensures Plans(cfg, order[..i + 1])
         == if cfg.Override(order[i]).ResolveTargetMode().Skip? then Plans(cfg, order[..i])
            else Plans(cfg, order[..i]) + [PlanTable(cfg, order[i])]
  {
    assert order[..i + 1][..i] == order[..i] && order[..i + 1][i] == order[i];
    assert Plans(cfg, order[..i]) + [] == Plans(cfg, order[..i]);
  }

  /** Adds the tasks of all tables that are not skipped. */
  method AddTables(plan: MigrationPlan, order: seq<Table>, cfg: MigrationConfig)
    requires plan.Holds(cfg, [])
    modifies plan`dataTasks, plan`partitionChunkTables, plan`chunkableTasks
    ensures plan.Holds(cfg, Plans(cfg, order))
  {
    assert order[..0] == [];
    for i := 0 to |order|
      invariant plan.Holds(cfg, Plans(cfg, order[..i]))
    {
      PlansNext(cfg, order, i);
      if cfg.Override(order[i]).ResolveTargetMode().Skip? {
        continue;
      }
      plan.AddTable(cfg, order[i], Plans(cfg, order[..i]));
    }
    assert order[..|order|] == order;
  }

  /** DDL order, data tasks and constraint order. */
  method BuildPlan(tables: seq<Table>, cfg: MigrationConfig)
      returns (plan: MigrationPlan, sorted: seq<Table>, ghost g: map<string, Table>)
    requires DistinctNames(tables)
    ensures fresh(plan) && plan.Holds(cfg, Plans(cfg, sorted))
    ensures multiset(sorted) == multiset(tables) && DistinctNames(sorted)
    ensures ForeignKeys.IndexedBy(tables, g) && ForeignKeys.KeysInOrder(g, sorted)
    ensures plan.ddlOrder == Filter(sorted, NotSkipped(cfg))
    ensures forall t :: t in plan.ddlOrder <==>
              t in sorted && !(t.name in cfg.overrides && cfg.overrides[t.name].targetMode == Some(TargetMode.Skip))
    ensures |plan.constraintOrder| == |sorted|
            && forall i :: 0 <= i < |sorted| ==> plan.constraintOrder[|sorted| - 1 - i] == sorted[i]
  {
    var order;
    order, g := TopoSort.TopoSortTables(tables);
    sorted := order;
    var ddl := DdlOrder(order, cfg);
    var reversed := Reversed(order);
    plan := new MigrationPlan();
    plan.ddlOrder, plan.constraintOrder := ddl, reversed;
    forall t ensures t in ddl <==> t in order && NotSkipped(cfg)(t) {
      FilterMember(order, NotSkipped(cfg), t);
    }
    AddTables(plan, order, cfg);
  }

  function NotSkipped(cfg: MigrationConfig): Table -> bool { (t: Table) => !cfg.Override(t).ResolveTargetMode().Skip? }

  method Reversed(tables: seq<Table>) returns (r: seq<Table>)
    ensures |r| == |tables| && forall i :: 0 <= i < |tables| ==> r[|tables| - 1 - i] == tables[i]
  {
    r := tables;
    for i := 0 to |tables|
      invariant |r| == |tables|
      invariant forall k :: 0 <= k < i ==> r[|tables| - 1 - k] == tables[k]
    {
      r := r[|tables| - 1 - i := tables[i]];
    }
  }
}

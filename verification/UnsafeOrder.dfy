/** A plan whose order is not safe: a partitioned table that is cut, and behind it a table without partitions that is
    cut too. */
module UnsafeOrder {
  import opened Collections
  import opened Schema
  import opened Planner
  import opened PlanResolution
  import opened PlanCoverage
  import Placeholders
  import Pruning

  const BIG := 1000000

  function CutPartitions(): Table { Table("P", [], [Partition("A", KeyText("", None), BIG)], BIG) }

  function CutTable(): Table { Table("T", [], [], BIG) }

  function Tables(): seq<Table> { [CutPartitions(), CutTable()] }

  function Config(): MigrationConfig { MigrationConfig(4, DEFAULT_BATCH, Auto, map[]) }

  function OneRow(): SourceRow { SourceRow("T", "", 0) }

  function AnySource(): Source { Source((rid: nat, top: nat) => 0, (filter: string, row: SourceRow) => true) }

  lemma BothAreCut()
    ensures PlanTable(Config(), CutPartitions()).request == SplitPartitions([0])
    ensures |PlanTable(Config(), CutPartitions()).tasks| == 1
    ensures PlanTable(Config(), CutTable()).request == SplitTable(DEFAULT_BATCH)
  {
    var t := CutPartitions();
    var included := Included(t, NO_OVERRIDE, 1);
    assert Included(t, NO_OVERRIDE, 0) == [] && IsIncluded(t, NO_OVERRIDE, 0);
    assert included == [0];
    assert PartitionChunkCount(t.parts[included[0]].numRows, DEFAULT_BATCH, 4) == 16;
    assert NeedsSplit(t, included, DEFAULT_BATCH, 4);
  }

  /** The first segment grows, and the second has an expansion of its own. */
  lemma GrowsBeforeChunked()
    ensures var segs := PlanSegments(ByHash, Config(), Tables());
            |segs| == 2 && Placeholders.Grows(segs[0]) && segs[1].second.Some?
  {
    BothAreCut();
    var tables := Tables();
    var front := tables[..1];
    assert front == [CutPartitions()] && front[..0] == [];
    PlanSegmentsSnoc(ByHash, Config(), front);
    PlanSegmentsSnoc(ByHash, Config(), tables);
    assert PlanSegments(ByHash, Config(), front[..0]) == [];
    Grown();
  }

  lemma Grown()
    ensures |PartitionsExpansion(ByHash, Config(), CutPartitions(), NO_OVERRIDE, [0])| == 16
  {
    var t := CutPartitions();
    var blocks := ExpansionBlocks(ByHash, Config(), t, NO_OVERRIDE, [0]);
    assert PartitionChunkCount(BIG, DEFAULT_BATCH, 4) == 16;
    assert |blocks[0]| == 16 && blocks[1..] == [];
    assert Flatten(blocks) == blocks[0] + Flatten(blocks[1..]) == blocks[0];
  }

  /** All that is asked of a source holds, and the order is not safe. */
  lemma OrderCanBeUnsafe()
    ensures var src, rows := AnySource(), {OneRow()};
            && GoodSource(src) && GoodTables(ByHash, Config(), Tables(), rows)
            && ChunkedTablesHaveRows(src, ByHash, Config(), Tables(), rows)
            && !OrderIsSafe(ByHash, Config(), Tables())
  {
    TablesAreGood();
    CutTableHasRow();
    hide GoodTables, ChunkedTablesHaveRows;
    GrowsBeforeChunked();
  }

  lemma TablesAreGood()
    ensures GoodTables(ByHash, Config(), Tables(), {OneRow()})
  {
  }

  lemma CutTableHasRow()
    ensures ChunkedTablesHaveRows(AnySource(), ByHash, Config(), Tables(), {OneRow()})
  {
    var src, rows := AnySource(), {OneRow()};
    assert Wanted(src, Config(), CutTable(), OneRow());
    BothAreCut();
    forall t | t in Tables() && IsCut(ByHash, Config(), t)
      ensures exists row :: row in rows && Wanted(src, Config(), t, row)
    {
      assert t == CutTable();
      assert OneRow() in rows;
    }
  }

  /** The one row of the second table is read twice. */
  lemma RowReadTwice()
    ensures ReadCount(AnySource(), ResolvedTasks(ByHash, Config(), Tables()), OneRow()) > 1
  {
    OrderCanBeUnsafe();
    var row := DoubledRow(AnySource(), ByHash, Config(), Tables(), {OneRow()});
  }
}

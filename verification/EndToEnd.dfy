/** From the tables of the source to the contents of the target: the plan, its order, and every run of it. */
module EndToEnd {
  import opened Collections
  import opened Schema
  import opened Planner
  import opened PlanResolution
  import opened PlanShapes
  import C = PlanCoverage
  import P = Protocol
  import RunInvariant
  import ForeignKeys
  import Interleave
  import Placeholders
  import Keys
  import TaskJobs

  // ---------- Reordering keeps what the plan is

  lemma {:induction false} ApartRemove(ids: seq<Keys.TaskId>, j: nat)
    requires AllApart(ids) && j < |ids|
    ensures AllApart(ids[..j] + ids[j + 1..]) && Apart(ids[j], ids[..j] + ids[j + 1..])
  {
    if j == 0 {
      assert ids[..0] + ids[1..] == ids[1..];
    } else {
      var tail := ids[1..];
      ApartRemove(tail, j - 1);
      var rest := tail[..j - 1] + tail[j..];
      assert ids[..j] + ids[j + 1..] == [ids[0]] + rest;
      assert tail[j - 1] == ids[j] && ids[j] in tail;
      assert ([ids[0]] + rest)[1..] == rest;
      assert forall x :: x in rest ==> x in tail;
    }
  }

  lemma {:induction false} ApartPermutation(a: seq<Keys.TaskId>, b: seq<Keys.TaskId>)
    requires AllApart(a) && multiset(a) == multiset(b)
    ensures AllApart(b)
    decreases |b|
  {
    if b != [] {
      assert b[0] in multiset(a);
      var j :| 0 <= j < |a| && a[j] == b[0];
      var rest := a[..j] + a[j + 1..];
      ApartRemove(a, j);
      SameRest(a, b, j);
      ApartPermutation(rest, b[1..]);
      forall x | x in b[1..] ensures x in rest {
        assert x in multiset(b[1..]);
      }
    }
  }

  lemma SameRest<T>(a: seq<T>, b: seq<T>, j: nat)
    requires b != [] && j < |a| && a[j] == b[0] && multiset(a) == multiset(b)
    ensures multiset(a[..j] + a[j + 1..]) == multiset(b[1..])
  {
    Without(a, j);
    WithoutFirst(b);
  }

  lemma {:induction false} IdCount(tasks: seq<TableTask>, id: Keys.TaskId)
    ensures multiset(Ids(tasks))[id] == Count(tasks, (t: TableTask) => IdOf(t) == id)
  {
    if tasks != [] {
      IdCount(tasks[1..], id);
      assert Ids(tasks) == [IdOf(tasks[0])] + Ids(tasks[1..]);
    }
  }

  lemma IdsPermutation(a: seq<TableTask>, b: seq<TableTask>)
    requires multiset(a) == multiset(b)
    ensures multiset(Ids(a)) == multiset(Ids(b))
  {
    forall id ensures multiset(Ids(a))[id] == multiset(Ids(b))[id] {
      IdCount(a, id);
      IdCount(b, id);
      CountPermutation(a, b, (t: TableTask) => IdOf(t) == id);
    }
  }

  /** The tasks in the order in which they are handed to the workers. */
  function PlannedOrder(r: Resolver, cfg: MigrationConfig, sorted: seq<Table>): seq<TableTask> {
    Interleave.Interleaved(C.ResolvedTasks(r, cfg, sorted))
  }

  /** Planning as Run and Resume do it: build, resolve both kinds of placeholders, interleave. */
  method PlanMigration(tables: seq<Table>, cfg: MigrationConfig, r: Resolver)
    returns (tasks: seq<TableTask>, sorted: seq<Table>, ghost g: map<string, Table>)
    requires DistinctNames(tables)
    ensures multiset(sorted) == multiset(tables) && DistinctNames(sorted)
    ensures ForeignKeys.IndexedBy(tables, g) && ForeignKeys.KeysInOrder(g, sorted)
    ensures tasks == PlannedOrder(r, cfg, sorted)
  {
    var plan;
    plan, sorted, g := BuildPlan(tables, cfg);
    Resolve(plan, r, cfg, sorted);
    tasks := Interleave.InterleaveTasksByTable(plan.dataTasks);
  }

  // ---------- The plan as the protocol sees it

  /** The row ids a task reads. */
  ghost function RidsOf(src: C.Source, rows: set<C.SourceRow>, task: TableTask): set<nat> {
    set row | row in rows && C.Selects(src, task, row) :: row.rid
  }

  ghost function CopyPlan(src: C.Source, rows: set<C.SourceRow>, tasks: seq<TableTask>): seq<P.CopyTask> {
    seq(|tasks|, i requires 0 <= i < |tasks| => P.CopyTask(IdOf(tasks[i]), multiset(RidsOf(src, rows, tasks[i]))))
  }

  /** Partition names as Oracle's catalogue has them, and none is called "chunk". */
  ghost predicate GoodNames(tables: seq<Table>) {
    forall t, k :: t in tables && 0 <= k < |t.parts| ==>
      Keys.ProperName(Some(t.parts[k].name)) && t.parts[k].name != "chunk"
  }

  lemma PlanHasShape(src: C.Source, rows: set<C.SourceRow>, tasks: seq<TableTask>, sorted: seq<Table>)
    requires PlanIds(Ids(tasks), sorted) && GoodNames(sorted)
    ensures P.PlanShape(CopyPlan(src, rows, tasks))
  {
    var plan, ids := CopyPlan(src, rows, tasks), Ids(tasks);
    forall i | 0 <= i < |plan| ensures Keys.ProperName(plan[i].id.part) && plan[i].id.part != Some("chunk") {
      assert plan[i].id == ids[i] && ids[i] in ids && Listed(ids[i], sorted);
    }
    forall i, j | 0 <= i < j < |plan| && plan[i].id.table == plan[j].id.table
      ensures plan[i].id.part.None? <==> plan[j].id.part.None?
      ensures P.Rel(plan[i]) == P.Rel(plan[j]) ==> plan[i].id.chunk.Some? && plan[j].id.chunk.Some?
    {
      ApartMeans(ids, i, j);
    }
  }

  /** The interleaved plan has compatible tasks. */
  lemma OrderHasIds(r: Resolver, cfg: MigrationConfig, sorted: seq<Table>)
    requires DistinctNames(sorted) && GoodNumbers(r) && C.OrderIsSafe(r, cfg, sorted)
    requires forall t :: t in sorted ==> C.DistinctParts(t)
    ensures PlanIds(Ids(PlannedOrder(r, cfg, sorted)), sorted)
  {
    var tasks, order := C.ResolvedTasks(r, cfg, sorted), PlannedOrder(r, cfg, sorted);
    PlansAreProper(r, cfg, sorted);
    Placeholders.InStepIsIdeal(C.PlanSegments(r, cfg, sorted));
    IdealIds(r, cfg, sorted);
    Interleave.InterleavedIsPermutation(tasks);
    IdsPermutation(tasks, order);
    ApartPermutation(Ids(tasks), Ids(order));
    forall x | x in Ids(order) ensures Listed(x, sorted) {
      assert x in multiset(Ids(order));
      assert x in Ids(tasks);
    }
  }

  /** Every planned task gets a job row of its own, and the job rows tell the tasks. */
  lemma PlanGetsItsRows(r: Resolver, cfg: MigrationConfig, sorted: seq<Table>)
    requires DistinctNames(sorted) && GoodNumbers(r) && C.OrderIsSafe(r, cfg, sorted) && GoodNames(sorted)
    requires forall t :: t in sorted ==> C.DistinctParts(t) && Keys.ColonFree(t.name)
    ensures var ids := Ids(PlannedOrder(r, cfg, sorted));
            && TaskJobs.DistinctTasks(ids) && TaskJobs.ProperTasks(ids)
            && forall i, j :: 0 <= i < j < |ids| ==> !TaskJobs.SameRow(ids[i], ids[j])
  {
    var ids := Ids(PlannedOrder(r, cfg, sorted));
    OrderHasIds(r, cfg, sorted);
    forall i, j | 0 <= i < j < |ids| ensures ids[i] != ids[j] {
      ApartMeans(ids, i, j);
    }
    forall i | 0 <= i < |ids| ensures Keys.Proper(ids[i]) {
      assert ids[i] in ids && Listed(ids[i], sorted);
    }
    TaskJobs.RowsForAll(ids);
  }

  // ---------- What the plan selects for a relation

  /** Where the row belongs in the target. */
  ghost predicate HomeIs(sorted: seq<Table>, row: C.SourceRow, rel: P.Relation) {
    exists t :: t in sorted && row.table == t.name
      && rel == P.Relation(t.name, if t.parts == [] then None else Some(row.part))
  }

  ghost predicate RowIdsIdentify(rows: set<C.SourceRow>) {
    forall a, b :: a in rows && b in rows && a.table == b.table && a.rid == b.rid ==> a == b
  }

  ghost function Brings(src: C.Source, rows: set<C.SourceRow>, rel: P.Relation, rid: nat): TableTask -> bool {
    (task: TableTask) => P.Relation(task.table.name, PartName(task.partition)) == rel && rid in RidsOf(src, rows, task)
  }

  lemma {:induction false} TotalCounts(src: C.Source, rows: set<C.SourceRow>, tasks: seq<TableTask>, rel: P.Relation,
      rid: nat, n: nat)
    requires n <= |tasks|
    ensures var plan := CopyPlan(src, rows, tasks);
            P.Total(plan, P.Selected(plan), rel, n)[rid] == Count(tasks[..n], Brings(src, rows, rel, rid))
  {
    if n > 0 {
      TotalCounts(src, rows, tasks, rel, rid, n - 1);
      var last := tasks[n - 1];
      assert tasks[..n] == tasks[..n - 1] + [last];
      CountConcat(tasks[..n - 1], [last], Brings(src, rows, rel, rid));
      assert [last][1..] == [];
    }
  }

  /** A task that reads a row copies it to where it belongs. */
  lemma ReadsAtHome(src: C.Source, sorted: seq<Table>, task: TableTask, row: C.SourceRow, rel: P.Relation)
    requires DistinctNames(sorted) && Listed(IdOf(task), sorted) && C.Selects(src, task, row)
    ensures HomeIs(sorted, row, rel) <==> rel == P.Relation(task.table.name, PartName(task.partition))
  {
    var t :| t in sorted && task.table.name == t.name && (IdOf(task).part.None? <==> t.parts == []);
    forall u | u in sorted && u.name == row.table ensures u == t {
      SameTable(sorted, t, u);
    }
  }

  lemma SameTable(sorted: seq<Table>, t: Table, u: Table)
    requires DistinctNames(sorted) && t in sorted && u in sorted && t.name == u.name
    ensures t == u
  {
    var i :| 0 <= i < |sorted| && sorted[i] == t;
    var j :| 0 <= j < |sorted| && sorted[j] == u;
  }

  ghost predicate AllListed(tasks: seq<TableTask>, sorted: seq<Table>) {
    forall x :: x in tasks ==> Listed(IdOf(x), sorted)
  }

  /** For a row that belongs to the relation, the plan brings it there as often as tasks read it. */
  lemma BroughtAsRead(src: C.Source, rows: set<C.SourceRow>, sorted: seq<Table>, tasks: seq<TableTask>, rel: P.Relation,
      row: C.SourceRow)
    requires DistinctNames(sorted) && AllListed(tasks, sorted) && RowIdsIdentify(rows)
    requires row in rows && HomeIs(sorted, row, rel)
    ensures Count(tasks, Brings(src, rows, rel, row.rid)) == C.ReadCount(src, tasks, row)
  {
    forall x | x in tasks ensures Brings(src, rows, rel, row.rid)(x) == C.Reads(src, row)(x) {
      if C.Selects(src, x, row) {
        ReadsAtHome(src, sorted, x, row, rel);
        assert row.rid in RidsOf(src, rows, x);
      }
      if Brings(src, rows, rel, row.rid)(x) {
        var other :| other in rows && C.Selects(src, x, other) && other.rid == row.rid;
        assert other == row;
      }
    }
    CountAgree(tasks, Brings(src, rows, rel, row.rid), C.Reads(src, row));
  }

  lemma NothingBrought(src: C.Source, rows: set<C.SourceRow>, sorted: seq<Table>, tasks: seq<TableTask>,
      rel: P.Relation, rid: nat)
    requires DistinctNames(sorted) && AllListed(tasks, sorted)
    requires forall row :: row in rows && row.rid == rid ==> !HomeIs(sorted, row, rel)
    ensures Count(tasks, Brings(src, rows, rel, rid)) == 0
  {
    CountPositive(tasks, Brings(src, rows, rel, rid));
    forall i | 0 <= i < |tasks| ensures !Brings(src, rows, rel, rid)(tasks[i]) {
      if Brings(src, rows, rel, rid)(tasks[i]) {
        var row :| row in rows && C.Selects(src, tasks[i], row) && row.rid == rid;
        assert tasks[i] in tasks;
        ReadsAtHome(src, sorted, tasks[i], row, rel);
      }
    }
  }

  /** The migration is to put a row with this id there. */
  ghost predicate Expected(src: C.Source, cfg: MigrationConfig, sorted: seq<Table>, rows: set<C.SourceRow>,
      rel: P.Relation, rid: nat) {
    exists row :: row in rows && row.rid == rid && HomeIs(sorted, row, rel) && C.Selected(src, cfg, sorted, row)
  }

  /** What is asked of the source, its names and the order of the tables. */
  ghost predicate GoodMigration(src: C.Source, r: Resolver, cfg: MigrationConfig, sorted: seq<Table>,
      rows: set<C.SourceRow>) {
    && C.GoodSource(src) && RowIdsIdentify(rows)
    && C.GoodTables(r, cfg, sorted, rows) && GoodNumbers(r) && GoodNames(sorted)
    && C.OrderIsSafe(r, cfg, sorted)
  }

  ghost function FullPlan(src: C.Source, r: Resolver, cfg: MigrationConfig, sorted: seq<Table>,
      rows: set<C.SourceRow>): seq<P.CopyTask> {
    CopyPlan(src, rows, PlannedOrder(r, cfg, sorted))
  }

  lemma OrderReads(src: C.Source, r: Resolver, cfg: MigrationConfig, sorted: seq<Table>, rows: set<C.SourceRow>,
      row: C.SourceRow)
    requires GoodMigration(src, r, cfg, sorted, rows) && row in rows
    ensures C.ReadCount(src, PlannedOrder(r, cfg, sorted), row) == if C.Selected(src, cfg, sorted, row) then 1 else 0
  {
    var tasks := C.ResolvedTasks(r, cfg, sorted);
    C.SafeOrderIsExact(src, r, cfg, sorted, rows);
    Interleave.InterleavedIsPermutation(tasks);
    CountPermutation(tasks, PlannedOrder(r, cfg, sorted), C.Reads(src, row));
  }

  lemma OrderIsListed(r: Resolver, cfg: MigrationConfig, sorted: seq<Table>)
    requires PlanIds(Ids(PlannedOrder(r, cfg, sorted)), sorted)
    ensures AllListed(PlannedOrder(r, cfg, sorted), sorted)
  {
    var order := PlannedOrder(r, cfg, sorted);
    forall x | x in order ensures Listed(IdOf(x), sorted) {
      var i :| 0 <= i < |order| && order[i] == x;
      assert Ids(order)[i] == IdOf(x) && Ids(order)[i] in Ids(order);
    }
  }

  /** The plan wants each selected row once where it belongs, and nothing else. */
  lemma WantedIsSelected(src: C.Source, r: Resolver, cfg: MigrationConfig, sorted: seq<Table>, rows: set<C.SourceRow>,
      rel: P.Relation, rid: nat)
    requires GoodMigration(src, r, cfg, sorted, rows)
    ensures P.Wanted(FullPlan(src, r, cfg, sorted, rows), rel)[rid] ==
            if Expected(src, cfg, sorted, rows, rel, rid) then 1 else 0
  {
    var order := PlannedOrder(r, cfg, sorted);
    OrderHasIds(r, cfg, sorted);
    OrderIsListed(r, cfg, sorted);
    TotalCounts(src, rows, order, rel, rid, |order|);
    assert order[..|order|] == order;
    if row :| row in rows && row.rid == rid && HomeIs(sorted, row, rel) {
      BroughtAsRead(src, rows, sorted, order, rel, row);
      OrderReads(src, r, cfg, sorted, rows, row);
      forall other | other in rows && other.rid == rid && HomeIs(sorted, other, rel) ensures other == row {
        assert other.table == row.table == rel.table;
      }
    } else {
      NothingBrought(src, rows, sorted, order, rel, rid);
    }
  }

  /** Over every run of the planned migration, with any crashes and resumes: a relation whose jobs are completed, and
      whose table's DDL is, holds each selected row of the source that belongs there exactly once, and nothing else. */
  lemma MigrationIsExact(src: C.Source, r: Resolver, cfg: MigrationConfig, sorted: seq<Table>, rows: set<C.SourceRow>,
                         before: P.Target, run: seq<P.Action>, rel: P.Relation)
    requires GoodMigration(src, r, cfg, sorted, rows)
    requires var plan := FullPlan(src, r, cfg, sorted, rows);
             RunInvariant.SafeAt(plan, rel) && P.Valid(plan, P.Init(plan, before), run)
    requires var plan := FullPlan(src, r, cfg, sorted, rows);
             var w := P.Exec(plan, P.Init(plan, before), run);
             RunInvariant.Grounded(before, w, rel) && P.AllCompleted(plan, w, rel)
    ensures var plan := FullPlan(src, r, cfg, sorted, rows);
            forall rid: nat :: P.At(P.Exec(plan, P.Init(plan, before), run).target, rel)[rid]
                               == if Expected(src, cfg, sorted, rows, rel, rid) then 1 else 0
  {
    var plan := FullPlan(src, r, cfg, sorted, rows);
    OrderHasIds(r, cfg, sorted);
    PlanHasShape(src, rows, PlannedOrder(r, cfg, sorted), sorted);
    RunInvariant.ExactlyOnce(plan, before, run, rel);
    forall rid: nat ensures P.Wanted(plan, rel)[rid] == if Expected(src, cfg, sorted, rows, rel, rid) then 1 else 0 {
      WantedIsSelected(src, r, cfg, sorted, rows, rel, rid);
    }
  }
}

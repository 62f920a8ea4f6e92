/** The Oracle metadata the planner works on. */
module Schema {
  import opened Collections

  datatype ConstraintKind = PrimaryKey | ForeignKey | Unique | Check

  datatype Constraint = Constraint(kind: ConstraintKind, refTable: string)

  /** A value of a partition key as text, with the number the text stands for, if any. The empty
      text is an unbounded edge. */
  datatype KeyText = KeyText(text: string, number: Option<real>)

  datatype Partition = Partition(name: string, high: KeyText, numRows: int)

  datatype Table = Table(name: string, constraints: seq<Constraint>, parts: seq<Partition>, numRows: int)

  ghost predicate DistinctNames(tables: seq<Table>) {
    forall i, j :: 0 <= i < j < |tables| ==> tables[i].name != tables[j].name
  }

  /** A range of row ids as DBMS_PARALLEL_EXECUTE cuts it, or without bounds a hash bucket. */
  datatype RowIdChunk = RowIdChunk(id: nat, start: Option<nat>, end: Option<nat>, partition: string)
}

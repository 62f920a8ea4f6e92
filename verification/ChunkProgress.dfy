/** Progress of chunked tables: the live aggregate of the events, and the grouping of chunk jobs for a listing. */
module ChunkProgress {
  import opened Collections
  import opened JobStore
  import opened Keys

  // ---------- Sums over maps

  ghost function Sum(m: map<string, nat>): nat {
    if m == map[] then 0 else var k :| k in m; m[k] + Sum(m - {k})
  }

  lemma {:induction false} SumAny(m: map<string, nat>, k: string)
    requires k in m
    ensures Sum(m) == m[k] + Sum(m - {k})
    decreases |m|
  {
    var j :| j in m && Sum(m) == m[j] + Sum(m - {j});
    if j != k {
      SumAny(m - {j}, k);
      SumAny(m - {k}, j);
      assert (m - {j}) - {k} == (m - {k}) - {j};
    }
  }

  lemma SumSet(m: map<string, nat>, k: string, v: nat)
    ensures Sum(m[k := v]) + (if k in m then m[k] else 0) == Sum(m) + v
  {
    SumAny(m[k := v], k);
    assert m[k := v] - {k} == m - {k};
    if k in m {
      SumAny(m, k);
    } else {
      assert m - {k} == m;
    }
  }

  /** Adds up the entries in whatever order they come. */
  method AddUp(m: map<string, nat>) returns (total: nat)
    ensures total == Sum(m)
  {
    total := 0;
    var rest := m;
    while rest != map[]
      invariant total + Sum(rest) == Sum(m)
      decreases |rest|
    {
      var k :| k in rest;
      SumAny(rest, k);
      total := total + rest[k];
      rest := rest - {k};
    }
  }

  // ---------- The live aggregate

  datatype EventState = RunningEvent | CompletedEvent | FailedEvent | OtherEvent

  datatype Event = Event(table: string, partition: string, state: EventState, rows: nat)

  datatype TableState = TableState(totalRows: nat, chunkRows: map<string, nat>, running: nat, total: nat, done: nat,
      failed: nat)

  const NEW_TABLE := TableState(0, map[], 0, 0, 0, 0)

  function EventKey(e: Event): string { JobKey(e.table, StripChunkSuffix(e.partition)) }

  /** Events are taken together if and only if they agree in the table and the partition without its chunk, when tables
      have no colon. */
  lemma EventExactly(a: Event, b: Event)
    requires ColonFree(a.table) && ColonFree(b.table)
    ensures EventKey(a) == EventKey(b) <==>
            a.table == b.table && StripChunkSuffix(a.partition) == StripChunkSuffix(b.partition)
  {
    if EventKey(a) == EventKey(b) {
      var p, q := StripChunkSuffix(a.partition), StripChunkSuffix(b.partition);
      FirstColon(a.table, if p != "" then ":" + p else "", b.table, if q != "" then ":" + q else "");
      assert p != "" ==> (":" + p)[1..] == p;
      assert q != "" ==> (":" + q)[1..] == q;
    }
  }

  /** What an event does to the counts of its table: a chunk starts, is done or fails. */
  ghost predicate Counted(was: TableState, st: TableState, e: Event) {
    && st.total == was.total + (if e.state.RunningEvent? && e.rows == 0 then 1 else 0)
    && st.done == was.done + (if e.state.CompletedEvent? then 1 else 0)
    && st.failed == was.failed + (if e.state.FailedEvent? then 1 else 0)
    && st.chunkRows == if e.rows > 0 && (e.state.RunningEvent? || e.state.CompletedEvent?)
                       then was.chunkRows[e.partition := e.rows] else was.chunkRows
  }

  /** The event tells how many rows its chunk has. */
  predicate Counts(e: Event) { e.rows > 0 && (e.state.RunningEvent? || e.state.CompletedEvent?) }

  /** The rows that the last event about a chunk told. */
  function LastRows(trace: seq<Event>, key: string, partition: string): Option<nat> {
    if trace == [] then None
    else
      var e := trace[|trace| - 1];
      if Counts(e) && EventKey(e) == key && e.partition == partition then Some(e.rows)
      else LastRows(trace[..|trace| - 1], key, partition)
  }

  /** The state shows, for every chunk, what was last told of it, and the sum of these numbers. */
  ghost predicate Shows(st: TableState, trace: seq<Event>, key: string) {
    && st.totalRows == Sum(st.chunkRows)
    && (forall p :: p in st.chunkRows <==> LastRows(trace, key, p).Some?)
    && (forall p :: p in st.chunkRows ==> LastRows(trace, key, p) == Some(st.chunkRows[p]))
  }

  class ChunkAggregator {
    var state: map<string, TableState>
    ghost var trace: seq<Event>

    /** Every table of which there was an event has its state, whether or not anything was emitted. */
    ghost predicate Valid()
      reads this
    {
      && (forall i :: 0 <= i < |trace| ==> EventKey(trace[i]) in state)
      && (forall key :: key in state ==> Shows(state[key], trace, key))
      && (forall key, p :: key !in state ==> LastRows(trace, key, p).None?)
    }

    constructor ()
      ensures Valid() && trace == []
    {
      state, trace := map[], [];
    }

    /** Takes in an event; what it returns depends on the throttling, what it keeps does not. */
    method Update(e: Event, due: bool) returns (emitted: Option<nat>)
      requires Valid()
      modifies this
      ensures Valid() && trace == old(trace) + [e]
      ensures state.Keys == old(state).Keys + {EventKey(e)}
      ensures forall key :: key in old(state) && key != EventKey(e) ==> state[key] == old(state)[key]
      ensures Counted(if EventKey(e) in old(state) then old(state)[EventKey(e)] else NEW_TABLE, state[EventKey(e)], e)
      ensures emitted.Some? ==> emitted.value == Sum(state[EventKey(e)].chunkRows)
      ensures var st := state[EventKey(e)];
              emitted.Some? <==> due || e.state.FailedEvent? || 0 < st.total == st.done + st.failed
    {
      var key := EventKey(e);
      var st := Taken(if key in state then state[key] else NEW_TABLE, e, trace);
      OthersShow(state, trace, e);
      state := state[key := st];
      trace := trace + [e];
      var terminal := st.done + st.failed == st.total && st.total > 0;
      if !terminal && !e.state.FailedEvent? && !due {
        return None;
      }
      return Some(st.totalRows);
    }

    /** The state of a table behind one more event. */
    static method Taken(st: TableState, e: Event, ghost trace: seq<Event>) returns (next: TableState)
      requires Shows(st, trace, EventKey(e))
      ensures Shows(next, trace + [e], EventKey(e)) && Counted(st, next, e)
    {
      next := st;
      match e.state {
        case RunningEvent =>
          if e.rows > 0 {
            next := Noted(next, e);
          } else {
            next := next.(running := next.running + 1, total := next.total + 1);
          }
        case CompletedEvent =>
          next := next.(done := next.done + 1, running := if next.running > 0 then next.running - 1 else 0);
          if e.rows > 0 {
            next := Noted(next, e);
          }
        case FailedEvent =>
          next := next.(failed := next.failed + 1, running := if next.running > 0 then next.running - 1 else 0);
        case OtherEvent =>
      }
      Appended(trace, e);
    }

    /** Notes the rows of a chunk and adds all chunks up again. */
    static method Noted(st: TableState, e: Event) returns (next: TableState)
      ensures next.chunkRows == st.chunkRows[e.partition := e.rows] && next.totalRows == Sum(next.chunkRows)
      ensures next.total == st.total && next.done == st.done && next.failed == st.failed
    {
      var chunkRows := st.chunkRows[e.partition := e.rows];
      var total := AddUp(chunkRows);
      next := st.(chunkRows := chunkRows, totalRows := total);
    }
  }

  lemma Appended(trace: seq<Event>, e: Event)
    ensures forall key, p :: LastRows(trace + [e], key, p)
              == if Counts(e) && EventKey(e) == key && e.partition == p then Some(e.rows) else LastRows(trace, key, p)
  {
    assert (trace + [e])[..|trace|] == trace;
  }

  /** An event changes nothing for other tables. */
  lemma OthersShow(state: map<string, TableState>, trace: seq<Event>, e: Event)
    ensures forall key :: key in state && key != EventKey(e) && Shows(state[key], trace, key)
              ==> Shows(state[key], trace + [e], key)
    ensures forall key, p :: key != EventKey(e) ==> LastRows(trace + [e], key, p) == LastRows(trace, key, p)
  {
    Appended(trace, e);
  }

  // ---------- Chunk jobs in a listing

  /** What a listing shows of a job, or of all the chunk jobs of a table or partition together. */
  datatype Entry = Entry(table: string, partition: string, phase: string, state: JobState, rows: nat, bytes: nat)

  function Priority(s: JobState): nat {
    match s
    case Skipped => 0
    case Completed => 1
    case Pending => 2
    case Retrying => 3
    case Running => 4
    case Failed => 5
  }

  function MergeJobState(a: JobState, b: JobState): JobState { if Priority(b) > Priority(a) then b else a }

  function GroupKey(j: Entry): string { j.table + ":" + StripChunkSuffix(j.partition) + ":" + j.phase }

  /** A colon-free text is told from what follows its colon. */
  lemma ColonSplits(x: string, u: string, y: string, v: string)
    requires ColonFree(x) && ColonFree(y) && x + ":" + u == y + ":" + v
    ensures x == y && u == v
  {
    assert x + (":" + u) == x + ":" + u && y + (":" + v) == y + ":" + v;
    FirstColon(x, ":" + u, y, ":" + v);
    assert u == (":" + u)[1..] && v == (":" + v)[1..];
  }

  lemma NoneBehind(s: string, x: string, u: string)
    requires s == x + ":" + u && ColonFree(u)
    ensures |x| < |s| && s[|x|] == ':' && s[..|x|] == x && s[|x| + 1..] == u
    ensures forall i :: |x| < i < |s| ==> s[i] != ':'
  {
    forall i | |x| < i < |s| ensures s[i] != ':' {
      assert s[i] == u[i - |x| - 1] && u[i - |x| - 1] in u;
    }
  }

  lemma LastColon(x: string, u: string, y: string, v: string)
    requires ColonFree(u) && ColonFree(v) && x + ":" + u == y + ":" + v
    ensures x == y && u == v
  {
    var s := x + ":" + u;
    NoneBehind(s, x, u);
    NoneBehind(s, y, v);
    assert |x| == |y|;
  }

  /** Jobs are merged if and only if they agree in the table, the partition without its chunk and the phase, when tables
      and phases have no colon. */
  lemma GroupExactly(a: Entry, b: Entry)
    requires ColonFree(a.table) && ColonFree(b.table) && ColonFree(a.phase) && ColonFree(b.phase)
    ensures GroupKey(a) == GroupKey(b) <==>
            a.table == b.table && a.phase == b.phase && StripChunkSuffix(a.partition) == StripChunkSuffix(b.partition)
  {
    if GroupKey(a) == GroupKey(b) {
      var p, q := StripChunkSuffix(a.partition), StripChunkSuffix(b.partition);
      LastColon(a.table + ":" + p, a.phase, b.table + ":" + q, b.phase);
      ColonSplits(a.table, p, b.table, q);
    }
  }

  function InGroup(key: string): Entry -> bool { (j: Entry) => IsChunkPartition(j.partition) && GroupKey(j) == key }

  function TotalRows(entries: seq<Entry>): nat {
    if entries == [] then 0 else entries[0].rows + TotalRows(entries[1..])
  }

  function TotalBytes(entries: seq<Entry>): nat {
    if entries == [] then 0 else entries[0].bytes + TotalBytes(entries[1..])
  }

  /** One entry for several: the sums, and the state with the highest priority. */
  function MergedEntry(group: seq<Entry>): (r: Entry)
    requires group != []
  {
    var last := group[|group| - 1];
    if |group| == 1 then last.(partition := StripChunkSuffix(last.partition))
    else
      var before := MergedEntry(group[..|group| - 1]);
      before.(state := MergeJobState(before.state, last.state), rows := before.rows + last.rows,
        bytes := before.bytes + last.bytes)
  }

  /** The merged state is the one with the highest priority, so that it does not depend on the order. */
  lemma {:induction false} MergedStateIsWorst(group: seq<Entry>)
    requires group != []
    ensures exists i :: 0 <= i < |group| && group[i].state == MergedEntry(group).state
    ensures forall i :: 0 <= i < |group| ==> Priority(group[i].state) <= Priority(MergedEntry(group).state)
  {
    var last, before := group[|group| - 1], group[..|group| - 1];
    if before != [] {
      MergedStateIsWorst(before);
      var i :| 0 <= i < |before| && before[i].state == MergedEntry(before).state;
      assert group[i] == before[i];
    }
  }

  /** The states from the worst to the best. */
  const WORST_FIRST := [Failed, Running, Retrying, Pending, Completed, Skipped]

  /** The merged state is the worst that occurs in the group. */
  lemma MergedStateComesFirst(group: seq<Entry>) returns (n: nat)
    requires group != []
    ensures n < 6 && MergedEntry(group).state == WORST_FIRST[n]
    ensures exists i :: 0 <= i < |group| && group[i].state == WORST_FIRST[n]
    ensures forall m, i :: 0 <= m < n && 0 <= i < |group| ==> group[i].state != WORST_FIRST[m]
  {
    MergedStateIsWorst(group);
    n := 5 - Priority(MergedEntry(group).state);
  }

  lemma StateIgnoresOrder(a: seq<Entry>, b: seq<Entry>)
    requires a != [] && b != [] && multiset(a) == multiset(b)
    ensures MergedEntry(a).state == MergedEntry(b).state
  {
    MergedStateIsWorst(a);
    MergedStateIsWorst(b);
    var i :| 0 <= i < |a| && a[i].state == MergedEntry(a).state;
    var j :| 0 <= j < |b| && b[j].state == MergedEntry(b).state;
    assert a[i] in multiset(b) && b[j] in multiset(a);
    assert Priority(MergedEntry(a).state) == Priority(MergedEntry(b).state);
  }

  // ---------- Conservation

  function RowsOf(m: map<string, Entry>): map<string, nat> { map k | k in m :: m[k].rows }

  function BytesOf(m: map<string, Entry>): map<string, nat> { map k | k in m :: m[k].bytes }

  lemma {:induction false} TotalConcat(a: seq<Entry>, b: seq<Entry>)
    ensures TotalRows(a + b) == TotalRows(a) + TotalRows(b) && TotalBytes(a + b) == TotalBytes(a) + TotalBytes(b)
  {
    if a == [] {
      assert a + b == b;
    } else {
      assert (a + b)[1..] == a[1..] + b;
      TotalConcat(a[1..], b);
    }
  }

  lemma TotalNext(entries: seq<Entry>, i: nat)
    requires i < |entries|
    ensures TotalRows(entries[..i + 1]) == TotalRows(entries[..i]) + entries[i].rows
    ensures TotalBytes(entries[..i + 1]) == TotalBytes(entries[..i]) + entries[i].bytes
  {
    assert entries[..i + 1] == entries[..i] + [entries[i]];
    TotalConcat(entries[..i], [entries[i]]);
    assert [entries[i]][1..] == [];
  }

  lemma TotalsSet(m: map<string, Entry>, k: string, e: Entry)
    ensures Sum(RowsOf(m[k := e])) + (if k in m then m[k].rows else 0) == Sum(RowsOf(m)) + e.rows
    ensures Sum(BytesOf(m[k := e])) + (if k in m then m[k].bytes else 0) == Sum(BytesOf(m)) + e.bytes
  {
    SumSet(RowsOf(m), k, e.rows);
    SumSet(BytesOf(m), k, e.bytes);
    assert RowsOf(m[k := e]) == RowsOf(m)[k := e.rows] && BytesOf(m[k := e]) == BytesOf(m)[k := e.bytes];
  }

  /** The group holds the merged chunk jobs of its key; without any, there is no group. */
  ghost predicate GroupIs(groups: map<string, Entry>, jobs: seq<Entry>, key: string) {
    var group := Filter(jobs, InGroup(key));
    if key in groups then group != [] && groups[key] == MergedEntry(group) else group == []
  }

  ghost predicate GroupsAre(groups: map<string, Entry>, jobs: seq<Entry>) { forall key :: GroupIs(groups, jobs, key) }

  function Grouped(groups: map<string, Entry>, j: Entry): Entry {
    var key := GroupKey(j);
    if key !in groups then j.(partition := StripChunkSuffix(j.partition))
    else groups[key].(state := MergeJobState(groups[key].state, j.state), rows := groups[key].rows + j.rows,
      bytes := groups[key].bytes + j.bytes)
  }

  lemma FilterNext(jobs: seq<Entry>, j: Entry, key: string)
    ensures Filter(jobs + [j], InGroup(key)) == Filter(jobs, InGroup(key)) + if InGroup(key)(j) then [j] else []
  {
    FilterConcat(jobs, [j], InGroup(key));
    assert [j][1..] == [];
  }

  lemma OneGroupNext(groups: map<string, Entry>, jobs: seq<Entry>, j: Entry, key: string)
    requires GroupIs(groups, jobs, key)
    ensures !InGroup(key)(j) ==> GroupIs(groups, jobs + [j], key)
    ensures InGroup(key)(j) ==> GroupIs(groups[key := Grouped(groups, j)], jobs + [j], key)
  {
    FilterNext(jobs, j, key);
    var group := Filter(jobs, InGroup(key));
    assert (group + [j])[..|group|] == group;
    assert group + [] == group;
  }

  lemma GroupNext(groups: map<string, Entry>, jobs: seq<Entry>, j: Entry)
    requires GroupsAre(groups, jobs) && IsChunkPartition(j.partition)
    ensures GroupsAre(groups[GroupKey(j) := Grouped(groups, j)], jobs + [j])
  {
    var next := groups[GroupKey(j) := Grouped(groups, j)];
    forall key ensures GroupIs(next, jobs + [j], key) {
      assert GroupIs(groups, jobs, key);
      OneGroupNext(groups, jobs, j, key);
    }
  }

  lemma NotGrouped(groups: map<string, Entry>, jobs: seq<Entry>, j: Entry)
    requires GroupsAre(groups, jobs) && !IsChunkPartition(j.partition)
    ensures GroupsAre(groups, jobs + [j])
  {
    forall key ensures GroupIs(groups, jobs + [j], key) {
      assert GroupIs(groups, jobs, key);
      OneGroupNext(groups, jobs, j, key);
    }
  }

  lemma NoGroups()
    ensures GroupsAre(map[], []) && Sum(RowsOf(map[])) == 0 && Sum(BytesOf(map[])) == 0
  {
    assert RowsOf(map[]) == map[] && BytesOf(map[]) == map[];
  }

  /** Puts the chunk jobs of each table or partition together; rows and bytes are neither lost nor counted twice. */
  method GetJobs(jobs: seq<Entry>) returns (plain: seq<Entry>, groups: map<string, Entry>)
    ensures plain == Filter(jobs, (j: Entry) => !IsChunkPartition(j.partition)) && GroupsAre(groups, jobs)
    ensures TotalRows(plain) + Sum(RowsOf(groups)) == TotalRows(jobs)
    ensures TotalBytes(plain) + Sum(BytesOf(groups)) == TotalBytes(jobs)
  {
    hide GroupsAre, GroupIs, Sum;
    plain, groups := [], map[];
    NoGroups();
    for i := 0 to |jobs|
      invariant plain == Filter(jobs[..i], (j: Entry) => !IsChunkPartition(j.partition)) && GroupsAre(groups, jobs[..i])
      invariant TotalRows(plain) + Sum(RowsOf(groups)) == TotalRows(jobs[..i])
      invariant TotalBytes(plain) + Sum(BytesOf(groups)) == TotalBytes(jobs[..i])
    {
      var j := jobs[i];
      TotalNext(jobs, i);
      assert jobs[..i + 1] == jobs[..i] + [j];
      FilterConcat(jobs[..i], [j], (j: Entry) => !IsChunkPartition(j.partition));
      assert [j][1..] == [];
      if IsChunkPartition(j.partition) {
        var entry := Grouped(groups, j);
        TotalsSet(groups, GroupKey(j), entry);
        GroupNext(groups, jobs[..i], j);
        groups := groups[GroupKey(j) := entry];
      } else {
        NotGrouped(groups, jobs[..i], j);
        TotalConcat(plain, [j]);
        plain := plain + [j];
      }
    }
    assert jobs[..|jobs|] == jobs;
  }
}

/** The graph of foreign keys, and what a depth-first order of it means. */
module ForeignKeys {
  import opened Collections
  import opened Schema

  /** The tables a table refers to by foreign keys. */
  function Refs(cs: seq<Constraint>): seq<string> {
    if cs == [] then [] else (if cs[0].kind.ForeignKey? then [cs[0].refTable] else []) + Refs(cs[1..])
  }

  lemma {:induction false} RefsConcat(a: seq<Constraint>, b: seq<Constraint>)
    ensures Refs(a + b) == Refs(a) + Refs(b)
  {
    if a == [] {
      assert a + b == b;
    } else {
      assert (a + b)[1..] == a[1..] + b;
      RefsConcat(a[1..], b);
      var head := if a[0].kind.ForeignKey? then [a[0].refTable] else [];
      assert head + (Refs(a[1..]) + Refs(b)) == (head + Refs(a[1..])) + Refs(b);
    }
  }

  /** Some foreign key among the constraints refers to the table. */
  ghost predicate RefersTo(cs: seq<Constraint>, b: string) {
    exists c :: c in cs && c.kind == ForeignKey && c.refTable == b
  }

  lemma {:induction false} RefsExactly(cs: seq<Constraint>, b: string)
    ensures b in Refs(cs) <==> RefersTo(cs, b)
  {
    if cs != [] {
      RefsExactly(cs[1..], b);
      assert cs[0] in cs && forall c :: c in cs <==> c == cs[0] || c in cs[1..];
    }
  }

  /** A foreign key from one migrated table to another. */
  ghost predicate Edge(g: map<string, Table>, a: string, b: string) {
    a in g && b in g && RefersTo(g[a].constraints, b)
  }

  ghost predicate IsPath(g: map<string, Table>, p: seq<string>) {
    p != [] && (|p| == 1 || (Edge(g, p[0], p[1]) && IsPath(g, p[1..])))
  }

  /** There is a chain of foreign keys, possibly empty, from a to b. */
  ghost predicate Reaches(g: map<string, Table>, a: string, b: string) {
    exists p :: IsPath(g, p) && p[0] == a && p[|p| - 1] == b
  }

  lemma ReachesSelf(g: map<string, Table>, a: string)
    ensures Reaches(g, a, a)
  {
    assert IsPath(g, [a]);
  }

  lemma {:induction false} PathExtends(g: map<string, Table>, p: seq<string>, c: string)
    requires IsPath(g, p) && Edge(g, p[|p| - 1], c)
    ensures IsPath(g, p + [c])
  {
    if |p| == 1 {
      assert (p + [c])[1..] == [c];
    } else {
      PathExtends(g, p[1..], c);
      assert (p + [c])[1..] == p[1..] + [c];
    }
  }

  lemma ReachesStep(g: map<string, Table>, a: string, b: string, c: string)
    requires Reaches(g, a, b) && Edge(g, b, c)
    ensures Reaches(g, a, c)
  {
    var p :| IsPath(g, p) && p[0] == a && p[|p| - 1] == b;
    PathExtends(g, p, c);
    assert (p + [c])[0] == a;
  }

  /** Every one of the tables reaches the given one. */
  ghost predicate AllReach(g: map<string, Table>, us: set<string>, b: string) {
    forall u :: u in us ==> Reaches(g, u, b)
  }

  lemma AllReachStep(g: map<string, Table>, us: set<string>, b: string, c: string)
    requires Edge(g, b, c) && AllReach(g, us, b)
    ensures AllReach(g, us, c)
  {
    forall u | u in us ensures Reaches(g, u, c) {
      ReachesStep(g, u, b, c);
    }
  }

  function NameSet(tables: seq<Table>): set<string> {
    if tables == [] then {} else NameSet(tables[..|tables| - 1]) + {tables[|tables| - 1].name}
  }

  /** What a table refers to is finished before, or reaches back to it. */
  ghost predicate Finishable(g: map<string, Table>, done: set<string>, name: string) {
    forall b :: Edge(g, name, b) ==> b in done || Reaches(g, b, name)
  }

  /** Every table was finishable when it was finished. */
  ghost predicate WellSorted(g: map<string, Table>, sorted: seq<Table>) {
    sorted == [] ||
    var before, t := sorted[..|sorted| - 1], sorted[|sorted| - 1];
    && WellSorted(g, before)
    && t.name in g && g[t.name] == t && t.name !in NameSet(before)
    && Finishable(g, NameSet(before), t.name)
  }

  /** The tables finished so far, and the ones on the way to the current one. */
  ghost predicate Consistent(g: map<string, Table>, visited: set<string>, visiting: set<string>, sorted: seq<Table>) {
    WellSorted(g, sorted) && visited == NameSet(sorted) && visited !! visiting && visiting <= g.Keys
  }

  /** Each of the references leads to a table that is finished or on the way. */
  ghost predicate Handled(g: map<string, Table>, ds: seq<string>, visited: set<string>, visiting: set<string>) {
    forall b :: b in ds && b in g ==> b in visited || b in visiting
  }

  lemma HandledNext(g: map<string, Table>, ds: seq<string>, i: nat, was: set<string>, visited: set<string>,
      visiting: set<string>)
    requires i < |ds| && was <= visited && Handled(g, ds[..i], was, visiting)
    requires ds[i] in g ==> ds[i] in visited || ds[i] in visiting
    ensures Handled(g, ds[..i + 1], visited, visiting)
  {
    assert ds[..i + 1] == ds[..i] + [ds[i]];
  }

  /** A table can be finished when its references are handled and all tables on the way reach it. */
  lemma Finish(g: map<string, Table>, visited: set<string>, visiting: set<string>, sorted: seq<Table>, name: string)
    requires Consistent(g, visited, visiting, sorted) && name in visiting && name in g && g[name].name == name
    requires AllReach(g, visiting, name) && Handled(g, Refs(g[name].constraints), visited, visiting)
    ensures Consistent(g, visited + {name}, visiting - {name}, sorted + [g[name]])
  {
    var next := sorted + [g[name]];
    assert next[..|next| - 1] == sorted;
    forall b | Edge(g, name, b) ensures b in visited || Reaches(g, b, name) {
      RefsExactly(g[name].constraints, b);
    }
  }

  // ---------- What the finished sort is

  ghost predicate IndexedBy(tables: seq<Table>, g: map<string, Table>) {
    && g.Keys == (set i | 0 <= i < |tables| :: tables[i].name)
    && forall i :: 0 <= i < |tables| ==> g[tables[i].name] == tables[i]
  }

  /** A foreign key of a table leads to one that stands behind it only if foreign keys lead back from there. */
  ghost predicate KeysInOrder(g: map<string, Table>, sorted: seq<Table>) {
    forall i, j, c :: 0 <= i < j < |sorted| && c in sorted[i].constraints ==>
      c.kind == ForeignKey && c.refTable == sorted[j].name ==> Reaches(g, sorted[j].name, sorted[i].name)
  }

  lemma OrderedByKeys(g: map<string, Table>, sorted: seq<Table>)
    requires Ordered(g, sorted)
    requires forall i :: 0 <= i < |sorted| ==> sorted[i].name in g && g[sorted[i].name] == sorted[i]
    ensures KeysInOrder(g, sorted)
  {
    forall i, j, c | 0 <= i < j < |sorted| && c in sorted[i].constraints && c.kind == ForeignKey
      && c.refTable == sorted[j].name
      ensures Reaches(g, sorted[j].name, sorted[i].name)
    {
      assert RefersTo(sorted[i].constraints, c.refTable);
      assert Edge(g, sorted[i].name, sorted[j].name);
    }
  }

  /** Each table stands after the tables it refers to, unless the reference closes a cycle. */
  ghost predicate Ordered(g: map<string, Table>, sorted: seq<Table>) {
    forall i, j :: 0 <= i < j < |sorted| && Edge(g, sorted[i].name, sorted[j].name) ==>
      Reaches(g, sorted[j].name, sorted[i].name)
  }

  lemma {:induction false} NameSetHas(tables: seq<Table>)
    ensures forall i :: 0 <= i < |tables| ==> tables[i].name in NameSet(tables)
    ensures forall n :: n in NameSet(tables) ==> exists i :: 0 <= i < |tables| && tables[i].name == n
  {
    if tables != [] {
      var before := tables[..|tables| - 1];
      NameSetHas(before);
      forall n | n in NameSet(tables) ensures exists i :: 0 <= i < |tables| && tables[i].name == n {
        if n in NameSet(before) {
          var i :| 0 <= i < |before| && before[i].name == n;
          assert tables[i].name == n;
        }
      }
    }
  }

  lemma {:induction false} WellSortedMeans(g: map<string, Table>, sorted: seq<Table>)
    requires WellSorted(g, sorted)
    ensures forall i :: 0 <= i < |sorted| ==> sorted[i].name in g && g[sorted[i].name] == sorted[i]
    ensures DistinctNames(sorted) && Ordered(g, sorted)
  {
    if sorted != [] {
      var before, t := sorted[..|sorted| - 1], sorted[|sorted| - 1];
      WellSortedMeans(g, before);
      NameSetHas(before);
      forall i, j | 0 <= i < j < |sorted|
        ensures sorted[i].name != sorted[j].name
        ensures Edge(g, sorted[i].name, sorted[j].name) ==> Reaches(g, sorted[j].name, sorted[i].name)
      {
        assert sorted[i] == before[i];
        if j < |before| {
          assert sorted[j] == before[j];
        } else if Edge(g, before[i].name, t.name) {
          LateReference(g, before, i, t.name);
        }
      }
    }
  }

  /** A reference to a table that was not finished in time reaches back. */
  lemma {:induction false} LateReference(g: map<string, Table>, sorted: seq<Table>, i: nat, late: string)
    requires WellSorted(g, sorted) && i < |sorted| && late !in NameSet(sorted) && Edge(g, sorted[i].name, late)
    ensures Reaches(g, late, sorted[i].name)
  {
    if i < |sorted| - 1 {
      LateReference(g, sorted[..|sorted| - 1], i, late);
    }
  }

  /** Two lists of the same tables, each without repetition, are permutations of each other. */
  lemma SameTables(a: seq<Table>, b: seq<Table>)
    requires DistinctNames(a) && DistinctNames(b)
    requires forall x :: x in a <==> x in b
    ensures multiset(a) == multiset(b)
  {
    forall x ensures multiset(a)[x] == multiset(b)[x] {
      OnceAtMost(a, x);
      OnceAtMost(b, x);
      assert x in multiset(a) <==> x in a;
      assert x in multiset(b) <==> x in b;
    }
  }

  lemma {:induction false} OnceAtMost(a: seq<Table>, x: Table)
    requires DistinctNames(a)
    ensures multiset(a)[x] <= 1
  {
    if a != [] {
      assert a == [a[0]] + a[1..];
      OnceAtMost(a[1..], x);
      assert x == a[0] ==> x !in a[1..];
      assert x !in a[1..] ==> multiset(a[1..])[x] == 0;
    }
  }

  lemma SortIsDone(tables: seq<Table>, g: map<string, Table>, visited: set<string>, sorted: seq<Table>)
    requires DistinctNames(tables) && IndexedBy(tables, g) && Consistent(g, visited, {}, sorted)
    requires forall i :: 0 <= i < |tables| ==> tables[i].name in visited
    ensures multiset(sorted) == multiset(tables) && DistinctNames(sorted)
    ensures Ordered(g, sorted) && KeysInOrder(g, sorted)
  {
    WellSortedMeans(g, sorted);
    OrderedByKeys(g, sorted);
    NameSetHas(sorted);
    forall x ensures x in tables <==> x in sorted {
      if x in tables {
        var k :| 0 <= k < |tables| && tables[k] == x;
        assert x.name in visited;
      }
    }
    SameTables(sorted, tables);
  }

  lemma {:induction false} PathDescends(g: map<string, Table>, rank: map<string, nat>, p: seq<string>)
    requires IsPath(g, p) && forall a, b :: Edge(g, a, b) ==> a in rank && b in rank && rank[b] < rank[a]
    ensures |p| > 1 ==> p[0] in rank && p[|p| - 1] in rank && rank[p[|p| - 1]] < rank[p[0]]
  {
    if |p| > 1 {
      PathDescends(g, rank, p[1..]);
    }
  }

  /** Without cycles, which a ranking of the tables rules out, every table comes after all the tables
      it refers to. */
  lemma AcyclicMeansSorted(g: map<string, Table>, sorted: seq<Table>, rank: map<string, nat>)
    requires KeysInOrder(g, sorted)
    requires forall i :: 0 <= i < |sorted| ==> sorted[i].name in g && g[sorted[i].name] == sorted[i]
    requires forall a, b :: Edge(g, a, b) ==> a in rank && b in rank && rank[b] < rank[a]
    ensures forall i, j, c :: 0 <= i < j < |sorted| && c in sorted[i].constraints ==>
              !(c.kind == ForeignKey && c.refTable == sorted[j].name)
  {
    forall i, j, c | 0 <= i < j < |sorted| && c in sorted[i].constraints
      ensures !(c.kind == ForeignKey && c.refTable == sorted[j].name)
    {
      var a, b := sorted[i].name, sorted[j].name;
      if c.kind == ForeignKey && c.refTable == b {
        var p :| IsPath(g, p) && p[0] == b && p[|p| - 1] == a;
        PathDescends(g, rank, p);
        assert RefersTo(sorted[i].constraints, b);
        assert Edge(g, a, b);
      }
    }
  }
}

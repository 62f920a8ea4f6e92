/** The order in which tables are created: depth-first along the foreign keys. */
module TopoSort {
  import opened Collections
  import opened Schema
  import opened ForeignKeys

  /** Appends the table of each foreign key. */
  method CollectRefs(cs: seq<Constraint>) returns (ds: seq<string>)
    ensures ds == Refs(cs) && forall b :: b in ds <==> RefersTo(cs, b)
  {
    ds := [];
    for c := 0 to |cs|
      invariant ds == Refs(cs[..c])
    {
      assert cs[..c + 1] == cs[..c] + [cs[c]];
      RefsConcat(cs[..c], [cs[c]]);
      if cs[c].kind.ForeignKey? {
        ds := ds + [cs[c].refTable];
      }
    }
    assert cs[..|cs|] == cs;
    forall b ensures b in ds <==> RefersTo(cs, b) {
      RefsExactly(cs, b);
    }
  }

  class Sorter {
    var tableMap: map<string, Table>
    var deps: map<string, seq<string>>
    var visited: set<string>
    var visiting: set<string>
    var sorted: seq<Table>

    ghost predicate Built()
      reads this`tableMap, this`deps
    {
      forall n :: n in tableMap ==>
        tableMap[n].name == n && (if n in deps then deps[n] else []) == Refs(tableMap[n].constraints)
    }

    ghost predicate Valid()
      reads this
    {
      Built() && Consistent(tableMap, visited, visiting, sorted)
    }

    constructor (tables: seq<Table>)
      requires DistinctNames(tables)
      ensures Valid() && sorted == [] && visiting == {} && IndexedBy(tables, tableMap)
    {
      visited, visiting, sorted := {}, {}, [];
      var names: map<string, Table> := map[];
      var refs: map<string, seq<string>> := map[];
      for i := 0 to |tables|
        invariant names.Keys == set k | 0 <= k < i :: tables[k].name
        invariant forall k :: 0 <= k < i ==> names[tables[k].name] == tables[k]
        invariant refs.Keys <= names.Keys
        invariant forall n :: n in names
                    ==> names[n].name == n && (if n in refs then refs[n] else []) == Refs(names[n].constraints)
      {
        var t := tables[i];
        names := names[t.name := t];
        var ds := CollectRefs(t.constraints);
        if ds != [] {
          refs := refs[t.name := ds];
        }
      }
      tableMap, deps := names, refs;
    }

    /** Finishes a table after everything it refers to, except what is still being visited. */
    method Visit(name: string, ghost todo: set<string>)
      requires Valid() && name in tableMap && tableMap.Keys - visited - visiting <= todo
      requires AllReach(tableMap, visiting, name)
      modifies this`visited, this`visiting, this`sorted
      ensures Valid() && visiting == old(visiting) && old(visited) <= visited
      ensures name in visited || name in visiting
      decreases todo, 0
    {
      if name in visited {
        return;
      }
      if name in visiting {
        return;
      }
      Enter(name);
      VisitRefs(name, if name in deps then deps[name] else [], todo - {name});
      Leave(name);
      assert visiting == old(visiting);
    }

    method VisitAll(tables: seq<Table>)
      requires Valid() && visiting == {} && IndexedBy(tables, tableMap)
      modifies this`visited, this`visiting, this`sorted
      ensures Valid() && visiting == {}
      ensures forall k :: 0 <= k < |tables| ==> tables[k].name in visited
    {
      hide WellSorted, Edge, Reaches;
      for i := 0 to |tables|
        invariant Valid() && visiting == {}
        invariant forall k :: 0 <= k < i ==> tables[k].name in visited
      {
        Visit(tables[i].name, tableMap.Keys);
      }
    }

    method Enter(name: string)
      requires Valid() && name in tableMap && name !in visited
      requires AllReach(tableMap, visiting, name)
      modifies this`visiting
      ensures Valid() && visiting == old(visiting) + {name}
      ensures AllReach(tableMap, visiting, name)
    {
      visiting := visiting + {name};
      ReachesSelf(tableMap, name);
    }

    method VisitRefs(name: string, ds: seq<string>, ghost todo: set<string>)
      requires tableMap.Keys - visited - visiting <= todo
      requires Valid() && name in visiting && name in tableMap && ds == Refs(tableMap[name].constraints)
      requires AllReach(tableMap, visiting, name)
      modifies this`visited, this`visiting, this`sorted
      ensures Valid() && visiting == old(visiting) && old(visited) <= visited
      ensures Handled(tableMap, ds, visited, visiting)
      decreases todo, 1
    {
      for i := 0 to |ds|
        invariant Valid() && visiting == old(visiting) && old(visited) <= visited
        invariant Handled(tableMap, ds[..i], visited, visiting)
      {
        ghost var was := visited;
        if ds[i] in tableMap {
          RefsExactly(tableMap[name].constraints, ds[i]);
          AllReachStep(tableMap, visiting, name, ds[i]);
          Visit(ds[i], todo);
        }
        HandledNext(tableMap, ds, i, was, visited, visiting);
      }
      assert ds[..|ds|] == ds;
    }

    /** The end of a visit. */
    method Leave(name: string)
      requires Valid() && name in visiting && name in tableMap
      requires AllReach(tableMap, visiting, name)
      requires Handled(tableMap, Refs(tableMap[name].constraints), visited, visiting)
      modifies this`visited, this`visiting, this`sorted
      ensures Valid() && visiting == old(visiting) - {name} && visited == old(visited) + {name}
    {
      hide Handled, AllReach, Consistent;
      Finish(tableMap, visited, visiting, sorted, name);
      visiting, visited := visiting - {name}, visited + {name};
      sorted := sorted + [tableMap[name]];
    }
  }

  /** The sorted tables are the given tables, each after the ones it refers to; a reference goes the
      other way only where it closes a cycle. */
  method TopoSortTables(tables: seq<Table>) returns (sorted: seq<Table>, ghost g: map<string, Table>)
    requires DistinctNames(tables)
    ensures multiset(sorted) == multiset(tables) && DistinctNames(sorted)
    ensures IndexedBy(tables, g) && Ordered(g, sorted) && KeysInOrder(g, sorted)
  {
    var s := new Sorter(tables);
    s.VisitAll(tables);
    SortIsDone(tables, s.tableMap, s.visited, s.sorted);
    sorted, g := s.sorted, s.tableMap;
  }
}

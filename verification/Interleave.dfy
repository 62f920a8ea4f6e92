/** Spreading the tasks round-robin over tables and partitions. */
module Interleave {
  import opened Collections
  import opened Planner
  import opened RoundRobin
  import K = Keys

  /** Tasks with the same key share a bucket. */
  function BucketKey(t: TableTask): string {
    t.table.name + (if t.partition.Some? then ":" + t.partition.value.name else "")
  }

  /** The same table, and the same partition or none. */
  predicate SamePlace(a: TableTask, b: TableTask) {
    && a.table.name == b.table.name && (a.partition.None? <==> b.partition.None?)
    && (a.partition.Some? ==> a.partition.value.name == b.partition.value.name)
  }

  /** Tasks of one place share a bucket, and with colon-free table names no others do. */
  lemma BucketExactly(a: TableTask, b: TableTask)
    ensures SamePlace(a, b) ==> BucketKey(a) == BucketKey(b)
    ensures K.ColonFree(a.table.name) && K.ColonFree(b.table.name) && BucketKey(a) == BucketKey(b) ==> SamePlace(a, b)
  {
    if K.ColonFree(a.table.name) && K.ColonFree(b.table.name) && BucketKey(a) == BucketKey(b) {
      var u := if a.partition.Some? then ":" + a.partition.value.name else "";
      var v := if b.partition.Some? then ":" + b.partition.value.name else "";
      K.FirstColon(a.table.name, u, b.table.name, v);
      assert a.partition.Some? && b.partition.Some? ==>
          a.partition.value.name == u[1..] && b.partition.value.name == v[1..];
    }
  }

  function HasKey(key: string): TableTask -> bool { (t: TableTask) => BucketKey(t) == key }

  function Bucket(tasks: seq<TableTask>, key: string): seq<TableTask> { Filter(tasks, HasKey(key)) }

  /** The bucket keys in the order of their first appearance. */
  function Keys(tasks: seq<TableTask>): seq<string> {
    if tasks == [] then []
    else
      var before, key := Keys(tasks[..|tasks| - 1]), BucketKey(tasks[|tasks| - 1]);
      if key in before then before else before + [key]
  }

  function BucketOf(tasks: seq<TableTask>): string -> seq<TableTask> { (key: string) => Bucket(tasks, key) }

  /** The first n rounds. */
  function Rounds(tasks: seq<TableTask>, n: nat): seq<TableTask> {
    if n == 0 then [] else Rounds(tasks, n - 1) + Round(BucketOf(tasks), Keys(tasks), n - 1, |Keys(tasks)|)
  }

  /** Round by round until every bucket is used up. */
  function Interleaved(tasks: seq<TableTask>): seq<TableTask> { Rounds(tasks, |tasks|) }

  // ---------- What the rounds contain

  lemma {:induction false} KeysAre(tasks: seq<TableTask>)
    ensures Distinct(Keys(tasks), |Keys(tasks)|)
    ensures forall i :: 0 <= i < |tasks| ==> BucketKey(tasks[i]) in Keys(tasks)
  {
    if tasks != [] {
      var before := tasks[..|tasks| - 1];
      KeysAre(before);
      assert forall i :: 0 <= i < |tasks| - 1 ==> before[i] == tasks[i];
      var key := BucketKey(tasks[|tasks| - 1]);
      DistinctExtend(Keys(before), [key], |Keys(before)|);
      KeySetIs(Keys(before), |Keys(before)|);
      assert Keys(before)[..|Keys(before)|] == Keys(before);
    }
  }

  /** Of two keys the one whose first task comes first is first. */
  lemma {:induction false} KeysByAppearance(tasks: seq<TableTask>, a: nat, b: nat) returns (i: nat)
    requires a < b < |Keys(tasks)|
    ensures i < |tasks| && BucketKey(tasks[i]) == Keys(tasks)[a]
    ensures forall k :: 0 <= k <= i ==> BucketKey(tasks[k]) != Keys(tasks)[b]
  {
    var last := |tasks| - 1;
    var before := tasks[..last];
    if b < |Keys(before)| {
      i := KeysByAppearance(before, a, b);
      assert forall k :: 0 <= k <= i ==> before[k] == tasks[k];
    } else {
      KeysAre(before);
      i := KeyAppears(before, a);
      assert forall k :: 0 <= k <= i ==> before[k] == tasks[k];
    }
  }

  lemma {:induction false} KeyAppears(tasks: seq<TableTask>, a: nat) returns (i: nat)
    requires a < |Keys(tasks)|
    ensures i < |tasks| && BucketKey(tasks[i]) == Keys(tasks)[a]
  {
    var last := |tasks| - 1;
    if a < |Keys(tasks[..last])| {
      i := KeyAppears(tasks[..last], a);
    } else {
      i := last;
    }
  }

  lemma {:induction false} FilterKeeps<T>(s: seq<T>, p: T -> bool)
    ensures |Filter(s, p)| <= |s| && forall i :: 0 <= i < |Filter(s, p)| ==> p(Filter(s, p)[i])
  {
    if s != [] {
      FilterKeeps(s[1..], p);
    }
  }

  lemma FilterSingle<T>(x: T, p: T -> bool)
    ensures Filter([x], p) == if p(x) then [x] else []
  {
    assert [x][1..] == [];
  }

  /** The task taken from the bucket of k is in the bucket of k. */
  lemma BucketOfTurn(tasks: seq<TableTask>, k: string, r: nat, key: string)
    ensures Bucket(Turn(Bucket(tasks, k), r), key) == if k == key then Turn(Bucket(tasks, k), r) else []
  {
    FilterKeeps(tasks, HasKey(k));
    if r < |Bucket(tasks, k)| {
      var t := Bucket(tasks, k)[r];
      assert HasKey(k)(t) && HasKey(key)(t) == (k == key);
      FilterSingle(t, HasKey(key));
    }
  }

  lemma JoinTurn(tasks: seq<TableTask>, before: seq<TableTask>, k: string, r: nat, key: string)
    ensures Bucket(before + Turn(Bucket(tasks, k), r), key)
         == Bucket(before, key) + if k == key then Turn(Bucket(tasks, k), r) else []
  {
    FilterConcat(before, Turn(Bucket(tasks, k), r), HasKey(key));
    BucketOfTurn(tasks, k, r, key);
  }

  /** A round takes from a bucket what is its turn, and nothing else. */
  lemma {:induction false} BucketOfRound(tasks: seq<TableTask>, keys: seq<string>, r: nat, n: nat, key: string)
    requires n <= |keys| && Distinct(keys, n)
    ensures Bucket(Round(BucketOf(tasks), keys, r, n), key)
         == if key in KeySet(keys, n) then Turn(Bucket(tasks, key), r) else []
  {
    if n > 0 {
      BucketOfRound(tasks, keys, r, n - 1, key);
      JoinTurn(tasks, Round(BucketOf(tasks), keys, r, n - 1), keys[n - 1], r, key);
    }
  }

  lemma {:induction false} BucketOfRounds(tasks: seq<TableTask>, n: nat, key: string)
    ensures Bucket(Rounds(tasks, n), key) == Prefix(Bucket(tasks, key), n)
  {
    if n > 0 {
      BucketOfRounds(tasks, n - 1, key);
      BucketTurn(tasks, n - 1, key);
      FilterConcat(Rounds(tasks, n - 1), Round(BucketOf(tasks), Keys(tasks), n - 1, |Keys(tasks)|), HasKey(key));
      PrefixTurn(Bucket(tasks, key), n - 1);
    }
  }

  /** In a full round every bucket has its turn. */
  lemma BucketTurn(tasks: seq<TableTask>, r: nat, key: string)
    ensures Bucket(Round(BucketOf(tasks), Keys(tasks), r, |Keys(tasks)|), key) == Turn(Bucket(tasks, key), r)
  {
    KeysAre(tasks);
    var keys := Keys(tasks);
    KeySetIs(keys, |keys|);
    assert keys[..|keys|] == keys;
    BucketOfRound(tasks, keys, r, |keys|, key);
    if Turn(Bucket(tasks, key), r) != [] {
      NonEmptyBucket(tasks, key);
    }
  }

  lemma {:induction false} NonEmptyBucket(tasks: seq<TableTask>, key: string)
    requires Bucket(tasks, key) != []
    ensures key in Keys(tasks)
  {
    KeysAre(tasks);
    FilterMember(tasks, HasKey(key), Bucket(tasks, key)[0]);
  }

  lemma {:induction false} FilterMultiset<T>(s: seq<T>, p: T -> bool, x: T)
    requires p(x)
    ensures multiset(Filter(s, p))[x] == multiset(s)[x]
  {
    if s != [] {
      FilterMultiset(s[1..], p, x);
      assert s == [s[0]] + s[1..];
    }
  }

  /** Interleaving loses and doubles nothing, and keeps the order within every bucket. */
  lemma InterleavedIsPermutation(tasks: seq<TableTask>)
    ensures multiset(Interleaved(tasks)) == multiset(tasks)
    ensures forall key :: Bucket(Interleaved(tasks), key) == Bucket(tasks, key)
  {
    var all := Interleaved(tasks);
    forall key ensures Bucket(all, key) == Bucket(tasks, key) {
      BucketOfRounds(tasks, |tasks|, key);
      FilterKeeps(tasks, HasKey(key));
    }
    forall x ensures multiset(all)[x] == multiset(tasks)[x] {
      FilterMultiset(all, HasKey(BucketKey(x)), x);
      FilterMultiset(tasks, HasKey(BucketKey(x)), x);
      assert Bucket(all, BucketKey(x)) == Bucket(tasks, BucketKey(x));
    }
  }

  function AtPlace(x: TableTask): TableTask -> bool { (t: TableTask) => SamePlace(x, t) }

  ghost predicate ColonFreeTables(tasks: seq<TableTask>) {
    forall i :: 0 <= i < |tasks| ==> K.ColonFree(tasks[i].table.name)
  }

  lemma {:induction false} PlaceIsBucket(tasks: seq<TableTask>, x: TableTask)
    requires ColonFreeTables(tasks) && K.ColonFree(x.table.name)
    ensures Filter(tasks, AtPlace(x)) == Bucket(tasks, BucketKey(x))
  {
    if tasks != [] {
      BucketExactly(x, tasks[0]);
      PlaceIsBucket(tasks[1..], x);
    }
  }

  /** The tasks of each table or partition keep their order. */
  lemma PlacesKeepOrder(tasks: seq<TableTask>, x: TableTask)
    requires ColonFreeTables(tasks) && K.ColonFree(x.table.name)
    ensures Filter(Interleaved(tasks), AtPlace(x)) == Filter(tasks, AtPlace(x))
  {
    InterleavedIsPermutation(tasks);
    var all := Interleaved(tasks);
    forall i | 0 <= i < |all| ensures K.ColonFree(all[i].table.name) {
      assert all[i] in multiset(all);
      assert all[i] in multiset(tasks);
    }
    PlaceIsBucket(all, x);
    PlaceIsBucket(tasks, x);
  }

  lemma {:induction false} RoundsGrow(tasks: seq<TableTask>, m: nat, n: nat)
    requires m <= n
    ensures Rounds(tasks, m) <= Rounds(tasks, n)
  {
    if m < n {
      RoundsGrow(tasks, m, n - 1);
    }
  }

  /** Once all tasks are out, further rounds add nothing. */
  lemma RoundsDone(tasks: seq<TableTask>, r: nat)
    ensures |Rounds(tasks, r)| >= |tasks| ==> Rounds(tasks, r) == Interleaved(tasks)
    ensures |Rounds(tasks, r)| < |tasks| ==> r < |tasks|
  {
    InterleavedIsPermutation(tasks);
    assert |multiset(Interleaved(tasks))| == |Interleaved(tasks)| && |multiset(tasks)| == |tasks|;
    if r <= |tasks| {
      RoundsGrow(tasks, r, |tasks|);
    } else {
      RoundsGrow(tasks, |tasks|, r);
      AllOut(tasks, r);
    }
  }

  lemma AllOut(tasks: seq<TableTask>, n: nat)
    requires n >= |tasks|
    ensures |Rounds(tasks, n)| == |tasks|
  {
    forall x ensures multiset(Rounds(tasks, n))[x] == multiset(tasks)[x] {
      EachIsOut(tasks, n, x);
    }
    assert multiset(Rounds(tasks, n)) == multiset(tasks);
    assert |multiset(Rounds(tasks, n))| == |Rounds(tasks, n)| && |multiset(tasks)| == |tasks|;
  }

  lemma EachIsOut(tasks: seq<TableTask>, n: nat, x: TableTask)
    requires n >= |tasks|
    ensures multiset(Rounds(tasks, n))[x] == multiset(tasks)[x]
  {
    var key := BucketKey(x);
    BucketOfRounds(tasks, n, key);
    FilterKeeps(tasks, HasKey(key));
    assert Bucket(Rounds(tasks, n), key) == Bucket(tasks, key);
    FilterMultiset(Rounds(tasks, n), HasKey(key), x);
    FilterMultiset(tasks, HasKey(key), x);
  }

  // ---------- The method

  method GroupTasks(tasks: seq<TableTask>) returns (buckets: map<string, seq<TableTask>>, order: seq<string>)
    ensures order == Keys(tasks) && buckets.Keys == (set k | k in order)
    ensures forall k :: k in order ==> buckets[k] == Bucket(tasks, k)
  {
    buckets, order := map[], [];
    for i := 0 to |tasks|
      invariant order == Keys(tasks[..i]) && buckets.Keys == (set k | k in order)
      invariant forall k :: k in order ==> buckets[k] == Bucket(tasks[..i], k)
    {
      var t := tasks[i];
      var key := BucketKey(t);
      assert tasks[..i + 1] == tasks[..i] + [t] && tasks[..i + 1][..i] == tasks[..i];
      forall k ensures Bucket(tasks[..i + 1], k) == Bucket(tasks[..i], k) + (if k == key then [t] else []) {
        FilterConcat(tasks[..i], [t], HasKey(k));
        assert [t][1..] == [];
      }
      if key !in buckets {
        assert Bucket(tasks[..i], key) == [] by {
          if Bucket(tasks[..i], key) != [] {
            NonEmptyBucket(tasks[..i], key);
          }
        }
        buckets := buckets[key := []];
        order := order + [key];
      }
      buckets := buckets[key := buckets[key] + [t]];
    }
    assert tasks[..|tasks|] == tasks;
  }

  /** Between two rounds. */
  ghost predicate Between(tasks: seq<TableTask>, result: seq<TableTask>, r: nat) {
    && result == Rounds(tasks, r)
    && (|result| >= |tasks| ==> result == Interleaved(tasks))
    && (|result| < |tasks| ==> r < |tasks|)
  }

  lemma NextRound(tasks: seq<TableTask>, result: seq<TableTask>, r: nat)
    requires Between(tasks, result, r)
    ensures Between(tasks, result + Round(BucketOf(tasks), Keys(tasks), r, |Keys(tasks)|), r + 1)
  {
    RoundsDone(tasks, r + 1);
  }

  method InterleaveTasksByTable(tasks: seq<TableTask>) returns (result: seq<TableTask>)
    ensures result == Interleaved(tasks)
  {
    if |tasks| <= 1 {
      Alone(tasks);
      return tasks;
    }
    var buckets, order := GroupTasks(tasks);
    KeysAre(tasks);
    KeySetIs(order, |order|);
    assert order[..|order|] == order;
    result := [];
    ghost var r := 0;
    RoundsDone(tasks, 0);
    while |result| < |tasks|
      invariant buckets.Keys == KeySet(order, |order|) && Served(buckets, BucketOf(tasks), r, {})
      invariant Between(tasks, result, r)
      decreases |tasks| - r
    {
      var taken;
      buckets, taken := ServeRound(buckets, BucketOf(tasks), order, r);
      NextRound(tasks, result, r);
      result := result + taken;
      r := r + 1;
    }
  }

  lemma Alone(tasks: seq<TableTask>)
    requires |tasks| <= 1
    ensures Interleaved(tasks) == tasks
  {
    InterleavedIsPermutation(tasks);
    if |tasks| == 1 {
      assert Bucket(Interleaved(tasks), BucketKey(tasks[0])) == Bucket(tasks, BucketKey(tasks[0]));
      assert |multiset(Interleaved(tasks))| == |Interleaved(tasks)| == 1;
      assert Interleaved(tasks)[0] in multiset(tasks);
    }
  }
}

/** One round of taking from every bucket that still has something. */
module RoundRobin {
  import opened Collections

  /** The r-th item of a bucket, if there is one. */
  function Turn<T>(bucket: seq<T>, r: nat): seq<T> { if r < |bucket| then [bucket[r]] else [] }

  /** What is left of a bucket after r of its items have been taken. */
  function Rest<T>(bucket: seq<T>, r: nat): seq<T> { if r < |bucket| then bucket[r..] else [] }

  function Prefix<T>(s: seq<T>, n: nat): seq<T> { if n < |s| then s[..n] else s }

  lemma PrefixTurn<T>(bucket: seq<T>, r: nat)
    ensures Prefix(bucket, r) + Turn(bucket, r) == Prefix(bucket, r + 1)
  {
  }

  /** The r-th item of each of the first n buckets that has one. */
  function Round<K, T>(bucket: K -> seq<T>, keys: seq<K>, r: nat, n: nat): seq<T>
    requires n <= |keys|
  {
    if n == 0 then [] else Round(bucket, keys, r, n - 1) + Turn(bucket(keys[n - 1]), r)
  }

  /** A round goes through the keys in their order. */
  lemma {:induction false} RoundInOrder<K, T>(bucket: K -> seq<T>, keys: seq<K>, r: nat, n: nat)
    requires n <= |keys|
    ensures Round(bucket, keys, r, n)
         == Flatten(seq(n, i requires 0 <= i < n => if r < |bucket(keys[i])| then [bucket(keys[i])[r]] else []))
  {
    var turns := seq(n, i requires 0 <= i < n => if r < |bucket(keys[i])| then [bucket(keys[i])[r]] else []);
    if n > 0 {
      RoundInOrder(bucket, keys, r, n - 1);
      assert turns[..n - 1] == seq(n - 1, i requires 0 <= i < n - 1 =>
          if r < |bucket(keys[i])| then [bucket(keys[i])[r]] else []);
      FlattenNext(turns, n - 1);
      assert turns[..n] == turns;
    }
  }

  /** The first n keys as a set. */
  ghost function KeySet<K>(keys: seq<K>, n: nat): set<K>
    requires n <= |keys|
  {
    if n == 0 then {} else KeySet(keys, n - 1) + {keys[n - 1]}
  }

  /** The first n keys differ from one another. */
  ghost predicate Distinct<K>(keys: seq<K>, n: nat)
    requires n <= |keys|
  {
    n > 0 ==> keys[n - 1] !in KeySet(keys, n - 1) && Distinct(keys, n - 1)
  }

  lemma {:induction false} DistinctPrefix<K>(keys: seq<K>, n: nat, m: nat)
    requires n <= m <= |keys| && Distinct(keys, m)
    ensures Distinct(keys, n) && KeySet(keys, n) <= KeySet(keys, m) && (n < m ==> keys[n] in KeySet(keys, m))
  {
    if n < m {
      DistinctPrefix(keys, n, m - 1);
    }
  }

  /** More keys at the end change nothing for the first n. */
  lemma {:induction false} DistinctExtend<K>(keys: seq<K>, more: seq<K>, n: nat)
    requires n <= |keys|
    ensures KeySet(keys + more, n) == KeySet(keys, n) && Distinct(keys + more, n) == Distinct(keys, n)
  {
    if n > 0 {
      DistinctExtend(keys, more, n - 1);
    }
  }

  lemma {:induction false} KeySetIs<K>(keys: seq<K>, n: nat)
    requires n <= |keys|
    ensures KeySet(keys, n) == set k | k in keys[..n]
  {
    if n > 0 {
      KeySetIs(keys, n - 1);
      assert keys[..n] == keys[..n - 1] + [keys[n - 1]];
    }
  }

  /** In round r, the buckets in done have been served, and from the others r items have been taken. */
  ghost predicate Served<K(!new), T>(buckets: map<K, seq<T>>, bucket: K -> seq<T>, r: nat, done: set<K>) {
    forall k :: k in buckets ==> buckets[k] == Rest(bucket(k), if k in done then r + 1 else r)
  }

  /** Taking the first of what is left of a bucket is its next turn. */
  method TakeFirst<T>(b: seq<T>, ghost bucket: seq<T>, ghost r: nat) returns (first: seq<T>, rest: seq<T>)
    requires b == Rest(bucket, r)
    ensures first == Turn(bucket, r) && rest == Rest(bucket, r + 1)
  {
    if |b| > 0 {
      return [b[0]], b[1..];
    }
    return [], b;
  }

  lemma ServedMore<K(!new), T>(buckets: map<K, seq<T>>, bucket: K -> seq<T>, r: nat, done: set<K>, k: K)
    requires Served(buckets, bucket, r, done)
    ensures k in buckets && k !in done ==> buckets[k] == Rest(bucket(k), r)
    ensures Served(buckets[k := Rest(bucket(k), r + 1)], bucket, r, done + {k})
  {
  }

  lemma ServedAll<K(!new), T>(buckets: map<K, seq<T>>, bucket: K -> seq<T>, r: nat)
    requires Served(buckets, bucket, r, buckets.Keys)
    ensures Served(buckets, bucket, r + 1, {})
  {
  }

  method ServeRound<K(==, !new), T>(buckets: map<K, seq<T>>, ghost bucket: K -> seq<T>, keys: seq<K>, ghost r: nat)
    returns (served: map<K, seq<T>>, taken: seq<T>)
    requires Distinct(keys, |keys|) && buckets.Keys == KeySet(keys, |keys|) && Served(buckets, bucket, r, {})
    ensures taken == Round(bucket, keys, r, |keys|)
    ensures served.Keys == buckets.Keys && Served(served, bucket, r + 1, {})
  {
    hide Served;
    served, taken := buckets, [];
    for n := 0 to |keys|
      invariant taken == Round(bucket, keys, r, n)
      invariant served.Keys == buckets.Keys && Served(served, bucket, r, KeySet(keys, n))
    {
      var key := keys[n];
      DistinctPrefix(keys, n + 1, |keys|);
      ServedMore(served, bucket, r, KeySet(keys, n), key);
      assert served[key] == Rest(bucket(key), r);
      var first, rest := TakeFirst(served[key], bucket(key), r);
      taken := taken + first;
      served := served[key := rest];
    }
    ServedAll(served, bucket, r);
  }
}

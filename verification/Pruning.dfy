/** Range partitions: which partition a key belongs to, and which partitions a value range selects. */
module Pruning {
  import opened Collections
  import opened Schema

  predicate TextLess(a: string, b: string) {
    b != [] && (a == [] || a[0] < b[0] || (a[0] == b[0] && TextLess(a[1..], b[1..])))
  }

  /** Numbers compare as numbers, everything else as text: -1, 0 or 1. */
  function CompareValues(a: KeyText, b: KeyText): int {
    if a.number.Some? && b.number.Some? then
      if a.number.value < b.number.value then -1 else if a.number.value > b.number.value then 1 else 0
    else if TextLess(a.text, b.text) then -1
    else if TextLess(b.text, a.text) then 1
    else 0
  }

  predicate Unbounded(v: KeyText) { v.text == "" }

  predicate PartitionOverlaps(pLow: KeyText, pHigh: KeyText, fLow: KeyText, fHigh: KeyText) {
    if !Unbounded(pLow) && !Unbounded(fHigh) && CompareValues(pLow, fHigh) >= 0 then false
    else if !Unbounded(fLow) && !Unbounded(pHigh) && CompareValues(fLow, pHigh) >= 0 then false
    else true
  }

  const MINVALUE := KeyText("", None)

  /** The bounds of partition i: the high value of its predecessor, and its own. */
  function Lower(parts: seq<Partition>, i: nat): KeyText
    requires i < |parts|
  {
    if i == 0 then MINVALUE else parts[i - 1].high
  }

  predicate Overlaps(parts: seq<Partition>, i: nat, from: KeyText, upTo: KeyText)
    requires i < |parts|
  {
    PartitionOverlaps(Lower(parts, i), parts[i].high, from, upTo)
  }

  /** The partitions below n that overlap the range, in order. */
  function Selected(parts: seq<Partition>, from: KeyText, upTo: KeyText, n: nat): (r: seq<nat>)
    requires n <= |parts|
    ensures forall i: nat :: i in r <==> i < n && Overlaps(parts, i, from, upTo)
  {
    if n == 0 then []
    else Selected(parts, from, upTo, n - 1) + (if Overlaps(parts, n - 1, from, upTo) then [n - 1] else [])
  }

  method PrunePartitionsByRange(parts: seq<Partition>, from: KeyText, upTo: KeyText) returns (indices: seq<nat>)
    ensures indices == Selected(parts, from, upTo, |parts|)
  {
    indices := [];
    for i := 0 to |parts|
      invariant indices == Selected(parts, from, upTo, i)
    {
      var lower := if i == 0 then MINVALUE else parts[i - 1].high;
      if PartitionOverlaps(lower, parts[i].high, from, upTo) {
        indices := indices + [i];
      }
    }
  }

  // ---------- One class of keys is ordered

  lemma {:induction false} TextOrder(a: string, b: string, c: string)
    ensures !TextLess(a, a)
    ensures TextLess(a, b) ==> !TextLess(b, a)
    ensures TextLess(a, b) && !TextLess(c, b) ==> TextLess(a, c)
    ensures !TextLess(b, a) && TextLess(b, c) ==> TextLess(a, c)
  {
    if a != [] && b != [] && c != [] {
      TextOrder(a[1..], b[1..], c[1..]);
    } else if a != [] && b != [] {
      TextOrder(a[1..], b[1..], []);
    } else if a != [] && c != [] {
      TextOrder(a[1..], [], c[1..]);
    } else if a != [] {
      TextOrder(a[1..], [], []);
    }
  }

  /** Bounded values that are all numbers, or all texts that are no numbers. */
  predicate OneClass(numeric: bool, v: KeyText) { !Unbounded(v) && (v.number.Some? <==> numeric) }

  predicate Before(a: KeyText, b: KeyText) { CompareValues(a, b) < 0 }

  lemma KeyOrder(numeric: bool, a: KeyText, b: KeyText, c: KeyText)
    requires OneClass(numeric, a) && OneClass(numeric, b) && OneClass(numeric, c)
    ensures !Before(a, a)
    ensures Before(a, b) <==> CompareValues(b, a) > 0
    ensures Before(a, b) && !Before(c, b) ==> Before(a, c)
    ensures !Before(b, a) && Before(b, c) ==> Before(a, c)
  {
    if !numeric {
      TextOrder(a.text, b.text, c.text);
      TextOrder(b.text, a.text, c.text);
    }
  }

  /** The texts are the same up to a position at which the first one ends or has the smaller character. */
  ghost predicate ComesFirst(a: string, b: string) {
    exists n: nat :: n <= |a| && n < |b| && a[..n] == b[..n] && (n == |a| || a[n] < b[n])
  }

  lemma {:induction false} TextLessExactly(a: string, b: string)
    ensures TextLess(a, b) <==> ComesFirst(a, b)
  {
    if a != [] && b != [] && a[0] == b[0] {
      TextLessExactly(a[1..], b[1..]);
      if n: nat :| n <= |a[1..]| && n < |b[1..]| && a[1..][..n] == b[1..][..n]
                   && (n == |a[1..]| || a[1..][n] < b[1..][n]) {
        assert a[..n + 1] == [a[0]] + a[1..][..n] && b[..n + 1] == [b[0]] + b[1..][..n];
        assert n + 1 == |a| || a[n + 1] < b[n + 1];
      }
      if n: nat :| n <= |a| && n < |b| && a[..n] == b[..n] && (n == |a| || a[n] < b[n]) {
        assert n > 0 && a[1..][..n - 1] == a[..n][1..] && b[1..][..n - 1] == b[..n][1..];
        assert n - 1 == |a[1..]| || a[1..][n - 1] < b[1..][n - 1];
      }
    } else if TextLess(a, b) {
      assert a[..0] == b[..0];
    } else {
      assert forall n: nat :: 0 < n <= |a| && n <= |b| && a[..n] == b[..n] ==> a[..n][0] == b[..n][0];
    }
  }

  /** Numbers come in their own order, and other keys in that of their texts. */
  lemma BeforeExactly(a: KeyText, b: KeyText)
    ensures a.number.Some? && b.number.Some? ==> (Before(a, b) <==> a.number.value < b.number.value)
    ensures a.number.None? || b.number.None? ==> (Before(a, b) <==> ComesFirst(a.text, b.text))
  {
    TextLessExactly(a.text, b.text);
  }

  // ---------- Oracle's routing

  /** High values of one class in strictly increasing order; only the last may be MAXVALUE. */
  ghost predicate WellPartitioned(numeric: bool, parts: seq<Partition>) {
    && (forall i :: 0 <= i < |parts| - 1 ==> OneClass(numeric, parts[i].high))
    && (|parts| > 0 ==> Unbounded(parts[|parts| - 1].high) || OneClass(numeric, parts[|parts| - 1].high))
    && forall i, j :: 0 <= i < j < |parts| && !Unbounded(parts[j].high) ==> Before(parts[i].high, parts[j].high)
  }

  /** A key belongs to the partition whose high value is the first above it. */
  predicate Routes(parts: seq<Partition>, key: KeyText, i: nat)
    requires i < |parts|
  {
    && (i == 0 || !Before(key, parts[i - 1].high))
    && (Unbounded(parts[i].high) || Before(key, parts[i].high))
  }

  predicate InRange(key: KeyText, from: KeyText, upTo: KeyText) {
    !Before(key, from) && (Unbounded(upTo) || Before(key, upTo))
  }

  ghost predicate SomeKey(numeric: bool, parts: seq<Partition>, i: nat, from: KeyText, upTo: KeyText)
    requires i < |parts|
  {
    exists key :: OneClass(numeric, key) && Routes(parts, key, i) && InRange(key, from, upTo)
  }

  ghost predicate GoodRange(numeric: bool, from: KeyText, upTo: KeyText) {
    OneClass(numeric, from) && (Unbounded(upTo) || (OneClass(numeric, upTo) && Before(from, upTo)))
  }

  /** A partition is selected if and only if it can hold a row with a key in the range: no row of the
      range is lost, and no partition is read in vain. */
  lemma SelectedExactly(numeric: bool, parts: seq<Partition>, i: nat, from: KeyText, upTo: KeyText)
    requires WellPartitioned(numeric, parts) && i < |parts| && GoodRange(numeric, from, upTo)
    ensures Overlaps(parts, i, from, upTo) <==> SomeKey(numeric, parts, i, from, upTo)
  {
    var low, high := Lower(parts, i), parts[i].high;
    if key :| OneClass(numeric, key) && Routes(parts, key, i) && InRange(key, from, upTo) {
      if i > 0 && !Unbounded(upTo) {
        KeyOrder(numeric, low, key, upTo);
      }
      if !Unbounded(high) {
        KeyOrder(numeric, from, key, high);
      }
    }
    if Overlaps(parts, i, from, upTo) {
      // The later of the two lower bounds is a key of the partition and of the range.
      var key := if i > 0 && Before(from, low) then low else from;
      if i > 0 {
        KeyOrder(numeric, from, low, key);
        KeyOrder(numeric, low, low, low);
        KeyOrder(numeric, low, from, key);
        assert !Unbounded(high) ==> Before(parts[i - 1].high, high);
      }
      KeyOrder(numeric, from, from, from);
      assert Routes(parts, key, i) && InRange(key, from, upTo);
    }
  }

  /** The selected partitions are consecutive. */
  lemma SelectionIsContiguous(numeric: bool, parts: seq<Partition>, i: nat, j: nat, k: nat, from: KeyText,
      upTo: KeyText)
    requires WellPartitioned(numeric, parts) && i <= j <= k < |parts| && GoodRange(numeric, from, upTo)
    requires Overlaps(parts, i, from, upTo) && Overlaps(parts, k, from, upTo)
    ensures Overlaps(parts, j, from, upTo)
  {
    if i < j && !Unbounded(parts[j].high) {
      assert Before(parts[i].high, parts[j].high);
      KeyOrder(numeric, from, parts[i].high, parts[j].high);
    }
    if 0 < j < k && !Unbounded(upTo) {
      assert Before(parts[j - 1].high, parts[k - 1].high);
      KeyOrder(numeric, parts[j - 1].high, parts[k - 1].high, upTo);
    }
  }

  /** The ranges between consecutive high values tile the key space: every key below the last high
      value belongs to exactly one partition, and no other key to any. */
  lemma {:induction false} RoutedOnce(numeric: bool, parts: seq<Partition>, key: KeyText)
    requires WellPartitioned(numeric, parts) && parts != [] && OneClass(numeric, key)
    ensures (exists i :: 0 <= i < |parts| && Routes(parts, key, i)) <==>
              Unbounded(parts[|parts| - 1].high) || Before(key, parts[|parts| - 1].high)
    ensures forall i, j :: 0 <= i < j < |parts| && Routes(parts, key, i) ==> !Routes(parts, key, j)
  {
    var last := |parts| - 1;
    forall i, j | 0 <= i < j < |parts| && Routes(parts, key, i) ensures !Routes(parts, key, j) {
      if i < j - 1 {
        assert Before(parts[i].high, parts[j - 1].high);
        KeyOrder(numeric, key, parts[i].high, parts[j - 1].high);
        KeyOrder(numeric, parts[i].high, parts[j - 1].high, key);
      }
    }
    if Unbounded(parts[last].high) || Before(key, parts[last].high) {
      var i := FirstAbove(parts, key, last);
    }
    if i :| 0 <= i < |parts| && Routes(parts, key, i) {
      if i < last && !Unbounded(parts[last].high) {
        assert Before(parts[i].high, parts[last].high);
        KeyOrder(numeric, key, parts[i].high, parts[last].high);
      }
    }
  }

  lemma {:induction false} FirstAbove(parts: seq<Partition>, key: KeyText, i: nat) returns (k: nat)
    requires i < |parts| && (Unbounded(parts[i].high) || Before(key, parts[i].high))
    ensures k <= i && Routes(parts, key, k)
  {
    if i > 0 && Before(key, parts[i - 1].high) {
      k := FirstAbove(parts, key, i - 1);
    } else {
      k := i;
    }
  }
}

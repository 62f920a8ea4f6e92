/** Merging adjacent row-id ranges down to a wanted number. */
module MergeChunks {
  import opened Collections
  import opened Schema

  predicate Covers(c: RowIdChunk, rid: nat) {
    c.start.Some? && c.end.Some? && c.start.value <= rid <= c.end.value
  }

  function CoverCount(chunks: seq<RowIdChunk>, rid: nat): nat {
    Count(chunks, (c: RowIdChunk) => Covers(c, rid))
  }

  /** Bounded ranges in ascending order, none touching another. */
  ghost predicate Ascending(chunks: seq<RowIdChunk>) {
    && (forall i :: 0 <= i < |chunks|
         ==> chunks[i].start.Some? && chunks[i].end.Some? && chunks[i].start.value <= chunks[i].end.value)
    && (forall i, j :: 0 <= i < j < |chunks| ==> chunks[i].end.value < chunks[j].start.value)
  }

  /** How many of n chunks go into the i-th of k groups. */
  function GroupSize(n: nat, k: nat, i: nat): nat
    requires k > 0
  {
    n / k + (if i < n % k then 1 else 0)
  }

  function GroupStart(n: nat, k: nat, i: nat): nat
    requires k > 0
  {
    if i == 0 then 0 else GroupStart(n, k, i - 1) + GroupSize(n, k, i - 1)
  }

  lemma {:induction false} GroupStartIs(n: nat, k: nat, i: nat)
    requires k > 0
    ensures GroupStart(n, k, i) == i * (n / k) + (if i < n % k then i else n % k)
  {
    if i > 0 {
      GroupStartIs(n, k, i - 1);
      assert i * (n / k) == (i - 1) * (n / k) + n / k;
    }
  }

  lemma {:induction false} GroupStartAscends(n: nat, k: nat, i: nat, j: nat)
    requires k > 0 && i <= j
    ensures GroupStart(n, k, i) <= GroupStart(n, k, j)
    ensures i < j && k <= n ==> GroupStart(n, k, i) < GroupStart(n, k, j)
  {
    if i < j {
      GroupStartAscends(n, k, i, j - 1);
      if k <= n {
        assert n / k >= 1;
      }
    }
  }

  lemma GroupsFill(n: nat, k: nat)
    requires k > 0
    ensures GroupStart(n, k, k) == n
  {
    GroupStartIs(n, k, k);
    assert k * (n / k) + n % k == n;
  }

  /** One chunk from the first row id of a group to its last. */
  function Span(group: seq<RowIdChunk>, id: nat): RowIdChunk
    requires group != []
  {
    RowIdChunk(id, group[0].start, group[|group| - 1].end, group[0].partition)
  }

  lemma GroupBounds(n: nat, k: nat, i: nat)
    requires 0 < k <= n && i < k
    ensures GroupStart(n, k, i) < GroupStart(n, k, i + 1) <= n
  {
    GroupStartAscends(n, k, i, i + 1);
    GroupStartAscends(n, k, i + 1, k);
    GroupsFill(n, k);
  }

  /** The i-th of k groups, as one range. */
  function GroupSpan(chunks: seq<RowIdChunk>, k: nat, i: nat): RowIdChunk
    requires 0 < k <= |chunks| && i < k
  {
    GroupBounds(|chunks|, k, i);
    Span(chunks[GroupStart(|chunks|, k, i)..GroupStart(|chunks|, k, i + 1)], i)
  }

  /** Consecutive groups, each reduced to its span. */
  function Merged(chunks: seq<RowIdChunk>, targetN: int): seq<RowIdChunk> {
    if |chunks| <= targetN || targetN <= 0 then chunks
    else seq(targetN, i requires 0 <= i < targetN => GroupSpan(chunks, targetN, i))
  }

  method MergeChunks(chunks: seq<RowIdChunk>, targetN: int) returns (merged: seq<RowIdChunk>)
    ensures merged == Merged(chunks, targetN)
  {
    if |chunks| <= targetN || targetN <= 0 {
      return chunks;
    }
    merged := [];
    var perGroup, extra := |chunks| / targetN, |chunks| % targetN;
    var pos := 0;
    for i := 0 to targetN
      invariant |merged| == i && pos == GroupStart(|chunks|, targetN, i)
      invariant forall g :: 0 <= g < i ==> merged[g] == GroupSpan(chunks, targetN, g)
    {
      var size := perGroup;
      if i < extra {
        size := size + 1;
      }
      NextGroup(|chunks|, targetN, i);
      var group := chunks[pos..pos + size];
      merged := merged + [Span(group, i)];
      pos := pos + size;
    }
  }

  lemma NextGroup(n: nat, k: nat, i: nat)
    requires 0 < k < n && i < k
    ensures GroupStart(n, k, i + 1) == GroupStart(n, k, i) + n / k + (if i < n % k then 1 else 0)
    ensures GroupStart(n, k, i) < GroupStart(n, k, i + 1) <= n
  {
    GroupStartAscends(n, k, i, i + 1);
    GroupStartAscends(n, k, i + 1, k);
    GroupsFill(n, k);
  }

  /** The sizes of any two groups differ by at most one. */
  lemma GroupsAreEven(n: nat, k: nat, i: nat, j: nat)
    requires k > 0
    ensures GroupStart(n, k, i + 1) - GroupStart(n, k, i) <= GroupStart(n, k, j + 1) - GroupStart(n, k, j) + 1
  {}

  /** The group a chunk ends up in. */
  lemma {:induction false} FindGroup(n: nat, k: nat, m: nat, x: nat) returns (i: nat)
    requires k > 0 && x < GroupStart(n, k, m)
    ensures i < m && GroupStart(n, k, i) <= x < GroupStart(n, k, i + 1)
  {
    if GroupStart(n, k, m - 1) <= x {
      i := m - 1;
    } else {
      i := FindGroup(n, k, m - 1, x);
    }
  }

  /** A merged range runs from the first to the last row id of its group. */
  lemma GroupRange(chunks: seq<RowIdChunk>, k: nat, i: nat)
    requires 0 < k <= |chunks| && i < k && Ascending(chunks)
    ensures GroupStart(|chunks|, k, i) < GroupStart(|chunks|, k, i + 1) <= |chunks|
    ensures var c := GroupSpan(chunks, k, i);
            && c.id == i && c.start == chunks[GroupStart(|chunks|, k, i)].start
            && c.end == chunks[GroupStart(|chunks|, k, i + 1) - 1].end
            && c.partition == chunks[GroupStart(|chunks|, k, i)].partition
            && c.start.Some? && c.end.Some? && c.start.value <= c.end.value
  {
    GroupBounds(|chunks|, k, i);
    var from, last := GroupStart(|chunks|, k, i), GroupStart(|chunks|, k, i + 1) - 1;
    assert from < last ==> chunks[from].end.value < chunks[last].start.value;
  }

  /** Merging to fewer ranges gives exactly the wanted number, numbered from 0 and ascending like the
      ranges they were made from. */
  lemma MergedAscend(chunks: seq<RowIdChunk>, k: nat)
    requires 0 < k < |chunks| && Ascending(chunks)
    ensures |Merged(chunks, k)| == k && Ascending(Merged(chunks, k))
    ensures forall i :: 0 <= i < k ==> Merged(chunks, k)[i].id == i
  {
    var merged := Merged(chunks, k);
    forall i | 0 <= i < k
      ensures merged[i].start.Some? && merged[i].end.Some? && merged[i].start.value <= merged[i].end.value
              && merged[i].id == i
    {
      GroupRange(chunks, k, i);
    }
    forall i, j | 0 <= i < j < k ensures merged[i].end.value < merged[j].start.value {
      GroupRange(chunks, k, i);
      GroupRange(chunks, k, j);
      GroupStartAscends(|chunks|, k, i + 1, j);
    }
  }

  /** Merging stays within a partition. */
  lemma MergedPartition(chunks: seq<RowIdChunk>, k: nat, name: string, i: nat)
    requires 0 < k < |chunks| && Ascending(chunks) && forall c :: c in chunks ==> c.partition == name
    requires i < k
    ensures Merged(chunks, k)[i].partition == name
  {
    GroupRange(chunks, k, i);
    assert chunks[GroupStart(|chunks|, k, i)] in chunks;
  }

  /** In an ascending list a row id is covered once if it is covered at all. */
  lemma {:induction false} CoveredOnce(chunks: seq<RowIdChunk>, rid: nat)
    requires Ascending(chunks)
    ensures CoverCount(chunks, rid) <= 1
    ensures CoverCount(chunks, rid) == 1 <==> exists i :: 0 <= i < |chunks| && Covers(chunks[i], rid)
  {
    CountPositive(chunks, (c: RowIdChunk) => Covers(c, rid));
    if chunks != [] {
      assert Ascending(chunks[1..]);
      CoveredOnce(chunks[1..], rid);
      if Covers(chunks[0], rid) {
        forall i | 0 <= i < |chunks[1..]| ensures !Covers(chunks[1..][i], rid) {
          assert chunks[0].end.value < chunks[i + 1].start.value;
        }
      }
    }
  }

  /** The range a row id's chunk was merged into covers the row id. */
  lemma GroupCovers(chunks: seq<RowIdChunk>, k: nat, i: nat, x: nat, rid: nat)
    requires 0 < k <= |chunks| && i < k && Ascending(chunks)
    requires GroupStart(|chunks|, k, i) <= x < GroupStart(|chunks|, k, i + 1) && x < |chunks| && Covers(chunks[x], rid)
    ensures Covers(GroupSpan(chunks, k, i), rid)
  {
    GroupRange(chunks, k, i);
    var from, last := GroupStart(|chunks|, k, i), GroupStart(|chunks|, k, i + 1) - 1;
    assert from < x ==> chunks[from].end.value < chunks[x].start.value;
    assert x < last ==> chunks[x].end.value < chunks[last].start.value;
  }

  /** Every row id that lay in exactly one of the ranges lies in exactly one of the merged ranges. */
  lemma MergedCover(chunks: seq<RowIdChunk>, targetN: int, rid: nat)
    requires Ascending(chunks) && CoverCount(chunks, rid) == 1
    ensures CoverCount(Merged(chunks, targetN), rid) == 1
  {
    if 0 < targetN < |chunks| {
      CoveredOnce(chunks, rid);
      var x :| 0 <= x < |chunks| && Covers(chunks[x], rid);
      GroupsFill(|chunks|, targetN);
      var i := FindGroup(|chunks|, targetN, targetN, x);
      GroupCovers(chunks, targetN, i, x, rid);
      MergedAscend(chunks, targetN);
      assert Covers(Merged(chunks, targetN)[i], rid);
      CoveredOnce(Merged(chunks, targetN), rid);
    }
  }
}

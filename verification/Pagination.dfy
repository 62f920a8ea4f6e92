/** Reading a table page by page instead of in one scan. */
module Pagination {
  import opened Collections

  datatype ReadResult<T> = Row(row: T) | Failed

  function Results<T>(rows: seq<T>): seq<ReadResult<T>> { seq(|rows|, i requires 0 <= i < |rows| => Row(rows[i])) }

  /** What one scan delivers: the rows in order, and an error in the place of the row at which reading fails. */
  function Streamed<T>(rows: seq<T>, failAt: Option<nat>): seq<ReadResult<T>> {
    if failAt.Some? && failAt.value <= |rows| then Results(rows[..failAt.value]) + [Failed] else Results(rows)
  }

  /** Page queries until one comes back short. The rows do not change meanwhile. */
  method ReadPaginated<T>(rows: seq<T>, requested: int, fetchSize: int, failAt: Option<nat>)
    returns (ch: seq<ReadResult<T>>, batchNum: nat)
    requires requested > 0 || fetchSize > 0
    ensures ch == Streamed(rows, failAt)
    ensures failAt.None? ==> batchNum == |rows| / (if requested <= 0 then fetchSize else requested) + 1
  {
    var pageSize := requested;
    if pageSize <= 0 {
      pageSize := fetchSize;
    }
    ch, batchNum := [], 0;
    var offset := 0;
    while true
      invariant offset == batchNum * pageSize && offset <= |rows|
      invariant ch == Results(rows[..offset]) && (failAt.Some? ==> offset <= failAt.value)
      decreases |rows| - offset
    {
      batchNum := batchNum + 1;
      var rowsInBatch := 0;
      while rowsInBatch < pageSize && offset + rowsInBatch < |rows| && failAt != Some(offset + rowsInBatch)
        invariant 0 <= rowsInBatch <= pageSize && offset + rowsInBatch <= |rows|
        invariant ch == Results(rows[..offset + rowsInBatch]) && (failAt.Some? ==> offset + rowsInBatch <= failAt.value)
      {
        var next := offset + rowsInBatch;
        assert rows[..next + 1] == rows[..next] + [rows[next]];
        ch := ch + [Row(rows[next])];
        rowsInBatch := rowsInBatch + 1;
      }
      if rowsInBatch < pageSize {
        if failAt == Some(offset + rowsInBatch) {
          ch := ch + [Failed];
          return;
        }
        assert rows[..offset + rowsInBatch] == rows;
        LastPage(|rows|, pageSize, batchNum, rowsInBatch);
        break;
      }
      offset := offset + pageSize;
    }
  }

  lemma LastPage(n: nat, pageSize: nat, batches: nat, rest: nat)
    requires batches > 0 && rest < pageSize && n == (batches - 1) * pageSize + rest
    ensures n / pageSize + 1 == batches
  {
    SameQuotient(n / pageSize, n % pageSize, batches - 1, rest, pageSize);
  }

  lemma SameQuotient(q: int, r: nat, p: int, s: nat, size: nat)
    requires q * size + r == p * size + s && r < size && s < size
    ensures q == p
  {
    assert (p - q) * size == r - s;
    assert (q - p) * size == s - r;
    if q < p {
      AtLeastOne(p - q, size);
    } else if p < q {
      AtLeastOne(q - p, size);
    }
  }

  lemma AtLeastOne(d: nat, size: nat)
    requires d > 0
    ensures d * size >= size
  {
  }
}

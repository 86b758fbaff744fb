/** How the batch counts set by the constructor cut the file list into windows
    (cloudbatch/gsbatch.py:43-62 with _update_batch of cloudbatch/cloudbatch.py:90-99). */
module Windows {
  import opened PyOps
  import opened Cursors

  /** The window _update_batch computes at batch `j` with the aligned offset
      (`WindowAtIsAtBatch`). */
  function WindowAt(c: Cursor, j: nat): seq<string>
  {
    var start := Offset(j, c.batchSize);
    Slice(c.files, start, if j < c.nBatches - 1 then start + c.batchSize else start + c.lastBatchSize)
  }

  lemma WindowAtIsAtBatch(c: Cursor, j: nat)
    ensures WindowAt(c, j) == AtBatch(c, j).filesBatch
  {
  }

  /** The windows of batches 0 .. m-1, concatenated in batch order. */
  function Batches(c: Cursor, m: nat): seq<string>
  {
    if m == 0 then [] else Batches(c, m - 1) + WindowAt(c, m - 1)
  }

  /** How many files the final batch is meant to hold: `last_batch_size`, or a whole batch
      when that is 0. */
  function FinalSpan(c: Cursor): int
  {
    if c.lastBatchSize == 0 then c.batchSize else c.lastBatchSize
  }

  /** The layout the counts describe, with the divisions worked out: no batches for no
      files, and otherwise `n_batches - 1` whole batches followed by the final span. */
  predicate Laid(c: Cursor)
  {
    c.batchSize > 0 && 0 <= c.lastBatchSize < c.batchSize && c.nBatches >= 0 &&
    (c.nBatches == 0 <==> |c.files| == 0) &&
    (|c.files| > 0 ==> Offset(c.nBatches - 1, c.batchSize) + FinalSpan(c) == |c.files|)
  }

  /** What the constructor's arithmetic gives: `n_batches = ceil(n_files / batch_size)` and
      `last_batch_size = n_files % batch_size` lay the files out as `Laid` says. */
  lemma SizedIsLaid(c: Cursor)
    requires Sized(c)
    ensures Laid(c)
  {
    var n, b := |c.files|, c.batchSize;
    DivisionLaw(n, b);
    CeilDivByRemainder(n, b);
    var q, r := FloorDiv(n, b), FloorMod(n, b);
    if q < 0 {
      MulLess(q, 0, b);
      assert false;
    }
    if r == 0 {
      if q > 0 {
        MulLess(0, q, b);
        OffsetIsProduct(q - 1, b);
        assert (q - 1) * b + b == b * q;
      }
    } else {
      OffsetIsProduct(q, b);
      assert q * b + r == n;
    }
  }

  /** A prefix followed by the slice that continues it is the longer prefix. */
  lemma JoinPrefix<T>(s: seq<T>, p: seq<T>, w: seq<T>, i: int, j: int)
    requires 0 <= i <= j <= |s| && p == s[..i] && w == s[i..j]
    ensures p + w == s[..j]
  {
    assert s[..j] == s[..i] + s[i..j];
  }

  /** Each batch index below `n_batches` has a window of consecutive files starting at
      `j * batch_size`: `batch_size` files before the final batch and `last_batch_size`
      files on it. */
  lemma WindowShape(c: Cursor, j: nat)
    requires Laid(c) && j < c.nBatches
    ensures 0 <= Offset(j, c.batchSize)
    ensures j < c.nBatches - 1 ==>
              var o := Offset(j, c.batchSize);
              o + c.batchSize <= |c.files| && WindowAt(c, j) == c.files[o .. o + c.batchSize]
    ensures j == c.nBatches - 1 ==>
              var o := Offset(j, c.batchSize);
              o + c.lastBatchSize <= |c.files| && WindowAt(c, j) == c.files[o .. o + c.lastBatchSize]
  {
    var b := c.batchSize;
    var o := Offset(j, b);
    if j > 0 {
      OffsetGrows(0, j, b);
    }
    if j < c.nBatches - 1 {
      OffsetGrows(j, c.nBatches - 1, b);
      SliceInRange(c.files, o, o + b);
    } else {
      SliceInRange(c.files, o, o + c.lastBatchSize);
    }
  }

  /** The windows of the batches before the final one are consecutive and cover the files
      in order. */
  lemma {:induction false} BatchesPrefix(c: Cursor, m: nat)
    requires Laid(c) && m <= c.nBatches - 1
    ensures 0 <= Offset(m, c.batchSize) <= |c.files|
    ensures Batches(c, m) == c.files[..Offset(m, c.batchSize)]
  {
    if m > 0 {
      var b := c.batchSize;
      BatchesPrefix(c, m - 1);
      WindowShape(c, m - 1);
      JoinPrefix(c.files, Batches(c, m - 1), WindowAt(c, m - 1), Offset(m - 1, b), Offset(m, b));
    }
  }

  /** The windows of all `n_batches` batches, concatenated, run from the first file up to
      `(n_batches - 1) * batch_size + last_batch_size`. */
  lemma AllBatches(c: Cursor)
    requires Laid(c) && |c.files| > 0
    ensures var e := Offset(c.nBatches - 1, c.batchSize) + c.lastBatchSize;
            0 <= e <= |c.files| && Batches(c, c.nBatches) == c.files[..e]
  {
    var m := c.nBatches - 1;
    var o := Offset(m, c.batchSize);
    BatchesPrefix(c, m);
    WindowShape(c, m);
    JoinPrefix(c.files, Batches(c, m), WindowAt(c, m), o, o + c.lastBatchSize);
  }

  /** When the batch size does not divide the number of files, the windows of all
      `n_batches` batches, concatenated, give back the whole file list: every file lies in
      exactly one window, in order. */
  lemma Partition(c: Cursor)
    requires Sized(c)
    requires c.lastBatchSize != 0 || |c.files| == 0
    ensures Batches(c, c.nBatches) == c.files
  {
    SizedIsLaid(c);
    if |c.files| > 0 {
      AllBatches(c);
      assert c.files[..|c.files|] == c.files;
    }
  }

  /** When the batch size divides the number of files, `last_batch_size` is 0 and the final
      window is empty: the last `batch_size` files belong to no window. */
  lemma DivisibleLosesLastBatch(c: Cursor)
    requires Sized(c) && c.lastBatchSize == 0 && |c.files| > 0
    ensures WindowAt(c, c.nBatches - 1) == []
    ensures Batches(c, c.nBatches) == c.files[..|c.files| - c.batchSize]
  {
    SizedIsLaid(c);
    AllBatches(c);
    WindowShape(c, c.nBatches - 1);
  }

  /** Past the final batch (reachable only through the legacy unbounded next_batch) the
      aligned window is empty rather than an error. */
  lemma PastTheEnd(c: Cursor, j: nat)
    requires Sized(c) && j >= c.nBatches
    ensures WindowAt(c, j) == []
  {
    SizedIsLaid(c);
    var b := c.batchSize;
    if j > 0 {
      OffsetGrows(0, j, b);
    }
    if |c.files| > 0 && c.nBatches - 1 < j {
      OffsetGrows(c.nBatches - 1, j, b);
    }
    SliceEmpty(c.files, Offset(j, b), Offset(j, b) + c.lastBatchSize);
  }
}

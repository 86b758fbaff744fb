/** The batch cursor of `CloudBatch` (cloudbatch/cloudbatch.py) as a value: the fields its
    methods read and write, and what next_batch, prev_batch, reset_batch, set_batch_size and
    _update_batch do to them. The class `CloudBatches.CloudBatch` holds the same fields and
    its methods are proved to act as these functions say. */
module Cursors {
  import opened Wrappers
  import opened PyOps

  /** Which subclass an object is: GSBatch (cloudbatch/gsbatch.py), LocalBatch or CDSBatch. */
  datatype Flavour = GS | Local | CDS

  datatype Cursor = Cursor(
    flavour: Flavour,
    files: seq<string>,
    nFiles: int,
    batchSize: int,
    nBatches: int,
    lastBatchSize: int,
    currentBatch: int,
    currentFile: int,
    filesBatch: seq<string>,
    tmpFiles: seq<string>,
    source: string,
    getDir: string,
    putDir: string)

  /** The end index _update_batch uses: a full batch before the final one, `last_batch_size`
      on the final one (and on any index at or past it). */
  function WindowEnd(c: Cursor): int
  {
    if c.currentBatch < c.nBatches - 1 then c.currentFile + c.batchSize
    else c.currentFile + c.lastBatchSize
  }

  /** `self.files[start_idx:end_idx]` as _update_batch computes it. */
  function Window(c: Cursor): seq<string>
  {
    Slice(c.files, c.currentFile, WindowEnd(c))
  }

  /** _update_batch: recompute `files_batch`, nothing else. */
  function UpdateBatch(c: Cursor): Cursor
  {
    c.(filesBatch := Window(c))
  }

  /** next_batch: one batch on while `current_batch < n_batches - 1`, otherwise nothing. */
  function Next(c: Cursor): Cursor
  {
    if c.currentBatch < c.nBatches - 1 then
      UpdateBatch(c.(currentBatch := c.currentBatch + 1, currentFile := c.currentFile + c.batchSize))
    else c
  }

  /** prev_batch: one batch back while `current_batch > 0`, otherwise nothing. */
  function Prev(c: Cursor): Cursor
  {
    if c.currentBatch > 0 then
      UpdateBatch(c.(currentBatch := c.currentBatch - 1, currentFile := c.currentFile - c.batchSize))
    else c
  }

  /** reset_batch: back to batch 0 and file 0. */
  function Reset(c: Cursor): Cursor
  {
    UpdateBatch(c.(currentBatch := 0, currentFile := 0))
  }

  /** set_batch_size: the new size is stored first; with a zero size the division then raises
      ZeroDivisionError and nothing else changes. Otherwise the batch count and the last batch
      size are recomputed from `n_files` and the window re-sliced, with the position left as
      it was. */
  function SetBatchSize(c: Cursor, size: int): (Cursor, Option<Error>)
  {
    if size == 0 then (c.(batchSize := 0), Some(ZeroDivisionError))
    else
      (UpdateBatch(c.(batchSize := size,
                      nBatches := CeilDiv(c.nFiles, size),
                      lastBatchSize := FloorMod(c.nFiles, size))), None)
  }

  /** is_final_batch. */
  predicate IsFinal(c: Cursor)
  {
    c.currentBatch == c.nBatches - 1
  }

  // ---------------------------------------------------------------------------------------
  // Invariants of a cursor

  /** The counts the constructor and a successful set_batch_size establish. */
  predicate Sized(c: Cursor)
  {
    c.batchSize > 0 && c.nFiles == |c.files| &&
    c.nBatches == CeilDiv(c.nFiles, c.batchSize) &&
    c.lastBatchSize == FloorMod(c.nFiles, c.batchSize)
  }

  /** The file offset of batch `j` when every move adds or subtracts `size`: `j * size`,
      built up one batch at a time as next_batch builds it. */
  function Offset(j: nat, size: int): int
  {
    if j == 0 then 0 else Offset(j - 1, size) + size
  }

  /** The offset is the product `j * size`. */
  lemma {:induction false} OffsetIsProduct(j: nat, size: int)
    ensures Offset(j, size) == j * size
  {
    if j > 0 {
      OffsetIsProduct(j - 1, size);
      assert (j - 1) * size + size == j * size;
    }
  }

  /** With a positive size, later batches start at least one whole batch further on, and no
      batch starts before file 0. */
  lemma {:induction false} OffsetGrows(i: nat, j: nat, size: int)
    requires size > 0 && i < j
    ensures 0 <= Offset(i, size) && Offset(i, size) + size <= Offset(j, size)
  {
    if i + 1 < j {
      OffsetGrows(i, j - 1, size);
    } else if i > 0 {
      OffsetGrows(0, i, size);
    }
  }

  /** `current_file == current_batch * batch_size`, with a non-negative batch index. */
  predicate Aligned(c: Cursor)
  {
    0 <= c.currentBatch && c.currentFile == Offset(c.currentBatch, c.batchSize)
  }

  /** `files_batch` is the slice for the current position. */
  predicate Current(c: Cursor)
  {
    c.filesBatch == Window(c)
  }

  /** The cursor moved to batch `j` of its current size, with its window recomputed. */
  function AtBatch(c: Cursor, j: nat): Cursor
  {
    UpdateBatch(c.(currentBatch := j, currentFile := Offset(j, c.batchSize)))
  }

  // ---------------------------------------------------------------------------------------
  // Navigation

  /** One navigation call. */
  datatype Move = NextMove | PrevMove | ResetMove

  function Step(c: Cursor, m: Move): Cursor
  {
    match m
    case NextMove => Next(c)
    case PrevMove => Prev(c)
    case ResetMove => Reset(c)
  }

  /** A sequence of navigation calls, first to last. */
  function Navigate(c: Cursor, moves: seq<Move>): Cursor
    decreases moves
  {
    if moves == [] then c else Navigate(Step(c, moves[0]), moves[1..])
  }

  /** Navigation changes the position and the window and nothing else. */
  predicate SameButPosition(c: Cursor, d: Cursor)
  {
    d == c.(currentBatch := d.currentBatch, currentFile := d.currentFile, filesBatch := d.filesBatch)
  }

  /** next_batch moves exactly while the index is below `n_batches - 1`; then it raises the
      batch index by one and the file offset by `batch_size`; at the boundary it is a no-op,
      so calling it again there changes nothing either. */
  lemma NextMoves(c: Cursor)
    ensures c.currentBatch < c.nBatches - 1 ==>
              Next(c).currentBatch == c.currentBatch + 1 &&
              Next(c).currentFile == c.currentFile + c.batchSize && Current(Next(c))
    ensures c.currentBatch >= c.nBatches - 1 ==> Next(c) == c && Next(Next(c)) == Next(c)
    ensures SameButPosition(c, Next(c))
  {
  }

  /** prev_batch is the mirror image: it moves back exactly while the index is positive and is
      a no-op (hence idempotent) at batch 0. */
  lemma PrevMoves(c: Cursor)
    ensures c.currentBatch > 0 ==>
              Prev(c).currentBatch == c.currentBatch - 1 &&
              Prev(c).currentFile == c.currentFile - c.batchSize && Current(Prev(c))
    ensures c.currentBatch <= 0 ==> Prev(c) == c && Prev(Prev(c)) == Prev(c)
    ensures SameButPosition(c, Prev(c))
  {
  }

  /** prev_batch undoes a next_batch that moved. */
  lemma PrevUndoesNext(c: Cursor)
    requires 0 <= c.currentBatch < c.nBatches - 1
    requires Current(c)
    ensures Prev(Next(c)) == c
  {
  }

  /** reset_batch lands on batch 0 with file 0 and the first window, whatever came before:
      a reset after any navigation history equals a reset of the starting state. */
  lemma {:induction false} ResetForgetsHistory(c: Cursor, moves: seq<Move>)
    ensures Reset(Navigate(c, moves)) == Reset(c)
    ensures Reset(c).currentBatch == 0 && Reset(c).currentFile == 0 && Current(Reset(c))
    decreases moves
  {
    if moves != [] {
      ResetForgetsHistory(Step(c, moves[0]), moves[1..]);
      match moves[0]
      case NextMove => NextMoves(c);
      case PrevMove => PrevMoves(c);
      case ResetMove =>
    }
  }

  /** While the batch size is unchanged, next, prev and reset keep
      `current_file == current_batch * batch_size` and a non-negative batch index; they change
      nothing but the position and the window, and keep the window current. */
  lemma {:induction false} NavigationKeepsAligned(c: Cursor, moves: seq<Move>)
    requires Aligned(c)
    ensures Aligned(Navigate(c, moves))
    ensures SameButPosition(c, Navigate(c, moves))
    ensures Current(c) ==> Current(Navigate(c, moves))
    decreases moves
  {
    if moves != [] {
      var d := Step(c, moves[0]);
      StepKeepsAligned(c, moves[0]);
      NavigationKeepsAligned(d, moves[1..]);
    }
  }

  /** One navigation call keeps the offset invariant. */
  lemma StepKeepsAligned(c: Cursor, m: Move)
    requires Aligned(c)
    ensures Aligned(Step(c, m)) && SameButPosition(c, Step(c, m))
    ensures Current(c) || m == ResetMove ==> Current(Step(c, m))
  {
    match m
    case NextMove => NextKeepsAligned(c);
    case PrevMove => PrevKeepsAligned(c);
    case ResetMove =>
  }

  lemma NextKeepsAligned(c: Cursor)
    requires Aligned(c)
    ensures Aligned(Next(c)) && SameButPosition(c, Next(c))
    ensures Current(c) ==> Current(Next(c))
  {
  }

  lemma PrevKeepsAligned(c: Cursor)
    requires Aligned(c)
    ensures Aligned(Prev(c)) && SameButPosition(c, Prev(c))
    ensures Current(c) ==> Current(Prev(c))
  {
  }

  /** The index reached from batch 0 after `k` next_batch calls when there are `n` batches. */
  function Reached(k: nat, n: int): nat
  {
    if k < n - 1 then k else if n >= 1 then n - 1 else 0
  }

  /** `k` next_batch calls, one after the other. */
  function NextN(c: Cursor, k: nat): Cursor
  {
    if k == 0 then c else Next(NextN(c, k - 1))
  }

  /** From a reset, `k` calls of next_batch stop at batch `min(k, n_batches - 1)` (batch 0 when
      there is at most one batch), with the aligned offset and its window. */
  lemma {:induction false} NextNFromReset(c: Cursor, k: nat)
    ensures NextN(Reset(c), k) == AtBatch(c, Reached(k, c.nBatches))
  {
    if k == 0 {
      assert Reset(c) == AtBatch(c, 0);
    } else {
      NextNFromReset(c, k - 1);
      var m := Reached(k - 1, c.nBatches);
      assert NextN(Reset(c), k) == Next(AtBatch(c, m));
      NextAtBatch(c, m);
      if m < c.nBatches - 1 {
        assert Reached(k, c.nBatches) == m + 1;
      } else {
        assert Reached(k, c.nBatches) == m;
      }
    }
  }

  /** next_batch from an aligned batch `m` moves to the aligned batch `m + 1` or stays. */
  lemma NextAtBatch(c: Cursor, m: nat)
    ensures Next(AtBatch(c, m)) == if m < c.nBatches - 1 then AtBatch(c, m + 1) else AtBatch(c, m)
  {
    if m < c.nBatches - 1 {
      var a := AtBatch(c, m);
      assert a.(currentBatch := m + 1, currentFile := a.currentFile + c.batchSize)
          == c.(currentBatch := m + 1, currentFile := Offset(m + 1, c.batchSize), filesBatch := a.filesBatch);
    }
  }

  /** Within the batches, is_final_batch holds exactly where next_batch does nothing, and
      there the window holds the last `last_batch_size` files covered by the batches; it
      never holds for an empty file list, where `n_batches` is 0 and the index is never
      negative. */
  lemma FinalOnlyAtLastIndex(c: Cursor)
    requires Sized(c) && Aligned(c)
    ensures c.currentBatch < c.nBatches ==> (IsFinal(c) <==> Next(c) == c)
    ensures IsFinal(c) && Current(c) ==>
              0 <= c.currentFile && c.currentFile + c.lastBatchSize <= |c.files| &&
              c.filesBatch == c.files[c.currentFile .. c.currentFile + c.lastBatchSize]
    ensures |c.files| == 0 ==> !IsFinal(c)
  {
    if |c.files| == 0 {
      assert c.nBatches == 0;
    }
    if IsFinal(c) && Current(c) {
      FinalSpanFits(c.nFiles, c.batchSize, c.currentBatch);
      SliceInRange(c.files, c.currentFile, c.currentFile + c.lastBatchSize);
    }
  }

  /** The final batch starts inside the list and its `last_batch_size` files end inside it. */
  lemma FinalSpanFits(n: int, size: int, j: nat)
    requires size > 0 && j == CeilDiv(n, size) - 1
    ensures 0 <= Offset(j, size) && Offset(j, size) + FloorMod(n, size) <= n
  {
    var q, r := FloorDiv(n, size), FloorMod(n, size);
    OffsetIsProduct(j, size);
    DivisionLaw(n, size);
    CeilDivByRemainder(n, size);
    if r == 0 {
      assert j == q - 1;
      assert j * size == q * size - size;
    } else {
      assert j == q;
    }
  }

  // ---------------------------------------------------------------------------------------
  // set_batch_size

  /** set_batch_size recomputes `n_batches = ceil(n_files / size)` and
      `last_batch_size = n_files mod size` and re-slices, but leaves the batch index and the
      file offset where they were; a zero size stores 0 and raises. */
  lemma SetBatchSizeEffect(c: Cursor, size: int)
    ensures size == 0 ==> SetBatchSize(c, size) == (c.(batchSize := 0), Some(ZeroDivisionError))
    ensures size != 0 ==>
              var d := SetBatchSize(c, size).0;
              SetBatchSize(c, size).1 == None &&
              d.batchSize == size &&
              d.nBatches == CeilDiv(c.nFiles, size) &&
              d.lastBatchSize == FloorMod(c.nFiles, size) &&
              d.currentBatch == c.currentBatch && d.currentFile == c.currentFile &&
              Current(d)
    ensures size > 0 && c.nFiles == |c.files| ==> Sized(SetBatchSize(c, size).0)
  {
  }

  /** A cursor over ten files, batch size 1, sitting aligned at batch 2. */
  function TenFilesAtBatchTwo(files: seq<string>): Cursor
    requires |files| == 10
  {
    Cursor(GS, files, 10, 1, 10, 0, 2, 2, files[2..3], [], "remote", "", "")
  }

  /** set_batch_size breaks the offset invariant: after enlarging the size to 9 the cursor
      keeps file offset 2 at batch 2, and a prev_batch then sets the offset to 2 - 9 = -7.
      The negative start counts from the end, so the window of the final batch (which should
      be the tenth file) is the fourth file. */
  lemma ResizeThenPrevMisplacesWindow(files: seq<string>)
    requires |files| == 10
    ensures var c := TenFilesAtBatchTwo(files);
            var d := SetBatchSize(c, 9).0;
            Aligned(c) && !Aligned(d) &&
            Prev(d).currentBatch == 1 && Prev(d).currentFile == -7 &&
            Prev(d).filesBatch == [files[3]] && AtBatch(d, 1).filesBatch == [files[9]]
  {
    var c := TenFilesAtBatchTwo(files);
    var d := SetBatchSize(c, 9).0;
    assert d.nBatches == 2 && d.lastBatchSize == 1;
  }
}

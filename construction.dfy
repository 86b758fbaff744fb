/** The constructors of the batch classes: GSBatch.__init__ (cloudbatch/gsbatch.py), which
    sets the counts and the first window, and the LocalBatch and CDSBatch constructors
    (cloudbatch/localbatch.py, cloudbatch/cdsbatch.py), which read names that are never
    bound and so always raise. */
module Construction {
  import opened Wrappers
  import opened PyOps
  import opened PyPath
  import opened Cursors
  import opened CloudBatches

  /** `[path.join(file_dir, fn) for fn in files]`. */
  function JoinAll(dir: string, files: seq<string>): seq<string>
  {
    seq(|files|, k requires 0 <= k < |files| => Join(dir, files[k]))
  }

  const NotIterable := TypeError("'NoneType' object is not iterable")
  const NoLength := TypeError("object of type 'NoneType' has no len()")

  /** GSBatch.__init__: the file list (joined onto `file_dir` when one is given), position 0,
      `n_batches = ceil(n_files / batch_size)`, `last_batch_size = n_files % batch_size`, no
      temporary files, then the first window. A missing list raises TypeError (at the join
      or at `len`), a zero batch size ZeroDivisionError. */
  function GSInit(files: Option<seq<string>>, fileDir: Option<string>, getDir: string, putDir: string,
                  source: string, batchSize: int): Result<Cursor, Error>
  {
    if fileDir.Some? && files.None? then Failure(NotIterable)
    else if files.None? then Failure(NoLength)
    else if batchSize == 0 then Failure(ZeroDivisionError)
    else
      var fs := if fileDir.Some? then JoinAll(fileDir.value, files.value) else files.value;
      var n := |fs|;
      Success(UpdateBatch(Cursor(GS, fs, n, batchSize, CeilDiv(n, batchSize), FloorMod(n, batchSize),
                                 0, 0, [], [], source, getDir, putDir)))
  }

  /** GSBatch.__init__ on an object. */
  method NewGSBatch(files: Option<seq<string>>, fileDir: Option<string>, getDir: string, putDir: string,
                    source: string, batchSize: int) returns (r: Result<CloudBatch, Error>)
    ensures var s := GSInit(files, fileDir, getDir, putDir, source, batchSize);
            (r.Failure? <==> s.Failure?) &&
            (r.Failure? ==> r.error == s.error) &&
            (r.Success? ==> fresh(r.value) && r.value.State() == s.value && r.value.fileExists == [])
  {
    var fs := files;
    if fileDir.Some? {
      if fs.None? {
        return Failure(NotIterable);
      }
      fs := Some(JoinAll(fileDir.value, fs.value));
    }
    if fs.None? {
      return Failure(NoLength);
    }
    var nFiles := |fs.value|;
    if batchSize == 0 {
      return Failure(ZeroDivisionError);
    }
    var nBatches := CeilDiv(nFiles, batchSize);
    var lastBatchSize := FloorMod(nFiles, batchSize);
    var b := new CloudBatch.Of(Cursor(GS, fs.value, nFiles, batchSize, nBatches, lastBatchSize,
                                      0, 0, [], [], source, getDir, putDir));
    b.UpdateBatch();
    return Success(b);
  }

  /** A constructed GSBatch sits at batch 0 and file 0 with no temporary files, its counts
      are the ceiling and remainder of the file count by the batch size, its window is
      current, and with a positive batch size it is laid out as `Sized` says. It fails
      exactly when no list is given or the batch size is 0. */
  lemma GSInitOutcome(files: Option<seq<string>>, fileDir: Option<string>, getDir: string, putDir: string,
                      source: string, batchSize: int)
    ensures var r := GSInit(files, fileDir, getDir, putDir, source, batchSize);
            (r.Failure? <==> files.None? || batchSize == 0) &&
            (files.None? ==> r.Failure? && r.error.TypeError?) &&
            (files.Some? && batchSize == 0 ==> r == Failure(ZeroDivisionError))
    ensures var r := GSInit(files, fileDir, getDir, putDir, source, batchSize);
            r.Success? ==>
              var c := r.value;
              c.flavour == GS && c.currentBatch == 0 && c.currentFile == 0 && c.tmpFiles == [] &&
              c.nFiles == |c.files| == |files.value| &&
              c.nBatches == CeilDiv(c.nFiles, batchSize) &&
              c.lastBatchSize == FloorMod(c.nFiles, batchSize) &&
              c.source == source && c.getDir == getDir && c.putDir == putDir &&
              Aligned(c) && Current(c) && (batchSize > 0 ==> Sized(c))
  {
  }

  /** With `file_dir`, every file becomes `file_dir` joined with it, keeping the number and
      order of the files; each joined path ends with its file name, and a relative name
      follows the directory. */
  lemma GSInitJoins(files: seq<string>, dir: string, getDir: string, putDir: string, source: string, batchSize: int)
    requires batchSize != 0
    ensures var c := GSInit(Some(files), Some(dir), getDir, putDir, source, batchSize).value;
            |c.files| == |files| &&
            forall k :: 0 <= k < |files| ==>
              c.files[k] == Join(dir, files[k]) &&
              |files[k]| <= |c.files[k]| && c.files[k][|c.files[k]| - |files[k]|..] == files[k] &&
              ((|files[k]| == 0 || files[k][0] != '/') ==> |dir| <= |c.files[k]| && c.files[k][..|dir|] == dir)
  {
  }

  /** The first window of a constructed GSBatch is its first `batch_size` files, or all of
      them when there are fewer, except that a list of exactly `batch_size` files gives an
      empty window: that single batch is also the final one, of `last_batch_size` 0. */
  lemma GSInitFirstWindow(files: seq<string>, getDir: string, putDir: string, source: string, batchSize: int)
    requires batchSize > 0
    ensures var c := GSInit(Some(files), None, getDir, putDir, source, batchSize).value;
            c.filesBatch == if |files| == batchSize then [] else files[..if |files| < batchSize then |files| else batchSize]
  {
    var c := GSInit(Some(files), None, getDir, putDir, source, batchSize).value;
    var n := |files|;
    DivisionLaw(n, batchSize);
    CeilDivByRemainder(n, batchSize);
    var q, r := FloorDiv(n, batchSize), FloorMod(n, batchSize);
    if n < batchSize {
      DivisionUnique(n, batchSize, 0, n);
      if n == 0 {
        assert c.nBatches == 0;
      } else {
        assert c.nBatches == 1 && c.lastBatchSize == n;
        SliceInRange(files, 0, n);
      }
    } else {
      if q < 1 {
        MulLess(q, 1, batchSize);
        assert false;
      }
      if c.nBatches > 1 {
        SliceInRange(files, 0, batchSize);
        if n == batchSize {
          DivisionUnique(n, batchSize, 1, 0);
          assert false;
        }
      } else {
        assert q == 1 && r == 0;
        assert n == batchSize && c.lastBatchSize == 0;
      }
    }
  }

  /** LocalBatch.__init__ never returns: without `file_dir` the name `files` is read
      before it is bound; with it, a missing list cannot be iterated, and otherwise the
      global `source` read at line 24 does not exist. */
  function LocalInit(fileList: Option<seq<string>>, fileDir: Option<string>, putDir: string, batchSize: int): Result<Cursor, Error>
  {
    if fileDir.None? then Failure(UnboundLocalError("files"))
    else if fileList.None? then Failure(NotIterable)
    else Failure(NameError("source"))
  }

  /** CDSBatch.__init__ never returns: `loop_vector` at line 22 is never bound. */
  function CDSInit(getDir: string, batchSize: int): Result<Cursor, Error>
  {
    Failure(NameError("loop_vector"))
  }

  /** Neither constructor can complete, whatever it is given. */
  lemma NeverConstructed(fileList: Option<seq<string>>, fileDir: Option<string>, putDir: string, getDir: string, batchSize: int)
    ensures LocalInit(fileList, fileDir, putDir, batchSize).Failure?
    ensures CDSInit(getDir, batchSize) == Failure(NameError("loop_vector"))
    ensures fileDir.Some? && fileList.Some? ==> LocalInit(fileList, fileDir, putDir, batchSize) == Failure(NameError("source"))
  {
  }
}

/** The legacy `Gsbatch` class of gsbatch/gsbatch.py: a remote file list and an optional
    local file list of the same length, cut into paired windows with the same bounds. Its
    next_batch has no upper bound, and its set_batch_size recomputes the counts without
    re-slicing the windows. */
module LegacyBatches {
  import opened Wrappers
  import opened PyOps
  import opened Cursors
  import opened Windows
  import opened Products

  /** The fields of a Gsbatch object. `localFiles` is None when no local files were given;
      `localFilesBatch` is None while the attribute `local_files_batch` was never set, which
      is the case exactly when there are no local files. */
  datatype Legacy = Legacy(
    gsFiles: seq<string>,
    localFiles: Option<seq<string>>,
    gsGetdir: string,
    nFiles: int,
    batchSize: int,
    nBatches: int,
    lastBatchSize: int,
    currentBatch: int,
    currentFile: int,
    gsFilesBatch: seq<string>,
    localFilesBatch: Option<seq<string>>)

  /** The counts and the position of a Gsbatch read as a batch cursor over the remote files,
      so that the window arithmetic of `Cursors` and `Windows` applies to it. */
  function AsCursor(l: Legacy): Cursor
  {
    Cursor(GS, l.gsFiles, l.nFiles, l.batchSize, l.nBatches, l.lastBatchSize, l.currentBatch,
           l.currentFile, l.gsFilesBatch, [], "", l.gsGetdir, "")
  }

  /** The same counts and position over the local files. */
  function LocalCursor(l: Legacy): Cursor
    requires l.localFiles.Some?
  {
    AsCursor(l).(files := l.localFiles.value)
  }

  // ---------------------------------------------------------------------------------------
  // Specification

  /** _update_batch: both windows sliced with the same bounds; the local window only when
      there are local files. */
  function Refresh(l: Legacy): Legacy
  {
    var c := AsCursor(l);
    l.(gsFilesBatch := Window(c),
       localFilesBatch := if l.localFiles.Some? then Some(Slice(l.localFiles.value, l.currentFile, WindowEnd(c)))
                          else l.localFilesBatch)
  }

  /** next_batch: always one batch on, with no check against `n_batches`. */
  function Forward(l: Legacy): Legacy
  {
    Refresh(l.(currentBatch := l.currentBatch + 1, currentFile := l.currentFile + l.batchSize))
  }

  /** prev_batch: one batch back while `current_batch > 0`, otherwise nothing. */
  function Back(l: Legacy): Legacy
  {
    if l.currentBatch > 0 then
      Refresh(l.(currentBatch := l.currentBatch - 1, currentFile := l.currentFile - l.batchSize))
    else l
  }

  /** reset_batch. */
  function Rewind(l: Legacy): Legacy
  {
    Refresh(l.(currentBatch := 0, currentFile := 0))
  }

  /** set_batch_size: the size is stored first, so a zero size is kept when the division
      raises; otherwise the counts are recomputed and the windows are left as they were. */
  function Resize(l: Legacy, size: int): (Legacy, Option<Error>)
  {
    if size == 0 then (l.(batchSize := 0), Some(ZeroDivisionError))
    else (l.(batchSize := size, nBatches := CeilDiv(l.nFiles, size), lastBatchSize := FloorMod(l.nFiles, size)), None)
  }

  /** One file set of the constructor: the product of the components when they are given
      (IndexError for an empty list of components), else the list, else nothing. */
  function Chosen(list: Option<seq<string>>, components: Option<seq<seq<string>>>): Result<Option<seq<string>>, Error>
  {
    if components.Some? then
      if components.value == [] then Failure(IndexError) else Success(Some(Cartesian(components.value)))
    else Success(list)
  }

  /** Gsbatch.__init__: the remote files (required), then the local files (optional), the
      length check, the counts, position 0 and the first windows. */
  function Init(gsList: Option<seq<string>>, gsComponents: Option<seq<seq<string>>>, gsGetdir: string,
                localList: Option<seq<string>>, localComponents: Option<seq<seq<string>>>,
                batchSize: int): Result<Legacy, Error>
  {
    var g := Chosen(gsList, gsComponents);
    if g.Failure? then Failure(g.error)
    else if g.value.None? then Failure(NoFileList)
    else
      var loc := Chosen(localList, localComponents);
      if loc.Failure? then Failure(loc.error)
      else
        var gs := g.value.value;
        var n := |gs|;
        if loc.value.Some? && |loc.value.value| != n then Failure(LengthMismatch)
        else if batchSize == 0 then Failure(ZeroDivisionError)
        else Success(Refresh(Legacy(gs, loc.value, gsGetdir, n, batchSize, CeilDiv(n, batchSize),
                                    FloorMod(n, batchSize), 0, 0, [], None)))
  }

  /** `n` calls of a method whose effect on the object is `step`. */
  function Repeated(step: Legacy -> Legacy, l: Legacy, n: nat): Legacy
  {
    if n == 0 then l else step(Repeated(step, l, n - 1))
  }

  /** `n` calls of next_batch. */
  function Forwards(l: Legacy, n: nat): Legacy
  {
    Repeated(Forward, l, n)
  }

  // ---------------------------------------------------------------------------------------
  // Invariants

  /** Both windows are the slices for the current position, and there is a local window
      exactly when there are local files. */
  predicate Sliced(l: Legacy)
  {
    var c := AsCursor(l);
    l.gsFilesBatch == Window(c) &&
    l.localFilesBatch == if l.localFiles.Some? then Some(Slice(l.localFiles.value, l.currentFile, WindowEnd(c)))
                         else None
  }

  /** The counts a constructed object holds, for both file sets. */
  predicate Counted(l: Legacy)
  {
    Sized(AsCursor(l)) && (l.localFiles.Some? ==> |l.localFiles.value| == |l.gsFiles|)
  }

  // ---------------------------------------------------------------------------------------
  // Properties

  /** Without a list or components for the remote files the constructor raises, whatever
      else is given. */
  lemma InitNeedsRemoteFiles(gsGetdir: string, localList: Option<seq<string>>,
                             localComponents: Option<seq<seq<string>>>, batchSize: int)
    ensures Init(None, None, gsGetdir, localList, localComponents, batchSize) == Failure(NoFileList)
  {
  }

  /** Components take precedence over a list, for the remote and for the local files: the
      list is ignored when components are given. */
  lemma InitPrefersComponents(gsList: Option<seq<string>>, gsComponents: seq<seq<string>>, gsGetdir: string,
                              localList: Option<seq<string>>, localComponents: seq<seq<string>>,
                              batchSize: int)
    ensures Init(gsList, Some(gsComponents), gsGetdir, localList, Some(localComponents), batchSize) ==
            Init(None, Some(gsComponents), gsGetdir, None, Some(localComponents), batchSize)
    ensures gsComponents == [] ==>
              Init(gsList, Some(gsComponents), gsGetdir, localList, Some(localComponents), batchSize) ==
              Failure(IndexError)
  {
  }

  /** From lists: construction succeeds exactly when the local list, if any, has as many
      entries as the remote list and the batch size is not 0; a length mismatch is reported
      before a zero batch size. */
  lemma InitFromLists(gs: seq<string>, gsGetdir: string, local: Option<seq<string>>, batchSize: int)
    ensures var r := Init(Some(gs), None, gsGetdir, local, None, batchSize);
            (r.Success? <==> (local.None? || |local.value| == |gs|) && batchSize != 0) &&
            (local.Some? && |local.value| != |gs| ==> r == Failure(LengthMismatch)) &&
            ((local.None? || |local.value| == |gs|) && batchSize == 0 ==> r == Failure(ZeroDivisionError))
  {
  }

  /** A constructed object holds the chosen file sets, with as many remote files as the
      product of the component lengths when built from components; it sits at batch 0 and
      file 0 with current windows and the counts of `Sized`. */
  lemma InitState(gsList: Option<seq<string>>, gsComponents: Option<seq<seq<string>>>, gsGetdir: string,
                  localList: Option<seq<string>>, localComponents: Option<seq<seq<string>>>, batchSize: int)
    requires Init(gsList, gsComponents, gsGetdir, localList, localComponents, batchSize).Success?
    ensures var l := Init(gsList, gsComponents, gsGetdir, localList, localComponents, batchSize).value;
            l.gsFiles == (if gsComponents.Some? then Cartesian(gsComponents.value) else gsList.value) &&
            (gsComponents.Some? ==> |l.gsFiles| == Count(gsComponents.value)) &&
            l.localFiles == (if localComponents.Some? then Some(Cartesian(localComponents.value)) else localList) &&
            l.gsGetdir == gsGetdir && l.currentBatch == 0 && l.currentFile == 0 &&
            Sliced(l) && (batchSize > 0 ==> Counted(l))
  {
    if gsComponents.Some? {
      CartesianLength(gsComponents.value);
    }
  }

  /** The two windows pair up index by index: with as many local as remote files, a current
      object has windows of the same length whose `k`-th entries are the remote and the
      local file at the same position of their lists. */
  lemma PairedWindows(l: Legacy)
    requires Sliced(l) && l.localFiles.Some? && |l.localFiles.value| == |l.gsFiles|
    ensures var local := l.localFilesBatch.value;
            var o := Clip(l.currentFile, |l.gsFiles|);
            l.localFilesBatch.Some? && |local| == |l.gsFilesBatch| &&
            forall k :: 0 <= k < |local| ==>
              l.gsFilesBatch[k] == l.gsFiles[o + k] && local[k] == l.localFiles.value[o + k]
  {
    SlicePairs(l.gsFiles, l.localFiles.value, l.currentFile, WindowEnd(AsCursor(l)));
  }

  /** next_batch and reset_batch leave both windows current, from any object that has no
      local window when it has no local files. */
  lemma MovesKeepSliced(l: Legacy)
    requires l.localFiles.None? ==> l.localFilesBatch.None?
    ensures Sliced(Forward(l)) && Sliced(Rewind(l))
  {
    var f := l.(currentBatch := l.currentBatch + 1, currentFile := l.currentFile + l.batchSize);
    assert Forward(l) == Refresh(f);
    RefreshSlices(f);
    var z := l.(currentBatch := 0, currentFile := 0);
    assert Rewind(l) == Refresh(z);
    RefreshSlices(z);
  }

  /** prev_batch keeps both windows current. */
  lemma BackKeepsSliced(l: Legacy)
    requires Sliced(l)
    ensures Sliced(Back(l))
  {
    if l.currentBatch > 0 {
      var b := l.(currentBatch := l.currentBatch - 1, currentFile := l.currentFile - l.batchSize);
      assert Back(l) == Refresh(b);
      RefreshSlices(b);
    }
  }

  /** _update_batch makes both windows current, given that an object without local files
      has no local window. */
  lemma RefreshSlices(l: Legacy)
    requires l.localFiles.None? ==> l.localFilesBatch.None?
    ensures Sliced(Refresh(l))
  {
    var c := AsCursor(l);
    var r := Refresh(l);
    assert AsCursor(r) == c.(filesBatch := r.gsFilesBatch);
  }

  /** Batch `j` at its aligned offset has the window `WindowAt` gives for it. */
  lemma AlignedWindow(l: Legacy, j: nat)
    requires l.currentBatch == j && l.currentFile == Offset(j, l.batchSize)
    ensures Refresh(l).gsFilesBatch == WindowAt(AsCursor(l), j)
    ensures l.localFiles.Some? ==> Refresh(l).localFilesBatch == Some(WindowAt(LocalCursor(l), j))
  {
  }

  /** prev_batch undoes next_batch from any batch at or after the first. */
  lemma BackUndoesForward(l: Legacy)
    requires Sliced(l) && l.currentBatch >= 0
    ensures Back(Forward(l)) == l
  {
  }

  /** next_batch undoes prev_batch, except at batch 0 (or before it), where prev_batch does
      nothing. */
  lemma ForwardUndoesBack(l: Legacy)
    requires Sliced(l)
    ensures l.currentBatch > 0 ==> Forward(Back(l)) == l
    ensures l.currentBatch <= 0 ==> Back(l) == l
  {
  }

  /** The object moved to batch `j` at its aligned offset, with the windows of that batch
      and nothing else changed. */
  function Reached(l: Legacy, j: nat): Legacy
  {
    l.(currentBatch := j, currentFile := Offset(j, l.batchSize),
       gsFilesBatch := WindowAt(AsCursor(l), j),
       localFilesBatch := if l.localFiles.Some? then Some(WindowAt(LocalCursor(l), j)) else l.localFilesBatch)
  }

  /** One next_batch from batch `k - 1` reaches batch `k`. */
  lemma ForwardReached(l: Legacy, k: nat)
    requires k > 0
    ensures Forward(Reached(l, k - 1)) == Reached(l, k)
  {
    var r := Reached(l, k - 1);
    var x := r.(currentBatch := k, currentFile := r.currentFile + l.batchSize);
    assert Forward(r) == Refresh(x);
    assert x.currentFile == Offset(k, l.batchSize);
    assert AsCursor(x) == AsCursor(l).(currentBatch := k, currentFile := Offset(k, l.batchSize),
                                       filesBatch := r.gsFilesBatch);
  }

  /** An object with current windows at an aligned batch is that batch reached. */
  lemma AlignedIsReached(l: Legacy)
    requires Sliced(l) && l.currentBatch >= 0 && l.currentFile == Offset(l.currentBatch, l.batchSize)
    ensures Reached(l, l.currentBatch) == l
  {
    assert WindowAt(AsCursor(l), l.currentBatch) == Window(AsCursor(l));
    if l.localFiles.Some? {
      assert LocalCursor(l).currentBatch == l.currentBatch;
    }
  }

  /** A reached batch has current windows. */
  lemma ReachedSliced(l: Legacy, j: nat)
    requires l.localFiles.None? ==> l.localFilesBatch.None?
    ensures Sliced(Reached(l, j))
  {
    var x := l.(currentBatch := j, currentFile := Offset(j, l.batchSize));
    assert AsCursor(x) == AsCursor(l).(currentBatch := j, currentFile := Offset(j, l.batchSize));
    assert Reached(l, j) == Refresh(x);
    RefreshSlices(x);
  }

  /** A step that moves along a sequence of states moves `n` places in `n` steps. */
  lemma {:induction false} RepeatedFollows(step: Legacy -> Legacy, states: nat -> Legacy, j: nat, n: nat)
    requires forall k: nat :: k > 0 ==> step(states(k - 1)) == states(k)
    ensures Repeated(step, states(j), n) == states(j + n)
  {
    if n > 0 {
      RepeatedFollows(step, states, j, n - 1);
      assert step(states(j + n - 1)) == states(j + n);
    }
  }

  /** next_batch moves from each batch to the next one. */
  lemma ForwardFollows(l: Legacy)
    ensures forall k: nat :: k > 0 ==> Forward(Reached(l, k - 1)) == Reached(l, k)
  {
    forall k: nat | k > 0
      ensures Forward(Reached(l, k - 1)) == Reached(l, k)
    {
      ForwardReached(l, k);
    }
  }

  /** `n` calls of next_batch from batch `j` reach batch `j + n`. */
  lemma ForwardsReach(l: Legacy, j: nat, n: nat)
    ensures Forwards(Reached(l, j), n) == Reached(l, j + n)
  {
    var states := (k: nat) => Reached(l, k);
    ForwardFollows(l);
    RepeatedFollows(Forward, states, j, n);
  }

  /** From a constructed object's position, or any aligned batch with current windows, `n`
      calls of next_batch reach batch `i + n` at its aligned offset, with current windows of
      that batch, and change nothing else. */
  lemma ForwardsFromAligned(l: Legacy, n: nat)
    requires Sliced(l) && l.currentBatch >= 0 && l.currentFile == Offset(l.currentBatch, l.batchSize)
    ensures Forwards(l, n) == Reached(l, l.currentBatch + n) && Sliced(Forwards(l, n))
  {
    AlignedIsReached(l);
    ForwardsReach(l, l.currentBatch, n);
    ReachedSliced(l, l.currentBatch + n);
  }

  /** Because next_batch has no bound, the object can be moved past the final batch; there
      both windows are empty rather than an error. */
  lemma PastTheFinalBatch(l: Legacy, n: nat)
    requires Sliced(l) && Counted(l) && l.currentBatch >= 0 && l.currentFile == Offset(l.currentBatch, l.batchSize)
    requires l.currentBatch + n >= l.nBatches
    ensures var f := Forwards(l, n);
            f.currentBatch == l.currentBatch + n && f.gsFilesBatch == [] &&
            (l.localFiles.Some? ==> f.localFilesBatch == Some([]))
  {
    var j := l.currentBatch + n;
    ForwardsFromAligned(l, n);
    PastTheEnd(AsCursor(l), j);
    if l.localFiles.Some? {
      PastTheEnd(LocalCursor(l), j);
    }
  }

  /** When the batch size does not divide the number of files, the remote windows of
      batches 0 to `n_batches - 1`, concatenated, give back the remote list, and so do the
      local windows for the local list. */
  lemma LegacyPartition(l: Legacy)
    requires Counted(l) && (l.lastBatchSize != 0 || |l.gsFiles| == 0)
    ensures Batches(AsCursor(l), l.nBatches) == l.gsFiles
    ensures l.localFiles.Some? ==> Batches(LocalCursor(l), l.nBatches) == l.localFiles.value
  {
    Partition(AsCursor(l));
    if l.localFiles.Some? {
      Partition(LocalCursor(l));
    }
  }

  /** reset_batch after any number of next_batch calls gives what reset_batch gives from
      where they started. */
  lemma {:induction false} RewindForgetsForwards(l: Legacy, n: nat)
    ensures Rewind(Forwards(l, n)) == Rewind(l)
  {
    if n > 0 {
      RewindForgetsForwards(l, n - 1);
      assert Rewind(Forward(Forwards(l, n - 1))) == Rewind(Forwards(l, n - 1));
    }
  }

  /** set_batch_size leaves the windows as they were: a constructed object resized and then
      reset is the object constructed with the new size, but before the reset its window can
      still be that of the old size. */
  lemma ResizeThenRewind(gsList: Option<seq<string>>, gsComponents: Option<seq<seq<string>>>, gsGetdir: string,
                         localList: Option<seq<string>>, localComponents: Option<seq<seq<string>>>,
                         batchSize: int, size: int)
    requires Init(gsList, gsComponents, gsGetdir, localList, localComponents, batchSize).Success?
    requires size != 0
    ensures var l := Init(gsList, gsComponents, gsGetdir, localList, localComponents, batchSize).value;
            var r := Resize(l, size);
            r.1 == None && r.0.gsFilesBatch == l.gsFilesBatch &&
            Init(gsList, gsComponents, gsGetdir, localList, localComponents, size) == Success(Rewind(r.0))
  {
  }

  /** A zero size raises ZeroDivisionError and is nevertheless stored, with the batch
      counts and the windows unchanged. */
  lemma ResizeZero(l: Legacy)
    ensures Resize(l, 0) == (l.(batchSize := 0), Some(ZeroDivisionError))
  {
  }

  /** The windows are stale after set_batch_size: three files in batches of one, resized
      to batches of two, keep the one-file window. */
  lemma ResizeLeavesStaleWindow()
    ensures var l := Init(Some(["a", "b", "c"]), None, "", None, None, 1).value;
            var r := Resize(l, 2).0;
            Sliced(l) && r.gsFilesBatch == ["a"] && !Sliced(r)
  {
    var l := Init(Some(["a", "b", "c"]), None, "", None, None, 1).value;
    assert CeilDiv(3, 1) == 3;
    assert Window(AsCursor(l)) == ["a", "b", "c"][0..1];
    var r := Resize(l, 2).0;
    assert CeilDiv(3, 2) == 2;
    assert Window(AsCursor(r)) == ["a", "b", "c"][0..2];
  }

  // ---------------------------------------------------------------------------------------
  // The class

  class Gsbatch {
    var gsFiles: seq<string>
    var localFiles: Option<seq<string>>
    var gsGetdir: string
    var nFiles: int
    var batchSize: int
    var nBatches: int
    var lastBatchSize: int
    var currentBatch: int
    var currentFile: int
    var gsFilesBatch: seq<string>
    var localFilesBatch: Option<seq<string>>

    /** The object's fields as a value. */
    ghost function State(): Legacy
      reads this
    {
      Legacy(gsFiles, localFiles, gsGetdir, nFiles, batchSize, nBatches, lastBatchSize,
             currentBatch, currentFile, gsFilesBatch, localFilesBatch)
    }

    /** An object holding the given fields (the constructor itself is `NewGsbatch`). */
    constructor Of(l: Legacy)
      ensures State() == l
    {
      gsFiles, localFiles, gsGetdir, nFiles := l.gsFiles, l.localFiles, l.gsGetdir, l.nFiles;
      batchSize, nBatches, lastBatchSize := l.batchSize, l.nBatches, l.lastBatchSize;
      currentBatch, currentFile := l.currentBatch, l.currentFile;
      gsFilesBatch, localFilesBatch := l.gsFilesBatch, l.localFilesBatch;
    }

    /** _update_batch. */
    method UpdateBatch()
      modifies this
      ensures State() == Refresh(old(State()))
    {
      var startIdx := currentFile;
      var endIdx;
      if currentBatch < nBatches - 1 {
        endIdx := currentFile + batchSize;
      } else {
        endIdx := currentFile + lastBatchSize;
      }
      gsFilesBatch := Slice(gsFiles, startIdx, endIdx);
      if localFiles.Some? {
        localFilesBatch := Some(Slice(localFiles.value, startIdx, endIdx));
      }
    }

    /** next_batch. */
    method NextBatch()
      modifies this
      ensures State() == Forward(old(State()))
    {
      currentBatch := currentBatch + 1;
      currentFile := currentFile + batchSize;
      UpdateBatch();
    }

    /** prev_batch. */
    method PrevBatch()
      modifies this
      ensures State() == Back(old(State()))
    {
      if currentBatch > 0 {
        currentBatch := currentBatch - 1;
        currentFile := currentFile - batchSize;
        UpdateBatch();
      }
    }

    /** reset_batch. */
    method ResetBatch()
      modifies this
      ensures State() == Rewind(old(State()))
    {
      currentBatch := 0;
      currentFile := 0;
      UpdateBatch();
    }

    /** get_batch and put_batch return at once and change nothing. */
    method GetBatch()
    {
    }

    method PutBatch()
    {
    }

    /** set_batch_size. */
    method SetBatchSize(size: int) returns (err: Option<Error>)
      modifies this
      ensures (State(), err) == Resize(old(State()), size)
    {
      batchSize := size;
      if size == 0 {
        return Some(ZeroDivisionError);
      }
      nBatches := CeilDiv(nFiles, size);
      lastBatchSize := FloorMod(nFiles, size);
      return None;
    }
  }

  /** One file set of the constructor, with _make_files_from_components run on the
      components. */
  method ChooseFiles(list: Option<seq<string>>, components: Option<seq<seq<string>>>)
    returns (r: Result<Option<seq<string>>, Error>)
    ensures r == Chosen(list, components)
  {
    if components.Some? {
      var made := MakeFilesFromComponents(components.value);
      if made.Failure? {
        return Failure(made.error);
      }
      return Success(Some(made.value));
    }
    return Success(list);
  }

  /** Gsbatch.__init__ on a new object. */
  method NewGsbatch(gsList: Option<seq<string>>, gsComponents: Option<seq<seq<string>>>, gsGetdir: string,
                    localList: Option<seq<string>>, localComponents: Option<seq<seq<string>>>,
                    batchSize: int) returns (r: Result<Gsbatch, Error>)
    ensures var s := Init(gsList, gsComponents, gsGetdir, localList, localComponents, batchSize);
            (r.Failure? <==> s.Failure?) &&
            (r.Failure? ==> r.error == s.error) &&
            (r.Success? ==> fresh(r.value) && r.value.State() == s.value)
  {
    var gs := ChooseFiles(gsList, gsComponents);
    if gs.Failure? {
      return Failure(gs.error);
    }
    if gs.value.None? {
      return Failure(NoFileList);
    }
    var local := ChooseFiles(localList, localComponents);
    if local.Failure? {
      return Failure(local.error);
    }
    var gsFiles := gs.value.value;
    var nFiles := |gsFiles|;
    if local.value.Some? && |local.value.value| != nFiles {
      return Failure(LengthMismatch);
    }
    if batchSize == 0 {
      return Failure(ZeroDivisionError);
    }
    var nBatches := CeilDiv(nFiles, batchSize);
    var lastBatchSize := FloorMod(nFiles, batchSize);
    var b := new Gsbatch.Of(Legacy(gsFiles, local.value, gsGetdir, nFiles, batchSize, nBatches,
                                   lastBatchSize, 0, 0, [], None));
    b.UpdateBatch();
    return Success(b);
  }
}

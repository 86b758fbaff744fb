/** The batch objects of cloudbatch/cloudbatch.py and its subclasses GSBatch
    (cloudbatch/gsbatch.py), LocalBatch (cloudbatch/localbatch.py) and CDSBatch
    (cloudbatch/cdsbatch.py) as one class: the subclass is the `flavour` field, and each
    method does what the subclass's version does. Every method is proved to act on the
    object as the functions of `Cursors` and `Staging` say. */
module CloudBatches {
  import opened Wrappers
  import opened PyOps
  import opened PyPath
  import opened Commands
  import opened Cursors
  import opened Staging

  class CloudBatch {
    var flavour: Flavour
    var files: seq<string>
    var nFiles: int
    var batchSize: int
    var nBatches: int
    var lastBatchSize: int
    var currentBatch: int
    var currentFile: int
    var filesBatch: seq<string>
    var tmpFiles: seq<string>
    var source: string
    var getDir: string
    var putDir: string
    /** `file_exists`, set by check_files. */
    var fileExists: seq<bool>

    /** The object's fields as a cursor value. */
    ghost function State(): Cursor
      reads this
    {
      Cursor(flavour, files, nFiles, batchSize, nBatches, lastBatchSize, currentBatch,
             currentFile, filesBatch, tmpFiles, source, getDir, putDir)
    }

    /** An object holding the given fields (the constructors themselves are `NewGSBatch`
        and the always-failing `LocalInit` and `CDSInit`). */
    constructor Of(c: Cursor)
      ensures State() == c && fileExists == []
    {
      flavour, files, nFiles, batchSize := c.flavour, c.files, c.nFiles, c.batchSize;
      nBatches, lastBatchSize := c.nBatches, c.lastBatchSize;
      currentBatch, currentFile, filesBatch := c.currentBatch, c.currentFile, c.filesBatch;
      tmpFiles, source, getDir, putDir := c.tmpFiles, c.source, c.getDir, c.putDir;
      fileExists := [];
    }

    /** _update_batch. */
    method UpdateBatch()
      modifies this
      ensures State() == Cursors.UpdateBatch(old(State())) && fileExists == old(fileExists)
    {
      var startIdx := currentFile;
      var endIdx;
      if currentBatch < nBatches - 1 {
        endIdx := currentFile + batchSize;
      } else {
        endIdx := currentFile + lastBatchSize;
      }
      filesBatch := Slice(files, startIdx, endIdx);
    }

    /** next_batch. */
    method NextBatch()
      modifies this
      ensures State() == Next(old(State())) && fileExists == old(fileExists)
    {
      if currentBatch < nBatches - 1 {
        currentBatch := currentBatch + 1;
        currentFile := currentFile + batchSize;
        UpdateBatch();
      }
    }

    /** prev_batch. */
    method PrevBatch()
      modifies this
      ensures State() == Prev(old(State())) && fileExists == old(fileExists)
    {
      if currentBatch > 0 {
        currentBatch := currentBatch - 1;
        currentFile := currentFile - batchSize;
        UpdateBatch();
      }
    }

    /** reset_batch. */
    method ResetBatch()
      modifies this
      ensures State() == Reset(old(State())) && fileExists == old(fileExists)
    {
      currentBatch := 0;
      currentFile := 0;
      UpdateBatch();
    }

    /** set_batch_size: the size is stored before the division that may raise. */
    method SetBatchSize(size: int) returns (err: Option<Error>)
      modifies this
      ensures (State(), err) == Cursors.SetBatchSize(old(State()), size)
      ensures fileExists == old(fileExists)
    {
      batchSize := size;
      if size == 0 {
        return Some(ZeroDivisionError);
      }
      nBatches := CeilDiv(nFiles, size);
      lastBatchSize := FloorMod(nFiles, size);
      UpdateBatch();
      return None;
    }

    /** is_final_batch. */
    method IsFinalBatch() returns (b: bool)
      ensures b == IsFinal(State())
    {
      if currentBatch == nBatches - 1 {
        return true;
      } else {
        return false;
      }
    }

    /** get_batch: the command is run by the copy tool, which creates the staged paths in
        `copied`; the result is the filesystem afterwards, the command line (none for
        LocalBatch) and the exception raised, if any. */
    method GetBatch(fs: set<string>, copied: set<string>)
      returns (after: set<string>, command: Option<string>, err: Option<Error>)
      modifies this
      ensures Fetch(State(), after, command, err) == Staging.GetBatch(old(State()), fs, copied)
      ensures fileExists == old(fileExists)
    {
      if flavour == Local {
        return fs, None, None;
      }
      var cmd := BuildCommand(filesBatch, getDir);
      var got := StagePaths(getDir, filesBatch);
      after := fs + (copied * Paths(got));
      if flavour == GS {
        var present := AllPresent(got, after);
        if !present {
          after, err := DeleteTmpFiles(Some(got), after);
          CopyThenCheck(got, fs, copied);
          return after, Some(cmd), Some(DownloadFailed);
        }
      }
      tmpFiles := tmpFiles + got;
      return after, Some(cmd), None;
    }

    /** put_batch: the command line that uploads the window to `put_dir`. */
    method PutBatch() returns (command: string)
      ensures command == PutCommand(State())
    {
      command := BuildCommand(filesBatch, putDir);
    }

    /** delete_tmp_files, with or without its argument. */
    method DeleteTmpFiles(arg: Option<seq<string>>, fs: set<string>) returns (after: set<string>, err: Option<Error>)
      modifies this
      ensures (State(), after, err) == DeleteTmp(old(State()), arg, fs)
      ensures fileExists == old(fileExists)
    {
      var toDelete: seq<string>;
      match arg {
        case None =>
          toDelete := tmpFiles;
          tmpFiles := [];
        case Some(l) =>
          if flavour != GS {
            return fs, Some(ExtraArgument);
          }
          toDelete := l;
      }
      after := RemoveExisting(toDelete, fs);
      err := None;
    }

    /** delete_batch_files. */
    method DeleteBatchFiles(fs: set<string>) returns (after: set<string>, err: Option<Error>)
      modifies this
      ensures (State(), after, err) == Staging.DeleteBatchFiles(old(State()), fs)
      ensures fileExists == old(fileExists)
    {
      after := fs;
      for i := 0 to |filesBatch|
        invariant Remove(filesBatch, fs) == Remove(filesBatch[i..], after)
      {
        var ff := filesBatch[i];
        if ff !in after {
          return after, Some(FileNotFoundError(ff));
        }
        assert filesBatch[i..][1..] == filesBatch[i + 1..];
        after := after - {ff};
      }
      filesBatch := [];
      return after, None;
    }

    /** check_files, with `remoteStat` standing for `_gsstat`. */
    method CheckFiles(remoteStat: string -> bool, fs: set<string>) returns (err: Option<Error>)
      modifies this
      ensures State() == old(State())
      ensures var r := FileChecks(old(State()), remoteStat, fs);
              (r.Success? ==> err == None && fileExists == r.value) &&
              (r.Failure? ==> err == Some(r.error) && fileExists == old(fileExists))
    {
      if nFiles < 0 {
        return Some(ValueError("negative dimensions are not allowed"));
      }
      var checked := new bool[nFiles](_ => false);
      for ii := 0 to nFiles
        modifies checked
        invariant Reads(source) ==> ii <= |files|
        invariant forall k :: 0 <= k < ii ==> checked[k] == (k < |files| && Checked(source, files[k], remoteStat, fs))
        invariant forall k :: ii <= k < nFiles ==> !checked[k]
      {
        if source == "remote" {
          if ii >= |files| {
            return Some(IndexError);
          }
          checked[ii] := remoteStat(files[ii]);
        } else if source == "local" {
          if ii >= |files| {
            return Some(IndexError);
          }
          checked[ii] := files[ii] in fs;
        }
      }
      assert checked[..] == FileChecks(State(), remoteStat, fs).value;
      fileExists := checked[..];
      return None;
    }
  }

  /** The command loop of get_batch and put_batch. */
  method BuildCommand(batch: seq<string>, dest: string) returns (cmd: string)
    ensures cmd == CopyCommand(batch, dest)
  {
    cmd := CopyPrefix;
    for i := 0 to |batch|
      invariant cmd == CopyPrefix + Spaced(batch[..i])
    {
      assert batch[..i + 1][..i] == batch[..i];
      cmd := cmd + " " + batch[i];
    }
    assert batch[..|batch|] == batch;
    cmd := cmd + " " + dest;
  }

  /** The loop of get_batch that names the staged paths. */
  method StagePaths(dir: string, batch: seq<string>) returns (got: seq<string>)
    ensures got == StagedIn(dir, batch)
  {
    ghost var staged := StagedIn(dir, batch);
    got := [];
    for i := 0 to |batch|
      invariant got == staged[..i]
    {
      assert staged[..i + 1] == staged[..i] + [staged[i]];
      got := got + [Join(dir, Basename(batch[i]))];
    }
    assert staged[..|batch|] == staged;
  }

  /** The check loop of GSBatch.get_batch: does every staged path exist? */
  method AllPresent(got: seq<string>, fs: set<string>) returns (present: bool)
    ensures present <==> forall k :: 0 <= k < |got| ==> got[k] in fs
  {
    for i := 0 to |got|
      invariant forall k :: 0 <= k < i ==> got[k] in fs
    {
      if got[i] !in fs {
        return false;
      }
    }
    return true;
  }

  /** The best-effort removal loop of delete_tmp_files: a missing path is skipped. */
  method RemoveExisting(paths: seq<string>, fs: set<string>) returns (after: set<string>)
    ensures after == fs - Paths(paths)
  {
    after := fs;
    for i := 0 to |paths|
      invariant after == fs - Paths(paths[..i])
    {
      assert Paths(paths[..i + 1]) == Paths(paths[..i]) + {paths[i]};
      if paths[i] in after {
        after := after - {paths[i]};
      }
    }
    assert paths[..|paths|] == paths;
  }

  /** _expand_wildcards, with the two listing commands as parameters. */
  method ExpandWildcards(listOfPaths: seq<string>, source: string, gsls: string -> seq<string>, glob: string -> seq<string>)
    returns (r: Result<seq<string>, Error>)
    ensures r == Expanded(listOfPaths, source, gsls, glob)
  {
    var outputList: seq<string> := [];
    for ii := 0 to |listOfPaths|
      invariant Expanded(listOfPaths[..ii], source, gsls, glob) == Success(outputList)
    {
      var path := listOfPaths[ii];
      assert listOfPaths[..ii + 1][..ii] == listOfPaths[..ii];
      if HasStar(path) {
        var wcFiles;
        if source == "remote" {
          wcFiles := gsls(path);
        } else if source == "local" {
          wcFiles := glob(path);
        } else {
          ExpandedAppend(listOfPaths[..ii + 1], listOfPaths[ii + 1..], source, gsls, glob);
          assert listOfPaths[..ii + 1] + listOfPaths[ii + 1..] == listOfPaths;
          return Failure(UnboundLocalError("wc_files"));
        }
        outputList := outputList + wcFiles;
      } else {
        outputList := outputList + [path];
      }
    }
    assert listOfPaths[..|listOfPaths|] == listOfPaths;
    return Success(outputList);
  }
}

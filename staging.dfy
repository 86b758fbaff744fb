/** Staging bookkeeping of the batch classes as functions of a cursor and a filesystem:
    get_batch, put_batch, delete_tmp_files, delete_batch_files, check_files
    (cloudbatch/gsbatch.py, cloudbatch/cloudbatch.py, cloudbatch/localbatch.py,
    cloudbatch/cdsbatch.py) and _expand_wildcards. The filesystem is the set of paths that
    exist; the copy tool is the set of staged paths it managed to create. */
module Staging {
  import opened Wrappers
  import opened PyPath
  import opened Commands
  import opened Cursors

  /** The paths of a list, as a set. */
  function Paths(l: seq<string>): set<string>
  {
    set p | p in l
  }

  /** `path.join(get_dir, path.basename(ff))` for every file of the window, in order. */
  function Staged(c: Cursor): seq<string>
  {
    StagedIn(c.getDir, c.filesBatch)
  }

  function StagedIn(dir: string, batch: seq<string>): seq<string>
  {
    seq(|batch|, k requires 0 <= k < |batch| => Join(dir, Basename(batch[k])))
  }

  function GetCommand(c: Cursor): string
  {
    CopyCommand(c.filesBatch, c.getDir)
  }

  function PutCommand(c: Cursor): string
  {
    CopyCommand(c.filesBatch, c.putDir)
  }

  /** What a get_batch call leaves: the cursor, the filesystem, the command it ran (if any)
      and the exception it raised (if any). */
  datatype Fetch = Fetch(cursor: Cursor, fs: set<string>, command: Option<string>, error: Option<Error>)

  /** get_batch, with `copied` the staged paths the copy command created.
      GSBatch: copy, then check every staged path; a missing one makes it delete all staged
      paths it can and raise, with `tmp_files` as before; otherwise the staged paths are
      appended to `tmp_files`. LocalBatch: nothing. CDSBatch: copy and append, no check. */
  function GetBatch(c: Cursor, fs: set<string>, copied: set<string>): Fetch
  {
    var staged := Staged(c);
    var after := fs + (copied * Paths(staged));
    match c.flavour
    case GS =>
      if forall k :: 0 <= k < |staged| ==> staged[k] in after then
        Fetch(c.(tmpFiles := c.tmpFiles + staged), after, Some(GetCommand(c)), None)
      else
        Fetch(c, after - Paths(staged), Some(GetCommand(c)), Some(DownloadFailed))
    case Local => Fetch(c, fs, None, None)
    case CDS => Fetch(c.(tmpFiles := c.tmpFiles + staged), after, Some(GetCommand(c)), None)
  }

  const ExtraArgument := TypeError("delete_tmp_files() takes 1 positional argument but 2 were given")

  /** delete_tmp_files. Without an argument: every `tmp_files` entry is removed where it
      exists (a missing one is skipped) and `tmp_files` is emptied. With a list (GSBatch
      only): those paths are removed where they exist and `tmp_files` is kept; the
      LocalBatch and CDSBatch versions take no argument and raise TypeError. */
  function DeleteTmp(c: Cursor, arg: Option<seq<string>>, fs: set<string>): (Cursor, set<string>, Option<Error>)
  {
    match arg
    case None => (c.(tmpFiles := []), fs - Paths(c.tmpFiles), None)
    case Some(l) =>
      if c.flavour == GS then (c, fs - Paths(l), None)
      else (c, fs, Some(ExtraArgument))
  }

  /** `os.remove` on each path in order: the first missing path raises FileNotFoundError,
      after the earlier ones are gone. */
  function Remove(paths: seq<string>, fs: set<string>): (set<string>, Option<Error>)
  {
    if paths == [] then (fs, None)
    else if paths[0] !in fs then (fs, Some(FileNotFoundError(paths[0])))
    else Remove(paths[1..], fs - {paths[0]})
  }

  /** delete_batch_files: remove each window file, then `files_batch = []`; a missing file
      raises and leaves the window as it was. */
  function DeleteBatchFiles(c: Cursor, fs: set<string>): (Cursor, set<string>, Option<Error>)
  {
    var (after, e) := Remove(c.filesBatch, fs);
    if e.None? then (c.(filesBatch := []), after, None) else (c, after, e)
  }

  /** check_files: one entry per file index below `n_files`, the remote `gsutil stat` result
      (`remoteStat`) for source 'remote', existence in the filesystem for 'local', and False
      for any other source. `np.zeros` refuses a negative length. The list is read only for
      'remote' and 'local', so only those sources run off its end when `n_files` exceeds it. */
  function FileChecks(c: Cursor, remoteStat: string -> bool, fs: set<string>): Result<seq<bool>, Error>
  {
    if c.nFiles < 0 then Failure(ValueError("negative dimensions are not allowed"))
    else if c.nFiles > |c.files| && Reads(c.source) then Failure(IndexError)
    else Success(seq(c.nFiles, i requires 0 <= i < c.nFiles =>
                       if i < |c.files| then Checked(c.source, c.files[i], remoteStat, fs) else false))
  }

  /** The sources for which check_files looks a file up. */
  predicate Reads(source: string)
  {
    source == "remote" || source == "local"
  }

  function Checked(source: string, f: string, remoteStat: string -> bool, fs: set<string>): bool
  {
    if source == "remote" then remoteStat(f)
    else if source == "local" then f in fs
    else false
  }

  // ---------------------------------------------------------------------------------------
  // _expand_wildcards

  /** What one path contributes: its listing when it holds a `*`, itself otherwise. The
      listing is `_gsls` for source 'remote' and `glob.glob` for 'local'; any other source
      leaves `wc_files` unbound. */
  function Expansion(p: string, source: string, gsls: string -> seq<string>, glob: string -> seq<string>): Result<seq<string>, Error>
  {
    if !HasStar(p) then Success([p])
    else if source == "remote" then Success(gsls(p))
    else if source == "local" then Success(glob(p))
    else Failure(UnboundLocalError("wc_files"))
  }

  /** _expand_wildcards: the contributions of the paths, concatenated in order; the first
      wildcard with an unrecognised source raises. */
  function Expanded(paths: seq<string>, source: string, gsls: string -> seq<string>, glob: string -> seq<string>): Result<seq<string>, Error>
  {
    if paths == [] then Success([])
    else
      var init := Expanded(paths[..|paths| - 1], source, gsls, glob);
      if init.Failure? then init
      else
        var last := Expansion(paths[|paths| - 1], source, gsls, glob);
        if last.Failure? then last else Success(init.value + last.value)
  }

  // ---------------------------------------------------------------------------------------
  // Properties

  /** Staged paths come one per window file, in order, each in `get_dir` and named after the
      file it stages. */
  lemma StagedNames(c: Cursor)
    ensures |Staged(c)| == |c.filesBatch|
    ensures forall k :: 0 <= k < |c.filesBatch| ==>
              Staged(c)[k] == Join(c.getDir, Basename(c.filesBatch[k])) &&
              Basename(Staged(c)[k]) == Basename(c.filesBatch[k])
  {
    forall k | 0 <= k < |c.filesBatch|
      ensures Basename(Staged(c)[k]) == Basename(c.filesBatch[k])
    {
      JoinKeepsName(c.getDir, c.filesBatch[k]);
    }
  }

  /** GSBatch.get_batch succeeds exactly when every staged path exists after the copy; then
      `tmp_files` gains the staged paths in order and nothing else of the cursor changes.
      On failure the cursor is untouched and every staged path is gone, including one that
      existed before the call. */
  lemma GSGet(c: Cursor, fs: set<string>, copied: set<string>)
    requires c.flavour == GS
    ensures var r := GetBatch(c, fs, copied);
            var st := Staged(c);
            r.command == Some(GetCommand(c)) &&
            (r.error.None? <==> Paths(st) <= fs + copied) &&
            (r.error.None? ==> r.cursor == c.(tmpFiles := c.tmpFiles + st) &&
                               r.fs == fs + (copied * Paths(st)) && Paths(st) <= r.fs) &&
            (r.error.Some? ==> r.error == Some(DownloadFailed) && r.cursor == c &&
                               r.fs == fs - Paths(st))
  {
    CopyThenCheck(Staged(c), fs, copied);
  }

  /** The check after the copy passes exactly when every staged path was there already or
      was copied; deleting the staged paths afterwards leaves what was there minus them. */
  lemma CopyThenCheck(st: seq<string>, fs: set<string>, copied: set<string>)
    ensures var after := fs + (copied * Paths(st));
            ((forall k :: 0 <= k < |st| ==> st[k] in after) <==> Paths(st) <= fs + copied) &&
            after - Paths(st) == fs - Paths(st) &&
            ((forall k :: 0 <= k < |st| ==> st[k] in after) ==> Paths(st) <= after)
  {
    var after := fs + (copied * Paths(st));
    if forall k :: 0 <= k < |st| ==> st[k] in after {
      assert Paths(st) <= fs + copied;
    } else {
      var k :| 0 <= k < |st| && st[k] !in after;
      assert st[k] in Paths(st);
    }
  }

  /** CDSBatch.get_batch never checks: `tmp_files` always gains the staged paths. */
  lemma CDSGet(c: Cursor, fs: set<string>, copied: set<string>)
    requires c.flavour == CDS
    ensures var r := GetBatch(c, fs, copied);
            r.error.None? && r.cursor == c.(tmpFiles := c.tmpFiles + Staged(c)) &&
            fs <= r.fs && r.fs - fs <= Paths(Staged(c))
  {
  }

  /** LocalBatch.get_batch changes nothing. */
  lemma LocalGet(c: Cursor, fs: set<string>, copied: set<string>)
    requires c.flavour == Local
    ensures GetBatch(c, fs, copied) == Fetch(c, fs, None, None)
  {
  }

  /** delete_tmp_files() leaves no former temporary file and an empty list, skipping files
      already gone, and only deletes temporary files; a second call removes nothing more. */
  lemma DeleteTmpAll(c: Cursor, fs: set<string>)
    ensures var (d, after, e) := DeleteTmp(c, None, fs);
            e.None? && d == c.(tmpFiles := []) && after <= fs && fs - after <= Paths(c.tmpFiles) &&
            (forall k :: 0 <= k < |c.tmpFiles| ==> c.tmpFiles[k] !in after) &&
            DeleteTmp(d, None, after) == (d, after, None)
  {
    var (d, after, e) := DeleteTmp(c, None, fs);
    assert Paths(d.tmpFiles) == {};
    assert after - Paths(d.tmpFiles) == after && d.(tmpFiles := []) == d;
    forall k | 0 <= k < |c.tmpFiles| ensures c.tmpFiles[k] !in after {
      assert c.tmpFiles[k] in Paths(c.tmpFiles);
    }
  }

  /** With an explicit list, GSBatch removes those paths and keeps `tmp_files`; the other
      classes refuse the argument and change nothing. */
  lemma DeleteTmpListed(c: Cursor, l: seq<string>, fs: set<string>)
    ensures var (d, after, e) := DeleteTmp(c, Some(l), fs);
            d == c &&
            (c.flavour == GS ==> e.None? && after == fs - Paths(l) &&
                                 forall k :: 0 <= k < |l| ==> l[k] !in after) &&
            (c.flavour != GS ==> e == Some(ExtraArgument) && after == fs)
  {
  }

  /** The staged paths of a successful GSBatch get are exactly what the next
      delete_tmp_files() removes on top of the older temporary files. */
  lemma GetThenDelete(c: Cursor, fs: set<string>, copied: set<string>)
    requires c.flavour == GS && GetBatch(c, fs, copied).error.None?
    ensures var r := GetBatch(c, fs, copied);
            var (d, after, _) := DeleteTmp(r.cursor, None, r.fs);
            d.tmpFiles == [] &&
            after == (fs + (copied * Paths(Staged(c)))) - Paths(c.tmpFiles) - Paths(Staged(c)) &&
            forall k :: 0 <= k < |Staged(c)| ==> Staged(c)[k] !in after
  {
    var st := Staged(c);
    assert Paths(c.tmpFiles + st) == Paths(c.tmpFiles) + Paths(st);
  }

  /** Removing a list of paths one by one succeeds exactly when they are distinct and all
      exist; it never adds a path and removes only listed ones, and on success it removes
      all of them. */
  lemma {:induction false} RemoveOutcome(paths: seq<string>, fs: set<string>)
    ensures var (after, e) := Remove(paths, fs);
            after <= fs && fs - after <= Paths(paths) &&
            (e.None? <==> (forall k :: 0 <= k < |paths| ==> paths[k] in fs) &&
                          (forall i, j :: 0 <= i < j < |paths| ==> paths[i] != paths[j])) &&
            (e.None? ==> after == fs - Paths(paths))
  {
    if paths != [] {
      var p, rest := paths[0], paths[1..];
      if p in fs {
        RemoveOutcome(rest, fs - {p});
        var (after, e) := Remove(rest, fs - {p});
        assert Paths(paths) == {p} + Paths(rest);
        if e.None? {
          forall i, j | 0 <= i < j < |paths| ensures paths[i] != paths[j] {
            if i == 0 {
              assert paths[j] == rest[j - 1] && rest[j - 1] in fs - {p};
            } else {
              assert paths[i] == rest[i - 1] && paths[j] == rest[j - 1];
            }
          }
        }
      } else {
        assert paths[0] !in fs;
      }
    }
  }

  /** delete_batch_files empties the window exactly when its files are distinct and exist. */
  lemma DeleteBatchOutcome(c: Cursor, fs: set<string>)
    ensures var (d, after, e) := DeleteBatchFiles(c, fs);
            after <= fs && fs - after <= Paths(c.filesBatch) &&
            (e.None? ==> d == c.(filesBatch := []) && after == fs - Paths(c.filesBatch)) &&
            (e.Some? ==> d == c) &&
            (e.None? <==> (forall k :: 0 <= k < |c.filesBatch| ==> c.filesBatch[k] in fs) &&
                          (forall i, j :: 0 <= i < j < |c.filesBatch| ==> c.filesBatch[i] != c.filesBatch[j]))
  {
    RemoveOutcome(c.filesBatch, fs);
  }

  /** check_files records one flag per file index, in order, unless `n_files` is negative or
      a 'remote' or 'local' source needs a file past the end of the list; a 'remote' flag is
      the stat result, a 'local' flag is existence, and any other source gives False flags
      without reading the list at all. */
  lemma FileCheckEntries(c: Cursor, remoteStat: string -> bool, fs: set<string>)
    ensures FileChecks(c, remoteStat, fs).Success? <==>
              0 <= c.nFiles && (c.nFiles <= |c.files| || (c.source != "remote" && c.source != "local"))
    ensures var r := FileChecks(c, remoteStat, fs);
            r.Success? ==>
              |r.value| == c.nFiles &&
              forall i :: 0 <= i < c.nFiles ==>
                (c.source == "remote" ==> i < |c.files| && r.value[i] == remoteStat(c.files[i])) &&
                (c.source == "local" ==> i < |c.files| && (r.value[i] <==> c.files[i] in fs)) &&
                (c.source != "remote" && c.source != "local" ==> !r.value[i])
    ensures var r := FileChecks(c, remoteStat, fs);
            r.Failure? ==>
              (c.nFiles < 0 && r.error.ValueError?) ||
              (0 <= c.nFiles && c.nFiles > |c.files| && r.error == IndexError)
  {
  }

  /** A path list without wildcards comes back unchanged. */
  lemma {:induction false} NoStarIdentity(paths: seq<string>, source: string, gsls: string -> seq<string>, glob: string -> seq<string>)
    requires forall k :: 0 <= k < |paths| ==> !HasStar(paths[k])
    ensures Expanded(paths, source, gsls, glob) == Success(paths)
  {
    if paths != [] {
      var init := paths[..|paths| - 1];
      NoStarIdentity(init, source, gsls, glob);
      assert init + [paths[|paths| - 1]] == paths;
    }
  }

  /** Expansion works path by path: the expansion of two lists one after the other is the
      two expansions one after the other, and an error in the first list wins. */
  lemma {:induction false} ExpandedAppend(a: seq<string>, b: seq<string>, source: string, gsls: string -> seq<string>, glob: string -> seq<string>)
    ensures var ea, eb := Expanded(a, source, gsls, glob), Expanded(b, source, gsls, glob);
            Expanded(a + b, source, gsls, glob) ==
              if ea.Failure? then ea else if eb.Failure? then eb else Success(ea.value + eb.value)
    decreases |b|
  {
    if b == [] {
      assert a + b == a;
      var ea := Expanded(a, source, gsls, glob);
      if ea.Success? {
        assert ea.value + [] == ea.value;
      }
    } else {
      var init := b[..|b| - 1];
      ExpandedAppend(a, init, source, gsls, glob);
      assert (a + b)[..|a + b| - 1] == a + init;
      assert (a + b)[|a + b| - 1] == b[|b| - 1];
      var ea, ei := Expanded(a, source, gsls, glob), Expanded(init, source, gsls, glob);
      var last := Expansion(b[|b| - 1], source, gsls, glob);
      if ea.Success? && ei.Success? && last.Success? {
        assert ea.value + ei.value + last.value == ea.value + (ei.value + last.value);
      }
    }
  }

  /** Expansion fails exactly when some path holds a `*` and the source is neither 'remote'
      nor 'local'; a recognised source never fails. */
  lemma {:induction false} ExpandedFails(paths: seq<string>, source: string, gsls: string -> seq<string>, glob: string -> seq<string>)
    ensures Expanded(paths, source, gsls, glob).Failure? <==>
              source != "remote" && source != "local" && exists k :: 0 <= k < |paths| && HasStar(paths[k])
  {
    if paths != [] {
      var init := paths[..|paths| - 1];
      ExpandedFails(init, source, gsls, glob);
      if exists k :: 0 <= k < |init| && HasStar(init[k]) {
        var k :| 0 <= k < |init| && HasStar(init[k]);
        assert paths[k] == init[k];
      }
      if exists k :: 0 <= k < |paths| && HasStar(paths[k]) {
        var k :| 0 <= k < |paths| && HasStar(paths[k]);
        if k < |init| {
          assert init[k] == paths[k];
        }
      }
    }
  }
}

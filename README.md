# cloudbatch batch iteration, modelled in Dafny

cloudbatch moves files between Google Storage and a local disk in batches, so that an
analysis function can be run over far more files than fit on disk at once. This project
models the batch-iteration engine of the package and proves what it does:

- **the batch cursor** of `CloudBatch` and its subclasses `GSBatch`, `LocalBatch` and
  `CDSBatch`: the file list, `batch_size`, `n_batches`, `last_batch_size`, the position
  (`current_batch`, `current_file`) and the window `files_batch`, moved by `next_batch`,
  `prev_batch`, `reset_batch` and `set_batch_size` and recomputed by `_update_batch`
  (modules `Cursors`, `Windows`, and the class `CloudBatches.CloudBatch`);
- **the staging bookkeeping**: the staged paths of `get_batch`, its existence check and
  rollback, `tmp_files`, `delete_tmp_files`, `delete_batch_files`, `check_files`, the
  `gsutil -m cp` command lines and `_expand_wildcards` (modules `Staging`, `Commands`,
  `PyPath`, and the class);
- **the constructors**: `GSBatch.__init__`, and the `LocalBatch` and `CDSBatch`
  constructors, which cannot complete (module `Construction`);
- **the orchestrator** `apply_batch_func`: reset every object, check, then for each batch
  get, apply the function one file at a time, put, delete and advance, collecting one list
  of outputs per batch (module `ApplyBatch`);
- **the file-list builders**: `file_list_from_components`, `_iterate_list` and the
  raw-concatenation `_make_files_from_components` (modules `FileMaker`, `Products`);
- **the legacy `Gsbatch`** of gsbatch/gsbatch.py: paired remote and local windows and an
  unbounded `next_batch` (module `LegacyBatches`).

Python's integer arithmetic and slicing are written out in `PyOps`. `//` and `%` round
towards minus infinity, and `np.ceil(n / bs)` is integer ceiling division. A slice bound
that is negative counts from the end, and both bounds are clamped to the list. Objects
are Dafny classes whose methods update their fields. Each method is proved to act on
the object as a pure function of the old state says (`State() == Next(old(State()))`).
The properties are then proved as lemmas about those functions.

The filesystem is a `set<string>` of existing paths. The copy tool is a parameter: the
set of staged paths that a copy managed to create. The listing commands (`_gsls`,
`glob.glob`) and `_gsstat` are function parameters. The user function of
`apply_batch_func` is a Dafny function value.

The docstring of `file_list_from_components` passes a third component `['A']` but lists
names without it. The model follows the code, which gives `a_1_A.nc` and so on
(`FileMaker.ThreeComponentExample`).

## Model

| member | source | states |
|---|---|---|
| PyOps.DivisionLaw | cloudbatch/gsbatch.py:48-49 | Python's `//` and `%` satisfy `a == d * (a // d) + a % d`, and the remainder has the sign of the divisor |
| PyOps.DivisionUnique | cloudbatch/gsbatch.py:48-49 | for a positive divisor, the quotient and remainder are the only pair with that law |
| PyOps.CeilDivByRemainder | cloudbatch/gsbatch.py:48 | `ceil(n / bs)` is `n // bs` when `bs` divides `n` and one more otherwise |
| PyOps.Clip | cloudbatch/cloudbatch.py:99 | a slice bound is kept inside the list, a negative bound counts from the end, and a bound further below 0 gives 0 |
| PyOps.SliceInRange | cloudbatch/cloudbatch.py:99 | within the bounds, a Python slice is the ordinary subsequence |
| PyOps.SliceEmpty | cloudbatch/cloudbatch.py:99 | a slice whose end does not pass its start, or that starts at or past the end, is empty |
| PyOps.SlicePairs | gsbatch/gsbatch.py:103-106 | two lists of equal length sliced with the same bounds give windows of equal length that pair up index by index |
| PyOps.NatToString | cloudbatch/filemaker.py:35 | `str` of a natural number is a non-empty string of decimal digits |
| PyOps.IntToString | cloudbatch/filemaker.py:35 | `str` of an integer is non-empty |
| PyPath.Join | cloudbatch/gsbatch.py:40 | `os.path.join(a, b)` ends with `b`, and starts with `a` unless `b` is absolute |
| PyPath.Basename | cloudbatch/gsbatch.py:81 | `os.path.basename(p)` is the longest suffix of `p` without `/` |
| PyPath.BasenameAfterDirectory | cloudbatch/gsbatch.py:81 | a slash-free name after a directory prefix is its own basename |
| PyPath.JoinKeepsName | cloudbatch/gsbatch.py:79-81 | a staged path `join(get_dir, basename(f))` has the same basename as `f` |
| Commands.CommandHead | cloudbatch/gsbatch.py:69 | `'gsutil -m cp '` splits at spaces into its three words and one empty piece |
| Commands.SplitSpaced | cloudbatch/gsbatch.py:69-71 | the command prefix followed by `' ' + f` per file splits into the three words, one empty piece and the files in order |
| Commands.CopyCommandWords | cloudbatch/gsbatch.py:69-73 | the get and put command lines name exactly the window's files, in order, then the destination, when no name holds a space |
| Cursors.OffsetIsProduct | cloudbatch/cloudbatch.py:19-33 | the file offset of batch `j`, built by adding `batch_size` once per batch, is `j * batch_size` |
| Cursors.OffsetGrows | cloudbatch/cloudbatch.py:19-25 | with a positive size, a later batch starts at least one whole batch further on |
| Cursors.NextMoves | cloudbatch/cloudbatch.py:19-25 | next_batch moves one batch and `batch_size` files on exactly while `current_batch < n_batches - 1` and recomputes the window; otherwise it changes nothing and repeating it is idempotent; it never changes the counts or the lists |
| Cursors.PrevMoves | cloudbatch/cloudbatch.py:27-33 | prev_batch moves one batch back exactly while `current_batch > 0`; otherwise it changes nothing and repeating it is idempotent |
| Cursors.PrevUndoesNext | cloudbatch/cloudbatch.py:19-33 | prev_batch undoes a next_batch that moved, from a current window |
| Cursors.ResetForgetsHistory | cloudbatch/cloudbatch.py:35-39 | after any sequence of next, prev and reset calls, reset_batch gives the same object: batch 0, file 0, the first window |
| Cursors.NavigationKeepsAligned | cloudbatch/cloudbatch.py:19-39 | any sequence of next, prev and reset calls keeps `current_file == current_batch * batch_size`, touches only the position and the window, and keeps the window current |
| Cursors.StepKeepsAligned | cloudbatch/cloudbatch.py:19-39 | one navigation call keeps the offset invariant; reset always leaves a current window |
| Cursors.NextKeepsAligned | cloudbatch/cloudbatch.py:19-25 | next_batch keeps the offset invariant and a current window |
| Cursors.PrevKeepsAligned | cloudbatch/cloudbatch.py:27-33 | prev_batch keeps the offset invariant and a current window |
| Cursors.NextNFromReset | cloudbatch/cloudbatch.py:19-39 | from a reset, `k` next_batch calls stop at batch `min(k, n_batches - 1)`, aligned, with that batch's window |
| Cursors.NextAtBatch | cloudbatch/cloudbatch.py:19-25 | next_batch from aligned batch `m` reaches aligned batch `m + 1`, or stays at the final batch |
| Cursors.FinalOnlyAtLastIndex | cloudbatch/cloudbatch.py:60-64 | within the batches, is_final_batch holds exactly where next_batch does nothing; there the window is the `last_batch_size` files from `current_file`, inside the list; it never holds for an empty file list |
| Cursors.FinalSpanFits | cloudbatch/gsbatch.py:48-49 | the final batch's offset plus `last_batch_size` stays within the file count |
| Cursors.SetBatchSizeEffect | cloudbatch/cloudbatch.py:50-58 | set_batch_size stores the size, then either raises ZeroDivisionError for size 0 (keeping size 0) or sets `n_batches = ceil(n_files / size)` and `last_batch_size = n_files % size`, keeps the position and re-slices the window |
| Cursors.ResizeThenPrevMisplacesWindow | cloudbatch/cloudbatch.py:27-58 | set_batch_size breaks the offset invariant: ten files at batch 2 of size 1, resized to 9, go back to file offset -7, whose window is the fourth file rather than batch 1's window |
| Windows.WindowAtIsAtBatch | cloudbatch/cloudbatch.py:90-99 | the window of batch `j` is what _update_batch computes at batch `j`'s aligned offset |
| Windows.SizedIsLaid | cloudbatch/gsbatch.py:48-49 | the constructor's counts mean: no batches for no files; otherwise every batch before the final one is full, and the final batch holds `last_batch_size` files, which is 0 when the size divides the count |
| Windows.WindowShape | cloudbatch/cloudbatch.py:90-99 | every batch before the final one is `batch_size` consecutive files at its offset, and the final batch is `last_batch_size` files |
| Windows.BatchesPrefix | cloudbatch/cloudbatch.py:90-99 | the windows before the final batch, concatenated, are the files up to the final batch's offset |
| Windows.AllBatches | cloudbatch/cloudbatch.py:90-99 | all windows concatenated are the files up to the final offset plus `last_batch_size` |
| Windows.Partition | cloudbatch/gsbatch.py:48-49 | when the size does not divide the count, the windows of batches 0 .. n_batches-1 concatenate back to the file list |
| Windows.DivisibleLosesLastBatch | cloudbatch/gsbatch.py:48-49 | when the size divides the count, the final window is empty and the last `batch_size` files are never in any window |
| Windows.PastTheEnd | gsbatch/gsbatch.py:61-64 | the window of any batch at or past `n_batches` is empty |
| Staging.StagedNames | cloudbatch/gsbatch.py:79-81 | the staged paths are one per window file, in order, each `join(get_dir, basename(f))` and named after its file |
| Staging.GSGet | cloudbatch/gsbatch.py:66-89 | GSBatch.get_batch runs the get command and succeeds if and only if every staged path exists after the copy; then `tmp_files` gains the staged paths in order; otherwise all staged paths are removed, DownloadFailed is raised and the object is unchanged |
| Staging.CopyThenCheck | cloudbatch/gsbatch.py:83-87 | the post-copy check passes exactly when each staged path existed or was copied, and the rollback removes exactly the staged paths |
| Staging.CDSGet | cloudbatch/cdsbatch.py:57-73 | CDSBatch.get_batch never raises and always appends the staged paths to `tmp_files`, whether or not they were copied |
| Staging.LocalGet | cloudbatch/localbatch.py:72-73 | LocalBatch.get_batch changes nothing and runs no command |
| Staging.DeleteTmpAll | cloudbatch/cloudbatch.py:66-75 | delete_tmp_files() removes every former temporary file that exists, skips missing ones, removes nothing else, empties `tmp_files`, and a second call changes nothing |
| Staging.DeleteTmpListed | cloudbatch/cloudbatch.py:66-75 | with an explicit list, GSBatch removes exactly those paths and keeps `tmp_files`; LocalBatch and CDSBatch raise TypeError and change nothing |
| Staging.GetThenDelete | cloudbatch/gsbatch.py:89 | after a successful get, delete_tmp_files() removes every staged path and all older temporary files and leaves `tmp_files` empty |
| Staging.RemoveOutcome | cloudbatch/cloudbatch.py:77-80 | removing paths one by one succeeds if and only if they all exist and are distinct, and then removes exactly them; it never removes other paths |
| Staging.DeleteBatchOutcome | cloudbatch/localbatch.py:109-112 | delete_batch_files empties the window and removes its files if and only if they exist and are distinct; on the first missing file it raises and the window stays |
| Staging.FileCheckEntries | cloudbatch/gsbatch.py:101-111 | check_files gives one flag per file index in order: the stat result for 'remote', existence for 'local', False for any other source without reading the list; it fails exactly when `n_files` is negative (ValueError) or when a 'remote' or 'local' source needs a file past the end of the list (IndexError) |
| Staging.NoStarIdentity | cloudbatch/cloudbatch.py:114-132 | a path list without `*` comes back unchanged |
| Staging.ExpandedAppend | cloudbatch/cloudbatch.py:114-132 | expansion works path by path: expanding two lists in turn is expanding their concatenation, with the first error kept |
| Staging.ExpandedFails | cloudbatch/cloudbatch.py:114-132 | expansion fails if and only if some path holds `*` and the source is neither 'remote' nor 'local' |
| CloudBatches.CloudBatch.Of | cloudbatch/cloudbatch.py:7-17 | an object holding the given fields |
| CloudBatches.CloudBatch.UpdateBatch | cloudbatch/cloudbatch.py:90-99 | _update_batch on the object: the new state is `UpdateBatch` of the old one |
| CloudBatches.CloudBatch.NextBatch | cloudbatch/cloudbatch.py:19-25 | next_batch on the object: the new state is `Next` of the old one |
| CloudBatches.CloudBatch.PrevBatch | cloudbatch/cloudbatch.py:27-33 | prev_batch on the object: the new state is `Prev` of the old one |
| CloudBatches.CloudBatch.ResetBatch | cloudbatch/cloudbatch.py:35-39 | reset_batch on the object: the new state is `Reset` of the old one |
| CloudBatches.CloudBatch.SetBatchSize | cloudbatch/cloudbatch.py:50-58 | set_batch_size on the object, with ZeroDivisionError returned for size 0 after the size is stored |
| CloudBatches.CloudBatch.IsFinalBatch | cloudbatch/cloudbatch.py:60-64 | is_final_batch reports the `IsFinal` test of the current state |
| CloudBatches.CloudBatch.GetBatch | cloudbatch/gsbatch.py:66-89 | get_batch of the object's subclass: the command, the new filesystem, the new `tmp_files` and the error are as `Staging.GetBatch` gives |
| CloudBatches.CloudBatch.PutBatch | cloudbatch/gsbatch.py:91-99 | put_batch builds the upload command for the window and `put_dir` |
| CloudBatches.CloudBatch.DeleteTmpFiles | cloudbatch/cloudbatch.py:66-75 | delete_tmp_files of the object's subclass, with or without the argument |
| CloudBatches.CloudBatch.DeleteBatchFiles | cloudbatch/cloudbatch.py:77-80 | delete_batch_files on the object |
| CloudBatches.CloudBatch.CheckFiles | cloudbatch/gsbatch.py:101-111 | check_files fills one flag per file index, reading the list only for 'remote' and 'local', and stores the array in `file_exists`, or raises before storing it |
| CloudBatches.BuildCommand | cloudbatch/gsbatch.py:69-73 | the command loop builds `'gsutil -m cp '`, then `' ' + f` per window file, then `' ' + dest` |
| CloudBatches.StagePaths | cloudbatch/gsbatch.py:79-81 | the loop names the staged path of every window file, in order |
| CloudBatches.AllPresent | cloudbatch/gsbatch.py:84-87 | the check loop answers true if and only if every staged path exists |
| CloudBatches.RemoveExisting | cloudbatch/cloudbatch.py:71-75 | the best-effort removal loop removes exactly the listed paths and skips the missing ones |
| CloudBatches.ExpandWildcards | cloudbatch/cloudbatch.py:114-132 | the loop of _expand_wildcards computes the path-by-path expansion |
| Construction.NewGSBatch | cloudbatch/gsbatch.py:29-64 | GSBatch.__init__ makes a fresh object exactly when the pure constructor succeeds, and raises its error otherwise |
| Construction.GSInitOutcome | cloudbatch/gsbatch.py:39-62 | construction fails if and only if no file list is given (TypeError) or the size is 0 (ZeroDivisionError); a constructed object is at batch 0 and file 0 with no temporary files, `n_batches = ceil(n / bs)`, `last_batch_size = n % bs`, aligned and with a current window |
| Construction.GSInitJoins | cloudbatch/gsbatch.py:39-40 | with `file_dir`, the files are `join(file_dir, f)` element by element, same length and order |
| Construction.GSInitFirstWindow | cloudbatch/gsbatch.py:62 | the first window is the first `batch_size` files, or all of them when there are fewer, and is empty when there are exactly `batch_size` files |
| Construction.NeverConstructed | cloudbatch/localbatch.py:10-48 | the LocalBatch constructor always raises (NameError on `source` when a directory and a list are given), and the CDSBatch constructor always raises NameError on `loop_vector` (cloudbatch/cdsbatch.py:22) |
| Products.CartesianSnoc | cloudbatch/cdsbatch.py:153-158 | the product of one more component is one extension step of the product so far |
| Products.ExtendLength | cloudbatch/cdsbatch.py:154-158 | one extension step has `len(names) * len(component)` names |
| Products.ExtendIndex | cloudbatch/cdsbatch.py:157-158 | entry `p` of an extension step is name `p // n` followed by entry `p % n` of the component |
| Products.RepeatLength | cloudbatch/filemaker.py:48-57 | `_iterate_list(inlist, it)` has `it * len(inlist)` entries, and none for `it <= 0` |
| Products.RepeatIndex | cloudbatch/filemaker.py:48-57 | entry `p` of `_iterate_list(inlist, it)` is `inlist[p // it]`: each entry repeated `it` times in a row |
| Products.ExtendByRepeat | cloudbatch/cdsbatch.py:154-158 | the in-place loop over the repeated list, adding entry `jj % n`, is one extension step |
| Products.ExtendAppend | cloudbatch/cdsbatch.py:154-158 | extension distributes over concatenation of the names |
| Products.PrefixedAppend | cloudbatch/cdsbatch.py:158 | prefixing one name distributes over concatenation |
| Products.PrefixedTwice | cloudbatch/cdsbatch.py:158 | prefixing by `x + y` is prefixing by `y` then `x` |
| Products.PrefixedExtend | cloudbatch/cdsbatch.py:154-158 | extending names that start with `x` keeps the `x` in front |
| Products.ExtendAssociates | cloudbatch/cdsbatch.py:153-158 | extension steps associate |
| Products.ExtendByEmptyName | cloudbatch/cdsbatch.py:158 | extending by the single empty name changes nothing |
| Products.PrefixedEmptyName | cloudbatch/cdsbatch.py:151-158 | extending the single empty name gives the component |
| Products.LexicographicSnoc | cloudbatch/cdsbatch.py:153-158 | adding a last component to the lexicographic product is one extension step |
| Products.CartesianIsLexicographic | cloudbatch/cdsbatch.py:145-160 | the component loops build the cartesian product in lexicographic order, the last component varying fastest |
| Products.LexicographicLength | cloudbatch/cdsbatch.py:147-149 | the product has `np.prod` of the component lengths names, and none when a component is empty |
| Products.CartesianLength | gsbatch/gsbatch.py:108-123 | the built list has the product of the component lengths as its length |
| Products.IterateList | cloudbatch/cdsbatch.py:162-170 | the strided slice assignments of `_iterate_list` give each entry repeated `it` times in a row |
| Products.MakeFilesFromComponents | gsbatch/gsbatch.py:108-123 | `_make_files_from_components` gives the raw-concatenation cartesian product, and IndexError for no components |
| Products.AddComponent | cloudbatch/cdsbatch.py:154-158 | one pass of the outer loop is one extension step |
| FileMaker.TextRoundTrip | cloudbatch/filemaker.py:35 | names wrapped as text hold no numbers and convert back to the same strings |
| FileMaker.ExtendNames | cloudbatch/filemaker.py:31-42 | one pass of the outer loop is one extension step, or the TypeError of adding a string to a number when the list still holds one |
| FileMaker.NumberRepeated | cloudbatch/filemaker.py:31 | a number in the repeated list comes from a number in the original list |
| FileMaker.TextRepeated | cloudbatch/filemaker.py:31 | a repeated list of text came from a list of text |
| FileMaker.JoinedIsExtend | cloudbatch/filemaker.py:40-42 | the in-place loop over the repeated list is one extension step of the names |
| FileMaker.JoinedBlock | cloudbatch/filemaker.py:41-42 | the `n` copies of one name, joined, are that name prefixed to each entry |
| FileMaker.JoinedSplit | cloudbatch/filemaker.py:41-42 | joining works block by block when each block is one cycle of the component |
| FileMaker.FirstPiece | cloudbatch/filemaker.py:28 | the names start as the first component, unconverted |
| FileMaker.NextPiece | cloudbatch/filemaker.py:30-42 | each later component adds one extension step by `'_' + str(entry)` |
| FileMaker.StepFails | cloudbatch/filemaker.py:42 | a pass that adds to a number is the TypeError the whole call raises |
| FileMaker.StepBuilds | cloudbatch/filemaker.py:30-42 | a pass that succeeds moves the outer loop on by one component |
| FileMaker.Finished | cloudbatch/filemaker.py:44-46 | after the loops, a number left in the list fails the extension step; otherwise the result is the names with `'.' + file_ext` |
| FileMaker.FileListFromComponents | cloudbatch/filemaker.py:3-46 | the nested loops compute the file list the specification function gives, ignoring `join_str` |
| FileMaker.Names | cloudbatch/filemaker.py:25-46 | a result has `np.prod` of the component lengths names, is the lexicographic product of the pieces with the extension, and every name ends with `'.' + file_ext` |
| FileMaker.WithExtEnds | cloudbatch/filemaker.py:44 | every name given the extension ends in `.` and the extension |
| FileMaker.EmptyComponent | cloudbatch/filemaker.py:25-46 | an empty component gives no names |
| FileMaker.NumbersOnlyLater | cloudbatch/filemaker.py:28-44 | numbers are accepted in every component but the first; in the first they raise TypeError once they meet a concatenation |
| FileMaker.TwoComponentExample | cloudbatch/filemaker.py:9-18 | `[['a','b'],[1,2,3]]` with `'nc'` gives `a_1.nc` .. `b_3.nc` in lexicographic order |
| FileMaker.ThreeComponentExample | cloudbatch/filemaker.py:9-18 | with the third component `['A']` every name also carries `_A`, as the code computes |
| FileMaker.ExamplePieces | cloudbatch/filemaker.py:35-38 | the example's later components become `'_1'`, `'_2'`, `'_3'` and `'_A'` |
| FileMaker.ExampleNumbers | cloudbatch/filemaker.py:35-38 | numbers are converted with `str` and prefixed with `'_'` |
| FileMaker.ExampleFirst | cloudbatch/filemaker.py:28 | the example's first component is text, used as it is |
| FileMaker.ExampleProduct | cloudbatch/filemaker.py:30-42 | the example's first two components give six names, the last varying fastest |
| FileMaker.ExampleThird | cloudbatch/filemaker.py:30-42 | the third component appends `_A` to every name |
| FileMaker.ExampleTwoExtension | cloudbatch/filemaker.py:44 | the extension step appends `.nc` to each of the six names |
| ApplyBatch.Visit | cloudbatch/apply_batch_func.py:42-103 | one call of a phase on one object keeps the number of objects (its effect is `VisitEffect`) |
| ApplyBatch.Sweep | cloudbatch/apply_batch_func.py:42-103 | one pass over the objects keeps their number (its effect is `SweepEffect`) |
| ApplyBatch.Then | cloudbatch/apply_batch_func.py:90-103 | the next pass keeps the number of objects |
| ApplyBatch.Gets | cloudbatch/apply_batch_func.py:72-75 | the downloads keep the number of objects |
| ApplyBatch.Batch | cloudbatch/apply_batch_func.py:64-103 | one turn of the loop keeps the number of objects |
| ApplyBatch.VisitEffect | cloudbatch/apply_batch_func.py:42-103 | a phase call changes its object as the phase says and no other, and raises only a failed download or the refused argument |
| ApplyBatch.SweepEffect | cloudbatch/apply_batch_func.py:42-103 | a pass leaves unvisited objects alone, changes each visited one as its phase says when nothing was raised, and raises only what its phase can raise |
| ApplyBatch.SweepKeepsRest | cloudbatch/apply_batch_func.py:95-103 | a pass stopped at object `i` leaves objects `i` onwards unchanged |
| ApplyBatch.SweepChanges | cloudbatch/apply_batch_func.py:95-103 | a pass that raised nothing changed every visited object as its phase says |
| ApplyBatch.SweepErrors | cloudbatch/apply_batch_func.py:95-103 | a pass raises only what its phase can raise |
| ApplyBatch.SweepStepErrors | cloudbatch/apply_batch_func.py:95-103 | one more object visited after a pass that raised only what its phase can raise still raises only that |
| ApplyBatch.ThenEffect | cloudbatch/apply_batch_func.py:90-103 | a later pass raises nothing only when the earlier ones raised nothing, and then changes every object as it says |
| ApplyBatch.GetsEffect | cloudbatch/apply_batch_func.py:72-75 | the downloads change nothing but the temporary-file lists and raise only DownloadFailed |
| ApplyBatch.BatchErrors | cloudbatch/apply_batch_func.py:64-103 | a turn raises only a failed download, IndexError from the one-at-a-time call, the `'all'` failure, an unknown `pass_args`, or the refused argument of delete_tmp_files |
| ApplyBatch.LoopLength | cloudbatch/apply_batch_func.py:64-103 | the loop keeps the number of objects |
| ApplyBatch.LoopErrors | cloudbatch/apply_batch_func.py:64-103 | the loop raises only what a turn can raise |
| ApplyBatch.TurnErrors | cloudbatch/apply_batch_func.py:64-103 | every turn keeps the number of objects and raises only loop errors |
| ApplyBatch.ResetSweep | cloudbatch/apply_batch_func.py:42 | the reset pass puts every object at batch 0 and touches neither files nor the log |
| ApplyBatch.ResetSweepQuiet | cloudbatch/apply_batch_func.py:42 | the reset pass never raises and leaves the filesystem and log alone |
| ApplyBatch.PrecheckAfterReset | cloudbatch/apply_batch_func.py:42-60 | resetting keeps the batch counts and sources, so the checks see the objects as given |
| ApplyBatch.ApplyChecks | cloudbatch/apply_batch_func.py:31-60 | the run raises Misaligned if and only if some object has 0 batches (differing non-zero counts pass), IndexError for an empty list, NothingToMove if and only if no object is 'remote' or 'local'; in each case after the resets and before any transfer |
| ApplyBatch.Untouched | cloudbatch/apply_batch_func.py:95-103 | navigation commutes with dropping the temporary-file list |
| ApplyBatch.NextNKeepsSource | cloudbatch/apply_batch_func.py:103 | next_batch never changes the source |
| ApplyBatch.OneAtATimeArgs | cloudbatch/apply_batch_func.py:109-131 | _apply_one_at_a_time depends only on the files each object offers |
| ApplyBatch.BatchStages | cloudbatch/apply_batch_func.py:72-103 | a turn that raises nothing did the downloads, applied the function one file at a time to the downloaded objects, appended that one list of outputs, then cleared temporary files and advanced every object; the commands and deletions of the turn are in `TurnFiles` |
| ApplyBatch.SweepPut | cloudbatch/apply_batch_func.py:90-92 | the put pass changes no object and no file, never raises, and logs the put_batch command line of each 'local' object, in list order |
| ApplyBatch.SweepClearTmp | cloudbatch/apply_batch_func.py:94-95 | delete_tmp_files() on every object never raises, removes every path any object lists in `tmp_files`, and leaves the log alone |
| ApplyBatch.SweepClearPut | cloudbatch/apply_batch_func.py:97-99 | with `delete_put_files`, the pass raises nothing exactly when every 'local' object is a GSBatch, then removes the windows of the 'local' objects; it changes no object and not the log; without the flag it does nothing |
| ApplyBatch.SweepAdvance | cloudbatch/apply_batch_func.py:102-103 | the next_batch pass never raises and touches neither files nor log |
| ApplyBatch.ClearTmpPass | cloudbatch/apply_batch_func.py:94-95 | after a stage that raised nothing, the delete_tmp_files() pass raises nothing, logs nothing, removes every listed temporary file and keeps every object's windows, source and class |
| ApplyBatch.ClearAndAdvance | cloudbatch/apply_batch_func.py:94-103 | the deletion passes and the next_batch pass log nothing and remove the listed temporary files and, with `delete_put_files`, the windows of the 'local' objects, which must then all be GSBatch objects |
| ApplyBatch.PutWindowsUntracked | cloudbatch/apply_batch_func.py:95-99 | the windows deleted after the upload do not depend on the temporary-file lists the previous pass emptied |
| ApplyBatch.TurnFiles | cloudbatch/apply_batch_func.py:72-103 | a turn that raises nothing logs, after the downloads, the upload command of each 'local' object's current window in list order; it removes every temporary file listed after the downloads and, when `delete_put_files` is set, the windows just uploaded, which requires every 'local' object to be a GSBatch |
| ApplyBatch.VisitGet | cloudbatch/gsbatch.py:66-89 | a get_batch call that raises nothing appends the staged copies of the window to a 'remote' GSBatch's or CDSBatch's `tmp_files` and changes no other object |
| ApplyBatch.VisitQuiet | cloudbatch/apply_batch_func.py:72-103 | one call that raises nothing changes its object as `Quiet` says: a get adds exactly the staged copies to a downloading object, any other phase as `Changed` says |
| ApplyBatch.SweepQuiet | cloudbatch/apply_batch_func.py:72-103 | a pass that raises nothing changes every visited object as `Quiet` says |
| ApplyBatch.SweepGets | cloudbatch/apply_batch_func.py:72-75 | a get pass that raises nothing leaves each 'remote' object with its staged copies appended, and every other object as it was |
| ApplyBatch.GetsFetch | cloudbatch/apply_batch_func.py:72-75 | the downloads of a turn that raise nothing leave the objects as `Got` says, or unchanged when no object is 'remote' |
| ApplyBatch.BatchFetches | cloudbatch/apply_batch_func.py:72-87 | a turn that raises nothing outputs one list, _apply_one_at_a_time on the objects as the downloads leave them |
| ApplyBatch.TurnFetches | cloudbatch/apply_batch_func.py:63-103 | every turn of a run outputs as `BatchFetches` says |
| ApplyBatch.HeldAfterLoop | cloudbatch/apply_batch_func.py:63-103 | after `n` turns that raise nothing the objects are the given ones moved `n` next_batch calls on with no temporary files (unchanged when `n` is 0) |
| ApplyBatch.LoopFetches | cloudbatch/apply_batch_func.py:63-103 | output `b` of turns that raise nothing is _apply_one_at_a_time on the objects as turn `b` finds them after its downloads: as the loop started at turn 0, `b` next_batch calls on with no temporary files later |
| ApplyBatch.HeldAfterResets | cloudbatch/apply_batch_func.py:42-103 | after the reset pass and `b` turns, an object with its downloads is at batch `Reached(b, n_batches)` with its window, listing the staged copies of that window if it is 'remote' (after any earlier entries at turn 0 only) |
| ApplyBatch.OfferedAll | cloudbatch/apply_batch_func.py:42-103 | after the reset pass and `b` turns, the objects with their downloads are, object by object, what `Offered` says |
| ApplyBatch.ApplyIsLoop | cloudbatch/apply_batch_func.py:42-103 | a run that passes the checks is the reset pass followed by `n_batches` turns of the loop, downloading when some object is 'remote' and uploading when some object is 'local' |
| ApplyBatch.RemoteOutputs | cloudbatch/apply_batch_func.py:63-131 | in any run that raises nothing, output `b` is _apply_one_at_a_time on what each object offers at turn `b`: a 'remote' GSBatch or CDSBatch the staged copies of its batch-`Reached(b, n_batches)` window (after its earlier `tmp_files` at turn 0), any other object that window |
| ApplyBatch.BatchMoves | cloudbatch/apply_batch_func.py:64-103 | a turn that raises nothing adds one list of outputs and leaves every object one next_batch on with no temporary files |
| ApplyBatch.BatchOutput | cloudbatch/apply_batch_func.py:77-87 | without 'remote' objects, a turn's outputs are the one-at-a-time call on the windows it started with |
| ApplyBatch.AfterStep | cloudbatch/apply_batch_func.py:95-103 | one more turn moves objects `n - 1` turns on to `n` turns on |
| ApplyBatch.TurnMoves | cloudbatch/apply_batch_func.py:64-103 | the turns of a run move objects and output as a turn that raises nothing must |
| ApplyBatch.LoopMoves | cloudbatch/apply_batch_func.py:63-105 | `n` turns that raise nothing give exactly `n` lists of outputs, one per batch, and leave each object `n` next_batch calls on |
| ApplyBatch.NonRemoteAfter | cloudbatch/apply_batch_func.py:116-121 | objects that are not 'remote' offer their moved windows |
| ApplyBatch.OutputsStep | cloudbatch/apply_batch_func.py:87 | appending turn `n - 1`'s list keeps every output in batch order |
| ApplyBatch.OutputsAppend | cloudbatch/apply_batch_func.py:87 | `all_out.append` of one more batch's list extends the outputs in batch order |
| ApplyBatch.LoopOutputs | cloudbatch/apply_batch_func.py:63-105 | without 'remote' objects, output `b` is the one-at-a-time call on the objects after `b` turns |
| ApplyBatch.ApplyPositions | cloudbatch/apply_batch_func.py:63-105 | a run that raises nothing has as many output lists as the first object has batches, and leaves every object where that many next_batch calls from batch 0 reach: batch `min(n, its n_batches - 1)`, or batch 0 when it has fewer than one batch; objects sharing the first object's count end on their final batch, one with more batches short of its last, one with fewer at its last |
| ApplyBatch.AfterResets | cloudbatch/apply_batch_func.py:42-103 | after the resets and `b` turns, each non-'remote' object offers the window of its batch `Reached(b, n_batches)`: batch `b` while it has one, its last batch after that |
| ApplyBatch.LocalOutputs | cloudbatch/apply_batch_func.py:63-131 | without 'remote' objects, call `j` of output list `b` takes, from every object in order, file `j` of its window of batch `Reached(b, n_batches)`: batch `b` of its own layout while it has one, its last batch after that (counts may differ, as the checks allow) |
| ApplyBatch.LoopStopsAtFirst | cloudbatch/apply_batch_func.py:64-103 | a first turn that raises ends the loop with that turn's outcome |
| ApplyBatch.LoopStops | cloudbatch/apply_batch_func.py:64-103 | once the loop has raised, no later turn happens |
| ApplyBatch.PassArgsAfterGets | cloudbatch/apply_batch_func.py:77-84 | an unknown `pass_args`, or `'all'`, raises in the first turn after that turn's downloads, with no outputs |
| ApplyBatch.SweepStep | cloudbatch/apply_batch_func.py:95-103 | a pass over one more object visits it in the world the pass had reached |
| ApplyBatch.SweepStops | cloudbatch/apply_batch_func.py:95-103 | once a pass has raised, later objects are not visited |
| ApplyBatch.VisitObject | cloudbatch/apply_batch_func.py:42-103 | the call a phase makes on one object, as `Act` says |
| ApplyBatch.VisitAt | cloudbatch/apply_batch_func.py:42-103 | the call on object `k` of the list changes only that object, as `Visit` says |
| ApplyBatch.Pass | cloudbatch/apply_batch_func.py:42-103 | a list comprehension over the objects, in order, stopping at the first exception, as `Sweep` says |
| ApplyBatch.ApplyOneAtATime | cloudbatch/apply_batch_func.py:109-131 | the loop builds one output per file of the first object, call `ff` taking file `ff` of every object, or raises IndexError |
| ApplyBatch.RunBatch | cloudbatch/apply_batch_func.py:64-103 | one turn of the loop on the objects, as `Batch` says |
| ApplyBatch.Check | cloudbatch/apply_batch_func.py:44-60 | the checks before the loop, and the batch count and get/put flags the loop uses |
| ApplyBatch.RunLoop | cloudbatch/apply_batch_func.py:63-103 | the loop over `range(n_batches)` on the objects, stopping at the first exception, as `Loop` says |
| ApplyBatch.ApplyBatchFunc | cloudbatch/apply_batch_func.py:31-105 | apply_batch_func on one object or a list of them: the new states, files, command log, error and output are those of `Apply`, whose per-batch outputs (`RemoteOutputs`, `LocalOutputs`), end positions (`ApplyPositions`), checks (`ApplyChecks`) and per-turn commands and deletions (`TurnFiles`) are proved |
| LegacyBatches.InitNeedsRemoteFiles | gsbatch/gsbatch.py:16-22 | without a remote list or components the constructor raises |
| LegacyBatches.InitPrefersComponents | gsbatch/gsbatch.py:16-31 | components take precedence over a list for both file sets, and empty components raise IndexError |
| LegacyBatches.InitFromLists | gsbatch/gsbatch.py:37-44 | from lists, construction succeeds if and only if the local list, if any, has as many files as the remote one and the size is not 0 |
| LegacyBatches.InitState | gsbatch/gsbatch.py:16-54 | a constructed object holds the chosen file sets at batch 0 and file 0, with current windows and, for a positive size, the constructor's counts |
| LegacyBatches.PairedWindows | gsbatch/gsbatch.py:94-106 | the remote and local windows have equal length and pair up index by index |
| LegacyBatches.MovesKeepSliced | gsbatch/gsbatch.py:61-76 | next_batch and reset_batch leave both windows current |
| LegacyBatches.BackKeepsSliced | gsbatch/gsbatch.py:66-70 | prev_batch keeps both windows current |
| LegacyBatches.RefreshSlices | gsbatch/gsbatch.py:94-106 | _update_batch makes both windows current |
| LegacyBatches.AlignedWindow | gsbatch/gsbatch.py:94-106 | at an aligned batch, both windows are that batch's windows |
| LegacyBatches.BackUndoesForward | gsbatch/gsbatch.py:61-70 | prev_batch undoes next_batch from any batch at or after the first |
| LegacyBatches.ForwardUndoesBack | gsbatch/gsbatch.py:61-70 | next_batch undoes prev_batch above batch 0, and prev_batch does nothing at batch 0 or below |
| LegacyBatches.ForwardReached | gsbatch/gsbatch.py:61-64 | next_batch from aligned batch `k - 1` reaches aligned batch `k`, with no upper bound |
| LegacyBatches.AlignedIsReached | gsbatch/gsbatch.py:61-76 | an object with current windows at an aligned batch is that batch reached |
| LegacyBatches.ReachedSliced | gsbatch/gsbatch.py:94-106 | a reached batch has current windows |
| LegacyBatches.RepeatedFollows | gsbatch/gsbatch.py:61-64 | a method that moves along a sequence of states moves `n` places in `n` calls |
| LegacyBatches.ForwardFollows | gsbatch/gsbatch.py:61-64 | next_batch moves from each batch to the next |
| LegacyBatches.ForwardsReach | gsbatch/gsbatch.py:61-64 | `n` next_batch calls from batch `j` reach batch `j + n` |
| LegacyBatches.ForwardsFromAligned | gsbatch/gsbatch.py:61-64 | from an aligned object, `n` next_batch calls reach batch `current_batch + n` with current windows |
| LegacyBatches.PastTheFinalBatch | gsbatch/gsbatch.py:61-64 | because next_batch is unbounded it can pass `n_batches - 1`, and there both windows are empty |
| LegacyBatches.LegacyPartition | gsbatch/gsbatch.py:43-54 | when the size does not divide the count, the remote windows, and the local ones, concatenate back to their file lists |
| LegacyBatches.RewindForgetsForwards | gsbatch/gsbatch.py:61-76 | reset_batch after any number of next_batch calls equals reset_batch from the start |
| LegacyBatches.ResizeThenRewind | gsbatch/gsbatch.py:85-92 | a constructed object resized keeps its old windows, and resetting it gives the object constructed with the new size |
| LegacyBatches.ResizeZero | gsbatch/gsbatch.py:85-88 | size 0 raises ZeroDivisionError after the size 0 is stored |
| LegacyBatches.ResizeLeavesStaleWindow | gsbatch/gsbatch.py:85-92 | set_batch_size does not refresh the windows: three files in batches of one, resized to two, keep the window `['a']`, which is no longer current |
| LegacyBatches.Gsbatch.Of | gsbatch/gsbatch.py:5-13 | an object holding the given fields |
| LegacyBatches.Gsbatch.UpdateBatch | gsbatch/gsbatch.py:94-106 | _update_batch on the object, as `Refresh` says |
| LegacyBatches.Gsbatch.NextBatch | gsbatch/gsbatch.py:61-64 | next_batch on the object, as `Forward` says |
| LegacyBatches.Gsbatch.PrevBatch | gsbatch/gsbatch.py:66-70 | prev_batch on the object, as `Back` says |
| LegacyBatches.Gsbatch.ResetBatch | gsbatch/gsbatch.py:72-76 | reset_batch on the object, as `Rewind` says |
| LegacyBatches.Gsbatch.SetBatchSize | gsbatch/gsbatch.py:85-92 | set_batch_size on the object, as `Resize` says |
| LegacyBatches.ChooseFiles | gsbatch/gsbatch.py:16-31 | one file set of the constructor: components first, then the list |
| LegacyBatches.NewGsbatch | gsbatch/gsbatch.py:7-59 | Gsbatch.__init__ makes a fresh object exactly when the pure constructor succeeds, and raises its error otherwise |

## Left out

- Running shell commands (`subprocess.run` of `gsutil`, `_gsls`, `_gsstat`, `_ls`) and
  parsing their output: the get and put commands are built as strings and logged. A copy
  is modelled by the set of staged paths it created, and the listings and the stat
  result are function parameters.
- The real filesystem calls (`os.remove`, `path.isfile`, `os.path.exists`, `glob.glob`):
  the filesystem is a set of existing paths and `glob` is a parameter.
- `print` messages, verbosity, the progress percentage and `summary`: they only produce
  output.
- The `-m` parallelism of `gsutil`: it is concurrency inside the external tool.
- The unused `xarray` import and the unused `get_cmd` string of gsbatch/gsbatch.py, and
  its `_gsls`, which nothing calls.
- numpy details: `np.ceil(n / bs)` is exact integer ceiling division, not floating point
  (the two differ only for counts beyond 2^53), `np.prod` is a plain product, and the
  float array of `check_files` is a `seq<bool>`.
- `get_dir` and `put_dir` are strings. A `None` directory, which Python would render as
  `'None'` in the command and reject in `path.join`, is not modelled.
- CDSBatch's `put_batch` reads `put_dir`, which its constructor never sets. Since the
  constructor cannot complete, the model takes `put_dir` from the state like the other
  classes.
- The component lists of gsbatch/gsbatch.py and cloudbatch/cdsbatch.py are strings. Those
  versions concatenate entries without `str`, so a number would raise TypeError there;
  only filemaker's version models numbers (`FileMaker.Atom`).
- ApplyBatch.ApplyBatchFunc: requires the listed objects to be distinct. Python allows the
  same object twice in the list, and each pass then acts on it twice; that aliasing is not
  modelled.
- ApplyBatch.ApplyBatchFunc: the user function is pure. Its side effects and any
  exception it raises are not modelled.
- LegacyBatches.Gsbatch.GetBatch and LegacyBatches.Gsbatch.PutBatch have no contract:
  both return at once and change nothing.
- The LocalBatch and CDSBatch methods are modelled on a well-formed state given
  directly (`CloudBatches.CloudBatch.Of`), because their constructors never complete
  (`Construction.NeverConstructed`).
- Attributes that nothing in the modelled code reads: a new object's `fileExists` is the
  empty list (`CloudBatches.CloudBatch.Of`, `Construction.NewGSBatch`), whereas a new GSBatch
  has no `file_exists` attribute until check_files runs; GSBatch's `is_last_batch = False`
  (cloudbatch/gsbatch.py:56) and Gsbatch's `local_ext` parameter (gsbatch/gsbatch.py:11) are
  not modelled.
- CloudBatches.CloudBatch.PutBatch: returns the upload command line rather than running
  it, and so states nothing about the remote side.

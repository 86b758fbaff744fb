/** apply_batch_func (cloudbatch/apply_batch_func.py): reset every batch object, refuse a
    batch count of 0 or a call that neither downloads nor uploads, then for each batch index
    download the windows of the 'remote' objects, call the function once per file position,
    upload the windows of the 'local' objects, delete the downloaded files and move every
    object on. The run is specified on values (`Apply` over a list of cursors, the
    filesystem and the command log) and carried out on objects by `ApplyBatchFunc`. */
module ApplyBatch {
  import opened Wrappers
  import opened Cursors
  import opened Staging
  import opened CloudBatches

  /** The `batch` argument: one object, which is wrapped in a list, or a list. */
  datatype BatchArg<T> = One(item: T) | Many(items: seq<T>)

  function Listed<T>(b: BatchArg<T>): seq<T>
  {
    match b
    case One(x) => [x]
    case Many(l) => l
  }

  /** The arguments of a call: the function, `pass_args`, `delete_put_files`, and what the
      copy tool manages to create for object `k` at batch index `bb` (`copies(bb, k)`). */
  datatype Call<R> = Call(func: seq<string> -> R, passArgs: string, deletePutFiles: bool,
                          copies: (int, int) -> set<string>)

  /** The objects' states, the paths that exist, and the copy commands run so far. */
  datatype World = World(cs: seq<Cursor>, fs: set<string>, log: seq<string>)

  /** A world and the exception that stopped the work, if any. */
  datatype Stage = Stage(w: World, err: Option<Error>)

  /** What the run has reached: the world, `all_out`, and the exception raised, if any. */
  datatype Applied<R> = Applied(w: World, output: seq<seq<R>>, err: Option<Error>)

  /** One pass over the list of objects, as one of the list comprehensions or loops of the
      run does it: reset_batch on all, get_batch on the 'remote' ones, put_batch on the
      'local' ones, delete_tmp_files() on all, delete_tmp_files(files_batch) on the 'local'
      ones when `delete_put_files` is set, next_batch on all. */
  datatype Phase =
    | ResetAll
    | GetRemote(copied: int -> set<string>)
    | PutLocal
    | ClearTmp
    | ClearPut(deletePutFiles: bool)
    | Advance

  /** A cursor with its temporary-file list dropped: what get_batch leaves as it was. */
  function Untracked(c: Cursor): Cursor
  {
    c.(tmpFiles := [])
  }

  /** How a phase changes the object it reaches. */
  predicate Changed(p: Phase, c: Cursor, d: Cursor)
  {
    match p
    case ResetAll => d == Reset(c)
    case GetRemote(_) => Untracked(d) == Untracked(c)
    case PutLocal => d == c
    case ClearTmp => d == c.(tmpFiles := [])
    case ClearPut(_) => d == c
    case Advance => d == Next(c)
  }

  /** The exceptions a phase can raise: a failed download, or the extra argument that the
      LocalBatch and CDSBatch versions of delete_tmp_files refuse. */
  predicate PhaseError(p: Phase, e: Error)
  {
    (p.GetRemote? && e == DownloadFailed) || (p.ClearPut? && e == ExtraArgument)
  }

  function Logged(command: Option<string>): seq<string>
  {
    if command.Some? then [command.value] else []
  }

  /** What a phase does to one object, the filesystem and the log; `k` is the object's
      place in the list, which picks its copies. */
  function Act(p: Phase, c: Cursor, k: int, fs: set<string>, log: seq<string>)
    : (Cursor, set<string>, seq<string>, Option<Error>)
  {
    match p
    case ResetAll => (Reset(c), fs, log, None)
    case GetRemote(copied) =>
      if c.source != "remote" then (c, fs, log, None)
      else
        var f := GetBatch(c, fs, copied(k));
        (f.cursor, f.fs, log + Logged(f.command), f.error)
    case PutLocal =>
      if c.source != "local" then (c, fs, log, None)
      else (c, fs, log + [PutCommand(c)], None)
    case ClearTmp =>
      var (d, after, e) := DeleteTmp(c, None, fs);
      (d, after, log, e)
    case ClearPut(del) =>
      if del && c.source == "local" then
        var (d, after, e) := DeleteTmp(c, Some(c.filesBatch), fs);
        (d, after, log, e)
      else (c, fs, log, None)
    case Advance => (Next(c), fs, log, None)
  }

  /** A phase applied to object `k` of the list. */
  function Visit(p: Phase, w: World, k: int): (r: Stage)
    requires 0 <= k < |w.cs|
    ensures |r.w.cs| == |w.cs|
  {
    var (d, fs, log, e) := Act(p, w.cs[k], k, w.fs, w.log);
    Stage(World(w.cs[k := d], fs, log), e)
  }

  /** A phase applied to objects `0 .. i - 1` in order, stopping at the first exception. */
  function Sweep(p: Phase, w: World, i: int): (r: Stage)
    requires 0 <= i <= |w.cs|
    ensures |r.w.cs| == |w.cs|
  {
    if i == 0 then Stage(w, None)
    else
      var s := Sweep(p, w, i - 1);
      if s.err.Some? then s else Visit(p, s.w, i - 1)
  }

  /** The next phase over all objects, unless an exception has already been raised. */
  function Then(s: Stage, p: Phase): (r: Stage)
    ensures |r.w.cs| == |s.w.cs|
  {
    if s.err.Some? then s else Sweep(p, s.w, |s.w.cs|)
  }

  /** The files _apply_one_at_a_time takes from an object: the downloaded copies for a
      'remote' source, the window otherwise. */
  function Args(c: Cursor): seq<string>
  {
    if c.source == "remote" then c.tmpFiles else c.filesBatch
  }

  /** Every object offers at least `n` files. */
  predicate Long(cs: seq<Cursor>, n: int)
  {
    forall ii :: 0 <= ii < |cs| ==> n <= |Args(cs[ii])|
  }

  /** `args = [batch_files[ii][ff] for ii in range(n_args)]`. */
  function Row(cs: seq<Cursor>, ff: nat): seq<string>
    requires Long(cs, ff + 1)
  {
    seq(|cs|, ii requires 0 <= ii < |cs| => Args(cs[ii])[ff])
  }

  /** _apply_one_at_a_time: as many calls as the first object has files, call `ff` taking
      file `ff` of every object in order; an object with fewer files raises IndexError, and
      so does an empty list, at `batch_files[0]`. */
  function OneAtATime<R>(cs: seq<Cursor>, func: seq<string> -> R): Result<seq<R>, Error>
  {
    if |cs| == 0 then Failure(IndexError)
    else
    var n := |Args(cs[0])|;
    if !Long(cs, n) then Failure(IndexError)
    else Success(seq(n, ff requires 0 <= ff < n => func(Row(cs, ff))))
  }

  /** `raise NotImplemented(...)` in _apply_all_at_once calls a constant that is not a class. */
  const NotCallable := TypeError("'NotImplementedType' object is not callable")

  /** The exceptions the loop over batches can raise. */
  predicate LoopError(e: Error)
  {
    e == DownloadFailed || e == IndexError || e == NotCallable || e == UnrecognisedPassArgs ||
    e == ExtraArgument
  }

  /** The copies the copy tool makes at batch index `bb`, object by object. */
  function CopiesAt<R>(call: Call<R>, bb: int): int -> set<string>
  {
    k => call.copies(bb, k)
  }

  /** The downloads of batch index `bb`, made only when some object is 'remote'. */
  function Gets<R>(w: World, bb: int, call: Call<R>, gets: bool): (r: Stage)
    ensures |r.w.cs| == |w.cs|
  {
    if gets then Sweep(GetRemote(CopiesAt(call, bb)), w, |w.cs|) else Stage(w, None)
  }

  /** One turn of the loop over batches, for batch index `bb`. `gets` and `puts` are
      `n_gets > 0` and `n_puts > 0`, counted before the loop. */
  function Batch<R>(w: World, bb: int, call: Call<R>, gets: bool, puts: bool): (r: Applied<R>)
    ensures |r.w.cs| == |w.cs|
  {
    var g := Gets(w, bb, call, gets);
    if g.err.Some? then Applied(g.w, [], g.err)
    else if call.passArgs == "one" then
      var o := OneAtATime(g.w.cs, call.func);
      if o.Failure? then Applied(g.w, [], Some(o.error))
      else
        var p := if puts then Sweep(PutLocal, g.w, |g.w.cs|) else Stage(g.w, None);
        var e := Then(Then(Then(p, ClearTmp), ClearPut(call.deletePutFiles)), Advance);
        Applied(e.w, [o.value], e.err)
    else if call.passArgs == "all" then Applied(g.w, [], Some(NotCallable))
    else Applied(g.w, [], Some(UnrecognisedPassArgs))
  }

  /** The turns of the loop, as one function of the world and the batch index. */
  function Turn<R>(call: Call<R>, gets: bool, puts: bool): (World, int) -> Applied<R>
  {
    (x, bb) => Batch(x, bb, call, gets, puts)
  }

  /** The loop `for bb in range(n)`, stopping at the first exception; `turn` is the body
      (`Turn` in a run, so the loop's properties below hold for any body that has them). */
  function Loop<R>(w: World, n: nat, turn: (World, int) -> Applied<R>): Applied<R>
  {
    if n == 0 then Applied(w, [], None)
    else
      var a := Loop(w, n - 1, turn);
      if a.err.Some? then a
      else
        var b := turn(a.w, n - 1);
        Applied(b.w, a.output + b.output, b.err)
  }

  /** A source that downloads, and one that uploads. */
  predicate Remote(c: Cursor) { c.source == "remote" }
  predicate Local(c: Cursor) { c.source == "local" }

  /** `n_gets > 0` and `n_puts > 0`. */
  predicate AnyRemote(cs: seq<Cursor>) { exists k :: 0 <= k < |cs| && Remote(cs[k]) }
  predicate AnyLocal(cs: seq<Cursor>) { exists k :: 0 <= k < |cs| && Local(cs[k]) }

  /** The checks made before the loop: `np.all` of the batch counts fails only on a count
      of 0 (this is the only alignment check made); an empty list then fails at `batch[0]`;
      a call with no 'remote' and no 'local' object is refused. */
  function Precheck(cs: seq<Cursor>): Option<Error>
  {
    if exists k :: 0 <= k < |cs| && cs[k].nBatches == 0 then Some(Misaligned)
    else if |cs| == 0 then Some(IndexError)
    else if !AnyRemote(cs) && !AnyLocal(cs) then Some(NothingToMove)
    else None
  }

  /** `range(n)` has no elements for a negative `n`. */
  function Turns(n: int): nat
  {
    if n > 0 then n else 0
  }

  /** The listed objects after the reset pass. */
  function Resets(cs: seq<Cursor>, fs: set<string>): World
  {
    Sweep(ResetAll, World(cs, fs, []), |cs|).w
  }

  /** apply_batch_func.__init__ on the listed objects: reset all, make the checks, then run
      the loop `n_batches` of the first object times. */
  function Apply<R>(cs: seq<Cursor>, fs: set<string>, call: Call<R>): Applied<R>
  {
    var r := Resets(cs, fs);
    var e := Precheck(r.cs);
    if e.Some? then Applied(r, [], e)
    else Loop(r, Turns(r.cs[0].nBatches), Turn(call, AnyRemote(r.cs), AnyLocal(r.cs)))
  }

  // ---------------------------------------------------------------------------------------
  // Properties of the passes

  /** A visit changes object `k` as the phase says and no other object, and raises only
      what the phase can raise. */
  lemma VisitEffect(p: Phase, w: World, k: int)
    requires 0 <= k < |w.cs|
    ensures var r := Visit(p, w, k);
            Changed(p, w.cs[k], r.w.cs[k]) &&
            (forall j :: 0 <= j < |w.cs| && j != k ==> r.w.cs[j] == w.cs[j]) &&
            (r.err.Some? ==> PhaseError(p, r.err.value))
  {
  }

  /** A pass over the first `i` objects leaves the others untouched, changes each of the
      first `i` as the phase says when it raises nothing, and raises only what the phase
      can raise. */
  lemma SweepEffect(p: Phase, w: World, i: int)
    requires 0 <= i <= |w.cs|
    ensures var r := Sweep(p, w, i);
            (forall j :: i <= j < |w.cs| ==> r.w.cs[j] == w.cs[j]) &&
            (r.err.None? ==> forall j :: 0 <= j < i ==> Changed(p, w.cs[j], r.w.cs[j])) &&
            (r.err.Some? ==> PhaseError(p, r.err.value))
  {
    SweepKeepsRest(p, w, i);
    SweepChanges(p, w, i);
    SweepErrors(p, w, i);
  }

  /** The objects not yet visited are as they were. */
  lemma {:induction false} SweepKeepsRest(p: Phase, w: World, i: int)
    requires 0 <= i <= |w.cs|
    ensures forall j :: i <= j < |w.cs| ==> Sweep(p, w, i).w.cs[j] == w.cs[j]
  {
    if i > 0 {
      SweepKeepsRest(p, w, i - 1);
      var s := Sweep(p, w, i - 1);
      if s.err.None? {
        VisitEffect(p, s.w, i - 1);
      }
    }
  }

  /** Without an error, every visited object changed as the phase says. */
  lemma {:induction false} SweepChanges(p: Phase, w: World, i: int)
    requires 0 <= i <= |w.cs|
    ensures Sweep(p, w, i).err.None? ==> forall j :: 0 <= j < i ==> Changed(p, w.cs[j], Sweep(p, w, i).w.cs[j])
  {
    if i > 0 {
      var s := Sweep(p, w, i - 1);
      if s.err.None? {
        SweepChanges(p, w, i - 1);
        SweepKeepsRest(p, w, i - 1);
        VisitEffect(p, s.w, i - 1);
      }
    }
  }

  /** One more visit raises only what its phase can raise, given that the sweep before it
      did. */
  lemma SweepStepErrors(p: Phase, w: World, i: int)
    requires 0 < i <= |w.cs|
    requires Sweep(p, w, i - 1).err.Some? ==> PhaseError(p, Sweep(p, w, i - 1).err.value)
    ensures Sweep(p, w, i).err.Some? ==> PhaseError(p, Sweep(p, w, i).err.value)
  {
    var s := Sweep(p, w, i - 1);
    if s.err.None? {
      var (d, fs, log, e) := Act(p, s.w.cs[i - 1], i - 1, s.w.fs, s.w.log);
      assert e.Some? ==> PhaseError(p, e.value);
    }
  }

  /** A sweep raises only what its phase can raise. */
  lemma {:induction false} SweepErrors(p: Phase, w: World, i: int)
    requires 0 <= i <= |w.cs|
    ensures Sweep(p, w, i).err.Some? ==> PhaseError(p, Sweep(p, w, i).err.value)
  {
    if i > 0 {
      SweepErrors(p, w, i - 1);
      SweepStepErrors(p, w, i);
    }
  }

  /** A pass after earlier ones raises nothing only if they raised nothing, and then
      changes every object as the phase says. */
  lemma ThenEffect(s: Stage, p: Phase)
    ensures var r := Then(s, p);
            r.err.None? ==> s.err.None? && forall j :: 0 <= j < |s.w.cs| ==> Changed(p, s.w.cs[j], r.w.cs[j])
  {
    if s.err.None? {
      SweepEffect(p, s.w, |s.w.cs|);
    }
  }

  /** The downloads change no object beyond its temporary-file list, and can raise only
      the failed-download exception. */
  lemma GetsEffect<R>(w: World, bb: int, call: Call<R>, gets: bool)
    ensures var r := Gets(w, bb, call, gets);
            (r.err.None? ==> forall j :: 0 <= j < |w.cs| ==> Untracked(r.w.cs[j]) == Untracked(w.cs[j])) &&
            (r.err.Some? ==> r.err == Some(DownloadFailed))
  {
    if gets {
      SweepEffect(GetRemote(CopiesAt(call, bb)), w, |w.cs|);
    }
  }

  /** A turn of the loop raises only a failed download, IndexError from
      _apply_one_at_a_time, the TypeError of `pass_args = 'all'`, an unrecognised
      `pass_args`, or the TypeError of delete_tmp_files with an argument. */
  lemma BatchErrors<R>(w: World, bb: int, call: Call<R>, gets: bool, puts: bool)
    ensures var r := Batch(w, bb, call, gets, puts); r.err.Some? ==> LoopError(r.err.value)
  {
    GetsEffect(w, bb, call, gets);
    var g := Gets(w, bb, call, gets);
    if g.err.None? && call.passArgs == "one" && OneAtATime(g.w.cs, call.func).Success? {
      var p := if puts then Sweep(PutLocal, g.w, |g.w.cs|) else Stage(g.w, None);
      if puts {
        SweepEffect(PutLocal, g.w, |g.w.cs|);
      }
      var t := Then(p, ClearTmp);
      if p.err.None? {
        SweepEffect(ClearTmp, p.w, |p.w.cs|);
      }
      var d := Then(t, ClearPut(call.deletePutFiles));
      if t.err.None? {
        SweepEffect(ClearPut(call.deletePutFiles), t.w, |t.w.cs|);
      }
      if d.err.None? {
        SweepEffect(Advance, d.w, |d.w.cs|);
      }
    }
  }

  /** The loop keeps the number of objects when every turn does. */
  lemma {:induction false} LoopLength<R>(w: World, n: nat, turn: (World, int) -> Applied<R>)
    requires forall x, bb :: |turn(x, bb).w.cs| == |x.cs|
    ensures |Loop(w, n, turn).w.cs| == |w.cs|
  {
    if n > 0 {
      LoopLength(w, n - 1, turn);
    }
  }

  /** The loop raises only what a turn can raise. */
  lemma {:induction false} LoopErrors<R>(w: World, n: nat, turn: (World, int) -> Applied<R>)
    requires forall x, bb :: turn(x, bb).err.Some? ==> LoopError(turn(x, bb).err.value)
    ensures var r := Loop(w, n, turn); r.err.Some? ==> LoopError(r.err.value)
  {
    if n > 0 {
      LoopErrors(w, n - 1, turn);
    }
  }

  /** Every turn of a run raises only what a turn can raise and keeps the number of
      objects. */
  lemma TurnErrors<R>(call: Call<R>, gets: bool, puts: bool)
    ensures forall x, bb :: var r := Turn(call, gets, puts)(x, bb);
              |r.w.cs| == |x.cs| && (r.err.Some? ==> LoopError(r.err.value))
  {
    forall x, bb
      ensures var r := Turn(call, gets, puts)(x, bb); |r.w.cs| == |x.cs| && (r.err.Some? ==> LoopError(r.err.value))
    {
      BatchErrors(x, bb, call, gets, puts);
    }
  }

  // ---------------------------------------------------------------------------------------
  // Properties of a run

  /** The reset pass puts every object at batch 0 and does nothing else. */
  lemma ResetSweep(cs: seq<Cursor>, fs: set<string>)
    ensures var r := Sweep(ResetAll, World(cs, fs, []), |cs|);
            r.err.None? && r.w == World(seq(|cs|, k requires 0 <= k < |cs| => Reset(cs[k])), fs, [])
  {
    var r := Sweep(ResetAll, World(cs, fs, []), |cs|);
    ResetSweepQuiet(World(cs, fs, []), |cs|);
    SweepEffect(ResetAll, World(cs, fs, []), |cs|);
    assert r.w.cs == seq(|cs|, k requires 0 <= k < |cs| => Reset(cs[k]));
  }

  /** The reset pass raises nothing and leaves the filesystem and the log alone. */
  lemma {:induction false} ResetSweepQuiet(w: World, i: int)
    requires 0 <= i <= |w.cs|
    ensures var r := Sweep(ResetAll, w, i); r.err.None? && r.w.fs == w.fs && r.w.log == w.log
  {
    SweepEffect(ResetAll, w, i);
    if i > 0 {
      ResetSweepQuiet(w, i - 1);
    }
  }

  /** Resetting changes neither a batch count nor a source, so the checks see the objects
      as they were passed. */
  lemma PrecheckAfterReset(cs: seq<Cursor>, fs: set<string>)
    ensures Precheck(Resets(cs, fs).cs) == Precheck(cs)
    ensures AnyRemote(Resets(cs, fs).cs) == AnyRemote(cs) && AnyLocal(Resets(cs, fs).cs) == AnyLocal(cs)
    ensures |Resets(cs, fs).cs| == |cs|
    ensures forall k :: 0 <= k < |cs| ==> Resets(cs, fs).cs[k] == Reset(cs[k])
  {
    ResetSweep(cs, fs);
    var r := Resets(cs, fs).cs;
    assert forall k :: 0 <= k < |cs| ==> r[k].nBatches == cs[k].nBatches && r[k].source == cs[k].source;
    assert AnyRemote(r) == AnyRemote(cs);
    assert AnyLocal(r) == AnyLocal(cs);
  }

  /** The checks before the loop: a batch count of 0 on any object is reported as
      misalignment, and nothing else is (counts that differ but are not 0 pass); an empty
      list raises IndexError; a list with no 'remote' and no 'local' object raises
      NothingToMove, and only then. Each of these leaves every object reset and nothing
      else done (IndexError can also come later, from _apply_one_at_a_time). */
  lemma ApplyChecks<R>(cs: seq<Cursor>, fs: set<string>, call: Call<R>)
    ensures var a := Apply(cs, fs, call);
            (a.err == Some(Misaligned) <==> exists k :: 0 <= k < |cs| && cs[k].nBatches == 0) &&
            (cs == [] ==> a.err == Some(IndexError)) &&
            (a.err == Some(NothingToMove) <==>
               cs != [] && forall k :: 0 <= k < |cs| ==> cs[k].nBatches != 0 && !Remote(cs[k]) && !Local(cs[k]))
    ensures var a := Apply(cs, fs, call);
            a.err == Some(Misaligned) || cs == [] || a.err == Some(NothingToMove) ==>
              a.w == World(seq(|cs|, k requires 0 <= k < |cs| => Reset(cs[k])), fs, [])
  {
    PrecheckAfterReset(cs, fs);
    ResetSweep(cs, fs);
    var r := Resets(cs, fs);
    var a := Apply(cs, fs, call);
    if Precheck(cs).None? {
      var turn := Turn(call, AnyRemote(r.cs), AnyLocal(r.cs));
      assert a == Loop(r, Turns(r.cs[0].nBatches), turn);
      TurnErrors(call, AnyRemote(r.cs), AnyLocal(r.cs));
      LoopErrors(r, Turns(r.cs[0].nBatches), turn);
      assert a.err != Some(Misaligned) && a.err != Some(NothingToMove);
    } else {
      assert a.w == r;
    }
  }

  /** Get, delete and reset do not touch anything that dropping the temporary-file list
      drops, and next_batch does not read that list. */
  lemma Untouched(c: Cursor)
    ensures Next(Untracked(c)) == Untracked(Next(c))
    ensures Reset(Untracked(c)) == Untracked(Reset(c))
    ensures forall j: nat :: AtBatch(Untracked(c), j) == Untracked(AtBatch(c, j))
  {
  }

  /** The source of a cursor is kept by any number of next_batch calls. */
  lemma {:induction false} NextNKeepsSource(c: Cursor, n: nat)
    ensures NextN(c, n).source == c.source
  {
    if n > 0 {
      NextNKeepsSource(c, n - 1);
    }
  }

  /** _apply_one_at_a_time sees only the files each object offers. */
  lemma OneAtATimeArgs<R>(xs: seq<Cursor>, ys: seq<Cursor>, func: seq<string> -> R)
    requires |xs| == |ys|
    requires forall k :: 0 <= k < |xs| ==> Args(xs[k]) == Args(ys[k])
    ensures OneAtATime(xs, func) == OneAtATime(ys, func)
  {
    if xs != [] {
    var n := |Args(xs[0])|;
    assert Long(xs, n) == Long(ys, n);
    if Long(xs, n) {
      forall ff: nat | ff < n
        ensures Row(xs, ff) == Row(ys, ff)
      {
      }
      assert seq(n, ff requires 0 <= ff < n => func(Row(xs, ff)))
          == seq(n, ff requires 0 <= ff < n => func(Row(ys, ff)));
    }
    }
  }

  /** The stages of a turn that raises nothing: the downloads, then the function calls,
      the uploads, the two deletion passes and next_batch. */
  lemma BatchStages<R>(w: World, bb: int, call: Call<R>, gets: bool, puts: bool)
    ensures var b := Batch(w, bb, call, gets, puts);
            var g := Gets(w, bb, call, gets);
            b.err.None? ==>
              g.err.None? && call.passArgs == "one" && OneAtATime(g.w.cs, call.func).Success? &&
              b.output == [OneAtATime(g.w.cs, call.func).value] &&
              forall k :: 0 <= k < |w.cs| ==> b.w.cs[k] == Next(Untracked(g.w.cs[k]))
  {
    var b := Batch(w, bb, call, gets, puts);
    if b.err.None? {
      var g := Gets(w, bb, call, gets);
      var p := if puts then Sweep(PutLocal, g.w, |g.w.cs|) else Stage(g.w, None);
      var t := Then(p, ClearTmp);
      var d := Then(t, ClearPut(call.deletePutFiles));
      var e := Then(d, Advance);
      assert b.w == e.w && e.err.None?;
      GetsEffect(w, bb, call, gets);
      if puts {
        SweepEffect(PutLocal, g.w, |g.w.cs|);
      }
      ThenEffect(p, ClearTmp);
      ThenEffect(t, ClearPut(call.deletePutFiles));
      ThenEffect(d, Advance);
      forall k | 0 <= k < |w.cs|
        ensures b.w.cs[k] == Next(Untracked(g.w.cs[k]))
      {
        assert p.w.cs[k] == g.w.cs[k];
      }
    }
  }

  // ---------------------------------------------------------------------------------------
  // What a turn does to the commands run and to the files on disk

  /** The upload commands of a put pass: one put_batch command line per 'local' object, in
      list order. */
  function PutCommands(cs: seq<Cursor>): seq<string>
  {
    if cs == [] then []
    else PutCommands(cs[..|cs| - 1]) + (if Local(cs[|cs| - 1]) then [PutCommand(cs[|cs| - 1])] else [])
  }

  /** The paths every object lists in `tmp_files`. */
  function TmpPaths(cs: seq<Cursor>): set<string>
  {
    if cs == [] then {}
    else TmpPaths(cs[..|cs| - 1]) + Paths(cs[|cs| - 1].tmpFiles)
  }

  /** The paths of the windows of the 'local' objects. */
  function PutWindows(cs: seq<Cursor>): set<string>
  {
    if cs == [] then {}
    else PutWindows(cs[..|cs| - 1]) + (if Local(cs[|cs| - 1]) then Paths(cs[|cs| - 1].filesBatch) else {})
  }

  /** The put pass changes no object and no file, raises nothing, and logs the upload
      command of each 'local' object in list order. */
  lemma {:induction false} SweepPut(w: World, i: int)
    requires 0 <= i <= |w.cs|
    ensures Sweep(PutLocal, w, i) == Stage(World(w.cs, w.fs, w.log + PutCommands(w.cs[..i])), None)
  {
    if i > 0 {
      SweepPut(w, i - 1);
      assert w.cs[..i][..i - 1] == w.cs[..i - 1];
      assert w.cs[i - 1 := w.cs[i - 1]] == w.cs;
    } else {
      assert w.cs[..0] == [];
    }
  }

  /** delete_tmp_files() on every object raises nothing, removes every listed temporary
      file and leaves the log alone. */
  lemma {:induction false} SweepClearTmp(w: World, i: int)
    requires 0 <= i <= |w.cs|
    ensures var r := Sweep(ClearTmp, w, i);
            r.err.None? && r.w.fs == w.fs - TmpPaths(w.cs[..i]) && r.w.log == w.log
  {
    if i > 0 {
      SweepClearTmp(w, i - 1);
      SweepKeepsRest(ClearTmp, w, i - 1);
      assert w.cs[..i][..i - 1] == w.cs[..i - 1];
    } else {
      assert w.cs[..0] == [];
    }
  }

  /** delete_tmp_files(files_batch) on the 'local' objects, when `delete_put_files` is set,
      changes no object and not the log; it raises nothing exactly when each 'local' object
      reached is a GSBatch, and then removes their windows. */
  lemma {:induction false} SweepClearPut(del: bool, w: World, i: int)
    requires 0 <= i <= |w.cs|
    ensures var r := Sweep(ClearPut(del), w, i);
            r.w.cs == w.cs && r.w.log == w.log &&
            (r.err.None? <==> (del ==> forall k :: 0 <= k < i && Local(w.cs[k]) ==> w.cs[k].flavour == GS)) &&
            (r.err.None? ==> r.w.fs == w.fs - (if del then PutWindows(w.cs[..i]) else {}))
  {
    if i > 0 {
      SweepClearPut(del, w, i - 1);
      assert w.cs[..i][..i - 1] == w.cs[..i - 1];
      var s := Sweep(ClearPut(del), w, i - 1);
      if s.err.None? {
        assert s.w.cs[i - 1 := s.w.cs[i - 1]] == s.w.cs;
      }
    } else {
      assert w.cs[..0] == [];
    }
  }

  /** The next_batch pass raises nothing and touches neither files nor log. */
  lemma {:induction false} SweepAdvance(w: World, i: int)
    requires 0 <= i <= |w.cs|
    ensures var r := Sweep(Advance, w, i); r.err.None? && r.w.fs == w.fs && r.w.log == w.log
  {
    if i > 0 {
      SweepAdvance(w, i - 1);
    }
  }

  /** The windows and sources do not depend on the temporary-file lists. */
  lemma {:induction false} PutWindowsUntracked(xs: seq<Cursor>, ys: seq<Cursor>)
    requires |xs| == |ys| && forall k :: 0 <= k < |xs| ==> Untracked(xs[k]) == Untracked(ys[k])
    ensures PutWindows(xs) == PutWindows(ys)
  {
    if xs != [] {
      PutWindowsUntracked(xs[..|xs| - 1], ys[..|ys| - 1]);
      assert Untracked(xs[|xs| - 1]) == Untracked(ys[|ys| - 1]);
    }
  }

  /** The delete_tmp_files pass after a stage that raised nothing: it raises nothing, runs
      no command, removes every listed temporary file and keeps each object's windows,
      source and class. */
  lemma ClearTmpPass(s: Stage)
    requires s.err.None?
    ensures var t := Then(s, ClearTmp);
            t.err.None? && t.w.log == s.w.log && t.w.fs == s.w.fs - TmpPaths(s.w.cs) &&
            PutWindows(t.w.cs) == PutWindows(s.w.cs) &&
            forall k :: 0 <= k < |s.w.cs| ==> Untracked(t.w.cs[k]) == Untracked(s.w.cs[k])
  {
    var n := |s.w.cs|;
    assert s.w.cs[..n] == s.w.cs;
    var t := Then(s, ClearTmp);
    SweepClearTmp(s.w, n);
    ThenEffect(s, ClearTmp);
    forall k | 0 <= k < n
      ensures Untracked(t.w.cs[k]) == Untracked(s.w.cs[k])
    {
    }
    PutWindowsUntracked(t.w.cs, s.w.cs);
  }

  /** The deletion passes and the next_batch pass, after a stage that raised nothing: they
      run no command, remove every listed temporary file and, with `delete_put_files`, the
      windows of the 'local' objects, which must then all be GSBatch objects. */
  lemma ClearAndAdvance(s: Stage, del: bool)
    requires s.err.None?
    ensures var e := Then(Then(Then(s, ClearTmp), ClearPut(del)), Advance);
            e.err.None? ==>
              e.w.log == s.w.log &&
              e.w.fs == s.w.fs - TmpPaths(s.w.cs) - (if del then PutWindows(s.w.cs) else {}) &&
              (del ==> forall k :: 0 <= k < |s.w.cs| && Local(s.w.cs[k]) ==> s.w.cs[k].flavour == GS)
  {
    var n := |s.w.cs|;
    var t := Then(s, ClearTmp);
    ClearTmpPass(s);
    var d := Then(t, ClearPut(del));
    SweepClearPut(del, t.w, n);
    assert t.w.cs[..n] == t.w.cs;
    SweepAdvance(d.w, n);
    forall k | del && d.err.None? && 0 <= k < n && Local(s.w.cs[k])
      ensures s.w.cs[k].flavour == GS
    {
      assert Untracked(t.w.cs[k]) == Untracked(s.w.cs[k]);
    }
  }

  /** A turn that raises nothing runs, after the downloads, the upload command of each
      'local' object's current window in list order and nothing else; it removes every
      temporary file listed after the downloads (the copies just made and any listed
      before), and, when `delete_put_files` is set, the window each 'local' object has just
      uploaded, which every 'local' object must then be a GSBatch to allow. */
  lemma TurnFiles<R>(w: World, bb: int, call: Call<R>, gets: bool, puts: bool)
    ensures var b := Batch(w, bb, call, gets, puts);
            var g := Gets(w, bb, call, gets);
            b.err.None? ==>
              g.err.None? &&
              b.w.log == g.w.log + (if puts then PutCommands(g.w.cs) else []) &&
              b.w.fs == g.w.fs - TmpPaths(g.w.cs) - (if call.deletePutFiles then PutWindows(g.w.cs) else {}) &&
              (call.deletePutFiles ==> forall k :: 0 <= k < |w.cs| && Local(w.cs[k]) ==> w.cs[k].flavour == GS)
  {
    var b := Batch(w, bb, call, gets, puts);
    if b.err.None? {
      BatchStages(w, bb, call, gets, puts);
      GetsEffect(w, bb, call, gets);
      var g := Gets(w, bb, call, gets);
      var n := |g.w.cs|;
      assert g.w.cs[..n] == g.w.cs;
      var p := if puts then Sweep(PutLocal, g.w, n) else Stage(g.w, None);
      if puts {
        SweepPut(g.w, n);
      }
      assert p.w.cs == g.w.cs && p.err.None?;
      ClearAndAdvance(p, call.deletePutFiles);
      assert b.w == Then(Then(Then(p, ClearTmp), ClearPut(call.deletePutFiles)), Advance).w;
      forall k | 0 <= k < |w.cs|
        ensures Untracked(g.w.cs[k]) == Untracked(w.cs[k])
      {
      }
    }
  }

  // ---------------------------------------------------------------------------------------
  // What the function is given when objects download

  /** What a 'remote' object lists after a get_batch that raised nothing: the staged copies
      of its window appended to `tmp_files` (a LocalBatch's get_batch does nothing). Other
      objects, and every object when the run downloads nothing, are left as they are. */
  function Got(c: Cursor, gets: bool): Cursor
  {
    if gets && Remote(c) && c.flavour != Flavour.Local then c.(tmpFiles := c.tmpFiles + Staged(c)) else c
  }

  function Gots(cs: seq<Cursor>, gets: bool): seq<Cursor>
  {
    seq(|cs|, k requires 0 <= k < |cs| => Got(cs[k], gets))
  }

  /** A get_batch call that raises nothing leaves its object as `Got` says. */
  lemma VisitGet(copied: int -> set<string>, w: World, k: int)
    requires 0 <= k < |w.cs|
    ensures var r := Visit(GetRemote(copied), w, k);
            r.err.None? ==> r.w.cs[k] == Got(w.cs[k], true)
  {
    var c := w.cs[k];
    if Remote(c) && c.flavour == GS {
      GSGet(c, w.fs, copied(k));
    } else if Remote(c) && c.flavour == Flavour.Local {
      assert c.(tmpFiles := c.tmpFiles) == c;
    }
  }

  /** How a phase changes the object it reaches when it raises nothing: a download as
      `Got` says, any other phase as `Changed` says. */
  predicate Quiet(p: Phase, c: Cursor, d: Cursor)
  {
    if p.GetRemote? then d == Got(c, true) else Changed(p, c, d)
  }

  /** A visit that raises nothing changes its object as `Quiet` says. */
  lemma VisitQuiet(p: Phase, w: World, k: int)
    requires 0 <= k < |w.cs|
    ensures Visit(p, w, k).err.None? ==> Quiet(p, w.cs[k], Visit(p, w, k).w.cs[k])
  {
    VisitEffect(p, w, k);
    if p.GetRemote? {
      VisitGet(p.copied, w, k);
    }
  }

  /** A pass that raises nothing changes every object it reached as `Quiet` says. */
  lemma {:induction false} SweepQuiet(p: Phase, w: World, i: int)
    requires 0 <= i <= |w.cs|
    ensures Sweep(p, w, i).err.None? ==> forall j :: 0 <= j < i ==> Quiet(p, w.cs[j], Sweep(p, w, i).w.cs[j])
  {
    if i > 0 {
      var s := Sweep(p, w, i - 1);
      if s.err.None? {
        SweepQuiet(p, w, i - 1);
        SweepKeepsRest(p, w, i - 1);
        VisitEffect(p, s.w, i - 1);
        VisitQuiet(p, s.w, i - 1);
      }
    }
  }

  /** A get pass that raises nothing leaves each object it reached as `Got` says (the
      others are untouched, as `SweepKeepsRest` says of any pass). */
  lemma SweepGets(copied: int -> set<string>, w: World, i: int)
    requires 0 <= i <= |w.cs|
    ensures var r := Sweep(GetRemote(copied), w, i);
            r.err.None? ==> forall k :: 0 <= k < i ==> r.w.cs[k] == Got(w.cs[k], true)
  {
    SweepQuiet(GetRemote(copied), w, i);
  }

  /** The downloads of a turn that raise nothing give the objects `Gots` describes. */
  lemma GetsFetch<R>(w: World, bb: int, call: Call<R>, gets: bool)
    ensures var g := Gets(w, bb, call, gets); g.err.None? ==> g.w.cs == Gots(w.cs, gets)
  {
    if gets {
      SweepGets(CopiesAt(call, bb), w, |w.cs|);
    }
  }

  /** The output of a turn that raises nothing is _apply_one_at_a_time on the objects as the
      downloads leave them. */
  lemma BatchFetches<R>(w: World, bb: int, call: Call<R>, gets: bool, puts: bool)
    ensures var b := Batch(w, bb, call, gets, puts);
            b.err.None? ==> |b.output| == 1 && Success(b.output[0]) == OneAtATime(Gots(w.cs, gets), call.func)
  {
    BatchStages(w, bb, call, gets, puts);
    GetsFetch(w, bb, call, gets);
  }

  /** What a turn that raises nothing outputs: _apply_one_at_a_time on the objects as the
      downloads (made when `gets`) leave them. */
  ghost predicate Fetches<R>(turn: (World, int) -> Applied<R>, func: seq<string> -> R, gets: bool)
  {
    forall x, bb :: turn(x, bb).err.None? ==>
      |turn(x, bb).output| == 1 && Success(turn(x, bb).output[0]) == OneAtATime(Gots(x.cs, gets), func)
  }

  /** The turns of a run output as `Fetches` says. */
  lemma TurnFetches<R>(call: Call<R>, gets: bool, puts: bool)
    ensures Fetches(Turn(call, gets, puts), call.func, gets)
  {
    forall x, bb
      ensures var r := Turn(call, gets, puts)(x, bb);
              r.err.None? ==> |r.output| == 1 && Success(r.output[0]) == OneAtATime(Gots(x.cs, gets), call.func)
    {
      BatchFetches(x, bb, call, gets, puts);
    }
  }

  /** The objects as turn `b` finds them: as the loop started for turn 0, and after `b`
      turns, with their temporary files deleted, for a later turn. */
  function Held(cs: seq<Cursor>, b: nat): seq<Cursor>
  {
    if b == 0 then cs else After(cs, b)
  }

  /** After `n` turns that raise nothing, the objects are as turn `n` finds them. */
  lemma HeldAfterLoop<R>(w: World, n: nat, turn: (World, int) -> Applied<R>)
    requires Moves(turn)
    ensures var a := Loop(w, n, turn); a.err.None? ==> a.w.cs == Held(w.cs, n)
  {
    var a := Loop(w, n, turn);
    if a.err.None? {
      LoopMoves(w, n, turn);
      if n == 0 {
        assert a.w == w;
      } else {
        forall k | 0 <= k < |a.w.cs|
          ensures a.w.cs[k] == After(w.cs, n)[k]
        {
          assert a.w.cs[k] == Untracked(a.w.cs[k]);
        }
      }
    }
  }

  /** Output `b` of turns that raise nothing is _apply_one_at_a_time on the objects as
      turn `b` finds them, once the downloads of that turn are made. */
  lemma {:induction false} LoopFetches<R>(w: World, n: nat, turn: (World, int) -> Applied<R>,
                                          func: seq<string> -> R, gets: bool)
    requires Moves(turn) && Fetches(turn, func, gets)
    ensures var a := Loop(w, n, turn);
            a.err.None? ==>
              |a.output| == n &&
              forall b :: 0 <= b < n ==> Success(a.output[b]) == OneAtATime(Gots(Held(w.cs, b), gets), func)
  {
    if n > 0 {
      LoopFetches(w, n - 1, turn, func, gets);
      var a := Loop(w, n - 1, turn);
      var r := Loop(w, n, turn);
      if r.err.None? {
        var t := turn(a.w, n - 1);
        assert a.err.None? && r.output == a.output + t.output;
        HeldAfterLoop(w, n - 1, turn);
        assert Success(t.output[0]) == OneAtATime(Gots(Held(w.cs, n - 1), gets), func);
        forall b | 0 <= b < n
          ensures Success(r.output[b]) == OneAtATime(Gots(Held(w.cs, b), gets), func)
        {
          if b < n - 1 {
            assert r.output[b] == a.output[b];
          } else {
            assert r.output[b] == t.output[0];
          }
        }
      }
    }
  }

  /** What object `c` offers the function at turn `b` of a run that downloads: the window of
      batch `Reached(b, n_batches)` of its own layout; for a 'remote' GSBatch or CDSBatch, the
      temporary files instead, which are the staged copies of that window, preceded at turn
      0 by whatever `tmp_files` listed before the run (delete_tmp_files() empties the list at
      the end of every turn). */
  function Offered(c: Cursor, b: nat): Cursor
  {
    Got(AtBatch(c, Reached(b, c.nBatches)).(tmpFiles := if b == 0 then c.tmpFiles else []), true)
  }

  /** After the reset pass, object `k` as turn `b` finds it and then downloads is what
      `Offered` says. */
  lemma HeldAfterResets(cs: seq<Cursor>, fs: set<string>, b: nat, k: int)
    requires 0 <= k < |cs|
    ensures |Held(Resets(cs, fs).cs, b)| == |cs|
    ensures Got(Held(Resets(cs, fs).cs, b)[k], AnyRemote(cs)) == Offered(cs[k], b)
  {
    PrecheckAfterReset(cs, fs);
    var r := Resets(cs, fs);
    var d := AtBatch(cs[k], Reached(b, cs[k].nBatches)).(tmpFiles := if b == 0 then cs[k].tmpFiles else []);
    if b == 0 {
      assert Held(r.cs, b)[k] == Reset(cs[k]) == d;
    } else {
      Untouched(cs[k]);
      NextNFromReset(Untracked(cs[k]), b);
      assert Held(r.cs, b)[k] == d;
    }
    if Remote(cs[k]) {
      assert AnyRemote(cs);
    }
  }

  /** After the reset pass, the objects as turn `b` finds them and then downloads are what
      `Offered` says. */
  lemma OfferedAll(cs: seq<Cursor>, fs: set<string>, b: nat)
    ensures Gots(Held(Resets(cs, fs).cs, b), AnyRemote(cs)) == seq(|cs|, k requires 0 <= k < |cs| => Offered(cs[k], b))
  {
    forall k | 0 <= k < |cs|
      ensures Gots(Held(Resets(cs, fs).cs, b), AnyRemote(cs))[k] == Offered(cs[k], b)
    {
      HeldAfterResets(cs, fs, b, k);
    }
  }

  /** A run that passes the checks is the loop over the reset objects. */
  lemma ApplyIsLoop<R>(cs: seq<Cursor>, fs: set<string>, call: Call<R>)
    requires Precheck(cs).None?
    ensures Apply(cs, fs, call) ==
            Loop(Resets(cs, fs), Turns(cs[0].nBatches), Turn(call, AnyRemote(cs), AnyLocal(cs)))
  {
    PrecheckAfterReset(cs, fs);
  }

  /** Output `b` of a run that raises nothing is _apply_one_at_a_time on what each object
      offers at turn `b`: for a 'remote' object the copies it has just downloaded of its
      batch-`Reached(b, n_batches)` window, for any other object that window itself. */
  lemma RemoteOutputs<R>(cs: seq<Cursor>, fs: set<string>, call: Call<R>)
    requires Apply(cs, fs, call).err.None?
    ensures var a := Apply(cs, fs, call);
            |a.output| == Turns(cs[0].nBatches) &&
            forall b :: 0 <= b < |a.output| ==>
              Success(a.output[b]) ==
              OneAtATime(seq(|cs|, k requires 0 <= k < |cs| => Offered(cs[k], b)), call.func)
  {
    PrecheckAfterReset(cs, fs);
    var r := Resets(cs, fs);
    var n := Turns(cs[0].nBatches);
    var turn := Turn(call, AnyRemote(cs), AnyLocal(cs));
    ApplyIsLoop(cs, fs, call);
    TurnMoves(call, AnyRemote(cs), AnyLocal(cs));
    TurnFetches(call, AnyRemote(cs), AnyLocal(cs));
    LoopFetches(r, n, turn, call.func, AnyRemote(cs));
    forall b: nat | b < n
      ensures Gots(Held(r.cs, b), AnyRemote(cs)) == seq(|cs|, k requires 0 <= k < |cs| => Offered(cs[k], b))
    {
      OfferedAll(cs, fs, b);
    }
  }

  /** A turn of the loop that raises nothing adds one list of outputs and leaves every
      object one batch on (or where it was at its last batch) with no temporary files
      listed. */
  lemma BatchMoves<R>(w: World, bb: int, call: Call<R>, gets: bool, puts: bool)
    ensures var b := Batch(w, bb, call, gets, puts);
            b.err.None? ==>
              call.passArgs == "one" && |b.output| == 1 &&
              forall k :: 0 <= k < |w.cs| ==> b.w.cs[k] == Next(Untracked(w.cs[k]))
  {
    BatchStages(w, bb, call, gets, puts);
    GetsEffect(w, bb, call, gets);
  }

  /** When no object is 'remote', the outputs of a turn that raises nothing are
      _apply_one_at_a_time on the objects as the turn found them. */
  lemma BatchOutput<R>(w: World, bb: int, call: Call<R>, gets: bool, puts: bool)
    requires forall k :: 0 <= k < |w.cs| ==> !Remote(w.cs[k])
    ensures var b := Batch(w, bb, call, gets, puts);
            b.err.None? ==> |b.output| == 1 && Success(b.output[0]) == OneAtATime(w.cs, call.func)
  {
    BatchStages(w, bb, call, gets, puts);
    var b := Batch(w, bb, call, gets, puts);
    if b.err.None? {
      var g := Gets(w, bb, call, gets);
      GetsEffect(w, bb, call, gets);
      forall k | 0 <= k < |w.cs|
        ensures Args(g.w.cs[k]) == Args(w.cs[k])
      {
        assert Untracked(g.w.cs[k]).source == Untracked(w.cs[k]).source;
        assert Untracked(g.w.cs[k]).filesBatch == Untracked(w.cs[k]).filesBatch;
      }
      OneAtATimeArgs(g.w.cs, w.cs, call.func);
    }
  }

  /** The objects after `b` turns that raised nothing, tracked lists dropped. */
  function After(cs: seq<Cursor>, b: nat): seq<Cursor>
  {
    seq(|cs|, k requires 0 <= k < |cs| => NextN(Untracked(cs[k]), b))
  }

  /** One more turn takes objects that are `n - 1` turns on to `n` turns on. */
  lemma AfterStep(cs: seq<Cursor>, xs: seq<Cursor>, ys: seq<Cursor>, n: nat)
    requires |xs| == |ys| == |cs| && n > 0
    requires forall k :: 0 <= k < |cs| ==> Untracked(xs[k]) == After(cs, n - 1)[k]
    requires forall k :: 0 <= k < |cs| ==> ys[k] == Next(Untracked(xs[k]))
    ensures forall k :: 0 <= k < |cs| ==> Untracked(ys[k]) == After(cs, n)[k] && ys[k].tmpFiles == []
  {
    forall k | 0 <= k < |cs|
      ensures Untracked(ys[k]) == After(cs, n)[k] && ys[k].tmpFiles == []
    {
      Untouched(xs[k]);
      assert After(cs, n)[k] == Next(After(cs, n - 1)[k]);
    }
  }

  /** What a turn that raises nothing does: one list of outputs, every object one batch
      on (or where it was at its last batch) with no temporary files listed. */
  ghost predicate Moves<R>(turn: (World, int) -> Applied<R>)
  {
    forall x, bb :: turn(x, bb).err.None? ==>
      |turn(x, bb).output| == 1 && |turn(x, bb).w.cs| == |x.cs| &&
      forall k :: 0 <= k < |x.cs| ==> turn(x, bb).w.cs[k] == Next(Untracked(x.cs[k]))
  }

  /** What a turn that raises nothing outputs when no object is 'remote':
      _apply_one_at_a_time on the objects as the turn found them. */
  ghost predicate Outputs<R>(turn: (World, int) -> Applied<R>, func: seq<string> -> R)
  {
    forall x, bb :: turn(x, bb).err.None? && (forall k :: 0 <= k < |x.cs| ==> !Remote(x.cs[k])) ==>
      |turn(x, bb).output| == 1 && Success(turn(x, bb).output[0]) == OneAtATime(x.cs, func)
  }

  /** The turns of a run move the objects and output as `Moves` and `Outputs` say. */
  lemma TurnMoves<R>(call: Call<R>, gets: bool, puts: bool)
    ensures Moves(Turn(call, gets, puts)) && Outputs(Turn(call, gets, puts), call.func)
  {
    forall x, bb
      ensures var r := Turn(call, gets, puts)(x, bb);
              r.err.None? ==>
                |r.output| == 1 && |r.w.cs| == |x.cs| &&
                forall k :: 0 <= k < |x.cs| ==> r.w.cs[k] == Next(Untracked(x.cs[k]))
    {
      BatchMoves(x, bb, call, gets, puts);
    }
    forall x: World, bb: int | forall k :: 0 <= k < |x.cs| ==> !Remote(x.cs[k])
      ensures var r := Turn(call, gets, puts)(x, bb);
              r.err.None? ==> |r.output| == 1 && Success(r.output[0]) == OneAtATime(x.cs, call.func)
    {
      BatchOutput(x, bb, call, gets, puts);
    }
  }

  /** `n` turns that raise nothing give `n` lists of outputs, and leave each object `n`
      next_batch calls on with no temporary files listed. */
  lemma {:induction false} LoopMoves<R>(w: World, n: nat, turn: (World, int) -> Applied<R>)
    requires Moves(turn)
    ensures var a := Loop(w, n, turn);
            a.err.None? ==>
              |a.output| == n && |a.w.cs| == |w.cs| &&
              forall k :: 0 <= k < |w.cs| ==>
                Untracked(a.w.cs[k]) == After(w.cs, n)[k] && (n > 0 ==> a.w.cs[k].tmpFiles == [])
  {
    if n > 0 {
      LoopMoves(w, n - 1, turn);
      var a := Loop(w, n - 1, turn);
      if a.err.None? {
        var b := turn(a.w, n - 1);
        if b.err.None? {
          AfterStep(w.cs, a.w.cs, b.w.cs, n);
        }
      }
    }
  }

  /** Objects that are not 'remote' offer their windows, which the turns move as
      next_batch does. */
  lemma NonRemoteAfter(cs: seq<Cursor>, xs: seq<Cursor>, n: nat)
    requires |xs| == |cs|
    requires forall k :: 0 <= k < |cs| ==> !Remote(cs[k])
    requires forall k :: 0 <= k < |cs| ==> Untracked(xs[k]) == After(cs, n)[k]
    ensures forall k :: 0 <= k < |cs| ==> !Remote(xs[k]) && Args(xs[k]) == Args(After(cs, n)[k])
  {
    forall k | 0 <= k < |cs|
      ensures !Remote(xs[k]) && Args(xs[k]) == Args(After(cs, n)[k])
    {
      NextNKeepsSource(Untracked(cs[k]), n);
    }
  }

  /** The output of turn `n - 1`, made from objects whose arguments are those of batch
      `n - 1`, extends the outputs of the earlier turns. */
  lemma OutputsStep<R>(cs: seq<Cursor>, xs: seq<Cursor>, prev: seq<seq<R>>, next: seq<seq<R>>, n: nat,
                       func: seq<string> -> R)
    requires n > 0 && |xs| == |cs| && |prev| == n - 1 && |next| == 1
    requires forall k :: 0 <= k < |cs| ==> Args(xs[k]) == Args(After(cs, n - 1)[k])
    requires forall b :: 0 <= b < n - 1 ==> Success(prev[b]) == OneAtATime(After(cs, b), func)
    requires Success(next[0]) == OneAtATime(xs, func)
    ensures forall b :: 0 <= b < n ==> Success((prev + next)[b]) == OneAtATime(After(cs, b), func)
  {
    OneAtATimeArgs(xs, After(cs, n - 1), func);
    OutputsAppend(prev, next, cs, n, func);
  }

  lemma OutputsAppend<R>(prev: seq<seq<R>>, next: seq<seq<R>>, cs: seq<Cursor>, n: nat, func: seq<string> -> R)
    requires n > 0 && |prev| == n - 1 && |next| == 1
    requires forall b :: 0 <= b < n - 1 ==> Success(prev[b]) == OneAtATime(After(cs, b), func)
    requires Success(next[0]) == OneAtATime(After(cs, n - 1), func)
    ensures forall b :: 0 <= b < n ==> Success((prev + next)[b]) == OneAtATime(After(cs, b), func)
  {
  }

  /** When no object is 'remote', output `b` of turns that raise nothing is
      _apply_one_at_a_time on the objects after `b` turns. */
  lemma {:induction false} LoopOutputs<R>(w: World, n: nat, turn: (World, int) -> Applied<R>, func: seq<string> -> R)
    requires Moves(turn) && Outputs(turn, func)
    requires forall k :: 0 <= k < |w.cs| ==> !Remote(w.cs[k])
    ensures var a := Loop(w, n, turn);
            a.err.None? ==>
              |a.output| == n && forall b :: 0 <= b < n ==> Success(a.output[b]) == OneAtATime(After(w.cs, b), func)
  {
    if n > 0 {
      LoopOutputs(w, n - 1, turn, func);
      LoopMoves(w, n - 1, turn);
      var a := Loop(w, n - 1, turn);
      var r := Loop(w, n, turn);
      if r.err.None? {
        var b := turn(a.w, n - 1);
        assert a.err.None? && r == Applied(b.w, a.output + b.output, b.err);
        NonRemoteAfter(w.cs, a.w.cs, n - 1);
        OutputsStep(w.cs, a.w.cs, a.output, b.output, n, func);
      }
    }
  }

  /** A run that raises nothing makes as many turns as the first object has batches (none
      for a negative count) and leaves each object where that many next_batch calls from
      batch 0 reach: an object with more batches than the first is left short of its last
      batch, one with fewer stays at its last batch. No temporary files stay listed. */
  lemma ApplyPositions<R>(cs: seq<Cursor>, fs: set<string>, call: Call<R>)
    requires Apply(cs, fs, call).err.None?
    ensures var a := Apply(cs, fs, call);
            var n := Turns(cs[0].nBatches);
            |a.output| == n && |a.w.cs| == |cs| &&
            forall k :: 0 <= k < |cs| ==>
              Untracked(a.w.cs[k]) == Untracked(AtBatch(cs[k], Reached(n, cs[k].nBatches))) &&
              (n > 0 ==> a.w.cs[k].tmpFiles == [])
  {
    PrecheckAfterReset(cs, fs);
    var r := Resets(cs, fs);
    var n := Turns(cs[0].nBatches);
    TurnMoves(call, AnyRemote(r.cs), AnyLocal(r.cs));
    LoopMoves(r, n, Turn(call, AnyRemote(r.cs), AnyLocal(r.cs)));
    forall k | 0 <= k < |cs|
      ensures After(r.cs, n)[k] == Untracked(AtBatch(cs[k], Reached(n, cs[k].nBatches)))
    {
      Untouched(cs[k]);
      NextNFromReset(Untracked(cs[k]), n);
    }
  }

  /** After the reset pass and `b` turns, each object offers the window of batch `b` of
      its own layout while it has one, its last batch after that. */
  lemma AfterResets<R>(cs: seq<Cursor>, fs: set<string>, b: nat, func: seq<string> -> R)
    requires forall k :: 0 <= k < |cs| ==> !Remote(cs[k])
    ensures OneAtATime(After(Resets(cs, fs).cs, b), func) ==
            OneAtATime(seq(|cs|, k requires 0 <= k < |cs| => AtBatch(cs[k], Reached(b, cs[k].nBatches))), func)
  {
    PrecheckAfterReset(cs, fs);
    var ys := seq(|cs|, k requires 0 <= k < |cs| => AtBatch(cs[k], Reached(b, cs[k].nBatches)));
    forall k | 0 <= k < |cs|
      ensures Args(After(Resets(cs, fs).cs, b)[k]) == Args(ys[k])
    {
      Untouched(cs[k]);
      NextNFromReset(Untracked(cs[k]), b);
    }
    OneAtATimeArgs(After(Resets(cs, fs).cs, b), ys, func);
  }

  /** When no object is 'remote', each call of the function takes, from every object in
      order, the file at the same place in the window that object has at that turn: batch
      `b` of its own layout while it has one, its last batch after that. */
  lemma LocalOutputs<R>(cs: seq<Cursor>, fs: set<string>, call: Call<R>)
    requires Apply(cs, fs, call).err.None?
    requires forall k :: 0 <= k < |cs| ==> !Remote(cs[k])
    ensures var a := Apply(cs, fs, call);
            |cs| > 0 &&
            forall b :: 0 <= b < |a.output| ==>
              Success(a.output[b]) ==
              OneAtATime(seq(|cs|, k requires 0 <= k < |cs| => AtBatch(cs[k], Reached(b, cs[k].nBatches))), call.func)
  {
    PrecheckAfterReset(cs, fs);
    var r := Resets(cs, fs);
    var n := Turns(cs[0].nBatches);
    TurnMoves(call, AnyRemote(r.cs), AnyLocal(r.cs));
    LoopOutputs(r, n, Turn(call, AnyRemote(r.cs), AnyLocal(r.cs)), call.func);
    forall b | 0 <= b < n
      ensures OneAtATime(After(r.cs, b), call.func) ==
              OneAtATime(seq(|cs|, k requires 0 <= k < |cs| => AtBatch(cs[k], Reached(b, cs[k].nBatches))), call.func)
    {
      AfterResets(cs, fs, b, call.func);
    }
  }

  /** The loop stops at a first turn that raises, with that turn's outcome. */
  lemma {:induction false} LoopStopsAtFirst<R>(w: World, n: nat, turn: (World, int) -> Applied<R>)
    requires n > 0 && turn(w, 0).err.Some?
    ensures Loop(w, n, turn) == turn(w, 0)
  {
    if n > 1 {
      LoopStopsAtFirst(w, n - 1, turn);
    } else {
      assert Loop(w, 0, turn) == Applied(w, [], None);
      assert [] + turn(w, 0).output == turn(w, 0).output;
    }
  }

  /** A loop that has raised stays as it was: no later turn is made. */
  lemma {:induction false} LoopStops<R>(w: World, i: nat, j: nat, turn: (World, int) -> Applied<R>)
    requires i <= j && Loop(w, i, turn).err.Some?
    ensures Loop(w, j, turn) == Loop(w, i, turn)
    decreases j
  {
    if j > i {
      LoopStops(w, i, j - 1, turn);
    }
  }

  /** `pass_args` is looked at only inside the loop, after the downloads of the first
      batch: with any value but 'one', a run that reaches the loop downloads batch 0 of its
      'remote' objects and then raises, TypeError for 'all' and the unrecognised-option
      exception otherwise (unless a download has already failed). */
  lemma PassArgsAfterGets<R>(cs: seq<Cursor>, fs: set<string>, call: Call<R>)
    requires Precheck(cs).None? && cs[0].nBatches > 0 && call.passArgs != "one"
    ensures var a := Apply(cs, fs, call);
            var g := Gets(Resets(cs, fs), 0, call, AnyRemote(cs));
            a.w == g.w && a.output == [] &&
            a.err == if g.err.Some? then g.err
                     else if call.passArgs == "all" then Some(NotCallable) else Some(UnrecognisedPassArgs)
  {
    PrecheckAfterReset(cs, fs);
    var r := Resets(cs, fs);
    var turn := Turn(call, AnyRemote(r.cs), AnyLocal(r.cs));
    assert turn(r, 0) == Batch(r, 0, call, AnyRemote(r.cs), AnyLocal(r.cs));
    LoopStopsAtFirst(r, Turns(cs[0].nBatches), turn);
  }

  // ---------------------------------------------------------------------------------------
  // The run on objects

  /** The objects' states, in list order. */
  ghost function Snapshot(bs: seq<CloudBatch>): seq<Cursor>
    reads bs
  {
    seq(|bs|, k requires 0 <= k < |bs| reads bs => bs[k].State())
  }

  /** No object is listed twice. */
  predicate Distinct(bs: seq<CloudBatch>)
  {
    forall i, j :: 0 <= i < j < |bs| ==> bs[i] != bs[j]
  }

  /** The call a phase makes on one object. */
  method VisitObject(b: CloudBatch, p: Phase, k: int, fs: set<string>, log: seq<string>)
    returns (after: set<string>, lg: seq<string>, err: Option<Error>)
    modifies b
    ensures (b.State(), after, lg, err) == Act(p, old(b.State()), k, fs, log)
  {
    after, lg, err := fs, log, None;
    match p {
      case ResetAll =>
        b.ResetBatch();
      case GetRemote(copied) =>
        if b.source == "remote" {
          var command;
          after, command, err := b.GetBatch(fs, copied(k));
          lg := log + Logged(command);
        }
      case PutLocal =>
        if b.source == "local" {
          var command := b.PutBatch();
          lg := log + [command];
        }
      case ClearTmp =>
        after, err := b.DeleteTmpFiles(None, fs);
      case ClearPut(del) =>
        if del && b.source == "local" {
          after, err := b.DeleteTmpFiles(Some(b.filesBatch), fs);
        }
      case Advance =>
        b.NextBatch();
    }
  }

  /** A pass over one more object visits it in the world the pass had reached. */
  lemma SweepStep(p: Phase, w0: World, k: int, w: World)
    requires 0 <= k < |w0.cs| && Sweep(p, w0, k) == Stage(w, None)
    ensures Sweep(p, w0, k + 1) == Visit(p, w, k)
  {
  }

  /** A pass that has raised stays as it was: the objects after the failing one are not
      visited. */
  lemma {:induction false} SweepStops(p: Phase, w: World, i: int, j: int)
    requires 0 <= i <= j <= |w.cs| && Sweep(p, w, i).err.Some?
    ensures Sweep(p, w, j) == Sweep(p, w, i)
    decreases j
  {
    if j > i {
      SweepStops(p, w, i, j - 1);
    }
  }

  /** The call a phase makes on object `k` of the list, as `Visit` says. */
  method VisitAt(bs: seq<CloudBatch>, p: Phase, k: int, fs: set<string>, log: seq<string>)
    returns (after: set<string>, lg: seq<string>, err: Option<Error>)
    requires Distinct(bs) && 0 <= k < |bs|
    modifies bs[k]
    ensures Stage(World(Snapshot(bs), after, lg), err) == Visit(p, World(old(Snapshot(bs)), fs, log), k)
  {
    after, lg, err := VisitObject(bs[k], p, k, fs, log);
    forall j | 0 <= j < |bs| && j != k
      ensures bs[j].State() == old(bs[j].State())
    {
      assert bs[j] != bs[k];
    }
    assert Snapshot(bs) == old(Snapshot(bs))[k := bs[k].State()];
  }

  /** One pass over the list, in order, stopping at the first exception. */
  method Pass(bs: seq<CloudBatch>, p: Phase, fs: set<string>, log: seq<string>)
    returns (after: set<string>, lg: seq<string>, err: Option<Error>)
    requires Distinct(bs)
    modifies set b | b in bs
    ensures Stage(World(Snapshot(bs), after, lg), err) == Sweep(p, World(old(Snapshot(bs)), fs, log), |bs|)
  {
    ghost var w0 := World(Snapshot(bs), fs, log);
    after, lg := fs, log;
    for k := 0 to |bs|
      invariant Sweep(p, w0, k) == Stage(World(Snapshot(bs), after, lg), None)
    {
      ghost var w := World(Snapshot(bs), after, lg);
      SweepStep(p, w0, k, w);
      after, lg, err := VisitAt(bs, p, k, after, lg);
      if err.Some? {
        SweepStops(p, w0, k + 1, |bs|);
        return;
      }
    }
    err := None;
  }

  /** _apply_one_at_a_time on the objects. */
  method ApplyOneAtATime<R>(bs: seq<CloudBatch>, func: seq<string> -> R) returns (r: Result<seq<R>, Error>)
    ensures r == OneAtATime(Snapshot(bs), func)
  {
    ghost var cs := Snapshot(bs);
    var batchFiles: seq<seq<string>> := [];
    for k := 0 to |bs|
      invariant |batchFiles| == k && forall j :: 0 <= j < k ==> batchFiles[j] == Args(cs[j])
    {
      if bs[k].source == "remote" {
        batchFiles := batchFiles + [bs[k].tmpFiles];
      } else {
        batchFiles := batchFiles + [bs[k].filesBatch];
      }
    }
    if |batchFiles| == 0 {
      return Failure(IndexError);
    }
    var nFiles := |batchFiles[0]|;
    var output: seq<R> := [];
    for ff := 0 to nFiles
      invariant Long(cs, ff)
      invariant output == seq(ff, i requires 0 <= i < ff => func(Row(cs, i)))
    {
      var args: seq<string> := [];
      for ii := 0 to |bs|
        invariant |args| == ii && forall j :: 0 <= j < ii ==> ff < |Args(cs[j])| && args[j] == Args(cs[j])[ff]
      {
        if ff >= |batchFiles[ii]| {
          assert !Long(cs, nFiles);
          return Failure(IndexError);
        }
        args := args + [batchFiles[ii][ff]];
      }
      assert args == Row(cs, ff);
      output := output + [func(args)];
    }
    return Success(output);
  }

  /** One turn of the loop on the objects. */
  method RunBatch<R>(bs: seq<CloudBatch>, bb: int, call: Call<R>, gets: bool, puts: bool,
                     fs: set<string>, log: seq<string>)
    returns (out: seq<seq<R>>, after: set<string>, lg: seq<string>, err: Option<Error>)
    requires Distinct(bs)
    modifies set b | b in bs
    ensures Applied(World(Snapshot(bs), after, lg), out, err) == Batch(World(old(Snapshot(bs)), fs, log), bb, call, gets, puts)
  {
    after, lg, err := fs, log, None;
    if gets {
      after, lg, err := Pass(bs, GetRemote(CopiesAt(call, bb)), after, lg);
      if err.Some? {
        return [], after, lg, err;
      }
    }
    if call.passArgs == "one" {
      var o := ApplyOneAtATime(bs, call.func);
      if o.Failure? {
        return [], after, lg, Some(o.error);
      }
      out := [o.value];
    } else if call.passArgs == "all" {
      return [], after, lg, Some(NotCallable);
    } else {
      return [], after, lg, Some(UnrecognisedPassArgs);
    }
    if puts {
      after, lg, err := Pass(bs, PutLocal, after, lg);
      if err.Some? {
        return;
      }
    }
    after, lg, err := Pass(bs, ClearTmp, after, lg);
    if err.Some? {
      return;
    }
    after, lg, err := Pass(bs, ClearPut(call.deletePutFiles), after, lg);
    if err.Some? {
      return;
    }
    after, lg, err := Pass(bs, Advance, after, lg);
  }

  /** The checks before the loop, on the objects as the reset pass left them: the
      `np.all` test of the batch counts, `batch[0]`, and the two counting loops. */
  method Check(bs: seq<CloudBatch>) returns (e: Option<Error>, nBatches: int, gets: bool, puts: bool)
    ensures e == Precheck(Snapshot(bs))
    ensures e.None? ==> |bs| > 0 && nBatches == bs[0].nBatches &&
                        gets == AnyRemote(Snapshot(bs)) && puts == AnyLocal(Snapshot(bs))
  {
    ghost var cs := Snapshot(bs);
    nBatches, gets, puts := 0, false, false;
    for k := 0 to |bs|
      invariant forall j :: 0 <= j < k ==> cs[j].nBatches != 0
    {
      assert cs[k] == bs[k].State();
      if bs[k].nBatches == 0 {
        return Some(Misaligned), nBatches, gets, puts;
      }
    }
    if |bs| == 0 {
      return Some(IndexError), nBatches, gets, puts;
    }
    nBatches := bs[0].nBatches;
    var nGets, nPuts := 0, 0;
    for k := 0 to |bs|
      invariant nGets >= 0 && (nGets > 0 <==> exists j :: 0 <= j < k && Remote(cs[j]))
      invariant nPuts >= 0 && (nPuts > 0 <==> exists j :: 0 <= j < k && Local(cs[j]))
    {
      assert cs[k] == bs[k].State();
      if bs[k].source == "remote" {
        nGets := nGets + 1;
      }
      if bs[k].source == "local" {
        nPuts := nPuts + 1;
      }
    }
    gets, puts := nGets > 0, nPuts > 0;
    if !gets && !puts {
      return Some(NothingToMove), nBatches, gets, puts;
    }
    e := None;
  }

  /** The loop `for bb in range(n_batches)`, each turn one `RunBatch`, leaving at the first
      exception with the output gathered so far. */
  method RunLoop<R>(bs: seq<CloudBatch>, n: int, call: Call<R>, gets: bool, puts: bool,
                    fs: set<string>, log0: seq<string>)
    returns (output: seq<seq<R>>, after: set<string>, log: seq<string>, err: Option<Error>)
    requires Distinct(bs)
    modifies set b | b in bs
    ensures Applied(World(Snapshot(bs), after, log), output, err) ==
            Loop(World(old(Snapshot(bs)), fs, log0), Turns(n), Turn(call, gets, puts))
  {
    ghost var r := World(Snapshot(bs), fs, log0);
    ghost var turn := Turn(call, gets, puts);
    output, after, log, err := [], fs, log0, None;
    for bb := 0 to Turns(n)
      invariant Loop(r, bb, turn) == Applied(World(Snapshot(bs), after, log), output, None)
    {
      var out;
      ghost var w := World(Snapshot(bs), after, log);
      out, after, log, err := RunBatch(bs, bb, call, gets, puts, after, log);
      assert turn(w, bb) == Applied(World(Snapshot(bs), after, log), out, err);
      output := output + out;
      if err.Some? {
        LoopStops(r, bb + 1, Turns(n), turn);
        return;
      }
    }
    err := None;
  }

  /** apply_batch_func.__init__ on a batch object or a list of distinct batch objects: the
      objects end as `Apply` says, and so do the filesystem, the commands run and the
      exception raised; `output` is `self.output` when nothing was raised. */
  method ApplyBatchFunc<R>(batch: BatchArg<CloudBatch>, fs: set<string>, call: Call<R>)
    returns (output: seq<seq<R>>, after: set<string>, log: seq<string>, err: Option<Error>)
    requires Distinct(Listed(batch))
    modifies set b | b in Listed(batch)
    ensures var a := Apply(old(Snapshot(Listed(batch))), fs, call);
            Snapshot(Listed(batch)) == a.w.cs && after == a.w.fs && log == a.w.log && err == a.err &&
            (err.None? ==> output == a.output)
  {
    var bs := Listed(batch);
    ghost var cs := Snapshot(bs);
    output := [];
    after, log, err := Pass(bs, ResetAll, fs, []);
    assert World(Snapshot(bs), after, log) == Resets(cs, fs);
    var nBatches, gets, puts;
    err, nBatches, gets, puts := Check(bs);
    if err.Some? {
      return;
    }
    output, after, log, err := RunLoop(bs, nBatches, call, gets, puts, after, log);
  }
}

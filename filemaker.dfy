/** file_list_from_components and _iterate_list (cloudbatch/filemaker.py): file names built
    as the cartesian product of their components, later components converted with `str` and
    prefixed with `_`, and `.` plus the extension added to every name. */
module FileMaker {
  import opened Wrappers
  import opened PyOps
  import opened Products

  /** An entry of a component list: a string, or a number that `str` turns into digits. */
  datatype Atom = Text(s: string) | Number(n: int)

  /** `str(a)`. */
  function Str(a: Atom): string
  {
    match a
    case Text(s) => s
    case Number(n) => IntToString(n)
  }

  predicate HasNumber(l: seq<Atom>)
  {
    exists i :: 0 <= i < |l| && l[i].Number?
  }

  /** The error of `int + str`. */
  const BadConcat := TypeError("unsupported operand type(s) for +")

  /** The strings of a list with no numbers, or `str` of each entry. */
  function Strs(l: seq<Atom>): seq<string>
  {
    seq(|l|, i requires 0 <= i < |l| => Str(l[i]))
  }

  function AsText(names: seq<string>): seq<Atom>
  {
    seq(|names|, i requires 0 <= i < |names| => Text(names[i]))
  }

  /** A later component as the loop uses it: `'_' + str(ss)` for each entry. */
  function Tagged(c: seq<Atom>): seq<string>
  {
    seq(|c|, j requires 0 <= j < |c| => "_" + Str(c[j]))
  }

  /** The pieces the names are made of: the first component as it is, the others tagged. */
  function Pieces(cs: seq<seq<Atom>>): seq<seq<string>>
  {
    seq(|cs|, k requires 0 <= k < |cs| => if k == 0 then Strs(cs[0]) else Tagged(cs[k]))
  }

  /** Line 44: `fn + '.' + file_ext` for every name. */
  function WithExt(names: seq<string>, ext: string): seq<string>
  {
    seq(|names|, i requires 0 <= i < |names| => names[i] + "." + ext)
  }

  /** What file_list_from_components returns: IndexError for no components; TypeError when
      a number in the first component reaches a concatenation (it is never converted with
      `str`), which happens unless the second component is empty; otherwise the product of
      the pieces, each name with the extension. `join_str` plays no part. */
  function FileListSpec(cs: seq<seq<Atom>>, ext: string): Result<seq<string>, Error>
  {
    if cs == [] then Failure(IndexError)
    else if HasNumber(cs[0]) && (|cs| == 1 || |cs[1]| > 0) then Failure(BadConcat)
    else Success(WithExt(Cartesian(Pieces(cs)), ext))
  }

  /** The product of the component lengths. */
  function NumberOfNames(cs: seq<seq<Atom>>): nat
  {
    if cs == [] then 1 else |cs[0]| * NumberOfNames(cs[1..])
  }

  /** Names wrapped as text give back the same strings, and hold no numbers. */
  lemma TextRoundTrip(names: seq<string>)
    ensures Strs(AsText(names)) == names && !HasNumber(AsText(names))
  {
  }

  // ---------------------------------------------------------------------------------------
  // The loops

  /** One pass of the outer loop for component `c`, tagged: `_iterate_list` with
      `len(c)`, then `file_list[jj] = file_list[jj] + c_ii[jj % n_ii]` in place. A number
      still in the list raises TypeError at its first concatenation. */
  method ExtendNames(fileList: seq<Atom>, c: seq<string>) returns (r: Result<seq<Atom>, Error>)
    ensures |c| > 0 && HasNumber(fileList) ==> r == Failure(BadConcat)
    ensures !(|c| > 0 && HasNumber(fileList)) ==> r == Success(AsText(Extend(Strs(fileList), c)))
  {
    var n := |c|;
    var repeated := IterateList(fileList, n, Text(""));
    ghost var target := Joined(repeated, c);
    var a := new Atom[|repeated|](p requires 0 <= p < |repeated| => repeated[p]);
    var jj := 0;
    while jj < a.Length
      invariant 0 <= jj <= a.Length
      invariant forall p :: 0 <= p < jj ==> repeated[p].Text? && a[p] == target[p]
      invariant forall p :: jj <= p < a.Length ==> a[p] == repeated[p]
    {
      if a[jj].Number? {
        NumberRepeated(fileList, n, jj);
        return Failure(BadConcat);
      }
      a[jj] := Text(a[jj].s + c[jj % n]);
      jj := jj + 1;
    }
    assert a[..] == target;
    TextRepeated(fileList, n);
    JoinedIsExtend(fileList, c);
    return Success(a[..]);
  }

  /** What the in-place loop leaves in the repeated list: `str` of each entry followed by
      the entry of `c` at the same position modulo `len(c)`. */
  function Joined(repeated: seq<Atom>, c: seq<string>): seq<Atom>
  {
    if |c| == 0 then []
    else seq(|repeated|, p requires 0 <= p < |repeated| => Text(Str(repeated[p]) + c[p % |c|]))
  }

  /** A number in the repeated list comes from a number in the list it repeats. */
  lemma NumberRepeated(l: seq<Atom>, n: int, p: int)
    requires 0 <= p < |Repeat(l, n)| && Repeat(l, n)[p].Number?
    ensures n > 0 && HasNumber(l)
  {
    RepeatLength(l, n);
    RepeatIndex(l, n, p);
  }

  /** Every entry of the list reappears in the repeated list when `n > 0`, so a repeated
      list of text entries comes from a list of text entries. */
  lemma TextRepeated(l: seq<Atom>, n: int)
    requires forall p :: 0 <= p < |Repeat(l, n)| ==> Repeat(l, n)[p].Text?
    ensures n > 0 ==> !HasNumber(l)
  {
    if n > 0 {
      forall i | 0 <= i < |l|
        ensures l[i].Text?
      {
        StrideDiv(i, 0, n);
        SlotBound(i, 0, n, |l|);
        RepeatIndex(l, n, i * n);
      }
    }
  }

  /** The loop's result is one extension step of the names. */
  lemma {:induction false} JoinedIsExtend(l: seq<Atom>, c: seq<string>)
    ensures Joined(Repeat(l, |c|), c) == AsText(Extend(Strs(l), c))
  {
    var n := |c|;
    if n == 0 {
      ExtendLength(Strs(l), c);
    } else if l == [] {
      assert Strs(l) == [];
    } else {
      var block := seq(n, _ => l[0]);
      var rest := Repeat(l[1..], n);
      assert Repeat(l, n) == block + rest;
      JoinedSplit(block, rest, c);
      JoinedIsExtend(l[1..], c);
      assert Strs(l)[1..] == Strs(l[1..]);
      AsTextAppend(Prefixed(Str(l[0]), c), Extend(Strs(l[1..]), c));
      JoinedBlock(l[0], c);
    }
  }

  /** The repeated copies of one name, joined, are that name prefixed to each entry. */
  lemma JoinedBlock(a: Atom, c: seq<string>)
    requires |c| > 0
    ensures Joined(seq(|c|, _ => a), c) == AsText(Prefixed(Str(a), c))
  {
    var n := |c|;
    forall p | 0 <= p < n
      ensures Joined(seq(n, _ => a), c)[p] == AsText(Prefixed(Str(a), c))[p]
    {
      StrideDiv(0, p, n);
    }
  }

  /** Joining is done block by block when the first block is one cycle of `c` long. */
  lemma JoinedSplit(x: seq<Atom>, y: seq<Atom>, c: seq<string>)
    requires |x| == |c| > 0
    ensures Joined(x + y, c) == Joined(x, c) + Joined(y, c)
  {
    var n := |c|;
    forall p | 0 <= p < |x| + |y|
      ensures Joined(x + y, c)[p] == (Joined(x, c) + Joined(y, c))[p]
    {
      if p < n {
        StrideDiv(0, p, n);
      } else {
        StrideShift(p, n);
      }
    }
  }

  lemma AsTextAppend(x: seq<string>, y: seq<string>)
    ensures AsText(x + y) == AsText(x) + AsText(y)
  {
  }

  /** The names after the first component are its strings. */
  lemma FirstPiece(cs: seq<seq<Atom>>)
    requires |cs| >= 1
    ensures Cartesian(Pieces(cs)[..1]) == Strs(cs[0])
  {
  }

  /** Each later component adds one extension step by its tagged entries. */
  lemma NextPiece(cs: seq<seq<Atom>>, ii: int)
    requires 1 <= ii < |cs|
    ensures Cartesian(Pieces(cs)[..ii + 1]) == Extend(Cartesian(Pieces(cs)[..ii]), Tagged(cs[ii]))
  {
    CartesianSnoc(Pieces(cs), ii);
  }

  /** The list the outer loop holds once components `0 .. ii-1` are used: the first
      component itself, then the product of the pieces so far as text. */
  function Built(cs: seq<seq<Atom>>, ii: int): seq<Atom>
    requires 1 <= ii <= |cs|
  {
    if ii == 1 then cs[0] else AsText(Cartesian(Pieces(cs)[..ii]))
  }

  /** The loop got past its first concatenations: no number in the first component, or
      nothing concatenated to it. */
  predicate Clean(cs: seq<seq<Atom>>, ii: int)
    requires 1 <= ii <= |cs|
  {
    ii > 1 ==> !HasNumber(cs[0]) || |cs[1]| == 0
  }

  /** A failed pass is the TypeError the specification names. */
  lemma StepFails(cs: seq<seq<Atom>>, ii: int, ext: string)
    requires 1 <= ii < |cs| && Clean(cs, ii)
    requires |Tagged(cs[ii])| > 0 && HasNumber(Built(cs, ii))
    ensures FileListSpec(cs, ext) == Failure(BadConcat)
  {
    if ii > 1 {
      TextRoundTrip(Cartesian(Pieces(cs)[..ii]));
    }
  }

  /** A pass that succeeds moves the loop on by one component. */
  lemma StepBuilds(cs: seq<seq<Atom>>, ii: int)
    requires 1 <= ii < |cs| && Clean(cs, ii)
    requires !(|Tagged(cs[ii])| > 0 && HasNumber(Built(cs, ii)))
    ensures AsText(Extend(Strs(Built(cs, ii)), Tagged(cs[ii]))) == Built(cs, ii + 1)
    ensures Clean(cs, ii + 1)
  {
    if ii > 1 {
      TextRoundTrip(Cartesian(Pieces(cs)[..ii]));
    } else {
      FirstPiece(cs);
    }
    NextPiece(cs, ii);
  }

  /** After the loop: a number left in the list fails at the extension, and otherwise the
      names are the specified product. */
  lemma Finished(cs: seq<seq<Atom>>, ext: string)
    requires |cs| >= 1 && Clean(cs, |cs|)
    ensures HasNumber(Built(cs, |cs|)) ==> FileListSpec(cs, ext) == Failure(BadConcat)
    ensures !HasNumber(Built(cs, |cs|)) ==>
              FileListSpec(cs, ext) == Success(WithExt(Strs(Built(cs, |cs|)), ext))
  {
    if |cs| > 1 {
      TextRoundTrip(Cartesian(Pieces(cs)[..|cs|]));
    } else {
      FirstPiece(cs);
    }
    assert Pieces(cs)[..|cs|] == Pieces(cs);
  }

  /** file_list_from_components. */
  method FileListFromComponents(components: seq<seq<Atom>>, fileExt: string, joinStr: string)
    returns (r: Result<seq<string>, Error>)
    ensures r == FileListSpec(components, fileExt)
  {
    if |components| == 0 {
      return Failure(IndexError);
    }
    var fileList := components[0];
    var ii := 1;
    while ii < |components|
      invariant 1 <= ii <= |components|
      invariant fileList == Built(components, ii) && Clean(components, ii)
    {
      var step := ExtendNames(fileList, Tagged(components[ii]));
      if step.Failure? {
        StepFails(components, ii, fileExt);
        return Failure(step.error);
      }
      StepBuilds(components, ii);
      fileList := step.value;
      ii := ii + 1;
    }
    Finished(components, fileExt);
    if HasNumber(fileList) {
      return Failure(BadConcat);
    }
    return Success(WithExt(Strs(fileList), fileExt));
  }

  // ---------------------------------------------------------------------------------------
  // Properties of the names

  /** Component lists of the same lengths give products of the same size. */
  lemma {:induction false} CountOfPieces(ps: seq<seq<string>>, cs: seq<seq<Atom>>)
    requires |ps| == |cs| && forall k :: 0 <= k < |cs| ==> |ps[k]| == |cs[k]|
    ensures Count(ps) == NumberOfNames(cs)
  {
    if cs != [] {
      CountOfPieces(ps[1..], cs[1..]);
    }
  }

  /** There are `np.prod(n_subcomponents)` names, one per choice of an entry from each
      component, in lexicographic order with the last component varying fastest, and each
      ends in `.` and the extension. */
  lemma Names(cs: seq<seq<Atom>>, ext: string)
    requires FileListSpec(cs, ext).Success?
    ensures var names := FileListSpec(cs, ext).value;
            |names| == NumberOfNames(cs) &&
            names == WithExt(Lexicographic(Pieces(cs)), ext) &&
            forall i :: 0 <= i < |names| ==> EndsWith(names[i], "." + ext)
  {
    var ps := Pieces(cs);
    CartesianLength(ps);
    CartesianIsLexicographic(ps);
    CountOfPieces(ps, cs);
    WithExtEnds(Cartesian(ps), ext);
  }

  /** Every name given the extension ends in `.` and the extension. */
  lemma WithExtEnds(xs: seq<string>, ext: string)
    ensures forall i :: 0 <= i < |xs| ==> EndsWith(WithExt(xs, ext)[i], "." + ext)
  {
    forall i | 0 <= i < |xs|
      ensures EndsWith(WithExt(xs, ext)[i], "." + ext)
    {
      assert WithExt(xs, ext)[i] == xs[i] + ("." + ext);
    }
  }

  predicate EndsWith(s: string, suffix: string)
  {
    |suffix| <= |s| && s[|s| - |suffix|..] == suffix
  }

  /** An empty component leaves no names at all. */
  lemma EmptyComponent(cs: seq<seq<Atom>>, ext: string, k: int)
    requires 0 <= k < |cs| && cs[k] == [] && FileListSpec(cs, ext).Success?
    ensures FileListSpec(cs, ext).value == []
  {
    var ps := Pieces(cs);
    assert ps[k] == [];
    CartesianIsLexicographic(ps);
    LexicographicLength(ps);
  }

  /** Numbers are accepted in every component but the first: there they reach a
      concatenation unconverted, unless the second component is empty. */
  lemma NumbersOnlyLater(cs: seq<seq<Atom>>, ext: string)
    requires |cs| >= 1
    ensures HasNumber(cs[0]) && (|cs| == 1 || cs[1] != []) ==> FileListSpec(cs, ext) == Failure(BadConcat)
    ensures !HasNumber(cs[0]) ==> FileListSpec(cs, ext).Success?
  {
  }

  /** The two-component example of the docstring: six names, the last component varying
      fastest. */
  lemma TwoComponentExample()
    ensures FileListSpec([[Text("a"), Text("b")], [Number(1), Number(2), Number(3)]], "nc")
            == Success(["a_1.nc", "a_2.nc", "a_3.nc", "b_1.nc", "b_2.nc", "b_3.nc"])
  {
    var cs := [[Text("a"), Text("b")], [Number(1), Number(2), Number(3)]];
    ExampleFirst();
    ExampleNumbers();
    var ps := Pieces(cs);
    assert ps == [["a", "b"], ["_1", "_2", "_3"]];
    ExampleProduct();
    ExampleTwoExtension();
  }

  lemma ExampleTwoExtension()
    ensures WithExt(["a_1", "a_2", "a_3", "b_1", "b_2", "b_3"], "nc")
            == ["a_1.nc", "a_2.nc", "a_3.nc", "b_1.nc", "b_2.nc", "b_3.nc"]
  {
    var names := WithExt(["a_1", "a_2", "a_3", "b_1", "b_2", "b_3"], "nc");
    assert names[0] == "a_1.nc" && names[1] == "a_2.nc" && names[2] == "a_3.nc";
    assert names[3] == "b_1.nc" && names[4] == "b_2.nc" && names[5] == "b_3.nc";
  }

  /** With the docstring's third component `['A']` every name also carries `_A`. */
  lemma ThreeComponentExample()
    ensures FileListSpec([[Text("a"), Text("b")], [Number(1), Number(2), Number(3)], [Text("A")]], "nc")
            == Success(["a_1_A.nc", "a_2_A.nc", "a_3_A.nc", "b_1_A.nc", "b_2_A.nc", "b_3_A.nc"])
  {
    var cs := [[Text("a"), Text("b")], [Number(1), Number(2), Number(3)], [Text("A")]];
    ExampleFirst();
    var ps := Pieces(cs);
    ExamplePieces();
    CartesianSnoc(ps, 2);
    assert ps[..3] == ps;
    ExampleProduct();
    ExampleThird();
    var names := WithExt(["a_1_A", "a_2_A", "a_3_A", "b_1_A", "b_2_A", "b_3_A"], "nc");
    assert names[0] == "a_1_A.nc" && names[1] == "a_2_A.nc" && names[2] == "a_3_A.nc";
    assert names[3] == "b_1_A.nc" && names[4] == "b_2_A.nc" && names[5] == "b_3_A.nc";
    assert names == ["a_1_A.nc", "a_2_A.nc", "a_3_A.nc", "b_1_A.nc", "b_2_A.nc", "b_3_A.nc"];
  }

  lemma ExamplePieces()
    ensures var ps := Pieces([[Text("a"), Text("b")], [Number(1), Number(2), Number(3)], [Text("A")]]);
            ps[..2] == [["a", "b"], ["_1", "_2", "_3"]] && ps[2] == ["_A"]
  {
    ExampleFirst();
    ExampleNumbers();
    assert Tagged([Text("A")])[0] == "_" + "A" == "_A";
  }

  lemma ExampleThird()
    ensures Extend(["a_1", "a_2", "a_3", "b_1", "b_2", "b_3"], ["_A"])
            == ["a_1_A", "a_2_A", "a_3_A", "b_1_A", "b_2_A", "b_3_A"]
  {
    var two := ["a_1", "a_2", "a_3", "b_1", "b_2", "b_3"];
    var three := Extend(two, ["_A"]);
    ExtendLength(two, ["_A"]);
    forall p | 0 <= p < 6
      ensures three[p] == two[p] + "_A"
    {
      ExtendIndex(two, ["_A"], p);
    }
    assert three[0] == "a_1_A" && three[1] == "a_2_A" && three[2] == "a_3_A";
    assert three[3] == "b_1_A" && three[4] == "b_2_A" && three[5] == "b_3_A";
  }

  lemma ExampleFirst()
    ensures !HasNumber([Text("a"), Text("b")]) && Strs([Text("a"), Text("b")]) == ["a", "b"]
  {
  }

  lemma ExampleNumbers()
    ensures Tagged([Number(1), Number(2), Number(3)]) == ["_1", "_2", "_3"]
  {
    var t := Tagged([Number(1), Number(2), Number(3)]);
    assert t[0] == "_" + Str(Number(1)) == "_1";
    assert t[1] == "_2" && t[2] == "_3";
  }

  lemma ExampleProduct()
    ensures Cartesian([["a", "b"], ["_1", "_2", "_3"]]) == ["a_1", "a_2", "a_3", "b_1", "b_2", "b_3"]
  {
    var c := ["_1", "_2", "_3"];
    var t := Prefixed("a", c);
    assert t[0] == "a_1" && t[1] == "a_2" && t[2] == "a_3";
    var u := Prefixed("b", c);
    assert u[0] == "b_1" && u[1] == "b_2" && u[2] == "b_3";
    assert Extend(["b"], c) == u + Extend([], c);
    assert ["a", "b"][1..] == ["b"];
  }
}

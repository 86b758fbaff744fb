/** The cartesian product of name components, as _iterate_list and the component loops of
    _make_files_from_components build it (cloudbatch/cdsbatch.py:145-170,
    gsbatch/gsbatch.py:108-133) and as file_list_from_components builds it before adding
    separators and extensions (cloudbatch/filemaker.py:25-57). */
module Products {
  import opened Wrappers
  import opened PyOps

  // ---------------------------------------------------------------------------------------
  // Specification

  /** `x` followed by each entry of `c`, in order. */
  function Prefixed(x: string, c: seq<string>): seq<string>
  {
    seq(|c|, j requires 0 <= j < |c| => x + c[j])
  }

  /** One step of the component loop: every name of `xs` extended by every entry of `c`,
      the entries of `c` varying fastest. */
  function Extend(xs: seq<string>, c: seq<string>): seq<string>
  {
    if xs == [] then [] else Prefixed(xs[0], c) + Extend(xs[1..], c)
  }

  /** What the loops compute: the first component extended by each later one in turn. */
  function Cartesian(cs: seq<seq<string>>): seq<string>
    requires |cs| >= 1
  {
    if |cs| == 1 then cs[0] else Extend(Cartesian(cs[..|cs| - 1]), cs[|cs| - 1])
  }

  /** The product of the first `ii + 1` components extends the product of the first `ii`. */
  lemma CartesianSnoc(cs: seq<seq<string>>, ii: int)
    requires 1 <= ii < |cs|
    ensures Cartesian(cs[..ii + 1]) == Extend(Cartesian(cs[..ii]), cs[ii])
  {
    assert cs[..ii + 1][..ii] == cs[..ii];
  }

  /** The lexicographic product, defined from the front: each entry of the first component,
      in order, followed by every name made from the remaining components. */
  function Lexicographic(cs: seq<seq<string>>): seq<string>
  {
    if cs == [] then [""] else Extend(cs[0], Lexicographic(cs[1..]))
  }

  /** The product of the component lengths (`np.prod` of `n_subcomponents`). */
  function Count(cs: seq<seq<string>>): nat
  {
    if cs == [] then 1 else |cs[0]| * Count(cs[1..])
  }

  /** What `_iterate_list(inlist, it)` returns: each entry repeated `it` times in a row, and
      nothing when `it` is not positive. */
  function Repeat<T>(xs: seq<T>, it: int): seq<T>
  {
    if xs == [] || it <= 0 then [] else seq(it, _ => xs[0]) + Repeat(xs[1..], it)
  }

  // ---------------------------------------------------------------------------------------
  // Properties of the specification

  lemma {:induction false} ExtendLength(xs: seq<string>, c: seq<string>)
    ensures |Extend(xs, c)| == |xs| * |c|
  {
    if xs != [] {
      ExtendLength(xs[1..], c);
      assert |xs| * |c| == |c| + (|xs| - 1) * |c|;
    }
  }

  /** Entry `p` of one extension step is name `p / |c|` of `xs` followed by entry
      `p % |c|` of `c`: the last component varies fastest. */
  lemma {:induction false} ExtendIndex(xs: seq<string>, c: seq<string>, p: int)
    requires 0 <= p < |xs| * |c|
    ensures |c| > 0 && p / |c| < |xs| && p < |Extend(xs, c)|
    ensures Extend(xs, c)[p] == xs[p / |c|] + c[p % |c|]
  {
    var n := |c|;
    ExtendLength(xs, c);
    if p < n {
      StrideDiv(0, p, n);
    } else {
      ExtendLength(xs[1..], c);
      assert p - n < (|xs| - 1) * n;
      ExtendIndex(xs[1..], c, p - n);
      StrideShift(p, n);
    }
  }

  /** `(k * d + i) / d == k` and `(k * d + i) % d == i` for `0 <= i < d`. */
  lemma StrideDiv(k: int, i: int, d: int)
    requires 0 <= i < d
    ensures (k * d + i) / d == k && (k * d + i) % d == i
  {
    var a := k * d + i;
    assert a == d * k + i;
    DivisionUnique(a, d, k, i);
    assert FloorDiv(a, d) == a / d;
  }

  /** Stepping back one block of `d` lowers the quotient by one and keeps the remainder. */
  lemma StrideShift(p: int, d: int)
    requires 0 < d <= p
    ensures (p - d) / d + 1 == p / d && (p - d) % d == p % d
  {
    var q, r := (p - d) / d, (p - d) % d;
    assert p - d == q * d + r && 0 <= r < d;
    assert p == (q + 1) * d + r;
    StrideDiv(q + 1, r, d);
  }

  lemma {:induction false} RepeatLength<T>(xs: seq<T>, it: int)
    ensures it > 0 ==> |Repeat(xs, it)| == |xs| * it
    ensures it <= 0 ==> Repeat(xs, it) == []
  {
    if xs != [] && it > 0 {
      RepeatLength(xs[1..], it);
      assert |xs| * it == it + (|xs| - 1) * it;
    }
  }

  /** The repetition law of _iterate_list: entry `k * it + i` is `inlist[k]`, so entry `p` is
      `inlist[p / it]`. */
  lemma {:induction false} RepeatIndex<T>(xs: seq<T>, it: int, p: int)
    requires it > 0 && 0 <= p < |xs| * it
    ensures p / it < |xs| && |Repeat(xs, it)| == |xs| * it
    ensures Repeat(xs, it)[p] == xs[p / it]
  {
    RepeatLength(xs, it);
    if p < it {
      StrideDiv(0, p, it);
    } else {
      RepeatLength(xs[1..], it);
      assert p - it < (|xs| - 1) * it;
      RepeatIndex(xs[1..], it, p - it);
      StrideShift(p, it);
    }
  }

  /** One extension step is the repeated names with the component's entries added
      cyclically, which is how the loop body computes it. */
  lemma ExtendByRepeat(xs: seq<string>, c: seq<string>, p: int)
    requires 0 <= p < |xs| * |c|
    ensures |c| > 0 && p < |Repeat(xs, |c|)| && p < |Extend(xs, c)|
    ensures Extend(xs, c)[p] == Repeat(xs, |c|)[p] + c[p % |c|]
  {
    ExtendIndex(xs, c, p);
    RepeatIndex(xs, |c|, p);
  }

  lemma {:induction false} ExtendAppend(u: seq<string>, v: seq<string>, c: seq<string>)
    ensures Extend(u + v, c) == Extend(u, c) + Extend(v, c)
  {
    if u != [] {
      assert (u + v)[1..] == u[1..] + v;
      ExtendAppend(u[1..], v, c);
    } else {
      assert u + v == v;
    }
  }

  lemma PrefixedAppend(x: string, u: seq<string>, v: seq<string>)
    ensures Prefixed(x, u + v) == Prefixed(x, u) + Prefixed(x, v)
  {
  }

  lemma PrefixedTwice(x: string, y: string, c: seq<string>)
    ensures Prefixed(x + y, c) == Prefixed(x, Prefixed(y, c))
  {
    assert forall j :: 0 <= j < |c| ==> (x + y) + c[j] == x + (y + c[j]);
  }

  /** Extending every name that starts with `x` is the same as prefixing `x` to the
      extended names. */
  lemma {:induction false} PrefixedExtend(x: string, b: seq<string>, c: seq<string>)
    ensures Extend(Prefixed(x, b), c) == Prefixed(x, Extend(b, c))
  {
    if b != [] {
      var rest := Prefixed(x, b[1..]);
      assert Prefixed(x, b) == [x + b[0]] + rest;
      ExtendAppend([x + b[0]], rest, c);
      assert Extend([x + b[0]], c) == Prefixed(x + b[0], c);
      PrefixedExtend(x, b[1..], c);
      PrefixedTwice(x, b[0], c);
      PrefixedAppend(x, Prefixed(b[0], c), Extend(b[1..], c));
    }
  }

  /** Extension steps associate. */
  lemma {:induction false} ExtendAssociates(a: seq<string>, b: seq<string>, c: seq<string>)
    ensures Extend(Extend(a, b), c) == Extend(a, Extend(b, c))
  {
    if a != [] {
      ExtendAppend(Prefixed(a[0], b), Extend(a[1..], b), c);
      PrefixedExtend(a[0], b, c);
      ExtendAssociates(a[1..], b, c);
    }
  }

  /** Extending by the empty name changes nothing. */
  lemma {:induction false} ExtendByEmptyName(xs: seq<string>)
    ensures Extend(xs, [""]) == xs
  {
    if xs != [] {
      ExtendByEmptyName(xs[1..]);
      assert xs[0] + "" == xs[0];
      assert Prefixed(xs[0], [""]) == [xs[0]];
    }
  }

  lemma PrefixedEmptyName(c: seq<string>)
    ensures Extend([""], c) == c
  {
    assert forall j :: 0 <= j < |c| ==> "" + c[j] == c[j];
    assert Prefixed("", c) == c;
  }

  /** Adding a component at the end of the lexicographic product is one extension step. */
  lemma {:induction false} LexicographicSnoc(a: seq<seq<string>>, c: seq<string>)
    ensures Lexicographic(a + [c]) == Extend(Lexicographic(a), c)
  {
    if a == [] {
      assert [] + [c] == [c];
      ExtendByEmptyName(c);
      PrefixedEmptyName(c);
    } else {
      assert (a + [c])[1..] == a[1..] + [c];
      LexicographicSnoc(a[1..], c);
      ExtendAssociates(a[0], Lexicographic(a[1..]), c);
    }
  }

  /** The component loops build the cartesian product in lexicographic order, the last
      component varying fastest. */
  lemma {:induction false} CartesianIsLexicographic(cs: seq<seq<string>>)
    requires |cs| >= 1
    ensures Cartesian(cs) == Lexicographic(cs)
  {
    if |cs| == 1 {
      ExtendByEmptyName(cs[0]);
    } else {
      var init, last := cs[..|cs| - 1], cs[|cs| - 1];
      CartesianIsLexicographic(init);
      LexicographicSnoc(init, last);
      assert init + [last] == cs;
    }
  }

  /** The product has one name per choice of entries: its length is the product of the
      component lengths, so an empty component gives no names. */
  lemma {:induction false} LexicographicLength(cs: seq<seq<string>>)
    ensures |Lexicographic(cs)| == Count(cs)
    ensures (exists k :: 0 <= k < |cs| && cs[k] == []) ==> Lexicographic(cs) == []
  {
    if cs != [] {
      LexicographicLength(cs[1..]);
      ExtendLength(cs[0], Lexicographic(cs[1..]));
      if cs[0] != [] && exists k :: 0 <= k < |cs| && cs[k] == [] {
        var k :| 0 <= k < |cs| && cs[k] == [];
        assert cs[1..][k - 1] == [];
      }
    }
  }

  /** `Cartesian` has the product length too. */
  lemma CartesianLength(cs: seq<seq<string>>)
    requires |cs| >= 1
    ensures |Cartesian(cs)| == Count(cs)
  {
    CartesianIsLexicographic(cs);
    LexicographicLength(cs);
  }

  // ---------------------------------------------------------------------------------------
  // The loops

  /** _iterate_list: a list of `it * len(inlist)` blanks, then `inlist` written into every
      `it`-th slot starting at offset `ii`, for each offset `ii` in turn. */
  method IterateList<T>(inlist: seq<T>, it: int, blank: T) returns (r: seq<T>)
    ensures r == Repeat(inlist, it)
  {
    var n := |inlist|;
    if it <= 0 {
      RepeatLength(inlist, it);
      return [];
    }
    var a := new T[it * n](_ => blank);
    SlotsDecode(it);
    var ii := 0;
    while ii < it
      invariant 0 <= ii <= it
      invariant forall k, i :: 0 <= k < n && 0 <= i < ii ==>
                  0 <= Slot(k, i, it) < a.Length && a[Slot(k, i, it)] == inlist[k]
    {
      var k := 0;
      while k < n
        invariant 0 <= k <= n
        invariant forall k', i :: 0 <= k' < n && 0 <= i < ii ==>
                    0 <= Slot(k', i, it) < a.Length && a[Slot(k', i, it)] == inlist[k']
        invariant forall k' :: 0 <= k' < k ==>
                    0 <= Slot(k', ii, it) < a.Length && a[Slot(k', ii, it)] == inlist[k']
      {
        SlotBound(k, ii, it, n);
        a[Slot(k, ii, it)] := inlist[k];
        k := k + 1;
      }
      ii := ii + 1;
    }
    r := a[..];
    RepeatLength(inlist, it);
    forall p | 0 <= p < |r|
      ensures r[p] == Repeat(inlist, it)[p]
    {
      RepeatIndex(inlist, it, p);
      SlotOf(p, it);
    }
  }

  /** Slot `i` of block `k` when blocks have `it` slots. */
  function Slot(k: int, i: int, it: int): int
  {
    k * it + i
  }

  /** A slot determines its block and its offset. */
  lemma SlotsDecode(it: int)
    requires it > 0
    ensures forall k, i :: 0 <= i < it ==> Slot(k, i, it) / it == k && Slot(k, i, it) % it == i
  {
    forall k, i | 0 <= i < it
      ensures Slot(k, i, it) / it == k && Slot(k, i, it) % it == i
    {
      StrideDiv(k, i, it);
    }
  }

  /** Every position is the slot of its quotient and remainder. */
  lemma SlotOf(p: int, it: int)
    requires it > 0
    ensures 0 <= p % it < it && p == Slot(p / it, p % it, it)
  {
  }

  /** Slot `k * it + ii` lies inside a list of `it * n` entries. */
  lemma SlotBound(k: int, ii: int, it: int, n: int)
    requires 0 <= k < n && 0 <= ii < it
    ensures 0 <= Slot(k, ii, it) < it * n
  {
    MulLess(k, n, it);
    if k > 0 {
      MulLess(0, k, it);
    }
    assert k * it == it * k;
  }

  /** The component loop of _make_files_from_components: start from the first component,
      then for each later one repeat the names and add its entries cyclically. Raises
      IndexError on an empty list of components. */
  method MakeFilesFromComponents(components: seq<seq<string>>) returns (r: Result<seq<string>, Error>)
    ensures components == [] ==> r == Failure(IndexError)
    ensures components != [] ==> r == Success(Cartesian(components))
  {
    if |components| == 0 {
      return Failure(IndexError);
    }
    var tmpList := components[0];
    var ii := 1;
    while ii < |components|
      invariant 1 <= ii <= |components|
      invariant tmpList == Cartesian(components[..ii])
    {
      var c := components[ii];
      var prev := tmpList;
      tmpList := AddComponent(prev, c);
      assert components[..ii + 1][..ii] == components[..ii];
      ii := ii + 1;
    }
    assert components[..|components|] == components;
    return Success(tmpList);
  }

  /** One pass of the outer loop: `_iterate_list` and then the in-place update
      `tmp_list[jj] = tmp_list[jj] + c_ii[jj % n_ii]`. */
  method AddComponent(xs: seq<string>, c: seq<string>) returns (r: seq<string>)
    ensures r == Extend(xs, c)
  {
    var n := |c|;
    var repeated := IterateList(xs, n, "");
    var a := new string[|repeated|](p requires 0 <= p < |repeated| => repeated[p]);
    var jj := 0;
    while jj < a.Length
      invariant 0 <= jj <= a.Length
      invariant forall p :: 0 <= p < a.Length ==>
                  a[p] == if p < jj then repeated[p] + c[p % n] else repeated[p]
    {
      assert n > 0 by {
        RepeatLength(xs, n);
      }
      a[jj] := a[jj] + c[jj % n];
      jj := jj + 1;
    }
    r := a[..];
    RepeatLength(xs, n);
    ExtendLength(xs, c);
    forall p | 0 <= p < |r|
      ensures r[p] == Extend(xs, c)[p]
    {
      ExtendByRepeat(xs, c, p);
    }
  }
}

/** The parts of Python's `os.path` (POSIX flavour) that name staged and joined files. */
module PyPath {

  /** `'*' in path`: the test that marks a path as a wildcard pattern. */
  predicate HasStar(p: string)
  {
    '*' in p
  }

  /** `os.path.join(a, b)`: an absolute `b` replaces `a`; otherwise `b` is appended, with a
      `'/'` in between unless `a` is empty or already ends with one. */
  function Join(a: string, b: string): (r: string)
    ensures |b| <= |r| && r[|r| - |b|..] == b
    ensures (|b| == 0 || b[0] != '/') ==> |a| <= |r| && r[..|a|] == a
  {
    if |b| > 0 && b[0] == '/' then b
    else if a == [] || a[|a| - 1] == '/' then a + b
    else a + "/" + b
  }

  /** `os.path.basename(p)`, i.e. `p[p.rfind('/') + 1:]`: the longest suffix of `p` that
      holds no `'/'`. */
  function Basename(p: string): (b: string)
    ensures '/' !in b
    ensures |b| <= |p| && b == p[|p| - |b|..]
    ensures |b| < |p| ==> p[|p| - |b| - 1] == '/'
  {
    if p == [] then []
    else if p[|p| - 1] == '/' then []
    else Basename(p[..|p| - 1]) + [p[|p| - 1]]
  }

  /** A name without `'/'` placed after a directory prefix (empty, or ending in `'/'`) is
      the basename of the result. */
  lemma {:induction false} BasenameAfterDirectory(d: string, b: string)
    requires '/' !in b
    requires d == [] || d[|d| - 1] == '/'
    ensures Basename(d + b) == b
  {
    if b == [] {
      assert d + b == d;
    } else {
      var init := b[..|b| - 1];
      assert (d + b)[..|d + b| - 1] == d + init;
      assert '/' !in init by {
        forall k | 0 <= k < |init| ensures init[k] != '/' { assert init[k] == b[k]; }
      }
      BasenameAfterDirectory(d, init);
      assert init + [b[|b| - 1]] == b;
    }
  }

  /** Joining a directory with a basename gives a path whose basename is that name: a staged
      copy keeps the file name of its source. */
  lemma JoinKeepsName(dir: string, f: string)
    ensures Basename(Join(dir, Basename(f))) == Basename(f)
  {
    var b := Basename(f);
    if |b| > 0 && b[0] == '/' {
      assert false;
    } else if dir == [] || dir[|dir| - 1] == '/' {
      BasenameAfterDirectory(dir, b);
    } else {
      var d := dir + "/";
      assert d[|d| - 1] == '/';
      BasenameAfterDirectory(d, b);
      assert dir + "/" + b == d + b;
    }
  }
}

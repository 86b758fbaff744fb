/** The `gsutil` copy command lines that get_batch and put_batch hand to the shell.
    Running them is not modelled; only the text is. */
module Commands {

  /** `' ' + f` for every file, in order. */
  function Spaced(files: seq<string>): string
  {
    if files == [] then "" else Spaced(files[..|files| - 1]) + " " + files[|files| - 1]
  }

  const Gsutil: string := "gsutil"
  const Dash: string := "-m"
  const Cp: string := "cp"
  const CopyPrefix: string := "gsutil -m cp "

  /** `'gsutil -m cp '`, then `' ' + f` per file, then `' ' + dest`. */
  function CopyCommand(files: seq<string>, dest: string): string
  {
    CopyPrefix + Spaced(files) + " " + dest
  }

  /** `s.split(' ')`: the pieces between single spaces, empty pieces included. */
  function Split(s: string): (w: seq<string>)
    ensures |w| >= 1
  {
    if s == [] then [""]
    else if s[|s| - 1] == ' ' then Split(s[..|s| - 1]) + [""]
    else
      var v := Split(s[..|s| - 1]);
      v[..|v| - 1] + [v[|v| - 1] + [s[|s| - 1]]]
  }

  predicate NoSpace(s: string)
  {
    ' ' !in s
  }

  lemma {:induction false} SplitWord(s: string)
    requires NoSpace(s)
    ensures Split(s) == [s]
  {
    if s != [] {
      var init := s[..|s| - 1];
      assert NoSpace(init) by {
        forall k | 0 <= k < |init| ensures init[k] != ' ' { assert init[k] == s[k]; }
      }
      SplitWord(init);
      assert init + [s[|s| - 1]] == s;
    }
  }

  /** A non-empty sequence is its front followed by its last element. */
  lemma Snoc<T>(s: seq<T>)
    requires |s| > 0
    ensures s[..|s| - 1] + [s[|s| - 1]] == s
  {
  }

  /** Splitting at one space splits the two sides independently. */
  lemma {:induction false} SplitAtSpace(x: string, y: string)
    ensures Split(x + " " + y) == Split(x) + Split(y)
  {
    var s := x + " " + y;
    if y == [] {
      assert s[..|s| - 1] == x && s[|s| - 1] == ' ' by {
        assert s == x + [' '];
      }
    } else {
      var init := y[..|y| - 1];
      var c := y[|y| - 1];
      assert s[..|s| - 1] == x + " " + init && s[|s| - 1] == c by {
        assert s == (x + " " + init) + [c];
      }
      SplitAtSpace(x, init);
      var v := Split(x + " " + init);
      var u := Split(init);
      if c == ' ' {
        assert Split(s) == v + [""];
        assert Split(y) == u + [""];
      } else {
        assert Split(s) == v[..|v| - 1] + [v[|v| - 1] + [c]];
        assert Split(y) == u[..|u| - 1] + [u[|u| - 1] + [c]];
        assert v[..|v| - 1] == Split(x) + u[..|u| - 1] && v[|v| - 1] == u[|u| - 1] by {
          assert v == Split(x) + u;
        }
      }
    }
  }

  /** Three space-free words, each followed by one space, split into those words and one
      empty piece. */
  lemma SplitHead(a: string, b: string, c: string)
    requires NoSpace(a) && NoSpace(b) && NoSpace(c)
    ensures Split(a + " " + b + " " + c + " ") == [a, b, c, ""]
  {
    SplitWord(a);
    SplitWord(b);
    SplitWord(c);
    SplitWord("");
    SplitAtSpace(a, b);
    SplitAtSpace(a + " " + b, c);
    SplitAtSpace(a + " " + b + " " + c, "");
    assert a + " " + b + " " + c + " " == a + " " + b + " " + c + " " + "";
  }

  /** `'gsutil -m cp '` splits into its three words and one empty piece. */
  lemma CommandHead()
    ensures Split(CopyPrefix) == ["gsutil", "-m", "cp", ""]
  {
    assert CopyPrefix == Gsutil + " " + Dash + " " + Cp + " ";
    SplitHead(Gsutil, Dash, Cp);
  }

  lemma {:induction false} SplitSpaced(files: seq<string>)
    requires forall k :: 0 <= k < |files| ==> NoSpace(files[k])
    ensures Split(CopyPrefix + Spaced(files)) == ["gsutil", "-m", "cp", ""] + files
  {
    if files == [] {
      assert CopyPrefix + Spaced(files) == "gsutil -m cp ";
      CommandHead();
    } else {
      var init := files[..|files| - 1];
      var f := files[|files| - 1];
      assert forall k :: 0 <= k < |init| ==> NoSpace(init[k]) by {
        forall k | 0 <= k < |init| ensures NoSpace(init[k]) { assert init[k] == files[k]; }
      }
      SplitSpaced(init);
      var head := CopyPrefix + Spaced(init);
      assert CopyPrefix + Spaced(files) == head + " " + f by {
        assert Spaced(files) == Spaced(init) + " " + f;
      }
      SplitAtSpace(head, f);
      SplitWord(f);
      Snoc(files);
      assert ["gsutil", "-m", "cp", ""] + init + [f] == ["gsutil", "-m", "cp", ""] + (init + [f]);
    }
  }

  /** The command line names exactly the window's files, in order, then the destination,
      once no file name holds a space (the leading double space leaves one empty piece). */
  lemma CopyCommandWords(files: seq<string>, dest: string)
    requires forall k :: 0 <= k < |files| ==> NoSpace(files[k])
    requires NoSpace(dest)
    ensures Split(CopyCommand(files, dest)) == ["gsutil", "-m", "cp", ""] + files + [dest]
  {
    SplitSpaced(files);
    SplitAtSpace(CopyPrefix + Spaced(files), dest);
    SplitWord(dest);
  }
}

/** Go's `path` package on slash-separated paths: `Clean`, `Base` and `Join`,
    following the package's documented lexical rules. */
module GoPath {

  /** The pieces of `s` between slashes, empty ones included. */
  function Segments(s: string): (r: seq<string>)
    ensures |r| >= 1
    ensures forall i | 0 <= i < |r| :: '/' !in r[i]
    decreases |s|
  {
    if s == [] then [""]
    else
      var rest := Segments(s[1..]);
      if s[0] == '/' then [""] + rest else [[s[0]] + rest[0]] + rest[1..]
  }

  lemma {:induction false} SegmentsOfSlashFree(s: string)
    requires '/' !in s
    ensures Segments(s) == [s]
    decreases |s|
  {
    if s != [] {
      assert '/' !in s[1..] by {
        forall i | 0 <= i < |s[1..]| ensures s[1..][i] != '/' { assert s[1..][i] == s[i + 1]; }
      }
      SegmentsOfSlashFree(s[1..]);
      assert [s[0]] + s[1..] == s;
    }
  }

  /** Splitting at a slash splits the segments. */
  lemma {:induction false} SegmentsSplit(a: string, b: string)
    ensures Segments(a + "/" + b) == Segments(a) + Segments(b)
    decreases |a|
  {
    if a == [] {
      assert a + "/" + b == "/" + b;
      assert ("/" + b)[1..] == b;
    } else {
      var s := a + "/" + b;
      assert s[0] == a[0];
      assert s[1..] == a[1..] + "/" + b;
      SegmentsSplit(a[1..], b);
    }
  }

  /** An element Clean keeps as it stands: non-empty, no slash, neither "." nor "..". */
  predicate IsName(e: string) {
    e != "" && e != "." && e != ".." && '/' !in e
  }

  /** The shape of a fully cleaned element list: names and "..", every ".." before
      every name, and no ".." at all under the root. */
  predicate Canonical(st: seq<string>, rooted: bool) {
    && (forall i | 0 <= i < |st| :: IsName(st[i]) || (st[i] == ".." && !rooted))
    && (forall i, j | 0 <= i < j < |st| :: st[j] == ".." ==> st[i] == "..")
  }

  /** Clean's element processing, left to right: drop "" and ".", let ".." remove
      the previous name, keep a leading ".." on a relative path and drop it at the root. */
  function Resolve(st: seq<string>, segs: seq<string>, rooted: bool): (r: seq<string>)
    requires Canonical(st, rooted)
    requires forall i | 0 <= i < |segs| :: '/' !in segs[i]
    ensures Canonical(r, rooted)
    decreases |segs|
  {
    if segs == [] then st
    else
      var s := segs[0];
      if s == "" || s == "." then Resolve(st, segs[1..], rooted)
      else if s == ".." then
        if |st| > 0 && st[|st| - 1] != ".." then Resolve(st[..|st| - 1], segs[1..], rooted)
        else if rooted then Resolve(st, segs[1..], rooted)
        else Resolve(st + [".."], segs[1..], rooted)
      else Resolve(st + [s], segs[1..], rooted)
  }

  lemma {:induction false} ResolveAppend(st: seq<string>, xs: seq<string>, ys: seq<string>, rooted: bool)
    requires Canonical(st, rooted)
    requires forall i | 0 <= i < |xs| :: '/' !in xs[i]
    requires forall i | 0 <= i < |ys| :: '/' !in ys[i]
    ensures Resolve(st, xs + ys, rooted) == Resolve(Resolve(st, xs, rooted), ys, rooted)
    decreases |xs|
  {
    if xs == [] {
      assert xs + ys == ys;
    } else {
      assert (xs + ys)[0] == xs[0];
      assert (xs + ys)[1..] == xs[1..] + ys;
      var s := xs[0];
      if s == "" || s == "." {
        ResolveAppend(st, xs[1..], ys, rooted);
      } else if s == ".." {
        if |st| > 0 && st[|st| - 1] != ".." {
          ResolveAppend(st[..|st| - 1], xs[1..], ys, rooted);
        } else if rooted {
          ResolveAppend(st, xs[1..], ys, rooted);
        } else {
          ResolveAppend(st + [".."], xs[1..], ys, rooted);
        }
      } else {
        ResolveAppend(st + [s], xs[1..], ys, rooted);
      }
    }
  }

  /** A canonical list is a fixed point of Resolve. */
  lemma {:induction false} ResolveCanonical(st: seq<string>, xs: seq<string>, rooted: bool)
    requires Canonical(st + xs, rooted)
    ensures Canonical(st, rooted)
    ensures forall i | 0 <= i < |xs| :: '/' !in xs[i]
    ensures Resolve(st, xs, rooted) == st + xs
    decreases |xs|
  {
    assert forall i | 0 <= i < |xs| :: xs[i] == (st + xs)[|st| + i];
    assert forall i | 0 <= i < |st| :: st[i] == (st + xs)[i];
    if xs == [] {
      assert st + xs == st;
    } else {
      var s := xs[0];
      assert st + [s] + xs[1..] == st + xs;
      if s == ".." {
        assert forall i | 0 <= i < |st| :: st[i] == "..";
        assert |st| == 0 || st[|st| - 1] == "..";
        assert !rooted;
      }
      ResolveCanonical(st + [s], xs[1..], rooted);
    }
  }

  /** The elements separated by single slashes. */
  function Slashed(st: seq<string>): string
  {
    if st == [] then ""
    else if |st| == 1 then st[0]
    else Slashed(st[..|st| - 1]) + "/" + st[|st| - 1]
  }

  lemma {:induction false} SlashedShape(st: seq<string>, rooted: bool)
    requires Canonical(st, rooted) && st != []
    ensures Slashed(st) != "" && Slashed(st) != "." && Slashed(st)[0] != '/'
    ensures Segments(Slashed(st)) == st
    decreases |st|
  {
    if |st| == 1 {
      SegmentsOfSlashFree(st[0]);
    } else {
      var init := st[..|st| - 1];
      assert Canonical(init, rooted) by {
        assert forall i | 0 <= i < |init| :: init[i] == st[i];
      }
      SlashedShape(init, rooted);
      SegmentsSplit(Slashed(init), st[|st| - 1]);
      SegmentsOfSlashFree(st[|st| - 1]);
      assert init + [st[|st| - 1]] == st;
      assert Slashed(st)[0] == Slashed(init)[0];
    }
  }

  /** The path spelled by a resolved element list: "/" in front under the root,
      and "." for an empty relative path. */
  function Render(st: seq<string>, rooted: bool): (r: string)
    requires Canonical(st, rooted)
    ensures r != ""
    ensures rooted <==> r[0] == '/'
  {
    if st != [] then SlashedShape(st, rooted); (if rooted then "/" else "") + Slashed(st)
    else if rooted then "/" else "."
  }

  /** `path.Clean`: the shortest lexically equivalent path. "" becomes ".", a
      relative path that resolves to nothing becomes ".", the root stays "/". */
  function Clean(p: string): (r: string)
    ensures r != ""
    ensures (p != "" && p[0] == '/') <==> r[0] == '/'
  {
    if p == "" then "."
    else Render(Resolve([], Segments(p), p[0] == '/'), p[0] == '/')
  }

  lemma CleanRoot()
    ensures Clean("/") == "/"
  {
    assert "/" == "" + "/" + "";
    SegmentsSplit("", "");
    assert Segments("/") == ["", ""];
    assert Resolve([], ["", ""], true) == [];
  }

  lemma CleanDot()
    ensures Clean(".") == "."
  {
    SegmentsOfSlashFree(".");
    assert Resolve([], ["."], false) == [];
  }

  /** A rendered canonical list is already clean. */
  lemma CleanOfRender(st: seq<string>, rooted: bool)
    requires Canonical(st, rooted)
    ensures Clean(Render(st, rooted)) == Render(st, rooted)
  {
    if st == [] {
      if rooted { CleanRoot(); } else { CleanDot(); }
    } else if rooted {
      assert Render(st, rooted) == "/" + Slashed(st);
      CleanOfRootedSlashed(st);
    } else {
      assert Render(st, rooted) == Slashed(st);
      CleanOfRelativeSlashed(st);
    }
  }

  lemma CleanOfRootedSlashed(st: seq<string>)
    requires Canonical(st, true) && st != []
    ensures Clean("/" + Slashed(st)) == "/" + Slashed(st)
  {
    var j := Slashed(st);
    SlashedShape(st, true);
    ResolveCanonical([], st, true);
    assert [] + st == st;
    assert "/" + j == "" + "/" + j;
    SegmentsSplit("", j);
    assert Segments("/" + j) == [""] + st;
    assert Resolve([], [""] + st, true) == Resolve([], st, true);
    assert ("/" + j)[0] == '/';
  }

  lemma CleanOfRelativeSlashed(st: seq<string>)
    requires Canonical(st, false) && st != []
    ensures Clean(Slashed(st)) == Slashed(st)
  {
    SlashedShape(st, false);
    ResolveCanonical([], st, false);
    assert [] + st == st;
  }

  /** Cleaning a clean path changes nothing. */
  lemma CleanIdempotent(p: string)
    ensures Clean(Clean(p)) == Clean(p)
  {
    if p != "" {
      CleanOfRender(Resolve([], Segments(p), p[0] == '/'), p[0] == '/');
    } else {
      CleanDot();
    }
  }

  /** A single name is clean, and so is a single name under the root. */
  lemma CleanName(n: string)
    requires IsName(n)
    ensures Clean(n) == n
    ensures Clean("/" + n) == "/" + n
  {
    assert Canonical([n], false) && Canonical([n], true);
    assert Slashed([n]) == n;
    CleanOfRelativeSlashed([n]);
    CleanOfRootedSlashed([n]);
  }

  /** What Clean does to an element appended after a slash. */
  function Attach(dir: string, name: string): string
  {
    if dir == "." then name else if dir == "/" then "/" + name else dir + "/" + name
  }

  /** Appending a name to a path and cleaning appends the name to the cleaned path. */
  lemma CleanAppendName(d: string, n: string)
    requires d != "" && IsName(n)
    ensures Clean(d + "/" + n) == Attach(Clean(d), n)
  {
    var rooted := d[0] == '/';
    var p := d + "/" + n;
    assert p[0] == d[0];
    SegmentsSplit(d, n);
    SegmentsOfSlashFree(n);
    ResolveAppend([], Segments(d), [n], rooted);
    var st := Resolve([], Segments(d), rooted);
    assert Resolve(st, [n], rooted) == st + [n];
    assert Clean(p) == Render(st + [n], rooted);
    RenderSnoc(st, rooted, n);
  }

  lemma RenderSnoc(st: seq<string>, rooted: bool, n: string)
    requires Canonical(st, rooted) && IsName(n)
    ensures Canonical(st + [n], rooted)
    ensures Render(st + [n], rooted) == Attach(Render(st, rooted), n)
  {
    SnocCanonical(st, rooted, n);
    if st != [] {
      SlashedShape(st, rooted);
      SlashedSnoc(st, n);
      var j := Slashed(st);
      assert Render(st, rooted) == (if rooted then "/" else "") + j;
      assert Render(st + [n], rooted) == (if rooted then "/" else "") + (j + "/" + n);
    } else {
      assert st + [n] == [n];
    }
  }

  lemma SnocCanonical(st: seq<string>, rooted: bool, n: string)
    requires Canonical(st, rooted) && IsName(n)
    ensures Canonical(st + [n], rooted)
  {
    var st' := st + [n];
    assert forall i | 0 <= i < |st| :: st'[i] == st[i];
  }

  lemma SlashedSnoc(st: seq<string>, n: string)
    requires st != []
    ensures Slashed(st + [n]) == Slashed(st) + "/" + n
  {
    var st' := st + [n];
    assert st'[..|st|] == st;
  }

  /** Drops trailing slashes. */
  function TrimTrailingSlashes(s: string): (r: string)
    ensures |r| <= |s| && r == s[..|r|]
    ensures forall k | |r| <= k < |s| :: s[k] == '/'
    ensures r == [] || r[|r| - 1] != '/'
    decreases |s|
  {
    if s != [] && s[|s| - 1] == '/' then TrimTrailingSlashes(s[..|s| - 1]) else s
  }

  /** What follows the last slash. */
  function AfterLastSlash(s: string): (r: string)
    ensures |r| <= |s| && r == s[|s| - |r|..]
    ensures '/' !in r
    ensures |r| < |s| ==> s[|s| - |r| - 1] == '/'
    decreases |s|
  {
    if s == [] || s[|s| - 1] == '/' then ""
    else AfterLastSlash(s[..|s| - 1]) + [s[|s| - 1]]
  }

  /** `path.Base`: the last element, trailing slashes ignored; "." for the empty
      path and "/" for a path of slashes only. */
  function Base(p: string): (r: string)
    ensures r != ""
    ensures r == "/" || '/' !in r
    ensures p == "" ==> r == "."
    ensures p != "" && (forall k | 0 <= k < |p| :: p[k] == '/') ==> r == "/"
    ensures p != "" && '/' !in p ==> r == p
  {
    if p == "" then "."
    else
      var last := AfterLastSlash(TrimTrailingSlashes(p));
      if last == "" then "/" else last
  }

  lemma {:induction false} AfterLastSlashOfSuffix(d: string, n: string)
    requires '/' !in n
    ensures AfterLastSlash(d + "/" + n) == n
    decreases |n|
  {
    var s := d + "/" + n;
    if n == [] {
      assert s[|s| - 1] == '/';
    } else {
      assert s[|s| - 1] == n[|n| - 1];
      var init := n[..|n| - 1];
      assert s[..|s| - 1] == d + "/" + init;
      assert '/' !in init by {
        forall i | 0 <= i < |init| ensures init[i] != '/' { assert init[i] == n[i]; }
      }
      AfterLastSlashOfSuffix(d, init);
      assert init + [n[|n| - 1]] == n;
    }
  }

  /** The base of `d/n` is `n`, whatever `d` is. */
  lemma BaseOfSuffix(d: string, n: string)
    requires n != "" && '/' !in n
    ensures Base(d + "/" + n) == n
  {
    var s := d + "/" + n;
    assert s[|s| - 1] == n[|n| - 1];
    assert TrimTrailingSlashes(s) == s;
    AfterLastSlashOfSuffix(d, n);
  }

  /** Trailing slashes do not change the base: `Base("a/b/")` is `Base("a/b")`. */
  lemma BaseTrailingSlash(p: string)
    requires p != ""
    ensures Base(p + "/") == Base(p)
  {
    assert (p + "/")[..|p|] == p;
    assert TrimTrailingSlashes(p + "/") == TrimTrailingSlashes(p);
  }

  /** The buffer `path.Join` builds before cleaning: an empty element is skipped
      while the buffer is empty, otherwise each element is added after a slash. */
  function Glue(buf: string, elems: seq<string>): string
    decreases |elems|
  {
    if elems == [] then buf
    else
      var next := if buf == "" then elems[0] else buf + "/" + elems[0];
      Glue(next, elems[1..])
  }

  /** `path.Join`: "" when every element is empty, otherwise the cleaned glue. */
  function Join(elems: seq<string>): (r: string)
    ensures r == "" <==> forall i | 0 <= i < |elems| :: elems[i] == ""
    ensures r != "" ==> Clean(r) == r
  {
    if forall i | 0 <= i < |elems| :: elems[i] == "" then ""
    else
      var glued := Glue("", elems);
      CleanIdempotent(glued);
      Clean(glued)
  }

  /** Joining a directory and a name: the name ends up after the cleaned directory,
      so it is the base of the result. */
  lemma JoinDirName(d: string, n: string)
    requires IsName(n)
    ensures d != "" ==> Join([d, n]) == Attach(Clean(d), n)
    ensures d == "" ==> Join([d, n]) == n
    ensures Base(Join([d, n])) == n
  {
    assert Glue("", [d, n]) == Glue(if d == "" then "" else d, [n]);
    if d != "" {
      assert Glue(d, [n]) == d + "/" + n;
      CleanAppendName(d, n);
      var c := Clean(d);
      if c == "." {
      } else if c == "/" {
        assert "/" + n == "" + "/" + n;
        BaseOfSuffix("", n);
      } else {
        BaseOfSuffix(c, n);
      }
    } else {
      assert Glue("", [n]) == n;
      SegmentsOfSlashFree(n);
      assert n[0] != '/';
      assert Resolve([], [n], false) == [n];
    }
  }

  /** Joining "." with two names drops the dot. */
  lemma JoinDotNames(n: string, h: string)
    requires IsName(n) && IsName(h)
    ensures Join([".", n, h]) == n + "/" + h
  {
    var es := [".", n, h];
    assert es[1..] == [n, h] && es[1..][1..] == [h] && es[1..][1..][1..] == [];
    assert Glue("", es) == Glue(".", [n, h]);
    assert Glue(".", [n, h]) == Glue("." + "/" + n, [h]);
    assert Glue("." + "/" + n, [h]) == "." + "/" + n + "/" + h;
    assert exists i | 0 <= i < |es| :: es[i] != "" by { assert es[0] != ""; }
    CleanDot();
    CleanAppendName(".", n);
    CleanAppendName("." + "/" + n, h);
  }
}


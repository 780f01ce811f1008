/**
 * The POSIX `os.path` operations the core uses: `join`, `basename` and
 * `abspath`. `abspath` needs the process's working directory, which is an
 * input here.
 */
module Paths {
  import opened Strings

  predicate IsAbs(p: string) {
    p != [] && p[0] == '/'
  }

  /** `os.path.join(a, b)` for two arguments. */
  function PathJoin(a: string, b: string): string
  {
    if IsAbs(b) then b
    else if a == [] || a[|a| - 1] == '/' then a + b
    else a + "/" + b
  }

  /** An absolute second argument replaces the first; otherwise the first is a prefix of the result. */
  lemma PathJoinShape(a: string, b: string)
    ensures IsAbs(b) ==> PathJoin(a, b) == b
    ensures !IsAbs(b) ==> IsPrefix(a, PathJoin(a, b)) && PathJoin(a, b)[|a|..] in {b, "/" + b}
    ensures IsAbs(a) || IsAbs(b) ==> IsAbs(PathJoin(a, b))
  {
    if !IsAbs(b) {
      if a == [] || a[|a| - 1] == '/' {
        assert (a + b)[|a|..] == b;
      } else {
        assert (a + "/" + b)[|a|..] == "/" + b;
      }
    }
  }

  /** Joining a relative name adds a separator unless `a` is empty or already ends in one. */
  lemma PathJoinRelative(a: string, b: string)
    requires !IsAbs(b)
    ensures PathJoin(a, b) == a + (if a == [] || a[|a| - 1] == '/' then "" else "/") + b
  {
  }

  /** `os.path.basename(p)`: everything after the last slash. */
  function Basename(p: string): string
    decreases |p|
  {
    if p == [] || p[|p| - 1] == '/' then ""
    else Basename(p[..|p| - 1]) + [p[|p| - 1]]
  }

  /** The base name is a slash-free suffix of the path that starts the path or follows a slash. */
  lemma {:induction false} BasenameShape(p: string)
    ensures var r := Basename(p);
      && '/' !in r
      && |r| <= |p| && p[|p| - |r|..] == r
      && (|r| == |p| || p[|p| - |r| - 1] == '/')
    decreases |p|
  {
    if p != [] && p[|p| - 1] != '/' {
      var n := |p| - 1;
      var init := p[..n];
      BasenameShape(init);
      var r0 := Basename(init);
      assert Basename(p) == r0 + [p[n]];
      assert p[|p| - |r0| - 1..] == init[|init| - |r0|..] + [p[n]];
      if |r0| < |init| {
        assert p[|p| - |r0| - 2] == init[|init| - |r0| - 1];
      }
    }
  }

  /** A path component that normalisation keeps unchanged. */
  predicate Plain(c: string) {
    c != "" && c != "." && c != ".." && '/' !in c
  }

  /**
   * The component stack `normpath` builds for an absolute path: empty and
   * `.` components are skipped, `..` pops the last kept component and is
   * dropped at the root.
   */
  function Resolve(comps: seq<string>, acc: seq<string>): seq<string>
    decreases |comps|
  {
    if comps == [] then acc
    else if comps[0] == "" || comps[0] == "." then Resolve(comps[1..], acc)
    else if comps[0] == ".." then Resolve(comps[1..], if acc == [] then [] else acc[..|acc| - 1])
    else Resolve(comps[1..], acc + [comps[0]])
  }

  /** Resolving slash-free components onto plain ones leaves only plain components. */
  lemma {:induction false} ResolveKeepsPlain(comps: seq<string>, acc: seq<string>)
    requires forall c :: c in acc ==> Plain(c)
    requires forall c :: c in comps ==> '/' !in c
    ensures forall c :: c in Resolve(comps, acc) ==> Plain(c)
    decreases |comps|
  {
    if comps != [] {
      assert comps[0] in comps;
      assert forall c :: c in comps[1..] ==> c in comps;
      if comps[0] == "" || comps[0] == "." {
        ResolveKeepsPlain(comps[1..], acc);
      } else if comps[0] == ".." {
        var acc' := if acc == [] then [] else acc[..|acc| - 1];
        assert forall c :: c in acc' ==> c in acc;
        ResolveKeepsPlain(comps[1..], acc');
      } else {
        ResolveKeepsPlain(comps[1..], acc + [comps[0]]);
      }
    }
  }

  /** The leading slashes `normpath` keeps: two exactly when there are exactly two. */
  function Root(p: string): (r: string)
    ensures r in {"/", "//"}
  {
    if |p| >= 2 && p[1] == '/' && !(|p| >= 3 && p[2] == '/') then "//" else "/"
  }

  /** `os.path.normpath(p)` for an absolute path. */
  function NormAbs(p: string): string
    requires IsAbs(p)
  {
    Root(p) + Join("/", Resolve(Split(p, '/'), []))
  }

  /** `os.path.abspath(p)` run in the working directory `cwd`. */
  function AbsPath(cwd: string, p: string): string
    requires IsAbs(cwd)
  {
    NormAbs(PathJoin(cwd, p))
  }

  /** Plain components survive resolution unchanged. */
  lemma {:induction false} ResolvePlain(comps: seq<string>, acc: seq<string>)
    requires forall c :: c in comps ==> Plain(c)
    ensures Resolve(comps, acc) == acc + comps
    decreases |comps|
  {
    if comps != [] {
      assert comps[0] in comps;
      ResolvePlain(comps[1..], acc + [comps[0]]);
      assert acc + [comps[0]] + comps[1..] == acc + comps;
    }
  }

  /** A path written as a root and plain components, as `normpath` returns it. */
  function Render(root: string, comps: seq<string>): string {
    root + Join("/", comps)
  }

  /** The join of plain components is empty or starts and ends with a non-slash. */
  lemma {:induction false} JoinPlainEnds(comps: seq<string>)
    requires forall c :: c in comps ==> Plain(c)
    ensures var j := Join("/", comps);
      (comps == [] <==> j == []) && (j != [] ==> j[0] != '/' && j[|j| - 1] != '/')
    decreases |comps|
  {
    if |comps| > 1 {
      assert comps[0] in comps;
      assert comps[1..][0] in comps;
      JoinPlainEnds(comps[1..]);
    } else if |comps| == 1 {
      assert comps[0] in comps;
    }
  }

  /** Plain components contain no separator. */
  lemma NoSlashInPlain(comps: seq<string>)
    requires forall c :: c in comps ==> Plain(c)
    ensures forall c :: c in comps ==> '/' !in c
  {
  }

  /** A rendered path is already normal. */
  lemma RenderNormal(root: string, comps: seq<string>)
    requires root in {"/", "//"}
    requires forall c :: c in comps ==> Plain(c)
    ensures IsAbs(Render(root, comps)) && NormAbs(Render(root, comps)) == Render(root, comps)
  {
    var j := Join("/", comps);
    var p := root + j;
    JoinPlainEnds(comps);
    assert Root(p) == root by {
      if j != [] {
        assert p[|root|] == j[0];
      }
    }
    RenderResolves(root, comps);
  }

  /** Splitting a rendered path and resolving the pieces gives back its components. */
  lemma RenderResolves(root: string, comps: seq<string>)
    requires root in {"/", "//"}
    requires forall c :: c in comps ==> Plain(c)
    ensures Resolve(Split(root + Join("/", comps), '/'), []) == comps
  {
    var j := Join("/", comps);
    var tail := if comps == [] then [""] else comps;
    assert Split(j, '/') == tail by {
      if comps != [] {
        NoSlashInPlain(comps);
        SplitJoin(comps, '/');
      }
    }
    SplitLeadingSlash(j);
    ResolveLeadingEmpty(tail);
    if root == "//" {
      SplitLeadingSlash(['/'] + j);
      ResolveLeadingEmpty([""] + tail);
      assert root + j == ['/'] + (['/'] + j);
    } else {
      assert root + j == ['/'] + j;
    }
    if comps == [] {
      assert Resolve([""], []) == [];
    } else {
      ResolvePlain(comps, []);
      assert [] + comps == comps;
    }
  }

  /** A leading slash splits off an empty first piece. */
  lemma SplitLeadingSlash(s: string)
    ensures Split(['/'] + s, '/') == [""] + Split(s, '/')
  {
    assert (['/'] + s)[1..] == s;
  }

  /** An empty first component is dropped by resolution. */
  lemma ResolveLeadingEmpty(comps: seq<string>)
    ensures Resolve([""] + comps, []) == Resolve(comps, [])
  {
    assert ([""] + comps)[1..] == comps;
  }

  /** `normpath` of an absolute path is the rendering of plain components. */
  lemma NormAbsRendered(p: string)
    requires IsAbs(p)
    ensures NormAbs(p) == Render(Root(p), Resolve(Split(p, '/'), []))
    ensures forall c :: c in Resolve(Split(p, '/'), []) ==> Plain(c)
  {
    SplitPiecesFree(p, '/');
    ResolveKeepsPlain(Split(p, '/'), []);
  }

  /** `normpath` is idempotent on absolute paths. */
  lemma NormAbsIdempotent(p: string)
    requires IsAbs(p)
    ensures IsAbs(NormAbs(p)) && NormAbs(NormAbs(p)) == NormAbs(p)
  {
    NormAbsRendered(p);
    RenderNormal(Root(p), Resolve(Split(p, '/'), []));
  }

  /** Joining a plain name onto a rendered path renders one more component. */
  lemma JoinRendered(root: string, comps: seq<string>, name: string)
    requires root in {"/", "//"}
    requires forall c :: c in comps ==> Plain(c)
    requires Plain(name)
    ensures PathJoin(Render(root, comps), name) == Render(root, comps + [name])
  {
    JoinPlainEnds(comps);
    var r, j := Render(root, comps), Join("/", comps);
    assert name[0] != '/';
    PathJoinRelative(r, name);
    if comps == [] {
      assert comps + [name] == [name];
      assert r == root && r[|r| - 1] == '/';
      assert PathJoin(r, name) == root + name;
    } else {
      JoinSnoc("/", comps, name);
      assert r[|r| - 1] == j[|j| - 1];
      assert PathJoin(r, name) == r + "/" + name;
      ConcatAssoc(root, j, "/", name);
    }
  }

  lemma ConcatAssoc(a: string, b: string, c: string, d: string)
    ensures a + b + c + d == a + (b + c + d)
  {
  }

  /**
   * Appending a plain file name to a normal absolute directory needs no
   * further normalisation: `abspath(join(d, name)) == join(d, name)`.
   */
  lemma AbsPathOfJoin(cwd: string, d: string, name: string)
    requires IsAbs(cwd) && IsAbs(d) && NormAbs(d) == d
    requires Plain(name)
    ensures AbsPath(cwd, PathJoin(d, name)) == PathJoin(d, name)
  {
    NormAbsRendered(d);
    var comps := Resolve(Split(d, '/'), []);
    JoinRendered(Root(d), comps, name);
    assert forall c :: c in comps + [name] ==> Plain(c);
    RenderNormal(Root(d), comps + [name]);
  }

  /** `abspath` returns a normal absolute path. */
  lemma AbsPathNormal(cwd: string, p: string)
    requires IsAbs(cwd)
    ensures IsAbs(AbsPath(cwd, p)) && NormAbs(AbsPath(cwd, p)) == AbsPath(cwd, p)
  {
    NormAbsIdempotent(PathJoin(cwd, p));
  }

  /** A path not ending in a slash: its base name grows by its last character. */
  lemma BasenameStep(p: string)
    requires p != [] && p[|p| - 1] != '/'
    ensures Basename(p) == Basename(p[..|p| - 1]) + [p[|p| - 1]]
  {
  }

  /** The base name of a slash-free name after a slash (or alone) is that name. */
  lemma {:induction false} BasenameAfterSlash(pre: string, name: string)
    requires '/' !in name
    requires pre == [] || pre[|pre| - 1] == '/'
    ensures Basename(pre + name) == name
    decreases |name|
  {
    if name == [] {
      assert pre + name == pre;
    } else {
      var n := |name|;
      var x := pre + name;
      var init := name[..n - 1];
      assert name[n - 1] in name;
      assert x[|x| - 1] == name[n - 1] != '/';
      assert x[..|x| - 1] == pre + init;
      BasenameStep(x);
      BasenameAfterSlash(pre, init);
      assert init + [name[n - 1]] == name;
    }
  }

  /** The base name of `join(d, name)` is `name` when `name` has no slash. */
  lemma BasenameOfJoin(d: string, name: string)
    requires name != [] && '/' !in name
    ensures Basename(PathJoin(d, name)) == name
  {
    assert name[0] in name;
    PathJoinRelative(d, name);
    var pre := d + (if d == [] || d[|d| - 1] == '/' then "" else "/");
    assert PathJoin(d, name) == pre + name;
    BasenameAfterSlash(pre, name);
  }
}

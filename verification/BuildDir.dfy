/** The contents of a pending build directory: what BootstrapBuildDir and the writing of the parameters make of nothing,
    of a clone, and of a directory that was left behind. */
module BuildDir {
  import opened Options
  import Paths

  type Name = s: string | Paths.PlainName(s) witness "data"

  /** A path below the pending path of a job: a file has a plain name. */
  type Path = seq<Name>

  datatype Item = File(text: string) | Folder

  /** Everything at and below a path, by the rest of its path; nothing is there unless [] is. */
  type Tree = map<Path, Item>

  const DATA: Path := ["data"]
  const CACHE: Path := ["data", "cache"]
  const ARTIFACTS: Path := ["data", "artifacts"]
  const PARAMS: Path := ["data", "params"]
  const BUILD_INFO: Path := ["build_info.json"]
  const FRESH: Tree := map[[] := Folder]

  predicate IsFolder(t: Tree, path: Path) { path in t && t[path].Folder? }

  predicate IsFile(t: Tree, path: Path) { path in t && t[path].File? }

  /** A published build to clone: the name of its directory and what is in it. */
  datatype Source = Source(name: Name, tree: Tree)

  predicate SameItem(t: Tree, u: Tree, path: Path) {
    (path in t <==> path in u) && (path in t ==> t[path] == u[path])
  }

  /** t but for what is at and below path. */
  function Besides(t: Tree, path: Path): Tree { map q | q in t && !(path <= q) :: t[q] }

  /** t but for its params directory, the other directories of the skeleton and the build info. */
  function Rest(t: Tree): Tree {
    map q | q in t && !(PARAMS <= q) && q !in {DATA, CACHE, ARTIFACTS, BUILD_INFO} :: t[q]
  }

  function ParamPath(k: string): Path
    requires Paths.PlainName(k)
  {
    PARAMS + [k]
  }

  /** The params directory has a file of the name k, with the text v. */
  predicate IsParam(t: Tree, k: string, v: string) {
    Paths.PlainName(k) && ParamPath(k) in t && t[ParamPath(k)] == File(v)
  }

  predicate AllPlain(params: map<string, string>) { forall k :: k in params ==> Paths.PlainName(k) }

  // Where a parameter is written

  /** A pending path as a cleaned path: it ends in a name. */
  predicate IsPlace(at: Paths.Path) {
    Paths.IsClean(at) && at.parts != [] && at.parts[|at.parts| - 1] != ".."
  }

  /** The path that is joined from the params directory and the name k. */
  function Target(at: Paths.Path, k: string): Paths.Path {
    Paths.Join(Paths.Join(Paths.Join(at, "data"), "params"), k)
  }

  predicate Inside(at: Paths.Path, k: string) {
    at.parts <= Target(at, k).parts && Target(at, k).rooted == at.rooted
  }

  /** The target below the pending path, if it is there. */
  function Relative(at: Paths.Path, k: string): Path
    requires IsPlace(at) && Inside(at, k)
  {
    RelativeIsPlain(at, k);
    Target(at, k).parts[|at.parts|..]
  }

  lemma RelativeIsPlain(at: Paths.Path, k: string)
    requires IsPlace(at) && Inside(at, k)
    ensures forall i :: |at.parts| <= i < |Target(at, k).parts| ==> Paths.PlainName(Target(at, k).parts[i])
  {
    Paths.JoinKeepsClean(at, "data");
    Paths.JoinKeepsClean(Paths.Join(at, "data"), "params");
    Paths.JoinKeepsClean(Paths.Join(Paths.Join(at, "data"), "params"), k);
    var t := Target(at, k);
    assert t.parts[|at.parts| - 1] == at.parts[|at.parts| - 1] != "..";
  }

  /** A plain name is written into the params directory, under that name. */
  lemma PlainTarget(at: Paths.Path, k: string)
    requires IsPlace(at) && Paths.PlainName(k)
    ensures Inside(at, k) && Relative(at, k) == ParamPath(k)
  {
    Paths.JoinThree(at, "data", "params", k);
    assert ["data", "params", k] == ParamPath(k);
    assert Target(at, k).parts == at.parts + ParamPath(k);
  }

  /** A name that leads two directories up is that of a file of the pending directory itself, as the build info is. */
  lemma EscapingTarget(at: Paths.Path, name: Name)
    requires IsPlace(at)
    ensures Inside(at, "../../" + name) && Relative(at, "../../" + name) == [name]
  {
    Paths.JoinPlain(at, name);
    Paths.JoinTwiceUp(at, "data", "params", name);
    assert Target(at, "../../" + name).parts == at.parts + [name];
  }

  /** One of the parameters is written at q. */
  predicate Hits(at: Paths.Path, params: map<string, string>, q: Path)
    requires IsPlace(at)
  {
    exists k :: k in params && WritesTo(at, k, q)
  }

  predicate WritesTo(at: Paths.Path, k: string, q: Path)
    requires IsPlace(at)
  {
    Inside(at, k) && Relative(at, k) == q
  }

  /** t is what writing the parameters, in some order, makes of s. */
  ghost predicate Written(at: Paths.Path, s: Tree, t: Tree, params: map<string, string>)
    requires IsPlace(at)
  {
    forall q :: WrittenAt(at, s, t, params, q)
  }

  predicate WrittenAt(at: Paths.Path, s: Tree, t: Tree, params: map<string, string>, q: Path)
    requires IsPlace(at)
  {
    if Hits(at, params, q)
    then q in t && exists k :: k in params && WritesTo(at, k, q) && t[q] == File(params[k])
    else SameItem(t, s, q)
  }

  lemma WrittenNext(at: Paths.Path, s: Tree, t: Tree, done: map<string, string>, k: string, v: string)
    requires IsPlace(at) && Written(at, s, t, done) && k !in done
    ensures Written(at, s, if Inside(at, k) then t[Relative(at, k) := File(v)] else t, done[k := v])
  {
    var u, more := if Inside(at, k) then t[Relative(at, k) := File(v)] else t, done[k := v];
    forall q ensures WrittenAt(at, s, u, more, q) {
      assert WrittenAt(at, s, t, done, q);
      if WritesTo(at, k, q) {
        assert k in more && u[q] == File(more[k]);
      } else if Hits(at, done, q) {
        var l :| l in done && WritesTo(at, l, q) && t[q] == File(done[l]);
        assert l in more && WritesTo(at, l, q) && u[q] == File(more[l]);
      }
    }
  }

  /** With plain names, that is one file for each parameter and nothing else. */
  lemma WrittenPlain(at: Paths.Path, s: Tree, t: Tree, params: map<string, string>)
    requires IsPlace(at) && HoldsExactly(s, map[]) && Written(at, s, t, params) && AllPlain(params)
    ensures HoldsExactly(t, params) && Besides(t, PARAMS) == Besides(s, PARAMS)
  {
    forall q ensures Hits(at, params, q) <==> PARAMS <= q && |q| == 3 && q[2] in params { HitsPlain(at, params, q); }
    forall q | !(PARAMS <= q) || q == PARAMS ensures SameItem(t, s, q) { assert WrittenAt(at, s, t, params, q); }
    assert SameItem(t, s, PARAMS);
    SameAllBesides(t, s);
    forall k | k in params ensures IsParam(t, k, params[k]) { WrittenParam(at, s, t, params, k); }
    forall q | q in t && PARAMS <= q && q != PARAMS ensures |q| == 3 && q[2] in params {
      assert WrittenAt(at, s, t, params, q);
    }
  }

  lemma SameAllBesides(t: Tree, s: Tree)
    requires forall q :: !(PARAMS <= q) ==> SameItem(t, s, q)
    ensures Besides(t, PARAMS) == Besides(s, PARAMS)
  {
    forall q ensures q in Besides(t, PARAMS) <==> q in Besides(s, PARAMS) {
      if !(PARAMS <= q) { assert SameItem(t, s, q); }
    }
    forall q | q in Besides(t, PARAMS) ensures Besides(t, PARAMS)[q] == Besides(s, PARAMS)[q] {
      assert SameItem(t, s, q);
    }
  }

  lemma HitsPlain(at: Paths.Path, params: map<string, string>, q: Path)
    requires IsPlace(at) && AllPlain(params)
    ensures Hits(at, params, q) <==> PARAMS <= q && |q| == 3 && q[2] in params
  {
    if Hits(at, params, q) {
      var k :| k in params && WritesTo(at, k, q);
      PlainTarget(at, k);
    }
    if PARAMS <= q && |q| == 3 && q[2] in params {
      PlainTarget(at, q[2]);
      assert q == ParamPath(q[2]);
      assert WritesTo(at, q[2], q);
    }
  }

  lemma WrittenParam(at: Paths.Path, s: Tree, t: Tree, params: map<string, string>, k: string)
    requires IsPlace(at) && Written(at, s, t, params) && AllPlain(params) && k in params
    ensures IsParam(t, k, params[k])
  {
    PlainTarget(at, k);
    var q := ParamPath(k);
    assert WritesTo(at, k, q) && WrittenAt(at, s, t, params, q);
    var l :| l in params && WritesTo(at, l, q) && t[q] == File(params[l]);
    PlainTarget(at, l);
    assert ParamPath(l)[2] == ParamPath(k)[2];
  }

  /** The params directory of t holds one file for each parameter, and nothing else. */
  predicate HoldsExactly(t: Tree, params: map<string, string>) {
    && IsFolder(t, PARAMS)
    && (forall k :: k in params ==> IsParam(t, k, params[k]))
    && (forall q :: q in t && PARAMS <= q && q != PARAMS ==> |q| == 3 && q[2] in params)
  }

  /** What bootstrapping starts from: the source, or an empty directory; but a directory that was left behind stays,
      with the copy inside it. */
  ghost predicate StartsFrom(base: Tree, left: Tree, src: Option<Source>) {
    if src.None? then left == map[] && base == FRESH
    else if left == map[] then base == src.value.tree
    else IsFolder(left, []) && Besides(base, [src.value.name]) == Besides(left, [src.value.name])
  }

  /** No file is in the way of the data directories, and no directory in that of the build info. */
  predicate Usable(base: Tree) { NoFileInTheWay(base) && !IsFolder(base, BUILD_INFO) }

  predicate NoFileInTheWay(base: Tree) { !IsFile(base, DATA) && !IsFile(base, CACHE) && !IsFile(base, ARTIFACTS) }

  /** There is a directory in the pending path although none is to be cloned, or no directory to clone into. */
  predicate InTheWay(left: Tree, src: Option<Source>) {
    left != map[] && (src.None? || !IsFolder(left, []))
  }

  predicate Skeleton(t: Tree) { IsFolder(t, DATA) && IsFolder(t, CACHE) && IsFolder(t, ARTIFACTS) }

  lemma Separate()
    ensures !(PARAMS <= DATA) && !(PARAMS <= CACHE) && !(PARAMS <= ARTIFACTS) && !(PARAMS <= BUILD_INFO)
    ensures DATA != CACHE && DATA != ARTIFACTS && CACHE != ARTIFACTS && BUILD_INFO !in {DATA, CACHE, ARTIFACTS}
    ensures DATA[..0] == BUILD_INFO[..0] == [] && CACHE[..1] == ARTIFACTS[..1] == PARAMS[..1] == DATA
  {
    assert BUILD_INFO[0] != "data";
    assert PARAMS[1] != CACHE[1] && PARAMS[1] != ARTIFACTS[1] && CACHE[1] != ARTIFACTS[1];
  }

  lemma RestBesides(t: Tree)
    ensures Rest(Besides(t, PARAMS)) == Rest(t)
  {
  }

  /** The pending path of a job. `faulted` records that a call has failed for a reason of its own. */
  class PendingPath {
    const at: Paths.Path
    var tree: Tree
    ghost var faulted: bool

    constructor (at: Paths.Path, left: Tree)
      ensures this.at == at && tree == left && !faulted
    {
      this.at := at;
      tree, faulted := left, false;
    }

    method Fault() returns (fails: bool)
      modifies this
      ensures tree == old(tree) && faulted == (old(faulted) || fails)
    {
      fails := *;
      faulted := faulted || fails;
    }

    method Create() returns (ok: bool)
      modifies this
      ensures ok ==> old(tree) == map[] && tree == FRESH
      ensures !ok ==> faulted || old(tree) != map[]
      ensures old(faulted) ==> faulted
    {
      var fails := Fault();
      if fails || tree != map[] { return false; }
      tree := FRESH;
      return true;
    }

    /** The copy goes to the path itself or, if there is a directory already, inside it; what a copy makes of an earlier
        one of the same name is left open, and so is what a copy that fails has made. */
    method Clone(src: Source) returns (ok: bool)
      modifies this
      ensures ok ==> StartsFrom(tree, old(tree), Some(src))
      ensures !ok ==> faulted || (old(tree) != map[] && !IsFolder(old(tree), []))
      ensures old(faulted) ==> faulted
    {
      var fails := Fault();
      if fails {
        tree := *;
        return false;
      }
      if tree == map[] {
        tree := src.tree;
      } else if IsFolder(tree, []) {
        var copy: Tree := *;
        var nested := map q | q in copy && [src.name] <= q :: copy[q];
        tree := Besides(tree, [src.name]) + nested;
      } else {
        return false;
      }
      return true;
    }

    method RemoveAll(path: Path) returns (ok: bool)
      modifies this
      ensures ok ==> tree == Besides(old(tree), path)
      ensures !ok ==> faulted
      ensures old(faulted) ==> faulted
    {
      var fails := Fault();
      if fails {
        tree := *;
        return false;
      }
      tree := Besides(tree, path);
      return true;
    }

    method EnsureDirExists(path: Path) returns (ok: bool)
      requires path != []
      modifies this
      ensures ok ==> tree == old(tree)[path := Folder] && !IsFile(old(tree), path)
      ensures !ok ==> faulted || IsFile(old(tree), path) || !IsFolder(old(tree), path[..|path| - 1])
      ensures old(faulted) ==> faulted
    {
      var fails := Fault();
      if fails || IsFile(tree, path) { return false; }
      if path in tree { return true; }
      fails := Fault();
      if fails || !IsFolder(tree, path[..|path| - 1]) { return false; }
      tree := tree[path := Folder];
      return true;
    }

    method WriteFile(path: Path, text: string) returns (ok: bool)
      modifies this
      ensures ok ==> tree == old(tree)[path := File(text)] && !IsFolder(old(tree), path)
      ensures !ok ==>
                faulted || path == [] || IsFolder(old(tree), path) || !IsFolder(old(tree), path[..|path| - 1])
      ensures !ok ==> tree - {path} == old(tree) - {path}
      ensures old(faulted) ==> faulted
    {
      var fails := Fault();
      if path == [] || IsFolder(tree, path) || !IsFolder(tree, path[..|path| - 1]) { return false; }
      if fails {
        var part: string := *;
        tree := tree[path := File(part)];
        return false;
      }
      tree := tree[path := File(text)];
      return true;
    }

    method EnsureDataDirs(ghost base: Tree) returns (ok: bool)
      requires IsFolder(tree, []) && tree == Besides(base, PARAMS)
      modifies this
      ensures ok ==> Skeleton(tree) && HoldsExactly(tree, map[]) && Rest(tree) == Rest(base)
      ensures ok ==> SameItem(tree, base, BUILD_INFO) && IsFolder(tree, [])
      ensures ok ==> NoFileInTheWay(base)
      ensures !ok ==> faulted || !NoFileInTheWay(base)
      ensures old(faulted) ==> faulted
    {
      Separate();
      RestBesides(base);
      var dirs := [DATA, CACHE, ARTIFACTS, PARAMS];
      for i := 0 to |dirs|
        invariant IsFolder(tree, []) && Rest(tree) == Rest(base) && SameItem(tree, base, BUILD_INFO)
        invariant forall j :: 0 <= j < i ==> IsFolder(tree, dirs[j])
        invariant forall j :: 0 <= j < i && j < 3 ==> !IsFile(base, dirs[j])
        invariant forall j :: i <= j < 3 ==> SameItem(tree, base, dirs[j])
        invariant forall q :: q in tree && PARAMS <= q ==> q == PARAMS && i == 4
        invariant old(faulted) ==> faulted
      {
        assert i > 0 ==> IsFolder(tree, dirs[0]);
        assert IsFolder(tree, dirs[i][..|dirs[i]| - 1]);
        assert i == 3 ==> dirs[i] !in tree;
        ok := EnsureDirExists(dirs[i]);
        if !ok { return; }
      }
      assert IsFolder(tree, dirs[0]) && IsFolder(tree, dirs[1]) && IsFolder(tree, dirs[2]) && IsFolder(tree, dirs[3]);
      assert !IsFile(base, dirs[0]) && !IsFile(base, dirs[1]) && !IsFile(base, dirs[2]);
      return true;
    }

    /** Leaves an empty params directory, and of the base all the rest. */
    method BootstrapBuildDir(src: Option<Source>) returns (ok: bool, ghost base: Tree)
      requires src.Some? ==> IsFolder(src.value.tree, [])
      modifies this
      ensures ok ==> StartsFrom(base, old(tree), src) && !InTheWay(old(tree), src) && NoFileInTheWay(base)
      ensures ok ==> Skeleton(tree) && HoldsExactly(tree, map[]) && Rest(tree) == Rest(base)
      ensures ok ==> SameItem(tree, base, BUILD_INFO) && IsFolder(tree, [])
      ensures !ok && !faulted ==>
                InTheWay(old(tree), src) || (StartsFrom(base, old(tree), src) && !NoFileInTheWay(base))
      ensures old(faulted) ==> faulted
    {
      if src.None? { ok := Create(); } else { ok := Clone(src.value); }
      base := tree;
      if !ok { return; }
      assert IsFolder(base, []) by { if InsideLeft(old(tree), src) { RootStays(base, old(tree), src.value.name); } }
      if src.Some? {
        ok := RemoveAll(PARAMS);
        if !ok { return; }
      } else {
        assert tree == Besides(base, PARAMS);
      }
      ok := EnsureDataDirs(base);
    }

    /** Writing one parameter, wherever its name leads. What is outside the pending path is not part of the tree. */
    method WriteParam(k: string, v: string) returns (ok: bool)
      requires IsPlace(at)
      modifies this
      ensures ok ==> tree == if Inside(at, k) then old(tree)[Relative(at, k) := File(v)] else old(tree)
      ensures Paths.PlainName(k) ==> Besides(tree, PARAMS) == Besides(old(tree), PARAMS)
      ensures !ok && Paths.PlainName(k) ==>
                faulted || IsFolder(old(tree), ParamPath(k)) || !IsFolder(old(tree), PARAMS)
      ensures old(faulted) ==> faulted
    {
      if Paths.PlainName(k) { PlainTarget(at, k); }
      if Inside(at, k) {
        var path := Relative(at, k);
        ok := WriteFile(path, v);
        if Paths.PlainName(k) {
          assert path == ParamPath(k) && path[..2] == PARAMS;
          SameBesides(old(tree), tree, path);
        }
      } else {
        var fails := Fault();
        ok := !fails;
      }
    }

    /** The next parameter, after those that are done. */
    method WriteNext(k: string, v: string, ghost was: Tree, ghost done: map<string, string>) returns (ok: bool)
      requires IsPlace(at) && HoldsExactly(was, map[]) && Written(at, was, tree, done) && k !in done
      modifies this
      ensures ok ==> Written(at, was, tree, done[k := v])
      ensures Paths.PlainName(k) ==> Besides(tree, PARAMS) == Besides(old(tree), PARAMS)
      ensures !ok && AllPlain(done) && Paths.PlainName(k) ==> faulted
      ensures old(faulted) ==> faulted
    {
      if AllPlain(done) && Paths.PlainName(k) { RoomForParam(at, was, tree, done, k); }
      WrittenNext(at, was, tree, done, k, v);
      ok := WriteParam(k, v);
    }

    /** All parameters, in any order. When all names are plain, that makes one file for each and touches nothing else,
        and only a fault can prevent it. The params directory holds exactly the parameters only then. */
    method WriteParams(params: map<string, string>) returns (ok: bool)
      requires IsPlace(at) && HoldsExactly(tree, map[])
      modifies this
      ensures ok ==> Written(at, old(tree), tree, params)
      ensures ok ==> (HoldsExactly(tree, params) <==> AllPlain(params))
      ensures AllPlain(params) ==> Besides(tree, PARAMS) == Besides(old(tree), PARAMS)
      ensures !ok ==> faulted || !AllPlain(params)
      ensures old(faulted) ==> faulted
    {
      var rest := params.Keys;
      ghost var done: map<string, string> := map[];
      ghost var was := tree;
      while rest != {}
        invariant rest <= params.Keys && done == params - rest
        invariant Written(at, was, tree, done)
        invariant AllPlain(params) ==> Besides(tree, PARAMS) == Besides(was, PARAMS)
        invariant old(faulted) ==> faulted
        decreases rest
      {
        var k :| k in rest;
        ok := WriteNext(k, params[k], was, done);
        if !ok { return; }
        rest, done := rest - {k}, done[k := params[k]];
      }
      assert done == params;
      if AllPlain(params) { WrittenPlain(at, was, tree, params); }
      return true;
    }

    /** What `Work` does between a successful BootstrapProject and the build log: bootstrap, persist the build info and
        write the parameters. Without a fault it fails only when something is in the way or a parameter has no plain
        name. Whatever the names, each parameter is written where its name leads, into what bootstrapping and the build
        info have left, which is `booted`. When all names are plain, that leaves what it should. */
    method Prepare(src: Option<Source>, info: string, params: map<string, string>)
      returns (ok: bool, ghost base: Tree, ghost booted: Tree)
      requires src.Some? ==> IsFolder(src.value.tree, [])
      requires !faulted && IsPlace(at)
      modifies this
      ensures ok ==> StartsFrom(base, old(tree), src) && !InTheWay(old(tree), src) && Usable(base)
      ensures ok ==> HoldsExactly(booted, map[]) && Skeleton(booted) && Rest(booted) == Rest(base)
      ensures ok ==> IsFile(booted, BUILD_INFO) && booted[BUILD_INFO] == File(info)
      ensures ok ==> Written(at, booted, tree, params)
      ensures ok ==> (HoldsExactly(tree, params) <==> AllPlain(params))
      ensures ok && AllPlain(params) ==>
                && Skeleton(tree) && Rest(tree) == Rest(base)
                && IsFile(tree, BUILD_INFO) && tree[BUILD_INFO] == File(info)
      ensures !ok && !faulted ==>
                InTheWay(old(tree), src) || (StartsFrom(base, old(tree), src) && !Usable(base)) || !AllPlain(params)
    {
      ok, base := BootstrapBuildDir(src);
      booted := tree;
      if !ok { return; }
      assert BUILD_INFO[..0] == [];
      ok := WriteFile(BUILD_INFO, info);
      InfoWritten(booted, info);
      booted := tree;
      if !ok { return; }
      ok := WriteParams(params);
      if AllPlain(params) { ParamsWritten(booted, tree); }
    }
  }

  /** The params directory is there for the next parameter, and nothing of its name. */
  lemma RoomForParam(at: Paths.Path, s: Tree, t: Tree, done: map<string, string>, k: string)
    requires IsPlace(at) && HoldsExactly(s, map[]) && Written(at, s, t, done) && AllPlain(done)
    requires k !in done && Paths.PlainName(k)
    ensures IsFolder(t, PARAMS) && ParamPath(k) !in t
  {
    WrittenPlain(at, s, t, done);
    assert PARAMS <= ParamPath(k) && ParamPath(k) != PARAMS && ParamPath(k)[2] == k;
  }

  /** The copy of a clone goes inside a directory that was left behind. */
  predicate InsideLeft(left: Tree, src: Option<Source>) { src.Some? && left != map[] }

  lemma RootStays(base: Tree, left: Tree, name: Name)
    requires IsFolder(left, []) && Besides(base, [name]) == Besides(left, [name])
    ensures IsFolder(base, [])
  {
    assert [] in Besides(left, [name]);
  }

  lemma SameBesides(t: Tree, u: Tree, path: Path)
    requires PARAMS <= path && t - {path} == u - {path}
    ensures Besides(t, PARAMS) == Besides(u, PARAMS)
  {
    BesidesLess(t, path);
    BesidesLess(u, path);
  }

  lemma BesidesLess(t: Tree, path: Path)
    requires PARAMS <= path
    ensures Besides(t - {path}, PARAMS) == Besides(t, PARAMS)
  {
  }

  /** Below the cache and the artifacts directory there is what was there in the source, or nothing when there is no
      source; but what was left behind, when something was. */
  lemma CacheAndArtifacts(t: Tree, base: Tree, left: Tree, src: Option<Source>, q: Path)
    requires StartsFrom(base, left, src) && Rest(t) == Rest(base)
    requires q !in {CACHE, ARTIFACTS} && (CACHE <= q || ARTIFACTS <= q)
    ensures left == map[] && src.None? ==> q !in t
    ensures left == map[] && src.Some? ==> SameItem(t, src.value.tree, q)
    ensures left != map[] && src.Some? && src.value.name != "data" ==> SameItem(t, left, q)
  {
    Separate();
    assert q[0] == "data" && !(PARAMS <= q) && q !in {DATA, BUILD_INFO};
    assert q in t <==> q in Rest(t);
    assert q in base <==> q in Rest(base);
    if left != map[] && src.Some? {
      var name := src.value.name;
      assert q in base && !([name] <= q) <==> q in Besides(base, [name]);
      assert q in left && !([name] <= q) <==> q in Besides(left, [name]);
    }
  }

  lemma InfoWritten(t: Tree, info: string)
    requires Skeleton(t)
    ensures var u := t[BUILD_INFO := File(info)];
            Skeleton(u) && Rest(u) == Rest(t) && (HoldsExactly(t, map[]) ==> HoldsExactly(u, map[]))
  {
    Separate();
  }

  /** The state t before and the state v after writing the parameters. */
  lemma ParamsWritten(t: Tree, v: Tree)
    requires Skeleton(t) && IsFile(t, BUILD_INFO) && Besides(v, PARAMS) == Besides(t, PARAMS)
    ensures Skeleton(v) && Rest(v) == Rest(t) && IsFile(v, BUILD_INFO) && v[BUILD_INFO] == t[BUILD_INFO]
  {
    Separate();
    RestBesides(t);
    RestBesides(v);
    SameOutside(t, v, DATA);
    SameOutside(t, v, CACHE);
    SameOutside(t, v, ARTIFACTS);
    SameOutside(t, v, BUILD_INFO);
  }

  lemma SameOutside(u: Tree, v: Tree, q: Path)
    requires Besides(u, PARAMS) == Besides(v, PARAMS) && !(PARAMS <= q)
    ensures SameItem(u, v, q)
  {
    assert q in u <==> q in Besides(u, PARAMS);
    assert q in v <==> q in Besides(v, PARAMS);
  }
}

/** `SetUp` and `PruneZombieBuilds`, which the server runs before it accepts work, and what a restart re-establishes. */
module Recovery {
  import opened Options
  import opened Protocol
  import opened Invariant
  import opened Preservation
  import opened Progress

  /** An entry of the projects directory. `dockerfile` is None when looking for its Dockerfile fails. */
  datatype Folder = Folder(name: string, isDir: bool, dockerfile: Option<bool>)

  predicate IsProject(f: Folder) { f.isDir && f.dockerfile == Some(true) }

  predicate Unknowable(f: Folder) { f.isDir && f.dockerfile.None? }

  predicate Listed(folders: seq<Folder>, p: string) { exists f :: f in folders && IsProject(f) && f.name == p }

  /** What the file system is like while the server starts: the listing of the projects directory, which may fail, the
      projects whose pending directory cannot be read and the builds that cannot be removed. */
  datatype Disk = Disk(folders: Option<seq<Folder>>, unreadable: set<string>, stubborn: set<Key>)

  predicate Known(d: Disk) { d.folders.Some? && forall f :: f in d.folders.value ==> !Unknowable(f) }

  /** The pending builds of the projects that are listed and can be read. */
  function Zombies(d: Disk, pending: map<Key, Build>): set<Key>
    requires d.folders.Some?
  {
    set k | k in pending && Listed(d.folders.value, k.project) && k.project !in d.unreadable
  }

  /** The pending builds of the projects in ps. */
  function PendingOf(pending: map<Key, Build>, ps: set<string>): set<Key> {
    set k | k in pending && k.project in ps
  }

  /** The names of the folders that are projects, in their order, unless one cannot be examined. */
  method GetProjects(folders: seq<Folder>) returns (r: Option<seq<string>>)
    ensures r.None? <==> exists f :: f in folders && Unknowable(f)
    ensures r.Some? ==> forall p :: p in r.value <==> Listed(folders, p)
  {
    var projects: seq<string> := [];
    for i := 0 to |folders|
      invariant forall f :: f in folders[..i] ==> !Unknowable(f)
      invariant forall p :: p in projects ==> Listed(folders[..i], p)
      invariant forall f :: f in folders[..i] && IsProject(f) ==> f.name in projects
    {
      var f := folders[i];
      assert f in folders;
      if f.isDir {
        if f.dockerfile.None? { return None; }
        if f.dockerfile.value { projects := projects + [f.name]; }
      }
      assert folders[..i + 1] == folders[..i] + [f];
    }
    assert folders[..|folders|] == folders;
    return Some(projects);
  }

  class Startup {
    var st: State

    constructor (st: State)
      ensures this.st == st
    {
      this.st := st;
    }

    /** Listing a pending directory: it fails when the directory cannot be read or does not exist. */
    method ReadDir(d: Disk, p: string) returns (ids: Option<seq<string>>)
      ensures ids.None? <==> p in d.unreadable || (p, PendingDir) !in st.dirs
      ensures ids.Some? ==> forall id :: id in ids.value <==> Key(p, id) in st.pending
    {
      if p in d.unreadable || (p, PendingDir) !in st.dirs { return None; }
      var found: seq<string>, rest := [], set k | k in st.pending && k.project == p;
      while rest != {}
        invariant forall k :: k in rest ==> k in st.pending && k.project == p
        invariant forall id :: id in found || Key(p, id) in rest <==> Key(p, id) in st.pending
        decreases rest
      {
        var k :| k in rest;
        assert k == Key(p, k.id);
        rest := rest - {k};
        found := found + [k.id];
      }
      return Some(found);
    }

    /** Removing a build directory; a failure may leave it damaged in any way. */
    method Remove(d: Disk, k: Key) returns (ok: bool, ghost torn: map<Key, Build>)
      modifies this
      ensures ok <==> k !in d.stubborn
      ensures st == old(st).(pending := Pruned(old(st).pending, if ok then {k} else {}, torn))
      ensures torn.Keys <= if ok then {} else {k}
    {
      ok, torn := k !in d.stubborn, map[];
      var partly: bool, left: Build := *, *;
      if ok {
        st := st.(pending := st.pending - {k});
      } else if partly && k in st.pending {
        st := st.(pending := st.pending[k := left.(base := Damaged)]);
        torn := map[k := left];
      }
      assert st.pending == Pruned(old(st).pending, if ok then {k} else {}, torn);
    }

    /** Removing the pending builds of one project, one after the other, up to the first that cannot be removed. */
    method RemoveAll(d: Disk, p: string, ids: seq<string>)
      returns (ok: bool, ghost gone: set<Key>, ghost torn: map<Key, Build>)
      requires forall id :: id in ids <==> Key(p, id) in st.pending
      modifies this
      ensures st == old(st).(pending := Pruned(old(st).pending, gone, torn))
      ensures gone + torn.Keys <= PendingOf(old(st).pending, {p})
      ensures ok <==> PendingOf(old(st).pending, {p}) !! d.stubborn
      ensures ok ==> gone == PendingOf(old(st).pending, {p}) && torn == map[]
    {
      ghost var was := st.pending;
      gone, torn := {}, map[];
      for i := 0 to |ids|
        invariant gone == (set id | id in ids[..i] :: Key(p, id)) && torn == map[] && gone !! d.stubborn
        invariant st == old(st).(pending := Pruned(was, gone, map[]))
      {
        var k := Key(p, ids[i]);
        assert k in PendingOf(was, {p});
        ok, torn := Remove(d, k);
        PrunedTwice(was, gone, if ok then {k} else {}, torn);
        if !ok { return; }
        gone := gone + {k};
        assert ids[..i + 1] == ids[..i] + [ids[i]];
      }
      assert ids[..|ids|] == ids;
      ok := true;
    }

    /** Removes exactly the pending builds of all projects that are listed and can be read. It fails exactly when the
        projects cannot be told or one of these builds cannot be removed. */
    method PruneZombieBuilds(d: Disk) returns (ok: bool, ghost gone: set<Key>, ghost torn: map<Key, Build>)
      requires PendingHasDir(st)
      modifies this
      ensures st == old(st).(pending := Pruned(old(st).pending, gone, torn))
      ensures ok <==> Known(d) && Zombies(d, old(st).pending) !! d.stubborn
      ensures d.folders.Some? ==> gone + torn.Keys <= Zombies(d, old(st).pending)
      ensures d.folders.None? ==> gone == {} && torn == map[]
      ensures ok ==> gone == Zombies(d, old(st).pending) && torn == map[]
    {
      gone, torn := {}, map[];
      ghost var was := st.pending;
      assert Pruned(was, {}, map[]) == was;
      if d.folders.None? { return false, {}, map[]; }
      var projects := GetProjects(d.folders.value);
      if projects.None? { return false, {}, map[]; }
      ok, gone, torn := PruneAll(d, projects.value);
    }

    method PruneAll(d: Disk, projects: seq<string>)
      returns (ok: bool, ghost gone: set<Key>, ghost torn: map<Key, Build>)
      requires PendingHasDir(st) && d.folders.Some? && forall p :: p in projects <==> Listed(d.folders.value, p)
      modifies this
      ensures st == old(st).(pending := Pruned(old(st).pending, gone, torn))
      ensures gone + torn.Keys <= Zombies(d, old(st).pending)
      ensures ok <==> Zombies(d, old(st).pending) !! d.stubborn
      ensures ok ==> gone == Zombies(d, old(st).pending) && torn == map[]
    {
      ghost var was := st.pending;
      ghost var cleaned: set<string> := {};
      gone, torn := {}, map[];
      assert Pruned(was, {}, map[]) == was;
      for i := 0 to |projects|
        invariant cleaned == set p | p in projects[..i] && p !in d.unreadable
        invariant gone == PendingOf(was, cleaned) && gone <= Zombies(d, was) && gone !! d.stubborn && torn == map[]
        invariant st == old(st).(pending := Pruned(was, gone, map[]))
      {
        var p := projects[i];
        assert p in projects && projects[..i + 1] == projects[..i] + [p];
        var ids := ReadDir(d, p);
        if ids.Some? {
          ghost var more;
          assert PendingOf(st.pending, {p}) <= Zombies(d, was);
          ok, more, torn := RemoveAll(d, p, ids.value);
          PrunedTwice(was, gone, more, torn);
          gone := gone + more;
          if !ok { return; }
          cleaned := cleaned + {p};
        } else {
          assert p !in d.unreadable ==> PendingOf(was, cleaned + {p}) == PendingOf(was, cleaned);
          if p !in d.unreadable { cleaned := cleaned + {p}; }
        }
      }
      assert projects[..|projects|] == projects;
      assert Zombies(d, was) == PendingOf(was, cleaned);
      ok := true;
    }

    /** The start of the server after a crash in any reachable state, in which every run, the job queue and the mutexes
        are lost. Whatever the pruning achieves, the state is reachable again. When the start succeeds, no listed
        project whose pending directory can be read has a pending build left; the pending builds of all other projects
        are as they were in any case. */
    method SetUp(d: Disk) returns (ok: bool, ghost gone: set<Key>, ghost torn: map<Key, Build>)
      requires Reachable(st)
      modifies this
      ensures st == Apply(old(st), Restart(gone, torn)) && Reachable(st) && Inv(st)
      ensures st.runs == map[] && st.jq == {} && st.holder == map[]
      ensures st.ready == old(st).ready && st.links == old(st).links && st.dirs == old(st).dirs
      ensures ok <==> Known(d) && Zombies(d, old(st).pending) !! d.stubborn
      ensures ok ==> forall k :: k in st.pending ==> !Listed(d.folders.value, k.project) || k.project in d.unreadable
      ensures forall k | k in old(st).pending && d.folders.Some? && !Listed(d.folders.value, k.project) ::
                k in st.pending && st.pending[k] == old(st).pending[k]
      ensures forall k | k in old(st).pending && (d.folders.None? || k.project in d.unreadable) ::
                k in st.pending && st.pending[k] == old(st).pending[k]
    {
      ghost var was := st;
      PendingHasDirReachable(st);
      st := Apply(st, Restart({}, map[]));
      assert st.pending == was.pending;
      ok, gone, torn := PruneZombieBuilds(d);
      ReachableStep(was, Restart(gone, torn));
      InvReachable(st);
    }
  }

  lemma PrunedTwice(pending: map<Key, Build>, a: set<Key>, b: set<Key>, torn: map<Key, Build>)
    ensures Pruned(Pruned(pending, a, map[]), b, torn) == Pruned(pending, a + b, torn)
  {
  }

  // Pending builds and their directory

  ghost predicate PendingHasDir(s: State) { forall k :: k in s.pending ==> (k.project, PendingDir) in s.dirs }

  lemma PendingAppears(s: State, r: nat, n: Run, o: Outcome, k: Key)
    requires Enabled(s, n, o) && k !in s.pending && k in Effect(s, r, n, o).pending
    ensures (n.pc.Preparing? || n.pc.Building?) && KeyOf(n.job) == k
  {
    if n.pc.Building? { MadeByBuild(s, n, n.pc.w, o, k); }
  }

  lemma MadeByBuild(s: State, n: Run, w: BuildPc, o: Outcome, k: Key)
    requires EnabledBuild(s, n, w, o) && k !in s.pending && k in EffectBuild(s, n, w, o).pending
    ensures KeyOf(n.job) == k
  {
  }

  lemma PendingHasDirStep(s: State, a: Step)
    requires Inv(s) && PendingHasDir(s) && Legal(s, a)
    ensures PendingHasDir(Apply(s, a))
  {
    var t := Apply(s, a);
    if a.By? {
      assert RunOk(s, a.r, s.runs[a.r]);
      DirsGrow(s, a.r, s.runs[a.r], a.o);
    }
    forall k | k in t.pending ensures (k.project, PendingDir) in t.dirs {
      if a.By? && k !in s.pending { PendingAppears(s, a.r, s.runs[a.r], a.o, k); }
    }
  }

  lemma DirsGrow(s: State, r: nat, n: Run, o: Outcome)
    requires Enabled(s, n, o)
    ensures s.dirs <= Effect(s, r, n, o).dirs
  {
  }

  lemma {:induction false} PendingHasDirInBehaviour(states: seq<State>, steps: seq<Step>, i: nat)
    requires Behaviour(states, steps) && i <= |steps|
    ensures PendingHasDir(states[i])
  {
    if i > 0 {
      PendingHasDirInBehaviour(states, steps, i - 1);
      InvBehaviour(states, steps, i - 1);
      assert Legal(states[i - 1], steps[i - 1]) && states[i] == Apply(states[i - 1], steps[i - 1]);
      PendingHasDirStep(states[i - 1], steps[i - 1]);
    }
  }

  lemma PendingHasDirReachable(s: State)
    requires Reachable(s)
    ensures PendingHasDir(s)
  {
    var states, steps :| Behaviour(states, steps) && states[|steps|] == s;
    PendingHasDirInBehaviour(states, steps, |steps|);
  }
}

/** Every step of every run keeps the invariant of the build protocol. */
module Preservation {
  import opened Protocol
  import opened Invariant

  // The run that steps: one lemma for each part of `Work`

  lemma EnterKeeps(s: State, r: nat, n: Run, e: EnterPc, o: Outcome)
    requires n.pc == Entering(e) && EnabledEnter(s, n, e, o) && RunOk(s, r, n)
    ensures RunOk(EffectEnter(s, n, e, o), r, LocalEnter(n, e, o))
  {
  }

  lemma CheckKeeps(s: State, r: nat, n: Run, c: CheckPc, o: Outcome)
    requires n.pc == Checking(c) && EnabledCheck(s, n, c, o) && RunOk(s, r, n)
    ensures RunOk(EffectCheck(s, n, c, o), r, LocalCheck(n, c, o))
  {
  }

  lemma BootKeeps(s: State, r: nat, n: Run, b: BootPc, o: Outcome)
    requires n.pc == Bootstrapping(b) && EnabledBoot(s, n, b, o) && RunOk(s, r, n)
    ensures RunOk(EffectBoot(s, r, n, b, o), r, LocalBoot(n, b, o))
  {
  }

  lemma PrepareKeeps(s: State, r: nat, n: Run, p: PreparePc, o: Outcome)
    requires n.pc == Preparing(p) && EnabledPrepare(s, n, p, o) && RunOk(s, r, n) && LinksOk(s)
    ensures RunOk(EffectPrepare(s, n, p, o), r, LocalPrepare(n, p, o))
  {
  }

  lemma BuildKeeps(s: State, r: nat, n: Run, w: BuildPc, o: Outcome)
    requires n.pc == Building(w) && !w.CreateLog? && !w.Persist? && !w.Rename?
    requires EnabledBuild(s, n, w, o) && RunOk(s, r, n)
    ensures RunOk(s, r, LocalBuild(n, w, o))
  {
  }

  lemma PublishKeeps(s: State, r: nat, n: Run, w: BuildPc, o: Outcome)
    requires n.pc == Building(w) && (w.Persist? || w.Rename?) && EnabledBuild(s, n, w, o) && RunOk(s, r, n)
    ensures RunOk(EffectBuild(s, n, w, o), r, LocalBuild(n, w, o))
  {
  }

  lemma LinkKeeps(s: State, r: nat, n: Run, l: LinkPc, o: Outcome)
    requires n.pc == Linking(l) && EnabledLink(s, n, l, o) && RunOk(s, r, n)
    ensures RunOk(EffectLink(s, r, n, l, o), r, LocalLink(n, l, o))
  {
  }

  lemma BuildingKeeps(s: State, r: nat, n: Run, w: BuildPc, o: Outcome)
    requires n.pc == Building(w) && EnabledBuild(s, n, w, o) && RunOk(s, r, n)
    ensures RunOk(EffectBuild(s, n, w, o), r, LocalBuild(n, w, o))
  {
    if w.Persist? || w.Rename? {
      PublishKeeps(s, r, n, w, o);
    } else if !w.CreateLog? {
      BuildKeeps(s, r, n, w, o);
    }
  }

  lemma OwnRunOk(s: State, r: nat, n: Run, o: Outcome)
    requires Enabled(s, n, o) && RunOk(s, r, n) && LinksOk(s)
    ensures RunOk(Effect(s, r, n, o), r, Local(n, o))
  {
    match n.pc
    case Entering(e) => EnterKeeps(s, r, n, e, o);
    case Checking(c) => CheckKeeps(s, r, n, c, o);
    case Bootstrapping(b) => BootKeeps(s, r, n, b, o);
    case Preparing(p) => PrepareKeeps(s, r, n, p, o);
    case Building(w) => BuildingKeeps(s, r, n, w, o);
    case Linking(l) => LinkKeeps(s, r, n, l, o);
    case Leave =>
    case Done =>
  }

  // The other runs

  /** Builds persisted with exit code 0 stay exactly as they are. */
  ghost predicate SuccessKept(s: State, t: State) {
    forall k :: k in s.ready && Succeeded(s.ready[k]) ==> k in t.ready && t.ready[k] == s.ready[k]
  }

  predicate SameAt<K, V(==)>(a: map<K, V>, b: map<K, V>, k: K) {
    (k in a <==> k in b) && (k in a ==> a[k] == b[k])
  }

  /** What run q, at m, relies on: its tokens, its paths and, under the mutex, its project's directories and link
      are untouched, directories are only added and successful builds persist. */
  ghost predicate Undisturbed(s: State, t: State, q: nat, m: Run) {
    var k, p := KeyOf(m.job), m.job.project;
    && SuccessKept(s, t) && s.dirs <= t.dirs
    && (Owns(m.pc) ==> (m.job.id in s.jq ==> m.job.id in t.jq)
                       && SameAt(s.ready, t.ready, k) && SameAt(s.pending, t.pending, k))
    && (HoldsLock(m.pc) ==> SameAt(s.holder, t.holder, p) && SameAt(s.links, t.links, LinkOf(m.job))
                            && forall d :: (p, d) in t.dirs ==> (p, d) in s.dirs)
  }

  lemma RunOkKept(s: State, t: State, q: nat, m: Run)
    requires RunOk(s, q, m) && Undisturbed(s, t, q, m)
    ensures RunOk(t, q, m)
  {
  }

  /** Runs that own IDs own different ones, so they work on different paths; runs in critical sections belong to
      different projects. */
  predicate Apart(n: Run, m: Run) {
    && (Owns(n.pc) && Owns(m.pc) ==> n.job.id != m.job.id)
    && (HoldsLock(n.pc) && HoldsLock(m.pc) ==> n.job.project != m.job.project)
  }

  lemma CheckLeavesAlone(s: State, r: nat, n: Run, c: CheckPc, o: Outcome, q: nat, m: Run)
    requires n.pc == Checking(c) && EnabledCheck(s, n, c, o) && Apart(n, m) && RunOk(s, r, n)
    ensures Undisturbed(s, EffectCheck(s, n, c, o), q, m)
  {
  }

  lemma BootLeavesAlone(s: State, r: nat, n: Run, b: BootPc, o: Outcome, q: nat, m: Run)
    requires n.pc == Bootstrapping(b) && EnabledBoot(s, n, b, o) && Apart(n, m) && RunOk(s, r, n) && TokensOk(s, q, m)
    ensures Undisturbed(s, EffectBoot(s, r, n, b, o), q, m)
  {
  }

  lemma PrepareLeavesAlone(s: State, r: nat, n: Run, p: PreparePc, o: Outcome, q: nat, m: Run)
    requires n.pc == Preparing(p) && EnabledPrepare(s, n, p, o) && Apart(n, m)
    ensures Undisturbed(s, EffectPrepare(s, n, p, o), q, m)
  {
  }

  lemma BuildLeavesAlone(s: State, r: nat, n: Run, w: BuildPc, o: Outcome, q: nat, m: Run)
    requires n.pc == Building(w) && EnabledBuild(s, n, w, o) && Apart(n, m) && RunOk(s, r, n)
    ensures Undisturbed(s, EffectBuild(s, n, w, o), q, m)
  {
  }

  lemma LinkLeavesAlone(s: State, r: nat, n: Run, l: LinkPc, o: Outcome, q: nat, m: Run)
    requires n.pc == Linking(l) && EnabledLink(s, n, l, o) && Apart(n, m) && RunOk(s, r, n) && TokensOk(s, q, m)
    ensures Undisturbed(s, EffectLink(s, r, n, l, o), q, m)
  {
  }

  lemma LeavesAlone(s: State, r: nat, n: Run, o: Outcome, q: nat, m: Run)
    requires Enabled(s, n, o) && RunOk(s, r, n) && RunOk(s, q, m) && Apart(n, m)
    ensures Undisturbed(s, Effect(s, r, n, o), q, m)
  {
    match n.pc
    case Entering(e) =>
    case Checking(c) => CheckLeavesAlone(s, r, n, c, o, q, m);
    case Bootstrapping(b) => BootLeavesAlone(s, r, n, b, o, q, m);
    case Preparing(p) => PrepareLeavesAlone(s, r, n, p, o, q, m);
    case Building(w) => BuildLeavesAlone(s, r, n, w, o, q, m);
    case Linking(l) => LinkLeavesAlone(s, r, n, l, o, q, m);
    case Leave =>
    case Done =>
  }

  // The store

  ghost predicate StoreOk(s: State) { LineageOk(s) && LinksOk(s) && LogsOk(s) }

  lemma StoreKeptSame(s: State, t: State)
    requires StoreOk(s) && SamePublished(s, t)
    ensures StoreOk(t) && SuccessKept(s, t)
  {
    forall k | k in t.ready ensures t.ready[k].order < t.clock && ParentOk(t, k, t.ready[k]) {
      assert ParentOk(s, k, s.ready[k]);
    }
  }

  /** An entry of t is one of s, which keeps at least its place in the lineage. */
  predicate Remains(s: State, t: State, k: Key) {
    && k in s.ready && k in t.ready
    && t.ready[k].order == s.ready[k].order && t.ready[k].base == s.ready[k].base
    && t.ready[k].group == s.ready[k].group
    && (Succeeded(t.ready[k]) ==> t.ready[k] == s.ready[k])
  }

  lemma StoreKeptLess(s: State, t: State)
    requires StoreOk(s) && t.links == s.links && t.clock == s.clock && SuccessKept(s, t)
    requires forall k :: k in t.ready ==> Remains(s, t, k)
    ensures StoreOk(t)
  {
    forall k | k in t.ready ensures t.ready[k].order < t.clock && ParentOk(t, k, t.ready[k]) {
      assert Remains(s, t, k) && ParentOk(s, k, s.ready[k]);
    }
    forall k | k in t.ready && Succeeded(t.ready[k]) ensures t.ready[k].log { assert Remains(s, t, k); }
  }

  lemma StoreKeptCheck(s: State, r: nat, n: Run, c: CheckPc, o: Outcome)
    requires StoreOk(s) && n.pc == Checking(c) && EnabledCheck(s, n, c, o) && RunOk(s, r, n)
    ensures StoreOk(EffectCheck(s, n, c, o)) && SuccessKept(s, EffectCheck(s, n, c, o))
  {
    StoreKeptLess(s, EffectCheck(s, n, c, o));
  }

  lemma StoreKeptBuild(s: State, r: nat, n: Run, w: BuildPc, o: Outcome)
    requires StoreOk(s) && n.pc == Building(w) && EnabledBuild(s, n, w, o) && RunOk(s, r, n)
    ensures StoreOk(EffectBuild(s, n, w, o)) && SuccessKept(s, EffectBuild(s, n, w, o))
  {
    var t := EffectBuild(s, n, w, o);
    forall k | k in t.ready ensures t.ready[k].order < t.clock && ParentOk(t, k, t.ready[k]) {
      if k in s.ready { assert ParentOk(s, k, s.ready[k]); }
    }
  }

  lemma StoreKeptLink(s: State, r: nat, n: Run, l: LinkPc, o: Outcome)
    requires StoreOk(s) && n.pc == Linking(l) && EnabledLink(s, n, l, o) && RunOk(s, r, n)
    ensures StoreOk(EffectLink(s, r, n, l, o)) && SuccessKept(s, EffectLink(s, r, n, l, o))
  {
    var t := EffectLink(s, r, n, l, o);
    forall k | k in t.ready ensures t.ready[k].order < t.clock && ParentOk(t, k, t.ready[k]) {
      assert ParentOk(s, k, s.ready[k]);
    }
  }

  lemma StoreUntouched(s: State, r: nat, n: Run, o: Outcome)
    requires !n.pc.Checking? && !n.pc.Building? && !n.pc.Linking? && Enabled(s, n, o)
    ensures SamePublished(s, Effect(s, r, n, o))
  {
  }

  lemma StoreKept(s: State, r: nat, n: Run, o: Outcome, t: State)
    requires StoreOk(s) && Enabled(s, n, o) && RunOk(s, r, n) && t == Effect(s, r, n, o)
    ensures StoreOk(t) && SuccessKept(s, t)
  {
    if n.pc.Checking? {
      StoreKeptCheck(s, r, n, n.pc.c, o);
    } else if n.pc.Building? {
      StoreKeptBuild(s, r, n, n.pc.w, o);
    } else if n.pc.Linking? {
      StoreKeptLink(s, r, n, n.pc.l, o);
    } else {
      StoreUntouched(s, r, n, o);
      StoreKeptSame(s, t);
    }
  }

  lemma OwnersKept(s: State, runs: map<nat, Run>, r: nat, m: Run)
    requires RunsOk(s) && SingleOwner(s) && r in s.runs && runs == s.runs[r := m] && m.job == s.runs[r].job
    requires Owns(m.pc) && !Owns(s.runs[r].pc) ==> m.job.id !in s.jq
    ensures forall x, y | x in runs && y in runs && Owns(runs[x].pc) && Owns(runs[y].pc) ::
              runs[x].job.id == runs[y].job.id ==> x == y
  {
    forall x, y | x in runs && y in runs && Owns(runs[x].pc) && Owns(runs[y].pc)
      ensures runs[x].job.id == runs[y].job.id ==> x == y
    {
      assert RunOk(s, x, s.runs[x]) && RunOk(s, y, s.runs[y]);
    }
  }

  lemma RunOkSameStore(s: State, runs: map<nat, Run>, r: nat, n: Run)
    requires RunOk(s, r, n)
    ensures RunOk(s.(runs := runs), r, n)
  {
  }

  /** Putting the run that stepped, now m, the others and the store together. */
  lemma InvFromParts(s: State, e: State, r: nat, m: Run)
    requires RunsOk(s) && SingleOwner(s) && StoreOk(e) && r in s.runs && m.job == s.runs[r].job
    requires RunOk(e, r, m) && (Owns(m.pc) && !Owns(s.runs[r].pc) ==> m.job.id !in s.jq)
    requires forall q | q in s.runs && q != r :: RunOk(e, q, s.runs[q])
    ensures Inv(e.(runs := s.runs[r := m]))
  {
    var t := e.(runs := s.runs[r := m]);
    forall q | q in t.runs ensures RunOk(t, q, t.runs[q]) {
      RunOkSameStore(e, t.runs, q, t.runs[q]);
    }
    OwnersKept(s, t.runs, r, m);
    StoreKeptSame(e, t);
  }

  lemma OthersKept(s: State, r: nat, n: Run, o: Outcome, e: State, q: nat, m: Run)
    requires Enabled(s, n, o) && RunOk(s, r, n) && RunOk(s, q, m) && Apart(n, m) && e == Effect(s, r, n, o)
    ensures RunOk(e, q, m)
  {
    LeavesAlone(s, r, n, o, q, m);
    RunOkKept(s, e, q, m);
  }

  lemma SameJob(n: Run, o: Outcome)
    ensures Local(n, o).job == n.job
  {
  }

  lemma InvStepBy(s: State, r: nat, o: Outcome)
    requires Inv(s) && Legal(s, By(r, o))
    ensures Inv(Apply(s, By(r, o))) && SuccessKept(s, Apply(s, By(r, o)))
  {
    var n := s.runs[r];
    var e, m := Effect(s, r, n, o), Local(n, o);
    forall q | q in s.runs && q != r ensures RunOk(e, q, s.runs[q]) {
      OthersKept(s, r, n, o, e, q, s.runs[q]);
    }
    OwnRunOk(s, r, n, o);
    StoreKept(s, r, n, o, e);
    SameJob(n, o);
    InvFromParts(s, e, r, m);
  }

  lemma {:induction false} InvStep(s: State, a: Step)
    requires Inv(s) && Legal(s, a)
    ensures Inv(Apply(s, a)) && SuccessKept(s, Apply(s, a))
  {
    var t := Apply(s, a);
    match a
    case Begin(r, j) =>
      forall q | q in t.runs ensures RunOk(t, q, t.runs[q]) {
        if q != r { RunOkKept(s, t, q, s.runs[q]); }
      }
      StoreKeptSame(s, t);
    case By(r, o) => InvStepBy(s, r, o);
    case Restart(_, _) => StoreKeptSame(s, t);
  }

  lemma {:induction false} InvBehaviour(states: seq<State>, steps: seq<Step>, i: nat)
    requires Behaviour(states, steps) && i <= |steps|
    ensures Inv(states[i])
  {
    if i > 0 {
      InvBehaviour(states, steps, i - 1);
      InvStep(states[i - 1], steps[i - 1]);
    }
  }

  /** The invariant holds in every state of every execution, whatever fails, crashes and interleaves. */
  lemma InvReachable(s: State)
    requires Reachable(s)
    ensures Inv(s)
  {
    var states, steps :| Behaviour(states, steps) && states[|steps|] == s;
    InvBehaviour(states, steps, |steps|);
  }

  lemma {:induction false} PrefixReachable(states: seq<State>, steps: seq<Step>, i: nat)
    requires Behaviour(states, steps) && i <= |steps|
    ensures Reachable(states[i])
  {
    assert Behaviour(states[..i + 1], steps[..i]) && states[..i + 1][|steps[..i]|] == states[i];
  }
}

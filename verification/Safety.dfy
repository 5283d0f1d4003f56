/** What the build protocol guarantees in every reachable state and over every execution. */
module Safety {
  import opened Protocol
  import opened Invariant
  import opened Preservation

  // Links

  /** A `latest` or group link never dangles: it names a published build of its project, published by a job of its
      group, with exit code 0 and no build error. */
  lemma LinkTargets(s: State, l: Link)
    requires Reachable(s) && l in s.links
    ensures s.links[l] in s.ready && s.links[l].project == l.project
    ensures var e := s.ready[s.links[l]];
            e.group == l.group && e.info.Info? && e.info.exit == SUCCESS_EXIT_CODE && !e.info.err
            && e.info.group == l.group
  {
    InvReachable(s);
  }

  // Executions

  lemma {:induction false} SuccessIsStable(states: seq<State>, steps: seq<Step>, i: nat, j: nat, k: Key)
    requires Behaviour(states, steps) && i <= j <= |steps|
    requires k in states[i].ready && Succeeded(states[i].ready[k])
    ensures k in states[j].ready && states[j].ready[k] == states[i].ready[k]
    decreases j
  {
    if i < j {
      SuccessIsStable(states, steps, i, j - 1, k);
      InvBehaviour(states, steps, j - 1);
      InvStep(states[j - 1], steps[j - 1]);
    }
  }

  /** The step a of s is the call `pc` of a run that works on k. */
  predicate CallOn(s: State, a: Step, pc: Pc, k: Key) {
    a.By? && a.r in s.runs && s.runs[a.r].pc == pc && KeyOf(s.runs[a.r].job) == k
  }

  predicate Publishes(s: State, a: Step, k: Key) {
    CallOn(s, a, Building(Rename), k) && a.o.Ok?
  }

  /** Once k is published with exit code 0, no container runs for k, k is not removed and not published again. */
  lemma NoWorkAfterSuccess(states: seq<State>, steps: seq<Step>, i: nat, j: nat, k: Key)
    requires Behaviour(states, steps) && i <= j < |steps|
    requires k in states[i].ready && Succeeded(states[i].ready[k])
    ensures !CallOn(states[j], steps[j], Building(RunContainer), k)
    ensures !CallOn(states[j], steps[j], Checking(Remove), k) && !CallOn(states[j], steps[j], Checking(Removing), k)
    ensures !Publishes(states[j], steps[j], k)
  {
    SuccessIsStable(states, steps, i, j, k);
    InvBehaviour(states, steps, j);
    if steps[j].By? && steps[j].r in states[j].runs {
      assert RunOk(states[j], steps[j].r, states[j].runs[steps[j].r]);
    }
  }

  /** A path is published with exit code 0 at most once in the life of the build directory, restarts included. */
  lemma SuccessIsUnique(states: seq<State>, steps: seq<Step>, i: nat, j: nat, k: Key)
    requires Behaviour(states, steps) && i < |steps| && j < |steps|
    requires Publishes(states[i], steps[i], k) && Succeeded(states[i + 1].ready[k])
    requires Publishes(states[j], steps[j], k) && Succeeded(states[j + 1].ready[k])
    ensures i == j
  {
    if i < j {
      NoWorkAfterSuccess(states, steps, i + 1, j, k);
    } else if j < i {
      NoWorkAfterSuccess(states, steps, j + 1, i, k);
    }
  }

  // Single writer

  predicate SameAtKey(s: State, t: State, k: Key) {
    SameAt(s.pending, t.pending, k) && SameAt(s.ready, t.ready, k)
  }

  lemma UntouchedByCheck(s: State, n: Run, c: CheckPc, o: Outcome, k: Key)
    requires EnabledCheck(s, n, c, o) && KeyOf(n.job) != k
    ensures SameAtKey(s, EffectCheck(s, n, c, o), k)
  {
  }

  lemma UntouchedByPrepare(s: State, n: Run, p: PreparePc, o: Outcome, k: Key)
    requires EnabledPrepare(s, n, p, o) && KeyOf(n.job) != k
    ensures SameAtKey(s, EffectPrepare(s, n, p, o), k)
  {
  }

  lemma UntouchedByBuild(s: State, n: Run, w: BuildPc, o: Outcome, k: Key)
    requires EnabledBuild(s, n, w, o) && KeyOf(n.job) != k
    ensures SameAtKey(s, EffectBuild(s, n, w, o), k)
  {
  }

  lemma UntouchedByRest(s: State, r: nat, n: Run, o: Outcome)
    requires Enabled(s, n, o) && !n.pc.Checking? && !n.pc.Preparing? && !n.pc.Building?
    ensures Effect(s, r, n, o).pending == s.pending && Effect(s, r, n, o).ready == s.ready
  {
  }

  lemma UntouchedKey(s: State, r: nat, n: Run, o: Outcome, k: Key, e: State)
    requires Enabled(s, n, o) && (Owns(n.pc) ==> KeyOf(n.job) != k) && e == Effect(s, r, n, o)
    ensures SameAtKey(s, e, k)
  {
    if n.pc.Checking? {
      UntouchedByCheck(s, n, n.pc.c, o, k);
    } else if n.pc.Preparing? {
      UntouchedByPrepare(s, n, n.pc.p, o, k);
    } else if n.pc.Building? {
      UntouchedByBuild(s, n, n.pc.w, o, k);
    } else {
      UntouchedByRest(s, r, n, o);
    }
  }

  /** Whatever a run changes below `pending/<id>` or `ready/<id>`, it is the only owner of that ID. */
  lemma OnlyTheOwnerWrites(s: State, r: nat, o: Outcome, k: Key)
    requires Reachable(s) && Legal(s, By(r, o)) && !SameAtKey(s, Apply(s, By(r, o)), k)
    ensures KeyOf(s.runs[r].job) == k && Owns(s.runs[r].pc) && k.id in s.jq
    ensures forall q :: q in s.runs && Owns(s.runs[q].pc) && s.runs[q].job.id == k.id ==> q == r
  {
    InvReachable(s);
    assert RunOk(s, r, s.runs[r]);
    var e, t := Effect(s, r, s.runs[r], o), Apply(s, By(r, o));
    assert t.pending == e.pending && t.ready == e.ready;
    if !(Owns(s.runs[r].pc) && KeyOf(s.runs[r].job) == k) { UntouchedKey(s, r, s.runs[r], o, k, e); }
  }

  /** A run that reaches the rename finds its pending directory there and its target absent. What it publishes is its
      final build info, certainly so while it has met no error, or else the initial one or an unreadable one; so exit
      code 0 is published only if it is the run's own. */
  lemma Publication(s: State, r: nat)
    requires Reachable(s) && r in s.runs && s.runs[r].pc == Building(Rename)
    ensures var n := s.runs[r]; var k := KeyOf(n.job);
            && Legal(s, By(r, Ok)) && k in s.pending && k !in s.ready
            && var t := Apply(s, By(r, Ok));
            && k in t.ready && k !in t.pending && t.ready[k].info == s.pending[k].info
            && (!n.err ==> t.ready[k].info == FinalInfo(n) && !n.errBuild)
            && t.ready[k].info in {FinalInfo(n), Info(PENDING_EXIT_CODE, false, n.job.group, n.src.Some?), Unreadable}
            && (Succeeded(t.ready[k]) ==> n.exit == SUCCESS_EXIT_CODE)
            && (Good(t.ready[k]) ==> n.exit == SUCCESS_EXIT_CODE && !n.errBuild)
  {
    InvReachable(s);
    assert RunOk(s, r, s.runs[r]);
  }

  /** While other runs step, an owner stays as it is, and so does its pending directory. */
  lemma {:induction false} OwnerWaits(states: seq<State>, steps: seq<Step>, i: nat, j: nat, r: nat)
    requires Behaviour(states, steps) && i <= j <= |steps| && r in states[i].runs && Owns(states[i].runs[r].pc)
    requires forall h :: i <= h < j ==> !steps[h].Restart? && steps[h].r != r
    ensures r in states[j].runs && states[j].runs[r] == states[i].runs[r]
    ensures SameAt(states[i].pending, states[j].pending, KeyOf(states[i].runs[r].job))
    decreases j
  {
    if i < j {
      OwnerWaits(states, steps, i, j - 1, r);
      OwnerWaitsOnce(states, steps, j, r);
    }
  }

  lemma OwnerWaitsOnce(states: seq<State>, steps: seq<Step>, j: nat, r: nat)
    requires Behaviour(states, steps) && 0 < j <= |steps| && r in states[j - 1].runs && Owns(states[j - 1].runs[r].pc)
    requires !steps[j - 1].Restart? && steps[j - 1].r != r
    ensures r in states[j].runs && states[j].runs[r] == states[j - 1].runs[r]
    ensures SameAt(states[j - 1].pending, states[j].pending, KeyOf(states[j - 1].runs[r].job))
  {
    assert Legal(states[j - 1], steps[j - 1]) && states[j] == Apply(states[j - 1], steps[j - 1]);
    InvBehaviour(states, steps, j - 1);
    OtherStep(states[j - 1], steps[j - 1], r);
  }

  lemma OtherStep(s: State, a: Step, r: nat)
    requires Inv(s) && Legal(s, a) && !a.Restart? && a.r != r && r in s.runs && Owns(s.runs[r].pc)
    ensures SameAt(s.pending, Apply(s, a).pending, KeyOf(s.runs[r].job))
  {
    if a.By? {
      UntouchedKey(s, a.r, s.runs[a.r], a.o, KeyOf(s.runs[r].job), Effect(s, a.r, s.runs[a.r], a.o));
    }
  }

  /** A run publishes a successful build if and only if its container exited with 0, it had met no error up to the last
      persist, and that wrote the build info, even if it then reported an error: i is the persist, j the rename. */
  lemma PublishesSuccess(states: seq<State>, steps: seq<Step>, i: nat, j: nat, r: nat, o: Outcome)
    requires Behaviour(states, steps) && i < j < |steps| && steps[i] == By(r, o) && steps[j] == By(r, Ok)
    requires r in states[i].runs && states[i].runs[r].pc == Building(Persist)
    requires forall h :: i < h < j ==> !steps[h].Restart? && steps[h].r != r
    ensures var n := states[i].runs[r]; var k := KeyOf(n.job);
            && Publishes(states[j], steps[j], k) && k in states[j + 1].ready
            && (Good(states[j + 1].ready[k]) <==> n.exit == SUCCESS_EXIT_CODE && !n.err && (o.Ok? || o.LateFail?))
  {
    var s, n := states[i], states[i].runs[r];
    assert Legal(s, steps[i]) && states[i + 1] == Apply(s, steps[i]);
    InvBehaviour(states, steps, i);
    OwnerWaits(states, steps, i + 1, j, r);
    assert Legal(states[j], steps[j]) && states[j + 1] == Apply(states[j], steps[j]);
    InvBehaviour(states, steps, j);
    RenamePublishes(states[j], r);
  }

  lemma RenamePublishes(s: State, r: nat)
    requires r in s.runs && s.runs[r].pc == Building(Rename) && Legal(s, By(r, Ok))
    ensures var n, t := s.runs[r], Apply(s, By(r, Ok)); var k := KeyOf(n.job);
            && k in s.pending && k in t.ready
            && t.ready[k].info == s.pending[k].info && t.ready[k].group == n.job.group
  {
  }

  // From a link back to the container

  /** The step a of s is the end of r's container on k: code is what it reports, failed that docker failed. */
  predicate RanContainer(s: State, a: Step, r: nat, k: Key, code: int, failed: bool) {
    CallOn(s, a, Building(RunContainer), k) && a.r == r && a.o == Exited(code, failed)
  }

  /** The run has met an error before its last persist. */
  predicate Failed(n: Run) {
    if n.pc == Building(Rename) || n.pc.Linking? || n.pc.Leave? || n.pc.Done? then n.errBuild else n.err
  }

  lemma FailedStays(n: Run, o: Outcome)
    requires n.pc.Building? || n.pc.Linking? || n.pc.Leave? || n.pc.Done?
    ensures Failed(n) ==> Failed(Local(n, o))
  {
  }

  /** Before state i, a container of run r on k reported code; when `clean`, docker had not failed. */
  ghost predicate Ran(states: seq<State>, steps: seq<Step>, i: nat, r: nat, k: Key, code: int, clean: bool)
    requires |states| == |steps| + 1 && i <= |steps|
  {
    exists h: nat, failed | h < i :: RanContainer(states[h], steps[h], r, k, code, failed) && !(clean && failed)
  }

  /** An exit code other than the initial one was reported by the run's own container; if the run met no error before
      its last persist, docker had not failed either. */
  lemma {:induction false} ExitCodeSource(states: seq<State>, steps: seq<Step>, i: nat, r: nat)
    requires Behaviour(states, steps) && i <= |steps| && r in states[i].runs
    requires states[i].runs[r].exit != PENDING_EXIT_CODE
    ensures var n := states[i].runs[r]; Ran(states, steps, i, r, KeyOf(n.job), n.exit, !Failed(n))
  {
    if i > 0 {
      var s, a, m := states[i - 1], steps[i - 1], states[i].runs[r];
      assert Legal(s, a) && states[i] == Apply(s, a);
      if a.By? && a.r == r && s.runs[r].pc == Building(RunContainer) {
        RanNow(states, steps, i, r);
      } else {
        InvBehaviour(states, steps, i - 1);
        KeepsCode(s, a, r);
        ExitCodeSource(states, steps, i - 1, r);
      }
    }
  }

  lemma CodeStays(s: State, r: nat, o: Outcome)
    requires Inv(s) && Legal(s, By(r, o)) && s.runs[r].pc != Building(RunContainer)
    requires Local(s.runs[r], o).exit != PENDING_EXIT_CODE
    ensures var n, m := s.runs[r], Local(s.runs[r], o);
            m.exit == n.exit && m.job == n.job && (Failed(n) ==> Failed(m))
  {
    var n := s.runs[r];
    assert RunOk(s, r, n);
    SameJob(n, o);
    FailedStays(n, o);
  }

  lemma KeepsCode(s: State, a: Step, r: nat)
    requires Inv(s) && Legal(s, a) && r in Apply(s, a).runs && Apply(s, a).runs[r].exit != PENDING_EXIT_CODE
    requires !(a.By? && a.r == r && s.runs[r].pc == Building(RunContainer))
    ensures r in s.runs
    ensures var n, m := s.runs[r], Apply(s, a).runs[r];
            m.exit == n.exit && m.job == n.job && (Failed(n) ==> Failed(m))
  {
    if a.By? && a.r == r { CodeStays(s, r, a.o); }
  }

  lemma RanNow(states: seq<State>, steps: seq<Step>, i: nat, r: nat)
    requires Behaviour(states, steps) && 0 < i <= |steps| && r in states[i - 1].runs && r in states[i].runs
    requires steps[i - 1].By? && steps[i - 1].r == r && states[i - 1].runs[r].pc == Building(RunContainer)
    ensures var n := states[i].runs[r]; Ran(states, steps, i, r, KeyOf(n.job), n.exit, !Failed(n))
  {
    var s, a := states[i - 1], steps[i - 1];
    assert Legal(s, a) && states[i] == Apply(s, a);
    SameJob(s.runs[r], a.o);
    var m := states[i].runs[r];
    assert RanContainer(states[i - 1], steps[i - 1], r, KeyOf(m.job), m.exit, a.o.failed);
    assert !(!Failed(m) && a.o.failed);
  }

  /** The build at k is the same as before but for its log. */
  predicate SameButLog(a: map<Key, Entry>, b: map<Key, Entry>, k: Key) {
    k in a && k in b && b[k] == a[k].(log := b[k].log)
  }

  lemma EntryAfterCheck(s: State, n: Run, c: CheckPc, o: Outcome, k: Key)
    requires EnabledCheck(s, n, c, o)
    requires k in EffectCheck(s, n, c, o).ready && EffectCheck(s, n, c, o).ready[k].info.Info?
    ensures SameButLog(s.ready, EffectCheck(s, n, c, o).ready, k)
  {
  }

  lemma CheckAddsNothing(s: State, n: Run, c: CheckPc, o: Outcome, k: Key)
    requires EnabledCheck(s, n, c, o) && k !in s.ready
    ensures k !in EffectCheck(s, n, c, o).ready
  {
  }

  lemma EntryAfterBuild(s: State, n: Run, w: BuildPc, o: Outcome, k: Key)
    requires EnabledBuild(s, n, w, o)
    ensures SameAt(s.ready, EffectBuild(s, n, w, o).ready, k) || (w.Rename? && o.Ok? && k == KeyOf(n.job))
  {
  }

  /** A step adds or changes a published build by publishing it, unless it makes it unreadable or loses its log. */
  lemma EntrySource(s: State, a: Step, k: Key)
    requires Inv(s) && Legal(s, a) && k in Apply(s, a).ready && Apply(s, a).ready[k].info.Info?
    ensures SameButLog(s.ready, Apply(s, a).ready, k) || Publishes(s, a, k)
  {
    if a.By? {
      var n, e := s.runs[a.r], Effect(s, a.r, s.runs[a.r], a.o);
      assert RunOk(s, a.r, n);
      if n.pc.Checking? {
        EntryAfterCheck(s, n, n.pc.c, a.o, k);
      } else if n.pc.Building? {
        EntryAfterBuild(s, n, n.pc.w, a.o, k);
      }
    }
  }

  /** Every successful build goes back to a container on its path that exited with 0 while docker did not fail. */
  lemma {:induction false} GoodBuildRan(states: seq<State>, steps: seq<Step>, i: nat, k: Key)
    requires Behaviour(states, steps) && i <= |steps| && k in states[i].ready && Good(states[i].ready[k])
    ensures exists h: nat, r | h < i :: RanContainer(states[h], steps[h], r, k, SUCCESS_EXIT_CODE, false)
  {
    if i > 0 {
      var s, a := states[i - 1], steps[i - 1];
      InvBehaviour(states, steps, i - 1);
      EntrySource(s, a, k);
      if Publishes(s, a, k) {
        assert RunOk(s, a.r, s.runs[a.r]);
        ExitCodeSource(states, steps, i - 1, a.r);
        var n := s.runs[a.r];
        assert n.exit == SUCCESS_EXIT_CODE && !Failed(n) && KeyOf(n.job) == k;
      } else {
        GoodBuildRan(states, steps, i - 1, k);
      }
    }
  }

  lemma LinkedBuildRan(states: seq<State>, steps: seq<Step>, i: nat, l: Link)
    requires Behaviour(states, steps) && i <= |steps| && l in states[i].links
    ensures exists h: nat, r | h < i ::
              RanContainer(states[h], steps[h], r, states[i].links[l], SUCCESS_EXIT_CODE, false)
  {
    InvBehaviour(states, steps, i);
    GoodBuildRan(states, steps, i, states[i].links[l]);
  }

  // Check-then-act under the project mutex

  /** Between the check and the act of the link swap and of every EnsureDirExists, nobody else has acted: Remove
      finds the link, Symlink and Mkdir find nothing, and the parents of a new directory exist. */
  lemma ChecksStillHold(s: State, r: nat)
    requires Reachable(s) && r in s.runs
    ensures var n := s.runs[r]; var p := n.job.project;
            && (n.pc == Linking(LinkRemove) ==> LinkOf(n.job) in s.links)
            && (n.pc == Linking(LinkCreate) ==> LinkOf(n.job) !in s.links)
            && (n.pc.Bootstrapping? && n.pc.b.BootMkdir? ==>
                  (p, n.pc.b.d) !in s.dirs && (n.pc.b.d.RootDir? || (p, RootDir) in s.dirs))
  {
    InvReachable(s);
    assert RunOk(s, r, s.runs[r]);
  }

  /** The directories BootstrapProject is to ensure for j. */
  function Required(j: Job): set<Dir> { {RootDir, PendingDir, ReadyDir} + if j.group != "" then {GroupsDir} else {} }

  /** Before state i a run of a job of project p that requires d made d. */
  ghost predicate Made(states: seq<State>, steps: seq<Step>, i: nat, p: string, d: Dir)
    requires |states| == |steps| + 1 && i <= |steps|
  {
    exists h: nat | h < i :: MakesDir(states[h], steps[h], p, d)
  }

  predicate MakesDir(s: State, a: Step, p: string, d: Dir) {
    && a.By? && a.r in s.runs && s.runs[a.r].pc == Bootstrapping(BootMkdir(d)) && a.o.Ok?
    && s.runs[a.r].job.project == p && d in Required(s.runs[a.r].job) && (p, d) !in s.dirs
  }

  /** Directories stay, and a new one is made by a run that requires it. */
  lemma DirsStep(s: State, a: Step, p: string, d: Dir)
    requires Inv(s) && Legal(s, a)
    ensures (p, d) in s.dirs ==> (p, d) in Apply(s, a).dirs
    ensures (p, d) in Apply(s, a).dirs ==> (p, d) in s.dirs || MakesDir(s, a, p, d)
  {
    if a.By? {
      var n := s.runs[a.r];
      assert RunOk(s, a.r, n);
    }
  }

  lemma DirsNext(states: seq<State>, steps: seq<Step>, i: nat, p: string, d: Dir)
    requires Behaviour(states, steps) && 0 < i <= |steps|
    ensures (p, d) in states[i - 1].dirs ==> (p, d) in states[i].dirs
    ensures (p, d) in states[i].dirs ==> (p, d) in states[i - 1].dirs || MakesDir(states[i - 1], steps[i - 1], p, d)
  {
    assert Legal(states[i - 1], steps[i - 1]) && states[i] == Apply(states[i - 1], steps[i - 1]);
    InvBehaviour(states, steps, i - 1);
    DirsStep(states[i - 1], steps[i - 1], p, d);
  }

  lemma {:induction false} DirsStay(states: seq<State>, steps: seq<Step>, i: nat, j: nat, p: string, d: Dir)
    requires Behaviour(states, steps) && i <= j <= |steps| && (p, d) in states[i].dirs
    ensures (p, d) in states[j].dirs
    decreases j
  {
    if i < j {
      DirsStay(states, steps, i, j - 1, p, d);
      DirsNext(states, steps, j, p, d);
    }
  }

  lemma {:induction false} DirsMade(states: seq<State>, steps: seq<Step>, i: nat, p: string, d: Dir)
    requires Behaviour(states, steps) && i <= |steps| && (p, d) in states[i].dirs
    ensures Made(states, steps, i, p, d)
  {
    if i > 0 {
      DirsNext(states, steps, i, p, d);
      if (p, d) in states[i - 1].dirs {
        DirsMade(states, steps, i - 1, p, d);
        var h: nat :| h < i - 1 && MakesDir(states[h], steps[h], p, d);
        assert MakesDir(states[h], steps[h], p, d);
      } else {
        assert MakesDir(states[i - 1], steps[i - 1], p, d);
      }
    }
  }

  /** Concurrent BootstrapProject calls converge to exactly the required set. Once a run has got through, at state i,
      its project has all the directories its job requires, in every later state j, restarts included; and whatever
      directory a project has was made by a run of it that required it. */
  lemma BootstrapConverges(states: seq<State>, steps: seq<Step>, i: nat, j: nat, r: nat)
    requires Behaviour(states, steps) && i <= j <= |steps| && r in states[i].runs
    requires states[i].runs[r].pc.Preparing? || states[i].runs[r].pc.Building? || states[i].runs[r].pc.Linking?
    ensures var n := states[i].runs[r]; var p := n.job.project;
            && (forall d :: d in Required(n.job) ==> (p, d) in states[j].dirs)
            && (forall d :: (p, d) in states[j].dirs ==> Made(states, steps, j, p, d))
  {
    InvBehaviour(states, steps, i);
    var n := states[i].runs[r];
    assert RunOk(states[i], r, n);
    forall d | d in Required(n.job) ensures (n.job.project, d) in states[j].dirs {
      DirsStay(states, steps, i, j, n.job.project, d);
    }
    forall d | (n.job.project, d) in states[j].dirs ensures Made(states, steps, j, n.job.project, d) {
      DirsMade(states, steps, j, n.job.project, d);
    }
  }

  /** One run at a time is inside the critical sections of a project. */
  lemma MutualExclusion(s: State, r: nat, q: nat)
    requires Reachable(s) && r in s.runs && q in s.runs && r != q
    requires HoldsLock(s.runs[r].pc) && HoldsLock(s.runs[q].pc)
    ensures s.runs[r].job.project != s.runs[q].job.project
  {
    InvReachable(s);
  }
}

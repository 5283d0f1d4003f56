/** Executions from a given state, and why no run of the build protocol is ever stuck for good. */
module Progress {
  import opened Protocol
  import opened Preservation

  // Executing a sequence of steps

  predicate LegalAll(s: State, steps: seq<Step>)
    decreases |steps|
  {
    steps == [] || (Legal(s, steps[0]) && LegalAll(Apply(s, steps[0]), steps[1..]))
  }

  function Exec(s: State, steps: seq<Step>): State
    requires LegalAll(s, steps)
    decreases |steps|
  {
    if steps == [] then s else Exec(Apply(s, steps[0]), steps[1..])
  }

  lemma ReachableStep(s: State, a: Step)
    requires Reachable(s) && Legal(s, a)
    ensures Reachable(Apply(s, a))
  {
    var states, steps :| Behaviour(states, steps) && states[|steps|] == s;
    var t := states + [Apply(s, a)];
    assert Behaviour(t, steps + [a]) && t[|steps + [a]|] == Apply(s, a);
  }

  lemma {:induction false} ReachableExec(s: State, steps: seq<Step>)
    requires Reachable(s) && LegalAll(s, steps)
    ensures Reachable(Exec(s, steps))
    decreases |steps|
  {
    if steps != [] {
      ReachableStep(s, steps[0]);
      ReachableExec(Apply(s, steps[0]), steps[1..]);
    }
  }

  lemma ExecOne(s: State, a: Step)
    requires Legal(s, a)
    ensures LegalAll(s, [a]) && Exec(s, [a]) == Apply(s, a)
  {
    assert [a][1..] == [];
  }

  lemma {:induction false} ExecAppend(s: State, a: seq<Step>, b: seq<Step>)
    requires LegalAll(s, a) && LegalAll(Exec(s, a), b)
    ensures LegalAll(s, a + b) && Exec(s, a + b) == Exec(Exec(s, a), b)
    decreases |a|
  {
    if a == [] {
      assert a + b == b;
    } else {
      ExecAppend(Apply(s, a[0]), a[1..], b);
      assert (a + b)[1..] == a[1..] + b;
    }
  }

  /** Some execution continues from s to t. */
  ghost predicate Leads(s: State, t: State) { exists steps :: LegalAll(s, steps) && Exec(s, steps) == t }

  lemma LeadsHere(s: State)
    ensures Leads(s, s)
  {
    assert LegalAll(s, []) && Exec(s, []) == s;
  }

  lemma LeadsStep(s: State, t: State, a: Step)
    requires Leads(s, t) && Legal(t, a)
    ensures Leads(s, Apply(t, a))
  {
    var steps :| LegalAll(s, steps) && Exec(s, steps) == t;
    ExecAppend(s, steps, [a]);
    assert LegalAll(s, steps + [a]) && Exec(s, steps + [a]) == Apply(t, a);
  }

  lemma LeadsToReachable(s: State, t: State)
    requires Reachable(s) && Leads(s, t)
    ensures Reachable(t)
  {
    var steps :| LegalAll(s, steps) && Exec(s, steps) == t;
    ReachableExec(s, steps);
  }

  lemma EmptyIsReachable()
    ensures Reachable(EMPTY)
  {
    assert Behaviour([EMPTY], []) && [EMPTY][0] == EMPTY;
  }

  /** Steps of runs other than r, without restarts. */
  predicate OthersOnly(steps: seq<Step>, r: nat) {
    forall i :: 0 <= i < |steps| ==> !steps[i].Restart? && steps[i].r != r
  }

  lemma {:induction false} OthersLeaveRun(s: State, steps: seq<Step>, r: nat)
    requires LegalAll(s, steps) && OthersOnly(steps, r) && r in s.runs
    ensures r in Exec(s, steps).runs && Exec(s, steps).runs[r] == s.runs[r]
    decreases |steps|
  {
    if steps != [] {
      OthersLeaveRun(Apply(s, steps[0]), steps[1..], r);
    }
  }

  // The holder of a mutex is in one of its critical sections

  predicate HolderOk(s: State, p: string) {
    p in s.holder ==> s.holder[p] in s.runs && HoldsLock(s.runs[s.holder[p]].pc) && s.runs[s.holder[p]].job.project == p
  }

  ghost predicate HoldersOk(s: State) { forall p :: HolderOk(s, p) }

  predicate LockStep(s: State, r: nat, n: Run, m: Run, e: State) {
    var p := n.job.project;
    && (HoldsLock(n.pc) == HoldsLock(m.pc) ==> e.holder == s.holder)
    && (!HoldsLock(n.pc) && HoldsLock(m.pc) ==> p !in s.holder && e.holder == s.holder[p := r])
    && (HoldsLock(n.pc) && !HoldsLock(m.pc) ==> e.holder == s.holder - {p})
  }

  lemma LockStepBoot(s: State, r: nat, n: Run, b: BootPc, o: Outcome)
    requires n.pc == Bootstrapping(b) && EnabledBoot(s, n, b, o)
    ensures LockStep(s, r, n, LocalBoot(n, b, o), EffectBoot(s, r, n, b, o))
  {
  }

  lemma LockStepLink(s: State, r: nat, n: Run, c: LinkPc, o: Outcome)
    requires n.pc == Linking(c) && EnabledLink(s, n, c, o)
    ensures LockStep(s, r, n, LocalLink(n, c, o), EffectLink(s, r, n, c, o))
  {
  }

  lemma HolderUntouched(s: State, r: nat, n: Run, o: Outcome)
    requires !n.pc.Bootstrapping? && !n.pc.Linking? && Enabled(s, n, o)
    ensures Effect(s, r, n, o).holder == s.holder
  {
  }

  lemma NoLockTaken(n: Run, o: Outcome)
    requires !n.pc.Bootstrapping? && !n.pc.Linking?
    ensures !HoldsLock(n.pc) && !HoldsLock(Local(n, o).pc)
  {
  }

  lemma HoldersStep(s: State, a: Step)
    requires HoldersOk(s) && Legal(s, a)
    ensures HoldersOk(Apply(s, a))
  {
    var t := Apply(s, a);
    forall p ensures HolderOk(t, p) {
      assert HolderOk(s, p);
      if a.By? {
        var n := s.runs[a.r];
        var m, e := Local(n, a.o), Effect(s, a.r, n, a.o);
        SameJob(n, a.o);
        HoldersStepBy(s, a.r, n, a.o, m, e, p);
      }
    }
  }

  lemma HoldersStepBy(s: State, r: nat, n: Run, o: Outcome, m: Run, e: State, p: string)
    requires HolderOk(s, p) && r in s.runs && n == s.runs[r] && Enabled(s, n, o)
    requires m == Local(n, o) && e == Effect(s, r, n, o) && m.job == n.job
    ensures HolderOk(e.(runs := s.runs[r := m]), p)
  {
    if n.pc.Bootstrapping? {
      LockStepBoot(s, r, n, n.pc.b, o);
    } else if n.pc.Linking? {
      LockStepLink(s, r, n, n.pc.l, o);
    } else {
      HolderUntouched(s, r, n, o);
      NoLockTaken(n, o);
    }
    assert LockStep(s, r, n, m, e);
  }

  lemma {:induction false} HoldersInBehaviour(states: seq<State>, steps: seq<Step>, i: nat)
    requires Behaviour(states, steps) && i <= |steps|
    ensures HoldersOk(states[i])
  {
    if i > 0 {
      HoldersInBehaviour(states, steps, i - 1);
      HoldersStep(states[i - 1], steps[i - 1]);
    }
  }

  lemma HoldersReachable(s: State)
    requires Reachable(s)
    ensures HoldersOk(s)
  {
    var states, steps :| Behaviour(states, steps) && states[|steps|] == s;
    HoldersInBehaviour(states, steps, |steps|);
  }

  // Every unfinished run can go on

  /** Waiting for a project mutex that another run holds. */
  predicate Blocked(s: State, n: Run) {
    (n.pc == Bootstrapping(BootLock) || n.pc == Linking(LinkLock)) && n.job.project in s.holder
  }

  /** An outcome that is possible in s. */
  function SomeOutcome(s: State, n: Run): Outcome {
    match n.pc
    case Entering(e) => if e.Start? then (if n.job.id in s.jq then Busy else Ok) else Fail
    case Checking(_) => Fail
    case Bootstrapping(b) => if b.BootLock? || b.BootUnlock? then Ok else Fail
    case Preparing(p) => if p.Resolve? && n.job.group == "" then NotExist else Fail
    case Building(w) => if w.RunContainer? then Exited(0, true) else Fail
    case Linking(l) => if l.LinkLock? || l.LinkUnlock? then Ok else Fail
    case Leave => Ok
    case Done => Ok
  }

  /** The steps with which run q, inside a critical section, can leave it. */
  function Release(n: Run, q: nat): seq<Step> {
    if n.pc == Bootstrapping(BootUnlock) || n.pc == Linking(LinkUnlock) then [By(q, Ok)] else [By(q, Fail), By(q, Ok)]
  }

  lemma UnlockFrees(s: State, q: nat)
    requires q in s.runs && (s.runs[q].pc == Bootstrapping(BootUnlock) || s.runs[q].pc == Linking(LinkUnlock))
    ensures Legal(s, By(q, Ok)) && Apply(s, By(q, Ok)).holder == s.holder - {s.runs[q].job.project}
  {
  }

  lemma ReleaseWorks(s: State, q: nat)
    requires q in s.runs && HoldsLock(s.runs[q].pc)
    ensures var steps := Release(s.runs[q], q);
            LegalAll(s, steps) && Exec(s, steps).holder == s.holder - {s.runs[q].job.project}
  {
    var n, steps := s.runs[q], Release(s.runs[q], q);
    if n.pc == Bootstrapping(BootUnlock) || n.pc == Linking(LinkUnlock) {
      UnlockFrees(s, q);
      assert steps[1..] == [];
    } else {
      var t := Apply(s, By(q, Fail));
      UnlockFrees(t, q);
      var u := Apply(t, By(q, Ok));
      assert steps[1..] == [By(q, Ok)] && [By(q, Ok)][1..] == [];
      assert LegalAll(u, []) && LegalAll(t, [By(q, Ok)]);
      assert Exec(t, [By(q, Ok)]) == Exec(u, []) == u;
    }
  }

  // Leaving a critical section

  /** A bound on the steps a holder of a project mutex still takes before it has released it. */
  function CriticalLeft(n: Run): nat
    requires HoldsLock(n.pc)
  {
    match n.pc
    case Bootstrapping(b) => BootLeft(b) - BootLeft(BootUnlock) + 1
    case Linking(l) => LinkLeft(l) - LinkLeft(LinkUnlock) + 1
  }

  /** The steps of run q among steps. */
  function StepsOf(steps: seq<Step>, q: nat): nat {
    if steps == [] then 0 else (if steps[0].By? && steps[0].r == q then 1 else 0) + StepsOf(steps[1..], q)
  }

  predicate NoRestart(steps: seq<Step>) { forall i :: 0 <= i < |steps| ==> !steps[i].Restart? }

  lemma CriticalBoot(s: State, n: Run, b: BootPc, o: Outcome)
    requires n.pc == Bootstrapping(b) && HoldsLock(n.pc) && EnabledBoot(s, n, b, o)
    ensures var m := LocalBoot(n, b, o);
            if b.BootUnlock? then !HoldsLock(m.pc) else HoldsLock(m.pc) && CriticalLeft(m) < CriticalLeft(n)
  {
  }

  lemma CriticalLink(s: State, n: Run, l: LinkPc, o: Outcome)
    requires n.pc == Linking(l) && HoldsLock(n.pc) && EnabledLink(s, n, l, o)
    ensures var m := LocalLink(n, l, o);
            if l.LinkUnlock? then !HoldsLock(m.pc) else HoldsLock(m.pc) && CriticalLeft(m) < CriticalLeft(n)
  {
  }

  /** Whatever a call of the holder reports, the holder has then released the mutex or is nearer to doing so. */
  lemma HolderStep(s: State, q: nat, o: Outcome)
    requires q in s.runs && HoldsLock(s.runs[q].pc) && Legal(s, By(q, o))
    ensures var n, t := s.runs[q], Apply(s, By(q, o));
            || t.holder == s.holder - {n.job.project}
            || (HoldsLock(t.runs[q].pc) && t.holder == s.holder && t.runs[q].job == n.job
                && CriticalLeft(t.runs[q]) < CriticalLeft(n))
  {
    var n := s.runs[q];
    SameJob(n, o);
    if n.pc.Bootstrapping? {
      CriticalBoot(s, n, n.pc.b, o);
      LockStepBoot(s, q, n, n.pc.b, o);
    } else {
      CriticalLink(s, n, n.pc.l, o);
      LockStepLink(s, q, n, n.pc.l, o);
    }
  }

  /** p has been released after some of the steps. */
  ghost predicate Released(s: State, steps: seq<Step>, p: string)
    requires LegalAll(s, steps)
  {
    exists m: nat :: m <= |steps| && LegalAll(s, steps[..m]) && p !in Exec(s, steps[..m]).holder
  }

  lemma ReleasedLater(s: State, steps: seq<Step>, p: string)
    requires steps != [] && LegalAll(s, steps)
    requires Released(Apply(s, steps[0]), steps[1..], p)
    ensures Released(s, steps, p)
  {
    var t, rest := Apply(s, steps[0]), steps[1..];
    var m: nat :| m <= |rest| && LegalAll(t, rest[..m]) && p !in Exec(t, rest[..m]).holder;
    assert steps[..m + 1][1..] == rest[..m];
    assert LegalAll(s, steps[..m + 1]) && p !in Exec(s, steps[..m + 1]).holder;
  }

  lemma ReleasedNow(s: State, steps: seq<Step>, p: string)
    requires steps != [] && LegalAll(s, steps) && p !in Apply(s, steps[0]).holder
    ensures Released(s, steps, p)
  {
    assert steps[..1] == [steps[0]];
    ExecOne(s, steps[0]);
    assert LegalAll(s, steps[..1]) && p !in Exec(s, steps[..1]).holder;
  }

  /** However the calls of the holder and of all other runs turn out and interleave, the mutex has been released by
      the time the holder has taken CriticalLeft steps. */
  lemma {:induction false} CriticalSectionEnds(s: State, steps: seq<Step>, q: nat)
    requires q in s.runs && HoldsLock(s.runs[q].pc) && LegalAll(s, steps) && NoRestart(steps)
    requires StepsOf(steps, q) >= CriticalLeft(s.runs[q])
    ensures Released(s, steps, s.runs[q].job.project)
    decreases |steps|
  {
    var n, a, rest := s.runs[q], steps[0], steps[1..];
    var t := Apply(s, a);
    assert NoRestart(rest);
    if a.By? && a.r == q {
      HolderStep(s, q, a.o);
      if t.holder == s.holder - {n.job.project} {
        ReleasedNow(s, steps, n.job.project);
      } else {
        CriticalSectionEnds(t, rest, q);
        ReleasedLater(s, steps, n.job.project);
      }
    } else {
      assert t.runs[q] == n;
      CriticalSectionEnds(t, rest, q);
      ReleasedLater(s, steps, n.job.project);
    }
  }

  /** Run r, which waits for a project mutex, could go on after some of the steps. */
  ghost predicate GetsThrough(s: State, steps: seq<Step>, r: nat)
    requires LegalAll(s, steps) && r in s.runs
  {
    exists m: nat :: m <= |steps| && LegalAll(s, steps[..m]) && Legal(Exec(s, steps[..m]), By(r, Ok))
  }

  lemma WaiterGetsThrough(s: State, steps: seq<Step>, r: nat)
    requires r in s.runs && Blocked(s, s.runs[r]) && LegalAll(s, steps) && OthersOnly(steps, r)
    requires Released(s, steps, s.runs[r].job.project)
    ensures GetsThrough(s, steps, r)
  {
    var p := s.runs[r].job.project;
    var m: nat :| m <= |steps| && LegalAll(s, steps[..m]) && p !in Exec(s, steps[..m]).holder;
    OthersLeaveRun(s, steps[..m], r);
    assert Legal(Exec(s, steps[..m]), By(r, Ok));
  }

  /** No deadlock. In every reachable state an unfinished run can take a step, or it waits for the mutex of its project
      and another run holds that. The holder can take a step, and whatever its calls report and whatever the other
      runs do meanwhile, the waiting run could go on by the time the holder has taken CriticalLeft, at most nine,
      steps. */
  lemma NoDeadlock(s: State, r: nat)
    requires Reachable(s) && r in s.runs && !s.runs[r].pc.Done?
    ensures !Blocked(s, s.runs[r]) ==> Legal(s, By(r, SomeOutcome(s, s.runs[r])))
    ensures Blocked(s, s.runs[r]) ==>
              && var q := s.holder[s.runs[r].job.project];
              && q in s.runs && q != r && HoldsLock(s.runs[q].pc) && CriticalLeft(s.runs[q]) <= 9
              && Legal(s, By(q, SomeOutcome(s, s.runs[q])))
              && (forall steps | LegalAll(s, steps) && OthersOnly(steps, r)
                                 && StepsOf(steps, q) >= CriticalLeft(s.runs[q]) ::
                    GetsThrough(s, steps, r))
  {
    var n := s.runs[r];
    if Blocked(s, n) {
      HoldersReachable(s);
      assert HolderOk(s, n.job.project);
      var q := s.holder[n.job.project];
      forall steps | LegalAll(s, steps) && OthersOnly(steps, r) && StepsOf(steps, q) >= CriticalLeft(s.runs[q])
        ensures GetsThrough(s, steps, r)
      {
        CriticalSectionEnds(s, steps, q);
        WaiterGetsThrough(s, steps, r);
      }
    }
  }

  // Every run ends

  function EnterLeft(e: EnterPc): nat { match e case Start => 39 case Poll => 2 case PollRead => 1 }

  function CheckLeft(c: CheckPc): nat {
    match c
    case StatReady => 38 case ReadReady => 37 case Remove => 36 case RemoveInfo => 35 case Removing => 34
  }

  function DirsLeft(d: Dir): nat {
    match d case RootDir => 4 case PendingDir => 3 case ReadyDir => 2 case GroupsDir => 1
  }

  function BootLeft(b: BootPc): nat {
    match b
    case StatProject => 33 case BootLock => 32 case BootStat(d) => 23 + 2 * DirsLeft(d)
    case BootMkdir(d) => 22 + 2 * DirsLeft(d) case BootUnlock => 23
  }

  function PrepareLeft(p: PreparePc): nat {
    match p case Resolve => 22 case MakeDir => 21 case EmptyParams => 20 case EnsureDirs => 19 case InitPersist => 18
  }

  function BuildLeft(w: BuildPc): nat {
    match w
    case WriteParams => 17 case CreateLog => 16 case NewClient => 15 case BuildImage => 14 case RunContainer => 13
    case Sync => 12 case ReadLogs => 11 case CloseClient => 10 case CloseLog => 9 case Persist => 8
    case Rename => 7
  }

  function LinkLeft(l: LinkPc): nat {
    match l case LinkLock => 6 case LinkStat => 5 case LinkRemove => 4 case LinkCreate => 3 case LinkUnlock => 2
  }

  /** A bound on the steps a run still takes. */
  function StepsLeft(n: Run): nat {
    match n.pc
    case Entering(e) => EnterLeft(e)
    case Checking(c) => CheckLeft(c)
    case Bootstrapping(b) => BootLeft(b)
    case Preparing(p) => PrepareLeft(p)
    case Building(w) => BuildLeft(w)
    case Linking(l) => LinkLeft(l)
    case Leave => 1
    case Done => 0
  }

  lemma CheckEnds(s: State, n: Run, c: CheckPc, o: Outcome)
    requires n.pc == Checking(c) && EnabledCheck(s, n, c, o)
    ensures StepsLeft(LocalCheck(n, c, o)) < CheckLeft(c)
  {
  }

  lemma BootEnds(s: State, n: Run, b: BootPc, o: Outcome)
    requires n.pc == Bootstrapping(b) && EnabledBoot(s, n, b, o)
    ensures StepsLeft(LocalBoot(n, b, o)) < BootLeft(b)
  {
  }

  lemma PrepareEnds(s: State, n: Run, p: PreparePc, o: Outcome)
    requires n.pc == Preparing(p) && EnabledPrepare(s, n, p, o)
    ensures StepsLeft(LocalPrepare(n, p, o)) < PrepareLeft(p)
  {
  }

  lemma BuildEnds(s: State, n: Run, w: BuildPc, o: Outcome)
    requires n.pc == Building(w) && EnabledBuild(s, n, w, o) && !(w.WriteParams? && o.More?)
    ensures StepsLeft(LocalBuild(n, w, o)) < BuildLeft(w)
  {
  }

  /** Every step of a run brings it nearer to its end, whatever the call reports; only polling for the ready path
      and writing one more param file repeat. */
  lemma EveryRunEnds(s: State, n: Run, o: Outcome)
    requires Enabled(s, n, o)
    requires !Repeats(n, o)
    ensures StepsLeft(Local(n, o)) < StepsLeft(n)
  {
    match n.pc
    case Entering(e) =>
    case Checking(c) => CheckEnds(s, n, c, o);
    case Bootstrapping(b) => BootEnds(s, n, b, o);
    case Preparing(p) => PrepareEnds(s, n, p, o);
    case Building(w) => BuildEnds(s, n, w, o);
    case Linking(l) =>
    case Leave =>
  }

  /** A step that does not bring a run nearer to its end: polling on, or writing one of several parameters. */
  predicate Repeats(n: Run, o: Outcome) {
    (n.pc == Entering(Poll) && o.NotExist?) || (n.pc == Building(WriteParams) && o.More?)
  }
}

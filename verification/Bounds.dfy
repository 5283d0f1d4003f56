/** How many steps a run takes. */
module Bounds {
  import opened Protocol
  import opened Invariant
  import opened Preservation
  import opened Safety
  import opened Progress

  /** The steps that run r has taken in its present life, other than repeating ones. */
  ghost function Taken(states: seq<State>, steps: seq<Step>, i: nat, r: nat): nat
    requires Execution(states, steps) && i <= |steps|
  {
    if i == 0 then 0 else
    var s, a := states[i - 1], steps[i - 1];
    if a.Restart? || (a.Begin? && a.r == r) then 0
    else Taken(states, steps, i - 1, r) + if a.By? && a.r == r && !Repeats(s.runs[r], a.o) then 1 else 0
  }

  /** d is one of the directories that every bootstrapped project has. */
  predicate Basic(d: Dir) { !d.GroupsDir? }

  /** Of d and the basic directories after it, those that are there and need not be made. */
  function PresentFrom(dirs: set<(string, Dir)>, p: string, d: Dir): nat {
    (if d.RootDir? && (p, RootDir) in dirs then 1 else 0)
    + (if (d.RootDir? || d.PendingDir?) && (p, PendingDir) in dirs then 1 else 0)
    + (if !d.GroupsDir? && (p, ReadyDir) in dirs then 1 else 0)
  }

  function SparedInBoot(dirs: set<(string, Dir)>, p: string, b: BootPc): nat {
    match b
    case StatProject => PresentFrom(dirs, p, RootDir)
    case BootLock => PresentFrom(dirs, p, RootDir)
    case BootStat(d) => PresentFrom(dirs, p, d)
    case BootMkdir(d) => PresentFrom(dirs, p, d)
    case BootUnlock => 0
  }

  /** The calls of BootstrapProject that run n is spared because directories are there. A run that has found a build in
      its ready path is spared three; one that has not looked yet is spared these, or the removal. */
  function Spared(dirs: set<(string, Dir)>, n: Run): nat {
    if n.pc.Checking? || n.pc == Entering(Start) then 3
    else if n.pc.Bootstrapping? then SparedInBoot(dirs, n.job.project, n.pc.b)
    else 0
  }

  /** A bound on the steps n still takes in s. */
  function Left(s: State, n: Run): int { StepsLeft(n) - Spared(s.dirs, n) }

  ghost predicate ReadyHasDirs(s: State) {
    forall k, d :: k in s.ready && Basic(d) ==> (k.project, d) in s.dirs
  }

  lemma {:induction false} ReadyHasDirsInBehaviour(states: seq<State>, steps: seq<Step>, i: nat)
    requires Behaviour(states, steps) && i <= |steps|
    ensures ReadyHasDirs(states[i])
  {
    if i > 0 {
      var s, a := states[i - 1], steps[i - 1];
      assert Legal(s, a) && states[i] == Apply(s, a);
      ReadyHasDirsInBehaviour(states, steps, i - 1);
      InvBehaviour(states, steps, i - 1);
      forall k, d | k in states[i].ready && Basic(d) ensures (k.project, d) in states[i].dirs {
        DirsStep(s, a, k.project, d);
        if k !in s.ready { NewReadyHasDirs(s, a, k, d); }
      }
    }
  }

  lemma NewReadyHasDirs(s: State, a: Step, k: Key, d: Dir)
    requires Inv(s) && Legal(s, a) && k !in s.ready && k in Apply(s, a).ready && Basic(d)
    ensures (k.project, d) in s.dirs
  {
    var n := s.runs[a.r];
    assert RunOk(s, a.r, n);
    if n.pc.Checking? {
      CheckAddsNothing(s, n, n.pc.c, a.o, k);
    } else if n.pc.Building? {
      EntryAfterBuild(s, n, n.pc.w, a.o, k);
    }
  }

  lemma MoreDirsSpareMore(a: set<(string, Dir)>, b: set<(string, Dir)>, n: Run)
    requires a <= b
    ensures Spared(a, n) <= Spared(b, n)
  {
  }

  lemma CheckIsNearer(s: State, n: Run, c: CheckPc, o: Outcome)
    requires n.pc == Checking(c) && EnabledCheck(s, n, c, o) && CheckOk(s, n, c) && ReadyHasDirs(s)
    ensures Left(s, LocalCheck(n, c, o)) < Left(s, n)
  {
    if c.Removing? {
      var k := KeyOf(n.job);
      assert Basic(RootDir) && Basic(PendingDir) && Basic(ReadyDir);
      assert PresentFrom(s.dirs, k.project, RootDir) == 3;
    }
  }

  lemma BootIsNearer(s: State, n: Run, b: BootPc, o: Outcome)
    requires n.pc == Bootstrapping(b) && EnabledBoot(s, n, b, o)
    requires b.BootMkdir? ==> (n.job.project, b.d) !in s.dirs
    ensures Left(s, LocalBoot(n, b, o)) < Left(s, n)
  {
  }

  lemma RestIsNearer(s: State, n: Run, o: Outcome)
    requires !n.pc.Bootstrapping? && !n.pc.Checking? && Enabled(s, n, o) && !Repeats(n, o)
    ensures Left(s, Local(n, o)) < Left(s, n)
  {
    EveryRunEnds(s, n, o);
  }

  /** Every step of a run that does not repeat brings it nearer to its end, also when what it is spared counts. */
  lemma OwnStepIsNearer(s: State, r: nat, n: Run, o: Outcome)
    requires RunOk(s, r, n) && ReadyHasDirs(s) && Enabled(s, n, o) && !Repeats(n, o)
    ensures Left(s, Local(n, o)) < Left(s, n)
  {
    if n.pc.Bootstrapping? {
      BootIsNearer(s, n, n.pc.b, o);
    } else if n.pc.Checking? {
      CheckIsNearer(s, n, n.pc.c, o);
    } else {
      RestIsNearer(s, n, o);
    }
  }

  lemma DirsGrow(s: State, a: Step)
    requires Inv(s) && Legal(s, a)
    ensures s.dirs <= Apply(s, a).dirs
  {
    forall p, d | (p, d) in s.dirs ensures (p, d) in Apply(s, a).dirs { DirsStep(s, a, p, d); }
  }

  /** How a step changes what run r still has to do. */
  lemma LeftStep(s: State, a: Step, r: nat)
    requires Inv(s) && ReadyHasDirs(s) && Legal(s, a) && r in Apply(s, a).runs
    ensures var t := Apply(s, a); var m := t.runs[r];
            if a.Begin? && a.r == r then Left(t, m) == 36
            else !a.Restart? && r in s.runs
                 && var taken := if a.By? && a.r == r && !Repeats(s.runs[r], a.o) then 1 else 0;
                    Left(t, m) + taken <= Left(s, s.runs[r])
  {
    var m := Apply(s, a).runs[r];
    DirsGrow(s, a);
    MoreDirsSpareMore(s.dirs, Apply(s, a).dirs, m);
    if a.By? && a.r == r {
      assert RunOk(s, r, s.runs[r]);
      if !Repeats(s.runs[r], a.o) { OwnStepIsNearer(s, r, s.runs[r], a.o); }
    }
  }

  lemma LeftNext(states: seq<State>, steps: seq<Step>, i: nat, r: nat)
    requires Behaviour(states, steps) && 0 < i <= |steps| && r in states[i].runs
    ensures var s, a, t := states[i - 1], steps[i - 1], states[i];
            if a.Begin? && a.r == r then Left(t, t.runs[r]) == 36
            else !a.Restart? && r in s.runs
                 && var taken := if a.By? && a.r == r && !Repeats(s.runs[r], a.o) then 1 else 0;
                    Left(t, t.runs[r]) + taken <= Left(s, s.runs[r])
  {
    assert Legal(states[i - 1], steps[i - 1]) && states[i] == Apply(states[i - 1], steps[i - 1]);
    InvBehaviour(states, steps, i - 1);
    ReadyHasDirsInBehaviour(states, steps, i - 1);
    LeftStep(states[i - 1], steps[i - 1], r);
  }

  lemma {:induction false} TakenAndLeft(states: seq<State>, steps: seq<Step>, i: nat, r: nat)
    requires Behaviour(states, steps) && i <= |steps| && r in states[i].runs
    ensures Taken(states, steps, i, r) + Left(states[i], states[i].runs[r]) <= 36
  {
    if i > 0 {
      LeftNext(states, steps, i, r);
      if !(steps[i - 1].Begin? && steps[i - 1].r == r) { TakenAndLeft(states, steps, i - 1, r); }
    }
  }

  lemma NothingLeft(s: State, n: Run)
    ensures Left(s, n) >= 0
    ensures Left(s, n) == 0 <==> n.pc.Done?
  {
  }

  /** In every execution a run takes at most 36 steps besides polling and writing parameters; one that has taken as
      many has returned, and at each program counter it has taken at most 36 less what is still before it. */
  lemma {:induction false} RunsAreShort(states: seq<State>, steps: seq<Step>, i: nat, r: nat)
    requires Behaviour(states, steps) && i <= |steps| && r in states[i].runs
    ensures Taken(states, steps, i, r) <= 36 - Left(states[i], states[i].runs[r]) <= 36
    ensures Taken(states, steps, i, r) == 36 ==> states[i].runs[r].pc.Done?
  {
    TakenAndLeft(states, steps, i, r);
    NothingLeft(states[i], states[i].runs[r]);
  }
}

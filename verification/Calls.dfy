/** The calls that a run of `Work` makes, against the text of `Work`: in its order, with none left out, returning an
    error at once when one fails, and with each deferred call made exactly if it was deferred. */
module Calls {
  import opened Options
  import opened Protocol
  import opened Invariant
  import opened Preservation

  /** A call and what it has reported. */
  datatype Made = Made(pc: Pc, o: Outcome)

  // The text of `Work`

  /** Where a directory is ensured: root, pending, ready, groups. */
  function DirPlace(d: Dir): nat {
    match d
    case RootDir => 0
    case PendingDir => 2
    case ReadyDir => 4
    case GroupsDir => 6
  }

  /** Where the call stands in the text, deferred calls where they are made. */
  function Place(pc: Pc): nat {
    match pc
    case Entering(e) => (match e case Start => 0 case Poll => 1 case PollRead => 2)
    case Checking(c) =>
      (match c case StatReady => 3 case ReadReady => 4 case Remove => 5 case RemoveInfo => 6 case Removing => 7)
    case Bootstrapping(b) =>
      (match b
       case StatProject => 8
       case BootLock => 9
       case BootStat(d) => 10 + DirPlace(d)
       case BootMkdir(d) => 11 + DirPlace(d)
       case BootUnlock => 18)
    case Preparing(p) =>
      (match p
       case Resolve => 19 case MakeDir => 20 case EmptyParams => 21 case EnsureDirs => 22 case InitPersist => 23)
    case Building(w) =>
      (match w
       case WriteParams => 24 case CreateLog => 25 case NewClient => 26 case BuildImage => 27 case RunContainer => 28
       case Sync => 29 case ReadLogs => 30 case CloseClient => 31 case CloseLog => 32 case Persist => 33
       case Rename => 34)
    case Linking(l) =>
      (match l
       case LinkLock => 35 case LinkStat => 36 case LinkRemove => 37 case LinkCreate => 38 case LinkUnlock => 39)
    case Leave => 40
    case Done => 41
  }

  /** The calls in loops: polling for the ready path and writing the parameters. */
  predicate Loops(pc: Pc) { pc == Entering(Poll) || pc == Building(WriteParams) }

  /** The call has failed. That there is no such project is a failure; an error in resolving the link is not, the
      build then starts afresh. */
  predicate Fails(c: Made) {
    && c.pc != Preparing(Resolve)
    && (c.o.Fail? || c.o.Torn? || c.o.TornInto? || c.o.LateFail? || c.o.Cancel? || (c.o.Exited? && c.o.failed)
        || (c.pc == Bootstrapping(StatProject) && c.o.NotExist?))
  }

  /** The calls that are deferred, and the calls whose success defers them. */
  predicate Defers(first: Pc, d: Pc) {
    || (first == Entering(Start) && d == Leave)
    || (first == Bootstrapping(BootLock) && d == Bootstrapping(BootUnlock))
    || (first == Preparing(InitPersist) && d == Building(Persist))
    || (first == Preparing(InitPersist) && d == Building(Rename))
    || (first == Building(CreateLog) && d == Building(CloseLog))
    || (first == Building(NewClient) && d == Building(CloseClient))
    || (first == Linking(LinkLock) && d == Linking(LinkUnlock))
  }

  predicate IsDeferred(pc: Pc) {
    || pc == Leave || pc == Bootstrapping(BootUnlock) || pc == Linking(LinkUnlock)
    || pc == Building(CloseClient) || pc == Building(CloseLog) || pc == Building(Persist) || pc == Building(Rename)
  }

  /** The calls that building a job of this group takes, from this clone source and with this exit code. All others
      depend on what is found: a failed build, a directory, a link. */
  predicate Takes(group: string, src: Option<Key>, exit: int, pc: Pc) {
    match pc
    case Entering(e) => e.Start?
    case Checking(c) => c.StatReady?
    case Bootstrapping(b) => !b.BootMkdir? && (b == BootStat(GroupsDir) ==> group != "")
    case Preparing(p) => p.EmptyParams? ==> src.Some?
    case Building(_) => true
    case Linking(l) => exit == SUCCESS_EXIT_CODE && !l.LinkRemove?
    case Leave => true
    case Done => false
  }

  // What a run's calls say about it

  predicate Has(cs: seq<Made>, pc: Pc) { exists a :: 0 <= a < |cs| && cs[a].pc == pc }

  predicate HasOk(cs: seq<Made>, pc: Pc) { Made(pc, Ok) in cs }

  predicate HasFailed(cs: seq<Made>) { exists a :: 0 <= a < |cs| && Fails(cs[a]) }

  /** The exit code of the container, or the initial one if none has run. */
  function CodeOf(cs: seq<Made>): int {
    if cs == [] then PENDING_EXIT_CODE
    else if cs[|cs| - 1].o.Exited? then cs[|cs| - 1].o.code
    else CodeOf(cs[..|cs| - 1])
  }

  /** The clone source that was found. */
  function SourceOf(cs: seq<Made>): Option<Key> {
    if cs == [] then None
    else if cs[|cs| - 1].o.Found? then Some(cs[|cs| - 1].o.src)
    else SourceOf(cs[..|cs| - 1])
  }

  /** Earlier calls stand before the one that is next, unless that is in a loop. */
  predicate Ordered(n: Run, cs: seq<Made>) {
    && (forall a :: 0 <= a < |cs| ==> Place(cs[a].pc) < Place(n.pc) || (cs[a].pc == n.pc && Loops(n.pc)))
    && (forall a, b :: 0 <= a < b < |cs| ==>
          Place(cs[a].pc) < Place(cs[b].pc) || (cs[a].pc == cs[b].pc && Loops(cs[a].pc)))
  }

  predicate Carries(n: Run, cs: seq<Made>) {
    && (n.err <==> HasFailed(cs)) && n.exit == CodeOf(cs) && n.src == SourceOf(cs)
    && (forall a :: 0 <= a < |cs| && cs[a].o.Exited? ==> cs[a].pc == Building(RunContainer))
  }

  /** Another run has the ID, and nothing is published yet. */
  predicate Waited(cs: seq<Made>) {
    cs != [] && cs[0] == Made(Entering(Start), Busy)
    && forall a :: 1 <= a < |cs| ==> cs[a] == Made(Entering(Poll), NotExist)
  }

  /** The run has waited for another one and has read the exit code. */
  predicate WaitedFor(cs: seq<Made>, code: int) {
    var a := |cs| - 2;
    && a > 0 && Waited(cs[..a]) && cs[a] == Made(Entering(Poll), Ok)
    && cs[a + 1].pc == Entering(PollRead) && cs[a + 1].o.Read? && cs[a + 1].o.info.Info?
    && cs[a + 1].o.info.exit == code
  }

  /** The run has found a build with exit code 0 and has read it. */
  predicate FoundCached(cs: seq<Made>, code: int) {
    && |cs| >= 3 && cs[..2] == [Made(Entering(Start), Ok), Made(Checking(StatReady), Ok)]
    && cs[2].pc == Checking(ReadReady) && cs[2].o.Read? && cs[2].o.info.Info?
    && cs[2].o.info.exit == code == SUCCESS_EXIT_CODE
  }

  /** What the calls were when the run is about to answer, or has answered. */
  predicate Shaped(n: Run, cs: seq<Made>) {
    && (n.pc == Entering(Start) ==> cs == [])
    && (n.pc == Entering(Poll) ==> Waited(cs))
    && (n.pc == Entering(PollRead) ==>
          |cs| >= 2 && Waited(cs[..|cs| - 1]) && cs[|cs| - 1] == Made(Entering(Poll), Ok))
    && (n.pc == Checking(StatReady) ==> cs == [Made(Entering(Start), Ok)])
    && (n.pc == Checking(ReadReady) ==> cs == [Made(Entering(Start), Ok), Made(Checking(StatReady), Ok)])
    && (n.answer.Replied? ==>
          match n.answer.how
          case Coalesced => n.pc.Done? && WaitedFor(cs, n.answer.code)
          case Cached => FoundCached(cs, n.answer.code) && cs[3..] == if n.pc.Done? then [Made(Leave, Ok)] else []
          case Built => n.pc.Done? && n.answer.code == n.exit && !n.err)
    && (n.pc.Done? ==> (n.err <==> n.answer.Failed?) && !n.answer.NoAnswer?)
    && (HasOk(cs, Linking(LinkCreate)) ==>
          !n.err && n.exit == SUCCESS_EXIT_CODE
          && if n.pc.Done? then n.answer == Replied(Built, n.exit)
             else n.answer.NoAnswer? && (n.pc == Linking(LinkUnlock) || n.pc.Leave?))
  }

  /** While d is still to be made, it was deferred; afterwards it was made exactly if it was deferred. A run that
      coalesces defers nothing. */
  predicate DeferredBy(n: Run, cs: seq<Made>, first: Pc, d: Pc) {
    && (n.pc.Entering? ==> !HasOk(cs, first))
    && (!n.pc.Entering? && Place(first) < Place(n.pc) <= Place(d) ==> HasOk(cs, first))
    && (Place(d) < Place(n.pc) ==> (Has(cs, d) <==> HasOk(cs, first)))
  }

  predicate BuildsSoFar(n: Run) { !n.err && (n.answer.NoAnswer? || (n.answer.Replied? && n.answer.how.Built?)) }

  predicate Complete(n: Run, cs: seq<Made>, pc: Pc) {
    BuildsSoFar(n) && Takes(n.job.group, n.src, n.exit, pc) && Place(pc) < Place(n.pc) ==> Has(cs, pc)
  }

  // One call

  /** The call is followed by one further down, or by itself in a loop. */
  predicate Forward(n: Run, m: Run) { Place(n.pc) < Place(m.pc) || (m == n && Loops(n.pc)) }

  /** What the call does to the variables that `Work` carries. */
  predicate Updates(n: Run, o: Outcome, m: Run) {
    && (m.err <==> n.err || Fails(Made(n.pc, o)))
    && m.exit == (if o.Exited? then o.code else n.exit)
    && m.src == (if o.Found? then Some(o.src) else n.src)
    && (o.Exited? ==> n.pc == Building(RunContainer))
  }

  /** No deferred call is left out, and none is made that was not deferred: the call at place d, which success of the
      call at `first` defers. */
  predicate KeepsDeferred(n: Run, o: Outcome, m: Run, first: nat, d: nat) {
    var p, q, now := Place(n.pc), Place(m.pc), Place(n.pc) == first && o.Ok?;
    && (m.pc.Entering? ==> n.pc.Entering? && !now)
    && (!m.pc.Entering? && first < q <= d ==> now || (first < p && !n.pc.Entering?))
    && (p < d < q ==> !now && (n.pc.Entering? || p <= first))
  }

  /** The same for all that Defers has. */
  predicate KeepsEachDeferred(n: Run, o: Outcome, m: Run) {
    && KeepsDeferred(n, o, m, 0, 40) && KeepsDeferred(n, o, m, 9, 18)
    && KeepsDeferred(n, o, m, 23, 33) && KeepsDeferred(n, o, m, 23, 34)
    && KeepsDeferred(n, o, m, 25, 32) && KeepsDeferred(n, o, m, 26, 31) && KeepsDeferred(n, o, m, 35, 39)
  }

  /** Takes, by places. */
  predicate TakesAt(n: Run, k: nat) {
    && k !in {1, 2, 4, 5, 6, 7, 11, 13, 15, 17, 37, 41}
    && (k == 16 ==> n.job.group != "") && (k == 21 ==> n.src.Some?) && (35 <= k <= 39 ==> n.exit == SUCCESS_EXIT_CODE)
  }

  lemma TakesPlace(n: Run, pc: Pc)
    ensures Takes(n.job.group, n.src, n.exit, pc) <==> TakesAt(n, Place(pc))
  {
  }

  /** No call that the build takes is left out. */
  predicate KeepsAll(n: Run, m: Run, k: nat) {
    BuildsSoFar(m) && TakesAt(m, k) && k < Place(m.pc) && k != Place(n.pc) ==>
      BuildsSoFar(n) && TakesAt(n, k) && k < Place(n.pc)
  }

  /** What the invariant says about a run alone. */
  predicate Sound(n: Run) {
    && (n.err ==> IsDeferred(n.pc) || n.pc.Done?)
    && (n.answer.NoAnswer? || n.pc.Leave? || n.pc.Done?) && (n.pc.Leave? ==> !n.answer.Failed?)
  }

  predicate Moves(n: Run, o: Outcome, m: Run, k: nat) {
    Forward(n, m) && Updates(n, o, m) && KeepsEachDeferred(n, o, m) && KeepsAll(n, m, k)
  }

  lemma EnterMoves(s: State, n: Run, e: EnterPc, o: Outcome, k: nat)
    requires Sound(n) && n.pc == Entering(e) && EnabledEnter(s, n, e, o)
    ensures Moves(n, o, LocalEnter(n, e, o), k)
  {
  }

  lemma CheckMoves(s: State, n: Run, c: CheckPc, o: Outcome, k: nat)
    requires Sound(n) && n.pc == Checking(c) && EnabledCheck(s, n, c, o)
    ensures Moves(n, o, LocalCheck(n, c, o), k)
  {
  }

  lemma BootMoves(s: State, n: Run, b: BootPc, o: Outcome, k: nat)
    requires Sound(n) && n.pc == Bootstrapping(b) && EnabledBoot(s, n, b, o)
    ensures Moves(n, o, LocalBoot(n, b, o), k)
  {
  }

  lemma PrepareMoves(s: State, n: Run, p: PreparePc, o: Outcome, k: nat)
    requires Sound(n) && n.pc == Preparing(p) && EnabledPrepare(s, n, p, o)
    ensures Moves(n, o, LocalPrepare(n, p, o), k)
  {
  }

  lemma BuildDefers(s: State, n: Run, w: BuildPc, o: Outcome)
    requires Sound(n) && n.pc == Building(w) && EnabledBuild(s, n, w, o)
    ensures KeepsEachDeferred(n, o, LocalBuild(n, w, o))
  {
  }

  lemma BuildMoves(s: State, n: Run, w: BuildPc, o: Outcome, k: nat)
    requires Sound(n) && n.pc == Building(w) && EnabledBuild(s, n, w, o)
    ensures Moves(n, o, LocalBuild(n, w, o), k)
  {
    BuildDefers(s, n, w, o);
  }

  lemma LinkMoves(s: State, n: Run, l: LinkPc, o: Outcome, k: nat)
    requires Sound(n) && n.pc == Linking(l) && EnabledLink(s, n, l, o)
    ensures Moves(n, o, LocalLink(n, l, o), k)
  {
  }

  lemma LeaveMoves(n: Run, o: Outcome, k: nat)
    requires Sound(n) && n.pc.Leave? && o.Ok?
    ensures Moves(n, o, LocalLeave(n), k)
  {
  }

  lemma IsSound(s: State, r: nat, n: Run)
    requires RunOk(s, r, n)
    ensures Sound(n)
  {
  }

  lemma RunMoves(s: State, r: nat, n: Run, o: Outcome, k: nat)
    requires RunOk(s, r, n) && Enabled(s, n, o)
    ensures Moves(n, o, Local(n, o), k)
  {
    IsSound(s, r, n);
    match n.pc
    case Entering(e) => EnterMoves(s, n, e, o, k);
    case Checking(c) => CheckMoves(s, n, c, o, k);
    case Bootstrapping(b) => BootMoves(s, n, b, o, k);
    case Preparing(p) => PrepareMoves(s, n, p, o, k);
    case Building(w) => BuildMoves(s, n, w, o, k);
    case Linking(l) => LinkMoves(s, n, l, o, k);
    case Leave => LeaveMoves(n, o, k);
  }

  lemma SamePlace(p: Pc, q: Pc)
    requires Place(p) == Place(q)
    ensures p == q
  {
  }

  lemma DefersPlaces(first: Pc, d: Pc, n: Run, o: Outcome, m: Run)
    requires Defers(first, d) && KeepsEachDeferred(n, o, m)
    ensures KeepsDeferred(n, o, m, Place(first), Place(d)) && Place(first) < Place(d) && !Loops(first) && !Loops(d)
  {
  }

  // The calls of a run so far

  lemma OrderedNext(n: Run, cs: seq<Made>, o: Outcome, m: Run)
    requires Ordered(n, cs) && Forward(n, m)
    ensures Ordered(m, cs + [Made(n.pc, o)])
  {
  }

  lemma CarriesNext(n: Run, cs: seq<Made>, o: Outcome, m: Run)
    requires Carries(n, cs) && Updates(n, o, m)
    ensures Carries(m, cs + [Made(n.pc, o)])
  {
    var c := Made(n.pc, o);
    assert (cs + [c])[..|cs|] == cs;
    assert HasFailed(cs + [c]) <==> HasFailed(cs) || Fails(c) by {
      if HasFailed(cs) {
        var a :| 0 <= a < |cs| && Fails(cs[a]);
        assert Fails((cs + [c])[a]);
      }
      assert (cs + [c])[|cs|] == c;
    }
  }

  lemma HasNext(cs: seq<Made>, c: Made, pc: Pc)
    ensures Has(cs + [c], pc) <==> Has(cs, pc) || c.pc == pc
    ensures HasOk(cs + [c], pc) <==> HasOk(cs, pc) || c == Made(pc, Ok)
  {
    if Has(cs, pc) {
      var a :| 0 <= a < |cs| && cs[a].pc == pc;
      assert (cs + [c])[a].pc == pc;
    }
    assert (cs + [c])[|cs|] == c;
  }

  lemma NotYet(n: Run, cs: seq<Made>, pc: Pc)
    requires Ordered(n, cs) && Place(n.pc) <= Place(pc) && !Loops(pc)
    ensures !Has(cs, pc) && !HasOk(cs, pc)
  {
  }

  lemma DeferredNext(n: Run, cs: seq<Made>, o: Outcome, m: Run, first: Pc, d: Pc)
    requires Ordered(n, cs) && DeferredBy(n, cs, first, d) && Defers(first, d)
    requires Forward(n, m) && KeepsEachDeferred(n, o, m)
    ensures DeferredBy(m, cs + [Made(n.pc, o)], first, d)
  {
    DefersPlaces(first, d, n, o, m);
    HasNext(cs, Made(n.pc, o), first);
    HasNext(cs, Made(n.pc, o), d);
    if Place(n.pc) == Place(first) { SamePlace(n.pc, first); }
    if Place(n.pc) == Place(d) { SamePlace(n.pc, d); }
    if Place(n.pc) <= Place(first) { NotYet(n, cs, first); }
    if Place(n.pc) <= Place(d) { NotYet(n, cs, d); }
  }

  lemma CompleteNext(n: Run, cs: seq<Made>, o: Outcome, m: Run, pc: Pc)
    requires Complete(n, cs, pc) && KeepsAll(n, m, Place(pc))
    ensures Complete(m, cs + [Made(n.pc, o)], pc)
  {
    HasNext(cs, Made(n.pc, o), pc);
    TakesPlace(n, pc);
    TakesPlace(m, pc);
    if Place(n.pc) == Place(pc) { SamePlace(n.pc, pc); }
  }

  lemma EnterShaped(s: State, r: nat, n: Run, e: EnterPc, cs: seq<Made>, o: Outcome)
    requires RunOk(s, r, n) && n.pc == Entering(e) && EnabledEnter(s, n, e, o) && Shaped(n, cs)
    ensures Shaped(LocalEnter(n, e, o), cs + [Made(n.pc, o)])
  {
    var next := cs + [Made(n.pc, o)];
    assert next[..|cs|] == cs;
    if e.Poll? {
      assert Waited(cs);
      assert forall a :: 1 <= a < |next| && o.NotExist? ==> next[a] == Made(Entering(Poll), NotExist);
    } else if e.PollRead? {
      assert next[..|next| - 2] == cs[..|cs| - 1];
    }
  }

  lemma CheckShaped(s: State, r: nat, n: Run, c: CheckPc, cs: seq<Made>, o: Outcome)
    requires RunOk(s, r, n) && n.pc == Checking(c) && EnabledCheck(s, n, c, o) && Shaped(n, cs)
    ensures Shaped(LocalCheck(n, c, o), cs + [Made(n.pc, o)])
  {
    assert (cs + [Made(n.pc, o)])[..|cs|] == cs;
  }

  lemma BootShaped(s: State, r: nat, n: Run, b: BootPc, cs: seq<Made>, o: Outcome)
    requires RunOk(s, r, n) && n.pc == Bootstrapping(b) && EnabledBoot(s, n, b, o) && Shaped(n, cs)
    ensures Shaped(LocalBoot(n, b, o), cs + [Made(n.pc, o)])
  {
    assert (cs + [Made(n.pc, o)])[..|cs|] == cs;
  }

  lemma PrepareShaped(s: State, r: nat, n: Run, p: PreparePc, cs: seq<Made>, o: Outcome)
    requires RunOk(s, r, n) && n.pc == Preparing(p) && EnabledPrepare(s, n, p, o) && Shaped(n, cs)
    ensures Shaped(LocalPrepare(n, p, o), cs + [Made(n.pc, o)])
  {
    assert (cs + [Made(n.pc, o)])[..|cs|] == cs;
  }

  lemma BuildShaped(s: State, r: nat, n: Run, w: BuildPc, cs: seq<Made>, o: Outcome)
    requires RunOk(s, r, n) && n.pc == Building(w) && EnabledBuild(s, n, w, o) && Shaped(n, cs)
    ensures Shaped(LocalBuild(n, w, o), cs + [Made(n.pc, o)])
  {
    assert (cs + [Made(n.pc, o)])[..|cs|] == cs;
  }

  lemma LinkShaped(s: State, r: nat, n: Run, l: LinkPc, cs: seq<Made>, o: Outcome)
    requires RunOk(s, r, n) && n.pc == Linking(l) && EnabledLink(s, n, l, o) && Shaped(n, cs)
    ensures Shaped(LocalLink(n, l, o), cs + [Made(n.pc, o)])
  {
    assert (cs + [Made(n.pc, o)])[..|cs|] == cs;
  }

  lemma LeaveShaped(s: State, r: nat, n: Run, cs: seq<Made>, o: Outcome)
    requires RunOk(s, r, n) && n.pc.Leave? && o.Ok? && Shaped(n, cs)
    ensures Shaped(LocalLeave(n), cs + [Made(n.pc, o)])
  {
    assert (cs + [Made(n.pc, o)])[..|cs|] == cs;
  }

  lemma ShapedNext(s: State, r: nat, n: Run, cs: seq<Made>, o: Outcome)
    requires RunOk(s, r, n) && Enabled(s, n, o) && Shaped(n, cs)
    ensures Shaped(Local(n, o), cs + [Made(n.pc, o)])
  {
    var c := Made(n.pc, o);
    assert (cs + [c])[..|cs|] == cs;
    match n.pc
    case Entering(e) => EnterShaped(s, r, n, e, cs, o);
    case Checking(c) => CheckShaped(s, r, n, c, cs, o);
    case Bootstrapping(b) => BootShaped(s, r, n, b, cs, o);
    case Preparing(p) => PrepareShaped(s, r, n, p, cs, o);
    case Building(w) => BuildShaped(s, r, n, w, cs, o);
    case Linking(l) => LinkShaped(s, r, n, l, cs, o);
    case Leave => LeaveShaped(s, r, n, cs, o);
  }

  ghost predicate Agrees(n: Run, cs: seq<Made>) {
    && Ordered(n, cs) && Carries(n, cs) && Shaped(n, cs)
    && (forall first, d :: Defers(first, d) ==> DeferredBy(n, cs, first, d))
    && (forall pc :: Complete(n, cs, pc))
  }

  lemma AgreesNext(s: State, r: nat, n: Run, cs: seq<Made>, o: Outcome)
    requires RunOk(s, r, n) && Enabled(s, n, o) && Agrees(n, cs)
    ensures Agrees(Local(n, o), cs + [Made(n.pc, o)])
  {
    var m, next := Local(n, o), cs + [Made(n.pc, o)];
    RunMoves(s, r, n, o, 0);
    OrderedNext(n, cs, o, m);
    ShapedNext(s, r, n, cs, o);
    CarriesNext(n, cs, o, m);
    forall first, d | Defers(first, d) ensures DeferredBy(m, next, first, d) {
      DeferredNext(n, cs, o, m, first, d);
    }
    forall pc ensures Complete(m, next, pc) {
      RunMoves(s, r, n, o, Place(pc));
      CompleteNext(n, cs, o, m, pc);
    }
  }

  /** The calls that run r has made up to state i, since it began. A restart ends all runs. */
  ghost function CallsOf(states: seq<State>, steps: seq<Step>, i: nat, r: nat): seq<Made>
    requires |states| == |steps| + 1 && i <= |steps|
  {
    if i == 0 || steps[i - 1].Restart? then []
    else
      CallsOf(states, steps, i - 1, r)
      + if steps[i - 1].By? && steps[i - 1].r == r && r in states[i - 1].runs
        then [Made(states[i - 1].runs[r].pc, steps[i - 1].o)] else []
  }

  lemma NothingYet(j: Job)
    ensures Agrees(NewRun(j), [])
  {
  }

  /** The next call of run r, or the run as it was. */
  lemma CallsNext(states: seq<State>, steps: seq<Step>, i: nat, r: nat)
    requires Behaviour(states, steps) && 0 < i <= |steps| && !steps[i - 1].Restart?
    ensures var s, a, cs := states[i - 1], steps[i - 1], CallsOf(states, steps, i - 1, r);
            if a.By? && a.r == r then
              r in s.runs && Enabled(s, s.runs[r], a.o) && r in states[i].runs
              && states[i].runs[r] == Local(s.runs[r], a.o) && states[i].runs[r].job == s.runs[r].job
              && CallsOf(states, steps, i, r) == cs + [Made(s.runs[r].pc, a.o)]
            else
              CallsOf(states, steps, i, r) == cs
              && (r in s.runs ==> r in states[i].runs && states[i].runs[r] == s.runs[r])
              && (r !in s.runs && r in states[i].runs ==> a.Begin? && states[i].runs[r] == NewRun(a.job))
  {
    var s, a := states[i - 1], steps[i - 1];
    assert Legal(s, a) && states[i] == Apply(s, a);
    if a.By? && a.r == r { SameJob(s.runs[r], a.o); }
  }

  lemma {:induction false} CallsAgree(states: seq<State>, steps: seq<Step>, i: nat, r: nat)
    requires Behaviour(states, steps) && i <= |steps|
    ensures r !in states[i].runs ==> CallsOf(states, steps, i, r) == []
    ensures r in states[i].runs ==> Agrees(states[i].runs[r], CallsOf(states, steps, i, r))
  {
    if i > 0 && steps[i - 1].Restart? {
      assert states[i] == Apply(states[i - 1], steps[i - 1]);
    } else if i > 0 {
      var s, a := states[i - 1], steps[i - 1];
      CallsAgree(states, steps, i - 1, r);
      CallsNext(states, steps, i, r);
      if a.By? && a.r == r {
        InvBehaviour(states, steps, i - 1);
        AgreesNext(s, r, s.runs[r], CallsOf(states, steps, i - 1, r), a.o);
      } else if a.Begin? && r !in s.runs && r in states[i].runs {
        NothingYet(a.job);
      }
    }
  }
}

/** What the calls of a run say about what it does next, what it publishes and links, and what it returns. None of this
    speaks of the control flow of `Work` other than by the order of its text. */
module Returns {
  import opened Protocol
  import opened Invariant
  import opened Preservation
  import opened Safety
  import opened Calls

  /** The state in which a call of run r was made. */
  lemma {:induction false} CallMade(states: seq<State>, steps: seq<Step>, i: nat, r: nat, a: nat) returns (h: nat)
    requires Behaviour(states, steps) && i <= |steps| && a < |CallsOf(states, steps, i, r)|
    ensures h < i && r in states[h].runs && r in states[i].runs && states[h].runs[r].job == states[i].runs[r].job
    ensures steps[h].By? && steps[h].r == r
    ensures CallsOf(states, steps, i, r)[a] == Made(states[h].runs[r].pc, steps[h].o)
    ensures CallsOf(states, steps, h, r) == CallsOf(states, steps, i, r)[..a]
  {
    CallsNext(states, steps, i, r);
    if a < |CallsOf(states, steps, i - 1, r)| {
      h := CallMade(states, steps, i - 1, r, a);
      assert CallsOf(states, steps, i, r)[..a] == CallsOf(states, steps, i - 1, r)[..a];
    } else {
      h := i - 1;
    }
  }

  /** A call that has not failed has succeeded, and a container that has run has an exit code. */
  lemma Reported(states: seq<State>, steps: seq<Step>, i: nat, r: nat, a: nat)
    requires Behaviour(states, steps) && i <= |steps| && a < |CallsOf(states, steps, i, r)|
    ensures var c := CallsOf(states, steps, i, r)[a];
            && (c.pc == Building(RunContainer) ==> c.o.Exited?)
            && (c.pc == Building(Rename) || c.pc == Linking(LinkCreate) ==> c.o.Ok? || Fails(c))
  {
    var h := CallMade(states, steps, i, r, a);
    assert Legal(states[h], steps[h]);
  }

  /** The calls of a run follow the text of `Work`; only polling and writing parameters repeat. */
  lemma CallsFollowTheText(states: seq<State>, steps: seq<Step>, i: nat, r: nat, a: nat, b: nat)
    requires Behaviour(states, steps) && i <= |steps| && a < b < |CallsOf(states, steps, i, r)|
    ensures var cs := CallsOf(states, steps, i, r);
            Place(cs[a].pc) < Place(cs[b].pc) || (cs[a].pc == cs[b].pc && Loops(cs[a].pc))
  {
    CallsAgree(states, steps, i, r);
  }

  /** After a call has failed, a run makes no other calls than deferred ones. */
  lemma OnlyDeferredAfter(states: seq<State>, steps: seq<Step>, i: nat, r: nat, a: nat, b: nat)
    requires Behaviour(states, steps) && i <= |steps| && a < b < |CallsOf(states, steps, i, r)|
    requires Fails(CallsOf(states, steps, i, r)[a])
    ensures IsDeferred(CallsOf(states, steps, i, r)[b].pc)
  {
    var cs := CallsOf(states, steps, i, r);
    var h := CallMade(states, steps, i, r, b);
    CallsAgree(states, steps, h, r);
    assert Fails(cs[..b][a]);
    InvBehaviour(states, steps, h);
    IsSound(states[h], r, states[h].runs[r]);
  }

  /** When a run has returned, each deferred call has been made if and only if the call that defers it had succeeded. */
  lemma DeferredCallsAreMade(states: seq<State>, steps: seq<Step>, i: nat, r: nat, first: Pc, d: Pc)
    requires Behaviour(states, steps) && i <= |steps| && r in states[i].runs && states[i].runs[r].pc.Done?
    requires Defers(first, d)
    ensures var cs := CallsOf(states, steps, i, r); Has(cs, d) <==> HasOk(cs, first)
  {
    CallsAgree(states, steps, i, r);
    DeferredWhenDone(states[i].runs[r], CallsOf(states, steps, i, r), first, d);
  }

  lemma DeferredWhenDone(n: Run, cs: seq<Made>, first: Pc, d: Pc)
    requires Agrees(n, cs) && n.pc.Done? && Defers(first, d)
    ensures Has(cs, d) <==> HasOk(cs, first)
  {
    assert DeferredBy(n, cs, first, d);
    Unfinished(d);
  }

  /** A run returns an error if and only if one of its calls has failed. */
  lemma ReturnsAnError(states: seq<State>, steps: seq<Step>, i: nat, r: nat)
    requires Behaviour(states, steps) && i <= |steps| && r in states[i].runs && states[i].runs[r].pc.Done?
    ensures states[i].runs[r].answer == Failed <==> HasFailed(CallsOf(states, steps, i, r))
  {
    CallsAgree(states, steps, i, r);
  }

  /** The calls behind an answer without an error. */
  ghost predicate Explains(j: Job, cs: seq<Made>, how: How, code: int) {
    match how
    case Coalesced => WaitedFor(cs, code)
    case Cached => FoundCached(cs, code) && cs[3..] == [Made(Leave, Ok)]
    case Built => BuiltAll(j, cs, code)
  }

  /** All calls that the build takes were made and none has failed; the container exited with code. */
  ghost predicate BuiltAll(j: Job, cs: seq<Made>, code: int) {
    && !HasFailed(cs) && Made(Building(RunContainer), Exited(code, false)) in cs
    && forall pc :: Takes(j.group, SourceOf(cs), code, pc) ==> Has(cs, pc)
  }

  lemma {:induction false} CodeIs(cs: seq<Made>, a: nat)
    requires a < |cs| && cs[a].o.Exited? && forall b :: a < b < |cs| ==> !cs[b].o.Exited?
    ensures CodeOf(cs) == cs[a].o.code
    decreases |cs|
  {
    if a < |cs| - 1 { CodeIs(cs[..|cs| - 1], a); }
  }

  /** The exit code that a run carries after its container is what the container reported. */
  lemma ContainerCode(states: seq<State>, steps: seq<Step>, i: nat, r: nat) returns (a: nat)
    requires Behaviour(states, steps) && i <= |steps| && Has(CallsOf(states, steps, i, r), Building(RunContainer))
    ensures var cs := CallsOf(states, steps, i, r);
            a < |cs| && cs[a].pc == Building(RunContainer) && cs[a].o.Exited? && cs[a].o.code == CodeOf(cs)
  {
    var cs := CallsOf(states, steps, i, r);
    a :| 0 <= a < |cs| && cs[a].pc == Building(RunContainer);
    CallsAgree(states, steps, i, r);
    Reported(states, steps, i, r, a);
    CodeIs(cs, a);
  }

  /** What a run that returns without an error has done. */
  lemma ReturnsAnAnswer(states: seq<State>, steps: seq<Step>, i: nat, r: nat)
    requires Behaviour(states, steps) && i <= |steps| && r in states[i].runs && states[i].runs[r].answer.Replied?
    requires states[i].runs[r].pc.Done?
    ensures var n := states[i].runs[r]; Explains(n.job, CallsOf(states, steps, i, r), n.answer.how, n.answer.code)
  {
    var n, cs := states[i].runs[r], CallsOf(states, steps, i, r);
    CallsAgree(states, steps, i, r);
    if n.answer.how.Built? {
      BuiltWhenDone(n, cs);
      var a := ContainerCode(states, steps, i, r);
      assert !Fails(cs[a]);
    }
  }

  lemma BuiltWhenDone(n: Run, cs: seq<Made>)
    requires Agrees(n, cs) && n.pc.Done? && n.answer.Replied? && n.answer.how.Built?
    ensures !HasFailed(cs) && n.answer.code == CodeOf(cs) && Has(cs, Building(RunContainer))
    ensures forall pc :: Takes(n.job.group, SourceOf(cs), n.answer.code, pc) ==> Has(cs, pc)
  {
    forall pc | Takes(n.job.group, SourceOf(cs), n.exit, pc) ensures Has(cs, pc) {
      assert Complete(n, cs, pc);
      Unfinished(pc);
    }
  }

  lemma Unfinished(pc: Pc)
    requires !pc.Done?
    ensures Place(pc) < Place(Done)
  {
  }

  // What is published

  lemma {:induction false} NoCode(cs: seq<Made>)
    requires forall a :: 0 <= a < |cs| ==> !cs[a].o.Exited?
    ensures CodeOf(cs) == PENDING_EXIT_CODE
  {
    if cs != [] { NoCode(cs[..|cs| - 1]); }
  }

  /** After a call before the container has failed, such as writing a parameter or building the image, no container
      runs and the exit code stays the initial one. */
  lemma NoContainerAfterFailure(states: seq<State>, steps: seq<Step>, i: nat, r: nat, a: nat)
    requires Behaviour(states, steps) && i <= |steps| && a < |CallsOf(states, steps, i, r)|
    requires var c := CallsOf(states, steps, i, r)[a]; Fails(c) && Place(c.pc) < Place(Building(RunContainer))
    ensures var cs := CallsOf(states, steps, i, r);
            !Has(cs, Building(RunContainer)) && CodeOf(cs) == PENDING_EXIT_CODE && HasFailed(cs)
  {
    var cs := CallsOf(states, steps, i, r);
    CallsAgree(states, steps, i, r);
    forall b | 0 <= b < |cs| ensures cs[b].pc != Building(RunContainer) {
      if a < b { OnlyDeferredAfter(states, steps, i, r, a, b); }
    }
    NoCode(cs);
  }

  /** The build info with the run's exit code and whether it has met an error, both as its calls have it. */
  function InfoOf(j: Job, cs: seq<Made>): Info {
    Info(CodeOf(cs), exists a :: 0 <= a < |cs| && Fails(cs[a]), j.group, SourceOf(cs).Some?)
  }

  /** What a run publishes, exactly: i is the last persist, j the rename. When the persist writes, it is the exit code
      its container has reported, or -999 if none has run, and an error if and only if one of its calls had failed. */
  lemma PublishedInfo(states: seq<State>, steps: seq<Step>, i: nat, j: nat, r: nat, o: Outcome)
    requires Behaviour(states, steps) && i < j < |steps| && steps[i] == By(r, o) && steps[j] == By(r, Ok)
    requires r in states[i].runs && states[i].runs[r].pc == Building(Persist)
    requires forall h :: i < h < j ==> !steps[h].Restart? && steps[h].r != r
    ensures var job, cs := states[i].runs[r].job, CallsOf(states, steps, i, r);
            && KeyOf(job) in states[j + 1].ready
            && states[j + 1].ready[KeyOf(job)].info ==
                 if o.Ok? || o.LateFail? then InfoOf(job, cs)
                 else if o.Torn? then Unreadable
                 else Info(PENDING_EXIT_CODE, false, job.group, SourceOf(cs).Some?)
  {
    var s := states[i];
    assert Legal(s, steps[i]) && states[i + 1] == Apply(s, steps[i]);
    InvBehaviour(states, steps, i);
    CallsAgree(states, steps, i, r);
    PersistLeaves(s, r, o);
    OwnerWaits(states, steps, i + 1, j, r);
    assert Legal(states[j], steps[j]) && states[j + 1] == Apply(states[j], steps[j]);
    RenamePublishes(states[j], r);
  }

  lemma PersistLeaves(s: State, r: nat, o: Outcome)
    requires Inv(s) && r in s.runs && s.runs[r].pc == Building(Persist) && Legal(s, By(r, o))
    ensures var n, t := s.runs[r], Apply(s, By(r, o)); var k := KeyOf(n.job);
            && r in t.runs && t.runs[r].pc == Building(Rename) && t.runs[r].job == n.job && k in t.pending
            && t.pending[k].info == if o.Ok? || o.LateFail? then CurrentInfo(n) else if o.Torn? then Unreadable
                                    else Info(PENDING_EXIT_CODE, false, n.job.group, n.src.Some?)
  {
    assert RunOk(s, r, s.runs[r]);
  }

  // What is linked

  /** The link is set, and that after the build was published. */
  lemma LinkCall(states: seq<State>, steps: seq<Step>, i: nat, r: nat, b: nat) returns (g: nat, h: nat)
    requires Behaviour(states, steps) && i <= |steps| && b < |CallsOf(states, steps, i, r)|
    requires CallsOf(states, steps, i, r)[b] == Made(Linking(LinkCreate), Ok)
    ensures g < h < i && r in states[i].runs && Linked(states, steps, g, h, r, states[i].runs[r].job)
  {
    h := CallMade(states, steps, i, r, b);
    assert Legal(states[h], steps[h]) && states[h + 1] == Apply(states[h], steps[h]);
    var a := RenamedBefore(states, steps, h, r);
    g := CallMade(states, steps, h, r, a);
  }

  lemma AboutToLink(s: State, r: nat, cs: seq<Made>)
    requires Inv(s) && r in s.runs && s.runs[r].pc == Linking(LinkCreate) && Agrees(s.runs[r], cs)
    ensures Has(cs, Building(Rename)) && !HasFailed(cs)
  {
    assert RunOk(s, r, s.runs[r]);
    assert Complete(s.runs[r], cs, Building(Rename));
  }

  lemma RenamedBefore(states: seq<State>, steps: seq<Step>, h: nat, r: nat) returns (a: nat)
    requires Behaviour(states, steps) && h <= |steps|
    requires r in states[h].runs && states[h].runs[r].pc == Linking(LinkCreate)
    ensures a < |CallsOf(states, steps, h, r)| && CallsOf(states, steps, h, r)[a] == Made(Building(Rename), Ok)
  {
    var cs := CallsOf(states, steps, h, r);
    CallsAgree(states, steps, h, r);
    InvBehaviour(states, steps, h);
    AboutToLink(states[h], r, cs);
    a :| 0 <= a < |cs| && cs[a].pc == Building(Rename);
    Reported(states, steps, h, r, a);
  }

  lemma LinkedWhenDone(n: Run, cs: seq<Made>)
    requires Agrees(n, cs) && n.pc.Done?
    ensures n.answer == Replied(Built, SUCCESS_EXIT_CODE) ==> Has(cs, Linking(LinkCreate)) && !HasFailed(cs)
    ensures HasOk(cs, Linking(LinkCreate)) ==> n.answer == Replied(Built, SUCCESS_EXIT_CODE)
  {
    assert Complete(n, cs, Linking(LinkCreate));
  }

  /** A run that has returned has set its link if and only if it answers that it has built with exit code 0; at that
      step the link named the build, which it had published before. */
  lemma LinksWhatItBuilt(states: seq<State>, steps: seq<Step>, i: nat, r: nat)
    requires Behaviour(states, steps) && i <= |steps| && r in states[i].runs && states[i].runs[r].pc.Done?
    ensures var n, cs := states[i].runs[r], CallsOf(states, steps, i, r);
            n.answer == Replied(Built, SUCCESS_EXIT_CODE) <==> HasOk(cs, Linking(LinkCreate))
    ensures var n := states[i].runs[r];
            n.answer == Replied(Built, SUCCESS_EXIT_CODE) ==>
              exists g: nat, h: nat | g < h < i :: Linked(states, steps, g, h, r, n.job)
  {
    var n, cs := states[i].runs[r], CallsOf(states, steps, i, r);
    CallsAgree(states, steps, i, r);
    LinkedWhenDone(n, cs);
    if n.answer == Replied(Built, SUCCESS_EXIT_CODE) {
      var b :| 0 <= b < |cs| && cs[b].pc == Linking(LinkCreate);
      Reported(states, steps, i, r, b);
      var g, h := LinkCall(states, steps, i, r, b);
    }
  }

  /** At step g run r publishes its build, at step h it links it. */
  ghost predicate Linked(states: seq<State>, steps: seq<Step>, g: nat, h: nat, r: nat, j: Job)
    requires |states| == |steps| + 1 && g < h < |steps|
  {
    && Publishes(states[g], steps[g], KeyOf(j)) && steps[g].r == r
    && CallOn(states[h], steps[h], Linking(LinkCreate), KeyOf(j)) && steps[h].r == r
    && LinkOf(j) in states[h + 1].links && states[h + 1].links[LinkOf(j)] == KeyOf(j)
  }

  // In a state, whatever has led to it

  /** However s was reached: run r has met an error exactly if err, and it carries the exit code of its container. */
  ghost predicate Tells(s: State, r: nat, exit: int, err: bool) {
    forall states, steps | Behaviour(states, steps) && states[|steps|] == s ::
      var cs := CallsOf(states, steps, |steps|, r); (err <==> HasFailed(cs)) && exit == CodeOf(cs)
  }

  lemma TellsRun(s: State, r: nat)
    requires r in s.runs
    ensures Tells(s, r, s.runs[r].exit, s.runs[r].err)
  {
    forall states, steps | Behaviour(states, steps) && states[|steps|] == s
      ensures var cs := CallsOf(states, steps, |steps|, r);
              (s.runs[r].err <==> HasFailed(cs)) && s.runs[r].exit == CodeOf(cs)
    {
      CallsAgree(states, steps, |steps|, r);
    }
  }

  /** However s was reached: run r has set its link exactly if linked. */
  ghost predicate SetsLink(s: State, r: nat, linked: bool) {
    forall states, steps | Behaviour(states, steps) && states[|steps|] == s ::
      linked <==> HasOk(CallsOf(states, steps, |steps|, r), Linking(LinkCreate))
  }

  lemma LinkedWhenLeaving(n: Run, cs: seq<Made>)
    requires Agrees(n, cs) && n.pc.Leave? && n.exit == SUCCESS_EXIT_CODE && n.answer.NoAnswer?
    ensures !n.err ==> Has(cs, Linking(LinkCreate)) && !HasFailed(cs)
    ensures HasOk(cs, Linking(LinkCreate)) ==> !n.err
  {
    assert Complete(n, cs, Linking(LinkCreate));
  }

  lemma SetsLinkWhenLeaving(s: State, r: nat)
    requires r in s.runs && s.runs[r].pc.Leave? && s.runs[r].exit == SUCCESS_EXIT_CODE && s.runs[r].answer.NoAnswer?
    ensures SetsLink(s, r, !s.runs[r].err)
  {
    forall states, steps | Behaviour(states, steps) && states[|steps|] == s
      ensures !s.runs[r].err <==> HasOk(CallsOf(states, steps, |steps|, r), Linking(LinkCreate))
    {
      var cs := CallsOf(states, steps, |steps|, r);
      CallsAgree(states, steps, |steps|, r);
      LinkedWhenLeaving(s.runs[r], cs);
      if !s.runs[r].err {
        var b :| 0 <= b < |cs| && cs[b].pc == Linking(LinkCreate);
        Reported(states, steps, |steps|, r, b);
      }
    }
  }

  /** However s was reached: run r has returned what its calls account for, an error exactly if one of them has
      failed. */
  ghost predicate Accounts(s: State, r: nat, j: Job, answer: Answer) {
    forall states, steps | Behaviour(states, steps) && states[|steps|] == s ::
      var cs := CallsOf(states, steps, |steps|, r);
      (answer.Failed? <==> HasFailed(cs)) && (answer.Replied? ==> Explains(j, cs, answer.how, answer.code))
  }

  lemma AccountsForAnswer(s: State, r: nat)
    requires r in s.runs && s.runs[r].pc.Done?
    ensures Accounts(s, r, s.runs[r].job, s.runs[r].answer)
  {
    forall states, steps | Behaviour(states, steps) && states[|steps|] == s
      ensures var n, cs := s.runs[r], CallsOf(states, steps, |steps|, r);
              && (n.answer.Failed? <==> HasFailed(cs))
              && (n.answer.Replied? ==> Explains(n.job, cs, n.answer.how, n.answer.code))
    {
      ReturnsAnError(states, steps, |steps|, r);
      if s.runs[r].answer.Replied? { ReturnsAnAnswer(states, steps, |steps|, r); }
    }
  }

  // What may go wrong

  /** The calls that may fail, which are all but those to the queues and mutexes, the deferred return and the container,
      which reports an exit code. */
  predicate Fallible(j: Job, pc: Pc) {
    match pc
    case Entering(e) => !e.Start?
    case Checking(_) => true
    case Bootstrapping(b) => !b.BootLock? && !b.BootUnlock?
    case Preparing(p) => p.Resolve? ==> j.group != ""
    case Building(w) => !w.RunContainer?
    case Linking(l) => !l.LinkLock? && !l.LinkUnlock?
    case Leave => false
    case Done => false
  }

  /** In every reachable state each such call may fail, in every way, and a container may end in every way. */
  lemma AnyCallMayFail(s: State, r: nat)
    requires Reachable(s) && r in s.runs
    ensures var n := s.runs[r];
            && (Fallible(n.job, n.pc) ==> Legal(s, By(r, Fail)))
            && (n.pc == Entering(Poll) ==> Legal(s, By(r, Cancel)))
            && (n.pc == Checking(Remove) ==> Legal(s, By(r, Torn)) && Legal(s, By(r, More)))
            && (n.pc == Checking(RemoveInfo) || n.pc == Checking(Removing) ==> Legal(s, By(r, Torn)))
            && (n.pc == Bootstrapping(StatProject) ==> Legal(s, By(r, NotExist)))
            && (n.pc == Preparing(MakeDir) ==> forall i, log :: Legal(s, By(r, TornInto(i, log))))
            && (n.pc == Preparing(InitPersist) || n.pc == Building(Persist) ==>
                  Legal(s, By(r, Torn)) && Legal(s, By(r, LateFail)))
            && (n.pc == Building(RunContainer) ==>
                  Legal(s, By(r, Exited(0, true))) && forall c :: Legal(s, By(r, Exited(c, false))))
  {
    InvReachable(s);
    assert RunOk(s, r, s.runs[r]);
  }
}

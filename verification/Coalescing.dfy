/** When a run that coalesces with another can be left waiting for nothing. */
module Coalescing {
  import opened Protocol
  import opened Invariant
  import opened Preservation
  import opened Safety

  /** Run c polls for a ready path although its ID has no owner and the path does not exist. */
  predicate Orphaned(s: State, c: nat) {
    c in s.runs && s.runs[c].pc == Entering(Poll)
    && s.runs[c].job.id !in s.jq && KeyOf(s.runs[c].job) !in s.ready
  }

  /** Run r, which has returned, explains why c waits for nothing: it worked on the same ID and either met a fault
      before publication, in the removal of a failed build or in the rename, or belongs to another project. */
  predicate Explains(s: State, c: nat, r: nat) {
    && c in s.runs && r in s.runs && s.runs[r].pc.Done? && s.runs[r].job.id == s.runs[c].job.id
    && (s.runs[r].faulted || s.runs[r].job.project != s.runs[c].job.project)
  }

  ghost predicate WaitsOk(s: State) {
    forall c :: Orphaned(s, c) ==> exists r :: Explains(s, c, r)
  }

  /** Only the removal of a failed build takes a ready path away, and its owner is in the queue meanwhile. */
  lemma ReadyGoes(s: State, r: nat, n: Run, o: Outcome, k: Key)
    requires Enabled(s, n, o) && RunOk(s, r, n) && k in s.ready && k !in Effect(s, r, n, o).ready
    ensures k.id in Effect(s, r, n, o).jq
  {
    if !n.pc.Checking? { ReadyStays(s, r, n, o, k); }
  }

  lemma ReadyStays(s: State, r: nat, n: Run, o: Outcome, k: Key)
    requires Enabled(s, n, o) && !n.pc.Checking? && k in s.ready
    ensures k in Effect(s, r, n, o).ready
  {
    if n.pc.Building? { EntryAfterBuild(s, n, n.pc.w, o, k); }
  }

  lemma QueueLoses(s: State, r: nat, n: Run, o: Outcome, id: string)
    requires Enabled(s, n, o) && id in s.jq && id !in Effect(s, r, n, o).jq
    ensures n.pc.Leave? && id == n.job.id
  {
  }

  lemma StartsPolling(s: State, n: Run, o: Outcome)
    requires Enabled(s, n, o) && Local(n, o).pc == Entering(Poll) && n.pc != Entering(Poll)
    ensures n.pc == Entering(Start) && n.job.id in s.jq
  {
  }

  lemma DoneStays(n: Run, o: Outcome)
    ensures n.faulted ==> Local(n, o).faulted
    ensures n.pc.Leave? ==> Local(n, o).pc.Done? && Local(n, o).faulted == n.faulted
  {
  }

  lemma WaitsStepBy(s: State, r: nat, o: Outcome, e: State, t: State)
    requires Inv(s) && WaitsOk(s) && Legal(s, By(r, o))
    requires e == Effect(s, r, s.runs[r], o) && t == e.(runs := s.runs[r := Local(s.runs[r], o)])
    ensures WaitsOk(t)
  {
    var n := s.runs[r];
    assert RunOk(s, r, n);
    SameJob(n, o);
    DoneStays(n, o);
    forall c | Orphaned(t, c) ensures exists q :: Explains(t, c, q) {
      var j, k := t.runs[c].job, KeyOf(t.runs[c].job);
      if c == r && n.pc != Entering(Poll) {
        StartsPolling(s, n, o);
        QueueLoses(s, r, n, o, j.id);
      } else if k in s.ready {
        ReadyGoes(s, r, n, o, k);
      } else if j.id in s.jq {
        QueueLoses(s, r, n, o, j.id);
        if n.job.project == j.project && KeyOf(n.job) in s.ready { ReadyStays(s, r, n, o, k); }
        assert Explains(t, c, r);
      } else {
        assert Orphaned(s, c);
        var q :| Explains(s, c, q);
        assert q != r;
        assert Explains(t, c, q);
      }
    }
  }

  lemma {:induction false} WaitsInBehaviour(states: seq<State>, steps: seq<Step>, i: nat)
    requires Behaviour(states, steps) && i <= |steps|
    ensures WaitsOk(states[i])
  {
    if i > 0 {
      var s, a, t := states[i - 1], steps[i - 1], states[i];
      WaitsInBehaviour(states, steps, i - 1);
      InvBehaviour(states, steps, i - 1);
      match a
      case Begin(r, j) =>
        forall c | Orphaned(t, c) ensures exists q :: Explains(t, c, q) {
          assert Orphaned(s, c);
          var q :| Explains(s, c, q);
          assert Explains(t, c, q);
        }
      case By(r, o) => WaitsStepBy(s, r, o, Effect(s, r, s.runs[r], o), t);
      case Restart(_, _) =>
    }
  }

  /** In every reachable state, a run is left polling for a path that nobody will publish only after a run of the
      same ID has returned with such a fault or for another project. Failing builds, docker and link errors never
      orphan a coalescer. */
  lemma OrphanHasCause(s: State, c: nat)
    requires Reachable(s) && Orphaned(s, c)
    ensures exists r :: Explains(s, c, r)
  {
    var states, steps :| Behaviour(states, steps) && states[|steps|] == s;
    WaitsInBehaviour(states, steps, |steps|);
  }

  // The IDs in the job queue

  /** Run r works on id as its owner. */
  predicate OwnsId(s: State, r: nat, id: string) {
    r in s.runs && Owns(s.runs[r].pc) && s.runs[r].job.id == id
  }

  ghost predicate Owned(s: State, id: string) { exists r :: OwnsId(s, r, id) }

  lemma QueueGains(s: State, r: nat, n: Run, o: Outcome, id: string)
    requires Enabled(s, n, o) && id !in s.jq
    ensures id in Effect(s, r, n, o).jq <==> n.pc == Entering(Start) && o.Ok? && n.job.id == id
  {
  }

  lemma CheckOwns(n: Run, c: CheckPc, o: Outcome)
    requires n.pc == Checking(c)
    ensures Owns(LocalCheck(n, c, o).pc)
  {
  }

  lemma BootOwns(n: Run, b: BootPc, o: Outcome)
    requires n.pc == Bootstrapping(b)
    ensures Owns(LocalBoot(n, b, o).pc)
  {
  }

  lemma PrepareOwns(n: Run, p: PreparePc, o: Outcome)
    requires n.pc == Preparing(p)
    ensures Owns(LocalPrepare(n, p, o).pc)
  {
  }

  lemma BuildOwns(n: Run, w: BuildPc, o: Outcome)
    requires n.pc == Building(w)
    ensures Owns(LocalBuild(n, w, o).pc)
  {
  }

  lemma LinkOwns(n: Run, l: LinkPc, o: Outcome)
    requires n.pc == Linking(l)
    ensures Owns(LocalLink(n, l, o).pc)
  {
  }

  lemma StaysOwner(n: Run, o: Outcome)
    requires Owns(n.pc) && !n.pc.Leave?
    ensures Owns(Local(n, o).pc)
  {
    match n.pc
    case Checking(c) => CheckOwns(n, c, o);
    case Bootstrapping(b) => BootOwns(n, b, o);
    case Preparing(p) => PrepareOwns(n, p, o);
    case Building(w) => BuildOwns(n, w, o);
    case Linking(l) => LinkOwns(n, l, o);
  }

  lemma OwnedStep(s: State, r: nat, o: Outcome, id: string)
    requires Inv(s) && Legal(s, By(r, o)) && id in Apply(s, By(r, o)).jq && (id in s.jq ==> Owned(s, id))
    ensures Owned(Apply(s, By(r, o)), id)
  {
    var n, t := s.runs[r], Apply(s, By(r, o));
    SameJob(n, o);
    if id !in s.jq {
      QueueGains(s, r, n, o, id);
      assert OwnsId(t, r, id);
    } else {
      var q :| OwnsId(s, q, id);
      if q == r && n.pc.Leave? {
        assert false;
      } else {
        if q == r { StaysOwner(n, o); }
        assert OwnsId(t, q, id);
      }
    }
  }

  /** An ID is in the job queue only while a run that owns it is working. */
  lemma {:induction false} QueueIsOwned(states: seq<State>, steps: seq<Step>, i: nat, id: string)
    requires Behaviour(states, steps) && i <= |steps| && id in states[i].jq
    ensures Owned(states[i], id)
  {
    if i > 0 {
      var s, a := states[i - 1], steps[i - 1];
      assert Legal(s, a) && states[i] == Apply(s, a);
      if id in s.jq { QueueIsOwned(states, steps, i - 1, id); }
      if a.By? {
        InvBehaviour(states, steps, i - 1);
        OwnedStep(s, a.r, a.o, id);
      } else {
        var q :| OwnsId(s, q, id);
        assert OwnsId(states[i], q, id);
      }
    }
  }

  /** So without faults, and with IDs that determine projects, every coalescing run has its ID owned by another or
      finds its ready path. */
  lemma NoOrphans(s: State, c: nat)
    requires Reachable(s) && c in s.runs && s.runs[c].pc == Entering(Poll)
    requires forall r :: r in s.runs && s.runs[r].pc.Done? ==> !s.runs[r].faulted
    requires forall r, q :: r in s.runs && q in s.runs && s.runs[r].job.id == s.runs[q].job.id ==>
               s.runs[r].job.project == s.runs[q].job.project
    ensures Owned(s, s.runs[c].job.id) || KeyOf(s.runs[c].job) in s.ready
  {
    if Orphaned(s, c) { OrphanHasCause(s, c); }
    if s.runs[c].job.id in s.jq {
      var states, steps :| Behaviour(states, steps) && states[|steps|] == s;
      QueueIsOwned(states, steps, |steps|, s.runs[c].job.id);
    }
  }

  // How long it waits

  /** The step a admits a run as the owner of id. */
  predicate Admits(s: State, a: Step, id: string) {
    a.By? && a.r in s.runs && s.runs[a.r].pc == Entering(Start) && a.o.Ok? && s.runs[a.r].job.id == id
  }

  /** The poll of run c reports something other than that there is no ready path: it is cancelled or fails. */
  predicate GivesUp(a: Step, c: nat) { a.By? && a.r == c && !a.o.NotExist? }

  lemma ReadyAppears(s: State, r: nat, n: Run, o: Outcome, k: Key)
    requires Enabled(s, n, o) && k !in s.ready && k in Effect(s, r, n, o).ready
    ensures Owns(n.pc) && KeyOf(n.job) == k
  {
    if n.pc.Checking? {
      CheckAddsNothing(s, n, n.pc.c, o, k);
    } else if n.pc.Building? {
      EntryAfterBuild(s, n, n.pc.w, o, k);
    }
  }

  lemma PollStep(n: Run, o: Outcome)
    requires n.pc == Entering(Poll)
    ensures Local(n, o).pc == Entering(Poll) <==> o.NotExist?
    ensures o.NotExist? ==> Local(n, o) == n
  {
  }

  /** Exactly three things end the wait of an orphaned run: it gives up, the server restarts, or a run of its ID is
      admitted. */
  lemma OrphanStep(s: State, a: Step, c: nat)
    requires Reachable(s) && Legal(s, a) && Orphaned(s, c)
    ensures Orphaned(Apply(s, a), c) <==> !a.Restart? && !GivesUp(a, c) && !Admits(s, a, s.runs[c].job.id)
  {
    InvReachable(s);
    var j := s.runs[c].job;
    if a.By? {
      var n := s.runs[a.r];
      assert RunOk(s, a.r, n);
      QueueGains(s, a.r, n, a.o, j.id);
      if KeyOf(j) in Effect(s, a.r, n, a.o).ready { ReadyAppears(s, a.r, n, a.o, KeyOf(j)); }
      if a.r == c { PollStep(n, a.o); }
    }
  }

  /** So an orphaned run polls on, whatever else happens, until it gives up, the server restarts or a run of its ID is
      admitted. */
  lemma {:induction false} OrphanWaits(states: seq<State>, steps: seq<Step>, i: nat, j: nat, c: nat)
    requires Behaviour(states, steps) && i <= j <= |steps| && Orphaned(states[i], c)
    requires forall h :: i <= h < j ==>
               !steps[h].Restart? && !GivesUp(steps[h], c) && !Admits(states[h], steps[h], states[i].runs[c].job.id)
    ensures Orphaned(states[j], c) && states[j].runs[c] == states[i].runs[c]
    decreases j
  {
    if i < j {
      OrphanWaits(states, steps, i, j - 1, c);
      var s, a := states[j - 1], steps[j - 1];
      assert Legal(s, a) && states[j] == Apply(s, a);
      PrefixReachable(states, steps, j - 1);
      OrphanStep(s, a, c);
      if a.By? && a.r == c { PollStep(s.runs[c], a.o); }
    }
  }
}

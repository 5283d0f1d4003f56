/** Executions that show where obvious claims about the build protocol are false. */
module Witnesses {
  import opened Protocol
  import opened Invariant
  import opened Progress
  import opened Continuations
  import opened Coalescing

  const BUILDER := Job("id", "ab", "")
  const KEY := Key("ab", "id")

  /** Project and group are concatenated in the seed, so this job has the ID of BUILDER. */
  const WAITER := Job("id", "a", "b")

  /** Run 1, of the given job, coalesces with run 0. */
  lemma BothEnter(waiter: Job) returns (s: State)
    requires waiter.id == BUILDER.id
    ensures Leads(EMPTY, Put(s, 0, NewRun(BUILDER).At(Bootstrapping(StatProject))))
    ensures s == EMPTY.(runs := map[1 := NewRun(waiter).At(Entering(Poll))], jq := {"id"})
  {
    var n := NewRun(BUILDER).At(Checking(StatReady));
    LeadsHere(EMPTY);
    OwnerEnters(EMPTY, EMPTY, 0, BUILDER);
    s := EMPTY.(jq := {"id"});
    assert EMPTY.(jq := EMPTY.jq + {"id"}) == s;
    CoalescerEnters(EMPTY, s, 0, n, 1, waiter);
    s := Put(s, 1, NewRun(waiter).At(Entering(Poll)));
    CheckMove(EMPTY, s, 0, n, StatReady, NotExist);
  }

  // A failure that is served as a success

  lemma FailureIsPublished() returns (s: State)
    ensures Leads(EMPTY, s) && s.runs.Keys == {0} && s.jq == {}
    ensures KEY in s.ready && s.ready[KEY].info == Info(0, true, "", false) && s.ready[KEY].log
  {
    var n := NewRun(BUILDER);
    LeadsHere(EMPTY);
    OwnerEnters(EMPTY, EMPTY, 0, BUILDER);
    var t := EMPTY.(jq := EMPTY.jq + {"id"});
    CheckMove(EMPTY, t, 0, n.At(Checking(StatReady)), StatReady, NotExist);
    var m := n.At(Bootstrapping(StatProject));
    var u := FailsWithZero(EMPTY, t, 0, m);
    s := Put(u, 0, Prepared(t, m).(pc := Done, err := true, exit := 0, errBuild := true, answer := Failed));
  }

  /** Run q is answered from the ready path of its job. */
  lemma AnsweredFromCache(s: State, q: nat, j: Job) returns (t: State)
    requires Leads(EMPTY, s) && q !in s.runs && j.id !in s.jq
    requires KeyOf(j) in s.ready && s.ready[KeyOf(j)].log && s.ready[KeyOf(j)].info.Info?
    requires s.ready[KeyOf(j)].info.exit == SUCCESS_EXIT_CODE
    ensures Leads(EMPTY, t) && t.ready == s.ready
    ensures q in t.runs && t.runs[q].job == j && t.runs[q].answer == Replied(Cached, SUCCESS_EXIT_CODE)
  {
    var n, o := NewRun(j), Read(s.ready[KeyOf(j)].info);
    OwnerEnters(EMPTY, s, q, j);
    var u := s.(jq := s.jq + {j.id});
    CheckMove(EMPTY, u, q, n.At(Checking(StatReady)), StatReady, Ok);
    CheckMove(EMPTY, u, q, n.At(Checking(ReadReady)), ReadReady, o);
    t := Put(EffectCheck(u, n, ReadReady, o), q, LocalCheck(n.At(Checking(ReadReady)), ReadReady, o));
  }

  /** A build can be published with exit code 0 although it failed and has a build error; no link will name it, but
      a later run of the same job is answered from it as a cached success. */
  lemma FailureIsServedAsSuccess()
    ensures exists s, r :: Reachable(s) && r in s.runs && s.runs[r].answer == Replied(Cached, SUCCESS_EXIT_CODE)
              && KeyOf(s.runs[r].job) in s.ready && Succeeded(s.ready[KeyOf(s.runs[r].job)])
              && s.ready[KeyOf(s.runs[r].job)].info.err
  {
    var s := FailureIsPublished();
    var t := AnsweredFromCache(s, 2, BUILDER);
    EmptyIsReachable();
    LeadsToReachable(EMPTY, t);
    assert t.runs[2].answer == Replied(Cached, SUCCESS_EXIT_CODE);
  }

  // An error that comes too late

  lemma LateErrorStep(s: State, n: Run) returns (t: State)
    requires Leads(EMPTY, Put(s, 0, n)) && n.job == BUILDER && n.pc == Building(Rename) && n.answer.NoAnswer?
    requires n.err && n.exit == 0 && KEY in s.pending && KEY !in s.ready
    requires s.pending[KEY].info == Info(0, false, "", false)
    ensures Leads(EMPTY, t) && 0 in t.runs && t.runs[0].job == BUILDER && t.runs[0].answer == Failed
    ensures KEY in t.ready && Good(t.ready[KEY]) && t.links == s.links
  {
    var u := Renames(EMPTY, s, 0, n);
    LeaveMove(EMPTY, u, 0, n.At(Leave));
    t := Put(EffectLeave(u, n.At(Leave)), 0, LocalLeave(n.At(Leave)));
  }

  /** A run can fail and have published a successful build: the last persist wrote the build info and then reported an
      error. No link names that build. */
  lemma LateErrorPublishes()
    ensures exists s, r :: Reachable(s) && r in s.runs && s.runs[r].answer == Failed
              && KeyOf(s.runs[r].job) in s.ready && Good(s.ready[KeyOf(s.runs[r].job)]) && s.links == map[]
  {
    var n := NewRun(BUILDER).At(Bootstrapping(StatProject));
    var s := BothEnter(BUILDER);
    var t := GetsToRename(EMPTY, s, 0, n, 0, true);
    var u := LateErrorStep(t, Persisted(s, n, 0, true));
    EmptyIsReachable();
    LeadsToReachable(EMPTY, u);
    assert u.runs[0].answer == Failed;
  }

  // Runs that wait for nothing

  /** A coalescing run can wait for nothing although nothing has failed at all, when two projects share an ID: its owner
      builds, publishes and answers for its own project. */
  lemma CollisionOrphans()
    ensures exists s, c :: Reachable(s) && Orphaned(s, c)
              && forall r :: r in s.runs ==> !s.runs[r].err && !s.runs[r].faulted
  {
    var n := NewRun(BUILDER).At(Bootstrapping(StatProject));
    var s := BothEnter(WAITER);
    var t := BuildsAndAnswers(EMPTY, s, 0, n, 0);
    var u := Put(t, 0, Persisted(s, n, 0, false).(pc := Done, answer := Replied(Built, 0)));
    EmptyIsReachable();
    LeadsToReachable(EMPTY, u);
    assert Orphaned(u, 1);
  }

  /** Nothing has failed so far, all runs are of the same job, and the call pc of run q now reports o. */
  ghost predicate FirstFault(s: State, q: nat, pc: Pc, o: Outcome) {
    && Reachable(s) && q in s.runs && s.runs[q].pc == pc && Legal(s, By(q, o))
    && forall r :: r in s.runs ==> !s.runs[r].err && !s.runs[r].faulted && s.runs[r].job == s.runs[q].job
  }

  /** This one fault makes q leave, and then some run waits for nothing. */
  ghost predicate Orphans(pc: Pc, o: Outcome) {
    exists s, q, c :: FirstFault(s, q, pc, o) && LeavesOrphan(s, q, o, c)
  }

  ghost predicate LeavesOrphan(s: State, q: nat, o: Outcome, c: nat)
    requires Legal(s, By(q, o))
  {
    var t := Apply(s, By(q, o));
    t.runs[q].pc.Leave? && t.runs[q].faulted && Orphaned(Apply(t, By(q, Ok)), c)
  }

  /** Run q fails to find its project while c coalesces with it. */
  lemma StatFails(s: State, q: nat, c: nat)
    requires Leads(EMPTY, s) && s.runs.Keys == {q, c} && q != c && s.runs[q].job == s.runs[c].job
    requires s.runs[q].pc == Bootstrapping(StatProject) && s.runs[c].pc == Entering(Poll)
    requires KeyOf(s.runs[q].job) !in s.ready
    requires !s.runs[q].err && !s.runs[q].faulted && !s.runs[c].err && !s.runs[c].faulted
    ensures Orphans(Bootstrapping(StatProject), Fail)
  {
    EmptyIsReachable();
    LeadsToReachable(EMPTY, s);
    assert FirstFault(s, q, Bootstrapping(StatProject), Fail);
    assert LeavesOrphan(s, q, Fail, c);
  }

  lemma FaultBeforeBuilding()
    ensures Orphans(Bootstrapping(StatProject), Fail)
  {
    var s := BothEnter(BUILDER);
    StatFails(Put(s, 0, NewRun(BUILDER).At(Bootstrapping(StatProject))), 0, 1);
  }

  /** Once the faulted owner q has left, c waits for nothing. */
  lemma LeavingOrphans(t: State, q: nat, c: nat)
    requires q in t.runs && c in t.runs && q != c && t.runs[q].job == t.runs[c].job
    requires t.runs[q].pc.Leave? && t.runs[c].pc == Entering(Poll) && KeyOf(t.runs[c].job) !in t.ready
    ensures Legal(t, By(q, Ok)) && Orphaned(Apply(t, By(q, Ok)), c)
  {
  }

  /** Run q fails in the rename while c coalesces with it. */
  lemma RenameFails(s: State, q: nat, c: nat)
    requires Leads(EMPTY, s) && s.runs.Keys == {q, c} && q != c && s.runs[q].job == s.runs[c].job
    requires s.runs[q].pc == Building(Rename) && s.runs[c].pc == Entering(Poll) && KeyOf(s.runs[q].job) !in s.ready
    requires !s.runs[q].err && !s.runs[q].faulted && !s.runs[c].err && !s.runs[c].faulted
    ensures Orphans(Building(Rename), Fail)
  {
    EmptyIsReachable();
    LeadsToReachable(EMPTY, s);
    LeavingOrphans(Put(s, q, s.runs[q].Fault(Leave)), q, c);
    assert FirstFault(s, q, Building(Rename), Fail) && LeavesOrphan(s, q, Fail, c);
  }

  lemma FaultInRename()
    ensures Orphans(Building(Rename), Fail)
  {
    var n := NewRun(BUILDER);
    var t := BothEnter(BUILDER);
    var m := n.At(Bootstrapping(StatProject));
    var u := GetsToRename(EMPTY, t, 0, m, 0, false);
    RenameFails(Put(u, 0, Persisted(t, m, 0, false)), 0, 1);
  }

  /** Run q meets an error at the end of a removal while c coalesces with it. */
  lemma RemovalFails(s: State, q: nat, c: nat)
    requires Leads(EMPTY, s) && q in s.runs && c in s.runs && q != c && s.runs[q].job == s.runs[c].job
    requires s.runs[q].pc == Checking(Removing) && s.runs[c].pc == Entering(Poll)
    requires forall r :: r in s.runs ==> !s.runs[r].err && !s.runs[r].faulted && s.runs[r].job == s.runs[q].job
    ensures Orphans(Checking(Removing), Torn)
  {
    EmptyIsReachable();
    LeadsToReachable(EMPTY, s);
    assert FirstFault(s, q, Checking(Removing), Torn);
    assert LeavesOrphan(s, q, Torn, c);
  }

  /** Run q, which owns the ID, reads an exit code other than 0 in the ready path and starts to remove it. */
  lemma StartsRemoval(s: State, q: nat, n: Run) returns (t: State)
    requires Leads(EMPTY, Put(s, q, n)) && n == NewRun(n.job).At(Checking(StatReady))
    requires KeyOf(n.job) in s.ready && s.ready[KeyOf(n.job)].info.Info?
    requires s.ready[KeyOf(n.job)].info.exit != SUCCESS_EXIT_CODE && s.ready[KeyOf(n.job)].log
    ensures t.runs == s.runs && Leads(EMPTY, Put(t, q, n.At(Checking(Removing))))
  {
    CheckMove(EMPTY, s, q, n, StatReady, Ok);
    CheckMove(EMPTY, s, q, n.At(Checking(ReadReady)), ReadReady, Read(s.ready[KeyOf(n.job)].info));
    CheckMove(EMPTY, s, q, n.At(Checking(CheckPc.Remove)), CheckPc.Remove, Ok);
    t := EffectCheck(s, n.At(Checking(CheckPc.Remove)), CheckPc.Remove, Ok);
  }

  /** A build that exits with 1 is published; the next run of the job removes it, and the removal reports an error. */
  lemma FaultInRemoval()
    ensures Orphans(Checking(Removing), Torn)
  {
    var n := NewRun(BUILDER);
    var t := FailedBuild();
    OwnerEnters(EMPTY, t, 2, BUILDER);
    t := t.(jq := t.jq + {"id"});
    CoalescerEnters(EMPTY, t, 2, n.At(Checking(StatReady)), 1, BUILDER);
    t := StartsRemoval(Put(t, 1, n.At(Entering(Poll))), 2, n.At(Checking(StatReady)));
    RemovalFails(Put(t, 2, n.At(Checking(Removing))), 2, 1);
  }

  lemma FailedBuild() returns (t: State)
    ensures Leads(EMPTY, t) && t.runs.Keys == {0} && t.runs[0].job == BUILDER && !t.runs[0].err && !t.runs[0].faulted
    ensures t.runs[0].pc.Done? && t.jq == {} && KEY in t.ready && t.ready[KEY].info == Info(1, false, "", false)
    ensures t.ready[KEY].log
  {
    var n := NewRun(BUILDER);
    LeadsHere(EMPTY);
    OwnerEnters(EMPTY, EMPTY, 0, BUILDER);
    t := EMPTY.(jq := EMPTY.jq + {"id"});
    CheckMove(EMPTY, t, 0, n.At(Checking(StatReady)), StatReady, NotExist);
    var m := n.At(Bootstrapping(StatProject));
    var u := BuildsAndAnswers(EMPTY, t, 0, m, 1);
    t := Put(u, 0, Persisted(t, m, 1, false).(pc := Done, answer := Replied(Built, 1)));
  }

  /** A single fault is enough for each cause: before publication, in the rename, or in the removal of a failed
      build. */
  lemma FaultOrphans()
    ensures Orphans(Bootstrapping(StatProject), Fail)
    ensures Orphans(Building(Rename), Fail)
    ensures Orphans(Checking(Removing), Torn)
  {
    FaultBeforeBuilding();
    FaultInRename();
    FaultInRemoval();
  }
}

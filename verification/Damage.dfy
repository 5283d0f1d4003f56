/** What becomes of a published build whose build info or build log cannot be read: an interrupted removal of a failed
    build, a last persist that was cut short, or a build that failed before it had a log, leaves one. */
module Damage {
  import opened Protocol
  import opened Invariant
  import opened Preservation
  import opened Progress
  import opened Safety
  import opened MemoTable
  import opened Continuations
  import Witnesses

  /** n has begun to take k away. */
  predicate Removing(n: Run, k: Key) {
    (n.pc == Checking(CheckPc.Removing) || n.pc == Checking(RemoveInfo)) && KeyOf(n.job) == k
  }

  /** An owner cannot read what is published at e: it needs the build info and the build log. */
  predicate Damaged(e: Entry) { e.info.Unreadable? || !e.log }

  /** k is published and an owner cannot read it, and nobody is about to finish its removal. */
  ghost predicate Broken(s: State, k: Key) {
    k in s.ready && Damaged(s.ready[k]) && forall r :: r in s.runs ==> !Removing(s.runs[r], k)
  }

  /** Not even a coalescing run can read it. */
  ghost predicate Stuck(s: State, k: Key) { Broken(s, k) && s.ready[k].info.Unreadable? }

  // A broken path stays broken

  lemma BrokenRun(s: State, r: nat, n: Run, o: Outcome, k: Key, e: State)
    requires Enabled(s, n, o) && RunOk(s, r, n) && LogsOk(s) && e == Effect(s, r, n, o)
    requires k in s.ready && Damaged(s.ready[k]) && !Removing(n, k)
    ensures k in e.ready && e.ready[k] == s.ready[k] && !Removing(Local(n, o), k)
  {
    SameJob(n, o);
    if Owns(n.pc) && KeyOf(n.job) == k {
      if !n.pc.Checking? {
        assert n.pc.Leave?;
        UntouchedByRest(s, r, n, o);
      }
    } else {
      UntouchedKey(s, r, n, o, k, e);
    }
  }

  /** The exit code that is still told for a broken build: that of its build info, if that can be read; it is not 0. */
  predicate Told(e: Entry, code: int) { e.info.Info? && e.info.exit == code && code != SUCCESS_EXIT_CODE }

  /** The log goes on from a to b, and whatever is answered for k is what is still told for e. */
  predicate OnlyTells(k: Key, e: Entry, a: seq<Reply>, b: seq<Reply>) {
    a <= b && forall x :: |a| <= x < |b| && b[x].key == k ==> Told(e, b[x].code)
  }

  lemma BrokenStep(s: State, a: Step, k: Key)
    requires Reachable(s) && Legal(s, a) && Broken(s, k)
    ensures Broken(Apply(s, a), k) && Apply(s, a).ready[k] == s.ready[k]
    ensures OnlyTells(k, s.ready[k], s.log, Apply(s, a).log)
  {
    InvReachable(s);
    Refines(s, a);
    var t := Apply(s, a);
    assert View(t).log == t.log && View(s).log == s.log;
    assert s.ready[k].info.Info? ==> s.ready[k].info.exit != SUCCESS_EXIT_CODE;
    if a.By? { BrokenRun(s, a.r, s.runs[a.r], a.o, k, Effect(s, a.r, s.runs[a.r], a.o)); }
  }

  lemma BrokenNext(states: seq<State>, steps: seq<Step>, j: nat, k: Key)
    requires Behaviour(states, steps) && 0 < j <= |steps| && Broken(states[j - 1], k)
    ensures Broken(states[j], k) && states[j].ready[k] == states[j - 1].ready[k]
    ensures OnlyTells(k, states[j - 1].ready[k], states[j - 1].log, states[j].log)
  {
    PrefixReachable(states, steps, j - 1);
    assert Legal(states[j - 1], steps[j - 1]) && states[j] == Apply(states[j - 1], steps[j - 1]);
    BrokenStep(states[j - 1], steps[j - 1], k);
  }

  /** A broken path stays as it is for good, restarts included. Owners are never answered for it; a coalescing run can
      be told the exit code of its build info, which is not 0; and when that cannot be read, nobody is told anything. */
  lemma {:induction false} BrokenForever(states: seq<State>, steps: seq<Step>, i: nat, j: nat, k: Key)
    requires Behaviour(states, steps) && i <= j <= |steps| && Broken(states[i], k)
    ensures Broken(states[j], k) && states[j].ready[k] == states[i].ready[k]
    ensures OnlyTells(k, states[i].ready[k], states[i].log, states[j].log)
    decreases j
  {
    if i < j {
      BrokenForever(states, steps, i, j - 1, k);
      BrokenNext(states, steps, j, k);
    }
  }

  // Runs that are still to come

  /** Those of the runs of t on k that are not among known have coalesced and been told what is still told for e, if
      they have been told anything. */
  predicate NewRunsTold(known: set<nat>, t: State, k: Key, e: Entry) {
    forall r :: r in t.runs && r !in known && KeyOf(t.runs[r].job) == k && t.runs[r].answer.Replied? ==>
      t.runs[r].answer.how.Coalesced? && Told(e, t.runs[r].answer.code)
  }

  lemma ToldStep(known: set<nat>, s: State, a: Step, k: Key)
    requires Reachable(s) && Legal(s, a) && Broken(s, k) && NewRunsTold(known, s, k, s.ready[k])
    ensures NewRunsTold(known, Apply(s, a), k, s.ready[k])
  {
    InvReachable(s);
    if a.By? {
      AnswerStep(s, a.r, a.o);
      SameJob(s.runs[a.r], a.o);
      var m := Local(s.runs[a.r], a.o);
      if KeyOf(m.job) == k && m.answer.Replied? && m.answer != s.runs[a.r].answer {
        AnswersAreBuilds(s, a, k, m.answer.code);
      }
    }
  }

  lemma {:induction false} BrokenExec(known: set<nat>, s: State, steps: seq<Step>, k: Key)
    requires Reachable(s) && Broken(s, k) && LegalAll(s, steps) && NewRunsTold(known, s, k, s.ready[k])
    ensures NewRunsTold(known, Exec(s, steps), k, s.ready[k])
    decreases |steps|
  {
    if steps != [] {
      ToldStep(known, s, steps[0], k);
      BrokenStep(s, steps[0], k);
      ReachableStep(s, steps[0]);
      BrokenExec(known, Apply(s, steps[0]), steps[1..], k);
    }
  }

  /** Some execution from s on has a new run of job j that is answered in the given way with the given exit code. */
  ghost predicate CanServe(s: State, j: Job, how: How, code: int) {
    exists t, r :: Leads(s, t) && Serves(s, t, r, j, how, code)
  }

  predicate Serves(s: State, t: State, r: nat, j: Job, how: How, code: int) {
    r !in s.runs && r in t.runs && t.runs[r].job == j && t.runs[r].answer == Replied(how, code)
  }

  lemma BrokenServes(s: State, j: Job, how: How, code: int)
    requires Reachable(s) && Broken(s, KeyOf(j)) && CanServe(s, j, how, code)
    ensures how.Coalesced? && Told(s.ready[KeyOf(j)], code)
  {
    var t, r :| Leads(s, t) && Serves(s, t, r, j, how, code);
    var steps :| LegalAll(s, steps) && Exec(s, steps) == t;
    BrokenExec(s.runs.Keys, s, steps, KeyOf(j));
  }

  // Every other path can be built again

  /** A run that has begun to remove k finishes. */
  lemma FinishesRemoval(s: State, r: nat, k: Key) returns (t: State)
    requires Reachable(s) && r in s.runs && Removing(s.runs[r], k)
    ensures Leads(s, t) && k !in t.ready
  {
    var n := s.runs[r];
    LeadsHere(s);
    assert Put(s, r, n) == s;
    if n.pc == Checking(RemoveInfo) {
      CheckMove(s, s, r, n, RemoveInfo, Ok);
      t := EffectCheck(s, n, RemoveInfo, Ok);
    } else {
      t := s;
    }
    t := RemovesRest(s, t, r, n);
    t := Put(t, r, n.At(Bootstrapping(StatProject)));
  }

  lemma RemovesRest(from: State, s: State, r: nat, n: Run) returns (t: State)
    requires Leads(from, Put(s, r, n.At(Checking(CheckPc.Removing))))
    ensures KeyOf(n.job) !in t.ready && t.pending == s.pending && t.holder == s.holder
    ensures Leads(from, Put(t, r, n.At(Bootstrapping(StatProject))))
  {
    CheckMove(from, s, r, n.At(Checking(CheckPc.Removing)), CheckPc.Removing, Ok);
    t := EffectCheck(s, n.At(Checking(CheckPc.Removing)), CheckPc.Removing, Ok);
  }

  /** The server is started again, with all pending builds removed. */
  lemma Restarts(from: State, s: State) returns (t: State)
    requires Leads(from, s)
    ensures Leads(from, t) && t.ready == s.ready && t.links == s.links
    ensures t.runs == map[] && t.jq == {} && t.holder == map[] && t.pending == map[]
  {
    LeadsStep(from, s, Restart(s.pending.Keys, map[]));
    t := Apply(s, Restart(s.pending.Keys, map[]));
  }

  /** An owner finds nothing in its ready path. */
  lemma FindsNothing(from: State, s: State, r: nat, n: Run)
    requires Leads(from, Put(s, r, n)) && n == NewRun(n.job).At(Checking(StatReady)) && KeyOf(n.job) !in s.ready
    ensures Leads(from, Put(s, r, n.At(Bootstrapping(StatProject))))
  {
    CheckMove(from, s, r, n, StatReady, NotExist);
  }

  /** It finds a build that it can read. */
  predicate Readable(s: State, k: Key) { k in s.ready && !Damaged(s.ready[k]) }

  /** It finds a failed build and removes it. */
  lemma RemovesFailure(from: State, s: State, r: nat, n: Run) returns (t: State)
    requires Leads(from, Put(s, r, n)) && n == NewRun(n.job).At(Checking(StatReady)) && Readable(s, KeyOf(n.job))
    requires s.ready[KeyOf(n.job)].info.exit != SUCCESS_EXIT_CODE
    ensures KeyOf(n.job) !in t.ready && t.pending == s.pending && t.holder == s.holder
    ensures Leads(from, Put(t, r, n.At(Bootstrapping(StatProject))))
  {
    CheckMove(from, s, r, n, StatReady, Ok);
    CheckMove(from, s, r, n.At(Checking(ReadReady)), ReadReady, Read(s.ready[KeyOf(n.job)].info));
    CheckMove(from, s, r, n.At(Checking(Remove)), Remove, Ok);
    t := EffectCheck(s, n.At(Checking(Remove)), Remove, Ok);
    t := RemovesRest(from, t, r, n);
  }

  /** It finds a build with exit code 0 and answers from it. */
  lemma AnswersFromCache(from: State, s: State, r: nat, n: Run) returns (t: State)
    requires Leads(from, Put(s, r, n)) && n == NewRun(n.job).At(Checking(StatReady)) && Readable(s, KeyOf(n.job))
    requires s.ready[KeyOf(n.job)].info.exit == SUCCESS_EXIT_CODE
    ensures Leads(from, t)
    ensures r in t.runs && t.runs[r].job == n.job && t.runs[r].answer == Replied(Cached, SUCCESS_EXIT_CODE)
  {
    var o, m := Read(s.ready[KeyOf(n.job)].info), n.At(Checking(ReadReady));
    CheckMove(from, s, r, n, StatReady, Ok);
    CheckMove(from, s, r, m, ReadReady, o);
    t := Put(EffectCheck(s, m, ReadReady, o), r, LocalCheck(m, ReadReady, o));
  }

  /** After a restart, a request for j is answered with exit code 0 when nothing fails, unless what is published cannot
      be read. */
  lemma RequestSucceeds(from: State, s: State, r: nat, j: Job) returns (t: State)
    requires Leads(from, s) && s.runs == map[] && s.jq == {} && s.holder == map[] && s.pending == map[]
    requires KeyOf(j) in s.ready ==> Readable(s, KeyOf(j))
    ensures Leads(from, t)
    ensures r in t.runs && t.runs[r].job == j && t.runs[r].answer.Replied?
    ensures !t.runs[r].answer.how.Coalesced? && t.runs[r].answer.code == SUCCESS_EXIT_CODE
  {
    var n, k := NewRun(j).At(Checking(StatReady)), KeyOf(j);
    OwnerEnters(from, s, r, j);
    var u := s.(jq := s.jq + {j.id});
    if k in s.ready && s.ready[k].info.exit == SUCCESS_EXIT_CODE {
      t := AnswersFromCache(from, u, r, n);
    } else {
      if k in s.ready { u := RemovesFailure(from, u, r, n); } else { FindsNothing(from, u, r, n); }
      var m := n.At(Bootstrapping(StatProject));
      t := BuildsAndAnswers(from, u, r, m, SUCCESS_EXIT_CODE);
      t := Put(t, r, Persisted(u, m, 0, false).(pc := Done, answer := Replied(Built, SUCCESS_EXIT_CODE)));
    }
  }

  /** The removal of k, if it has begun, is finished. */
  lemma Settles(s: State, k: Key) returns (t: State)
    requires Reachable(s) && !Broken(s, k)
    ensures Leads(s, t) && (k in t.ready ==> Readable(t, k))
  {
    if k in s.ready && Damaged(s.ready[k]) {
      var r :| r in s.runs && Removing(s.runs[r], k);
      t := FinishesRemoval(s, r, k);
    } else {
      LeadsHere(s);
      t := s;
    }
  }

  lemma {:induction false} Fresh(runs: set<nat>) returns (r: nat)
    ensures forall q :: q in runs ==> q < r
    decreases |runs|
  {
    if runs == {} {
      r := 0;
    } else {
      var q :| q in runs;
      r := Fresh(runs - {q});
      assert forall p :: p in runs ==> p == q || p in runs - {q};
      if r <= q { r := q + 1; }
    }
  }

  lemma SucceedsAgain(s: State, j: Job)
    requires Reachable(s) && !Broken(s, KeyOf(j))
    ensures exists how: How :: !how.Coalesced? && CanServe(s, j, how, SUCCESS_EXIT_CODE)
  {
    var r := Fresh(s.runs.Keys);
    var t := Settles(s, KeyOf(j));
    t := Restarts(s, t);
    t := RequestSucceeds(s, t, r, j);
    assert Leads(s, t) && Serves(s, t, r, j, t.runs[r].answer.how, SUCCESS_EXIT_CODE);
    assert CanServe(s, j, t.runs[r].answer.how, SUCCESS_EXIT_CODE);
  }

  /** A run that polls is told the exit code of the build info. */
  lemma PollsAndReads(from: State, s: State, c: nat, n: Run) returns (t: State)
    requires Leads(from, Put(s, c, n)) && n == NewRun(n.job).At(Entering(Poll))
    requires KeyOf(n.job) in s.ready && s.ready[KeyOf(n.job)].info.Info?
    ensures Leads(from, t) && c in t.runs && t.runs[c].job == n.job
    ensures t.runs[c].answer == Replied(Coalesced, s.ready[KeyOf(n.job)].info.exit)
  {
    var o, m := Read(s.ready[KeyOf(n.job)].info), n.At(Entering(PollRead));
    EnterMove(from, s, c, n, Poll, Ok);
    EnterMove(from, s, c, m, PollRead, o);
    t := Put(EffectEnter(s, m, PollRead, o), c, LocalEnter(m, PollRead, o));
  }

  /** While one run of j owns the ID, a second one coalesces and is told the exit code of the build info. */
  lemma CoalescesAndReads(s: State, j: Job)
    requires KeyOf(j) in s.ready && s.ready[KeyOf(j)].info.Info?
    ensures CanServe(s, j, Coalesced, s.ready[KeyOf(j)].info.exit)
  {
    var r := Fresh(s.runs.Keys);
    LeadsHere(s);
    var t := Restarts(s, s);
    OwnerEnters(s, t, r, j);
    var u, n, m := t.(jq := t.jq + {j.id}), NewRun(j).At(Checking(StatReady)), NewRun(j).At(Entering(Poll));
    CoalescerEnters(s, u, r, n, r + 1, j);
    assert Put(Put(u, r + 1, m), r, n) == Put(Put(u, r, n), r + 1, m);
    var w := PollsAndReads(s, Put(u, r, n), r + 1, m);
    assert Leads(s, w) && Serves(s, w, r + 1, j, Coalesced, s.ready[KeyOf(j)].info.exit);
  }

  /** The exact condition, for every reachable state and every job. Some execution serves a new request for the job with
      exit code 0 if and only if its path is not broken; otherwise than by coalescing with another request, if and only
      if it is not broken; and in any way with any exit code if and only if it is not stuck. */
  lemma ServedUnlessBroken(s: State, j: Job)
    requires Reachable(s)
    ensures (exists how: How :: CanServe(s, j, how, SUCCESS_EXIT_CODE)) <==> !Broken(s, KeyOf(j))
    ensures (exists how: How, code :: !how.Coalesced? && CanServe(s, j, how, code)) <==> !Broken(s, KeyOf(j))
    ensures (exists how: How, code :: CanServe(s, j, how, code)) <==> !Stuck(s, KeyOf(j))
  {
    if !Broken(s, KeyOf(j)) {
      SucceedsAgain(s, j);
    } else {
      forall how: How, code | CanServe(s, j, how, code) ensures how.Coalesced? && Told(s.ready[KeyOf(j)], code) {
        BrokenServes(s, j, how, code);
      }
      if s.ready[KeyOf(j)].info.Info? { CoalescesAndReads(s, j); }
    }
  }

  // Broken paths exist

  lemma PublishesUnreadable(s: State, n: Run) returns (t: State)
    requires Leads(EMPTY, Put(s, 0, n)) && n.pc == Building(Persist) && n.err
    requires KeyOf(n.job) in s.pending && KeyOf(n.job) !in s.ready
    ensures KeyOf(n.job) in t.ready && t.ready[KeyOf(n.job)].info.Unreadable? && t.runs == s.runs
    ensures Leads(EMPTY, Put(t, 0, n.(pc := Leave, errBuild := true)))
  {
    BuildMove(EMPTY, s, 0, n, Persist, Torn);
    t := Renames(EMPTY, EffectBuild(s, n, Persist, Torn), 0, n.(pc := Building(Rename), errBuild := true));
  }

  /** The last persist of a failed build is cut short and the build is published all the same. */
  lemma UnreadableHappens()
    ensures exists s, k :: Reachable(s) && Stuck(s, k)
  {
    var j := Witnesses.BUILDER;
    var n := NewRun(j).At(Bootstrapping(StatProject));
    var s := Witnesses.BothEnter(j);
    var t := GetsToContainer(EMPTY, s, 0, n);
    FailsToStart(EMPTY, t, 0, Prepared(s, n).At(Building(RunContainer)));
    var m := Prepared(s, n).(pc := Building(Persist), err := true, exit := 0);
    t := PublishesUnreadable(t, m);
    var u := Put(t, 0, m.(pc := Leave, errBuild := true));
    EmptyIsReachable();
    LeadsToReachable(EMPTY, u);
    assert Stuck(u, KeyOf(j));
  }

  lemma PublishesWithoutLog(s: State, n: Run) returns (t: State)
    requires Leads(EMPTY, Put(s, 0, n)) && n.pc == Building(WriteParams) && !n.err && n.exit == PENDING_EXIT_CODE
    requires KeyOf(n.job) in s.pending && !s.pending[KeyOf(n.job)].log && KeyOf(n.job) !in s.ready
    ensures KeyOf(n.job) in t.ready && !t.ready[KeyOf(n.job)].log && t.ready[KeyOf(n.job)].info.Info?
    ensures t.runs == s.runs && Leads(EMPTY, Put(t, 0, n.(pc := Leave, err := true, errBuild := true)))
  {
    BuildMove(EMPTY, s, 0, n, WriteParams, Fail);
    var u := Persists(EMPTY, s, 0, n.Err(Building(Persist)), false);
    t := Renames(EMPTY, u, 0, n.(pc := Building(Rename), err := true, errBuild := true));
  }

  /** A parameter file cannot be written, before there is a build log, and the build is published all the same. */
  lemma LogMissingHappens()
    ensures exists s, k :: Reachable(s) && Broken(s, k) && s.ready[k].info.Info?
  {
    var j := Witnesses.BUILDER;
    var n := NewRun(j).At(Bootstrapping(StatProject));
    var s := Witnesses.BothEnter(j);
    var t := GetsToParams(EMPTY, s, 0, n);
    t := PublishesWithoutLog(t, Prepared(s, n));
    var u := Put(t, 0, Prepared(s, n).(pc := Leave, err := true, errBuild := true));
    EmptyIsReachable();
    LeadsToReachable(EMPTY, u);
    assert Broken(u, KeyOf(j));
  }
}

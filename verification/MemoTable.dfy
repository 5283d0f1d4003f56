/** The concurrent build protocol refines a sequential memo table from ready paths to exit codes. */
module MemoTable {
  import opened Protocol
  import opened Invariant
  import opened Preservation
  import opened Safety

  // The specification

  /** `table` holds the exit codes of the published builds, `log` the error-free answers in the order given. */
  datatype Memo = Memo(table: map<Key, int>, log: seq<Reply>)

  datatype Event = Stay | Publish(key: Key, code: int) | Drop(key: Key) | Answer(key: Key)

  /** A path is published only when it is absent and dropped only when its exit code is not 0; an answer carries the
      exit code the table holds. */
  predicate Allowed(m: Memo, e: Event) {
    match e
    case Stay => true
    case Publish(k, _) => k !in m.table
    case Drop(k) => k in m.table && m.table[k] != SUCCESS_EXIT_CODE
    case Answer(k) => k in m.table
  }

  function After(m: Memo, e: Event): Memo
    requires Allowed(m, e)
  {
    match e
    case Stay => m
    case Publish(k, c) => m.(table := m.table[k := c])
    case Drop(k) => m.(table := m.table - {k})
    case Answer(k) => m.(log := m.log + [Reply(k, m.table[k])])
  }

  // The refinement

  function View(s: State): Memo {
    Memo(map k | k in s.ready && s.ready[k].info.Info? :: s.ready[k].info.exit, s.log)
  }

  /** The call of a removal that takes the build info away. */
  predicate DropsInfo(c: CheckPc, o: Outcome) { (c.Remove? && !o.Fail? && !o.More?) || (c.RemoveInfo? && !o.Fail?) }

  /** What a step of the protocol means for the table. The rename publishes, losing the build info drops, and
      a read of the ready path or the return of an own build answers. */
  function EventOf(s: State, a: Step): Event
    requires Legal(s, a)
  {
    if !a.By? then Stay else
    var n, o := s.runs[a.r], a.o;
    var k := KeyOf(n.job);
    match n.pc
    case Entering(e) => if e.PollRead? && o.Read? then Answer(k) else Stay
    case Checking(c) =>
      if c.ReadReady? && o.Read? && o.info.exit == SUCCESS_EXIT_CODE then Answer(k)
      else if DropsInfo(c, o) then Drop(k)
      else Stay
    case Bootstrapping(_) => Stay
    case Preparing(_) => Stay
    case Building(w) =>
      if w.Rename? && o.Ok? && s.pending[k].info.Info? then Publish(k, s.pending[k].info.exit) else Stay
    case Linking(_) => Stay
    case Leave => if n.answer.NoAnswer? && !n.err then Answer(k) else Stay
    case Done => Stay
  }

  lemma RefinesEnter(s: State, n: Run, e: EnterPc, o: Outcome)
    requires EnabledEnter(s, n, e, o)
    ensures var ev := if e.PollRead? && o.Read? then Answer(KeyOf(n.job)) else Stay;
            Allowed(View(s), ev) && View(EffectEnter(s, n, e, o)) == After(View(s), ev)
  {
  }

  lemma RefinesCheck(s: State, r: nat, n: Run, c: CheckPc, o: Outcome)
    requires n.pc == Checking(c) && EnabledCheck(s, n, c, o) && RunOk(s, r, n)
    ensures var k := KeyOf(n.job);
            var ev := if c.ReadReady? && o.Read? && o.info.exit == SUCCESS_EXIT_CODE then Answer(k)
                      else if DropsInfo(c, o) then Drop(k)
                      else Stay;
            Allowed(View(s), ev) && View(EffectCheck(s, n, c, o)) == After(View(s), ev)
  {
    if c.Remove? || c.RemoveInfo? { RefinesRemoval(s, r, n, c, o); }
  }

  lemma RefinesRemoval(s: State, r: nat, n: Run, c: CheckPc, o: Outcome)
    requires n.pc == Checking(c) && (c.Remove? || c.RemoveInfo?) && EnabledCheck(s, n, c, o) && RunOk(s, r, n)
    ensures var k, t := KeyOf(n.job), EffectCheck(s, n, c, o);
            && k in View(s).table && View(s).table[k] != SUCCESS_EXIT_CODE && t.log == s.log
            && View(t).table == if DropsInfo(c, o) then View(s).table - {k} else View(s).table
  {
  }

  lemma RefinesBuild(s: State, r: nat, n: Run, w: BuildPc, o: Outcome)
    requires n.pc == Building(w) && EnabledBuild(s, n, w, o) && RunOk(s, r, n)
    ensures var k := KeyOf(n.job);
            var ev := if w.Rename? && o.Ok? && s.pending[k].info.Info? then Publish(k, s.pending[k].info.exit)
                      else Stay;
            Allowed(View(s), ev) && View(EffectBuild(s, n, w, o)) == After(View(s), ev)
  {
  }

  lemma RefinesLeave(s: State, r: nat, n: Run)
    requires n.pc.Leave? && RunOk(s, r, n)
    ensures var ev := if n.answer.NoAnswer? && !n.err then Answer(KeyOf(n.job)) else Stay;
            Allowed(View(s), ev) && View(EffectLeave(s, n)) == After(View(s), ev)
  {
  }

  lemma RefinesRest(s: State, r: nat, n: Run, o: Outcome)
    requires (n.pc.Bootstrapping? || n.pc.Preparing? || n.pc.Linking?) && Enabled(s, n, o)
    ensures View(Effect(s, r, n, o)) == View(s)
  {
    var e := Effect(s, r, n, o);
    assert e.ready == s.ready && e.log == s.log;
  }

  lemma RefinesBy(s: State, r: nat, o: Outcome, e: State)
    requires Inv(s) && Legal(s, By(r, o)) && e == Effect(s, r, s.runs[r], o)
    ensures Allowed(View(s), EventOf(s, By(r, o))) && View(e) == After(View(s), EventOf(s, By(r, o)))
  {
    var n := s.runs[r];
    assert RunOk(s, r, n);
    match n.pc
    case Entering(x) => RefinesEnter(s, n, x, o);
    case Checking(c) => RefinesCheck(s, r, n, c, o);
    case Bootstrapping(_) => RefinesRest(s, r, n, o);
    case Preparing(_) => RefinesRest(s, r, n, o);
    case Building(w) => RefinesBuild(s, r, n, w, o);
    case Linking(_) => RefinesRest(s, r, n, o);
    case Leave => RefinesLeave(s, r, n);
    case Done =>
  }

  /** Refinement: each step of the protocol is one allowed event of the memo table. */
  lemma Refines(s: State, a: Step)
    requires Reachable(s) && Legal(s, a)
    ensures Allowed(View(s), EventOf(s, a)) && View(Apply(s, a)) == After(View(s), EventOf(s, a))
  {
    InvReachable(s);
    if a.By? {
      var e := Effect(s, a.r, s.runs[a.r], a.o);
      RefinesBy(s, a.r, a.o, e);
      assert View(Apply(s, a)) == View(e);
    }
  }

  // Answers

  /** a is the step of a run on k after which that run's error-free answer is fixed: it carries code. */
  predicate AnswersAt(s: State, a: Step, k: Key, code: int) {
    Legal(s, a) && EventOf(s, a) == Answer(k) && k in View(s).table && View(s).table[k] == code
  }

  /** Every answer in the log was given by one step, at which the table held its exit code under its key. */
  lemma {:induction false} AnswersLinearize(states: seq<State>, steps: seq<Step>, i: nat, x: nat)
    requires Behaviour(states, steps) && i <= |steps| && x < |states[i].log|
    ensures exists h: nat | h < i :: |states[h].log| == x
              && AnswersAt(states[h], steps[h], states[i].log[x].key, states[i].log[x].code)
  {
    if i > 0 {
      var s, a := states[i - 1], steps[i - 1];
      PrefixReachable(states, steps, i - 1);
      Refines(s, a);
      assert View(states[i]).log == states[i].log && View(s).log == s.log;
      if x < |s.log| {
        AnswersLinearize(states, steps, i - 1, x);
      }
    }
  }

  /** A run's answer only changes at a step that is an Answer event, from none to what the table holds. */
  lemma AnswerStep(s: State, r: nat, o: Outcome)
    requires Inv(s) && Legal(s, By(r, o))
    ensures var n := s.runs[r]; var m, k := Local(n, o), KeyOf(n.job);
            m.answer.Replied? && m.answer != n.answer ==> AnswersAt(s, By(r, o), k, m.answer.code)
  {
    var n := s.runs[r];
    assert RunOk(s, r, n);
    match n.pc
    case Entering(e) => AnswerEnter(s, n, e, o);
    case Checking(c) =>
    case Bootstrapping(_) => NoAnswerGiven(n, o);
    case Preparing(_) => NoAnswerGiven(n, o);
    case Building(_) => NoAnswerGiven(n, o);
    case Linking(_) => NoAnswerGiven(n, o);
    case Leave =>
  }

  /** k is published with exit code `code`. */
  predicate Holds(s: State, k: Key, code: int) {
    k in s.ready && s.ready[k].info.Info? && s.ready[k].info.exit == code
  }

  lemma AnswerEnter(s: State, n: Run, e: EnterPc, o: Outcome)
    requires EnabledEnter(s, n, e, o)
    ensures var m := LocalEnter(n, e, o);
            m.answer.Replied? && m.answer != n.answer ==>
              e.PollRead? && o.Read? && Holds(s, KeyOf(n.job), m.answer.code)
  {
  }

  lemma NoAnswerGiven(n: Run, o: Outcome)
    requires n.pc.Bootstrapping? || n.pc.Preparing? || n.pc.Building? || n.pc.Linking?
    ensures Local(n, o).answer == n.answer
  {
  }

  /** One of run r's steps before state i fixed the answer code for k. */
  ghost predicate AnsweredBefore(states: seq<State>, steps: seq<Step>, i: nat, r: nat, k: Key, code: int)
    requires |states| == |steps| + 1 && i <= |steps|
  {
    exists h: nat | h < i :: steps[h].By? && steps[h].r == r && AnswersAt(states[h], steps[h], k, code)
  }

  lemma AnsweredNow(states: seq<State>, steps: seq<Step>, i: nat, r: nat)
    requires Behaviour(states, steps) && 0 < i <= |steps| && steps[i - 1].By? && steps[i - 1].r == r
    requires r in states[i - 1].runs && r in states[i].runs && states[i].runs[r].answer.Replied?
    requires states[i].runs[r].answer != states[i - 1].runs[r].answer
    ensures var n := states[i].runs[r]; AnsweredBefore(states, steps, i, r, KeyOf(n.job), n.answer.code)
  {
    var s, a := states[i - 1], steps[i - 1];
    assert Legal(s, a) && states[i] == Apply(s, a);
    InvBehaviour(states, steps, i - 1);
    AnswerStep(s, r, a.o);
    SameJob(s.runs[r], a.o);
    assert AnswersAt(states[i - 1], steps[i - 1], KeyOf(states[i].runs[r].job), states[i].runs[r].answer.code);
  }

  lemma AnsweredStill(states: seq<State>, steps: seq<Step>, i: nat, r: nat, k: Key, code: int)
    requires |states| == |steps| + 1 && 0 < i <= |steps| && AnsweredBefore(states, steps, i - 1, r, k, code)
    ensures AnsweredBefore(states, steps, i, r, k, code)
  {
    var h: nat :| h < i - 1 && steps[h].By? && steps[h].r == r && AnswersAt(states[h], steps[h], k, code);
    assert AnswersAt(states[h], steps[h], k, code);
  }

  /** An answer that was there before is that of a run that was there before. */
  lemma AnsweredEarlier(states: seq<State>, steps: seq<Step>, i: nat, r: nat)
    requires Behaviour(states, steps) && 0 < i <= |steps| && r in states[i].runs && states[i].runs[r].answer.Replied?
    requires !(steps[i - 1].By? && steps[i - 1].r == r && r in states[i - 1].runs
               && states[i - 1].runs[r].answer != states[i].runs[r].answer)
    ensures r in states[i - 1].runs && states[i - 1].runs[r].answer == states[i].runs[r].answer
    ensures states[i - 1].runs[r].job == states[i].runs[r].job
  {
    var s, a := states[i - 1], steps[i - 1];
    assert Legal(s, a) && states[i] == Apply(s, a);
    if a.By? && a.r == r { SameJob(s.runs[r], a.o); }
  }

  /** Every error-free answer of a run, built, cached or coalesced, carries an exit code that the table held under
      the run's key at one of the run's own steps. */
  lemma {:induction false} AnswerHeld(states: seq<State>, steps: seq<Step>, i: nat, r: nat)
    requires Behaviour(states, steps) && i <= |steps| && r in states[i].runs && states[i].runs[r].answer.Replied?
    ensures var n := states[i].runs[r]; AnsweredBefore(states, steps, i, r, KeyOf(n.job), n.answer.code)
  {
    if i > 0 {
      var s, a := states[i - 1], steps[i - 1];
      if a.By? && a.r == r && r in s.runs && s.runs[r].answer != states[i].runs[r].answer {
        AnsweredNow(states, steps, i, r);
      } else {
        AnsweredEarlier(states, steps, i, r);
        AnswerHeld(states, steps, i - 1, r);
        AnsweredStill(states, steps, i, r, KeyOf(states[i].runs[r].job), states[i].runs[r].answer.code);
      }
    }
  }

  /** Whoever was told exit code 0 finds the build in place, from then on. */
  lemma ZeroAnswersLast(s: State, r: nat)
    requires Reachable(s) && r in s.runs && s.runs[r].answer.Replied? && s.runs[r].answer.code == SUCCESS_EXIT_CODE
    ensures KeyOf(s.runs[r].job) in s.ready && Succeeded(s.ready[KeyOf(s.runs[r].job)])
  {
    var states: seq<State>, steps: seq<Step> :| Behaviour(states, steps) && states[|steps|] == s;
    AnswerHeld(states, steps, |steps|, r);
    var k := KeyOf(s.runs[r].job);
    var h: nat :| h < |steps| && steps[h].By? && AnswersAt(states[h], steps[h], k, SUCCESS_EXIT_CODE);
    AnswersAreBuilds(states[h], steps[h], k, SUCCESS_EXIT_CODE);
    SuccessIsStable(states, steps, h, |steps|, k);
  }

  lemma AnswersAreBuilds(s: State, a: Step, k: Key, code: int)
    requires AnswersAt(s, a, k, code)
    ensures k in s.ready && s.ready[k].info.Info? && s.ready[k].info.exit == code
  {
    assert k in View(s).table;
  }

  // When an answer 0 is a success

  /** Readable build info names the group of the job that published it. */
  ghost predicate InfoIsOwn(s: State) {
    forall k :: k in s.ready && s.ready[k].info.Info? ==> s.ready[k].info.group == s.ready[k].group
  }

  lemma {:induction false} InfoIsOwnInBehaviour(states: seq<State>, steps: seq<Step>, i: nat)
    requires Behaviour(states, steps) && i <= |steps|
    ensures InfoIsOwn(states[i])
  {
    if i > 0 {
      var s, a, t := states[i - 1], steps[i - 1], states[i];
      assert Legal(s, a) && t == Apply(s, a);
      InfoIsOwnInBehaviour(states, steps, i - 1);
      InvBehaviour(states, steps, i - 1);
      forall k | k in t.ready && t.ready[k].info.Info? ensures t.ready[k].info.group == t.ready[k].group {
        EntrySource(s, a, k);
      }
    }
  }

  lemma BuiltAnswerStep(s: State, r: nat, o: Outcome)
    requires Inv(s) && Legal(s, By(r, o))
    requires Local(s.runs[r], o).answer == Replied(Built, SUCCESS_EXIT_CODE) != s.runs[r].answer
    ensures var k := KeyOf(s.runs[r].job); k in s.ready && Succeeded(s.ready[k]) && !s.ready[k].info.err
  {
    var n := s.runs[r];
    assert RunOk(s, r, n);
    if n.pc.Entering? || n.pc.Checking? {
      OnlyLeaveBuilds(n, o);
    } else if !n.pc.Leave? && !n.pc.Done? {
      NoAnswerGiven(n, o);
    }
  }

  lemma OnlyLeaveBuilds(n: Run, o: Outcome)
    requires n.pc.Entering? || n.pc.Checking?
    ensures Local(n, o).answer.Replied? && Local(n, o).answer.how.Built? ==> Local(n, o).answer == n.answer
  {
  }

  lemma {:induction false} BuiltIsClean(states: seq<State>, steps: seq<Step>, i: nat, r: nat)
    requires Behaviour(states, steps) && i <= |steps|
    requires r in states[i].runs && states[i].runs[r].answer == Replied(Built, SUCCESS_EXIT_CODE)
    ensures var k := KeyOf(states[i].runs[r].job);
            k in states[i].ready && Succeeded(states[i].ready[k]) && !states[i].ready[k].info.err
  {
    if i > 0 {
      var s, a := states[i - 1], steps[i - 1];
      assert Legal(s, a) && states[i] == Apply(s, a);
      InvBehaviour(states, steps, i - 1);
      InvStep(s, a);
      if a.By? && a.r == r { SameJob(s.runs[r], a.o); }
      if a.By? && a.r == r && s.runs[r].answer != states[i].runs[r].answer {
        BuiltAnswerStep(s, r, a.o);
      } else {
        BuiltIsClean(states, steps, i - 1, r);
      }
    }
  }

  /** An answer with exit code 0 stands for a successful build if and only if the persisted build info has no build
      error, which `Work` does not look at; for a run that has built the result itself it always does. */
  lemma ZeroAnswersGenuine(s: State, r: nat)
    requires Reachable(s) && r in s.runs && s.runs[r].answer.Replied? && s.runs[r].answer.code == SUCCESS_EXIT_CODE
    ensures var k := KeyOf(s.runs[r].job);
            && k in s.ready && s.ready[k].info.Info?
            && (Good(s.ready[k]) <==> !s.ready[k].info.err)
            && (s.runs[r].answer.how.Built? ==> Good(s.ready[k]))
  {
    ZeroAnswersLast(s, r);
    var states: seq<State>, steps: seq<Step> :| Behaviour(states, steps) && states[|steps|] == s;
    InfoIsOwnInBehaviour(states, steps, |steps|);
    if s.runs[r].answer.how.Built? { BuiltIsClean(states, steps, |steps|, r); }
  }
}

/** The worker pool and the build protocol together: each item is a call of `Work`, on the worker that has taken it. A
    coalescing run that waits for nothing keeps its worker; but never do all workers wait for nothing. */
module Service {
  import opened Protocol
  import opened Coalescing
  import WorkerPool

  /** `runOf` is the run of each item that was started. */
  datatype System = System(pool: WorkerPool.Pool, st: State, runOf: map<nat, nat>)

  /** A worker starts an item, which is a new run r of job j; a run makes a call; or the pool does anything else. */
  datatype Move =
    | TakeUp(a: WorkerPool.Action, r: nat, j: Job) | Call(r: nat, o: Outcome) | Other(a: WorkerPool.Action)

  predicate StartsItem(a: WorkerPool.Action) { a.Take? || a.HandOff? }

  /** The item that a worker starts. */
  function ItemOf(p: WorkerPool.Pool, a: WorkerPool.Action): nat
    requires StartsItem(a) && WorkerPool.Enabled(p, a)
  {
    if a.Take? then p.queue[0] else p.made
  }

  /** The run of item i has returned this. */
  predicate Returned(y: System, i: nat, result: WorkerPool.WorkResult) {
    && i in y.runOf && y.runOf[i] in y.st.runs
    && y.st.runs[y.runOf[i]].pc.Done? && y.st.runs[y.runOf[i]].answer == result
  }

  /** A worker has a result only when the run of its item has returned, and it is what that has returned. */
  predicate Possible(y: System, m: Move) {
    match m
    case TakeUp(a, r, j) => StartsItem(a) && WorkerPool.Enabled(y.pool, a) && Legal(y.st, Begin(r, j))
    case Call(r, o) => Legal(y.st, By(r, o))
    case Other(a) =>
      && !StartsItem(a) && WorkerPool.Enabled(y.pool, a)
      && (a.Finish? ==> Returned(y, y.pool.workers[a.w].item, a.outcome))
  }

  function Next(y: System, m: Move): System
    requires Possible(y, m)
  {
    match m
    case TakeUp(a, r, j) =>
      System(WorkerPool.Act(y.pool, a), Apply(y.st, Begin(r, j)), y.runOf[ItemOf(y.pool, a) := r])
    case Call(r, o) => y.(st := Apply(y.st, By(r, o)))
    case Other(a) => y.(pool := WorkerPool.Act(y.pool, a))
  }

  ghost predicate Executed(states: seq<System>, moves: seq<Move>) {
    && |states| == |moves| + 1
    && forall h :: 0 <= h < |moves| ==> Possible(states[h], moves[h]) && states[h + 1] == Next(states[h], moves[h])
  }

  /** A server from its start on, until it is stopped or crashes. What a crash leaves behind is a state of the protocol
      without runs. */
  predicate Fresh(y: System) {
    && y.st.runs == map[] && y.st.jq == {} && y.st.holder == map[] && y.runOf == map[]
    && y.pool == WorkerPool.NewPool(y.pool.concurrency, y.pool.backlog)
  }

  // Unfinished runs are with workers

  predicate Works(y: System, w: nat, r: nat) {
    w < |y.pool.workers| && y.pool.workers[w].Working?
    && y.pool.workers[w].item in y.runOf && y.runOf[y.pool.workers[w].item] == r
  }

  ghost predicate Tied(y: System) {
    forall r :: r in y.st.runs && !y.st.runs[r].pc.Done? ==> exists w: nat :: Works(y, w, r)
  }

  /** The run of worker w waits for nothing. */
  predicate Waits(y: System, w: nat) {
    w < |y.pool.workers| && y.pool.workers[w].Working?
    && y.pool.workers[w].item in y.runOf && Orphaned(y.st, y.runOf[y.pool.workers[w].item])
  }

  ghost predicate Serving(y: System) {
    |y.pool.workers| > 0 ==> exists w: nat :: w < |y.pool.workers| && !Waits(y, w)
  }

  ghost predicate Ok(y: System) { WorkerPool.Inv(y.pool) && Tied(y) && Serving(y) }

  lemma NewItem(p: WorkerPool.Pool, a: WorkerPool.Action, w: nat)
    requires WorkerPool.Inv(p) && StartsItem(a) && WorkerPool.Enabled(p, a)
    requires w < |p.workers| && p.workers[w].Working?
    ensures p.workers[w].item != ItemOf(p, a) && w != a.w
  {
    assert WorkerPool.WorkerOk(p, w);
    if a.Take? { assert p.queue[0] in p.queue; }
  }

  lemma StartedItem(p: WorkerPool.Pool, a: WorkerPool.Action)
    requires StartsItem(a) && WorkerPool.Enabled(p, a)
    ensures WorkerPool.Act(p, a).workers == p.workers[a.w := WorkerPool.Working(ItemOf(p, a))]
  {
  }

  lemma TakeUpKeeps(y: System, a: WorkerPool.Action, r: nat, j: Job)
    requires Ok(y) && Possible(y, TakeUp(a, r, j))
    ensures Ok(Next(y, TakeUp(a, r, j)))
  {
    var t := Next(y, TakeUp(a, r, j));
    WorkerPool.InvAct(y.pool, a);
    StartedItem(y.pool, a);
    assert Works(t, a.w, r) && !Waits(t, a.w);
    forall q | q in t.st.runs && !t.st.runs[q].pc.Done? ensures exists w: nat :: Works(t, w, q) {
      if q != r {
        var w: nat :| Works(y, w, q);
        NewItem(y.pool, a, w);
        assert Works(t, w, q);
      }
    }
  }

  lemma CallEnds(s: State, r: nat, o: Outcome)
    requires Legal(s, By(r, o))
    ensures !s.runs[r].pc.Done?
    ensures Apply(s, By(r, o)).runs.Keys == s.runs.Keys
    ensures forall q :: q in s.runs && q != r ==> Apply(s, By(r, o)).runs[q] == s.runs[q]
  {
  }

  /** A run that makes a call is not one that waits for nothing afterwards, or the call was a poll that changes
      nothing. */
  lemma CallerServes(s: State, r: nat, o: Outcome)
    requires Legal(s, By(r, o)) && Orphaned(Apply(s, By(r, o)), r)
    ensures Apply(s, By(r, o)) == s
  {
    var n := s.runs[r];
    if n.pc == Entering(Poll) {
      PollStep(n, o);
      assert s.runs[r := n] == s.runs;
    } else {
      StartsPolling(s, n, o);
      StartLeavesQueue(s, n, o);
    }
  }

  lemma StartLeavesQueue(s: State, n: Run, o: Outcome)
    requires n.pc == Entering(Start) && EnabledEnter(s, n, Start, o)
    ensures EffectEnter(s, n, Start, o).jq >= s.jq && LocalEnter(n, Start, o).job == n.job
  {
  }

  lemma CallKeeps(y: System, r: nat, o: Outcome)
    requires Ok(y) && Possible(y, Call(r, o))
    ensures Ok(Next(y, Call(r, o)))
  {
    var t := Next(y, Call(r, o));
    CallEnds(y.st, r, o);
    forall q | q in t.st.runs && !t.st.runs[q].pc.Done? ensures exists w: nat :: Works(t, w, q) {
      var w: nat :| Works(y, w, q);
      assert Works(t, w, q);
    }
    var v: nat :| Works(y, v, r);
    if Waits(t, v) {
      CallerServes(y.st, r, o);
      assert t == y;
    }
  }

  lemma OtherWorkers(p: WorkerPool.Pool, a: WorkerPool.Action)
    requires !StartsItem(a) && WorkerPool.Enabled(p, a)
    ensures var q := WorkerPool.Act(p, a);
            && |p.workers| <= |q.workers|
            && (forall w :: 0 <= w < |p.workers| && !(WorkerPool.IsWorkerStep(a) && w == a.w) ==>
                  q.workers[w] == p.workers[w])
            && (forall w :: |p.workers| <= w < |q.workers| ==> q.workers[w].Idle?)
  {
    if WorkerPool.IsWorkerStep(a) { StepsAlone(p, a); } else { NobodySteps(p, a); }
  }

  lemma StepsAlone(p: WorkerPool.Pool, a: WorkerPool.Action)
    requires !StartsItem(a) && WorkerPool.IsWorkerStep(a) && WorkerPool.Enabled(p, a)
    ensures var q := WorkerPool.Act(p, a);
            |q.workers| == |p.workers| && forall w :: 0 <= w < |p.workers| && w != a.w ==> q.workers[w] == p.workers[w]
  {
  }

  lemma NobodySteps(p: WorkerPool.Pool, a: WorkerPool.Action)
    requires !StartsItem(a) && !WorkerPool.IsWorkerStep(a) && WorkerPool.Enabled(p, a)
    ensures var q := WorkerPool.Act(p, a); q.workers == p.workers || q.workers == p.workers + [WorkerPool.Idle]
  {
  }

  lemma WorkerGoesOn(p: WorkerPool.Pool, a: WorkerPool.Action)
    requires !StartsItem(a) && WorkerPool.IsWorkerStep(a) && WorkerPool.Enabled(p, a)
    ensures p.workers[a.w].Working? ==> a.Finish?
    ensures var q := WorkerPool.Act(p, a); q.panicked || (a.w < |q.workers| && !q.workers[a.w].Working?)
  {
  }

  lemma OtherKeeps(y: System, a: WorkerPool.Action)
    requires Ok(y) && Possible(y, Other(a))
    ensures Ok(Next(y, Other(a)))
  {
    var t := Next(y, Other(a));
    WorkerPool.InvAct(y.pool, a);
    OtherWorkers(y.pool, a);
    if WorkerPool.IsWorkerStep(a) { WorkerGoesOn(y.pool, a); }
    forall q | q in t.st.runs && !t.st.runs[q].pc.Done? ensures exists w: nat :: Works(t, w, q) {
      var w: nat :| Works(y, w, q);
      assert Works(t, w, q);
    }
    OtherServes(y, a, t);
  }

  lemma OtherServes(y: System, a: WorkerPool.Action, t: System)
    requires Serving(y) && Possible(y, Other(a)) && t == Next(y, Other(a)) && !t.pool.panicked
    ensures Serving(t)
  {
    OtherWorkers(y.pool, a);
    if WorkerPool.IsWorkerStep(a) {
      WorkerGoesOn(y.pool, a);
      assert !Waits(t, a.w);
    } else if |y.pool.workers| > 0 {
      var w: nat :| w < |y.pool.workers| && !Waits(y, w);
      assert !Waits(t, w);
    } else if |t.pool.workers| > 0 {
      assert !Waits(t, 0);
    }
  }

  lemma {:induction false} OkAlways(states: seq<System>, moves: seq<Move>, i: nat)
    requires Executed(states, moves) && Fresh(states[0]) && i <= |moves|
    ensures Ok(states[i])
    decreases i
  {
    if i > 0 {
      OkAlways(states, moves, i - 1);
      var y := states[i - 1];
      match moves[i - 1]
      case TakeUp(a, r, j) => TakeUpKeeps(y, a, r, j);
      case Call(r, o) => CallKeeps(y, r, o);
      case Other(a) => OtherKeeps(y, a);
    }
  }

  /** In every execution of a server with workers, at least one worker does not wait for nothing. So runs that wait for
      nothing never stop all of the pool: coalescing takes an owner on another worker, and when that owner leaves, its
      worker is free. */
  lemma NeverStarved(states: seq<System>, moves: seq<Move>, i: nat)
    requires Executed(states, moves) && Fresh(states[0]) && i <= |moves|
    requires WorkerPool.Ready(states[i].pool) && states[i].pool.concurrency > 0
    ensures exists w: nat :: w < |states[i].pool.workers| && !Waits(states[i], w)
  {
    OkAlways(states, moves, i);
    var w: nat :| w < |states[i].pool.workers| && !Waits(states[i], w);
  }

  // Results

  ghost predicate ResultsOk(y: System) {
    forall i :: i in y.pool.outcomes ==> Returned(y, i, y.pool.outcomes[i])
  }

  lemma OutcomesAfter(p: WorkerPool.Pool, a: WorkerPool.Action)
    requires WorkerPool.Inv(p) && WorkerPool.Enabled(p, a)
    ensures var q := WorkerPool.Act(p, a);
            q.outcomes == if a.Finish? then p.outcomes[p.workers[a.w].item := a.outcome] else p.outcomes
  {
    WorkerPool.NoPanic(p, a);
  }

  lemma FreshItem(p: WorkerPool.Pool, a: WorkerPool.Action)
    requires WorkerPool.Inv(p) && StartsItem(a) && WorkerPool.Enabled(p, a)
    ensures ItemOf(p, a) !in p.outcomes
  {
    if a.Take? {
      assert p.queue[0] in p.queue;
      assert WorkerPool.ItemOk(p, p.queue[0]);
    }
  }

  lemma ResultsKept(y: System, m: Move)
    requires Ok(y) && ResultsOk(y) && Possible(y, m)
    ensures ResultsOk(Next(y, m))
  {
    var t := Next(y, m);
    match m
    case TakeUp(a, r, j) =>
      OutcomesAfter(y.pool, a);
      FreshItem(y.pool, a);
      forall i | i in t.pool.outcomes ensures Returned(t, i, t.pool.outcomes[i]) {
        assert Returned(y, i, y.pool.outcomes[i]);
      }
    case Call(r, o) =>
      CallEnds(y.st, r, o);
      forall i | i in t.pool.outcomes ensures Returned(t, i, t.pool.outcomes[i]) {
        assert Returned(y, i, y.pool.outcomes[i]);
      }
    case Other(a) =>
      OutcomesAfter(y.pool, a);
      forall i | i in t.pool.outcomes ensures Returned(t, i, t.pool.outcomes[i]) {
        if i in y.pool.outcomes { assert Returned(y, i, y.pool.outcomes[i]); }
      }
  }

  /** In every execution the result of an item is what the run of the item has returned. */
  lemma ResultIsAnswer(states: seq<System>, moves: seq<Move>, n: nat, i: nat)
    requires Executed(states, moves) && Fresh(states[0]) && n <= |moves| && i in states[n].pool.outcomes
    ensures Returned(states[n], i, states[n].pool.outcomes[i])
  {
    ResultsAlways(states, moves, n);
  }

  lemma {:induction false} ResultsAlways(states: seq<System>, moves: seq<Move>, n: nat)
    requires Executed(states, moves) && Fresh(states[0]) && n <= |moves|
    ensures ResultsOk(states[n])
    decreases n
  {
    if n > 0 {
      ResultsAlways(states, moves, n - 1);
      OkAlways(states, moves, n - 1);
      ResultsKept(states[n - 1], moves[n - 1]);
    }
  }
}

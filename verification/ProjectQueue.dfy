/** The two-level per-project mutex: `mu` guards a table of project mutexes that are created on first use. */
module ProjectQueue {
  import opened Options

  /** A thread inside Lock or Unlock, before or after the line its name tells. m is the project mutex it has found. */
  datatype Thread =
    | Idle
    | WantsMu(p: string) | HasMu(p: string) | Found(p: string, m: nat) | Waits(p: string, m: nat)
    | Holds(p: string, m: nat)
    | WantsMuToUnlock(p: string, m: nat) | HasMuToUnlock(p: string, m: nat) | Unlocked(p: string)

  /** `owner` says which project mutexes are locked and by whom; mutexes are numbered in the order of creation. */
  datatype Queue = Queue(mu: Option<nat>, table: map<string, nat>, owner: map<nat, nat>, made: nat,
                         threads: map<nat, Thread>)

  datatype Action =
    | CallLock(p: string) | TakeMu | Lookup | DropMu | Acquire | CallUnlock | UnlockProject

  predicate Enabled(q: Queue, t: nat, a: Action) {
    t in q.threads &&
    var th := q.threads[t];
    match a
    case CallLock(_) => th.Idle?
    case TakeMu => (th.WantsMu? || th.WantsMuToUnlock?) && q.mu.None?
    case Lookup => th.HasMu?
    case DropMu => th.Found? || th.Unlocked?
    case Acquire => th.Waits? && th.m !in q.owner
    case CallUnlock => th.Holds?
    case UnlockProject => th.HasMuToUnlock?
  }

  function Set(q: Queue, t: nat, th: Thread): Queue { q.(threads := q.threads[t := th]) }

  function Act(q: Queue, t: nat, a: Action): Queue
    requires Enabled(q, t, a)
  {
    var th := q.threads[t];
    match a
    case CallLock(p) => Set(q, t, WantsMu(p))
    case TakeMu =>
      Set(q, t, if th.WantsMu? then HasMu(th.p) else HasMuToUnlock(th.p, th.m)).(mu := Some(t))
    case Lookup =>
      if th.p in q.table then Set(q, t, Found(th.p, q.table[th.p]))
      else Set(q, t, Found(th.p, q.made)).(table := q.table[th.p := q.made], made := q.made + 1)
    case DropMu => Set(q, t, if th.Found? then Waits(th.p, th.m) else Idle).(mu := None)
    case Acquire => Set(q, t, Holds(th.p, th.m)).(owner := q.owner[th.m := t])
    case CallUnlock => Set(q, t, WantsMuToUnlock(th.p, th.m))
    case UnlockProject =>
      // The mutex is looked up again, in the table of this moment.
      Set(q, t, Unlocked(th.p)).(owner := if th.p in q.table then q.owner - {q.table[th.p]} else q.owner)
  }

  predicate UsesMu(th: Thread) { th.HasMu? || th.Found? || th.HasMuToUnlock? || th.Unlocked? }

  predicate Owns(th: Thread) { th.Holds? || th.WantsMuToUnlock? || th.HasMuToUnlock? }

  predicate ThreadOk(q: Queue, t: nat, th: Thread) {
    && (UsesMu(th) <==> q.mu == Some(t))
    && (th.Found? || th.Waits? || Owns(th) ==> th.p in q.table && q.table[th.p] == th.m)
    && (Owns(th) ==> th.m in q.owner && q.owner[th.m] == t)
  }

  ghost predicate ThreadsOk(q: Queue) {
    && (forall t :: t in q.threads ==> ThreadOk(q, t, q.threads[t]))
    && (q.mu.Some? ==> q.mu.value in q.threads)
  }

  ghost predicate TableOk(q: Queue) {
    && (forall p :: p in q.table ==> q.table[p] < q.made)
    && (forall p, o :: p in q.table && o in q.table && q.table[p] == q.table[o] ==> p == o)
  }

  predicate OwnerOk(q: Queue, m: nat) {
    m in q.owner ==> q.owner[m] in q.threads && Owns(q.threads[q.owner[m]]) && q.threads[q.owner[m]].m == m
  }

  ghost predicate OwnersOk(q: Queue) { forall m :: OwnerOk(q, m) }

  ghost predicate Inv(q: Queue) { ThreadsOk(q) && TableOk(q) && OwnersOk(q) }

  predicate Initial(q: Queue) {
    q.mu.None? && q.table == map[] && q.owner == map[] && q.made == 0
  }

  /** No thread is inside Lock or Unlock yet. */
  ghost predicate Started(q: Queue) { Initial(q) && forall t :: t in q.threads ==> q.threads[t].Idle? }

  lemma ThreadsKept(q: Queue, t: nat, a: Action)
    requires Inv(q) && Enabled(q, t, a)
    ensures ThreadsOk(Act(q, t, a))
  {
    var s := Act(q, t, a);
    assert ThreadOk(q, t, q.threads[t]);
    forall u | u in s.threads ensures ThreadOk(s, u, s.threads[u]) {
      assert ThreadOk(q, u, q.threads[u]);
      if u in q.threads && Owns(q.threads[u]) { assert OwnerOk(q, q.threads[u].m); }
    }
  }

  lemma OwnersKept(q: Queue, t: nat, a: Action)
    requires Inv(q) && Enabled(q, t, a)
    ensures OwnersOk(Act(q, t, a))
  {
    var s := Act(q, t, a);
    assert ThreadOk(q, t, q.threads[t]);
    forall m ensures OwnerOk(s, m) {
      assert OwnerOk(q, m);
    }
  }

  lemma InvAct(q: Queue, t: nat, a: Action)
    requires Inv(q) && Enabled(q, t, a)
    ensures Inv(Act(q, t, a))
  {
    ThreadsKept(q, t, a);
    OwnersKept(q, t, a);
  }

  // Executions

  /** Any interleaving of any threads: the one named in `who` takes the action at the same place of `acts`. */
  ghost predicate Execution(states: seq<Queue>, who: seq<nat>, acts: seq<Action>) {
    && |states| == |acts| + 1 == |who| + 1
    && forall h :: 0 <= h < |acts| ==>
         Enabled(states[h], who[h], acts[h]) && states[h + 1] == Act(states[h], who[h], acts[h])
  }

  ghost predicate Reachable(q: Queue) {
    exists states, who, acts :: Execution(states, who, acts) && Started(states[0]) && states[|acts|] == q
  }

  lemma {:induction false} InvInExecution(states: seq<Queue>, who: seq<nat>, acts: seq<Action>, i: nat)
    requires Execution(states, who, acts) && Started(states[0]) && i <= |acts|
    ensures Inv(states[i])
  {
    if i > 0 {
      InvInExecution(states, who, acts, i - 1);
      InvAct(states[i - 1], who[i - 1], acts[i - 1]);
    }
  }

  lemma InvReachable(q: Queue)
    requires Reachable(q)
    ensures Inv(q)
  {
    var states, who, acts :| Execution(states, who, acts) && Started(states[0]) && states[|acts|] == q;
    InvInExecution(states, who, acts, |acts|);
  }

  lemma StartedIsReachable(q: Queue)
    requires Started(q)
    ensures Reachable(q)
  {
    var acts: seq<Action> := [];
    assert Execution([q], [], acts) && Started([q][0]) && [q][|acts|] == q;
  }

  lemma ReachableAct(q: Queue, t: nat, a: Action)
    requires Reachable(q) && Enabled(q, t, a)
    ensures Reachable(Act(q, t, a))
  {
    var states, who, acts :| Execution(states, who, acts) && Started(states[0]) && states[|acts|] == q;
    var s, w, b := states + [Act(q, t, a)], who + [t], acts + [a];
    assert Execution(s, w, b) && Started(s[0]) && s[|b|] == Act(q, t, a);
  }

  // The specification: each project has at most one holder

  datatype Event = Nothing | Locked(t: nat, p: string) | Released(t: nat, p: string)

  predicate Allowed(h: map<string, nat>, e: Event) {
    match e
    case Nothing => true
    case Locked(t, p) => p !in h
    case Released(t, p) => p in h && h[p] == t
  }

  function After(h: map<string, nat>, e: Event): map<string, nat>
    requires Allowed(h, e)
  {
    match e
    case Nothing => h
    case Locked(t, p) => h[p := t]
    case Released(t, p) => h - {p}
  }

  function Holders(q: Queue): map<string, nat> {
    map p | p in q.table && q.table[p] in q.owner :: q.owner[q.table[p]]
  }

  function EventOf(q: Queue, t: nat, a: Action): Event
    requires Enabled(q, t, a)
  {
    if a.Acquire? then Locked(t, q.threads[t].p)
    else if a.UnlockProject? then Released(t, q.threads[t].p)
    else Nothing
  }

  lemma RefinesUnlock(q: Queue, t: nat)
    requires Inv(q) && Enabled(q, t, UnlockProject)
    ensures var p := q.threads[t].p;
            && p in Holders(q) && Holders(q)[p] == t
            && Holders(Act(q, t, UnlockProject)) == Holders(q) - {p}
  {
    assert ThreadOk(q, t, q.threads[t]);
  }

  lemma RefinesRest(q: Queue, t: nat, a: Action)
    requires Inv(q) && Enabled(q, t, a) && !a.Acquire? && !a.UnlockProject?
    ensures Holders(Act(q, t, a)) == Holders(q)
  {
    assert OwnerOk(q, q.made);
  }

  /** Refinement, in every reachable state. A thread locks a project only when it has no holder, the thread that unlocks
      it is its holder, in particular Unlock never meets a project without a mutex or a mutex that is not locked, and
      other projects are not affected. */
  lemma Refines(q: Queue, t: nat, a: Action)
    requires Reachable(q) && Enabled(q, t, a)
    ensures Allowed(Holders(q), EventOf(q, t, a))
    ensures Holders(Act(q, t, a)) == After(Holders(q), EventOf(q, t, a))
    ensures a.UnlockProject? ==> q.threads[t].p in q.table && q.table[q.threads[t].p] in q.owner
  {
    InvReachable(q);
    if a.UnlockProject? {
      RefinesUnlock(q, t);
    } else if !a.Acquire? {
      RefinesRest(q, t, a);
    }
  }

  /** The holder of a project in the table is the thread that has come back from Lock and not yet unlocked. */
  lemma HolderIsOwner(q: Queue, t: nat, p: string)
    requires Reachable(q)
    ensures p in Holders(q) && Holders(q)[p] == t <==> t in q.threads && Owns(q.threads[t]) && q.threads[t].p == p
  {
    InvReachable(q);
    if t in q.threads { assert ThreadOk(q, t, q.threads[t]); }
    if p in Holders(q) {
      var u := Holders(q)[p];
      assert OwnerOk(q, q.table[p]) && ThreadOk(q, u, q.threads[u]);
    }
  }

  /** Two threads never hold the same project. */
  lemma Exclusive(q: Queue, t: nat, u: nat)
    requires Reachable(q) && t in q.threads && u in q.threads && Owns(q.threads[t]) && Owns(q.threads[u])
    requires q.threads[t].p == q.threads[u].p
    ensures t == u
  {
    HolderIsOwner(q, t, q.threads[t].p);
    HolderIsOwner(q, u, q.threads[t].p);
  }

  /** A project's mutex is created once and never replaced. */
  lemma {:induction false} MutexIsStable(
    states: seq<Queue>, who: seq<nat>, acts: seq<Action>, i: nat, j: nat, p: string)
    requires Execution(states, who, acts) && i <= j <= |acts| && p in states[i].table
    ensures p in states[j].table && states[j].table[p] == states[i].table[p]
    decreases j
  {
    if i < j {
      MutexIsStable(states, who, acts, i, j - 1, p);
      assert states[j] == Act(states[j - 1], who[j - 1], acts[j - 1]);
    }
  }

  // Progress

  /** The one action a thread inside Lock or Unlock can take next. */
  function NextAction(th: Thread): Action
    requires !th.Idle? && !th.Holds?
  {
    match th
    case WantsMu(_) => TakeMu
    case HasMu(_) => Lookup
    case Found(_, _) => DropMu
    case Waits(_, _) => Acquire
    case WantsMuToUnlock(_, _) => TakeMu
    case HasMuToUnlock(_, _) => UnlockProject
    case Unlocked(_) => DropMu
  }

  predicate CanGoOn(q: Queue, t: nat) {
    t in q.threads && (q.threads[t].Holds? || (!q.threads[t].Idle? && Enabled(q, t, NextAction(q.threads[t]))))
  }

  /** `mu` is never held by a thread that waits for a project mutex or is inside a critical section, and whoever holds
      it can go on. So a thread that cannot go on waits for one that can, directly or through `mu`. */
  lemma NobodyIsStuck(q: Queue, t: nat)
    requires Reachable(q) && t in q.threads && !q.threads[t].Idle?
    ensures q.threads[t].Waits? || q.threads[t].Holds? ==> q.mu != Some(t)
    ensures CanGoOn(q, t)
         || (q.mu.Some? && CanGoOn(q, q.mu.value))
         || (q.threads[t].Waits? && q.threads[t].m in q.owner && CanGoOn(q, q.owner[q.threads[t].m]))
  {
    InvReachable(q);
    assert ThreadOk(q, t, q.threads[t]);
    if q.mu.Some? { assert ThreadOk(q, q.mu.value, q.threads[q.mu.value]); }
    if q.threads[t].Waits? { assert OwnerOk(q, q.threads[t].m); }
  }

  // The program

  class ProjectQueue {
    var q: Queue

    ghost predicate Valid()
      reads this
    {
      Reachable(q)
    }

    /** A new queue, used by the given threads. */
    constructor (threads: set<nat>)
      ensures Valid() && Started(q) && q.threads.Keys == threads && Holders(q) == map[]
    {
      q := Queue(None, map[], map[], 0, map t | t in threads :: Idle);
      new;
      StartedIsReachable(q);
    }

    method Step(t: nat, a: Action)
      requires Valid() && Enabled(q, t, a)
      modifies this
      ensures Valid() && q == Act(old(q), t, a) && Keeps(old(q), q)
    {
      ReachableAct(q, t, a);
      q := Act(q, t, a);
    }

    /** Other threads than t take any steps. */
    method Others(t: nat)
      requires Valid() && t in q.threads
      modifies this
      ensures Valid() && SameThread(old(q), q, t) && Keeps(old(q), q)
    {
      var steps: nat :| steps >= 0;
      for i := 0 to steps
        invariant Valid() && SameThread(old(q), q, t) && Keeps(old(q), q)
      {
        var u: nat, a: Action := *, *;
        if u != t && Enabled(q, u, a) { Step(u, a); }
      }
    }

    /** Waiting for `mu`: other threads take any steps, and in the end whoever holds it goes on. */
    method AwaitMu(t: nat)
      requires Valid() && t in q.threads && !UsesMu(q.threads[t])
      modifies this
      ensures Valid() && SameThread(old(q), q, t) && Keeps(old(q), q) && q.mu.None?
    {
      Others(t);
      LeaveMu(t);
    }

    method LeaveMu(t: nat)
      requires Valid() && t in q.threads && !UsesMu(q.threads[t])
      modifies this
      ensures Valid() && SameThread(old(q), q, t) && Keeps(old(q), q) && q.mu.None?
      ensures forall u :: u in old(q).threads && !UsesMu(old(q).threads[u]) ==> SameThread(old(q), q, u)
    {
      if q.mu.None? { return; }
      var v := q.mu.value;
      MuHolder(q, t);
      if q.threads[v].HasMu? {
        Step(v, Lookup);
      } else if q.threads[v].HasMuToUnlock? {
        Step(v, UnlockProject);
      }
      Step(v, DropMu);
    }

    /** Waiting for the mutex of a project: other threads take any steps, and in the end its holder unlocks it. */
    method AwaitMutex(t: nat)
      requires Valid() && t in q.threads && q.threads[t].Waits?
      modifies this
      ensures Valid() && SameThread(old(q), q, t) && Keeps(old(q), q) && q.threads[t].m !in q.owner
    {
      Others(t);
      if q.threads[t].m in q.owner {
        MutexHolder(q, q.threads[t].m);
        Release(q.owner[q.threads[t].m], t);
      }
    }

    /** Thread u, the holder of the mutex that t waits for, unlocks it. */
    method Release(u: nat, t: nat)
      requires Valid() && u in q.threads && Owns(q.threads[u]) && t in q.threads && q.threads[t].Waits?
      modifies this
      ensures Valid() && SameThread(old(q), q, t) && Keeps(old(q), q)
      ensures old(q.threads[u]).m !in q.owner
    {
      if q.threads[u].Holds? { Step(u, CallUnlock); }
      if q.threads[u].WantsMuToUnlock? {
        LeaveMu(u);
        Step(u, TakeMu);
      }
      HolderHasMutex(q, u);
      Step(u, UnlockProject);
    }

    /** Lock, in any state: t comes back holding this project, and nothing else. */
    method Lock(t: nat, project: string)
      requires Valid() && t in q.threads && q.threads[t].Idle?
      modifies this
      ensures Valid() && Keeps(old(q), q) && t in q.threads && q.threads[t].Holds?
      ensures forall p :: p in Holders(q) && Holders(q)[p] == t <==> p == project
    {
      Step(t, CallLock(project));
      AwaitMu(t);
      Step(t, TakeMu);
      Others(t);
      Step(t, Lookup);
      Others(t);
      Step(t, DropMu);
      AwaitMutex(t);
      Step(t, Acquire);
      forall p ensures p in Holders(q) && Holders(q)[p] == t <==> p == project { HolderIsOwner(q, t, p); }
    }

    /** Unlock, by the holder of a project: t comes back holding nothing. */
    method Unlock(t: nat)
      requires Valid() && t in q.threads && q.threads[t].Holds?
      modifies this
      ensures Valid() && Keeps(old(q), q) && t in q.threads && q.threads[t].Idle?
      ensures forall p :: p in Holders(q) ==> Holders(q)[p] != t
    {
      Step(t, CallUnlock);
      AwaitMu(t);
      Step(t, TakeMu);
      Others(t);
      Step(t, UnlockProject);
      Others(t);
      Step(t, DropMu);
      forall p | p in Holders(q) ensures Holders(q)[p] != t { HolderIsOwner(q, t, p); }
    }
  }

  predicate SameThread(q: Queue, r: Queue, t: nat) { t in q.threads && t in r.threads && r.threads[t] == q.threads[t] }

  /** The threads are the same, and every mutex is still that of its project. */
  ghost predicate Keeps(q: Queue, r: Queue) {
    r.threads.Keys == q.threads.Keys && forall p :: p in q.table ==> p in r.table && r.table[p] == q.table[p]
  }

  lemma MuHolder(q: Queue, t: nat)
    requires Reachable(q) && q.mu.Some? && t in q.threads && !UsesMu(q.threads[t])
    ensures q.mu.value in q.threads && UsesMu(q.threads[q.mu.value]) && q.mu.value != t
  {
    InvReachable(q);
    assert ThreadOk(q, q.mu.value, q.threads[q.mu.value]) && ThreadOk(q, t, q.threads[t]);
  }

  lemma HolderHasMutex(q: Queue, u: nat)
    requires Reachable(q) && u in q.threads && Owns(q.threads[u])
    ensures q.threads[u].p in q.table && q.table[q.threads[u].p] == q.threads[u].m
  {
    InvReachable(q);
    assert ThreadOk(q, u, q.threads[u]);
  }

  lemma MutexHolder(q: Queue, m: nat)
    requires Reachable(q) && m in q.owner
    ensures var u := q.owner[m];
            && u in q.threads && Owns(q.threads[u]) && q.threads[u].m == m
            && q.threads[u].p in q.table && q.table[q.threads[u].p] == m
  {
    InvReachable(q);
    assert OwnerOk(q, m) && ThreadOk(q, q.owner[m], q.threads[q.owner[m]]);
  }
}

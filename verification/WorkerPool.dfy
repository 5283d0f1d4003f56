/** The fixed-size pool of workers: a bounded FIFO of work items, a one-shot result channel for each item, and shutdown
    by closing the FIFO and waiting for the workers. */
module WorkerPool {
  import Protocol

  /** What Work returns. */
  type WorkResult = Protocol.Answer

  /** A result channel of capacity 1. */
  datatype Chan = Chan(buf: seq<WorkResult>, closed: bool)

  /** Working(i): in Work for item i. Sent(i): has sent its result and not yet closed its channel. */
  datatype Worker = Idle | Working(item: nat) | Sent(item: nat) | Exited

  /** Where an accepted item is. */
  datatype Place = Queued | At(w: nat) | Completed

  /** Items are numbered in the order in which SendWork is called. `spawned` workers have been started, `counted`
      ones added to the wait group `wg`. `accepted` and `started` list items in the order in which they were put into
      and taken out of the queue, `outcomes` holds what Work returned for an item, `waited` the items whose result was
      received, and `places` is the history of each accepted item. */
  datatype Pool = Pool(
    concurrency: nat, backlog: nat, counted: nat, wg: int, workers: seq<Worker>,
    queue: seq<nat>, closed: bool, stopped: bool, panicked: bool,
    made: nat, results: map<nat, Chan>, accepted: seq<nat>, started: seq<nat>,
    outcomes: map<nat, WorkResult>, waited: set<nat>, places: map<nat, Place>)

  datatype Action =
    | Spawn | CountWorker
    | Send | HandOff(w: nat) | Reject
    | Take(w: nat) | Finish(w: nat, outcome: WorkResult) | CloseResult(w: nat) | Exit(w: nat)
    | Close | StopReturns
    | Wait(item: nat)

  function NewPool(concurrency: nat, backlog: nat): Pool {
    Pool(concurrency, backlog, 0, 0, [], [], false, false, false, 0, map[], [], [], map[], {}, map[])
  }

  /** NewWorkerPool has returned. */
  predicate Ready(s: Pool) { s.counted == s.concurrency }

  /** What the code and its callers do: SendWork and Stop are called on a pool that NewWorkerPool has returned, Stop
      once, SendWork not after it, and Wait once for each item that was accepted. A send succeeds when there is room
      in the queue or a worker waits for an item; it is rejected only when there is no room. */
  predicate Enabled(s: Pool, a: Action) {
    match a
    case Spawn => |s.workers| == s.counted < s.concurrency
    case CountWorker => |s.workers| == s.counted + 1
    case Send => Ready(s) && !s.closed && |s.queue| < s.backlog
    case HandOff(w) => Ready(s) && !s.closed && s.queue == [] && w < |s.workers| && s.workers[w].Idle?
    case Reject => Ready(s) && !s.closed && |s.queue| == s.backlog
    case Take(w) => w < |s.workers| && s.workers[w].Idle? && s.queue != []
    case Finish(w, _) => w < |s.workers| && s.workers[w].Working?
    case CloseResult(w) => w < |s.workers| && s.workers[w].Sent?
    case Exit(w) => w < |s.workers| && s.workers[w].Idle? && s.closed && s.queue == []
    case Close => Ready(s) && !s.closed
    case StopReturns => s.closed && s.wg == 0 && !s.stopped
    case Wait(i) =>
      i in s.accepted && i !in s.waited && i in s.results && (s.results[i].buf != [] || s.results[i].closed)
  }

  function Assign(s: Pool, w: nat, x: Worker): Pool
    requires w < |s.workers|
  {
    s.(workers := s.workers[w := x])
  }

  function SetChan(s: Pool, i: nat, c: Chan): Pool { s.(results := s.results[i := c]) }

  function ChanOf(s: Pool, i: nat): Chan { if i in s.results then s.results[i] else Chan([], false) }

  /** The effect of an action. A result that finds its channel full, the closing of a closed channel and the receipt
      from a closed empty channel panic. */
  function Act(s: Pool, a: Action): (t: Pool)
    requires Enabled(s, a)
    ensures t.concurrency == s.concurrency && t.backlog == s.backlog
    ensures IsWorkerStep(a) ==> t.accepted == s.accepted && t.closed == s.closed && t.stopped == s.stopped
    ensures IsWorkerStep(a) ==> t.waited == s.waited && t.counted == s.counted
  {
    match a
    case Spawn => s.(workers := s.workers + [Idle])
    case CountWorker => s.(counted := s.counted + 1, wg := s.wg + 1)
    case Send =>
      SetChan(s, s.made, Chan([], false)).(made := s.made + 1, queue := s.queue + [s.made],
                                           accepted := s.accepted + [s.made],
                                           places := s.places[s.made := Queued])
    case HandOff(w) =>
      SetChan(Assign(s, w, Working(s.made)), s.made, Chan([], false)).(
        made := s.made + 1, accepted := s.accepted + [s.made], started := s.started + [s.made],
        places := s.places[s.made := At(w)])
    case Reject => SetChan(s, s.made, Chan([], false)).(made := s.made + 1)
    case Take(w) =>
      Assign(s, w, Working(s.queue[0])).(queue := s.queue[1..], started := s.started + [s.queue[0]],
                                         places := s.places[s.queue[0] := At(w)])
    case Finish(w, r) =>
      var i := s.workers[w].item;
      if ChanOf(s, i).buf == [] then
        SetChan(Assign(s, w, Sent(i)), i, Chan([r], ChanOf(s, i).closed)).(outcomes := s.outcomes[i := r],
          panicked := s.panicked || ChanOf(s, i).closed)
      else s.(panicked := true)
    case CloseResult(w) =>
      var i := s.workers[w].item;
      if ChanOf(s, i).closed then s.(panicked := true)
      else SetChan(Assign(s, w, Idle), i, ChanOf(s, i).(closed := true)).(places := s.places[i := Completed])
    case Exit(w) => Assign(s, w, Exited).(wg := s.wg - 1)
    case Close => s.(closed := true)
    case StopReturns => s.(stopped := true)
    case Wait(i) =>
      if s.results[i].buf != [] then SetChan(s, i, s.results[i].(buf := [])).(waited := s.waited + {i})
      else s.(panicked := true)
  }

  // The invariant

  predicate HasItem(x: Worker, i: nat) { (x.Working? || x.Sent?) && x.item == i }

  /** The result channel of an accepted item, given whether its result was sent and its channel closed. */
  predicate ChanOk(s: Pool, i: nat, sent: bool, closed: bool) {
    && i in s.results && s.results[i].closed == closed && (i in s.outcomes <==> sent)
    && s.results[i].buf == (if sent && i !in s.waited then [s.outcomes[i]] else [])
    && (i in s.waited ==> sent)
  }

  predicate ItemOk(s: Pool, i: nat) {
    i in s.places ==>
      match s.places[i]
      case Queued => ChanOk(s, i, false, false)
      case At(w) => w < |s.workers| && HasItem(s.workers[w], i) && ChanOk(s, i, s.workers[w].Sent?, false)
      case Completed => ChanOk(s, i, true, true)
  }

  predicate WorkerOk(s: Pool, w: nat)
    requires w < |s.workers|
  {
    && (s.workers[w].Working? || s.workers[w].Sent? ==>
          s.workers[w].item in s.places && s.places[s.workers[w].item] == At(w))
    && (s.workers[w].Exited? ==> s.closed && s.queue == [])
  }

  ghost predicate ItemsOk(s: Pool) { forall i :: ItemOk(s, i) }

  ghost predicate WorkersOk(s: Pool) { forall w: nat :: w < |s.workers| ==> WorkerOk(s, w) }

  /** Items are queued and started in the order in which they were accepted. */
  ghost predicate OrderOk(s: Pool) {
    && s.accepted == s.started + s.queue
    && (forall x :: 0 <= x < |s.accepted| ==> s.accepted[x] < s.made)
    && (forall x, y :: 0 <= x < y < |s.accepted| ==> s.accepted[x] < s.accepted[y])
    && (forall i :: i in s.accepted <==> i in s.places)
    && (forall i :: i in s.queue <==> i in s.places && s.places[i].Queued?)
    && (forall i :: i in s.results || i in s.outcomes || i in s.waited ==> i < s.made)
  }

  function CountExited(ws: seq<Worker>): nat {
    if ws == [] then 0 else CountExited(ws[..|ws| - 1]) + (if ws[|ws| - 1].Exited? then 1 else 0)
  }

  predicate CountersOk(s: Pool) {
    && s.counted <= |s.workers| <= s.counted + 1 && |s.workers| <= s.concurrency
    && s.wg == s.counted - CountExited(s.workers)
    && (s.closed ==> Ready(s)) && (s.stopped ==> s.closed && s.wg == 0)
    && |s.queue| <= s.backlog
  }

  ghost predicate Inv(s: Pool) {
    !s.panicked && WorkersOk(s) && ItemsOk(s) && OrderOk(s) && CountersOk(s)
  }

  // Preservation

  lemma {:induction false} CountExitedUpdate(ws: seq<Worker>, w: nat, x: Worker)
    requires w < |ws|
    ensures CountExited(ws[w := x]) ==
            CountExited(ws) - (if ws[w].Exited? then 1 else 0) + (if x.Exited? then 1 else 0)
  {
    var n := |ws| - 1;
    if w < n {
      CountExitedUpdate(ws[..n], w, x);
      assert ws[w := x][..n] == ws[..n][w := x];
    } else {
      assert ws[w := x][..n] == ws[..n];
    }
  }

  lemma {:induction false} NobodyExited(ws: seq<Worker>)
    requires forall w :: 0 <= w < |ws| ==> !ws[w].Exited?
    ensures CountExited(ws) == 0
  {
    if ws != [] { NobodyExited(ws[..|ws| - 1]); }
  }

  lemma {:induction false} EverybodyExited(ws: seq<Worker>)
    ensures CountExited(ws) <= |ws|
    ensures CountExited(ws) == |ws| ==> forall w :: 0 <= w < |ws| ==> ws[w].Exited?
  {
    if ws != [] { EverybodyExited(ws[..|ws| - 1]); }
  }

  lemma CountersKeptByWorker(s: Pool, w: nat, x: Worker, t: Pool)
    requires Inv(s) && w < |s.workers| && !s.workers[w].Exited? && t.workers == s.workers[w := x]
    requires t.concurrency == s.concurrency && t.counted == s.counted && t.closed == s.closed && t.stopped == s.stopped
    requires t.wg == s.wg - (if x.Exited? then 1 else 0) && t.backlog == s.backlog && |t.queue| <= |s.queue|
    ensures CountersOk(t)
  {
    CountExitedUpdate(s.workers, w, x);
    EverybodyExited(s.workers);
  }

  /** The panic branches are never taken: a result always finds its channel empty and open, a channel is closed once,
      and the first Wait for an item finds its result. */
  lemma NoPanic(s: Pool, a: Action)
    requires Inv(s) && Enabled(s, a)
    ensures !Act(s, a).panicked
  {
    match a
    case Finish(w, _) => assert WorkerOk(s, w) && ItemOk(s, s.workers[w].item);
    case CloseResult(w) => assert WorkerOk(s, w) && ItemOk(s, s.workers[w].item);
    case Wait(i) => assert ItemOk(s, i);
    case Spawn =>
    case CountWorker =>
    case Send =>
    case HandOff(_) =>
    case Reject =>
    case Take(_) =>
    case Exit(_) =>
    case Close =>
    case StopReturns =>
  }

  // One lemma for each kind of action

  lemma InvStart(s: Pool, a: Action)
    requires Inv(s) && (a == Spawn || a == CountWorker) && Enabled(s, a)
    ensures Inv(Act(s, a))
  {
    var t := Act(s, a);
    forall i ensures ItemOk(t, i) { assert ItemOk(s, i); }
    forall w: nat | w < |s.workers| ensures WorkerOk(t, w) { assert WorkerOk(s, w); }
    if a == Spawn {
      assert t.workers[..|t.workers| - 1] == s.workers;
    } else {
      NobodyExited(s.workers) by {
        forall w: nat | w < |s.workers| ensures !s.workers[w].Exited? { assert WorkerOk(s, w); }
      }
    }
  }

  lemma InvSend(s: Pool, a: Action)
    requires Inv(s) && (a == Send || a == Reject) && Enabled(s, a)
    ensures Inv(Act(s, a))
  {
    var t := Act(s, a);
    forall i ensures ItemOk(t, i) { assert ItemOk(s, i); }
    forall w: nat | w < |t.workers| ensures WorkerOk(t, w) { assert WorkerOk(s, w); }
    assert OrderOk(t) by { assert s.made !in s.places; }
  }

  lemma InvHandOff(s: Pool, w: nat)
    requires Inv(s) && Enabled(s, HandOff(w))
    ensures Inv(Act(s, HandOff(w)))
  {
    var t := Act(s, HandOff(w));
    assert s.made !in s.places;
    forall i ensures ItemOk(t, i) { assert ItemOk(s, i); }
    forall x: nat | x < |t.workers| ensures WorkerOk(t, x) { assert WorkerOk(s, x); }
    CountersKeptByWorker(s, w, t.workers[w], t);
  }

  lemma InvTake(s: Pool, w: nat)
    requires Inv(s) && Enabled(s, Take(w))
    ensures Inv(Act(s, Take(w)))
  {
    var t := Act(s, Take(w));
    assert s.queue[0] in s.queue;
    forall i ensures ItemOk(t, i) { assert ItemOk(s, i); }
    forall x: nat | x < |t.workers| ensures WorkerOk(t, x) { assert WorkerOk(s, x); }
    TakeKeepsOrder(s, w, t);
    CountersKeptByWorker(s, w, t.workers[w], t);
  }

  lemma TakeKeepsOrder(s: Pool, w: nat, t: Pool)
    requires OrderOk(s) && s.queue != [] && t.made == s.made
    requires t.accepted == s.accepted && t.started == s.started + [s.queue[0]] && t.queue == s.queue[1..]
    requires t.results == s.results && t.outcomes == s.outcomes && t.waited == s.waited
    requires t.places == s.places[s.queue[0] := At(w)]
    ensures OrderOk(t)
  {
    assert s.queue[0] in s.queue && s.queue[0] in s.places;
    assert s.accepted == s.started + [s.queue[0]] + s.queue[1..];
    forall i | i in s.queue[1..] ensures i != s.queue[0] {
      var x :| 0 <= x < |s.queue[1..]| && s.queue[1..][x] == i;
      assert s.accepted[|s.started|] == s.queue[0] && s.accepted[|s.started| + 1 + x] == i;
    }
  }

  lemma FinishKeepsItems(s: Pool, w: nat, r: WorkResult, t: Pool)
    requires Inv(s) && Enabled(s, Finish(w, r)) && t == Act(s, Finish(w, r))
    ensures ItemsOk(t) && WorkersOk(t)
  {
    assert WorkerOk(s, w) && ItemOk(s, s.workers[w].item);
    forall i ensures ItemOk(t, i) { assert ItemOk(s, i); }
    forall x: nat | x < |t.workers| ensures WorkerOk(t, x) { assert WorkerOk(s, x); }
  }

  lemma InvFinish(s: Pool, w: nat, r: WorkResult)
    requires Inv(s) && Enabled(s, Finish(w, r))
    ensures Inv(Act(s, Finish(w, r)))
  {
    var t := Act(s, Finish(w, r));
    assert WorkerOk(s, w) && ItemOk(s, s.workers[w].item);
    NoPanic(s, Finish(w, r));
    FinishKeepsItems(s, w, r, t);
    CountersKeptByWorker(s, w, t.workers[w], t);
  }

  lemma CloseResultKeepsItems(s: Pool, w: nat, t: Pool)
    requires Inv(s) && Enabled(s, CloseResult(w)) && t == Act(s, CloseResult(w))
    ensures ItemsOk(t) && WorkersOk(t)
  {
    assert WorkerOk(s, w) && ItemOk(s, s.workers[w].item);
    forall i ensures ItemOk(t, i) { assert ItemOk(s, i); }
    forall x: nat | x < |t.workers| ensures WorkerOk(t, x) { assert WorkerOk(s, x); }
  }

  lemma InvCloseResult(s: Pool, w: nat)
    requires Inv(s) && Enabled(s, CloseResult(w))
    ensures Inv(Act(s, CloseResult(w)))
  {
    var t := Act(s, CloseResult(w));
    assert WorkerOk(s, w) && ItemOk(s, s.workers[w].item);
    NoPanic(s, CloseResult(w));
    CloseResultKeepsItems(s, w, t);
    CountersKeptByWorker(s, w, t.workers[w], t);
  }

  lemma InvExit(s: Pool, w: nat)
    requires Inv(s) && Enabled(s, Exit(w))
    ensures Inv(Act(s, Exit(w)))
  {
    var t := Act(s, Exit(w));
    forall i ensures ItemOk(t, i) { assert ItemOk(s, i); }
    forall x: nat | x < |t.workers| ensures WorkerOk(t, x) { assert WorkerOk(s, x); }
    CountersKeptByWorker(s, w, t.workers[w], t);
  }

  lemma InvStop(s: Pool, a: Action)
    requires Inv(s) && (a == Close || a == StopReturns) && Enabled(s, a)
    ensures Inv(Act(s, a))
  {
    var t := Act(s, a);
    forall i ensures ItemOk(t, i) { assert ItemOk(s, i); }
    forall x: nat | x < |t.workers| ensures WorkerOk(t, x) { assert WorkerOk(s, x); }
  }

  lemma WaitKeepsItems(s: Pool, i: nat, t: Pool)
    requires ItemsOk(s) && WorkersOk(s) && i in s.places && i in s.outcomes && i in s.results
    requires t == s.(results := s.results[i := Chan([], s.results[i].closed)], waited := s.waited + {i})
    ensures ItemsOk(t) && WorkersOk(t)
  {
    assert ItemOk(s, i);
    forall j ensures ItemOk(t, j) { assert ItemOk(s, j); }
    forall x: nat | x < |t.workers| ensures WorkerOk(t, x) { assert WorkerOk(s, x); }
  }

  lemma InvWait(s: Pool, i: nat)
    requires Inv(s) && Enabled(s, Wait(i))
    ensures Inv(Act(s, Wait(i)))
  {
    var t := Act(s, Wait(i));
    assert ItemOk(s, i);
    NoPanic(s, Wait(i));
    WaitKeepsItems(s, i, t);
  }

  lemma InvAct(s: Pool, a: Action)
    requires Inv(s) && Enabled(s, a)
    ensures Inv(Act(s, a))
  {
    match a
    case Spawn => InvStart(s, a);
    case CountWorker => InvStart(s, a);
    case Send => InvSend(s, a);
    case HandOff(w) => InvHandOff(s, w);
    case Reject => InvSend(s, a);
    case Take(w) => InvTake(s, w);
    case Finish(w, r) => InvFinish(s, w, r);
    case CloseResult(w) => InvCloseResult(s, w);
    case Exit(w) => InvExit(s, w);
    case Close => InvStop(s, a);
    case StopReturns => InvStop(s, a);
    case Wait(i) => InvWait(s, i);
  }

  // Executions

  predicate LegalAll(s: Pool, acts: seq<Action>)
    decreases |acts|
  {
    acts == [] || (Enabled(s, acts[0]) && LegalAll(Act(s, acts[0]), acts[1..]))
  }

  function Exec(s: Pool, acts: seq<Action>): Pool
    requires LegalAll(s, acts)
    decreases |acts|
  {
    if acts == [] then s else Exec(Act(s, acts[0]), acts[1..])
  }

  lemma {:induction false} InvExec(s: Pool, acts: seq<Action>)
    requires Inv(s) && LegalAll(s, acts)
    ensures Inv(Exec(s, acts))
    decreases |acts|
  {
    if acts != [] {
      InvAct(s, acts[0]);
      InvExec(Act(s, acts[0]), acts[1..]);
    }
  }

  /** A pool in any interleaving of its workers, of requests and of its shutdown. */
  ghost predicate Reachable(s: Pool) {
    exists concurrency, backlog, acts ::
      LegalAll(NewPool(concurrency, backlog), acts) && s == Exec(NewPool(concurrency, backlog), acts)
  }

  lemma InvReachable(s: Pool)
    requires Reachable(s)
    ensures Inv(s)
  {
    var concurrency, backlog, acts :|
      LegalAll(NewPool(concurrency, backlog), acts) && s == Exec(NewPool(concurrency, backlog), acts);
    InvExec(NewPool(concurrency, backlog), acts);
  }

  // What the pool guarantees

  predicate HeldBy(s: Pool, i: nat, w: nat) { w < |s.workers| && HasItem(s.workers[w], i) }

  predicate IsCompleted(s: Pool, i: nat) { i in s.results && s.results[i].closed }

  /** Every accepted item is in exactly one of three places: in the queue, with exactly one worker, or completed with
      exactly the one result that Work returned for it. */
  lemma ExactlyOnce(s: Pool, i: nat)
    requires Reachable(s) && i in s.accepted
    ensures (i in s.queue && !IsCompleted(s, i) && (forall w :: !HeldBy(s, i, w)) && i !in s.outcomes)
         || (i !in s.queue && !IsCompleted(s, i)
             && exists w :: HeldBy(s, i, w) && forall x :: HeldBy(s, i, x) ==> x == w)
         || (i !in s.queue && IsCompleted(s, i) && (forall w :: !HeldBy(s, i, w)) && i in s.outcomes)
  {
    InvReachable(s);
    assert ItemOk(s, i);
    forall w | HeldBy(s, i, w) ensures s.places[i] == At(w) { assert WorkerOk(s, w); }
    if s.places[i].At? { assert HeldBy(s, i, s.places[i].w); }
  }

  /** Items are started in the order in which they were accepted, each once; those not started are the queue. */
  lemma StartedInOrder(s: Pool)
    requires Reachable(s)
    ensures s.started <= s.accepted && s.queue == s.accepted[|s.started|..] && |s.queue| <= s.backlog
    ensures forall x, y :: 0 <= x < y < |s.started| ==> s.started[x] < s.started[y]
  {
    InvReachable(s);
  }

  /** What Work returned for an item is what the first Wait for it receives, and it is never overwritten. */
  lemma WaitReceivesOutcome(s: Pool, i: nat)
    requires Reachable(s) && Enabled(s, Wait(i))
    ensures i in s.outcomes && s.results[i].buf == [s.outcomes[i]]
  {
    InvReachable(s);
    assert ItemOk(s, i);
  }

  lemma OutcomeIsStable(s: Pool, a: Action, i: nat)
    requires Reachable(s) && Enabled(s, a) && i in s.outcomes
    ensures i in Act(s, a).outcomes && Act(s, a).outcomes[i] == s.outcomes[i]
  {
    InvReachable(s);
    if a.Finish? { assert WorkerOk(s, a.w) && ItemOk(s, s.workers[a.w].item); }
  }

  function Unfinished(s: Pool): set<nat> { set i | i in s.accepted && !IsCompleted(s, i) }

  lemma {:induction false} ItemsHeld(ws: seq<Worker>) returns (items: set<nat>)
    ensures |items| <= |ws|
    ensures forall w, i :: 0 <= w < |ws| && HasItem(ws[w], i) ==> i in items
  {
    if ws == [] {
      items := {};
    } else {
      items := ItemsHeld(ws[1..]);
      if ws[0].Working? || ws[0].Sent? { items := items + {ws[0].item}; }
    }
  }

  function Elements(q: seq<nat>): set<nat> { set i | i in q }

  lemma {:induction false} QueuedItems(q: seq<nat>)
    ensures |Elements(q)| <= |q|
  {
    if q != [] {
      QueuedItems(q[1..]);
      assert q == [q[0]] + q[1..];
      assert Elements(q) == {q[0]} + Elements(q[1..]);
    }
  }

  lemma SmallerSet(a: set<nat>, b: set<nat>)
    requires a <= b
    ensures |a| <= |b|
  {
    if a != {} {
      var x :| x in a;
      SmallerSet(a - {x}, b - {x});
    }
  }

  /** There are never more accepted and unfinished items than the backlog and the workers allow. */
  lemma BoundedLoad(s: Pool)
    requires Reachable(s)
    ensures |Unfinished(s)| <= s.backlog + s.concurrency
  {
    InvReachable(s);
    var held := ItemsHeld(s.workers);
    var queued := Elements(s.queue);
    QueuedItems(s.queue);
    forall i | i in Unfinished(s) ensures i in held + queued { assert ItemOk(s, i); }
    SmallerSet(Unfinished(s), held + queued);
    assert |held + queued| <= |held| + |queued|;
  }

  // Shutdown

  /** The wait group counts the workers that have not exited. It never becomes negative although a worker is started
      before it is counted, because no worker can exit before all are counted. */
  lemma WaitGroup(s: Pool)
    requires Reachable(s)
    ensures s.wg >= 0 && (s.counted < s.concurrency ==> s.wg == s.counted)
    ensures s.wg == s.counted - CountExited(s.workers)
  {
    InvReachable(s);
    EverybodyExited(s.workers);
    if !s.closed {
      forall w: nat | w < |s.workers| ensures !s.workers[w].Exited? { assert WorkerOk(s, w); }
      NobodyExited(s.workers);
    }
  }

  /** When Stop returns, all workers have exited. Every accepted item then has its result exactly if there were workers
      or nothing was accepted. */
  lemma Shutdown(s: Pool)
    requires Reachable(s) && s.stopped
    ensures |s.workers| == s.concurrency && forall w :: 0 <= w < |s.workers| ==> s.workers[w].Exited?
    ensures (forall i :: i in s.accepted ==> IsCompleted(s, i) && i in s.outcomes)
            <==> s.concurrency > 0 || s.accepted == []
  {
    InvReachable(s);
    EverybodyExited(s.workers);
    forall i | i in s.accepted ensures i in s.queue || (IsCompleted(s, i) && i in s.outcomes) { assert ItemOk(s, i); }
    if s.concurrency > 0 {
      assert WorkerOk(s, 0);
    } else if s.accepted != [] {
      var i := s.accepted[0];
      assert i in s.accepted && ItemOk(s, i) && i in s.places;
      NoWorkersNoResult(s, i);
    }
  }

  lemma NoWorkersNoResult(s: Pool, i: nat)
    requires Reachable(s) && s.concurrency == 0 && i in s.accepted
    ensures !IsCompleted(s, i)
  {
    var concurrency, backlog, acts :|
      LegalAll(NewPool(concurrency, backlog), acts) && s == Exec(NewPool(concurrency, backlog), acts);
    ConcurrencyIsFixed(NewPool(concurrency, backlog), acts);
    NothingCompletes(NewPool(0, backlog), acts);
  }

  lemma {:induction false} ConcurrencyIsFixed(s: Pool, acts: seq<Action>)
    requires LegalAll(s, acts)
    ensures Exec(s, acts).concurrency == s.concurrency
    decreases |acts|
  {
    if acts != [] { ConcurrencyIsFixed(Act(s, acts[0]), acts[1..]); }
  }

  lemma {:induction false} NothingCompletes(s: Pool, acts: seq<Action>)
    requires LegalAll(s, acts) && s.concurrency == 0 && s.counted == 0 && s.workers == []
    requires forall i :: i in s.results ==> !s.results[i].closed
    ensures forall i :: !IsCompleted(Exec(s, acts), i)
    decreases |acts|
  {
    if acts != [] { NothingCompletes(Act(s, acts[0]), acts[1..]); }
  }

  /** The steps the workers of a closed pool can still take. */
  function StepsLeft(x: Worker): nat {
    match x case Idle => 1 case Working(_) => 3 case Sent(_) => 2 case Exited => 0
  }

  function WorkLeft(ws: seq<Worker>): nat {
    if ws == [] then 0 else WorkLeft(ws[..|ws| - 1]) + StepsLeft(ws[|ws| - 1])
  }

  function Measure(s: Pool): nat { 3 * |s.queue| + WorkLeft(s.workers) }

  lemma {:induction false} WorkLeftUpdate(ws: seq<Worker>, w: nat, x: Worker)
    requires w < |ws|
    ensures WorkLeft(ws[w := x]) == WorkLeft(ws) - StepsLeft(ws[w]) + StepsLeft(x)
  {
    var n := |ws| - 1;
    if w < n {
      WorkLeftUpdate(ws[..n], w, x);
      assert ws[w := x][..n] == ws[..n][w := x];
    } else {
      assert ws[w := x][..n] == ws[..n];
    }
  }

  predicate IsWorkerStep(a: Action) { a.Take? || a.Finish? || a.CloseResult? || a.Exit? }

  lemma WorkerStepDecreases(s: Pool, w: nat, t: Pool)
    requires Nearer(s, w, t)
    ensures Measure(t) < Measure(s)
  {
    WorkLeftUpdate(s.workers, w, t.workers[w]);
  }

  /** Draining ends: once the queue is closed, each step of a worker decreases the measure, and nothing else but Wait
      and the return of Stop can happen. */
  lemma DrainingEnds(s: Pool, a: Action)
    requires Reachable(s) && s.closed && Enabled(s, a)
    ensures IsWorkerStep(a) || a.Wait? || a.StopReturns?
    ensures IsWorkerStep(a) ==> Measure(Act(s, a)) < Measure(s)
  {
    InvReachable(s);
    if IsWorkerStep(a) { WorkerStepMeasure(s, a); }
  }

  predicate Nearer(s: Pool, w: nat, t: Pool) {
    && w < |s.workers| && w < |t.workers| && t.workers == s.workers[w := t.workers[w]]
    && 3 * |t.queue| + StepsLeft(t.workers[w]) < 3 * |s.queue| + StepsLeft(s.workers[w])
  }

  lemma FinishIsNearer(s: Pool, w: nat, r: WorkResult)
    requires Enabled(s, Finish(w, r)) && !Act(s, Finish(w, r)).panicked
    ensures Nearer(s, w, Act(s, Finish(w, r)))
  {
  }

  lemma CloseIsNearer(s: Pool, w: nat)
    requires Enabled(s, CloseResult(w)) && !Act(s, CloseResult(w)).panicked
    ensures Nearer(s, w, Act(s, CloseResult(w)))
  {
  }

  lemma WorkerStepIsNearer(s: Pool, a: Action)
    requires IsWorkerStep(a) && Enabled(s, a) && !Act(s, a).panicked
    ensures Nearer(s, a.w, Act(s, a))
  {
    match a
    case Take(w) =>
    case Finish(w, r) => FinishIsNearer(s, w, r);
    case CloseResult(w) => CloseIsNearer(s, w);
    case Exit(w) =>
  }

  /** And until all workers have exited one of them can step. */
  lemma DrainingGoesOn(s: Pool)
    requires Reachable(s) && s.closed && !s.stopped
    ensures Enabled(s, StopReturns) || exists a :: IsWorkerStep(a) && Enabled(s, a)
  {
    InvReachable(s);
    if w: nat :| w < |s.workers| && !s.workers[w].Exited? {
      var x := s.workers[w];
      var a := if x.Working? then Finish(w, Protocol.Failed) else if x.Sent? then CloseResult(w)
               else if s.queue != [] then Take(w) else Exit(w);
      assert IsWorkerStep(a) && Enabled(s, a);
    } else {
      AllExited(s.workers);
    }
  }

  lemma {:induction false} AllExited(ws: seq<Worker>)
    requires forall w: nat :: w < |ws| ==> ws[w].Exited?
    ensures CountExited(ws) == |ws|
  {
    if ws != [] { AllExited(ws[..|ws| - 1]); }
  }

  // The program

  lemma {:induction false} ExecAppend(s: Pool, acts: seq<Action>, a: Action)
    requires LegalAll(s, acts) && Enabled(Exec(s, acts), a)
    ensures LegalAll(s, acts + [a]) && Exec(s, acts + [a]) == Act(Exec(s, acts), a)
    decreases |acts|
  {
    if acts == [] {
      assert [a][1..] == [] && acts + [a] == [a];
    } else {
      ExecAppend(Act(s, acts[0]), acts[1..], a);
      assert (acts + [a])[1..] == acts[1..] + [a];
    }
  }

  lemma ReachableAct(s: Pool, a: Action)
    requires Reachable(s) && Enabled(s, a)
    ensures Reachable(Act(s, a))
  {
    var concurrency, backlog, acts :|
      LegalAll(NewPool(concurrency, backlog), acts) && s == Exec(NewPool(concurrency, backlog), acts);
    ExecAppend(NewPool(concurrency, backlog), acts, a);
  }

  class WorkerPool {
    var s: Pool

    ghost predicate Valid()
      reads this
    {
      Reachable(s)
    }

    /** Starting the workers and counting them one by one; those already started wait for items. */
    constructor (concurrency: nat, backlog: nat)
      ensures Valid() && Ready(s) && !s.closed && s.accepted == [] && |s.workers| == s.concurrency == concurrency
    {
      s := NewPool(concurrency, backlog);
      new;
      assert LegalAll(NewPool(concurrency, backlog), []);
      for i := 0 to concurrency
        invariant Valid() && s == NewPool(concurrency, backlog).(counted := i, wg := i, workers := s.workers)
        invariant |s.workers| == i
      {
        ReachableAct(s, Spawn);
        s := Act(s, Spawn);
        ReachableAct(s, CountWorker);
        s := Act(s, CountWorker);
      }
    }

    /** An item is accepted when there is room, at the end of the queue; when the queue is empty, a worker that waits
        may take it at once, even if the queue has no room at all. It is rejected only when there is no room. */
    method SendWork() returns (item: nat, ok: bool)
      requires Valid() && Ready(s) && !s.closed
      modifies this
      ensures Valid() && item == old(s.made) && item !in old(s.accepted)
      ensures |old(s.queue)| < s.backlog ==> ok
      ensures ok ==> s.accepted == old(s.accepted) + [item]
      ensures ok ==> Enqueued(old(s), s, item) || exists w :: HandedOver(old(s), s, item, w)
      ensures !ok ==> s.accepted == old(s.accepted) && s.queue == old(s.queue)
                      && s.workers == old(s.workers) && s.started == old(s.started)
    {
      InvReachable(s);
      item := s.made;
      var w: nat :| w >= 0;
      if Enabled(s, HandOff(w)) {
        ok := true;
        ghost var was := s;
        Do(HandOff(w));
        assert HandedOver(was, s, item, w);
      } else {
        ok := |s.queue| < s.backlog;
        Do(if ok then Send else Reject);
      }
    }

    /** One turn of a worker: the next item from start to end, or, when the queue is closed and empty, its exit. */
    method WorkerTurn(w: nat, outcome: WorkResult) returns (exited: bool)
      requires Valid() && w < |s.workers| && s.workers[w].Idle? && (s.queue != [] || s.closed)
      modifies this
      ensures Valid() && s.closed == old(s.closed) && exited == (old(s.queue) == [])
      ensures exited ==> s == old(s).(workers := old(s.workers)[w := Exited], wg := old(s.wg) - 1)
      ensures !exited ==> s.workers == old(s.workers) && s.queue == old(s.queue)[1..] && s.accepted == old(s.accepted)
      ensures !exited ==> s.outcomes == old(s.outcomes)[old(s.queue)[0] := outcome]
      ensures !exited ==> s.results == old(s.results)[old(s.queue)[0] := Chan([outcome], true)]
    {
      exited := s.queue == [];
      if exited {
        ReachableAct(s, Exit(w));
        s := Act(s, Exit(w));
      } else {
        Turn(s, w, outcome);
        s := Act(s, Take(w));
        s := Act(s, Finish(w, outcome));
        s := Act(s, CloseResult(w));
      }
    }

    /** Waiting, in any state of the pool, for the result of an accepted item: the workers take any steps until it is
        there. What is received is what Work returned for the item. */
    method Wait(item: nat) returns (outcome: WorkResult)
      requires Valid() && Ready(s) && s.concurrency > 0 && item in s.accepted && item !in s.waited
      modifies this
      ensures Valid() && !s.panicked && item in s.outcomes && outcome == s.outcomes[item]
      ensures s.waited == old(s.waited) + {item} && s.accepted == old(s.accepted)
      ensures forall i :: i in old(s.outcomes) ==> i in s.outcomes && s.outcomes[i] == old(s.outcomes)[i]
    {
      while item !in s.outcomes
        invariant Valid() && Ready(s) && s.concurrency > 0
        invariant s.waited == old(s.waited) && s.accepted == old(s.accepted)
        invariant forall i :: i in old(s.outcomes) ==> i in s.outcomes && s.outcomes[i] == old(s.outcomes)[i]
        decreases Measure(s)
      {
        var a := StepFor(item);
        WorkerStepMeasure(s, a);
        OutcomesKept(s, a, Act(s, a));
        Do(a);
      }
      ResultIsThere(s, item);
      outcome := s.results[item].buf[0];
      Do(Action.Wait(item));
      InvReachable(s);
    }

    /** A step of some worker, any that is possible; one is, while the item has no result. */
    method StepFor(item: nat) returns (a: Action)
      requires Valid() && Ready(s) && s.concurrency > 0 && item in s.accepted && item !in s.outcomes
      ensures IsWorkerStep(a) && Enabled(s, a)
    {
      a := *;
      if !(IsWorkerStep(a) && Enabled(s, a)) {
        var w := WorkerFor(item);
        var outcome: WorkResult := *;
        var x := s.workers[w];
        a := if x.Working? then Finish(w, outcome) else if x.Sent? then CloseResult(w) else Take(w);
      }
    }

    method WorkerFor(item: nat) returns (w: nat)
      requires Valid() && Ready(s) && s.concurrency > 0 && item in s.accepted && item !in s.outcomes
      ensures w < |s.workers| && !s.workers[w].Exited? && (s.workers[w].Idle? ==> s.queue != [])
    {
      InvReachable(s);
      assert ItemOk(s, item);
      w := 0;
      if item !in s.queue {
        while !HasItem(s.workers[w], item)
          invariant w <= s.places[item].w < |s.workers|
          decreases s.places[item].w - w
        {
          w := w + 1;
        }
      }
      assert WorkerOk(s, w);
    }

    method Do(a: Action)
      requires Valid() && Enabled(s, a)
      modifies this
      ensures Valid() && s == Act(old(s), a)
    {
      ReachableAct(s, a);
      s := Act(s, a);
    }

    /** A step of some worker: any that is possible. */
    method SomeWorkerStep() returns (a: Action)
      requires Valid() && s.closed && s.wg != 0
      ensures IsWorkerStep(a) && Enabled(s, a)
    {
      a := *;
      if !(IsWorkerStep(a) && Enabled(s, a)) {
        NotAllExited(s);
        var w := 0;
        while s.workers[w].Exited?
          invariant w < |s.workers| && exists x :: w <= x < |s.workers| && !s.workers[x].Exited?
          decreases |s.workers| - w
        {
          w := w + 1;
        }
        var x := s.workers[w];
        var outcome: WorkResult := *;
        a := if x.Working? then Finish(w, outcome) else if x.Sent? then CloseResult(w)
             else if s.queue != [] then Take(w) else Exit(w);
      }
    }

    /** Closes the queue and waits while the workers, in any order, finish what was accepted and exit. */
    method Stop()
      requires Valid() && Ready(s) && !s.closed
      modifies this
      ensures Valid() && s.stopped && s.accepted == old(s.accepted) && s.concurrency == old(s.concurrency)
      ensures forall w :: 0 <= w < |s.workers| ==> s.workers[w].Exited?
      ensures (forall i :: i in s.accepted ==> IsCompleted(s, i) && i in s.outcomes)
              <==> s.concurrency > 0 || s.accepted == []
      ensures forall i :: i in old(s.outcomes) ==> i in s.outcomes && s.outcomes[i] == old(s.outcomes)[i]
    {
      Do(Close);
      StoppedOnlyAfterClose(old(s));
      while s.wg != 0
        invariant Valid() && s.closed && !s.stopped
        invariant s.accepted == old(s.accepted) && s.concurrency == old(s.concurrency)
        invariant forall i :: i in old(s.outcomes) ==> i in s.outcomes && s.outcomes[i] == old(s.outcomes)[i]
        decreases Measure(s)
      {
        var a := SomeWorkerStep();
        DrainingEnds(s, a);
        OutcomesKept(s, a, Act(s, a));
        Do(a);
      }
      Do(StopReturns);
      Shutdown(s);
    }
  }

  /** The item has gone to the end of the queue, where there was room. */
  predicate Enqueued(s: Pool, t: Pool, item: nat) {
    |s.queue| < s.backlog && t.queue == s.queue + [item] && t.workers == s.workers && t.started == s.started
  }

  /** The item has gone straight to the waiting worker w. */
  predicate HandedOver(s: Pool, t: Pool, item: nat, w: nat) {
    && s.queue == t.queue == [] && w < |s.workers| && s.workers[w].Idle?
    && t.workers == s.workers[w := Working(item)] && t.started == s.started + [item]
  }

  lemma WorkerStepMeasure(s: Pool, a: Action)
    requires Reachable(s) && IsWorkerStep(a) && Enabled(s, a)
    ensures Measure(Act(s, a)) < Measure(s)
  {
    InvReachable(s);
    NoPanic(s, a);
    WorkerStepIsNearer(s, a);
    WorkerStepDecreases(s, a.w, Act(s, a));
  }

  lemma ResultIsThere(s: Pool, i: nat)
    requires Reachable(s) && i in s.accepted && i !in s.waited && i in s.outcomes
    ensures Enabled(s, Wait(i)) && s.results[i].buf == [s.outcomes[i]]
  {
    InvReachable(s);
    assert ItemOk(s, i);
  }

  lemma NotAllExited(s: Pool)
    requires Reachable(s) && s.closed && s.wg != 0
    ensures exists w :: 0 <= w < |s.workers| && !s.workers[w].Exited?
  {
    InvReachable(s);
    if forall w: nat :: w < |s.workers| ==> s.workers[w].Exited? { AllExited(s.workers); }
  }

  lemma StoppedOnlyAfterClose(s: Pool)
    requires Reachable(s) && !s.closed
    ensures !s.stopped
  {
    InvReachable(s);
  }

  lemma OutcomesKept(s: Pool, a: Action, t: Pool)
    requires Reachable(s) && Enabled(s, a) && t == Act(s, a)
    ensures forall i :: i in s.outcomes ==> i in t.outcomes && t.outcomes[i] == s.outcomes[i]
  {
    forall i | i in s.outcomes ensures i in t.outcomes && t.outcomes[i] == s.outcomes[i] {
      OutcomeIsStable(s, a, i);
    }
  }

  lemma FinishIs(t: Pool, w: nat, i: nat, outcome: WorkResult)
    requires w < |t.workers| && t.workers[w] == Working(i) && i in t.results && t.results[i] == Chan([], false)
    ensures Act(t, Finish(w, outcome)) ==
            t.(workers := t.workers[w := Sent(i)], results := t.results[i := Chan([outcome], false)],
               outcomes := t.outcomes[i := outcome])
  {
  }

  lemma CloseIs(u: Pool, w: nat, i: nat, outcome: WorkResult)
    requires w < |u.workers| && u.workers[w] == Sent(i) && i in u.results && u.results[i] == Chan([outcome], false)
    ensures Act(u, CloseResult(w)) ==
            u.(workers := u.workers[w := Idle], results := u.results[i := Chan([outcome], true)],
               places := u.places[i := Completed])
  {
  }

  lemma Turn(s: Pool, w: nat, outcome: WorkResult)
    requires Reachable(s) && w < |s.workers| && s.workers[w].Idle? && s.queue != []
    ensures var t := Act(s, Take(w));
            && Enabled(t, Finish(w, outcome))
            && var u := Act(t, Finish(w, outcome));
            && Enabled(u, CloseResult(w))
            && var v := Act(u, CloseResult(w));
            && Reachable(v) && v.closed == s.closed && v.workers == s.workers && v.queue == s.queue[1..]
            && v.accepted == s.accepted && v.outcomes == s.outcomes[s.queue[0] := outcome]
            && v.results == s.results[s.queue[0] := Chan([outcome], true)]
  {
    var i := s.queue[0];
    NewItemHasEmptyChan(s, i);
    var t := Act(s, Take(w));
    ReachableAct(s, Take(w));
    FinishIs(t, w, i, outcome);
    var u := Act(t, Finish(w, outcome));
    ReachableAct(t, Finish(w, outcome));
    CloseIs(u, w, i, outcome);
    ReachableAct(u, CloseResult(w));
  }

  lemma NewItemHasEmptyChan(s: Pool, i: nat)
    requires Reachable(s) && i in s.queue
    ensures i in s.results && s.results[i] == Chan([], false)
  {
    InvReachable(s);
    assert ItemOk(s, i);
  }
}

/** The log broker: one event loop that keeps the registry of clients, their number for each ID, and one tailer for each
    ID that has clients; the goroutine that closes a tailer waits for a signal on the channel of its ID. */
module Broker {

  /** A connection: `name` tells the pointer apart, `id` is the job whose log it wants. */
  datatype Client = Client(name: nat, id: string)

  /** What the event loop receives. */
  datatype Msg = New(c: Client) | Closing(c: Client) | Notify(id: string, text: string)

  /** The goroutine that closes a tailer: not yet running, waiting on channel ch, or done. */
  datatype Closer = Starting(id: string) | Waiting(id: string, ch: nat) | Finished(id: string)

  /** The event loop is receiving, or blocked on the signal for an ID. */
  datatype Loop = Receiving | Signalling(id: string, ch: nat)

  /** Channels and tailers are numbered by generation: the closer of generation g belongs to the tailer that was
      started together with channel g. `sent` holds what was sent to each client, `shut` the clients whose channel
      was closed and `log` everything received so far. */
  datatype State = State(
    clients: set<Client>, counts: map<string, int>, closeC: map<string, nat>, made: nat,
    closers: map<nat, Closer>, loop: Loop,
    sent: map<Client, seq<string>>, shut: set<Client>, panicked: bool, log: seq<Msg>)

  const START := State({}, map[], map[], 0, map[], Receiving, map[], {}, false, [])

  datatype Action = Receive(m: Msg) | RunCloser(g: nat) | Signal(g: nat)

  predicate Registered(log: seq<Msg>, c: Client) { New(c) in log && Closing(c) !in log }

  /** Each connection registers itself once and closes at most once, afterwards. A closer can start to wait at any
      time; the signal passes when the loop sends and a closer receives on the same channel. */
  predicate Enabled(b: State, a: Action) {
    match a
    case Receive(m) =>
      b.loop.Receiving? &&
      (match m
       case New(c) => New(c) !in b.log && Closing(c) !in b.log
       case Closing(c) => Registered(b.log, c)
       case Notify(_, _) => true)
    case RunCloser(g) => g in b.closers && b.closers[g].Starting? && b.closers[g].id in b.closeC
    case Signal(g) => b.loop.Signalling? && g in b.closers && b.closers[g].Waiting? && b.closers[g].ch == b.loop.ch
  }

  function CountOf(b: State, id: string): int { if id in b.counts then b.counts[id] else 0 }

  function SentTo(b: State, c: Client): seq<string> { Received(b.sent, c) }

  function Register(b: State, c: Client): State {
    var b' := b.(clients := b.clients + {c}, log := b.log + [New(c)]);
    if CountOf(b, c.id) > 0 then b'.(counts := b.counts[c.id := CountOf(b, c.id) + 1])
    else b'.(counts := b.counts[c.id := 1], closeC := b.closeC[c.id := b.made], made := b.made + 1,
             closers := b.closers[b.made := Starting(c.id)])
  }

  function Unregister(b: State, c: Client): State {
    var n := CountOf(b, c.id) - 1;
    var b' := b.(shut := b.shut + {c}, clients := b.clients - {c}, counts := b.counts[c.id := n],
                 panicked := b.panicked || c in b.shut, log := b.log + [Closing(c)]);
    if n == 0 && c.id in b.closeC then b'.(loop := Signalling(c.id, b.closeC[c.id])) else b'
  }

  function Received(sent: map<Client, seq<string>>, c: Client): seq<string> { if c in sent then sent[c] else [] }

  function Sending(sent: map<Client, seq<string>>, to: set<Client>, text: string): map<Client, seq<string>> {
    map c | c in sent.Keys + to :: if c in to then Received(sent, c) + [text] else Received(sent, c)
  }

  /** Sending to all clients of the ID. A send on a closed channel panics. */
  function FanOut(b: State, id: string, text: string): State {
    b.(sent := Sending(b.sent, ClientsOf(b.clients, id), text),
       panicked := b.panicked || exists c | c in b.clients :: c.id == id && c in b.shut,
       log := b.log + [Notify(id, text)])
  }

  function Handle(b: State, m: Msg): State {
    match m
    case New(c) => Register(b, c)
    case Closing(c) => Unregister(b, c)
    case Notify(id, text) => FanOut(b, id, text)
  }

  /** A closer that starts to run looks its channel up in the registry of that moment. */
  function Act(b: State, a: Action): State
    requires Enabled(b, a)
  {
    match a
    case Receive(m) => Handle(b, m)
    case RunCloser(g) =>
      b.(closers := b.closers[g := Waiting(b.closers[g].id, b.closeC[b.closers[g].id])])
    case Signal(g) => b.(closers := b.closers[g := Finished(b.closers[g].id)], loop := Receiving)
  }

  // The invariant

  function ClientsOf(clients: set<Client>, id: string): set<Client> { set c | c in clients && c.id == id }

  predicate Live(b: State, g: nat) { g in b.closers && !b.closers[g].Finished? }

  /** id has a tailer: it has clients, or the loop is just signalling its closer. */
  predicate Tailed(b: State, id: string) { CountOf(b, id) > 0 || (b.loop.Signalling? && b.loop.id == id) }

  ghost predicate CountsOk(b: State) { forall id :: CountOf(b, id) == |ClientsOf(b.clients, id)| }

  /** The tailers that are not yet signalled: the current generation of each tailed ID and no others. */
  predicate CloserOk(b: State, g: nat) {
    Live(b, g) ==>
      && Tailed(b, b.closers[g].id) && b.closers[g].id in b.closeC && b.closeC[b.closers[g].id] == g
      && (b.closers[g].Waiting? ==> b.closers[g].ch == g)
  }

  predicate TailerOk(b: State, id: string) {
    Tailed(b, id) ==> id in b.closeC && Live(b, b.closeC[id]) && b.closers[b.closeC[id]].id == id
  }

  ghost predicate TailersOk(b: State) {
    && (forall g :: CloserOk(b, g))
    && (forall id :: TailerOk(b, id))
    && (forall g :: g in b.closers ==> g < b.made)
    && (b.loop.Signalling? ==> CountOf(b, b.loop.id) == 0 && b.loop.id in b.closeC && b.closeC[b.loop.id] == b.loop.ch)
  }

  ghost predicate RegistryOk(b: State) {
    && (forall c :: c in b.clients <==> Registered(b.log, c))
    && (forall c :: c in b.shut <==> Closing(c) in b.log)
  }

  // What a client should receive

  /** The texts of the events of c's ID that were received while c was registered, in order. */
  function Delivered(log: seq<Msg>, c: Client): seq<string> {
    if log == [] then [] else
    var before, m := log[..|log| - 1], log[|log| - 1];
    Delivered(before, c) + (if m.Notify? && m.id == c.id && Registered(before, c) then [m.text] else [])
  }

  ghost predicate DeliveryOk(b: State) { forall c :: SentTo(b, c) == Delivered(b.log, c) }

  ghost predicate Inv(b: State) {
    !b.panicked && CountsOk(b) && TailersOk(b) && RegistryOk(b) && DeliveryOk(b)
  }

  lemma InvStart()
    ensures Inv(START)
  {
    forall id ensures CountOf(START, id) == |ClientsOf(START.clients, id)| {
      assert ClientsOf({}, id) == {};
    }
  }

  lemma DeliveredNext(log: seq<Msg>, m: Msg, c: Client)
    ensures Delivered(log + [m], c) ==
            Delivered(log, c) + (if m.Notify? && m.id == c.id && Registered(log, c) then [m.text] else [])
  {
    assert (log + [m])[..|log|] == log;
  }

  lemma NothingSent(b: State, m: Msg, t: State)
    requires DeliveryOk(b) && !m.Notify? && t.sent == b.sent && t.log == b.log + [m]
    ensures DeliveryOk(t)
  {
    forall d ensures SentTo(t, d) == Delivered(t.log, d) {
      DeliveredNext(b.log, m, d);
      assert SentTo(b, d) == Delivered(b.log, d);
    }
  }

  lemma RegistryAfterNew(b: State, c: Client, t: State)
    requires RegistryOk(b) && Closing(c) !in b.log
    requires t.log == b.log + [New(c)] && t.clients == b.clients + {c} && t.shut == b.shut
    ensures RegistryOk(t)
  {
    forall d ensures d in t.clients <==> Registered(t.log, d) { assert d in b.clients <==> Registered(b.log, d); }
    forall d ensures d in t.shut <==> Closing(d) in t.log { assert d in b.shut <==> Closing(d) in b.log; }
  }

  lemma RegistryAfterClosing(b: State, c: Client, t: State)
    requires RegistryOk(b)
    requires t.log == b.log + [Closing(c)] && t.clients == b.clients - {c} && t.shut == b.shut + {c}
    ensures RegistryOk(t)
  {
    forall d ensures d in t.clients <==> Registered(t.log, d) { assert d in b.clients <==> Registered(b.log, d); }
    forall d ensures d in t.shut <==> Closing(d) in t.log { assert d in b.shut <==> Closing(d) in b.log; }
  }

  lemma OneMoreClient(clients: set<Client>, c: Client, id: string)
    requires c !in clients
    ensures |ClientsOf(clients + {c}, id)| == |ClientsOf(clients, id)| + (if id == c.id then 1 else 0)
  {
    if id == c.id {
      assert ClientsOf(clients + {c}, id) == ClientsOf(clients, id) + {c};
    } else {
      assert ClientsOf(clients + {c}, id) == ClientsOf(clients, id);
    }
  }

  lemma CountsAfterNew(b: State, c: Client, t: State)
    requires CountsOk(b) && c !in b.clients && t.clients == b.clients + {c}
    requires t.counts == b.counts[c.id := CountOf(b, c.id) + 1]
    ensures CountsOk(t)
  {
    forall id ensures CountOf(t, id) == |ClientsOf(t.clients, id)| {
      assert CountOf(b, id) == |ClientsOf(b.clients, id)|;
      OneMoreClient(b.clients, c, id);
    }
  }

  lemma CountsAfterClosing(b: State, c: Client, t: State)
    requires CountsOk(b) && c in b.clients && t.clients == b.clients - {c}
    requires t.counts == b.counts[c.id := CountOf(b, c.id) - 1]
    ensures CountsOk(t)
  {
    assert t.clients + {c} == b.clients;
    forall id ensures CountOf(t, id) == |ClientsOf(t.clients, id)| {
      assert CountOf(b, id) == |ClientsOf(b.clients, id)|;
      OneMoreClient(t.clients, c, id);
    }
  }

  lemma CountNotNegative(b: State, c: Client)
    requires CountsOk(b)
    ensures CountOf(b, c.id) >= 0 && (c in b.clients ==> CountOf(b, c.id) > 0)
  {
    assert CountOf(b, c.id) == |ClientsOf(b.clients, c.id)|;
    if c in b.clients { assert c in ClientsOf(b.clients, c.id); }
  }

  lemma InvRegister(b: State, c: Client)
    requires Inv(b) && Enabled(b, Receive(New(c)))
    ensures Inv(Register(b, c))
  {
    var t := Register(b, c);
    assert c in b.clients <==> Registered(b.log, c);
    CountNotNegative(b, c);
    CountsAfterNew(b, c, t);
    RegisterTailers(b, c, t);
    RegistryAfterNew(b, c, t);
    NothingSent(b, New(c), t);
  }

  lemma RegisterTailers(b: State, c: Client, t: State)
    requires TailersOk(b) && b.loop.Receiving? && t == Register(b, c)
    ensures TailersOk(t)
  {
    forall g ensures CloserOk(t, g) {
      assert CloserOk(b, g);
    }
    forall id ensures TailerOk(t, id) {
      assert TailerOk(b, id);
    }
  }

  lemma UnregisterTailers(b: State, c: Client, t: State)
    requires TailersOk(b) && b.loop.Receiving? && t == Unregister(b, c) && CountOf(b, c.id) > 0
    ensures TailersOk(t)
  {
    assert TailerOk(b, c.id);
    forall g ensures CloserOk(t, g) {
      assert CloserOk(b, g);
    }
    forall id ensures TailerOk(t, id) {
      assert TailerOk(b, id);
    }
  }

  lemma InvUnregister(b: State, c: Client)
    requires Inv(b) && Enabled(b, Receive(Closing(c)))
    ensures Inv(Unregister(b, c))
  {
    var t := Unregister(b, c);
    assert (c in b.clients <==> Registered(b.log, c)) && (c in b.shut <==> Closing(c) in b.log);
    CountNotNegative(b, c);
    CountsAfterClosing(b, c, t);
    UnregisterTailers(b, c, t);
    RegistryAfterClosing(b, c, t);
    NothingSent(b, Closing(c), t);
  }

  lemma SentAfterFanOut(b: State, id: string, text: string, c: Client)
    ensures SentTo(FanOut(b, id, text), c)
            == if c in b.clients && c.id == id then SentTo(b, c) + [text] else SentTo(b, c)
  {
  }

  lemma FanOutDelivers(b: State, id: string, text: string, t: State)
    requires RegistryOk(b) && DeliveryOk(b) && t == FanOut(b, id, text)
    ensures DeliveryOk(t)
  {
    forall d ensures SentTo(t, d) == Delivered(t.log, d) {
      SentAfterFanOut(b, id, text, d);
      DeliveredNext(b.log, Notify(id, text), d);
      assert SentTo(b, d) == Delivered(b.log, d);
      assert d in b.clients <==> Registered(b.log, d);
    }
  }

  lemma RegistryAfterNotify(b: State, m: Msg, t: State)
    requires RegistryOk(b) && m.Notify? && t.log == b.log + [m] && t.clients == b.clients && t.shut == b.shut
    ensures RegistryOk(t)
  {
    forall d ensures d in t.clients <==> Registered(t.log, d) { assert d in b.clients <==> Registered(b.log, d); }
    forall d ensures d in t.shut <==> Closing(d) in t.log { assert d in b.shut <==> Closing(d) in b.log; }
  }

  lemma RegisteredAreOpen(b: State, c: Client)
    requires RegistryOk(b) && c in b.clients
    ensures c !in b.shut
  {
    assert Registered(b.log, c);
  }

  lemma TailersUnchanged(b: State, t: State)
    requires CountsOk(b) && TailersOk(b)
    requires t.clients == b.clients && t.counts == b.counts && t.closeC == b.closeC && t.made == b.made
    requires t.closers == b.closers && t.loop == b.loop
    ensures CountsOk(t) && TailersOk(t)
  {
    forall i ensures CountOf(t, i) == |ClientsOf(t.clients, i)| { assert CountOf(b, i) == |ClientsOf(b.clients, i)|; }
    forall g ensures CloserOk(t, g) { assert CloserOk(b, g); }
    forall i ensures TailerOk(t, i) { assert TailerOk(b, i); }
  }

  lemma InvFanOut(b: State, id: string, text: string)
    requires Inv(b)
    ensures Inv(FanOut(b, id, text))
  {
    var t := FanOut(b, id, text);
    FanOutDelivers(b, id, text, t);
    RegistryAfterNotify(b, Notify(id, text), t);
    TailersUnchanged(b, t);
    forall c | c in b.clients ensures c !in b.shut { RegisteredAreOpen(b, c); }
  }

  /** The blocking signal: the only closer that can receive it is the one of the channel's own generation. */
  lemma SignalReachesOwnCloser(b: State, g: nat)
    requires Inv(b) && Enabled(b, Signal(g))
    ensures g == b.loop.ch && b.closers[g].id == b.loop.id
  {
    assert CloserOk(b, g) && TailerOk(b, b.loop.id);
  }

  lemma InvCloserStep(b: State, a: Action)
    requires Inv(b) && !a.Receive? && Enabled(b, a)
    ensures Inv(Act(b, a))
  {
    var t := Act(b, a);
    if a.Signal? { SignalReachesOwnCloser(b, a.g); }
    assert CloserOk(b, a.g);
    forall g ensures CloserOk(t, g) { assert CloserOk(b, g); }
    forall i ensures TailerOk(t, i) { assert TailerOk(b, i); }
    forall i ensures CountOf(t, i) == |ClientsOf(t.clients, i)| { assert CountOf(b, i) == |ClientsOf(b.clients, i)|; }
    forall d ensures SentTo(t, d) == Delivered(t.log, d) { assert SentTo(b, d) == Delivered(b.log, d); }
    assert RegistryOk(t);
  }

  lemma InvAct(b: State, a: Action)
    requires Inv(b) && Enabled(b, a)
    ensures Inv(Act(b, a))
  {
    if a.Receive? {
      match a.m
      case New(c) => InvRegister(b, c);
      case Closing(c) => InvUnregister(b, c);
      case Notify(id, text) => InvFanOut(b, id, text);
    } else {
      InvCloserStep(b, a);
    }
  }

  // Executions

  predicate LegalAll(b: State, acts: seq<Action>)
    decreases |acts|
  {
    acts == [] || (Enabled(b, acts[0]) && LegalAll(Act(b, acts[0]), acts[1..]))
  }

  function Exec(b: State, acts: seq<Action>): State
    requires LegalAll(b, acts)
    decreases |acts|
  {
    if acts == [] then b else Exec(Act(b, acts[0]), acts[1..])
  }

  lemma {:induction false} InvExec(b: State, acts: seq<Action>)
    requires Inv(b) && LegalAll(b, acts)
    ensures Inv(Exec(b, acts))
    decreases |acts|
  {
    if acts != [] {
      InvAct(b, acts[0]);
      InvExec(Act(b, acts[0]), acts[1..]);
    }
  }

  ghost predicate Reachable(b: State) { exists acts :: LegalAll(START, acts) && b == Exec(START, acts) }

  lemma InvReachable(b: State)
    requires Reachable(b)
    ensures Inv(b)
  {
    var acts :| LegalAll(START, acts) && b == Exec(START, acts);
    InvStart();
    InvExec(START, acts);
  }

  // What the broker guarantees

  /** After every event the count of an ID is the number of registered clients with that ID. While the loop is
      receiving, exactly one tailer is not yet signalled for an ID with clients, that of its current channel, and none
      for an ID without. */
  lemma Bookkeeping(b: State, id: string)
    requires Reachable(b)
    ensures CountOf(b, id) == |set c | c in b.clients && c.id == id|
    ensures forall g, h :: Live(b, g) && Live(b, h) && b.closers[g].id == id && b.closers[h].id == id ==> g == h
    ensures b.loop.Receiving? ==>
              (CountOf(b, id) > 0 <==> exists g :: Live(b, g) && b.closers[g].id == id)
    ensures CountOf(b, id) > 0 ==> id in b.closeC && Live(b, b.closeC[id]) && b.closers[b.closeC[id]].id == id
  {
    InvReachable(b);
    assert CountOf(b, id) == |ClientsOf(b.clients, id)| && TailerOk(b, id);
    assert ClientsOf(b.clients, id) == set c | c in b.clients && c.id == id;
    forall g | Live(b, g) && b.closers[g].id == id
      ensures Tailed(b, id) && id in b.closeC && g == b.closeC[id]
    {
      assert CloserOk(b, g);
    }
  }

  /** The signal for an ID goes to the closer of its own generation, never to that of another channel. */
  lemma SignalIsForOwnGeneration(b: State, g: nat)
    requires Reachable(b) && Enabled(b, Signal(g))
    ensures g == b.loop.ch && b.closers[g].id == b.loop.id
  {
    InvReachable(b);
    SignalReachesOwnCloser(b, g);
  }

  /** The event loop never stays blocked on a signal: the closer it waits for can start to run or receive. */
  lemma SignalGetsThrough(b: State)
    requires Reachable(b) && b.loop.Signalling?
    ensures Enabled(b, Signal(b.loop.ch)) || Enabled(b, RunCloser(b.loop.ch))
  {
    InvReachable(b);
    assert TailerOk(b, b.loop.id) && CloserOk(b, b.loop.ch);
  }

  /** Delivery refines filtering: what was sent to a client is, in order, the texts of the events with its ID that
      were received between its registration and its closing; and nothing is sent to or closed on a closed channel. */
  lemma DeliveryIsFiltering(b: State, c: Client)
    requires Reachable(b)
    ensures SentTo(b, c) == Delivered(b.log, c) && !b.panicked
    ensures c in b.clients <==> New(c) in b.log && Closing(c) !in b.log
    ensures c in b.shut <==> Closing(c) in b.log
  {
    InvReachable(b);
  }

  // The program

  class Broker {
    var b: State

    ghost predicate Valid()
      reads this
    {
      Reachable(b)
    }

    constructor ()
      ensures Valid() && b == START
    {
      b := START;
      new;
      assert LegalAll(START, []) && START == Exec(START, []);
    }

    method Do(a: Action)
      requires Valid() && Enabled(b, a)
      modifies this
      ensures Valid() && b == Act(old(b), a)
    {
      ghost var acts :| LegalAll(START, acts) && b == Exec(START, acts);
      ExecAppend(START, acts, a);
      b := Act(b, a);
    }

    /** What the loop does with an event: one client after the other, in any order. */
    method SendToAll(id: string, text: string) returns (sent: map<Client, seq<string>>)
      ensures sent == FanOut(b, id, text).sent
    {
      sent := b.sent;
      ghost var done := {};
      var rest := b.clients;
      assert Sending(b.sent, {}, text) == b.sent;
      while rest != {}
        invariant rest <= b.clients && done == ClientsOf(b.clients - rest, id)
        invariant sent == Sending(b.sent, done, text)
        decreases rest
      {
        var c :| c in rest;
        rest := rest - {c};
        if c.id == id {
          SendingOneMore(b.sent, done, c, text);
          sent, done := sent[c := (if c in sent then sent[c] else []) + [text]], done + {c};
        }
        assert done == ClientsOf(b.clients - rest, id);
      }
      assert b.clients - rest == b.clients;
    }

    /** Passing the signal to the closer, which may have to start to wait first. */
    method AwaitCloser()
      requires Valid() && b.loop.Signalling?
      modifies this
      ensures Valid() && b.loop.Receiving? && b.log == old(b.log) && b.sent == old(b.sent)
      ensures !Live(b, old(b.loop.ch))
    {
      SignalGetsThrough(b);
      var ch := b.loop.ch;
      if b.closers[ch].Starting? {
        Do(RunCloser(ch));
        SignalGetsThrough(b);
      }
      SignalIsForOwnGeneration(b, ch);
      Do(Signal(ch));
    }

    /** The event loop, on any input that keeps the clients' discipline. */
    method ListenForClients(input: seq<Msg>)
      requires Valid() && b == START && Disciplined(input)
      modifies this
      ensures Valid() && b.loop.Receiving? && b.log == input && !b.panicked
      ensures forall c :: SentTo(b, c) == Delivered(input, c)
      ensures forall c :: c in b.clients <==> Registered(input, c)
    {
      for i := 0 to |input|
        invariant Valid() && b.loop.Receiving? && b.log == input[..i]
      {
        assert Enabled(b, Receive(input[i])) by { DisciplinedAt(input, i); }
        assert input[..i + 1] == input[..i] + [input[i]];
        if input[i].Notify? {
          var sent := SendToAll(input[i].id, input[i].text);
          Do(Receive(input[i]));
          assert b.sent == sent;
        } else {
          Do(Receive(input[i]));
        }
        if b.loop.Signalling? { AwaitCloser(); }
      }
      assert input[..|input|] == input;
      InvReachable(b);
    }
  }

  lemma SendingOneMore(sent: map<Client, seq<string>>, to: set<Client>, c: Client, text: string)
    requires c !in to
    ensures Sending(sent, to + {c}, text) == Sending(sent, to, text)[c := Received(Sending(sent, to, text), c) + [text]]
  {
  }

  /** Each client registers at most once, and closes at most once and only after it has registered. */
  ghost predicate Disciplined(input: seq<Msg>) {
    forall i :: 0 <= i < |input| ==>
      match input[i]
      case New(c) => New(c) !in input[..i] && Closing(c) !in input[..i]
      case Closing(c) => Registered(input[..i], c)
      case Notify(_, _) => true
  }

  lemma DisciplinedAt(input: seq<Msg>, i: nat)
    requires Disciplined(input) && i < |input|
    ensures match input[i]
            case New(c) => New(c) !in input[..i] && Closing(c) !in input[..i]
            case Closing(c) => Registered(input[..i], c)
            case Notify(_, _) => true
  {
  }

  lemma {:induction false} ExecAppend(b: State, acts: seq<Action>, a: Action)
    requires LegalAll(b, acts) && Enabled(Exec(b, acts), a)
    ensures LegalAll(b, acts + [a]) && Exec(b, acts + [a]) == Act(Exec(b, acts), a)
    decreases |acts|
  {
    if acts == [] {
      assert [a][1..] == [] && acts + [a] == [a];
    } else {
      ExecAppend(Act(b, acts[0]), acts[1..], a);
      assert (acts + [a])[1..] == acts[1..] + [a];
    }
  }
}

/** The WebSocket hub and its clients: registration, subscriptions and bounded send queues
    (platform/internal/ws/manager.go). Every critical section of the source is one method; a
    subscription and an unsubscription have two, and anything may happen between them. */
module SubscriptionHub {
  import opened Text
  import opened ChannelIndex

  type Msg = string

  const CAPACITY := 256

  /** a is b with some elements left out. */
  predicate Subsequence(a: seq<Msg>, b: seq<Msg>)
    decreases |b|
  {
    if a == [] then true
    else if b == [] then false
    else
      || Subsequence(a, b[..|b| - 1])
      || (a[|a| - 1] == b[|b| - 1] && Subsequence(a[..|a| - 1], b[..|b| - 1]))
  }

  lemma SubsequenceGrows(a: seq<Msg>, b: seq<Msg>, m: Msg)
    requires Subsequence(a, b)
    ensures Subsequence(a, b + [m]) && Subsequence(a + [m], b + [m])
  {
    assert (b + [m])[..|b|] == b && (a + [m])[..|a|] == a;
  }

  /** What the queue holds after a non-blocking send. */
  function Enqueued(send: seq<Msg>, m: Msg): seq<Msg> {
    if |send| < CAPACITY then send + [m] else send
  }

  // ----- A queue over time -----

  datatype QueueStep = Offer(m: Msg) | Take

  datatype Queue = Queue(delivered: seq<Msg>, send: seq<Msg>)

  /** A sender offers a message, or the write pump takes one out. */
  function QueueNext(q: Queue, step: QueueStep): Queue {
    match step
    case Offer(m) => q.(send := Enqueued(q.send, m))
    case Take => if q.send == [] then q else Queue(q.delivered + [q.send[0]], q.send[1..])
  }

  function QueueAfter(steps: seq<QueueStep>): Queue {
    if steps == [] then Queue([], []) else QueueNext(QueueAfter(steps[..|steps| - 1]), steps[|steps| - 1])
  }

  /** The messages that found fewer than 256 waiting when they were offered. */
  function Admitted(steps: seq<QueueStep>): seq<Msg> {
    if steps == [] then []
    else
      var init, last := steps[..|steps| - 1], steps[|steps| - 1];
      Admitted(init) + (if last.Offer? && |QueueAfter(init).send| < 256 then [last.m] else [])
  }

  /** Nothing else is lost, and nothing is reordered or repeated: what was delivered and what still waits
      are together exactly the admitted messages, and at most 256 wait. */
  lemma {:induction false} QueueConserves(steps: seq<QueueStep>)
    ensures var q := QueueAfter(steps); q.delivered + q.send == Admitted(steps) && |q.send| <= 256
  {
    if steps != [] {
      var init, last := steps[..|steps| - 1], steps[|steps| - 1];
      var q := QueueAfter(init);
      QueueConserves(init);
      if last.Offer? && |q.send| < 256 {
        assert q.delivered + (q.send + [last.m]) == q.delivered + q.send + [last.m];
      } else if last.Take? && q.send != [] {
        assert q.delivered + [q.send[0]] + q.send[1..] == q.delivered + q.send;
      }
    }
  }

  class Client {
    var subs: set<string>        // subscribed channels
    var send: seq<Msg>           // the buffered channel to the write pump
    var closes: nat              // how often that channel was closed
    var reading: bool            // the reader goroutine is alive
    var half: Option<Half>       // the critical section it is about to enter, if any
    ghost var delivered: seq<Msg>  // what the write pump has taken out
    ghost var offered: seq<Msg>    // what was broadcast to this client

    constructor ()
      ensures subs == {} && send == [] && closes == 0 && reading && half == None && delivered == [] && offered == []
      ensures QueueOk()
    {
      subs, send, closes, reading, half, delivered, offered := {}, [], 0, true, None, [], [];
    }

    /** At most 256 messages wait, and everything delivered or waiting was broadcast, in order. */
    ghost predicate QueueOk()
      reads this`send, this`delivered, this`offered
    {
      |send| <= CAPACITY && Subsequence(delivered + send, offered)
    }

    /** `select { case client.send <- data: default: }`. Sending on a closed channel panics. */
    method TrySend(m: Msg) returns (ok: bool)
      requires closes == 0 && QueueOk()
      modifies this`send, this`offered
      ensures QueueOk() && offered == old(offered) + [m] && send == Enqueued(old(send), m)
      ensures ok == (|old(send)| < 256)
    {
      SubsequenceGrows(delivered + send, offered, m);
      ok := |send| < CAPACITY;
      if ok {
        assert delivered + (send + [m]) == delivered + send + [m];
        send := send + [m];
      }
      offered := offered + [m];
    }

    /** One turn of the write pump; a closed channel is drained before the pump ends. */
    method Pump() returns (m: Option<Msg>)
      requires QueueOk()
      modifies this`send, this`delivered
      ensures QueueOk() && delivered + send == old(delivered + send)
      ensures old(send) == [] ==> m == None && send == []
      ensures old(send) != [] ==> m == Some(old(send)[0]) && send == old(send)[1..]
    {
      m := None;
      if |send| > 0 {
        m := Some(send[0]);
        assert delivered + [send[0]] + send[1..] == delivered + send;
        delivered, send := delivered + [send[0]], send[1..];
      }
    }
  }

  ghost function SubsOf(clients: set<Client>): map<Client, set<string>>
    reads clients`subs
  {
    map c | c in clients :: c.subs
  }

  ghost function DroppedOf(clients: set<Client>): set<Client>
    reads clients`closes
  {
    set c | c in clients && Closed(c)
  }

  ghost function HalvesOf(clients: set<Client>): map<Client, Half>
    reads clients`half
  {
    map c | c in clients && c.half.Some? :: c.half.value
  }

  lemma SubsKnown(clients: set<Client>)
    ensures SubsOf(clients).Keys == clients && forall c | c in clients :: SubsOf(clients)[c] == c.subs
  {
  }

  lemma OneMoreClient(clients: set<Client>, c: Client)
    requires c !in clients
    ensures SubsOf(clients).Keys == clients && SubsOf(clients + {c}) == SubsOf(clients)[c := c.subs]
    ensures c.half.None? ==> HalvesOf(clients + {c}) == HalvesOf(clients)
    ensures c.closes == 0 ==> DroppedOf(clients + {c}) == DroppedOf(clients)
  {
  }

  /** The client was offered the message. */
  twostate predicate Got(c: Client, m: Msg)
    reads c`send, c`offered
  {
    c.offered == old(c.offered) + [m] && c.send == Enqueued(old(c.send), m)
  }

  twostate predicate Passed(c: Client)
    reads c`send, c`offered
  {
    c.offered == old(c.offered) && c.send == old(c.send)
  }

  predicate Closed(c: Client)
    reads c`closes
  {
    c.closes > 0
  }

  function Full(targets: set<Client>): set<Client>
    reads targets`send
  {
    set c | c in targets && |c.send| >= CAPACITY
  }

  /** The loop of both broadcasts: a non-blocking send to each target, in any order. A target whose
      queue is closed makes the program panic there, with some of the others served. */
  method SendAll(targets: set<Client>, m: Msg) returns (full: set<Client>, panicked: bool)
    requires forall c | c in targets :: c.QueueOk()
    modifies targets`send, targets`offered
    ensures panicked <==> exists c :: c in targets && Closed(c)
    ensures forall c | c in targets :: c.QueueOk() && (Got(c, m) || (panicked && Passed(c)))
    ensures full <= targets && (!panicked ==> full == old(Full(targets)))
  {
    hide Subsequence, Enqueued;
    var todo := targets;
    full, panicked := {}, false;
    while todo != {}
      invariant todo <= targets
      invariant forall c | c in targets :: c.QueueOk() && if c in todo then Passed(c) else Got(c, m) && !Closed(c)
      invariant full <= targets - todo && forall c | c in targets - todo :: c in full <==> |old(c.send)| >= CAPACITY
      decreases |todo|
    {
      var client :| client in todo;
      if client.closes > 0 {
        assert Closed(client);
        panicked := true;
        return;
      }
      var ok := client.TrySend(m);
      if !ok {
        full := full + {client};
      }
      todo := todo - {client};
    }
  }

  class Hub {
    var clients: set<Client>
    var channels: map<string, set<Client>>
    var arriving: set<Client>        // clients handed over and not yet registered
    var pending: multiset<Client>    // unregister requests still to be received
    ghost var known: set<Client>     // every client that ever connected

    ghost function View(): Index<Client>
      reads this`clients, this`channels, this`known, known`closes, known`subs, known`half
    {
      Index(clients, DroppedOf(known), channels, SubsOf(known), HalvesOf(known))
    }

    /** No queue was closed more than once, none of a registered client, and every queue is in order.
        Whether the index is exact depends on the run: see AlwaysExact and SafeIffNeverSpoiled. */
    ghost predicate Valid()
      reads this, known`send, known`delivered, known`offered, known`closes
    {
      && clients <= known && arriving <= known && arriving !! clients && (forall c | c in pending :: c in known)
      && ListenersKnown() && QueuesOk() && ClosedOnce()
    }

    ghost predicate ListenersKnown()
      reads this`channels, this`known
    {
      forall ch | ch in channels :: channels[ch] <= known
    }

    ghost predicate QueuesOk()
      reads this`known, known`send, known`delivered, known`offered
    {
      forall c | c in known :: c.QueueOk()
    }

    ghost predicate ClosedOnce()
      reads this`known, this`clients, this`arriving, known`closes
    {
      forall c | c in known :: c.closes <= if c in clients + arriving then 0 else 1
    }

    constructor ()
      ensures Valid() && View() == After([]) && pending == multiset{}
    {
      clients, arriving, channels, pending, known := {}, {}, map[], multiset{}, {};
    }

    /** A new connection: the client is made and handed to the hub, and its reader starts. */
    method Connect() returns (c: Client)
      requires Valid()
      modifies this`arriving, this`known
      ensures Valid() && fresh(c) && known == old(known) + {c} && arriving == old(arriving) + {c}
      ensures View() == Arrive(old(View()), c)
    {
      hide Subsequence, QueuesOk, ClosedOnce;
      c := new Client();
      assert View() == old(View());
      HandOver(c);
    }

    method HandOver(c: Client)
      requires Valid() && c !in known
      requires c.QueueOk() && c.closes == 0 && c.subs == {} && c.half.None?
      modifies this`arriving, this`known
      ensures Valid() && known == old(known) + {c} && arriving == old(arriving) + {c}
      ensures View() == Arrive(old(View()), c)
    {
      hide SubsOf, HalvesOf, DroppedOf, Client.QueueOk;
      OneMoreClient(known, c);
      arriving, known := arriving + {c}, known + {c};
    }

    /** The `register` case. */
    method ReceiveRegister(c: Client)
      requires Valid() && c in arriving
      modifies this`clients, this`arriving
      ensures Valid() && arriving == old(arriving) - {c}
      ensures View() == Register(old(View()), c)
    {
      hide Client.QueueOk;
      clients, arriving := clients + {c}, arriving - {c};
    }

    /** The deferred request of a reader that ends. */
    method ReaderEnds(c: Client)
      requires Valid() && c in known && c.reading && c.half.None?
      modifies this`pending, c`reading
      ensures Valid() && View() == old(View())
      ensures !c.reading && pending == old(pending) + multiset{c}
    {
      hide View, QueuesOk, ClosedOnce, ListenersKnown;
      c.reading := false;
      pending := pending + multiset{c};
    }

    /** The `unregister` case: of the requests for a client only the first has an effect. */
    method ReceiveUnregister(c: Client)
      requires Valid() && c in pending
      modifies this`clients, this`channels, this`pending, c`closes
      ensures Valid() && View() == Unregister(old(View()), c)
      ensures c.closes == (if c in old(clients) then 1 else old(c.closes)) <= 1
      ensures pending == old(pending) - multiset{c}
    {
      hide View, ListenersKnown, QueuesOk, ClosedOnce;
      RegisteredAreKnown(this);
      pending := pending - multiset{c};
      if c in clients {
        Drop(c);
      } else {
        NotThere(View(), c);
      }
    }

    /** The body of that case for a client still registered. */
    method Drop(c: Client)
      requires Valid() && c in clients
      modifies this`clients, this`channels, c`closes
      ensures Valid() && View() == Unregister(old(View()), c) && c.closes == 1
    {
      hide ChannelIndex.Unregister, QueuesOk, Client.QueueOk, SubsOf, HalvesOf;
      ghost var before := View();
      SubsKnown(known);
      clients := clients - {c};
      c.closes := c.closes + 1;
      assert DroppedOf(known) == before.dropped + {c};
      RemoveFromChannels(c);
      UnregisterIs(before, View(), c);
    }

    /** The loop over the client's own subscriptions. */
    method RemoveFromChannels(c: Client)
      modifies this`channels
      ensures channels == Without(old(channels), c.subs, c)
    {
      var todo := c.subs;
      Untouched(channels, c);
      while todo != {}
        invariant todo <= c.subs
        invariant channels == Without(old(channels), c.subs - todo, c)
        decreases |todo|
      {
        var ch :| ch in todo;
        WithoutBoth(old(channels), c.subs - todo, ch, c);
        assert c.subs - todo + {ch} == c.subs - (todo - {ch});
        RemoveListener(ch, c);
        todo := todo - {ch};
      }
      assert c.subs - todo == c.subs;
    }

    /** The `broadcast` case: a listener whose buffer is full gets an unregister request instead. It
        panics exactly when a listener has been dropped. */
    method ReceiveBroadcast(ch: string, m: Msg) returns (panicked: bool)
      requires Valid()
      modifies this`pending, Listeners(channels, ch)`send, Listeners(channels, ch)`offered
      ensures Valid() && View() == old(View())
      ensures panicked <==> !(Listeners(channels, ch) !! View().dropped)
      ensures forall c | c in known :: if c in Listeners(channels, ch) then Got(c, m) || panicked else Passed(c)
      ensures !panicked ==> pending == old(pending) + multiset(old(Full(Listeners(channels, ch))))
    {
      hide View, Client.QueueOk, Got, Enqueued, ClosedOnce, Closed, Full;
      DroppedAreClosed(this, Listeners(channels, ch));
      hide ListenersKnown;
      var full;
      full, panicked := SendAll(if ch in channels then channels[ch] else {}, m);
      if !panicked {
        pending := pending + multiset(full);
      }
    }

    /** A full queue loses the message; registered clients have open queues, so nothing panics. */
    method BroadcastToAll(m: Msg)
      requires Valid()
      modifies clients`send, clients`offered
      ensures Valid() && View() == old(View())
      ensures forall c | c in known :: if c in clients then Got(c, m) else Passed(c)
    {
      hide View, Client.QueueOk, Got, Enqueued, ClosedOnce, Closed, Full;
      RegisteredAreOpen(this);
      var _, panicked := SendAll(clients, m);
    }

    /** The part of `subscribe` under the client's lock. */
    method BeginSubscribe(c: Client, ch: string)
      requires Valid() && c in known && c.reading && c.half.None?
      modifies c`subs, c`half
      ensures Valid() && View() == ChannelIndex.BeginSubscribe(old(View()), c, ch)
    {
      hide Split, QueuesOk, ClosedOnce, ListenersKnown;
      ghost var before := View();
      EmptyChannelInvalid();
      if ch == "" || !IsValidChannel(ch) {
        return;
      }
      c.subs := c.subs + {ch};
      c.half := Some(AddTo(ch));
      assert View().subs == before.subs[c := before.subs[c] + {ch}];
      assert View().halves == before.halves[c := AddTo(ch)];
    }

    /** The part of `unsubscribe` under the client's lock. */
    method BeginUnsubscribe(c: Client, ch: string)
      requires Valid() && c in known && c.reading && c.half.None?
      modifies c`subs, c`half
      ensures Valid() && View() == ChannelIndex.BeginUnsubscribe(old(View()), c, ch)
    {
      hide QueuesOk, ClosedOnce, ListenersKnown;
      ghost var before := View();
      c.subs := c.subs - {ch};
      c.half := Some(RemoveFrom(ch));
      assert View().subs == before.subs[c := before.subs[c] - {ch}];
      assert View().halves == before.halves[c := RemoveFrom(ch)];
    }

    /** The part of `subscribe` under the hub's lock. */
    method EndSubscribe(c: Client)
      requires Valid() && c in known && c.half.Some? && c.half.value.AddTo?
      modifies this`channels, c`half
      ensures Valid() && View() == Finish(old(View()), c)
    {
      hide QueuesOk, ClosedOnce;
      ghost var before := View();
      AddListener(c.half.value.ch, c);
      c.half := None;
      assert View().subs == before.subs && View().halves == before.halves - {c};
    }

    method AddListener(ch: string, c: Client)
      modifies this`channels
      ensures channels == old(channels)[ch := Listeners(old(channels), ch) + {c}]
    {
      if ch !in channels {
        channels := channels[ch := {}];
      }
      channels := channels[ch := channels[ch] + {c}];
    }

    /** The part of `unsubscribe` under the hub's lock. */
    method EndUnsubscribe(c: Client)
      requires Valid() && c in known && c.half.Some? && c.half.value.RemoveFrom?
      modifies this`channels, c`half
      ensures Valid() && View() == Finish(old(View()), c)
    {
      hide QueuesOk, ClosedOnce;
      ghost var before := View();
      RemoveListener(c.half.value.ch, c);
      c.half := None;
      assert View().subs == before.subs && View().halves == before.halves - {c};
    }

    /** Takes a client off one channel and deletes the channel if that was its last listener. */
    method RemoveListener(ch: string, c: Client)
      modifies this`channels
      ensures channels == Without(old(channels), {ch}, c)
    {
      Untouched(channels, c);
      OneMoreChannel(channels, {}, ch, c);
      assert {} + {ch} == {ch};
      if ch in channels {
        var subscribers := channels[ch] - {c};
        if subscribers == {} {
          channels := channels - {ch};
        } else {
          channels := channels[ch := subscribers];
        }
      }
    }
  }

  lemma DroppedAreClosed(h: Hub, s: set<Client>)
    requires s <= h.known
    ensures (exists c :: c in s && Closed(c)) <==> !(s !! h.View().dropped)
  {
    if c :| c in s && Closed(c) {
      assert c in h.View().dropped;
    }
  }

  lemma RegisteredAreKnown(h: Hub)
    requires h.Valid()
    ensures h.View().clients == h.clients && forall c | c in h.clients :: c in h.known && c.closes == 0
    ensures forall c | c in h.pending :: c.closes <= 1
  {
  }

  lemma RegisteredAreOpen(h: Hub)
    requires h.Valid()
    ensures !exists c :: c in h.clients && Closed(c)
  {
  }

  lemma Untouched<C>(channels: map<string, set<C>>, c: C)
    ensures Without(channels, {}, c) == channels
  {
  }

  lemma OneMoreChannel<C>(channels: map<string, set<C>>, done: set<string>, ch: string, c: C)
    ensures var now := Without(channels, done, c);
      Without(channels, done + {ch}, c)
      == if ch !in now then now
         else if now[ch] - {c} == {} then now - {ch} else now[ch := now[ch] - {c}]
  {
    var now, next := Without(channels, done, c), Without(channels, done + {ch}, c);
    assert forall k | k != ch :: (k in next <==> k in now) && (k in now ==> next[k] == now[k]);
    if ch !in now {
      assert next.Keys == now.Keys;
    } else {
      assert now[ch] - {c} == channels[ch] - {c};
      if channels[ch] - {c} == {} {
        assert ch !in next && next.Keys == now.Keys - {ch};
        assert next == now - {ch};
      } else {
        assert next.Keys == now.Keys;
        assert next == now[ch := now[ch] - {c}];
      }
    }
  }

  lemma WithoutBoth<C>(channels: map<string, set<C>>, done: set<string>, ch: string, c: C)
    ensures Without(Without(channels, done, c), {ch}, c) == Without(channels, done + {ch}, c)
  {
    OneMoreChannel(channels, done, ch, c);
    OneMoreChannel(Without(channels, done, c), {}, ch, c);
    Untouched(Without(channels, done, c), c);
    assert {} + {ch} == {ch};
  }

  lemma EmptyChannelInvalid()
    ensures !IsValidChannel("")
  {
    assert Split("", ':') == [""];
  }

  lemma UnregisterIs<C>(x: Index<C>, y: Index<C>, c: C)
    requires c in x.clients && c in x.subs
    requires y.clients == x.clients - {c} && y.dropped == x.dropped + {c} && y.subs == x.subs && y.halves == x.halves
    requires y.channels == Without(x.channels, x.subs[c], c)
    ensures y == Unregister(x, c)
  {
  }

  lemma NotThere<C>(x: Index<C>, c: C)
    requires c !in x.clients
    ensures Unregister(x, c) == x
  {
  }
}

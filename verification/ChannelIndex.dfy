/** The hub's two-way index between clients and channels (platform/internal/ws/manager.go), on
    values: which clients are registered and which were dropped, who listens on each channel, and
    what every client ever connected has subscribed to. */
module ChannelIndex {
  import opened Text

  /** `lab:{uuid}`, `lab:{uuid}:logs`, `shell:{id}`, `status` and the like. */
  predicate IsValidChannel(ch: string) {
    var parts := Split(ch, ':');
    |parts| <= 3 && parts[0] in {"lab", "shell", "status"}
  }

  /** What a client's reader still has to do in its second critical section: `subscribe` and
      `unsubscribe` first change the client's own `subs` and then, under the hub's lock, `channels`. */
  datatype Half = AddTo(ch: string) | RemoveFrom(ch: string)

  datatype Index<!C(==)> = Index(clients: set<C>, dropped: set<C>, channels: map<string, set<C>>,
                                 subs: map<C, set<string>>, halves: map<C, Half>)

  function Listeners<C>(channels: map<string, set<C>>, ch: string): set<C> {
    if ch in channels then channels[ch] else {}
  }

  /** Takes a client off some channels; a channel left without listeners is deleted. */
  function Without<C>(channels: map<string, set<C>>, chs: set<string>, c: C): map<string, set<C>> {
    map ch | ch in channels && (ch in chs ==> channels[ch] - {c} != {}) ::
      if ch in chs then channels[ch] - {c} else channels[ch]
  }

  /** A new client; its reader need not wait until the hub has registered it. */
  function Arrive<C>(x: Index<C>, c: C): Index<C> {
    if c in x.subs then x else x.(subs := x.subs[c := {}])
  }

  function Register<C>(x: Index<C>, c: C): Index<C> {
    if c !in x.subs || c in x.dropped then x else x.(clients := x.clients + {c})
  }

  /** Repeated requests find the client gone and do nothing. Its own `subs` are kept. */
  function Unregister<C>(x: Index<C>, c: C): Index<C> {
    if c !in x.clients || c !in x.subs then x
    else x.(clients := x.clients - {c}, dropped := x.dropped + {c}, channels := Without(x.channels, x.subs[c], c))
  }

  /** The first half of a subscription. One reader handles a client's messages, so it starts none
      while another is half done. */
  function BeginSubscribe<C>(x: Index<C>, c: C, ch: string): Index<C> {
    if c !in x.subs || c in x.halves || !IsValidChannel(ch) then x
    else x.(subs := x.subs[c := x.subs[c] + {ch}], halves := x.halves[c := AddTo(ch)])
  }

  function BeginUnsubscribe<C>(x: Index<C>, c: C, ch: string): Index<C> {
    if c !in x.subs || c in x.halves then x
    else x.(subs := x.subs[c := x.subs[c] - {ch}], halves := x.halves[c := RemoveFrom(ch)])
  }

  /** The second half of either. Nothing here asks whether the client has been dropped. */
  function Finish<C>(x: Index<C>, c: C): Index<C> {
    if c !in x.halves then x
    else
      var channels := match x.halves[c]
        case AddTo(ch) => x.channels[ch := Listeners(x.channels, ch) + {c}]
        case RemoveFrom(ch) => Without(x.channels, {ch}, c);
      x.(channels := channels, halves := x.halves - {c})
  }

  /** The clients with an open queue: registered, or about to be. */
  ghost function Live<C>(x: Index<C>): set<C> {
    x.subs.Keys - x.dropped
  }

  /** No listener has been dropped: a broadcast that meets a closed queue panics. */
  ghost predicate Safe<C>(x: Index<C>) {
    forall ch | ch in x.channels :: x.channels[ch] <= Live(x)
  }

  /** The pair a client's reader is in the middle of changing. */
  ghost predicate HalfDone<C>(x: Index<C>, c: C, ch: string) {
    c in x.halves && x.halves[c].ch == ch
  }

  /** Every listener is live, no channel is empty, and for a live client the two directions of the
      index agree on every pair that is not half done; of a half-done pair the client's side is up
      to date. */
  ghost predicate Exact<C>(x: Index<C>) {
    && x.clients <= Live(x) && x.halves.Keys <= x.subs.Keys
    && Safe(x)
    && (forall ch | ch in x.channels :: x.channels[ch] != {})
    && Inverse(x)
  }

  ghost predicate Inverse<C>(x: Index<C>) {
    && (forall c, ch | c in Live(x) && ch in x.subs[c] && !HalfDone(x, c, ch) :: c in Listeners(x.channels, ch))
    && (forall c, ch | c in Live(x) && c in Listeners(x.channels, ch) && !HalfDone(x, c, ch) :: ch in x.subs[c])
    && (forall c | c in Live(x) && c in x.halves :: x.halves[c].AddTo? <==> x.halves[c].ch in x.subs[c])
  }

  /** A live client whose reader is between messages listens to exactly what it subscribed to. */
  lemma ListensToItsSubs<C>(x: Index<C>, c: C, ch: string)
    requires Exact(x) && c in Live(x) && c !in x.halves
    ensures c in Listeners(x.channels, ch) <==> ch in x.subs[c]
  {
  }

  /** While no registration is under way every listener is registered. */
  lemma ListenersRegistered<C>(x: Index<C>, ch: string)
    requires Exact(x) && Live(x) <= x.clients
    ensures Listeners(x.channels, ch) <= x.clients
  {
  }

  // ----- What each operation keeps -----

  lemma ListenersWithout<C>(channels: map<string, set<C>>, chs: set<string>, c: C, ch: string)
    ensures Listeners(Without(channels, chs, c), ch)
         == if ch in chs then Listeners(channels, ch) - {c} else Listeners(channels, ch)
  {
  }

  lemma ArriveKeeps<C>(x: Index<C>, c: C)
    requires Exact(x)
    ensures Exact(Arrive(x, c))
  {
    hide Without;
    var y := Arrive(x, c);
    if c !in x.subs {
      assert Live(y) == Live(x) + {c} || c in x.dropped;
    }
  }

  lemma RegisterKeeps<C>(x: Index<C>, c: C)
    requires Exact(x)
    ensures Exact(Register(x, c)) && Live(Register(x, c)) == Live(x)
  {
  }

  /** The hub drops a client that is half way out of a channel it still listens to. */
  ghost predicate DropsHalfOut<C>(x: Index<C>, c: C) {
    && c in x.clients && c in x.halves && x.halves[c].RemoveFrom?
    && c in Listeners(x.channels, x.halves[c].ch)
  }

  /** Dropping a client keeps the index exact, and otherwise leaves a closed client on a channel,
      where no subscription of its own leads to it. */
  lemma UnregisterKeepsIff<C>(x: Index<C>, c: C)
    requires Exact(x)
    ensures Unregister(Unregister(x, c), c) == Unregister(x, c) && c !in Unregister(x, c).clients
    ensures if DropsHalfOut(x, c) then !Safe(Unregister(x, c)) else Exact(Unregister(x, c))
  {
    if c in x.clients {
      var y := Unregister(x, c);
      forall ch
        ensures Listeners(y.channels, ch)
             == if ch in x.subs[c] then Listeners(x.channels, ch) - {c} else Listeners(x.channels, ch)
      {
        ListenersWithout(x.channels, x.subs[c], c, ch);
      }
      if DropsHalfOut(x, c) {
        assert c in y.channels[x.halves[c].ch];
      } else {
        forall ch | ch in y.channels
          ensures y.channels[ch] != {} && y.channels[ch] <= Live(y)
        {
          assert y.channels[ch] == Listeners(y.channels, ch) && x.channels[ch] == Listeners(x.channels, ch);
        }
      }
    }
  }

  lemma BeginSubscribeKeeps<C>(x: Index<C>, c: C, ch: string)
    requires Exact(x)
    ensures Exact(BeginSubscribe(x, c, ch))
  {
    hide IsValidChannel;
  }

  lemma BeginUnsubscribeKeeps<C>(x: Index<C>, c: C, ch: string)
    requires Exact(x)
    ensures Exact(BeginUnsubscribe(x, c, ch))
  {
  }

  /** The client subscribed, was dropped, and now goes onto the channel. */
  ghost predicate AddsDropped<C>(x: Index<C>, c: C) {
    c in x.halves && x.halves[c].AddTo? && c in x.dropped
  }

  lemma FinishKeepsIff<C>(x: Index<C>, c: C)
    requires Exact(x)
    ensures if AddsDropped(x, c) then !Safe(Finish(x, c)) else Exact(Finish(x, c))
  {
    hide Exact, Safe, Finish;
    if c !in x.halves {
      NothingToFinish(x, c);
    } else if x.halves[c].AddTo? {
      FinishAdding(x, c);
    } else {
      FinishRemoving(x, c);
    }
  }

  lemma NothingToFinish<C>(x: Index<C>, c: C)
    requires c !in x.halves
    ensures Finish(x, c) == x
  {
  }

  lemma FinishAdding<C>(x: Index<C>, c: C)
    requires Exact(x) && c in x.halves && x.halves[c].AddTo?
    ensures if c in x.dropped then !Safe(Finish(x, c)) else Exact(Finish(x, c))
  {
    hide Inverse;
    var y, ch := Finish(x, c), x.halves[c].ch;
    assert c in y.channels[ch];
    assert forall k | k in y.channels && k != ch :: y.channels[k] == x.channels[k];
    AddedInverse(x, c);
  }

  lemma AddedInverse<C>(x: Index<C>, c: C)
    requires Exact(x) && c in x.halves && x.halves[c].AddTo?
    ensures Inverse(Finish(x, c))
  {
    hide Safe;
    var y, ch := Finish(x, c), x.halves[c].ch;
    assert forall k | k != ch :: Listeners(y.channels, k) == Listeners(x.channels, k);
    assert Listeners(y.channels, ch) == Listeners(x.channels, ch) + {c};
  }

  lemma FinishRemoving<C>(x: Index<C>, c: C)
    requires Exact(x) && c in x.halves && x.halves[c].RemoveFrom?
    ensures Exact(Finish(x, c))
  {
    hide Without, Inverse;
    var y := Finish(x, c);
    RemovedInverse(x, c);
    NoneLeftEmpty(x.channels, {x.halves[c].ch}, c);
    assert forall ch | ch in y.channels :: ch in x.channels && y.channels[ch] <= x.channels[ch] <= Live(x);
  }

  lemma RemovedInverse<C>(x: Index<C>, c: C)
    requires Exact(x) && c in x.halves && x.halves[c].RemoveFrom?
    ensures Inverse(Finish(x, c))
  {
    hide Without, Safe;
    var y, ch := Finish(x, c), x.halves[c].ch;
    forall k
      ensures Listeners(y.channels, k)
           == if k == ch then Listeners(x.channels, k) - {c} else Listeners(x.channels, k)
    {
      ListenersWithout(x.channels, {ch}, c, k);
    }
  }

  lemma NoneLeftEmpty<C>(channels: map<string, set<C>>, chs: set<string>, c: C)
    requires forall ch | ch in channels :: channels[ch] != {}
    ensures forall ch | ch in Without(channels, chs, c) ::
              ch in channels && Without(channels, chs, c)[ch] == Listeners(Without(channels, chs, c), ch) != {}
              && Without(channels, chs, c)[ch] <= channels[ch]
  {
  }

  // ----- Runs -----

  datatype Op<!C> =
    | Arrives(c: C)
    | Registers(c: C)
    | Unregisters(c: C)
    | BeginsSubscribe(c: C, ch: string)
    | BeginsUnsubscribe(c: C, ch: string)
    | Finishes(c: C)

  function Next<C>(x: Index<C>, op: Op<C>): Index<C> {
    match op
    case Arrives(c) => Arrive(x, c)
    case Registers(c) => Register(x, c)
    case Unregisters(c) => Unregister(x, c)
    case BeginsSubscribe(c, ch) => BeginSubscribe(x, c, ch)
    case BeginsUnsubscribe(c, ch) => BeginUnsubscribe(x, c, ch)
    case Finishes(c) => Finish(x, c)
  }

  function After<C>(ops: seq<Op<C>>): Index<C> {
    if ops == [] then Index({}, {}, map[], map[], map[]) else Next(After(ops[..|ops| - 1]), ops[|ops| - 1])
  }

  /** The hub drops a client between the two halves of an unsubscription, or a subscription is
      completed after the drop. */
  ghost predicate Spoils<C>(x: Index<C>, op: Op<C>) {
    (op.Unregisters? && DropsHalfOut(x, op.c)) || (op.Finishes? && AddsDropped(x, op.c))
  }

  lemma NextKeepsIff<C>(x: Index<C>, op: Op<C>)
    requires Exact(x)
    ensures if Spoils(x, op) then !Safe(Next(x, op)) else Exact(Next(x, op))
  {
    hide Exact, Safe, Live, BeginSubscribe, BeginUnsubscribe, Finish, Arrive, Register, Unregister, DropsHalfOut,
         AddsDropped;
    match op
    case Arrives(c) => ArriveKeeps(x, c);
    case Registers(c) => RegisterKeeps(x, c);
    case Unregisters(c) => UnregisterKeepsIff(x, c);
    case BeginsSubscribe(c, ch) => BeginSubscribeKeeps(x, c, ch);
    case BeginsUnsubscribe(c, ch) => BeginUnsubscribeKeeps(x, c, ch);
    case Finishes(c) => FinishKeepsIff(x, c);
  }

  ghost predicate NeverSpoiled<C>(ops: seq<Op<C>>) {
    forall i | 0 <= i < |ops| :: !Spoils(After(ops[..i]), ops[i])
  }

  ghost predicate AlwaysSafe<C>(ops: seq<Op<C>>) {
    forall i | 0 <= i <= |ops| :: Safe(After(ops[..i]))
  }

  lemma NeverSpoiledBefore<C>(ops: seq<Op<C>>)
    requires ops != []
    ensures var init := ops[..|ops| - 1];
      NeverSpoiled(ops) <==> NeverSpoiled(init) && !Spoils(After(init), ops[|ops| - 1])
  {
    hide Spoils, After;
    var init := ops[..|ops| - 1];
    assert forall i | 0 <= i < |init| :: init[i] == ops[i] && init[..i] == ops[..i];
  }

  lemma AlwaysSafeBefore<C>(ops: seq<Op<C>>)
    requires ops != []
    ensures AlwaysSafe(ops) <==> AlwaysSafe(ops[..|ops| - 1]) && Safe(After(ops))
  {
    hide Safe, After;
    var init := ops[..|ops| - 1];
    if AlwaysSafe(ops) {
      assert ops[..|ops|] == ops;
      forall i | 0 <= i <= |init|
        ensures Safe(After(init[..i]))
      {
        assert init[..i] == ops[..i];
      }
    }
    if AlwaysSafe(init) && Safe(After(ops)) {
      forall i | 0 <= i <= |ops|
        ensures Safe(After(ops[..i]))
      {
        assert ops[..i] == if i <= |init| then init[..i] else ops;
      }
    }
  }

  /** In every run that is never spoiled the two directions of the index agree. */
  lemma {:induction false} AlwaysExact<C>(ops: seq<Op<C>>)
    requires NeverSpoiled(ops)
    ensures Exact(After(ops))
  {
    hide Exact, Safe, Next, Spoils, NeverSpoiled;
    if ops == [] {
      NothingIsExact<C>();
    } else {
      var init := ops[..|ops| - 1];
      NeverSpoiledBefore(ops);
      AlwaysExact(init);
      NextKeepsIff(After(init), ops[|ops| - 1]);
    }
  }

  /** Throughout a run no dropped client listens if and only if no client is dropped between the two
      halves of an unsubscription and none completes a subscription after its drop. */
  lemma {:induction false} SafeIffNeverSpoiled<C>(ops: seq<Op<C>>)
    ensures AlwaysSafe(ops) <==> NeverSpoiled(ops)
  {
    hide Exact, Safe, Next, Spoils, NeverSpoiled, AlwaysSafe;
    if ops == [] {
      NothingIsSafe<C>();
    } else {
      var init := ops[..|ops| - 1];
      NeverSpoiledBefore(ops);
      AlwaysSafeBefore(ops);
      SafeIffNeverSpoiled(init);
      if NeverSpoiled(init) {
        AlwaysExact(init);
        NextKeepsIff(After(init), ops[|ops| - 1]);
        ExactIsSafe(After(ops));
      }
    }
  }

  lemma ExactIsSafe<C>(x: Index<C>)
    ensures Exact(x) ==> Safe(x)
  {
  }

  lemma NothingIsExact<C>()
    ensures Exact<C>(After([]))
  {
  }

  lemma NothingIsSafe<C>()
    ensures AlwaysSafe<C>([]) && NeverSpoiled<C>([])
  {
  }

  // ----- Two runs of one client that end with it dropped and on a channel -----

  function DroppedInSubscription(): seq<Op<nat>> {
    [Arrives(0), Registers(0), BeginsSubscribe(0, "lab:x"), Unregisters(0), Finishes(0)]
  }

  function DroppedInUnsubscription(): seq<Op<nat>> {
    [Arrives(0), Registers(0), BeginsSubscribe(0, "lab:x"), Finishes(0), BeginsUnsubscribe(0, "lab:x"), Unregisters(0)]
  }

  lemma LabChannelIsValid()
    ensures IsValidChannel("lab:x")
  {
    SplitOff("lab", ':', "x");
    SplitWhole("x", ':');
    assert "lab:x" == "lab" + [':'] + "x";
  }

  lemma RunStep<C>(ops: seq<Op<C>>, k: nat)
    requires k < |ops|
    ensures After(ops[..k + 1]) == Next(After(ops[..k]), ops[k])
  {
    assert ops[..k + 1][..k] == ops[..k];
  }

  lemma DroppedInSubscriptionListens()
    ensures var x := After(DroppedInSubscription());
      0 in x.dropped && 0 in Listeners(x.channels, "lab:x")
  {
    hide IsValidChannel, After;
    LabChannelIsValid();
    var ops := DroppedInSubscription();
    NothingYet<nat>();
    RunStep(ops, 0);
    RunStep(ops, 1);
    RunStep(ops, 2);
    RunStep(ops, 3);
    RunStep(ops, 4);
    assert ops[..0] == [] && ops[..5] == ops;
  }

  /** Here no subscription of the client is left anywhere. */
  lemma DroppedInUnsubscriptionListens()
    ensures var x := After(DroppedInUnsubscription());
      0 in x.dropped && 0 in Listeners(x.channels, "lab:x") && 0 in x.subs && x.subs[0] == {}
  {
    hide IsValidChannel, After;
    LabChannelIsValid();
    var ops := DroppedInUnsubscription();
    NothingYet<nat>();
    RunStep(ops, 0);
    RunStep(ops, 1);
    RunStep(ops, 2);
    RunStep(ops, 3);
    RunStep(ops, 4);
    RunStep(ops, 5);
    assert ops[..0] == [] && ops[..6] == ops;
  }

  lemma NothingYet<C>()
    ensures After<C>([]) == Index({}, {}, map[], map[], map[])
  {
  }

  // ----- Channel names -----

  lemma ChannelParts(h: string, rest: string)
    requires ':' !in h
    ensures Split(h, ':') == [h] && Split(h + ":" + rest, ':') == [h] + Split(rest, ':')
  {
    SplitWhole(h, ':');
    SplitOff(h, ':', rest);
    assert h + ":" + rest == h + [':'] + rest;
  }

  /** A channel is a lab, a shell or the status, alone or with one or two more parts. */
  lemma WellFormedChannels(h: string, a: string, b: string)
    requires ':' !in h && ':' !in a && ':' !in b
    ensures IsValidChannel(h) == IsValidChannel(h + ":" + a) == IsValidChannel(h + ":" + (a + ":" + b))
         == (h == "lab" || h == "shell" || h == "status")
  {
    hide Split;
    ChannelParts(h, a);
    ChannelParts(a, b);
    ChannelParts(b, "");
    ChannelParts(h, a + ":" + b);
  }

  /** With more than three parts, or another first part, a channel is refused. */
  lemma MalformedChannels(h: string, a: string, b: string, rest: string)
    requires ':' !in h && ':' !in a && ':' !in b
    ensures !IsValidChannel(h + ":" + (a + ":" + (b + ":" + rest)))
    ensures h !in {"lab", "shell", "status"} ==> !IsValidChannel(h) && !IsValidChannel(h + ":" + rest)
  {
    hide Split;
    ChannelParts(b, rest);
    ChannelParts(a, b + ":" + rest);
    ChannelParts(h, a + ":" + (b + ":" + rest));
    ChannelParts(h, rest);
  }

  // ----- What each operation leaves alone -----

  ghost predicate SameFor<C>(x: Index<C>, y: Index<C>, c: C) {
    && (c in y.clients <==> c in x.clients) && (c in y.dropped <==> c in x.dropped)
    && (c in y.subs <==> c in x.subs) && (c in x.subs ==> y.subs[c] == x.subs[c])
    && (c in y.halves <==> c in x.halves) && (c in x.halves ==> y.halves[c] == x.halves[c])
    && forall ch :: c in Listeners(y.channels, ch) <==> c in Listeners(x.channels, ch)
  }

  /** An operation of one client changes nothing for another. */
  lemma OthersUntouched<C>(x: Index<C>, op: Op<C>, c: C)
    requires c != op.c
    ensures SameFor(x, Next(x, op), c)
  {
    hide IsValidChannel;
    var y := Next(x, op);
    forall ch
      ensures c in Listeners(y.channels, ch) <==> c in Listeners(x.channels, ch)
    {
      if op.c in x.subs {
        ListenersWithout(x.channels, x.subs[op.c], op.c, ch);
      }
      if op.Finishes? && op.c in x.halves {
        ListenersWithout(x.channels, {x.halves[op.c].ch}, op.c, ch);
      }
    }
  }

  /** What an operation does to its own client: its subscriptions follow its requests and survive a
      drop, and once dropped it stays dropped. */
  lemma OwnEffect<C>(x: Index<C>, op: Op<C>)
    requires op.c in x.subs
    ensures var y := Next(x, op);
      && op.c in y.subs
      && y.subs[op.c] == (if op.BeginsSubscribe? && op.c !in x.halves && IsValidChannel(op.ch)
                          then x.subs[op.c] + {op.ch}
                          else if op.BeginsUnsubscribe? && op.c !in x.halves then x.subs[op.c] - {op.ch}
                          else x.subs[op.c])
      && (op.c in y.clients <==> if op.Registers? then op.c in x.clients || op.c !in x.dropped
                                 else op.c in x.clients && !op.Unregisters?)
      && (op.c in y.dropped <==> op.c in x.dropped || (op.Unregisters? && op.c in x.clients))
  {
    hide IsValidChannel, Without;
  }
}

/** Browser and hub agree on the subscribed channels, whatever is still in flight. */
module SubscriptionAgreement {
  import opened LabSocket
  import opened ChannelIndex

  /** What the hub's client makes of one message. */
  function ServerApply(subs: set<string>, m: Wire): set<string> {
    match m
    case SubscribeMsg(ch) => if IsValidChannel(ch) then subs + {ch} else subs
    case UnsubscribeMsg(ch) => subs - {ch}
  }

  /** That is what the first half of the hub's work does to the client's side of its index, and the
      second half leaves that side alone. */
  lemma ServerApplyIsHub<C>(x: Index<C>, c: C, ch: string)
    requires c in x.subs
    ensures c !in x.halves ==>
              && BeginSubscribe(x, c, ch).subs[c] == ServerApply(x.subs[c], SubscribeMsg(ch))
              && BeginUnsubscribe(x, c, ch).subs[c] == ServerApply(x.subs[c], UnsubscribeMsg(ch))
    ensures Finish(x, c).subs == x.subs
  {
  }

  function ApplyAll(subs: set<string>, wire: seq<Wire>): set<string> {
    if wire == [] then subs else ServerApply(ApplyAll(subs, wire[..|wire| - 1]), wire[|wire| - 1])
  }

  function ValidOnly(chs: set<string>): set<string> {
    set ch | ch in chs && IsValidChannel(ch)
  }

  /** The browser, the messages in flight on its current socket, the subscriptions of the hub's
      client for that socket, and whether the hub has dropped that client. */
  datatype World = World(browser: Browser, wire: seq<Wire>, server: set<string>, dropped: bool)

  const START := World(INITIAL, [], {}, false)

  datatype Step =
    | Starts(hasToken: bool)              // the call of `connect` that starts it all
    | TimerFires(hasToken: bool)          // a scheduled reconnect is due
    | Opens(order: seq<string>)           // the socket opens; the hub has a new client
    | Closes                              // the socket is gone, and all it carried
    | AddsHandler(ch: string, h: Handler)
    | RemovesHandler(ch: string, h: Handler)
    | Disconnects
    | ServerReads                         // the hub handles the oldest message
    | ServerDrops                         // the hub unregisters the client
    | DroppedLoses                        // a dropped client reads no more

  function Next(w: World, step: Step): World {
    var b := w.browser;
    match step
    case Starts(hasToken) => if b.phase == NoSocket then w.(browser := Connect(b, hasToken)) else w
    case TimerFires(hasToken) => if b.timer then w.(browser := Retry(b, hasToken)) else w
    case Opens(order) =>
      if b.phase == Connecting && Elements(order) == b.subs.Keys
      then World(Opened(b, order).0, Opened(b, order).1, {}, false) else w
    case Closes =>
      if b.phase in {Connecting, Open, Closing} then w.(browser := Lost(b), wire := []) else w
    case AddsHandler(ch, h) =>
      var (b', ms) := LabSocket.Subscribe(b, ch, h);
      w.(browser := b', wire := w.wire + ms)
    case RemovesHandler(ch, h) =>
      var (b', ms) := LabSocket.Unsubscribe(b, ch, h);
      w.(browser := b', wire := w.wire + ms)
    case Disconnects => w.(browser := Disconnect(b))
    case ServerReads => if w.wire == [] then w else w.(server := ServerApply(w.server, w.wire[0]), wire := w.wire[1..])
    case ServerDrops => w.(dropped := true)
    case DroppedLoses => if w.dropped then w.(wire := []) else w
  }

  function After(steps: seq<Step>): World {
    if steps == [] then START else Next(After(steps[..|steps| - 1]), steps[|steps| - 1])
  }

  /** Delivering everything in flight would give the hub exactly the browser's valid channels. */
  predicate Agree(w: World) {
    w.browser.phase == Open && !w.dropped ==> ApplyAll(w.server, w.wire) == ValidOnly(w.browser.subs.Keys)
  }

  lemma ApplyOneMore(subs: set<string>, wire: seq<Wire>, m: Wire)
    ensures ApplyAll(subs, wire + [m]) == ServerApply(ApplyAll(subs, wire), m)
  {
    assert (wire + [m])[..|wire|] == wire;
  }

  lemma {:induction false} ApplyFirst(subs: set<string>, wire: seq<Wire>)
    requires wire != []
    ensures ApplyAll(subs, wire) == ApplyAll(ServerApply(subs, wire[0]), wire[1..])
  {
    if |wire| > 1 {
      ApplyFirst(subs, wire[..|wire| - 1]);
      assert wire[..|wire| - 1][1..] == wire[1..][..|wire| - 2];
    } else {
      assert wire[..0] == [] && wire[1..] == [];
    }
  }

  lemma {:induction false} ResubscribeAll(order: seq<string>)
    ensures ApplyAll({}, SubscribeAll(order)) == ValidOnly(Elements(order))
  {
    hide IsValidChannel, ApplyAll, ValidOnly;
    if order == [] {
      NothingValid();
    } else {
      var init, last := order[..|order| - 1], order[|order| - 1];
      ResubscribeAll(init);
      ApplyOneMore({}, SubscribeAll(init), SubscribeMsg(last));
      OneMoreValid(Elements(init), last);
    }
  }

  lemma OneMoreValid(chs: set<string>, ch: string)
    ensures ValidOnly(chs + {ch}) == ServerApply(ValidOnly(chs), SubscribeMsg(ch))
    ensures ValidOnly(chs - {ch}) == ServerApply(ValidOnly(chs), UnsubscribeMsg(ch))
  {
    hide IsValidChannel;
  }

  lemma NothingValid()
    ensures ValidOnly({}) == {} && ApplyAll({}, []) == {}
  {
  }

  lemma NextAgrees(w: World, step: Step)
    requires Agree(w)
    ensures Agree(Next(w, step))
  {
    hide IsValidChannel, ApplyAll, ValidOnly, ServerApply;
    var b := w.browser;
    match step
    case Opens(order) => ResubscribeAll(order);
    case AddsHandler(ch, h) =>
      ApplyOneMore(w.server, w.wire, SubscribeMsg(ch));
      OneMoreValid(b.subs.Keys, ch);
      assert LabSocket.Subscribe(b, ch, h).0.subs.Keys == b.subs.Keys + {ch};
      assert ch in b.subs ==> b.subs.Keys + {ch} == b.subs.Keys;
      assert w.wire + [] == w.wire;
    case RemovesHandler(ch, h) =>
      ApplyOneMore(w.server, w.wire, UnsubscribeMsg(ch));
      OneMoreValid(b.subs.Keys, ch);
      var after := LabSocket.Unsubscribe(b, ch, h).0.subs;
      assert after.Keys == b.subs.Keys || after.Keys == b.subs.Keys - {ch};
      assert w.wire + [] == w.wire;
    case ServerReads => if w.wire != [] { ApplyFirst(w.server, w.wire); }
    case _ =>
  }

  /** In every reachable state with the socket open and the client not dropped, across any
      number of reconnects. */
  lemma {:induction false} AlwaysAgree(steps: seq<Step>)
    ensures Agree(After(steps))
  {
    hide Agree, Next;
    if steps == [] {
      StartAgrees();
    } else {
      AlwaysAgree(steps[..|steps| - 1]);
      NextAgrees(After(steps[..|steps| - 1]), steps[|steps| - 1]);
    }
  }

  lemma StartAgrees()
    ensures Agree(START)
  {
  }

  /** Once nothing is in flight the two sides hold the same channels. */
  lemma CaughtUp(steps: seq<Step>)
    requires var w := After(steps); w.browser.phase == Open && !w.dropped && w.wire == []
    ensures After(steps).server == ValidOnly(After(steps).browser.subs.Keys)
  {
    hide After;
    AlwaysAgree(steps);
  }

  /** Once nothing is in flight or half done, the hub has the client on exactly the channels the
      browser has handlers for, malformed ones aside. */
  lemma CaughtUpChannels<C>(steps: seq<Step>, x: Index<C>, c: C, ch: string)
    requires var w := After(steps); w.browser.phase == Open && !w.dropped && w.wire == []
    requires Exact(x) && c in Live(x) && c !in x.halves && x.subs[c] == After(steps).server
    ensures c in Listeners(x.channels, ch) <==> ch in After(steps).browser.subs && IsValidChannel(ch)
  {
    hide After, Exact, IsValidChannel;
    CaughtUp(steps);
    ListensToItsSubs(x, c, ch);
  }

  // ----- Disconnecting -----

  /** No socket is open or opening, and nothing is scheduled that would open one. */
  predicate AtRest(b: Browser) {
    !b.timer && !b.shouldReconnect && b.phase in {Closing, Closed}
  }

  lemma StaysAtRest(w: World, step: Step)
    requires AtRest(w.browser)
    ensures AtRest(Next(w, step).browser)
  {
    hide ServerApply, SubscribeAll, Elements;
  }

  lemma {:induction false} RestsForever(steps: seq<Step>, more: seq<Step>)
    requires AtRest(After(steps).browser)
    ensures AtRest(After(steps + more).browser)
    decreases |more|
  {
    hide Next, AtRest;
    if more == [] {
      assert steps + more == steps;
    } else {
      var init := more[..|more| - 1];
      RestsForever(steps, init);
      assert (steps + more)[..|steps + more| - 1] == steps + init;
      StaysAtRest(After(steps + init), more[|more| - 1]);
    }
  }

  lemma OneMoreStep(steps: seq<Step>, step: Step)
    ensures After(steps + [step]) == Next(After(steps), step)
  {
    assert (steps + [step])[..|steps|] == steps;
  }

  /** With a timer pending, or before any socket was made, a disconnected browser comes back. */
  lemma ComesBack(steps: seq<Step>, first: Step)
    requires After(steps).browser.subs == map[]
    requires
      || (first == TimerFires(true) && After(steps).browser.timer)
      || (first == Starts(true) && After(steps).browser.phase == NoSocket)
    ensures After(steps + [first, Opens([])]).browser.phase == Open
    ensures After(steps + [first, Opens([])]).browser.shouldReconnect == After(steps).browser.shouldReconnect
  {
    hide After;
    OneMoreStep(steps, first);
    OneMoreStep(steps + [first], Opens([]));
    assert steps + [first] + [Opens([])] == steps + [first, Opens([])];
    assert Elements([]) == {};
  }

  /** A disconnect leaves a scheduled reconnect scheduled. It keeps the socket from ever opening
      again if and only if none was scheduled and a socket had been made. */
  lemma DisconnectIsFinalIff(steps: seq<Step>)
    ensures After(steps + [Disconnects]).browser.timer == After(steps).browser.timer
    ensures (forall more :: After(steps + [Disconnects] + more).browser.phase != Open)
       <==> !After(steps).browser.timer && After(steps).browser.phase != NoSocket
  {
    hide After, Next;
    var w, t := After(steps), After(steps + [Disconnects]);
    OneMoreStep(steps, Disconnects);
    DisconnectStep(w);
    if w.browser.timer {
      ComesBack(steps + [Disconnects], TimerFires(true));
    } else if w.browser.phase == NoSocket {
      ComesBack(steps + [Disconnects], Starts(true));
    } else {
      forall more
        ensures After(steps + [Disconnects] + more).browser.phase != Open
      {
        RestsForever(steps + [Disconnects], more);
      }
    }
  }

  lemma DisconnectStep(w: World)
    ensures var b := Next(w, Disconnects).browser;
      && b.subs == map[] && b.timer == w.browser.timer && !b.shouldReconnect
      && (b.phase == NoSocket <==> w.browser.phase == NoSocket)
      && (!b.timer && b.phase != NoSocket ==> AtRest(b))
  {
  }

  /** A lost socket, a disconnect while the reconnect is pending, and the socket opens again. */
  function UndoneDisconnect(): seq<Step> {
    [Starts(true), Closes, Disconnects, TimerFires(true), Opens([])]
  }

  lemma DisconnectUndone()
    ensures var b := After(UndoneDisconnect()).browser; b.phase == Open && !b.shouldReconnect
  {
    hide After;
    assert After([]) == START by { NothingHappened(); }
    OneMoreStep([], Starts(true));
    OneMoreStep([Starts(true)], Closes);
    OneMoreStep([Starts(true), Closes], Disconnects);
    assert [] + [Starts(true)] == [Starts(true)] && [Starts(true)] + [Closes] == [Starts(true), Closes];
    var steps := [Starts(true), Closes] + [Disconnects];
    ComesBack(steps, TimerFires(true));
    assert steps + [TimerFires(true), Opens([])] == UndoneDisconnect();
  }

  lemma NothingHappened()
    ensures After([]) == START
  {
  }

  // ----- The browser -----

  /** The status shown follows the socket, no channel is kept without a handler, no reconnect is
      scheduled while a socket is alive, and the delay is one of the doubling sequence. */
  predicate BrowserInOrder(b: Browser) {
    && (b.phase == Open ==> b.status == IsConnected)
    && (b.phase == Connecting ==> b.status == IsConnecting)
    && (b.phase in {NoSocket, Closed} ==> b.status == IsDisconnected)
    && (b.timer ==> b.phase == Closed)
    && (forall ch | ch in b.subs :: b.subs[ch] != {})
    && b.reconnectDelay in {1000, 2000, 4000, 8000, 16000, 30000}
  }

  lemma NextInOrder(w: World, step: Step)
    requires BrowserInOrder(w.browser)
    ensures BrowserInOrder(Next(w, step).browser)
  {
    hide ServerApply, SubscribeAll, Elements, BrowserInOrder, Connect, Retry, Lost, Opened, Disconnect,
         LabSocket.Subscribe, LabSocket.Unsubscribe;
    match step
    case Starts(hasToken) => SocketStepsInOrder(w.browser, hasToken, []);
    case TimerFires(hasToken) => SocketStepsInOrder(w.browser, hasToken, []);
    case Opens(order) => SocketStepsInOrder(w.browser, true, order);
    case Closes => SocketStepsInOrder(w.browser, true, []);
    case AddsHandler(ch, h) => HandlerStepsInOrder(w.browser, ch, h);
    case RemovesHandler(ch, h) => HandlerStepsInOrder(w.browser, ch, h);
    case Disconnects => SocketStepsInOrder(w.browser, true, []);
    case _ =>
  }

  lemma SocketStepsInOrder(b: Browser, hasToken: bool, order: seq<string>)
    requires BrowserInOrder(b)
    ensures b.phase == NoSocket ==> BrowserInOrder(Connect(b, hasToken))
    ensures b.timer ==> BrowserInOrder(Retry(b, hasToken))
    ensures b.phase == Connecting ==> BrowserInOrder(Opened(b, order).0)
    ensures b.phase in {Connecting, Open, Closing} ==> BrowserInOrder(Lost(b))
    ensures BrowserInOrder(Disconnect(b))
  {
    hide SubscribeAll;
  }

  lemma HandlerStepsInOrder(b: Browser, ch: string, h: Handler)
    requires BrowserInOrder(b)
    ensures BrowserInOrder(LabSocket.Subscribe(b, ch, h).0) && BrowserInOrder(LabSocket.Unsubscribe(b, ch, h).0)
  {
    assert h in LabSocket.Subscribe(b, ch, h).0.subs[ch];
  }

  lemma {:induction false} AlwaysInOrder(steps: seq<Step>)
    ensures BrowserInOrder(After(steps).browser)
  {
    hide Next, BrowserInOrder;
    if steps == [] {
      assert BrowserInOrder(INITIAL) by { InitialInOrder(); }
    } else {
      AlwaysInOrder(steps[..|steps| - 1]);
      NextInOrder(After(steps[..|steps| - 1]), steps[|steps| - 1]);
    }
  }

  lemma InitialInOrder()
    ensures BrowserInOrder(INITIAL)
  {
  }
}

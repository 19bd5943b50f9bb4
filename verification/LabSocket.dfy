/** The browser's side of the subscription protocol (frontend/app/src/lib/ws.ts). */
module LabSocket {

  type Handler = nat

  /** The state of the current WebSocket object, if any. */
  datatype Phase = NoSocket | Connecting | Open | Closing | Closed

  datatype Status = IsConnected | IsConnecting | IsDisconnected

  /** `timer` says that a reconnect is scheduled. */
  datatype Browser = Browser(subs: map<string, set<Handler>>, phase: Phase, status: Status,
                             reconnectDelay: int, shouldReconnect: bool, timer: bool)

  datatype Wire = SubscribeMsg(channel: string) | UnsubscribeMsg(channel: string)

  const INITIAL_DELAY := 1000
  const MAX_DELAY := 30000
  const INITIAL := Browser(map[], NoSocket, IsDisconnected, INITIAL_DELAY, true, false)

  /** Messages are dropped silently unless the socket is open. */
  function Sent(b: Browser, m: Wire): seq<Wire> {
    if b.phase == Open then [m] else []
  }

  /** The subscribe messages for a list of channels. */
  function SubscribeAll(order: seq<string>): seq<Wire> {
    if order == [] then []
    else SubscribeAll(order[..|order| - 1]) + [SubscribeMsg(order[|order| - 1])]
  }

  function Elements(order: seq<string>): set<string> {
    if order == [] then {} else Elements(order[..|order| - 1]) + {order[|order| - 1]}
  }

  lemma OneMoreChannel(order: seq<string>, ch: string)
    ensures SubscribeAll(order + [ch]) == SubscribeAll(order) + [SubscribeMsg(ch)]
    ensures Elements(order + [ch]) == Elements(order) + {ch}
  {
    assert (order + [ch])[..|order|] == order;
  }

  lemma NoChannels()
    ensures SubscribeAll([]) == [] && Elements([]) == {}
  {
  }

  // Each step gives the new state and what is handed to the socket.

  function Connect(b: Browser, hasToken: bool): Browser {
    if hasToken then b.(status := IsConnecting, phase := Connecting) else b
  }

  /** The scheduled reconnect: nothing cancels it, and it asks for no permission. */
  function Retry(b: Browser, hasToken: bool): Browser {
    Connect(b.(timer := false), hasToken)
  }

  function Opened(b: Browser, order: seq<string>): (Browser, seq<Wire>) {
    (b.(phase := Open, reconnectDelay := INITIAL_DELAY, status := IsConnected), SubscribeAll(order))
  }

  function Doubled(delay: int): int {
    if delay * 2 <= MAX_DELAY then delay * 2 else MAX_DELAY
  }

  function Lost(b: Browser): Browser {
    var b' := b.(phase := Closed, status := IsDisconnected);
    if b.shouldReconnect then b'.(timer := true, reconnectDelay := Doubled(b.reconnectDelay)) else b'
  }

  function Subscribe(b: Browser, ch: string, h: Handler): (Browser, seq<Wire>) {
    if ch in b.subs then (b.(subs := b.subs[ch := b.subs[ch] + {h}]), [])
    else (b.(subs := b.subs[ch := {h}]), Sent(b, SubscribeMsg(ch)))
  }

  function Unsubscribe(b: Browser, ch: string, h: Handler): (Browser, seq<Wire>) {
    if ch !in b.subs then (b, [])
    else if b.subs[ch] - {h} == {} then (b.(subs := b.subs - {ch}), Sent(b, UnsubscribeMsg(ch)))
    else (b.(subs := b.subs[ch := b.subs[ch] - {h}]), [])
  }

  function Disconnect(b: Browser): Browser {
    b.(shouldReconnect := false, subs := map[],
       phase := if b.phase in {Connecting, Open} then Closing else b.phase)
  }

  class LabWebSocket {
    var subs: map<string, set<Handler>>
    var phase: Phase
    var status: Status
    var reconnectDelay: int
    var shouldReconnect: bool
    var timer: bool
    var sent: seq<Wire>   // everything handed to a socket so far

    function View(): Browser
      reads this
    {
      Browser(subs, phase, status, reconnectDelay, shouldReconnect, timer)
    }

    constructor ()
      ensures View() == INITIAL && sent == []
    {
      subs, phase, status := map[], NoSocket, IsDisconnected;
      reconnectDelay, shouldReconnect, timer, sent := INITIAL_DELAY, true, false, [];
    }

    method Send(m: Wire)
      modifies this`sent
      ensures sent == old(sent) + Sent(View(), m)
    {
      if phase == Open {
        sent := sent + [m];
      }
    }

    method ConnectWith(hasToken: bool)
      modifies this
      ensures View() == Connect(old(View()), hasToken) && sent == old(sent)
    {
      if !hasToken {
        return;
      }
      status := IsConnecting;
      phase := Connecting;
    }

    /** The callback of the timer. */
    method FireTimer(hasToken: bool)
      requires timer
      modifies this
      ensures View() == Retry(old(View()), hasToken) && sent == old(sent)
    {
      timer := false;
      ConnectWith(hasToken);
    }

    /** Re-subscribes to every active channel, in the order the map yields its keys. */
    method OnOpen() returns (order: seq<string>)
      modifies this
      ensures Elements(order) == subs.Keys
      ensures View() == Opened(old(View()), order).0 && sent == old(sent) + Opened(old(View()), order).1
    {
      phase := Open;
      reconnectDelay := INITIAL_DELAY;
      status := IsConnected;
      order := Resubscribe();
    }

    method Resubscribe() returns (order: seq<string>)
      requires phase == Open
      modifies this`sent
      ensures Elements(order) == subs.Keys && sent == old(sent) + SubscribeAll(order)
    {
      hide SubscribeAll, Elements;
      order := [];
      NoChannels();
      var todo := subs.Keys;
      while todo != {}
        invariant todo <= subs.Keys && Elements(order) == subs.Keys - todo
        invariant sent == old(sent) + SubscribeAll(order)
        decreases |todo|
      {
        var channel :| channel in todo;
        Send(SubscribeMsg(channel));
        OneMoreChannel(order, channel);
        order := order + [channel];
        todo := todo - {channel};
      }
    }

    method OnClose()
      modifies this
      ensures View() == Lost(old(View())) && sent == old(sent)
    {
      phase := Closed;
      status := IsDisconnected;
      if shouldReconnect {
        timer := true;
        reconnectDelay := if reconnectDelay * 2 <= MAX_DELAY then reconnectDelay * 2 else MAX_DELAY;
      }
    }

    method AddHandler(channel: string, handler: Handler)
      modifies this
      ensures View() == Subscribe(old(View()), channel, handler).0
      ensures sent == old(sent) + Subscribe(old(View()), channel, handler).1
    {
      if channel !in subs {
        subs := subs[channel := {}];
        Send(SubscribeMsg(channel));
      }
      assert {} + {handler} == {handler};
      subs := subs[channel := subs[channel] + {handler}];
    }

    method RemoveHandler(channel: string, handler: Handler)
      modifies this
      ensures View() == Unsubscribe(old(View()), channel, handler).0
      ensures sent == old(sent) + Unsubscribe(old(View()), channel, handler).1
    {
      if channel !in subs {
        return;
      }
      var handlers := subs[channel] - {handler};
      if handlers == {} {
        subs := subs - {channel};
        Send(UnsubscribeMsg(channel));
      } else {
        subs := subs[channel := handlers];
      }
    }

    method Close()
      modifies this
      ensures View() == Disconnect(old(View())) && sent == old(sent)
    {
      shouldReconnect := false;
      if phase == Connecting || phase == Open {
        phase := Closing;
      }
      subs := map[];
    }
  }
}

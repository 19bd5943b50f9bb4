/** What the browser's socket object holds, told from the calls and events so far
    (frontend/app/src/lib/ws.ts). */
module SocketHistory {
  import opened LabSocket
  import opened SubscriptionAgreement

  // ----- Handlers -----

  predicate Handles(b: Browser, ch: string, h: Handler) {
    ch in b.subs && h in b.subs[ch]
  }

  /** The handler was added and since then neither removed nor lost in a disconnect. */
  ghost predicate AddedForGood(steps: seq<Step>, ch: string, h: Handler) {
    exists i :: 0 <= i < |steps| && steps[i] == AddsHandler(ch, h) && Undisturbed(steps, i, ch, h)
  }

  predicate Undisturbed(steps: seq<Step>, from: nat, ch: string, h: Handler) {
    forall j | from < j < |steps| :: steps[j] != RemovesHandler(ch, h) && steps[j] != Disconnects
  }

  lemma SubscribeHandles(b: Browser, added: string, adding: Handler, ch: string, h: Handler)
    ensures Handles(LabSocket.Subscribe(b, added, adding).0, ch, h)
       <==> (added == ch && adding == h) || Handles(b, ch, h)
  {
  }

  lemma UnsubscribeHandles(b: Browser, removed: string, removing: Handler, ch: string, h: Handler)
    ensures Handles(LabSocket.Unsubscribe(b, removed, removing).0, ch, h)
       <==> Handles(b, ch, h) && !(removed == ch && removing == h)
  {
    if removed == ch && ch in b.subs {
      var left := b.subs[ch] - {removing};
      assert h in left <==> h in b.subs[ch] && h != removing;
    }
  }

  lemma StepHandles(w: World, step: Step, ch: string, h: Handler)
    ensures Handles(Next(w, step).browser, ch, h)
       <==> step == AddsHandler(ch, h)
            || (Handles(w.browser, ch, h) && step != RemovesHandler(ch, h) && step != Disconnects)
  {
    hide ServerApply, SubscribeAll, Elements, LabSocket.Subscribe, LabSocket.Unsubscribe;
    match step
    case AddsHandler(added, adding) => SubscribeHandles(w.browser, added, adding, ch, h);
    case RemovesHandler(removed, removing) => UnsubscribeHandles(w.browser, removed, removing, ch, h);
    case _ =>
  }

  /** A channel has exactly the handlers that were added to it and not removed since. */
  lemma {:induction false} HandlersExact(steps: seq<Step>, ch: string, h: Handler)
    ensures Handles(After(steps).browser, ch, h) <==> AddedForGood(steps, ch, h)
  {
    hide Next, Handles;
    if steps == [] {
      assert !Handles(INITIAL, ch, h) by { NoHandlersAtFirst(ch, h); }
    } else {
      var init, last := steps[..|steps| - 1], steps[|steps| - 1];
      HandlersExact(init, ch, h);
      StepHandles(After(init), last, ch, h);
      AddedOneStepOn(steps, ch, h);
    }
  }

  lemma NoHandlersAtFirst(ch: string, h: Handler)
    ensures !Handles(INITIAL, ch, h)
  {
  }

  lemma AddedOneStepOn(steps: seq<Step>, ch: string, h: Handler)
    requires steps != []
    ensures var init, last := steps[..|steps| - 1], steps[|steps| - 1];
      AddedForGood(steps, ch, h)
      <==> last == AddsHandler(ch, h)
           || (AddedForGood(init, ch, h) && last != RemovesHandler(ch, h) && last != Disconnects)
  {
    var init, last := steps[..|steps| - 1], steps[|steps| - 1];
    if last == AddsHandler(ch, h) {
      assert Undisturbed(steps, |steps| - 1, ch, h);
    }
    if AddedForGood(init, ch, h) && last != RemovesHandler(ch, h) && last != Disconnects {
      var i :| 0 <= i < |init| && init[i] == AddsHandler(ch, h) && Undisturbed(init, i, ch, h);
      forall j | i < j < |steps|
        ensures steps[j] != RemovesHandler(ch, h) && steps[j] != Disconnects
      {
        assert j < |init| ==> steps[j] == init[j];
      }
      assert steps[i] == AddsHandler(ch, h) && Undisturbed(steps, i, ch, h);
    }
    if AddedForGood(steps, ch, h) && last != AddsHandler(ch, h) {
      var i :| 0 <= i < |steps| && steps[i] == AddsHandler(ch, h) && Undisturbed(steps, i, ch, h);
      assert forall j | 0 <= j < |init| :: init[j] == steps[j];
      assert init[i] == AddsHandler(ch, h) && Undisturbed(init, i, ch, h);
    }
  }

  // ----- Reconnect delays -----

  /** How many sockets were lost, with a reconnect wanted, since one last opened. */
  function LossesInARow(steps: seq<Step>): nat {
    if steps == [] then 0
    else
      var init, last := steps[..|steps| - 1], steps[|steps| - 1];
      var b := After(init).browser;
      if last.Opens? && b.phase == Connecting && Elements(last.order) == b.subs.Keys then 0
      else if last.Closes? && b.phase in {Connecting, Open, Closing} && b.shouldReconnect then LossesInARow(init) + 1
      else LossesInARow(init)
  }

  function DelayAfter(losses: nat): int {
    match losses
    case 0 => 1000
    case 1 => 2000
    case 2 => 4000
    case 3 => 8000
    case 4 => 16000
    case _ => 30000
  }

  /** The next delay is one second doubled for each loss in a row, at most thirty seconds. */
  lemma {:induction false} DelayDoubles(steps: seq<Step>)
    ensures After(steps).browser.reconnectDelay == DelayAfter(LossesInARow(steps))
  {
    hide After;
    if steps == [] {
      NothingHappened();
    } else {
      var init, last := steps[..|steps| - 1], steps[|steps| - 1];
      DelayDoubles(init);
      OneMoreStep(init, last);
      assert init + [last] == steps;
      DelayStep(After(init), last);
    }
  }

  lemma DelayStep(w: World, step: Step)
    ensures var b, b' := w.browser, Next(w, step).browser;
      b'.reconnectDelay
      == if step.Opens? && b.phase == Connecting && Elements(step.order) == b.subs.Keys then 1000
         else if step.Closes? && b.phase in {Connecting, Open, Closing} && b.shouldReconnect
         then (if b.reconnectDelay * 2 <= 30000 then b.reconnectDelay * 2 else 30000)
         else b.reconnectDelay
  {
    hide ServerApply, SubscribeAll, Elements;
  }

  /** A reconnect is scheduled by the loss of a socket while one is wanted, and only by that. */
  lemma TimerStep(w: World, step: Step)
    ensures var b, b' := w.browser, Next(w, step).browser;
      b'.timer <==> (step.Closes? && b.phase in {Connecting, Open, Closing} && b.shouldReconnect)
                    || (b.timer && !step.TimerFires?)
    ensures Next(w, step).browser.shouldReconnect <==> w.browser.shouldReconnect && step != Disconnects
  {
    hide ServerApply, SubscribeAll, Elements;
  }

  // ----- The socket and the wire -----

  /** What each event makes of the socket. */
  lemma PhaseStep(w: World, step: Step)
    ensures var b, b' := w.browser, Next(w, step).browser;
      b'.phase
      == if step.Starts? && b.phase == NoSocket && step.hasToken then Connecting
         else if step.TimerFires? && b.timer && step.hasToken then Connecting
         else if step.Opens? && b.phase == Connecting && Elements(step.order) == b.subs.Keys then Open
         else if step.Closes? && b.phase in {Connecting, Open, Closing} then Closed
         else if step == Disconnects && b.phase in {Connecting, Open} then Closing
         else b.phase
  {
    hide ServerApply, SubscribeAll, Elements;
  }

  /** A handler's coming and going is told only for the first and the last one of a channel, and only on an
      open socket; otherwise nothing is put on the wire. */
  lemma WireStep(w: World, step: Step, ch: string, h: Handler)
    requires BrowserInOrder(w.browser)
    ensures step == AddsHandler(ch, h) ==>
              Next(w, step).wire
              == w.wire + if w.browser.phase == Open && ch !in w.browser.subs then [SubscribeMsg(ch)] else []
    ensures step == RemovesHandler(ch, h) ==>
              Next(w, step).wire
              == w.wire + if w.browser.phase == Open && ch in w.browser.subs && w.browser.subs[ch] == {h}
                          then [UnsubscribeMsg(ch)] else []
  {
    if step == RemovesHandler(ch, h) && ch in w.browser.subs {
      assert w.browser.subs[ch] != {};
      assert w.browser.subs[ch] - {h} == {} <==> w.browser.subs[ch] == {h};
    }
  }

  /** A new socket starts with one subscribe message for each channel that has handlers, and no other. */
  lemma OpenedWire(w: World, order: seq<string>)
    requires w.browser.phase == Connecting && Elements(order) == w.browser.subs.Keys
    ensures var wire := Next(w, Opens(order)).wire;
      |wire| == |order| && forall i | 0 <= i < |order| :: wire[i] == SubscribeMsg(order[i])
  {
    hide Elements;
    MessagesInOrder(order);
  }

  lemma {:induction false} MessagesInOrder(order: seq<string>)
    ensures |SubscribeAll(order)| == |order|
    ensures forall i | 0 <= i < |order| :: SubscribeAll(order)[i] == SubscribeMsg(order[i])
  {
    if order != [] {
      MessagesInOrder(order[..|order| - 1]);
    }
  }
}

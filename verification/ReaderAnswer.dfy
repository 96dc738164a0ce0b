/**
 Which close requests are answered. Serve hands items out itself, and handing out blocks: on a posts channel
 that is full, on an error channel nobody reads. A subscription whose pump has ended and whose channel is
 full therefore holds up the one goroutine that could answer its own close request, and everybody else's.
 */
module ReaderAnswer {
  import opened ReaderSpec
  import opened ReaderProtocol
  import opened ReaderInvariant
  import opened ReaderTheorems
  import opened ReaderStop
  import opened Sums

  // ---------------------------------------------------------------- a serve that never comes back

  /** Now or later the send can go through. */
  predicate CanTake(box: Box, item: Item) {
    box.reading || (item.Data? && box.items < CAPACITY)
  }

  /** Serve is handing an item to somebody who will never take it. */
  predicate Wedged(s: State) {
    s.server.pc.Dispatching?
    && exists sub | sub in s.server.pc.pending :: !CanTake(BoxOf(s.clients, sub), s.server.pc.item)
  }

  predicate Lost(s: State) {
    Wedged(s) || Closing(s.server.pc) || s.server.pc.Exited?
  }

  lemma WedgedStays(s: State, a: Action)
    requires Inv(s) && Enabled(s, a) && Wedged(s)
    ensures Wedged(Apply(s, a))
  {
    var sub :| sub in s.server.pc.pending && !CanTake(BoxOf(s.clients, sub), s.server.pc.item);
    assert ClientAgrees(s.server, sub, PcOf(s.clients, sub));
    assert !Closed(PcOf(s.clients, sub), s.server.pc.item);
    hide Inv, Enabled, Apply;
    if ConsumerStep(a) {
      ConsumerFrame(s, a);
    } else {
      StillRefused(s, a, sub);
    }
  }

  /** Nobody but its own pump could make the box take the item, and that has ended. */
  lemma StillRefused(s: State, a: Action, sub: Sub)
    requires Enabled(s, a) && !ConsumerStep(a) && s.server.pc.Dispatching? && sub in s.server.pc.pending
    requires !CanTake(BoxOf(s.clients, sub), s.server.pc.item) && !Closed(PcOf(s.clients, sub), s.server.pc.item)
    ensures var t := Apply(s, a);
            && t.server.pc.Dispatching? && sub in t.server.pc.pending
            && !CanTake(BoxOf(t.clients, sub), t.server.pc.item)
  {
    hide Deliver;
  }

  lemma ClosingStays(s: State, a: Action)
    requires Inv(s) && Enabled(s, a) && (Closing(s.server.pc) || s.server.pc.Exited?)
    ensures Closing(Apply(s, a).server.pc) || Apply(s, a).server.pc.Exited?
  {
    hide Inv;
    if ConsumerStep(a) {
      ConsumerFrame(s, a);
    } else if ClientStep(a) {
      ClientFrame(s, a);
    }
  }

  lemma LostStays(s: State, a: Action)
    requires Inv(s) && Enabled(s, a) && Lost(s)
    ensures Lost(Apply(s, a))
  {
    if Wedged(s) {
      WedgedStays(s, a);
    } else {
      ClosingStays(s, a);
    }
    hide Inv, Enabled, Apply, Wedged;
  }

  lemma RequestStays(s: State, a: Action, sub: Sub)
    requires Enabled(s, a) && Lost(s) && Requesting(PcOf(s.clients, sub))
    ensures PcOf(Apply(s, a).clients, sub) == PcOf(s.clients, sub)
  {
    if ConsumerStep(a) {
      ConsumerFrame(s, a);
    }
  }

  /** In no continuation whatever does such a serve take anybody's request. */
  lemma {:induction false} LostForEver(s: State, more: seq<Action>, sub: Sub)
    requires Inv(s) && Lost(s) && Runs(s, more) && Requesting(PcOf(s.clients, sub))
    ensures PcOf(Exec(s, more).clients, sub) == PcOf(s.clients, sub) && Lost(Exec(s, more))
    decreases |more|
  {
    if more != [] {
      InvKept(s, more[0]);
      LostStays(s, more[0]);
      RequestStays(s, more[0], sub);
      hide Inv, Lost, Enabled;
      LostForEver(Apply(s, more[0]), more[1..], sub);
    }
  }

  // ---------------------------------------------------------------- the condition

  /** How many more records fit when nobody reads. */
  function Room(box: Box): nat {
    if box.items < CAPACITY then CAPACITY - box.items else 0
  }

  /** The box once the item is handed over; a pump that reads makes as much room before as it can. */
  function Handed(box: Box, item: Item): Box {
    if !box.reading then Filled(box, item) else if item.Data? then Box(1, true) else Box(0, false)
  }

  /** The box of a subscription once serve is back at its select. */
  function After(s: State, sub: Sub): Box {
    if s.server.pc.Dispatching? && sub in s.server.pc.pending
    then Handed(BoxOf(s.clients, sub), s.server.pc.item)
    else BoxOf(s.clients, sub)
  }

  predicate SomeoneSubscribes(clients: Clients) {
    exists sub | sub in clients.pcs :: clients.pcs[sub].Subscribing?
  }

  /** The subscription need not be the last when its request is taken. */
  predicate HasCompany(s: State, sub: Sub) {
    s.server.subscriptions != {sub} || SomeoneSubscribes(s.clients)
  }

  /**
   The last subscription can leave: its consume loop has posted its value, or its pump still reads and so
   drains what is under way, or that fits the message channel and what room the subscription has left.
   */
  predicate LastCanLeave(s: State, sub: Sub) {
    || !Unposted(s.consumption.loop)
    || After(s, sub).reading
    || (s.channels.errors == [] && Demand(s) <= CAPACITY + Room(After(s, sub)))
  }

  /** Whoever requests a close can check this then. */
  predicate Answerable(s: State, sub: Sub) {
    !Lost(s) && (HasCompany(s, sub) || LastCanLeave(s, sub))
  }

  /** The broker has gone quiet and no client makes a new request. */
  predicate Unhelped(a: Action) {
    Quiet(a) && !a.BeginSubscribe? && !a.BeginUnsubscribe? && !a.BeginClose?
  }

  // ---------------------------------------------------------------- without it, no answer

  /** The request is never taken, or it is and serve never leaves stop. */
  ghost predicate Hopeless(s: State, sub: Sub) {
    || (PcOf(s.clients, sub).Unsubscribing? && !Answerable(s, sub))
    || (PcOf(s.clients, sub).AwaitUnsubscribe? && s.server.pc.StopConsuming? && !CanFinish(s))
  }

  /** Only the closer stops a reader that has subscribers. */
  lemma StoppingIsEmpty(s: State)
    requires Inv(s) && Stopping(s.server.pc) && !Closing(s.server.pc)
    ensures s.server.subscriptions == {}
  {
    LifecycleHolds(s.server.events);
  }

  lemma AloneAmongClients(s: State, sub: Sub, other: Sub)
    requires Inv(s) && !HasCompany(s, sub)
    ensures !PcOf(s.clients, other).Subscribing?
    ensures PcOf(s.clients, other).Unsubscribing? ==> other == sub
  {
    assert ClientAgrees(s.server, other, PcOf(s.clients, other));
  }

  ghost predicate LastStuck(s: State, sub: Sub) {
    PcOf(s.clients, sub).Unsubscribing? && !Lost(s) && !HasCompany(s, sub) && !LastCanLeave(s, sub)
  }

  lemma NoNewcomers(s: State, a: Action, sub: Sub)
    requires Enabled(s, a) && Unhelped(a) && !HasCompany(s, sub)
    requires Apply(s, a).server.subscriptions == {sub}
    ensures !HasCompany(Apply(s, a), sub)
  {
    if ConsumerStep(a) {
      ConsumerFrame(s, a);
    }
    var t := Apply(s, a);
    forall q | q in t.clients.pcs
      ensures !t.clients.pcs[q].Subscribing?
    {
      assert q in s.clients.pcs ==> !s.clients.pcs[q].Subscribing?;
    }
  }

  lemma ClientStepStuck(s: State, a: Action, sub: Sub)
    requires Enabled(s, a) && ClientStep(a) && Unhelped(a) && LastStuck(s, sub)
    ensures Hopeless(Apply(s, a), sub)
  {
    ClientFrame(s, a);
    NoNewcomers(s, a, sub);
    var t := Apply(s, a);
    assert Demand(t) == Demand(s);
    hide Demand, HasCompany;
  }

  lemma ConsumerStepDemands(s: State, a: Action)
    requires Enabled(s, a) && ConsumerStep(a) && Quiet(a) && !ClaimStep(a)
    ensures Demand(Apply(s, a)) == Demand(s)
  {
    assert Apply(s, a).consumption.claims == s.consumption.claims;
  }

  lemma ClaimInRange(s: State, a: Action)
    requires Enabled(s, a) && ClaimStep(a)
    ensures a.claim < |s.consumption.claims|
  {
  }

  lemma QuietConsumerDemands(s: State, a: Action)
    requires Enabled(s, a) && ConsumerStep(a) && Quiet(a) && ClaimsAgree(s) && !Apply(s, a).fault
    ensures Demand(Apply(s, a)) == Demand(s)
  {
    hide Apply, Enabled, Demand;
    if ClaimStep(a) {
      ClaimInRange(s, a);
      assert ClaimAgrees(a.claim, s.consumption.claims[a.claim], s.channels.enqueued);
      ClaimStepDemands(s, a);
    } else {
      ConsumerStepDemands(s, a);
    }
  }

  lemma LoopStaysUnposted(s: State, a: Action)
    requires Enabled(s, a) && ConsumerStep(a) && Unposted(s.consumption.loop) && !Apply(s, a).fault
    requires s.channels.errors != [] || s.consumption.loop.InSession?
    ensures Unposted(Apply(s, a).consumption.loop) && Apply(s, a).channels.errors == s.channels.errors
  {
  }

  lemma ConsumerStepStuck(s: State, a: Action, sub: Sub)
    requires Inv(s) && Enabled(s, a) && ConsumerStep(a) && Unhelped(a) && LastStuck(s, sub)
    ensures Hopeless(Apply(s, a), sub)
  {
    ConsumerFrame(s, a);
    NoFault(s, a);
    QuietConsumerDemands(s, a);
    if !s.consumption.loop.InSession? {
      NothingPendingOutsideSession(s.consumption);
      assert s.channels.errors != [];
    }
    LoopStaysUnposted(s, a);
    hide Inv, Demand, Apply, Enabled, HasCompany;
  }

  lemma TakeStuck(s: State, a: Action, sub: Sub)
    requires Inv(s) && Enabled(s, a) && (a.TakeMessage? || a.TakeError?) && LastStuck(s, sub)
    ensures Hopeless(Apply(s, a), sub)
  {
    var t := Apply(s, a);
    NoNewcomers(s, a, sub);
    if a.TakeMessage? {
      assert Demand(t) == Demand(s) - 1;
    } else {
      assert sub in t.server.pc.pending && !CanTake(BoxOf(t.clients, sub), t.server.pc.item);
    }
    hide Inv, Demand, HasCompany;
  }

  lemma DispatchStuck(s: State, a: Action, sub: Sub)
    requires Inv(s) && Enabled(s, a) && (a.HandTo? || a.EndDispatch?) && LastStuck(s, sub)
    ensures Hopeless(Apply(s, a), sub)
  {
    var t := Apply(s, a);
    NoNewcomers(s, a, sub);
    assert Demand(t) == Demand(s);
    hide Inv, Demand, HasCompany;
  }

  lemma RequestStuck(s: State, a: Action, sub: Sub)
    requires Inv(s) && Enabled(s, a) && (a.RequestSub? || a.RequestClose?) && LastStuck(s, sub)
    ensures Hopeless(Apply(s, a), sub)
  {
    NoFault(s, a);
    if a.RequestSub? {
      AloneAmongClients(s, sub, a.sub);
      assert ClientAgrees(s.server, sub, PcOf(s.clients, sub));
      assert s.server.subscriptions - {sub} == {};
      assert Demand(Apply(s, a)) == Demand(s);
    }
    hide Inv, Demand, HasCompany;
  }

  lemma RespondStuck(s: State, a: Action, sub: Sub)
    requires Inv(s) && Enabled(s, a) && a.Respond? && LastStuck(s, sub)
    ensures Hopeless(Apply(s, a), sub)
  {
    NoNewcomers(s, a, sub);
    assert Demand(Apply(s, a)) == Demand(s);
    hide Inv, Demand, HasCompany;
  }

  lemma LastStuckStep(s: State, a: Action, sub: Sub)
    requires Inv(s) && Enabled(s, a) && Unhelped(a) && LastStuck(s, sub)
    ensures Hopeless(Apply(s, a), sub)
  {
    if ClientStep(a) {
      ClientStepStuck(s, a, sub);
    } else if ConsumerStep(a) {
      ConsumerStepStuck(s, a, sub);
    } else if a.TakeMessage? || a.TakeError? {
      TakeStuck(s, a, sub);
    } else if a.HandTo? || a.EndDispatch? {
      DispatchStuck(s, a, sub);
    } else if a.RequestSub? || a.RequestClose? {
      RequestStuck(s, a, sub);
    } else if a.Respond? {
      RespondStuck(s, a, sub);
    } else {
      StoppingIsEmpty(s);
    }
    hide Inv, Hopeless, Apply;
  }

  lemma StopStaysAwaited(s: State, a: Action, sub: Sub)
    requires Enabled(s, a) && Stopping(s.server.pc) && PcOf(s.clients, sub).AwaitUnsubscribe?
    ensures PcOf(Apply(s, a).clients, sub).AwaitUnsubscribe?
  {
    if ConsumerStep(a) {
      ConsumerFrame(s, a);
    }
  }

  lemma HopelessStays(s: State, a: Action, sub: Sub)
    requires Inv(s) && Enabled(s, a) && Unhelped(a) && Hopeless(s, sub)
    ensures Hopeless(Apply(s, a), sub)
  {
    if PcOf(s.clients, sub).AwaitUnsubscribe? {
      StuckStep(s, a);
      StopStaysAwaited(s, a, sub);
    } else if Lost(s) {
      LostStays(s, a);
      RequestStays(s, a, sub);
    } else {
      LastStuckStep(s, a, sub);
    }
    hide Inv, Enabled, Apply, Lost, HasCompany, LastCanLeave, CanFinish;
  }

  lemma {:induction false} NoAnswer(s: State, more: seq<Action>, sub: Sub)
    requires Inv(s) && Hopeless(s, sub) && Runs(s, more) && forall a | a in more :: Unhelped(a)
    ensures !PcOf(Exec(s, more).clients, sub).Unsubscribed?
    decreases |more|
  {
    if more != [] {
      assert more[0] in more;
      InvKept(s, more[0]);
      HopelessStays(s, more[0], sub);
      NoAnswer(Apply(s, more[0]), more[1..], sub);
    }
    hide Inv;
  }
}

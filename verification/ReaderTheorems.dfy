/** What holds of every run of the reader protocol, in every interleaving. */
module ReaderTheorems {
  import opened ReaderSpec
  import opened ReaderProtocol
  import opened ReaderInvariant

  lemma Reachable(actions: seq<Action>)
    requires Runs(Init(), actions)
    ensures Inv(Exec(Init(), actions))
  {
    InitHolds();
    InvAlways(Init(), actions);
  }

  // ---------------------------------------------------------------- panics

  /** A request that meets closed channels: under way when the reader closes them, or made afterwards. */
  predicate MeetsClosed(s: State, a: Action) {
    || (a.CloseChannels? && SomeoneRequests(s.clients))
    || ((a.BeginSubscribe? || a.BeginUnsubscribe?) && s.channels.closed)
  }

  predicate RequestMeetsClosed(s: State, actions: seq<Action>)
    requires Runs(s, actions)
    decreases |actions|
  {
    actions != [] && (MeetsClosed(s, actions[0]) || RequestMeetsClosed(Apply(s, actions[0]), actions[1..]))
  }

  lemma {:induction false} FaultsFrom(s: State, actions: seq<Action>)
    requires Inv(s) && !s.fault && Runs(s, actions)
    ensures Exec(s, actions).fault <==> RequestMeetsClosed(s, actions)
    decreases |actions|
  {
    if actions != [] {
      var a := actions[0];
      InvKept(s, a);
      FaultStep(s, a);
      if Apply(s, a).fault {
        assert actions[1..] == [];
      } else {
        FaultsFrom(Apply(s, a), actions[1..]);
      }
    }
  }

  lemma FaultStep(s: State, a: Action)
    requires Inv(s) && Enabled(s, a)
    ensures Apply(s, a).fault <==> MeetsClosed(s, a)
  {
    if !ClientStep(a) {
      NoFault(s, a);
    }
    hide Inv;
  }

  /**
   A run panics if and only if a request meets the channels its reader has closed: no other send on a
   closed channel and no stop without a consumer happens in any interleaving.
   */
  lemma FaultsExactlyWhen(actions: seq<Action>)
    requires Runs(Init(), actions)
    ensures Exec(Init(), actions).fault <==> RequestMeetsClosed(Init(), actions)
  {
    InitHolds();
    FaultsFrom(Init(), actions);
  }

  /**
   The same without the notion of a fault: in every run whoever serve hands an item to has both its channels open, the
   channels of the reader are open while anybody could send on them, and serve stops only with a consumer.
   */
  lemma SendsOnlyOnOpen(actions: seq<Action>, sub: Sub, k: nat)
    requires Runs(Init(), actions)
    ensures var s := Exec(Init(), actions); var pc := PcOf(s.clients, sub);
            && (s.server.pc.Dispatching? && sub in s.server.pc.pending ==> pc.Active? || pc.Unsubscribing?)
            && (s.consumption.loop.Posting? ==> !s.channels.closed)
            && (k < |s.consumption.claims| && s.consumption.claims[k].pc.Sending? ==> !s.channels.closed)
            && (AwaitingPc(pc) || s.server.pc.Responding? ==> !s.channels.closed)
            && (Stopping(s.server.pc) ==> s.server.consumer)
            && (s.server.pc.Select? && pc.Unsubscribing? ==> s.server.consumer && sub in s.server.subscriptions)
  {
    Reachable(actions);
    var s := Exec(Init(), actions);
    assert ClientAgrees(s.server, sub, PcOf(s.clients, sub));
    assert Awaiting(s.clients, Subscriber(sub)) ==> Busy(s.server.pc);
    LifecycleHolds(s.server.events);
  }

  /** And what would be a fault is one. */
  lemma ClosedSendsPanic(s: State, sub: Sub)
    requires !s.fault
    ensures s.server.pc.Dispatching? && sub in s.server.pc.pending && PcOf(s.clients, sub).AllClosed? ==>
              Enabled(s, HandTo(sub)) && Apply(s, HandTo(sub)).fault
    ensures s.server.pc.Dispatching? && sub in s.server.pc.pending && PcOf(s.clients, sub).PostsClosed?
            && s.server.pc.item.Data? ==>
              Enabled(s, HandTo(sub)) && Apply(s, HandTo(sub)).fault
    ensures s.channels.closed && s.consumption.loop.Posting? ==>
              Enabled(s, PostError) && Apply(s, PostError).fault
    ensures forall k: nat | s.channels.closed && k < |s.consumption.claims| && s.consumption.claims[k].pc.Sending? ::
              Enabled(s, Enqueue(k)) && Apply(s, Enqueue(k)).fault
    ensures s.server.pc.Select? && PcOf(s.clients, sub).Unsubscribing? && sub in s.server.attached
            && s.server.subscriptions <= {sub} && !s.server.consumer ==>
              Enabled(s, RequestSub(sub, true)) && Apply(s, RequestSub(sub, true)).fault
  {
  }

  /** Who closes the reader sees to it that nobody is making a request then, and nobody makes one later. */
  predicate RequestsEndFirst(s: State, actions: seq<Action>)
    requires Runs(s, actions)
    decreases |actions|
  {
    actions != [] ==>
      && (actions[0].BeginClose? ==> !SomeoneRequests(s.clients))
      && (actions[0].BeginSubscribe? || actions[0].BeginUnsubscribe? ==> s.clients.closer.CloserIdle?)
      && RequestsEndFirst(Apply(s, actions[0]), actions[1..])
  }

  predicate NoneSinceClose(clients: Clients) {
    !clients.closer.CloserIdle? ==> !SomeoneRequests(clients)
  }

  lemma NoneSinceCloseStep(s: State, a: Action)
    requires Enabled(s, a) && NoneSinceClose(s.clients)
    requires a.BeginClose? ==> !SomeoneRequests(s.clients)
    requires a.BeginSubscribe? || a.BeginUnsubscribe? ==> s.clients.closer.CloserIdle?
    ensures NoneSinceClose(Apply(s, a).clients)
  {
    if ConsumerStep(a) {
      ConsumerFrame(s, a);
    }
    var t := Apply(s, a);
    if !t.clients.closer.CloserIdle? {
      forall sub | sub in t.clients.pcs
        ensures !Requesting(t.clients.pcs[sub])
      {
        assert sub in s.clients.pcs ==> !Requesting(s.clients.pcs[sub]);
      }
    }
  }

  lemma {:induction false} NoneMeets(s: State, actions: seq<Action>)
    requires Inv(s) && Runs(s, actions) && RequestsEndFirst(s, actions) && NoneSinceClose(s.clients)
    ensures !RequestMeetsClosed(s, actions)
    decreases |actions|
  {
    if actions != [] {
      assert s.channels.closed ==> !s.clients.closer.CloserIdle?;
      InvKept(s, actions[0]);
      NoneSinceCloseStep(s, actions[0]);
      NoneMeets(Apply(s, actions[0]), actions[1..]);
    }
  }

  /** Under that discipline nobody ever sends on a closed channel or stops a reader without a consumer. */
  lemma NeverPanics(actions: seq<Action>)
    requires Runs(Init(), actions) && RequestsEndFirst(Init(), actions)
    ensures !Exec(Init(), actions).fault
  {
    InitHolds();
    NoneMeets(Init(), actions);
    FaultsExactlyWhen(actions);
  }

  lemma {:induction false} ExtendFrom(s: State, actions: seq<Action>, a: Action)
    requires Runs(s, actions) && Enabled(Exec(s, actions), a)
    ensures Runs(s, actions + [a])
    ensures Exec(s, actions + [a]) == Apply(Exec(s, actions), a)
    decreases |actions|
  {
    if actions == [] {
      assert [] + [a] == [a];
    } else {
      assert (actions + [a])[1..] == actions[1..] + [a];
      ExtendFrom(Apply(s, actions[0]), actions[1..], a);
    }
  }

  /** One more step of a run under construction. */
  lemma Then(actions: seq<Action>, a: Action) returns (longer: seq<Action>)
    requires Runs(Init(), actions) && Enabled(Exec(Init(), actions), a)
    ensures Runs(Init(), longer) && Exec(Init(), longer) == Apply(Exec(Init(), actions), a)
  {
    longer := actions + [a];
    ExtendFrom(Init(), actions, a);
  }

  /** A subscriber parked on its request while the reader is closed: closing the channel panics it. */
  lemma RequestCanMeetClose() returns (actions: seq<Action>)
    ensures Runs(Init(), actions) && RequestMeetsClosed(Init(), actions) && Exec(Init(), actions).fault
  {
    actions := Then([], BeginSubscribe(0));
    actions := Then(actions, BeginClose);
    actions := Then(actions, RequestClose);
    actions := Then(actions, Respond(Closer));
    assert Requesting(Exec(Init(), actions).clients.pcs[0]);
    actions := Then(actions, CloseChannels);
    FaultsExactlyWhen(actions);
  }

  // ---------------------------------------------------------------- requests and messages

  /**
   The two channels shared by all requesters never mix responses up: at most one requester awaits one,
   and the k-th response went to whoever made the k-th request and is the outcome of that request.
   */
  lemma ResponsesMatchRequests(actions: seq<Action>)
    requires Runs(Init(), actions)
    ensures var t := Exec(Init(), actions);
            var received, requests := t.clients.received, Requests(t.server.events);
            && (forall p, q :: Awaiting(t.clients, p) && Awaiting(t.clients, q) ==> p == q)
            && |requests| == |received| + (if Busy(t.server.pc) then 1 else 0)
            && |requests| == |Fold(t.server.events).replies|
            && (forall k | 0 <= k < |received| ::
                  && received[k].to == requests[k]
                  && received[k] == Fold(t.server.events).replies[k])
  {
    Reachable(actions);
    RepliesAnswerRequests(Exec(Init(), actions).server.events);
  }

  /** The fields of serve between two selects. */
  function Between(s: State): View<Sub> {
    View(s.server.subscriptions, s.server.attached, s.server.consumer, s.server.starts, s.server.stops,
         s.server.delivered, s.clients.received, false, false)
  }

  /** Every concurrent run is equivalent to handling its select cases one by one. */
  lemma Linearizable(actions: seq<Action>)
    requires Runs(Init(), actions) && Exec(Init(), actions).server.pc.Select?
    ensures Between(Exec(Init(), actions)) == Fold(Exec(Init(), actions).server.events)
  {
    Reachable(actions);
  }

  /**
   At every moment a subscriber has been handed exactly the contiguous block of items taken since its
   subscribe and before its unsubscribe; only the item being dispatched may still be owed to it.
   */
  lemma EachSubscriberGetsItsBlock(actions: seq<Action>, sub: Sub)
    requires Runs(Init(), actions)
    ensures var server := Exec(Init(), actions).server;
            && (sub !in server.attached ==> Get(server.delivered, sub) == [])
            && (sub in server.attached ==>
                  exists i: nat, j: nat ::
                    && Window(server.events, sub, i, j)
                    && Items(server.events[i + 1..j])
                       == Get(server.delivered, sub)
                        + if server.pc.Dispatching? && sub in server.pc.pending then [server.pc.item] else [])
  {
    Reachable(actions);
    var s := Exec(Init(), actions);
    WindowExists(s.server.events, sub);
    if sub in s.server.attached {
      var i: nat, j: nat :| Window(s.server.events, sub, i, j);
      DeliveredIsWindow(s.server.events, sub, i, j);
      assert Get(Settled(s.server, s.clients).delivered, sub) == Items(s.server.events[i + 1..j]);
    }
  }

  predicate CloseReturned(pc: ClientPc) {
    pc.Rejected? || pc.Unsubscribed? || pc.PostsClosed? || pc.AllClosed?
  }

  lemma CloseStaysReturned(s: State, a: Action, sub: Sub)
    requires Enabled(s, a) && !ConsumerStep(a) && CloseReturned(PcOf(s.clients, sub))
    ensures CloseReturned(PcOf(Apply(s, a).clients, sub))
  {
    hide Deliver;
  }

  lemma NotHanded(s: State, a: Action, sub: Sub)
    requires Enabled(s, a) && !ConsumerStep(a) && !ClientStep(a)
    requires s.server.pc.Dispatching? ==> sub !in s.server.pc.pending
    ensures Get(Apply(s, a).server.delivered, sub) == Get(s.server.delivered, sub)
  {
  }

  lemma StepAfterClose(s: State, a: Action, sub: Sub)
    requires Inv(s) && Enabled(s, a) && CloseReturned(PcOf(s.clients, sub))
    ensures CloseReturned(PcOf(Apply(s, a).clients, sub))
    ensures Get(Apply(s, a).server.delivered, sub) == Get(s.server.delivered, sub)
  {
    assert ClientAgrees(s.server, sub, PcOf(s.clients, sub));
    assert s.server.pc.Dispatching? ==> sub !in s.server.pc.pending;
    hide Inv, Enabled, Apply;
    if ConsumerStep(a) {
      ConsumerFrame(s, a);
    } else {
      CloseStaysReturned(s, a, sub);
      if ClientStep(a) {
        ClientFrame(s, a);
      } else {
        NotHanded(s, a, sub);
      }
    }
  }

  lemma {:induction false} NothingFrom(s: State, actions: seq<Action>, sub: Sub)
    requires Inv(s) && Runs(s, actions) && CloseReturned(PcOf(s.clients, sub))
    ensures Get(Exec(s, actions).server.delivered, sub) == Get(s.server.delivered, sub)
    decreases |actions|
  {
    if actions != [] {
      InvKept(s, actions[0]);
      StepAfterClose(s, actions[0], sub);
      NothingFrom(Apply(s, actions[0]), actions[1..], sub);
    }
  }

  /**
   Once the unsubscribe request inside Close has returned, the reader never again calls that
   subscription's handle nor sends on its error channel, so closing both channels is safe.
   */
  lemma NothingAfterClose(actions: seq<Action>, more: seq<Action>, sub: Sub)
    requires Runs(Init(), actions) && CloseReturned(PcOf(Exec(Init(), actions).clients, sub))
    requires Runs(Exec(Init(), actions), more)
    ensures Get(Exec(Exec(Init(), actions), more).server.delivered, sub)
         == Get(Exec(Init(), actions).server.delivered, sub)
  {
    Reachable(actions);
    NothingFrom(Exec(Init(), actions), more, sub);
  }

  // ---------------------------------------------------------------- conservation of messages

  lemma {:induction false} ByClaimMember(enqueued: seq<Message>, k: nat, i: nat)
    requires i < |ByClaim(enqueued, k)|
    ensures ByClaim(enqueued, k)[i] in enqueued
  {
    var n := |enqueued| - 1;
    if i < |ByClaim(enqueued[..n], k)| {
      ByClaimMember(enqueued[..n], k, i);
    }
  }

  /** What serve takes is a prefix of what the claims enqueued, all but at most one message of it. */
  lemma TakenIsPrefix(actions: seq<Action>)
    requires Runs(Init(), actions)
    ensures var s := Exec(Init(), actions);
            && TakenMessages(s.server.events) <= s.channels.enqueued
            && |s.channels.enqueued| - |TakenMessages(s.server.events)| <= 1
  {
    Reachable(actions);
  }

  /**
   Per claim: messages are enqueued in claim order, each record once, and all enqueued ones but at most
   the last are marked, in order; a record that fails to convert is not marked, every earlier one is.
   */
  lemma ClaimConservation(actions: seq<Action>, k: nat)
    requires Runs(Init(), actions) && k < |Exec(Init(), actions).consumption.claims|
    ensures var s := Exec(Init(), actions);
            var claim, mine := s.consumption.claims[k], ByClaim(s.channels.enqueued, k);
            && |mine| <= |claim.source|
            && (forall i | 0 <= i < |mine| ::
                  !claim.source[i].malformed && mine[i] == Message(k, i, claim.source[i].value))
            && 0 <= |mine| - |claim.marked| <= 1
            && (forall i | 0 <= i < |claim.marked| :: claim.marked[i] == i)
            && (claim.pc.Returned? && claim.pc.failed ==>
                  |claim.marked| < |claim.source| && claim.source[|claim.marked|].malformed)
            && (claim.pc.Returned? && !claim.pc.failed ==> |claim.marked| == |claim.source|)
  {
    Reachable(actions);
    var s := Exec(Init(), actions);
    assert ClaimAgrees(k, s.consumption.claims[k], s.channels.enqueued);
  }

  /** Across all claims, at most one marked message has not been taken by serve. */
  lemma MarkedIsTaken(actions: seq<Action>, k: nat, i: nat)
    requires Runs(Init(), actions) && k < |Exec(Init(), actions).consumption.claims|
    requires i in Exec(Init(), actions).consumption.claims[k].marked
    ensures var s := Exec(Init(), actions);
            i < |s.consumption.claims[k].source| &&
            var message := Message(k, i, s.consumption.claims[k].source[i].value);
            message in TakenMessages(s.server.events) || s.channels.messages == [message]
  {
    Reachable(actions);
    var s := Exec(Init(), actions);
    ClaimConservation(actions, k);
    ByClaimMember(s.channels.enqueued, k, i);
  }

  // ---------------------------------------------------------------- lifecycle

  /**
   Back at its select, serve has a consumer exactly when somebody is subscribed; successful starts and
   stops alternate; each consumer's loop has posted one error value or has yet to, and never a second; its
   errors are watched as long as it is open, and nothing of it is left when it is gone.
   */
  lemma ConsumerLifecycle(actions: seq<Action>)
    requires Runs(Init(), actions)
    ensures var s := Exec(Init(), actions);
            && (s.server.pc.Select? ==> (s.server.consumer <==> s.server.subscriptions != {}))
            && s.server.starts == s.server.stops + (if s.server.consumer then 1 else 0)
            && s.consumption.posts == s.server.starts - (if Unposted(s.consumption.loop) then 1 else 0)
            && s.consumption.posts == TakenErrors(s.server.events) + |s.channels.errors|
            && (!s.server.consumer ==> !Unposted(s.consumption.loop))
            && (s.server.consumer && !s.server.pc.StopConsumer? ==> s.consumption.errorPump)
            && (!s.server.consumer ==> s.consumption.loop.Parked? && !s.consumption.errorPump)
  {
    Reachable(actions);
    LifecycleHolds(Exec(Init(), actions).server.events);
  }

  /** When the reader's channels are closed, nobody is left who could send on them. */
  lemma ChannelsCloseLast(actions: seq<Action>)
    requires Runs(Init(), actions) && Exec(Init(), actions).channels.closed
    ensures var s := Exec(Init(), actions);
            && s.server.pc.Exited? && !s.server.consumer
            && s.consumption.loop.Parked? && !s.consumption.errorPump
            && AllReturned(s.consumption.claims)
  {
    Reachable(actions);
  }
}

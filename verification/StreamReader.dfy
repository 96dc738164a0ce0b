/**
 The serving goroutine of au10/streamreader.go as the object it is: `subscribe`, `unsubscribe`, `start`,
 `stop`, `close` and the `serve` loop over its own fields. Every method is proved against the sequential
 view of ReaderSpec; what that view promises is proved there.
 */
module StreamReaders {
  import opened ReaderSpec

  /** `received` stands for the calls of handle and the sends on errChan. */
  class StreamSubscription {
    var stream: StreamReader?
    var received: seq<Item>

    constructor ()
      ensures stream == null && received == []
    {
      stream, received := null, [];
    }
  }

  class StreamReader {
    var subscriptions: set<StreamSubscription>
    var consumer: bool
    var responses: seq<Reply<StreamSubscription>>
    var finished: bool
    var panicked: bool
    ghost var starts: nat
    ghost var stops: nat
    ghost const clients: set<StreamSubscription>

    ghost predicate Valid()
      reads this, clients
    {
      && subscriptions <= clients
      && (forall sub | sub in clients :: sub.stream == null || sub.stream == this)
    }

    ghost function State(): View<StreamSubscription>
      reads this, clients
    {
      View(subscriptions,
           (set sub | sub in clients && sub.stream == this),
           consumer, starts, stops,
           (map sub | sub in clients && sub.received != [] :: sub.received),
           responses, finished, panicked)
    }

    /** A reader for the given subscriptions, none of which has subscribed yet. */
    constructor (ghost clients: set<StreamSubscription>)
      requires forall sub | sub in clients :: sub.stream == null && sub.received == []
      ensures this.clients == clients && Valid() && State() == InitView()
    {
      subscriptions, consumer := {}, false;
      responses, finished, panicked := [], false, false;
      starts, stops := 0, 0;
      this.clients := clients;
    }

    /** Opens the consumer or reports that it does not open. */
    method Start(opens: bool) returns (ok: bool)
      requires Valid() && !consumer
      modifies this
      ensures Valid() && ok == opens
      ensures State() == old(State()).(open := opens, starts := old(starts) + if opens then 1 else 0)
    {
      consumer := opens;
      if !opens {
        return false;
      }
      starts := starts + 1;
      return true;
    }

    /** Closes the consumer, or panics on a nil one. When its two waits end at all is what ReaderStop proves. */
    method Stop()
      requires Valid()
      modifies this
      ensures Valid()
      ensures old(consumer) ==> State() == old(State()).(open := false, stops := old(stops) + 1)
      ensures !old(consumer) ==> State() == old(State()).(panicked := true)
    {
      if !consumer {
        panicked := true;
        return;
      }
      consumer := false;
      stops := stops + 1;
    }

    method Close()
      requires Valid()
      modifies this
      ensures Valid()
      ensures State() == old(State()).(open := false, stops := old(stops) + if old(consumer) then 1 else 0)
    {
      if !consumer {
        return;
      }
      Stop();
    }

    method Subscribe(subscription: StreamSubscription, opens: bool) returns (outcome: Outcome)
      requires Valid() && subscription in clients
      modifies this
      ensures Valid() && responses == old(responses)
      ensures outcome == if old(consumer) || opens then Accepted else StartFailed
      ensures outcome.StartFailed? ==> State() == old(State())
      ensures outcome.Accepted? ==>
        State() == old(State()).(open := true, starts := old(starts) + (if old(consumer) then 0 else 1),
                                 subscriptions := old(subscriptions) + {subscription})
    {
      if !consumer {
        var ok := Start(opens);
        if !ok {
          return StartFailed;
        }
      }
      subscriptions := subscriptions + {subscription};
      return Accepted;
    }

    method Unsubscribe(subscription: StreamSubscription)
      requires Valid()
      modifies this
      ensures Valid()
      ensures var left := old(subscriptions) - {subscription};
              State() == if left != {} then old(State()).(subscriptions := left)
                         else if old(consumer) then
                           old(State()).(subscriptions := left, open := false, stops := old(stops) + 1)
                         else old(State()).(subscriptions := left, panicked := true)
    {
      subscriptions := subscriptions - {subscription};
      if subscriptions == {} {
        Stop();
      }
    }

    /** A request of a subscription that has no reader yet. */
    method Join(subscription: StreamSubscription, opens: bool)
      requires Valid() && subscription in clients && subscription.stream == null
      modifies this, subscription
      ensures Valid()
      ensures State() == ReaderSpec.Subscribe(old(State()), subscription, opens)
    {
      var outcome := Subscribe(subscription, opens);
      if outcome == Accepted {
        subscription.stream := this;
      }
      responses := responses + [Reply(Subscriber(subscription), outcome)];
    }

    /** A request of one that has: it leaves. */
    method Leave(subscription: StreamSubscription)
      requires Valid() && !panicked
      modifies this
      ensures Valid()
      ensures State() == ReaderSpec.Unsubscribe(old(State()), subscription)
    {
      Unsubscribe(subscription);
      if !panicked {
        responses := responses + [Reply(Subscriber(subscription), Accepted)];
      }
    }

    /** The request case of the select; null asks the reader to close. */
    method HandleRequest(subscription: StreamSubscription?, opens: bool)
      requires Valid() && !finished && !panicked
      requires subscription != null ==> subscription in clients
      modifies this, if subscription == null then {} else {subscription}
      ensures Valid()
      ensures State() == Step(old(State()), if subscription == null then AskClose else Ask(subscription, opens))
    {
      hide ReaderSpec.Subscribe, ReaderSpec.Unsubscribe, Deliver, Get;
      if subscription == null {
        Close();
        responses := responses + [Reply(Closer, Accepted)];
        finished := true;
      } else if subscription.stream == null {
        Join(subscription, opens);
      } else {
        Leave(subscription);
      }
    }

    /** A pass over the subscriptions, in no particular order. */
    method HandToAll(item: Item)
      modifies subscriptions
      ensures forall sub | sub in subscriptions ::
        sub.received == old(sub.received) + [item] && sub.stream == old(sub.stream)
    {
      var pending := subscriptions;
      while pending != {}
        invariant pending <= subscriptions
        invariant forall sub | sub in subscriptions :: sub.stream == old(sub.stream)
        invariant forall sub | sub in pending :: sub.received == old(sub.received)
        invariant forall sub | sub in subscriptions && sub !in pending ::
          sub.received == old(sub.received) + [item]
        decreases |pending|
      {
        var sub :| sub in pending;
        sub.received := sub.received + [item];
        pending := pending - {sub};
      }
    }

    /** The message and error cases of the select. */
    method Dispatch(item: Item)
      requires Valid() && !finished && !panicked
      modifies subscriptions
      ensures Valid() && State() == Step(old(State()), Take(item))
    {
      HandToAll(item);
      forall sub | sub in clients
        ensures sub.received == if sub in subscriptions then old(sub.received) + [item] else old(sub.received)
        ensures sub.stream == old(sub.stream)
      {
      }
      assert State().delivered == Deliver(old(State()).delivered, subscriptions, item);
    }

    /** The select loop over the cases it happens to pick; it ends with the reader closed, or in a panic. */
    method Serve(events: seq<Event<StreamSubscription>>)
      requires Valid() && State() == InitView()
      requires forall e | e in events && e.Ask? :: e.sub in clients
      modifies this, clients
      ensures Valid() && State() == Fold(events)
    {
      var i := 0;
      while i < |events| && !finished && !panicked
        invariant i <= |events|
        invariant Valid() && State() == Fold(events[..i])
      {
        assert events[i] in events;
        assert events[..i + 1] == events[..i] + [events[i]];
        FoldSnoc(events[..i], events[i]);
        match events[i] {
          case Ask(sub, opens) => HandleRequest(sub, opens);
          case AskClose => HandleRequest(null, false);
          case Take(item) => Dispatch(item);
        }
        i := i + 1;
      }
      HaltedStays(events, i);
    }
  }

  /** What a select loop that has ended does not see makes no difference. */
  lemma {:induction false} HaltedStays<S>(events: seq<Event<S>>, i: nat)
    requires i <= |events| && (i == |events| || Fold(events[..i]).Halted())
    ensures Fold(events) == Fold(events[..i])
    decreases |events|
  {
    if i == |events| {
      assert events[..i] == events;
    } else {
      var front := events[..|events| - 1];
      assert front[..i] == events[..i];
      HaltedStays(front, i);
    }
  }
}

/**
 The sequential meaning of one stream reader (au10/streamreader.go): what its serving goroutine does
 with the events its select statement picks, one event after the other. The concurrent protocol
 (ReaderProtocol) and the reader class (StreamReader) are both proved against this fold.
 */
module ReaderSpec {
  import opened Options

  /** One converted record; claim and index identify it, value is what the converter produced. */
  datatype Message = Message(claim: nat, index: nat, value: int)

  /** What serve fans out: a message to every handle, or an errChan value (None is Go's nil). */
  datatype Item = Data(message: Message) | Failure(error: Option<nat>)

  datatype Outcome = Accepted | StartFailed

  datatype Requester<+S> = Subscriber(sub: S) | Closer

  datatype Reply<+S> = Reply(to: Requester<S>, outcome: Outcome)

  /** A case of serve's select. `opens` is the answer the consumer factory would give. */
  datatype Event<+S> = Ask(sub: S, opens: bool) | AskClose | Take(item: Item)

  /**
   The fields of the reader that only the serving goroutine touches, plus what it has told the world:
   the items handed to each subscription and the responses it has decided.
   `attached` holds the subscriptions whose `stream` field is set.
   */
  datatype View<S(==)> = View(
    subscriptions: set<S>,
    attached: set<S>,
    open: bool,
    starts: nat,
    stops: nat,
    delivered: map<S, seq<Item>>,
    replies: seq<Reply<S>>,
    finished: bool,
    panicked: bool)
  {
    predicate Halted() {
      finished || panicked
    }
  }

  function InitView<S>(): View<S> {
    View({}, {}, false, 0, 0, map[], [], false, false)
  }

  function Get<S>(delivered: map<S, seq<Item>>, sub: S): seq<Item> {
    if sub in delivered then delivered[sub] else []
  }

  /** One pass of the loop over the subscription map. */
  function Deliver<S>(delivered: map<S, seq<Item>>, to: set<S>, item: Item): map<S, seq<Item>> {
    map sub | sub in delivered.Keys + to ::
      if sub in to then Get(delivered, sub) + [item] else delivered[sub]
  }

  function Subscribe<S>(v: View<S>, sub: S, opens: bool): View<S> {
    if !v.open && !opens then
      v.(replies := v.replies + [Reply(Subscriber(sub), StartFailed)])
    else
      v.(open := true,
         starts := if v.open then v.starts else v.starts + 1,
         subscriptions := v.subscriptions + {sub},
         attached := v.attached + {sub},
         replies := v.replies + [Reply(Subscriber(sub), Accepted)])
  }

  /** Stopping a reader that has no consumer dereferences nil. */
  function Unsubscribe<S>(v: View<S>, sub: S): View<S> {
    var left := v.subscriptions - {sub};
    if left != {} then
      v.(subscriptions := left, replies := v.replies + [Reply(Subscriber(sub), Accepted)])
    else if v.open then
      v.(subscriptions := left, open := false, stops := v.stops + 1,
         replies := v.replies + [Reply(Subscriber(sub), Accepted)])
    else
      v.(subscriptions := left, panicked := true)
  }

  function Finish<S>(v: View<S>): View<S> {
    v.(open := false,
       stops := if v.open then v.stops + 1 else v.stops,
       replies := v.replies + [Reply(Closer, Accepted)],
       finished := true)
  }

  function Step<S>(v: View<S>, event: Event<S>): View<S> {
    if v.Halted() then v
    else
      match event
      case Ask(sub, opens) => if sub in v.attached then Unsubscribe(v, sub) else Subscribe(v, sub, opens)
      case AskClose => Finish(v)
      case Take(item) => v.(delivered := Deliver(v.delivered, v.subscriptions, item))
  }

  function Fold<S>(events: seq<Event<S>>): View<S> {
    if events == [] then InitView()
    else Step(Fold(events[..|events| - 1]), events[|events| - 1])
  }

  lemma FoldSnoc<S>(events: seq<Event<S>>, event: Event<S>)
    ensures Fold(events + [event]) == Step(Fold(events), event)
  {
    assert (events + [event])[..|events|] == events;
  }

  /** The items among the events, in order: a definition that knows nothing of subscriptions. */
  function Items<S>(events: seq<Event<S>>): seq<Item> {
    if events == [] then []
    else
      var last := events[|events| - 1];
      Items(events[..|events| - 1]) + if last.Take? then [last.item] else []
  }

  lemma ItemsSnoc<S>(events: seq<Event<S>>, event: Event<S>)
    ensures Items(events + [event]) == Items(events) + if event.Take? then [event.item] else []
  {
    assert (events + [event])[..|events|] == events;
  }

  /** Who asked, in order. */
  function Requests<S>(events: seq<Event<S>>): seq<Requester<S>> {
    if events == [] then []
    else
      Requests(events[..|events| - 1]) +
      match events[|events| - 1]
      case Ask(sub, _) => [Subscriber(sub)]
      case AskClose => [Closer]
      case Take(_) => []
  }

  // ---------------------------------------------------------------- consumer lifecycle

  ghost predicate Consistent<S>(v: View<S>) {
    && (!v.Halted() ==> (v.open <==> v.subscriptions != {}))
    && (v.Halted() ==> !v.open)
    && v.starts == v.stops + (if v.open then 1 else 0)
    && v.subscriptions <= v.attached
    && v.delivered.Keys <= v.attached
  }

  /**
   Whenever serve is back at its select the consumer is open exactly when somebody is subscribed, and
   successful starts and stops alternate.
   */
  lemma {:induction false} LifecycleHolds<S>(events: seq<Event<S>>)
    ensures Consistent(Fold(events))
  {
    if events != [] {
      LifecycleHolds(events[..|events| - 1]);
    }
  }

  /**
   The nil consumer is reached by exactly one kind of event: a further request for a subscription that
   was already closed, made when nobody is subscribed. With other subscribers left it is harmless.
   */
  lemma PanicsExactlyWhen<S>(events: seq<Event<S>>, event: Event<S>)
    requires !Fold(events).Halted()
    ensures Fold(events + [event]).panicked
       <==> event.Ask? && event.sub in Fold(events).attached && Fold(events).subscriptions == {}
  {
    FoldSnoc(events, event);
    LifecycleHolds(events);
  }

  /** Who made the request of an event. */
  function RequesterOf<S>(event: Event<S>): Requester<S>
    requires !event.Take?
  {
    if event.Ask? then Subscriber(event.sub) else Closer
  }

  /**
   What each event is answered with: a failed start exactly when the first of a subscription comes while nobody is
   subscribed and the consumer does not open, an acceptance in every other case, a panic aside, and an item
   with no response.
   */
  lemma OutcomesExactly<S>(events: seq<Event<S>>, event: Event<S>)
    requires !Fold(events).Halted() && !Fold(events + [event]).panicked
    ensures var v, w := Fold(events), Fold(events + [event]);
            if event.Take? then w.replies == v.replies
            else
              w.replies == v.replies + [Reply(RequesterOf(event),
                if event.Ask? && event.sub !in v.attached && v.subscriptions == {} && !event.opens
                then StartFailed else Accepted)]
  {
    FoldSnoc(events, event);
    LifecycleHolds(events);
    hide Fold, Deliver;
  }

  /** Closing the only subscription twice does it. */
  lemma SecondClosePanics<S>(sub: S, opens: bool, opensAgain: bool)
    ensures Fold([Ask(sub, true), Ask(sub, opens), Ask(sub, opensAgain)]).panicked
  {
    FoldSnoc([], Ask(sub, true));
    FoldSnoc([Ask(sub, true)], Ask(sub, opens));
    FoldSnoc([Ask(sub, true), Ask(sub, opens)], Ask(sub, opensAgain));
    assert [] + [Ask(sub, true)] == [Ask(sub, true)];
    assert [Ask(sub, true)] + [Ask(sub, opens)] == [Ask(sub, true), Ask(sub, opens)];
    assert [Ask(sub, true), Ask(sub, opens)] + [Ask(sub, opensAgain)]
        == [Ask(sub, true), Ask(sub, opens), Ask(sub, opensAgain)];
  }

  /** A failed start changes nothing but the response. */
  lemma FailedStartChangesNothing<S>(events: seq<Event<S>>, sub: S)
    requires !Fold(events).Halted() && sub !in Fold(events).attached && Fold(events).subscriptions == {}
    ensures Fold(events + [Ask(sub, false)])
         == Fold(events).(replies := Fold(events).replies + [Reply(Subscriber(sub), StartFailed)])
  {
    FoldSnoc(events, Ask(sub, false));
    LifecycleHolds(events);
  }

  // ---------------------------------------------------------------- what one subscriber gets

  /** events[i] is the accepted subscribe of `sub`; events[j], if there is one, is its next request. */
  ghost predicate Window<S>(events: seq<Event<S>>, sub: S, i: nat, j: nat) {
    && i < j <= |events|
    && events[i].Ask? && events[i].sub == sub
    && sub !in Fold(events[..i]).attached
    && sub in Fold(events[..i + 1]).attached
    && (forall k | i < k < j :: events[k].Ask? ==> events[k].sub != sub)
    && (j < |events| ==> events[j].Ask? && events[j].sub == sub)
  }

  /** Every event was taken by a serving goroutine that had not stopped. */
  ghost predicate Served<S>(events: seq<Event<S>>) {
    events != [] ==> !Fold(events[..|events| - 1]).Halted()
  }

  /** The k-th response answers the k-th request. */
  lemma {:induction false} RepliesAnswerRequests<S>(events: seq<Event<S>>)
    requires Served(events) && !Fold(events).panicked
    ensures |Fold(events).replies| == |Requests(events)|
    ensures forall k | 0 <= k < |Requests(events)| :: Fold(events).replies[k].to == Requests(events)[k]
  {
    if events != [] {
      RepliesAnswerRequests(events[..|events| - 1]);
    }
  }

  lemma ServedFront<S>(events: seq<Event<S>>)
    requires Served(events) && events != []
    ensures Served(events[..|events| - 1])
  {
  }

  lemma WindowFront<S>(events: seq<Event<S>>, sub: S, i: nat, j: nat)
    requires Window(events, sub, i, j) && i < |events| - 1
    ensures Window(events[..|events| - 1], sub, i, if j == |events| then j - 1 else j)
  {
    var front := events[..|events| - 1];
    assert front[..i] == events[..i];
    assert front[..i + 1] == events[..i + 1];
  }

  lemma JoiningStep<S>(v: View<S>, sub: S, event: Event<S>)
    requires Consistent(v) && sub !in v.attached && sub in Step(v, event).attached
    ensures event.Ask? && event.sub == sub
    ensures sub in Step(v, event).subscriptions
    ensures Get(Step(v, event).delivered, sub) == []
  {
  }

  /** A subscribed one gets every item taken, and stays until it asks again. */
  lemma SubscribedStep<S>(v: View<S>, sub: S, event: Event<S>)
    requires !v.Halted() && sub in v.subscriptions && sub in v.attached
    requires event.Ask? ==> event.sub != sub
    ensures sub in Step(v, event).subscriptions && sub in Step(v, event).attached
    ensures Get(Step(v, event).delivered, sub)
         == Get(v.delivered, sub) + if event.Take? then [event.item] else []
  {
  }

  /** A departed one gets nothing and never comes back. */
  lemma DepartedStep<S>(v: View<S>, sub: S, event: Event<S>)
    requires sub in v.attached
    requires sub !in v.subscriptions || (event.Ask? && event.sub == sub && !v.Halted())
    ensures sub !in Step(v, event).subscriptions && sub in Step(v, event).attached
    ensures Get(Step(v, event).delivered, sub) == Get(v.delivered, sub)
  {
  }

  ghost predicate Received<S>(v: View<S>, sub: S, items: seq<Item>, inside: bool) {
    && Get(v.delivered, sub) == items
    && sub in v.attached
    && (sub in v.subscriptions <==> inside)
  }

  lemma BlockOpens<S>(events: seq<Event<S>>, sub: S)
    requires events != []
    requires sub !in Fold(events[..|events| - 1]).attached && sub in Fold(events).attached
    ensures Received(Fold(events), sub, [], true)
  {
    var front := events[..|events| - 1];
    LifecycleHolds(front);
    JoiningStep(Fold(front), sub, events[|events| - 1]);
  }

  lemma BlockGrows<S>(front: seq<Event<S>>, last: Event<S>, sub: S, items: seq<Item>)
    requires !Fold(front).Halted() && Received(Fold(front), sub, items, true)
    requires last.Ask? ==> last.sub != sub
    ensures Received(Fold(front + [last]), sub, items + if last.Take? then [last.item] else [], true)
  {
    FoldSnoc(front, last);
    SubscribedStep(Fold(front), sub, last);
    hide Step, Fold;
  }

  lemma BlockStays<S>(front: seq<Event<S>>, last: Event<S>, sub: S, items: seq<Item>, inside: bool)
    requires !Fold(front).Halted() && Received(Fold(front), sub, items, inside)
    requires inside ==> last.Ask? && last.sub == sub
    ensures Received(Fold(front + [last]), sub, items, false)
  {
    FoldSnoc(front, last);
    DepartedStep(Fold(front), sub, last);
    hide Step, Fold;
  }

  lemma ItemsOfNothing<S>(events: seq<Event<S>>, j: nat)
    requires j <= |events|
    ensures Items(events[j..j]) == []
  {
  }

  /** The items of a window that reaches the end grow with every item taken; others stay as they are. */
  lemma ItemsOfWindow<S>(front: seq<Event<S>>, last: Event<S>, i: nat, j: nat)
    requires i <= j <= |front| + 1 && i <= |front|
    ensures j <= |front| ==> Items((front + [last])[i..j]) == Items(front[i..j])
    ensures j == |front| + 1 ==>
              Items((front + [last])[i..j]) == Items(front[i..|front|]) + if last.Take? then [last.item] else []
  {
    if j <= |front| {
      assert (front + [last])[i..j] == front[i..j];
    } else {
      assert (front + [last])[i..j] == front[i..|front|] + [last];
      ItemsSnoc(front[i..|front|], last);
    }
    hide Items;
  }

  /** What the last event can be, seen from inside or behind a window. */
  lemma LastOfWindow<S>(events: seq<Event<S>>, sub: S, i: nat, j: nat)
    requires Served(events) && Window(events, sub, i, j) && i < |events| - 1
    ensures var last := events[|events| - 1];
            && !Fold(events[..|events| - 1]).Halted()
            && (j == |events| ==> last.Ask? ==> last.sub != sub)
            && (j == |events| - 1 ==> last.Ask? && last.sub == sub)
  {
    hide Fold;
  }

  lemma WindowOpens<S>(events: seq<Event<S>>, sub: S, j: nat)
    requires events != [] && Window(events, sub, |events| - 1, j)
    ensures Received(Fold(events), sub, [], true) && j == |events|
  {
    assert events[..|events|] == events;
    BlockOpens(events, sub);
    hide Fold;
  }

  /**
   A subscriber is handed exactly the contiguous block of items taken between its subscribe and its
   unsubscribe, in order and once each, and nothing after.
   */
  lemma {:induction false} DeliveredIsWindow<S>(events: seq<Event<S>>, sub: S, i: nat, j: nat)
    requires Served(events) && Window(events, sub, i, j)
    ensures Received(Fold(events), sub, Items(events[i + 1..j]), j == |events|)
    decreases |events|
  {
    assert i < j <= |events|;
    hide Items, Fold, Window, Served, Received;
    if i == |events| - 1 {
      WindowOpens(events, sub, j);
      ItemsOfNothing(events, j);
    } else {
      var front, last := events[..|events| - 1], events[|events| - 1];
      var inner := if j == |events| then j - 1 else j;
      WindowFront(events, sub, i, j);
      ServedFront(events);
      LastOfWindow(events, sub, i, j);
      DeliveredIsWindow(front, sub, i, inner);
      assert events == front + [last];
      ItemsOfWindow(front, last, i + 1, j);
      var items := Items(front[i + 1..inner]);
      if j == |events| {
        BlockGrows(front, last, sub, items);
      } else {
        BlockStays(front, last, sub, items, j == |front|);
      }
    }
  }

  /** Whoever was accepted has such a block; whoever was not has been handed nothing. */
  lemma {:induction false} WindowExists<S>(events: seq<Event<S>>, sub: S)
    requires Served(events)
    ensures sub in Fold(events).attached <==> exists i: nat, j: nat :: Window(events, sub, i, j)
    ensures sub !in Fold(events).attached ==> Get(Fold(events).delivered, sub) == []
  {
    LifecycleHolds(events);
    hide Step;
    if events != [] {
      var n := |events| - 1;
      var front, last := events[..n], events[n];
      ServedFront(events);
      WindowExists(front, sub);
      assert events[..n + 1] == events;
      if sub in Fold(front).attached {
        var i: nat, j: nat :| Window(front, sub, i, j);
        assert front[..i] == events[..i];
        assert front[..i + 1] == events[..i + 1];
        if j < n || (last.Ask? && last.sub == sub) {
          assert Window(events, sub, i, j);
        } else {
          assert Window(events, sub, i, n + 1);
        }
      } else if sub in Fold(events).attached {
        LifecycleHolds(front);
        JoiningStep(Fold(front), sub, last);
        assert Window(events, sub, n, n + 1);
      }
    }
    if i: nat, j: nat :| Window(events, sub, i, j) {
      DeliveredIsWindow(events, sub, i, j);
    }
  }
}

/**
 The inductive invariant of the reader protocol, one predicate per concern, and the proof that every
 action of every process keeps it.
 */
module ReaderInvariant {
  import opened Options
  import opened ReaderSpec
  import opened ReaderProtocol

  // ---------------------------------------------------------------- requests and responses

  predicate Busy(pc: ServePc) {
    pc.StopConsuming? || pc.StopConsumer? || pc.Responding?
  }

  predicate Closing(pc: ServePc) {
    (pc.StopConsuming? || pc.StopConsumer? || pc.Responding?) && pc.closing
  }

  predicate Stopping(pc: ServePc) {
    pc.StopConsuming? || pc.StopConsumer?
  }

  /** Whose request the last event is. */
  function Current(events: seq<Event<Sub>>): Requester<Sub> {
    if events == [] then Closer
    else
      match events[|events| - 1]
      case Ask(sub, _) => Subscriber(sub)
      case _ => Closer
  }

  /** The response serve has decided on, or will once it is past the barriers. */
  function Decided(pc: ServePc): Outcome {
    if pc.Responding? then pc.outcome else Accepted
  }

  /** Only the requester being served awaits a response, and only while it is being served. */
  ghost predicate RequestsInOrder(server: Server, clients: Clients) {
    && (Busy(server.pc) ==>
          && server.events != [] && !server.events[|server.events| - 1].Take?
          && Awaiting(clients, Current(server.events))
          && (server.pc.closing <==> Current(server.events).Closer?))
    && (forall who :: Awaiting(clients, who) ==> Busy(server.pc) && who == Current(server.events))
    && (server.pc.Exited? <==> clients.closer.CloserAnswered? || clients.closer.ChannelsClosed?)
  }

  // ---------------------------------------------------------------- the sequential view

  /** The view serve will have when it is done with what it is doing. */
  function Settled(server: Server, clients: Clients): View<Sub> {
    View(server.subscriptions,
         server.attached,
         server.consumer && !Stopping(server.pc),
         server.starts,
         if Stopping(server.pc) then server.stops + 1 else server.stops,
         if server.pc.Dispatching?
         then Deliver(server.delivered, server.pc.pending, server.pc.item)
         else server.delivered,
         if Busy(server.pc)
         then clients.received + [Reply(Current(server.events), Decided(server.pc))]
         else clients.received,
         server.pc.Exited? || Closing(server.pc),
         false)
  }

  ghost predicate Linear(server: Server, clients: Clients) {
    Settled(server, clients) == Fold(server.events)
  }

  // ---------------------------------------------------------------- clients

  predicate ClientAgrees(server: Server, sub: Sub, pc: ClientPc) {
    match pc
    case Idle => sub !in server.attached
    case Subscribing => sub !in server.attached
    case Rejected => sub !in server.attached
    case AwaitSubscribe =>
      server.pc.Responding? && (if server.pc.outcome.Accepted? then sub in server.subscriptions
                                else sub !in server.attached)
    case Active => sub in server.subscriptions
    case Unsubscribing => sub in server.subscriptions
    case AwaitUnsubscribe => sub !in server.subscriptions && sub in server.attached
    case Unsubscribed => sub !in server.subscriptions && sub in server.attached
    case PostsClosed => sub !in server.subscriptions
    case AllClosed => sub !in server.subscriptions
  }

  ghost predicate ClientsAgree(server: Server, clients: Clients) {
    && (forall sub :: ClientAgrees(server, sub, PcOf(clients, sub)))
    && server.subscriptions <= server.attached
    && (server.pc.Dispatching? ==> server.pc.pending <= server.subscriptions)
  }

  // ---------------------------------------------------------------- consumer goroutines

  predicate Unposted(loop: LoopPc) {
    loop.Calling? || loop.InSession? || loop.Posting?
  }

  ghost predicate ConsumptionAgrees(server: Server, c: Consumption) {
    && c.consumingBarrier == (if c.loop.Parked? then 0 else 1)
    && c.consumerBarrier == (if c.errorPump then 1 else 0)
    && (!server.consumer ==> c.loop.Parked? && !c.errorPump)
    && (server.pc.StopConsumer? ==> c.loop.Parked?)
    && (c.errorsOpen <==> server.consumer && !server.pc.StopConsumer?)
    && (c.errorsOpen ==> c.errorPump)
    && (server.pc.StopConsuming? ==> c.cancelled)
    && (server.consumer && !Stopping(server.pc) ==> !c.cancelled)
    && (Stopping(server.pc) ==> server.consumer)
    && (Closing(server.pc) && !Stopping(server.pc) ==> !server.consumer)
    && (server.pc.Exited? ==> !server.consumer)
    && server.starts == c.posts + (if Unposted(c.loop) then 1 else 0)
  }

  /** Consume returns only when every claim handler has. */
  predicate SessionsEnd(c: Consumption) {
    !c.loop.InSession? ==> AllReturned(c.claims)
  }

  // ---------------------------------------------------------------- messages and errors

  function TakenMessages(events: seq<Event<Sub>>): seq<Message> {
    if events == [] then []
    else
      var last := events[|events| - 1];
      TakenMessages(events[..|events| - 1]) +
      if last.Take? && last.item.Data? then [last.item.message] else []
  }

  function TakenErrors(events: seq<Event<Sub>>): nat {
    if events == [] then 0
    else
      var last := events[|events| - 1];
      TakenErrors(events[..|events| - 1]) + if last.Take? && last.item.Failure? then 1 else 0
  }

  lemma TakenSnoc(events: seq<Event<Sub>>, event: Event<Sub>)
    ensures TakenMessages(events + [event])
         == TakenMessages(events) + if event.Take? && event.item.Data? then [event.item.message] else []
    ensures TakenErrors(events + [event])
         == TakenErrors(events) + if event.Take? && event.item.Failure? then 1 else 0
  {
    assert (events + [event])[..|events|] == events;
  }

  ghost predicate ChannelsAgree(server: Server, channels: Channels, posts: nat) {
    && |channels.messages| <= CAPACITY
    && |channels.errors| <= CAPACITY
    && channels.enqueued == TakenMessages(server.events) + channels.messages
    && posts == TakenErrors(server.events) + |channels.errors|
    && (channels.closed ==> server.pc.Exited?)
  }

  // ---------------------------------------------------------------- claims

  /** The messages of one claim among those enqueued, in enqueue order. */
  function ByClaim(enqueued: seq<Message>, k: nat): seq<Message> {
    if enqueued == [] then []
    else
      var last := enqueued[|enqueued| - 1];
      ByClaim(enqueued[..|enqueued| - 1], k) + if last.claim == k then [last] else []
  }

  lemma ByClaimSnoc(enqueued: seq<Message>, message: Message, k: nat)
    ensures ByClaim(enqueued + [message], k)
         == ByClaim(enqueued, k) + if message.claim == k then [message] else []
  {
    assert (enqueued + [message])[..|enqueued|] == enqueued;
  }

  /** How many records of the claim have been enqueued, and how many marked. */
  function Sent(claim: Claim): int {
    if claim.pc.Sending? || (claim.pc.Returned? && claim.pc.failed) then claim.next - 1 else claim.next
  }

  function Marked(claim: Claim): int {
    if claim.pc.Ranging? || (claim.pc.Returned? && !claim.pc.failed) then claim.next else claim.next - 1
  }

  ghost predicate ClaimAgrees(k: nat, claim: Claim, enqueued: seq<Message>) {
    && claim.next <= |claim.source|
    && 0 <= Marked(claim) <= Sent(claim)
    && (forall i | 0 <= i < Sent(claim) :: !claim.source[i].malformed)
    && (claim.pc.Sending? ==>
          && !claim.source[claim.next - 1].malformed
          && claim.pc.message == Message(k, claim.next - 1, claim.source[claim.next - 1].value))
    && (claim.pc.Returned? && claim.pc.failed ==> claim.source[claim.next - 1].malformed)
    && (claim.pc.Returned? && !claim.pc.failed ==> !claim.open && claim.next == |claim.source|)
    && |claim.marked| == Marked(claim)
    && (forall i | 0 <= i < |claim.marked| :: claim.marked[i] == i)
    && |ByClaim(enqueued, k)| == Sent(claim)
    && (forall i | 0 <= i < Sent(claim) :: ByClaim(enqueued, k)[i] == Message(k, i, claim.source[i].value))
  }

  ghost predicate ClaimsAgree(s: State) {
    && (forall k | 0 <= k < |s.consumption.claims| ::
          ClaimAgrees(k, s.consumption.claims[k], s.channels.enqueued))
    && (forall i | 0 <= i < |s.channels.enqueued| :: s.channels.enqueued[i].claim < |s.consumption.claims|)
  }

  /** The one panic there is: a request meets channels that have been closed. */
  ghost predicate FaultAgrees(s: State) {
    s.fault <==> s.channels.closed && SomeoneRequests(s.clients)
  }

  ghost predicate Inv(s: State) {
    && FaultAgrees(s)
    && RequestsInOrder(s.server, s.clients)
    && Linear(s.server, s.clients)
    && Served(s.server.events)
    && ClientsAgree(s.server, s.clients)
    && ConsumptionAgrees(s.server, s.consumption)
    && SessionsEnd(s.consumption)
    && ChannelsAgree(s.server, s.channels, s.consumption.posts)
    && ClaimsAgree(s)
  }

  lemma InitHolds()
    ensures Inv(Init())
  {
  }

  // ---------------------------------------------------------------- preservation

  /** Steps of the claim handlers, the broker, the consume loop and the consumer-errors goroutine. */
  predicate ConsumerStep(a: Action) {
    a.StartClaim? || a.Feed? || a.CloseClaim? || a.NextRecord? || a.EndClaim? || a.Enqueue? || a.Mark?
    || a.BeginSession? || a.EndSession? || a.PostError? || a.LeaveLoop? || a.EndErrorPump?
  }

  predicate ClientStep(a: Action) {
    a.BeginSubscribe? || a.BeginUnsubscribe? || a.BeginClose? || a.ClosePosts? || a.CloseErrors?
    || a.CloseChannels? || a.Read?
  }

  predicate ServeStep(a: Action) {
    a.TakeMessage? || a.TakeError? || a.HandTo? || a.EndDispatch? || a.PassConsumingBarrier?
    || a.PassConsumerBarrier?
  }

  lemma ConsumerFrame(s: State, a: Action)
    requires Enabled(s, a) && ConsumerStep(a)
    ensures Apply(s, a).server == s.server && Apply(s, a).clients == s.clients
  {
  }

  /** A client moves up to its next request, reads what it was sent, or closes what it owns. */
  lemma ClientFrame(s: State, a: Action)
    requires Enabled(s, a) && ClientStep(a)
    ensures var t := Apply(s, a);
            && t.server == s.server && t.consumption == s.consumption
            && t.clients.received == s.clients.received
            && t.channels.messages == s.channels.messages && t.channels.errors == s.channels.errors
            && t.channels.enqueued == s.channels.enqueued
            && (t.channels.closed ==> s.channels.closed || a.CloseChannels?)
  {
  }

  /** Nothing but a client step can panic. */
  lemma NoFault(s: State, a: Action)
    requires Inv(s) && Enabled(s, a) && !ClientStep(a)
    ensures !Apply(s, a).fault
  {
    match a
    case RequestSub(sub, opens) =>
      LifecycleHolds(s.server.events);
      NilConsumerUnreached(s, sub, opens);
    case HandTo(sub) =>
      assert ClientAgrees(s.server, sub, PcOf(s.clients, sub));
    case _ =>
  }

  lemma NilConsumerUnreached(s: State, sub: Sub, opens: bool)
    requires Enabled(s, RequestSub(sub, opens)) && Linear(s.server, s.clients)
    requires ClientAgrees(s.server, sub, PcOf(s.clients, sub)) && Consistent(Fold(s.server.events))
    ensures !ApplyRequestSub(s, sub, opens).fault
  {
    hide Fold;
  }

  /** Once the channels are closed only consumer goroutines could still move, and no new request is made. */
  lemma ClosedStays(s: State, a: Action)
    requires Enabled(s, a) && !ClientStep(a) && (s.channels.closed ==> s.server.pc.Exited?)
    ensures Apply(s, a).channels.closed == s.channels.closed
    ensures s.channels.closed ==> Apply(s, a).clients == s.clients
  {
    if ConsumerStep(a) {
      ConsumerFrame(s, a);
    }
  }

  lemma ClientFaultKept(s: State, a: Action)
    requires Enabled(s, a) && ClientStep(a) && FaultAgrees(s)
    ensures FaultAgrees(Apply(s, a))
  {
    var t := Apply(s, a);
    if a.BeginSubscribe? || a.BeginUnsubscribe? {
      assert a.sub in t.clients.pcs && Requesting(t.clients.pcs[a.sub]);
    } else if sub :| sub in t.clients.pcs && Requesting(t.clients.pcs[sub]) {
      assert t.clients.pcs[sub] == s.clients.pcs[sub];
    } else if sub :| sub in s.clients.pcs && Requesting(s.clients.pcs[sub]) {
      assert t.clients.pcs[sub] == s.clients.pcs[sub];
    }
  }

  lemma FaultKept(s: State, a: Action)
    requires Inv(s) && Enabled(s, a)
    ensures FaultAgrees(Apply(s, a))
  {
    var t := Apply(s, a);
    if ClientStep(a) {
      ClientFaultKept(s, a);
    } else {
      NoFault(s, a);
      ClosedStays(s, a);
    }
  }

  lemma RequestSubKept(s: State, sub: Sub, opens: bool)
    requires Enabled(s, RequestSub(sub, opens)) && !ApplyRequestSub(s, sub, opens).fault
    requires RequestsInOrder(s.server, s.clients) && ClientsAgree(s.server, s.clients)
    ensures var t := ApplyRequestSub(s, sub, opens);
            RequestsInOrder(t.server, t.clients) && ClientsAgree(t.server, t.clients)
  {
    var t := ApplyRequestSub(s, sub, opens);
    forall who | Awaiting(t.clients, who)
      ensures Busy(t.server.pc) && who == Current(t.server.events)
    {
      assert Awaiting(s.clients, who) ==> Busy(s.server.pc);
    }
    forall sub'
      ensures ClientAgrees(t.server, sub', PcOf(t.clients, sub'))
    {
      assert ClientAgrees(s.server, sub', PcOf(s.clients, sub'));
      assert Awaiting(s.clients, Subscriber(sub')) ==> Busy(s.server.pc);
    }
  }

  lemma RequestCloseKept(s: State)
    requires Enabled(s, RequestClose)
    requires RequestsInOrder(s.server, s.clients) && ClientsAgree(s.server, s.clients)
    ensures var t := ApplyRequestClose(s);
            RequestsInOrder(t.server, t.clients) && ClientsAgree(t.server, t.clients)
  {
    var t := ApplyRequestClose(s);
    forall who | Awaiting(t.clients, who)
      ensures Busy(t.server.pc) && who == Current(t.server.events)
    {
      assert Awaiting(s.clients, who) ==> Busy(s.server.pc);
    }
    forall sub'
      ensures ClientAgrees(t.server, sub', PcOf(t.clients, sub'))
    {
      assert ClientAgrees(s.server, sub', PcOf(s.clients, sub'));
      assert Awaiting(s.clients, Subscriber(sub')) ==> Busy(s.server.pc);
    }
  }

  lemma RespondKept(s: State, to: Requester<Sub>)
    requires Enabled(s, Respond(to))
    requires RequestsInOrder(s.server, s.clients) && ClientsAgree(s.server, s.clients)
    ensures var t := ApplyRespond(s, to);
            RequestsInOrder(t.server, t.clients) && ClientsAgree(t.server, t.clients)
  {
    assert to == Current(s.server.events);
    var t := ApplyRespond(s, to);
    forall who
      ensures !Awaiting(t.clients, who)
    {
      assert Awaiting(s.clients, who) ==> who == to;
    }
    forall sub'
      ensures ClientAgrees(t.server, sub', PcOf(t.clients, sub'))
    {
      assert ClientAgrees(s.server, sub', PcOf(s.clients, sub'));
      assert Awaiting(s.clients, Subscriber(sub')) ==> Busy(s.server.pc);
    }
  }

  lemma ClientStepKept(s: State, a: Action)
    requires Enabled(s, a) && ClientStep(a)
    requires RequestsInOrder(s.server, s.clients) && ClientsAgree(s.server, s.clients)
    ensures var t := Apply(s, a);
            RequestsInOrder(t.server, t.clients) && ClientsAgree(t.server, t.clients)
  {
    var t := Apply(s, a);
    forall who | Awaiting(t.clients, who)
      ensures Busy(t.server.pc) && who == Current(t.server.events)
    {
      assert Awaiting(s.clients, who) ==> Busy(s.server.pc);
    }
    forall sub'
      ensures ClientAgrees(t.server, sub', PcOf(t.clients, sub'))
    {
      assert ClientAgrees(s.server, sub', PcOf(s.clients, sub'));
      assert Awaiting(s.clients, Subscriber(sub')) ==> Busy(s.server.pc);
    }
  }

  lemma HandToKept(s: State, sub: Sub)
    requires Enabled(s, HandTo(sub))
    requires RequestsInOrder(s.server, s.clients) && ClientsAgree(s.server, s.clients)
    ensures var t := ApplyHandTo(s, sub);
            RequestsInOrder(t.server, t.clients) && ClientsAgree(t.server, t.clients)
  {
    var t := ApplyHandTo(s, sub);
    forall who
      ensures Awaiting(t.clients, who) ==> Busy(t.server.pc) && who == Current(t.server.events)
    {
      assert Awaiting(t.clients, who) == Awaiting(s.clients, who);
    }
    forall sub'
      ensures ClientAgrees(t.server, sub', PcOf(t.clients, sub'))
    {
      assert ClientAgrees(s.server, sub', PcOf(s.clients, sub'));
    }
    hide Deliver;
  }

  lemma ServeStepKept(s: State, a: Action)
    requires Enabled(s, a) && ServeStep(a)
    requires RequestsInOrder(s.server, s.clients) && ClientsAgree(s.server, s.clients)
    ensures var t := Apply(s, a);
            RequestsInOrder(t.server, t.clients) && ClientsAgree(t.server, t.clients)
  {
    if a.HandTo? {
      HandToKept(s, a.sub);
    } else {
      assert Apply(s, a).clients == s.clients;
    }
  }

  lemma ClientsKept(s: State, a: Action)
    requires RequestsInOrder(s.server, s.clients) && ClientsAgree(s.server, s.clients)
    requires Enabled(s, a) && !Apply(s, a).fault
    ensures var t := Apply(s, a);
            RequestsInOrder(t.server, t.clients) && ClientsAgree(t.server, t.clients)
  {
    if ClientStep(a) {
      ClientStepKept(s, a);
    } else if ServeStep(a) {
      ServeStepKept(s, a);
    } else if ConsumerStep(a) {
      ConsumerFrame(s, a);
    } else {
      match a
      case RequestSub(sub, opens) => RequestSubKept(s, sub, opens);
      case RequestClose => RequestCloseKept(s);
      case Respond(to) => RespondKept(s, to);
    }
  }

  lemma ConsumerStepKeeps(s: State, a: Action)
    requires Enabled(s, a) && ConsumerStep(a)
    requires ConsumptionAgrees(s.server, s.consumption)
    ensures ConsumptionAgrees(Apply(s, a).server, Apply(s, a).consumption)
  {
    ConsumerFrame(s, a);
  }

  lemma ConsumptionKept(s: State, a: Action)
    requires Enabled(s, a) && !ClientStep(a) && !Apply(s, a).fault
    requires ConsumptionAgrees(s.server, s.consumption)
    ensures ConsumptionAgrees(Apply(s, a).server, Apply(s, a).consumption)
  {
    if ConsumerStep(a) {
      ConsumerStepKeeps(s, a);
    }
  }

  lemma SessionsKept(s: State, a: Action)
    requires Enabled(s, a) && !ClientStep(a) && !Apply(s, a).fault
    requires ConsumptionAgrees(s.server, s.consumption) && SessionsEnd(s.consumption)
    ensures SessionsEnd(Apply(s, a).consumption)
  {
  }

  lemma ConsumerStepKeepsChannels(s: State, a: Action)
    requires Enabled(s, a) && ConsumerStep(a) && !Apply(s, a).fault
    requires ChannelsAgree(s.server, s.channels, s.consumption.posts)
    ensures ChannelsAgree(Apply(s, a).server, Apply(s, a).channels, Apply(s, a).consumption.posts)
  {
    ConsumerFrame(s, a);
  }

  lemma TakeMessageKeepsChannels(s: State)
    requires Enabled(s, TakeMessage)
    requires ChannelsAgree(s.server, s.channels, s.consumption.posts)
    ensures var t := Apply(s, TakeMessage); ChannelsAgree(t.server, t.channels, t.consumption.posts)
  {
    var messages, taken := s.channels.messages, TakenMessages(s.server.events);
    hide TakenMessages, TakenErrors;
    TakenSnoc(s.server.events, Take(Data(messages[0])));
    assert taken + messages == (taken + [messages[0]]) + messages[1..];
  }

  lemma TakeErrorKeepsChannels(s: State)
    requires Enabled(s, TakeError)
    requires ChannelsAgree(s.server, s.channels, s.consumption.posts)
    ensures var t := Apply(s, TakeError); ChannelsAgree(t.server, t.channels, t.consumption.posts)
  {
    hide TakenMessages, TakenErrors;
    TakenSnoc(s.server.events, Take(Failure(s.channels.errors[0])));
  }

  lemma ChannelsKept(s: State, a: Action)
    requires Enabled(s, a) && !ClientStep(a) && !Apply(s, a).fault
    requires RequestsInOrder(s.server, s.clients) && ChannelsAgree(s.server, s.channels, s.consumption.posts)
    ensures ChannelsAgree(Apply(s, a).server, Apply(s, a).channels, Apply(s, a).consumption.posts)
  {
    hide TakenMessages, TakenErrors;
    if ConsumerStep(a) {
      ConsumerStepKeepsChannels(s, a);
    } else {
      match a
      case RequestSub(sub, opens) => TakenSnoc(s.server.events, Ask(sub, opens));
      case RequestClose => TakenSnoc(s.server.events, AskClose);
      case TakeMessage => TakeMessageKeepsChannels(s);
      case TakeError => TakeErrorKeepsChannels(s);
      case _ =>
    }
  }

  // claims

  lemma OtherClaimsKept(k: nat, claim: Claim, enqueued: seq<Message>, message: Message)
    requires ClaimAgrees(k, claim, enqueued) && message.claim != k
    ensures ClaimAgrees(k, claim, enqueued + [message])
  {
    ByClaimSnoc(enqueued, message, k);
  }

  lemma EnqueueKeepsClaims(s: State, k: nat)
    requires Enabled(s, Enqueue(k)) && !Apply(s, Enqueue(k)).fault && ClaimsAgree(s)
    ensures ClaimsAgree(Apply(s, Enqueue(k)))
  {
    hide ByClaim;
    var claim, enqueued := s.consumption.claims[k], s.channels.enqueued;
    var t := Apply(s, Enqueue(k));
    assert ClaimAgrees(k, claim, enqueued);
    ByClaimSnoc(enqueued, claim.pc.message, k);
    forall i | 0 <= i < |t.consumption.claims|
      ensures ClaimAgrees(i, t.consumption.claims[i], t.channels.enqueued)
    {
      if i != k {
        OtherClaimsKept(i, s.consumption.claims[i], enqueued, claim.pc.message);
      }
    }
  }

  /** No messages for a claim that has not been started. */
  lemma {:induction false} NoMessages(enqueued: seq<Message>, k: nat)
    requires forall i | 0 <= i < |enqueued| :: enqueued[i].claim < k
    ensures ByClaim(enqueued, k) == []
  {
    if enqueued != [] {
      NoMessages(enqueued[..|enqueued| - 1], k);
    }
  }

  lemma StartKeepsClaims(s: State)
    requires Enabled(s, StartClaim) && ClaimsAgree(s)
    ensures ClaimsAgree(Apply(s, StartClaim))
  {
    NoMessages(s.channels.enqueued, |s.consumption.claims|);
  }

  lemma ClaimStepKeeps(s: State, a: Action, k: nat)
    requires Enabled(s, a) && ClaimsAgree(s)
    requires a == CloseClaim(k) || a == NextRecord(k) || a == EndClaim(k) || a == Mark(k)
             || (a.Feed? && a.claim == k)
    ensures ClaimsAgree(Apply(s, a))
  {
    hide ByClaim;
    var t := Apply(s, a);
    assert ClaimAgrees(k, s.consumption.claims[k], s.channels.enqueued);
    forall i | 0 <= i < |t.consumption.claims|
      ensures ClaimAgrees(i, t.consumption.claims[i], t.channels.enqueued)
    {
      assert ClaimAgrees(i, s.consumption.claims[i], s.channels.enqueued);
    }
  }

  lemma ClaimsKept(s: State, a: Action)
    requires Enabled(s, a) && !ClientStep(a) && !Apply(s, a).fault && ClaimsAgree(s)
    ensures ClaimsAgree(Apply(s, a))
  {
    hide ClaimAgrees, ByClaim;
    match a
    case StartClaim => StartKeepsClaims(s);
    case Feed(k, _) => ClaimStepKeeps(s, a, k);
    case CloseClaim(k) => ClaimStepKeeps(s, a, k);
    case NextRecord(k) => ClaimStepKeeps(s, a, k);
    case EndClaim(k) => ClaimStepKeeps(s, a, k);
    case Mark(k) => ClaimStepKeeps(s, a, k);
    case Enqueue(k) => EnqueueKeepsClaims(s, k);
    case _ =>
  }

  // the sequential view

  lemma DeliverOne(delivered: map<Sub, seq<Item>>, pending: set<Sub>, sub: Sub, item: Item)
    requires sub in pending
    ensures Deliver(Deliver(delivered, {sub}, item), pending - {sub}, item) == Deliver(delivered, pending, item)
  {
  }

  lemma DeliverNone(delivered: map<Sub, seq<Item>>, item: Item)
    ensures Deliver(delivered, {}, item) == delivered
  {
  }

  lemma RequestSubStaysLinear(s: State, sub: Sub, opens: bool)
    requires Enabled(s, RequestSub(sub, opens)) && !ApplyRequestSub(s, sub, opens).fault
    requires Linear(s.server, s.clients)
    ensures var t := ApplyRequestSub(s, sub, opens); Linear(t.server, t.clients)
  {
    FoldSnoc(s.server.events, Ask(sub, opens));
    hide Fold;
  }

  lemma RequestCloseStaysLinear(s: State)
    requires Enabled(s, RequestClose) && Linear(s.server, s.clients)
    ensures var t := ApplyRequestClose(s); Linear(t.server, t.clients)
  {
    FoldSnoc(s.server.events, AskClose);
    hide Fold;
  }

  lemma RespondStaysLinear(s: State, to: Requester<Sub>)
    requires Enabled(s, Respond(to)) && Linear(s.server, s.clients) && to == Current(s.server.events)
    ensures var t := ApplyRespond(s, to); Linear(t.server, t.clients)
  {
    hide Fold, Current;
  }

  lemma TakeStaysLinear(s: State, item: Item, channels: Channels)
    requires s.server.pc.Select? && Linear(s.server, s.clients)
    ensures var t := ApplyTake(s, item, channels); Linear(t.server, t.clients)
  {
    FoldSnoc(s.server.events, Take(item));
    hide Fold, Deliver;
  }

  lemma HandToStaysLinear(s: State, sub: Sub)
    requires Enabled(s, HandTo(sub)) && Linear(s.server, s.clients)
    ensures var t := ApplyHandTo(s, sub); Linear(t.server, t.clients)
  {
    DeliverOne(s.server.delivered, s.server.pc.pending, sub, s.server.pc.item);
    hide Fold, Deliver;
  }

  lemma EndDispatchStaysLinear(s: State)
    requires Enabled(s, EndDispatch) && Linear(s.server, s.clients)
    ensures Linear(Apply(s, EndDispatch).server, s.clients)
  {
    DeliverNone(s.server.delivered, s.server.pc.item);
    hide Fold, Deliver;
  }

  lemma BarrierStaysLinear(s: State, a: Action)
    requires Enabled(s, a) && (a.PassConsumingBarrier? || a.PassConsumerBarrier?)
    requires Linear(s.server, s.clients)
    ensures Apply(s, a).clients == s.clients && Linear(Apply(s, a).server, s.clients)
  {
    hide Fold, Deliver, Current;
  }

  lemma LinearKept(s: State, a: Action)
    requires Enabled(s, a) && !ClientStep(a) && !Apply(s, a).fault
    requires RequestsInOrder(s.server, s.clients) && Linear(s.server, s.clients)
    ensures Linear(Apply(s, a).server, Apply(s, a).clients)
  {
    hide Linear;
    if ConsumerStep(a) {
      ConsumerFrame(s, a);
    } else {
      match a
      case RequestSub(sub, opens) => RequestSubStaysLinear(s, sub, opens);
      case RequestClose => RequestCloseStaysLinear(s);
      case Respond(to) => RespondStaysLinear(s, to);
      case TakeMessage =>
        TakeStaysLinear(s, Data(s.channels.messages[0]), s.channels.(messages := s.channels.messages[1..]));
      case TakeError =>
        TakeStaysLinear(s, Failure(s.channels.errors[0]), s.channels.(errors := s.channels.errors[1..]));
      case HandTo(sub) => HandToStaysLinear(s, sub);
      case EndDispatch => EndDispatchStaysLinear(s);
      case PassConsumingBarrier => BarrierStaysLinear(s, a);
      case PassConsumerBarrier => BarrierStaysLinear(s, a);
    }
  }

  /** serve takes an event only at its select, where it has not halted. */
  lemma EventsStep(s: State, a: Action)
    requires Enabled(s, a)
    ensures var events := Apply(s, a).server.events;
            events == s.server.events
            || (s.server.pc.Select? && |events| == |s.server.events| + 1
                && events[..|s.server.events|] == s.server.events)
  {
    if ConsumerStep(a) {
      ConsumerFrame(s, a);
    } else if ClientStep(a) {
      ClientFrame(s, a);
    }
  }

  lemma ServedKept(s: State, a: Action)
    requires Enabled(s, a) && Linear(s.server, s.clients) && Served(s.server.events)
    ensures Served(Apply(s, a).server.events)
  {
    EventsStep(s, a);
    hide Apply, Fold, Enabled;
  }

  lemma ClientStepKeepsInv(s: State, a: Action)
    requires Inv(s) && Enabled(s, a) && ClientStep(a)
    ensures Inv(Apply(s, a))
  {
    ClientFrame(s, a);
    ClientStepKept(s, a);
    ClientFaultKept(s, a);
    hide Fold, Served, RequestsInOrder, ClientsAgree, ConsumptionAgrees, SessionsEnd, ClaimsAgree, FaultAgrees;
    hide Apply, TakenMessages, TakenErrors;
  }

  lemma InvKept(s: State, a: Action)
    requires Inv(s) && Enabled(s, a)
    ensures Inv(Apply(s, a))
  {
    if ClientStep(a) {
      ClientStepKeepsInv(s, a);
    } else {
      NoFault(s, a);
      FaultKept(s, a);
      ClientsKept(s, a);
      ConsumptionKept(s, a);
      SessionsKept(s, a);
      ChannelsKept(s, a);
      ClaimsKept(s, a);
      LinearKept(s, a);
      ServedKept(s, a);
      hide Apply, Enabled, Fold, Served, Linear, RequestsInOrder, ClientsAgree, ConsumptionAgrees;
      hide SessionsEnd, ChannelsAgree, ClaimsAgree, FaultAgrees;
    }
  }

  lemma {:induction false} InvAlways(s: State, actions: seq<Action>)
    requires Inv(s) && Runs(s, actions)
    ensures Inv(Exec(s, actions))
    decreases |actions|
  {
    if actions != [] {
      InvKept(s, actions[0]);
      InvAlways(Apply(s, actions[0]), actions[1..]);
    }
  }
}

/**
 The stream reader as a concurrent protocol (au10/streamreader.go with the subscriptions of
 au10/posts.go): one serving goroutine, any number of subscribing clients and one closing client on two
 shared unbuffered channels, the consume loop, the claim handlers, the consumer-errors goroutine, and
 the two channels of capacity one between them. Every action is one atomic step of one process, or a
 rendezvous of two; a run is any interleaving of enabled actions.

 `fault` is a Go panic, which ends the process: a send on a closed channel (also of a request that is
 under way when the reader closes its channels), or stopping a reader without a consumer.
 */
module ReaderProtocol {
  import opened Options
  import opened ReaderSpec

  type Sub = nat

  // ---------------------------------------------------------------- processes

  /** Where serve stands; `closing` tells a request of nil from one of a subscription. */
  datatype ServePc =
    | Select
    | Dispatching(item: Item, pending: set<Sub>)
    | StopConsuming(closing: bool)
    | StopConsumer(closing: bool)
    | Responding(outcome: Outcome, closing: bool)
    | Exited

  /** `events` is history: the select cases taken so far. */
  datatype Server = Server(
    pc: ServePc,
    subscriptions: set<Sub>,
    attached: set<Sub>,
    consumer: bool,
    starts: nat,
    stops: nat,
    delivered: map<Sub, seq<Item>>,
    events: seq<Event<Sub>>)

  /** The life of one posts subscription: NewSubscription, use, Close, and the closing of its channels. */
  datatype ClientPc =
    | Idle
    | Subscribing | AwaitSubscribe | Rejected | Active
    | Unsubscribing | AwaitUnsubscribe | Unsubscribed
    | PostsClosed | AllClosed

  /**
   What one posts subscription owns: how many items its posts channel of capacity one holds, and whether its
   pump still reads. The error channel has no buffer, so an error reaches nobody but a pump that reads.
   */
  datatype Box = Box(items: nat, reading: bool)

  /** The goroutine that closes the reader. */
  datatype CloserPc = CloserIdle | CloserSending | CloserAwaiting | CloserAnswered | ChannelsClosed

  /** `received` is history: who got which response, in the order of the rendezvous. */
  datatype Clients = Clients(
    pcs: map<Sub, ClientPc>, closer: CloserPc, received: seq<Reply<Sub>>, boxes: map<Sub, Box>)

  datatype Record = Record(value: int, malformed: bool)

  datatype ClaimPc = Ranging | Sending(message: Message) | Marking | Returned(failed: bool)

  /** A claim handler; `source` is all the broker has put on its channel, `marked` the marked indices. */
  datatype Claim = Claim(source: seq<Record>, open: bool, next: nat, pc: ClaimPc, marked: seq<nat>)

  datatype ConsumeResult = NoError | GroupClosed | Canceled | Broken(code: nat)

  datatype LoopPc = Parked | Calling | InSession | Posting(verdict: Option<nat>) | Leaving

  /** The goroutines of the current consumer and the barriers they release. */
  datatype Consumption = Consumption(
    loop: LoopPc,
    cancelled: bool,
    errorsOpen: bool,
    errorPump: bool,
    consumingBarrier: nat,
    consumerBarrier: nat,
    claims: seq<Claim>,
    posts: nat)

  /** messagesChan and errChan; `enqueued` is history. */
  datatype Channels = Channels(
    messages: seq<Message>,
    errors: seq<Option<nat>>,
    closed: bool,
    enqueued: seq<Message>)

  datatype State = State(
    server: Server, clients: Clients, consumption: Consumption, channels: Channels, fault: bool)

  const CAPACITY := 1

  function Init(): State {
    State(Server(Select, {}, {}, false, 0, 0, map[], []),
          Clients(map[], CloserIdle, [], map[]),
          Consumption(Parked, false, false, false, 0, 0, [], 0),
          Channels([], [], false, []),
          false)
  }

  function PcOf(clients: Clients, sub: Sub): ClientPc {
    if sub in clients.pcs then clients.pcs[sub] else Idle
  }

  function BoxOf(clients: Clients, sub: Sub): Box {
    if sub in clients.boxes then clients.boxes[sub] else Box(0, true)
  }

  predicate AwaitingPc(pc: ClientPc) {
    pc.AwaitSubscribe? || pc.AwaitUnsubscribe?
  }

  predicate Awaiting(clients: Clients, who: Requester<Sub>) {
    match who
    case Subscriber(sub) => AwaitingPc(PcOf(clients, sub))
    case Closer => clients.closer == CloserAwaiting
  }

  /** Before or in its send on requestsChan. */
  predicate Requesting(pc: ClientPc) {
    pc.Subscribing? || pc.Unsubscribing?
  }

  predicate SomeoneRequests(clients: Clients) {
    exists sub | sub in clients.pcs :: Requesting(clients.pcs[sub])
  }

  predicate AllReturned(claims: seq<Claim>) {
    forall c | 0 <= c < |claims| :: claims[c].pc.Returned?
  }

  // ---------------------------------------------------------------- actions

  datatype Action =
      // clients
    | BeginSubscribe(sub: Sub) | BeginUnsubscribe(sub: Sub) | BeginClose
    | ClosePosts(sub: Sub) | CloseErrors(sub: Sub) | CloseChannels
      // the pump of a subscription: it takes a record, and may end over it
    | Read(sub: Sub, ends: bool)
      // rendezvous on requestsChan and responsesChan
    | RequestSub(sub: Sub, opens: bool) | RequestClose | Respond(to: Requester<Sub>)
      // serve
    | TakeMessage | TakeError | HandTo(sub: Sub) | EndDispatch
    | PassConsumingBarrier | PassConsumerBarrier
      // claim handlers and the broker that feeds them
    | StartClaim | Feed(claim: nat, record: Record) | CloseClaim(claim: nat)
    | NextRecord(claim: nat) | EndClaim(claim: nat) | Enqueue(claim: nat) | Mark(claim: nat)
      // consume loop and consumer-errors goroutine
    | BeginSession | EndSession(result: ConsumeResult) | PostError | LeaveLoop | EndErrorPump

  predicate Enabled(s: State, a: Action) {
    !s.fault && CanAct(s, a)
  }

  predicate CanAct(s: State, a: Action) {
    var c := s.consumption;
    match a
    case BeginSubscribe(sub) => PcOf(s.clients, sub).Idle?
    case BeginUnsubscribe(sub) => PcOf(s.clients, sub).Active?
    case BeginClose => s.clients.closer.CloserIdle?
    case ClosePosts(sub) => PcOf(s.clients, sub).Rejected? || PcOf(s.clients, sub).Unsubscribed?
    case CloseErrors(sub) => PcOf(s.clients, sub).PostsClosed?
    case CloseChannels => s.clients.closer.CloserAnswered?
    case Read(sub, _) => BoxOf(s.clients, sub).reading && 0 < BoxOf(s.clients, sub).items
    case RequestSub(sub, _) =>
      s.server.pc.Select? && (PcOf(s.clients, sub).Subscribing? || PcOf(s.clients, sub).Unsubscribing?)
    case RequestClose => s.server.pc.Select? && s.clients.closer.CloserSending?
    case Respond(to) => s.server.pc.Responding? && Awaiting(s.clients, to)
    case TakeMessage => s.server.pc.Select? && s.channels.messages != []
    case TakeError => s.server.pc.Select? && s.channels.errors != []
    case HandTo(sub) =>
      s.server.pc.Dispatching? && sub in s.server.pc.pending
      && (Fits(BoxOf(s.clients, sub), s.server.pc.item) || Closed(PcOf(s.clients, sub), s.server.pc.item))
    case EndDispatch => s.server.pc.Dispatching? && s.server.pc.pending == {}
    case PassConsumingBarrier => s.server.pc.StopConsuming? && c.consumingBarrier == 0
    case PassConsumerBarrier => s.server.pc.StopConsumer? && c.consumerBarrier == 0
    case StartClaim => c.loop.InSession?
    case Feed(k, _) => k < |c.claims| && c.claims[k].open
    case CloseClaim(k) => k < |c.claims| && c.claims[k].open
    case NextRecord(k) => k < |c.claims| && c.claims[k].pc.Ranging? && c.claims[k].next < |c.claims[k].source|
    case EndClaim(k) =>
      k < |c.claims| && c.claims[k].pc.Ranging? && !c.claims[k].open && c.claims[k].next == |c.claims[k].source|
    case Enqueue(k) =>
      k < |c.claims| && c.claims[k].pc.Sending? && (|s.channels.messages| < CAPACITY || s.channels.closed)
    case Mark(k) => k < |c.claims| && c.claims[k].pc.Marking? && 0 < c.claims[k].next
    case BeginSession => c.loop.Calling?
    case EndSession(_) => c.loop.InSession? && AllReturned(c.claims)
    case PostError => c.loop.Posting? && (|s.channels.errors| < CAPACITY || s.channels.closed)
    case LeaveLoop => c.loop.Leaving? && 0 < c.consumingBarrier
    case EndErrorPump => c.errorPump && !c.errorsOpen && 0 < c.consumerBarrier
  }

  /** The send can go through now: a record needs room, an error a pump that reads. */
  predicate Fits(box: Box, item: Item) {
    if item.Data? then box.items < CAPACITY else box.reading
  }

  /** An error ends the pump that gets it. */
  function Filled(box: Box, item: Item): Box {
    if item.Data? then box.(items := box.items + 1) else box.(reading := false)
  }

  function SetBox(clients: Clients, sub: Sub, box: Box): Clients {
    clients.(boxes := clients.boxes[sub := box])
  }

  function SetPc(s: State, sub: Sub, pc: ClientPc): State {
    s.(clients := s.clients.(pcs := s.clients.pcs[sub := pc]))
  }

  function SetCloser(s: State, pc: CloserPc): State {
    s.(clients := s.clients.(closer := pc))
  }

  function SetClaim(s: State, k: nat, claim: Claim): State
    requires k < |s.consumption.claims|
  {
    s.(consumption := s.consumption.(claims := s.consumption.claims[k := claim]))
  }

  /** The goroutines start() spawns; claims and channels of earlier consumers stay as they are. */
  function Spawned(c: Consumption): Consumption {
    c.(loop := Calling, cancelled := false, errorsOpen := true, errorPump := true,
       consumingBarrier := 1, consumerBarrier := 1)
  }

  function ServeSubscribe(s: State, sub: Sub, opens: bool): State {
    var server := s.server;
    if !server.consumer && !opens then
      s.(server := server.(pc := Responding(StartFailed, false)))
    else
      s.(server := server.(
           pc := Responding(Accepted, false),
           consumer := true,
           starts := if server.consumer then server.starts else server.starts + 1,
           subscriptions := server.subscriptions + {sub},
           attached := server.attached + {sub}),
         consumption := if server.consumer then s.consumption else Spawned(s.consumption))
  }

  function ServeUnsubscribe(s: State, sub: Sub): State {
    var left := s.server.subscriptions - {sub};
    if left != {} then
      s.(server := s.server.(pc := Responding(Accepted, false), subscriptions := left))
    else if s.server.consumer then
      s.(server := s.server.(pc := StopConsuming(false), subscriptions := left),
         consumption := s.consumption.(cancelled := true))
    else
      s.(fault := true)
  }

  function ApplyRequestSub(s: State, sub: Sub, opens: bool): State {
    var pc := if PcOf(s.clients, sub).Subscribing? then AwaitSubscribe else AwaitUnsubscribe;
    var t := SetPc(s, sub, pc).(server := s.server.(events := s.server.events + [Ask(sub, opens)]));
    if sub in s.server.attached then ServeUnsubscribe(t, sub) else ServeSubscribe(t, sub, opens)
  }

  function ApplyRequestClose(s: State): State {
    var t := SetCloser(s, CloserAwaiting).(server := s.server.(events := s.server.events + [AskClose]));
    if s.server.consumer then
      t.(server := t.server.(pc := StopConsuming(true)), consumption := t.consumption.(cancelled := true))
    else
      t.(server := t.server.(pc := Responding(Accepted, true)))
  }

  function ApplyRespond(s: State, to: Requester<Sub>): State
    requires s.server.pc.Responding?
  {
    var pc := s.server.pc;
    var t := s.(server := s.server.(pc := if pc.closing then Exited else Select),
                clients := s.clients.(received := s.clients.received + [Reply(to, pc.outcome)]));
    match to
    case Closer => SetCloser(t, CloserAnswered)
    case Subscriber(sub) =>
      SetPc(t, sub, if PcOf(s.clients, sub).AwaitUnsubscribe? then Unsubscribed
                    else if pc.outcome.Accepted? then Active else Rejected)
  }

  function ApplyTake(s: State, item: Item, channels: Channels): State {
    s.(server := s.server.(pc := Dispatching(item, s.server.subscriptions),
                           events := s.server.events + [Take(item)]),
       channels := channels)
  }

  /** The handle of a posts subscription sends on its posts channel, an error goes to its error channel. */
  predicate Closed(pc: ClientPc, item: Item) {
    pc.AllClosed? || (pc.PostsClosed? && item.Data?)
  }

  function ApplyHandTo(s: State, sub: Sub): State
    requires s.server.pc.Dispatching?
  {
    var item, pending := s.server.pc.item, s.server.pc.pending;
    s.(server := s.server.(pc := Dispatching(item, pending - {sub}),
                           delivered := Deliver(s.server.delivered, {sub}, item)),
       clients := SetBox(s.clients, sub, Filled(BoxOf(s.clients, sub), item)),
       fault := s.fault || Closed(PcOf(s.clients, sub), item))
  }

  function ApplyNextRecord(s: State, k: nat): State
    requires Enabled(s, NextRecord(k))
  {
    var claim := s.consumption.claims[k];
    var record := claim.source[claim.next];
    SetClaim(s, k, claim.(
      next := claim.next + 1,
      pc := if record.malformed then Returned(true) else Sending(Message(k, claim.next, record.value))))
  }

  function ApplyEnqueue(s: State, k: nat): State
    requires Enabled(s, Enqueue(k))
  {
    var claim := s.consumption.claims[k];
    if s.channels.closed then s.(fault := true)
    else
      SetClaim(s, k, claim.(pc := Marking)).(
        channels := s.channels.(messages := s.channels.messages + [claim.pc.message],
                                enqueued := s.channels.enqueued + [claim.pc.message]))
  }

  function ApplyMark(s: State, k: nat): State
    requires Enabled(s, Mark(k))
  {
    var claim := s.consumption.claims[k];
    SetClaim(s, k, claim.(pc := Ranging, marked := claim.marked + [claim.next - 1]))
  }

  /** What the consume loop does with the result of Consume: try again, or the value it posts. */
  function Verdict(result: ConsumeResult, cancelled: bool): LoopPc {
    match result
    case NoError => if cancelled then Posting(None) else Calling
    case Broken(code) => Posting(Some(code))
    case GroupClosed => Posting(None)
    case Canceled => Posting(None)
  }

  function ApplyPostError(s: State): State
    requires s.consumption.loop.Posting?
  {
    if s.channels.closed then s.(fault := true)
    else
      s.(channels := s.channels.(errors := s.channels.errors + [s.consumption.loop.verdict]),
         consumption := s.consumption.(loop := Leaving, posts := s.consumption.posts + 1))
  }

  function Apply(s: State, a: Action): State
    requires Enabled(s, a)
  {
    var c := s.consumption;
    match a
    case BeginSubscribe(sub) => SetPc(s, sub, Subscribing).(fault := s.channels.closed)
    case BeginUnsubscribe(sub) => SetPc(s, sub, Unsubscribing).(fault := s.channels.closed)
    case BeginClose => SetCloser(s, CloserSending)
    case ClosePosts(sub) => SetPc(s, sub, PostsClosed)
    case CloseErrors(sub) => SetPc(s, sub, AllClosed)
    case CloseChannels =>
      SetCloser(s, ChannelsClosed).(channels := s.channels.(closed := true), fault := SomeoneRequests(s.clients))
    case Read(sub, ends) =>
      s.(clients := SetBox(s.clients, sub, Box(BoxOf(s.clients, sub).items - 1, !ends)))
    case RequestSub(sub, opens) => ApplyRequestSub(s, sub, opens)
    case RequestClose => ApplyRequestClose(s)
    case Respond(to) => ApplyRespond(s, to)
    case TakeMessage =>
      ApplyTake(s, Data(s.channels.messages[0]), s.channels.(messages := s.channels.messages[1..]))
    case TakeError =>
      ApplyTake(s, Failure(s.channels.errors[0]), s.channels.(errors := s.channels.errors[1..]))
    case HandTo(sub) => ApplyHandTo(s, sub)
    case EndDispatch => s.(server := s.server.(pc := Select))
    case PassConsumingBarrier =>
      s.(server := s.server.(pc := StopConsumer(s.server.pc.closing)), consumption := c.(errorsOpen := false))
    case PassConsumerBarrier =>
      s.(server := s.server.(pc := Responding(Accepted, s.server.pc.closing), consumer := false,
                             stops := s.server.stops + 1))
    case StartClaim => s.(consumption := c.(claims := c.claims + [Claim([], true, 0, Ranging, [])]))
    case Feed(k, record) => SetClaim(s, k, c.claims[k].(source := c.claims[k].source + [record]))
    case CloseClaim(k) => SetClaim(s, k, c.claims[k].(open := false))
    case NextRecord(k) => ApplyNextRecord(s, k)
    case EndClaim(k) => SetClaim(s, k, c.claims[k].(pc := Returned(false)))
    case Enqueue(k) => ApplyEnqueue(s, k)
    case Mark(k) => ApplyMark(s, k)
    case BeginSession => s.(consumption := c.(loop := InSession))
    case EndSession(result) => s.(consumption := c.(loop := Verdict(result, c.cancelled)))
    case PostError => ApplyPostError(s)
    case LeaveLoop => s.(consumption := c.(loop := Parked, consumingBarrier := c.consumingBarrier - 1))
    case EndErrorPump => s.(consumption := c.(errorPump := false, consumerBarrier := c.consumerBarrier - 1))
  }

  // ---------------------------------------------------------------- runs

  predicate Runs(s: State, actions: seq<Action>)
    decreases |actions|
  {
    actions == [] || (Enabled(s, actions[0]) && Runs(Apply(s, actions[0]), actions[1..]))
  }

  function Exec(s: State, actions: seq<Action>): State
    requires Runs(s, actions)
    decreases |actions|
  {
    if actions == [] then s else Exec(Apply(s, actions[0]), actions[1..])
  }
}

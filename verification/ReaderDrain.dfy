/**
 How a close request comes to its answer where it can: from any state that meets the condition of ReaderAnswer
 the processes can drain what is in the way, without new requests or records. Together with the other
 direction there this makes the condition exact, and a run shows that it can fail.
 */
module ReaderDrain {
  import opened ReaderSpec
  import opened ReaderProtocol
  import opened ReaderInvariant
  import opened ReaderTheorems
  import opened ReaderStop
  import opened ReaderAnswer
  import opened Sums

  // ---------------------------------------------------------------- steps without help

  ghost predicate Leads(s: State, more: seq<Action>, t: State) {
    Runs(s, more) && Exec(s, more) == t && forall a | a in more :: Unhelped(a)
  }

  /** Without help from broker or newcomers the processes can get from s to t. */
  ghost predicate Reaches(s: State, t: State) {
    exists more :: Leads(s, more, t)
  }

  lemma ReachSelf(s: State)
    ensures Reaches(s, s)
  {
    assert Leads(s, [], s);
  }

  lemma {:induction false} LeadsOn(s: State, more: seq<Action>, t: State, a: Action)
    requires Leads(s, more, t) && Enabled(t, a) && Unhelped(a)
    ensures Leads(s, more + [a], Apply(t, a))
  {
    ExtendFrom(s, more, a);
  }

  /** One more step. */
  lemma ReachOn(s: State, t: State, a: Action) returns (u: State)
    requires Inv(s) && Reaches(s, t) && Enabled(t, a) && Unhelped(a)
    ensures u == Apply(t, a) && Reaches(s, u) && Inv(t) && Inv(u)
  {
    var more :| Leads(s, more, t);
    LeadsOn(s, more, t, a);
    InvAlways(s, more);
    u := Apply(t, a);
    InvKept(t, a);
    hide Inv;
  }

  lemma {:induction false} ReachTrans(s: State, t: State, u: State)
    requires Reaches(s, t) && Reaches(t, u)
    ensures Reaches(s, u)
  {
    var first :| Leads(s, first, t);
    var second :| Leads(t, second, u);
    Concatenated(s, first, second);
    assert Leads(s, first + second, u);
  }

  lemma {:induction false} Concatenated(s: State, first: seq<Action>, second: seq<Action>)
    requires Runs(s, first) && Runs(Exec(s, first), second)
    ensures Runs(s, first + second) && Exec(s, first + second) == Exec(Exec(s, first), second)
    decreases |first|
  {
    if first == [] {
      assert [] + second == second;
    } else {
      assert (first + second)[1..] == first[1..] + second;
      Concatenated(Apply(s, first[0]), first[1..], second);
    }
  }

  /** Only what dispatching changes is different. */
  ghost predicate OnlyHanded(s: State, t: State) {
    && t.consumption == s.consumption && t.channels == s.channels
    && t.clients.pcs == s.clients.pcs && t.clients.closer == s.clients.closer
    && t.server.subscriptions == s.server.subscriptions && t.server.consumer == s.server.consumer
  }

  lemma PumpReads(s: State, sub: Sub) returns (t: State)
    requires Inv(s) && !s.fault && BoxOf(s.clients, sub).reading && 0 < BoxOf(s.clients, sub).items
    ensures Inv(t) && !t.fault && Reaches(s, t) && OnlyHanded(s, t) && t.server == s.server
    ensures forall q :: BoxOf(t.clients, q) == if q == sub then Box(BoxOf(s.clients, sub).items - 1, true)
                                               else BoxOf(s.clients, q)
  {
    ReachSelf(s);
    hide Inv, Reaches;
    t := ReachOn(s, s, Read(sub, false));
  }

  lemma ServeHands(s: State, sub: Sub) returns (t: State)
    requires Inv(s) && !s.fault && s.server.pc.Dispatching? && sub in s.server.pc.pending
    requires Fits(BoxOf(s.clients, sub), s.server.pc.item)
    ensures Inv(t) && !t.fault && Reaches(s, t) && OnlyHanded(s, t)
    ensures t.server.pc == Dispatching(s.server.pc.item, s.server.pc.pending - {sub})
    ensures forall q :: BoxOf(t.clients, q) == if q == sub then Filled(BoxOf(s.clients, sub), s.server.pc.item)
                                               else BoxOf(s.clients, q)
  {
    ReachSelf(s);
    NoFault(s, HandTo(sub));
    hide Inv, Reaches, Deliver, Fits, Filled;
    t := ReachOn(s, s, HandTo(sub));
  }

  /** The pump makes room and serve hands over. */
  lemma {:induction false} HandsOver(s: State, sub: Sub) returns (t: State)
    requires Inv(s) && !s.fault && s.server.pc.Dispatching? && sub in s.server.pc.pending
    requires CanTake(BoxOf(s.clients, sub), s.server.pc.item)
    ensures Inv(t) && !t.fault && Reaches(s, t) && OnlyHanded(s, t)
    ensures t.server.pc == Dispatching(s.server.pc.item, s.server.pc.pending - {sub})
    ensures forall q :: BoxOf(t.clients, q) == if q == sub then Handed(BoxOf(s.clients, sub), s.server.pc.item)
                                               else BoxOf(s.clients, q)
    decreases BoxOf(s.clients, sub).items
  {
    hide Inv, Reaches, BoxOf;
    if BoxOf(s.clients, sub).reading && 0 < BoxOf(s.clients, sub).items {
      var u := PumpReads(s, sub);
      t := HandsOver(u, sub);
      ReachTrans(s, u, t);
    } else {
      t := ServeHands(s, sub);
    }
  }

  lemma {:induction false} DispatchEnds(s: State) returns (t: State)
    requires Inv(s) && !s.fault && s.server.pc.Dispatching? && !Wedged(s)
    ensures Inv(t) && !t.fault && Reaches(s, t) && OnlyHanded(s, t) && t.server.pc.Select?
    ensures forall q :: After(t, q) == After(s, q)
    decreases |s.server.pc.pending|
  {
    if s.server.pc.pending == {} {
      t := BackAtSelect(s);
    } else {
      var sub :| sub in s.server.pc.pending;
      hide Inv, Reaches, BoxOf, Handed;
      var u := HandsOver(s, sub);
      HandingKeeps(s, sub, u);
      hide After, Wedged;
      assert u.server.pc.pending < s.server.pc.pending;
      t := DispatchEnds(u);
      ReachTrans(s, u, t);
    }
  }

  lemma BackAtSelect(s: State) returns (t: State)
    requires Inv(s) && !s.fault && s.server.pc.Dispatching? && s.server.pc.pending == {}
    ensures Inv(t) && !t.fault && Reaches(s, t) && OnlyHanded(s, t) && t.server.pc.Select?
    ensures forall q :: After(t, q) == After(s, q)
  {
    ReachSelf(s);
    NoFault(s, EndDispatch);
    hide Inv, Reaches;
    t := ReachOn(s, s, EndDispatch);
  }

  lemma HandingKeeps(s: State, sub: Sub, u: State)
    requires s.server.pc.Dispatching? && sub in s.server.pc.pending && !Wedged(s)
    requires u.server.pc == Dispatching(s.server.pc.item, s.server.pc.pending - {sub})
    requires forall q :: BoxOf(u.clients, q) == if q == sub then Handed(BoxOf(s.clients, sub), s.server.pc.item)
                                                else BoxOf(s.clients, q)
    ensures !Wedged(u) && forall q :: After(u, q) == After(s, q)
  {
    hide BoxOf, Handed, CanTake;
  }

  // the answer itself

  /** Serve answers whom it is serving. */
  lemma Responds(s: State, sub: Sub) returns (t: State)
    requires Inv(s) && !s.fault && s.server.pc.Responding? && PcOf(s.clients, sub).AwaitUnsubscribe?
    ensures Reaches(s, t) && PcOf(t.clients, sub).Unsubscribed?
  {
    ReachSelf(s);
    assert Awaiting(s.clients, Subscriber(sub));
    t := ReachOn(s, s, Respond(Subscriber(sub)));
    hide Inv, Reaches;
  }

  /** Once in stop with the condition for it, the processes get it to the response. */
  lemma {:induction false} StopAnswers(s: State, sub: Sub) returns (t: State)
    requires Inv(s) && !s.fault && Stopping(s.server.pc) && CanFinish(s) && PcOf(s.clients, sub).AwaitUnsubscribe?
    ensures Reaches(s, t) && PcOf(t.clients, sub).Unsubscribed?
    decreases Measure(s)
  {
    var a := NeverStuck(s);
    StopCannotPanic(s, a);
    MeasureStep(s, a);
    CanFinishStep(s, a);
    StopStep(s, a);
    StopStaysAwaited(s, a, sub);
    ReachSelf(s);
    hide Inv, Reaches, CanFinish, Measure, Apply, Enabled, Stopped;
    var u := ReachOn(s, s, a);
    if Stopping(u.server.pc) {
      t := StopAnswers(u, sub);
    } else {
      IsResponding(u);
      t := Responds(u, sub);
    }
    ReachTrans(s, u, t);
  }

  lemma IsResponding(s: State)
    requires Stopped(s)
    ensures s.server.pc.Responding?
  {
  }

  /** With others left, the answer is one step away. */
  lemma LeavesOthers(s: State, sub: Sub) returns (t: State)
    requires Inv(s) && !s.fault && s.server.pc.Select? && PcOf(s.clients, sub).Unsubscribing?
    requires s.server.subscriptions != {sub}
    ensures Reaches(s, t) && PcOf(t.clients, sub).Unsubscribed?
  {
    assert ClientAgrees(s.server, sub, PcOf(s.clients, sub));
    assert s.server.subscriptions - {sub} != {};
    ReachSelf(s);
    hide Inv, Reaches, ClientAgrees;
    var u := ReachOn(s, s, RequestSub(sub, true));
    t := Responds(u, sub);
    ReachTrans(s, u, t);
  }

  /** The last one to leave. */
  lemma LeavesLast(s: State, sub: Sub) returns (t: State)
    requires Inv(s) && !s.fault && s.server.pc.Select? && PcOf(s.clients, sub).Unsubscribing?
    requires s.server.subscriptions == {sub} && CanFinish(s)
    ensures Reaches(s, t) && PcOf(t.clients, sub).Unsubscribed?
  {
    assert ClientAgrees(s.server, sub, PcOf(s.clients, sub));
    LifecycleHolds(s.server.events);
    assert s.server.consumer;
    ReachSelf(s);
    hide Inv, Reaches, ClientAgrees;
    assert s.server.subscriptions - {sub} == {};
    var u := ReachOn(s, s, RequestSub(sub, true));
    assert Demand(u) == Demand(s);
    t := StopAnswers(u, sub);
    ReachTrans(s, u, t);
  }

  /** A newcomer already on its request joins first. */
  lemma NewcomerJoins(s: State, sub: Sub) returns (t: State)
    requires Inv(s) && !s.fault && s.server.pc.Select? && PcOf(s.clients, sub).Unsubscribing?
    requires s.server.subscriptions == {sub} && SomeoneSubscribes(s.clients)
    ensures Inv(t) && !t.fault && Reaches(s, t) && t.server.pc.Select? && PcOf(t.clients, sub).Unsubscribing?
    ensures t.server.subscriptions != {sub}
  {
    var q :| q in s.clients.pcs && s.clients.pcs[q].Subscribing?;
    assert ClientAgrees(s.server, q, PcOf(s.clients, q));
    LifecycleHolds(s.server.events);
    NoFault(s, RequestSub(q, true));
    assert s.server.consumer && q !in s.server.attached && q != sub;
    ReachSelf(s);
    hide Inv, Reaches, ClientAgrees;
    var u := ReachOn(s, s, RequestSub(q, true));
    assert q in u.server.subscriptions;
    NoFault(u, Respond(Subscriber(q)));
    t := ReachOn(s, u, Respond(Subscriber(q)));
  }

  // draining what keeps the last one from leaving

  /** Serve at its select, the last subscription asking to leave, stop not yet sure to end, but room or a reader. */
  ghost predicate Draining(s: State, sub: Sub) {
    && Inv(s) && !s.fault && s.server.pc.Select?
    && PcOf(s.clients, sub).Unsubscribing? && s.server.subscriptions == {sub}
    && LastCanLeave(s, sub) && !CanFinish(s)
  }

  ghost predicate Drained(s: State, t: State, sub: Sub) {
    && Inv(t) && !t.fault && Reaches(s, t) && t.server.pc.Select?
    && PcOf(t.clients, sub).Unsubscribing? && t.server.subscriptions == {sub}
    && LastCanLeave(t, sub)
  }

  /** Taking the buffered message leaves one fewer to place, and the room for the others. */
  lemma DrainMessage(s: State, sub: Sub) returns (t: State)
    requires Draining(s, sub) && s.channels.messages != [] && CAPACITY < Demand(s)
    ensures Drained(s, t, sub) && Demand(t) < Demand(s)
  {
    ReachSelf(s);
    NoFault(s, TakeMessage);
    hide Inv, Reaches, BoxOf, Pendings;
    var u := ReachOn(s, s, TakeMessage);
    assert Demand(u) == Demand(s) - 1 && !Wedged(u);
    t := DispatchEnds(u);
    ReachTrans(s, u, t);
    assert After(t, sub) == After(u, sub) && Demand(t) == Demand(u);
  }

  /** An error left by an earlier consumer goes to the pump that still reads. */
  lemma DrainError(s: State, sub: Sub) returns (t: State)
    requires Draining(s, sub) && Demand(s) <= CAPACITY
    ensures Drained(s, t, sub) && Demand(t) == Demand(s) && |t.channels.errors| < |s.channels.errors|
  {
    ReachSelf(s);
    NoFault(s, TakeError);
    assert |s.channels.errors| <= CAPACITY;
    hide Inv, Reaches, BoxOf, Pendings;
    var u := ReachOn(s, s, TakeError);
    assert Demand(u) == Demand(s) && !Wedged(u);
    t := DispatchEnds(u);
    ReachTrans(s, u, t);
    assert After(t, sub) == After(u, sub) && Demand(t) == Demand(u);
  }

  lemma SomePending(claims: seq<Claim>) returns (k: nat)
    requires 0 < Sum(Pendings(claims))
    ensures k < |claims| && 0 < Pending(claims[k])
  {
    if forall i | 0 <= i < |claims| :: Pending(claims[i]) == 0 {
      SumZero(Pendings(claims));
    }
    k :| k < |claims| && Pending(claims[k]) != 0;
  }

  lemma ClaimMoves(s: State, k: nat) returns (a: Action)
    requires !s.fault && s.channels.messages == [] && k < |s.consumption.claims|
    requires 0 < Pending(s.consumption.claims[k]) && 0 <= Marked(s.consumption.claims[k])
    ensures Enabled(s, a) && ClaimStep(a) && Unhelped(a)
  {
    var claim := s.consumption.claims[k];
    a := match claim.pc case Sending(_) => Enqueue(k) case Marking => Mark(k) case _ => NextRecord(k);
  }

  lemma ClaimStepFrame(s: State, a: Action)
    requires Enabled(s, a) && ClaimStep(a)
    ensures Apply(s, a).server == s.server && Apply(s, a).clients == s.clients
    ensures Apply(s, a).consumption.loop == s.consumption.loop
    ensures Apply(s, a).channels.errors == s.channels.errors
  {
  }

  lemma PendingClaim(s: State) returns (a: Action)
    requires !s.fault && ClaimsAgree(s) && s.channels.messages == [] && 0 < Demand(s)
    ensures Enabled(s, a) && ClaimStep(a) && Unhelped(a)
  {
    var k := SomePending(s.consumption.claims);
    assert ClaimAgrees(k, s.consumption.claims[k], s.channels.enqueued);
    hide Enabled, Sum, Pending, Convertible;
    a := ClaimMoves(s, k);
  }

  /** With an empty buffer some claim is on its way to fill it. */
  lemma DrainClaim(s: State, sub: Sub) returns (t: State)
    requires Draining(s, sub) && s.channels.messages == [] && CAPACITY < Demand(s)
    ensures Drained(s, t, sub) && Demand(t) == Demand(s) && t.channels.errors == s.channels.errors
    ensures Measure(t) < Measure(s)
  {
    ReachSelf(s);
    var a := PendingClaim(s);
    NoFault(s, a);
    ClaimStepFrame(s, a);
    QuietConsumerDemands(s, a);
    ClaimStepWorks(s, a);
    hide Inv, Reaches, BoxOf, Demand, Measure, Apply, Enabled;
    t := ReachOn(s, s, a);
    assert After(t, sub) == After(s, sub);
  }

  /** From its select serve can come to answer the request, if the condition holds. */
  lemma {:induction false} SelectAnswers(s: State, sub: Sub) returns (t: State)
    requires Inv(s) && !s.fault && s.server.pc.Select? && PcOf(s.clients, sub).Unsubscribing?
    requires HasCompany(s, sub) || LastCanLeave(s, sub)
    ensures Reaches(s, t) && PcOf(t.clients, sub).Unsubscribed?
    decreases Demand(s), |s.channels.errors|, Measure(s)
  {
    if s.server.subscriptions != {sub} {
      t := LeavesOthers(s, sub);
    } else if SomeoneSubscribes(s.clients) {
      var u := NewcomerJoins(s, sub);
      t := LeavesOthers(u, sub);
      ReachTrans(s, u, t);
    } else if CanFinish(s) {
      t := LeavesLast(s, sub);
    } else {
      var u;
      if Demand(s) <= CAPACITY {
        u := DrainError(s, sub);
      } else if s.channels.messages != [] {
        u := DrainMessage(s, sub);
      } else {
        u := DrainClaim(s, sub);
      }
      hide Inv, Reaches, LastCanLeave, CanFinish, Demand, Measure, SomeoneSubscribes;
      t := SelectAnswers(u, sub);
      ReachTrans(s, u, t);
    }
  }

  /** A response under way is given, and serve is at its select again. */
  lemma ResponseEnds(s: State, sub: Sub) returns (t: State)
    requires Inv(s) && !s.fault && s.server.pc.Responding? && !s.server.pc.closing
    requires PcOf(s.clients, sub).Unsubscribing?
    ensures Inv(t) && !t.fault && Reaches(s, t) && t.server.pc.Select? && PcOf(t.clients, sub).Unsubscribing?
    ensures t.server.subscriptions == s.server.subscriptions && t.consumption == s.consumption
    ensures t.channels == s.channels && t.clients.boxes == s.clients.boxes
    ensures SomeoneSubscribes(s.clients) ==> SomeoneSubscribes(t.clients)
  {
    ReachSelf(s);
    var to := Current(s.server.events);
    NoFault(s, Respond(to));
    hide Inv, Reaches;
    t := ReachOn(s, s, Respond(to));
    if q :| q in s.clients.pcs && s.clients.pcs[q].Subscribing? {
      assert q in t.clients.pcs && t.clients.pcs[q].Subscribing?;
    }
  }

  lemma Answers(s: State, sub: Sub) returns (t: State)
    requires Inv(s) && !s.fault && PcOf(s.clients, sub).Unsubscribing? && Answerable(s, sub)
    ensures Reaches(s, t) && PcOf(t.clients, sub).Unsubscribed?
  {
    assert ClientAgrees(s.server, sub, PcOf(s.clients, sub));
    if Stopping(s.server.pc) {
      StoppingIsEmpty(s);
    }
    hide Inv, Reaches, Pendings;
    ReachSelf(s);
    var u := s;
    if s.server.pc.Dispatching? {
      u := DispatchEnds(s);
      assert After(u, sub) == After(s, sub) && Demand(u) == Demand(s);
    } else if s.server.pc.Responding? {
      u := ResponseEnds(s, sub);
      assert After(u, sub) == After(s, sub) && Demand(u) == Demand(s);
    }
    hide Demand, After, Lost, Wedged;
    t := SelectAnswers(u, sub);
    ReachTrans(s, u, t);
  }

  // ---------------------------------------------------------------- the theorems

  ghost predicate Answered(s: State, sub: Sub, more: seq<Action>) {
    Runs(s, more) && (forall a | a in more :: Unhelped(a)) && PcOf(Exec(s, more).clients, sub).Unsubscribed?
  }

  /**
   A close request, from the moment it is made in any run: without new requests and records there is a
   continuation in which it is answered if and only if serve is neither wedged nor closing and either the
   subscription is not the last or what is under way can still be placed.
   */
  lemma AnsweredExactlyWhen(actions: seq<Action>, sub: Sub)
    requires Runs(Init(), actions) && PcOf(Exec(Init(), actions).clients, sub).Unsubscribing?
    ensures Answerable(Exec(Init(), actions), sub) <==> exists more :: Answered(Exec(Init(), actions), sub, more)
  {
    Reachable(actions);
    var s := Exec(Init(), actions);
    if Answerable(s, sub) {
      assert s.fault ==> s.server.pc.Exited?;
      var t := Answers(s, sub);
      var more :| Leads(s, more, t);
      assert Answered(s, sub, more);
    } else {
      forall more | Runs(s, more) && forall a | a in more :: Unhelped(a)
        ensures !PcOf(Exec(s, more).clients, sub).Unsubscribed?
      {
        NoAnswer(s, more, sub);
      }
    }
    hide Inv, Answerable;
  }

  /** A wedged or closing serve takes no request of anybody any more, whatever the broker and the clients do. */
  lemma WedgedForEver(actions: seq<Action>, more: seq<Action>, sub: Sub)
    requires Runs(Init(), actions) && Lost(Exec(Init(), actions)) && Runs(Exec(Init(), actions), more)
    requires Requesting(PcOf(Exec(Init(), actions).clients, sub))
    ensures PcOf(Exec(Exec(Init(), actions), more).clients, sub) == PcOf(Exec(Init(), actions).clients, sub)
  {
    Reachable(actions);
    LostForEver(Exec(Init(), actions), more, sub);
  }

  // ---------------------------------------------------------------- and it fails

  /** Subscription 0 alone, an empty buffer, and one claim with so many good records left. */
  ghost predicate Alone(s: State, left: nat, box: Box) {
    && !s.fault && !s.channels.closed && s.channels.messages == []
    && s.server.subscriptions == {0} && PcOf(s.clients, 0).Active? && BoxOf(s.clients, 0) == box
    && |s.consumption.claims| == 1
    && var claim := s.consumption.claims[0];
       claim.open && claim.next + left == |claim.source|
       && forall i | 0 <= i < |claim.source| :: !claim.source[i].malformed
  }

  ghost predicate Flows(s: State, left: nat, box: Box) {
    Alone(s, left, box) && s.server.pc.Select? && s.consumption.claims[0].pc.Ranging?
  }

  /** Serve has just taken a record and is about to hand it over. */
  ghost predicate Hands(s: State, left: nat, box: Box) {
    && Alone(s, left, box) && s.consumption.claims[0].pc.Marking? && 0 < s.consumption.claims[0].next
    && s.server.pc.Dispatching? && s.server.pc.item.Data? && s.server.pc.pending == {0}
  }

  lemma RecordFed(actions: seq<Action>, left: nat, box: Box) returns (longer: seq<Action>)
    requires Runs(Init(), actions) && Flows(Exec(Init(), actions), left, box)
    ensures Runs(Init(), longer) && Flows(Exec(Init(), longer), left + 1, box)
  {
    longer := Then(actions, Feed(0, Record(7, false)));
  }

  lemma RecordsFlow() returns (actions: seq<Action>)
    ensures Runs(Init(), actions) && Flows(Exec(Init(), actions), 3, Box(0, true))
  {
    actions := OneSubscriber();
    actions := Then(actions, BeginSession);
    actions := Then(actions, StartClaim);
    hide Apply, Enabled;
    actions := RecordFed(actions, 0, Box(0, true));
    actions := RecordFed(actions, 1, Box(0, true));
    actions := RecordFed(actions, 2, Box(0, true));
  }

  /** The next record is buffered and serve has taken it. */
  lemma RecordTaken(actions: seq<Action>, left: nat, box: Box) returns (longer: seq<Action>)
    requires Runs(Init(), actions) && Flows(Exec(Init(), actions), left, box) && 0 < left
    ensures Runs(Init(), longer) && Hands(Exec(Init(), longer), left - 1, box)
  {
    longer := Then(actions, NextRecord(0));
    longer := Then(longer, Enqueue(0));
    longer := Then(longer, TakeMessage);
  }

  lemma RecordArrives(actions: seq<Action>, left: nat, reading: bool) returns (longer: seq<Action>)
    requires Runs(Init(), actions) && Flows(Exec(Init(), actions), left, Box(0, reading)) && 0 < left
    ensures Runs(Init(), longer) && Flows(Exec(Init(), longer), left - 1, Box(1, reading))
  {
    longer := RecordTaken(actions, left, Box(0, reading));
    longer := Then(longer, HandTo(0));
    longer := Then(longer, EndDispatch);
    longer := Then(longer, Mark(0));
  }

  /**
   A pump that ends because sending its record to the client failed, one more record that fills the posts
   channel, and one that serve is handing out when the subscription asks to be closed: the request is never
   taken, nor is any other, in every continuation.
   */
  lemma CloseDeadlockReachable() returns (actions: seq<Action>)
    ensures Runs(Init(), actions)
    ensures var s := Exec(Init(), actions);
            Wedged(s) && PcOf(s.clients, 0).Unsubscribing? && BoxOf(s.clients, 0) == Box(1, false)
    ensures forall more | Runs(Exec(Init(), actions), more) ::
              PcOf(Exec(Exec(Init(), actions), more).clients, 0).Unsubscribing?
  {
    actions := RecordsFlow();
    actions := RecordArrives(actions, 3, true);
    actions := Then(actions, Read(0, true));
    actions := RecordArrives(actions, 2, false);
    actions := RecordTaken(actions, 1, Box(1, false));
    actions := Then(actions, BeginUnsubscribe(0));
    var s := Exec(Init(), actions);
    assert 0 in s.server.pc.pending && !CanTake(BoxOf(s.clients, 0), s.server.pc.item);
    forall more | Runs(s, more)
      ensures PcOf(Exec(s, more).clients, 0).Unsubscribing?
    {
      WedgedForEver(actions, more, 0);
    }
  }
}

/**
 Stopping the reader. `stop` waits on two barriers from inside the only goroutine that drains the message
 and error channels, so it can block for ever. CanFinish is what decides: under it every schedule of the
 remaining steps passes both barriers, and without it no schedule does.
 */
module ReaderStop {
  import opened ReaderSpec
  import opened ReaderProtocol
  import opened ReaderInvariant
  import opened ReaderTheorems
  import opened Sums

  // ---------------------------------------------------------------- what is still to be enqueued

  /** The records from `next` on that convert before the first that does not. */
  function Convertible(source: seq<Record>, next: nat): nat
    decreases |source| - next
  {
    if next >= |source| || source[next].malformed then 0 else 1 + Convertible(source, next + 1)
  }

  /** The messages a claim handler has yet to enqueue. */
  function Pending(claim: Claim): nat {
    if claim.pc.Returned? then 0
    else Convertible(claim.source, claim.next) + if claim.pc.Sending? then 1 else 0
  }

  function Pendings(claims: seq<Claim>): (r: seq<nat>)
    ensures |r| == |claims| && forall i | 0 <= i < |claims| :: r[i] == Pending(claims[i])
  {
    seq(|claims|, i requires 0 <= i < |claims| => Pending(claims[i]))
  }

  /** Buffered and still-pending messages together. */
  function Demand(s: State): nat {
    |s.channels.messages| + Sum(Pendings(s.consumption.claims))
  }

  /** A caller can check this when it enters stop. */
  predicate CanFinish(s: State) {
    !Unposted(s.consumption.loop) || (s.channels.errors == [] && Demand(s) <= CAPACITY)
  }

  lemma SetPending(claims: seq<Claim>, k: nat, claim: Claim)
    requires k < |claims|
    ensures Sum(Pendings(claims[k := claim])) == Sum(Pendings(claims)) - Pending(claims[k]) + Pending(claim)
  {
    SumUpdate(Pendings(claims), k, Pending(claim));
    assert Pendings(claims[k := claim]) == Pendings(claims)[k := Pending(claim)];
  }

  lemma {:induction false} FeedPending(source: seq<Record>, next: nat, record: Record)
    ensures Convertible(source, next) <= Convertible(source + [record], next)
    decreases |source| - next
  {
    if next < |source| {
      assert (source + [record])[next] == source[next];
      FeedPending(source, next + 1, record);
    }
  }

  predicate Quiet(a: Action) {
    !a.Feed? && !a.StartClaim?
  }

  /** The steps of one claim handler, or the closing of its channel. */
  predicate ClaimStep(a: Action) {
    a.CloseClaim? || a.NextRecord? || a.EndClaim? || a.Mark? || a.Enqueue?
  }

  /** Enqueueing moves a message from the handler to the buffer; no other step of a claim moves one. */
  lemma PendingStep(s: State, a: Action)
    requires Enabled(s, a) && !Apply(s, a).fault && ClaimStep(a)
    requires s.consumption.claims[a.claim].next <= |s.consumption.claims[a.claim].source|
    ensures var t := Apply(s, a);
            && a.claim < |t.consumption.claims|
            && Pending(t.consumption.claims[a.claim]) + |t.channels.messages|
               == Pending(s.consumption.claims[a.claim]) + |s.channels.messages|
  {
  }

  lemma ClaimStepDemands(s: State, a: Action)
    requires Enabled(s, a) && !Apply(s, a).fault && ClaimStep(a)
    requires s.consumption.claims[a.claim].next <= |s.consumption.claims[a.claim].source|
    ensures Demand(Apply(s, a)) == Demand(s)
  {
    var t := Apply(s, a);
    assert t.consumption.claims == s.consumption.claims[a.claim := t.consumption.claims[a.claim]];
    PendingStep(s, a);
    SetPending(s.consumption.claims, a.claim, t.consumption.claims[a.claim]);
    hide Sum, Enabled, Apply, Pending, Pendings;
  }

  lemma OtherStepDemands(s: State, a: Action)
    requires Enabled(s, a) && Stopping(s.server.pc) && Quiet(a) && !ClaimStep(a)
    ensures Demand(Apply(s, a)) == Demand(s)
  {
    assert Apply(s, a).consumption.claims == s.consumption.claims;
  }

  lemma BrokerStepDemands(s: State, a: Action)
    requires Enabled(s, a) && !Quiet(a)
    ensures Demand(s) <= Demand(Apply(s, a))
  {
    var claims := s.consumption.claims;
    match a
    case StartClaim =>
      var started := Claim([], true, 0, Ranging, []);
      assert Pendings(claims + [started])[..|claims|] == Pendings(claims);
    case Feed(k, record) =>
      SetPending(claims, k, claims[k].(source := claims[k].source + [record]));
      FeedPending(claims[k].source, claims[k].next, record);
  }

  /** While serve is inside stop nobody closes the reader's channels, so no request can meet them closed. */
  lemma StopCannotPanic(s: State, a: Action)
    requires Inv(s) && Enabled(s, a) && Stopping(s.server.pc)
    ensures !Apply(s, a).fault
  {
    if !ClientStep(a) {
      NoFault(s, a);
    }
    hide Inv;
  }

  /** Only new records from the broker change the demand, and they only raise it. */
  lemma DemandStep(s: State, a: Action)
    requires Inv(s) && Enabled(s, a) && Stopping(s.server.pc)
    ensures Demand(s) <= Demand(Apply(s, a))
    ensures Quiet(a) ==> Demand(Apply(s, a)) == Demand(s)
  {
    StopCannotPanic(s, a);
    assert forall k | 0 <= k < |s.consumption.claims| ::
        ClaimAgrees(k, s.consumption.claims[k], s.channels.enqueued);
    assert ClaimStep(a) ==> a.claim < |s.consumption.claims|;
    hide Inv, Enabled, Apply, Demand;
    if ClaimStep(a) {
      ClaimStepDemands(s, a);
    } else if Quiet(a) {
      OtherStepDemands(s, a);
    } else {
      BrokerStepDemands(s, a);
    }
  }

  // ---------------------------------------------------------------- measure

  function ClaimWork(claim: Claim): nat
  {
    (if claim.open then 1 else 0) +
    if claim.pc.Returned? then 0
    else
      1 + 3 * (if claim.next < |claim.source| then |claim.source| - claim.next else 0) +
      match claim.pc case Sending(_) => 2 case Marking => 1 case _ => 0
  }

  function ClaimWorks(claims: seq<Claim>): (r: seq<nat>)
    ensures |r| == |claims| && forall i | 0 <= i < |claims| :: r[i] == ClaimWork(claims[i])
  {
    seq(|claims|, i requires 0 <= i < |claims| => ClaimWork(claims[i]))
  }

  function LoopWork(loop: LoopPc): nat {
    match loop case Calling => 4 case InSession => 3 case Posting(_) => 2 case Leaving => 1 case Parked => 0
  }

  function ServeWork(pc: ServePc): nat {
    match pc case StopConsuming(_) => 2 case StopConsumer(_) => 1 case _ => 0
  }

  /** The steps the claim handlers, the consume loop, the errors goroutine and serve can still make. */
  function Measure(s: State): nat {
    Sum(ClaimWorks(s.consumption.claims)) + LoopWork(s.consumption.loop) +
    (if s.consumption.errorPump then 1 else 0) + ServeWork(s.server.pc)
  }

  lemma SetWork(claims: seq<Claim>, k: nat, claim: Claim)
    requires k < |claims|
    ensures Sum(ClaimWorks(claims[k := claim])) == Sum(ClaimWorks(claims)) - ClaimWork(claims[k]) + ClaimWork(claim)
  {
    SumUpdate(ClaimWorks(claims), k, ClaimWork(claim));
    assert ClaimWorks(claims[k := claim]) == ClaimWorks(claims)[k := ClaimWork(claim)];
  }

  lemma ClaimWorkDrops(s: State, a: Action)
    requires Enabled(s, a) && !Apply(s, a).fault && ClaimStep(a)
    ensures var t := Apply(s, a);
            && |t.consumption.claims| == |s.consumption.claims|
            && ClaimWork(t.consumption.claims[a.claim]) < ClaimWork(s.consumption.claims[a.claim])
            && t.consumption
               == s.consumption.(claims := s.consumption.claims[a.claim := t.consumption.claims[a.claim]])
            && t.server == s.server
  {
  }

  lemma ClaimStepWorks(s: State, a: Action)
    requires Enabled(s, a) && !Apply(s, a).fault && ClaimStep(a)
    ensures Measure(Apply(s, a)) < Measure(s)
  {
    ClaimWorkDrops(s, a);
    SetWork(s.consumption.claims, a.claim, Apply(s, a).consumption.claims[a.claim]);
    hide Sum, Apply, ClaimWork;
  }

  lemma OtherStepWorks(s: State, a: Action)
    requires Enabled(s, a) && Stopping(s.server.pc) && Quiet(a) && !ClaimStep(a)
    requires s.server.pc.StopConsuming? ==> s.consumption.cancelled
    requires s.server.pc.StopConsumer? ==> s.consumption.loop.Parked?
    requires !Apply(s, a).fault
    ensures if ClientStep(a) then Measure(Apply(s, a)) == Measure(s) else Measure(Apply(s, a)) < Measure(s)
  {
    assert Apply(s, a).consumption.claims == s.consumption.claims;
  }

  lemma MeasureStep(s: State, a: Action)
    requires Inv(s) && Enabled(s, a) && Stopping(s.server.pc) && Quiet(a)
    ensures if ClientStep(a) then Measure(Apply(s, a)) == Measure(s) else Measure(Apply(s, a)) < Measure(s)
  {
    StopCannotPanic(s, a);
    assert s.server.pc.StopConsuming? ==> s.consumption.cancelled;
    assert s.server.pc.StopConsumer? ==> s.consumption.loop.Parked?;
    hide Inv, Enabled, Apply, Measure;
    if ClaimStep(a) {
      ClaimStepWorks(s, a);
    } else {
      OtherStepWorks(s, a);
    }
  }

  // ---------------------------------------------------------------- with CanFinish, stop always completes

  lemma NothingPendingOutsideSession(c: Consumption)
    requires SessionsEnd(c) && !c.loop.InSession?
    ensures Sum(Pendings(c.claims)) == 0
  {
    SumZero(Pendings(c.claims));
  }

  lemma CanFinishConsumerStep(s: State, a: Action)
    requires Enabled(s, a) && ConsumerStep(a) && !Apply(s, a).fault
    requires CanFinish(s) && Demand(Apply(s, a)) == Demand(s)
    ensures CanFinish(Apply(s, a))
  {
    hide Demand;
  }

  lemma CanFinishStep(s: State, a: Action)
    requires Inv(s) && Enabled(s, a) && Stopping(s.server.pc) && Quiet(a) && CanFinish(s)
    ensures CanFinish(Apply(s, a))
  {
    StopCannotPanic(s, a);
    DemandStep(s, a);
    hide Inv, Demand;
    if ConsumerStep(a) {
      CanFinishConsumerStep(s, a);
    } else if ClientStep(a) {
      ClientFrame(s, a);
    }
  }

  lemma ClaimHasStep(s: State, k: nat) returns (a: Action)
    requires Inv(s) && Stopping(s.server.pc) && CanFinish(s) && s.consumption.loop.InSession?
    requires k < |s.consumption.claims| && !s.consumption.claims[k].pc.Returned?
    ensures Enabled(s, a) && Quiet(a) && !ClientStep(a)
  {
    var claim := s.consumption.claims[k];
    assert ClaimAgrees(k, claim, s.channels.enqueued);
    SumAtLeast(Pendings(s.consumption.claims), k);
    a := match claim.pc
      case Sending(_) => Enqueue(k)
      case Marking => Mark(k)
      case _ =>
        if claim.next < |claim.source| then NextRecord(k) else if claim.open then CloseClaim(k) else EndClaim(k);
  }

  /** Some process can always move while serve is inside stop. */
  lemma NeverStuck(s: State) returns (a: Action)
    requires Inv(s) && Stopping(s.server.pc) && CanFinish(s)
    ensures Enabled(s, a) && Quiet(a) && !ClientStep(a)
  {
    var c := s.consumption;
    if s.server.pc.StopConsumer? {
      a := if c.consumerBarrier == 0 then PassConsumerBarrier else EndErrorPump;
    } else if c.loop.InSession? && !AllReturned(c.claims) {
      var k :| 0 <= k < |c.claims| && !c.claims[k].pc.Returned?;
      a := ClaimHasStep(s, k);
    } else {
      a := match c.loop
        case Parked => PassConsumingBarrier
        case Calling => BeginSession
        case InSession => EndSession(Canceled)
        case Posting(_) => PostError
        case Leaving => LeaveLoop;
    }
  }

  /** The schedule is one of steps made while serve is inside stop, with a broker that has gone quiet. */
  predicate WithinStop(s: State, schedule: seq<Action>)
    requires Runs(s, schedule)
    decreases |schedule|
  {
    schedule == [] ||
    (Stopping(s.server.pc) && Quiet(schedule[0]) && WithinStop(Apply(s, schedule[0]), schedule[1..]))
  }

  /** The steps of a schedule that are not a client moving up to its next request. */
  function InnerSteps(schedule: seq<Action>): nat {
    if schedule == [] then 0 else (if ClientStep(schedule[0]) then 0 else 1) + InnerSteps(schedule[1..])
  }

  /** Inside stop no process but a client can move any more; a state outside stop is maximal by itself. */
  ghost predicate Maximal(s: State) {
    Stopping(s.server.pc) ==> forall a :: Enabled(s, a) && Quiet(a) ==> ClientStep(a)
  }

  ghost predicate Stopped(s: State) {
    && s.server.pc.Responding? && !s.server.consumer
    && s.consumption.loop.Parked? && !s.consumption.errorPump
  }

  ghost predicate Completes(s: State, schedule: seq<Action>) {
    Runs(s, schedule) && Stopped(Exec(s, schedule))
  }

  lemma StopStep(s: State, a: Action)
    requires Inv(s) && Stopping(s.server.pc) && Enabled(s, a)
    ensures Stopping(Apply(s, a).server.pc) || Stopped(Apply(s, a))
  {
    StopCannotPanic(s, a);
    InvKept(s, a);
    if ConsumerStep(a) {
      ConsumerFrame(s, a);
    }
  }

  lemma {:induction false} FinishesFrom(s: State, schedule: seq<Action>)
    requires Inv(s) && Stopping(s.server.pc) && CanFinish(s)
    requires Runs(s, schedule) && WithinStop(s, schedule)
    ensures InnerSteps(schedule) <= Measure(s)
    ensures var t := Exec(s, schedule); if Stopping(t.server.pc) then Inv(t) && CanFinish(t) else Stopped(t)
    ensures Maximal(Exec(s, schedule)) <==> Stopped(Exec(s, schedule))
    decreases |schedule|
  {
    if schedule == [] {
      var a := NeverStuck(s);
    } else {
      var a, t := schedule[0], Apply(s, schedule[0]);
      InvKept(s, a);
      MeasureStep(s, a);
      CanFinishStep(s, a);
      StopStep(s, a);
      if Stopping(t.server.pc) {
        FinishesFrom(t, schedule[1..]);
      } else {
        assert schedule[1..] == [] && Exec(s, schedule) == t;
      }
    }
  }

  lemma {:induction false} FinishingSchedule(s: State) returns (schedule: seq<Action>)
    requires Inv(s) && Stopping(s.server.pc) && CanFinish(s)
    ensures Runs(s, schedule) && Stopped(Exec(s, schedule))
    decreases Measure(s)
  {
    var a := NeverStuck(s);
    InvKept(s, a);
    MeasureStep(s, a);
    CanFinishStep(s, a);
    StopStep(s, a);
    var rest: seq<Action> := [];
    if Stopping(Apply(s, a).server.pc) {
      rest := FinishingSchedule(Apply(s, a));
    }
    schedule := [a] + rest;
    assert schedule[1..] == rest;
  }

  /**
   After any run that has entered stop with CanFinish: every schedule of the remaining steps has at most
   Measure inner ones; it has released both barriers and left no consumer if and only if no process can
   continue it inside stop; and if some can, it can be continued to that end.
   */
  lemma EveryScheduleFinishes(actions: seq<Action>, schedule: seq<Action>)
    requires Runs(Init(), actions) && Stopping(Exec(Init(), actions).server.pc)
    requires CanFinish(Exec(Init(), actions))
    requires Runs(Exec(Init(), actions), schedule) && WithinStop(Exec(Init(), actions), schedule)
    ensures InnerSteps(schedule) <= Measure(Exec(Init(), actions))
    ensures Maximal(Exec(Exec(Init(), actions), schedule)) <==> Stopped(Exec(Exec(Init(), actions), schedule))
    ensures exists more :: Completes(Exec(Exec(Init(), actions), schedule), more)
  {
    Reachable(actions);
    FinishesFrom(Exec(Init(), actions), schedule);
    var t := Exec(Exec(Init(), actions), schedule);
    var more: seq<Action> := [];
    if Stopping(t.server.pc) {
      more := FinishingSchedule(t);
    }
    assert Completes(t, more);
  }

  // ---------------------------------------------------------------- without it, stop never completes

  lemma StuckConsumerStep(s: State, a: Action)
    requires Enabled(s, a) && ConsumerStep(a) && !CanFinish(s) && Demand(s) <= Demand(Apply(s, a))
    requires s.consumption.loop.InSession? || Demand(s) <= CAPACITY
    requires !Apply(s, a).fault
    ensures !CanFinish(Apply(s, a))
  {
    hide Demand;
  }

  lemma StuckStep(s: State, a: Action)
    requires Inv(s) && Enabled(s, a) && s.server.pc.StopConsuming? && !CanFinish(s)
    ensures Apply(s, a).server.pc.StopConsuming? && !CanFinish(Apply(s, a))
  {
    StopCannotPanic(s, a);
    DemandStep(s, a);
    if !s.consumption.loop.InSession? {
      NothingPendingOutsideSession(s.consumption);
    }
    assert !s.consumption.loop.Parked? && s.consumption.consumingBarrier == 1;
    hide Inv, Sum;
    if ConsumerStep(a) {
      ConsumerFrame(s, a);
      StuckConsumerStep(s, a);
    } else {
      assert ClientStep(a);
      ClientFrame(s, a);
    }
  }

  lemma {:induction false} StuckForEver(s: State, schedule: seq<Action>)
    requires Inv(s) && s.server.pc.StopConsuming? && !CanFinish(s) && Runs(s, schedule)
    ensures Exec(s, schedule).server.pc.StopConsuming?
    decreases |schedule|
  {
    if schedule != [] {
      InvKept(s, schedule[0]);
      StuckStep(s, schedule[0]);
      StuckForEver(Apply(s, schedule[0]), schedule[1..]);
    }
  }

  /** The condition is exact: after any run that enters stop, some schedule completes it if and only if it holds. */
  lemma StopCompletesExactlyWhen(actions: seq<Action>)
    requires Runs(Init(), actions) && Exec(Init(), actions).server.pc.StopConsuming?
    ensures CanFinish(Exec(Init(), actions)) <==> exists schedule :: Completes(Exec(Init(), actions), schedule)
  {
    Reachable(actions);
    var s := Exec(Init(), actions);
    if CanFinish(s) {
      var schedule := FinishingSchedule(s);
      assert Completes(s, schedule);
    } else {
      forall schedule | Runs(s, schedule)
        ensures !Completes(s, schedule)
      {
        StuckForEver(s, schedule);
      }
    }
  }

  // ---------------------------------------------------------------- the deadlock is real

  function Flowing(claims: seq<Claim>, loop: LoopPc, channels: Channels): State {
    State(Server(Select, {0}, {0}, true, 1, 0, map[], [Ask(0, true)]),
          Clients(map[0 := Active], CloserIdle, [Reply(Subscriber(0), Accepted)], map[]),
          Consumption(loop, false, true, true, 1, 1, claims, 0),
          channels, false)
  }

  lemma OneSubscriber() returns (actions: seq<Action>)
    ensures Runs(Init(), actions)
    ensures Exec(Init(), actions) == Flowing([], Calling, Channels([], [], false, []))
  {
    actions := Then([], BeginSubscribe(0));
    assert Exec(Init(), actions) == Init().(clients := Clients(map[0 := Subscribing], CloserIdle, [], map[]));
    actions := Then(actions, RequestSub(0, true));
    assert Exec(Init(), actions).server
        == Server(Responding(Accepted, false), {0}, {0}, true, 1, 0, map[], [Ask(0, true)]);
    actions := Then(actions, Respond(Subscriber(0)));
    hide Inv;
  }

  function Fed(source: seq<Record>): State {
    Flowing([Claim(source, true, 0, Ranging, [])], InSession, Channels([], [], false, []))
  }

  lemma FeedOnce(actions: seq<Action>, source: seq<Record>, record: Record) returns (longer: seq<Action>)
    requires Runs(Init(), actions) && Exec(Init(), actions) == Fed(source)
    ensures Runs(Init(), longer) && Exec(Init(), longer) == Fed(source + [record])
  {
    longer := Then(actions, Feed(0, record));
    var before, after := Claim(source, true, 0, Ranging, []), Claim(source + [record], true, 0, Ranging, []);
    assert [before][0 := after] == [after];
  }

  function Buffered(record: Record): State {
    var message := Message(0, 0, record.value);
    Flowing([Claim([record, record], true, 1, Marking, [])], InSession, Channels([message], [], false, [message]))
  }

  lemma EnqueueFirst(actions: seq<Action>, record: Record) returns (longer: seq<Action>)
    requires Runs(Init(), actions) && Exec(Init(), actions) == Fed([record, record]) && !record.malformed
    ensures Runs(Init(), longer) && Exec(Init(), longer) == Buffered(record)
  {
    var message := Message(0, 0, record.value);
    var before := Claim([record, record], true, 0, Ranging, []);
    longer := Then(actions, NextRecord(0));
    assert [before][0 := before.(next := 1, pc := Sending(message))] == [before.(next := 1, pc := Sending(message))];
    longer := Then(longer, Enqueue(0));
    assert [before.(next := 1, pc := Sending(message))][0 := before.(next := 1, pc := Marking)]
        == [before.(next := 1, pc := Marking)];
  }

  lemma TwoRecordsInFlight() returns (actions: seq<Action>)
    ensures Runs(Init(), actions) && Exec(Init(), actions) == Buffered(Record(7, false))
  {
    actions := OneSubscriber();
    actions := Then(actions, BeginSession);
    actions := Then(actions, StartClaim);
    actions := FeedOnce(actions, [], Record(7, false));
    actions := FeedOnce(actions, [] + [Record(7, false)], Record(7, false));
    assert [] + [Record(7, false)] + [Record(7, false)] == [Record(7, false), Record(7, false)];
    actions := EnqueueFirst(actions, Record(7, false));
  }

  lemma TooManyInFlight(s: State)
    requires Unposted(s.consumption.loop) && |s.channels.messages| == 1 && |s.consumption.claims| == 1
    requires var claim := s.consumption.claims[0];
             claim.pc.Marking? && claim.next == 1 && |claim.source| == 2 && !claim.source[1].malformed
    ensures !CanFinish(s)
  {
    assert Convertible(s.consumption.claims[0].source, 1) == 1 + Convertible(s.consumption.claims[0].source, 2);
    SumAtLeast(Pendings(s.consumption.claims), 0);
  }

  /**
   A subscriber that closes while two records are in flight, one buffered and one not yet: the reader is
   then stuck in stop, in every continuation.
   */
  lemma DeadlockReachable() returns (actions: seq<Action>)
    ensures Runs(Init(), actions)
    ensures var s := Exec(Init(), actions); s.server.pc == StopConsuming(false) && !CanFinish(s)
    ensures forall more | Runs(Exec(Init(), actions), more) ::
              Exec(Exec(Init(), actions), more).server.pc.StopConsuming?
  {
    actions := TwoRecordsInFlight();
    actions := Then(actions, BeginUnsubscribe(0));
    actions := Then(actions, RequestSub(0, true));
    var s := Exec(Init(), actions);
    TooManyInFlight(s);
    Reachable(actions);
    hide Inv, CanFinish;
    forall more | Runs(s, more)
      ensures Exec(s, more).server.pc.StopConsuming?
    {
      StuckForEver(s, more);
    }
  }

  // ---------------------------------------------------------------- and so is an orderly end

  ghost predicate Stops(s: State) {
    && !s.fault && !s.channels.closed && s.channels.errors == [] && s.server.pc == StopConsuming(false)
    && s.clients.pcs.Keys == {0} && PcOf(s.clients, 0).AwaitUnsubscribe?
    && s.clients.closer.CloserIdle? && s.server.stops == 0
    && s.consumption.loop.InSession? && s.consumption.claims == [] && s.consumption.errorPump
    && s.consumption.consumingBarrier == s.consumption.consumerBarrier == 1
  }

  lemma LeavesInSession() returns (actions: seq<Action>)
    ensures Runs(Init(), actions) && Stops(Exec(Init(), actions))
  {
    actions := OneSubscriber();
    actions := Then(actions, BeginSession);
    actions := Then(actions, BeginUnsubscribe(0));
    actions := Then(actions, RequestSub(0, true));
  }

  ghost predicate HasStopped(s: State) {
    && !s.fault && !s.channels.closed && s.server.pc == Responding(Accepted, false) && !s.server.consumer
    && s.clients.pcs.Keys == {0} && PcOf(s.clients, 0).AwaitUnsubscribe?
    && s.clients.closer.CloserIdle? && s.server.stops == 1
  }

  ghost predicate LoopLeft(s: State) {
    && !s.fault && !s.channels.closed && s.server.pc == StopConsuming(false)
    && s.clients.pcs.Keys == {0} && PcOf(s.clients, 0).AwaitUnsubscribe?
    && s.clients.closer.CloserIdle? && s.server.stops == 0
    && s.consumption.errorPump && s.consumption.consumingBarrier == 0 && s.consumption.consumerBarrier == 1
  }

  lemma LeavesLoop(actions: seq<Action>) returns (longer: seq<Action>)
    requires Runs(Init(), actions) && Stops(Exec(Init(), actions))
    ensures Runs(Init(), longer) && LoopLeft(Exec(Init(), longer))
  {
    longer := Then(actions, EndSession(Canceled));
    longer := Then(longer, PostError);
    longer := Then(longer, LeaveLoop);
  }

  lemma StopsOnce(actions: seq<Action>) returns (longer: seq<Action>)
    requires Runs(Init(), actions) && LoopLeft(Exec(Init(), actions))
    ensures Runs(Init(), longer) && HasStopped(Exec(Init(), longer))
  {
    longer := Then(actions, PassConsumingBarrier);
    longer := Then(longer, EndErrorPump);
    longer := Then(longer, PassConsumerBarrier);
  }

  ghost predicate Released(s: State) {
    && !s.fault && !s.channels.closed && s.server.pc.Select? && !s.server.consumer
    && s.clients.pcs.Keys == {0} && PcOf(s.clients, 0).AllClosed? && s.clients.closer.CloserIdle?
    && s.server.stops == 1
  }

  lemma ClosesItsChannels(actions: seq<Action>) returns (longer: seq<Action>)
    requires Runs(Init(), actions) && HasStopped(Exec(Init(), actions))
    ensures Runs(Init(), longer) && Released(Exec(Init(), longer))
  {
    longer := Then(actions, Respond(Subscriber(0)));
    longer := Then(longer, ClosePosts(0));
    longer := Then(longer, CloseErrors(0));
  }

  /** A whole life: subscribed, closed, its channels closed, and then those of the reader, without a panic. */
  lemma WholeLife() returns (actions: seq<Action>)
    ensures Runs(Init(), actions)
    ensures var s := Exec(Init(), actions);
            !s.fault && PcOf(s.clients, 0).AllClosed? && s.channels.closed && s.server.stops == 1
  {
    actions := LeavesInSession();
    actions := LeavesLoop(actions);
    actions := StopsOnce(actions);
    actions := ClosesItsChannels(actions);
    actions := Then(actions, BeginClose);
    actions := Then(actions, RequestClose);
    actions := Then(actions, Respond(Closer));
    actions := Then(actions, CloseChannels);
  }

  lemma OneRejected() returns (actions: seq<Action>)
    ensures Runs(Init(), actions)
    ensures var s := Exec(Init(), actions);
            !s.fault && PcOf(s.clients, 0).Rejected? && s.clients.received == [Reply(Subscriber(0), StartFailed)]
  {
    actions := Then([], BeginSubscribe(0));
    actions := Then(actions, RequestSub(0, false));
    actions := Then(actions, Respond(Subscriber(0)));
  }

  /** A subscription whose consumer does not open: rejected, and its channels are closed all the same. */
  lemma RejectedLife() returns (actions: seq<Action>)
    ensures Runs(Init(), actions)
    ensures var s := Exec(Init(), actions);
            !s.fault && PcOf(s.clients, 0).AllClosed? && s.clients.received == [Reply(Subscriber(0), StartFailed)]
  {
    actions := OneRejected();
    actions := Then(actions, ClosePosts(0));
    actions := Then(actions, CloseErrors(0));
  }
}

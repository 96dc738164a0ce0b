/**
 What subscribers are told of the end of a stream. The values on the error channel are followed from the
 results of Consume that end a loop to the items a subscription is handed, over every run.
 */
module ReaderErrors {
  import opened Options
  import opened ReaderSpec
  import opened ReaderProtocol
  import opened ReaderInvariant
  import opened ReaderTheorems

  // ---------------------------------------------------------------- what ends a consume loop

  /**
   The value a result of Consume has to reach subscribers as, said of the run and not of the loop: an error of the
   broker as itself; nil for a closed group, for a cancellation, and for no error once serve has entered stop.
   No error before that tells nobody anything.
   */
  function Ending(pc: ServePc, a: Action): seq<Option<nat>> {
    match a
    case EndSession(Broken(code)) => [Some(code)]
    case EndSession(GroupClosed) => [None]
    case EndSession(Canceled) => [None]
    case EndSession(NoError) => if Stopping(pc) then [None] else []
    case _ => []
  }

  /** The values of all endings of a run, in order. */
  function Endings(s: State, actions: seq<Action>): seq<Option<nat>>
    requires Runs(s, actions)
    decreases |actions|
  {
    if actions == [] then []
    else Ending(s.server.pc, actions[0]) + Endings(Apply(s, actions[0]), actions[1..])
  }

  /** The error values among items, and the messages. */
  function FailuresIn(items: seq<Item>): seq<Option<nat>> {
    if items == [] then []
    else
      var last := items[|items| - 1];
      FailuresIn(items[..|items| - 1]) + if last.Failure? then [last.error] else []
  }

  function MessagesIn(items: seq<Item>): seq<Message> {
    if items == [] then []
    else
      var last := items[|items| - 1];
      MessagesIn(items[..|items| - 1]) + if last.Data? then [last.message] else []
  }

  function AboutToPost(loop: LoopPc): seq<Option<nat>> {
    if loop.Posting? then [loop.verdict] else []
  }

  /** The values serve has taken, then those in the channel, then the one about to be posted. */
  function ErrorFlow(s: State): seq<Option<nat>> {
    (FailuresIn(Items(s.server.events)) + s.channels.errors) + AboutToPost(s.consumption.loop)
  }

  // ---------------------------------------------------------------- every step

  lemma Regroup<T>(xs: seq<T>, ys: seq<T>, zs: seq<T>)
    ensures (xs + ys) + zs == xs + (ys + zs)
  {
  }

  function FailureIn(event: Event<Sub>): seq<Option<nat>> {
    if event.Take? && event.item.Failure? then [event.item.error] else []
  }

  function MessageIn(event: Event<Sub>): seq<Message> {
    if event.Take? && event.item.Data? then [event.item.message] else []
  }

  lemma FailuresSnoc(events: seq<Event<Sub>>, event: Event<Sub>)
    ensures FailuresIn(Items(events + [event])) == FailuresIn(Items(events)) + FailureIn(event)
    ensures MessagesIn(Items(events + [event])) == MessagesIn(Items(events)) + MessageIn(event)
  {
    ItemsSnoc(events, event);
    if event.Take? {
      assert (Items(events) + [event.item])[..|Items(events)|] == Items(events);
    } else {
      assert Items(events) + [] == Items(events);
    }
  }

  /** While Consume is running, cancelled and in stop are the same. */
  lemma CancelledIsStopping(s: State)
    requires Inv(s) && s.consumption.loop.InSession?
    ensures s.consumption.cancelled <==> Stopping(s.server.pc)
  {
  }

  /** What the loop is about to post after a session is what the result has to reach subscribers as. */
  lemma SessionPosts(s: State, a: Action)
    requires Enabled(s, a) && a.EndSession?
    requires s.consumption.cancelled <==> Stopping(s.server.pc)
    ensures AboutToPost(s.consumption.loop) == []
    ensures AboutToPost(Apply(s, a).consumption.loop) == Ending(s.server.pc, a)
    ensures Apply(s, a).server == s.server && Apply(s, a).channels == s.channels
  {
  }

  lemma SessionFlows(s: State, a: Action)
    requires Enabled(s, a) && a.EndSession?
    requires s.consumption.cancelled <==> Stopping(s.server.pc)
    ensures ErrorFlow(Apply(s, a)) == ErrorFlow(s) + Ending(s.server.pc, a)
  {
    hide Enabled, Apply, AboutToPost, Ending, FailuresIn, Items;
    SessionPosts(s, a);
    var before := FailuresIn(Items(s.server.events)) + s.channels.errors;
    assert before + [] == before;
  }

  lemma PostFlows(s: State)
    requires Enabled(s, PostError) && !s.channels.closed
    ensures ErrorFlow(Apply(s, PostError)) == ErrorFlow(s)
  {
    hide FailuresIn, Items;
  }

  lemma TakeErrorFlows(s: State)
    requires Enabled(s, TakeError)
    ensures ErrorFlow(Apply(s, TakeError)) == ErrorFlow(s)
  {
    var errors := s.channels.errors;
    hide FailuresIn, Items;
    FailuresSnoc(s.server.events, Take(Failure(errors[0])));
    Regroup(FailuresIn(Items(s.server.events)), [errors[0]], errors[1..]);
    assert [errors[0]] + errors[1..] == errors;
  }

  /** A request or a message taken adds nothing to the errors taken. */
  lemma NothingTaken(s: State, t: State, event: Event<Sub>)
    requires t.server.events == s.server.events + [event] && t.channels.errors == s.channels.errors
    requires AboutToPost(t.consumption.loop) == AboutToPost(s.consumption.loop)
    requires !event.Take? || event.item.Data?
    ensures ErrorFlow(t) == ErrorFlow(s)
  {
    hide FailuresIn, Items, AboutToPost;
    FailuresSnoc(s.server.events, event);
    assert FailuresIn(Items(s.server.events)) + [] == FailuresIn(Items(s.server.events));
  }

  lemma RequestSubFlows(s: State, sub: Sub, opens: bool)
    requires Enabled(s, RequestSub(sub, opens)) && (!s.server.consumer ==> s.consumption.loop.Parked?)
    ensures ErrorFlow(ApplyRequestSub(s, sub, opens)) == ErrorFlow(s)
  {
    hide FailuresIn, Items, ErrorFlow;
    NothingTaken(s, ApplyRequestSub(s, sub, opens), Ask(sub, opens));
  }

  lemma EventFlows(s: State, a: Action)
    requires Enabled(s, a) && (a.RequestSub? || a.RequestClose? || a.TakeMessage?)
    requires !s.server.consumer ==> s.consumption.loop.Parked?
    ensures ErrorFlow(Apply(s, a)) == ErrorFlow(s)
  {
    hide FailuresIn, Items, ErrorFlow;
    if a.RequestSub? {
      RequestSubFlows(s, a.sub, a.opens);
    } else if a.RequestClose? {
      NothingTaken(s, Apply(s, a), AskClose);
    } else {
      NothingTaken(s, Apply(s, a), Take(Data(s.channels.messages[0])));
    }
  }

  lemma OtherFlows(s: State, a: Action)
    requires Enabled(s, a) && !a.EndSession? && !a.PostError? && !a.TakeError?
    requires !a.RequestSub? && !a.RequestClose? && !a.TakeMessage?
    ensures ErrorFlow(Apply(s, a)) == ErrorFlow(s)
  {
    hide FailuresIn, Items;
    if ClientStep(a) {
      ClientFrame(s, a);
    } else {
      assert Apply(s, a).server.events == s.server.events && Apply(s, a).channels.errors == s.channels.errors;
    }
  }

  lemma StepFlows(s: State, a: Action)
    requires Inv(s) && Enabled(s, a)
    ensures ErrorFlow(Apply(s, a)) == ErrorFlow(s) + Ending(s.server.pc, a)
  {
    if a.PostError? {
      NoFault(s, a);
      assert !s.channels.closed;
    } else if a.EndSession? {
      CancelledIsStopping(s);
    }
    assert !s.server.consumer ==> s.consumption.loop.Parked?;
    hide Inv, Enabled, Apply, ErrorFlow;
    if a.EndSession? {
      SessionFlows(s, a);
    } else if a.PostError? {
      PostFlows(s);
    } else if a.TakeError? {
      TakeErrorFlows(s);
    } else if a.RequestSub? || a.RequestClose? || a.TakeMessage? {
      EventFlows(s, a);
    } else {
      OtherFlows(s, a);
    }
  }

  lemma {:induction false} FlowsFrom(s: State, actions: seq<Action>)
    requires Inv(s) && Runs(s, actions)
    ensures ErrorFlow(Exec(s, actions)) == ErrorFlow(s) + Endings(s, actions)
    decreases |actions|
  {
    if actions != [] {
      var t := Apply(s, actions[0]);
      InvKept(s, actions[0]);
      StepFlows(s, actions[0]);
      hide Inv, Enabled, Apply, ErrorFlow, Ending;
      FlowsFrom(t, actions[1..]);
      Regroup(ErrorFlow(s), Ending(s.server.pc, actions[0]), Endings(t, actions[1..]));
    }
  }

  // ---------------------------------------------------------------- the theorems

  /**
   In every run the error values serve has taken, followed by those in the channel and the one about to be posted,
   are in order the values of the results that ended a consume loop: no other, none twice and none lost.
   */
  lemma ErrorsAreEndings(actions: seq<Action>)
    requires Runs(Init(), actions)
    ensures var s := Exec(Init(), actions);
            (FailuresIn(Items(s.server.events)) + s.channels.errors) + AboutToPost(s.consumption.loop)
            == Endings(Init(), actions)
  {
    InitHolds();
    FlowsFrom(Init(), actions);
    assert ErrorFlow(Init()) == [];
    assert ErrorFlow(Init()) + Endings(Init(), actions) == Endings(Init(), actions);
    hide Inv, Endings;
  }

  /** A result of Consume that ends nothing lets the loop call it again; any other leaves it about to post. */
  lemma SessionGoesOn(actions: seq<Action>, result: ConsumeResult)
    requires Runs(Init(), actions) && Enabled(Exec(Init(), actions), EndSession(result))
    ensures var s := Exec(Init(), actions);
            var loop := Apply(s, EndSession(result)).consumption.loop;
            if Ending(s.server.pc, EndSession(result)) == [] then loop.Calling?
            else loop.Posting? && [loop.verdict] == Ending(s.server.pc, EndSession(result))
  {
    Reachable(actions);
    CancelledIsStopping(Exec(Init(), actions));
    hide Inv;
  }

  // ---------------------------------------------------------------- what one subscription is told

  lemma {:induction false} PrefixItems(events: seq<Event<Sub>>, n: nat)
    requires n <= |events|
    ensures FailuresIn(Items(events[..n])) <= FailuresIn(Items(events))
    ensures MessagesIn(Items(events[..n])) <= MessagesIn(Items(events))
    decreases |events| - n
  {
    hide FailuresIn, MessagesIn, Items;
    if n == |events| {
      assert events[..n] == events;
    } else {
      assert events[..n + 1] == events[..n] + [events[n]];
      FailuresSnoc(events[..n], events[n]);
      PrefixItems(events, n + 1);
    }
  }

  ghost predicate Concats(front: seq<Event<Sub>>, rest: seq<Event<Sub>>, whole: seq<Event<Sub>>) {
    && FailuresIn(Items(front)) + FailuresIn(Items(rest)) == FailuresIn(Items(whole))
    && MessagesIn(Items(front)) + MessagesIn(Items(rest)) == MessagesIn(Items(whole))
  }

  lemma {:induction false} ValuesConcat(front: seq<Event<Sub>>, rest: seq<Event<Sub>>)
    ensures Concats(front, rest, front + rest)
    decreases |rest|
  {
    if rest == [] {
      assert front + rest == front;
    } else {
      hide *;
      var before, last := rest[..|rest| - 1], rest[|rest| - 1];
      ValuesConcat(front, before);
      StretchGrows(front, before, front + before, last);
      LastApart(front, rest);
    }
  }

  lemma LastApart<T>(front: seq<T>, rest: seq<T>)
    requires rest != []
    ensures rest[..|rest| - 1] + [rest[|rest| - 1]] == rest
    ensures (front + rest[..|rest| - 1]) + [rest[|rest| - 1]] == front + rest
  {
  }

  /** The values of a stretch of events are the stretch of values between those of its ends. */
  lemma StretchOf(events: seq<Event<Sub>>, i: nat, j: nat)
    requires i <= j <= |events|
    ensures Concats(events[..i], events[i..j], events[..j])
  {
    hide *;
    assert events[..i] + events[i..j] == events[..j];
    ValuesConcat(events[..i], events[i..j]);
  }

  lemma StretchGrows(front: seq<Event<Sub>>, part: seq<Event<Sub>>, whole: seq<Event<Sub>>, event: Event<Sub>)
    requires Concats(front, part, whole)
    ensures Concats(front, part + [event], whole + [event])
  {
    hide FailuresIn, MessagesIn, Items, FailureIn, MessageIn;
    FailuresSnoc(part, event);
    FailuresSnoc(whole, event);
    Regroup(FailuresIn(Items(front)), FailuresIn(Items(part)), FailureIn(event));
    Regroup(MessagesIn(Items(front)), MessagesIn(Items(part)), MessageIn(event));
  }

  lemma {:induction false} TakenIsMessages(events: seq<Event<Sub>>)
    ensures TakenMessages(events) == MessagesIn(Items(events))
  {
    if events != [] {
      var n := |events| - 1;
      TakenIsMessages(events[..n]);
      assert events == events[..n] + [events[n]];
      FailuresSnoc(events[..n], events[n]);
    }
  }

  /** What a subscription has been handed and the item it is still owed. */
  function Told(server: Server, sub: Sub): seq<Item> {
    Get(server.delivered, sub) + if server.pc.Dispatching? && sub in server.pc.pending then [server.pc.item] else []
  }

  lemma Between<T>(whole: seq<T>, front: seq<T>, part: seq<T>)
    requires front + part <= whole
    ensures |front| + |part| <= |whole| && part == whole[|front|..|front| + |part|]
  {
    assert (front + part)[|front|..] == part;
  }

  /**
   What one subscription is told, whatever else goes on: the messages it gets are a contiguous stretch of those
   enqueued, and the errors it gets a contiguous stretch of the values of the results that ended a loop.
   */
  lemma ToldIsWhatHappened(actions: seq<Action>, sub: Sub)
    requires Runs(Init(), actions)
    ensures var s := Exec(Init(), actions);
            && (exists m, n :: 0 <= m <= n <= |Endings(Init(), actions)|
                            && FailuresIn(Told(s.server, sub)) == Endings(Init(), actions)[m..n])
            && (exists m, n :: 0 <= m <= n <= |s.channels.enqueued|
                            && MessagesIn(Told(s.server, sub)) == s.channels.enqueued[m..n])
  {
    var s := Exec(Init(), actions);
    var events := s.server.events;
    EachSubscriberGetsItsBlock(actions, sub);
    ErrorsAreEndings(actions);
    TakenIsPrefix(actions);
    TakenIsMessages(events);
    var i: nat, j: nat := 0, 0;
    if sub in s.server.attached {
      i, j := BlockOf(actions, sub);
    } else {
      NothingTold(actions, sub);
    }
    StretchOf(events, i, j);
    assert Concats(events[..i], events[i..j], events[..j]);
    PrefixItems(events, j);
    hide FailuresIn, MessagesIn, Items, Endings, Exec, Runs, Told, TakenMessages;
    Between(Endings(Init(), actions), FailuresIn(Items(events[..i])), FailuresIn(Items(events[i..j])));
    Between(s.channels.enqueued, MessagesIn(Items(events[..i])), MessagesIn(Items(events[i..j])));
  }

  lemma BlockOf(actions: seq<Action>, sub: Sub) returns (i: nat, j: nat)
    requires Runs(Init(), actions) && sub in Exec(Init(), actions).server.attached
    ensures var server := Exec(Init(), actions).server;
            i <= j <= |server.events| && Items(server.events[i..j]) == Told(server, sub)
  {
    EachSubscriberGetsItsBlock(actions, sub);
    var server := Exec(Init(), actions).server;
    var k: nat, l: nat :| Window(server.events, sub, k, l)
                       && Items(server.events[k + 1..l]) == Told(server, sub);
    i, j := k + 1, l;
    hide Items, Fold;
  }

  lemma NothingTold(actions: seq<Action>, sub: Sub)
    requires Runs(Init(), actions) && sub !in Exec(Init(), actions).server.attached
    ensures var server := Exec(Init(), actions).server;
            Told(server, sub) == [] == Items(server.events[0..0])
  {
    EachSubscriberGetsItsBlock(actions, sub);
    Reachable(actions);
  }
}

/**
 Synchronous pushes over one asynchronous producer (Push in au10/streamwriter.go). Every call sends its
 message into the producer and then takes whichever outcome comes first on the two channels all calls
 share; the broker decides each message in its own time, and other producers write to the same log.
 */
module StreamWriter {
  import opened Options
  import opened Words
  import opened Posts
  import opened Sums

  /** Serializing and parsing again is taken to give the same declaration. */
  type Payload = VocalDeclaration

  /** What the producer reports; `origin` is the call whose message it is about. */
  datatype Outcome = Stored(origin: nat, offset: nat) | Refused(origin: nat, error: nat)

  datatype Result = Pushed(id: Word) | Failed(error: nat) | NotSerialized | StreamClosed

  datatype CallPc = Sending | Waiting | Done(result: Result)

  /** `got` is history: the index of the outcome the call consumed. */
  datatype Call = Call(payload: Payload, pc: CallPc, got: Option<nat>)

  /**
   `outcomes` lists all outcomes ever reported, `takers` the call that consumed each; the channels hold
   indices into it. `input` holds the calls whose messages the broker has not decided yet.
   */
  datatype System = System(
    calls: seq<Call>,
    input: seq<nat>,
    log: seq<Payload>,
    outcomes: seq<Outcome>,
    takers: seq<Option<nat>>,
    successes: seq<nat>,
    errors: seq<nat>,
    closed: bool)

  datatype Action =
    | Begin(payload: Payload, serializes: bool)
    | Send(call: nat)
    | Store(position: nat) | Refuse(position: nat, error: nat) | Foreign(payload: Payload)
    | TakeSuccess(call: nat) | TakeError(call: nat) | TakeClosed(call: nat)
    | Close

  function Init(): System {
    System([], [], [], [], [], [], [], false)
  }

  predicate CallIs(s: System, k: nat, pc: CallPc) {
    k < |s.calls| && s.calls[k].pc == pc
  }

  predicate Enabled(s: System, a: Action) {
    match a
    case Begin(_, _) => true
    case Send(k) => CallIs(s, k, Sending) && !s.closed
    case Store(p) => p < |s.input| && s.input[p] < |s.calls|
    case Refuse(p, _) => p < |s.input|
    case Foreign(_) => true
    case TakeSuccess(k) => CallIs(s, k, Waiting) && s.successes != [] && s.successes[0] < |s.takers| == |s.outcomes|
    case TakeError(k) => CallIs(s, k, Waiting) && s.errors != [] && s.errors[0] < |s.takers| == |s.outcomes|
    case TakeClosed(k) => CallIs(s, k, Waiting) && s.closed && (s.successes == [] || s.errors == [])
    case Close => !s.closed
  }

  function Finish(s: System, k: nat, result: Result, got: Option<nat>): System
    requires k < |s.calls|
  {
    s.(calls := s.calls[k := s.calls[k].(pc := Done(result), got := got)])
  }

  function Decided(s: System, p: nat, outcome: Outcome): System
    requires p < |s.input|
  {
    s.(input := s.input[..p] + s.input[p + 1..],
       outcomes := s.outcomes + [outcome],
       takers := s.takers + [None])
  }

  function Apply(s: System, a: Action): System
    requires Enabled(s, a)
  {
    match a
    case Begin(payload, serializes) =>
      s.(calls := s.calls + [Call(payload, if serializes then Sending else Done(NotSerialized), None)])
    case Send(k) => s.(calls := s.calls[k := s.calls[k].(pc := Waiting)], input := s.input + [k])
    case Store(p) =>
      Decided(s, p, Stored(s.input[p], |s.log|)).(
        log := s.log + [s.calls[s.input[p]].payload], successes := s.successes + [|s.outcomes|])
    case Refuse(p, error) =>
      Decided(s, p, Refused(s.input[p], error)).(errors := s.errors + [|s.outcomes|])
    case Foreign(payload) => s.(log := s.log + [payload])
    case TakeSuccess(k) =>
      var i := s.successes[0];
      var result := match s.outcomes[i] case Stored(_, offset) => Pushed(Truncate(offset)) case _ => StreamClosed;
      Finish(s, k, result, Some(i)).(successes := s.successes[1..], takers := s.takers[i := Some(k)])
    case TakeError(k) =>
      var i := s.errors[0];
      var result := match s.outcomes[i] case Refused(_, error) => Failed(error) case _ => StreamClosed;
      Finish(s, k, result, Some(i)).(errors := s.errors[1..], takers := s.takers[i := Some(k)])
    case TakeClosed(k) => Finish(s, k, StreamClosed, None)
    case Close => s.(closed := true)
  }

  predicate Runs(s: System, actions: seq<Action>)
    decreases |actions|
  {
    actions == [] || (Enabled(s, actions[0]) && Runs(Apply(s, actions[0]), actions[1..]))
  }

  function Exec(s: System, actions: seq<Action>): System
    requires Runs(s, actions)
    decreases |actions|
  {
    if actions == [] then s else Exec(Apply(s, actions[0]), actions[1..])
  }

  // ---------------------------------------------------------------- the invariant

  /** Indices of untaken outcomes, in the order they were reported. */
  ghost predicate Channel(channel: seq<nat>, takers: seq<Option<nat>>) {
    && (forall i, j | 0 <= i < j < |channel| :: channel[i] < channel[j])
    && (forall i | 0 <= i < |channel| :: channel[i] < |takers| && takers[channel[i]].None?)
  }

  ghost predicate ChannelsAgree(s: System) {
    && |s.takers| == |s.outcomes|
    && Channel(s.successes, s.takers)
    && Channel(s.errors, s.takers)
    && (forall i | 0 <= i < |s.successes| :: s.outcomes[s.successes[i]].Stored?)
    && (forall i | 0 <= i < |s.errors| :: s.outcomes[s.errors[i]].Refused?)
  }

  /** Offsets grow with the outcomes, and the log holds at each the payload of its call. */
  ghost predicate LogAgrees(s: System) {
    && (forall i | 0 <= i < |s.input| :: s.input[i] < |s.calls|)
    && (forall i | 0 <= i < |s.outcomes| && s.outcomes[i].Stored? ::
          && s.outcomes[i].offset < |s.log|
          && s.outcomes[i].origin < |s.calls|
          && s.log[s.outcomes[i].offset] == s.calls[s.outcomes[i].origin].payload)
    && (forall i, j | 0 <= i < j < |s.outcomes| && s.outcomes[i].Stored? && s.outcomes[j].Stored? ::
          s.outcomes[i].offset < s.outcomes[j].offset)
  }

  ghost predicate CallAgrees(s: System, k: nat, call: Call) {
    && (call.got.Some? ==> call.got.value < |s.takers| == |s.outcomes| && s.takers[call.got.value] == Some(k))
    && (call.pc.Sending? || call.pc.Waiting? ==> call.got.None?)
    && (call.pc.Done? && call.got.Some? ==> IsResultOf(call.pc.result, s.outcomes[call.got.value]))
    && (call.pc.Done? && call.got.None? ==> call.pc.result.NotSerialized? || (call.pc.result.StreamClosed? && s.closed))
  }

  /** A stored message is answered with its place, a refused one with the error. */
  predicate IsResultOf(result: Result, outcome: Outcome) {
    match outcome
    case Stored(_, offset) => result == Pushed(Truncate(offset))
    case Refused(_, error) => result == Failed(error)
  }

  ghost predicate CallsAgree(s: System) {
    forall k | 0 <= k < |s.calls| :: CallAgrees(s, k, s.calls[k])
  }

  ghost predicate Inv(s: System) {
    ChannelsAgree(s) && LogAgrees(s) && CallsAgree(s)
  }

  lemma ChannelGrows(channel: seq<nat>, takers: seq<Option<nat>>)
    requires Channel(channel, takers)
    ensures Channel(channel, takers + [None])
    ensures Channel(channel + [|takers|], takers + [None])
  {
  }

  lemma ChannelShrinks(channel: seq<nat>, takers: seq<Option<nat>>, taker: nat)
    requires Channel(channel, takers) && channel != []
    ensures Channel(channel[1..], takers[channel[0] := Some(taker)])
  {
  }

  lemma ChannelUntouched(channel: seq<nat>, takers: seq<Option<nat>>, i: nat, taker: nat)
    requires Channel(channel, takers) && i < |takers| && i !in channel
    ensures Channel(channel, takers[i := Some(taker)])
  {
    forall j | 0 <= j < |channel|
      ensures channel[j] != i
    {
      assert channel[j] in channel;
    }
  }

  lemma ChannelsKept(s: System, a: Action)
    requires ChannelsAgree(s) && Enabled(s, a)
    ensures ChannelsAgree(Apply(s, a))
  {
    match a
    case Store(_) =>
      ChannelGrows(s.successes, s.takers);
      ChannelGrows(s.errors, s.takers);
    case Refuse(_, _) =>
      ChannelGrows(s.successes, s.takers);
      ChannelGrows(s.errors, s.takers);
    case TakeSuccess(k) =>
      assert s.outcomes[s.successes[0]].Stored?;
      ChannelShrinks(s.successes, s.takers, k);
      ChannelUntouched(s.errors, s.takers, s.successes[0], k);
    case TakeError(k) =>
      assert s.outcomes[s.errors[0]].Refused?;
      ChannelShrinks(s.errors, s.takers, k);
      ChannelUntouched(s.successes, s.takers, s.errors[0], k);
    case _ =>
  }

  lemma StoreKeepsLog(s: System, p: nat)
    requires LogAgrees(s) && Enabled(s, Store(p))
    ensures LogAgrees(Apply(s, Store(p)))
  {
  }

  lemma RefuseKeepsLog(s: System, p: nat, error: nat)
    requires LogAgrees(s) && Enabled(s, Refuse(p, error))
    ensures LogAgrees(Apply(s, Refuse(p, error)))
  {
  }

  lemma LogKept(s: System, a: Action)
    requires LogAgrees(s) && Enabled(s, a)
    ensures LogAgrees(Apply(s, a))
  {
    match a
    case Store(p) => StoreKeepsLog(s, p);
    case Refuse(p, error) => RefuseKeepsLog(s, p, error);
    case _ =>
  }

  lemma CallsKept(s: System, a: Action)
    requires ChannelsAgree(s) && CallsAgree(s) && Enabled(s, a)
    ensures CallsAgree(Apply(s, a))
  {
    var t := Apply(s, a);
    forall k | 0 <= k < |t.calls|
      ensures CallAgrees(t, k, t.calls[k])
    {
      assert k < |s.calls| ==> CallAgrees(s, k, s.calls[k]);
    }
  }

  lemma InvKept(s: System, a: Action)
    requires Inv(s) && Enabled(s, a)
    ensures Inv(Apply(s, a))
  {
    ChannelsKept(s, a);
    LogKept(s, a);
    CallsKept(s, a);
    hide ChannelsAgree, LogAgrees, CallsAgree, Apply, Enabled;
  }

  lemma {:induction false} InvAlways(s: System, actions: seq<Action>)
    requires Inv(s) && Runs(s, actions)
    ensures Inv(Exec(s, actions))
    decreases |actions|
  {
    if actions != [] {
      InvKept(s, actions[0]);
      InvAlways(Apply(s, actions[0]), actions[1..]);
    }
    hide Inv;
  }

  // ---------------------------------------------------------------- what goes in and what comes out

  /** The begins of a run, in order. */
  function Begun(actions: seq<Action>): seq<Action> {
    if actions == [] then [] else Begins(actions[0]) + Begun(actions[1..])
  }

  /** The decisions of the broker in a run, in order. */
  function Decisions(actions: seq<Action>): seq<Action> {
    if actions == [] then [] else Decides(actions[0]) + Decisions(actions[1..])
  }

  /** The k-th call has the payload of the k-th begin, and is NotSerialized exactly if that did not serialize. */
  ghost predicate BeginsAgree(s: System, begun: seq<Action>) {
    && |s.calls| == |begun|
    && forall k | 0 <= k < |begun| ::
         && begun[k].Begin? && s.calls[k].payload == begun[k].payload
         && (s.calls[k].pc == Done(NotSerialized) <==> !begun[k].serializes)
  }

  /** The i-th outcome is a storing or a refusal as the broker decided i-th, with its error. */
  ghost predicate DecisionsAgree(s: System, decisions: seq<Action>) {
    && |s.outcomes| == |decisions|
    && forall i | 0 <= i < |decisions| ::
         match s.outcomes[i]
         case Stored(_, _) => decisions[i].Store?
         case Refused(_, error) => decisions[i].Refuse? && decisions[i].error == error
  }

  lemma BeginAdds(s: System, a: Action, begun: seq<Action>)
    requires Enabled(s, a) && a.Begin? && BeginsAgree(s, begun)
    ensures BeginsAgree(Apply(s, a), begun + [a])
  {
  }

  lemma OtherKeepsBegun(s: System, a: Action, begun: seq<Action>)
    requires ChannelsAgree(s) && Enabled(s, a) && !a.Begin? && BeginsAgree(s, begun)
    ensures BeginsAgree(Apply(s, a), begun)
  {
    if a.TakeSuccess? {
      assert s.outcomes[s.successes[0]].Stored?;
    } else if a.TakeError? {
      assert s.outcomes[s.errors[0]].Refused?;
    }
    hide ChannelsAgree;
  }

  lemma BeginsKept(s: System, a: Action, begun: seq<Action>)
    requires Inv(s) && Enabled(s, a) && BeginsAgree(s, begun)
    ensures BeginsAgree(Apply(s, a), begun + Begins(a))
  {
    hide Enabled, Apply, BeginsAgree, ChannelsAgree, LogAgrees, CallsAgree;
    if a.Begin? {
      BeginAdds(s, a, begun);
    } else {
      OtherKeepsBegun(s, a, begun);
      assert begun + [] == begun;
    }
  }

  lemma DecisionsKept(s: System, a: Action, decisions: seq<Action>)
    requires Enabled(s, a) && DecisionsAgree(s, decisions)
    ensures DecisionsAgree(Apply(s, a), decisions + Decides(a))
  {
  }

  function Begins(a: Action): seq<Action> {
    if a.Begin? then [a] else []
  }

  function Decides(a: Action): seq<Action> {
    if a.Store? || a.Refuse? then [a] else []
  }

  lemma Regroup<T>(xs: seq<T>, ys: seq<T>, zs: seq<T>)
    ensures (xs + ys) + zs == xs + (ys + zs)
  {
  }

  lemma {:induction false} BegunAlways(s: System, actions: seq<Action>, begun: seq<Action>)
    requires Inv(s) && Runs(s, actions) && BeginsAgree(s, begun)
    ensures BeginsAgree(Exec(s, actions), begun + Begun(actions))
    decreases |actions|
  {
    hide Inv, BeginsAgree, Apply, Enabled, Begins;
    if actions == [] {
      assert begun + [] == begun;
    } else {
      var a := actions[0];
      InvKept(s, a);
      BeginsKept(s, a, begun);
      Regroup(begun, Begins(a), Begun(actions[1..]));
      hide Begun;
      BegunAlways(Apply(s, a), actions[1..], begun + Begins(a));
    }
  }

  lemma {:induction false} DecidedAlways(s: System, actions: seq<Action>, decisions: seq<Action>)
    requires Runs(s, actions) && DecisionsAgree(s, decisions)
    ensures DecisionsAgree(Exec(s, actions), decisions + Decisions(actions))
    decreases |actions|
  {
    hide DecisionsAgree, Apply, Enabled, Decides;
    if actions == [] {
      assert decisions + [] == decisions;
    } else {
      var a := actions[0];
      DecisionsKept(s, a, decisions);
      Regroup(decisions, Decides(a), Decisions(actions[1..]));
      hide Decisions;
      DecidedAlways(Apply(s, a), actions[1..], decisions + Decides(a));
    }
  }

  /** The entries of the log in order, with those of other producers as they were written. */
  function Written(actions: seq<Action>): seq<Option<Payload>> {
    if actions == [] then [] else Writes(actions[0]) + Written(actions[1..])
  }

  function Writes(a: Action): seq<Option<Payload>> {
    match a
    case Store(_) => [None]
    case Foreign(payload) => [Some(payload)]
    case _ => []
  }

  ghost predicate LogWritten(s: System, written: seq<Option<Payload>>) {
    && |s.log| == |written|
    && forall i | 0 <= i < |written| && written[i].Some? :: s.log[i] == written[i].value
  }

  lemma WriteStep(s: System, a: Action, written: seq<Option<Payload>>)
    requires Enabled(s, a) && LogWritten(s, written)
    ensures LogWritten(Apply(s, a), written + Writes(a))
  {
  }

  /**
   The log grows by one entry for each message stored and each foreign write, which it holds at its place, and
   the writer is closed exactly after a close.
   */
  lemma {:induction false} LogIsWritten(s: System, actions: seq<Action>, written: seq<Option<Payload>>)
    requires Runs(s, actions) && LogWritten(s, written)
    ensures LogWritten(Exec(s, actions), written + Written(actions))
    ensures Exec(s, actions).closed <==> s.closed || Close in actions
    decreases |actions|
  {
    if actions == [] {
      assert written + [] == written;
    } else {
      var a := actions[0];
      WriteStep(s, a, written);
      ClosedStep(s, a);
      Regroup(written, Writes(a), Written(actions[1..]));
      hide LogWritten, Written, Writes, Apply, Enabled;
      assert actions == [a] + actions[1..];
      LogIsWritten(Apply(s, a), actions[1..], written + Writes(a));
    }
  }

  lemma ClosedStep(s: System, a: Action)
    requires Enabled(s, a)
    ensures Apply(s, a).closed <==> s.closed || a == Close
  {
  }

  /**
   In every run and for every overlap, what a finished call returns is settled by what it consumed: the place
   of a stored message, the error of a refused one as the broker gave it; and without one it has not been
   serialized, exactly if it could not be, or else the writer has been closed.
   */
  lemma ResultsExactly(actions: seq<Action>, k: nat)
    requires Runs(Init(), actions) && k < |Exec(Init(), actions).calls|
    requires Exec(Init(), actions).calls[k].pc.Done?
    ensures var s := Exec(Init(), actions); var call := s.calls[k];
            && |Begun(actions)| == |s.calls| && Begun(actions)[k].Begin?
            && call.payload == Begun(actions)[k].payload
            && |Decisions(actions)| == |s.outcomes|
            && (call.got.Some? ==>
                  && call.got.value < |s.outcomes|
                  && match s.outcomes[call.got.value]
                     case Stored(_, offset) =>
                       call.pc.result == Pushed(Truncate(offset)) && Decisions(actions)[call.got.value].Store?
                     case Refused(_, error) =>
                       call.pc.result == Failed(error) && Decisions(actions)[call.got.value].Refuse?
                       && Decisions(actions)[call.got.value].error == error)
            && (call.pc.result.NotSerialized? <==> !Begun(actions)[k].serializes)
            && (call.got.None? && Begun(actions)[k].serializes ==> call.pc.result == StreamClosed && Close in actions)
  {
    LogIsWritten(Init(), actions, []);
    InvAlways(Init(), actions);
    BegunAlways(Init(), actions, []);
    DecidedAlways(Init(), actions, []);
    var s := Exec(Init(), actions);
    assert CallAgrees(s, k, s.calls[k]);
    assert [] + Begun(actions) == Begun(actions) && [] + Decisions(actions) == Decisions(actions);
  }

  // ---------------------------------------------------------------- overlapping calls

  predicate Succeeded(s: System, k: nat) {
    k < |s.calls| && s.calls[k].pc.Done? && s.calls[k].pc.result.Pushed?
  }

  /** However many calls overlap, no outcome is consumed twice. */
  lemma OutcomesConsumedOnce(actions: seq<Action>, k: nat, l: nat)
    requires Runs(Init(), actions) && k < |Exec(Init(), actions).calls| && l < |Exec(Init(), actions).calls|
    requires Exec(Init(), actions).calls[k].got == Exec(Init(), actions).calls[l].got != None
    ensures k == l
  {
    InvAlways(Init(), actions);
    var s := Exec(Init(), actions);
    assert CallAgrees(s, k, s.calls[k]) && CallAgrees(s, l, s.calls[l]);
  }

  /**
   Successful calls return distinct IDs as long as the log is no longer than IDs can count; beyond that two
   of them collide exactly when their offsets agree modulo two to the 32.
   */
  lemma PushedIdsDistinct(actions: seq<Action>, k: nat, l: nat)
    requires Runs(Init(), actions) && k != l
    requires Succeeded(Exec(Init(), actions), k) && Succeeded(Exec(Init(), actions), l)
    ensures var s := Exec(Init(), actions);
            exists m, n ::
              && 0 <= m < |s.log| && 0 <= n < |s.log| && m != n
              && s.calls[k].pc.result.id == Truncate(m) && s.calls[l].pc.result.id == Truncate(n)
    ensures |Exec(Init(), actions).log| <= TWO_32 ==>
              Exec(Init(), actions).calls[k].pc.result.id != Exec(Init(), actions).calls[l].pc.result.id
  {
    InvAlways(Init(), actions);
    var s := Exec(Init(), actions);
    assert CallAgrees(s, k, s.calls[k]) && CallAgrees(s, l, s.calls[l]);
    if s.calls[k].got == s.calls[l].got {
      OutcomesConsumedOnce(actions, k, l);
    }
    var m, n := s.outcomes[s.calls[k].got.value].offset, s.outcomes[s.calls[l].got.value].offset;
    assert m != n && s.calls[k].pc.result.id == Truncate(m) && s.calls[l].pc.result.id == Truncate(n);
  }

  // ---------------------------------------------------------------- every waiting call has one outcome coming

  function WaitingWeights(calls: seq<Call>): (r: seq<nat>)
    ensures |r| == |calls| && forall i | 0 <= i < |calls| :: r[i] == if calls[i].pc.Waiting? then 1 else 0
  {
    seq(|calls|, i requires 0 <= i < |calls| => if calls[i].pc.Waiting? then 1 else 0)
  }

  function WaitingCalls(calls: seq<Call>): nat {
    Sum(WaitingWeights(calls))
  }

  /** Messages undecided plus outcomes untaken. */
  function Tokens(s: System): nat {
    |s.input| + |s.successes| + |s.errors|
  }

  ghost predicate Conserved(s: System) {
    !s.closed ==> Tokens(s) == WaitingCalls(s.calls)
  }

  lemma SetCall(calls: seq<Call>, k: nat, call: Call)
    requires k < |calls|
    ensures WaitingCalls(calls[k := call])
         == WaitingCalls(calls) - (if calls[k].pc.Waiting? then 1 else 0) + (if call.pc.Waiting? then 1 else 0)
    ensures calls[k].pc.Waiting? ==> 1 <= WaitingCalls(calls)
  {
    var w := if call.pc.Waiting? then 1 else 0;
    SumUpdate(WaitingWeights(calls), k, w);
    SumAtLeast(WaitingWeights(calls), k);
    assert WaitingWeights(calls[k := call]) == WaitingWeights(calls)[k := w];
  }

  /** While the writer is open nothing is lost and nothing is made up. */
  lemma ConservedKept(s: System, a: Action)
    requires Conserved(s) && Enabled(s, a)
    ensures Conserved(Apply(s, a))
  {
    var t := Apply(s, a);
    match a
    case Begin(_, _) =>
      SumSnoc(WaitingWeights(s.calls), 0);
      assert WaitingWeights(t.calls) == WaitingWeights(s.calls) + [0];
    case Send(k) => SetCall(s.calls, k, t.calls[k]);
    case TakeSuccess(k) => SetCall(s.calls, k, t.calls[k]);
    case TakeError(k) => SetCall(s.calls, k, t.calls[k]);
    case TakeClosed(k) => SetCall(s.calls, k, t.calls[k]);
    case _ =>
  }

  /** No call waits in vain: at any moment the broker and the call itself can bring it to its return. */
  lemma WaitingCanReturn(s: System, k: nat) returns (more: seq<Action>)
    requires Inv(s) && Conserved(s) && CallIs(s, k, Waiting)
    ensures |more| <= 2 && Runs(s, more)
    ensures k < |Exec(s, more).calls| && Exec(s, more).calls[k].pc.Done?
  {
    SetCall(s.calls, k, s.calls[k]);
    if s.successes != [] {
      more := [TakeSuccess(k)];
      assert more[1..] == [];
    } else if s.errors != [] {
      more := [TakeError(k)];
      assert more[1..] == [];
    } else if s.closed {
      more := [TakeClosed(k)];
      assert more[1..] == [];
    } else {
      var t := Apply(s, Store(0));
      more := [Store(0), TakeSuccess(k)];
      ChannelsKept(s, Store(0));
      assert Enabled(t, TakeSuccess(k));
      assert more[1..] == [TakeSuccess(k)] && [TakeSuccess(k)][1..] == [];
      assert Exec(s, more) == Exec(t, [TakeSuccess(k)]) == Apply(t, TakeSuccess(k));
    }
  }

  // ---------------------------------------------------------------- calls that do not overlap

  /** At most one call between the send of its message and the taking of a result. */
  ghost predicate Alone(s: System) {
    forall k, l | 0 <= k < |s.calls| && 0 <= l < |s.calls| && s.calls[k].pc.Waiting? && s.calls[l].pc.Waiting? ::
      k == l
  }

  ghost predicate NeverOverlaps(s: System, actions: seq<Action>)
    requires Runs(s, actions)
    decreases |actions|
  {
    Alone(s) && (actions != [] ==> NeverOverlaps(Apply(s, actions[0]), actions[1..]))
  }

  /** All that is under way belongs to the call that waits, and every call got its own outcome. */
  ghost predicate OwnOnly(s: System) {
    && (forall k, i | 0 <= k < |s.calls| && s.calls[k].pc.Waiting? && 0 <= i < |s.input| :: s.input[i] == k)
    && (forall k, i | 0 <= k < |s.calls| && s.calls[k].pc.Waiting? && 0 <= i < |s.successes| ::
          s.successes[i] < |s.outcomes| && s.outcomes[s.successes[i]].origin == k)
    && (forall k, i | 0 <= k < |s.calls| && s.calls[k].pc.Waiting? && 0 <= i < |s.errors| ::
          s.errors[i] < |s.outcomes| && s.outcomes[s.errors[i]].origin == k)
    && (forall k | 0 <= k < |s.calls| && s.calls[k].got.Some? ::
          s.calls[k].got.value < |s.outcomes| && s.outcomes[s.calls[k].got.value].origin == k)
  }

  lemma NothingUnderWay(s: System)
    requires Conserved(s) && !s.closed
    requires forall k | 0 <= k < |s.calls| :: !s.calls[k].pc.Waiting?
    ensures s.input == [] && s.successes == [] && s.errors == []
  {
    SumZero(WaitingWeights(s.calls));
  }

  lemma SendKeepsOwn(s: System, k: nat)
    requires Conserved(s) && OwnOnly(s) && Enabled(s, Send(k)) && Alone(Apply(s, Send(k)))
    ensures OwnOnly(Apply(s, Send(k)))
  {
    var t := Apply(s, Send(k));
    forall l | 0 <= l < |s.calls|
      ensures !s.calls[l].pc.Waiting?
    {
      assert t.calls[k].pc.Waiting? && (l != k ==> t.calls[l] == s.calls[l]);
    }
    NothingUnderWay(s);
  }

  lemma DecisionKeepsOwn(s: System, a: Action)
    requires ChannelsAgree(s) && OwnOnly(s) && Enabled(s, a) && (a.Store? || a.Refuse?)
    ensures OwnOnly(Apply(s, a))
  {
    var t := Apply(s, a);
    forall k, i | 0 <= k < |t.calls| && t.calls[k].pc.Waiting? && 0 <= i < |t.input|
      ensures t.input[i] == k
    {
      assert t.input[i] == if i < a.position then s.input[i] else s.input[i + 1];
    }
  }

  lemma TakeKeepsOwn(s: System, a: Action)
    requires OwnOnly(s) && Alone(s) && Enabled(s, a) && (a.TakeSuccess? || a.TakeError? || a.TakeClosed?)
    ensures OwnOnly(Apply(s, a))
  {
    assert forall l | 0 <= l < |s.calls| :: !Apply(s, a).calls[l].pc.Waiting?;
  }

  lemma OtherKeepsOwn(s: System, a: Action)
    requires OwnOnly(s) && Enabled(s, a) && (a.Begin? || a.Foreign? || a.Close?)
    ensures OwnOnly(Apply(s, a))
  {
  }

  lemma OwnOnlyKept(s: System, a: Action)
    requires ChannelsAgree(s) && Conserved(s) && OwnOnly(s) && Enabled(s, a)
    requires Alone(s) && Alone(Apply(s, a))
    ensures OwnOnly(Apply(s, a))
  {
    hide Enabled, Apply, OwnOnly, Alone, ChannelsAgree, Conserved;
    if a.Send? {
      SendKeepsOwn(s, a.call);
    } else if a.Store? || a.Refuse? {
      DecisionKeepsOwn(s, a);
    } else if a.TakeSuccess? || a.TakeError? || a.TakeClosed? {
      TakeKeepsOwn(s, a);
    } else {
      OtherKeepsOwn(s, a);
    }
  }

  lemma {:induction false} OwnAlways(s: System, actions: seq<Action>)
    requires Inv(s) && Conserved(s) && OwnOnly(s) && Runs(s, actions) && NeverOverlaps(s, actions)
    ensures OwnOnly(Exec(s, actions))
    decreases |actions|
  {
    if actions != [] {
      var a := actions[0];
      InvKept(s, a);
      ConservedKept(s, a);
      OwnOnlyKept(s, a);
      OwnAlways(Apply(s, a), actions[1..]);
    }
  }

  // each message is decided once

  predicate Undecided(outcomes: seq<Outcome>, k: nat) {
    forall j | 0 <= j < |outcomes| :: outcomes[j].origin != k
  }

  predicate Sent(s: System, k: nat) {
    k < |s.calls| && !s.calls[k].pc.Sending?
  }

  /** No two outcomes, and no outcome and undecided message, are about the same call; all have been sent. */
  ghost predicate OriginsAgree(s: System) {
    && (forall i, j | 0 <= i < j < |s.outcomes| :: s.outcomes[i].origin != s.outcomes[j].origin)
    && (forall i, j | 0 <= i < j < |s.input| :: s.input[i] != s.input[j])
    && (forall k | k in s.input :: Sent(s, k) && Undecided(s.outcomes, k))
    && (forall i | 0 <= i < |s.outcomes| :: Sent(s, s.outcomes[i].origin))
  }

  lemma Removed(input: seq<nat>, p: nat)
    requires p < |input| && forall i, j | 0 <= i < j < |input| :: input[i] != input[j]
    ensures var rest := input[..p] + input[p + 1..];
            && (forall i, j | 0 <= i < j < |rest| :: rest[i] != rest[j])
            && (forall k | k in rest :: k in input && k != input[p])
  {
    var rest := input[..p] + input[p + 1..];
    assert forall i | 0 <= i < |rest| :: rest[i] == if i < p then input[i] else input[i + 1];
  }

  lemma DecisionKeepsOrigins(s: System, a: Action)
    requires OriginsAgree(s) && Enabled(s, a) && (a.Store? || a.Refuse?)
    ensures OriginsAgree(Apply(s, a))
  {
    var k, t := s.input[a.position], Apply(s, a);
    assert k in s.input && Undecided(s.outcomes, k);
    Removed(s.input, a.position);
    assert t.outcomes[..|s.outcomes|] == s.outcomes && t.outcomes[|s.outcomes|].origin == k && t.calls == s.calls;
    hide Enabled, Apply;
    forall x | x in t.input
      ensures Sent(t, x) && Undecided(t.outcomes, x)
    {
      assert x in s.input && x != k;
    }
  }

  lemma CallKeepsOrigins(s: System, a: Action)
    requires OriginsAgree(s) && Enabled(s, a) && !a.Store? && !a.Refuse?
    ensures OriginsAgree(Apply(s, a))
  {
    var t := Apply(s, a);
    assert forall k | Sent(s, k) :: Sent(t, k);
    hide Sent;
    if a.Send? {
      assert a.call !in s.input && Undecided(s.outcomes, a.call) by {
        NotSentYet(s, a.call);
      }
    }
  }

  lemma NotSentYet(s: System, k: nat)
    requires OriginsAgree(s) && CallIs(s, k, Sending)
    ensures k !in s.input && Undecided(s.outcomes, k)
  {
  }

  lemma {:induction false} OriginsAlways(s: System, actions: seq<Action>)
    requires OriginsAgree(s) && Runs(s, actions)
    ensures OriginsAgree(Exec(s, actions))
    decreases |actions|
  {
    hide OriginsAgree;
    if actions != [] {
      if actions[0].Store? || actions[0].Refuse? {
        DecisionKeepsOrigins(s, actions[0]);
      } else {
        CallKeepsOrigins(s, actions[0]);
      }
      OriginsAlways(Apply(s, actions[0]), actions[1..]);
    }
  }

  ghost predicate WasStored(s: System, k: nat) {
    exists offset: nat :: Stored(k, offset) in s.outcomes
  }

  ghost predicate WasRefused(s: System, k: nat) {
    exists error: nat :: Refused(k, error) in s.outcomes
  }

  /** The result is the place of the call's own message in the log. */
  ghost predicate OwnPlace(s: System, k: nat)
    requires k < |s.calls| && s.calls[k].pc.Done?
  {
    exists offset: nat ::
      && Stored(k, offset) in s.outcomes && offset < |s.log| && s.log[offset] == s.calls[k].payload
      && s.calls[k].pc.result == Pushed(Truncate(offset))
  }

  /** The result is the error of the call's own message. */
  ghost predicate OwnError(s: System, k: nat)
    requires k < |s.calls| && s.calls[k].pc.Done?
  {
    exists error: nat :: Refused(k, error) in s.outcomes && s.calls[k].pc.result == Failed(error)
  }

  /** Without overlap a call that took an outcome took its own. */
  lemma TakerIsOrigin(s: System, k: nat)
    requires Inv(s) && OwnOnly(s) && k < |s.calls| && s.calls[k].pc.Done? && s.calls[k].got.Some?
    ensures if s.outcomes[s.calls[k].got.value].Stored? then OwnPlace(s, k) else OwnError(s, k)
    ensures s.calls[k].got.value < |s.outcomes| && s.outcomes[s.calls[k].got.value].origin == k
  {
    assert CallAgrees(s, k, s.calls[k]);
    var i := s.calls[k].got.value;
    assert s.outcomes[i] in s.outcomes;
    if s.outcomes[i].Stored? {
      assert s.outcomes[i] == Stored(k, s.outcomes[i].offset);
    } else {
      assert s.outcomes[i] == Refused(k, s.outcomes[i].error);
    }
  }

  lemma OneDecision(s: System, i: nat, outcome: Outcome)
    requires OriginsAgree(s) && i < |s.outcomes| && outcome in s.outcomes && outcome.origin == s.outcomes[i].origin
    ensures outcome == s.outcomes[i]
  {
  }

  /**
   When calls do not overlap, a call that succeeds returns the place of its own message in the log, and one
   that fails the error of its own message. On an open writer every finished call that could serialize does
   one or the other: its place exactly if its message was stored, its error exactly if it was refused.
   */
  lemma OwnOutcome(actions: seq<Action>, k: nat)
    requires Runs(Init(), actions) && NeverOverlaps(Init(), actions)
    requires k < |Exec(Init(), actions).calls| && Exec(Init(), actions).calls[k].pc.Done?
    ensures var s := Exec(Init(), actions);
            && k < |Begun(actions)| && Begun(actions)[k].Begin?
            && (s.calls[k].pc.result.Pushed? ==> OwnPlace(s, k))
            && (s.calls[k].pc.result.Failed? ==> OwnError(s, k))
            && (!s.closed && Begun(actions)[k].serializes ==>
                  && (OwnPlace(s, k) <==> WasStored(s, k))
                  && (OwnError(s, k) <==> WasRefused(s, k))
                  && (OwnPlace(s, k) || OwnError(s, k)))
  {
    InvAlways(Init(), actions);
    OwnAlways(Init(), actions);
    OriginsAlways(Init(), actions);
    ResultsExactly(actions, k);
    var s := Exec(Init(), actions);
    var begun := Begun(actions);
    assert CallAgrees(s, k, s.calls[k]);
    OwnFrom(s, k, begun[k].serializes);
    hide Inv, OwnOnly, OriginsAgree, OwnPlace, OwnError, CallAgrees;
  }

  lemma OwnFrom(s: System, k: nat, serializes: bool)
    requires Inv(s) && OwnOnly(s) && OriginsAgree(s) && k < |s.calls| && s.calls[k].pc.Done?
    requires s.calls[k].pc.result.NotSerialized? <==> !serializes
    ensures s.calls[k].pc.result.Pushed? ==> OwnPlace(s, k)
    ensures s.calls[k].pc.result.Failed? ==> OwnError(s, k)
    ensures !s.closed && serializes ==>
              && (OwnPlace(s, k) <==> WasStored(s, k)) && (OwnError(s, k) <==> WasRefused(s, k))
              && (OwnPlace(s, k) || OwnError(s, k))
  {
    assert CallAgrees(s, k, s.calls[k]);
    if s.calls[k].got.Some? {
      TakerIsOrigin(s, k);
      var i := s.calls[k].got.value;
      if offset: nat :| Stored(k, offset) in s.outcomes {
        OneDecision(s, i, Stored(k, offset));
      }
      if error: nat :| Refused(k, error) in s.outcomes {
        OneDecision(s, i, Refused(k, error));
      }
    }
    hide Inv, OwnOnly, OriginsAgree;
  }

  // ---------------------------------------------------------------- exactly the calls that do not overlap

  /** The broker decides and calls take results; nobody sends and the writer is not closed. */
  predicate Settling(a: Action) {
    a.Store? || a.Refuse? || a.TakeSuccess? || a.TakeError?
  }

  /** Every outcome taken so far is that of the taker's own message. */
  predicate OwnResults(s: System) {
    forall k | 0 <= k < |s.calls| && s.calls[k].got.Some? ::
      s.calls[k].got.value < |s.outcomes| && s.outcomes[s.calls[k].got.value].origin == k
  }

  /** Whatever the broker does with the messages sent so far, and whoever takes what, none is mixed up. */
  ghost predicate Unmixable(s: System) {
    forall more | Runs(s, more) && (forall a | a in more :: Settling(a)) :: OwnResults(Exec(s, more))
  }

  ghost predicate UnmixableThroughout(s: System, actions: seq<Action>)
    requires Runs(s, actions)
    decreases |actions|
  {
    Unmixable(s) && (actions != [] ==> UnmixableThroughout(Apply(s, actions[0]), actions[1..]))
  }

  lemma {:induction false} SettlingStaysAlone(s: System, more: seq<Action>)
    requires Alone(s) && Runs(s, more) && forall a | a in more :: Settling(a)
    ensures NeverOverlaps(s, more)
    decreases |more|
  {
    if more != [] {
      assert more[0] in more;
      assert Alone(Apply(s, more[0]));
      SettlingStaysAlone(Apply(s, more[0]), more[1..]);
    }
  }

  lemma AloneIsUnmixable(s: System)
    requires Inv(s) && Conserved(s) && OwnOnly(s) && Alone(s)
    ensures Unmixable(s)
  {
    forall more | Runs(s, more) && (forall a | a in more :: Settling(a))
      ensures OwnResults(Exec(s, more))
    {
      SettlingStaysAlone(s, more);
      OwnAlways(s, more);
    }
  }

  /** Whose outcome would be taken next: of two calls at least one is somebody else. */
  function Other(origin: nat, k: nat, l: nat): (m: nat)
    requires k != l
    ensures m != origin && (m == k || m == l)
  {
    if origin == k then l else k
  }

  /** One of two waiting calls takes an outcome that is ready and is not its own. */
  lemma TakeForeign(s: System, k: nat, l: nat) returns (m: nat, a: Action)
    requires ChannelsAgree(s) && k != l && CallIs(s, k, Waiting) && CallIs(s, l, Waiting)
    requires s.successes != [] || s.errors != []
    ensures (m == k || m == l) && Settling(a) && Enabled(s, a)
    ensures var call := Apply(s, a).calls[m];
            call.got.Some? && call.got.value < |Apply(s, a).outcomes|
            && Apply(s, a).outcomes[call.got.value].origin != m
  {
    if s.successes != [] {
      m := Other(s.outcomes[s.successes[0]].origin, k, l);
      a := TakeSuccess(m);
    } else {
      m := Other(s.outcomes[s.errors[0]].origin, k, l);
      a := TakeError(m);
    }
  }

  /** With two calls waiting on an open writer, two more steps can give one of them another's outcome. */
  lemma TwoWaitingMix(s: System, k: nat, l: nat) returns (more: seq<Action>)
    requires Inv(s) && Conserved(s) && !s.closed
    requires k != l && CallIs(s, k, Waiting) && CallIs(s, l, Waiting)
    ensures |more| <= 2 && Runs(s, more) && (forall a | a in more :: Settling(a))
    ensures !OwnResults(Exec(s, more))
  {
    SetCall(s.calls, k, s.calls[k]);
    if s.successes == [] && s.errors == [] {
      var t := Apply(s, Store(0));
      ChannelsKept(s, Store(0));
      var m, a := TakeForeign(t, k, l);
      more := [Store(0), a];
      assert more[1..] == [a] && [a][1..] == [];
      assert Exec(s, more) == Exec(t, [a]) == Apply(t, a);
    } else {
      var m, a := TakeForeign(s, k, l);
      more := [a];
      assert more[1..] == [];
      assert Exec(s, more) == Apply(s, a);
    }
  }

  lemma OpenStep(s: System, a: Action)
    requires Inv(s) && Conserved(s) && !s.closed && Enabled(s, a) && a != Close
    ensures var t := Apply(s, a); Inv(t) && Conserved(t) && !t.closed
  {
    InvKept(s, a);
    ConservedKept(s, a);
    hide Inv, Conserved;
  }

  lemma {:induction false} UnmixableFrom(s: System, actions: seq<Action>)
    requires Inv(s) && Conserved(s) && OwnOnly(s) && !s.closed
    requires Runs(s, actions) && Close !in actions
    ensures NeverOverlaps(s, actions) <==> UnmixableThroughout(s, actions)
    decreases |actions|
  {
    if !Alone(s) {
      NotAloneMixes(s);
    } else {
      AloneIsUnmixable(s);
      if actions != [] {
        var a, t := actions[0], Apply(s, actions[0]);
        assert a in actions;
        OpenStep(s, a);
        if Alone(t) {
          OwnOnlyKept(s, a);
          UnmixableFrom(t, actions[1..]);
        } else {
          NotAloneMixes(t);
        }
      }
    }
    hide Apply, Enabled, Inv, OwnOnly, Conserved, Alone, Unmixable;
  }

  lemma NotAloneMixes(s: System)
    requires Inv(s) && Conserved(s) && !s.closed && !Alone(s)
    ensures !Unmixable(s)
  {
    var k, l :| 0 <= k < |s.calls| && 0 <= l < |s.calls| && s.calls[k].pc.Waiting? && s.calls[l].pc.Waiting? && k != l;
    var more := TwoWaitingMix(s, k, l);
  }

  /**
   The condition is exact. In a run of an open writer calls never overlap if and only if at no moment of it
   the broker and the selects could still hand a call the outcome of another one's message.
   */
  lemma OwnExactlyWhenAlone(actions: seq<Action>)
    requires Runs(Init(), actions) && Close !in actions
    ensures NeverOverlaps(Init(), actions) <==> UnmixableThroughout(Init(), actions)
  {
    UnmixableFrom(Init(), actions);
  }

  // ---------------------------------------------------------------- calls that do overlap

  lemma {:induction false} ThenFrom(s: System, actions: seq<Action>, a: Action)
    requires Runs(s, actions) && Enabled(Exec(s, actions), a)
    ensures Runs(s, actions + [a])
    ensures Exec(s, actions + [a]) == Apply(Exec(s, actions), a)
    decreases |actions|
  {
    if actions == [] {
      assert [] + [a] == [a];
    } else {
      assert (actions + [a])[1..] == actions[1..] + [a];
      ThenFrom(Apply(s, actions[0]), actions[1..], a);
    }
  }

  lemma Then(actions: seq<Action>, a: Action) returns (longer: seq<Action>)
    requires Runs(Init(), actions) && Enabled(Exec(Init(), actions), a)
    ensures Runs(Init(), longer) && Exec(Init(), longer) == Apply(Exec(Init(), actions), a)
  {
    longer := actions + [a];
    ThenFrom(Init(), actions, a);
  }

  lemma TwoSent(first: Payload, second: Payload) returns (actions: seq<Action>)
    ensures Runs(Init(), actions)
    ensures Exec(Init(), actions) == System([Call(first, Waiting, None), Call(second, Waiting, None)], [0, 1],
                                            [], [], [], [], [], false)
  {
    actions := Then([], Begin(first, true));
    actions := Then(actions, Begin(second, true));
    assert Exec(Init(), actions).calls == [Call(first, Sending, None), Call(second, Sending, None)];
    actions := Then(actions, Send(0));
    assert Exec(Init(), actions).calls == [Call(first, Waiting, None), Call(second, Sending, None)];
    actions := Then(actions, Send(1));
    assert Exec(Init(), actions).calls == [Call(first, Waiting, None), Call(second, Waiting, None)];
  }

  /** A place is one in the whole log: what another producer has written before counts. */
  lemma ForeignTakesPlace(other: Payload, own: Payload) returns (actions: seq<Action>)
    ensures Runs(Init(), actions)
    ensures var s := Exec(Init(), actions);
            s.log == [other, own] && |s.calls| == 1 && s.calls[0].pc == Done(Pushed(1))
  {
    actions := Then([], Foreign(other));
    actions := Then(actions, Begin(own, true));
    assert Exec(Init(), actions).calls == [Call(own, Sending, None)];
    actions := Then(actions, Send(0));
    assert Exec(Init(), actions).calls == [Call(own, Waiting, None)] && Exec(Init(), actions).input == [0];
    actions := Then(actions, Store(0));
    assert Exec(Init(), actions).log == [other, own] && Exec(Init(), actions).successes == [0];
    actions := Then(actions, TakeSuccess(0));
  }

  /** Two overlapping calls return the places of each other's messages. */
  lemma OverlappingCallsSwap(first: Payload, second: Payload) returns (actions: seq<Action>)
    ensures Runs(Init(), actions)
    ensures var s := Exec(Init(), actions);
            && s.log == [first, second]
            && |s.calls| == 2 && s.calls[0].payload == first && s.calls[1].payload == second
            && s.calls[0].pc == Done(Pushed(1)) && s.calls[1].pc == Done(Pushed(0))
  {
    actions := TwoSent(first, second);
    actions := Then(actions, Store(0));
    assert Exec(Init(), actions).log == [first] && Exec(Init(), actions).input == [1];
    actions := Then(actions, Store(0));
    assert Exec(Init(), actions).log == [first, second] && Exec(Init(), actions).successes == [0, 1];
    actions := Then(actions, TakeSuccess(1));
    assert Exec(Init(), actions).successes == [1];
    actions := Then(actions, TakeSuccess(0));
  }
}

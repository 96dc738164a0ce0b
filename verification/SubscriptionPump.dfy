/**
 Any number of concurrent subscription calls on the access point (runSubscription in
 accesspoint/lib/clientsubscription.go with the counters of accesspoint/lib/service.go). Each call has a
 main goroutine and a pump, a channel of capacity one between them, and a barrier; all share the counters.
 */
module SubscriptionPump {
  import opened Options
  import opened Words
  import opened Sums

  datatype Kind = Log | Posts

  /** What the select inside sendNext picks, with the errors converting and sending would end in. */
  datatype Arrival =
    | Record(convertError: Option<nat>, sendError: Option<nat>)
    | RecordsClosed
    | ErrorValue(error: Option<nat>)

  datatype Sent = Sent(isOpened: bool, error: Option<nat>)

  /** Both sendNext: only posts can fail to convert. */
  function SendNext(kind: Kind, arrival: Arrival): Sent {
    match arrival
    case Record(convertError, sendError) =>
      Sent(true, if kind.Posts? && convertError.Some? then convertError else sendError)
    case RecordsClosed => Sent(false, None)
    case ErrorValue(error) => Sent(false, error)
  }

  /** Whether the pump stops at this. */
  predicate Ends(sent: Sent) {
    sent.error.Some? || !sent.isOpened
  }

  // What an arrival means, said without the steps that handle it.

  /** A record that could be converted, where that can fail, and sent. */
  predicate GoesOn(kind: Kind, arrival: Arrival) {
    arrival.Record? && arrival.sendError.None? && (kind.Posts? ==> arrival.convertError.None?)
  }

  /**
   The pump stops at this arrival with this value: none at a closed channel, the very value of the error
   channel, and of a record the error of converting, for posts, before that of sending.
   */
  predicate StopsWith(kind: Kind, arrival: Arrival, value: Option<nat>) {
    match arrival
    case RecordsClosed => value == None
    case ErrorValue(error) => value == error
    case Record(convertError, sendError) =>
      value.Some? && value == if kind.Posts? && convertError.Some? then convertError else sendError
  }

  /** The i-th arrival is the first that stops the pump, and does so with this value. */
  predicate StopsFirst(kind: Kind, arrivals: seq<Arrival>, i: int, value: Option<nat>) {
    && 0 <= i < |arrivals| && StopsWith(kind, arrivals[i], value)
    && forall j | 0 <= j < i :: GoesOn(kind, arrivals[j])
  }

  datatype PumpPc = Pumping | Posting(result: Option<nat>) | Posted | PumpEnded

  datatype CallPc =
    | Registering | RegisteringKind | Selecting | Closing | AwaitingAnswer | Waiting | ClosingChannel
    | UnregisteringKind | Unregistering | Returned(result: Option<nat>)

  datatype Choice = Undecided | FromPump(result: Option<nat>) | FromCancel

  /**
   One call. `channel` is errChan, `err` the variable the select fills; `open` says whether the subscription
   still is, and `left` how many records its channel held when it was closed. `arrived`, `posted` and `choice`
   are history.
   */
  datatype Call = Call(
    kind: Kind,
    pc: CallPc,
    pump: PumpPc,
    open: bool,
    left: nat,
    arrived: seq<Arrival>,
    channel: seq<Option<nat>>,
    channelClosed: bool,
    barrier: nat,
    cancelled: bool,
    err: Option<nat>,
    posted: seq<Option<nat>>,
    choice: Choice,
    panicked: bool)

  datatype Counters = Counters(global: Word, log: Word, posts: Word)

  datatype System = System(calls: seq<Call>, counters: Counters)

  const CAPACITY := 1

  function NewCall(kind: Kind): Call {
    Call(kind, Registering, Pumping, true, 0, [], [], false, 1, false, None, [], Undecided, false)
  }

  // ---------------------------------------------------------------- steps of one call

  datatype Step =
    | Pump(arrival: Arrival) | PostResult | PumpDone
    | Register | RegisterKind | Cancel | ChooseResult | ChooseCancel
    | CloseSubscription(left: nat) | Answer(left: nat) | PassBarrier | CloseChannel | UnregisterKind | Unregister

  /** A closed channel first yields what it still holds and then that it is closed, an error channel nil. */
  predicate Arrives(call: Call, arrival: Arrival) {
    match arrival
    case Record(_, _) => call.open || 0 < call.left
    case RecordsClosed => call.open || call.left == 0
    case ErrorValue(_) => true
  }

  predicate CanStep(call: Call, step: Step) {
    match step
    case Pump(arrival) => call.pump.Pumping? && Arrives(call, arrival)
    case PostResult => call.pump.Posting? && (|call.channel| < CAPACITY || call.channelClosed)
    case PumpDone => call.pump.Posted? && 0 < call.barrier
    case Register => call.pc.Registering?
    case RegisterKind => call.pc.RegisteringKind?
    case Cancel => true
    case ChooseResult => call.pc.Selecting? && call.channel != []
    case ChooseCancel => call.pc.Selecting? && call.cancelled
    case CloseSubscription(left) => call.pc.Closing? && left <= CAPACITY
    case Answer(left) => call.pc.AwaitingAnswer? && left <= CAPACITY
    case PassBarrier => call.pc.Waiting? && call.barrier == 0
    case CloseChannel => call.pc.ClosingChannel?
    case UnregisterKind => call.pc.UnregisteringKind?
    case Unregister => call.pc.Unregistering?
  }

  function StepCall(call: Call, step: Step): Call
    requires CanStep(call, step)
  {
    match step
    case Pump(arrival) =>
      var sent := SendNext(call.kind, arrival);
      if Ends(sent) then call.(pump := Posting(sent.error), arrived := call.arrived + [arrival])
      else call.(left := if call.open then call.left else call.left - 1, arrived := call.arrived + [arrival])
    case PostResult =>
      if call.channelClosed then call.(panicked := true)
      else
        call.(pump := Posted, channel := call.channel + [call.pump.result],
              posted := call.posted + [call.pump.result])
    case PumpDone => call.(pump := PumpEnded, barrier := call.barrier - 1)
    case Register => call.(pc := RegisteringKind)
    case RegisterKind => call.(pc := Selecting)
    case Cancel => call.(cancelled := true)
    case ChooseResult =>
      call.(pc := Closing, err := call.channel[0], channel := call.channel[1..],
            choice := FromPump(call.channel[0]))
    case ChooseCancel => call.(pc := Closing, choice := FromCancel)
    case CloseSubscription(left) =>
      call.(pc := AwaitingAnswer, open := call.kind.Posts?, left := if call.kind.Posts? then call.left else left)
    case Answer(left) =>
      call.(pc := Waiting, open := false, left := if call.kind.Posts? then left else call.left)
    case PassBarrier => call.(pc := ClosingChannel)
    case CloseChannel => call.(pc := UnregisteringKind, channelClosed := true)
    case UnregisterKind => call.(pc := Unregistering)
    case Unregister => call.(pc := Returned(call.err))
  }

  function AddKind(counters: Counters, kind: Kind, delta: Word): Counters {
    match kind
    case Log => counters.(log := Add(counters.log, delta))
    case Posts => counters.(posts := Add(counters.posts, delta))
  }

  function StepCounters(counters: Counters, kind: Kind, step: Step): Counters {
    match step
    case Register => counters.(global := Add(counters.global, 1))
    case RegisterKind => AddKind(counters, kind, 1)
    case UnregisterKind => AddKind(counters, kind, ALL_ONES)
    case Unregister => counters.(global := Add(counters.global, ALL_ONES))
    case _ => counters
  }

  // ---------------------------------------------------------------- the system

  datatype Action = Begin(kind: Kind) | Do(index: nat, step: Step)

  predicate Enabled(s: System, a: Action) {
    a.Begin? || (a.index < |s.calls| && CanStep(s.calls[a.index], a.step))
  }

  function Apply(s: System, a: Action): System
    requires Enabled(s, a)
  {
    match a
    case Begin(kind) => s.(calls := s.calls + [NewCall(kind)])
    case Do(k, step) =>
      System(s.calls[k := StepCall(s.calls[k], step)], StepCounters(s.counters, s.calls[k].kind, step))
  }

  predicate Runs(s: System, actions: seq<Action>)
    decreases |actions|
  {
    actions == [] || (Enabled(s, actions[0]) && Runs(Apply(s, actions[0]), actions[1..]))
  }

  function Exec(s: System, actions: seq<Action>): System
    requires Runs(s, actions)
    decreases |actions|
  {
    if actions == [] then s else Exec(Apply(s, actions[0]), actions[1..])
  }

  // ---------------------------------------------------------------- one call keeps its promises

  predicate Early(pc: CallPc) {
    pc.Registering? || pc.RegisteringKind? || pc.Selecting?
  }

  predicate Late(pc: CallPc) {
    pc.UnregisteringKind? || pc.Unregistering? || pc.Returned?
  }

  /** While it pumps nothing has stopped it; then the last arrival has, and what it posts is the value of that. */
  ghost predicate ArrivalsAgree(call: Call) {
    match call.pump
    case Pumping => forall i | 0 <= i < |call.arrived| :: GoesOn(call.kind, call.arrived[i])
    case Posting(result) => StopsFirst(call.kind, call.arrived, |call.arrived| - 1, result)
    case _ => |call.posted| == 1 && StopsFirst(call.kind, call.arrived, |call.arrived| - 1, call.posted[0])
  }

  lemma ArrivalStops(kind: Kind, arrival: Arrival)
    ensures if Ends(SendNext(kind, arrival)) then StopsWith(kind, arrival, SendNext(kind, arrival).error)
            else GoesOn(kind, arrival)
    ensures GoesOn(kind, arrival) <==> forall value :: !StopsWith(kind, arrival, value)
  {
    assert StopsWith(kind, arrival, SendNext(kind, arrival).error) || GoesOn(kind, arrival);
  }

  lemma ArrivalsKept(call: Call, step: Step)
    requires ArrivalsAgree(call) && CanStep(call, step) && (call.pump.Posting? ==> call.posted == [])
    requires step.PostResult? ==> !call.channelClosed
    ensures ArrivalsAgree(StepCall(call, step))
  {
    if step.Pump? {
      ArrivalStops(call.kind, step.arrival);
    }
    hide SendNext, Ends, StopsWith, GoesOn;
  }

  ghost predicate CallAgrees(call: Call) {
    && !call.panicked
    && ArrivalsAgree(call)
    && (call.choice.FromCancel? ==> call.cancelled)
    && (call.open <==> Early(call.pc) || call.pc.Closing? || (call.pc.AwaitingAnswer? && call.kind.Posts?))
    && (Early(call.pc) <==> call.choice.Undecided?)
    && (call.channelClosed <==> Late(call.pc))
    && (call.pc.ClosingChannel? || Late(call.pc) ==> call.pump.PumpEnded?)
    && call.barrier == (if call.pump.PumpEnded? then 0 else 1)
    && (call.pump.Pumping? || call.pump.Posting? ==> call.posted == [] && call.channel == [])
    && (call.pump.Posted? || call.pump.PumpEnded? ==> |call.posted| == 1)
    && (if call.choice.FromPump? then call.posted == [call.choice.result] && call.channel == []
        else call.channel == call.posted)
    && call.err == (if call.choice.FromPump? then call.choice.result else None)
    && (call.pc.Returned? ==> call.pc.result == call.err)
  }

  lemma StepAgrees(call: Call, step: Step)
    requires CallAgrees(call) && CanStep(call, step)
    ensures CallAgrees(StepCall(call, step))
  {
    ArrivalsKept(call, step);
    hide ArrivalsAgree;
  }

  // ---------------------------------------------------------------- the counters

  function CountsGlobal(call: Call): nat {
    if call.pc.Registering? || call.pc.Returned? then 0 else 1
  }

  /** Inside a register or unregister window: counted globally and not by kind. */
  function InWindow(call: Call): nat {
    if call.pc.RegisteringKind? || call.pc.Unregistering? then 1 else 0
  }

  function CountsKind(call: Call, kind: Kind): nat {
    if call.kind == kind then CountsGlobal(call) - InWindow(call) else 0
  }

  datatype Tally = GlobalTally | KindTally(kind: Kind) | WindowTally

  function Weight(call: Call, tally: Tally): nat {
    match tally
    case GlobalTally => CountsGlobal(call)
    case KindTally(kind) => CountsKind(call, kind)
    case WindowTally => InWindow(call)
  }

  function Weights(calls: seq<Call>, tally: Tally): (r: seq<nat>)
    ensures |r| == |calls| && forall i | 0 <= i < |calls| :: r[i] == Weight(calls[i], tally)
  {
    seq(|calls|, i requires 0 <= i < |calls| => Weight(calls[i], tally))
  }

  function Total(calls: seq<Call>, tally: Tally): nat {
    Sum(Weights(calls, tally))
  }

  lemma TotalUpdate(calls: seq<Call>, k: nat, call: Call, tally: Tally)
    requires k < |calls|
    ensures Total(calls[k := call], tally) == Total(calls, tally) - Weight(calls[k], tally) + Weight(call, tally)
    ensures Weight(calls[k], tally) <= Total(calls, tally)
  {
    SumUpdate(Weights(calls, tally), k, Weight(call, tally));
    SumAtLeast(Weights(calls, tally), k);
    assert Weights(calls[k := call], tally) == Weights(calls, tally)[k := Weight(call, tally)];
  }

  lemma TotalBegin(calls: seq<Call>, kind: Kind, tally: Tally)
    ensures Total(calls + [NewCall(kind)], tally) == Total(calls, tally)
  {
    SumSnoc(Weights(calls, tally), 0);
    assert Weights(calls + [NewCall(kind)], tally) == Weights(calls, tally) + [0];
  }

  function CounterOf(counters: Counters, tally: Tally): Word {
    match tally
    case KindTally(Log) => counters.log
    case KindTally(Posts) => counters.posts
    case _ => counters.global
  }

  /** Each counter is its starting value plus the calls it counts, in wrapping arithmetic. */
  predicate CounterAgrees(s: System, base: Counters, tally: Tally) {
    CounterOf(s.counters, tally) == Truncate(CounterOf(base, tally) + Total(s.calls, tally))
  }

  predicate CountersAgree(s: System, base: Counters) {
    && CounterAgrees(s, base, GlobalTally)
    && CounterAgrees(s, base, KindTally(Log))
    && CounterAgrees(s, base, KindTally(Posts))
  }

  ghost predicate Inv(s: System, base: Counters) {
    && (forall k | 0 <= k < |s.calls| :: CallAgrees(s.calls[k]))
    && CountersAgree(s, base)
  }

  /** By how much a step changes a tally. */
  function Delta(kind: Kind, step: Step, tally: Tally): int {
    match tally
    case GlobalTally => if step.Register? then 1 else if step.Unregister? then -1 else 0
    case KindTally(k) =>
      if k != kind then 0 else if step.RegisterKind? then 1 else if step.UnregisterKind? then -1 else 0
    case WindowTally => 0
  }

  lemma GlobalFollows(call: Call, step: Step)
    requires CanStep(call, step)
    ensures CountsGlobal(StepCall(call, step)) == CountsGlobal(call) + Delta(call.kind, step, GlobalTally)
    ensures StepCall(call, step).kind == call.kind
  {
    hide SendNext, Ends;
  }

  lemma KindFollows(call: Call, step: Step)
    requires CanStep(call, step)
    ensures CountsGlobal(StepCall(call, step)) - InWindow(StepCall(call, step))
         == CountsGlobal(call) - InWindow(call) + Delta(call.kind, step, KindTally(call.kind))
  {
    hide SendNext, Ends;
  }

  lemma WeightFollows(call: Call, step: Step, tally: Tally)
    requires CanStep(call, step) && !tally.WindowTally?
    ensures Weight(StepCall(call, step), tally) == Weight(call, tally) + Delta(call.kind, step, tally)
    ensures StepCall(call, step).kind == call.kind
  {
    GlobalFollows(call, step);
    KindFollows(call, step);
    hide StepCall, CanStep, CountsGlobal, InWindow;
  }

  lemma CounterFollows(counters: Counters, kind: Kind, step: Step, tally: Tally)
    requires !tally.WindowTally?
    ensures var before, delta := CounterOf(counters, tally), Delta(kind, step, tally);
            CounterOf(StepCounters(counters, kind, step), tally)
            == if delta == 1 then Add(before, 1) else if delta == -1 then Add(before, ALL_ONES) else before
  {
    hide Add;
  }

  lemma CountStep(base: Word, total: nat, delta: int)
    requires -1 <= delta <= 1 && 0 <= total + delta
    ensures Truncate(base + (total + delta))
         == var before := Truncate(base + total);
            if delta == 1 then Add(before, 1) else if delta == -1 then Add(before, ALL_ONES) else before
  {
    AddCounts(base, total);
    hide Add, Truncate;
  }

  lemma CounterKept(s: System, base: Counters, k: nat, step: Step, tally: Tally)
    requires CounterAgrees(s, base, tally) && !tally.WindowTally?
    requires k < |s.calls| && CanStep(s.calls[k], step)
    ensures CounterAgrees(Apply(s, Do(k, step)), base, tally)
  {
    var call, after := s.calls[k], StepCall(s.calls[k], step);
    var delta := Delta(call.kind, step, tally);
    hide Add, Truncate, Total, Weight, StepCall, CanStep, StepCounters, CounterOf;
    TotalUpdate(s.calls, k, after, tally);
    WeightFollows(call, step, tally);
    assert Total(s.calls[k := after], tally) == Total(s.calls, tally) + delta;
    CounterFollows(s.counters, call.kind, step, tally);
    CountStep(CounterOf(base, tally), Total(s.calls, tally), delta);
    hide Delta;
  }

  lemma BeginKeepsInv(s: System, base: Counters, kind: Kind)
    requires Inv(s, base)
    ensures Inv(Apply(s, Begin(kind)), base)
  {
    hide Total, Truncate;
    TotalBegin(s.calls, kind, GlobalTally);
    TotalBegin(s.calls, kind, KindTally(Log));
    TotalBegin(s.calls, kind, KindTally(Posts));
  }

  lemma InvKept(s: System, base: Counters, a: Action)
    requires Inv(s, base) && Enabled(s, a)
    ensures Inv(Apply(s, a), base)
  {
    match a
    case Begin(kind) => BeginKeepsInv(s, base, kind);
    case Do(k, step) =>
      hide CallAgrees, CanStep, StepCall, StepCounters, CounterAgrees;
      StepAgrees(s.calls[k], step);
      CounterKept(s, base, k, step, GlobalTally);
      CounterKept(s, base, k, step, KindTally(Log));
      CounterKept(s, base, k, step, KindTally(Posts));
  }

  lemma {:induction false} InvAlways(s: System, base: Counters, actions: seq<Action>)
    requires Inv(s, base) && Runs(s, actions)
    ensures Inv(Exec(s, actions), base)
    decreases |actions|
  {
    if actions != [] {
      InvKept(s, base, actions[0]);
      InvAlways(Apply(s, actions[0]), base, actions[1..]);
    }
  }

  // ---------------------------------------------------------------- theorems over all runs

  lemma Reachable(base: Counters, actions: seq<Action>)
    requires Runs(System([], base), actions)
    ensures Inv(Exec(System([], base), actions), base)
  {
    InvAlways(System([], base), base, actions);
  }

  /**
   In every interleaving of every call: the pump posts exactly one value, always finds room for it and an
   open channel, and has ended before the channel is closed.
   */
  lemma PumpPostsOnce(base: Counters, actions: seq<Action>, k: nat)
    requires Runs(System([], base), actions) && k < |Exec(System([], base), actions).calls|
    ensures var call := Exec(System([], base), actions).calls[k];
            && !call.panicked
            && |call.posted| == (if call.pump.Pumping? || call.pump.Posting? then 0 else 1)
            && (call.pump.Posting? ==> CanStep(call, PostResult) && !call.channelClosed)
            && (call.channelClosed ==> call.pump.PumpEnded?)
            && (call.pc.Returned? ==> |call.posted| == 1)
  {
    Reachable(base, actions);
  }

  /** A call returns an error exactly when its select picked a pump value that is one, and that error. */
  lemma ReturnsWhatWasChosen(base: Counters, actions: seq<Action>, k: nat)
    requires Runs(System([], base), actions) && k < |Exec(System([], base), actions).calls|
    requires Exec(System([], base), actions).calls[k].pc.Returned?
    ensures var call := Exec(System([], base), actions).calls[k];
            && (call.pc.result.Some? <==> call.choice.FromPump? && call.choice.result.Some?)
            && (call.choice.FromPump? ==> call.posted == [call.choice.result] && call.pc.result == call.choice.result)
            && (!call.choice.FromPump? ==> call.choice.FromCancel? && call.cancelled)
  {
    Reachable(base, actions);
  }

  /** The kinds calls were begun with, in order. */
  function KindsOf(actions: seq<Action>): seq<Kind> {
    if actions == [] then []
    else (match actions[0] case Begin(kind) => [kind] case _ => []) + KindsOf(actions[1..])
  }

  /** What arrived for one call in a run, in order. */
  function ArrivalsOf(actions: seq<Action>, k: nat): seq<Arrival> {
    if actions == [] then []
    else
      (match actions[0] case Do(index, Pump(arrival)) => if index == k then [arrival] else [] case _ => [])
      + ArrivalsOf(actions[1..], k)
  }

  predicate HasHistory(s: System, k: nat, kinds: seq<Kind>, arrivals: seq<Arrival>) {
    && |s.calls| == |kinds|
    && (k < |kinds| ==> s.calls[k].kind == kinds[k] && s.calls[k].arrived == arrivals)
    && (|kinds| <= k ==> arrivals == [])
  }

  lemma StepHistory(s: System, a: Action, k: nat, kinds: seq<Kind>, arrivals: seq<Arrival>)
    requires Enabled(s, a) && HasHistory(s, k, kinds, arrivals)
    ensures HasHistory(Apply(s, a), k, kinds + KindsOf([a]), arrivals + ArrivalsOf([a], k))
  {
    assert [a][1..] == [];
    assert arrivals + [] == arrivals && kinds + [] == kinds;
    match a
    case Begin(kind) =>
    case Do(index, step) =>
      StepArrives(s.calls[index], step);
      hide StepCall, CanStep, StepCounters;
  }

  lemma StepArrives(call: Call, step: Step)
    requires CanStep(call, step)
    ensures StepCall(call, step).kind == call.kind
    ensures StepCall(call, step).arrived == call.arrived + if step.Pump? then [step.arrival] else []
  {
    hide SendNext, Ends;
  }

  lemma {:induction false} HistoryAlways(
    s: System, actions: seq<Action>, k: nat, kinds: seq<Kind>, arrivals: seq<Arrival>)
    requires Runs(s, actions) && HasHistory(s, k, kinds, arrivals)
    ensures HasHistory(Exec(s, actions), k, kinds + KindsOf(actions), arrivals + ArrivalsOf(actions, k))
    decreases |actions|
  {
    hide HasHistory, Apply, Enabled;
    if actions == [] {
      assert kinds + [] == kinds && arrivals + [] == arrivals;
    } else {
      var a := actions[0];
      FirstOf(actions, k);
      StepHistory(s, a, k, kinds, arrivals);
      Regroup(kinds, KindsOf([a]), KindsOf(actions[1..]));
      Regroup(arrivals, ArrivalsOf([a], k), ArrivalsOf(actions[1..], k));
      hide KindsOf, ArrivalsOf;
      HistoryAlways(Apply(s, a), actions[1..], k, kinds + KindsOf([a]), arrivals + ArrivalsOf([a], k));
    }
  }

  lemma FirstOf(actions: seq<Action>, k: nat)
    requires actions != []
    ensures KindsOf(actions) == KindsOf([actions[0]]) + KindsOf(actions[1..])
    ensures ArrivalsOf(actions, k) == ArrivalsOf([actions[0]], k) + ArrivalsOf(actions[1..], k)
  {
    assert [actions[0]][1..] == [];
    assert KindsOf([]) == [] && ArrivalsOf([], k) == [];
  }

  lemma Regroup<T>(xs: seq<T>, ys: seq<T>, zs: seq<T>)
    ensures (xs + ys) + zs == xs + (ys + zs)
  {
  }

  /**
   In every run the one value a pump posts is that of the first arrival which stops it, and until there is
   one it goes on; a call that returns what its pump posted returns just that.
   */
  lemma PostedIsWhatArrived(base: Counters, actions: seq<Action>, k: nat)
    requires Runs(System([], base), actions) && k < |Exec(System([], base), actions).calls|
    ensures var call, arrivals := Exec(System([], base), actions).calls[k], ArrivalsOf(actions, k);
            && k < |KindsOf(actions)| && call.kind == KindsOf(actions)[k]
            && PostsWhatArrived(call, arrivals)
  {
    Reachable(base, actions);
    HistoryAlways(System([], base), actions, k, [], []);
    var call, arrivals := Exec(System([], base), actions).calls[k], ArrivalsOf(actions, k);
    assert [] + KindsOf(actions) == KindsOf(actions) && [] + arrivals == arrivals;
    assert CallAgrees(call) && call.arrived == arrivals;
    hide *;
    AgreeingPosts(call);
  }

  ghost predicate PostsWhatArrived(call: Call, arrivals: seq<Arrival>) {
    && (call.pump.Pumping? <==> forall i | 0 <= i < |arrivals| :: GoesOn(call.kind, arrivals[i]))
    && (forall value | value in call.posted :: StopsFirst(call.kind, arrivals, |arrivals| - 1, value))
    && (call.pc.Returned? && call.choice.FromPump? ==>
          StopsFirst(call.kind, arrivals, |arrivals| - 1, call.pc.result))
  }

  lemma AgreeingPosts(call: Call)
    requires CallAgrees(call)
    ensures PostsWhatArrived(call, call.arrived)
  {
    if !call.pump.Pumping? {
      ArrivalStops(call.kind, call.arrived[|call.arrived| - 1]);
    }
    hide SendNext, Ends, GoesOn, StopsWith;
  }

  lemma {:induction false} TalliesAdd(calls: seq<Call>)
    ensures Total(calls, GlobalTally)
         == Total(calls, KindTally(Log)) + Total(calls, KindTally(Posts)) + Total(calls, WindowTally)
  {
    if calls != [] {
      var front, last := calls[..|calls| - 1], calls[|calls| - 1];
      TalliesAdd(front);
      TotalSnoc(front, last, GlobalTally);
      TotalSnoc(front, last, KindTally(Log));
      TotalSnoc(front, last, KindTally(Posts));
      TotalSnoc(front, last, WindowTally);
      assert calls == front + [last];
    }
  }

  lemma TotalSnoc(calls: seq<Call>, call: Call, tally: Tally)
    ensures Total(calls + [call], tally) == Total(calls, tally) + Weight(call, tally)
  {
    SumSnoc(Weights(calls, tally), Weight(call, tally));
    assert Weights(calls + [call], tally) == Weights(calls, tally) + [Weight(call, tally)];
  }

  predicate GlobalIsSumOf(s: System) {
    s.counters.global == Truncate(s.counters.log + s.counters.posts + Total(s.calls, WindowTally))
  }

  lemma AgreeingCountersAdd(s: System)
    requires CountersAgree(s, Counters(0, 0, 0))
    ensures GlobalIsSumOf(s)
  {
    TalliesAdd(s.calls);
    var log, posts := Total(s.calls, KindTally(Log)), Total(s.calls, KindTally(Posts));
    TruncateSum(log, posts, Total(s.calls, WindowTally));
    hide Truncate, Total;
  }

  /**
   From counters at zero, the global one is at all times the sum of the two kinds and of the calls inside
   a register or unregister window, modulo two to the 32.
   */
  lemma GlobalIsSum(actions: seq<Action>)
    requires Runs(System([], Counters(0, 0, 0)), actions)
    ensures GlobalIsSumOf(Exec(System([], Counters(0, 0, 0)), actions))
  {
    Reachable(Counters(0, 0, 0), actions);
    hide CountersAgree, GlobalIsSumOf;
    AgreeingCountersAdd(Exec(System([], Counters(0, 0, 0)), actions));
  }

  /** When every call has returned, all counters are back where they started. */
  lemma CountersReturn(base: Counters, actions: seq<Action>)
    requires Runs(System([], base), actions)
    requires forall k | 0 <= k < |Exec(System([], base), actions).calls| ::
               Exec(System([], base), actions).calls[k].pc.Returned?
    ensures Exec(System([], base), actions).counters == base
  {
    Reachable(base, actions);
    var calls := Exec(System([], base), actions).calls;
    SumZero(Weights(calls, GlobalTally));
    SumZero(Weights(calls, KindTally(Log)));
    SumZero(Weights(calls, KindTally(Posts)));
  }

  // ---------------------------------------------------------------- a call on its way out returns

  /**
   Steps the call makes of its own accord: nothing is cancelled, and nothing arrives on an open subscription.
   The answer to its close request is the reader's; `answers` says whether it comes.
   */
  predicate Own(call: Call, step: Step, answers: bool) {
    !step.Cancel? && (step.Pump? ==> !call.open) && (step.Answer? ==> answers)
  }

  /** The client has gone, the pump has come to an end, or the select has made its choice. */
  predicate Leaves(call: Call) {
    call.cancelled || !call.pump.Pumping? || !Early(call.pc)
  }

  function Remaining(call: Call): nat {
    (match call.pump case Pumping => 3 + call.left case Posting(_) => 2 case Posted => 1 case PumpEnded => 0) +
    (match call.pc
     case Registering => 12 case RegisteringKind => 11 case Selecting => 10 case Closing => 9
     case AwaitingAnswer => 6 case Waiting => 4
     case ClosingChannel => 3 case UnregisteringKind => 2 case Unregistering => 1 case Returned(_) => 0)
  }

  predicate RunsAlone(call: Call, steps: seq<Step>, answers: bool)
    decreases |steps|
  {
    steps == [] ||
    (Own(call, steps[0], answers) && CanStep(call, steps[0])
     && RunsAlone(StepCall(call, steps[0]), steps[1..], answers))
  }

  function ExecAlone(call: Call, steps: seq<Step>, answers: bool): Call
    requires RunsAlone(call, steps, answers)
    decreases |steps|
  {
    if steps == [] then call else ExecAlone(StepCall(call, steps[0]), steps[1..], answers)
  }

  /** Both goroutines are done with all they can do before the reader answers. */
  predicate WaitsForAnswer(call: Call) {
    && call.pc.AwaitingAnswer?
    && (call.pump.PumpEnded? || (call.pump.Pumping? && call.open))
  }

  lemma OwnStep(call: Call, answers: bool) returns (step: Step)
    requires CallAgrees(call) && Leaves(call) && !call.pc.Returned? && (!answers ==> !WaitsForAnswer(call))
    ensures Own(call, step, answers) && CanStep(call, step)
  {
    step := match call.pump
      case Posting(_) => PostResult
      case Posted => PumpDone
      case _ =>
        match call.pc
        case Registering => Register
        case RegisteringKind => RegisterKind
        case Selecting => if call.channel != [] then ChooseResult else ChooseCancel
        case Closing => CloseSubscription(0)
        case AwaitingAnswer => if answers then Answer(0) else Drain(call)
        case Waiting => if call.pump.PumpEnded? then PassBarrier else Drain(call)
        case ClosingChannel => CloseChannel
        case UnregisteringKind => UnregisterKind
        case _ => Unregister;
  }

  /** What a pump gets from a closed channel. */
  function Drain(call: Call): Step {
    Pump(if call.left == 0 then RecordsClosed else Record(None, None))
  }

  ghost predicate CannotStep(call: Call, answers: bool) {
    forall step :: CanStep(call, step) ==> !Own(call, step, answers)
  }

  lemma OwnStepCounts(call: Call, step: Step, answers: bool)
    requires CallAgrees(call) && Leaves(call) && Own(call, step, answers) && CanStep(call, step)
    ensures Leaves(StepCall(call, step)) && Remaining(StepCall(call, step)) < Remaining(call)
  {
  }

  /**
   However its goroutines are scheduled, a call whose client has gone or whose pump has ended does not run for
   ever. If the reader answers its close request, it comes to a stop only by returning; if the reader does
   not, it stays waiting for just that answer.
   */
  lemma {:induction false} LeavingCallReturns(call: Call, steps: seq<Step>, answers: bool)
    requires CallAgrees(call) && Leaves(call) && RunsAlone(call, steps, answers)
    ensures |steps| <= Remaining(call)
    ensures var t := ExecAlone(call, steps, answers);
            CannotStep(t, answers) <==> t.pc.Returned? || (!answers && WaitsForAnswer(t))
    ensures !answers && !Late(call.pc) && !call.pc.Waiting? && !call.pc.ClosingChannel? ==>
              !ExecAlone(call, steps, answers).pc.Returned?
    decreases |steps|
  {
    if steps == [] {
      if !call.pc.Returned? && (answers || !WaitsForAnswer(call)) {
        var step := OwnStep(call, answers);
      }
    } else {
      StepAgrees(call, steps[0]);
      OwnStepCounts(call, steps[0], answers);
      LeavingCallReturns(StepCall(call, steps[0]), steps[1..], answers);
    }
  }

  // ---------------------------------------------------------------- the pump goroutine's loop

  /** The pump over what arrives while the subscription is open. */
  function PumpAll(call: Call, arrivals: seq<Arrival>): (r: Call)
    requires call.open
    ensures r.open
  {
    if arrivals == [] then call
    else
      var before := PumpAll(call, arrivals[..|arrivals| - 1]);
      if before.pump.Pumping? then StepCall(before, Pump(arrivals[|arrivals| - 1])) else before
  }

  /** Reads until sendNext ends and says what to post; None if nothing that arrived ended it. */
  method RunPump(call: Call, arrivals: seq<Arrival>) returns (result: Option<Option<nat>>)
    requires call.pump.Pumping? && call.open
    ensures PumpAll(call, arrivals).pump == if result.Some? then Posting(result.value) else Pumping
    ensures result.None? <==> forall i | 0 <= i < |arrivals| :: GoesOn(call.kind, arrivals[i])
    ensures result.Some? ==> exists i :: StopsFirst(call.kind, arrivals, i, result.value)
  {
    var i := 0;
    while i < |arrivals|
      invariant i <= |arrivals|
      invariant PumpAll(call, arrivals[..i]).pump.Pumping?
      invariant PumpAll(call, arrivals[..i]).kind == call.kind
      invariant forall j | 0 <= j < i :: GoesOn(call.kind, arrivals[j])
    {
      assert arrivals[..i + 1][..i] == arrivals[..i];
      var sent := SendNext(call.kind, arrivals[i]);
      ArrivalStops(call.kind, arrivals[i]);
      if Ends(sent) {
        NothingAfterEnd(call, arrivals, i + 1);
        assert StopsFirst(call.kind, arrivals, i, sent.error);
        return Some(sent.error);
      }
      i := i + 1;
    }
    assert arrivals[..i] == arrivals;
    return None;
  }

  lemma {:induction false} NothingAfterEnd(call: Call, arrivals: seq<Arrival>, i: nat)
    requires call.open && i <= |arrivals| && !PumpAll(call, arrivals[..i]).pump.Pumping?
    ensures PumpAll(call, arrivals) == PumpAll(call, arrivals[..i])
    decreases |arrivals|
  {
    if i == |arrivals| {
      assert arrivals[..i] == arrivals;
    } else {
      var front := arrivals[..|arrivals| - 1];
      assert front[..i] == arrivals[..i];
      NothingAfterEnd(call, front, i);
    }
  }

  // ---------------------------------------------------------------- one call as it runs

  predicate RunsCall(call: Call, steps: seq<Step>)
    decreases |steps|
  {
    steps == [] || (CanStep(call, steps[0]) && RunsCall(StepCall(call, steps[0]), steps[1..]))
  }

  function ExecCall(call: Call, steps: seq<Step>): Call
    requires RunsCall(call, steps)
    decreases |steps|
  {
    if steps == [] then call else ExecCall(StepCall(call, steps[0]), steps[1..])
  }

  /** The protocol gets a new call from its begin to this state. */
  ghost predicate Comes(kind: Kind, call: Call) {
    exists steps :: RunsCall(NewCall(kind), steps) && ExecCall(NewCall(kind), steps) == call
  }

  lemma {:induction false} OneStepMore(call: Call, steps: seq<Step>, step: Step)
    requires RunsCall(call, steps) && CanStep(ExecCall(call, steps), step)
    ensures RunsCall(call, steps + [step])
    ensures ExecCall(call, steps + [step]) == StepCall(ExecCall(call, steps), step)
    decreases |steps|
  {
    if steps == [] {
      assert [] + [step] == [step];
    } else {
      assert (steps + [step])[1..] == steps[1..] + [step];
      OneStepMore(StepCall(call, steps[0]), steps[1..], step);
    }
  }

  /** The state of the call after its next step. */
  lemma Next(kind: Kind, call: Call, step: Step) returns (after: Call)
    requires Comes(kind, call) && CanStep(call, step)
    ensures after == StepCall(call, step) && Comes(kind, after)
  {
    var steps :| RunsCall(NewCall(kind), steps) && ExecCall(NewCall(kind), steps) == call;
    OneStepMore(NewCall(kind), steps, step);
    after := StepCall(call, step);
  }

  lemma BeginComes(kind: Kind)
    ensures Comes(kind, NewCall(kind))
  {
    assert RunsCall(NewCall(kind), []) && ExecCall(NewCall(kind), []) == NewCall(kind);
  }

  lemma {:induction false} PumpComes(kind: Kind, call: Call, arrivals: seq<Arrival>)
    requires Comes(kind, call) && call.open && CallAgrees(call)
    ensures Comes(kind, PumpAll(call, arrivals)) && CallAgrees(PumpAll(call, arrivals))
    ensures var after := PumpAll(call, arrivals); after == call.(pump := after.pump, arrived := after.arrived)
    ensures call.pump.Pumping? ==> PumpAll(call, arrivals).pump.Pumping? || PumpAll(call, arrivals).pump.Posting?
  {
    if arrivals != [] {
      var front, last := arrivals[..|arrivals| - 1], arrivals[|arrivals| - 1];
      PumpComes(kind, call, front);
      if PumpAll(call, front).pump.Pumping? {
        StepAgrees(PumpAll(call, front), Pump(last));
        var after := Next(kind, PumpAll(call, front), Pump(last));
      }
    }
  }

  /** Past its select and answered, a call comes to its return, with what the select made of err. */
  lemma {:induction false} RestComes(kind: Kind, call: Call) returns (done: Call)
    requires Comes(kind, call) && CallAgrees(call) && !Early(call.pc)
    ensures Comes(kind, done) && done.pc == Returned(call.err)
    decreases Remaining(call)
  {
    if call.pc.Returned? {
      done := call;
    } else {
      var step := OwnStep(call, true);
      var after := Next(kind, call, step);
      OwnStepCounts(call, step, true);
      StepAgrees(call, step);
      ErrStays(call, step);
      hide Comes, StepCall, CallAgrees, Remaining;
      done := RestComes(kind, after);
    }
  }

  lemma ErrStays(call: Call, step: Step)
    requires CanStep(call, step) && !Early(call.pc)
    ensures StepCall(call, step).err == call.err && !Early(StepCall(call, step).pc)
  {
  }

  lemma HasRoom(call: Call)
    requires CallAgrees(call) && call.pump.Posting?
    ensures call.channel == [] && !call.channelClosed
  {
  }

  lemma ReadyComes(kind: Kind, arrivals: seq<Arrival>) returns (call: Call)
    ensures Comes(kind, call) && CallAgrees(call) && call.pc.Selecting? && !call.cancelled && call.open
    ensures var pump := PumpAll(NewCall(kind), arrivals).pump;
            if pump.Posting? then call.channel == [pump.result] else call.pump == pump
    ensures PumpAll(NewCall(kind), arrivals).pump.Pumping? || PumpAll(NewCall(kind), arrivals).pump.Posting?
  {
    BeginComes(kind);
    PumpComes(kind, NewCall(kind), arrivals);
    call := PumpAll(NewCall(kind), arrivals);
    hide Comes, PumpAll, CallAgrees;
    StepAgrees(call, Register);
    call := Next(kind, call, Register);
    StepAgrees(call, RegisterKind);
    call := Next(kind, call, RegisterKind);
    if call.pump.Posting? {
      HasRoom(call);
      StepAgrees(call, PostResult);
      call := Next(kind, call, PostResult);
    }
  }

  /** A record still in its channel when that is closed is read after the close. */
  lemma RecordOutlivesClose(kind: Kind) returns (call: Call)
    ensures Comes(kind, call) && !call.open && call.pump.Pumping? && call.pc.Waiting?
    ensures CanStep(call, Pump(Record(None, None))) && !CanStep(call, Pump(RecordsClosed))
  {
    call := ReadyComes(kind, []);
    hide Comes;
    call := Next(kind, call, Cancel);
    call := Next(kind, call, ChooseCancel);
    call := Next(kind, call, CloseSubscription(1));
    call := Next(kind, call, Answer(1));
  }

  /** Whatever the select picks of what is ready, the protocol gets the call from there to its return. */
  lemma ChosenComes(
    kind: Kind, arrivals: seq<Arrival>, result: Option<Option<nat>>, cancelled: bool, choice: Choice)
    requires PumpAll(NewCall(kind), arrivals).pump == if result.Some? then Posting(result.value) else Pumping
    requires if choice.FromPump? then result == Some(choice.result) else cancelled && choice.FromCancel?
    ensures exists call :: Comes(kind, call)
                        && call.pc == Returned(if choice.FromPump? then choice.result else None)
  {
    hide PumpAll;
    var call := ReadyComes(kind, arrivals);
    hide Comes;
    if choice.FromPump? {
      StepAgrees(call, ChooseResult);
      call := Next(kind, call, ChooseResult);
    } else {
      StepAgrees(call, Cancel);
      call := Next(kind, call, Cancel);
      StepAgrees(call, ChooseCancel);
      call := Next(kind, call, ChooseCancel);
    }
    var done := RestComes(kind, call);
  }

  // ---------------------------------------------------------------- the counters as objects

  /** The wrapping counter is the number of registrations less that of unregistrations, modulo two to the 32. */
  class SubscriberCounter {
    var numberOfSubscribers: Word
    ghost var balance: int

    ghost predicate Valid()
      reads this
    {
      numberOfSubscribers == balance % TWO_32
    }

    constructor ()
      ensures Valid() && balance == 0
    {
      numberOfSubscribers, balance := 0, 0;
    }

    /** Returns what the atomic addition does: the number with this registration. */
    method Register() returns (n: Word)
      requires Valid()
      modifies this
      ensures Valid() && balance == old(balance) + 1 && n == numberOfSubscribers
    {
      numberOfSubscribers := Add(numberOfSubscribers, 1);
      balance := balance + 1;
      n := numberOfSubscribers;
    }

    method Unregister() returns (n: Word)
      requires Valid()
      modifies this
      ensures Valid() && balance == old(balance) - 1 && n == numberOfSubscribers
    {
      numberOfSubscribers := Add(numberOfSubscribers, ALL_ONES);
      balance := balance - 1;
      n := numberOfSubscribers;
    }
  }

  /** The select with what is ready: the pump's result, a cancellation, or both, where either may win. */
  method Choose(result: Option<Option<nat>>, cancelled: bool, prefersCancel: bool) returns (choice: Choice)
    requires result.Some? || cancelled
    ensures choice == FromCancel || (result.Some? && choice == FromPump(result.value))
    ensures result.None? ==> choice == FromCancel
    ensures !cancelled ==> choice.FromPump?
    ensures result.Some? && cancelled ==> (choice.FromCancel? <==> prefersCancel)
  {
    if result.Some? && !(cancelled && prefersCancel) {
      return FromPump(result.value);
    }
    return FromCancel;
  }

  /**
   One call with nobody beside it. `arrivals` is what the pump gets before the select wakes, `cancelled` says
   whether the client has gone by then; one of the two must have ended the wait. The call leaves counters
   as it found them, and makes a run of the protocol, the reader's answer included, that returns just this
   error.
   */
  method RunSubscription(
    service: SubscriberCounter, info: SubscriberCounter, kind: Kind, arrivals: seq<Arrival>, cancelled: bool,
    prefersCancel: bool)
    returns (error: Option<nat>)
    requires service != info && service.Valid() && info.Valid()
    requires cancelled || exists i :: 0 <= i < |arrivals| && !GoesOn(kind, arrivals[i])
    modifies service, info
    ensures service.numberOfSubscribers == old(service.numberOfSubscribers)
    ensures info.numberOfSubscribers == old(info.numberOfSubscribers)
    ensures exists call :: Comes(kind, call) && call.pc == Returned(error)
    ensures error.Some? || !cancelled ==> exists i :: StopsFirst(kind, arrivals, i, error)
    ensures !prefersCancel && (exists i :: 0 <= i < |arrivals| && !GoesOn(kind, arrivals[i])) ==>
      exists i :: StopsFirst(kind, arrivals, i, error)
    ensures cancelled && prefersCancel ==> error.None?
  {
    hide PumpAll, Comes;
    var posted := RunPump(NewCall(kind), arrivals);
    var total := service.Register();
    var mine := info.Register();
    var choice := Choose(posted, cancelled, prefersCancel);
    error := if choice.FromPump? then choice.result else None;
    ChosenComes(kind, arrivals, posted, cancelled, choice);
    mine := info.Unregister();
    total := service.Unregister();
  }
}

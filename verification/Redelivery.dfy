/**
 The publisher over one log of declarations: the offset of an entry is the ID of its post, so delivering
 entries again, losing attempts and interleaving chunks all leave the same posts behind.
 */
module Redelivery {
  import opened Options
  import opened Words
  import opened Posts
  import opened PostDb
  import opened Publisher
  import opened PublisherRuns

  type Log = seq<VocalDeclaration>

  /** What the stream's converter makes of the entry at an offset. */
  function Entry(log: Log, offset: nat): Vocal
    requires offset < |log|
  {
    VocalOf(Truncate(offset), log[offset])
  }

  const CLEAR := Faults(false, false, {}, Commits, false, false)

  // ---------------------------------------------------------------- at-least-once delivery

  predicate Within(offsets: seq<nat>, n: nat) {
    forall i | 0 <= i < |offsets| :: offsets[i] < n
  }

  /** The tables after the entries at these offsets have been processed in turn. */
  function Deliver(log: Log, tables: Tables, offsets: seq<nat>): Tables
    requires Within(offsets, |log|)
  {
    if offsets == [] then tables
    else Attempt(Deliver(log, tables, offsets[..|offsets| - 1]), Entry(log, offsets[|offsets| - 1]), CLEAR).0
  }

  /** How far into the log a consumer has come. */
  function Frontier(offsets: seq<nat>): nat {
    if offsets == [] then 0
    else
      var before, last := Frontier(offsets[..|offsets| - 1]), offsets[|offsets| - 1];
      if last < before then before else last + 1
  }

  /** Each delivery is the next new entry, or any earlier one again. */
  predicate AtLeastOnce(offsets: seq<nat>) {
    offsets == []
    || (AtLeastOnce(offsets[..|offsets| - 1]) && offsets[|offsets| - 1] <= Frontier(offsets[..|offsets| - 1]))
  }

  function UpTo(n: nat): (r: seq<nat>)
    ensures |r| == n && forall i | 0 <= i < n :: r[i] == i
  {
    seq(n, i requires 0 <= i < n => i)
  }

  /** The first n entries have been dealt with: stored, or never to be. */
  ghost predicate DealtWith(log: Log, tables: Tables, n: nat)
    requires n <= |log|
  {
    forall o | 0 <= o < n :: Entry(log, o).id in tables.posts || !Acceptable(Entry(log, o))
  }

  lemma DealtWithKept(log: Log, tables: Tables, n: nat, offset: nat)
    requires n <= |log| && offset < |log| && DealtWith(log, tables, n)
    ensures DealtWith(log, Attempt(tables, Entry(log, offset), CLEAR).0, n)
    ensures offset == n ==> DealtWith(log, Attempt(tables, Entry(log, offset), CLEAR).0, n + 1)
    ensures offset < n ==> Attempt(tables, Entry(log, offset), CLEAR).0 == tables
  {
  }

  lemma {:induction false} FrontierWithin(offsets: seq<nat>, n: nat)
    requires Within(offsets, n)
    ensures Frontier(offsets) <= n
  {
    if offsets != [] {
      FrontierWithin(offsets[..|offsets| - 1], n);
    }
  }

  lemma {:induction false} DeliveryInvariant(log: Log, tables: Tables, offsets: seq<nat>)
    requires Within(offsets, |log|) && AtLeastOnce(offsets)
    ensures Frontier(offsets) <= |log|
    ensures DealtWith(log, Deliver(log, tables, offsets), Frontier(offsets))
    ensures Deliver(log, tables, offsets) == Deliver(log, tables, UpTo(Frontier(offsets)))
  {
    FrontierWithin(offsets, |log|);
    if offsets != [] {
      var front, last := offsets[..|offsets| - 1], offsets[|offsets| - 1];
      var n := Frontier(front);
      DeliveryInvariant(log, tables, front);
      DealtWithKept(log, Deliver(log, tables, front), n, last);
      if last == n {
        assert UpTo(n + 1)[..n] == UpTo(n);
      }
    } else {
      assert UpTo(0) == [];
    }
  }

  /**
   Redelivery changes nothing: however often and from wherever entries are read again, the tables are those
   of reading each entry once, for a log of any length and whatever the tables held before.
   */
  lemma RedeliveryIsIdempotent(log: Log, tables: Tables, offsets: seq<nat>)
    requires Within(offsets, |log|) && AtLeastOnce(offsets)
    ensures Frontier(offsets) <= |log|
    ensures Deliver(log, tables, offsets) == Deliver(log, tables, UpTo(Frontier(offsets)))
  {
    DeliveryInvariant(log, tables, offsets);
  }

  // ---------------------------------------------------------------- runs with faults and chunks

  /** Every post that arrives is an entry of the log. */
  ghost predicate FromLog(log: Log, inputs: seq<Input>) {
    forall k | 0 <= k < |inputs| && inputs[k].PostRecord? ::
      exists o :: 0 <= o < |log| && inputs[k].vocal == Entry(log, o)
  }

  /** Every input was handled by a process that was still running; one that has ended is only ever restarted. */
  ghost predicate Live(inputs: seq<Input>) {
    forall k | 0 <= k < |inputs| && !inputs[k].Restart? :: !Run(Start(), inputs[..k]).ended
  }

  /** An attempt that got as far as making its changes durable. */
  predicate Durable(input: Input) {
    && input.PostRecord?
    && ReachesCommit(input.faults, |input.vocal.messages|)
    && !input.faults.commit.Refuses?
  }

  ghost predicate DurablyTried(log: Log, inputs: seq<Input>, o: nat)
    requires o < |log|
  {
    exists k :: 0 <= k < |inputs| && Durable(inputs[k]) && inputs[k].vocal == Entry(log, o)
  }

  lemma EntriesApart(log: Log, o: nat, p: nat)
    requires |log| <= TWO_32 && o < |log| && p < |log|
    ensures Entry(log, o).id == o
    ensures o != p ==> Entry(log, o) != Entry(log, p)
  {
  }

  /** An entry is stored exactly when it can be and was durably tried, and then it is stored whole. */
  ghost predicate OffsetAgrees(log: Log, tables: Tables, inputs: seq<Input>, o: nat)
    requires o < |log|
  {
    && (o in tables.posts <==> Acceptable(Entry(log, o)) && DurablyTried(log, inputs, o))
    && (o in tables.posts ==> Holds(tables, Entry(log, o)))
  }

  ghost predicate StoredIsTried(log: Log, tables: Tables, inputs: seq<Input>) {
    && Schema(tables)
    && (forall o | 0 <= o < |log| :: OffsetAgrees(log, tables, inputs, o))
    && (forall id | id in tables.posts :: id < |log|)
  }

  lemma LiveFront(inputs: seq<Input>)
    requires Live(inputs) && inputs != []
    ensures Live(inputs[..|inputs| - 1])
    ensures !inputs[|inputs| - 1].Restart? ==> !Run(Start(), inputs[..|inputs| - 1]).ended
  {
    var front := inputs[..|inputs| - 1];
    assert forall k | 0 <= k < |front| :: front[k] == inputs[k] && front[..k] == inputs[..k];
    hide Run, Start;
  }

  lemma TriedGrows(log: Log, front: seq<Input>, last: Input, o: nat)
    requires o < |log|
    ensures DurablyTried(log, front + [last], o)
       <==> DurablyTried(log, front, o) || (Durable(last) && last.vocal == Entry(log, o))
  {
    var inputs := front + [last];
    if k :| 0 <= k < |front| && Durable(front[k]) && front[k].vocal == Entry(log, o) {
      assert inputs[k] == front[k];
    }
    if Durable(last) && last.vocal == Entry(log, o) {
      assert inputs[|front|] == last;
    }
  }

  lemma PostOffset(log: Log, s: State, front: seq<Input>, last: Input, p: nat, o: nat)
    requires |log| <= TWO_32 && p < |log| && o < |log|
    requires last.PostRecord? && last.vocal == Entry(log, p)
    requires !s.ended && Schema(s.tables) && OffsetAgrees(log, s.tables, front, o)
    ensures OffsetAgrees(log, Step(s, last).tables, front + [last], o)
  {
    TriedGrows(log, front, last, o);
    EntriesApart(log, o, p);
    EntriesApart(log, p, o);
    if o in s.tables.posts {
      StepKeepsPosts(s, last, Entry(log, o));
    } else if o == p && Storable(s.tables, last.vocal) {
      StoredHolds(s.tables, last.vocal);
    }
    hide Entry, Holds, Acceptable, DurablyTried;
  }

  lemma OtherOffset(log: Log, s: State, front: seq<Input>, last: Input, o: nat)
    requires o < |log| && !last.PostRecord? && OffsetAgrees(log, s.tables, front, o)
    ensures OffsetAgrees(log, Step(s, last).tables, front + [last], o)
  {
    TriedGrows(log, front, last, o);
    if o in s.tables.posts {
      StepKeepsPosts(s, last, Entry(log, o));
    }
    hide Entry, Holds, Acceptable, DurablyTried;
  }

  lemma StepStored(log: Log, s: State, front: seq<Input>, last: Input)
    requires |log| <= TWO_32 && (!last.Restart? ==> !s.ended) && StoredIsTried(log, s.tables, front)
    requires last.PostRecord? ==> exists p :: 0 <= p < |log| && last.vocal == Entry(log, p)
    ensures StoredIsTried(log, Step(s, last).tables, front + [last])
  {
    StepKeepsSchema(s, last);
    forall o | 0 <= o < |log|
      ensures OffsetAgrees(log, Step(s, last).tables, front + [last], o)
    {
      if last.PostRecord? {
        var p :| 0 <= p < |log| && last.vocal == Entry(log, p);
        PostOffset(log, s, front, last, p, o);
      } else {
        OtherOffset(log, s, front, last, o);
      }
    }
  }

  /**
   With faults, chunks, restarts and deliveries in any order: an entry is in the tables exactly when it is acceptable
   and some attempt at it became durable, and then it is there whole.
   */
  lemma {:induction false} StoredExactlyWhenTried(log: Log, inputs: seq<Input>)
    requires |log| <= TWO_32 && FromLog(log, inputs) && Live(inputs)
    ensures StoredIsTried(log, Run(Start(), inputs).tables, inputs)
  {
    if inputs != [] {
      var n := |inputs| - 1;
      LiveFront(inputs);
      assert forall k | 0 <= k < n :: inputs[..n][k] == inputs[k];
      StoredExactlyWhenTried(log, inputs[..n]);
      StepStored(log, Run(Start(), inputs[..n]), inputs[..n], inputs[n]);
      assert inputs == inputs[..n] + [inputs[n]];
    }
  }

  /**
   So the tables are a function of which entries were durably tried: neither order, repetition, faults,
   restarts nor chunks leave any other trace.
   */
  lemma SameTriesSameTables(log: Log, inputs: seq<Input>, others: seq<Input>)
    requires |log| <= TWO_32
    requires FromLog(log, inputs) && Live(inputs) && FromLog(log, others) && Live(others)
    requires forall o | 0 <= o < |log| :: DurablyTried(log, inputs, o) <==> DurablyTried(log, others, o)
    ensures Run(Start(), inputs).tables == Run(Start(), others).tables
  {
    var a, b := Run(Start(), inputs).tables, Run(Start(), others).tables;
    StoredExactlyWhenTried(log, inputs);
    StoredExactlyWhenTried(log, others);
    ChunksNeverStored(inputs);
    ChunksNeverStored(others);
    hide Run, Start;
    forall o | 0 <= o < |log|
      ensures o in a.posts <==> o in b.posts
      ensures o in a.posts ==> Holds(a, Entry(log, o)) && Holds(b, Entry(log, o))
    {
      assert OffsetAgrees(log, a, inputs, o) && OffsetAgrees(log, b, others, o);
    }
    SameTables(log, a, b);
  }

  lemma SameTables(log: Log, a: Tables, b: Tables)
    requires |log| <= TWO_32 && Schema(a) && Schema(b) && NoData(a) && NoData(b)
    requires forall id | id in a.posts || id in b.posts :: id < |log|
    requires forall o: Word | o < |log| :: o in a.posts <==> o in b.posts
    requires forall o: Word | o < |log| && o in a.posts :: Holds(a, Entry(log, o)) && Holds(b, Entry(log, o))
    ensures a == b
  {
    forall o: Word | o in a.posts
      ensures o in b.posts && b.posts[o] == a.posts[o]
    {
      EntriesApart(log, o, o);
    }
    assert a.posts == b.posts;
    forall key | key in a.messages || key in b.messages
      ensures key in a.messages && key in b.messages && b.messages[key] == a.messages[key]
    {
      EntriesApart(log, key.post, key.post);
      if key in a.messages {
        SameRow(a, b, Entry(log, key.post), key);
      } else {
        SameRow(b, a, Entry(log, key.post), key);
      }
    }
    assert a.messages == b.messages;
  }

  lemma SameRow(a: Tables, b: Tables, vocal: Vocal, key: Key)
    requires NoData(a) && NoData(b) && Holds(a, vocal) && Holds(b, vocal)
    requires key in a.messages && key.post == vocal.id
    ensures key in b.messages && b.messages[key] == a.messages[key]
  {
    var m := MessageData(key.id, a.messages[key].kind, a.messages[key].size);
    assert key == Key(m.id, vocal.id);
    assert InTables(a, vocal.id, m);
    assert m in vocal.messages;
    assert InTables(b, vocal.id, m);
  }

  // ---------------------------------------------------------------- which posts are announced

  /** The k-th input is the first attempt at the entry that became durable. */
  ghost predicate FirstDurable(log: Log, inputs: seq<Input>, o: nat, k: nat)
    requires o < |log|
  {
    && k < |inputs| && Durable(inputs[k]) && inputs[k].vocal == Entry(log, o)
    && forall j | 0 <= j < k :: !(Durable(inputs[j]) && inputs[j].vocal == Entry(log, o))
  }

  /** The first attempt that became durable also got its answer from the database. */
  ghost predicate FirstCommits(log: Log, inputs: seq<Input>, o: nat)
    requires o < |log|
  {
    exists k :: 0 <= k < |inputs| && FirstDurable(log, inputs, o, k) && inputs[k].faults.commit.Commits?
  }

  lemma FirstCommitsGrows(log: Log, front: seq<Input>, last: Input, o: nat)
    requires o < |log|
    ensures FirstCommits(log, front + [last], o)
       <==> FirstCommits(log, front, o)
            || (!DurablyTried(log, front, o) && Durable(last) && last.vocal == Entry(log, o)
                && last.faults.commit.Commits?)
  {
    var inputs := front + [last];
    hide Entry;
    if k :| 0 <= k < |front| && FirstDurable(log, front, o, k) && front[k].faults.commit.Commits? {
      assert forall j | 0 <= j <= k :: inputs[j] == front[j];
      assert FirstDurable(log, inputs, o, k);
    }
    if !DurablyTried(log, front, o) && Durable(last) && last.vocal == Entry(log, o) {
      assert forall j | 0 <= j < |front| :: inputs[j] == front[j];
      assert FirstDurable(log, inputs, o, |front|);
    }
    if k :| 0 <= k < |inputs| && FirstDurable(log, inputs, o, k) && inputs[k].faults.commit.Commits? {
      assert forall j | 0 <= j < |front| :: inputs[j] == front[j];
      if k < |front| {
        assert FirstDurable(log, front, o, k);
      }
    }
  }

  lemma StepNotifies(s: State, input: Input)
    requires !input.Restart? ==> !s.ended
    ensures Step(s, input).notified
         == if input.PostRecord? && Attempt(s.tables, input.vocal, input.faults).1 && input.vocal.messages == []
            then s.notified + [input.vocal] else s.notified
  {
  }

  lemma AttemptSucceeds(tables: Tables, input: Input)
    requires input.PostRecord?
    ensures Attempt(tables, input.vocal, input.faults).1
       <==> Storable(tables, input.vocal) && Durable(input) && input.faults.commit.Commits?
  {
  }

  ghost predicate AnnouncedIfFirst(log: Log, notified: seq<Vocal>, inputs: seq<Input>, o: nat)
    requires o < |log|
  {
    Entry(log, o) in notified <==> log[o].messages == [] && FirstCommits(log, inputs, o)
  }

  lemma AnnounceStep(log: Log, s: State, front: seq<Input>, last: Input, o: nat)
    requires |log| <= TWO_32 && o < |log| && (!last.Restart? ==> !s.ended)
    requires OffsetAgrees(log, s.tables, front, o) && AnnouncedIfFirst(log, s.notified, front, o)
    ensures AnnouncedIfFirst(log, Step(s, last).notified, front + [last], o)
  {
    FirstCommitsGrows(log, front, last, o);
    StepNotifies(s, last);
    assert Entry(log, o).messages == [] <==> log[o].messages == [];
    if last.PostRecord? && last.vocal == Entry(log, o) {
      AttemptSucceeds(s.tables, last);
      EntriesApart(log, o, o);
    }
    hide Step, Attempt, DurablyTried, FirstCommits, Holds, Entry, Durable;
  }

  /**
   Over any run, with any redelivery, faults, chunks and restarts: an entry is announced exactly when it
   declares no messages and the first attempt that made it durable also reported success. A post whose
   first commit loses its answer is stored and never announced, though a later life of the process gets
   its entry again.
   */
  lemma {:induction false} AnnouncedExactlyWhen(log: Log, inputs: seq<Input>, o: nat)
    requires |log| <= TWO_32 && FromLog(log, inputs) && Live(inputs) && o < |log|
    ensures AnnouncedIfFirst(log, Run(Start(), inputs).notified, inputs, o)
  {
    if inputs != [] {
      var n := |inputs| - 1;
      LiveFront(inputs);
      assert forall k | 0 <= k < n :: inputs[..n][k] == inputs[k];
      AnnouncedExactlyWhen(log, inputs[..n], o);
      StoredExactlyWhenTried(log, inputs[..n]);
      AnnounceStep(log, Run(Start(), inputs[..n]), inputs[..n], inputs[n], o);
      assert inputs == inputs[..n] + [inputs[n]];
    }
    hide AnnouncedIfFirst, Step;
  }

  const LOST := Faults(false, false, {}, LosesAnswer, true, false)

  /**
   It happens: the commit loses its answer, the rollback after it kills the process, and the next life is
   given the entry again and finds its key taken.
   */
  lemma LostAnswerIsNeverAnnounced(log: Log, o: nat)
    requires |log| <= TWO_32 && o < |log| && log[o].messages == []
    ensures var inputs := [PostRecord(Entry(log, o), LOST), Restart, PostRecord(Entry(log, o), CLEAR)];
            && FromLog(log, inputs) && Live(inputs)
            && Entry(log, o).id in Run(Start(), inputs).tables.posts && Run(Start(), inputs).notified == []
  {
    var first, again := PostRecord(Entry(log, o), LOST), PostRecord(Entry(log, o), CLEAR);
    var inputs := [first, Restart, again];
    assert inputs[..0] == [] && inputs[..1] == [first] && inputs[..2] == [first, Restart];
    assert [first][..0] == [] && [first, Restart][..1] == [first];
    assert Run(Start(), [first]) == Step(Start(), first);
    assert Run(Start(), [first, Restart]) == Step(Run(Start(), [first]), Restart);
  }

  // ---------------------------------------------------------------- what readers find

  /** The log holds converted declarations: nothing but text. */
  predicate TextLog(log: Log) {
    forall o, i | 0 <= o < |log| && 0 <= i < |log[o].messages| :: log[o].messages[i].kind == TEXT
  }

  /**
   In every reachable state each stored post is an entry of the log and owns exactly the message IDs from
   zero up to its number of declared messages, each of kind text and of its declared size.
   */
  lemma StoredPostsAreEntries(log: Log, inputs: seq<Input>, id: Word)
    requires |log| <= TWO_32 && TextLog(log) && FromLog(log, inputs) && Live(inputs)
    requires id in Run(Start(), inputs).tables.posts
    ensures id < |log| && |log[id].messages| <= TWO_32
    ensures var tables := Run(Start(), inputs).tables;
            && tables.posts[id] == PostRow(log[id].author, log[id].location)
            && Readable(tables, id)
            && (forall i: Word :: Key(i, id) in tables.messages <==> i < |log[id].messages|)
            && (forall i: Word | i < |log[id].messages| ::
                  tables.messages[Key(i, id)] == MessageRow(TEXT, log[id].messages[i].size, None))
  {
    StoredExactlyWhenTried(log, inputs);
    ChunksNeverStored(inputs);
    assert OffsetAgrees(log, Run(Start(), inputs).tables, inputs, id);
    NumberedDistinct(log[id].messages);
    OwnedMessages(log, Run(Start(), inputs).tables, id);
  }

  lemma OwnedMessages(log: Log, tables: Tables, id: Word)
    requires id < |log| && TextLog(log) && NoData(tables)
    requires Holds(tables, Entry(log, id)) && |log[id].messages| <= TWO_32
    ensures Readable(tables, id)
    ensures forall i: Word :: Key(i, id) in tables.messages <==> i < |log[id].messages|
    ensures forall i: Word | i < |log[id].messages| ::
              tables.messages[Key(i, id)] == MessageRow(TEXT, log[id].messages[i].size, None)
  {
    var messages := Numbered(log[id].messages);
    assert Entry(log, id).id == id && Entry(log, id).messages == messages;
    forall key | key in tables.messages && key.post == id
      ensures key.id < |messages| && tables.messages[key].kind == TEXT
    {
      var row := tables.messages[key];
      assert key == Key(key.id, id);
      assert InTables(tables, id, MessageData(key.id, row.kind, row.size));
      assert MessageData(key.id, row.kind, row.size) in messages;
    }
    forall i: Word | i < |messages|
      ensures Key(i, id) in tables.messages
      ensures tables.messages[Key(i, id)] == MessageRow(TEXT, log[id].messages[i].size, None)
    {
      assert messages[i] in messages && messages[i].id == i;
      assert InTables(tables, id, messages[i]);
    }
  }
}

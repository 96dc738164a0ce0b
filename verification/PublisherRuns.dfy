/**
 Whole runs of the publisher: its main loop over whatever arrives, and what every sequence of posts,
 redelivered posts, chunks, faults and restarts leaves behind. A run goes through any number of lives of the
 process, each on the tables the one before it left.
 */
module PublisherRuns {
  import opened Options
  import opened Words
  import opened Posts
  import opened PostDb
  import opened Access
  import opened Publisher

  /** The membership of the posts service and of every single post alike. */
  const ANYBODY := Group("", "")

  /**
   A case of the main select; a chunk comes with the user its author ID is found to be. Restart begins a new
   life of the process, whether the last one has ended or is killed there.
   */
  datatype Input =
    | PostRecord(vocal: Vocal, faults: Faults)
    | ChunkRecord(chunk: Chunk, user: Option<User>, faults: Faults)
    | PostsClosed | MessagesClosed | PostsError | MessagesError
    | Restart

  /** `notified` are the posts handed to the notifier, `blocked` the users blocked for a bad chunk, in all lives. */
  datatype State = State(tables: Tables, notified: seq<Vocal>, blocked: seq<Word>, ended: bool)

  function AfterPost(s: State, vocal: Vocal, faults: Faults): State {
    var (tables, ok) := Attempt(s.tables, vocal, faults);
    s.(tables := tables,
       notified := if ok && vocal.messages == [] then s.notified + [vocal] else s.notified,
       ended := RollbackKills(s.tables, vocal, faults))
  }

  function AfterChunk(s: State, chunk: Chunk, user: Option<User>, faults: Faults): State {
    match Check(s.tables, chunk, user, ANYBODY, ANYBODY, faults.query)
    case Refused => s
    case RefusedAndBlocked(blocked) => s.(blocked := s.blocked + [blocked.id])
    case Passed =>
      var (tables, ok) := ChunkAttempt(s.tables, chunk, faults);
      s.(tables := tables, ended := !faults.begin && !ok && faults.rollback)
  }

  function Step(s: State, input: Input): State {
    if input.Restart? then s.(ended := false)
    else if s.ended then s
    else
      match input
      case PostRecord(vocal, faults) => AfterPost(s, vocal, faults)
      case ChunkRecord(chunk, user, faults) => AfterChunk(s, chunk, user, faults)
      case _ => s.(ended := true)
  }

  function Run(s: State, inputs: seq<Input>): State {
    if inputs == [] then s else Step(Run(s, inputs[..|inputs| - 1]), inputs[|inputs| - 1])
  }

  function Start(): State {
    State(Tables(map[], map[]), [], [], false)
  }

  /** The process: the main loop and what it owns. */
  class Process {
    const db: PgDb
    var notified: seq<Vocal>
    var blocked: seq<Word>
    var closed: bool

    constructor (db: PgDb)
      ensures this.db == db && notified == [] && blocked == [] && !closed
    {
      this.db := db;
      notified, blocked, closed := [], [], false;
    }

    ghost function Now(): State
      reads this, db
    {
      State(db.tables, notified, blocked, closed || db.fatal)
    }

    method HandlePost(vocal: Vocal, faults: Faults)
      requires Schema(db.tables) && !closed && !db.fatal
      modifies this, db
      ensures Now() == AfterPost(old(Now()), vocal, faults)
    {
      var error := StorePost(vocal, db, faults);
      if error.None? && |vocal.messages| == 0 {
        notified := notified + [vocal];
      }
    }

    method HandleChunk(chunk: Chunk, user: Option<User>, faults: Faults)
      requires !closed && !db.fatal
      modifies this, db
      ensures Now() == AfterChunk(old(Now()), chunk, user, faults)
      ensures notified == old(notified)
      ensures user.Some? && !IsAllowed(Group("", ""), user.value.rights) ==>
        blocked == old(blocked) + [user.value.id] && db.tables == old(db.tables)
      ensures user.None? || IsAllowed(Group("", ""), user.value.rights) ==> blocked == old(blocked)
    {
      var verdict := CheckMessage(db, chunk, user, ANYBODY, ANYBODY, faults.query);
      match verdict {
        case Refused =>
        case RefusedAndBlocked(refused) =>
          blocked := blocked + [refused.id];
        case Passed =>
          var error := StoreMessage(chunk, db, faults);
      }
    }

    /** Returns at the first closed or failing stream, or dies of a rollback that fails. */
    method MainLoop(inputs: seq<Input>)
      requires Schema(db.tables) && !closed && !db.fatal && Restart !in inputs
      modifies this, db
      ensures Now() == Run(old(Now()), inputs)
    {
      var i := 0;
      while i < |inputs| && !closed && !db.fatal
        invariant i <= |inputs|
        invariant Now() == Run(old(Now()), inputs[..i])
        invariant Schema(db.tables)
      {
        assert inputs[..i + 1][..i] == inputs[..i];
        assert inputs[i] in inputs;
        StepKeepsSchema(Now(), inputs[i]);
        match inputs[i] {
          case PostRecord(vocal, faults) => HandlePost(vocal, faults);
          case ChunkRecord(chunk, user, faults) => HandleChunk(chunk, user, faults);
          case _ => closed := true;
        }
        i := i + 1;
      }
      EndedStays(old(Now()), inputs, i);
    }
  }

  lemma {:induction false} EndedStays(s: State, inputs: seq<Input>, i: nat)
    requires i <= |inputs| && (i == |inputs| || Run(s, inputs[..i]).ended) && Restart !in inputs
    ensures Run(s, inputs) == Run(s, inputs[..i])
    decreases |inputs|
  {
    if i == |inputs| {
      assert inputs[..i] == inputs;
    } else {
      var front := inputs[..|inputs| - 1];
      assert front[..i] == inputs[..i];
      assert inputs[|inputs| - 1] in inputs;
      EndedStays(s, front, i);
    }
  }

  // ---------------------------------------------------------------- lives

  /** What a process sees of the state when it starts: the tables, and no history. */
  function Fresh(tables: Tables): State {
    State(tables, [], [], false)
  }

  lemma {:induction false} HistoryIsApart(s: State, inputs: seq<Input>)
    ensures var alone, whole := Run(s.(notified := [], blocked := []), inputs), Run(s, inputs);
            && whole.tables == alone.tables && whole.ended == alone.ended
            && whole.notified == s.notified + alone.notified && whole.blocked == s.blocked + alone.blocked
  {
    if inputs != [] {
      HistoryIsApart(s, inputs[..|inputs| - 1]);
    }
  }

  lemma {:induction false} RunInTwo(s: State, first: seq<Input>, second: seq<Input>)
    ensures Run(s, first + second) == Run(Run(s, first), second)
  {
    if second == [] {
      assert first + second == first;
    } else {
      assert (first + second)[..|first + second| - 1] == first + second[..|second| - 1];
      RunInTwo(s, first, second[..|second| - 1]);
    }
  }

  /**
   A run goes on with the next life as a new process that starts on the tables it finds, without a history,
   and runs its main loop; what it announces and whom it blocks comes after what was before.
   */
  lemma NextLife(s: State, before: seq<Input>, life: seq<Input>)
    ensures var left, alone := Run(s, before), Run(Fresh(Run(s, before).tables), life);
            Run(s, before + [Restart] + life)
            == State(alone.tables, left.notified + alone.notified, left.blocked + alone.blocked, alone.ended)
  {
    RunInTwo(s, before + [Restart], life);
    assert (before + [Restart])[..|before|] == before;
    HistoryIsApart(Run(s, before).(ended := false), life);
  }

  // ---------------------------------------------------------------- steps

  lemma AppendKeepsSchema(tables: Tables, key: Key, data: seq<Byte>)
    requires Schema(tables)
    ensures Schema(AppendToRow(tables, key, data))
  {
  }

  lemma StepKeepsSchema(s: State, input: Input)
    requires Schema(s.tables)
    ensures Schema(Step(s, input).tables)
  {
    match input
    case PostRecord(vocal, _) => if Storable(s.tables, vocal) { SchemaKept(s.tables, vocal); }
    case ChunkRecord(chunk, _, _) => AppendKeepsSchema(s.tables, Key(chunk.post, chunk.id), chunk.data);
    case _ =>
  }

  /** Whatever arrives next, accepted or rejected, a post that is held stays held. */
  lemma StepKeepsPosts(s: State, input: Input, vocal: Vocal)
    requires Holds(s.tables, vocal)
    ensures Holds(Step(s, input).tables, vocal)
  {
    match input
    case PostRecord(other, _) => if Storable(s.tables, other) { OthersHeld(s.tables, other, vocal); }
    case ChunkRecord(chunk, _, _) =>
      var after := AppendToRow(s.tables, Key(chunk.post, chunk.id), chunk.data);
      assert forall m :: InTables(after, vocal.id, m) <==> InTables(s.tables, vocal.id, m);
    case _ =>
  }

  /**
   Stability: once a post is stored, no later sequence of posts and chunks, accepted or rejected, changes
   the author or the set of messages a reader gets for it, whatever order the rows come in.
   */
  lemma {:induction false} StoredPostsAreStable(s: State, inputs: seq<Input>, vocal: Vocal, rows: seq<JoinRow>)
    requires Holds(s.tables, vocal)
    requires IsJoin(Run(s, inputs).tables, vocal.id, rows)
    ensures rows != [] && rows[0].author == vocal.author
    ensures forall m :: m in MessagesOf(rows) <==> m in vocal.messages
  {
    StaysHeld(s, inputs, vocal);
    HeldReadsBack(Run(s, inputs).tables, vocal, rows);
  }

  lemma {:induction false} StaysHeld(s: State, inputs: seq<Input>, vocal: Vocal)
    requires Holds(s.tables, vocal)
    ensures Holds(Run(s, inputs).tables, vocal)
  {
    if inputs != [] {
      StaysHeld(s, inputs[..|inputs| - 1], vocal);
      StepKeepsPosts(Run(s, inputs[..|inputs| - 1]), inputs[|inputs| - 1], vocal);
    }
  }

  // ---------------------------------------------------------------- announcements

  /** Each announced post is in the tables, has no messages, and was announced once. */
  ghost predicate Announced(s: State) {
    && Schema(s.tables)
    && (forall i, j | 0 <= i < j < |s.notified| :: s.notified[i].id != s.notified[j].id)
    && (forall i | 0 <= i < |s.notified| :: s.notified[i].messages == [] && Holds(s.tables, s.notified[i]))
  }

  lemma StepAnnounces(s: State, input: Input)
    requires Announced(s)
    ensures Announced(Step(s, input))
  {
    StepKeepsSchema(s, input);
    var t := Step(s, input);
    if t.notified != s.notified {
      StoredHolds(s.tables, input.vocal);
    }
    forall i | 0 <= i < |t.notified|
      ensures t.notified[i].messages == [] && Holds(t.tables, t.notified[i])
    {
      if i < |s.notified| {
        StepKeepsPosts(s, input, s.notified[i]);
      }
    }
  }

  /**
   Over any run, with any redelivery, faults and restarts, a post is announced at most once, only after its row
   is committed, and only when it declares no messages.
   */
  lemma {:induction false} AnnouncedOnce(inputs: seq<Input>)
    ensures Announced(Run(Start(), inputs))
  {
    if inputs != [] {
      AnnouncedOnce(inputs[..|inputs| - 1]);
      StepAnnounces(Run(Start(), inputs[..|inputs| - 1]), inputs[|inputs| - 1]);
    }
  }

  /** An announcement follows the commit it announces: before it, the post was not stored. */
  lemma AnnouncementFollowsCommit(inputs: seq<Input>, input: Input)
    requires Run(Start(), inputs + [input]).notified != Run(Start(), inputs).notified
    ensures input.PostRecord? && input.vocal.messages == []
    ensures input.vocal.id !in Run(Start(), inputs).tables.posts
    ensures Holds(Run(Start(), inputs + [input]).tables, input.vocal)
    ensures Run(Start(), inputs + [input]).notified == Run(Start(), inputs).notified + [input.vocal]
  {
    assert (inputs + [input])[..|inputs|] == inputs;
    AnnouncedOnce(inputs);
    StoredHolds(Run(Start(), inputs).tables, input.vocal);
  }

  // ---------------------------------------------------------------- who is blocked, and what ends a life

  /** A user whom the membership of the posts service does not allow, or that of a post that reads back. */
  predicate Offends(s: State, input: Input) {
    && input.ChunkRecord? && !s.ended && input.user.Some?
    && (|| !IsAllowed(Group("", ""), input.user.value.rights)
        || (!input.faults.query && Readable(s.tables, input.chunk.post)
            && !IsAllowed(Group("", ""), input.user.value.rights)))
  }

  /** The users of the offending chunks of a run, in order. */
  function Offenders(inputs: seq<Input>): seq<Word> {
    if inputs == [] then []
    else
      var front, last := inputs[..|inputs| - 1], inputs[|inputs| - 1];
      Offenders(front) + if Offends(Run(Start(), front), last) then [last.user.value.id] else []
  }

  /** Over any run and any lives exactly the users of offending chunks are blocked, once for each such chunk. */
  lemma {:induction false} BlockedExactly(inputs: seq<Input>)
    ensures Run(Start(), inputs).blocked == Offenders(inputs)
  {
    if inputs != [] {
      BlockedExactly(inputs[..|inputs| - 1]);
    }
  }

  /** Blocking somebody is all such a chunk does. */
  lemma BlockingIsAll(inputs: seq<Input>, input: Input)
    requires Offends(Run(Start(), inputs), input)
    ensures Run(Start(), inputs + [input])
         == Run(Start(), inputs).(blocked := Run(Start(), inputs).blocked + [input.user.value.id])
  {
    assert (inputs + [input])[..|inputs|] == inputs;
  }

  /** A chunk of a user with rights for a post that reads back. */
  predicate IsPassed(s: State, input: Input)
    requires input.ChunkRecord?
  {
    && input.user.Some? && IsAllowed(Group("", ""), input.user.value.rights)
    && !input.faults.query && Readable(s.tables, input.chunk.post)
  }

  /** The post was not there, now it is, and the commit said so. */
  predicate ReportsStored(s: State, input: Input, t: State)
    requires input.PostRecord?
  {
    input.vocal.id !in s.tables.posts && input.vocal.id in t.tables.posts && input.faults.commit.Commits?
  }

  /** A closed or failing stream ends the process, and so does a rollback that fails where something is to roll back. */
  predicate IsFatal(s: State, input: Input, t: State) {
    match input
    case PostsClosed => true
    case MessagesClosed => true
    case PostsError => true
    case MessagesError => true
    case PostRecord(_, faults) => !faults.begin && faults.rollback && !ReportsStored(s, input, t)
    case ChunkRecord(_, _, faults) =>
      IsPassed(s, input) && !faults.begin && faults.rollback
      && (0 in faults.insertMessages || !faults.commit.Commits?)
    case Restart => false
  }

  /** A process that lives ends exactly at such an input, and one that has ended lives again only by a restart. */
  lemma EndedExactlyWhen(inputs: seq<Input>, input: Input)
    ensures var s, t := Run(Start(), inputs), Run(Start(), inputs + [input]);
            t.ended <==> !input.Restart? && (s.ended || IsFatal(s, input, t))
  {
    assert (inputs + [input])[..|inputs|] == inputs;
  }

  /** An ended process does nothing at all. */
  lemma EndedDoesNothing(inputs: seq<Input>, input: Input)
    requires Run(Start(), inputs).ended && !input.Restart?
    ensures Run(Start(), inputs + [input]) == Run(Start(), inputs)
  {
    assert (inputs + [input])[..|inputs|] == inputs;
  }

  // ---------------------------------------------------------------- no chunk is ever stored

  /** In every reachable state all message data is NULL, so chunks change nothing at all. */
  lemma {:induction false} ChunksNeverStored(inputs: seq<Input>)
    ensures NoData(Run(Start(), inputs).tables)
  {
    if inputs != [] {
      var s := Run(Start(), inputs[..|inputs| - 1]);
      ChunksNeverStored(inputs[..|inputs| - 1]);
      match inputs[|inputs| - 1]
      case PostRecord(vocal, _) => NoDataInserted(s.tables.messages, vocal.id, vocal.messages);
      case ChunkRecord(chunk, _, faults) => ChunkLeavesNoTrace(s.tables, chunk, faults);
      case _ =>
    }
  }
}

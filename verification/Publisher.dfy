/**
 The publisher process (publisher/main.go): it stores the posts of one log in a transaction each, checks
 and appends the chunks of another, and announces posts that have nothing to wait for.
 */
module Publisher {
  import opened Options
  import opened Words
  import opened Posts
  import opened PostDb
  import opened Access

  /** What goes wrong on the connection while one record is processed; true and listed means it fails. */
  datatype Faults = Faults(
    begin: bool, insertPost: bool, insertMessages: set<nat>, commit: CommitFate, rollback: bool, query: bool)

  // ---------------------------------------------------------------- storing one post

  /** No statement before the commit fails on the connection. */
  predicate ReachesCommit(faults: Faults, n: nat) {
    !faults.begin && !faults.insertPost && forall i | i in faults.insertMessages :: n <= i
  }

  /** What the tables would never take, whatever they hold. */
  predicate Acceptable(vocal: Vocal) {
    && DistinctIds(vocal.messages)
    && forall i | 0 <= i < |vocal.messages| :: vocal.messages[i].kind <= MAX_SMALLINT
  }

  predicate Storable(tables: Tables, vocal: Vocal) {
    vocal.id !in tables.posts && Acceptable(vocal)
  }

  function RowOf(m: MessageData): MessageRow {
    MessageRow(m.kind, m.size, None)
  }

  function WithMessages(rows: map<Key, MessageRow>, post: Word, messages: seq<MessageData>): map<Key, MessageRow> {
    if messages == [] then rows
    else
      var last := messages[|messages| - 1];
      WithMessages(rows, post, messages[..|messages| - 1])[Key(last.id, post) := RowOf(last)]
  }

  function WithVocal(tables: Tables, vocal: Vocal): Tables {
    Tables(tables.posts[vocal.id := PostRow(vocal.author, vocal.location)],
           WithMessages(tables.messages, vocal.id, vocal.messages))
  }

  /** The tables after an attempt to store a post, and whether the attempt reports success. */
  function Attempt(tables: Tables, vocal: Vocal, faults: Faults): (Tables, bool) {
    if !Storable(tables, vocal) || !ReachesCommit(faults, |vocal.messages|) then (tables, false)
    else
      match faults.commit
      case Commits => (WithVocal(tables, vocal), true)
      case LosesAnswer => (WithVocal(tables, vocal), false)
      case Refuses => (tables, false)
  }

  /** The deferred rollback has something to undo, and cannot. */
  predicate RollbackKills(tables: Tables, vocal: Vocal, faults: Faults) {
    !faults.begin && !Attempt(tables, vocal, faults).1 && faults.rollback
  }

  lemma {:induction false} WithMessagesKeys(rows: map<Key, MessageRow>, post: Word, messages: seq<MessageData>)
    ensures forall key :: key in WithMessages(rows, post, messages)
              <==> key in rows || (key.post == post && exists i :: 0 <= i < |messages| && messages[i].id == key.id)
    ensures forall key | key in rows && key.post != post :: WithMessages(rows, post, messages)[key] == rows[key]
  {
    if messages != [] {
      WithMessagesKeys(rows, post, messages[..|messages| - 1]);
    }
  }

  lemma {:induction false} WithMessagesRows(rows: map<Key, MessageRow>, post: Word, messages: seq<MessageData>)
    requires DistinctIds(messages)
    ensures forall i | 0 <= i < |messages| ::
              Key(messages[i].id, post) in WithMessages(rows, post, messages)
              && WithMessages(rows, post, messages)[Key(messages[i].id, post)] == RowOf(messages[i])
  {
    WithMessagesKeys(rows, post, messages);
    if messages != [] {
      WithMessagesRows(rows, post, messages[..|messages| - 1]);
    }
  }

  lemma OneRowMore<K, V>(before: map<K, V>, after: map<K, V>, key: K)
    requires key in after && after.Keys - {key} == before.Keys
    requires forall k | k in before :: after[k] == before[k]
    ensures after == before[key := after[key]]
  {
    assert after.Keys == before.Keys + {key};
  }

  /** The insert loop of storePost, inside its transaction. */
  method InsertMessages(tx: DbTrans, vocal: Vocal, faults: Faults) returns (error: Option<DbError>)
    requires tx.tx.Some? && vocal.id in tx.tx.value.posts
    requires forall key | key in tx.tx.value.messages :: key.post != vocal.id
    modifies tx
    ensures error.None? <==> Acceptable(vocal) && forall i | i in faults.insertMessages :: |vocal.messages| <= i
    ensures tx.tx.Some?
    ensures error.None? ==>
      tx.tx.value == old(tx.tx.value).(
        messages := WithMessages(old(tx.tx.value).messages, vocal.id, vocal.messages))
  {
    ghost var before := tx.tx.value;
    error := None;
    for i := 0 to |vocal.messages|
      invariant error.None?
      invariant tx.tx == Some(before.(
        messages := WithMessages(before.messages, vocal.id, vocal.messages[..i])))
      invariant DistinctIds(vocal.messages[..i])
      invariant forall j | 0 <= j < i :: vocal.messages[j].kind <= MAX_SMALLINT && j !in faults.insertMessages
    {
      var m := vocal.messages[i];
      WithMessagesKeys(before.messages, vocal.id, vocal.messages[..i]);
      assert vocal.messages[..i + 1][..i] == vocal.messages[..i];
      error := tx.InsertMessage(m.id, vocal.id, m.kind, m.size, i in faults.insertMessages);
      if error.Some? {
        return;
      }
      OneRowMore(WithMessages(before.messages, vocal.id, vocal.messages[..i]), tx.tx.value.messages,
                 Key(m.id, vocal.id));
    }
    assert vocal.messages[..|vocal.messages|] == vocal.messages;
  }

  /**
   All or nothing: the tables end as they were or with the whole post, success is reported exactly when
   nothing stood in the way, and a rollback that fails is the end of the process.
   */
  method StorePost(vocal: Vocal, db: PgDb, faults: Faults) returns (error: Option<DbError>)
    requires Schema(db.tables)
    modifies db
    ensures (db.tables, error.None?) == Attempt(old(db.tables), vocal, faults)
    ensures db.fatal == (old(db.fatal) || RollbackKills(old(db.tables), vocal, faults))
    ensures db.tables == old(db.tables) || (vocal.id !in old(db.tables).posts && Holds(db.tables, vocal))
    ensures error.None? ==> faults.commit.Commits? && db.tables != old(db.tables)
    ensures db.tables != old(db.tables) && error.Some? ==> faults.commit.LosesAnswer?
    ensures db.fatal <==> old(db.fatal) || (!faults.begin && error.Some? && faults.rollback)
  {
    if Storable(db.tables, vocal) {
      StoredHolds(db.tables, vocal);
    }
    if faults.begin {
      return Some(ConnectionError);
    }
    var tx := new DbTrans.Begin(db);
    error := tx.InsertPost(vocal.id, vocal.author, vocal.location, faults.insertPost);
    if error.Some? {
      tx.Rollback(faults.rollback);
      return;
    }
    OneRowMore(db.tables.posts, tx.tx.value.posts, vocal.id);
    error := InsertMessages(tx, vocal, faults);
    if error.Some? {
      tx.Rollback(faults.rollback);
      return;
    }
    error := tx.Commit(faults.commit);
    tx.Rollback(faults.rollback);
  }

  // ---------------------------------------------------------------- what the tables then hold

  /** The tables hold this post: its row, and its messages and no others under its ID. */
  ghost predicate Holds(tables: Tables, vocal: Vocal) {
    && vocal.id in tables.posts
    && tables.posts[vocal.id] == PostRow(vocal.author, vocal.location)
    && forall m :: InTables(tables, vocal.id, m) <==> m in vocal.messages
  }

  lemma StoredHolds(tables: Tables, vocal: Vocal)
    requires Schema(tables) && Storable(tables, vocal)
    ensures Holds(WithVocal(tables, vocal), vocal)
  {
    var rows := WithMessages(tables.messages, vocal.id, vocal.messages);
    WithMessagesKeys(tables.messages, vocal.id, vocal.messages);
    WithMessagesRows(tables.messages, vocal.id, vocal.messages);
    forall m: MessageData
      ensures InTables(WithVocal(tables, vocal), vocal.id, m) <==> m in vocal.messages
    {
      if Key(m.id, vocal.id) in rows {
        assert Key(m.id, vocal.id) !in tables.messages;
        var i :| 0 <= i < |vocal.messages| && vocal.messages[i].id == m.id;
        assert rows[Key(m.id, vocal.id)] == RowOf(vocal.messages[i]);
      }
    }
  }

  lemma SchemaKept(tables: Tables, vocal: Vocal)
    requires Schema(tables) && Storable(tables, vocal)
    ensures Schema(WithVocal(tables, vocal))
  {
    WithMessagesKeys(tables.messages, vocal.id, vocal.messages);
    WithMessagesRows(tables.messages, vocal.id, vocal.messages);
    var after := WithVocal(tables, vocal);
    forall key | key in after.messages
      ensures key.post in after.posts && after.messages[key].kind <= MAX_SMALLINT
    {
      if key.post == vocal.id {
        assert key !in tables.messages;
        var i :| 0 <= i < |vocal.messages| && vocal.messages[i].id == key.id;
        assert after.messages[key] == RowOf(vocal.messages[i]);
      }
    }
  }

  lemma OthersHeld(tables: Tables, vocal: Vocal, other: Vocal)
    requires Storable(tables, vocal) && Holds(tables, other)
    ensures Holds(WithVocal(tables, vocal), other)
  {
    WithMessagesKeys(tables.messages, vocal.id, vocal.messages);
    var after := WithVocal(tables, vocal);
    forall m: MessageData
      ensures InTables(after, other.id, m) <==> m in other.messages
    {
      assert InTables(after, other.id, m) <==> InTables(tables, other.id, m);
    }
  }

  /** A post that is held reads back with its author and its messages, in whatever order rows come. */
  lemma HeldReadsBack(tables: Tables, vocal: Vocal, rows: seq<JoinRow>)
    requires Holds(tables, vocal) && IsJoin(tables, vocal.id, rows)
    ensures rows != [] && rows[0].author == vocal.author
    ensures DistinctIds(MessagesOf(rows))
    ensures forall m :: m in MessagesOf(rows) <==> m in vocal.messages
    ensures AllText(vocal.messages) ==> AllText(MessagesOf(rows))
  {
    JoinReadsTables(tables, vocal.id, rows);
    var read := MessagesOf(rows);
    forall m: MessageData
      ensures m in read <==> m in vocal.messages
    {
      assert m in read <==> InTables(tables, vocal.id, m);
    }
    forall i | AllText(vocal.messages) && 0 <= i < |read|
      ensures read[i].kind == TEXT
    {
      assert read[i] in vocal.messages;
    }
  }

  // ---------------------------------------------------------------- chunks

  datatype Chunk = Chunk(post: Word, id: Word, author: Word, data: seq<Byte>)

  datatype Verdict = Passed | Refused | RefusedAndBlocked(user: User)

  /** The post can be read back: it is there and all its kinds are known. */
  predicate Readable(tables: Tables, id: Word) {
    id in tables.posts && forall key | key in tables.messages && key.post == id :: tables.messages[key].kind == TEXT
  }

  /** checkMessage for the user its author ID was found to be; posts and post are memberships. */
  function Check(
    tables: Tables, chunk: Chunk, user: Option<User>, posts: Group, post: Group, fails: bool): Verdict
  {
    if user.None? then Refused
    else if !IsAllowed(posts, user.value.rights) then RefusedAndBlocked(user.value)
    else if fails || !Readable(tables, chunk.post) then Refused
    else if !IsAllowed(post, user.value.rights) then RefusedAndBlocked(user.value)
    else Passed
  }

  /**
   au10/query.go: a post reads back exactly when it is there and all text and reading it does not fail,
   whatever order rows come in.
   */
  method GetVocal(db: PgDb, id: Word, fails: bool) returns (vocal: Option<Vocal>)
    ensures vocal.Some? <==> !fails && Readable(db.tables, id)
    ensures vocal.Some? ==>
      && vocal.value.id == id
      && vocal.value.author == db.tables.posts[id].author
      && DistinctIds(vocal.value.messages)
      && forall m :: m in vocal.value.messages <==> InTables(db.tables, id, m)
  {
    var rows := Query(db, id, fails);
    if rows.Some? {
      JoinReadsTables(db.tables, id, rows.value);
    }
    var source := GetPost(id, rows);
    if source.None? {
      return None;
    }
    ReadableIfAllText(db.tables, source.value);
    var result := NewDbVocal(source.value);
    match result {
      case Err(_) =>
        return None;
      case Ok(found) =>
        return Some(found);
    }
  }

  /** A chunk passes with rights on both and a post to read; lack of rights blocks, a post not read does not. */
  method CheckMessage(
    db: PgDb, chunk: Chunk, user: Option<User>, posts: Group, post: Group, fails: bool)
    returns (verdict: Verdict)
    ensures verdict.Passed? <==>
      && user.Some? && IsAllowed(posts, user.value.rights)
      && !fails && Readable(db.tables, chunk.post) && IsAllowed(post, user.value.rights)
    ensures verdict.RefusedAndBlocked? <==>
      && user.Some?
      && (!IsAllowed(posts, user.value.rights)
          || (!fails && Readable(db.tables, chunk.post) && !IsAllowed(post, user.value.rights)))
    ensures verdict.RefusedAndBlocked? ==> user == Some(verdict.user)
  {
    if user.None? {
      return Refused;
    }
    if !IsAllowed(posts, user.value.rights) {
      return RefusedAndBlocked(user.value);
    }
    var vocal := GetVocal(db, chunk.post, fails);
    if vocal.None? {
      return Refused;
    }
    if !IsAllowed(post, user.value.rights) {
      return RefusedAndBlocked(user.value);
    }
    return Passed;
  }

  lemma ReadableIfAllText(tables: Tables, post: DbPost)
    requires Reads(tables, post)
    ensures AllText(post.messages) <==> Readable(tables, post.id)
  {
    if AllText(post.messages) {
      forall key | key in tables.messages && key.post == post.id
        ensures tables.messages[key].kind == TEXT
      {
        var m := MessageData(key.id, tables.messages[key].kind, tables.messages[key].size);
        assert InTables(tables, post.id, m);
        assert m in post.messages;
      }
    }
    if Readable(tables, post.id) {
      forall i | 0 <= i < |post.messages|
        ensures post.messages[i].kind == TEXT
      {
        assert post.messages[i] in post.messages;
        assert InTables(tables, post.id, post.messages[i]);
      }
    }
  }

  /** The statement gets the post's ID where it wants the message's, and the other way round. */
  function ChunkAttempt(tables: Tables, chunk: Chunk, faults: Faults): (Tables, bool) {
    if faults.begin || 0 in faults.insertMessages then (tables, false)
    else
      match faults.commit
      case Commits => (AppendToRow(tables, Key(chunk.post, chunk.id), chunk.data), true)
      case LosesAnswer => (AppendToRow(tables, Key(chunk.post, chunk.id), chunk.data), false)
      case Refuses => (tables, false)
  }

  method StoreMessage(chunk: Chunk, db: PgDb, faults: Faults) returns (error: Option<DbError>)
    modifies db
    ensures (db.tables, error.None?) == ChunkAttempt(old(db.tables), chunk, faults)
    ensures db.fatal == (old(db.fatal) || (!faults.begin && error.Some? && faults.rollback))
  {
    if faults.begin {
      return Some(ConnectionError);
    }
    var tx := new DbTrans.Begin(db);
    error := tx.AppendMessage(chunk.post, chunk.id, chunk.data, 0 in faults.insertMessages);
    if error.None? {
      assert tx.tx.value.messages == AppendToRow(db.tables, Key(chunk.post, chunk.id), chunk.data).messages;
      error := tx.Commit(faults.commit);
    }
    tx.Rollback(faults.rollback);
  }

  /** What a reader of the messages would expect of an accepted chunk. */
  ghost predicate AppendsToItsMessage(before: Tables, after: Tables, chunk: Chunk) {
    var key := Key(chunk.id, chunk.post);
    && key in before.messages && key in after.messages
    && after.messages[key].data
       == Some((if before.messages[key].data.Some? then before.messages[key].data.value else []) + chunk.data)
  }

  /**
   A non-empty chunk reaches its own message exactly when the two swapped IDs are equal and the message
   already has data: no other chunk, and no first chunk, is ever appended.
   */
  lemma ChunkStoredExactlyWhen(tables: Tables, chunk: Chunk, faults: Faults)
    requires ChunkAttempt(tables, chunk, faults).1 && chunk.data != []
    requires Key(chunk.id, chunk.post) in tables.messages
    ensures AppendsToItsMessage(tables, ChunkAttempt(tables, chunk, faults).0, chunk)
       <==> chunk.id == chunk.post && tables.messages[Key(chunk.id, chunk.post)].data.Some?
  {
    var key := Key(chunk.id, chunk.post);
    if tables.messages[key].data.Some? {
      assert |tables.messages[key].data.value + chunk.data| > |tables.messages[key].data.value|;
    }
  }

  /** Every message inserted so far still has NULL for data. */
  ghost predicate NoData(tables: Tables) {
    forall key | key in tables.messages :: tables.messages[key].data.None?
  }

  /** With all data NULL a chunk leaves the tables as they are. */
  lemma ChunkLeavesNoTrace(tables: Tables, chunk: Chunk, faults: Faults)
    requires NoData(tables)
    ensures ChunkAttempt(tables, chunk, faults).0 == tables
  {
    var key := Key(chunk.post, chunk.id);
    if key in tables.messages {
      assert tables.messages[key := tables.messages[key]] == tables.messages;
    }
  }

  lemma {:induction false} NoDataInserted(rows: map<Key, MessageRow>, post: Word, messages: seq<MessageData>)
    requires forall key | key in rows :: rows[key].data.None?
    ensures forall key | key in WithMessages(rows, post, messages) ::
              WithMessages(rows, post, messages)[key].data.None?
  {
    if messages != [] {
      NoDataInserted(rows, post, messages[..|messages| - 1]);
    }
  }
}

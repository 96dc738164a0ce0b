/**
 The post database (postdb/db.go over postdb/init.sql): two tables with their keys, transactions that work
 on a copy until they commit, and the loop that folds the rows of a left join back into one post.
 */
module PostDb {
  import opened Options
  import opened Words
  import opened Posts

  type Byte = x: int | 0 <= x < 256

  const MAX_SMALLINT := 32767

  datatype PostRow = PostRow(author: Word, location: GeoPoint)

  /** The primary key of table message. */
  datatype Key = Key(id: Word, post: Word)

  /** A NULL in column data is None. */
  datatype MessageRow = MessageRow(kind: Word, size: Word, data: Option<seq<Byte>>)

  datatype Tables = Tables(posts: map<Word, PostRow>, messages: map<Key, MessageRow>)

  /** What the schema enforces: the foreign key and the range of column kind. */
  ghost predicate Schema(tables: Tables) {
    forall key | key in tables.messages ::
      key.post in tables.posts && tables.messages[key].kind <= MAX_SMALLINT
  }

  datatype DbError = ConnectionError | DuplicateKey | MissingPost | KindOutOfRange | TxClosed

  // ---------------------------------------------------------------- statements

  /** SQL's data || $3: appending to NULL is NULL. Updating no row at all is not an error. */
  function AppendToRow(tables: Tables, key: Key, data: seq<Byte>): Tables {
    if key !in tables.messages then tables
    else
      var row := tables.messages[key];
      tables.(messages := tables.messages[
        key := row.(data := if row.data.Some? then Some(row.data.value + data) else None)])
  }

  // ---------------------------------------------------------------- connection and transaction

  /** How a commit ends; the answer can get lost after the server has made the changes durable. */
  datatype CommitFate = Commits | Refuses | LosesAnswer

  class PgDb {
    var tables: Tables
    var fatal: bool

    constructor (tables: Tables)
      ensures this.tables == tables && !fatal
    {
      this.tables, fatal := tables, false;
    }
  }

  class DbTrans {
    const db: PgDb
    var tx: Option<Tables>

    constructor Begin(db: PgDb)
      ensures this.db == db && tx == Some(db.tables)
    {
      this.db := db;
      tx := Some(db.tables);
    }

    /** A post gets its row, and no other row changes, unless the statement fails or the ID is taken. */
    method InsertPost(id: Word, author: Word, location: GeoPoint, fails: bool) returns (error: Option<DbError>)
      requires tx.Some?
      modifies this
      ensures tx.Some? && (error.Some? ==> tx == old(tx))
      ensures error == Some(ConnectionError) <==> fails
      ensures error == Some(DuplicateKey) <==> !fails && id in old(tx.value).posts
      ensures error.None? <==> !fails && id !in old(tx.value).posts
      ensures error.None? ==>
        && id in tx.value.posts && tx.value.posts[id] == PostRow(author, location)
        && tx.value.posts.Keys - {id} == old(tx.value).posts.Keys
        && (forall other | other in old(tx.value).posts :: tx.value.posts[other] == old(tx.value).posts[other])
        && tx.value.messages == old(tx.value).messages
      ensures Schema(old(tx.value)) ==> Schema(tx.value)
    {
      if fails {
        return Some(ConnectionError);
      }
      if id in tx.value.posts {
        return Some(DuplicateKey);
      }
      tx := Some(tx.value.(posts := tx.value.posts[id := PostRow(author, location)]));
      return None;
    }

    /** A message gets its row with NULL for data; otherwise the first violated constraint is named. */
    method InsertMessage(id: Word, post: Word, kind: Word, size: Word, fails: bool)
      returns (error: Option<DbError>)
      requires tx.Some?
      modifies this
      ensures tx.Some? && (error.Some? ==> tx == old(tx))
      ensures error == Some(ConnectionError) <==> fails
      ensures error == Some(KindOutOfRange) <==> !fails && kind > MAX_SMALLINT
      ensures error == Some(DuplicateKey) <==>
        !fails && kind <= MAX_SMALLINT && Key(id, post) in old(tx.value).messages
      ensures error.None? <==>
        !fails && kind <= MAX_SMALLINT && Key(id, post) !in old(tx.value).messages && post in old(tx.value).posts
      ensures error.None? ==>
        && Key(id, post) in tx.value.messages
        && tx.value.messages[Key(id, post)] == MessageRow(kind, size, None)
        && tx.value.messages.Keys - {Key(id, post)} == old(tx.value).messages.Keys
        && (forall key | key in old(tx.value).messages :: tx.value.messages[key] == old(tx.value).messages[key])
        && tx.value.posts == old(tx.value).posts
      ensures Schema(old(tx.value)) ==> Schema(tx.value)
    {
      if fails {
        return Some(ConnectionError);
      }
      if kind > MAX_SMALLINT {
        return Some(KindOutOfRange);
      }
      if Key(id, post) in tx.value.messages {
        return Some(DuplicateKey);
      }
      if post !in tx.value.posts {
        return Some(MissingPost);
      }
      tx := Some(tx.value.(messages := tx.value.messages[Key(id, post) := MessageRow(kind, size, None)]));
      return None;
    }

    /**
     The addressed row keeps its kind and size; its data grows by the chunk, but NULL stays NULL. All else
     stays as it is, and to address no row at all is not an error.
     */
    method AppendMessage(id: Word, post: Word, data: seq<Byte>, fails: bool) returns (error: Option<DbError>)
      requires tx.Some?
      modifies this
      ensures error == if fails then Some(ConnectionError) else None
      ensures tx.Some? && tx.value.posts == old(tx.value).posts
      ensures tx.value.messages.Keys == old(tx.value).messages.Keys
      ensures forall key | key in tx.value.messages ::
        var before, after := old(tx.value).messages[key], tx.value.messages[key];
        && after.kind == before.kind && after.size == before.size
        && (after.data.Some? <==> before.data.Some?)
        && (key != Key(id, post) || fails ==> after.data == before.data)
        && (key == Key(id, post) && !fails && before.data.Some? ==> after.data.value == before.data.value + data)
      ensures Schema(old(tx.value)) ==> Schema(tx.value)
    {
      if fails {
        return Some(ConnectionError);
      }
      tx := Some(AppendToRow(tx.value, Key(id, post), data));
      return None;
    }

    /** Only a commit that answers clears the transaction. */
    method Commit(fate: CommitFate) returns (error: Option<DbError>)
      modifies this, db
      ensures db.fatal == old(db.fatal)
      ensures error.None? <==> old(tx).Some? && fate.Commits?
      ensures db.tables == if old(tx).Some? && !fate.Refuses? then old(tx.value) else old(db.tables)
      ensures tx == if error.None? then None else old(tx)
    {
      if tx.None? {
        return Some(TxClosed);
      }
      if fate != Refuses {
        db.tables := tx.value;
      }
      if fate != Commits {
        return Some(ConnectionError);
      }
      tx := None;
      return None;
    }

    /** Nothing to do after a commit; otherwise the copy is dropped, and failing at that is fatal. */
    method Rollback(fails: bool)
      modifies db
      ensures db.tables == old(db.tables) && tx == old(tx)
      ensures db.fatal == (old(db.fatal) || (tx.Some? && fails))
    {
      if tx.None? {
        return;
      }
      if fails {
        db.fatal := true;
      }
    }
  }

  // ---------------------------------------------------------------- reading a post

  /** A row of post LEFT JOIN message; the message columns are all NULL together. */
  datatype JoinRow = JoinRow(author: Word, message: Option<MessageData>)

  predicate HasMessages(tables: Tables, id: Word) {
    exists key | key in tables.messages :: key.post == id
  }

  /** The messages of a post as the tables hold them. */
  ghost predicate InTables(tables: Tables, id: Word, m: MessageData) {
    && Key(m.id, id) in tables.messages
    && tables.messages[Key(m.id, id)].kind == m.kind
    && tables.messages[Key(m.id, id)].size == m.size
  }

  ghost predicate IsRowOf(tables: Tables, id: Word, row: JoinRow)
    requires id in tables.posts
  {
    row.author == tables.posts[id].author && row.message.Some? && InTables(tables, id, row.message.value)
  }

  ghost predicate HasRow(rows: seq<JoinRow>, id: Word) {
    exists i :: 0 <= i < |rows| && rows[i].message.Some? && rows[i].message.value.id == id
  }

  lemma OneMoreRow(rows: seq<JoinRow>, row: JoinRow)
    ensures forall id: Word ::
              HasRow(rows + [row], id) <==> HasRow(rows, id) || (row.message.Some? && row.message.value.id == id)
  {
    forall id: Word
      ensures HasRow(rows + [row], id) <==> HasRow(rows, id) || (row.message.Some? && row.message.value.id == id)
    {
      assert (rows + [row])[|rows|] == row;
      if i :| 0 <= i < |rows| && rows[i].message.Some? && rows[i].message.value.id == id {
        assert (rows + [row])[i] == rows[i];
      }
    }
  }

  /** The rows the query may return for a post: the join leaves their order open. */
  ghost predicate IsJoin(tables: Tables, id: Word, rows: seq<JoinRow>) {
    if id !in tables.posts then rows == []
    else if !HasMessages(tables, id) then rows == [JoinRow(tables.posts[id].author, None)]
    else
      && (forall i | 0 <= i < |rows| :: IsRowOf(tables, id, rows[i]))
      && (forall i, j | 0 <= i < j < |rows| :: rows[i].message != rows[j].message)
      && (forall key | key in tables.messages && key.post == id ::
            HasRow(rows, key.id))
  }

  /** The query itself, with the order of its rows left to whatever the set yields; None if it fails. */
  method Query(db: PgDb, id: Word, fails: bool) returns (result: Option<seq<JoinRow>>)
    ensures result.None? <==> fails
    ensures result.Some? ==> IsJoin(db.tables, id, result.value)
  {
    if fails {
      return None;
    }
    var tables := db.tables;
    if id !in tables.posts {
      return Some([]);
    }
    var author := tables.posts[id].author;
    var all := set key | key in tables.messages && key.post == id;
    if all == {} {
      assert forall key | key in tables.messages :: key.post == id ==> key in all;
      return Some([JoinRow(author, None)]);
    }
    var rest := all;
    var rows: seq<JoinRow> := [];
    while rest != {}
      invariant rest <= all
      invariant forall i | 0 <= i < |rows| :: IsRowOf(tables, id, rows[i])
      invariant forall i | 0 <= i < |rows| :: Key(rows[i].message.value.id, id) !in rest
      invariant forall i, j | 0 <= i < j < |rows| :: rows[i].message != rows[j].message
      invariant forall key | key in all && key !in rest :: HasRow(rows, key.id)
      decreases |rest|
    {
      var key :| key in rest;
      var row := tables.messages[key];
      var next := JoinRow(author, Some(MessageData(key.id, row.kind, row.size)));
      OneMoreRow(rows, next);
      rows := rows + [next];
      rest := rest - {key};
      hide HasRow;
    }
    assert forall key | key in tables.messages && key.post == id :: key in all;
    return Some(rows);
  }

  function MessagesOf(rows: seq<JoinRow>): seq<MessageData> {
    if rows == [] then []
    else
      var last := rows[|rows| - 1];
      MessagesOf(rows[..|rows| - 1]) + if last.message.Some? then [last.message.value] else []
  }

  /** The author of the first row and the messages of all rows that have one; no query or no rows, no post. */
  method GetPost(id: Word, result: Option<seq<JoinRow>>) returns (post: Option<DbPost>)
    ensures post.Some? <==> result.Some? && result.value != []
    ensures post.Some? ==> post.value == DbPost(id, result.value[0].author, MessagesOf(result.value))
  {
    if result.None? {
      return None;
    }
    var rows := result.value;
    var messages: seq<MessageData> := [];
    var author: Option<Word> := None;
    for i := 0 to |rows|
      invariant messages == MessagesOf(rows[..i])
      invariant author == if i == 0 then None else Some(rows[0].author)
    {
      assert rows[..i + 1][..i] == rows[..i];
      if author == None {
        author := Some(rows[i].author);
      }
      if rows[i].message.Some? {
        messages := messages + [rows[i].message.value];
      }
    }
    assert rows[..|rows|] == rows;
    if author == None {
      return None;
    }
    return Some(DbPost(id, author.value, messages));
  }

  /** What a reader gets is right whatever order the rows come in. */
  ghost predicate Reads(tables: Tables, post: DbPost) {
    && post.id in tables.posts
    && post.author == tables.posts[post.id].author
    && DistinctIds(post.messages)
    && (forall m :: m in post.messages <==> InTables(tables, post.id, m))
  }

  lemma {:induction false} MessagesOfAll(rows: seq<JoinRow>)
    requires forall i | 0 <= i < |rows| :: rows[i].message.Some?
    ensures |MessagesOf(rows)| == |rows|
    ensures forall i | 0 <= i < |rows| :: MessagesOf(rows)[i] == rows[i].message.value
  {
    if rows != [] {
      MessagesOfAll(rows[..|rows| - 1]);
    }
  }

  lemma JoinDistinct(tables: Tables, id: Word, rows: seq<JoinRow>)
    requires IsJoin(tables, id, rows) && id in tables.posts && HasMessages(tables, id)
    ensures DistinctIds(MessagesOf(rows))
  {
    MessagesOfAll(rows);
    forall i, j | 0 <= i < j < |rows|
      ensures rows[i].message.value.id != rows[j].message.value.id
    {
      assert rows[i].message != rows[j].message;
    }
  }

  lemma JoinMember(tables: Tables, id: Word, rows: seq<JoinRow>, m: MessageData)
    requires IsJoin(tables, id, rows) && id in tables.posts && HasMessages(tables, id)
    ensures m in MessagesOf(rows) <==> InTables(tables, id, m)
  {
    MessagesOfAll(rows);
    if InTables(tables, id, m) {
      var i :| 0 <= i < |rows| && rows[i].message.Some? && rows[i].message.value.id == m.id;
      assert MessagesOf(rows)[i] == m;
    }
  }

  lemma JoinWithMessages(tables: Tables, id: Word, rows: seq<JoinRow>)
    requires IsJoin(tables, id, rows) && id in tables.posts && HasMessages(tables, id)
    ensures rows != [] && Reads(tables, DbPost(id, rows[0].author, MessagesOf(rows)))
  {
    JoinDistinct(tables, id, rows);
    forall m: MessageData
      ensures m in MessagesOf(rows) <==> InTables(tables, id, m)
    {
      JoinMember(tables, id, rows, m);
    }
  }

  lemma JoinWithoutMessages(tables: Tables, id: Word, rows: seq<JoinRow>)
    requires IsJoin(tables, id, rows) && id in tables.posts && !HasMessages(tables, id)
    ensures rows != [] && Reads(tables, DbPost(id, rows[0].author, MessagesOf(rows)))
  {
    assert rows[..0] == [];
    forall m: MessageData
      ensures !InTables(tables, id, m)
    {
    }
  }

  /**
   The row loop over any order of the join finds exactly the stored posts, each with its author and its
   messages once each; the single null row of a post without messages gives it none.
   */
  lemma JoinReadsTables(tables: Tables, id: Word, rows: seq<JoinRow>)
    requires IsJoin(tables, id, rows)
    ensures rows != [] <==> id in tables.posts
    ensures rows != [] ==> Reads(tables, DbPost(id, rows[0].author, MessagesOf(rows)))
  {
    if id in tables.posts {
      if HasMessages(tables, id) {
        JoinWithMessages(tables, id, rows);
      } else {
        JoinWithoutMessages(tables, id, rows);
      }
    }
  }
}

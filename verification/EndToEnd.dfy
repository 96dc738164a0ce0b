/**
 From a client's request to the reader's answer: AddVocal of the access point (accesspoint/lib/client.go,
 au10/publisher.go), the log between the processes, the publisher's insert, and the query that reads the
 post back (au10/query.go).
 */
module EndToEnd {
  import opened Options
  import opened Words
  import opened Posts
  import opened PostDb
  import opened Access
  import opened Convertor
  import opened Publisher
  import opened PublisherRuns
  import opened Redelivery
  import Writer = StreamWriter

  // ---------------------------------------------------------------- the two ends

  datatype AddError =
    | NotConverted(convertError: ConvertError)
    | NotAllowed
    | NotPushed(result: Writer.Result)
    | NotShown

  /**
   Converts, asks for rights, pushes, and shows the vocal that the push result makes of the request. The
   declaration pushed, if it comes to that, is that of the request with its user for author.
   */
  method AddVocal(request: VocalAddRequest, user: User, publisher: Group, pushed: Writer.Result)
    returns (response: Result<ProtoVocal, AddError>, pushes: seq<VocalDeclaration>)
    ensures pushes == if AllProtoText(request.messages) && IsAllowed(publisher, user.rights)
                      then [VocalDeclaration(user.id, request.location, Declared(request.messages))] else []
    ensures pushes != [] ==> DeclarationOf(request, user.id) == Some(pushes[0])
    ensures response.Ok? <==>
              AllProtoText(request.messages) && IsAllowed(publisher, user.rights) && pushed.Pushed?
    ensures response.Ok? ==> response.value == ResponseTo(request, pushed.id)
    ensures response.Err? ==> !response.error.NotShown?
    ensures !AllProtoText(request.messages) ==> response.Err? && response.error.NotConverted?
    ensures AllProtoText(request.messages) && !IsAllowed(publisher, user.rights) ==> response == Err(NotAllowed)
    ensures AllProtoText(request.messages) && IsAllowed(publisher, user.rights) && !pushed.Pushed? ==>
              response == Err(NotPushed(pushed))
  {
    pushes := [];
    var messages, error := MessagesDeclarationFromProto(request.messages);
    if error.Some? {
      return Err(NotConverted(error.value)), pushes;
    }
    var declaration := VocalDeclaration(user.id, request.location, messages);
    if !IsAllowed(publisher, user.rights) {
      return Err(NotAllowed), pushes;
    }
    pushes := [declaration];
    if !pushed.Pushed? {
      return Err(NotPushed(pushed)), pushes;
    }
    var vocal := NewNewVocal(pushed.id, declaration);
    var shown, failed := VocalToProto(vocal);
    if failed.Some? {
      return Err(NotShown), pushes;
    }
    return Ok(shown), pushes;
  }

  function ResponseTo(request: VocalAddRequest, id: Word): ProtoVocal {
    ProtoVocal(IdToProto(id), request.location, Shown(Numbered(Declared(request.messages))))
  }

  datatype WriteError =
    | TooBig | Empty | NotPermitted
    | BadPostId(postError: ConvertError)
    | BadMessageId(idError: ConvertError)

  /** Everything but a lack of rights counts as a protocol mismatch, which blocks the user. */
  predicate Blocks(error: WriteError) {
    !error.NotPermitted?
  }

  /** The record WriteMessageChunk appends to the messages log, or why it does not. */
  method WriteMessageChunk(
    post: string, message: string, data: seq<Byte>, maxChunkSize: Word, user: User, publisher: Group)
    returns (record: Result<Chunk, WriteError>)
    ensures record.Ok? <==>
      && Truncate(|data|) <= maxChunkSize && data != [] && IsAllowed(publisher, user.rights)
      && IdFromProto(post, None).1.None? && IdFromProto(message, None).1.None?
    ensures record.Ok? ==>
      record.value == Chunk(IdFromProto(post, None).0, IdFromProto(message, None).0, user.id, data)
    ensures record == Err(TooBig) <==> Truncate(|data|) > maxChunkSize
    ensures record == Err(Empty) <==> data == []
    ensures record.Err? && !Blocks(record.error) <==>
      Truncate(|data|) <= maxChunkSize && data != [] && !IsAllowed(publisher, user.rights)
    ensures record.Err? && record.error.BadPostId? ==> IdFromProto(post, None).1 == Some(record.error.postError)
    ensures record.Err? && record.error.BadMessageId? ==>
      IdFromProto(post, None).1.None? && IdFromProto(message, None).1 == Some(record.error.idError)
  {
    if Truncate(|data|) > maxChunkSize {
      return Err(TooBig);
    }
    if |data| == 0 {
      return Err(Empty);
    }
    if !IsAllowed(publisher, user.rights) {
      return Err(NotPermitted);
    }
    var (postId, postError) := IdFromProto(post, None);
    if postError.Some? {
      return Err(BadPostId(postError.value));
    }
    var (id, idError) := IdFromProto(message, None);
    if idError.Some? {
      return Err(BadMessageId(idError.value));
    }
    return Ok(Chunk(postId, id, user.id, data));
  }

  // ---------------------------------------------------------------- one log between two processes

  /**
   With pushes that do not overlap, the vocal the access point builds from a push result is the one the
   publisher builds from the entry of that very push, ID, author, location and messages alike.
   */
  lemma ClientAndPublisherAgree(actions: seq<Writer.Action>, k: nat)
    requires Writer.Runs(Writer.Init(), actions) && Writer.NeverOverlaps(Writer.Init(), actions)
    requires Writer.Succeeded(Writer.Exec(Writer.Init(), actions), k)
    ensures var s := Writer.Exec(Writer.Init(), actions);
            exists offset: nat ::
              && offset < |s.log| && s.log[offset] == s.calls[k].payload
              && Writer.Stored(k, offset) in s.outcomes
              && Entry(s.log, offset) == VocalOf(s.calls[k].pc.result.id, s.calls[k].payload)
  {
    Writer.OwnOutcome(actions, k);
    var s := Writer.Exec(Writer.Init(), actions);
    assert Writer.OwnPlace(s, k);
    var offset: nat :| Writer.Stored(k, offset) in s.outcomes && offset < |s.log|
                       && s.log[offset] == s.calls[k].payload && s.calls[k].pc.result.id == Truncate(offset);
    assert Entry(s.log, offset) == VocalOf(s.calls[k].pc.result.id, s.calls[k].payload);
  }

  // ---------------------------------------------------------------- the response names the stored rows

  /** The ID strings of a response are those of the post's rows: all of them and no others. */
  ghost predicate NamesRows(response: ProtoVocal, tables: Tables, id: Word) {
    && IdFromProto(response.id, None) == (id, None)
    && (forall i | 0 <= i < |response.messages| ::
          var (mid, error) := IdFromProto(response.messages[i].id, None);
          error.None? && Key(mid, id) in tables.messages
          && tables.messages[Key(mid, id)] == MessageRow(TEXT, response.messages[i].size, None))
    && (forall key | key in tables.messages && key.post == id ::
          exists i :: 0 <= i < |response.messages| && IdFromProto(response.messages[i].id, None) == (key.id, None))
  }

  lemma RowsUnderNumbers(messages: seq<MessageDeclaration>, id: Word, tables: Tables)
    requires |messages| <= TWO_32 && Schema(tables) && id !in tables.posts
    ensures var rows, numbered := WithMessages(tables.messages, id, Numbered(messages)), Numbered(messages);
            && DistinctIds(numbered)
            && (forall i | 0 <= i < |numbered| ::
                  && Key(numbered[i].id, id) in rows
                  && rows[Key(numbered[i].id, id)] == RowOf(numbered[i]))
            && (forall key | key in rows && key.post == id ::
                  exists i :: 0 <= i < |numbered| && numbered[i].id == key.id)
  {
    NumberedDistinct(messages);
    WithMessagesKeys(tables.messages, id, Numbered(messages));
    WithMessagesRows(tables.messages, id, Numbered(messages));
  }

  lemma ShownIdsParse(messages: seq<MessageData>)
    ensures forall i | 0 <= i < |messages| ::
              IdFromProto(Shown(messages)[i].id, None) == (messages[i].id, None)
  {
    forall i | 0 <= i < |messages|
      ensures IdFromProto(Shown(messages)[i].id, None) == (messages[i].id, None)
    {
      IdRoundTrip(messages[i].id);
    }
  }

  lemma TextIsStored(decl: VocalDeclaration, id: Word, tables: Tables)
    requires forall i | 0 <= i < |decl.messages| :: decl.messages[i].kind == TEXT
    requires |decl.messages| <= TWO_32 && id !in tables.posts
    ensures Attempt(tables, VocalOf(id, decl), CLEAR) == (WithVocal(tables, VocalOf(id, decl)), true)
  {
    NumberedDistinct(decl.messages);
  }

  lemma ResponseNamesRows(request: VocalAddRequest, id: Word, tables: Tables, after: Tables)
    requires |request.messages| <= TWO_32 && Schema(tables) && id !in tables.posts
    requires after.messages == WithMessages(tables.messages, id, Numbered(Declared(request.messages)))
    ensures NamesRows(ResponseTo(request, id), after, id)
  {
    var declared := Declared(request.messages);
    RowsUnderNumbers(declared, id, tables);
    ShownIdsParse(Numbered(declared));
    IdRoundTrip(id);
    hide IdFromProto, IdToProto, WithMessages, DistinctIds;
  }

  lemma StoredUnderResponseIds(request: VocalAddRequest, author: Word, id: Word, tables: Tables)
    requires AllProtoText(request.messages) && |request.messages| <= TWO_32
    requires Schema(tables) && id !in tables.posts
    ensures var vocal := VocalOf(id, DeclarationOf(request, author).value);
            && Attempt(tables, vocal, CLEAR) == (WithVocal(tables, vocal), true)
            && WithVocal(tables, vocal).posts[id] == PostRow(author, request.location)
            && NamesRows(ResponseTo(request, id), WithVocal(tables, vocal), id)
  {
    var decl := DeclarationOf(request, author).value;
    TextIsStored(decl, id, tables);
    ResponseNamesRows(request, id, tables, WithVocal(tables, VocalOf(id, decl)));
    hide NamesRows, Attempt, ResponseTo;
  }

  // ---------------------------------------------------------------- through the publisher's runs

  /** What the tables hold of a vocal is what the response to its request says, ID by ID. */
  lemma HeldNamesRows(request: VocalAddRequest, author: Word, id: Word, tables: Tables)
    requires AllProtoText(request.messages) && |request.messages| <= TWO_32 && NoData(tables)
    requires Holds(tables, VocalOf(id, DeclarationOf(request, author).value))
    ensures NamesRows(ResponseTo(request, id), tables, id)
  {
    var messages := Numbered(Declared(request.messages));
    ShownIdsParse(messages);
    IdRoundTrip(id);
    hide IdFromProto, IdToProto;
    forall i | 0 <= i < |messages|
      ensures Key(messages[i].id, id) in tables.messages
      ensures tables.messages[Key(messages[i].id, id)] == MessageRow(TEXT, messages[i].size, None)
    {
      assert messages[i] in messages;
      assert InTables(tables, id, messages[i]);
    }
    forall key | key in tables.messages && key.post == id
      ensures exists i :: 0 <= i < |messages| && messages[i].id == key.id
    {
      var m := MessageData(key.id, tables.messages[key].kind, tables.messages[key].size);
      assert key == Key(m.id, id) && InTables(tables, id, m);
      assert m in messages;
    }
    NamedRows(ResponseTo(request, id), messages, tables, id);
  }

  lemma NamedRows(response: ProtoVocal, messages: seq<MessageData>, tables: Tables, id: Word)
    requires IdFromProto(response.id, None) == (id, None)
    requires |response.messages| == |messages|
    requires forall i | 0 <= i < |messages| ::
               && IdFromProto(response.messages[i].id, None) == (messages[i].id, None)
               && response.messages[i].size == messages[i].size
    requires forall i | 0 <= i < |messages| ::
               && Key(messages[i].id, id) in tables.messages
               && tables.messages[Key(messages[i].id, id)] == MessageRow(TEXT, messages[i].size, None)
    requires forall key | key in tables.messages && key.post == id ::
               exists i :: 0 <= i < |messages| && messages[i].id == key.id
    ensures NamesRows(response, tables, id)
  {
    hide IdFromProto;
  }

  /** Storable at all: a uint32 has to number the messages. */
  lemma TextIsAcceptable(request: VocalAddRequest, author: Word, id: Word)
    requires AllProtoText(request.messages)
    ensures Acceptable(VocalOf(id, DeclarationOf(request, author).value)) <==> |request.messages| <= TWO_32
  {
    NumberedDistinct(Declared(request.messages));
    hide DistinctIds;
  }

  /** The tables have the post of a request, under the IDs its response gave, for whoever reads it. */
  ghost predicate ArrivedAsTold(request: VocalAddRequest, author: Word, id: Word, tables: Tables) {
    && id in tables.posts && tables.posts[id] == PostRow(author, request.location)
    && NamesRows(ResponseTo(request, id), tables, id)
    && Readable(tables, id)
    && forall rows: seq<JoinRow> | IsJoin(tables, id, rows) ::
         && rows != [] && rows[0].author == author
         && (forall m: MessageData :: m in MessagesOf(rows) <==> m in Numbered(Declared(request.messages)))
  }

  lemma HeldArrived(request: VocalAddRequest, author: Word, id: Word, tables: Tables)
    requires AllProtoText(request.messages) && |request.messages| <= TWO_32 && NoData(tables)
    requires Holds(tables, VocalOf(id, DeclarationOf(request, author).value))
    ensures ArrivedAsTold(request, author, id, tables)
  {
    var vocal := VocalOf(id, DeclarationOf(request, author).value);
    HeldNamesRows(request, author, id, tables);
    HeldIsReadable(tables, vocal);
    forall rows: seq<JoinRow> | IsJoin(tables, id, rows)
      ensures rows != [] && rows[0].author == author
      ensures forall m: MessageData :: m in MessagesOf(rows) <==> m in Numbered(Declared(request.messages))
    {
      HeldReadsBack(tables, vocal, rows);
    }
    hide Holds, NamesRows, IsJoin, MessagesOf, Readable;
  }

  /**
   End to end. A request is pushed without overlap; the publisher then works through the log in any run,
   with any redelivery, faults, chunks and restarts. The post is in the tables exactly when a uint32 can number its
   messages and some attempt at this very entry became durable; and then author, location and the
   decimal IDs of the response are those of its rows, and every reader gets the declared messages.
   */
  lemma RequestToTables(
    actions: seq<Writer.Action>, k: nat, request: VocalAddRequest, author: Word, inputs: seq<Input>)
    requires Writer.Runs(Writer.Init(), actions) && Writer.NeverOverlaps(Writer.Init(), actions)
    requires Writer.Succeeded(Writer.Exec(Writer.Init(), actions), k)
    requires DeclarationOf(request, author) == Some(Writer.Exec(Writer.Init(), actions).calls[k].payload)
    requires |Writer.Exec(Writer.Init(), actions).log| <= TWO_32
    requires FromLog(Writer.Exec(Writer.Init(), actions).log, inputs) && Live(inputs)
    ensures var s := Writer.Exec(Writer.Init(), actions);
            var id, tables := s.calls[k].pc.result.id, Run(Start(), inputs).tables;
            && id < |s.log| && Writer.Stored(k, id) in s.outcomes
            && (id in tables.posts <==> |request.messages| <= TWO_32 && DurablyTried(s.log, inputs, id))
            && (id in tables.posts ==> ArrivedAsTold(request, author, id, tables))
  {
    ClientAndPublisherAgree(actions, k);
    var s := Writer.Exec(Writer.Init(), actions);
    var id, tables := s.calls[k].pc.result.id, Run(Start(), inputs).tables;
    var offset: nat :| offset < |s.log| && s.log[offset] == s.calls[k].payload
                       && Writer.Stored(k, offset) in s.outcomes
                       && Entry(s.log, offset) == VocalOf(id, s.calls[k].payload);
    EntriesApart(s.log, offset, offset);
    StoredExactlyWhenTried(s.log, inputs);
    ChunksNeverStored(inputs);
    assert OffsetAgrees(s.log, tables, inputs, id);
    TextIsAcceptable(request, author, id);
    hide Run, Writer.Exec, Writer.Runs, Writer.NeverOverlaps, Acceptable, ArrivedAsTold, Holds, DurablyTried;
    if id in tables.posts {
      HeldArrived(request, author, id, tables);
    }
  }

  // ---------------------------------------------------------------- chunks of a stored message

  /**
   A chunk written under the IDs of the response by a user with rights passes every check of the publisher,
   unless reading the post fails, and is still lost: in a reachable state it changes nothing.
   */
  lemma ChunkPassesAndIsLost(
    inputs: seq<Input>, vocal: Vocal, i: nat, user: User, data: seq<Byte>, faults: Faults)
    requires Holds(Run(Start(), inputs).tables, vocal) && AllText(vocal.messages) && i < |vocal.messages|
    requires IsAllowed(ANYBODY, user.rights)
    ensures var tables := Run(Start(), inputs).tables;
            var shown := Shown(vocal.messages)[i];
            var chunk := Chunk(IdFromProto(IdToProto(vocal.id), None).0, IdFromProto(shown.id, None).0, user.id, data);
            && Key(chunk.id, chunk.post) in tables.messages
            && (Check(tables, chunk, Some(user), ANYBODY, ANYBODY, faults.query).Passed? <==> !faults.query)
            && ChunkAttempt(tables, chunk, faults).0 == tables
  {
    var tables := Run(Start(), inputs).tables;
    var m := vocal.messages[i];
    IdRoundTrip(vocal.id);
    IdRoundTrip(m.id);
    ChunksNeverStored(inputs);
    ChunkLeavesNoTrace(tables, Chunk(vocal.id, m.id, user.id, data), faults);
    assert m in vocal.messages && InTables(tables, vocal.id, m);
    HeldIsReadable(tables, vocal);
    hide Run, Start, Holds, IdFromProto, IdToProto;
  }

  lemma HeldIsReadable(tables: Tables, vocal: Vocal)
    requires Holds(tables, vocal) && AllText(vocal.messages)
    ensures Readable(tables, vocal.id)
  {
    forall key | key in tables.messages && key.post == vocal.id
      ensures tables.messages[key].kind == TEXT
    {
      var m := MessageData(key.id, tables.messages[key].kind, tables.messages[key].size);
      assert key == Key(m.id, vocal.id) && InTables(tables, vocal.id, m);
      assert m in vocal.messages;
    }
  }
}

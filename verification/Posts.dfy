/**
 Posts as the service passes them around (au10/post.go, au10/message.go), without their timestamps: the
 declaration a client makes, the vocal built from it under the ID its log offset gave it, and the vocal
 built from a database record.
 */
module Posts {
  import opened Options
  import opened Words

  const TEXT: Word := 0

  datatype GeoPoint = GeoPoint(latitude: real, longitude: real)

  datatype MessageDeclaration = MessageDeclaration(kind: Word, size: Word)

  datatype VocalDeclaration = VocalDeclaration(
    author: Word, location: GeoPoint, messages: seq<MessageDeclaration>)

  datatype MessageData = MessageData(id: Word, kind: Word, size: Word)

  datatype Vocal = Vocal(id: Word, author: Word, location: GeoPoint, messages: seq<MessageData>)

  /** A database record; it carries no location. */
  datatype DbPost = DbPost(id: Word, author: Word, messages: seq<MessageData>)

  datatype UnknownKind = UnknownKind(kind: Word)

  /** The i-th declared message gets the ID i, truncated like every conversion to uint32. */
  function Numbered(messages: seq<MessageDeclaration>): (r: seq<MessageData>)
    ensures |r| == |messages|
    ensures forall i | 0 <= i < |r| :: r[i] == MessageData(Truncate(i), messages[i].kind, messages[i].size)
  {
    seq(|messages|, i requires 0 <= i < |messages| =>
      MessageData(Truncate(i), messages[i].kind, messages[i].size))
  }

  function VocalOf(id: Word, decl: VocalDeclaration): Vocal {
    Vocal(id, decl.author, decl.location, Numbered(decl.messages))
  }

  method NewNewVocal(id: Word, decl: VocalDeclaration) returns (vocal: Vocal)
    ensures vocal == VocalOf(id, decl)
    ensures vocal.id == id && vocal.author == decl.author && vocal.location == decl.location
    ensures |vocal.messages| == |decl.messages|
    ensures forall i | 0 <= i < |vocal.messages| ::
      vocal.messages[i] == MessageData(Truncate(i), decl.messages[i].kind, decl.messages[i].size)
  {
    var n := |decl.messages|;
    var messages := new MessageData[n];
    for i := 0 to n
      invariant messages[..i] == Numbered(decl.messages)[..i]
    {
      messages[i] := MessageData(Truncate(i), decl.messages[i].kind, decl.messages[i].size);
    }
    vocal := Vocal(id, decl.author, decl.location, messages[..]);
  }

  /** Message IDs are distinct exactly when there are no more of them than a uint32 can tell apart. */
  lemma NumberedDistinct(messages: seq<MessageDeclaration>)
    ensures DistinctIds(Numbered(messages)) <==> |messages| <= TWO_32
  {
    var numbered := Numbered(messages);
    if |messages| <= TWO_32 {
      forall i, j | 0 <= i < j < |numbered|
        ensures numbered[i].id != numbered[j].id
      {
        assert numbered[i].id == i && numbered[j].id == j;
      }
    } else {
      assert numbered[0].id == numbered[TWO_32].id;
    }
  }

  predicate DistinctIds(messages: seq<MessageData>) {
    forall i, j | 0 <= i < j < |messages| :: messages[i].id != messages[j].id
  }

  predicate AllText(messages: seq<MessageData>) {
    forall i | 0 <= i < |messages| :: messages[i].kind == TEXT
  }

  /** Reading a record back: the location is lost, and one unknown kind spoils the whole post. */
  method NewDbVocal(source: DbPost) returns (result: Result<Vocal, UnknownKind>)
    ensures result.Ok? <==> AllText(source.messages)
    ensures result.Ok? ==>
      result.value == Vocal(source.id, source.author, GeoPoint(0.0, 0.0), source.messages)
    ensures result.Err? ==>
      exists i :: 0 <= i < |source.messages| && AllText(source.messages[..i])
               && source.messages[i].kind == result.error.kind != TEXT
  {
    var n := |source.messages|;
    var messages := new MessageData[n];
    for i := 0 to n
      invariant messages[..i] == source.messages[..i]
      invariant AllText(source.messages[..i])
    {
      if source.messages[i].kind != TEXT {
        return Err(UnknownKind(source.messages[i].kind));
      }
      messages[i] := source.messages[i];
    }
    assert source.messages[..n] == source.messages;
    return Ok(Vocal(source.id, source.author, GeoPoint(0.0, 0.0), messages[..]));
  }
}

/**
 Between protocol messages and the service's own (accesspoint/lib/convertor.go): decimal IDs, message
 kinds and message lists, with the error out-parameter that keeps the first error.
 */
module Convertor {
  import opened Options
  import opened Words
  import opened Posts

  // ---------------------------------------------------------------- decimal IDs

  predicate IsDigit(c: char) {
    '0' <= c <= '9'
  }

  function DigitOf(n: nat): char
    requires n < 10
  {
    '0' + n as char
  }

  function ValueOf(c: char): nat
    requires IsDigit(c)
  {
    (c - '0') as nat
  }

  /** strconv.FormatUint with base ten. */
  function FormatUint(n: nat): string {
    if n < 10 then [DigitOf(n)] else FormatUint(n / 10) + [DigitOf(n % 10)]
  }

  predicate AllDigits(s: string) {
    forall i | 0 <= i < |s| :: IsDigit(s[i])
  }

  function DecimalValue(s: string): nat
    requires AllDigits(s)
  {
    if s == [] then 0 else 10 * DecimalValue(s[..|s| - 1]) + ValueOf(s[|s| - 1])
  }

  datatype ConvertError = InvalidSyntax | OutOfRange | UnknownProtoKind(kind: int) | UnknownPostKind(postKind: Word)

  /** The scan of strconv.ParseUint: digit by digit, ending at the first that is none or that overflows. */
  function Scan(s: string, i: nat, n: Word): (Word, Option<ConvertError>)
    requires i <= |s|
    decreases |s| - i
  {
    if i == |s| then (n, None)
    else if !IsDigit(s[i]) then (0, Some(InvalidSyntax))
    else if 10 * n + ValueOf(s[i]) >= TWO_32 then (ALL_ONES, Some(OutOfRange))
    else Scan(s, i + 1, 10 * n + ValueOf(s[i]))
  }

  /** strconv.ParseUint with base ten and 32 bits: what it returns beside its error is not always zero. */
  function ParseUint32(s: string): (Word, Option<ConvertError>) {
    if s == [] then (0, Some(InvalidSyntax)) else Scan(s, 0, 0)
  }

  function IdFromProto(source: string, error: Option<ConvertError>): (Word, Option<ConvertError>) {
    var (id, e) := ParseUint32(source);
    (id, if error.None? then e else error)
  }

  function IdToProto(id: Word): string {
    FormatUint(id)
  }

  lemma {:induction false} FormatIsDecimal(n: nat)
    ensures FormatUint(n) != [] && AllDigits(FormatUint(n)) && DecimalValue(FormatUint(n)) == n
    ensures FormatUint(n)[0] == '0' <==> n == 0
  {
    if n < 10 {
      assert [DigitOf(n)][..0] == [];
    } else {
      FormatIsDecimal(n / 10);
      assert FormatUint(n)[..|FormatUint(n)| - 1] == FormatUint(n / 10);
    }
  }

  /** Some leading digits are already too large a number, whatever follows them. */
  ghost predicate Overflows(s: string) {
    exists n :: 0 <= n <= |s| && AllDigits(s[..n]) && DecimalValue(s[..n]) >= TWO_32
  }

  lemma PrefixSnoc(s: string, i: nat)
    requires i < |s| && AllDigits(s[..i]) && IsDigit(s[i])
    ensures AllDigits(s[..i + 1]) && DecimalValue(s[..i + 1]) == 10 * DecimalValue(s[..i]) + ValueOf(s[i])
  {
    assert s[..i + 1][..i] == s[..i];
  }

  lemma {:induction false} LongerIsGreater(s: string, i: nat, j: nat)
    requires i <= j <= |s| && AllDigits(s[..j])
    ensures AllDigits(s[..i]) && DecimalValue(s[..i]) <= DecimalValue(s[..j])
    decreases j - i
  {
    assert forall k | 0 <= k < i :: s[..i][k] == s[..j][k];
    if i < j {
      assert s[..j][i] == s[i];
      PrefixSnoc(s, i);
      LongerIsGreater(s, i + 1, j);
    }
  }

  lemma {:induction false} ScanMeans(s: string, i: nat, n: Word)
    requires i <= |s| && AllDigits(s[..i]) && DecimalValue(s[..i]) == n
    ensures var (value, error) := Scan(s, i, n);
            && (error.None? <==> AllDigits(s) && DecimalValue(s) < TWO_32)
            && (error.None? ==> value == DecimalValue(s))
            && (error == Some(OutOfRange) <==> Overflows(s))
            && (error.None? || error == Some(OutOfRange) || error == Some(InvalidSyntax))
            && (error.Some? ==> value == if error == Some(OutOfRange) then ALL_ONES else 0)
    decreases |s| - i
  {
    if i == |s| {
      assert s[..i] == s;
      NoPrefixOverflows(s, i);
    } else if !IsDigit(s[i]) {
      NoPrefixOverflows(s, i);
    } else {
      PrefixSnoc(s, i);
      if 10 * n + ValueOf(s[i]) < TWO_32 {
        ScanMeans(s, i + 1, 10 * n + ValueOf(s[i]));
      } else if AllDigits(s) {
        assert s[..|s|] == s;
        LongerIsGreater(s, i + 1, |s|);
      }
    }
  }

  lemma DigitWithin(s: string, n: nat, i: nat)
    requires n <= |s| && AllDigits(s[..n])
    ensures i < n ==> IsDigit(s[i])
  {
    assert i < n ==> s[..n][i] == s[i];
  }

  lemma NoPrefixOverflows(s: string, i: nat)
    requires i <= |s| && AllDigits(s[..i]) && DecimalValue(s[..i]) < TWO_32
    requires i < |s| ==> !IsDigit(s[i])
    ensures !Overflows(s)
  {
    forall n | 0 <= n <= |s| && AllDigits(s[..n])
      ensures DecimalValue(s[..n]) < TWO_32
    {
      DigitWithin(s, n, i);
      LongerIsGreater(s, n, i);
    }
  }

  /** Every ID survives the trip to the client and back. */
  lemma IdRoundTrip(id: Word)
    ensures IdFromProto(IdToProto(id), None) == (id, None)
  {
    FormatIsDecimal(id);
    ScanMeans(IdToProto(id), 0, 0);
  }

  lemma {:induction false} LeadingDigit(s: string)
    requires s != [] && AllDigits(s) && s[0] != '0'
    ensures 0 < DecimalValue(s)
  {
    if |s| > 1 {
      LeadingDigit(s[..|s| - 1]);
    } else {
      assert s[..0] == [];
    }
  }

  /** The one decimal text of a number that has no superfluous leading zero. */
  lemma {:induction false} DecimalIsFormat(s: string)
    requires s != [] && AllDigits(s) && (|s| == 1 || s[0] != '0')
    ensures FormatUint(DecimalValue(s)) == s
  {
    var n := |s| - 1;
    if n == 0 {
      assert s[..0] == [] && s == [s[0]];
    } else {
      LeadingDigit(s[..n]);
      DecimalIsFormat(s[..n]);
      assert s == s[..n] + [s[n]];
    }
  }

  /**
   A text is accepted exactly when it is a decimal number below two to the 32; it is out of range exactly
   when some of its leading digits are, even if no digit follows them.
   */
  lemma AcceptedIds(s: string)
    ensures IdFromProto(s, None).1.None? <==> s != [] && AllDigits(s) && DecimalValue(s) < TWO_32
    ensures IdFromProto(s, None).1 == Some(OutOfRange) <==> Overflows(s)
    ensures IdFromProto(s, None).1.None? ==> IdFromProto(s, None).0 == DecimalValue(s)
    ensures IdFromProto(s, None).1.None? ==>
              (IdToProto(IdFromProto(s, None).0) == s <==> |s| == 1 || s[0] != '0')
  {
    ScanMeans(s, 0, 0);
    assert s == [] ==> !Overflows(s);
    if IdFromProto(s, None).1.None? {
      if |s| == 1 || s[0] != '0' {
        DecimalIsFormat(s);
      } else {
        FormatIsDecimal(DecimalValue(s));
      }
    }
  }

  /** The error out-parameter keeps the first error, and the value is what it is without one. */
  lemma FirstErrorStays(s: string, error: ConvertError)
    ensures IdFromProto(s, Some(error)) == (IdFromProto(s, None).0, Some(error))
    ensures KindFromProto(PROTO_TEXT, Some(error)) == (TEXT, Some(error))
    ensures KindToProto(TEXT, Some(error)) == (PROTO_TEXT, Some(error))
    ensures forall kind | kind != PROTO_TEXT :: KindFromProto(kind, Some(error)) == (0, Some(error))
    ensures forall kind: Word | kind != TEXT :: KindToProto(kind, Some(error)) == (0, Some(error))
  {
  }

  // ---------------------------------------------------------------- declarations

  const PROTO_TEXT := 0

  datatype ProtoDeclaration = ProtoDeclaration(kind: int, size: Word)

  datatype VocalAddRequest = VocalAddRequest(location: GeoPoint, messages: seq<ProtoDeclaration>)

  function KindFromProto(kind: int, error: Option<ConvertError>): (Word, Option<ConvertError>) {
    if kind == PROTO_TEXT then (TEXT, error)
    else (0, if error.None? then Some(UnknownProtoKind(kind)) else error)
  }

  predicate AllProtoText(messages: seq<ProtoDeclaration>) {
    forall i | 0 <= i < |messages| :: messages[i].kind == PROTO_TEXT
  }

  function Declared(messages: seq<ProtoDeclaration>): (r: seq<MessageDeclaration>)
    ensures |r| == |messages|
    ensures forall i | 0 <= i < |r| :: r[i] == MessageDeclaration(TEXT, messages[i].size)
  {
    seq(|messages|, i requires 0 <= i < |messages| => MessageDeclaration(TEXT, messages[i].size))
  }

  /** Stops at the first kind it does not know, with nothing. */
  method MessagesDeclarationFromProto(messages: seq<ProtoDeclaration>)
    returns (result: seq<MessageDeclaration>, error: Option<ConvertError>)
    ensures error.None? <==> AllProtoText(messages)
    ensures result == if error.None? then Declared(messages) else []
    ensures error.Some? ==>
      exists i :: 0 <= i < |messages| && AllProtoText(messages[..i])
               && messages[i].kind != PROTO_TEXT && error == Some(UnknownProtoKind(messages[i].kind))
  {
    var n := |messages|;
    var list := new MessageDeclaration[n];
    error := None;
    for i := 0 to n
      invariant error == None
      invariant list[..i] == Declared(messages)[..i]
      invariant AllProtoText(messages[..i])
    {
      var (kind, next) := KindFromProto(messages[i].kind, error);
      error := next;
      list[i] := MessageDeclaration(kind, messages[i].size);
      if error != None {
        return [], error;
      }
    }
    assert messages[..n] == messages;
    result := list[..];
  }

  /** The declaration an accepted request becomes; the author is whoever made the request. */
  function DeclarationOf(request: VocalAddRequest, author: Word): Option<VocalDeclaration> {
    if AllProtoText(request.messages)
    then Some(VocalDeclaration(author, request.location, Declared(request.messages)))
    else None
  }

  // ---------------------------------------------------------------- responses

  datatype ProtoMessage = ProtoMessage(id: string, kind: int, size: Word)

  datatype ProtoVocal = ProtoVocal(id: string, location: GeoPoint, messages: seq<ProtoMessage>)

  function KindToProto(kind: Word, error: Option<ConvertError>): (int, Option<ConvertError>) {
    if kind == TEXT then (PROTO_TEXT, error)
    else (0, if error.None? then Some(UnknownPostKind(kind)) else error)
  }

  function Shown(messages: seq<MessageData>): (r: seq<ProtoMessage>)
    ensures |r| == |messages|
    ensures forall i | 0 <= i < |r| ::
      r[i] == ProtoMessage(IdToProto(messages[i].id), PROTO_TEXT, messages[i].size)
  {
    seq(|messages|, i requires 0 <= i < |messages| =>
      ProtoMessage(IdToProto(messages[i].id), PROTO_TEXT, messages[i].size))
  }

  /** Goes through the whole list even after an error, and shows an unknown kind as zero. */
  method VocalToProto(vocal: Vocal) returns (result: ProtoVocal, error: Option<ConvertError>)
    ensures error.None? <==> AllText(vocal.messages)
    ensures result == ProtoVocal(IdToProto(vocal.id), vocal.location, Shown(vocal.messages))
    ensures error.Some? ==>
      exists i :: 0 <= i < |vocal.messages| && AllText(vocal.messages[..i])
               && vocal.messages[i].kind != TEXT && error == Some(UnknownPostKind(vocal.messages[i].kind))
  {
    var n := |vocal.messages|;
    var list := new ProtoMessage[n](_ => ProtoMessage("", 0, 0));
    error := None;
    for i := 0 to n
      invariant list[..i] == Shown(vocal.messages)[..i]
      invariant error.None? <==> AllText(vocal.messages[..i])
      invariant error.Some? ==>
        exists k :: 0 <= k < i && AllText(vocal.messages[..k])
                 && vocal.messages[k].kind != TEXT && error == Some(UnknownPostKind(vocal.messages[k].kind))
    {
      var (kind, next) := KindToProto(vocal.messages[i].kind, error);
      error := next;
      list[i] := ProtoMessage(IdToProto(vocal.messages[i].id), kind, vocal.messages[i].size);
    }
    assert vocal.messages[..n] == vocal.messages;
    result := ProtoVocal(IdToProto(vocal.id), vocal.location, list[..]);
  }
}

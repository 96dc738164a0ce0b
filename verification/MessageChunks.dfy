/**
 Reading a message in chunks (ReadMessage in accesspoint/lib/client.go) over any message that honours the
 Load contract of au10/message.go. Offset, size and chunk size are uint32, so the loop counter can wrap.
 */
module MessageChunks {
  import opened Words

  type Byte = x: int | 0 <= x < 256

  /** The content that fits a buffer of the given length from an offset on; shorter at the end. */
  function Load(content: seq<Byte>, length: nat, offset: nat): seq<Byte> {
    if offset + length <= |content| then content[offset..offset + length]
    else if offset <= |content| then content[offset..]
    else []
  }

  /** The counter before the k-th round. */
  function OffsetAt(chunk: Word, k: nat): Word {
    Truncate(k * chunk)
  }

  /** The loop makes exactly n rounds. */
  ghost predicate Rounds(size: Word, chunk: Word, n: nat) {
    OffsetAt(chunk, n) > size && forall k: nat | k < n :: OffsetAt(chunk, k) <= size
  }

  /** What a caller can check beforehand: the counter passes the size before it wraps. */
  predicate Fits(size: Word, chunk: Word) {
    0 < chunk && (size / chunk + 1) * chunk < TWO_32
  }

  lemma DivisionBounds(size: nat, chunk: nat)
    requires 0 < chunk
    ensures size / chunk * chunk <= size < (size / chunk + 1) * chunk
  {
  }

  lemma ProductMonotone(k: nat, n: nat, chunk: nat)
    requires k <= n
    ensures k * chunk <= n * chunk
  {
  }

  /** The rounds before the last expected one never wrap. */
  lemma EarlyOffsets(size: Word, chunk: Word, k: nat)
    requires 0 < chunk && k <= size / chunk
    ensures OffsetAt(chunk, k) == k * chunk <= size
  {
    DivisionBounds(size, chunk);
    ProductMonotone(k, size / chunk, chunk);
  }

  /** The loop sends size / chunk + 1 chunks exactly when the counter fits; otherwise it goes on. */
  lemma RoundsExactlyWhen(size: Word, chunk: Word)
    requires 0 < chunk
    ensures Rounds(size, chunk, size / chunk + 1) <==> Fits(size, chunk)
  {
    var n := size / chunk + 1;
    DivisionBounds(size, chunk);
    forall k: nat | k < n
      ensures OffsetAt(chunk, k) <= size
    {
      EarlyOffsets(size, chunk, k);
    }
    assert n * chunk <= size + chunk < 2 * TWO_32 by {
      assert n * chunk == size / chunk * chunk + chunk;
    }
  }

  /** A bound on the size alone is enough. */
  lemma SmallSizesFit(size: Word, chunk: Word)
    requires 0 < chunk && size <= TWO_32 - 1 - chunk
    ensures Fits(size, chunk)
  {
    DivisionBounds(size, chunk);
    assert (size / chunk + 1) * chunk == size / chunk * chunk + chunk;
  }

  // ---------------------------------------------------------------- when the loop ends at all

  function Pow2(n: nat): nat {
    if n == 0 then 1 else 2 * Pow2(n - 1)
  }

  /** The lowest bit that is set, which is the greatest common divisor with two to the 32. */
  function LowBit(x: nat): nat
    requires 0 < x
  {
    if x % 2 == 1 then 1 else 2 * LowBit(x / 2)
  }

  /** A caller can check this beforehand. */
  predicate Stops(size: Word, chunk: Word) {
    0 < chunk && size + LowBit(chunk) < TWO_32
  }

  lemma {:induction false} PowAdd(a: nat, b: nat)
    ensures Pow2(a) * Pow2(b) == Pow2(a + b)
  {
    if a > 0 {
      PowAdd(a - 1, b);
      assert Pow2(a) == 2 * Pow2(a - 1) && Pow2(a + b) == 2 * Pow2(a - 1 + b);
      hide Pow2;
      Regroup(2, Pow2(a - 1), Pow2(b));
    }
  }

  lemma Pow32()
    ensures Pow2(32) == TWO_32
  {
    assert Pow2(4) == 16 by {
      assert Pow2(2) == 4;
    }
    PowAdd(4, 4);
    PowAdd(8, 8);
    PowAdd(16, 16);
  }

  lemma {:induction false} LowBitIsPower(x: nat) returns (t: nat, odd: nat)
    requires 0 < x
    ensures x == Pow2(t) * odd && odd % 2 == 1 && LowBit(x) == Pow2(t)
  {
    if x % 2 == 1 {
      t, odd := 0, x;
    } else {
      var s, rest := LowBitIsPower(x / 2);
      t, odd := s + 1, rest;
      assert 2 * (Pow2(s) * rest) == 2 * Pow2(s) * rest;
    }
  }

  lemma {:induction false} PowPositive(n: nat)
    ensures 0 < Pow2(n)
  {
    if n > 0 {
      PowPositive(n - 1);
    }
  }

  lemma TooManyBits(t: nat)
    requires 32 <= t
    ensures TWO_32 <= Pow2(t)
  {
    Pow32();
    PowAdd(32, t - 32);
    PowPositive(t - 32);
    ProductMonotone(1, Pow2(t - 32), TWO_32);
  }

  /** A word has at most 32 bits, so its lowest is a divisor of two to the 32. */
  lemma LowBitDivides(chunk: Word) returns (odd: nat, m: nat)
    requires 0 < chunk
    ensures chunk == LowBit(chunk) * odd && odd % 2 == 1
    ensures LowBit(chunk) * Pow2(m) == TWO_32 && 0 < LowBit(chunk) && 0 < Pow2(m)
  {
    var t;
    t, odd := LowBitIsPower(chunk);
    ProductMonotone(1, odd, Pow2(t));
    if 32 <= t {
      TooManyBits(t);
    }
    m := 32 - t;
    Pow32();
    PowAdd(t, m);
    PowPositive(t);
    PowPositive(m);
  }

  lemma Distribute(x: int, y: int, z: int)
    ensures (x + y) * z == x * z + y * z
  {
  }

  lemma Regroup(x: int, y: int, z: int)
    ensures x * (y * z) == y * (x * z) == (x * y) * z
  {
  }

  lemma OddCase(k: nat, odd: nat, p: nat, q: nat)
    requires k * odd + 1 == p * q && q % 2 == 1 && odd % 2 == 1
    ensures (k + p) * odd + 1 == 2 * p * ((q + odd) / 2)
  {
    Distribute(k, p, odd);
    Distribute(q, odd, p);
    Regroup(p, 2, (q + odd) / 2);
    assert q + odd == 2 * ((q + odd) / 2);
  }

  /** Minus one is a multiple of every odd number modulo a power of two. */
  lemma {:induction false} OddReaches(odd: nat, m: nat) returns (k: nat, q: nat)
    requires odd % 2 == 1
    ensures k * odd + 1 == Pow2(m) * q
  {
    if m == 0 {
      k, q := 0, 1;
    } else {
      var j, r := OddReaches(odd, m - 1);
      var p := Pow2(m - 1);
      assert Pow2(m) == 2 * p;
      hide Pow2;
      if r % 2 == 0 {
        k, q := j, r / 2;
        Regroup(p, 2, q);
      } else {
        k, q := j + p, (r + odd) / 2;
        OddCase(j, odd, p, r);
      }
    }
  }

  /** The counter takes the value below two to the 32 by the lowest bit of the chunk size. */
  lemma GreatestOffset(chunk: Word) returns (k: nat)
    requires 0 < chunk
    ensures OffsetAt(chunk, k) == TWO_32 - LowBit(chunk)
  {
    var g := LowBit(chunk);
    var odd, m := LowBitDivides(chunk);
    var q;
    k, q := OddReaches(odd, m);
    Regroup(k, g, odd);
    Distribute(k * odd, 1, g);
    Regroup(g, Pow2(m), q);
    ProductMonotone(1, Pow2(m), g);
    hide LowBit, Pow2, Truncate;
    BelowMultiple(k * chunk, g, q);
  }

  lemma BelowMultiple(x: nat, g: nat, q: nat)
    requires x + g == TWO_32 * q && 0 < g <= TWO_32
    ensures Truncate(x) == TWO_32 - g
  {
    assert x == TWO_32 * (q - 1) + (TWO_32 - g);
  }

  lemma BelowProduct(g: nat, x: int, y: int)
    requires g * x < g * y
    ensures g * x <= g * y - g
  {
    if x < y {
      Distribute(y - 1 - x, x, g);
      ProductMonotone(0, y - 1 - x, g);
    } else {
      Distribute(x - y, y, g);
      ProductMonotone(0, x - y, g);
    }
  }

  lemma MultipleRemains(n: nat, g: nat, odd: nat, p: nat, wraps: nat)
    ensures n * (g * odd) - (g * p) * wraps == g * (n * odd - p * wraps)
  {
    Regroup(n, g, odd);
    Regroup(g, p, wraps);
    Distribute(n * odd, -(p * wraps), g);
  }

  /** And it takes no greater one. */
  lemma NoGreaterOffset(chunk: Word, n: nat)
    requires 0 < chunk
    ensures OffsetAt(chunk, n) <= TWO_32 - LowBit(chunk)
  {
    var g := LowBit(chunk);
    var odd, m := LowBitDivides(chunk);
    var wraps := n * chunk / TWO_32;
    assert OffsetAt(chunk, n) == n * chunk - TWO_32 * wraps;
    MultipleRemains(n, g, odd, Pow2(m), wraps);
    hide LowBit, Pow2, OffsetAt;
    BelowProduct(g, n * odd - Pow2(m) * wraps, Pow2(m));
  }

  lemma {:induction false} FirstPast(size: Word, chunk: Word, k: nat) returns (n: nat)
    requires OffsetAt(chunk, k) > size
    ensures Rounds(size, chunk, n)
  {
    if i: nat :| i < k && OffsetAt(chunk, i) > size {
      n := FirstPast(size, chunk, i);
    } else {
      n := k;
    }
  }

  lemma ZeroStays(n: nat)
    ensures OffsetAt(0, n) == 0
  {
    assert n * 0 == 0;
  }

  /** The loop ends, after however many rounds, exactly when size plus the lowest bit of the chunk size fits. */
  lemma EndsExactlyWhen(size: Word, chunk: Word)
    ensures (exists n: nat :: Rounds(size, chunk, n)) <==> Stops(size, chunk)
  {
    if Stops(size, chunk) {
      var k := GreatestOffset(chunk);
      var n := FirstPast(size, chunk, k);
    }
    if n: nat :| Rounds(size, chunk, n) {
      ZeroStays(n);
      if chunk > 0 {
        NoGreaterOffset(chunk, n);
      }
    }
  }

  // ---------------------------------------------------------------- the loop

  function Concat(parts: seq<seq<Byte>>): seq<Byte> {
    if parts == [] then [] else parts[0] + Concat(parts[1..])
  }

  /** The chunks of a message, with no reference to offsets: full ones, and a shorter one at the end. */
  function Split(content: seq<Byte>, chunk: Word): (r: seq<seq<Byte>>)
    requires 0 < chunk
    ensures r != []
    decreases |content|
  {
    if |content| < chunk then [content] else [content[..chunk]] + Split(content[chunk..], chunk)
  }

  lemma QuotientUnique(q: int, r: nat, p: int, t: nat, chunk: nat)
    requires q * chunk + r == p * chunk + t && r < chunk && t < chunk
    ensures q == p && r == t
  {
    if q < p {
      ProductMonotone(1, p - q, chunk);
    } else if p < q {
      ProductMonotone(1, q - p, chunk);
    }
  }

  lemma DivModStep(x: nat, chunk: nat)
    requires 0 < chunk <= x
    ensures (x - chunk) % chunk == x % chunk && (x - chunk) / chunk == x / chunk - 1
  {
    var q, r, p, t := x / chunk, x % chunk, (x - chunk) / chunk, (x - chunk) % chunk;
    assert (p + 1) * chunk == p * chunk + chunk;
    QuotientUnique(q, r, p + 1, t, chunk);
  }

  /** Quotient and remainder by taking away one chunk at a time. */
  function Full(size: nat, chunk: nat): nat
    requires 0 < chunk
  {
    if size < chunk then 0 else 1 + Full(size - chunk, chunk)
  }

  function Left(size: nat, chunk: nat): (r: nat)
    requires 0 < chunk
    ensures r < chunk && r <= size
  {
    if size < chunk then size else Left(size - chunk, chunk)
  }

  lemma {:induction false} FullAndLeft(size: nat, chunk: nat)
    requires 0 < chunk
    ensures Full(size, chunk) == size / chunk && Left(size, chunk) == size % chunk
  {
    if size >= chunk {
      FullAndLeft(size - chunk, chunk);
      DivModStep(size, chunk);
    } else {
      QuotientUnique(0, size, size / chunk, size % chunk, chunk);
    }
  }

  lemma {:induction false} SplitShape(content: seq<Byte>, chunk: Word)
    requires 0 < chunk
    ensures Concat(Split(content, chunk)) == content
    ensures |Split(content, chunk)| == Full(|content|, chunk) + 1
    ensures forall i | 0 <= i < |Split(content, chunk)| ::
              |Split(content, chunk)[i]| == if i < Full(|content|, chunk) then chunk else Left(|content|, chunk)
    decreases |content|
  {
    if |content| < chunk {
      assert Split(content, chunk)[1..] == [];
    } else {
      var rest := content[chunk..];
      SplitShape(rest, chunk);
      assert Split(content, chunk)[1..] == Split(rest, chunk);
      assert content == content[..chunk] + rest;
    }
  }

  /** Together the chunks are the content; there are size / chunk + 1, and all but the last are full. */
  lemma SplitIsContent(content: seq<Byte>, chunk: Word)
    requires 0 < chunk
    ensures Concat(Split(content, chunk)) == content
    ensures |Split(content, chunk)| == |content| / chunk + 1
    ensures forall i | 0 <= i < |Split(content, chunk)| ::
              |Split(content, chunk)[i]| == if i < |content| / chunk then chunk else |content| % chunk
  {
    SplitShape(content, chunk);
    FullAndLeft(|content|, chunk);
  }

  lemma SplitOnce(content: seq<Byte>, chunk: Word, offset: nat)
    requires 0 < chunk && offset <= |content|
    ensures Split(content[offset..], chunk)
         == [Load(content, chunk, offset)]
          + if offset + chunk <= |content| then Split(content[offset + chunk..], chunk) else []
    ensures offset + chunk <= |content| ==> |Load(content, chunk, offset)| == chunk
  {
    var rest := content[offset..];
    if |rest| >= chunk {
      assert rest[chunk..] == content[offset + chunk..] && rest[..chunk] == content[offset..offset + chunk];
    }
  }

  /** The buffer is reused and never grows back: its length before the k-th round. */
  function BufferAt(content: seq<Byte>, chunk: Word, k: nat): nat {
    if k == 0 then chunk else |Load(content, BufferAt(content, chunk, k - 1), OffsetAt(chunk, k - 1))|
  }

  function PartAt(content: seq<Byte>, chunk: Word, k: nat): seq<Byte> {
    Load(content, BufferAt(content, chunk, k), OffsetAt(chunk, k))
  }

  /** What the first n rounds send, wherever the counter has got to. */
  function Parts(content: seq<Byte>, chunk: Word, n: nat): (r: seq<seq<Byte>>)
    ensures |r| == n && forall k | 0 <= k < n :: r[k] == PartAt(content, chunk, k)
  {
    seq(n, k requires 0 <= k < n => PartAt(content, chunk, k))
  }

  lemma FirstRound(content: seq<Byte>, chunk: Word)
    ensures OffsetAt(chunk, 0) == 0 && BufferAt(content, chunk, 0) == chunk && Parts(content, chunk, 0) == []
  {
  }

  lemma NextEarly(size: Word, chunk: Word, k: nat)
    requires 0 < chunk && k < size / chunk
    ensures OffsetAt(chunk, k) + chunk == OffsetAt(chunk, k + 1) <= size
  {
    EarlyOffsets(size, chunk, k);
    EarlyOffsets(size, chunk, k + 1);
    Distribute(k, 1, chunk);
    hide OffsetAt;
  }

  lemma {:induction false} BufferStaysFull(content: seq<Byte>, chunk: Word, k: nat)
    requires |content| < TWO_32 && 0 < chunk && k <= |content| / chunk
    ensures BufferAt(content, chunk, k) == chunk
  {
    if k > 0 {
      BufferStaysFull(content, chunk, k - 1);
      NextEarly(|content|, chunk, k - 1);
      hide OffsetAt;
    }
  }

  lemma NextPart(content: seq<Byte>, chunk: Word, k: nat)
    ensures Parts(content, chunk, k + 1) == Parts(content, chunk, k) + [PartAt(content, chunk, k)]
    ensures BufferAt(content, chunk, k + 1) == |PartAt(content, chunk, k)|
    ensures PartAt(content, chunk, k) == Load(content, BufferAt(content, chunk, k), OffsetAt(chunk, k))
  {
  }

  lemma OneMorePart(content: seq<Byte>, chunk: Word, k: nat, offset: nat)
    requires 0 < chunk && offset == OffsetAt(chunk, k) <= |content| && BufferAt(content, chunk, k) == chunk
    requires Split(content, chunk) == Parts(content, chunk, k) + Split(content[offset..], chunk)
    ensures Split(content, chunk)
         == Parts(content, chunk, k + 1)
          + if offset + chunk <= |content| then Split(content[offset + chunk..], chunk) else []
  {
    NextPart(content, chunk, k);
    SplitOnce(content, chunk, offset);
    hide *;
    var part := PartAt(content, chunk, k);
    var rest := if offset + chunk <= |content| then Split(content[offset + chunk..], chunk) else [];
    Regrouped(Parts(content, chunk, k), part, rest);
  }

  lemma Regrouped<T>(xs: seq<T>, x: T, ys: seq<T>)
    ensures xs + ([x] + ys) == (xs + [x]) + ys
  {
  }

  lemma LastEarly(size: Word, chunk: Word)
    requires 0 < chunk
    ensures OffsetAt(chunk, size / chunk) <= size < OffsetAt(chunk, size / chunk) + chunk
  {
    EarlyOffsets(size, chunk, size / chunk);
    DivisionBounds(size, chunk);
    Distribute(size / chunk, 1, chunk);
  }

  lemma {:induction false} PartsThenRest(content: seq<Byte>, chunk: Word, k: nat)
    requires |content| < TWO_32 && 0 < chunk && k <= |content| / chunk
    ensures OffsetAt(chunk, k) <= |content|
    ensures Split(content, chunk) == Parts(content, chunk, k) + Split(content[OffsetAt(chunk, k)..], chunk)
  {
    if k == 0 {
      FirstRound(content, chunk);
      hide *;
      assert content[0..] == content;
    } else {
      hide *;
      NextEarly(|content|, chunk, k - 1);
      BufferStaysFull(content, chunk, k - 1);
      PartsThenRest(content, chunk, k - 1);
      OneMorePart(content, chunk, k - 1, OffsetAt(chunk, k - 1));
    }
  }

  /** The first size / chunk + 1 rounds send the message, whether or not the loop ends there. */
  lemma PartsAreSplit(content: seq<Byte>, chunk: Word)
    requires |content| < TWO_32 && 0 < chunk
    ensures Parts(content, chunk, |content| / chunk + 1) == Split(content, chunk)
  {
    var n := |content| / chunk;
    LastEarly(|content|, chunk);
    BufferStaysFull(content, chunk, n);
    hide *;
    PartsThenRest(content, chunk, n);
    OneMorePart(content, chunk, n, OffsetAt(chunk, n));
  }

  /** The loop that ends where it should has sent the message, no other loop that ends has. */
  lemma CompleteIsSplit(content: seq<Byte>, chunk: Word, n: nat)
    requires |content| < TWO_32 && 0 < chunk && Rounds(|content|, chunk, n)
    ensures Parts(content, chunk, n) == Split(content, chunk) <==> Fits(|content|, chunk)
  {
    PartsAreSplit(content, chunk);
    RoundsExactlyWhen(|content|, chunk);
    SplitIsContent(content, chunk);
    if Fits(|content|, chunk) {
      assert n == |content| / chunk + 1;
    }
    hide Split, Parts, Fits;
  }

  datatype Outcome = Complete | Going | LoadFailed(offset: Word) | SendFailed(offset: Word)

  lemma NextOffset(chunk: Word, k: nat)
    ensures Add(OffsetAt(chunk, k), chunk) == OffsetAt(chunk, k + 1)
  {
    hide Add, Truncate;
    var product := k * chunk;
    Distribute(k, 1, chunk);
    AddTruncated(product, chunk);
    assert OffsetAt(chunk, k + 1) == Truncate(product + chunk);
  }

  lemma AllRounds(size: Word, chunk: Word, n: nat)
    requires OffsetAt(chunk, n) > size && forall k: nat | k < n :: OffsetAt(chunk, k) <= size
    ensures Rounds(size, chunk, n) && 0 < chunk
  {
    ZeroStays(n);
  }

  lemma NotAllRounds(size: Word, chunk: Word, n: nat)
    requires OffsetAt(chunk, n) <= size
    ensures !Rounds(size, chunk, n)
  {
  }

  /**
   Sends chunk after chunk until the counter has passed the size, or loading or sending one fails, watched for
   as many rounds as asked: the loop itself need not end. A complete one has sent the message exactly if
   the counter fits.
   */
  method ReadMessage(
    content: seq<Byte>, chunkSize: Word, loadFails: set<nat>, sendFails: set<nat>, rounds: nat)
    returns (sent: seq<seq<Byte>>, outcome: Outcome)
    requires |content| < TWO_32
    ensures sent == Parts(content, chunkSize, |sent|) && |sent| <= rounds
    ensures forall i | 0 <= i < |sent| :: i !in loadFails && i !in sendFails && OffsetAt(chunkSize, i) <= |content|
    ensures outcome.Complete? <==> Rounds(|content|, chunkSize, |sent|)
    ensures outcome.Going? ==> |sent| == rounds
    ensures outcome.LoadFailed? ==> |sent| in loadFails
    ensures outcome.SendFailed? ==> |sent| in sendFails
    ensures outcome.LoadFailed? || outcome.SendFailed? ==>
      |sent| < rounds && outcome.offset == OffsetAt(chunkSize, |sent|) <= |content|
    ensures outcome.Complete? ==> (sent == Split(content, chunkSize) <==> Fits(|content|, chunkSize))
  {
    hide *;
    var size: Word := |content|;
    sent := [];
    var length: nat := chunkSize;
    var offset: Word := 0;
    FirstRound(content, chunkSize);
    while offset <= size && |sent| < rounds
      invariant |sent| <= rounds
      invariant offset == OffsetAt(chunkSize, |sent|)
      invariant length == BufferAt(content, chunkSize, |sent|)
      invariant sent == Parts(content, chunkSize, |sent|)
      invariant forall i | 0 <= i < |sent| ::
        i !in loadFails && i !in sendFails && OffsetAt(chunkSize, i) <= size
      decreases rounds - |sent|
    {
      NotAllRounds(size, chunkSize, |sent|);
      if |sent| in loadFails {
        return sent, LoadFailed(offset);
      }
      var buffer := Load(content, length, offset);
      length := |buffer|;
      if |sent| in sendFails {
        return sent, SendFailed(offset);
      }
      NextOffset(chunkSize, |sent|);
      NextPart(content, chunkSize, |sent|);
      sent := sent + [buffer];
      offset := Add(offset, chunkSize);
    }
    if offset <= size {
      NotAllRounds(size, chunkSize, |sent|);
      return sent, Going;
    }
    outcome := Complete;
    AllRounds(size, chunkSize, |sent|);
    CompleteIsSplit(content, chunkSize, |sent|);
  }
}

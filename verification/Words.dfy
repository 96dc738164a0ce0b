/** Go's uint32: arithmetic modulo two to the 32. */
module Words {
  const TWO_32 := 0x1_0000_0000

  type Word = x: int | 0 <= x < TWO_32

  /** ^uint32(0), which atomic.AddUint32 is given to subtract one. */
  const ALL_ONES: Word := TWO_32 - 1

  function Truncate(x: nat): (r: Word)
    ensures x < TWO_32 ==> r == x
  {
    x % TWO_32
  }

  function Add(x: Word, y: Word): Word {
    Truncate(x + y)
  }

  lemma AddTruncated(x: nat, y: Word)
    ensures Add(Truncate(x), y) == Truncate(x + y)
  {
  }

  lemma OnceAround(x: nat)
    ensures Truncate(x + TWO_32) == Truncate(x)
  {
  }

  /** Counting up or down by one commutes with truncation. */
  lemma AddCounts(base: nat, n: nat)
    ensures Add(Truncate(base + n), 1) == Truncate(base + (n + 1))
    ensures 0 < n ==> Add(Truncate(base + n), ALL_ONES) == Truncate(base + (n - 1))
  {
    AddTruncated(base + n, 1);
    AddTruncated(base + n, ALL_ONES);
    if 0 < n {
      OnceAround(base + (n - 1));
    }
    hide Add, Truncate;
  }

  lemma TruncateSum(x: nat, y: nat, z: nat)
    ensures Truncate(x + y + z) == Truncate(Truncate(x) + Truncate(y) + z)
  {
    var i, j := x / TWO_32, y / TWO_32;
    assert x + y + z == TWO_32 * (i + j) + (Truncate(x) + Truncate(y) + z);
  }
}

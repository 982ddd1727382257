/** Bytes and the integer conversions the source uses. */
module Bytes {

  type byte = bv8
  type Bytes = seq<byte>

  // That small integers survive the conversion to a byte is proved by counting up.

  lemma NextByte(b: byte)
    requires b != 255
    ensures (b + 1) as int == (b as int) + 1
  {}

  lemma {:induction false} ByteWithValue(i: int) returns (b: byte)
    requires 0 <= i < 256
    ensures b as int == i
    decreases i
  {
    if i == 0 {
      b := 0;
    } else {
      var p := ByteWithValue(i - 1);
      NextByte(p);
      b := p + 1;
    }
  }

  lemma ByteRoundTrip(i: int)
    requires 0 <= i < 256
    ensures (i as byte) as int == i
  {
    var b := ByteWithValue(i);
    assert (b as int) as byte == b;
  }

  /** byte(i): the low eight bits of i. */
  function ByteOf(i: nat): byte {
    (i % 256) as byte
  }

  function IntOf(b: byte): nat {
    b as int
  }

  lemma ByteOfInt(i: nat)
    ensures IntOf(ByteOf(i)) == i % 256
  {
    ByteRoundTrip(i % 256);
  }

  lemma IntOfByte(b: byte)
    ensures IntOf(b) < 256
    ensures ByteOf(IntOf(b)) == b
  {
    assert (b as int) as bv8 == b;
  }

  // ---------- big-endian integers ----------

  /** 256 to the power n. */
  function Base(n: nat): nat {
    if n == 0 then 1 else 256 * Base(n - 1)
  }

  /** The low n bytes of v, most significant first. */
  function BigEndian(v: nat, n: nat): (b: Bytes)
    ensures |b| == n
    decreases n
  {
    if n == 0 then [] else BigEndian(v / 256, n - 1) + [ByteOf(v)]
  }

  function FromBigEndian(b: Bytes): nat {
    var n := |b|;
    if n == 0 then 0 else FromBigEndian(b[..n - 1]) * 256 + IntOf(b[n - 1])
  }

  lemma {:induction false} BigEndianRoundTrip(v: nat, n: nat)
    requires v < Base(n)
    ensures FromBigEndian(BigEndian(v, n)) == v
    decreases n
  {
    if n == 0 {
    } else {
      hide ByteOf, IntOf;
      BigEndianRoundTrip(v / 256, n - 1);
      ByteOfInt(v);
      var b := BigEndian(v, n);
      assert b[..n - 1] == BigEndian(v / 256, n - 1);
    }
  }

  /** Byte k of n is digit n - 1 - k of the value to the base 256. */
  lemma {:induction false} BigEndianDigit(v: nat, n: nat, k: nat)
    requires k < n
    ensures Base(n - 1 - k) > 0 && IntOf(BigEndian(v, n)[k]) == v / Base(n - 1 - k) % 256
    decreases n
  {
    hide ByteOf, IntOf;
    ByteOfInt(v);
    if k == n - 1 {
    } else {
      BigEndianDigit(v / 256, n - 1, k);
      DivTwice(v, Base(n - 2 - k));
    }
  }

  /** The bytes are the digits of v to the base 256, the highest first. */
  predicate HighFirst(b: Bytes, v: nat) {
    forall k :: 0 <= k < |b| ==> Digit(b, k, v)
  }

  predicate Digit(b: Bytes, k: nat, v: nat)
    requires k < |b|
  {
    Base(|b| - 1 - k) > 0 && IntOf(b[k]) == v / Base(|b| - 1 - k) % 256
  }

  lemma BigEndianIsHighFirst(v: nat, n: nat)
    ensures HighFirst(BigEndian(v, n), v)
  {
    hide BigEndian, IntOf, Base;
    var b := BigEndian(v, n);
    forall k | 0 <= k < |b|
      ensures Digit(b, k, v)
    {
      BigEndianDigit(v, n, k);
    }
  }

  /** The digits decide the bytes. */
  lemma HighFirstDecides(a: Bytes, b: Bytes, v: nat)
    requires |a| == |b| && HighFirst(a, v) && HighFirst(b, v)
    ensures a == b
  {
    hide IntOf, Base;
    forall k | 0 <= k < |a|
      ensures a[k] == b[k]
    {
      assert Digit(a, k, v) && Digit(b, k, v);
      IntOfByte(a[k]);
      IntOfByte(b[k]);
    }
  }

  lemma HighFirstIff(b: Bytes, v: nat)
    requires v < Base(|b|)
    ensures HighFirst(b, v) <==> FromBigEndian(b) == v
  {
    hide HighFirst, BigEndian, FromBigEndian, Base;
    BigEndianIsHighFirst(v, |b|);
    BigEndianRoundTrip(v, |b|);
    FromBigEndianRoundTrip(b);
    if HighFirst(b, v) {
      HighFirstDecides(b, BigEndian(v, |b|), v);
    }
  }

  lemma DivTwice(v: nat, b: nat)
    requires b > 0
    ensures v / 256 / b == v / (256 * b)
  {
    var q, r := v / 256, v % 256;
    var d, m := q / b, q % b;
    assert v == (256 * b) * d + (256 * m + r);
    assert 0 <= 256 * m + r < 256 * b;
    QuotientIs(v, 256 * b, d, 256 * m + r);
  }

  lemma SmallMultiple(n: int, x: int)
    requires -n < n * x < n
    ensures x == 0
  {
    assert x >= 1 ==> n * x >= n;
    assert x <= -1 ==> n * x <= -n;
  }

  lemma QuotientIs(v: nat, n: nat, d: nat, r: nat)
    requires n > 0 && r < n && v == n * d + r
    ensures v / n == d
  {
    var e, s := v / n, v % n;
    assert v == n * e + s;
    assert n * (d - e) == s - r;
    SmallMultiple(n, d - e);
  }

  lemma DivMod256(x: nat, y: nat)
    requires y < 256
    ensures (x * 256 + y) / 256 == x && (x * 256 + y) % 256 == y
  {}

  lemma ByteOfSameResidue(v: nat, w: nat)
    requires v % 256 == w
    ensures ByteOf(v) == ByteOf(w)
  {}

  lemma BigEndianSnoc(x: nat, y: nat, n: nat)
    requires y < 256
    ensures BigEndian(x * 256 + y, n + 1) == BigEndian(x, n) + [ByteOf(y)]
  {
    hide ByteOf;
    DivMod256(x, y);
    ByteOfSameResidue(x * 256 + y, y);
  }

  lemma {:induction false} FromBigEndianRoundTrip(b: Bytes)
    ensures FromBigEndian(b) < Base(|b|)
    ensures BigEndian(FromBigEndian(b), |b|) == b
    decreases |b|
  {
    var n := |b|;
    if n == 0 {
    } else {
      hide ByteOf, IntOf, BigEndian;
      FromBigEndianRoundTrip(b[..n - 1]);
      IntOfByte(b[n - 1]);
      BigEndianSnoc(FromBigEndian(b[..n - 1]), IntOf(b[n - 1]), n - 1);
      assert b == b[..n - 1] + [b[n - 1]];
    }
  }

  lemma BaseValues()
    ensures Base(4) == 0x1_0000_0000
    ensures Base(8) == 0x1_0000_0000_0000_0000
  {
    assert Base(2) == 65536;
    assert Base(4) == 256 * (256 * Base(2));
    assert Base(6) == 256 * (256 * Base(4));
    assert Base(8) == 256 * (256 * Base(6));
  }

  // ---------- blocks of equal length ----------

  predicate Uniform(blocks: seq<Bytes>, size: nat) {
    forall i :: 0 <= i < |blocks| ==> |blocks[i]| == size
  }

  /** All blocks, one after the other. */
  function Concat(blocks: seq<Bytes>): Bytes {
    var n := |blocks|;
    if n == 0 then [] else Concat(blocks[..n - 1]) + blocks[n - 1]
  }

  /** The offset of block i. */
  function Start(i: nat, size: nat): nat {
    if i == 0 then 0 else Start(i - 1, size) + size
  }

  lemma {:induction false} StartIsProduct(i: nat, size: nat)
    ensures Start(i, size) == i * size
  {
    if i == 0 {
    } else {
      StartIsProduct(i - 1, size);
      assert i * size == (i - 1) * size + size;
    }
  }

  lemma {:induction false} StartMonotone(i: nat, n: nat, size: nat)
    requires i <= n
    ensures Start(i, size) <= Start(n, size)
    ensures i < n ==> Start(i, size) + size <= Start(n, size)
    decreases n
  {
    if i == n {
    } else {
      StartMonotone(i, n - 1, size);
    }
  }

  /** Block i of a sequence of blocks. */
  function Block(a: Bytes, size: nat, i: nat): (b: Bytes)
    requires Start(i, size) + size <= |a|
    ensures |b| == size
  {
    a[Start(i, size)..Start(i, size) + size]
  }

  lemma BlockOfPrefix(a: Bytes, k: nat, size: nat, i: nat)
    requires Start(i, size) + size <= k <= |a|
    ensures Block(a[..k], size, i) == Block(a, size, i)
  {}

  lemma {:induction false} ConcatLength(blocks: seq<Bytes>, size: nat)
    requires Uniform(blocks, size)
    ensures |Concat(blocks)| == Start(|blocks|, size)
    decreases |blocks|
  {
    var n := |blocks|;
    if n == 0 {
    } else {
      ConcatLength(blocks[..n - 1], size);
    }
  }

  /** Block i is found at its offset. */
  lemma {:induction false} ConcatBlock(blocks: seq<Bytes>, size: nat, i: nat)
    requires Uniform(blocks, size) && i < |blocks|
    ensures Start(i, size) + size <= |Concat(blocks)|
    ensures Block(Concat(blocks), size, i) == blocks[i]
    decreases |blocks|
  {
    var n := |blocks|;
    var front := blocks[..n - 1];
    ConcatLength(blocks, size);
    ConcatLength(front, size);
    StartMonotone(i, n, size);
    if i < n - 1 {
      ConcatBlock(front, size, i);
      StartMonotone(i, n - 1, size);
      assert Concat(blocks)[..|Concat(front)|] == Concat(front);
      BlockOfPrefix(Concat(blocks), |Concat(front)|, size, i);
    }
  }

  /** A byte string cut into n blocks. */
  function Blocks(a: Bytes, size: nat, n: nat): (blocks: seq<Bytes>)
    requires |a| == Start(n, size)
    ensures |blocks| == n
    decreases n
  {
    if n == 0 then []
    else
      var k := Start(n - 1, size);
      Blocks(a[..k], size, n - 1) + [a[k..]]
  }

  lemma {:induction false} ConcatOfBlocks(a: Bytes, size: nat, n: nat)
    requires |a| == Start(n, size)
    ensures Concat(Blocks(a, size, n)) == a
    decreases n
  {
    if n == 0 {
    } else {
      var k := Start(n - 1, size);
      ConcatOfBlocks(a[..k], size, n - 1);
      assert Blocks(a, size, n)[..n - 1] == Blocks(a[..k], size, n - 1);
    }
  }

  lemma {:induction false} BlocksAt(a: Bytes, size: nat, n: nat, i: nat)
    requires |a| == Start(n, size) && i < n
    ensures Start(i, size) + size <= |a| && Blocks(a, size, n)[i] == Block(a, size, i)
    decreases n
  {
    var k := Start(n - 1, size);
    StartMonotone(i, n, size);
    if i < n - 1 {
      StartMonotone(i, n - 1, size);
      BlocksAt(a[..k], size, n - 1, i);
      BlockOfPrefix(a, k, size, i);
    }
  }

  /** Equal block by block means equal as a whole. */
  lemma SameBlocks(a: Bytes, b: Bytes, size: nat, n: nat)
    requires |a| == |b| == Start(n, size)
    requires forall i: nat | i < n :: Start(i, size) + size <= |a| && Block(a, size, i) == Block(b, size, i)
    ensures a == b
  {
    hide Block, Start, Blocks;
    forall i: nat | i < n
      ensures Blocks(a, size, n)[i] == Blocks(b, size, n)[i]
    {
      BlocksAt(a, size, n, i);
      BlocksAt(b, size, n, i);
    }
    assert Blocks(a, size, n) == Blocks(b, size, n);
    ConcatOfBlocks(a, size, n);
    ConcatOfBlocks(b, size, n);
  }

  lemma {:induction false} ConcatAppend(a: seq<Bytes>, b: seq<Bytes>)
    ensures Concat(a + b) == Concat(a) + Concat(b)
    decreases |b|
  {
    var n := |b|;
    if n == 0 {
      assert a + b == a;
    } else {
      ConcatAppend(a, b[..n - 1]);
      assert (a + b)[..|a| + n - 1] == a + b[..n - 1];
    }
  }

  /** Cutting a concatenation gives the blocks back. */
  lemma {:induction false} BlocksOfConcat(blocks: seq<Bytes>, size: nat)
    requires Uniform(blocks, size)
    ensures |Concat(blocks)| == Start(|blocks|, size)
    ensures Blocks(Concat(blocks), size, |blocks|) == blocks
    decreases |blocks|
  {
    var n := |blocks|;
    ConcatLength(blocks, size);
    if n == 0 {
    } else {
      var front := blocks[..n - 1];
      ConcatLength(front, size);
      BlocksOfConcat(front, size);
      assert Concat(blocks)[..Start(n - 1, size)] == Concat(front);
      assert blocks == front + [blocks[n - 1]];
    }
  }
}

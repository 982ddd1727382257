/** On-disk encodings (internal/format/format.go): the chunk header, the
    manifest checks and the trailer frame. */
module Format {
  import opened Bytes
  import opened ErasureCode
  import opened Layout
  import Crc32c
  import PolynomialDivision

  const TRAILER_FIXED: nat := 40
  const FILE_ID_SIZE: nat := 16
  const MAGIC_CHUNK: Bytes := [0x53, 0x56, 0x43, 0x31]
  const MAGIC_TRAILER: Bytes := [0x53, 0x56, 0x4C, 0x54]
  const TWO_63: int := 0x8000_0000_0000_0000
  const TWO_64: int := 0x1_0000_0000_0000_0000

  /** int64(u) of an unsigned 64-bit value. */
  function Signed64(u: nat): int {
    if u >= TWO_63 then u - TWO_64 else u
  }

  /** uint64(v): the residue modulo 2^64. */
  function Unsigned64(v: int): nat {
    v % TWO_64
  }

  // ---------- chunk header ----------

  datatype ChunkHeader = ChunkHeader(index: int, plainLen: int, nonce: Bytes)

  function Marshal(h: ChunkHeader): (b: Bytes)
    requires |h.nonce| == NONCE_SIZE
    ensures |b| == HEADER_SIZE
  {
    MAGIC_CHUNK + BigEndian(Unsigned64(h.index), 8) + BigEndian(Unsigned64(h.plainLen), 8) + h.nonce
  }

  function ParseChunkHeader(b: Bytes): Option<ChunkHeader> {
    if |b| < HEADER_SIZE || b[..4] != MAGIC_CHUNK then None
    else Some(ChunkHeader(Signed64(FromBigEndian(b[4..12])), Signed64(FromBigEndian(b[12..20])), b[20..32]))
  }

  /** The 32 bytes of a header: the text SVC1, index and length as 64-bit two's
      complement integers with the highest byte first, and the nonce. */
  lemma HeaderBytes(h: ChunkHeader)
    requires |h.nonce| == NONCE_SIZE
    requires -TWO_63 <= h.index < TWO_63 && -TWO_63 <= h.plainLen < TWO_63
    ensures Marshal(h)[..4] == [0x53, 0x56, 0x43, 0x31] && Marshal(h)[20..32] == h.nonce
    ensures HighFirst(Marshal(h)[4..12], if h.index >= 0 then h.index else h.index + TWO_64)
    ensures HighFirst(Marshal(h)[12..20], if h.plainLen >= 0 then h.plainLen else h.plainLen + TWO_64)
  {
    hide BigEndian, HighFirst;
    TwosComplement(h.index);
    TwosComplement(h.plainLen);
    hide Unsigned64;
    BigEndianIsHighFirst(Unsigned64(h.index), 8);
    BigEndianIsHighFirst(Unsigned64(h.plainLen), 8);
    var b := Marshal(h);
    assert b[4..12] == BigEndian(Unsigned64(h.index), 8);
    assert b[12..20] == BigEndian(Unsigned64(h.plainLen), 8);
  }

  lemma TwosComplement(v: int)
    requires -TWO_63 <= v < TWO_63
    ensures Unsigned64(v) == if v >= 0 then v else v + TWO_64
  {}

  lemma SignedOfUnsigned(v: int)
    requires -TWO_63 <= v < TWO_63
    ensures Signed64(Unsigned64(v)) == v
  {}

  lemma Decode64(v: int)
    requires -TWO_63 <= v < TWO_63
    ensures Signed64(FromBigEndian(BigEndian(Unsigned64(v), 8))) == v
  {
    hide BigEndian, FromBigEndian;
    BaseValues();
    BigEndianRoundTrip(Unsigned64(v), 8);
    SignedOfUnsigned(v);
  }

  lemma FourParts(a: Bytes, b: Bytes, c: Bytes, d: Bytes)
    requires |a| == 4 && |b| == |c| == 8 && |d| == 12
    ensures var s := a + b + c + d; s[..4] == a && s[4..12] == b && s[12..20] == c && s[20..32] == d
  {}

  /** Parsing inverts marshalling on every header of 64-bit integers. */
  lemma HeaderRoundTrip(h: ChunkHeader)
    requires |h.nonce| == NONCE_SIZE
    requires -TWO_63 <= h.index < TWO_63 && -TWO_63 <= h.plainLen < TWO_63
    ensures ParseChunkHeader(Marshal(h)) == Some(h)
  {
    hide BigEndian, FromBigEndian, Unsigned64, Signed64;
    FourParts(MAGIC_CHUNK, BigEndian(Unsigned64(h.index), 8), BigEndian(Unsigned64(h.plainLen), 8), h.nonce);
    Decode64(h.index);
    Decode64(h.plainLen);
  }

  /** Marshalling inverts parsing too: 32 bytes that parse are those of one header. */
  lemma ParsedHeaderIs(b: Bytes)
    requires |b| == HEADER_SIZE
    ensures ParseChunkHeader(b) == None <==> b[..4] != [0x53, 0x56, 0x43, 0x31]
    ensures ParseChunkHeader(b).Some? ==>
      |ParseChunkHeader(b).value.nonce| == NONCE_SIZE && Marshal(ParseChunkHeader(b).value) == b
  {
    hide BigEndian, FromBigEndian, Unsigned64, Signed64;
    if ParseChunkHeader(b).Some? {
      Encode64(b[4..12]);
      Encode64(b[12..20]);
      assert b == b[..4] + b[4..12] + b[12..20] + b[20..32];
    }
  }

  lemma Encode64(b: Bytes)
    requires |b| == 8
    ensures BigEndian(Unsigned64(Signed64(FromBigEndian(b))), 8) == b
    ensures -TWO_63 <= Signed64(FromBigEndian(b)) < TWO_63
  {
    hide BigEndian, FromBigEndian;
    BaseValues();
    FromBigEndianRoundTrip(b);
  }

  /** copy(dst[at..], src) of Go. */
  method CopyAt(dst: array<byte>, at: nat, src: Bytes)
    requires at + |src| <= dst.Length
    modifies dst
    ensures dst[..] == old(dst[..at]) + src + old(dst[at + |src|..])
  {
    for i := 0 to |src|
      invariant dst[..at] == old(dst[..at])
      invariant dst[at..at + i] == src[..i]
      invariant dst[at + i..] == old(dst[at + i..])
    {
      dst[at + i] := src[i];
    }
  }

  method MarshalHeader(h: ChunkHeader) returns (b: array<byte>)
    requires |h.nonce| == NONCE_SIZE
    ensures fresh(b) && b[..] == Marshal(h)
  {
    hide BigEndian, Unsigned64;
    b := new byte[HEADER_SIZE](_ => 0);
    CopyAt(b, 0, MAGIC_CHUNK);
    CopyAt(b, 4, BigEndian(Unsigned64(h.index), 8));
    CopyAt(b, 12, BigEndian(Unsigned64(h.plainLen), 8));
    CopyAt(b, 20, h.nonce);
    assert b[..4] == MAGIC_CHUNK;
    assert b[4..12] == BigEndian(Unsigned64(h.index), 8);
    assert b[12..20] == BigEndian(Unsigned64(h.plainLen), 8);
    assert b[20..32] == h.nonce;
    assert b[..] == b[..4] + b[4..12] + b[12..20] + b[20..32];
  }

  // ---------- trailer ----------

  datatype Trailer = Trailer(version: nat, fileID: Bytes, nonce: Bytes, payload: Bytes)

  datatype ParseResult = Found(trailer: Trailer) | UnsupportedVersion(version: nat) | NoManifest

  predicate WellFormed(t: Trailer) {
    |t.fileID| == FILE_ID_SIZE && |t.nonce| == NONCE_SIZE
  }

  /** The frame up to, but without, its checksum. */
  function Body(t: Trailer): (b: Bytes)
    requires WellFormed(t)
    ensures |b| == TRAILER_FIXED + |t.payload|
  {
    MAGIC_TRAILER + [ByteOf(t.version), 0, 0, 0] + t.fileID + t.nonce + BigEndian(|t.payload|, 4) + t.payload
  }

  function Sum(b: Bytes): (s: Bytes)
    ensures |s| == 4
  {
    BigEndian(Crc32c.Word(Crc32c.Checksum(b)), 4)
  }

  function Frame(t: Trailer): (b: Bytes)
    requires WellFormed(t)
    ensures |b| == TRAILER_FIXED + |t.payload| + 4
  {
    Body(t) + Sum(Body(t))
  }

  method BuildTrailer(t: Trailer) returns (out: Bytes)
    requires WellFormed(t)
    ensures out == Frame(t)
  {
    out := [];
    out := out + MAGIC_TRAILER;
    out := out + [ByteOf(t.version), 0, 0, 0];
    out := out + t.fileID;
    out := out + t.nonce;
    out := out + BigEndian(|t.payload|, 4);
    out := out + t.payload;
    assert out == Body(t);
    var c := Crc32c.Compute(out);
    out := out + BigEndian(Crc32c.Word(c), 4);
  }

  /** The tests ParseTrailer applies at position i: a frame that ends the buffer. */
  predicate FrameAt(tail: Bytes, i: nat) {
    && i + 4 <= |tail| && tail[i..i + 4] == MAGIC_TRAILER
    && i + TRAILER_FIXED <= |tail|
    && (var l := FromBigEndian(tail[i + 36..i + 40]);
        i + TRAILER_FIXED + l + 4 == |tail| && l >= 16)
    && Crc32c.Word(Crc32c.Checksum(tail[i..|tail| - 4])) == FromBigEndian(tail[|tail| - 4..])
  }

  /** What an accepted frame at position i yields. */
  function ReadFrame(tail: Bytes, i: nat): ParseResult
    requires FrameAt(tail, i)
  {
    var v := IntOf(tail[i + 4]);
    if v != 2 && v != 3 then UnsupportedVersion(v)
    else Found(Trailer(v, tail[i + 8..i + 24], tail[i + 24..i + 36], tail[i + 40..|tail| - 4]))
  }

  /** The bytes of a trailer frame. Three of them have no meaning yet. */
  ghost predicate IsFrame(b: Bytes, t: Trailer, reserved: Bytes) {
    && WellFormed(t) && |reserved| == 3 && 16 <= |t.payload| < 0x1_0000_0000 && t.version < 256
    && (var body := [0x53, 0x56, 0x4C, 0x54] + [ByteOf(t.version)] + reserved + t.fileID + t.nonce
                    + BigEndian(|t.payload|, 4) + t.payload;
        b == body + BigEndian(Crc32c.Word(Crc32c.Checksum(body)), 4))
  }

  lemma FrameNeedsRoom(tail: Bytes, i: nat)
    ensures FrameAt(tail, i) ==> i + 4 <= |tail|
  {}

  /** One round of the scan: the tests at position i, in the parser's order. */
  method TryFrame(tail: Bytes, i: nat) returns (ok: bool)
    requires i + 4 <= |tail|
    ensures ok == FrameAt(tail, i)
  {
    hide Crc32c.Checksum, Crc32c.Word, Crc32c.Reflected, PolynomialDivision.Crc, FromBigEndian;
    if tail[i..i + 4] != MAGIC_TRAILER {
      return false;
    }
    if i + TRAILER_FIXED > |tail| {
      return false;
    }
    var l := FromBigEndian(tail[i + 36..i + 40]);
    var end := i + TRAILER_FIXED + l + 4;
    if end != |tail| || l < 16 {
      return false;
    }
    var sum := Crc32c.Compute(tail[i..end - 4]);
    return Crc32c.Word(sum) == FromBigEndian(tail[end - 4..]);
  }

  /** The backward scan: the accepted frame at the greatest position wins. */
  method ParseTrailer(tail: Bytes) returns (r: ParseResult)
    ensures r.NoManifest? ==> forall i: nat :: !FrameAt(tail, i)
    ensures !r.NoManifest? ==> exists i: nat ::
      FrameAt(tail, i) && r == ReadFrame(tail, i) && forall j: nat :: i < j ==> !FrameAt(tail, j)
  {
    hide FrameAt;
    var i := |tail| - 4;
    forall j: nat | i < j
      ensures !FrameAt(tail, j)
    {
      FrameNeedsRoom(tail, j);
    }
    while i >= 0
      invariant i <= |tail| - 4
      invariant forall j: nat :: i < j ==> !FrameAt(tail, j)
    {
      var ok := TryFrame(tail, i);
      if ok {
        return ReadFrame(tail, i);
      }
      i := i - 1;
    }
    return NoManifest;
  }

  /** Where a frame's parts sit behind a prefix. */
  lemma FrameParts(prefix: Bytes, t: Trailer)
    requires WellFormed(t)
    ensures
      var tail, i := prefix + Frame(t), |prefix|;
      && |tail| == i + TRAILER_FIXED + |t.payload| + 4
      && tail[i..i + 4] == MAGIC_TRAILER
      && tail[i + 4] == ByteOf(t.version)
      && tail[i + 5..i + 8] == [0, 0, 0]
      && tail[i + 8..i + 24] == t.fileID
      && tail[i + 24..i + 36] == t.nonce
      && tail[i + 36..i + 40] == BigEndian(|t.payload|, 4)
      && tail[i + 40..|tail| - 4] == t.payload
      && tail[i..|tail| - 4] == Body(t)
      && tail[|tail| - 4..] == Sum(Body(t))
  {
    hide BigEndian, Sum;
  }

  lemma SumDecodes(b: Bytes)
    ensures FromBigEndian(Sum(b)) == Crc32c.Word(Crc32c.Checksum(b))
  {
    hide BigEndian, FromBigEndian, Crc32c.Checksum, Crc32c.Word;
    BaseValues();
    Crc32c.WordFacts(Crc32c.Checksum(b), Crc32c.Checksum(b));
    BigEndianRoundTrip(Crc32c.Word(Crc32c.Checksum(b)), 4);
  }

  /** Four length bytes decode to the length modulo 2^32. */
  lemma LengthDecodes(n: nat)
    ensures FromBigEndian(BigEndian(n, 4)) == n % 0x1_0000_0000
  {
    hide ByteOf, IntOf;
    BaseValues();
    FromBigEndianRoundTrip(BigEndian(n, 4));
    BigEndianLow(n, 4);
    BigEndianRoundTrip(n % Base(4), 4);
  }

  lemma BasePositive(n: nat)
    ensures Base(n) > 0
  {}

  lemma {:induction false} BigEndianLow(v: nat, n: nat)
    ensures Base(n) > 0 && BigEndian(v % Base(n), n) == BigEndian(v, n)
    decreases n
  {
    BasePositive(n);
    if n == 0 {
    } else {
      hide ByteOf, IntOf;
      var b := Base(n - 1);
      BasePositive(n - 1);
      BigEndianLow(v / 256, n - 1);
      ModDiv(v, b);
      ByteOfSameResidue(v, v % 256);
      ByteOfSameResidue(v % (256 * b), v % 256);
    }
  }

  lemma ModDiv(v: nat, b: nat)
    requires b > 0
    ensures (v % (256 * b)) / 256 == (v / 256) % b
    ensures (v % (256 * b)) % 256 == v % 256
  {
    var q, r := v / 256, v % 256;
    var d, m := q / b, q % b;
    assert v == 256 * q + r && q == b * d + m;
    assert v == (256 * b) * d + (256 * m + r);
    assert 256 * m + r < 256 * b;
    DivModUnique(256 * b, d, 256 * m + r);
    assert Remainder(d * (256 * b) + (256 * m + r), 256 * b) == v % (256 * b);
  }

  /** The parser accepts the builder's frame at its own position exactly when
      the payload holds at least a GCM tag and fits the length field. */
  lemma OwnFrameAccepted(prefix: Bytes, t: Trailer)
    requires WellFormed(t)
    ensures FrameAt(prefix + Frame(t), |prefix|) <==> 16 <= |t.payload| < 0x1_0000_0000
  {
    hide BigEndian, FromBigEndian, Frame, Body, Sum, Crc32c.Checksum, Crc32c.Word;
    FrameParts(prefix, t);
    LengthDecodes(|t.payload|);
    SumDecodes(Body(t));
  }

  /** Parsing inverts building: with no valid frame starting later, the parser's
      unique answer on the builder's output is the trailer that was built. */
  lemma TrailerRoundTrip(prefix: Bytes, t: Trailer)
    requires WellFormed(t) && 16 <= |t.payload| < 0x1_0000_0000
    ensures FrameAt(prefix + Frame(t), |prefix|)
    ensures ReadFrame(prefix + Frame(t), |prefix|) ==
      if t.version % 256 == 2 || t.version % 256 == 3
      then Found(t.(version := t.version % 256)) else UnsupportedVersion(t.version % 256)
  {
    hide BigEndian, FromBigEndian, Frame, Body, Sum, FrameAt, ByteOf, IntOf;
    OwnFrameAccepted(prefix, t);
    FrameParts(prefix, t);
    ByteOfInt(t.version);
  }

  /** What the parser accepts at a position is a frame up to the end, and any such frame;
      what it then returns is the frame's trailer. */
  lemma AcceptedFrames(tail: Bytes, i: nat)
    requires i <= |tail|
    ensures FrameAt(tail, i) <==> exists t, reserved :: IsFrame(tail[i..], t, reserved)
    ensures forall t, reserved :: IsFrame(tail[i..], t, reserved) && t.version in {2, 3} ==> ReadFrame(tail, i) == Found(t)
  {
    hide IsFrame, FrameAt, ReadFrame;
    if FrameAt(tail, i) {
      FrameIsOne(tail, i);
    }
    forall t, reserved | IsFrame(tail[i..], t, reserved)
      ensures FrameAt(tail, i)
      ensures t.version in {2, 3} ==> ReadFrame(tail, i) == Found(t)
    {
      OneIsFrame(tail, i, t, reserved);
    }
  }

  lemma FrameIsOne(tail: Bytes, i: nat)
    requires FrameAt(tail, i)
    ensures exists t, reserved :: IsFrame(tail[i..], t, reserved)
  {
    hide BigEndian, FromBigEndian, Crc32c.Checksum, Crc32c.Word, ByteOf, IntOf;
    var b := tail[i..];
    var n := |b|;
    var t, reserved := Trailer(IntOf(b[4]), b[8..24], b[24..36], b[40..n - 4]), b[5..8];
    var body := b[..n - 4];
    assert b[..4] == tail[i..i + 4] && b[36..40] == tail[i + 36..i + 40] && b[n - 4..] == tail[|tail| - 4..];
    assert body == tail[i..|tail| - 4];
    BaseValues();
    FromBigEndianRoundTrip(b[36..40]);
    SumDecodes(body);
    FromBigEndianRoundTrip(b[n - 4..]);
    FromBigEndianRoundTrip(Sum(body));
    IntOfByte(b[4]);
    assert body == b[..4] + [b[4]] + b[5..8] + b[8..24] + b[24..36] + b[36..40] + b[40..n - 4];
    assert b == body + b[n - 4..];
    assert IsFrame(b, t, reserved);
  }

  lemma OneIsFrame(tail: Bytes, i: nat, t: Trailer, reserved: Bytes)
    requires i <= |tail| && IsFrame(tail[i..], t, reserved)
    ensures FrameAt(tail, i)
    ensures t.version in {2, 3} ==> ReadFrame(tail, i) == Found(t)
  {
    hide BigEndian, FromBigEndian, Crc32c.Checksum, Crc32c.Word, ByteOf, IntOf;
    var b, n := tail[i..], |tail| - i;
    LengthDecodes(|t.payload|);
    var body := b[..n - 4];
    SumDecodes(body);
    assert b[n - 4..] == Sum(body);
    assert tail[i..i + 4] == b[..4] == MAGIC_TRAILER && tail[i + 36..i + 40] == b[36..40] == BigEndian(|t.payload|, 4);
    assert tail[|tail| - 4..] == b[n - 4..] && tail[i..|tail| - 4] == body;
    assert tail[i + 4] == b[4] == ByteOf(t.version);
    ByteOfInt(t.version);
    assert tail[i + 8..i + 24] == b[8..24] == t.fileID && tail[i + 24..i + 36] == b[24..36] == t.nonce;
    assert tail[i + 40..|tail| - 4] == b[40..n - 4] == t.payload;
  }

  method ParseAfterBuild(prefix: Bytes, t: Trailer) returns (r: ParseResult)
    requires WellFormed(t) && 16 <= |t.payload| < 0x1_0000_0000 && t.version in {2, 3}
    requires forall j: nat :: |prefix| < j ==> !FrameAt(prefix + Frame(t), j)
    ensures r == Found(t)
  {
    hide FrameAt, ReadFrame, Frame;
    TrailerRoundTrip(prefix, t);
    var frame := BuildTrailer(t);
    r := ParseTrailer(prefix + frame);
  }

  /** Changing any single byte of a frame makes it rejected where it stands. */
  lemma DamagedFrameRejected(prefix: Bytes, t: Trailer, n: nat, b: byte)
    requires WellFormed(t) && |t.payload| < 0x1_0000_0000
    requires n < |Frame(t)| && b != Frame(t)[n]
    ensures !FrameAt(prefix + Frame(t)[n := b], |prefix|)
  {
    hide BigEndian, FromBigEndian, Frame, Body, Sum, Crc32c.Checksum, Crc32c.Word;
    var i := |prefix|;
    var good, tail := prefix + Frame(t), prefix + Frame(t)[n := b];
    FrameParts(prefix, t);
    SumDecodes(Body(t));
    LengthDecodes(|t.payload|);
    var cut := |tail| - 4;
    assert good[i..cut] == Body(t);
    assert forall j :: 0 <= j < |tail| && j != i + n ==> tail[j] == good[j];
    assert tail[i + n] == b != good[i + n];
    if n < 4 {
      assert tail[i..i + 4][n] != good[i..i + 4][n];
    } else if n >= |Frame(t)| - 4 {
      assert tail[i..cut] == Body(t);
      assert tail[cut..][i + n - cut] != good[cut..][i + n - cut];
      FromBigEndianInjective(tail[cut..], good[cut..]);
    } else if 36 <= n < 40 {
      assert tail[i + 36..i + 40][n - 36] != good[i + 36..i + 40][n - 36];
      FromBigEndianInjective(tail[i + 36..i + 40], good[i + 36..i + 40]);
    } else {
      assert tail[i..cut] == Body(t)[n := b];
      assert tail[cut..] == good[cut..];
      Crc32c.ChecksumDetects(Body(t), n, b);
      Crc32c.WordFacts(Crc32c.Checksum(Body(t)), Crc32c.Checksum(Body(t)[n := b]));
    }
  }

  lemma FromBigEndianInjective(a: Bytes, b: Bytes)
    requires |a| == |b| && a != b
    ensures FromBigEndian(a) != FromBigEndian(b)
  {
    hide FromBigEndian, BigEndian;
    FromBigEndianRoundTrip(a);
    FromBigEndianRoundTrip(b);
  }

  // ---------- manifest ----------

  datatype Manifest = Manifest(version: int, k: int, m: int, k2: int, m2: int, shardSize: int, chunkPlain: int,
                               chunkCount: int, plainSize: int, kStrong: int, mStrong: int)

  datatype Check = Accepted | UnsupportedFormat | SizeMismatch

  function ResolveSpec(man: Manifest): Spec
    requires man.m2 >= 0 && man.version >= 0
  {
    if man.version >= 3 then Spec(3, man.m2) else Spec(2, FILE_PARITY_SHARDS)
  }

  /** The field tests of validateRSDual, before the size is compared. */
  predicate DualFields(man: Manifest) {
    && man.version in {2, 3}
    && man.k == DATA_SHARDS && man.m == PARITY_SHARDS && man.k2 == FILE_GROUP_CHUNKS
    && man.shardSize == SHARD_SIZE && man.chunkPlain == CHUNK_PLAIN_SIZE
    && (man.m2 == FILE_PARITY_SHARDS || (man.version == 3 && 1 <= man.m2 <= FILE_PARITY_SHARDS))
    && man.chunkCount >= 0 && man.plainSize >= 0
    && (man.chunkCount == 0 ==> man.plainSize == 0)
    && (man.chunkCount > 0 ==>
          (man.chunkCount - 1) * CHUNK_PLAIN_SIZE + 1 <= man.plainSize <= man.chunkCount * CHUNK_PLAIN_SIZE)
  }

  function ValidateRSDual(man: Manifest, size: int, trailerLen: nat): Check {
    if !DualFields(man) then UnsupportedFormat
    else if ResolveSpec(man).TotalBlobCount(man.chunkCount) * BLOB_DISK_SIZE + trailerLen != size then SizeMismatch
    else Accepted
  }

  /** The manifest of a chunked container: format, parity cap and plaintext size decide
      all fields but the two that only rs-strong has. */
  function DualManifest(version: int, m2: int, plainSize: nat, kStrong: int, mStrong: int): Manifest {
    Manifest(version, 256, 128, 128, m2, 4096, 1048528, if plainSize == 0 then 0 else (plainSize - 1) / 1048528 + 1,
             plainSize, kStrong, mStrong)
  }

  /** What is accepted: the v2 manifest with 64 parity blobs or a v3 manifest with a cap
      of 1 to 64, of some plaintext size, for the file size of that many chunks. */
  lemma AcceptedIff(man: Manifest, size: int, trailerLen: nat)
    ensures ValidateRSDual(man, size, trailerLen) == Accepted <==>
      && man.plainSize >= 0 && man == DualManifest(man.version, man.m2, man.plainSize, man.kStrong, man.mStrong)
      && ((man.version == 2 && man.m2 == 64) || (man.version == 3 && 1 <= man.m2 <= 64))
      && size == Spec(man.version, man.m2).TotalBlobCount(man.chunkCount) * BLOB_DISK_SIZE + trailerLen
    ensures ValidateRSDual(man, size, trailerLen) == SizeMismatch ==>
      exists other :: other != size && ValidateRSDual(man, other, trailerLen) == Accepted
  {
    hide Spec.TotalBlobCount;
    if DualFields(man) {
      var right := ResolveSpec(man).TotalBlobCount(man.chunkCount) * BLOB_DISK_SIZE + trailerLen;
      assert ValidateRSDual(man, right, trailerLen) == Accepted;
    }
  }

  lemma AcceptedFacts(man: Manifest, size: int, trailerLen: nat)
    requires ValidateRSDual(man, size, trailerLen) == Accepted
    ensures ResolveSpec(man).Valid() && man.chunkCount >= 0
    ensures ResolveSpec(man).TotalBlobCount(man.chunkCount) * BLOB_DISK_SIZE + trailerLen == size
  {}

  lemma SizeOrder(a: int, b: int)
    requires a < b
    ensures a * BLOB_DISK_SIZE < b * BLOB_DISK_SIZE
  {}

  /** An accepted manifest has a layout that tiles, its file ends exactly with
      the trailer, and no other chunk count fits the same file. */
  lemma AcceptedDual(man: Manifest, other: Manifest, size: int, trailerLen: nat)
    requires ValidateRSDual(man, size, trailerLen) == Accepted
    requires ValidateRSDual(other, size, trailerLen) == Accepted
    requires ResolveSpec(man) == ResolveSpec(other)
    ensures ResolveSpec(man).Valid()
    ensures man.chunkCount == other.chunkCount
  {
    AcceptedFacts(man, size, trailerLen);
    AcceptedFacts(other, size, trailerLen);
    hide *;
    SameCount(ResolveSpec(man), man.chunkCount, other.chunkCount);
  }

  lemma SameCount(spec: Spec, c: nat, d: nat)
    requires spec.Valid()
    requires spec.TotalBlobCount(c) * BLOB_DISK_SIZE == spec.TotalBlobCount(d) * BLOB_DISK_SIZE
    ensures c == d
  {
    hide *;
    if c < d {
      TotalStrictlyIncreasing(spec, c, d);
      SizeOrder(spec.TotalBlobCount(c), spec.TotalBlobCount(d));
    } else if d < c {
      TotalStrictlyIncreasing(spec, d, c);
      SizeOrder(spec.TotalBlobCount(d), spec.TotalBlobCount(c));
    }
  }
}

/** Layout constants, offsets and counts (internal/layout/layout.go), and the
    proof that the blobs of a container tile its file. */
module Layout {

  // Sizes in bytes and counts; derived constants are written as numbers.
  const SHARD_SIZE: nat := 4096
  const TAG_SIZE: nat := 16
  const DATA_SHARDS: nat := 256
  const PARITY_SHARDS: nat := 128
  const SHARDS_PER_BLOB: nat := 384         // DATA_SHARDS + PARITY_SHARDS
  const HEADER_SIZE: nat := 32
  const BLOB_PLAIN_SIZE: nat := 1048576     // DATA_SHARDS * SHARD_SIZE
  const CHUNK_PLAIN_SIZE: nat := 1048528    // BLOB_PLAIN_SIZE - HEADER_SIZE - TAG_SIZE
  const SLOT_SIZE: nat := 4112              // SHARD_SIZE + TAG_SIZE
  const BLOB_DISK_SIZE: nat := 1579008      // SHARDS_PER_BLOB * SLOT_SIZE
  const FILE_GROUP_CHUNKS: nat := 128
  const FILE_PARITY_SHARDS: nat := 64
  const BLOBS_PER_FULL_GROUP: nat := 192    // FILE_GROUP_CHUNKS + FILE_PARITY_SHARDS
  const NONCE_SIZE: nat := 12
  const K_STRONG: nat := 32
  const M_STRONG: nat := 64
  const STRONG_SLOTS: nat := 96             // K_STRONG + M_STRONG
  const WINDOW: nat := 32                   // columns per file-level window
  const WINDOWS: nat := 12                  // SHARDS_PER_BLOB / WINDOW
  const WINDOW_BYTES: nat := 131072         // WINDOW * SHARD_SIZE

  function Min(a: nat, b: nat): nat {
    if a <= b then a else b
  }

  function GroupCount(chunkCount: nat): nat {
    if chunkCount == 0 then 0 else (chunkCount - 1) / FILE_GROUP_CHUNKS + 1
  }

  function LastGroupChunks(chunkCount: nat): int {
    chunkCount - (GroupCount(chunkCount) - 1) * FILE_GROUP_CHUNKS
  }

  function DataChunksInGroup(g: nat, chunkCount: nat): int {
    if g == GroupCount(chunkCount) - 1 then LastGroupChunks(chunkCount) else FILE_GROUP_CHUNKS
  }

  function StrongShardSize(plainSize: nat): nat {
    (HEADER_SIZE + plainSize + TAG_SIZE + K_STRONG - 1) / K_STRONG
  }

  function StrongSlotSize(plainSize: nat): nat {
    StrongShardSize(plainSize) + TAG_SIZE
  }

  function StrongPayloadSize(plainSize: nat): nat {
    STRONG_SLOTS * StrongSlotSize(plainSize)
  }

  /** Format version and file-level parity cap. */
  datatype Spec = Spec(version: nat, m2cap: nat) {

    /** What the two constructors and the manifest check let through. */
    predicate Valid() {
      (version == 2 && m2cap == FILE_PARITY_SHARDS) || (version == 3 && 1 <= m2cap <= FILE_PARITY_SHARDS)
    }

    function GroupSpan(): (span: nat)
      ensures span >= FILE_GROUP_CHUNKS
    {
      if version >= 3 then FILE_GROUP_CHUNKS + m2cap else BLOBS_PER_FULL_GROUP
    }

    function ParityCountFor(kData: nat): nat {
      if version >= 3 then Min(m2cap, kData) else FILE_PARITY_SHARDS
    }

    function GroupParity(g: nat, chunkCount: nat): nat
      requires DataChunksInGroup(g, chunkCount) >= 0
    {
      ParityCountFor(DataChunksInGroup(g, chunkCount))
    }

    function DataBlobOffset(i: nat): nat {
      var base := i / FILE_GROUP_CHUNKS * GroupSpan() * BLOB_DISK_SIZE;
      if version >= 3 then base + i % FILE_GROUP_CHUNKS * BLOB_DISK_SIZE
      else base + FILE_PARITY_SHARDS * BLOB_DISK_SIZE + i % FILE_GROUP_CHUNKS * BLOB_DISK_SIZE
    }

    function ParityBlobOffset(g: nat, kData: nat, q: nat): nat {
      var base := g * GroupSpan() * BLOB_DISK_SIZE;
      if version >= 3 then base + kData * BLOB_DISK_SIZE + q * BLOB_DISK_SIZE
      else base + q * BLOB_DISK_SIZE
    }

    function TotalBlobCount(chunkCount: nat): nat {
      var g := GroupCount(chunkCount);
      if g == 0 then 0
      else
        GroupFacts(chunkCount, g - 1);
        var kLast: nat := LastGroupChunks(chunkCount);
        if version >= 3 then (g - 1) * GroupSpan() + kLast + Min(m2cap, kLast)
        else (g - 1) * GroupSpan() + kLast + FILE_PARITY_SHARDS
    }
  }

  /** A blob of a container: data chunk i, or parity q of group g. */
  datatype Blob = Data(i: nat) | Parity(g: nat, q: nat)

  predicate InContainer(spec: Spec, c: nat, b: Blob) {
    match b
    case Data(i) => i < c
    case Parity(g, q) => g < GroupCount(c) && DataChunksInGroup(g, c) >= 0 && q < spec.GroupParity(g, c)
  }

  /** Where the source puts a blob. */
  function Offset(spec: Spec, c: nat, b: Blob): nat
    requires InContainer(spec, c, b)
  {
    match b
    case Data(i) => spec.DataBlobOffset(i)
    case Parity(g, q) => spec.ParityBlobOffset(g, DataChunksInGroup(g, c), q)
  }

  lemma GroupFacts(c: nat, g: nat)
    requires g < GroupCount(c)
    ensures 1 <= DataChunksInGroup(g, c) <= FILE_GROUP_CHUNKS
    ensures g * FILE_GROUP_CHUNKS + DataChunksInGroup(g, c) <= c
    ensures g < GroupCount(c) - 1 ==> DataChunksInGroup(g, c) == FILE_GROUP_CHUNKS
    ensures (GroupCount(c) - 1) * FILE_GROUP_CHUNKS + LastGroupChunks(c) == c
  {}

  /** Chunk i sits in group i / 128, at a position the group has. */
  lemma ChunkInGroup(c: nat, i: nat)
    requires i < c
    ensures i / FILE_GROUP_CHUNKS < GroupCount(c)
    ensures i % FILE_GROUP_CHUNKS < DataChunksInGroup(i / FILE_GROUP_CHUNKS, c)
  {}

  /** The index of a blob within its group. */
  function Rank(spec: Spec, c: nat, b: Blob): nat
    requires InContainer(spec, c, b)
  {
    match b
    case Data(i) => (if spec.version >= 3 then 0 else FILE_PARITY_SHARDS) + i % FILE_GROUP_CHUNKS
    case Parity(g, q) => (if spec.version >= 3 then DataChunksInGroup(g, c) else 0) + q
  }

  function GroupOf(b: Blob): nat {
    match b
    case Data(i) => i / FILE_GROUP_CHUNKS
    case Parity(g, _) => g
  }

  /** The blob number of a blob: its offset in units of BLOB_DISK_SIZE. */
  function Place(spec: Spec, c: nat, b: Blob): nat
    requires InContainer(spec, c, b)
  {
    GroupOf(b) * spec.GroupSpan() + Rank(spec, c, b)
  }

  function Quotient(n: nat, d: nat): nat
    requires d > 0
  {
    n / d
  }

  function Remainder(n: nat, d: nat): nat
    requires d > 0
  {
    n % d
  }

  lemma DivMod(n: nat, d: nat)
    requires d > 0
    ensures n == Quotient(n, d) * d + Remainder(n, d)
    ensures Remainder(n, d) < d
  {}

  lemma DivModUnique(span: nat, g: nat, r: nat)
    requires r < span
    ensures Quotient(g * span + r, span) == g && Remainder(g * span + r, span) == r
  {
    hide Quotient, Remainder;
    var d := Quotient(g * span + r, span);
    DivMod(g * span + r, span);
    if d < g {
      MulMonotone(d + 1, g, span);
    } else if g < d {
      MulMonotone(g + 1, d, span);
    }
  }

  lemma MulMonotone(a: nat, b: nat, c: nat)
    requires a <= b
    ensures a * c <= b * c
  {}

  /** Numbers below last full spans and a tail: the quotient is at most last. */
  lemma QuotientBound(n: nat, span: nat, last: nat, tail: nat)
    requires span > 0 && tail <= span && n < last * span + tail
    ensures Quotient(n, span) <= last
    ensures Quotient(n, span) == last ==> Remainder(n, span) < tail
  {
    hide Quotient, Remainder;
    var d := Quotient(n, span);
    DivMod(n, span);
    if last < d { MulMonotone(last + 1, d, span); }
  }

  /** The blobs of group g. */
  function GroupLength(spec: Spec, c: nat, g: nat): nat
    requires g < GroupCount(c)
  {
    GroupFacts(c, g);
    DataChunksInGroup(g, c) + spec.GroupParity(g, c)
  }

  lemma GroupLengthBound(spec: Spec, c: nat, g: nat)
    requires spec.Valid() && g < GroupCount(c)
    ensures GroupLength(spec, c, g) <= spec.GroupSpan()
    ensures g < GroupCount(c) - 1 ==> GroupLength(spec, c, g) == spec.GroupSpan()
  {
    GroupFacts(c, g);
  }

  lemma TotalIsZero(spec: Spec, c: nat)
    requires GroupCount(c) == 0
    ensures spec.TotalBlobCount(c) == 0
  {}

  lemma TotalIsSum(spec: Spec, c: nat)
    requires spec.Valid() && GroupCount(c) > 0
    ensures spec.TotalBlobCount(c) == (GroupCount(c) - 1) * spec.GroupSpan() + GroupLength(spec, c, GroupCount(c) - 1)
  {
    GroupFacts(c, GroupCount(c) - 1);
  }

  /** A blob number below the total lies in an existing group, within its length. */
  lemma NumberInGroup(spec: Spec, c: nat, n: nat)
    requires spec.Valid() && n < spec.TotalBlobCount(c)
    ensures
      var g := Quotient(n, spec.GroupSpan());
      g < GroupCount(c) && Remainder(n, spec.GroupSpan()) < GroupLength(spec, c, g)
  {
    hide GroupLength, Quotient, Remainder, GroupCount;
    var last := GroupCount(c) - 1;
    if GroupCount(c) == 0 { TotalIsZero(spec, c); }
    TotalIsSum(spec, c);
    GroupLengthBound(spec, c, last);
    DivMod(n, spec.GroupSpan());
    QuotientBound(n, spec.GroupSpan(), last, GroupLength(spec, c, last));
    GroupLengthBound(spec, c, Quotient(n, spec.GroupSpan()));
  }

  lemma RankInGroup(spec: Spec, c: nat, b: Blob)
    requires spec.Valid() && InContainer(spec, c, b)
    ensures GroupOf(b) < GroupCount(c)
    ensures Rank(spec, c, b) < GroupLength(spec, c, GroupOf(b))
  {
    if b.Data? { ChunkInGroup(c, b.i); }
    GroupFacts(c, GroupOf(b));
  }

  /** A rank within group g lies below the total. */
  lemma PlaceBelowTotal(spec: Spec, c: nat, g: nat, r: nat)
    requires spec.Valid() && g < GroupCount(c) && r < GroupLength(spec, c, g)
    ensures r < spec.GroupSpan()
    ensures g * spec.GroupSpan() + r < spec.TotalBlobCount(c)
  {
    hide GroupLength;
    var last := GroupCount(c) - 1;
    TotalIsSum(spec, c);
    GroupLengthBound(spec, c, g);
    if g < last { MulMonotone(g + 1, last, spec.GroupSpan()); }
  }

  /** The blob of rank r in group g. */
  function BlobAt(spec: Spec, c: nat, g: nat, r: nat): Blob
    requires g < GroupCount(c)
  {
    GroupFacts(c, g);
    var k := DataChunksInGroup(g, c);
    if spec.version >= 3 then
      if r < k then Data(g * FILE_GROUP_CHUNKS + r) else Parity(g, r - k)
    else
      if r < FILE_PARITY_SHARDS then Parity(g, r) else Data(g * FILE_GROUP_CHUNKS + (r - FILE_PARITY_SHARDS))
  }

  lemma BlobAtRank(spec: Spec, c: nat, b: Blob)
    requires spec.Valid() && InContainer(spec, c, b) && GroupOf(b) < GroupCount(c)
    ensures BlobAt(spec, c, GroupOf(b), Rank(spec, c, b)) == b
  {
    if b.Data? { ChunkInGroup(c, b.i); }
    GroupFacts(c, GroupOf(b));
  }

  lemma RankOfBlobAt(spec: Spec, c: nat, g: nat, r: nat)
    requires spec.Valid() && g < GroupCount(c) && r < GroupLength(spec, c, g)
    ensures InContainer(spec, c, BlobAt(spec, c, g, r))
    ensures GroupOf(BlobAt(spec, c, g, r)) == g
    ensures Rank(spec, c, BlobAt(spec, c, g, r)) == r
  {
    GroupFacts(c, g);
  }

  /** The blob found at a given blob number. */
  function Locate(spec: Spec, c: nat, n: nat): Blob
    requires spec.Valid() && n < spec.TotalBlobCount(c)
  {
    NumberInGroup(spec, c, n);
    BlobAt(spec, c, Quotient(n, spec.GroupSpan()), Remainder(n, spec.GroupSpan()))
  }

  /** Every blob has its own place below the total, and its byte offset is
      that place in units of BLOB_DISK_SIZE. */
  lemma PlaceIsValid(spec: Spec, c: nat, b: Blob)
    requires spec.Valid() && InContainer(spec, c, b)
    ensures Offset(spec, c, b) == Place(spec, c, b) * BLOB_DISK_SIZE
    ensures Place(spec, c, b) < spec.TotalBlobCount(c)
    ensures Locate(spec, c, Place(spec, c, b)) == b
  {
    hide Offset, Rank, BlobAt, InContainer, GroupOf, GroupLength, GroupCount, Quotient, Remainder;
    RankInGroup(spec, c, b);
    PlaceBelowTotal(spec, c, GroupOf(b), Rank(spec, c, b));
    DivModUnique(spec.GroupSpan(), GroupOf(b), Rank(spec, c, b));
    BlobAtRank(spec, c, b);
    OffsetIsPlace(spec, c, b);
  }

  lemma OffsetIsPlace(spec: Spec, c: nat, b: Blob)
    requires spec.Valid() && InContainer(spec, c, b)
    ensures Offset(spec, c, b) == Place(spec, c, b) * BLOB_DISK_SIZE
  {
    var base := GroupOf(b) * spec.GroupSpan();
    match b {
      case Data(i) =>
        Distribute(base, i % FILE_GROUP_CHUNKS, FILE_PARITY_SHARDS);
      case Parity(g, q) =>
        Distribute(base, DataChunksInGroup(g, c), q);
    }
  }

  lemma Distribute(x: nat, y: nat, z: nat)
    ensures (x + y) * BLOB_DISK_SIZE == x * BLOB_DISK_SIZE + y * BLOB_DISK_SIZE
    ensures (x + z) * BLOB_DISK_SIZE == x * BLOB_DISK_SIZE + z * BLOB_DISK_SIZE
    ensures (x + (y + z)) * BLOB_DISK_SIZE == x * BLOB_DISK_SIZE + y * BLOB_DISK_SIZE + z * BLOB_DISK_SIZE
  {}

  /** Every place below the total is taken by exactly the blob Locate names. */
  lemma PlaceIsTaken(spec: Spec, c: nat, n: nat)
    requires spec.Valid() && n < spec.TotalBlobCount(c)
    ensures InContainer(spec, c, Locate(spec, c, n))
    ensures Place(spec, c, Locate(spec, c, n)) == n
  {
    hide Offset, Rank, BlobAt, InContainer, GroupOf, GroupLength, GroupCount, Quotient, Remainder;
    NumberInGroup(spec, c, n);
    var span := spec.GroupSpan();
    var g, r := Quotient(n, span), Remainder(n, span);
    RankOfBlobAt(spec, c, g, r);
    DivMod(n, span);
    var b := BlobAt(spec, c, g, r);
    assert Locate(spec, c, n) == b;
    assert Place(spec, c, b) == g * span + r;
  }

  /** The blobs of a container and the blob numbers below its total are in
      bijection: offsets are distinct multiples of BLOB_DISK_SIZE, without a gap. */
  lemma Tiling(spec: Spec, c: nat)
    requires spec.Valid()
    ensures forall b, d | InContainer(spec, c, b) && InContainer(spec, c, d) ::
      Offset(spec, c, b) == Offset(spec, c, d) ==> b == d
    ensures forall b | InContainer(spec, c, b) ::
      Offset(spec, c, b) % BLOB_DISK_SIZE == 0 && Offset(spec, c, b) < spec.TotalBlobCount(c) * BLOB_DISK_SIZE
    ensures forall n: nat | n < spec.TotalBlobCount(c) ::
      InContainer(spec, c, Locate(spec, c, n)) && Offset(spec, c, Locate(spec, c, n)) == n * BLOB_DISK_SIZE
  {
    hide InContainer, Offset, Place, Locate;
    forall b, d | InContainer(spec, c, b) && InContainer(spec, c, d)
      ensures Offset(spec, c, b) == Offset(spec, c, d) ==> b == d
    {
      PlaceIsValid(spec, c, b);
      PlaceIsValid(spec, c, d);
    }
    forall b | InContainer(spec, c, b)
      ensures Offset(spec, c, b) % BLOB_DISK_SIZE == 0 && Offset(spec, c, b) < spec.TotalBlobCount(c) * BLOB_DISK_SIZE
    {
      PlaceIsValid(spec, c, b);
    }
    forall n: nat | n < spec.TotalBlobCount(c)
      ensures InContainer(spec, c, Locate(spec, c, n)) && Offset(spec, c, Locate(spec, c, n)) == n * BLOB_DISK_SIZE
    {
      PlaceIsTaken(spec, c, n);
      PlaceIsValid(spec, c, Locate(spec, c, n));
    }
  }

  lemma TotalGrowsByOne(spec: Spec, c: nat)
    requires spec.Valid()
    ensures spec.TotalBlobCount(c) < spec.TotalBlobCount(c + 1)
  {
    var g := GroupCount(c);
    if c % FILE_GROUP_CHUNKS == 0 {
      assert GroupCount(c + 1) == g + 1;
      assert g * spec.GroupSpan() == (g - 1) * spec.GroupSpan() + spec.GroupSpan();
    } else {
      assert GroupCount(c + 1) == g;
    }
  }

  /** More chunks always make a longer file, so under one format and trailer
      length a file size admits at most one chunk count. */
  lemma {:induction false} TotalStrictlyIncreasing(spec: Spec, c: nat, d: nat)
    requires spec.Valid() && c < d
    ensures spec.TotalBlobCount(c) < spec.TotalBlobCount(d)
    decreases d
  {
    TotalGrowsByOne(spec, d - 1);
    if c + 1 < d {
      TotalStrictlyIncreasing(spec, c, d - 1);
    }
  }

  /** The shard size of rs-strong is the least one that holds header, ciphertext and tag. */
  lemma StrongShardFits(plainSize: nat)
    ensures StrongShardSize(plainSize) * K_STRONG >= HEADER_SIZE + plainSize + TAG_SIZE
    ensures (StrongShardSize(plainSize) - 1) * K_STRONG < HEADER_SIZE + plainSize + TAG_SIZE
  {}
}

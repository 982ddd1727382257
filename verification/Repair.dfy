/** Two-level repair (internal/engine/container.go, window.go, codec.go): what
    each step computes, and the engine's loops that compute it. */
module Repair {
  import opened Bytes
  import opened ErasureCode
  import opened Layout
  import opened Vault
  import opened Format

  // ---------- gathering a blob ----------

  /** The slots among the first n whose tag does not verify, in order. */
  function BadUpTo(cr: Crypto, blob: seq<Slot>, n: nat): seq<nat>
    requires n <= |blob|
  {
    if n == 0 then [] else BadUpTo(cr, blob, n - 1) + if Good(cr, blob[n - 1]) then [] else [n - 1]
  }

  function Bad(cr: Crypto, blob: seq<Slot>): seq<nat> {
    BadUpTo(cr, blob, |blob|)
  }

  lemma {:induction false} BadFacts(cr: Crypto, blob: seq<Slot>, n: nat)
    requires n <= |blob|
    ensures forall j :: j in BadUpTo(cr, blob, n) <==> 0 <= j < n && !Good(cr, blob[j])
    ensures forall a, b :: 0 <= a < b < |BadUpTo(cr, blob, n)| ==> BadUpTo(cr, blob, n)[a] < BadUpTo(cr, blob, n)[b]
  {
    if n == 0 {
    } else {
      BadFacts(cr, blob, n - 1);
      var b := BadUpTo(cr, blob, n - 1);
      if Good(cr, blob[n - 1]) {
        assert BadUpTo(cr, blob, n) == b;
      } else {
        assert BadUpTo(cr, blob, n) == b + [n - 1];
        assert forall a :: 0 <= a < |b| ==> b[a] in b;
      }
    }
  }

  function Payloads(blob: seq<Slot>): (p: seq<Bytes>)
    ensures |p| == |blob|
  {
    seq(|blob|, j requires 0 <= j < |blob| => blob[j].payload)
  }

  // ---------- repair inside a blob ----------

  /** The payloads with the bad ones taken out. */
  function Holes(payloads: seq<Bytes>, bad: seq<nat>): seq<Option<Bytes>> {
    seq(|payloads|, j requires 0 <= j < |payloads| => if j in bad then None else Some(payloads[j]))
  }

  /** The payloads with those at the bad positions replaced. */
  function Filled(payloads: seq<Bytes>, bad: seq<nat>, r: Shards): seq<Bytes>
    requires forall j :: j in bad ==> j < |r|
  {
    seq(|payloads|, j requires 0 <= j < |payloads| => if j in bad then r[j] else payloads[j])
  }

  function RepairIntra(cr: Crypto, payloads: seq<Bytes>, bad: seq<nat>): (r: Option<seq<Bytes>>)
    ensures r.Some? ==> |r.value| == |payloads|
  {
    if |bad| == 0 || |bad| > PARITY_SHARDS then None
    else
      match cr.intra.reconstruct(Holes(payloads, bad))
      case None => None
      case Some(r) =>
        if forall j :: j in bad ==> j < |r| && |r[j]| == SHARD_SIZE then Some(Filled(payloads, bad, r)) else None
  }

  // ---------- windows of a group ----------

  /** The payloads of window w, one after the other. */
  function WindowPayload(blob: seq<Slot>, w: nat): Bytes
    requires |blob| == SHARDS_PER_BLOB && w < WINDOWS
  {
    Concat(Payloads(blob[w * WINDOW..w * WINDOW + WINDOW]))
  }

  predicate WindowGood(cr: Crypto, blob: seq<Slot>, w: nat)
    requires |blob| == SHARDS_PER_BLOB && w < WINDOWS
  {
    forall c :: w * WINDOW <= c < w * WINDOW + WINDOW ==> Good(cr, blob[c])
  }

  /** readWindow: the window's payloads, if every tag in it verifies. */
  function WindowRead(cr: Crypto, blob: seq<Slot>, w: nat): Option<Bytes>
    requires |blob| == SHARDS_PER_BLOB && w < WINDOWS
  {
    if WindowGood(cr, blob, w) then Some(WindowPayload(blob, w)) else None
  }

  /** The blobs of one group, data first, as the decoder addresses them. */
  type Group = seq<seq<Slot>>

  predicate Whole(blob: seq<Slot>) {
    |blob| == SHARDS_PER_BLOB && forall j :: 0 <= j < |blob| ==> Sized(blob[j])
  }

  predicate WholeGroup(blobs: Group, k: nat) {
    k <= |blobs| && forall n :: 0 <= n < |blobs| ==> Whole(blobs[n])
  }

  /** What a window offers to the decoder: missing blobs and blobs with a bad
      slot in the window are absent. */
  function GroupView(cr: Crypto, blobs: Group, k: nat, missing: set<int>, w: nat, n: nat): Option<Bytes>
    requires WholeGroup(blobs, k) && w < WINDOWS && n < |blobs|
  {
    if n < k && n in missing then None else WindowRead(cr, blobs[n], w)
  }

  function GroupViews(cr: Crypto, blobs: Group, k: nat, missing: set<int>, w: nat): seq<Option<Bytes>>
    requires WholeGroup(blobs, k) && w < WINDOWS
  {
    seq(|blobs|, n requires 0 <= n < |blobs| => GroupView(cr, blobs, k, missing, w, n))
  }

  /** The cache's range check on the file-level code. */
  predicate FileCodeExists(k: nat, m: nat) {
    1 <= k <= FILE_GROUP_CHUNKS && 1 <= m <= FILE_PARITY_SHARDS
  }

  /** One window rebuilt, unless more than m of its shards are absent. */
  function RebuildWindow(cr: Crypto, blobs: Group, k: nat, missing: set<int>, w: nat): Option<Shards>
    requires WholeGroup(blobs, k) && w < WINDOWS
  {
    var views := GroupViews(cr, blobs, k, missing, w);
    var m := |blobs| - k;
    if |views| - Present(views, |views|) > m then None
    else
      match cr.file(k, m).reconstruct(views)
      case None => None
      case Some(s) =>
        if forall pos :: pos in missing ==> 0 <= pos < |s| && |s[pos]| == WINDOW_BYTES then Some(s) else None
  }

  predicate WindowsOk(cr: Crypto, blobs: Group, k: nat, missing: set<int>, n: nat)
    requires WholeGroup(blobs, k) && n <= WINDOWS
  {
    forall w :: 0 <= w < n ==> RebuildWindow(cr, blobs, k, missing, w).Some?
  }

  /** The first n windows of blob pos, one after the other. */
  function RebuiltBytes(cr: Crypto, blobs: Group, k: nat, missing: set<int>, pos: int, n: nat): (b: Bytes)
    requires WholeGroup(blobs, k) && n <= WINDOWS && WindowsOk(cr, blobs, k, missing, n) && pos in missing
    ensures |b| == n * WINDOW_BYTES
  {
    if n == 0 then []
    else RebuiltBytes(cr, blobs, k, missing, pos, n - 1) + RebuildWindow(cr, blobs, k, missing, n - 1).value[pos]
  }

  lemma BlobLength()
    ensures Start(SHARDS_PER_BLOB, SHARD_SIZE) == WINDOWS * WINDOW_BYTES
    ensures Start(WINDOW, SHARD_SIZE) == WINDOW_BYTES
  {
    StartIsProduct(SHARDS_PER_BLOB, SHARD_SIZE);
    StartIsProduct(WINDOW, SHARD_SIZE);
  }

  function RebuiltPayloads(cr: Crypto, blobs: Group, k: nat, missing: set<int>, pos: int): (p: seq<Bytes>)
    requires WholeGroup(blobs, k) && WindowsOk(cr, blobs, k, missing, WINDOWS) && pos in missing
    ensures |p| == SHARDS_PER_BLOB
  {
    BlobLength();
    Blocks(RebuiltBytes(cr, blobs, k, missing, pos, WINDOWS), SHARD_SIZE, SHARDS_PER_BLOB)
  }

  function SetOf(s: seq<int>): set<int> {
    set x | x in s
  }

  predicate MissingOk(k: nat, m: nat, missing: set<int>) {
    missing != {} && |missing| <= m && forall pos :: pos in missing ==> 0 <= pos < k
  }

  function AllRebuilt(cr: Crypto, blobs: Group, k: nat, missing: set<int>): map<int, seq<Bytes>>
    requires WholeGroup(blobs, k) && WindowsOk(cr, blobs, k, missing, WINDOWS)
  {
    map pos | pos in missing :: RebuiltPayloads(cr, blobs, k, missing, pos)
  }

  /** RebuildMissing: the payloads of all missing blobs of a group, or a failure. */
  function RebuildMissing(cr: Crypto, blobs: Group, k: nat, missing: set<int>): (r: Option<map<int, seq<Bytes>>>)
    requires WholeGroup(blobs, k)
    ensures r.Some? ==> r.value.Keys == missing && forall pos :: pos in missing ==> |r.value[pos]| == SHARDS_PER_BLOB
  {
    var m := |blobs| - k;
    if MissingOk(k, m, missing) && FileCodeExists(k, m) && WindowsOk(cr, blobs, k, missing, WINDOWS) then
      Some(AllRebuilt(cr, blobs, k, missing))
    else None
  }

  // ---------- decoding ----------

  datatype Reason = ShardMissing | BadHeader | WrongIndex | WrongNonce | BadLength | AuthFailed

  datatype Decoded = Plain(bytes: Bytes) | Rejected(why: Reason)

  function DecodeFlat(cr: Crypto, index: int, flat: Bytes): Decoded
    requires |flat| == BLOB_PLAIN_SIZE
  {
    match ParseChunkHeader(flat[..HEADER_SIZE])
    case None => Rejected(BadHeader)
    case Some(hdr) =>
      if hdr.index != index then Rejected(WrongIndex)
      else if |hdr.nonce| < 12 || Signed64(FromBigEndian(hdr.nonce[4..12])) != index then Rejected(WrongNonce)
      else if hdr.plainLen < 1 || hdr.plainLen > CHUNK_PLAIN_SIZE then Rejected(BadLength)
      else
        match cr.open(hdr.nonce, flat[HEADER_SIZE..HEADER_SIZE + hdr.plainLen + TAG_SIZE], flat[..HEADER_SIZE])
        case None => Rejected(AuthFailed)
        case Some(p) => Plain(p)
  }

  /** The verdict on a data area, by its bytes: no magic, another index, a nonce that
      does not end in the index, a length out of range, and then the AEAD. */
  lemma DecodeVerdict(cr: Crypto, index: nat, flat: Bytes, h: ChunkHeader)
    requires |flat| == BLOB_PLAIN_SIZE && index < TWO_63 && |h.nonce| == NONCE_SIZE
    requires -TWO_63 <= h.index < TWO_63 && -TWO_63 <= h.plainLen < TWO_63
    ensures flat[..4] != [0x53, 0x56, 0x43, 0x31] ==> DecodeFlat(cr, index, flat) == Rejected(BadHeader)
    ensures flat[..32] == Marshal(h) ==>
      (DecodeFlat(cr, index, flat) ==
         if h.index != index then Rejected(WrongIndex)
         else if !HighFirst(h.nonce[4..12], index) then Rejected(WrongNonce)
         else if !(1 <= h.plainLen <= 1048528) then Rejected(BadLength)
         else
           var found := cr.open(h.nonce, flat[32..48 + h.plainLen], flat[..32]);
           if found.None? then Rejected(AuthFailed) else Plain(found.value))
  {
    hide Marshal, ParseChunkHeader, FromBigEndian, HighFirst, Signed64;
    ParsedHeaderIs(flat[..32]);
    assert flat[..32][..4] == flat[..4];
    HeaderRoundTrip(h);
    BaseValues();
    HighFirstIff(h.nonce[4..12], index);
    FromBigEndianRoundTrip(h.nonce[4..12]);
    SignedIs(FromBigEndian(h.nonce[4..12]), index);
  }

  lemma SignedIs(u: nat, v: nat)
    requires u < TWO_64 && v < TWO_63
    ensures Signed64(u) == v <==> u == v
  {}

  lemma FlatLength(parts: seq<Bytes>)
    requires |parts| == DATA_SHARDS && Uniform(parts, SHARD_SIZE)
    ensures |Concat(parts)| == BLOB_PLAIN_SIZE
  {
    ConcatLength(parts, SHARD_SIZE);
    StartIsProduct(DATA_SHARDS, SHARD_SIZE);
  }

  /** DecodeChunk: header checks and authentication over the data payloads. */
  function DecodeChunk(cr: Crypto, index: int, payloads: seq<Bytes>): Decoded
    requires |payloads| == SHARDS_PER_BLOB
  {
    var parts := payloads[..DATA_SHARDS];
    if !Uniform(parts, SHARD_SIZE) then Rejected(ShardMissing)
    else
      FlatLength(parts);
      DecodeFlat(cr, index, Concat(parts))
  }

  // ---------- the blobs of a container ----------

  /** The blob number of the n-th blob of group g. */
  function GroupNo(v: Vault, g: nat, n: nat): nat
    requires g < v.Groups() && n < v.K(g) + v.M(g)
  {
    GroupFacts(v.chunkCount, g);
    if n < v.K(g) then v.DataNo(g * FILE_GROUP_CHUNKS + n) else v.ParityNo(g, n - v.K(g))
  }

  lemma GroupNoBound(v: Vault, g: nat, n: nat)
    requires v.spec.Valid() && g < v.Groups() && n < v.K(g) + v.M(g)
    ensures GroupNo(v, g, n) < v.Total()
  {
    GroupFacts(v.chunkCount, g);
    if n < v.K(g) {
      PlaceIsValid(v.spec, v.chunkCount, Data(g * FILE_GROUP_CHUNKS + n));
    } else {
      PlaceIsValid(v.spec, v.chunkCount, Parity(g, n - v.K(g)));
    }
  }

  /** The n-th blob of group g. */
  function BlobOf(v: Vault, img: Image, g: nat, n: nat): (blob: seq<Slot>)
    requires v.spec.Valid() && Shaped(img, v.Total()) && g < v.Groups() && n < v.K(g) + v.M(g)
    ensures Whole(blob)
  {
    GroupNoBound(v, g, n);
    img[GroupNo(v, g, n)]
  }

  lemma WholeGroupIntro(blobs: Group, k: nat)
    requires k <= |blobs| && forall n :: 0 <= n < |blobs| ==> Whole(blobs[n])
    ensures WholeGroup(blobs, k)
  {}

  function GroupBlobs(v: Vault, img: Image, g: nat): (blobs: Group)
    requires v.spec.Valid() && Shaped(img, v.Total()) && g < v.Groups()
    ensures |blobs| == v.K(g) + v.M(g) && WholeGroup(blobs, v.K(g))
  {
    hide *;
    var k, size := v.K(g), v.K(g) + v.M(g);
    var blobs := seq(size, n requires 0 <= n < size => BlobOf(v, img, g, n));
    WholeGroupIntro(blobs, k);
    blobs
  }

  lemma GroupSizes(v: Vault, g: nat)
    requires v.spec.Valid() && g < v.Groups()
    ensures 1 <= v.K(g) <= FILE_GROUP_CHUNKS && 1 <= v.M(g) <= FILE_PARITY_SHARDS
    ensures g * FILE_GROUP_CHUNKS + v.K(g) <= v.chunkCount
  {
    GroupFacts(v.chunkCount, g);
  }

  lemma DataNoBound(v: Vault, i: nat)
    requires v.spec.Valid() && i < v.chunkCount
    ensures v.DataNo(i) < v.Total()
    ensures i / FILE_GROUP_CHUNKS < v.Groups() && i % FILE_GROUP_CHUNKS < v.K(i / FILE_GROUP_CHUNKS)
  {
    PlaceIsValid(v.spec, v.chunkCount, Data(i));
    ChunkInGroup(v.chunkCount, i);
  }

  function DataBlob(v: Vault, img: Image, i: nat): (blob: seq<Slot>)
    requires v.spec.Valid() && Shaped(img, v.Total()) && i < v.chunkCount
    ensures Whole(blob)
  {
    DataNoBound(v, i);
    img[v.DataNo(i)]
  }

  /** Data blob i is the blob at position i % 128 of its group. */
  lemma DataInGroup(v: Vault, img: Image, i: nat)
    requires v.spec.Valid() && Shaped(img, v.Total()) && i < v.chunkCount
    ensures i / FILE_GROUP_CHUNKS < v.Groups() && i % FILE_GROUP_CHUNKS < v.K(i / FILE_GROUP_CHUNKS)
    ensures GroupBlobs(v, img, i / FILE_GROUP_CHUNKS)[i % FILE_GROUP_CHUNKS] == DataBlob(v, img, i)
  {
    DataNoBound(v, i);
  }

  /** The views of window w of group g, and the window rebuilt from them. */
  function ViewsOf(v: Vault, img: Image, g: nat, missing: set<int>, w: nat): (views: seq<Option<Bytes>>)
    requires v.spec.Valid() && Shaped(img, v.Total()) && g < v.Groups() && w < WINDOWS
    ensures |views| == v.K(g) + v.M(g)
  {
    hide GroupBlobs, Shaped;
    GroupViews(v.cr, GroupBlobs(v, img, g), v.K(g), missing, w)
  }

  function WindowOf(v: Vault, img: Image, g: nat, missing: set<int>, w: nat): Option<Shards>
    requires v.spec.Valid() && Shaped(img, v.Total()) && g < v.Groups() && w < WINDOWS
  {
    hide GroupBlobs, RebuildWindow, Shaped;
    RebuildWindow(v.cr, GroupBlobs(v, img, g), v.K(g), missing, w)
  }

  function GroupRebuild(v: Vault, img: Image, g: nat, missing: set<int>): (r: Option<map<int, seq<Bytes>>>)
    requires v.spec.Valid() && Shaped(img, v.Total()) && g < v.Groups()
    ensures r.Some? ==> r.value.Keys == missing && forall pos :: pos in missing ==> |r.value[pos]| == SHARDS_PER_BLOB
  {
    hide GroupBlobs, RebuildMissing, Shaped;
    RebuildMissing(v.cr, GroupBlobs(v, img, g), v.K(g), missing)
  }

  // ---------- loading a chunk ----------

  datatype Loaded = Chunk(bytes: Bytes) | OutOfRange | Unrecoverable | Undecodable(why: Reason)

  function FromDecoded(d: Decoded): Loaded {
    match d
    case Plain(p) => Chunk(p)
    case Rejected(why) => Undecodable(why)
  }

  /** What a blob yields by itself: its payloads when every tag verifies, else
      the payloads after repair inside the blob. */
  function InBlob(cr: Crypto, blob: seq<Slot>): (r: Option<seq<Bytes>>)
    ensures r.Some? ==> |r.value| == |blob|
  {
    var bad := Bad(cr, blob);
    if bad == [] then Some(Payloads(blob)) else RepairIntra(cr, Payloads(blob), bad)
  }

  /** RebuildBlobFileLevel: one blob from the rest of its group. */
  function FileLevel(v: Vault, img: Image, i: nat): (r: Option<seq<Bytes>>)
    requires v.spec.Valid() && Shaped(img, v.Total()) && i < v.chunkCount
    ensures r.Some? ==> |r.value| == SHARDS_PER_BLOB
  {
    hide GroupRebuild, Shaped;
    DataNoBound(v, i);
    var pos := i % FILE_GROUP_CHUNKS;
    match GroupRebuild(v, img, i / FILE_GROUP_CHUNKS, {pos})
    case Some(m) => Some(m[pos])
    case None => None
  }

  /** The payloads the read path hands to the decoder. */
  function Recovered(v: Vault, img: Image, i: nat): (r: Option<seq<Bytes>>)
    requires v.spec.Valid() && Shaped(img, v.Total()) && i < v.chunkCount
    ensures r.Some? ==> |r.value| == SHARDS_PER_BLOB
  {
    var fixed := InBlob(v.cr, DataBlob(v, img, i));
    if fixed.Some? then fixed else FileLevel(v, img, i)
  }

  function LoadChunk(v: Vault, img: Image, index: int): Loaded
    requires v.spec.Valid() && Shaped(img, v.Total())
  {
    if index < 0 || index >= v.chunkCount then OutOfRange
    else
      match Recovered(v, img, index)
      case None => Unrecoverable
      case Some(p) => FromDecoded(DecodeChunk(v.cr, index, p))
  }
}

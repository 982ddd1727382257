/** Encoding a chunk and a group (encodeJob and writeParityGroup of
    internal/engine/pipeline.go), and the container a sequential encoder writes. */
module Encoder {
  import opened Bytes
  import opened ErasureCode
  import opened Layout
  import opened Vault
  import opened Format
  import opened Repair
  import opened RepairTheorems
  import opened Writes

  /** Ciphertexts carry a tag. */
  ghost predicate SealOk(cr: Crypto) {
    forall nonce, plain, aad | |nonce| == NONCE_SIZE :: |cr.seal(nonce, plain, aad)| == |plain| + TAG_SIZE
  }

  /** One use of the AEAD under a container's key: this plaintext was sealed under
      this nonce with this additional data. */
  datatype Sealing = Sealing(nonce: Bytes, plain: Bytes, aad: Bytes)

  predicate Opens(cr: Crypto, s: Sealing) {
    cr.open(s.nonce, cr.seal(s.nonce, s.plain, s.aad), s.aad) == Some(s.plain)
  }

  /** Opening inverts every sealing that was done. */
  ghost predicate OpensSealed(cr: Crypto, done: set<Sealing>) {
    forall s :: s in done ==> Opens(cr, s)
  }

  predicate ChunkOk(plain: Bytes) {
    1 <= |plain| <= CHUNK_PLAIN_SIZE
  }

  // ---------- one chunk ----------

  function HeaderFor(pfx: Bytes, i: nat, plain: Bytes): (h: ChunkHeader)
    requires |pfx| == 4
    ensures |h.nonce| == NONCE_SIZE
  {
    ChunkHeader(i, |plain|, pfx + BigEndian(Unsigned64(i), 8))
  }

  function Ciphertext(cr: Crypto, pfx: Bytes, i: nat, plain: Bytes): Bytes
    requires |pfx| == 4
  {
    var h := HeaderFor(pfx, i, plain);
    cr.seal(h.nonce, plain, Marshal(h))
  }

  function ChunkSealing(pfx: Bytes, i: nat, plain: Bytes): Sealing
    requires |pfx| == 4
  {
    var h := HeaderFor(pfx, i, plain);
    Sealing(h.nonce, plain, Marshal(h))
  }

  /** All that is sealed when these chunks are written. */
  function ChunkSealings(pfx: Bytes, chunks: seq<Bytes>): set<Sealing>
    requires |pfx| == 4
  {
    set i | 0 <= i < |chunks| :: ChunkSealing(pfx, i, chunks[i])
  }

  /** The chunk fits its data area: the test before encoding. */
  predicate Fits(cr: Crypto, pfx: Bytes, i: nat, plain: Bytes)
    requires |pfx| == 4
  {
    HEADER_SIZE + |Ciphertext(cr, pfx, i, plain)| <= BLOB_PLAIN_SIZE
  }

  /** Header, ciphertext, and zeros up to the size of the data area. */
  function DataArea(cr: Crypto, pfx: Bytes, i: nat, plain: Bytes): (area: Bytes)
    requires |pfx| == 4 && Fits(cr, pfx, i, plain)
    ensures |area| == BLOB_PLAIN_SIZE
  {
    var ct := Ciphertext(cr, pfx, i, plain);
    Marshal(HeaderFor(pfx, i, plain)) + ct + Zeros(BLOB_PLAIN_SIZE - HEADER_SIZE - |ct|)
  }

  lemma DataAreaLength()
    ensures Start(DATA_SHARDS, SHARD_SIZE) == BLOB_PLAIN_SIZE
    ensures Start(PARITY_SHARDS, SHARD_SIZE) == PARITY_SHARDS * SHARD_SIZE
  {
    StartIsProduct(DATA_SHARDS, SHARD_SIZE);
    StartIsProduct(PARITY_SHARDS, SHARD_SIZE);
  }

  function DataShards(cr: Crypto, pfx: Bytes, i: nat, plain: Bytes): (data: Shards)
    requires |pfx| == 4 && Fits(cr, pfx, i, plain)
    ensures |data| == DATA_SHARDS
  {
    DataAreaLength();
    Blocks(DataArea(cr, pfx, i, plain), SHARD_SIZE, DATA_SHARDS)
  }

  /** The slots of a chunk's blob: the codeword of its data area, tag by tag. */
  function ChunkBlob(cr: Crypto, pfx: Bytes, i: nat, plain: Bytes): seq<Slot>
    requires |pfx| == 4 && Fits(cr, pfx, i, plain)
  {
    FreshSlots(cr, Codeword(cr.intra, DataShards(cr, pfx, i, plain)))
  }

  function FreshSlots(cr: Crypto, payloads: seq<Bytes>): (slots: seq<Slot>)
    ensures |slots| == |payloads|
  {
    seq(|payloads|, j requires 0 <= j < |payloads| => Fresh(cr, payloads[j]))
  }

  /** Every tag of a blob verifies. */
  ghost predicate AllGood(cr: Crypto, blob: seq<Slot>) {
    forall j :: 0 <= j < |blob| ==> Good(cr, blob[j])
  }

  lemma FreshSlotsFacts(cr: Crypto, payloads: seq<Bytes>)
    requires TagsOk(cr) && |payloads| == SHARDS_PER_BLOB && Uniform(payloads, SHARD_SIZE)
    ensures Whole(FreshSlots(cr, payloads)) && Payloads(FreshSlots(cr, payloads)) == payloads
    ensures AllGood(cr, FreshSlots(cr, payloads))
  {}

  lemma UniformBlocks(a: Bytes, size: nat, n: nat)
    requires |a| == Start(n, size)
    ensures Uniform(Blocks(a, size, n), size)
  {
    forall i | 0 <= i < n
      ensures |Blocks(a, size, n)[i]| == size
    {
      BlocksAt(a, size, n, i);
    }
  }

  lemma ChunkFits(cr: Crypto, pfx: Bytes, i: nat, plain: Bytes)
    requires |pfx| == 4 && SealOk(cr) && ChunkOk(plain)
    ensures Fits(cr, pfx, i, plain)
  {}

  lemma IntraWord(cr: Crypto, data: Shards)
    requires IntraOk(cr) && |data| == DATA_SHARDS && Uniform(data, SHARD_SIZE)
    ensures |cr.intra.encode(data)| == PARITY_SHARDS && Uniform(cr.intra.encode(data), SHARD_SIZE)
    ensures |Codeword(cr.intra, data)| == SHARDS_PER_BLOB && Uniform(Codeword(cr.intra, data), SHARD_SIZE)
  {
    assert IsData(cr.intra, data, SHARD_SIZE);
  }

  /** A chunk's blob is a codeword of the intra-blob code, and every tag in it verifies. */
  lemma ChunkBlobFacts(cr: Crypto, pfx: Bytes, i: nat, plain: Bytes)
    requires |pfx| == 4 && TagsOk(cr) && IntraOk(cr) && Fits(cr, pfx, i, plain)
    ensures BlobWord(cr, ChunkBlob(cr, pfx, i, plain))
    ensures Payloads(ChunkBlob(cr, pfx, i, plain)) == Codeword(cr.intra, DataShards(cr, pfx, i, plain))
    ensures AllGood(cr, ChunkBlob(cr, pfx, i, plain))
  {
    hide DataArea, Fits, Blocks, FreshSlots, IntraOk, Good;
    var data := DataShards(cr, pfx, i, plain);
    DataAreaLength();
    UniformBlocks(DataArea(cr, pfx, i, plain), SHARD_SIZE, DATA_SHARDS);
    IntraWord(cr, data);
    FreshSlotsFacts(cr, Codeword(cr.intra, data));
    assert Codeword(cr.intra, data)[..DATA_SHARDS] == data;
  }

  lemma AreaParts(cr: Crypto, pfx: Bytes, i: nat, plain: Bytes)
    requires |pfx| == 4 && SealOk(cr) && ChunkOk(plain) && Fits(cr, pfx, i, plain)
    ensures
      var area := DataArea(cr, pfx, i, plain);
      && area[..HEADER_SIZE] == Marshal(HeaderFor(pfx, i, plain))
      && area[HEADER_SIZE..HEADER_SIZE + |plain| + TAG_SIZE] == Ciphertext(cr, pfx, i, plain)
  {
    hide Marshal;
    var h := HeaderFor(pfx, i, plain);
    assert |cr.seal(h.nonce, plain, Marshal(h))| == |plain| + TAG_SIZE;
  }

  lemma NonceIndex(pfx: Bytes, i: nat, plain: Bytes)
    requires |pfx| == 4 && i < TWO_63
    ensures HeaderFor(pfx, i, plain).nonce[4..12] == BigEndian(Unsigned64(i), 8)
    ensures Signed64(FromBigEndian(HeaderFor(pfx, i, plain).nonce[4..12])) == i
  {
    hide BigEndian, FromBigEndian, Unsigned64, Signed64;
    Decode64(i);
  }

  /** A nonce is the container's prefix and the chunk's index, highest byte first. */
  lemma NonceBytes(pfx: Bytes, i: nat, plain: Bytes)
    requires |pfx| == 4 && i < TWO_63
    ensures HeaderFor(pfx, i, plain).nonce[..4] == pfx
    ensures HighFirst(HeaderFor(pfx, i, plain).nonce[4..12], i)
  {
    hide BigEndian, HighFirst;
    TwosComplement(i);
    hide Unsigned64;
    BigEndianIsHighFirst(Unsigned64(i), 8);
    assert HeaderFor(pfx, i, plain).nonce[4..12] == BigEndian(Unsigned64(i), 8);
  }

  /** Two chunks share a nonce if and only if prefix and index are the same. */
  lemma SameNonceIff(pfx: Bytes, i: nat, plain: Bytes, other: Bytes, j: nat, text: Bytes)
    requires |pfx| == 4 && |other| == 4 && i < TWO_63 && j < TWO_63
    ensures HeaderFor(pfx, i, plain).nonce == HeaderFor(other, j, text).nonce <==> pfx == other && i == j
  {
    NonceBytes(pfx, i, plain);
    NonceBytes(other, j, text);
    NonceIndex(pfx, i, plain);
    NonceIndex(other, j, text);
  }

  /** No nonce is used for two chunks of a container, and all begin with its prefix. */
  lemma NoncesAreFresh(pfx: Bytes, chunks: seq<Bytes>)
    requires |pfx| == 4 && |chunks| <= TWO_63
    ensures forall s :: s in ChunkSealings(pfx, chunks) ==> |s.nonce| == NONCE_SIZE && s.nonce[..4] == pfx
    ensures forall i, j :: 0 <= i < j < |chunks| ==>
      ChunkSealing(pfx, i, chunks[i]).nonce != ChunkSealing(pfx, j, chunks[j]).nonce
  {
    hide Marshal, HeaderFor;
    forall s | s in ChunkSealings(pfx, chunks)
      ensures |s.nonce| == NONCE_SIZE && s.nonce[..4] == pfx
    {
      var i :| 0 <= i < |chunks| && s == ChunkSealing(pfx, i, chunks[i]);
      NonceBytes(pfx, i, chunks[i]);
    }
    forall i, j | 0 <= i < j < |chunks|
      ensures ChunkSealing(pfx, i, chunks[i]).nonce != ChunkSealing(pfx, j, chunks[j]).nonce
    {
      SameNonceIff(pfx, i, chunks[i], pfx, j, chunks[j]);
    }
  }

  /** Decoding the blob of chunk i under index i gives the chunk back. */
  lemma DecodeInvertsEncode(cr: Crypto, pfx: Bytes, i: nat, plain: Bytes)
    requires |pfx| == 4 && SealOk(cr) && TagsOk(cr) && IntraOk(cr) && ChunkOk(plain) && i < TWO_63
    requires Opens(cr, ChunkSealing(pfx, i, plain))
    ensures Fits(cr, pfx, i, plain) && |ChunkBlob(cr, pfx, i, plain)| == SHARDS_PER_BLOB
    ensures DecodeChunk(cr, i, Payloads(ChunkBlob(cr, pfx, i, plain))) == Plain(plain)
  {
    hide *;
    ChunkFits(cr, pfx, i, plain);
    ChunkBlobFacts(cr, pfx, i, plain);
    DecodesArea(cr, pfx, i, plain, i);
    AreaDecodes(cr, pfx, i, plain);
  }

  lemma DecodesArea(cr: Crypto, pfx: Bytes, i: nat, plain: Bytes, index: int)
    requires |pfx| == 4 && IntraOk(cr) && Fits(cr, pfx, i, plain)
    ensures |Codeword(cr.intra, DataShards(cr, pfx, i, plain))| == SHARDS_PER_BLOB
    ensures DecodeChunk(cr, index, Codeword(cr.intra, DataShards(cr, pfx, i, plain))) == DecodeFlat(cr, index, DataArea(cr, pfx, i, plain))
  {
    hide DataArea, Fits, Blocks, DecodeFlat, Concat;
    var data := DataShards(cr, pfx, i, plain);
    DataAreaLength();
    UniformBlocks(DataArea(cr, pfx, i, plain), SHARD_SIZE, DATA_SHARDS);
    IntraWord(cr, data);
    assert Codeword(cr.intra, data)[..DATA_SHARDS] == data;
    ConcatOfBlocks(DataArea(cr, pfx, i, plain), SHARD_SIZE, DATA_SHARDS);
  }

  lemma AreaDecodes(cr: Crypto, pfx: Bytes, i: nat, plain: Bytes)
    requires |pfx| == 4 && SealOk(cr) && ChunkOk(plain) && i < TWO_63 && Fits(cr, pfx, i, plain)
    requires Opens(cr, ChunkSealing(pfx, i, plain))
    ensures DecodeFlat(cr, i, DataArea(cr, pfx, i, plain)) == Plain(plain)
  {
    hide DataArea, Marshal, ParseChunkHeader, FromBigEndian, BigEndian, Signed64, Unsigned64, Fits;
    var h := HeaderFor(pfx, i, plain);
    HeaderRoundTrip(h);
    NonceIndex(pfx, i, plain);
    AreaParts(cr, pfx, i, plain);
    assert cr.open(h.nonce, cr.seal(h.nonce, plain, Marshal(h)), Marshal(h)) == Some(plain);
  }

  /** Decoding it under any other index stops at the header. */
  lemma DecodeRefusesOther(cr: Crypto, pfx: Bytes, i: nat, plain: Bytes, index: int)
    requires |pfx| == 4 && SealOk(cr) && TagsOk(cr) && IntraOk(cr) && ChunkOk(plain) && i < TWO_63 && index != i
    ensures Fits(cr, pfx, i, plain) && |ChunkBlob(cr, pfx, i, plain)| == SHARDS_PER_BLOB
    ensures DecodeChunk(cr, index, Payloads(ChunkBlob(cr, pfx, i, plain))) == Rejected(WrongIndex)
  {
    hide *;
    ChunkFits(cr, pfx, i, plain);
    ChunkBlobFacts(cr, pfx, i, plain);
    DecodesArea(cr, pfx, i, plain, index);
    AreaRefused(cr, pfx, i, plain, index);
  }

  lemma AreaRefused(cr: Crypto, pfx: Bytes, i: nat, plain: Bytes, index: int)
    requires |pfx| == 4 && SealOk(cr) && ChunkOk(plain) && i < TWO_63 && Fits(cr, pfx, i, plain) && index != i
    ensures DecodeFlat(cr, index, DataArea(cr, pfx, i, plain)) == Rejected(WrongIndex)
  {
    hide DataArea, Marshal, ParseChunkHeader, FromBigEndian, BigEndian, Signed64, Unsigned64, Fits;
    HeaderRoundTrip(HeaderFor(pfx, i, plain));
    AreaParts(cr, pfx, i, plain);
  }

  // ---------- one group ----------

  /** Column j of the parity of a group of data blobs. */
  function ParityColumn(cr: Crypto, data: Group, m: nat, j: nat): Shards
    requires WholeGroup(data, 0) && j < SHARDS_PER_BLOB
  {
    cr.file(|data|, m).encode(GroupColumn(data, j))
  }

  lemma ParityColumnSizes(cr: Crypto, data: Group, m: nat, j: nat)
    requires WholeGroup(data, 0) && j < SHARDS_PER_BLOB && FileCodeOk(cr, |data|, m)
    ensures |ParityColumn(cr, data, m, j)| == m && Uniform(ParityColumn(cr, data, m, j), SHARD_SIZE)
  {
    hide ColumnWise;
    assert IsData(cr.file(|data|, m), GroupColumn(data, j), SHARD_SIZE);
  }

  /** Payload j of parity blob q, column by column. */
  function ParityPayload(cr: Crypto, data: Group, m: nat, q: nat, j: nat): Bytes
    requires WholeGroup(data, 0) && j < SHARDS_PER_BLOB && FileCodeOk(cr, |data|, m) && q < m
  {
    ParityColumnSizes(cr, data, m, j);
    ParityColumn(cr, data, m, j)[q]
  }

  function ParityPayloads(cr: Crypto, data: Group, m: nat, q: nat): seq<Bytes>
    requires WholeGroup(data, 0) && FileCodeOk(cr, |data|, m) && q < m
  {
    seq(SHARDS_PER_BLOB, j requires 0 <= j < SHARDS_PER_BLOB => ParityPayload(cr, data, m, q, j))
  }

  function ParityBlob(cr: Crypto, data: Group, m: nat, q: nat): seq<Slot>
    requires WholeGroup(data, 0) && FileCodeOk(cr, |data|, m) && q < m
  {
    FreshSlots(cr, ParityPayloads(cr, data, m, q))
  }

  lemma ParityBlobFacts(cr: Crypto, data: Group, m: nat, q: nat)
    requires WholeGroup(data, 0) && FileCodeOk(cr, |data|, m) && q < m && TagsOk(cr)
    ensures Whole(ParityBlob(cr, data, m, q)) && Payloads(ParityBlob(cr, data, m, q)) == ParityPayloads(cr, data, m, q)
    ensures AllGood(cr, ParityBlob(cr, data, m, q))
  {
    hide ParityColumn, FileCodeOk;
    forall j | 0 <= j < SHARDS_PER_BLOB
      ensures |ParityPayload(cr, data, m, q, j)| == SHARD_SIZE
    {
      ParityColumnSizes(cr, data, m, j);
    }
    FreshSlotsFacts(cr, ParityPayloads(cr, data, m, q));
  }

  /** The data blobs of a group and its parity blobs. */
  function FullGroup(cr: Crypto, data: Group, m: nat): (blobs: Group)
    requires WholeGroup(data, 0) && FileCodeOk(cr, |data|, m)
    ensures |blobs| == |data| + m
  {
    data + seq(m, q requires 0 <= q < m => ParityBlob(cr, data, m, q))
  }

  lemma FullGroupWhole(cr: Crypto, data: Group, m: nat)
    requires WholeGroup(data, 0) && FileCodeOk(cr, |data|, m) && TagsOk(cr)
    ensures WholeGroup(FullGroup(cr, data, m), |data|)
    ensures forall q :: |data| <= q < |data| + m ==> AllGood(cr, FullGroup(cr, data, m)[q])
  {
    hide ParityBlob, FileCodeOk;
    var blobs := FullGroup(cr, data, m);
    forall n | |data| <= n < |blobs|
      ensures Whole(blobs[n]) && AllGood(cr, blobs[n])
    {
      ParityBlobFacts(cr, data, m, n - |data|);
    }
  }

  lemma FullGroupColumn(cr: Crypto, data: Group, m: nat, j: nat)
    requires WholeGroup(data, 0) && FileCodeOk(cr, |data|, m) && TagsOk(cr) && j < SHARDS_PER_BLOB
    requires WholeGroup(FullGroup(cr, data, m), |data|)
    ensures ColumnWord(cr, FullGroup(cr, data, m), |data|, j)
  {
    hide ParityBlob, FileCodeOk, ParityColumn;
    var column := GroupColumn(FullGroup(cr, data, m), j);
    assert column[..|data|] == GroupColumn(data, j);
    ParityColumnSizes(cr, data, m, j);
    forall q | 0 <= q < m
      ensures column[|data| + q] == ParityColumn(cr, data, m, j)[q]
    {
      ParityBlobFacts(cr, data, m, q);
      assert Payloads(ParityBlob(cr, data, m, q))[j] == ParityPayloads(cr, data, m, q)[j];
    }
    ParityIsEncode(cr, data, m, j);
    assert column == column[..|data|] + ParityColumn(cr, data, m, j);
  }

  lemma ParityIsEncode(cr: Crypto, data: Group, m: nat, j: nat)
    requires WholeGroup(data, 0) && j < SHARDS_PER_BLOB
    ensures ParityColumn(cr, data, m, j) == cr.file(|data|, m).encode(GroupColumn(data, j))
  {}

  /** The group a sequential encoder writes is a written group. */
  lemma FullGroupWritten(cr: Crypto, data: Group, m: nat)
    requires WholeGroup(data, 0) && FileCodeOk(cr, |data|, m) && TagsOk(cr) && FileCodeExists(|data|, m)
    requires forall n :: 0 <= n < |data| ==> BlobWord(cr, data[n]) && AllGood(cr, data[n])
    ensures WrittenGroup(cr, FullGroup(cr, data, m), |data|)
  {
    hide ParityBlob, FileCodeOk, ColumnWord, BlobWord, Good;
    FullGroupWhole(cr, data, m);
    var blobs := FullGroup(cr, data, m);
    forall j | 0 <= j < SHARDS_PER_BLOB
      ensures ColumnWord(cr, blobs, |data|, j)
    {
      FullGroupColumn(cr, data, m, j);
    }
    forall n, j | 0 <= n < |blobs| && 0 <= j < SHARDS_PER_BLOB
      ensures Good(cr, blobs[n][j])
    {
      assert AllGood(cr, blobs[n]);
    }
  }

  lemma EncodedSizes(cr: Crypto, data: Shards, m: nat)
    requires FileCodeOk(cr, |data|, m) && Uniform(data, WINDOW_BYTES)
    ensures |cr.file(|data|, m).encode(data)| == m && Uniform(cr.file(|data|, m).encode(data), WINDOW_BYTES)
  {
    hide ColumnWise;
    assert IsData(cr.file(|data|, m), data, WINDOW_BYTES);
  }

  // ---------- the container of a sequential encoder ----------

  /** What writing needs: the primitives' laws, and chunks as the cutter makes them. */
  ghost predicate Ready(cr: Crypto, pfx: Bytes, chunks: seq<Bytes>) {
    && |pfx| == 4 && TagsOk(cr) && CodesOk(cr) && SealOk(cr) && OpensSealed(cr, ChunkSealings(pfx, chunks))
    && |chunks| <= TWO_63 && forall i :: 0 <= i < |chunks| ==> ChunkOk(chunks[i])
  }

  lemma ReadyParts(cr: Crypto, pfx: Bytes, chunks: seq<Bytes>)
    requires Ready(cr, pfx, chunks)
    ensures |pfx| == 4 && TagsOk(cr) && IntraOk(cr) && FileCodesOk(cr) && SealOk(cr)
  {}

  function BlobOfChunk(cr: Crypto, pfx: Bytes, chunks: seq<Bytes>, i: nat): (blob: seq<Slot>)
    requires Ready(cr, pfx, chunks) && i < |chunks|
    ensures BlobWord(cr, blob) && AllGood(cr, blob)
  {
    ChunkFits(cr, pfx, i, chunks[i]);
    ChunkBlobFacts(cr, pfx, i, chunks[i]);
    ChunkBlob(cr, pfx, i, chunks[i])
  }

  /** The blobs of chunks lo, ..., lo + k - 1. */
  function BlobRun(cr: Crypto, pfx: Bytes, chunks: seq<Bytes>, lo: nat, k: nat): (data: Group)
    requires Ready(cr, pfx, chunks) && lo + k <= |chunks|
    ensures |data| == k
  {
    seq(k, n requires 0 <= n < k => BlobOfChunk(cr, pfx, chunks, lo + n))
  }

  lemma BlobRunWhole(cr: Crypto, pfx: Bytes, chunks: seq<Bytes>, lo: nat, k: nat)
    requires Ready(cr, pfx, chunks) && lo + k <= |chunks|
    ensures WholeGroup(BlobRun(cr, pfx, chunks, lo, k), 0)
    ensures forall n :: 0 <= n < k ==>
      BlobWord(cr, BlobRun(cr, pfx, chunks, lo, k)[n]) && AllGood(cr, BlobRun(cr, pfx, chunks, lo, k)[n])
  {
    hide Ready, BlobOfChunk, AllGood, Whole;
    var data := BlobRun(cr, pfx, chunks, lo, k);
    forall n | 0 <= n < k
      ensures Whole(data[n]) && BlobWord(cr, data[n]) && AllGood(cr, data[n])
    {
      assert data[n] == BlobOfChunk(cr, pfx, chunks, lo + n);
    }
  }

  lemma FileCode(cr: Crypto, k: nat, m: nat)
    requires FileCodesOk(cr) && FileCodeExists(k, m)
    ensures FileCodeOk(cr, k, m)
  {}

  /** Group g of the container with these chunks. */
  function SeqGroup(v: Vault, pfx: Bytes, chunks: seq<Bytes>, g: nat): (blobs: Group)
    requires v.spec.Valid() && Ready(v.cr, pfx, chunks) && |chunks| == v.chunkCount && g < v.Groups()
    ensures |blobs| == v.K(g) + v.M(g)
  {
    GroupSizes(v, g);
    FileCode(v.cr, v.K(g), v.M(g));
    BlobRunWhole(v.cr, pfx, chunks, g * FILE_GROUP_CHUNKS, v.K(g));
    hide FileCodeOk, WholeGroup, BlobRun, Ready;
    FullGroup(v.cr, BlobRun(v.cr, pfx, chunks, g * FILE_GROUP_CHUNKS, v.K(g)), v.M(g))
  }

  lemma SeqGroupWritten(v: Vault, pfx: Bytes, chunks: seq<Bytes>, g: nat)
    requires v.spec.Valid() && Ready(v.cr, pfx, chunks) && |chunks| == v.chunkCount && g < v.Groups()
    ensures WrittenGroup(v.cr, SeqGroup(v, pfx, chunks, g), v.K(g))
  {
    hide FileCodeOk, BlobWord, WholeGroup, FullGroup, WrittenGroup, AllGood, BlobRun, Ready, TagsOk, FileCodesOk;
    hide GroupCount, DataChunksInGroup, BlobOfChunk, Whole;
    ReadyParts(v.cr, pfx, chunks);
    GroupSizes(v, g);
    FileCode(v.cr, v.K(g), v.M(g));
    var lo := g * FILE_GROUP_CHUNKS;
    var data := BlobRun(v.cr, pfx, chunks, lo, v.K(g));
    BlobRunWhole(v.cr, pfx, chunks, lo, v.K(g));
    FullGroupWritten(v.cr, data, v.M(g));
  }

  /** The blob at a given place. */
  function SeqBlob(v: Vault, pfx: Bytes, chunks: seq<Bytes>, b: Blob): (blob: seq<Slot>)
    requires v.spec.Valid() && Ready(v.cr, pfx, chunks) && |chunks| == v.chunkCount && InContainer(v.spec, v.chunkCount, b)
    ensures Whole(blob)
  {
    match b
    case Data(i) => BlobOfChunk(v.cr, pfx, chunks, i)
    case Parity(g, q) =>
      SeqGroupWritten(v, pfx, chunks, g);
      assert q < v.M(g);
      SeqGroup(v, pfx, chunks, g)[v.K(g) + q]
  }

  /** The blobs a sequential encoder leaves on disk. */
  function SeqImage(v: Vault, pfx: Bytes, chunks: seq<Bytes>): (img: Image)
    requires v.spec.Valid() && Ready(v.cr, pfx, chunks) && |chunks| == v.chunkCount
    ensures Shaped(img, v.Total())
  {
    hide SeqBlob, Locate, InContainer;
    seq(v.Total(), n requires 0 <= n < v.Total() =>
      PlaceIsTaken(v.spec, v.chunkCount, n);
      SeqBlob(v, pfx, chunks, Locate(v.spec, v.chunkCount, n)))
  }

  lemma SeqImageAt(v: Vault, pfx: Bytes, chunks: seq<Bytes>, b: Blob)
    requires v.spec.Valid() && Ready(v.cr, pfx, chunks) && |chunks| == v.chunkCount && InContainer(v.spec, v.chunkCount, b)
    ensures Place(v.spec, v.chunkCount, b) < v.Total()
    ensures SeqImage(v, pfx, chunks)[Place(v.spec, v.chunkCount, b)] == SeqBlob(v, pfx, chunks, b)
  {
    hide SeqBlob, Locate, InContainer, Place, Offset;
    PlaceIsValid(v.spec, v.chunkCount, b);
  }

  lemma SeqImageGroup(v: Vault, pfx: Bytes, chunks: seq<Bytes>, g: nat)
    requires v.spec.Valid() && Ready(v.cr, pfx, chunks) && |chunks| == v.chunkCount && g < v.Groups()
    ensures GroupBlobs(v, SeqImage(v, pfx, chunks), g) == SeqGroup(v, pfx, chunks, g)
  {
    var img := SeqImage(v, pfx, chunks);
    GroupSizes(v, g);
    forall n | 0 <= n < v.K(g) + v.M(g)
      ensures BlobOf(v, img, g, n) == SeqGroup(v, pfx, chunks, g)[n]
    {
      SeqImageGroupBlob(v, pfx, chunks, g, n);
    }
  }

  lemma SeqImageGroupBlob(v: Vault, pfx: Bytes, chunks: seq<Bytes>, g: nat, n: nat)
    requires v.spec.Valid() && Ready(v.cr, pfx, chunks) && |chunks| == v.chunkCount && g < v.Groups()
    requires n < v.K(g) + v.M(g)
    ensures BlobOf(v, SeqImage(v, pfx, chunks), g, n) == SeqGroup(v, pfx, chunks, g)[n]
  {
    hide SeqImage, ParityBlob, FileCodeOk, WholeGroup, Whole, Ready, BlobOfChunk, Shaped, Place, WrittenGroup;
    GroupSizes(v, g);
    var k := v.K(g);
    if n < k {
      var i := g * FILE_GROUP_CHUNKS + n;
      SeqImageAt(v, pfx, chunks, Data(i));
      assert SeqGroup(v, pfx, chunks, g)[n] == BlobOfChunk(v.cr, pfx, chunks, i);
    } else {
      SeqImageAt(v, pfx, chunks, Parity(g, n - k));
    }
  }

  /** A sequential encoder's container is an original for its chunks. */
  lemma SeqImageIsOriginal(v: Vault, pfx: Bytes, chunks: seq<Bytes>)
    requires v.spec.Valid() && Ready(v.cr, pfx, chunks) && |chunks| == v.chunkCount
    ensures Original(v, SeqImage(v, pfx, chunks), chunks)
  {
    hide SeqGroup, WrittenGroup, DecodeChunk, BlobOfChunk, GroupBlobs, SeqImage, Ready;
    var img := SeqImage(v, pfx, chunks);
    forall g | 0 <= g < v.Groups()
      ensures WrittenGroup(v.cr, GroupBlobs(v, img, g), v.K(g))
    {
      SeqImageGroup(v, pfx, chunks, g);
      SeqGroupWritten(v, pfx, chunks, g);
    }
    forall i | 0 <= i < v.chunkCount
      ensures DecodeChunk(v.cr, i, Payloads(DataBlob(v, img, i))) == Plain(chunks[i])
    {
      SeqImageAt(v, pfx, chunks, Data(i));
      SeqChunkDecodes(v.cr, pfx, chunks, i);
    }
  }

  lemma SeqChunkDecodes(cr: Crypto, pfx: Bytes, chunks: seq<Bytes>, i: nat)
    requires Ready(cr, pfx, chunks) && i < |chunks|
    ensures DecodeChunk(cr, i, Payloads(BlobOfChunk(cr, pfx, chunks, i))) == Plain(chunks[i])
  {
    hide DecodeChunk, ChunkBlob, SealOk, IntraOk, FileCodesOk, Opens, ChunkSealing;
    assert ChunkSealing(pfx, i, chunks[i]) in ChunkSealings(pfx, chunks);
    DecodeInvertsEncode(cr, pfx, i, chunks[i]);
  }
}

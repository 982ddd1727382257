/** What a sequential encoder's file holds, byte range by byte range: every slot of
    every blob in terms of the chunks, the primitives and other slots. */
module FileContents {
  import opened Bytes
  import opened ErasureCode
  import opened Layout
  import opened Vault
  import opened Repair
  import opened RepairTheorems
  import opened Encoder
  import opened EncodeLoops

  function SlotStart(spec: Spec, c: nat, b: Blob, j: nat): nat
    requires InContainer(spec, c, b)
  {
    Offset(spec, c, b) + j * 4112
  }

  predicate InFile(f: Bytes, spec: Spec, c: nat, b: Blob) {
    InContainer(spec, c, b) && Offset(spec, c, b) + 384 * 4112 <= |f|
  }

  /** The payload of slot j of a blob, and the tag behind it. */
  function PayloadIn(f: Bytes, spec: Spec, c: nat, b: Blob, j: nat): Bytes
    requires InFile(f, spec, c, b) && j < 384
  {
    f[SlotStart(spec, c, b, j)..SlotStart(spec, c, b, j) + 4096]
  }

  function TagIn(f: Bytes, spec: Spec, c: nat, b: Blob, j: nat): Bytes
    requires InFile(f, spec, c, b) && j < 384
  {
    f[SlotStart(spec, c, b, j) + 4096..SlotStart(spec, c, b, j) + 4112]
  }

  /** The file holds the sequential encoder's blobs. */
  ghost predicate Holds(v: Vault, pfx: Bytes, chunks: seq<Bytes>, f: Bytes) {
    && v.spec.Valid() && Ready(v.cr, pfx, chunks) && |chunks| == v.chunkCount
    && v.Total() * BLOB_DISK_SIZE <= |f| && ImageOf(f, v.Total()) == SeqImage(v, pfx, chunks)
  }

  lemma SlotIn(v: Vault, pfx: Bytes, chunks: seq<Bytes>, f: Bytes, b: Blob, j: nat)
    requires Holds(v, pfx, chunks, f) && InContainer(v.spec, v.chunkCount, b) && j < 384
    ensures InFile(f, v.spec, v.chunkCount, b)
    ensures PayloadIn(f, v.spec, v.chunkCount, b, j) == SeqBlob(v, pfx, chunks, b)[j].payload
    ensures TagIn(f, v.spec, v.chunkCount, b, j) == SeqBlob(v, pfx, chunks, b)[j].tag
  {
    hide SeqImage, SeqBlob, Ready, InContainer, Offset, Place;
    var n := Place(v.spec, v.chunkCount, b);
    SeqImageAt(v, pfx, chunks, b);
    OffsetIsPlace(v.spec, v.chunkCount, b);
    BlobInFile(f, v.Total(), n);
    assert ImageOf(f, v.Total())[n][j] == SlotAt(f, n, j);
  }

  /** A chunk's blob: its first 256 payloads make up the data area, the other 128 are
      the intra-blob parity of those, and every payload is followed by its tag. */
  lemma DataBlobHolds(v: Vault, pfx: Bytes, chunks: seq<Bytes>, f: Bytes, i: nat)
    requires Holds(v, pfx, chunks, f) && i < v.chunkCount
    ensures InFile(f, v.spec, v.chunkCount, Data(i))
    ensures
      var payloads := seq(256, j requires 0 <= j < 256 => PayloadIn(f, v.spec, v.chunkCount, Data(i), j));
      && |Concat(payloads)| == BLOB_PLAIN_SIZE && AreaIs(v.cr, pfx, i, chunks[i], Concat(payloads))
      && |v.cr.intra.encode(payloads)| == 128
      && forall j :: 256 <= j < 384 ==>
        PayloadIn(f, v.spec, v.chunkCount, Data(i), j) == v.cr.intra.encode(payloads)[j - 256]
    ensures forall j :: 0 <= j < 384 ==>
      TagIn(f, v.spec, v.chunkCount, Data(i), j) == v.cr.tag(PayloadIn(f, v.spec, v.chunkCount, Data(i), j))
  {
    hide AreaIs, Blocks, Concat, DataArea, PayloadIn, TagIn, Holds, Fits;
    HoldsParts(v, pfx, chunks, f);
    var cr, c, b, plain := v.cr, v.chunkCount, Data(i), chunks[i];
    SlotIn(v, pfx, chunks, f, b, 0);
    BlobOfChunkIs(cr, pfx, chunks, i);
    var area, data := DataArea(cr, pfx, i, plain), DataShards(cr, pfx, i, plain);
    var payloads := seq(256, j requires 0 <= j < 256 => PayloadIn(f, v.spec, c, b, j));
    forall j: nat | j < 384
      ensures PayloadIn(f, v.spec, c, b, j) == Codeword(cr.intra, data)[j]
      ensures TagIn(f, v.spec, c, b, j) == cr.tag(PayloadIn(f, v.spec, c, b, j))
    {
      SlotIn(v, pfx, chunks, f, b, j);
    }
    assert payloads == data;
  }

  lemma HoldsParts(v: Vault, pfx: Bytes, chunks: seq<Bytes>, f: Bytes)
    requires Holds(v, pfx, chunks, f)
    ensures v.spec.Valid() && Ready(v.cr, pfx, chunks) && |chunks| == v.chunkCount
  {}

  lemma BlobOfChunkIs(cr: Crypto, pfx: Bytes, chunks: seq<Bytes>, i: nat)
    requires Ready(cr, pfx, chunks) && i < |chunks|
    ensures |pfx| == 4 && Fits(cr, pfx, i, chunks[i])
    ensures
      var data := DataShards(cr, pfx, i, chunks[i]);
      && |data| == 256 && |cr.intra.encode(data)| == 128
      && BlobOfChunk(cr, pfx, chunks, i) == FreshSlots(cr, Codeword(cr.intra, data))
      && |Concat(data)| == BLOB_PLAIN_SIZE && AreaIs(cr, pfx, i, chunks[i], Concat(data))
  {
    hide AreaIs, Blocks, Concat, DataArea;
    ChunkFits(cr, pfx, i, chunks[i]);
    var area := DataArea(cr, pfx, i, chunks[i]);
    DataAreaLength();
    UniformBlocks(area, SHARD_SIZE, DATA_SHARDS);
    IntraWord(cr, DataShards(cr, pfx, i, chunks[i]));
    ConcatOfBlocks(area, SHARD_SIZE, DATA_SHARDS);
    AreaBytes(cr, pfx, i, chunks[i]);
  }

  /** Payload j of each data blob of a group, in order. */
  function ColumnIn(f: Bytes, v: Vault, g: nat, j: nat): (column: seq<Bytes>)
    requires g < v.Groups() && j < 384 && DataIn(f, v, g)
  {
    seq(v.K(g), n requires 0 <= n < v.K(g) => PayloadIn(f, v.spec, v.chunkCount, Data(g * 128 + n), j))
  }

  predicate DataIn(f: Bytes, v: Vault, g: nat)
    requires g < v.Groups()
  {
    forall i: nat :: g * 128 <= i < g * 128 + v.K(g) ==> InFile(f, v.spec, v.chunkCount, Data(i))
  }

  lemma ColumnInRun(v: Vault, pfx: Bytes, chunks: seq<Bytes>, f: Bytes, g: nat, j: nat)
    requires Holds(v, pfx, chunks, f) && g < v.Groups() && j < 384
    ensures DataIn(f, v, g) && g * 128 + v.K(g) <= |chunks|
    ensures
      var data := BlobRun(v.cr, pfx, chunks, g * 128, v.K(g));
      WholeGroup(data, 0) && ColumnIn(f, v, g, j) == GroupColumn(data, j)
  {
    hide PayloadIn, TagIn, Holds, Offset, Ready, BlobOfChunk, InFile;
    HoldsParts(v, pfx, chunks, f);
    GroupSizes(v, g);
    BlobRunWhole(v.cr, pfx, chunks, g * 128, v.K(g));
    var data := BlobRun(v.cr, pfx, chunks, g * 128, v.K(g));
    forall i: nat | g * 128 <= i < g * 128 + v.K(g)
      ensures InFile(f, v.spec, v.chunkCount, Data(i))
      ensures PayloadIn(f, v.spec, v.chunkCount, Data(i), j) == BlobOfChunk(v.cr, pfx, chunks, i)[j].payload
    {
      SlotIn(v, pfx, chunks, f, Data(i), j);
    }
    hide WholeGroup;
    assert |ColumnIn(f, v, g, j)| == |GroupColumn(data, j)|;
    forall n: nat | n < v.K(g)
      ensures ColumnIn(f, v, g, j)[n] == GroupColumn(data, j)[n]
    {
      assert data[n] == BlobOfChunk(v.cr, pfx, chunks, g * 128 + n);
    }
  }

  /** A parity blob: payload j of parity q is shard q of what the file-level code makes
      of payload j of the group's data blobs, in order, and its tag follows. */
  lemma ParityBlobHolds(v: Vault, pfx: Bytes, chunks: seq<Bytes>, f: Bytes, g: nat, q: nat, j: nat)
    requires Holds(v, pfx, chunks, f) && InContainer(v.spec, v.chunkCount, Parity(g, q)) && j < 384
    ensures g < v.Groups() && DataIn(f, v, g) && InFile(f, v.spec, v.chunkCount, Parity(g, q))
    ensures
      var payload := PayloadIn(f, v.spec, v.chunkCount, Parity(g, q), j);
      && |v.cr.file(v.K(g), v.M(g)).encode(ColumnIn(f, v, g, j))| == v.M(g)
      && payload == v.cr.file(v.K(g), v.M(g)).encode(ColumnIn(f, v, g, j))[q]
      && TagIn(f, v.spec, v.chunkCount, Parity(g, q), j) == v.cr.tag(payload)
  {
    hide PayloadIn, TagIn, Holds, Offset, InFile, DataIn, ColumnIn, Ready, SeqBlob, BlobRun, GroupColumn, WholeGroup;
    HoldsParts(v, pfx, chunks, f);
    SlotIn(v, pfx, chunks, f, Parity(g, q), j);
    SeqParity(v, pfx, chunks, g, q, j);
    ColumnInRun(v, pfx, chunks, f, g, j);
  }

  lemma SeqParity(v: Vault, pfx: Bytes, chunks: seq<Bytes>, g: nat, q: nat, j: nat)
    requires v.spec.Valid() && Ready(v.cr, pfx, chunks) && |chunks| == v.chunkCount
    requires InContainer(v.spec, v.chunkCount, Parity(g, q)) && j < 384
    ensures g < v.Groups() && g * 128 + v.K(g) <= |chunks|
    ensures
      var data := BlobRun(v.cr, pfx, chunks, g * 128, v.K(g));
      && WholeGroup(data, 0) && |v.cr.file(v.K(g), v.M(g)).encode(GroupColumn(data, j))| == v.M(g)
      && SeqBlob(v, pfx, chunks, Parity(g, q))[j] ==
         Fresh(v.cr, v.cr.file(v.K(g), v.M(g)).encode(GroupColumn(data, j))[q])
  {
    hide BlobOfChunk, Ready, FileCodeOk, GroupColumn, Fresh;
    GroupSizes(v, g);
    ReadyParts(v.cr, pfx, chunks);
    FileCode(v.cr, v.K(g), v.M(g));
    BlobRunWhole(v.cr, pfx, chunks, g * 128, v.K(g));
    var data := BlobRun(v.cr, pfx, chunks, g * 128, v.K(g));
    ParityColumnSizes(v.cr, data, v.M(g), j);
    hide BlobRun, WholeGroup;
    assert SeqBlob(v, pfx, chunks, Parity(g, q)) == ParityBlob(v.cr, data, v.M(g), q);
  }
}

/** The loops of the write pipeline's two encoders (encodeJob, SliceWindow and
    writeParityGroup), proved against module Encoder. */
module EncodeLoops {
  import opened Bytes
  import opened ErasureCode
  import opened Layout
  import opened Vault
  import opened Format
  import opened Repair
  import opened Encoder
  import opened Writes

  const PARITY_AREA: nat := 524288   // PARITY_SHARDS * SHARD_SIZE

  // ---------- encodeJob ----------

  function ParityArea(cr: Crypto, pfx: Bytes, i: nat, plain: Bytes): Bytes
    requires |pfx| == 4 && Fits(cr, pfx, i, plain)
  {
    Concat(cr.intra.encode(DataShards(cr, pfx, i, plain)))
  }

  /** Header, ciphertext and zero fill of the data area, in a recycled buffer. */
  method FillData(cr: Crypto, pfx: Bytes, i: nat, plain: Bytes, blob: array<byte>)
    requires |pfx| == 4 && Fits(cr, pfx, i, plain) && blob.Length == BLOB_PLAIN_SIZE
    modifies blob
    ensures blob[..] == DataArea(cr, pfx, i, plain)
  {
    hide Marshal, BigEndian;
    var header := MarshalHeader(HeaderFor(pfx, i, plain));
    var hdr := header[..];
    var ct := Ciphertext(cr, pfx, i, plain);
    CopyAt(blob, 0, hdr);
    CopyAt(blob, HEADER_SIZE, ct);
    var n := HEADER_SIZE + |ct|;
    assert blob[..n] == hdr + ct;
    for j := n to BLOB_PLAIN_SIZE
      invariant blob[..n] == hdr + ct
      invariant forall b :: n <= b < j ==> blob[b] == 0
    {
      blob[j] := 0;
    }
    assert blob[n..] == Zeros(BLOB_PLAIN_SIZE - n);
    assert blob[..] == blob[..n] + blob[n..];
  }

  /** The parity shards, one after the other, in a recycled buffer. */
  method FillShards(shards: Shards, par: array<byte>)
    requires |shards| == PARITY_SHARDS && Uniform(shards, SHARD_SIZE) && par.Length == PARITY_AREA
    modifies par
    ensures par[..] == Concat(shards)
  {
    hide Concat;
    ConcatStart();
    for i := 0 to PARITY_SHARDS
      invariant par[..i * SHARD_SIZE] == Concat(shards[..i])
    {
      ConcatStep(shards, i);
      CopyAt(par, i * SHARD_SIZE, shards[i]);
      assert par[..(i + 1) * SHARD_SIZE] == par[..i * SHARD_SIZE] + shards[i];
    }
    assert shards[..PARITY_SHARDS] == shards && par[..PARITY_AREA] == par[..];
  }

  lemma ConcatStart()
    ensures Concat([]) == []
  {}

  lemma ConcatStep(blocks: seq<Bytes>, i: nat)
    requires i < |blocks|
    ensures Concat(blocks[..i + 1]) == Concat(blocks[..i]) + blocks[i]
  {
    assert blocks[..i + 1][..i] == blocks[..i];
  }

  function PartsOf(slots: seq<Slot>): (parts: seq<Bytes>)
    ensures |parts| == |slots|
  {
    seq(|slots|, j requires 0 <= j < |slots| => SlotBytes(slots[j]))
  }

  /** Payload and tag of every slot, in a recycled buffer. */
  method FillSlots(cr: Crypto, payloads: seq<Bytes>, disk: array<byte>)
    requires TagsOk(cr) && |payloads| == SHARDS_PER_BLOB && Uniform(payloads, SHARD_SIZE) && disk.Length == BLOB_DISK_SIZE
    modifies disk
    ensures disk[..] == BlobBytes(FreshSlots(cr, payloads))
  {
    hide Concat, FreshSlots;
    ghost var parts := PartsOf(FreshSlots(cr, payloads));
    FreshParts(cr, payloads);
    ConcatStart();
    for i := 0 to SHARDS_PER_BLOB
      invariant disk[..i * SLOT_SIZE] == Concat(parts[..i])
    {
      ConcatStep(parts, i);
      var off := i * SLOT_SIZE;
      assert |cr.tag(payloads[i])| == TAG_SIZE;
      CopyAt(disk, off, payloads[i]);
      CopyAt(disk, off + SHARD_SIZE, cr.tag(payloads[i]));
      SlotInPlace(disk[..], off, payloads[i], cr.tag(payloads[i]));
      assert disk[..(i + 1) * SLOT_SIZE] == disk[..off] + parts[i];
    }
    assert parts[..SHARDS_PER_BLOB] == parts && disk[..BLOB_DISK_SIZE] == disk[..];
  }

  lemma SlotInPlace(b: Bytes, off: nat, payload: Bytes, tag: Bytes)
    requires |payload| == SHARD_SIZE && |tag| == TAG_SIZE && off + SLOT_SIZE <= |b|
    requires b[off..off + SHARD_SIZE] == payload && b[off + SHARD_SIZE..off + SLOT_SIZE] == tag
    ensures b[off..off + SLOT_SIZE] == payload + tag
  {}

  lemma FreshParts(cr: Crypto, payloads: seq<Bytes>)
    ensures forall j :: 0 <= j < |payloads| ==> PartsOf(FreshSlots(cr, payloads))[j] == payloads[j] + cr.tag(payloads[j])
    ensures BlobBytes(FreshSlots(cr, payloads)) == Concat(PartsOf(FreshSlots(cr, payloads)))
  {
    var slots := FreshSlots(cr, payloads);
    assert PartsOf(slots) == seq(|slots|, j requires 0 <= j < |slots| => SlotBytes(slots[j]));
  }

  /** A data area holds magic, index and length, prefix and index again; then the plaintext
      sealed under the last two, with the bytes before it as associated data; then zeros. */
  predicate AreaIs(cr: Crypto, pfx: Bytes, i: nat, plain: Bytes, area: Bytes)
    requires |area| == BLOB_PLAIN_SIZE
  {
    && |area| >= 32 && area[..4] == [0x53, 0x56, 0x43, 0x31] && HighFirst(area[4..12], i)
    && HighFirst(area[12..20], |plain|) && area[20..24] == pfx && HighFirst(area[24..32], i)
    && (var ct := cr.seal(area[20..32], plain, area[..32]);
        |ct| <= |area| - 32 && area[32..] == ct + Zeros(|area| - 32 - |ct|))
  }

  lemma AreaBytes(cr: Crypto, pfx: Bytes, i: nat, plain: Bytes)
    requires |pfx| == 4 && Fits(cr, pfx, i, plain) && i < TWO_63 && |plain| < TWO_63
    ensures AreaIs(cr, pfx, i, plain, DataArea(cr, pfx, i, plain))
  {
    hide Marshal, HighFirst, HeaderFor;
    var h := HeaderFor(pfx, i, plain);
    HeaderIs(pfx, i, plain);
    HeaderBytes(h);
    NonceBytes(pfx, i, plain);
    var area, b := DataArea(cr, pfx, i, plain), Marshal(h);
    assert area[..HEADER_SIZE] == b;
    assert area[4..12] == b[4..12] && area[12..20] == b[12..20] && area[20..32] == b[20..32];
    assert area[20..24] == b[20..32][..4] && area[24..32] == b[20..32][4..12];
    assert area[20..32] == h.nonce && area[..32] == b;
  }

  lemma HeaderIs(pfx: Bytes, i: nat, plain: Bytes)
    requires |pfx| == 4
    ensures HeaderFor(pfx, i, plain).index == i && HeaderFor(pfx, i, plain).plainLen == |plain|
  {}

  /** Slot j on disk is shard j of data area and parity, and behind it that shard's tag. */
  predicate SlotIs(cr: Crypto, all: Bytes, disk: Bytes, j: nat)
    requires |all| == BLOB_PLAIN_SIZE + PARITY_AREA && |disk| == BLOB_DISK_SIZE && j < SHARDS_PER_BLOB
  {
    var shard := all[j * SHARD_SIZE..(j + 1) * SHARD_SIZE];
    && disk[j * SLOT_SIZE..j * SLOT_SIZE + SHARD_SIZE] == shard
    && disk[j * SLOT_SIZE + SHARD_SIZE..(j + 1) * SLOT_SIZE] == cr.tag(shard)
  }

  lemma SlotOnDisk(cr: Crypto, pfx: Bytes, i: nat, plain: Bytes, j: nat)
    requires |pfx| == 4 && TagsOk(cr) && IntraOk(cr) && Fits(cr, pfx, i, plain) && j < SHARDS_PER_BLOB
    ensures |ParityArea(cr, pfx, i, plain)| == PARITY_AREA && |BlobBytes(ChunkBlob(cr, pfx, i, plain))| == BLOB_DISK_SIZE
    ensures
      var all, disk := DataArea(cr, pfx, i, plain) + ParityArea(cr, pfx, i, plain), BlobBytes(ChunkBlob(cr, pfx, i, plain));
      SlotIs(cr, all, disk, j)
  {
    hide DataArea, Fits, Blocks, BlobBytes, Concat, IntraOk, TagsOk, SlotBytes, AllGood;
    var blob, area := ChunkBlob(cr, pfx, i, plain), DataArea(cr, pfx, i, plain);
    var data := DataShards(cr, pfx, i, plain);
    var word := Codeword(cr.intra, data);
    ChunkBlobFacts(cr, pfx, i, plain);
    DataAreaLength();
    UniformBlocks(area, SHARD_SIZE, DATA_SHARDS);
    IntraWord(cr, data);
    ConcatLength(cr.intra.encode(data), SHARD_SIZE);
    BlobBytesSlot(blob, j);
    SlotParts(blob[j]);
    ConcatOfBlocks(area, SHARD_SIZE, DATA_SHARDS);
    ConcatAppend(data, cr.intra.encode(data));
    ConcatBlock(word, SHARD_SIZE, j);
    StartIsProduct(j, SHARD_SIZE);
    var all, disk := area + ParityArea(cr, pfx, i, plain), BlobBytes(blob);
    assert all[j * SHARD_SIZE..(j + 1) * SHARD_SIZE] == blob[j].payload;
    assert disk[j * SLOT_SIZE..j * SLOT_SIZE + SHARD_SIZE] == SlotBytes(blob[j])[0..SHARD_SIZE];
    assert disk[j * SLOT_SIZE + SHARD_SIZE..(j + 1) * SLOT_SIZE] == SlotBytes(blob[j])[SHARD_SIZE..SLOT_SIZE];
  }

  /** encodeJob: seal the chunk, encode it and lay out its slots, in buffers that
      hold whatever their last user left there. */
  method EncodeJob(cr: Crypto, pfx: Bytes, idx: nat, plain: Bytes, blob: array<byte>, par: array<byte>, disk: array<byte>)
    returns (ok: bool)
    requires |pfx| == 4 && TagsOk(cr) && IntraOk(cr)
    requires blob.Length == BLOB_PLAIN_SIZE && par.Length == PARITY_AREA && disk.Length == BLOB_DISK_SIZE
    requires blob != par && par != disk && blob != disk
    modifies blob, par, disk
    ensures ok == Fits(cr, pfx, idx, plain)
    ensures ok ==> blob[..] == DataArea(cr, pfx, idx, plain) && par[..] == ParityArea(cr, pfx, idx, plain)
    ensures ok ==> disk[..] == BlobBytes(ChunkBlob(cr, pfx, idx, plain))
    ensures ok && idx < TWO_63 && |plain| < TWO_63 ==> AreaIs(cr, pfx, idx, plain, blob[..])
    ensures ok ==> forall j: nat :: j < SHARDS_PER_BLOB ==> SlotIs(cr, blob[..] + par[..], disk[..], j)
  {
    hide Blocks, BlobBytes, FreshSlots, DataArea, IntraOk, TagsOk, Concat;
    if HEADER_SIZE + |Ciphertext(cr, pfx, idx, plain)| > BLOB_PLAIN_SIZE {
      return false;
    }
    FillData(cr, pfx, idx, plain, blob);
    DataAreaLength();
    UniformBlocks(blob[..], SHARD_SIZE, DATA_SHARDS);
    var shards := Blocks(blob[..], SHARD_SIZE, DATA_SHARDS);
    IntraWord(cr, shards);
    var parity := cr.intra.encode(shards);
    FillShards(parity, par);
    FillSlots(cr, shards + parity, disk);
    hide AreaIs, Fits, ParityArea, ChunkBlob;
    if idx < TWO_63 && |plain| < TWO_63 {
      AreaBytes(cr, pfx, idx, plain);
    }
    forall j: nat | j < SHARDS_PER_BLOB
      ensures SlotIs(cr, blob[..] + par[..], disk[..], j)
    {
      SlotOnDisk(cr, pfx, idx, plain, j);
    }
    return true;
  }

  // ---------- writeParityGroup ----------

  /** Columns j0, ..., j0 + wc - 1 of contiguous payloads. */
  function SliceWindow(buf: Bytes, j0: nat, wc: nat): (r: Bytes)
    requires (j0 + wc) * SHARD_SIZE <= |buf|
    ensures |r| == wc * SHARD_SIZE
  {
    buf[j0 * SHARD_SIZE..j0 * SHARD_SIZE + wc * SHARD_SIZE]
  }

  /** The retained payloads of a group: data areas and intra-blob parities. */
  predicate Areas(blobs: seq<Bytes>, pars: seq<Bytes>) {
    |blobs| == |pars| && Uniform(blobs, BLOB_PLAIN_SIZE) && Uniform(pars, PARITY_AREA)
  }

  /** Window w of one blob: eight windows lie in the data area, four in the parity. */
  function WindowSlice(blob: Bytes, par: Bytes, w: nat): (r: Bytes)
    requires |blob| == BLOB_PLAIN_SIZE && |par| == PARITY_AREA && w < WINDOWS
    ensures |r| == WINDOW_BYTES
  {
    if w * WINDOW < DATA_SHARDS then SliceWindow(blob, w * WINDOW, WINDOW)
    else SliceWindow(par, w * WINDOW - DATA_SHARDS, WINDOW)
  }

  function WindowData(blobs: seq<Bytes>, pars: seq<Bytes>, w: nat): (data: Shards)
    requires Areas(blobs, pars) && w < WINDOWS
    ensures |data| == |blobs| && Uniform(data, WINDOW_BYTES)
  {
    seq(|blobs|, i requires 0 <= i < |blobs| => WindowSlice(blobs[i], pars[i], w))
  }

  /** The parity shards of one window. */
  function WindowEncoded(cr: Crypto, blobs: seq<Bytes>, pars: seq<Bytes>, m: nat, w: nat): (out: Shards)
    requires Areas(blobs, pars) && FileCodeOk(cr, |blobs|, m) && w < WINDOWS
    ensures |out| == m && Uniform(out, WINDOW_BYTES)
  {
    EncodedSizes(cr, WindowData(blobs, pars, w), m);
    cr.file(|blobs|, m).encode(WindowData(blobs, pars, w))
  }

  /** One window's shard as it goes to disk: each column with its tag. */
  function TaggedColumns(cr: Crypto, out: Bytes): Bytes
    requires |out| == WINDOW_BYTES
  {
    BlobLength();
    BlobBytes(FreshSlots(cr, Blocks(out, SHARD_SIZE, WINDOW)))
  }

  /** The write of parity q, window w, of group g. */
  function ParityPut(cr: Crypto, spec: Spec, g: nat, k: nat, q: nat, w: nat, out: Bytes): Put
    requires |out| == WINDOW_BYTES
  {
    Put(spec.ParityBlobOffset(g, k, q) + w * WINDOW * SLOT_SIZE, TaggedColumns(cr, out))
  }

  /** The first q writes of window w. */
  function WindowPuts(cr: Crypto, spec: Spec, g: nat, k: nat, w: nat, out: Shards, q: nat): seq<Put>
    requires Uniform(out, WINDOW_BYTES) && q <= |out|
  {
    if q == 0 then [] else WindowPuts(cr, spec, g, k, w, out, q - 1) + [ParityPut(cr, spec, g, k, q - 1, w, out[q - 1])]
  }

  /** The writes of the first n windows of a group. */
  function GroupPuts(cr: Crypto, spec: Spec, g: nat, blobs: seq<Bytes>, pars: seq<Bytes>, m: nat, n: nat): seq<Put>
    requires Areas(blobs, pars) && FileCodeOk(cr, |blobs|, m) && n <= WINDOWS
  {
    if n == 0 then []
    else
      GroupPuts(cr, spec, g, blobs, pars, m, n - 1)
      + WindowPuts(cr, spec, g, |blobs|, n - 1, WindowEncoded(cr, blobs, pars, m, n - 1), m)
  }

  /** The slot buffer of one shard of one window. */
  method TagColumns(cr: Crypto, out: Bytes) returns (slotBuf: Bytes)
    requires |out| == WINDOW_BYTES
    ensures slotBuf == TaggedColumns(cr, out)
  {
    hide Concat, Blocks, FreshSlots;
    BlobLength();
    ghost var columns := Blocks(out, SHARD_SIZE, WINDOW);
    ghost var parts := PartsOf(FreshSlots(cr, columns));
    FreshParts(cr, columns);
    ConcatStart();
    slotBuf := [];
    for c := 0 to WINDOW
      invariant slotBuf == Concat(parts[..c])
    {
      ConcatStep(parts, c);
      BlocksAt(out, SHARD_SIZE, WINDOW, c);
      StartIsProduct(c, SHARD_SIZE);
      var col := out[c * SHARD_SIZE..(c + 1) * SHARD_SIZE];
      ghost var before := slotBuf;
      slotBuf := slotBuf + col;
      slotBuf := slotBuf + cr.tag(col);
      assert slotBuf == before + (col + cr.tag(col));
    }
    assert parts[..WINDOW] == parts;
  }

  lemma ApplyOne(f: Bytes, log: seq<Put>, p: Put)
    ensures Apply(f, log + [p]) == Overwrite(Apply(f, log), p.off, p.data)
  {
    assert (log + [p])[..|log|] == log;
  }

  lemma WindowPutsStep(cr: Crypto, spec: Spec, g: nat, k: nat, w: nat, out: Shards, q: nat, f: Bytes)
    requires Uniform(out, WINDOW_BYTES) && q < |out|
    ensures Apply(f, WindowPuts(cr, spec, g, k, w, out, q + 1)) ==
      (var p := ParityPut(cr, spec, g, k, q, w, out[q]);
       Overwrite(Apply(f, WindowPuts(cr, spec, g, k, w, out, q)), p.off, p.data))
  {
    hide Overwrite, ParityPut, Apply;
    ApplyOne(f, WindowPuts(cr, spec, g, k, w, out, q), ParityPut(cr, spec, g, k, q, w, out[q]));
  }

  /** The inner loop: tag and write every parity shard of one window. */
  method WriteWindow(cr: Crypto, spec: Spec, dst: Dst, g: nat, k: nat, w: nat, out: Shards)
    requires Uniform(out, WINDOW_BYTES)
    modifies dst
    ensures dst.bytes == Apply(old(dst.bytes), WindowPuts(cr, spec, g, k, w, out, |out|))
  {
    hide Overwrite, ParityPut;
    for q := 0 to |out|
      invariant dst.bytes == Apply(old(dst.bytes), WindowPuts(cr, spec, g, k, w, out, q))
    {
      WindowPutsStep(cr, spec, g, k, w, out, q, old(dst.bytes));
      var slotBuf := TagColumns(cr, out[q]);
      var off := spec.ParityBlobOffset(g, k, q) + w * WINDOW * SLOT_SIZE;
      assert Put(off, slotBuf) == ParityPut(cr, spec, g, k, q, w, out[q]) by { PutParts(cr, spec, g, k, q, w, out[q]); }
      dst.SeekWrite(Put(off, slotBuf));
    }
  }

  lemma PutParts(cr: Crypto, spec: Spec, g: nat, k: nat, q: nat, w: nat, out: Bytes)
    requires |out| == WINDOW_BYTES
    ensures ParityPut(cr, spec, g, k, q, w, out) ==
      Put(spec.ParityBlobOffset(g, k, q) + w * WINDOW * SLOT_SIZE, TaggedColumns(cr, out))
  {}

  /** writeParityGroup: encode a group window by window and write its parity. */
  method WriteParityGroup(cr: Crypto, spec: Spec, dst: Dst, g: nat, blobs: seq<Bytes>, pars: seq<Bytes>) returns (ok: bool)
    requires Areas(blobs, pars) && FileCodesOk(cr)
    modifies dst
    ensures
      var m := spec.ParityCountFor(|blobs|);
      ok == FileCodeExists(|blobs|, m)
    ensures ok ==>
      FileCodeOk(cr, |blobs|, spec.ParityCountFor(|blobs|)) &&
      dst.bytes == Apply(old(dst.bytes), GroupPuts(cr, spec, g, blobs, pars, spec.ParityCountFor(|blobs|), WINDOWS))
    ensures !ok ==> dst.bytes == old(dst.bytes)
  {
    hide Apply, FileCodeOk, WindowPuts, WindowEncoded;
    var k, m := |blobs|, spec.ParityCountFor(|blobs|);
    if !FileCodeExists(k, m) {
      return false;
    }
    FileCode(cr, k, m);
    ghost var before := dst.bytes;
    ApplyNothing(before);
    for w := 0 to WINDOWS
      invariant dst.bytes == Apply(before, GroupPuts(cr, spec, g, blobs, pars, m, w))
    {
      var shards := WindowEncoded(cr, blobs, pars, m, w);
      WriteWindow(cr, spec, dst, g, k, w, shards);
      ApplyAppend(before, GroupPuts(cr, spec, g, blobs, pars, m, w), WindowPuts(cr, spec, g, k, w, shards, m));
    }
    return true;
  }

  lemma ApplyNothing(f: Bytes)
    ensures Apply(f, []) == f
  {}
}

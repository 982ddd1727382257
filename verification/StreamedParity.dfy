/** The parity the write pipeline streams out, window by window over retained
    buffers, is the column-by-column parity the reader addresses. */
module StreamedParity {
  import opened Bytes
  import opened Layout
  import opened Vault
  import opened Repair
  import opened RepairTheorems
  import opened Encoder
  import opened EncodeLoops

  /** The retained buffers hold the payloads of these data blobs. */
  ghost predicate Retained(data: Group, blobs: seq<Bytes>, pars: seq<Bytes>) {
    && WholeGroup(data, 0) && |blobs| == |pars| == |data|
    && forall i :: 0 <= i < |data| ==>
         blobs[i] == Concat(Payloads(data[i])[..DATA_SHARDS]) && pars[i] == Concat(Payloads(data[i])[DATA_SHARDS..])
  }

  lemma AreaLengths(ps: seq<Bytes>)
    requires |ps| == SHARDS_PER_BLOB && Uniform(ps, SHARD_SIZE)
    ensures |Concat(ps[..DATA_SHARDS])| == BLOB_PLAIN_SIZE && |Concat(ps[DATA_SHARDS..])| == PARITY_AREA
  {
    DataAreaLength();
    ConcatLength(ps[..DATA_SHARDS], SHARD_SIZE);
    ConcatLength(ps[DATA_SHARDS..], SHARD_SIZE);
  }

  /** A run of blocks is a slice of their concatenation. */
  lemma ConcatSlice(blocks: seq<Bytes>, size: nat, lo: nat, hi: nat)
    requires Uniform(blocks, size) && lo <= hi <= |blocks|
    ensures lo * size <= hi * size <= |Concat(blocks)|
    ensures Concat(blocks)[lo * size..hi * size] == Concat(blocks[lo..hi])
  {
    hide Concat;
    assert blocks[..hi] == blocks[..lo] + blocks[lo..hi];
    assert blocks == blocks[..hi] + blocks[hi..];
    ConcatAppend(blocks[..lo], blocks[lo..hi]);
    ConcatAppend(blocks[..hi], blocks[hi..]);
    ConcatLength(blocks[..lo], size);
    ConcatLength(blocks[..hi], size);
    StartIsProduct(lo, size);
    StartIsProduct(hi, size);
  }

  /** A window of the retained buffers is the window of the blob's slots. */
  lemma SliceIsWindow(blob: seq<Slot>, w: nat)
    requires Whole(blob) && w < WINDOWS
    ensures |Concat(Payloads(blob)[..DATA_SHARDS])| == BLOB_PLAIN_SIZE
    ensures |Concat(Payloads(blob)[DATA_SHARDS..])| == PARITY_AREA
    ensures WindowSlice(Concat(Payloads(blob)[..DATA_SHARDS]), Concat(Payloads(blob)[DATA_SHARDS..]), w) == WindowPayload(blob, w)
  {
    hide Concat;
    var ps := Payloads(blob);
    AreaLengths(ps);
    var lo := w * WINDOW;
    assert Payloads(blob[lo..lo + WINDOW]) == ps[lo..lo + WINDOW];
    if lo < DATA_SHARDS {
      ConcatSlice(ps[..DATA_SHARDS], SHARD_SIZE, lo, lo + WINDOW);
      assert ps[..DATA_SHARDS][lo..lo + WINDOW] == ps[lo..lo + WINDOW];
    } else {
      ConcatSlice(ps[DATA_SHARDS..], SHARD_SIZE, lo - DATA_SHARDS, lo - DATA_SHARDS + WINDOW);
      assert ps[DATA_SHARDS..][lo - DATA_SHARDS..lo - DATA_SHARDS + WINDOW] == ps[lo..lo + WINDOW];
    }
  }

  lemma DataIsWindow(data: Group, blobs: seq<Bytes>, pars: seq<Bytes>, w: nat)
    requires Retained(data, blobs, pars) && Areas(blobs, pars) && w < WINDOWS
    ensures WindowData(blobs, pars, w) == GroupWord(data, w)
  {
    hide Concat, WindowPayload, WindowSlice;
    forall i | 0 <= i < |data|
      ensures WindowSlice(blobs[i], pars[i], w) == WindowPayload(data[i], w)
    {
      SliceIsWindow(data[i], w);
    }
  }

  /** Tagging the columns of a window of a fresh blob gives its slots. */
  lemma TaggedIsSlots(cr: Crypto, blob: seq<Slot>, w: nat)
    requires Whole(blob) && AllGood(cr, blob) && w < WINDOWS
    ensures |WindowPayload(blob, w)| == WINDOW_BYTES
    ensures TaggedColumns(cr, WindowPayload(blob, w)) == BlobBytes(blob[w * WINDOW..w * WINDOW + WINDOW])
  {
    hide Start, Block, Blocks, WindowPayload, BlobBytes;
    BlobLength();
    var out := WindowPayload(blob, w);
    WindowPayloadBlock(blob, w, 0);
    var slots := FreshSlots(cr, Blocks(out, SHARD_SIZE, WINDOW));
    forall c | 0 <= c < WINDOW
      ensures slots[c] == blob[w * WINDOW + c]
    {
      BlocksAt(out, SHARD_SIZE, WINDOW, c);
      WindowPayloadBlock(blob, w, c);
    }
    assert slots == blob[w * WINDOW..w * WINDOW + WINDOW];
  }

  /** The window-wise parity of the retained buffers is the parity blobs' window. */
  lemma EncodedIsWindow(cr: Crypto, data: Group, m: nat, blobs: seq<Bytes>, pars: seq<Bytes>, w: nat, q: nat)
    requires Retained(data, blobs, pars) && Areas(blobs, pars) && w < WINDOWS && q < m
    requires FileCodeOk(cr, |data|, m) && TagsOk(cr) && FileCodeExists(|data|, m)
    requires forall n :: 0 <= n < |data| ==> BlobWord(cr, data[n]) && AllGood(cr, data[n])
    ensures WindowEncoded(cr, blobs, pars, m, w)[q] == WindowPayload(ParityBlob(cr, data, m, q), w)
  {
    hide FileCodeOk, WindowPayload, BlobWord, AllGood, WrittenGroup, ParityBlob, WholeGroup, WindowData, TagsOk;
    var full := FullGroup(cr, data, m);
    FullGroupWritten(cr, data, m);
    WrittenIsWhole(cr, full, |data|);
    WrittenColumns(cr, full, |data|);
    WindowParity(cr, full, |data|, w, q);
    DataIsWindow(data, blobs, pars, w);
    assert GroupWord(full, w)[..|data|] == GroupWord(data, w);
  }

  lemma WrittenIsWhole(cr: Crypto, blobs: Group, k: nat)
    requires WrittenGroup(cr, blobs, k)
    ensures WholeGroup(blobs, k) && WholeGroup(blobs, 0)
  {}

  /** Every parity write of the pipeline carries the slots of the parity blob
      that column-by-column encoding defines. */
  lemma ParityPutIsSlots(cr: Crypto, spec: Spec, g: nat, data: Group, m: nat, blobs: seq<Bytes>, pars: seq<Bytes>, w: nat, q: nat)
    requires Retained(data, blobs, pars) && Areas(blobs, pars) && w < WINDOWS && q < m
    requires FileCodeOk(cr, |data|, m) && TagsOk(cr) && FileCodeExists(|data|, m)
    requires forall n :: 0 <= n < |data| ==> BlobWord(cr, data[n]) && AllGood(cr, data[n])
    ensures ParityPut(cr, spec, g, |data|, q, w, WindowEncoded(cr, blobs, pars, m, w)[q]).data ==
            BlobBytes(ParityBlob(cr, data, m, q)[w * WINDOW..w * WINDOW + WINDOW])
  {
    hide FileCodeOk, WindowPayload, BlobWord, AllGood, TaggedColumns, ParityBlob, WholeGroup, WindowEncoded;
    hide Whole, BlobBytes, TagsOk;
    ParityBlobFacts(cr, data, m, q);
    EncodedIsWindow(cr, data, m, blobs, pars, w, q);
    TaggedIsSlots(cr, ParityBlob(cr, data, m, q), w);
  }

  /** The pipeline's offset for a parity write, computed from the running group
      counter and the group's size at the flush, is where the reader looks once
      the final chunk count is known. */
  lemma ParityPlacement(v: Vault, g: nat, q: nat, w: nat)
    requires v.spec.Valid() && g < v.Groups() && q < v.M(g) && w < WINDOWS
    ensures v.M(g) == v.spec.ParityCountFor(v.K(g))
    ensures v.ParityNo(g, q) < v.Total()
    ensures v.spec.ParityBlobOffset(g, v.K(g), q) + w * WINDOW * SLOT_SIZE == SlotOffset(v.ParityNo(g, q), w * WINDOW)
  {
    PlaceIsValid(v.spec, v.chunkCount, Parity(g, q));
    assert Offset(v.spec, v.chunkCount, Parity(g, q)) == v.spec.ParityBlobOffset(g, v.K(g), q);
  }

  lemma DataPlacement(v: Vault, i: nat)
    requires v.spec.Valid() && i < v.chunkCount
    ensures v.DataNo(i) < v.Total()
    ensures v.spec.DataBlobOffset(i) == SlotOffset(v.DataNo(i), 0)
  {
    PlaceIsValid(v.spec, v.chunkCount, Data(i));
    assert Offset(v.spec, v.chunkCount, Data(i)) == v.spec.DataBlobOffset(i);
  }
}

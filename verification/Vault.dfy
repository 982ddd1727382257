/** The container file as the engine sees it: slots of payload and tag, grouped
    into blobs, at byte offsets of a file. */
module Vault {
  import opened Bytes
  import opened ErasureCode
  import opened Layout

  /** The foreign primitives the engine is built on. */
  datatype Crypto = Crypto(tag: Bytes -> Bytes,
                           seal: (Bytes, Bytes, Bytes) -> Bytes,
                           open: (Bytes, Bytes, Bytes) -> Option<Bytes>,
                           intra: Code,
                           file: (nat, nat) -> Code,
                           strong: Code)

  /** Tags are truncated to 16 bytes. */
  ghost predicate TagsOk(cr: Crypto) {
    forall p :: |cr.tag(p)| == TAG_SIZE
  }

  ghost predicate IntraOk(cr: Crypto) {
    cr.intra.k == DATA_SHARDS && cr.intra.m == PARITY_SHARDS && cr.intra.sizes(SHARD_SIZE) && Contract(cr.intra)
  }

  ghost predicate FileCodeOk(cr: Crypto, k: nat, m: nat) {
    && cr.file(k, m).k == k && cr.file(k, m).m == m
    && Contract(cr.file(k, m)) && ColumnWise(cr.file(k, m)) && AnySize(cr.file(k, m))
  }

  /** The file-level encoders exist for every size the cache hands out. */
  ghost predicate FileCodesOk(cr: Crypto) {
    forall k: nat, m: nat ::
      1 <= k <= FILE_GROUP_CHUNKS && 1 <= m <= FILE_PARITY_SHARDS ==> FileCodeOk(cr, k, m)
  }

  ghost predicate CodesOk(cr: Crypto) {
    IntraOk(cr) && FileCodesOk(cr)
  }

  /** What opening a container establishes: primitives, layout and chunk count. */
  datatype Vault = Vault(cr: Crypto, spec: Spec, chunkCount: nat) {
    function Total(): nat {
      spec.TotalBlobCount(chunkCount)
    }

    function Groups(): nat {
      GroupCount(chunkCount)
    }

    /** Blob number of data chunk i. */
    function DataNo(i: nat): nat
      requires i < chunkCount
    {
      Place(spec, chunkCount, Data(i))
    }

    /** Data chunks of group g. */
    function K(g: nat): nat
      requires g < Groups()
    {
      GroupFacts(chunkCount, g);
      DataChunksInGroup(g, chunkCount)
    }

    /** Parity blobs of group g. */
    function M(g: nat): nat
      requires g < Groups()
    {
      GroupFacts(chunkCount, g);
      spec.GroupParity(g, chunkCount)
    }

    /** Blob number of parity q of group g. */
    function ParityNo(g: nat, q: nat): nat
      requires g < Groups() && q < M(g)
    {
      GroupFacts(chunkCount, g);
      Place(spec, chunkCount, Parity(g, q))
    }
  }

  // ---------- slots and images ----------

  datatype Slot = Slot(payload: Bytes, tag: Bytes)

  type Image = seq<seq<Slot>>

  /** VerifyTag: the stored tag is that of the payload. */
  predicate Good(cr: Crypto, s: Slot) {
    cr.tag(s.payload) == s.tag
  }

  /** A slot as the writer and the scrubber lay it out. */
  function Fresh(cr: Crypto, payload: Bytes): Slot {
    Slot(payload, cr.tag(payload))
  }

  function SlotBytes(s: Slot): Bytes {
    s.payload + s.tag
  }

  function Sized(s: Slot): bool {
    |s.payload| == SHARD_SIZE && |s.tag| == TAG_SIZE
  }

  predicate Shaped(img: Image, total: nat) {
    && |img| == total
    && (forall n :: 0 <= n < total ==> |img[n]| == SHARDS_PER_BLOB)
    && (forall n, j :: 0 <= n < total && 0 <= j < SHARDS_PER_BLOB ==> Sized(img[n][j]))
  }

  function SlotOffset(n: nat, j: nat): nat {
    n * BLOB_DISK_SIZE + j * SLOT_SIZE
  }

  function SlotAt(f: Bytes, n: nat, j: nat): Slot
    requires j < SHARDS_PER_BLOB && (n + 1) * BLOB_DISK_SIZE <= |f|
  {
    var o := SlotOffset(n, j);
    Slot(f[o..o + SHARD_SIZE], f[o + SHARD_SIZE..o + SLOT_SIZE])
  }

  function BlobSlots(f: Bytes, n: nat): seq<Slot>
    requires (n + 1) * BLOB_DISK_SIZE <= |f|
  {
    seq(SHARDS_PER_BLOB, j requires 0 <= j < SHARDS_PER_BLOB => SlotAt(f, n, j))
  }

  lemma BlobInFile(f: Bytes, total: nat, n: nat)
    requires total * BLOB_DISK_SIZE <= |f| && n < total
    ensures (n + 1) * BLOB_DISK_SIZE <= |f|
  {}

  /** The blobs of the first total * BLOB_DISK_SIZE bytes of a file. */
  function ImageOf(f: Bytes, total: nat): Image
    requires total * BLOB_DISK_SIZE <= |f|
  {
    seq(total, n requires 0 <= n < total => BlobInFile(f, total, n); BlobSlots(f, n))
  }

  lemma ImageShaped(f: Bytes, total: nat)
    requires total * BLOB_DISK_SIZE <= |f|
    ensures Shaped(ImageOf(f, total), total)
  {}

  /** WriteAt within the file. */
  function Splice(f: Bytes, off: nat, b: Bytes): (r: Bytes)
    requires off + |b| <= |f|
    ensures |r| == |f|
  {
    f[..off] + b + f[off + |b|..]
  }

  function PutSlot(img: Image, n: nat, j: nat, s: Slot): Image
    requires n < |img| && j < |img[n]|
  {
    img[n := img[n][j := s]]
  }

  lemma OffsetBounds(n: nat, j: nat, total: nat)
    requires n < total && j < SHARDS_PER_BLOB
    ensures SlotOffset(n, j) + SLOT_SIZE <= (n + 1) * BLOB_DISK_SIZE <= total * BLOB_DISK_SIZE
  {}

  /** Two different slots do not overlap. */
  lemma OffsetsApart(n: nat, j: nat, n': nat, j': nat)
    requires j < SHARDS_PER_BLOB && j' < SHARDS_PER_BLOB && (n, j) != (n', j')
    ensures SlotOffset(n, j) + SLOT_SIZE <= SlotOffset(n', j') || SlotOffset(n', j') + SLOT_SIZE <= SlotOffset(n, j)
  {}

  lemma SliceOutside(f: Bytes, off: nat, b: Bytes, lo: nat, hi: nat)
    requires off + |b| <= |f| && lo <= hi <= |f|
    requires hi <= off || off + |b| <= lo
    ensures Splice(f, off, b)[lo..hi] == f[lo..hi]
  {}

  lemma SliceInside(f: Bytes, off: nat, b: Bytes, lo: nat, hi: nat)
    requires off + |b| <= |f| && lo <= hi <= |b|
    ensures Splice(f, off, b)[off + lo..off + hi] == b[lo..hi]
  {}

  /** Writing one slot changes that slot of the image and nothing else. */
  lemma SpliceSlot(f: Bytes, total: nat, n: nat, j: nat, s: Slot)
    requires total * BLOB_DISK_SIZE <= |f| && n < total && j < SHARDS_PER_BLOB && Sized(s)
    ensures SlotOffset(n, j) + |SlotBytes(s)| <= total * BLOB_DISK_SIZE
    ensures ImageOf(Splice(f, SlotOffset(n, j), SlotBytes(s)), total) == PutSlot(ImageOf(f, total), n, j, s)
  {
    OffsetBounds(n, j, total);
    var o := SlotOffset(n, j);
    var g := Splice(f, o, SlotBytes(s));
    forall n', j' | 0 <= n' < total && 0 <= j' < SHARDS_PER_BLOB
      ensures ImageOf(g, total)[n'][j'] == PutSlot(ImageOf(f, total), n, j, s)[n'][j']
    {
      BlobInFile(f, total, n');
      OneSlotAfterSplice(f, total, n, j, s, n', j');
    }
    assert forall n' :: 0 <= n' < total ==> ImageOf(g, total)[n'] == PutSlot(ImageOf(f, total), n, j, s)[n'];
  }

  lemma OneSlotAfterSplice(f: Bytes, total: nat, n: nat, j: nat, s: Slot, n': nat, j': nat)
    requires total * BLOB_DISK_SIZE <= |f| && n < total && j < SHARDS_PER_BLOB && Sized(s)
    requires n' < total && j' < SHARDS_PER_BLOB
    requires (n' + 1) * BLOB_DISK_SIZE <= |f| && SlotOffset(n, j) + |SlotBytes(s)| <= |f|
    ensures SlotAt(Splice(f, SlotOffset(n, j), SlotBytes(s)), n', j') == if (n', j') == (n, j) then s else SlotAt(f, n', j')
  {
    var o, o' := SlotOffset(n, j), SlotOffset(n', j');
    OffsetBounds(n', j', total);
    if (n', j') == (n, j) {
      SliceInside(f, o, SlotBytes(s), 0, SHARD_SIZE);
      SliceInside(f, o, SlotBytes(s), SHARD_SIZE, SLOT_SIZE);
    } else {
      OffsetsApart(n, j, n', j');
      SliceOutside(f, o, SlotBytes(s), o', o' + SHARD_SIZE);
      SliceOutside(f, o, SlotBytes(s), o' + SHARD_SIZE, o' + SLOT_SIZE);
    }
  }

  /** The bytes of a whole blob. */
  function BlobBytes(slots: seq<Slot>): Bytes {
    Concat(seq(|slots|, j requires 0 <= j < |slots| => SlotBytes(slots[j])))
  }

  lemma BlobBytesSlot(slots: seq<Slot>, j: nat)
    requires |slots| == SHARDS_PER_BLOB && (forall i :: 0 <= i < |slots| ==> Sized(slots[i]))
    requires j < SHARDS_PER_BLOB
    ensures |BlobBytes(slots)| == BLOB_DISK_SIZE
    ensures j * SLOT_SIZE + SLOT_SIZE <= BLOB_DISK_SIZE
    ensures BlobBytes(slots)[j * SLOT_SIZE..j * SLOT_SIZE + SLOT_SIZE] == SlotBytes(slots[j])
  {
    var parts := seq(|slots|, i requires 0 <= i < |slots| => SlotBytes(slots[i]));
    ConcatLength(parts, SLOT_SIZE);
    ConcatBlock(parts, SLOT_SIZE, j);
    StartIsProduct(SHARDS_PER_BLOB, SLOT_SIZE);
    StartIsProduct(j, SLOT_SIZE);
  }

  lemma SlotInsideBlob(f: Bytes, total: nat, n: nat, b: Bytes, j: nat, s: Slot)
    requires total * BLOB_DISK_SIZE <= |f| && n < total && |b| == BLOB_DISK_SIZE && j < SHARDS_PER_BLOB
    requires n * BLOB_DISK_SIZE + |b| <= |f| && (n + 1) * BLOB_DISK_SIZE <= |f|
    requires Sized(s) && j * SLOT_SIZE + SLOT_SIZE <= |b| && b[j * SLOT_SIZE..j * SLOT_SIZE + SLOT_SIZE] == SlotBytes(s)
    ensures SlotAt(Splice(f, n * BLOB_DISK_SIZE, b), n, j) == s
  {
    hide Splice, SlotBytes, Sized;
    var lo := j * SLOT_SIZE;
    SliceInside(f, n * BLOB_DISK_SIZE, b, lo, lo + SHARD_SIZE);
    SliceInside(f, n * BLOB_DISK_SIZE, b, lo + SHARD_SIZE, lo + SLOT_SIZE);
    SubSlice(b, lo, lo + SLOT_SIZE, 0, SHARD_SIZE);
    SubSlice(b, lo, lo + SLOT_SIZE, SHARD_SIZE, SLOT_SIZE);
    SlotParts(s);
  }

  lemma SubSlice(b: Bytes, lo: nat, hi: nat, a: nat, c: nat)
    requires lo <= hi <= |b| && a <= c <= hi - lo
    ensures b[lo..hi][a..c] == b[lo + a..lo + c]
  {
    var x, y := b[lo..hi][a..c], b[lo + a..lo + c];
    assert |x| == |y| && forall i :: 0 <= i < |x| ==> x[i] == y[i];
  }

  lemma SlotParts(s: Slot)
    requires Sized(s)
    ensures |SlotBytes(s)| == SLOT_SIZE
    ensures SlotBytes(s)[0..SHARD_SIZE] == s.payload && SlotBytes(s)[SHARD_SIZE..SLOT_SIZE] == s.tag
  {}

  lemma SlotOutsideBlob(f: Bytes, total: nat, n: nat, b: Bytes, n': nat, j': nat)
    requires total * BLOB_DISK_SIZE <= |f| && |b| == BLOB_DISK_SIZE && n' < total && n' != n
    requires n * BLOB_DISK_SIZE + |b| <= |f| && (n' + 1) * BLOB_DISK_SIZE <= |f| && j' < SHARDS_PER_BLOB
    ensures SlotAt(Splice(f, n * BLOB_DISK_SIZE, b), n', j') == SlotAt(f, n', j')
  {
    hide Splice;
    OffsetBounds(n', j', total);
    var o' := SlotOffset(n', j');
    SliceOutside(f, n * BLOB_DISK_SIZE, b, o', o' + SHARD_SIZE);
    SliceOutside(f, n * BLOB_DISK_SIZE, b, o' + SHARD_SIZE, o' + SLOT_SIZE);
  }

  lemma OneSlotAfterBlob(f: Bytes, total: nat, n: nat, slots: seq<Slot>, n': nat, j': nat)
    requires total * BLOB_DISK_SIZE <= |f| && n < total
    requires |slots| == SHARDS_PER_BLOB && forall i :: 0 <= i < |slots| ==> Sized(slots[i])
    requires n' < total && j' < SHARDS_PER_BLOB && (n' + 1) * BLOB_DISK_SIZE <= |f|
    requires n * BLOB_DISK_SIZE + |BlobBytes(slots)| <= |f|
    ensures SlotAt(Splice(f, n * BLOB_DISK_SIZE, BlobBytes(slots)), n', j') ==
            if n' == n then slots[j'] else SlotAt(f, n', j')
  {
    hide BlobBytes, SlotAt, Splice, SlotBytes;
    BlobBytesSlot(slots, j');
    if n' == n {
      SlotInsideBlob(f, total, n, BlobBytes(slots), j', slots[j']);
    } else {
      SlotOutsideBlob(f, total, n, BlobBytes(slots), n', j');
    }
  }

  /** Writing a whole blob replaces that blob of the image and nothing else. */
  lemma SpliceBlob(f: Bytes, total: nat, n: nat, slots: seq<Slot>)
    requires total * BLOB_DISK_SIZE <= |f| && n < total
    requires |slots| == SHARDS_PER_BLOB && forall i :: 0 <= i < |slots| ==> Sized(slots[i])
    ensures n * BLOB_DISK_SIZE + |BlobBytes(slots)| <= total * BLOB_DISK_SIZE
    ensures ImageOf(Splice(f, n * BLOB_DISK_SIZE, BlobBytes(slots)), total) == ImageOf(f, total)[n := slots]
  {
    hide BlobBytes, SlotAt, Splice;
    BlobBytesSlot(slots, 0);
    var g := Splice(f, n * BLOB_DISK_SIZE, BlobBytes(slots));
    forall n' | 0 <= n' < total
      ensures ImageOf(g, total)[n'] == ImageOf(f, total)[n := slots][n']
    {
      BlobInFile(f, total, n');
      forall j' | 0 <= j' < SHARDS_PER_BLOB
        ensures BlobSlots(g, n')[j'] == ImageOf(f, total)[n := slots][n'][j']
      {
        OneSlotAfterBlob(f, total, n, slots, n', j');
      }
    }
  }

  /** The slot and the position in it that hold byte p. */
  lemma LocateByte(p: nat, total: nat) returns (n: nat, j: nat, t: nat)
    requires p < total * BLOB_DISK_SIZE
    ensures n < total && j < SHARDS_PER_BLOB && t < SLOT_SIZE
    ensures p == SlotOffset(n, j) + t
  {
    n := p / BLOB_DISK_SIZE;
    j := p % BLOB_DISK_SIZE / SLOT_SIZE;
    t := p % BLOB_DISK_SIZE % SLOT_SIZE;
  }

  /** The image and what follows it determine the file byte for byte. */
  lemma ImageDetermines(f: Bytes, g: Bytes, total: nat)
    requires total * BLOB_DISK_SIZE <= |f| == |g|
    requires ImageOf(f, total) == ImageOf(g, total)
    requires f[total * BLOB_DISK_SIZE..] == g[total * BLOB_DISK_SIZE..]
    ensures f == g
  {
    var limit := total * BLOB_DISK_SIZE;
    forall p | 0 <= p < |f|
      ensures f[p] == g[p]
    {
      if p < limit {
        SameByte(f, g, total, p);
      } else {
        assert f[p] == f[limit..][p - limit] && g[p] == g[limit..][p - limit];
      }
    }
  }

  lemma SameByte(f: Bytes, g: Bytes, total: nat, p: nat)
    requires p < total * BLOB_DISK_SIZE <= |f| == |g|
    requires ImageOf(f, total) == ImageOf(g, total)
    ensures f[p] == g[p]
  {
    hide SlotAt, SlotOffset;
    var n, j, t := LocateByte(p, total);
    BlobInFile(f, total, n);
    assert ImageOf(f, total)[n] == BlobSlots(f, n) && ImageOf(g, total)[n] == BlobSlots(g, n);
    assert BlobSlots(f, n)[j] == SlotAt(f, n, j) && BlobSlots(g, n)[j] == SlotAt(g, n, j);
    SlotDetermines(f, g, n, j, t);
  }

  lemma SlotDetermines(f: Bytes, g: Bytes, n: nat, j: nat, t: nat)
    requires j < SHARDS_PER_BLOB && t < SLOT_SIZE
    requires (n + 1) * BLOB_DISK_SIZE <= |f| == |g|
    requires SlotAt(f, n, j) == SlotAt(g, n, j)
    ensures f[SlotOffset(n, j) + t] == g[SlotOffset(n, j) + t]
  {
    var o := SlotOffset(n, j);
    if t < SHARD_SIZE {
      assert f[o + t] == SlotAt(f, n, j).payload[t];
      assert g[o + t] == SlotAt(g, n, j).payload[t];
    } else {
      assert f[o + t] == SlotAt(f, n, j).tag[t - SHARD_SIZE];
      assert g[o + t] == SlotAt(g, n, j).tag[t - SHARD_SIZE];
    }
  }
}

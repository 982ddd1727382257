/** The writes that make up a container, and the file they leave: the one a
    sequential encoder would have written. */
module ExpectedWrites {
  import opened Bytes
  import opened Layout
  import opened Vault
  import opened Encoder
  import opened Writes
  import opened PipelineState

  /** The vault, prefix and chunks are those of a container that can be written. */
  ghost predicate Plan(v: Vault, pfx: Bytes, chunks: seq<Bytes>) {
    v.spec.Valid() && Ready(v.cr, pfx, chunks) && |chunks| == v.chunkCount
  }

  predicate Due(v: Vault, l: Label) {
    match l
    case DataW(i) => i < v.chunkCount
    case ParW(g, w, q) => g < v.Groups() && w < WINDOWS && q < v.M(g)
  }

  function BlobOfLabel(v: Vault, l: Label): Blob {
    match l
    case DataW(i) => Data(i)
    case ParW(g, _, q) => Blob.Parity(g, q)
  }

  /** The first slot of the blob that the write covers, and how many. */
  function FirstSlot(l: Label): nat {
    if l.DataW? then 0 else l.w * WINDOW
  }

  function SlotCount(l: Label): nat {
    if l.DataW? then SHARDS_PER_BLOB else WINDOW
  }

  lemma DueBlob(v: Vault, l: Label)
    requires v.spec.Valid() && Due(v, l)
    ensures InContainer(v.spec, v.chunkCount, BlobOfLabel(v, l))
    ensures Place(v.spec, v.chunkCount, BlobOfLabel(v, l)) < v.Total()
    ensures FirstSlot(l) + SlotCount(l) <= SHARDS_PER_BLOB
  {
    if l.ParW? {
      GroupFacts(v.chunkCount, l.g);
    }
    PlaceIsValid(v.spec, v.chunkCount, BlobOfLabel(v, l));
  }

  function LabelPlace(v: Vault, l: Label): nat
    requires v.spec.Valid() && Due(v, l)
  {
    DueBlob(v, l);
    Place(v.spec, v.chunkCount, BlobOfLabel(v, l))
  }

  /** The write due for a label: slots of the sequential encoder's container. */
  function Expect(v: Vault, pfx: Bytes, chunks: seq<Bytes>, l: Label): Put
    requires Plan(v, pfx, chunks) && Due(v, l)
  {
    DueBlob(v, l);
    hide SeqImage, Ready;
    var n, lo := LabelPlace(v, l), FirstSlot(l);
    Put(SlotOffset(n, lo), BlobBytes(SeqImage(v, pfx, chunks)[n][lo..lo + SlotCount(l)]))
  }

  // ---------- a run of slots in a file ----------

  lemma RunBytes(slots: seq<Slot>, j: nat)
    requires forall i :: 0 <= i < |slots| ==> Sized(slots[i])
    ensures |BlobBytes(slots)| == |slots| * SLOT_SIZE
    ensures j < |slots| ==> j * SLOT_SIZE + SLOT_SIZE <= |BlobBytes(slots)|
    ensures j < |slots| ==> BlobBytes(slots)[j * SLOT_SIZE..j * SLOT_SIZE + SLOT_SIZE] == SlotBytes(slots[j])
  {
    hide Concat;
    var parts := seq(|slots|, i requires 0 <= i < |slots| => SlotBytes(slots[i]));
    ConcatLength(parts, SLOT_SIZE);
    StartIsProduct(|slots|, SLOT_SIZE);
    if j < |slots| {
      ConcatBlock(parts, SLOT_SIZE, j);
      StartIsProduct(j, SLOT_SIZE);
    }
  }

  /** A file that holds a run of slots has them at their places. */
  lemma RunHeld(f: Bytes, total: nat, n: nat, lo: nat, slots: seq<Slot>, j: nat)
    requires total * BLOB_DISK_SIZE <= |f| && n < total && lo + |slots| <= SHARDS_PER_BLOB && lo <= j < lo + |slots|
    requires forall i :: 0 <= i < |slots| ==> Sized(slots[i])
    requires Holds(f, Put(SlotOffset(n, lo), BlobBytes(slots)))
    requires (n + 1) * BLOB_DISK_SIZE <= |f|
    ensures SlotAt(f, n, j) == slots[j - lo]
  {
    hide BlobBytes, SlotBytes, Sized;
    RunBytes(slots, j - lo);
    SlotParts(slots[j - lo]);
    var at, off := (j - lo) * SLOT_SIZE, SlotOffset(n, lo);
    var b := BlobBytes(slots);
    assert f[off..off + |b|] == b;
    SubSlice(f, off, off + |b|, at, at + SLOT_SIZE);
    assert SlotOffset(n, j) == off + at;
    SubSlice(f, off + at, off + at + SLOT_SIZE, 0, SHARD_SIZE);
    SubSlice(f, off + at, off + at + SLOT_SIZE, SHARD_SIZE, SLOT_SIZE);
  }

  lemma ExpectFacts(v: Vault, pfx: Bytes, chunks: seq<Bytes>, l: Label)
    requires Plan(v, pfx, chunks) && Due(v, l)
    ensures
      var n, lo, p := LabelPlace(v, l), FirstSlot(l), Expect(v, pfx, chunks, l);
      && n < v.Total() && lo + SlotCount(l) <= SHARDS_PER_BLOB
      && p.off == SlotOffset(n, lo) && p.End() == SlotOffset(n, lo) + SlotCount(l) * SLOT_SIZE
      && p.data == BlobBytes(SeqImage(v, pfx, chunks)[n][lo..lo + SlotCount(l)])
  {
    hide SeqImage, Ready, BlobBytes;
    DueBlob(v, l);
    var n, lo := LabelPlace(v, l), FirstSlot(l);
    var slots := SeqImage(v, pfx, chunks)[n][lo..lo + SlotCount(l)];
    RunBytes(slots, 0);
  }

  /** Different writes of a container touch different bytes. */
  lemma ExpectApart(v: Vault, pfx: Bytes, chunks: seq<Bytes>, a: Label, b: Label)
    requires Plan(v, pfx, chunks) && Due(v, a) && Due(v, b) && a != b
    ensures Apart(Expect(v, pfx, chunks, a), Expect(v, pfx, chunks, b))
  {
    hide Plan, Expect, Place;
    assert v.spec.Valid() by { PlanParts(v, pfx, chunks); }
    ExpectFacts(v, pfx, chunks, a);
    ExpectFacts(v, pfx, chunks, b);
    DueBlob(v, a);
    DueBlob(v, b);
    if LabelPlace(v, a) == LabelPlace(v, b) {
      PlaceIsValid(v.spec, v.chunkCount, BlobOfLabel(v, a));
      PlaceIsValid(v.spec, v.chunkCount, BlobOfLabel(v, b));
      assert BlobOfLabel(v, a) == BlobOfLabel(v, b);
      assert a.w != b.w;
    }
    RunsApart(LabelPlace(v, a), FirstSlot(a), SlotCount(a), LabelPlace(v, b), FirstSlot(b), SlotCount(b));
  }

  lemma PlanParts(v: Vault, pfx: Bytes, chunks: seq<Bytes>)
    requires Plan(v, pfx, chunks)
    ensures v.spec.Valid() && Ready(v.cr, pfx, chunks) && |chunks| == v.chunkCount
  {}

  lemma RunsApart(n: nat, lo: nat, k: nat, n': nat, lo': nat, k': nat)
    requires lo + k <= SHARDS_PER_BLOB && lo' + k' <= SHARDS_PER_BLOB
    requires n == n' ==> lo + k <= lo' || lo' + k' <= lo
    ensures SlotOffset(n, lo) + k * SLOT_SIZE <= SlotOffset(n', lo') || SlotOffset(n', lo') + k' * SLOT_SIZE <= SlotOffset(n, lo)
  {}

  // ---------- a complete log ----------

  function Puts(log: seq<Logged>): (puts: seq<Put>)
    ensures |puts| == |log|
  {
    seq(|log|, a requires 0 <= a < |log| => log[a].put)
  }

  /** Each entry of the log is a due write, as expected, and none occurs twice. */
  ghost predicate LogRight(v: Vault, pfx: Bytes, chunks: seq<Bytes>, log: seq<Logged>)
    requires Plan(v, pfx, chunks)
  {
    && (forall a :: 0 <= a < |log| ==> Due(v, log[a].what) && log[a].put == Expect(v, pfx, chunks, log[a].what))
    && (forall a, b :: 0 <= a < b < |log| ==> log[a].what != log[b].what)
  }

  predicate InLog(log: seq<Logged>, l: Label) {
    exists a :: 0 <= a < |log| && log[a].what == l
  }

  lemma LogHolds(v: Vault, pfx: Bytes, chunks: seq<Bytes>, log: seq<Logged>, l: Label)
    requires Plan(v, pfx, chunks) && LogRight(v, pfx, chunks, log) && Due(v, l) && InLog(log, l)
    ensures Holds(Apply([], Puts(log)), Expect(v, pfx, chunks, l))
  {
    hide Plan, Expect, Apply, Holds, Apart;
    var puts := Puts(log);
    forall a, b | 0 <= a < b < |puts|
      ensures Apart(puts[a], puts[b])
    {
      ExpectApart(v, pfx, chunks, log[a].what, log[b].what);
    }
    DisjointWritesSurvive([], puts);
    var a :| 0 <= a < |log| && log[a].what == l;
    assert Holds(Apply([], puts), puts[a]);
  }

  /** The write that covers slot j of blob n. */
  function Covering(v: Vault, n: nat, j: nat): Label
    requires v.spec.Valid() && n < v.Total()
  {
    match Locate(v.spec, v.chunkCount, n)
    case Data(i) => DataW(i)
    case Parity(g, q) => ParW(g, j / WINDOW, q)
  }

  lemma CoveringFacts(v: Vault, n: nat, j: nat)
    requires v.spec.Valid() && n < v.Total() && j < SHARDS_PER_BLOB
    ensures Due(v, Covering(v, n, j)) && LabelPlace(v, Covering(v, n, j)) == n
    ensures FirstSlot(Covering(v, n, j)) <= j < FirstSlot(Covering(v, n, j)) + SlotCount(Covering(v, n, j))
  {
    hide Place, Locate;
    PlaceIsTaken(v.spec, v.chunkCount, n);
  }

  /** The file after a complete log is as long as the container, and its blobs
      are those of the sequential encoder. */
  lemma CompleteLog(v: Vault, pfx: Bytes, chunks: seq<Bytes>, log: seq<Logged>)
    requires Plan(v, pfx, chunks) && LogRight(v, pfx, chunks, log)
    requires forall l :: Due(v, l) ==> InLog(log, l)
    ensures |Apply([], Puts(log))| == v.Total() * BLOB_DISK_SIZE
    ensures ImageOf(Apply([], Puts(log)), v.Total()) == SeqImage(v, pfx, chunks)
  {
    hide Expect, Apply, Holds, LogRight, SeqImage, SlotAt, Ready;
    var f, total := Apply([], Puts(log)), v.Total();
    CompleteLength(v, pfx, chunks, log);
    forall n | 0 <= n < total
      ensures ImageOf(f, total)[n] == SeqImage(v, pfx, chunks)[n]
    {
      BlobInFile(f, total, n);
      forall j | 0 <= j < SHARDS_PER_BLOB
        ensures BlobSlots(f, n)[j] == SeqImage(v, pfx, chunks)[n][j]
      {
        CompleteSlot(v, pfx, chunks, log, n, j);
      }
    }
  }

  lemma CompleteSlot(v: Vault, pfx: Bytes, chunks: seq<Bytes>, log: seq<Logged>, n: nat, j: nat)
    requires Plan(v, pfx, chunks) && LogRight(v, pfx, chunks, log)
    requires forall l :: Due(v, l) ==> InLog(log, l)
    requires v.Total() * BLOB_DISK_SIZE <= |Apply([], Puts(log))| && n < v.Total() && j < SHARDS_PER_BLOB
    requires (n + 1) * BLOB_DISK_SIZE <= |Apply([], Puts(log))|
    ensures SlotAt(Apply([], Puts(log)), n, j) == SeqImage(v, pfx, chunks)[n][j]
  {
    hide Expect, Apply, Holds, LogRight, SeqImage, SlotAt, Ready, Covering, InLog, SlotOffset, BlobBytes, Due;
    var l := Covering(v, n, j);
    CoveringFacts(v, n, j);
    LogHolds(v, pfx, chunks, log, l);
    ExpectFacts(v, pfx, chunks, l);
    var lo := FirstSlot(l);
    var slots := SeqImage(v, pfx, chunks)[n][lo..lo + SlotCount(l)];
    RunHeld(Apply([], Puts(log)), v.Total(), n, lo, slots, j);
  }

  lemma CompleteLength(v: Vault, pfx: Bytes, chunks: seq<Bytes>, log: seq<Logged>)
    requires Plan(v, pfx, chunks) && LogRight(v, pfx, chunks, log)
    requires forall l :: Due(v, l) ==> InLog(log, l)
    ensures |Apply([], Puts(log))| == v.Total() * BLOB_DISK_SIZE
  {
    hide Expect, Apply, Ready, SlotOffset, LabelPlace, Due;
    var puts, limit := Puts(log), v.Total() * BLOB_DISK_SIZE;
    forall a | 0 <= a < |puts|
      ensures puts[a].End() <= limit
    {
      ExpectFacts(v, pfx, chunks, log[a].what);
      RunEnd(LabelPlace(v, log[a].what), FirstSlot(log[a].what), SlotCount(log[a].what), v.Total());
    }
    ApplyLength(puts, limit);
    if v.Total() > 0 {
      var n := v.Total() - 1;
      var l := Covering(v, n, SHARDS_PER_BLOB - 1);
      CoveringFacts(v, n, SHARDS_PER_BLOB - 1);
      LogHolds(v, pfx, chunks, log, l);
      ExpectFacts(v, pfx, chunks, l);
      RunEnd(n, FirstSlot(l), SlotCount(l), v.Total());
    }
  }

  lemma RunEnd(n: nat, lo: nat, k: nat, total: nat)
    requires n < total && lo + k <= SHARDS_PER_BLOB
    ensures SlotOffset(n, lo) + k * SLOT_SIZE <= total * BLOB_DISK_SIZE
    ensures n + 1 == total && lo + k == SHARDS_PER_BLOB ==> SlotOffset(n, lo) + k * SLOT_SIZE == total * BLOB_DISK_SIZE
  {}
}

/** The loops of Scrub and rebuildFileParity (internal/engine/scrub.go), proved
    to leave the file and the report that module ScrubSpec defines. */
module ScrubLoops {
  import opened Bytes
  import opened ErasureCode
  import opened Layout
  import opened Vault
  import opened Repair
  import opened Encoder
  import opened ScrubSpec
  import opened Engine
  import opened EncodeLoops

  /** The part of the file behind the blobs: the trailer. */
  function Rest(f: Bytes, total: nat): Bytes
    requires total * BLOB_DISK_SIZE <= |f|
  {
    f[total * BLOB_DISK_SIZE..]
  }

  lemma SpliceRest(f: Bytes, total: nat, off: nat, b: Bytes)
    requires off + |b| <= total * BLOB_DISK_SIZE <= |f|
    ensures Rest(Splice(f, off, b), total) == Rest(f, total)
  {}

  /** What every step needs, and keeps: an opened container written through its own file. */
  ghost predicate Working(c: Container, w: Medium?)
    reads c.src
  {
    c.Valid() && TagsOk(c.v.cr) && CodesOk(c.v.cr) && (w == null || w == c.src)
  }

  lemma WorkingParts(c: Container, w: Medium?)
    requires Working(c, w)
    ensures c.Valid() && TagsOk(c.v.cr) && IntraOk(c.v.cr) && FileCodesOk(c.v.cr) && Opened(c.v, c.Image())
  {}

  /** The file after a step: these blobs, and the trailer untouched. */
  twostate predicate Became(c: Container, img: Image)
    reads c.src
  {
    && c.v.Total() * BLOB_DISK_SIZE <= old(|c.src.bytes|) == |c.src.bytes|
    && ImageOf(c.src.bytes, c.v.Total()) == img
    && Rest(c.src.bytes, c.v.Total()) == old(Rest(c.src.bytes, c.v.Total()))
  }

  // ---------- single writes ----------

  lemma SlotWritten(v: Vault, f: Bytes, b: Blob, j: nat, payload: Bytes)
    requires v.spec.Valid() && TagsOk(v.cr) && v.Total() * BLOB_DISK_SIZE <= |f| && Shaped(ImageOf(f, v.Total()), v.Total())
    requires InContainer(v.spec, v.chunkCount, b) && j < SHARDS_PER_BLOB && |payload| == SHARD_SIZE
    ensures Place(v.spec, v.chunkCount, b) < v.Total()
    ensures
      var n, img, slot := Place(v.spec, v.chunkCount, b), ImageOf(f, v.Total()), payload + v.cr.tag(payload);
      && SlotOffset(n, j) + |slot| <= v.Total() * BLOB_DISK_SIZE
      && ImageOf(Splice(f, SlotOffset(n, j), slot), v.Total()) == img[n := At(v, img, b)[j := Fresh(v.cr, payload)]]
      && Rest(Splice(f, SlotOffset(n, j), slot), v.Total()) == Rest(f, v.Total())
  {
    hide ImageOf, Shaped, Place, InContainer, SlotOffset, Splice, Rest;
    var n := Place(v.spec, v.chunkCount, b);
    PlaceIsValid(v.spec, v.chunkCount, b);
    assert |v.cr.tag(payload)| == TAG_SIZE;
    SpliceSlot(f, v.Total(), n, j, Fresh(v.cr, payload));
    SpliceRest(f, v.Total(), SlotOffset(n, j), payload + v.cr.tag(payload));
  }

  lemma BlobWritten(v: Vault, f: Bytes, b: Blob, payloads: seq<Bytes>)
    requires v.spec.Valid() && TagsOk(v.cr) && v.Total() * BLOB_DISK_SIZE <= |f|
    requires InContainer(v.spec, v.chunkCount, b) && |payloads| == SHARDS_PER_BLOB && Uniform(payloads, SHARD_SIZE)
    ensures Place(v.spec, v.chunkCount, b) < v.Total()
    ensures
      var n, img, disk := Place(v.spec, v.chunkCount, b), ImageOf(f, v.Total()), BlobBytes(FreshSlots(v.cr, payloads));
      && n * BLOB_DISK_SIZE + |disk| <= v.Total() * BLOB_DISK_SIZE
      && ImageOf(Splice(f, n * BLOB_DISK_SIZE, disk), v.Total()) == img[n := FreshSlots(v.cr, payloads)]
      && Rest(Splice(f, n * BLOB_DISK_SIZE, disk), v.Total()) == Rest(f, v.Total())
  {
    hide ImageOf, Place, InContainer, Splice, Rest, FreshSlots, BlobBytes;
    var n := Place(v.spec, v.chunkCount, b);
    PlaceIsValid(v.spec, v.chunkCount, b);
    FreshSlotsFacts(v.cr, payloads);
    SpliceBlob(f, v.Total(), n, FreshSlots(v.cr, payloads));
    SpliceRest(f, v.Total(), n * BLOB_DISK_SIZE, BlobBytes(FreshSlots(v.cr, payloads)));
  }

  /** Write one slot of a blob in place. */
  method WriteSlot(c: Container, w: Medium, ghost b: Blob, j: nat, payload: Bytes, off: nat)
    requires Working(c, w) && InContainer(c.v.spec, c.v.chunkCount, b) && j < SHARDS_PER_BLOB && |payload| == SHARD_SIZE
    requires off == SlotOffset(Place(c.v.spec, c.v.chunkCount, b), j)
    modifies w
    ensures Working(c, w) && Place(c.v.spec, c.v.chunkCount, b) < c.v.Total()
    ensures Became(c, old(c.Image())[Place(c.v.spec, c.v.chunkCount, b) := old(At(c.v, c.Image(), b))[j := Fresh(c.v.cr, payload)]])
  {
    hide ImageOf, Shaped, CodesOk, Place, InContainer, SlotOffset, Splice, Rest, At, TagsOk;
    assert Shaped(c.Image(), c.v.Total());
    SlotWritten(c.v, w.bytes, b, j, payload);
    w.WriteAt(payload + c.v.cr.tag(payload), off);
  }

  /** Write a whole blob in place. */
  method WriteBlob(c: Container, w: Medium, ghost b: Blob, payloads: seq<Bytes>, off: nat)
    requires Working(c, w) && InContainer(c.v.spec, c.v.chunkCount, b)
    requires |payloads| == SHARDS_PER_BLOB && Uniform(payloads, SHARD_SIZE)
    requires off == Place(c.v.spec, c.v.chunkCount, b) * BLOB_DISK_SIZE
    modifies w
    ensures Working(c, w) && Place(c.v.spec, c.v.chunkCount, b) < c.v.Total()
    ensures Became(c, old(c.Image())[Place(c.v.spec, c.v.chunkCount, b) := FreshSlots(c.v.cr, payloads)])
  {
    hide ImageOf, Shaped, CodesOk, Place, InContainer, Splice, Rest, TagsOk, FreshSlots, BlobBytes;
    BlobWritten(c.v, w.bytes, b, payloads);
    var disk := JoinSlots(c.v.cr, payloads);
    w.WriteAt(disk, off);
  }

  /** Payload and tag of every slot, one after the other. */
  method JoinSlots(cr: Crypto, payloads: seq<Bytes>) returns (disk: Bytes)
    ensures disk == BlobBytes(FreshSlots(cr, payloads))
  {
    hide Concat, FreshSlots;
    ghost var parts := PartsOf(FreshSlots(cr, payloads));
    FreshParts(cr, payloads);
    ConcatStart();
    disk := [];
    for i := 0 to |payloads|
      invariant disk == Concat(parts[..i])
    {
      ConcatStep(parts, i);
      ghost var before := disk;
      disk := disk + payloads[i];
      disk := disk + cr.tag(payloads[i]);
      assert disk == before + (payloads[i] + cr.tag(payloads[i]));
    }
    assert parts[..|payloads|] == parts;
  }

  // ---------- pass 1 ----------

  /** The bad slots among the first n of the list are rewritten. */
  function PatchedTo(cr: Crypto, blob: seq<Slot>, payloads: seq<Bytes>, bad: seq<nat>, n: nat): (r: seq<Slot>)
    requires |payloads| == |blob| && n <= |bad|
    ensures |r| == |blob|
  {
    seq(|blob|, j requires 0 <= j < |blob| => if j in bad[..n] then Fresh(cr, payloads[j]) else blob[j])
  }

  lemma PatchedStep(cr: Crypto, blob: seq<Slot>, payloads: seq<Bytes>, bad: seq<nat>, n: nat)
    requires |payloads| == |blob| && n < |bad| && bad[n] < |blob|
    ensures PatchedTo(cr, blob, payloads, bad, n + 1) ==
            PatchedTo(cr, blob, payloads, bad, n)[bad[n] := Fresh(cr, payloads[bad[n]])]
  {
    assert bad[..n + 1] == bad[..n] + [bad[n]];
  }

  lemma PatchedDone(cr: Crypto, blob: seq<Slot>, payloads: seq<Bytes>)
    requires |payloads| == |blob|
    ensures PatchedTo(cr, blob, payloads, Bad(cr, blob), |Bad(cr, blob)|) == Patched(cr, blob, payloads)
  {
    var bad := Bad(cr, blob);
    BadFacts(cr, blob, |blob|);
    assert bad[..|bad|] == bad;
    forall j | 0 <= j < |blob|
      ensures j in bad <==> !Good(cr, blob[j])
    {
    }
  }

  lemma PatchedNone(cr: Crypto, blob: seq<Slot>, payloads: seq<Bytes>, bad: seq<nat>)
    requires |payloads| == |blob|
    ensures PatchedTo(cr, blob, payloads, bad, 0) == blob
  {}

  /** Replacing a blob twice leaves the second. */
  lemma ReplaceTwice(img: Image, n: nat, a: seq<Slot>, b: seq<Slot>)
    requires n < |img|
    ensures img[n := a][n := b] == img[n := b]
    ensures img[n := img[n]] == img
  {}

  /** The write-back of pass 1: the repaired slots of one blob. */
  method WriteBack(c: Container, w: Medium, idx: nat, payloads: seq<Bytes>, bad: seq<nat>)
    requires Working(c, w) && idx < c.v.chunkCount && |payloads| == SHARDS_PER_BLOB
    requires bad == Bad(c.v.cr, DataBlob(c.v, c.Image(), idx))
    requires forall j :: j in bad ==> j < SHARDS_PER_BLOB && |payloads[j]| == SHARD_SIZE
    modifies w
    ensures Working(c, w)
    ensures InContainer(c.v.spec, c.v.chunkCount, Data(idx)) && Place(c.v.spec, c.v.chunkCount, Data(idx)) < c.v.Total()
    ensures Became(c, old(c.Image())[Place(c.v.spec, c.v.chunkCount, Data(idx)) :=
                        Patched(c.v.cr, old(DataBlob(c.v, c.Image(), idx)), payloads)])
  {
    hide ImageOf, Shaped, CodesOk, TagsOk, Place, Bad, Patched, PatchedTo, Good, Offset;
    var v := c.v;
    ghost var img, blob := c.Image(), DataBlob(v, c.Image(), idx);
    ghost var b := Data(idx);
    ghost var n := Place(v.spec, v.chunkCount, b);
    PlaceIsValid(v.spec, v.chunkCount, b);
    PatchedNone(v.cr, blob, payloads, bad);
    ShapedBlob(img, v.Total(), n);
    ReplaceTwice(img, n, blob, blob);
    for k := 0 to |bad|
      invariant Working(c, w)
      invariant Became(c, img[n := PatchedTo(v.cr, blob, payloads, bad, k)])
    {
      var i := bad[k];
      assert i in bad;
      DataSlotOffset(v, idx, i);
      ghost var part := PatchedTo(v.cr, blob, payloads, bad, k);
      WriteSlot(c, w, b, i, payloads[i], v.spec.DataBlobOffset(idx) + i * SLOT_SIZE);
      PatchedStep(v.cr, blob, payloads, bad, k);
      ReplaceTwice(img, n, part, PatchedTo(v.cr, blob, payloads, bad, k + 1));
    }
    PatchedDone(v.cr, blob, payloads);
  }

  lemma DataSlotOffset(v: Vault, idx: nat, j: nat)
    requires v.spec.Valid() && idx < v.chunkCount && j < SHARDS_PER_BLOB
    ensures InContainer(v.spec, v.chunkCount, Data(idx))
    ensures v.spec.DataBlobOffset(idx) + j * SLOT_SIZE == SlotOffset(Place(v.spec, v.chunkCount, Data(idx)), j)
    ensures v.spec.DataBlobOffset(idx) == Place(v.spec, v.chunkCount, Data(idx)) * BLOB_DISK_SIZE
  {
    PlaceIsValid(v.spec, v.chunkCount, Data(idx));
    assert Offset(v.spec, v.chunkCount, Data(idx)) == v.spec.DataBlobOffset(idx);
  }

  /** Pass 1 for one chunk: its fate, its bad slots, and its blob written back. */
  method ScrubChunk(c: Container, w: Medium?, idx: nat) returns (fate: Fate, nbad: nat)
    requires Working(c, w) && idx < c.v.chunkCount
    modifies w
    ensures Working(c, w)
    ensures InContainer(c.v.spec, c.v.chunkCount, Data(idx)) && Place(c.v.spec, c.v.chunkCount, Data(idx)) < c.v.Total()
    ensures fate == old(FirstFate(c.v, c.Image(), idx)) && nbad == old(|Bad(c.v.cr, DataBlob(c.v, c.Image(), idx))|)
    ensures Became(c, old(c.Image())[Place(c.v.spec, c.v.chunkCount, Data(idx)) := old(FirstBlob(c.v, c.Image(), w != null, idx))])
  {
    hide ImageOf, Shaped, CodesOk, TagsOk, Place, Patched, Good, Repair.DecodeChunk, RepairIntra, DataBlob;
    var v := c.v;
    ghost var img, blob := c.Image(), DataBlob(v, c.Image(), idx);
    WorkingParts(c, w);
    DataSlotOffset(v, idx, 0);
    PlaceIsValid(v.spec, v.chunkCount, Data(idx));
    UnchangedBlob(c, idx);
    BadFacts(v.cr, blob, |blob|);
    var payloads, bad := c.GatherBlob(idx);
    nbad := |bad|;
    if |bad| > PARITY_SHARDS {
      TooManyBad(v.cr, blob);
      return Pending, nbad;
    }
    if |bad| > 0 {
      var ok := c.RepairInPlace(payloads, bad);
      if !ok {
        return Pending, nbad;
      }
    }
    var d := c.DecodeChunk(idx, payloads[..]);
    if d.Rejected? {
      return LostEarly, nbad;
    }
    if |bad| == 0 {
      return Clean, nbad;
    }
    if w != null {
      RepairedSizes(v.cr, blob);
      WriteBack(c, w, idx, payloads[..], bad);
    }
    return Repaired, nbad;
  }

  lemma TooManyBad(cr: Crypto, blob: seq<Slot>)
    requires |Bad(cr, blob)| > PARITY_SHARDS
    ensures InBlob(cr, blob).None?
  {}

  lemma RepairedSizes(cr: Crypto, blob: seq<Slot>)
    requires |blob| == SHARDS_PER_BLOB && InBlob(cr, blob).Some?
    ensures forall j :: j in Bad(cr, blob) ==> j < SHARDS_PER_BLOB && |InBlob(cr, blob).value[j]| == SHARD_SIZE
  {
    BadFacts(cr, blob, |blob|);
  }

  lemma UnchangedBlob(c: Container, idx: nat)
    requires c.Valid() && idx < c.v.chunkCount
    ensures InContainer(c.v.spec, c.v.chunkCount, Data(idx)) && Place(c.v.spec, c.v.chunkCount, Data(idx)) < c.v.Total()
    ensures c.Image()[Place(c.v.spec, c.v.chunkCount, Data(idx)) := DataBlob(c.v, c.Image(), idx)] == c.Image()
  {
    PlaceIsValid(c.v.spec, c.v.chunkCount, Data(idx));
  }

  /** The first n chunks are through pass 1; the rest is as it was. */
  ghost predicate FirstDone(v: Vault, img: Image, cur: Image, write: bool, n: nat)
    requires Opened(v, img) && Shaped(cur, v.Total())
  {
    forall p | InContainer(v.spec, v.chunkCount, p) ::
      At(v, cur, p) == if p.Data? && p.i >= n then At(v, img, p) else FirstAt(v, img, write, p)
  }

  lemma FirstStart(v: Vault, img: Image, write: bool)
    requires Opened(v, img)
    ensures FirstDone(v, img, img, write, 0)
  {
    hide At, InContainer, FirstBlob;
  }

  lemma FirstStep(v: Vault, img: Image, cur: Image, write: bool, n: nat)
    requires Opened(v, img) && Shaped(cur, v.Total()) && FirstDone(v, img, cur, write, n) && n < v.chunkCount
    ensures InContainer(v.spec, v.chunkCount, Data(n)) && Place(v.spec, v.chunkCount, Data(n)) < |cur|
    ensures DataBlob(v, cur, n) == DataBlob(v, img, n)
    ensures FirstFate(v, cur, n) == FirstFate(v, img, n) && FirstBlob(v, cur, write, n) == FirstBlob(v, img, write, n)
    ensures Shaped(cur[Place(v.spec, v.chunkCount, Data(n)) := FirstBlob(v, img, write, n)], v.Total())
    ensures FirstDone(v, img, cur[Place(v.spec, v.chunkCount, Data(n)) := FirstBlob(v, img, write, n)], write, n + 1)
  {
    hide At, InContainer, Shaped, Place, InBlob, DataBlob, DecodeChunk, Patched, CodesOk, TagsOk;
    DataAt(v, cur, n);
    DataAt(v, img, n);
    var blob := FirstBlob(v, img, write, n);
    AtUpdated(v, cur, Data(n), blob, Data(n));
    forall p | InContainer(v.spec, v.chunkCount, p)
      ensures At(v, cur[Place(v.spec, v.chunkCount, Data(n)) := blob], p) ==
        if p.Data? && p.i >= n + 1 then At(v, img, p) else FirstAt(v, img, write, p)
    {
      AtUpdated(v, cur, Data(n), blob, p);
    }
  }

  lemma FirstEnd(v: Vault, img: Image, cur: Image, write: bool)
    requires Opened(v, img) && Shaped(cur, v.Total()) && FirstDone(v, img, cur, write, v.chunkCount)
    ensures cur == FirstImage(v, img, write)
  {
    hide At, Shaped, FirstAt, FirstImage;
    forall p | InContainer(v.spec, v.chunkCount, p)
      ensures At(v, cur, p) == At(v, FirstImage(v, img, write), p)
    {
      FirstImageAt(v, img, write, p);
    }
    SameImage(v, cur, FirstImage(v, img, write));
  }

  /** The counters pass 1 keeps. */
  datatype Tally = Tally(clean: nat, repaired: nat, lost: seq<nat>, shardsBad: nat, shardsRepaired: nat, needFile: seq<nat>)

  function FirstTally(v: Vault, img: Image, n: nat): Tally
    requires v.spec.Valid() && Shaped(img, v.Total()) && n <= v.chunkCount
  {
    hide Shaped, FirstFate;
    var fates := FirstFates(v, img);
    Tally(Count(fates, Clean, n), Count(fates, Repaired, n), Indices(fates, LostEarly, n),
          BadSlots(v, img, n), RepairedSlots(v, img, n), Indices(fates, Pending, n))
  }

  lemma FirstTallyZero(v: Vault, img: Image)
    requires v.spec.Valid() && Shaped(img, v.Total())
    ensures FirstTally(v, img, 0) == Tally(0, 0, [], 0, 0, [])
  {}

  lemma FirstTallyStep(v: Vault, img: Image, n: nat)
    requires v.spec.Valid() && Shaped(img, v.Total()) && n < v.chunkCount
    ensures
      var t, fate, nbad := FirstTally(v, img, n), FirstFate(v, img, n), |Bad(v.cr, DataBlob(v, img, n))|;
      FirstTally(v, img, n + 1) == Tally(
        t.clean + (if fate == Clean then 1 else 0), t.repaired + (if fate == Repaired then 1 else 0),
        t.lost + (if fate == LostEarly then [n] else []), t.shardsBad + nbad,
        t.shardsRepaired + (if fate == Repaired then nbad else 0), t.needFile + (if fate == Pending then [n] else []))
  {
    hide Shaped, FirstFate, DataBlob, Bad;
  }

  /** Pass 1: every blob by itself. */
  method FirstPass(c: Container, w: Medium?) returns (t: Tally)
    requires Working(c, w)
    modifies w
    ensures Working(c, w)
    ensures t == old(FirstTally(c.v, c.Image(), c.v.chunkCount))
    ensures Became(c, old(FirstImage(c.v, c.Image(), w != null)))
  {
    hide ImageOf, Shaped, CodesOk, TagsOk, Place, InContainer, FirstDone, FirstTally, FirstFate, FirstBlob;
    hide Bad, DataBlob, Rest;
    ghost var v, img, write := c.v, c.Image(), w != null;
    ghost var cur := img;
    FirstStart(v, img, write);
    FirstTallyZero(v, img);
    t := Tally(0, 0, [], 0, 0, []);
    for idx := 0 to c.v.chunkCount
      invariant Working(c, w) && Shaped(cur, v.Total())
      invariant Became(c, cur) && FirstDone(v, img, cur, write, idx)
      invariant t == FirstTally(v, img, idx)
    {
      FirstStep(v, img, cur, write, idx);
      FirstTallyStep(v, img, idx);
      var fate, nbad := ScrubChunk(c, w, idx);
      cur := cur[Place(v.spec, v.chunkCount, Data(idx)) := FirstBlob(v, img, write, idx)];
      t := t.(shardsBad := t.shardsBad + nbad);
      match fate {
        case Clean => t := t.(clean := t.clean + 1);
        case Repaired => t := t.(repaired := t.repaired + 1, shardsRepaired := t.shardsRepaired + nbad);
        case LostEarly => t := t.(lost := t.lost + [idx]);
        case Pending => t := t.(needFile := t.needFile + [idx]);
        case _ =>
      }
    }
    FirstEnd(v, img, cur, write);
  }

  // ---------- pass 2 ----------

  /** The positions in group g, among the listed chunks. */
  function InGroup(list: seq<nat>, g: nat): seq<nat> {
    var n := |list|;
    if n == 0 then []
    else InGroup(list[..n - 1], g) + if list[n - 1] / FILE_GROUP_CHUNKS == g then [list[n - 1] % FILE_GROUP_CHUNKS] else []
  }

  /** The pending positions of group g below n, in order. */
  function PositionsTo(fates: seq<Fate>, g: nat, n: nat): seq<nat>
    requires g * FILE_GROUP_CHUNKS + n <= |fates|
  {
    if n == 0 then [] else PositionsTo(fates, g, n - 1) + if IsPending(fates, g, n - 1) then [n - 1] else []
  }

  lemma {:induction false} PositionsFacts(fates: seq<Fate>, g: nat, n: nat)
    requires g * FILE_GROUP_CHUNKS + n <= |fates|
    ensures
      var s := PositionsTo(fates, g, n);
      && (forall pos: nat :: pos in s <==> pos < n && IsPending(fates, g, pos))
      && (forall a, b :: 0 <= a < b < |s| ==> s[a] < s[b])
    decreases n
  {
    if n == 0 {
    } else {
      PositionsFacts(fates, g, n - 1);
      var s := PositionsTo(fates, g, n - 1);
      assert forall a :: 0 <= a < |s| ==> s[a] in s;
      if IsPending(fates, g, n - 1) {
        assert PositionsTo(fates, g, n) == s + [n - 1];
      } else {
        assert PositionsTo(fates, g, n) == s;
      }
    }
  }

  lemma InGroupStep(fates: seq<Fate>, g: nat, n: nat)
    requires n < |fates|
    ensures InGroup(Indices(fates, Pending, n + 1), g) ==
      InGroup(Indices(fates, Pending, n), g)
      + if fates[n] == Pending && n / FILE_GROUP_CHUNKS == g then [n % FILE_GROUP_CHUNKS] else []
  {
    var a, b := Indices(fates, Pending, n), Indices(fates, Pending, n + 1);
    if fates[n] == Pending {
      assert b == a + [n] && b[..|b| - 1] == a;
    } else {
      assert b == a;
    }
  }

  /** Of the chunks before group g, and from it on, the group collects its own. */
  lemma {:induction false} CollectedPositions(fates: seq<Fate>, g: nat, k: nat, n: nat)
    requires g * FILE_GROUP_CHUNKS + k <= n <= |fates| && k <= FILE_GROUP_CHUNKS
    requires n == g * FILE_GROUP_CHUNKS + k || k == FILE_GROUP_CHUNKS
    ensures InGroup(Indices(fates, Pending, n), g) == PositionsTo(fates, g, k)
    decreases n
  {
    hide InGroup, Indices;
    var lo := g * FILE_GROUP_CHUNKS;
    if n == lo {
      CollectedNone(fates, g, n);
    } else {
      InGroupStep(fates, g, n - 1);
      if n == lo + k {
        assert (n - 1) / FILE_GROUP_CHUNKS == g && (n - 1) % FILE_GROUP_CHUNKS == k - 1;
        assert lo + (k - 1) == n - 1;
        CollectedPositions(fates, g, k - 1, n - 1);
      } else {
        assert (n - 1) / FILE_GROUP_CHUNKS != g;
        CollectedPositions(fates, g, k, n - 1);
      }
    }
  }

  lemma NothingListed(fates: seq<Fate>, g: nat)
    ensures InGroup(Indices(fates, Pending, 0), g) == []
  {}

  lemma BeforeGroup(n: nat, g: nat)
    requires n < g * FILE_GROUP_CHUNKS
    ensures n / FILE_GROUP_CHUNKS != g
  {}

  lemma {:induction false} CollectedNone(fates: seq<Fate>, g: nat, n: nat)
    requires n <= g * FILE_GROUP_CHUNKS && n <= |fates|
    ensures InGroup(Indices(fates, Pending, n), g) == []
    decreases n
  {
    hide InGroup, Indices;
    if n == 0 {
      NothingListed(fates, g);
    } else {
      InGroupStep(fates, g, n - 1);
      BeforeGroup(n - 1, g);
      CollectedNone(fates, g, n - 1);
    }
  }

  method Collect(needFile: seq<nat>, g: nat) returns (positions: seq<nat>)
    ensures positions == InGroup(needFile, g)
  {
    positions := [];
    for i := 0 to |needFile|
      invariant positions == InGroup(needFile[..i], g)
    {
      assert needFile[..i + 1][..i] == needFile[..i];
      if needFile[i] / FILE_GROUP_CHUNKS == g {
        positions := positions + [needFile[i] % FILE_GROUP_CHUNKS];
      }
    }
    assert needFile[..|needFile|] == needFile;
  }

  /** The first n chunks are through pass 2; the rest is as pass 1 left it. */
  ghost predicate SecondDone(v: Vault, img: Image, fates: seq<Fate>, cur: Image, write: bool, n: nat)
    requires Opened(v, img) && Shaped(cur, v.Total()) && |fates| == v.chunkCount
  {
    forall p | InContainer(v.spec, v.chunkCount, p) ::
      At(v, cur, p) == if p.Data? && p.i >= n then At(v, img, p) else SecondAt(v, img, fates, write, p)
  }

  /** The counters of pass 2 after n chunks. */
  ghost predicate SecondTally(v: Vault, img: Image, fates: seq<Fate>, rebuilt: nat, lost: seq<nat>, n: nat)
    requires v.spec.Valid() && Shaped(img, v.Total()) && |fates| == v.chunkCount
  {
    && n <= v.chunkCount
    && rebuilt == Count(SecondFates(v, img, fates), Rebuilt, n)
    && lost == Indices(SecondFates(v, img, fates), LostLate, n)
  }

  ghost predicate FromFirst(fates: seq<Fate>) {
    forall i :: 0 <= i < |fates| ==> fates[i] in {Clean, Repaired, LostEarly, Pending}
  }

  lemma SecondStart(v: Vault, img: Image, fates: seq<Fate>, write: bool)
    requires Opened(v, img) && |fates| == v.chunkCount
    ensures SecondDone(v, img, fates, img, write, 0) && SecondTally(v, img, fates, 0, [], 0)
  {
    hide At, InContainer, SecondBlob, Shaped;
  }

  /** Chunks that are not pending pass through unchanged. */
  lemma {:induction false} SecondGap(v: Vault, img: Image, fates: seq<Fate>, cur: Image, write: bool,
                                     rebuilt: nat, lost: seq<nat>, n: nat, m: nat)
    requires Opened(v, img) && Shaped(cur, v.Total()) && |fates| == v.chunkCount && FromFirst(fates)
    requires SecondDone(v, img, fates, cur, write, n) && SecondTally(v, img, fates, rebuilt, lost, n)
    requires n <= m <= v.chunkCount && forall i :: n <= i < m ==> fates[i] != Pending
    ensures SecondDone(v, img, fates, cur, write, m) && SecondTally(v, img, fates, rebuilt, lost, m)
    decreases m - n
  {
    if n == m {
    } else {
      SecondPass1(v, img, fates, cur, write, rebuilt, lost, n);
      SecondGap(v, img, fates, cur, write, rebuilt, lost, n + 1, m);
    }
  }

  lemma SecondPass1(v: Vault, img: Image, fates: seq<Fate>, cur: Image, write: bool, rebuilt: nat, lost: seq<nat>, n: nat)
    requires Opened(v, img) && Shaped(cur, v.Total()) && |fates| == v.chunkCount && FromFirst(fates)
    requires SecondDone(v, img, fates, cur, write, n) && SecondTally(v, img, fates, rebuilt, lost, n)
    requires n < v.chunkCount && fates[n] != Pending
    ensures SecondDone(v, img, fates, cur, write, n + 1) && SecondTally(v, img, fates, rebuilt, lost, n + 1)
  {
    hide At, InContainer, Shaped, DataBlob, SecondPayloads, CodesOk, TagsOk, DecodeChunk, FreshSlots, Whole;
    DataAt(v, img, n);
    forall p | InContainer(v.spec, v.chunkCount, p)
      ensures At(v, cur, p) == if p.Data? && p.i >= n + 1 then At(v, img, p) else SecondAt(v, img, fates, write, p)
    {
      if p.Data? && p.i == n {
        assert p == Data(n);
      }
    }
  }

  /** A pending chunk's turn. */
  lemma SecondStep(v: Vault, img: Image, fates: seq<Fate>, cur: Image, write: bool, rebuilt: nat, lost: seq<nat>, n: nat)
    requires Opened(v, img) && Shaped(cur, v.Total()) && |fates| == v.chunkCount
    requires SecondDone(v, img, fates, cur, write, n) && SecondTally(v, img, fates, rebuilt, lost, n)
    requires n < v.chunkCount && fates[n] == Pending
    ensures InContainer(v.spec, v.chunkCount, Data(n)) && Place(v.spec, v.chunkCount, Data(n)) < |cur|
    ensures
      var next := cur[Place(v.spec, v.chunkCount, Data(n)) := SecondBlob(v, img, fates, write, n)];
      && Shaped(next, v.Total()) && SecondDone(v, img, fates, next, write, n + 1)
      && (SecondFate(v, img, fates, n) == LostLate || !write ==> next == cur)
    ensures SecondFate(v, img, fates, n) == Rebuilt ==> SecondTally(v, img, fates, rebuilt + 1, lost, n + 1)
    ensures SecondFate(v, img, fates, n) == LostLate ==> SecondTally(v, img, fates, rebuilt, lost + [n], n + 1)
  {
    hide InContainer, Shaped, DataBlob, SecondPayloads, CodesOk, TagsOk, DecodeChunk, FreshSlots, Place, Whole;
    DataAt(v, img, n);
    DataAt(v, cur, n);
    var blob := SecondBlob(v, img, fates, write, n);
    hide At;
    AtUpdated(v, cur, Data(n), blob, Data(n));
    forall p | InContainer(v.spec, v.chunkCount, p)
      ensures At(v, cur[Place(v.spec, v.chunkCount, Data(n)) := blob], p) ==
        if p.Data? && p.i >= n + 1 then At(v, img, p) else SecondAt(v, img, fates, write, p)
    {
      AtUpdated(v, cur, Data(n), blob, p);
    }
  }

  lemma SecondEnd(v: Vault, img: Image, fates: seq<Fate>, cur: Image, write: bool)
    requires Opened(v, img) && Shaped(cur, v.Total()) && |fates| == v.chunkCount && SecondDone(v, img, fates, cur, write, v.chunkCount)
    ensures cur == SecondImage(v, img, fates, write)
  {
    hide At, Shaped, SecondAt, SecondImage;
    forall p | InContainer(v.spec, v.chunkCount, p)
      ensures At(v, cur, p) == At(v, SecondImage(v, img, fates, write), p)
    {
      SecondImageAt(v, img, fates, write, p);
    }
    SameImage(v, cur, SecondImage(v, img, fates, write));
  }

  /** Until its turn comes, a group looks to pass 2 as pass 1 left it. */
  lemma GroupUntouched(v: Vault, img: Image, fates: seq<Fate>, cur: Image, write: bool, g: nat)
    requires Opened(v, img) && Shaped(cur, v.Total()) && |fates| == v.chunkCount && g < v.Groups()
    requires SecondDone(v, img, fates, cur, write, g * FILE_GROUP_CHUNKS)
    ensures GroupBlobs(v, cur, g) == GroupBlobs(v, img, g)
  {
    hide At, Shaped, SecondBlob, BlobOf, SecondDone, InContainer, DataBlob, CodesOk, TagsOk;
    forall n | 0 <= n < v.K(g) + v.M(g)
      ensures BlobOf(v, cur, g, n) == BlobOf(v, img, g, n)
    {
      OneUntouched(v, img, fates, cur, write, g, n);
    }
  }

  lemma OneUntouched(v: Vault, img: Image, fates: seq<Fate>, cur: Image, write: bool, g: nat, n: nat)
    requires Opened(v, img) && Shaped(cur, v.Total()) && |fates| == v.chunkCount && g < v.Groups() && n < v.K(g) + v.M(g)
    requires SecondDone(v, img, fates, cur, write, g * FILE_GROUP_CHUNKS)
    ensures BlobOf(v, cur, g, n) == BlobOf(v, img, g, n)
  {
    hide Shaped, SecondBlob, CodesOk, TagsOk, Place, BlobOf, At;
    GroupSizes(v, g);
    var p := if n < v.K(g) then Data(g * FILE_GROUP_CHUNKS + n) else Parity(g, n - v.K(g));
    assert InContainer(v.spec, v.chunkCount, p);
    BlobIsAt(v, cur, g, n, p);
    BlobIsAt(v, img, g, n, p);
  }

  lemma BlobIsAt(v: Vault, img: Image, g: nat, n: nat, p: Blob)
    requires v.spec.Valid() && Shaped(img, v.Total()) && g < v.Groups() && n < v.K(g) + v.M(g)
    requires p == if n < v.K(g) then Data(g * FILE_GROUP_CHUNKS + n) else Parity(g, n - v.K(g))
    ensures InContainer(v.spec, v.chunkCount, p) && BlobOf(v, img, g, n) == At(v, img, p)
  {
    GroupSizes(v, g);
    GroupFacts(v.chunkCount, g);
  }

  function LookUpPosition(m: Option<map<int, seq<Bytes>>>, pos: nat): Option<seq<Bytes>> {
    if m.Some? && pos in m.value then Some(m.value[pos]) else None
  }

  /** The group's rebuild, looked up for one of its pending chunks. */
  lemma SecondLookup(v: Vault, img: Image, fates: seq<Fate>, g: nat, pos: nat)
    requires v.spec.Valid() && Shaped(img, v.Total()) && |fates| == v.chunkCount && g < v.Groups() && pos < v.K(g)
    requires g * FILE_GROUP_CHUNKS + pos < v.chunkCount && fates[g * FILE_GROUP_CHUNKS + pos] == Pending
    ensures SecondGroup(v, img, fates, g).Some? ==> pos in SecondGroup(v, img, fates, g).value
    ensures SecondPayloads(v, img, fates, g * FILE_GROUP_CHUNKS + pos) == LookUpPosition(SecondGroup(v, img, fates, g), pos)
  {
    hide SecondGroup, Shaped;
    GroupSizes(v, g);
    var i := g * FILE_GROUP_CHUNKS + pos;
    assert i / FILE_GROUP_CHUNKS == g && i % FILE_GROUP_CHUNKS == pos;
    PendingPosition(v, fates, i);
  }

  lemma PositionSet(v: Vault, fates: seq<Fate>, g: nat, positions: seq<nat>)
    requires v.spec.Valid() && |fates| == v.chunkCount && g < v.Groups()
    requires g * FILE_GROUP_CHUNKS + v.K(g) <= |fates| && positions == PositionsTo(fates, g, v.K(g))
    ensures SetOf(positions) == PendingIn(fates, g, v.K(g))
  {
    PositionsFacts(fates, g, v.K(g));
    forall pos: int
      ensures pos in SetOf(positions) <==> pos in PendingIn(fates, g, v.K(g))
    {
      if 0 <= pos {
        var n: nat := pos;
        assert n in positions <==> n < v.K(g) && IsPending(fates, g, n);
      }
    }
  }

  /** No chunk between two consecutive pending positions is pending. */
  lemma BetweenPositions(fates: seq<Fate>, g: nat, k: nat, p: nat)
    requires g * FILE_GROUP_CHUNKS + k <= |fates| && p <= |PositionsTo(fates, g, k)|
    ensures
      var s := PositionsTo(fates, g, k);
      var lo, hi := if p == 0 then 0 else s[p - 1] + 1, if p == |s| then k else s[p];
      && lo <= hi <= k
      && (p < |s| ==> hi < k && fates[g * FILE_GROUP_CHUNKS + hi] == Pending)
      && forall i :: g * FILE_GROUP_CHUNKS + lo <= i < g * FILE_GROUP_CHUNKS + hi ==> fates[i] != Pending
  {
    PositionsFacts(fates, g, k);
    var s, base := PositionsTo(fates, g, k), g * FILE_GROUP_CHUNKS;
    var lo, hi := if p == 0 then 0 else s[p - 1] + 1, if p == |s| then k else s[p];
    if p > 0 { assert s[p - 1] in s; }
    if p < |s| { assert s[p] in s && IsPending(fates, g, s[p]); }
    forall i | base + lo <= i < base + hi
      ensures fates[i] != Pending
    {
      NotBetween(s, i - base, p);
      assert i - base in s <==> IsPending(fates, g, i - base);
    }
  }

  lemma NotBetween(s: seq<nat>, x: nat, p: nat)
    requires p <= |s| && (forall a, b :: 0 <= a < b < |s| ==> s[a] < s[b])
    requires (p > 0 ==> s[p - 1] < x) && (p < |s| ==> x < s[p])
    ensures x !in s
  {
    forall a | 0 <= a < |s|
      ensures s[a] != x
    {
      if a < p && a < p - 1 { assert s[a] < s[p - 1]; }
      if a > p { assert s[p] < s[a]; }
    }
  }

  /** Everything pass 2 has established when its first n chunks are through. */
  twostate predicate SecondState(c: Container, w: Medium?, img: Image, fates: seq<Fate>, rebuilt: nat, lost: seq<nat>, n: nat)
    reads c.src
  {
    && Working(c, w) && Opened(c.v, img) && |fates| == c.v.chunkCount
    && SecondDone(c.v, img, fates, c.Image(), w != null, n)
    && SecondTally(c.v, img, fates, rebuilt, lost, n)
    && old(c.v.Total() * BLOB_DISK_SIZE <= |c.src.bytes|) && |c.src.bytes| == old(|c.src.bytes|)
    && Rest(c.src.bytes, c.v.Total()) == old(Rest(c.src.bytes, c.v.Total()))
  }

  /** Pass 2 for one pending chunk whose group's rebuild is known. */
  method RestoreChunk(c: Container, w: Medium?, ghost img: Image, ghost fates: seq<Fate>, g: nat, pos: nat,
                      m: Option<map<int, seq<Bytes>>>, rebuilt0: nat, lost0: seq<nat>)
    returns (rebuilt: nat, lost: seq<nat>)
    requires Working(c, w) && Opened(c.v, img) && |fates| == c.v.chunkCount && g < c.v.Groups() && pos < c.v.K(g)
    requires g * FILE_GROUP_CHUNKS + pos < c.v.chunkCount && fates[g * FILE_GROUP_CHUNKS + pos] == Pending
    requires m == SecondGroup(c.v, img, fates, g)
    requires SecondDone(c.v, img, fates, c.Image(), w != null, g * FILE_GROUP_CHUNKS + pos)
    requires SecondTally(c.v, img, fates, rebuilt0, lost0, g * FILE_GROUP_CHUNKS + pos)
    modifies w
    ensures SecondState(c, w, img, fates, rebuilt, lost, g * FILE_GROUP_CHUNKS + pos + 1)
  {
    hide ImageOf, Shaped, CodesOk, TagsOk, Place, InContainer, SecondDone, SecondTally, DataBlob, Rest;
    hide SecondGroup, Repair.DecodeChunk, FreshSlots;
    hide SecondPayloads;
    var v := c.v;
    var idx := g * FILE_GROUP_CHUNKS + pos;
    ghost var cur := c.Image();
    rebuilt, lost := rebuilt0, lost0;
    SecondLookup(v, img, fates, g, pos);
    SecondStep(v, img, fates, cur, w != null, rebuilt0, lost0, idx);
    if m.None? {
      lost := lost + [idx];
    } else {
      var payloads := m.value[pos];
      var d := c.DecodeChunk(idx, payloads);
      if d.Rejected? {
        lost := lost + [idx];
      } else {
        rebuilt := rebuilt + 1;
        if w != null {
          DataSlotOffset(v, idx, 0);
          SecondUniform(v, img, fates, idx);
          WriteBlob(c, w, Data(idx), payloads, v.spec.DataBlobOffset(idx));
        }
      }
    }
  }

  /** Pass 2 for one group: rebuild its pending blobs at once, then each chunk's verdict. */
  method RestoreGroup(c: Container, w: Medium?, ghost img: Image, ghost fates: seq<Fate>, g: nat, positions: seq<nat>,
                      rebuilt0: nat, lost0: seq<nat>)
    returns (rebuilt: nat, lost: seq<nat>)
    requires Working(c, w) && Opened(c.v, img) && |fates| == c.v.chunkCount && FromFirst(fates) && g < c.v.Groups()
    requires g * FILE_GROUP_CHUNKS + c.v.K(g) <= |fates| && positions == PositionsTo(fates, g, c.v.K(g))
    requires SecondDone(c.v, img, fates, c.Image(), w != null, g * FILE_GROUP_CHUNKS)
    requires SecondTally(c.v, img, fates, rebuilt0, lost0, g * FILE_GROUP_CHUNKS)
    modifies w
    ensures SecondState(c, w, img, fates, rebuilt, lost, g * FILE_GROUP_CHUNKS + c.v.K(g))
  {
    hide ImageOf, Shaped, CodesOk, TagsOk, SecondDone, SecondTally, Rest, GroupRebuild, PositionsTo;
    hide GroupBlobs, FromFirst;
    var k, base := c.v.K(g), g * FILE_GROUP_CHUNKS;
    WorkingParts(c, w);
    var m := c.RebuildBlobs(g, positions);
    PositionSet(c.v, fates, g, positions);
    GroupUntouched(c.v, img, fates, c.Image(), w != null, g);
    SameRebuild(c.v, img, c.Image(), g, PendingIn(fates, g, k));
    rebuilt, lost := rebuilt0, lost0;
    ghost var lo := 0;
    for p := 0 to |positions|
      invariant lo == (if p == 0 then 0 else positions[p - 1] + 1) && lo <= k
      invariant SecondState(c, w, img, fates, rebuilt, lost, base + lo)
    {
      BetweenPositions(fates, g, k, p);
      var pos := positions[p];
      SecondGap(c.v, img, fates, c.Image(), w != null, rebuilt, lost, base + lo, base + pos);
      rebuilt, lost := RestoreChunk(c, w, img, fates, g, pos, m, rebuilt, lost);
      lo := pos + 1;
    }
    BetweenPositions(fates, g, k, |positions|);
    SecondGap(c.v, img, fates, c.Image(), w != null, rebuilt, lost, base + lo, base + k);
  }

  lemma SameRebuild(v: Vault, a: Image, b: Image, g: nat, missing: set<int>)
    requires v.spec.Valid() && Shaped(a, v.Total()) && Shaped(b, v.Total()) && g < v.Groups()
    requires GroupBlobs(v, a, g) == GroupBlobs(v, b, g)
    ensures GroupRebuild(v, a, g, missing) == GroupRebuild(v, b, g, missing)
  {
    hide GroupBlobs, Shaped, RebuildMissing;
  }

  lemma GroupBase(v: Vault, g: nat)
    requires v.spec.Valid() && g < v.Groups()
    ensures 1 <= v.K(g) && g * FILE_GROUP_CHUNKS + v.K(g) == Min((g + 1) * FILE_GROUP_CHUNKS, v.chunkCount)
    ensures Min(g * FILE_GROUP_CHUNKS, v.chunkCount) == g * FILE_GROUP_CHUNKS
    ensures v.K(g) < FILE_GROUP_CHUNKS ==> g * FILE_GROUP_CHUNKS + v.K(g) == v.chunkCount
    ensures v.K(g) <= FILE_GROUP_CHUNKS && g * FILE_GROUP_CHUNKS + v.K(g) <= v.chunkCount
  {
    GroupFacts(v.chunkCount, g);
  }

  lemma GroupsCover(v: Vault)
    ensures Min(v.Groups() * FILE_GROUP_CHUNKS, v.chunkCount) == v.chunkCount
  {}

  /** Pass 2: group by group in ascending order, those with pending chunks. */
  method SecondPass(c: Container, w: Medium?, ghost fates: seq<Fate>, needFile: seq<nat>) returns (rebuilt: nat, lost: seq<nat>)
    requires Working(c, w) && |fates| == c.v.chunkCount && FromFirst(fates)
    requires needFile == Indices(fates, Pending, |fates|)
    modifies w
    ensures Working(c, w)
    ensures old(Opened(c.v, c.Image())) && old(SecondTally(c.v, c.Image(), fates, rebuilt, lost, c.v.chunkCount))
    ensures Became(c, old(SecondImage(c.v, c.Image(), fates, w != null)))
  {
    hide ImageOf, Shaped, CodesOk, TagsOk, SecondDone, SecondTally, Rest, PositionsTo, FromFirst, Indices;
    hide InGroup, SecondImage;
    ghost var v, img := c.v, c.Image();
    WorkingParts(c, w);
    rebuilt, lost := 0, [];
    SecondStart(v, img, fates, w != null);
    for g := 0 to c.v.Groups()
      invariant SecondState(c, w, img, fates, rebuilt, lost, Min(g * FILE_GROUP_CHUNKS, c.v.chunkCount))
    {
      GroupBase(c.v, g);
      var positions := Collect(needFile, g);
      CollectedPositions(fates, g, c.v.K(g), |fates|);
      if |positions| > 0 {
        rebuilt, lost := RestoreGroup(c, w, img, fates, g, positions, rebuilt, lost);
      } else {
        BetweenPositions(fates, g, c.v.K(g), 0);
        SecondGap(v, img, fates, c.Image(), w != null, rebuilt, lost, g * FILE_GROUP_CHUNKS, g * FILE_GROUP_CHUNKS + c.v.K(g));
      }
    }
    GroupsCover(v);
    SecondEnd(v, img, fates, c.Image(), w != null);
  }

  // ---------- pass 3 ----------

  /** One window of a blob with its first n slots checked against new columns. */
  function CheckedRow(cr: Crypto, blob: seq<Slot>, win: nat, out: Bytes, n: nat): (r: seq<Slot>)
    requires |blob| == SHARDS_PER_BLOB && win < WINDOWS && |out| == WINDOW_BYTES && n <= WINDOW
    ensures |r| == |blob|
  {
    seq(|blob|, j requires 0 <= j < |blob| =>
      if win * WINDOW <= j < win * WINDOW + n && WrongSlot(cr, blob[j], ColumnOf(out, j - win * WINDOW))
      then Fresh(cr, ColumnOf(out, j - win * WINDOW)) else blob[j])
  }

  lemma RowStart(cr: Crypto, blob: seq<Slot>, win: nat, out: Bytes)
    requires |blob| == SHARDS_PER_BLOB && win < WINDOWS && |out| == WINDOW_BYTES
    ensures CheckedRow(cr, blob, win, out, 0) == blob
  {}

  lemma RowStep(cr: Crypto, blob: seq<Slot>, win: nat, out: Bytes, n: nat)
    requires |blob| == SHARDS_PER_BLOB && win < WINDOWS && |out| == WINDOW_BYTES && n < WINDOW
    ensures win * WINDOW + n < SHARDS_PER_BLOB
    ensures
      var j := win * WINDOW + n;
      CheckedRow(cr, blob, win, out, n + 1) ==
        if WrongSlot(cr, blob[j], ColumnOf(out, n)) then CheckedRow(cr, blob, win, out, n)[j := Fresh(cr, ColumnOf(out, n))]
        else CheckedRow(cr, blob, win, out, n)
  {
    hide WrongSlot, ColumnOf;
  }

  /** Checking one more window of a blob. */
  lemma RowJoins(cr: Crypto, blob: seq<Slot>, outs: seq<Bytes>, win: nat)
    requires |blob| == SHARDS_PER_BLOB && win < |outs| <= WINDOWS && Uniform(outs, WINDOW_BYTES)
    ensures CheckedRow(cr, CheckedBlob(cr, blob, outs[..win]), win, outs[win], WINDOW) == CheckedBlob(cr, blob, outs[..win + 1])
    ensures RowBad(cr, CheckedBlob(cr, blob, outs[..win]), win, outs[win], WINDOW) == RowBad(cr, blob, win, outs[win], WINDOW)
  {
    hide WrongSlot, ColumnOf;
    forall j | win * WINDOW <= j < win * WINDOW + WINDOW
      ensures CheckedBlob(cr, blob, outs[..win])[j] == blob[j]
    {
    }
    SameRow(cr, CheckedBlob(cr, blob, outs[..win]), blob, win, outs[win], WINDOW);
  }

  lemma {:induction false} SameRow(cr: Crypto, a: seq<Slot>, b: seq<Slot>, win: nat, out: Bytes, n: nat)
    requires |a| == |b| == SHARDS_PER_BLOB && win < WINDOWS && |out| == WINDOW_BYTES && n <= WINDOW
    requires forall j :: win * WINDOW <= j < win * WINDOW + WINDOW ==> a[j] == b[j]
    ensures RowBad(cr, a, win, out, n) == RowBad(cr, b, win, out, n)
    decreases n
  {
    hide WrongSlot, ColumnOf;
    if n == 0 {
    } else {
      SameRow(cr, a, b, win, out, n - 1);
    }
  }

  lemma ParityIn(v: Vault, g: nat, q: nat)
    requires v.spec.Valid() && g < v.Groups() && q < v.M(g)
    ensures InContainer(v.spec, v.chunkCount, Parity(g, q)) && Place(v.spec, v.chunkCount, Parity(g, q)) < v.Total()
    ensures GroupNo(v, g, v.K(g) + q) == Place(v.spec, v.chunkCount, Parity(g, q))
  {
    GroupFacts(v.chunkCount, g);
    PlaceIsValid(v.spec, v.chunkCount, Parity(g, q));
  }

  lemma ParityAtPlace(v: Vault, img: Image, g: nat, q: nat)
    requires v.spec.Valid() && Shaped(img, v.Total()) && g < v.Groups() && q < v.M(g) && InContainer(v.spec, v.chunkCount, Parity(g, q))
    ensures Place(v.spec, v.chunkCount, Parity(g, q)) < |img|
    ensures At(v, img, Parity(g, q)) == img[Place(v.spec, v.chunkCount, Parity(g, q))]
  {
    PlaceIsValid(v.spec, v.chunkCount, Parity(g, q));
  }

  /** The byte offset of a parity slot. */
  lemma ParitySlotOffset(v: Vault, g: nat, q: nat, win: nat, n: nat)
    requires v.spec.Valid() && g < v.Groups() && q < v.M(g) && win < WINDOWS && n < WINDOW
    ensures InContainer(v.spec, v.chunkCount, Parity(g, q))
    ensures v.spec.ParityBlobOffset(g, v.K(g), q) + win * WINDOW * SLOT_SIZE + n * SLOT_SIZE ==
            SlotOffset(Place(v.spec, v.chunkCount, Parity(g, q)), win * WINDOW + n)
    ensures v.spec.ParityBlobOffset(g, v.K(g), q) + win * WINDOW * SLOT_SIZE ==
            SlotOffset(Place(v.spec, v.chunkCount, Parity(g, q)), win * WINDOW)
  {
    GroupFacts(v.chunkCount, g);
    PlaceIsValid(v.spec, v.chunkCount, Parity(g, q));
    assert Offset(v.spec, v.chunkCount, Parity(g, q)) == v.spec.ParityBlobOffset(g, v.K(g), q);
  }

  /** The innermost loop of pass 3: one parity blob's slots of one window. */
  method CheckRow(c: Container, rw: Medium?, g: nat, q: nat, win: nat, out: Bytes) returns (bad: nat)
    requires Working(c, rw) && g < c.v.Groups() && q < c.v.M(g) && win < WINDOWS && |out| == WINDOW_BYTES
    modifies rw
    ensures Working(c, rw)
    ensures InContainer(c.v.spec, c.v.chunkCount, Parity(g, q)) && Place(c.v.spec, c.v.chunkCount, Parity(g, q)) < c.v.Total()
    ensures bad == old(RowBad(c.v.cr, At(c.v, c.Image(), Parity(g, q)), win, out, WINDOW))
    ensures rw != null ==>
      Became(c, old(c.Image())[Place(c.v.spec, c.v.chunkCount, Parity(g, q)) :=
                    old(CheckedRow(c.v.cr, At(c.v, c.Image(), Parity(g, q)), win, out, WINDOW))])
    ensures rw == null ==> Became(c, old(c.Image()))
  {
    hide ImageOf, Shaped, CodesOk, TagsOk, Place, InContainer, SlotOffset, At, CheckedRow, Rest, ColumnOf, Good;
    var v := c.v;
    ParityIn(v, g, q);
    ghost var b := Parity(g, q);
    ghost var img, n, f := c.Image(), Place(v.spec, v.chunkCount, b), c.src.bytes;
    ghost var blob := At(v, img, b);
    ParityAtPlace(v, img, g, q);
    ParitySlotOffset(v, g, q, win, 0);
    WindowRange(v, f, n, win);
    RowStart(v.cr, blob, win, out);
    ReplaceTwice(img, n, blob, blob);
    var off := v.spec.ParityBlobOffset(g, v.K(g), q) + win * WINDOW * SLOT_SIZE;
    var raw := c.src.ReadAt(off, WINDOW_SLOTS);
    bad := 0;
    for col := 0 to WINDOW
      invariant Working(c, rw) && bad == RowBad(v.cr, blob, win, out, col)
      invariant Became(c, if rw != null then img[n := CheckedRow(v.cr, blob, win, out, col)] else img)
    {
      WindowBuffer(v, f, n, win, raw, col);
      RowStep(v.cr, blob, win, out, col);
      var lo := col * SLOT_SIZE;
      var newCol := ColumnOf(out, col);
      if v.cr.tag(raw[lo..lo + SHARD_SIZE]) != raw[lo + SHARD_SIZE..lo + SLOT_SIZE] || raw[lo..lo + SHARD_SIZE] != newCol {
        assert WrongSlot(v.cr, blob[win * WINDOW + col], newCol) by { RawTest(v.cr, raw, col, newCol); }
        bad := bad + 1;
        if rw != null {
          ghost var part := CheckedRow(v.cr, blob, win, out, col);
          ParitySlotOffset(v, g, q, win, col);
          ParityAtPlace(v, c.Image(), g, q);
          WriteSlot(c, rw, b, win * WINDOW + col, newCol, off + col * SLOT_SIZE);
          ReplaceTwice(img, n, part, CheckedRow(v.cr, blob, win, out, col + 1));
        }
      } else {
        assert !WrongSlot(v.cr, blob[win * WINDOW + col], newCol) by { RawTest(v.cr, raw, col, newCol); }
      }
    }
  }

  lemma RawTest(cr: Crypto, raw: Bytes, col: nat, newCol: Bytes)
    requires |raw| == WINDOW_SLOTS && col < WINDOW
    ensures
      var lo := col * SLOT_SIZE;
      WrongSlot(cr, RawSlot(raw, col), newCol) <==>
        cr.tag(raw[lo..lo + SHARD_SIZE]) != raw[lo + SHARD_SIZE..lo + SLOT_SIZE] || raw[lo..lo + SHARD_SIZE] != newCol
  {}

  /** A blob when pass 3 has finished the groups before g, win windows of g, and
      the first q parity blobs of the next window. */
  function PartialAt(v: Vault, img: Image, fates: seq<Fate>, write: bool, g: nat, win: nat, q: nat, p: Blob): seq<Slot>
    requires Opened(v, img) && |fates| == v.chunkCount && InContainer(v.spec, v.chunkCount, p)
    requires win <= WINDOWS && (q == 0 || win < WINDOWS)
  {
    if p.Data? || !write then At(v, img, p)
    else if p.g < g then ThirdAt(v, img, fates, write, p)
    else if p.g == g then
      CheckedBlob(v.cr, At(v, img, p), NewWindows(v, img, g, p.q, if p.q < q then win + 1 else win))
    else At(v, img, p)
  }

  ghost predicate ThirdDone(v: Vault, img: Image, fates: seq<Fate>, cur: Image, write: bool, g: nat, win: nat, q: nat)
    requires Opened(v, img) && Shaped(cur, v.Total()) && |fates| == v.chunkCount
    requires win <= WINDOWS && (q == 0 || win < WINDOWS)
  {
    forall p | InContainer(v.spec, v.chunkCount, p) :: At(v, cur, p) == PartialAt(v, img, fates, write, g, win, q, p)
  }

  lemma NoWindows(v: Vault, img: Image, g: nat, q: nat)
    requires v.spec.Valid() && Shaped(img, v.Total()) && FileCodesOk(v.cr) && g < v.Groups() && q < v.M(g)
    requires InContainer(v.spec, v.chunkCount, Parity(g, q))
    ensures CheckedBlob(v.cr, At(v, img, Parity(g, q)), NewWindows(v, img, g, q, 0)) == At(v, img, Parity(g, q))
  {
    hide At, Shaped, FileCodesOk, CheckedBlob, InContainer;
    CheckedNothing(v.cr, At(v, img, Parity(g, q)), NewWindows(v, img, g, q, 0));
  }

  lemma ThirdStart(v: Vault, img: Image, fates: seq<Fate>, write: bool)
    requires Opened(v, img) && |fates| == v.chunkCount
    ensures ThirdDone(v, img, fates, img, write, 0, 0, 0)
  {
    hide At, Shaped, TagsOk, CheckedBlob, NewWindows, InContainer, FileCodesOk;
    forall p | InContainer(v.spec, v.chunkCount, p)
      ensures At(v, img, p) == PartialAt(v, img, fates, write, 0, 0, 0, p)
    {
      if p.Parity? {
        ParityIndex(v, p);
        NoWindows(v, img, p.g, p.q);
      }
    }
  }

  /** Data blobs are not touched by pass 3. */
  lemma ThirdData(v: Vault, img: Image, fates: seq<Fate>, cur: Image, write: bool, g: nat, win: nat, q: nat, h: nat)
    requires Opened(v, img) && Shaped(cur, v.Total()) && |fates| == v.chunkCount && win <= WINDOWS && (q == 0 || win < WINDOWS)
    requires ThirdDone(v, img, fates, cur, write, g, win, q) && h < v.Groups()
    ensures forall n :: 0 <= n < v.K(h) ==> BlobOf(v, cur, h, n) == BlobOf(v, img, h, n)
  {
    hide At, Shaped, CodesOk, TagsOk, BlobOf;
    forall n | 0 <= n < v.K(h)
      ensures BlobOf(v, cur, h, n) == BlobOf(v, img, h, n)
    {
      GroupSizes(v, h);
      var p := Data(h * FILE_GROUP_CHUNKS + n);
      BlobIsAt(v, cur, h, n, p);
      BlobIsAt(v, img, h, n, p);
      assert At(v, cur, p) == PartialAt(v, img, fates, write, g, win, q, p);
    }
  }

  lemma SameWindows(v: Vault, a: Image, b: Image, g: nat, win: nat)
    requires v.spec.Valid() && Shaped(a, v.Total()) && Shaped(b, v.Total()) && g < v.Groups() && win < WINDOWS
    requires forall n :: 0 <= n < v.K(g) ==> BlobOf(v, a, g, n) == BlobOf(v, b, g, n)
    ensures DataReady(v, a, g, win) == DataReady(v, b, g, win)
    ensures DataWindows(v, a, g, win) == DataWindows(v, b, g, win)
  {
    hide BlobOf, Shaped, WindowGood, WindowPayload;
  }

  /** One parity blob's row was checked. */
  lemma ThirdRow(v: Vault, img: Image, fates: seq<Fate>, cur: Image, write: bool, g: nat, win: nat, q: nat)
    requires Opened(v, img) && Shaped(cur, v.Total()) && |fates| == v.chunkCount && win < WINDOWS && g < v.Groups() && q < v.M(g)
    requires ThirdDone(v, img, fates, cur, write, g, win, q)
    ensures InContainer(v.spec, v.chunkCount, Parity(g, q)) && Place(v.spec, v.chunkCount, Parity(g, q)) < |cur|
    ensures RowBad(v.cr, At(v, cur, Parity(g, q)), win, NewParity(v, img, g, win)[q], WINDOW) ==
            RowBad(v.cr, BlobOf(v, img, g, v.K(g) + q), win, NewParity(v, img, g, win)[q], WINDOW)
    ensures
      var row := CheckedRow(v.cr, At(v, cur, Parity(g, q)), win, NewParity(v, img, g, win)[q], WINDOW);
      var next := if write then cur[Place(v.spec, v.chunkCount, Parity(g, q)) := row] else cur;
      Shaped(next, v.Total()) && ThirdDone(v, img, fates, next, write, g, win, q + 1)
  {
    hide At, Shaped, TagsOk, BlobOf, CheckedBlob, CheckedRow, RowBad, NewParity, Place, InContainer, ThirdAt;
    hide FileCodesOk, Whole;
    ParityIn(v, g, q);
    ParityAtPlace(v, cur, g, q);
    var b := Parity(g, q);
    BlobIsAt(v, img, g, v.K(g) + q, b);
    var outs := NewWindows(v, img, g, q, win + 1);
    assert outs[..win] == NewWindows(v, img, g, q, win);
    WholeLength(At(v, img, b));
    RowJoins(v.cr, At(v, img, b), outs, win);
    CheckedWhole(v.cr, At(v, img, b), outs);
    var row := CheckedRow(v.cr, At(v, cur, b), win, NewParity(v, img, g, win)[q], WINDOW);
    if write {
      assert row == CheckedBlob(v.cr, At(v, img, b), outs[..win + 1]);
      assert outs[..win + 1] == outs;
      AtUpdated(v, cur, b, row, b);
    }
    var next := if write then cur[Place(v.spec, v.chunkCount, b) := row] else cur;
    forall p | InContainer(v.spec, v.chunkCount, p)
      ensures At(v, next, p) == PartialAt(v, img, fates, write, g, win, q + 1, p)
    {
      if write {
        AtUpdated(v, cur, b, row, p);
      }
    }
  }

  lemma WholeLength(blob: seq<Slot>)
    requires Whole(blob)
    ensures |blob| == SHARDS_PER_BLOB
  {}

  /** All rows of a window were checked. */
  lemma ThirdWindow(v: Vault, img: Image, fates: seq<Fate>, cur: Image, write: bool, g: nat, win: nat)
    requires Opened(v, img) && Shaped(cur, v.Total()) && |fates| == v.chunkCount && win < WINDOWS && g < v.Groups()
    requires ThirdDone(v, img, fates, cur, write, g, win, v.M(g))
    ensures ThirdDone(v, img, fates, cur, write, g, win + 1, 0)
  {
    hide At, Shaped, TagsOk, CheckedBlob, FileCodesOk, NewWindows, InContainer;
    forall p | InContainer(v.spec, v.chunkCount, p)
      ensures At(v, cur, p) == PartialAt(v, img, fates, write, g, win + 1, 0, p)
    {
      if p.Parity? {
        ParityIndex(v, p);
      }
    }
  }

  /** A group is finished when its visited windows are. */
  lemma ThirdGroup(v: Vault, img: Image, fates: seq<Fate>, cur: Image, write: bool, g: nat)
    requires Opened(v, img) && Shaped(cur, v.Total()) && |fates| == v.chunkCount && g < v.Groups()
    requires ThirdDone(v, img, fates, cur, write, g, Visited(v, img, fates, g), 0)
    ensures ThirdDone(v, img, fates, cur, write, g + 1, 0, 0)
  {
    hide At, Shaped, TagsOk, CheckedBlob, FileCodesOk, NewWindows, InContainer, Visited, BlobOf;
    forall p | InContainer(v.spec, v.chunkCount, p)
      ensures At(v, cur, p) == PartialAt(v, img, fates, write, g + 1, 0, 0, p)
    {
      if p.Parity? {
        ParityIndex(v, p);
        NoWindows(v, img, p.g, p.q);
        BlobIsAt(v, img, p.g, v.K(p.g) + p.q, p);
      }
    }
  }

  lemma ThirdEnd(v: Vault, img: Image, fates: seq<Fate>, cur: Image, write: bool)
    requires Opened(v, img) && Shaped(cur, v.Total()) && |fates| == v.chunkCount && ThirdDone(v, img, fates, cur, write, v.Groups(), 0, 0)
    ensures cur == ThirdImage(v, img, fates, write)
  {
    hide At, Shaped, ThirdImage, InContainer, CheckedBlob, ThirdBlob, CodesOk, TagsOk, FileCodesOk;
    forall p | InContainer(v.spec, v.chunkCount, p)
      ensures At(v, cur, p) == At(v, ThirdImage(v, img, fates, write), p)
    {
      ThirdImageAt(v, img, fates, write, p);
      if p.Parity? {
        ParityIndex(v, p);
        BlobIsAt(v, img, p.g, v.K(p.g) + p.q, p);
        ThirdUnwritten(v, img, fates, p.g, p.q);
      }
    }
    SameImage(v, cur, ThirdImage(v, img, fates, write));
  }

  lemma ThirdUnwritten(v: Vault, img: Image, fates: seq<Fate>, g: nat, q: nat)
    requires Opened(v, img) && |fates| == v.chunkCount && g < v.Groups() && q < v.M(g)
    ensures ThirdBlob(v, img, fates, false, g, q) == BlobOf(v, img, g, v.K(g) + q)
  {}

  /** Once abandoned, the pass does nothing more. */
  lemma {:induction false} ThirdRest(v: Vault, img: Image, fates: seq<Fate>, cur: Image, write: bool, g: nat, n: nat)
    requires Opened(v, img) && Shaped(cur, v.Total()) && |fates| == v.chunkCount && g <= n <= v.Groups()
    requires ThirdDone(v, img, fates, cur, write, g, 0, 0) && Abandoned(v, img, fates, g)
    ensures Abandoned(v, img, fates, n) && ThirdDone(v, img, fates, cur, write, n, 0, 0)
    ensures ParityBad(v, img, fates, n) == ParityBad(v, img, fates, g)
    decreases n
  {
    hide Shaped, ThirdDone, CodesOk, TagsOk, Skipped, ReadyPrefix, FileCodesOk;
    CodesParts(v.cr);
    if n == g {
    } else {
      ThirdRest(v, img, fates, cur, write, g, n - 1);
      ThirdGroup(v, img, fates, cur, write, n - 1);
    }
  }

  /** Read one window of the group's data blobs; stop at the first that does not verify. */
  method GatherWindow(c: Container, g: nat, win: nat) returns (ok: bool, shards: Shards)
    requires c.Valid() && g < c.v.Groups() && win < WINDOWS
    ensures ok == DataReady(c.v, c.Image(), g, win)
    ensures ok ==> shards == DataWindows(c.v, c.Image(), g, win)
  {
    hide ImageOf, Shaped, GroupNo, SlotOffset, WindowGood, WindowPayload, DataWindows;
    var v := c.v;
    ghost var img := c.Image();
    shards := [];
    for i := 0 to v.K(g)
      invariant |shards| == i
      invariant forall n :: 0 <= n < i ==>
        WindowGood(v.cr, BlobOf(v, img, g, n), win) && shards[n] == WindowPayload(BlobOf(v, img, g, n), win)
    {
      DataWindowOffset(v, img, g, i, win);
      var p := c.ReadWindow(GroupNo(v, g, i), v.spec.DataBlobOffset(g * FILE_GROUP_CHUNKS + i) + win * WINDOW * SLOT_SIZE, win);
      if p.None? {
        return false, shards;
      }
      shards := shards + [p.value];
    }
    ok := true;
    GatheredAll(v, img, g, win, shards);
  }

  lemma GatheredAll(v: Vault, img: Image, g: nat, win: nat, shards: Shards)
    requires v.spec.Valid() && Shaped(img, v.Total()) && g < v.Groups() && win < WINDOWS && |shards| == v.K(g)
    requires forall n :: 0 <= n < v.K(g) ==> shards[n] == WindowPayload(BlobOf(v, img, g, n), win)
    ensures shards == DataWindows(v, img, g, win)
  {
    hide BlobOf, Shaped, WindowPayload;
  }

  /** Everything pass 3 has established at a point of its loops. */
  twostate predicate ThirdState(c: Container, rw: Medium?, img: Image, fates: seq<Fate>, g: nat, win: nat, q: nat)
    reads c.src
  {
    && Working(c, rw) && Opened(c.v, img) && |fates| == c.v.chunkCount
    && win <= WINDOWS && (q == 0 || win < WINDOWS)
    && ThirdDone(c.v, img, fates, c.Image(), rw != null, g, win, q)
    && old(c.v.Total() * BLOB_DISK_SIZE <= |c.src.bytes|) && |c.src.bytes| == old(|c.src.bytes|)
    && Rest(c.src.bytes, c.v.Total()) == old(Rest(c.src.bytes, c.v.Total()))
  }

  /** The parity loop of one window: compare and rewrite each parity blob's row. */
  method CheckWindow(c: Container, rw: Medium?, ghost img: Image, ghost fates: seq<Fate>, g: nat, win: nat, out: Shards)
    returns (bad: nat)
    requires Working(c, rw) && Opened(c.v, img) && |fates| == c.v.chunkCount && g < c.v.Groups() && win < WINDOWS
    requires ThirdDone(c.v, img, fates, c.Image(), rw != null, g, win, 0)
    requires out == NewParity(c.v, img, g, win)
    modifies rw
    ensures ThirdState(c, rw, img, fates, g, win + 1, 0)
    ensures bad == WindowBad(c.v, img, g, win, c.v.M(g))
  {
    hide ImageOf, Shaped, CodesOk, TagsOk, ThirdDone, Rest, NewParity, RowBad, CheckedRow, BlobOf, At, Place;
    hide InContainer, FileCodesOk;
    ghost var v := c.v;
    CodesParts(v.cr);
    bad := 0;
    for q := 0 to c.v.M(g)
      invariant ThirdState(c, rw, img, fates, g, win, q)
      invariant bad == WindowBad(v, img, g, win, q)
    {
      ThirdRow(v, img, fates, c.Image(), rw != null, g, win, q);
      var row := CheckRow(c, rw, g, q, win, out[q]);
      bad := bad + row;
    }
    ThirdWindow(v, img, fates, c.Image(), rw != null, g, win);
  }

  /** The window loop of one group. */
  method CheckGroup(c: Container, rw: Medium?, ghost img: Image, ghost fates: seq<Fate>, g: nat) returns (bad: nat, done: bool)
    requires Working(c, rw) && Opened(c.v, img) && |fates| == c.v.chunkCount && g < c.v.Groups()
    requires ThirdDone(c.v, img, fates, c.Image(), rw != null, g, 0, 0)
    modifies rw
    ensures ThirdState(c, rw, img, fates, g, ReadyPrefix(c.v, img, g, WINDOWS), 0)
    ensures FileCodesOk(c.v.cr) && bad == GroupBad(c.v, img, g, ReadyPrefix(c.v, img, g, WINDOWS))
    ensures done == (ReadyPrefix(c.v, img, g, WINDOWS) == WINDOWS)
  {
    hide ImageOf, Shaped, CodesOk, TagsOk, ThirdDone, Rest, NewParity, WindowBad, BlobOf, FileCodesOk;
    hide ReadyPrefix, DataReady;
    var v := c.v;
    WorkingParts(c, rw);
    GroupSizes(v, g);
    var rs := v.cr.file(v.K(g), v.M(g));
    bad, done := 0, true;
    var win := 0;
    while win < WINDOWS && done
      invariant win <= WINDOWS && ThirdState(c, rw, img, fates, g, win, 0)
      invariant bad == GroupBad(v, img, g, win)
      invariant forall w :: 0 <= w < win ==> DataReady(v, img, g, w)
      invariant !done ==> win < WINDOWS && !DataReady(v, img, g, win)
      decreases WINDOWS - win, done
    {
      var ok, shards := GatherWindow(c, g, win);
      ThirdData(v, img, fates, c.Image(), rw != null, g, win, 0, g);
      SameWindows(v, c.Image(), img, g, win);
      if ok {
        ParityOf(v, img, g, win);
        var row := CheckWindow(c, rw, img, fates, g, win, rs.encode(shards));
        bad := bad + row;
        win := win + 1;
      } else {
        done := false;
      }
    }
    PrefixIs(v, img, g, win);
  }

  lemma ParityOf(v: Vault, img: Image, g: nat, win: nat)
    requires v.spec.Valid() && Shaped(img, v.Total()) && FileCodesOk(v.cr) && g < v.Groups() && win < WINDOWS
    ensures NewParity(v, img, g, win) == v.cr.file(v.K(g), v.M(g)).encode(DataWindows(v, img, g, win))
  {}

  /** The first window that is not ready is where the prefix ends. */
  lemma PrefixIs(v: Vault, img: Image, g: nat, win: nat)
    requires v.spec.Valid() && Shaped(img, v.Total()) && g < v.Groups() && win <= WINDOWS
    requires (forall w :: 0 <= w < win ==> DataReady(v, img, g, w)) && (win < WINDOWS ==> !DataReady(v, img, g, win))
    ensures ReadyPrefix(v, img, g, WINDOWS) == win
  {
    hide ReadyPrefix, DataReady, Shaped;
    var r := ReadyPrefix(v, img, g, WINDOWS);
  }

  /** The chunks pass 2 lost. */
  function LateSet(fates: seq<Fate>): set<int> {
    set i | 0 <= i < |fates| && fates[i] == LostLate
  }

  /** Does the group hold a chunk of the lost set? */
  method HasLost(v: Vault, ghost fates: seq<Fate>, lostSet: set<int>, g: nat) returns (skip: bool)
    requires v.spec.Valid() && |fates| == v.chunkCount && g < v.Groups() && lostSet == LateSet(fates)
    ensures skip == Skipped(v, fates, g)
  {
    GroupSizes(v, g);
    skip := false;
    var pos := 0;
    while pos < v.K(g) && !skip
      invariant pos <= v.K(g)
      invariant skip == exists i :: g * FILE_GROUP_CHUNKS <= i < g * FILE_GROUP_CHUNKS + pos && fates[i] == LostLate
    {
      if g * FILE_GROUP_CHUNKS + pos in lostSet {
        skip := true;
      }
      pos := pos + 1;
    }
  }

  /** Pass 3: recompute the parity of every group without a chunk in the lost set. */
  method RebuildFileParity(c: Container, rw: Medium?, ghost fates: seq<Fate>, lostSet: set<int>) returns (bad: nat)
    requires Working(c, rw) && |fates| == c.v.chunkCount && lostSet == LateSet(fates)
    modifies rw
    ensures Working(c, rw) && FileCodesOk(c.v.cr)
    ensures old(Opened(c.v, c.Image())) && bad == old(ParityBad(c.v, c.Image(), fates, c.v.Groups()))
    ensures Became(c, old(ThirdImage(c.v, c.Image(), fates, rw != null)))
  {
    hide ImageOf, Shaped, CodesOk, TagsOk, ThirdDone, Rest, FileCodesOk, ReadyPrefix, Skipped, GroupBad, ThirdImage;
    ghost var v, img := c.v, c.Image();
    WorkingParts(c, rw);
    ThirdStart(v, img, fates, rw != null);
    bad := 0;
    var g := 0;
    var going := true;
    while g < c.v.Groups() && going
      invariant g <= c.v.Groups() && ThirdState(c, rw, img, fates, g, 0, 0)
      invariant bad == ParityBad(v, img, fates, g) && going == !Abandoned(v, img, fates, g)
      decreases c.v.Groups() - g
    {
      var skip := HasLost(c.v, fates, lostSet, g);
      if !skip {
        var more, done := CheckGroup(c, rw, img, fates, g);
        bad := bad + more;
        going := done;
      } else {
        NoneVisited(v, img, g);
      }
      ThirdGroup(v, img, fates, c.Image(), rw != null, g);
      g := g + 1;
    }
    if !going {
      ThirdRest(v, img, fates, c.Image(), rw != null, g, v.Groups());
    }
    ThirdEnd(v, img, fates, c.Image(), rw != null);
  }

  lemma NoneVisited(v: Vault, img: Image, g: nat)
    requires v.spec.Valid() && Shaped(img, v.Total()) && FileCodesOk(v.cr) && g < v.Groups()
    ensures GroupBad(v, img, g, 0) == 0
  {}

  // ---------- the whole scrub ----------

  lemma FirstFatesKinds(v: Vault, img: Image)
    requires v.spec.Valid() && Shaped(img, v.Total())
    ensures FromFirst(FirstFates(v, img))
  {
    hide Shaped, InBlob, DecodeChunk, DataBlob, Bad;
  }

  lemma {:induction false} LateIndices(fates: seq<Fate>, n: nat)
    requires n <= |fates|
    ensures forall i: nat :: i in Indices(fates, LostLate, n) <==> i < n && fates[i] == LostLate
    decreases n
  {
    if n == 0 {
    } else {
      LateIndices(fates, n - 1);
    }
  }

  /** lostSet, filled while pass 2 appends to its list. */
  lemma LateSetIs(fates: seq<Fate>)
    ensures (set i: nat | i in Indices(fates, LostLate, |fates|) :: i as int) == LateSet(fates)
  {
    LateIndices(fates, |fates|);
  }

  /** Chunks the second pass does not touch keep their count and place. */
  lemma {:induction false} FirstCountsStay(v: Vault, img: Image, fates: seq<Fate>, n: nat)
    requires v.spec.Valid() && Shaped(img, v.Total()) && |fates| == v.chunkCount && n <= v.chunkCount && FromFirst(fates)
    ensures
      var second := SecondFates(v, img, fates);
      && Count(second, Clean, n) == Count(fates, Clean, n)
      && Count(second, Repaired, n) == Count(fates, Repaired, n)
      && Indices(second, LostEarly, n) == Indices(fates, LostEarly, n)
    decreases n
  {
    hide Shaped, SecondPayloads, DecodeChunk;
    if n == 0 {
    } else {
      FirstCountsStay(v, img, fates, n - 1);
      var f := SecondFates(v, img, fates)[n - 1];
      assert f == SecondFate(v, img, fates, n - 1);
      assert fates[n - 1] == Pending ==> f in {Rebuilt, LostLate};
    }
  }

  /** Scrub: three passes over the container, repairing in place when a writer is
      given; with none (Verify) the file stays as it is. */
  method Scrub(c: Container, rw: Medium?, rebuildParity: bool) returns (rep: Report)
    requires Working(c, rw)
    modifies rw
    ensures Working(c, rw)
    ensures old(Opened(c.v, c.Image()))
    ensures rep == old(ReportOf(c.v, c.Image(), rw != null, rebuildParity))
    ensures Became(c, old(Scrubbed(c.v, c.Image(), rw != null, rebuildParity)))
  {
    hide ImageOf, Shaped, CodesOk, TagsOk, Rest, FileCodesOk, FirstImage, SecondImage, ThirdImage, FirstFates;
    hide SecondFates, BadSlots, RepairedSlots;
    hide FromFirst, ParityBad, Count, Indices, LateSet;
    ghost var v, img, write, n := c.v, c.Image(), rw != null, c.v.chunkCount;
    WorkingParts(c, rw);
    ghost var fates := FirstFates(v, img);
    FirstFatesKinds(v, img);
    var t := FirstPass(c, rw);
    ghost var one := c.Image();
    FirstCountsStay(v, one, fates, n);
    var rebuilt, late := SecondPass(c, rw, fates, t.needFile);
    ghost var final := Fates(v, img, write);
    var lostSet: set<int> := set i: nat | i in late :: i as int;
    LateSetIs(final);
    var wrong := 0;
    if rebuildParity {
      wrong := RebuildFileParity(c, rw, final, lostSet);
    }
    rep := Report(c.v.chunkCount, t.clean, t.repaired, rebuilt, t.lost + late, t.shardsBad, t.shardsRepaired,
                  wrong, if rw != null then wrong else 0);
  }
}

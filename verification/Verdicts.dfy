/** How the verdicts of Verify, Scrub and the read path relate. */
module Verdicts {
  import opened Bytes
  import opened Layout
  import opened Vault
  import opened Repair
  import opened RepairTheorems
  import opened Encoder
  import opened ScrubSpec
  import opened ScrubTheorems

  // ---------- the report is a partition ----------

  lemma {:induction false} CountsAddUp(fates: seq<Fate>, n: nat)
    requires n <= |fates|
    ensures Count(fates, Clean, n) + Count(fates, Repaired, n) + Count(fates, Rebuilt, n) + Count(fates, Pending, n)
            + |Indices(fates, LostEarly, n)| + |Indices(fates, LostLate, n)| == n
    decreases n
  {
    if n == 0 {
    } else {
      CountsAddUp(fates, n - 1);
    }
  }

  lemma {:induction false} IndicesFacts(fates: seq<Fate>, f: Fate, n: nat)
    requires n <= |fates|
    ensures forall i: nat :: i in Indices(fates, f, n) <==> i < n && fates[i] == f
    ensures forall a, b :: 0 <= a < b < |Indices(fates, f, n)| ==> Indices(fates, f, n)[a] < Indices(fates, f, n)[b]
    decreases n
  {
    if n == 0 {
    } else {
      IndicesFacts(fates, f, n - 1);
      var s := Indices(fates, f, n - 1);
      assert forall a :: 0 <= a < |s| ==> s[a] in s;
      if fates[n - 1] == f {
        assert Indices(fates, f, n) == s + [n - 1];
      } else {
        assert Indices(fates, f, n) == s;
      }
    }
  }

  lemma {:induction false} NoneCounted(fates: seq<Fate>, f: Fate, n: nat)
    requires n <= |fates| && forall i :: 0 <= i < |fates| ==> fates[i] != f
    ensures Count(fates, f, n) == 0
    decreases n
  {
    if n == 0 {
    } else {
      NoneCounted(fates, f, n - 1);
    }
  }

  /** For any file and any damage: clean, repaired, rebuilt and lost partition
      the chunks, and the lost list names each lost chunk once. */
  lemma ReportPartitions(v: Vault, img: Image, write: bool, parity: bool)
    requires Opened(v, img)
    ensures
      var r := ReportOf(v, img, write, parity);
      && r.clean + r.repaired + r.rebuilt + |r.lost| == r.total == v.chunkCount
      && (forall i: nat :: i in r.lost <==> i < v.chunkCount && Fates(v, img, write)[i] in {LostEarly, LostLate})
      && (forall a, b :: 0 <= a < b < |r.lost| ==> r.lost[a] != r.lost[b])
  {
    hide Fates, AfterTwo, Shaped, ParityBad, Count, Indices, BadSlots, RepairedSlots, TagsOk, CodesOk;
    var fates, n := Fates(v, img, write), v.chunkCount;
    forall i | 0 <= i < n
      ensures fates[i] != Pending
    {
      FatesAt(v, img, write, i);
    }
    CountsAddUp(fates, n);
    NoneCounted(fates, Pending, n);
    IndicesFacts(fates, LostEarly, n);
    IndicesFacts(fates, LostLate, n);
    var early, late := Indices(fates, LostEarly, n), Indices(fates, LostLate, n);
    forall a, b | 0 <= a < |early| && 0 <= b < |late|
      ensures early[a] != late[b]
    {
      assert early[a] in early && late[b] in late;
    }
  }

  // ---------- reading a damaged file ----------

  /** Under detected damage LoadChunk returns the chunk exactly when its blob has
      at most 128 bad slots or its group has enough shards in every window. */
  lemma ReadsIff(v: Vault, orig: Image, chunks: seq<Bytes>, img: Image, i: nat)
    requires Damaged(v, orig, chunks, img) && i < v.chunkCount
    ensures i / FILE_GROUP_CHUNKS < v.Groups()
    ensures LoadChunk(v, img, i) ==
      if Few(v.cr, DataBlob(v, img, i)) || Enough(v, img, i / FILE_GROUP_CHUNKS, {i % FILE_GROUP_CHUNKS})
      then Chunk(chunks[i]) else Unrecoverable
  {
    hide Damaged, Shaped, DataBlob, InBlob, Few, GroupRebuild, Enough, DecodeChunk, Payloads, TagsOk, CodesOk;
    hide FirstFate, FirstBlob;
    DamagedParts(v, orig, chunks, img);
    DamagedOriginal(v, orig, chunks, img);
    DataNoBound(v, i);
    FirstUnderDamage(v, orig, chunks, img, i);
    OriginalDecodes(v, orig, chunks, i);
    var g, pos := i / FILE_GROUP_CHUNKS, i % FILE_GROUP_CHUNKS;
    GroupUnderDamage(v, orig, chunks, img, g, {pos});
    PositionBound(v, g, pos);
    assert pos in {pos} && g * FILE_GROUP_CHUNKS + pos == i;
  }

  // ---------- verdicts are monotone ----------

  /** Where b verifies, a verifies too. */
  ghost predicate NoWorse(cr: Crypto, a: seq<Slot>, b: seq<Slot>) {
    |a| == |b| && forall j :: 0 <= j < |b| && Good(cr, b[j]) ==> Good(cr, a[j])
  }

  /** Fewer missing blobs and no worse slots leave no more shards absent. */
  lemma EnoughGrows(cr: Crypto, a: Group, b: Group, k: nat, some: set<int>, more: set<int>)
    requires WholeGroup(a, k) && WholeGroup(b, k) && |a| == |b|
    requires forall n :: 0 <= n < |a| ==> NoWorse(cr, a[n], b[n])
    requires some <= more && EnoughShards(cr, b, k, more)
    ensures EnoughShards(cr, a, k, some)
  {
    hide NoWorse;
    forall w | 0 <= w < WINDOWS
      ensures |Absent(cr, a, k, some, w)| <= |a| - k
    {
      forall n | n in Absent(cr, a, k, some, w)
        ensures n in Absent(cr, b, k, more, w)
      {
        WindowNoWorse(cr, a[n], b[n], w);
      }
      SubsetCount(Absent(cr, a, k, some, w), Absent(cr, b, k, more, w));
    }
  }

  lemma WindowNoWorse(cr: Crypto, a: seq<Slot>, b: seq<Slot>, w: nat)
    requires Whole(a) && Whole(b) && NoWorse(cr, a, b) && w < WINDOWS
    ensures WindowGood(cr, b, w) ==> WindowGood(cr, a, w)
  {}

  /** The damage hypothesis makes every original slot no worse. */
  lemma OriginalNoWorse(v: Vault, orig: Image, chunks: seq<Bytes>, img: Image, g: nat, n: nat)
    requires Damaged(v, orig, chunks, img) && g < v.Groups() && n < v.K(g) + v.M(g)
    ensures NoWorse(v.cr, BlobOf(v, FirstImage(v, img, true), g, n), BlobOf(v, img, g, n))
  {
    hide Damaged, Shaped, FirstImage, BlobOf, DataBlob, Few, FirstFate, TagsOk, CodesOk, InContainer, At;
    hide AllGood, Good, FirstBlob, BlobWord;
    DamagedParts(v, orig, chunks, img);
    var one := FirstImage(v, img, true);
    if n < v.K(g) {
      GroupDataAt(v, one, g, n);
      GroupDataAt(v, img, g, n);
      var i := g * FILE_GROUP_CHUNKS + n;
      DataAt(v, one, i);
      FirstImageAt(v, img, true, Data(i));
      FirstUnderDamage(v, orig, chunks, img, i);
      DamagedOriginal(v, orig, chunks, img);
      OriginalBlob(v, orig, chunks, i);
      AllGoodNoWorse(v.cr, DataBlob(v, orig, i), DataBlob(v, img, i));
    } else {
      GroupParityAt(v, one, g, n - v.K(g));
      GroupParityAt(v, img, g, n - v.K(g));
      FirstImageAt(v, img, true, Parity(g, n - v.K(g)));
    }
  }

  lemma AllGoodNoWorse(cr: Crypto, a: seq<Slot>, b: seq<Slot>)
    requires Whole(a) && Whole(b) && AllGood(cr, a)
    ensures NoWorse(cr, a, b)
  {}

  /** Writing repairs back in pass 1 never makes a group unrebuildable in pass 2. */
  lemma WriteBackHelps(v: Vault, orig: Image, chunks: seq<Bytes>, img: Image, g: nat, missing: set<int>)
    requires Damaged(v, orig, chunks, img) && g < v.Groups() && Enough(v, img, g, missing)
    ensures Enough(v, FirstImage(v, img, true), g, missing)
  {
    hide Damaged, Shaped, FirstImage, BlobOf, NoWorse, TagsOk, CodesOk, EnoughShards;
    DamagedParts(v, orig, chunks, img);
    var one := FirstImage(v, img, true);
    var a, b := GroupBlobs(v, one, g), GroupBlobs(v, img, g);
    forall n | 0 <= n < |a|
      ensures NoWorse(v.cr, a[n], b[n])
    {
      OriginalNoWorse(v, orig, chunks, img, g, n);
      assert a[n] == BlobOf(v, one, g, n) && b[n] == BlobOf(v, img, g, n);
    }
    EnoughGrows(v.cr, a, b, v.K(g), missing, missing);
  }

  /** What Verify decides under detected damage. */
  lemma VerifyFate(v: Vault, orig: Image, chunks: seq<Bytes>, img: Image, write: bool, i: nat)
    requires Damaged(v, orig, chunks, img) && i < v.chunkCount
    ensures i / FILE_GROUP_CHUNKS < v.Groups()
    ensures i / FILE_GROUP_CHUNKS * FILE_GROUP_CHUNKS + v.K(i / FILE_GROUP_CHUNKS) <= v.chunkCount
    ensures
      var g, fates := i / FILE_GROUP_CHUNKS, FirstFates(v, img);
      Fates(v, img, write)[i] in {LostEarly, LostLate} <==>
        !Few(v.cr, DataBlob(v, img, i)) && !Enough(v, if write then FirstImage(v, img, true) else img, g, PendingIn(fates, g, v.K(g)))
    ensures !Few(v.cr, DataBlob(v, img, i)) ==>
      i % FILE_GROUP_CHUNKS in PendingIn(FirstFates(v, img), i / FILE_GROUP_CHUNKS, v.K(i / FILE_GROUP_CHUNKS))
  {
    hide Damaged, Shaped, FirstImage, FirstFates, BlobOf, DataBlob, Few, FirstFate, TagsOk, CodesOk;
    hide FirstBlob, Enough, SecondFate, Fates, PendingIn, InBlob;
    DamagedParts(v, orig, chunks, img);
    DataNoBound(v, i);
    GroupSizes(v, i / FILE_GROUP_CHUNKS);
    var one, fates := FirstImage(v, img, write), FirstFates(v, img);
    NoWriteNoChange(v, img);
    FirstKeepsDamaged(v, orig, chunks, img, write);
    FirstUnderDamage(v, orig, chunks, img, i);
    FatesAt(v, img, write, i);
    if fates[i] == Pending {
      PendingPosition(v, fates, i);
      SecondUnderDamage(v, orig, chunks, one, fates, i);
    }
  }

  /** Every chunk that Verify does not report lost is read correctly from the
      damaged file. */
  lemma NotLostIsReadable(v: Vault, orig: Image, chunks: seq<Bytes>, img: Image, i: nat)
    requires Damaged(v, orig, chunks, img) && i < v.chunkCount
    requires Fates(v, img, false)[i] !in {LostEarly, LostLate}
    ensures LoadChunk(v, img, i) == Chunk(chunks[i])
  {
    hide Damaged, Shaped, FirstImage, FirstFates, GroupBlobs, DataBlob, Few, TagsOk, CodesOk, EnoughShards;
    hide Fates, LoadChunk, PendingIn;
    DamagedParts(v, orig, chunks, img);
    ReadsIff(v, orig, chunks, img, i);
    VerifyFate(v, orig, chunks, img, false, i);
    if !Few(v.cr, DataBlob(v, img, i)) {
      var g, pos := i / FILE_GROUP_CHUNKS, i % FILE_GROUP_CHUNKS;
      OneOfMany(v, img, g, PendingIn(FirstFates(v, img), g, v.K(g)), pos);
    }
  }

  lemma OneOfMany(v: Vault, img: Image, g: nat, missing: set<int>, pos: int)
    requires v.spec.Valid() && Shaped(img, v.Total()) && g < v.Groups() && Enough(v, img, g, missing) && pos in missing
    ensures Enough(v, img, g, {pos})
  {
    hide GroupBlobs, Shaped, EnoughShards;
    GroupSizes(v, g);
    var blobs := GroupBlobs(v, img, g);
    forall n | 0 <= n < |blobs|
      ensures NoWorse(v.cr, blobs[n], blobs[n])
    {
    }
    EnoughGrows(v.cr, blobs, blobs, v.K(g), {pos}, missing);
  }

  /** Scrub loses no chunk that Verify would not have reported lost. */
  lemma ScrubLosesNoMore(v: Vault, orig: Image, chunks: seq<Bytes>, img: Image, i: nat)
    requires Damaged(v, orig, chunks, img) && i < v.chunkCount
    requires Fates(v, img, true)[i] in {LostEarly, LostLate}
    ensures Fates(v, img, false)[i] in {LostEarly, LostLate}
  {
    hide Damaged, Shaped, FirstImage, FirstFates, DataBlob, Few, TagsOk, CodesOk, Enough, Fates, PendingIn;
    DamagedParts(v, orig, chunks, img);
    VerifyFate(v, orig, chunks, img, true, i);
    VerifyFate(v, orig, chunks, img, false, i);
    var g := i / FILE_GROUP_CHUNKS;
    if Enough(v, img, g, PendingIn(FirstFates(v, img), g, v.K(g))) {
      WriteBackHelps(v, orig, chunks, img, g, PendingIn(FirstFates(v, img), g, v.K(g)));
    }
  }

  // ---------- the restored file ----------

  /** When nothing is lost, a file with the scrubbed blobs and its old trailer is
      the original file byte for byte. */
  lemma FileRestored(v: Vault, chunks: seq<Bytes>, original: Bytes, damaged: Bytes, scrubbed: Bytes)
    requires v.Total() * BLOB_DISK_SIZE <= |original| == |damaged| == |scrubbed|
    requires Damaged(v, ImageOf(original, v.Total()), chunks, ImageOf(damaged, v.Total()))
    requires forall i :: 0 <= i < v.chunkCount ==> Fates(v, ImageOf(damaged, v.Total()), true)[i] != LostLate
    requires ImageOf(scrubbed, v.Total()) == Scrubbed(v, ImageOf(damaged, v.Total()), true, true)
    requires var limit := v.Total() * BLOB_DISK_SIZE; scrubbed[limit..] == damaged[limit..] == original[limit..]
    ensures scrubbed == original
  {
    hide Damaged, Scrubbed, Fates, ImageOf;
    NothingLost(v, ImageOf(original, v.Total()), chunks, ImageOf(damaged, v.Total()));
    ImageDetermines(scrubbed, original, v.Total());
  }
}

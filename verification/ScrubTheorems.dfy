/** What a scrub achieves when every damaged slot is detected, and what its
    report means in any case. */
module ScrubTheorems {
  import opened Bytes
  import opened ErasureCode
  import opened Layout
  import opened Vault
  import opened Repair
  import opened RepairTheorems
  import opened Encoder
  import opened ScrubSpec

  /** An opened container with its undamaged original, under the damage hypothesis. */
  ghost predicate Damaged(v: Vault, orig: Image, chunks: seq<Bytes>, img: Image) {
    Opened(v, img) && Opened(v, orig) && Original(v, orig, chunks) && Detected(v, orig, img)
  }

  predicate Few(cr: Crypto, blob: seq<Slot>) {
    |Bad(cr, blob)| <= PARITY_SHARDS
  }

  // ---------- what the hypothesis says of one blob and one group ----------

  lemma OriginalBlob(v: Vault, orig: Image, chunks: seq<Bytes>, i: nat)
    requires Opened(v, orig) && Original(v, orig, chunks) && i < v.chunkCount
    ensures BlobWord(v.cr, DataBlob(v, orig, i)) && AllGood(v.cr, DataBlob(v, orig, i))
  {
    hide BlobWord, GroupBlobs, Shaped, ColumnWord, Good, CodesOk, TagsOk, DataBlob;
    DataInGroup(v, orig, i);
    var g := i / FILE_GROUP_CHUNKS;
    assert WrittenGroup(v.cr, GroupBlobs(v, orig, g), v.K(g));
  }

  lemma OriginalDecodes(v: Vault, orig: Image, chunks: seq<Bytes>, i: nat)
    requires Original(v, orig, chunks) && i < v.chunkCount
    ensures DecodeChunk(v.cr, i, Payloads(DataBlob(v, orig, i))) == Plain(chunks[i])
  {}

  lemma DetectedBlob(v: Vault, orig: Image, img: Image, i: nat)
    requires Detected(v, orig, img) && i < v.chunkCount
    ensures BlobDetected(v.cr, DataBlob(v, orig, i), DataBlob(v, img, i))
  {
    hide BlobDetected, Shaped;
    DataNoBound(v, i);
  }

  lemma DetectedGroup(v: Vault, orig: Image, img: Image, g: nat)
    requires Detected(v, orig, img) && g < v.Groups()
    ensures GroupDetected(v.cr, GroupBlobs(v, orig, g), GroupBlobs(v, img, g))
  {
    hide BlobDetected, Shaped;
    forall n | 0 <= n < v.K(g) + v.M(g)
      ensures BlobDetected(v.cr, BlobOf(v, orig, g, n), BlobOf(v, img, g, n))
    {
      GroupNoBound(v, g, n);
    }
  }

  /** Fresh slots of an original blob's payloads are the blob. */
  lemma FreshIsOriginal(cr: Crypto, blob: seq<Slot>)
    requires AllGood(cr, blob)
    ensures FreshSlots(cr, Payloads(blob)) == blob
  {}

  /** Patching a blob from its original payloads gives the original blob. */
  lemma PatchedIsOriginal(cr: Crypto, orig: seq<Slot>, blob: seq<Slot>)
    requires AllGood(cr, orig) && BlobDetected(cr, orig, blob)
    ensures Patched(cr, blob, Payloads(orig)) == orig
  {}

  lemma NoneBad(cr: Crypto, blob: seq<Slot>)
    ensures AllGood(cr, blob) <==> Bad(cr, blob) == []
  {
    BadFacts(cr, blob, |blob|);
    if !AllGood(cr, blob) {
      var j :| 0 <= j < |blob| && !Good(cr, blob[j]);
      assert j in Bad(cr, blob);
    }
    if Bad(cr, blob) != [] {
      assert Bad(cr, blob)[0] in Bad(cr, blob);
    }
  }

  // ---------- pass 1 ----------

  /** A chunk with at most 128 bad slots is clean or repaired; any other waits. */
  lemma FirstUnderDamage(v: Vault, orig: Image, chunks: seq<Bytes>, img: Image, i: nat)
    requires Damaged(v, orig, chunks, img) && i < v.chunkCount
    ensures FirstFate(v, img, i) ==
      if !Few(v.cr, DataBlob(v, img, i)) then Pending else if Bad(v.cr, DataBlob(v, img, i)) == [] then Clean else Repaired
    ensures FirstBlob(v, img, true, i) == if Few(v.cr, DataBlob(v, img, i)) then DataBlob(v, orig, i) else DataBlob(v, img, i)
    ensures Few(v.cr, DataBlob(v, img, i)) ==> InBlob(v.cr, DataBlob(v, img, i)) == Some(Payloads(DataBlob(v, orig, i)))
    ensures !Few(v.cr, DataBlob(v, img, i)) ==> InBlob(v.cr, DataBlob(v, img, i)) == None
  {
    hide DecodeChunk, InBlob, Patched, BlobWord, BlobDetected, Bad, Original, Detected, CodesOk, Payloads;
    hide AllGood, DataBlob;
    assert IntraOk(v.cr) by { CodesParts(v.cr); }
    OriginalBlob(v, orig, chunks, i);
    OriginalDecodes(v, orig, chunks, i);
    DetectedBlob(v, orig, img, i);
    InBlobRestores(v.cr, DataBlob(v, orig, i), DataBlob(v, img, i));
    PatchedIsOriginal(v.cr, DataBlob(v, orig, i), DataBlob(v, img, i));
    if Bad(v.cr, DataBlob(v, img, i)) == [] {
      CleanIsOriginal(v.cr, DataBlob(v, orig, i), DataBlob(v, img, i));
    }
  }

  lemma CleanIsOriginal(cr: Crypto, orig: seq<Slot>, blob: seq<Slot>)
    requires BlobDetected(cr, orig, blob) && Bad(cr, blob) == []
    ensures blob == orig
  {
    NoneBad(cr, blob);
  }

  lemma DetectedAt(v: Vault, orig: Image, img: Image, b: Blob)
    requires Detected(v, orig, img) && InContainer(v.spec, v.chunkCount, b)
    ensures BlobDetected(v.cr, At(v, orig, b), At(v, img, b))
  {
    hide BlobDetected, Shaped, Place, InContainer;
    PlaceIsValid(v.spec, v.chunkCount, b);
  }

  lemma ShapedSize(img: Image, total: nat)
    requires Shaped(img, total)
    ensures |img| == total
  {}

  lemma DetectedIntro(v: Vault, orig: Image, img: Image)
    requires v.spec.Valid() && Shaped(orig, v.Total()) && Shaped(img, v.Total())
    requires forall b | InContainer(v.spec, v.chunkCount, b) :: BlobDetected(v.cr, At(v, orig, b), At(v, img, b))
    ensures Detected(v, orig, img)
  {
    hide BlobDetected, Shaped, InContainer, Place;
    ShapedSize(orig, v.Total());
    ShapedSize(img, v.Total());
    forall n | 0 <= n < v.Total()
      ensures BlobDetected(v.cr, orig[n], img[n])
    {
      PlaceIsTaken(v.spec, v.chunkCount, n);
      var b := Locate(v.spec, v.chunkCount, n);
      assert BlobDetected(v.cr, At(v, orig, b), At(v, img, b));
    }
  }

  /** After the first pass the damage is still detected. */
  lemma FirstKeepsDamaged(v: Vault, orig: Image, chunks: seq<Bytes>, img: Image, write: bool)
    requires Damaged(v, orig, chunks, img)
    ensures Damaged(v, orig, chunks, FirstImage(v, img, write))
  {
    hide Original, BlobDetected, Shaped, FirstImage, FirstFate, InContainer, Few, CodesOk, DataBlob, InBlob;
    hide Bad, FirstBlob, At;
    forall b | InContainer(v.spec, v.chunkCount, b)
      ensures BlobDetected(v.cr, At(v, orig, b), At(v, FirstImage(v, img, write), b))
    {
      FirstImageAt(v, img, write, b);
      DetectedAt(v, orig, img, b);
      if b.Data? {
        DataAtPlace(v, img, b);
        FirstDataDetected(v, orig, chunks, img, write, b.i);
      }
    }
    DetectedIntro(v, orig, FirstImage(v, img, write));
  }

  lemma DataAtPlace(v: Vault, img: Image, b: Blob)
    requires v.spec.Valid() && Shaped(img, v.Total()) && b.Data? && InContainer(v.spec, v.chunkCount, b)
    ensures b.i < v.chunkCount && At(v, img, b) == DataBlob(v, img, b.i)
  {}

  lemma FirstDataDetected(v: Vault, orig: Image, chunks: seq<Bytes>, img: Image, write: bool, i: nat)
    requires Damaged(v, orig, chunks, img) && i < v.chunkCount && InContainer(v.spec, v.chunkCount, Data(i))
    ensures BlobDetected(v.cr, At(v, orig, Data(i)), FirstBlob(v, img, write, i))
  {
    hide Original, Shaped, FirstFate, CodesOk, DataBlob, InBlob, Bad, At, Good, InContainer;
    DetectedBlob(v, orig, img, i);
    DataAt(v, orig, i);
    FirstUnderDamage(v, orig, chunks, img, i);
    if !write {
      assert FirstBlob(v, img, write, i) == DataBlob(v, img, i);
    }
  }

  lemma NoWriteNoChange(v: Vault, img: Image)
    requires Opened(v, img)
    ensures FirstImage(v, img, false) == img
  {
    hide InContainer, Shaped, CodesOk, TagsOk, FirstImage, At, DataBlob, FirstFate;
    forall b | InContainer(v.spec, v.chunkCount, b)
      ensures At(v, FirstImage(v, img, false), b) == At(v, img, b)
    {
      FirstImageAt(v, img, false, b);
      if b.Data? {
        DataAtPlace(v, img, b);
      }
    }
    SameImage(v, FirstImage(v, img, false), img);
  }

  // ---------- pass 2 ----------

  /** Group g gives back the blobs at these positions. */
  ghost predicate Enough(v: Vault, img: Image, g: nat, missing: set<int>)
    requires v.spec.Valid() && Shaped(img, v.Total()) && g < v.Groups()
  {
    MissingOk(v.K(g), v.M(g), missing) && EnoughShards(v.cr, GroupBlobs(v, img, g), v.K(g), missing)
  }

  lemma PositionBound(v: Vault, g: nat, pos: int)
    requires v.spec.Valid() && g < v.Groups() && 0 <= pos < v.K(g)
    ensures g * FILE_GROUP_CHUNKS + pos < v.chunkCount
    ensures (g * FILE_GROUP_CHUNKS + pos) / FILE_GROUP_CHUNKS == g && (g * FILE_GROUP_CHUNKS + pos) % FILE_GROUP_CHUNKS == pos
  {
    GroupSizes(v, g);
  }

  /** A group is rebuilt exactly when it has enough shards, and then exactly. */
  lemma GroupUnderDamage(v: Vault, orig: Image, chunks: seq<Bytes>, img: Image, g: nat, missing: set<int>)
    requires Damaged(v, orig, chunks, img) && g < v.Groups()
    ensures GroupRebuild(v, img, g, missing).Some? <==> Enough(v, img, g, missing)
    ensures GroupRebuild(v, img, g, missing).Some? ==> forall pos :: pos in missing ==>
      0 <= pos < v.K(g) && g * FILE_GROUP_CHUNKS + pos < v.chunkCount
      && GroupRebuild(v, img, g, missing).value[pos] == Payloads(DataBlob(v, orig, g * FILE_GROUP_CHUNKS + pos))
  {
    hide GroupBlobs, Shaped, RebuildMissing, EnoughShards, MissingOk, WrittenGroup, GroupDetected, DataBlob;
    hide FileCodeOk, TagsOk, Detected;
    DetectedGroup(v, orig, img, g);
    GroupSizes(v, g);
    CodesParts(v.cr);
    FileCode(v.cr, v.K(g), v.M(g));
    assert WrittenGroup(v.cr, GroupBlobs(v, orig, g), v.K(g));
    RebuildIff(v.cr, GroupBlobs(v, orig, g), GroupBlobs(v, img, g), v.K(g), missing);
    if GroupRebuild(v, img, g, missing).Some? {
      forall pos | pos in missing
        ensures 0 <= pos < v.K(g) && g * FILE_GROUP_CHUNKS + pos < v.chunkCount
        ensures GroupBlobs(v, orig, g)[pos] == DataBlob(v, orig, g * FILE_GROUP_CHUNKS + pos)
      {
        PositionBound(v, g, pos);
        DataInGroup(v, orig, g * FILE_GROUP_CHUNKS + pos);
      }
    }
  }

  /** A pending chunk is rebuilt exactly when its group has enough shards. */
  lemma SecondUnderDamage(v: Vault, orig: Image, chunks: seq<Bytes>, img: Image, fates: seq<Fate>, i: nat)
    requires Damaged(v, orig, chunks, img) && |fates| == v.chunkCount && i < v.chunkCount && fates[i] == Pending
    ensures i / FILE_GROUP_CHUNKS < v.Groups()
    ensures i / FILE_GROUP_CHUNKS * FILE_GROUP_CHUNKS + v.K(i / FILE_GROUP_CHUNKS) <= |fates|
    ensures
      var g := i / FILE_GROUP_CHUNKS;
      SecondFate(v, img, fates, i) == if Enough(v, img, g, PendingIn(fates, g, v.K(g))) then Rebuilt else LostLate
    ensures SecondBlob(v, img, fates, true, i) ==
      if SecondFate(v, img, fates, i) == Rebuilt then DataBlob(v, orig, i) else DataBlob(v, img, i)
  {
    hide GroupRebuild, Shaped, Enough, DecodeChunk, DataBlob, PendingIn, Payloads, FreshSlots, AllGood;
    hide BlobWord, Original, Detected;
    PendingPosition(v, fates, i);
    var g := i / FILE_GROUP_CHUNKS;
    GroupUnderDamage(v, orig, chunks, img, g, PendingIn(fates, g, v.K(g)));
    OriginalDecodes(v, orig, chunks, i);
    OriginalBlob(v, orig, chunks, i);
    FreshIsOriginal(v.cr, DataBlob(v, orig, i));
  }

  // ---------- after two passes ----------

  lemma FatesAt(v: Vault, img: Image, write: bool, i: nat)
    requires Opened(v, img) && i < v.chunkCount
    ensures FirstFates(v, img)[i] == FirstFate(v, img, i)
    ensures Fates(v, img, write)[i] == SecondFate(v, FirstImage(v, img, write), FirstFates(v, img), i)
    ensures Fates(v, img, write)[i] == Pending ==> false
    ensures FirstFate(v, img, i) != Pending ==> Fates(v, img, write)[i] == FirstFate(v, img, i)
    ensures FirstFate(v, img, i) == Pending ==> Fates(v, img, write)[i] in {Rebuilt, LostLate}
  {
    hide FirstImage, Shaped, FirstFate, DecodeChunk, SecondPayloads, CodesOk, TagsOk;
  }

  /** After two writing passes every chunk that is not lost has its original blob. */
  lemma AfterTwoData(v: Vault, orig: Image, chunks: seq<Bytes>, img: Image, i: nat)
    requires Damaged(v, orig, chunks, img) && i < v.chunkCount
    ensures DataBlob(v, AfterTwo(v, img, true), i) ==
      if Fates(v, img, true)[i] == LostLate then DataBlob(v, img, i) else DataBlob(v, orig, i)
    ensures Fates(v, img, true)[i] in {Clean, Repaired, Rebuilt, LostLate}
    ensures FirstFate(v, img, i) == Pending <==> !Few(v.cr, DataBlob(v, img, i))
  {
    hide FirstImage, SecondImage, Shaped, FirstFate, SecondFate, CodesOk, Original, Detected, DataBlob;
    hide FirstBlob, InBlob, Few, TagsOk;
    hide Enough, PendingIn, At, Fates, Bad;
    var one, fates := FirstImage(v, img, true), FirstFates(v, img);
    FirstKeepsDamaged(v, orig, chunks, img, true);
    FirstUnderDamage(v, orig, chunks, img, i);
    FatesAt(v, img, true, i);
    DataAt(v, img, i);
    DataAt(v, one, i);
    FirstImageAt(v, img, true, Data(i));
    if fates[i] == Pending {
      SecondUnderDamage(v, orig, chunks, one, fates, i);
    }
    DataAt(v, AfterTwo(v, img, true), i);
    SecondImageAt(v, one, fates, true, Data(i));
  }

  lemma AfterTwoParity(v: Vault, img: Image, write: bool, b: Blob)
    requires Opened(v, img) && b.Parity? && InContainer(v.spec, v.chunkCount, b)
    ensures At(v, AfterTwo(v, img, write), b) == At(v, img, b)
  {
    hide FirstImage, SecondImage, InContainer, Shaped, CodesOk, TagsOk, At;
    FirstImageAt(v, img, write, b);
    SecondImageAt(v, FirstImage(v, img, write), FirstFates(v, img), write, b);
  }

  lemma AfterTwoDamaged(v: Vault, orig: Image, chunks: seq<Bytes>, img: Image)
    requires Damaged(v, orig, chunks, img)
    ensures Damaged(v, orig, chunks, AfterTwo(v, img, true))
  {
    hide Original, BlobDetected, Shaped, InContainer, CodesOk, TagsOk, DataBlob, At, AfterTwo;
    var two := AfterTwo(v, img, true);
    forall b | InContainer(v.spec, v.chunkCount, b)
      ensures BlobDetected(v.cr, At(v, orig, b), At(v, two, b))
    {
      DetectedAt(v, orig, img, b);
      if b.Data? {
        DataAtPlace(v, orig, b);
        DataAtPlace(v, img, b);
        DataAtPlace(v, two, b);
        AfterTwoData(v, orig, chunks, img, b.i);
        OriginalBlob(v, orig, chunks, b.i);
        SelfDetected(v.cr, DataBlob(v, orig, b.i));
      } else {
        AfterTwoParity(v, img, true, b);
      }
    }
    DetectedIntro(v, orig, two);
  }

  lemma SelfDetected(cr: Crypto, blob: seq<Slot>)
    requires BlobWord(cr, blob)
    ensures BlobDetected(cr, blob, blob)
  {}

  // ---------- pass 3 ----------

  /** The group's data blobs are the original ones. */
  ghost predicate DataIntact(v: Vault, orig: Image, img: Image, g: nat)
    requires v.spec.Valid() && Shaped(img, v.Total()) && Shaped(orig, v.Total()) && g < v.Groups()
  {
    forall n :: 0 <= n < v.K(g) ==> BlobOf(v, img, g, n) == BlobOf(v, orig, g, n)
  }

  lemma OriginalGroupGood(v: Vault, orig: Image, chunks: seq<Bytes>, g: nat, n: nat)
    requires Opened(v, orig) && Original(v, orig, chunks) && g < v.Groups() && n < v.K(g) + v.M(g)
    ensures AllGood(v.cr, BlobOf(v, orig, g, n))
  {
    hide BlobWord, Shaped, ColumnWord, Good, CodesOk, TagsOk, BlobOf;
    assert WrittenGroup(v.cr, GroupBlobs(v, orig, g), v.K(g));
    assert GroupBlobs(v, orig, g)[n] == BlobOf(v, orig, g, n);
  }

  lemma IntactReady(v: Vault, orig: Image, chunks: seq<Bytes>, img: Image, g: nat)
    requires Damaged(v, orig, chunks, img) && g < v.Groups() && DataIntact(v, orig, img, g)
    ensures ReadyPrefix(v, img, g, WINDOWS) == WINDOWS
  {
    hide Shaped, BlobOf, Original, Detected, CodesOk, TagsOk, ReadyPrefix;
    forall w | 0 <= w < WINDOWS
      ensures DataReady(v, img, g, w)
    {
      forall n | 0 <= n < v.K(g)
        ensures WindowGood(v.cr, BlobOf(v, img, g, n), w)
      {
        OriginalGroupGood(v, orig, chunks, g, n);
      }
    }
  }

  /** Recomputing parity from intact data gives the windows of the original parity. */
  lemma NewParityIsOriginal(v: Vault, orig: Image, chunks: seq<Bytes>, img: Image, g: nat, q: nat, w: nat)
    requires Damaged(v, orig, chunks, img) && g < v.Groups() && DataIntact(v, orig, img, g) && q < v.M(g) && w < WINDOWS
    ensures FileCodesOk(v.cr)
    ensures NewParity(v, img, g, w)[q] == WindowPayload(BlobOf(v, orig, g, v.K(g) + q), w)
  {
    hide Shaped, BlobOf, Original, Detected, FileCodesOk, TagsOk, WindowPayload, WrittenGroup, FileCodeOk;
    CodesParts(v.cr);
    GroupSizes(v, g);
    FileCode(v.cr, v.K(g), v.M(g));
    var full, k := GroupBlobs(v, orig, g), v.K(g);
    OriginalGroup(v, orig, chunks, g);
    WrittenColumns(v.cr, full, k);
    WindowIsWord(v.cr, full, k, w);
    var word := GroupWord(full, w);
    assert full[k + q] == BlobOf(v, orig, g, k + q);
    forall n | 0 <= n < k
      ensures DataWindows(v, img, g, w)[n] == word[n]
    {
      assert full[n] == BlobOf(v, orig, g, n);
    }
    assert DataWindows(v, img, g, w) == word[..k];
    assert word[k + q] == v.cr.file(k, v.M(g)).encode(word[..k])[q];
  }

  lemma OriginalGroup(v: Vault, orig: Image, chunks: seq<Bytes>, g: nat)
    requires Original(v, orig, chunks) && g < v.Groups()
    ensures WrittenGroup(v.cr, GroupBlobs(v, orig, g), v.K(g))
    ensures WholeGroup(GroupBlobs(v, orig, g), v.K(g)) && |GroupBlobs(v, orig, g)| == v.K(g) + v.M(g)
  {
    hide GroupBlobs, WrittenGroup;
  }

  lemma ColumnIsSlot(blob: seq<Slot>, w: nat, c: nat)
    requires Whole(blob) && w < WINDOWS && c < WINDOW
    ensures |WindowPayload(blob, w)| == WINDOW_BYTES
    ensures ColumnOf(WindowPayload(blob, w), c) == blob[w * WINDOW + c].payload
  {
    hide WindowPayload, Start;
    WindowPayloadBlock(blob, w, c);
    StartIsProduct(c, SHARD_SIZE);
  }

  /** Checking a damaged parity blob against its original columns restores it. */
  lemma CheckedIsOriginal(cr: Crypto, orig: seq<Slot>, blob: seq<Slot>, outs: seq<Bytes>)
    requires BlobDetected(cr, orig, blob) && AllGood(cr, orig)
    requires |outs| == WINDOWS && Uniform(outs, WINDOW_BYTES)
    requires forall w :: 0 <= w < WINDOWS ==> outs[w] == WindowPayload(orig, w)
    ensures CheckedBlob(cr, blob, outs) == orig
  {
    hide WindowPayload, ColumnOf, Uniform;
    forall j | 0 <= j < |blob|
      ensures CheckedBlob(cr, blob, outs)[j] == orig[j]
    {
      CheckedSlot(cr, orig, blob, outs, j);
    }
  }

  lemma CheckedSlot(cr: Crypto, orig: seq<Slot>, blob: seq<Slot>, outs: seq<Bytes>, j: nat)
    requires BlobDetected(cr, orig, blob) && AllGood(cr, orig) && j < SHARDS_PER_BLOB
    requires |outs| == WINDOWS && Uniform(outs, WINDOW_BYTES)
    requires forall w :: 0 <= w < WINDOWS ==> outs[w] == WindowPayload(orig, w)
    ensures CheckedBlob(cr, blob, outs)[j] == orig[j]
    ensures blob[j] == orig[j] ==> !WrongSlot(cr, blob[j], ColumnOf(outs[j / WINDOW], j % WINDOW))
  {
    hide WindowPayload, ColumnOf;
    ColumnIsSlot(orig, j / WINDOW, j % WINDOW);
    assert j / WINDOW * WINDOW + j % WINDOW == j;
  }

  /** No group without a lost chunk stops the third pass. */
  lemma {:induction false} NeverAbandoned(v: Vault, orig: Image, chunks: seq<Bytes>, img: Image, fates: seq<Fate>, n: nat)
    requires Damaged(v, orig, chunks, img) && |fates| == v.chunkCount && n <= v.Groups()
    requires forall g :: 0 <= g < v.Groups() && !Skipped(v, fates, g) ==> DataIntact(v, orig, img, g)
    ensures !Abandoned(v, img, fates, n)
    decreases n
  {
    hide Damaged, DataIntact, Skipped, ReadyPrefix, Shaped;
    DamagedParts(v, orig, chunks, img);
    if n == 0 {
    } else {
      NeverAbandoned(v, orig, chunks, img, fates, n - 1);
      if !Skipped(v, fates, n - 1) {
        IntactReady(v, orig, chunks, img, n - 1);
      }
    }
  }

  lemma DamagedParts(v: Vault, orig: Image, chunks: seq<Bytes>, img: Image)
    requires Damaged(v, orig, chunks, img)
    ensures v.spec.Valid() && Shaped(img, v.Total()) && Shaped(orig, v.Total()) && Opened(v, img) && Opened(v, orig)
    ensures TagsOk(v.cr) && IntraOk(v.cr) && FileCodesOk(v.cr)
  {}

  /** Parity of a group whose data is intact is restored. */
  lemma ThirdUnderDamage(v: Vault, orig: Image, chunks: seq<Bytes>, img: Image, fates: seq<Fate>, g: nat, q: nat)
    requires Damaged(v, orig, chunks, img) && |fates| == v.chunkCount && g < v.Groups() && q < v.M(g)
    requires forall h :: 0 <= h < v.Groups() && !Skipped(v, fates, h) ==> DataIntact(v, orig, img, h)
    ensures ThirdBlob(v, img, fates, true, g, q) ==
      BlobOf(v, if Skipped(v, fates, g) then img else orig, g, v.K(g) + q)
  {
    hide Damaged, DataIntact, Skipped, ReadyPrefix, Shaped, Abandoned, CheckedBlob, NewParity, BlobOf;
    hide WindowPayload, BlobDetected, AllGood;
    DamagedParts(v, orig, chunks, img);
    NeverAbandoned(v, orig, chunks, img, fates, g);
    var outs := NewWindows(v, img, g, q, Visited(v, img, fates, g));
    if Skipped(v, fates, g) {
      CheckedNothing(v.cr, BlobOf(v, img, g, v.K(g) + q), outs);
    } else {
      IntactReady(v, orig, chunks, img, g);
      forall w | 0 <= w < WINDOWS
        ensures outs[w] == WindowPayload(BlobOf(v, orig, g, v.K(g) + q), w)
      {
        NewParityIsOriginal(v, orig, chunks, img, g, q, w);
      }
      OriginalGroupGood(v, orig, chunks, g, v.K(g) + q) by { DamagedOriginal(v, orig, chunks, img); }
      ParityDetected(v, orig, chunks, img, g, q);
      CheckedIsOriginal(v.cr, BlobOf(v, orig, g, v.K(g) + q), BlobOf(v, img, g, v.K(g) + q), outs);
    }
  }

  lemma DamagedOriginal(v: Vault, orig: Image, chunks: seq<Bytes>, img: Image)
    requires Damaged(v, orig, chunks, img)
    ensures Original(v, orig, chunks) && Detected(v, orig, img)
  {}

  lemma ParityDetected(v: Vault, orig: Image, chunks: seq<Bytes>, img: Image, g: nat, q: nat)
    requires Damaged(v, orig, chunks, img) && g < v.Groups() && q < v.M(g)
    ensures BlobDetected(v.cr, BlobOf(v, orig, g, v.K(g) + q), BlobOf(v, img, g, v.K(g) + q))
  {
    hide BlobDetected, Shaped;
    GroupNoBound(v, g, v.K(g) + q);
  }

  // ---------- a whole scrub ----------

  lemma SkippedHas(v: Vault, fates: seq<Fate>, i: nat)
    requires v.spec.Valid() && |fates| == v.chunkCount && i < v.chunkCount && fates[i] == LostLate
    ensures i / FILE_GROUP_CHUNKS < v.Groups() && Skipped(v, fates, i / FILE_GROUP_CHUNKS)
  {
    DataNoBound(v, i);
    GroupSizes(v, i / FILE_GROUP_CHUNKS);
  }

  lemma UnskippedFate(v: Vault, fates: seq<Fate>, g: nat, n: nat)
    requires v.spec.Valid() && |fates| == v.chunkCount && g < v.Groups() && n < v.K(g) && !Skipped(v, fates, g)
    ensures g * FILE_GROUP_CHUNKS + n < v.chunkCount && fates[g * FILE_GROUP_CHUNKS + n] != LostLate
  {
    GroupSizes(v, g);
  }

  lemma GroupDataAt(v: Vault, img: Image, g: nat, n: nat)
    requires v.spec.Valid() && Shaped(img, v.Total()) && g < v.Groups() && n < v.K(g)
    ensures g * FILE_GROUP_CHUNKS + n < v.chunkCount
    ensures (g * FILE_GROUP_CHUNKS + n) / FILE_GROUP_CHUNKS == g
    ensures BlobOf(v, img, g, n) == DataBlob(v, img, g * FILE_GROUP_CHUNKS + n)
  {
    GroupSizes(v, g);
  }

  lemma GroupParityAt(v: Vault, img: Image, g: nat, q: nat)
    requires v.spec.Valid() && Shaped(img, v.Total()) && g < v.Groups() && q < v.M(g)
    ensures InContainer(v.spec, v.chunkCount, Parity(g, q))
    ensures BlobOf(v, img, g, v.K(g) + q) == At(v, img, Parity(g, q))
  {
    GroupFacts(v.chunkCount, g);
  }

  /** A group without a late loss has its original data after two passes. */
  lemma UnskippedIntact(v: Vault, orig: Image, chunks: seq<Bytes>, img: Image, g: nat)
    requires Damaged(v, orig, chunks, img) && g < v.Groups() && !Skipped(v, Fates(v, img, true), g)
    ensures DataIntact(v, orig, AfterTwo(v, img, true), g)
  {
    hide Damaged, Shaped, AfterTwo, Fates, FirstFate, Few, BlobOf, DataBlob;
    DamagedParts(v, orig, chunks, img);
    var two, fates := AfterTwo(v, img, true), Fates(v, img, true);
    forall n | 0 <= n < v.K(g)
      ensures BlobOf(v, two, g, n) == BlobOf(v, orig, g, n)
    {
      GroupDataAt(v, two, g, n);
      GroupDataAt(v, orig, g, n);
      var i := g * FILE_GROUP_CHUNKS + n;
      AfterTwoData(v, orig, chunks, img, i);
      UnskippedFate(v, fates, g, n);
    }
  }

  /** The original everywhere except in what the scrub gave up: lost chunks and,
      when parity is rebuilt, the parity of their groups. */
  function Restored(v: Vault, orig: Image, img: Image, parity: bool, b: Blob): seq<Slot>
    requires Opened(v, img) && Opened(v, orig) && InContainer(v.spec, v.chunkCount, b)
  {
    var fates := Fates(v, img, true);
    if b.Data? then At(v, if fates[b.i] == LostLate then img else orig, b)
    else At(v, if !parity || Skipped(v, fates, b.g) then img else orig, b)
  }

  /** Scrub restores byte for byte the data and the parity of every group without
      a lost chunk; in the others it restores every chunk that is not lost and
      leaves the parity as it was. */
  lemma ScrubRestores(v: Vault, orig: Image, chunks: seq<Bytes>, img: Image, parity: bool, b: Blob)
    requires Damaged(v, orig, chunks, img) && InContainer(v.spec, v.chunkCount, b)
    ensures At(v, Scrubbed(v, img, true, parity), b) == Restored(v, orig, img, parity, b)
  {
    hide Damaged, Shaped, AfterTwo, Fates, FirstFate, Few, At, DataBlob, InContainer, ThirdImage, Skipped;
    hide DataIntact, BlobOf, TagsOk, CodesOk;
    DamagedParts(v, orig, chunks, img);
    var two, fates := AfterTwo(v, img, true), Fates(v, img, true);
    AfterTwoDamaged(v, orig, chunks, img);
    ThirdImageAt(v, two, fates, true, b);
    if b.Data? {
      DataAtPlace(v, two, b);
      DataAtPlace(v, img, b);
      DataAtPlace(v, orig, b);
      AfterTwoData(v, orig, chunks, img, b.i);
    } else {
      AfterTwoParity(v, img, true, b);
      if parity {
        ParityRestored(v, orig, chunks, img, b);
      }
    }
  }

  lemma ParityRestored(v: Vault, orig: Image, chunks: seq<Bytes>, img: Image, b: Blob)
    requires Damaged(v, orig, chunks, img) && InContainer(v.spec, v.chunkCount, b) && b.Parity?
    ensures b.g < v.Groups() && b.q < v.M(b.g)
    ensures ThirdBlob(v, AfterTwo(v, img, true), Fates(v, img, true), true, b.g, b.q) ==
      At(v, if Skipped(v, Fates(v, img, true), b.g) then img else orig, b)
  {
    hide Damaged, Shaped, AfterTwo, Fates, At, InContainer, Skipped, DataIntact, BlobOf, TagsOk, CodesOk;
    DamagedParts(v, orig, chunks, img);
    ParityIndex(v, b);
    var two, fates := AfterTwo(v, img, true), Fates(v, img, true);
    AfterTwoDamaged(v, orig, chunks, img);
    forall h | 0 <= h < v.Groups() && !Skipped(v, fates, h)
      ensures DataIntact(v, orig, two, h)
    {
      UnskippedIntact(v, orig, chunks, img, h);
    }
    ThirdUnderDamage(v, orig, chunks, two, fates, b.g, b.q);
    GroupParityAt(v, two, b.g, b.q);
    GroupParityAt(v, orig, b.g, b.q);
    AfterTwoParity(v, img, true, b);
  }

  /** When nothing is lost, the scrubbed container is the original. */
  lemma NothingLost(v: Vault, orig: Image, chunks: seq<Bytes>, img: Image)
    requires Damaged(v, orig, chunks, img)
    requires forall i :: 0 <= i < v.chunkCount ==> Fates(v, img, true)[i] != LostLate
    ensures Scrubbed(v, img, true, true) == orig
  {
    hide Damaged, Shaped, AfterTwo, Fates, At, InContainer, TagsOk, CodesOk, Scrubbed;
    DamagedParts(v, orig, chunks, img);
    forall b | InContainer(v.spec, v.chunkCount, b)
      ensures At(v, Scrubbed(v, img, true, true), b) == At(v, orig, b)
    {
      ScrubRestores(v, orig, chunks, img, true, b);
      if b.Data? {
        DataAtPlace(v, orig, b);
      } else {
        ParityIndex(v, b);
        GroupSizes(v, b.g);
      }
    }
    SameImage(v, Scrubbed(v, img, true, true), orig);
  }

  // ---------- running it again ----------

  /** A chunk's blob as two runs see it: restored, or lost with its group's rest
      as the first run's second pass saw it. */
  lemma AgainFirst(v: Vault, orig: Image, chunks: seq<Bytes>, img: Image, parity: bool, i: nat)
    requires Damaged(v, orig, chunks, img) && i < v.chunkCount
    ensures
      var r := Scrubbed(v, img, true, parity);
      && DataBlob(v, r, i) == (if Fates(v, img, true)[i] == LostLate then DataBlob(v, img, i) else DataBlob(v, orig, i))
      && FirstFate(v, r, i) == (if Fates(v, img, true)[i] == LostLate then Pending else Clean)
  {
    hide Damaged, Shaped, AfterTwo, Fates, At, DataBlob, TagsOk, CodesOk, Scrubbed, FirstFate, Few, FirstImage;
    DamagedParts(v, orig, chunks, img);
    var r, fates := Scrubbed(v, img, true, parity), Fates(v, img, true);
    ScrubKeepsDamaged(v, orig, chunks, img, parity);
    DataAt(v, r, i);
    DataAt(v, img, i);
    DataAt(v, orig, i);
    ScrubRestores(v, orig, chunks, img, parity, Data(i));
    FirstUnderDamage(v, orig, chunks, r, i);
    FirstUnderDamage(v, orig, chunks, img, i);
    FatesAt(v, img, true, i);
    if fates[i] != LostLate {
      DamagedOriginal(v, orig, chunks, img);
      OriginalBlob(v, orig, chunks, i);
      NoneBad(v.cr, DataBlob(v, orig, i));
      NoBadIsFew(v.cr, DataBlob(v, orig, i));
    }
  }

  lemma NoBadIsFew(cr: Crypto, blob: seq<Slot>)
    requires Bad(cr, blob) == []
    ensures Few(cr, blob)
  {}

  lemma ScrubKeepsDamaged(v: Vault, orig: Image, chunks: seq<Bytes>, img: Image, parity: bool)
    requires Damaged(v, orig, chunks, img)
    ensures Damaged(v, orig, chunks, Scrubbed(v, img, true, parity))
  {
    hide Original, Shaped, InContainer, At, CodesOk, TagsOk, Scrubbed, BlobDetected, Fates, Skipped;
    forall b | InContainer(v.spec, v.chunkCount, b)
      ensures BlobDetected(v.cr, At(v, orig, b), At(v, Scrubbed(v, img, true, parity), b))
    {
      DetectedAt(v, orig, img, b);
      OriginalDetected(v, orig, img, b);
      ScrubRestores(v, orig, chunks, img, parity, b);
    }
    DetectedIntro(v, orig, Scrubbed(v, img, true, parity));
  }

  lemma OriginalDetected(v: Vault, orig: Image, img: Image, b: Blob)
    requires Detected(v, orig, img) && InContainer(v.spec, v.chunkCount, b)
    ensures BlobDetected(v.cr, At(v, orig, b), At(v, orig, b))
  {
    hide Shaped, Place, InContainer;
    PlaceIsValid(v.spec, v.chunkCount, b);
  }

  /** The first pass of a second run writes nothing. */
  lemma AgainFirstImage(v: Vault, orig: Image, chunks: seq<Bytes>, img: Image, parity: bool)
    requires Damaged(v, orig, chunks, img)
    ensures Opened(v, Scrubbed(v, img, true, parity))
    ensures FirstImage(v, Scrubbed(v, img, true, parity), true) == Scrubbed(v, img, true, parity)
  {
    hide Damaged, Shaped, AfterTwo, Fates, At, DataBlob, InContainer, Scrubbed, FirstFate, FirstImage, InBlob;
    DamagedParts(v, orig, chunks, img);
    var r := Scrubbed(v, img, true, parity);
    forall b | InContainer(v.spec, v.chunkCount, b)
      ensures At(v, FirstImage(v, r, true), b) == At(v, r, b)
    {
      FirstImageAt(v, r, true, b);
      if b.Data? {
        DataAtPlace(v, r, b);
        AgainFirst(v, orig, chunks, img, parity, b.i);
      }
    }
    SameImage(v, FirstImage(v, r, true), r);
  }

  /** A lost chunk's group looks to the second run as it did to the first. */
  lemma AgainGroup(v: Vault, orig: Image, chunks: seq<Bytes>, img: Image, parity: bool, g: nat)
    requires Damaged(v, orig, chunks, img) && g < v.Groups() && Skipped(v, Fates(v, img, true), g)
    ensures GroupBlobs(v, Scrubbed(v, img, true, parity), g) == GroupBlobs(v, FirstImage(v, img, true), g)
  {
    hide Damaged, Shaped, Fates, FirstImage, Scrubbed, BlobOf, Skipped, TagsOk, CodesOk;
    DamagedParts(v, orig, chunks, img);
    var r, one := Scrubbed(v, img, true, parity), FirstImage(v, img, true);
    forall n | 0 <= n < v.K(g) + v.M(g)
      ensures BlobOf(v, r, g, n) == BlobOf(v, one, g, n)
    {
      if n < v.K(g) {
        AgainData(v, orig, chunks, img, parity, g, n);
      } else {
        AgainParity(v, orig, chunks, img, parity, g, n - v.K(g));
      }
    }
  }

  lemma AgainParity(v: Vault, orig: Image, chunks: seq<Bytes>, img: Image, parity: bool, g: nat, q: nat)
    requires Damaged(v, orig, chunks, img) && g < v.Groups() && q < v.M(g) && Skipped(v, Fates(v, img, true), g)
    ensures BlobOf(v, Scrubbed(v, img, true, parity), g, v.K(g) + q) == BlobOf(v, FirstImage(v, img, true), g, v.K(g) + q)
  {
    hide Damaged, Shaped, Fates, FirstImage, Scrubbed, BlobOf, Skipped, TagsOk, CodesOk, InContainer, At;
    DamagedParts(v, orig, chunks, img);
    var r, one := Scrubbed(v, img, true, parity), FirstImage(v, img, true);
    GroupParityAt(v, r, g, q);
    GroupParityAt(v, one, g, q);
    ScrubRestores(v, orig, chunks, img, parity, Parity(g, q));
    FirstImageAt(v, img, true, Parity(g, q));
  }

  /** A skipped group has lost every chunk that was pending. */
  lemma SkippedLosesAll(v: Vault, orig: Image, chunks: seq<Bytes>, img: Image, g: nat, n: nat)
    requires Damaged(v, orig, chunks, img) && g < v.Groups() && n < v.K(g) && Skipped(v, Fates(v, img, true), g)
    ensures g * FILE_GROUP_CHUNKS + n < v.chunkCount
    ensures Fates(v, img, true)[g * FILE_GROUP_CHUNKS + n] == LostLate <==> FirstFate(v, img, g * FILE_GROUP_CHUNKS + n) == Pending
  {
    hide Damaged, Shaped, FirstImage, FirstFate, SecondFate, Enough, PendingIn, TagsOk, CodesOk, DataBlob, Few;
    DamagedParts(v, orig, chunks, img);
    GroupSizes(v, g);
    var one, fates := FirstImage(v, img, true), FirstFates(v, img);
    FirstKeepsDamaged(v, orig, chunks, img, true);
    var i :| g * FILE_GROUP_CHUNKS <= i < g * FILE_GROUP_CHUNKS + v.K(g) && Fates(v, img, true)[i] == LostLate;
    PositionBound(v, g, i - g * FILE_GROUP_CHUNKS);
    PositionBound(v, g, n);
    FatesAt(v, img, true, i);
    AfterTwoData(v, orig, chunks, img, i);
    NotPendingNotLost(v, orig, chunks, img, i);
    SecondUnderDamage(v, orig, chunks, one, fates, i);
    FatesAt(v, img, true, g * FILE_GROUP_CHUNKS + n);
    NotPendingNotLost(v, orig, chunks, img, g * FILE_GROUP_CHUNKS + n);
    if fates[g * FILE_GROUP_CHUNKS + n] == Pending {
      SecondUnderDamage(v, orig, chunks, one, fates, g * FILE_GROUP_CHUNKS + n);
    }
  }

  lemma NotPendingNotLost(v: Vault, orig: Image, chunks: seq<Bytes>, img: Image, i: nat)
    requires Damaged(v, orig, chunks, img) && i < v.chunkCount
    ensures Fates(v, img, true)[i] == LostLate ==> FirstFate(v, img, i) == Pending
  {
    hide Damaged, Shaped, FirstImage, FirstFate, Few, DataBlob, Fates;
    DamagedParts(v, orig, chunks, img);
    FatesAt(v, img, true, i);
    FirstUnderDamage(v, orig, chunks, img, i);
  }

  lemma AgainData(v: Vault, orig: Image, chunks: seq<Bytes>, img: Image, parity: bool, g: nat, n: nat)
    requires Damaged(v, orig, chunks, img) && g < v.Groups() && n < v.K(g) && Skipped(v, Fates(v, img, true), g)
    ensures BlobOf(v, Scrubbed(v, img, true, parity), g, n) == BlobOf(v, FirstImage(v, img, true), g, n)
  {
    hide Damaged, Shaped, Fates, FirstImage, Scrubbed, BlobOf, Skipped, TagsOk, CodesOk, InContainer, At;
    hide DataBlob, Few, FirstFate, FirstBlob;
    DamagedParts(v, orig, chunks, img);
    var r, one := Scrubbed(v, img, true, parity), FirstImage(v, img, true);
    GroupDataAt(v, r, g, n);
    GroupDataAt(v, one, g, n);
    var i := g * FILE_GROUP_CHUNKS + n;
    AgainFirst(v, orig, chunks, img, parity, i);
    SkippedLosesAll(v, orig, chunks, img, g, n);
    FirstUnderDamage(v, orig, chunks, img, i);
    DataAt(v, one, i);
    FirstImageAt(v, img, true, Data(i));
  }

  /** The second run finds the same chunks lost and every other chunk clean. */
  lemma AgainFates(v: Vault, orig: Image, chunks: seq<Bytes>, img: Image, parity: bool, i: nat)
    requires Damaged(v, orig, chunks, img) && i < v.chunkCount
    ensures Opened(v, Scrubbed(v, img, true, parity))
    ensures Fates(v, Scrubbed(v, img, true, parity), true)[i] == if Fates(v, img, true)[i] == LostLate then LostLate else Clean
  {
    hide Damaged, Shaped, Fates, FirstImage, Scrubbed, BlobOf, Skipped, TagsOk, CodesOk, FirstFate, DataBlob, Few;
    DamagedParts(v, orig, chunks, img);
    var r := Scrubbed(v, img, true, parity);
    AgainFirst(v, orig, chunks, img, parity, i);
    FatesAt(v, r, true, i);
    if Fates(v, img, true)[i] == LostLate {
      AgainLost(v, orig, chunks, img, parity, i);
    }
  }

  lemma AgainPending(v: Vault, orig: Image, chunks: seq<Bytes>, img: Image, parity: bool, g: nat)
    requires Damaged(v, orig, chunks, img) && g < v.Groups() && Skipped(v, Fates(v, img, true), g)
    ensures g * FILE_GROUP_CHUNKS + v.K(g) <= v.chunkCount
    ensures PendingIn(FirstFates(v, Scrubbed(v, img, true, parity)), g, v.K(g)) == PendingIn(FirstFates(v, img), g, v.K(g))
  {
    hide Damaged, Shaped, Fates, FirstImage, Scrubbed, BlobOf, Skipped, TagsOk, CodesOk, FirstFate, DataBlob, Few;
    DamagedParts(v, orig, chunks, img);
    GroupSizes(v, g);
    var a, b := FirstFates(v, Scrubbed(v, img, true, parity)), FirstFates(v, img);
    forall pos | 0 <= pos < v.K(g)
      ensures IsPending(a, g, pos) == IsPending(b, g, pos)
    {
      PositionBound(v, g, pos);
      AgainFirst(v, orig, chunks, img, parity, g * FILE_GROUP_CHUNKS + pos);
      SkippedLosesAll(v, orig, chunks, img, g, pos);
    }
  }

  lemma AgainLost(v: Vault, orig: Image, chunks: seq<Bytes>, img: Image, parity: bool, i: nat)
    requires Damaged(v, orig, chunks, img) && i < v.chunkCount && Fates(v, img, true)[i] == LostLate
    ensures Opened(v, Scrubbed(v, img, true, parity))
    ensures Fates(v, Scrubbed(v, img, true, parity), true)[i] == LostLate
  {
    hide Damaged, Shaped, Fates, FirstImage, Scrubbed, Skipped, TagsOk, CodesOk, FirstFate, DataBlob, Few;
    hide SecondFate, PendingIn, GroupBlobs;
    hide EnoughShards, FirstFates;
    DamagedParts(v, orig, chunks, img);
    var r, one := Scrubbed(v, img, true, parity), FirstImage(v, img, true);
    var a, b := FirstFates(v, r), FirstFates(v, img);
    var g := i / FILE_GROUP_CHUNKS;
    SkippedHas(v, Fates(v, img, true), i);
    FirstKeepsDamaged(v, orig, chunks, img, true);
    ScrubKeepsDamaged(v, orig, chunks, img, parity);
    AgainFirst(v, orig, chunks, img, parity, i);
    NotPendingNotLost(v, orig, chunks, img, i);
    AgainFirstImage(v, orig, chunks, img, parity);
    FatesAt(v, img, true, i);
    FatesAt(v, r, true, i);
    SecondUnderDamage(v, orig, chunks, one, b, i);
    SecondUnderDamage(v, orig, chunks, r, a, i);
    AgainGroup(v, orig, chunks, img, parity, g);
    AgainPending(v, orig, chunks, img, parity, g);
  }

  /** A second run changes nothing. */
  lemma ScrubIdempotent(v: Vault, orig: Image, chunks: seq<Bytes>, img: Image, parity: bool)
    requires Damaged(v, orig, chunks, img)
    ensures Opened(v, Scrubbed(v, img, true, parity))
    ensures Scrubbed(v, Scrubbed(v, img, true, parity), true, parity) == Scrubbed(v, img, true, parity)
  {
    hide Damaged, Shaped, Fates, Scrubbed, TagsOk, CodesOk, InContainer, At, Skipped;
    DamagedParts(v, orig, chunks, img);
    var r := Scrubbed(v, img, true, parity);
    ScrubKeepsDamaged(v, orig, chunks, img, parity);
    forall b | InContainer(v.spec, v.chunkCount, b)
      ensures At(v, Scrubbed(v, r, true, parity), b) == At(v, r, b)
    {
      ScrubRestores(v, orig, chunks, img, parity, b);
      ScrubRestores(v, orig, chunks, r, parity, b);
      if b.Data? {
        DataAtPlace(v, r, b);
        AgainFates(v, orig, chunks, img, parity, b.i);
      } else {
        ParityIndex(v, b);
        AgainSkipped(v, orig, chunks, img, parity, b.g);
      }
    }
    SameImage(v, Scrubbed(v, r, true, parity), r);
  }

  lemma AgainSkipped(v: Vault, orig: Image, chunks: seq<Bytes>, img: Image, parity: bool, g: nat)
    requires Damaged(v, orig, chunks, img) && g < v.Groups()
    ensures Opened(v, Scrubbed(v, img, true, parity))
    ensures Skipped(v, Fates(v, Scrubbed(v, img, true, parity), true), g) == Skipped(v, Fates(v, img, true), g)
  {
    hide Damaged, Shaped, Fates, Scrubbed, TagsOk, CodesOk;
    DamagedParts(v, orig, chunks, img);
    GroupSizes(v, g);
    forall i | g * FILE_GROUP_CHUNKS <= i < g * FILE_GROUP_CHUNKS + v.K(g)
      ensures Fates(v, Scrubbed(v, img, true, parity), true)[i] == LostLate <==> Fates(v, img, true)[i] == LostLate
    {
      AgainFates(v, orig, chunks, img, parity, i);
    }
  }

  // ---------- the second run's report ----------

  lemma {:induction false} CountAgain(a: seq<Fate>, b: seq<Fate>, n: nat)
    requires n <= |a| == |b| && (forall i :: 0 <= i < |a| ==> a[i] in {Clean, Repaired, Rebuilt, LostLate})
    requires forall i :: 0 <= i < |a| ==> b[i] == if a[i] == LostLate then LostLate else Clean
    ensures Count(b, Clean, n) == Count(a, Clean, n) + Count(a, Repaired, n) + Count(a, Rebuilt, n)
    ensures Count(b, Repaired, n) == 0 && Count(b, Rebuilt, n) == 0
    ensures Indices(b, LostLate, n) == Indices(a, LostLate, n)
    ensures Indices(b, LostEarly, n) == [] && Indices(a, LostEarly, n) == []
    decreases n
  {
    if n == 0 {
    } else {
      CountAgain(a, b, n - 1);
      assert b[n - 1] == if a[n - 1] == LostLate then LostLate else Clean;
    }
  }

  lemma {:induction false} NothingRepaired(v: Vault, orig: Image, chunks: seq<Bytes>, img: Image, parity: bool, n: nat)
    requires Damaged(v, orig, chunks, img) && n <= v.chunkCount
    ensures Opened(v, Scrubbed(v, img, true, parity))
    ensures RepairedSlots(v, Scrubbed(v, img, true, parity), n) == 0
    decreases n
  {
    hide Damaged, Shaped, Fates, Scrubbed, TagsOk, CodesOk, FirstFate, DataBlob, Bad;
    DamagedParts(v, orig, chunks, img);
    if n == 0 {
    } else {
      NothingRepaired(v, orig, chunks, img, parity, n - 1);
      AgainFirst(v, orig, chunks, img, parity, n - 1);
    }
  }

  /** Original parity is not reported wrong. */
  lemma {:induction false} RowClean(cr: Crypto, orig: seq<Slot>, w: nat, out: Bytes, n: nat)
    requires Whole(orig) && AllGood(cr, orig) && w < WINDOWS && out == WindowPayload(orig, w) && |out| == WINDOW_BYTES && n <= WINDOW
    ensures RowBad(cr, orig, w, out, n) == 0
    decreases n
  {
    hide WindowPayload, ColumnOf;
    if n == 0 {
    } else {
      RowClean(cr, orig, w, out, n - 1);
      ColumnIsSlot(orig, w, n - 1);
    }
  }

  lemma {:induction false} WindowClean(v: Vault, orig: Image, chunks: seq<Bytes>, img: Image, g: nat, w: nat, n: nat)
    requires Damaged(v, orig, chunks, img) && g < v.Groups() && DataIntact(v, orig, img, g) && w < WINDOWS && n <= v.M(g)
    requires forall q :: v.K(g) <= q < v.K(g) + v.M(g) ==> BlobOf(v, img, g, q) == BlobOf(v, orig, g, q)
    ensures FileCodesOk(v.cr)
    ensures WindowBad(v, img, g, w, n) == 0
    decreases n
  {
    hide Damaged, Shaped, BlobOf, DataIntact, NewParity, WindowPayload, RowBad, FileCodesOk, AllGood, Original;
    DamagedParts(v, orig, chunks, img);
    if n == 0 {
    } else {
      var q := v.K(g) + n - 1;
      WindowClean(v, orig, chunks, img, g, w, n - 1);
      NewParityIsOriginal(v, orig, chunks, img, g, n - 1, w);
      DamagedOriginal(v, orig, chunks, img);
      OriginalGroupGood(v, orig, chunks, g, q);
      RowClean(v.cr, BlobOf(v, orig, g, q), w, NewParity(v, img, g, w)[n - 1], WINDOW);
    }
  }

  lemma {:induction false} GroupClean(v: Vault, orig: Image, chunks: seq<Bytes>, img: Image, g: nat, n: nat)
    requires Damaged(v, orig, chunks, img) && g < v.Groups() && DataIntact(v, orig, img, g) && n <= WINDOWS
    requires forall q :: v.K(g) <= q < v.K(g) + v.M(g) ==> BlobOf(v, img, g, q) == BlobOf(v, orig, g, q)
    ensures FileCodesOk(v.cr)
    ensures GroupBad(v, img, g, n) == 0
    decreases n
  {
    hide Damaged, Shaped, BlobOf, DataIntact, WindowBad, FileCodesOk;
    DamagedParts(v, orig, chunks, img);
    if n == 0 {
    } else {
      GroupClean(v, orig, chunks, img, g, n - 1);
      WindowClean(v, orig, chunks, img, g, n - 1, v.M(g));
    }
  }

  /** After a scrub with parity, no parity of a group without losses is wrong. */
  lemma {:induction false} ParityClean(v: Vault, orig: Image, chunks: seq<Bytes>, img: Image, n: nat)
    requires Damaged(v, orig, chunks, img) && n <= v.Groups()
    ensures Opened(v, Scrubbed(v, img, true, true)) && FileCodesOk(v.cr)
    ensures ParityBad(v, AfterTwo(v, Scrubbed(v, img, true, true), true), Fates(v, Scrubbed(v, img, true, true), true), n) == 0
    decreases n
  {
    hide Damaged, Shaped, BlobOf, DataIntact, GroupBad, FileCodesOk, Fates, AfterTwo, Scrubbed, Skipped;
    hide Abandoned, TagsOk, CodesOk;
    DamagedParts(v, orig, chunks, img);
    ScrubKeepsDamaged(v, orig, chunks, img, true);
    var r := Scrubbed(v, img, true, true);
    var two, fates := AfterTwo(v, r, true), Fates(v, r, true);
    AfterTwoDamaged(v, orig, chunks, r);
    DamagedParts(v, orig, chunks, two);
    if n == 0 {
    } else {
      ParityClean(v, orig, chunks, img, n - 1);
      if Skipped(v, fates, n - 1) {
        NothingInNoWindows(v, two, n - 1);
      } else {
        UnskippedIntact(v, orig, chunks, r, n - 1);
        UnskippedParity(v, orig, chunks, img, n - 1);
        GroupClean(v, orig, chunks, two, n - 1, Visited(v, two, fates, n - 1));
      }
    }
  }

  lemma NothingInNoWindows(v: Vault, img: Image, g: nat)
    requires v.spec.Valid() && Shaped(img, v.Total()) && FileCodesOk(v.cr) && g < v.Groups()
    ensures GroupBad(v, img, g, 0) == 0
  {}

  lemma UnskippedParity(v: Vault, orig: Image, chunks: seq<Bytes>, img: Image, g: nat)
    requires Damaged(v, orig, chunks, img) && g < v.Groups() && Opened(v, Scrubbed(v, img, true, true))
    requires !Skipped(v, Fates(v, Scrubbed(v, img, true, true), true), g)
    ensures forall q :: v.K(g) <= q < v.K(g) + v.M(g) ==>
      BlobOf(v, AfterTwo(v, Scrubbed(v, img, true, true), true), g, q) == BlobOf(v, orig, g, q)
  {
    hide Damaged, Shaped, BlobOf, Fates, AfterTwo, Scrubbed, Skipped, TagsOk, CodesOk, InContainer, At;
    DamagedParts(v, orig, chunks, img);
    var r := Scrubbed(v, img, true, true);
    var two := AfterTwo(v, r, true);
    AgainSkipped(v, orig, chunks, img, true, g);
    forall q | v.K(g) <= q < v.K(g) + v.M(g)
      ensures BlobOf(v, two, g, q) == BlobOf(v, orig, g, q)
    {
      var p := q - v.K(g);
      GroupParityAt(v, two, g, p);
      GroupParityAt(v, orig, g, p);
      AfterTwoParity(v, r, true, Parity(g, p));
      ScrubRestores(v, orig, chunks, img, true, Parity(g, p));
    }
  }

  /** The second run of a scrub repairs, rebuilds and fixes nothing, finds clean
      what the first left readable, and reports the same chunks lost. */
  lemma SecondReport(v: Vault, orig: Image, chunks: seq<Bytes>, img: Image, parity: bool)
    requires Damaged(v, orig, chunks, img)
    ensures Opened(v, Scrubbed(v, img, true, parity))
    ensures
      var first, second := ReportOf(v, img, true, parity), ReportOf(v, Scrubbed(v, img, true, parity), true, parity);
      && second.clean == first.clean + first.repaired + first.rebuilt
      && second.repaired == 0 && second.rebuilt == 0 && second.shardsRepaired == 0
      && second.lost == first.lost
      && second.paritySlotsBad == 0 && second.parityShardsFixed == 0
  {
    hide Damaged, Shaped, Fates, AfterTwo, Scrubbed, TagsOk, CodesOk, ParityBad, Count, Indices;
    hide RepairedSlots, BadSlots, DataBlob, FirstFate, Few;
    DamagedParts(v, orig, chunks, img);
    var r := Scrubbed(v, img, true, parity);
    var a, b := Fates(v, img, true), Fates(v, r, true);
    AgainOpened(v, orig, chunks, img, parity);
    forall i | 0 <= i < v.chunkCount
      ensures a[i] in {Clean, Repaired, Rebuilt, LostLate}
      ensures b[i] == if a[i] == LostLate then LostLate else Clean
    {
      AfterTwoData(v, orig, chunks, img, i);
      AgainFates(v, orig, chunks, img, parity, i);
    }
    CountAgain(a, b, v.chunkCount);
    NothingRepaired(v, orig, chunks, img, parity, v.chunkCount);
    if parity {
      ParityClean(v, orig, chunks, img, v.Groups());
    }
  }

  lemma AgainOpened(v: Vault, orig: Image, chunks: seq<Bytes>, img: Image, parity: bool)
    requires Damaged(v, orig, chunks, img)
    ensures Opened(v, Scrubbed(v, img, true, parity))
  {}
}

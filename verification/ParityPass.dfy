/** Exactly which groups the third pass of a scrub checks, for arbitrary files, and
    what it makes of a group with a chunk that the first pass lost. */
module ParityPass {
  import opened Bytes
  import opened Layout
  import opened Vault
  import opened Repair
  import opened Encoder
  import opened ScrubSpec
  import opened ScrubTheorems

  // ---------- the data blobs the third pass reads ----------

  lemma FirstFateKinds(v: Vault, img: Image, i: nat)
    requires v.spec.Valid() && Shaped(img, v.Total()) && i < v.chunkCount
    ensures FirstFate(v, img, i) in {Clean, Repaired, LostEarly, Pending}
  {
    hide Shaped, InBlob, DecodeChunk, DataBlob, Bad;
  }

  /** After two writing passes the blobs of lost and of clean chunks are what they
      were, and unless the chunk is lost all tags of its blob verify, whatever the
      file held. */
  lemma AfterTwoBlob(v: Vault, img: Image, i: nat)
    requires Opened(v, img) && i < v.chunkCount
    ensures Fates(v, img, true)[i] in {Clean, Repaired, Rebuilt, LostEarly, LostLate}
    ensures Fates(v, img, true)[i] == LostEarly <==> FirstFate(v, img, i) == LostEarly
    ensures Fates(v, img, true)[i] in {Clean, LostEarly, LostLate} ==>
      DataBlob(v, AfterTwo(v, img, true), i) == DataBlob(v, img, i)
    ensures Fates(v, img, true)[i] in {Clean, Repaired, Rebuilt} ==> AllGood(v.cr, DataBlob(v, AfterTwo(v, img, true), i))
  {
    hide Shaped, FirstImage, SecondImage, FirstFate, SecondFate, DataBlob, TagsOk, CodesOk, Fates, At, AllGood;
    hide FirstBlob, SecondBlob;
    var one, fates := FirstImage(v, img, true), FirstFates(v, img);
    FatesAt(v, img, true, i);
    FirstFateKinds(v, img, i);
    DataAt(v, img, i);
    DataAt(v, one, i);
    DataAt(v, AfterTwo(v, img, true), i);
    FirstImageAt(v, img, true, Data(i));
    SecondImageAt(v, one, fates, true, Data(i));
    FirstBlobGood(v, img, i);
    SecondBlobGood(v, one, fates, i);
  }

  lemma FirstBlobGood(v: Vault, img: Image, i: nat)
    requires Opened(v, img) && i < v.chunkCount
    ensures FirstFate(v, img, i) in {Clean, Repaired} ==> AllGood(v.cr, FirstBlob(v, img, true, i))
    ensures FirstFate(v, img, i) in {Clean, Pending, LostEarly} ==> FirstBlob(v, img, true, i) == DataBlob(v, img, i)
  {
    hide Shaped, InBlob, DecodeChunk, DataBlob, Bad, TagsOk, CodesOk;
    NoneBad(v.cr, DataBlob(v, img, i));
  }

  lemma SecondBlobGood(v: Vault, img: Image, fates: seq<Fate>, i: nat)
    requires Opened(v, img) && |fates| == v.chunkCount && i < v.chunkCount
    ensures fates[i] == Pending && SecondFate(v, img, fates, i) == Rebuilt ==>
      AllGood(v.cr, SecondBlob(v, img, fates, true, i))
    ensures !(fates[i] == Pending && SecondFate(v, img, fates, i) == Rebuilt) ==>
      SecondBlob(v, img, fates, true, i) == DataBlob(v, img, i)
  {
    hide Shaped, SecondPayloads, SecondFate, DecodeChunk, DataBlob, TagsOk, CodesOk, Whole;
  }

  /** If the first pass lost chunk i, window w of its blob verifies. */
  predicate WindowUnlessEarly(v: Vault, img: Image, i: nat, w: nat)
    requires v.spec.Valid() && Shaped(img, v.Total()) && i < v.chunkCount && w < WINDOWS
  {
    FirstFate(v, img, i) == LostEarly ==> WindowGood(v.cr, DataBlob(v, img, i), w)
  }

  /** If the first pass lost chunk i, every tag of its blob verifies. */
  predicate GoodUnlessEarly(v: Vault, img: Image, i: nat)
    requires v.spec.Valid() && Shaped(img, v.Total()) && i < v.chunkCount
  {
    FirstFate(v, img, i) == LostEarly ==> Bad(v.cr, DataBlob(v, img, i)) == []
  }

  /** Window w verifies in every blob of the group that the first pass lost. */
  predicate EarlyReady(v: Vault, img: Image, g: nat, w: nat)
    requires v.spec.Valid() && Shaped(img, v.Total()) && g < v.Groups() && w < WINDOWS
  {
    GroupSizes(v, g);
    forall i: nat :: g * FILE_GROUP_CHUNKS <= i < g * FILE_GROUP_CHUNKS + v.K(g) ==> WindowUnlessEarly(v, img, i, w)
  }

  /** Every tag verifies in every blob of the group that the first pass lost. */
  predicate EarlyVerifies(v: Vault, img: Image, g: nat)
    requires v.spec.Valid() && Shaped(img, v.Total()) && g < v.Groups()
  {
    GroupSizes(v, g);
    forall i: nat :: g * FILE_GROUP_CHUNKS <= i < g * FILE_GROUP_CHUNKS + v.K(g) ==> GoodUnlessEarly(v, img, i)
  }

  /** A window of a group is ready for the third pass exactly when it verifies in
      the blobs lost early: every other blob verifies as a whole. */
  lemma ReadyIff(v: Vault, img: Image, g: nat, w: nat)
    requires Opened(v, img) && g < v.Groups() && w < WINDOWS && !Skipped(v, Fates(v, img, true), g)
    ensures DataReady(v, AfterTwo(v, img, true), g, w) <==> EarlyReady(v, img, g, w)
  {
    hide Shaped, AfterTwo, WindowUnlessEarly, BlobOf, WindowGood, TagsOk, CodesOk, Skipped, Fates;
    GroupSizes(v, g);
    var two, base := AfterTwo(v, img, true), g * FILE_GROUP_CHUNKS;
    forall n: nat | n < v.K(g)
      ensures WindowGood(v.cr, BlobOf(v, two, g, n), w) <==> WindowUnlessEarly(v, img, base + n, w)
    {
      BlobReadyIff(v, img, g, n, w);
    }
    if DataReady(v, two, g, w) {
      forall i: nat | base <= i < base + v.K(g)
        ensures WindowUnlessEarly(v, img, i, w)
      {
        assert WindowGood(v.cr, BlobOf(v, two, g, i - base), w);
      }
    }
  }

  lemma BlobReadyIff(v: Vault, img: Image, g: nat, n: nat, w: nat)
    requires Opened(v, img) && g < v.Groups() && n < v.K(g) && w < WINDOWS && !Skipped(v, Fates(v, img, true), g)
    ensures g * FILE_GROUP_CHUNKS + n < v.chunkCount
    ensures WindowGood(v.cr, BlobOf(v, AfterTwo(v, img, true), g, n), w) <==>
      WindowUnlessEarly(v, img, g * FILE_GROUP_CHUNKS + n, w)
  {
    hide Shaped, AfterTwo, Fates, FirstFate, DataBlob, BlobOf, WindowGood, TagsOk, CodesOk, Skipped, AllGood;
    var two := AfterTwo(v, img, true);
    GroupDataAt(v, two, g, n);
    UnskippedFate(v, Fates(v, img, true), g, n);
    AfterTwoBlob(v, img, g * FILE_GROUP_CHUNKS + n);
    GoodEverywhere(v.cr, DataBlob(v, two, g * FILE_GROUP_CHUNKS + n), w);
  }

  lemma GoodEverywhere(cr: Crypto, blob: seq<Slot>, w: nat)
    requires Whole(blob) && w < WINDOWS
    ensures AllGood(cr, blob) ==> WindowGood(cr, blob, w)
  {}

  lemma WindowsCover(cr: Crypto, blob: seq<Slot>)
    requires Whole(blob)
    ensures Bad(cr, blob) == [] <==> forall w: nat :: w < WINDOWS ==> WindowGood(cr, blob, w)
  {
    hide Good;
    NoneBad(cr, blob);
    if forall w: nat :: w < WINDOWS ==> WindowGood(cr, blob, w) {
      forall j | 0 <= j < |blob|
        ensures Good(cr, blob[j])
      {
        assert WindowGood(cr, blob, j / WINDOW);
      }
    }
  }

  lemma ChunkReadyEverywhere(v: Vault, img: Image, i: nat)
    requires v.spec.Valid() && Shaped(img, v.Total()) && i < v.chunkCount
    ensures GoodUnlessEarly(v, img, i) <==> forall w: nat :: w < WINDOWS ==> WindowUnlessEarly(v, img, i, w)
  {
    hide Shaped, FirstFate, DataBlob, Bad, WindowGood;
    WindowsCover(v.cr, DataBlob(v, img, i));
    if FirstFate(v, img, i) == LostEarly && forall w: nat :: w < WINDOWS ==> WindowUnlessEarly(v, img, i, w) {
      forall w: nat | w < WINDOWS
        ensures WindowGood(v.cr, DataBlob(v, img, i), w)
      {
        assert WindowUnlessEarly(v, img, i, w);
      }
    }
  }

  lemma EarlyReadyEverywhere(v: Vault, img: Image, g: nat)
    requires v.spec.Valid() && Shaped(img, v.Total()) && g < v.Groups()
    ensures EarlyVerifies(v, img, g) <==> forall w: nat :: w < WINDOWS ==> EarlyReady(v, img, g, w)
  {
    hide Shaped, WindowUnlessEarly, GoodUnlessEarly, Spec.TotalBlobCount;
    GroupSizes(v, g);
    var base := g * FILE_GROUP_CHUNKS;
    var end := base + v.K(g);
    if EarlyVerifies(v, img, g) {
      forall w: nat | w < WINDOWS
        ensures EarlyReady(v, img, g, w)
      {
        forall i: nat | base <= i < end
          ensures WindowUnlessEarly(v, img, i, w)
        {
          ChunkReadyEverywhere(v, img, i);
        }
      }
    }
    if forall w: nat :: w < WINDOWS ==> EarlyReady(v, img, g, w) {
      forall i: nat | base <= i < end
        ensures GoodUnlessEarly(v, img, i)
      {
        ReadyChunkGood(v, img, g, i);
      }
    }
  }

  lemma ReadyChunkGood(v: Vault, img: Image, g: nat, i: nat)
    requires v.spec.Valid() && Shaped(img, v.Total()) && g < v.Groups() && i < v.chunkCount
    requires g * FILE_GROUP_CHUNKS <= i < g * FILE_GROUP_CHUNKS + v.K(g)
    requires forall w: nat :: w < WINDOWS ==> EarlyReady(v, img, g, w)
    ensures GoodUnlessEarly(v, img, i)
  {
    hide Shaped, WindowUnlessEarly, GoodUnlessEarly, Spec.TotalBlobCount, EarlyReady;
    forall w: nat | w < WINDOWS
      ensures WindowUnlessEarly(v, img, i, w)
    {
      EarlyReadyAt(v, img, g, w, i);
    }
    ChunkReadyEverywhere(v, img, i);
  }

  lemma EarlyReadyAt(v: Vault, img: Image, g: nat, w: nat, i: nat)
    requires v.spec.Valid() && Shaped(img, v.Total()) && g < v.Groups() && i < v.chunkCount && w < WINDOWS
    requires g * FILE_GROUP_CHUNKS <= i < g * FILE_GROUP_CHUNKS + v.K(g) && EarlyReady(v, img, g, w)
    ensures WindowUnlessEarly(v, img, i, w)
  {}

  /** An unskipped group is ready as a whole exactly when its early losses verify. */
  lemma PrefixIff(v: Vault, img: Image, g: nat)
    requires Opened(v, img) && g < v.Groups() && !Skipped(v, Fates(v, img, true), g)
    ensures ReadyPrefix(v, AfterTwo(v, img, true), g, WINDOWS) == WINDOWS <==> EarlyVerifies(v, img, g)
    ensures ReadyPrefix(v, AfterTwo(v, img, true), g, WINDOWS) == 0 <==> !EarlyReady(v, img, g, 0)
  {
    hide Shaped, AfterTwo, Fates, TagsOk, CodesOk, Skipped, EarlyReady, EarlyVerifies, ReadyPrefix, DataReady;
    var two := AfterTwo(v, img, true);
    EarlyReadyEverywhere(v, img, g);
    forall w: nat | w < WINDOWS
      ensures DataReady(v, two, g, w) <==> EarlyReady(v, img, g, w)
    {
      ReadyIff(v, img, g, w);
    }
    var r := ReadyPrefix(v, two, g, WINDOWS);
    assert r < WINDOWS ==> !DataReady(v, two, g, r);
    assert 0 < r ==> DataReady(v, two, g, 0);
  }

  // ---------- which groups it checks ----------

  /** No earlier group stops the pass: those not skipped verify. */
  ghost predicate NoStop(v: Vault, img: Image, n: nat)
    requires Opened(v, img) && n <= v.Groups()
  {
    forall h :: 0 <= h < n && !Skipped(v, Fates(v, img, true), h) ==> EarlyVerifies(v, img, h)
  }

  lemma {:induction false} AbandonedIff(v: Vault, img: Image, n: nat)
    requires Opened(v, img) && n <= v.Groups()
    ensures Abandoned(v, AfterTwo(v, img, true), Fates(v, img, true), n) <==> !NoStop(v, img, n)
    decreases n
  {
    hide Shaped, AfterTwo, Fates, TagsOk, CodesOk, Skipped, EarlyVerifies, ReadyPrefix;
    if n == 0 {
    } else {
      AbandonedIff(v, img, n - 1);
      if !Skipped(v, Fates(v, img, true), n - 1) {
        PrefixIff(v, img, n - 1);
      }
    }
  }

  /** For every file: the third pass checks a group as a whole if and only if the
      second pass lost none of its chunks, and in this and all earlier groups of
      that kind every tag verifies in the blobs the first pass lost. */
  lemma VisitedIff(v: Vault, img: Image, g: nat)
    requires Opened(v, img) && g < v.Groups()
    ensures Visited(v, AfterTwo(v, img, true), Fates(v, img, true), g) == WINDOWS <==>
      && !Skipped(v, Fates(v, img, true), g)
      && forall h :: 0 <= h <= g && !Skipped(v, Fates(v, img, true), h) ==> EarlyVerifies(v, img, h)
  {
    hide Shaped, AfterTwo, Fates, TagsOk, CodesOk, Skipped, EarlyVerifies, ReadyPrefix, Abandoned;
    AbandonedIff(v, img, g);
    if !Skipped(v, Fates(v, img, true), g) {
      PrefixIff(v, img, g);
    }
  }

  /** The group has a chunk that the report calls lost. */
  ghost predicate HasLost(v: Vault, img: Image, g: nat)
    requires Opened(v, img) && g < v.Groups()
  {
    GroupSizes(v, g);
    exists i: nat :: g * FILE_GROUP_CHUNKS <= i < g * FILE_GROUP_CHUNKS + v.K(g)
      && Fates(v, img, true)[i] in {LostEarly, LostLate}
  }

  /** The rule that groups with a lost chunk are left alone and all others checked
      holds of a group with a lost chunk exactly when the second pass lost one, or
      the pass stopped before, or a blob lost early fails in the first window; of
      any other group exactly when the pass did not stop before. */
  lemma LeftAloneIff(v: Vault, img: Image, g: nat)
    requires Opened(v, img) && g < v.Groups()
    ensures HasLost(v, img, g) ==>
      (Visited(v, AfterTwo(v, img, true), Fates(v, img, true), g) == 0 <==>
       Skipped(v, Fates(v, img, true), g) || !NoStop(v, img, g) || !EarlyReady(v, img, g, 0))
    ensures !HasLost(v, img, g) ==>
      (Visited(v, AfterTwo(v, img, true), Fates(v, img, true), g) == WINDOWS <==> NoStop(v, img, g))
  {
    hide Shaped, AfterTwo, TagsOk, CodesOk, ReadyPrefix, Abandoned, NoStop, EarlyReady, Fates, FirstFate, DataBlob, Bad;
    GroupSizes(v, g);
    AbandonedIff(v, img, g);
    if !Skipped(v, Fates(v, img, true), g) {
      PrefixIff(v, img, g);
      if !HasLost(v, img, g) {
        forall i: nat | g * FILE_GROUP_CHUNKS <= i < g * FILE_GROUP_CHUNKS + v.K(g)
          ensures GoodUnlessEarly(v, img, i)
        {
          AfterTwoBlob(v, img, i);
        }
      }
    }
  }

  /** When every damaged slot is detected the rule always holds. */
  lemma RuleUnderDamage(v: Vault, orig: Image, chunks: seq<Bytes>, img: Image, g: nat)
    requires Damaged(v, orig, chunks, img) && g < v.Groups()
    ensures Opened(v, img)
    ensures Visited(v, AfterTwo(v, img, true), Fates(v, img, true), g) == if HasLost(v, img, g) then 0 else WINDOWS
  {
    hide Damaged, Shaped, AfterTwo, TagsOk, CodesOk, Abandoned, Fates, FirstFate, DataBlob, Bad, ReadyPrefix;
    DamagedParts(v, orig, chunks, img);
    forall h: nat, i: nat | h < v.Groups() && h * FILE_GROUP_CHUNKS <= i < h * FILE_GROUP_CHUNKS + v.K(h)
      ensures i < v.chunkCount && Fates(v, img, true)[i] != LostEarly && GoodUnlessEarly(v, img, i)
    {
      GroupSizes(v, h);
      AfterTwoBlob(v, img, i);
      AfterTwoData(v, orig, chunks, img, i);
    }
    assert NoStop(v, img, g);
    LeftAloneIff(v, img, g);
  }

  // ---------- chunks lost in the first pass ----------

  /** A chunk lost in the first pass keeps its blob and does not make the third pass
      skip its group: only a chunk that waited for the second pass can. */
  lemma EarlyLossNotSkipped(v: Vault, img: Image, i: nat)
    requires Opened(v, img) && i < v.chunkCount && FirstFate(v, img, i) == LostEarly
    ensures Fates(v, img, true)[i] == LostEarly
    ensures DataBlob(v, AfterTwo(v, img, true), i) == DataBlob(v, img, i)
    ensures i / FILE_GROUP_CHUNKS < v.Groups()
    ensures Skipped(v, Fates(v, img, true), i / FILE_GROUP_CHUNKS) ==>
      exists j: nat :: j < v.chunkCount && j / FILE_GROUP_CHUNKS == i / FILE_GROUP_CHUNKS && FirstFate(v, img, j) == Pending
  {
    hide Shaped, FirstFate, DataBlob, TagsOk, CodesOk, Fates, AfterTwo;
    AfterTwoBlob(v, img, i);
    DataNoBound(v, i);
    var g := i / FILE_GROUP_CHUNKS;
    if Skipped(v, Fates(v, img, true), g) {
      GroupSizes(v, g);
      var j: nat :| g * FILE_GROUP_CHUNKS <= j < g * FILE_GROUP_CHUNKS + v.K(g) && Fates(v, img, true)[j] == LostLate;
      PositionBound(v, g, j - g * FILE_GROUP_CHUNKS);
      FatesAt(v, img, true, j);
      FirstFateKinds(v, img, j);
    }
  }

  /** One bad slot left in such a chunk of a group that is not skipped silently ends
      the third pass: the parity of every later group stays as it was, whatever its
      state. */
  lemma EarlyLossStopsParity(v: Vault, img: Image, i: nat, h: nat, q: nat)
    requires Opened(v, img) && i < v.chunkCount && FirstFate(v, img, i) == LostEarly && Bad(v.cr, DataBlob(v, img, i)) != []
    requires i / FILE_GROUP_CHUNKS < h < v.Groups() && q < v.M(h) && !Skipped(v, Fates(v, img, true), i / FILE_GROUP_CHUNKS)
    ensures InContainer(v.spec, v.chunkCount, Parity(h, q))
    ensures At(v, Scrubbed(v, img, true, true), Parity(h, q)) == At(v, img, Parity(h, q))
  {
    hide Shaped, FirstFate, DataBlob, TagsOk, CodesOk, Fates, AfterTwo, At, Good, BlobOf, Skipped, Bad;
    hide ReadyPrefix, ThirdBlob, ThirdImage, Abandoned;
    var g, two, fates := i / FILE_GROUP_CHUNKS, AfterTwo(v, img, true), Fates(v, img, true);
    DataNoBound(v, i);
    GroupSizes(v, g);
    assert !EarlyVerifies(v, img, g) by { assert !GoodUnlessEarly(v, img, i); }
    AbandonedIff(v, img, h);
    GroupParityAt(v, two, h, q);
    AbandonedBlob(v, two, fates, h, q);
    ThirdImageAt(v, two, fates, true, Parity(h, q));
    AfterTwoParity(v, img, true, Parity(h, q));
  }

  lemma AbandonedBlob(v: Vault, img: Image, fates: seq<Fate>, g: nat, q: nat)
    requires Opened(v, img) && |fates| == v.chunkCount && g < v.Groups() && q < v.M(g) && Abandoned(v, img, fates, g)
    ensures ThirdBlob(v, img, fates, true, g, q) == BlobOf(v, img, g, v.K(g) + q)
  {
    hide Shaped, BlobOf, Abandoned, Skipped, CheckedBlob, ReadyPrefix, TagsOk, FileCodesOk;
    CheckedNothing(v.cr, BlobOf(v, img, g, v.K(g) + q), NewWindows(v, img, g, q, 0));
  }

  // ---------- Verify ----------

  /** Without a writer the first two passes leave the file alone. */
  lemma VerifyKeeps(v: Vault, img: Image)
    requires Opened(v, img)
    ensures AfterTwo(v, img, false) == img
  {
    hide InContainer, Shaped, CodesOk, TagsOk, FirstImage, SecondImage, At, DataBlob, FirstFate;
    NoWriteNoChange(v, img);
    forall b | InContainer(v.spec, v.chunkCount, b)
      ensures At(v, AfterTwo(v, img, false), b) == At(v, img, b)
    {
      SecondImageAt(v, img, FirstFates(v, img), false, b);
      if b.Data? {
        DataAtPlace(v, img, b);
      }
    }
    SameImage(v, AfterTwo(v, img, false), img);
  }

  /** Every slot of the group's data blobs verifies. */
  predicate DataVerifies(v: Vault, img: Image, g: nat)
    requires v.spec.Valid() && Shaped(img, v.Total()) && g < v.Groups()
  {
    forall n :: 0 <= n < v.K(g) ==> Bad(v.cr, BlobOf(v, img, g, n)) == []
  }

  lemma DataReadyIff(v: Vault, img: Image, g: nat)
    requires v.spec.Valid() && Shaped(img, v.Total()) && g < v.Groups()
    ensures ReadyPrefix(v, img, g, WINDOWS) == WINDOWS <==> DataVerifies(v, img, g)
  {
    hide Shaped, BlobOf, Bad, WindowGood, ReadyPrefix;
    var r := ReadyPrefix(v, img, g, WINDOWS);
    forall n | 0 <= n < v.K(g)
      ensures Bad(v.cr, BlobOf(v, img, g, n)) == [] <==>
        forall w: nat :: w < WINDOWS ==> WindowGood(v.cr, BlobOf(v, img, g, n), w)
    {
      WindowsCover(v.cr, BlobOf(v, img, g, n));
    }
    if r == WINDOWS {
      forall n: nat, w: nat | n < v.K(g) && w < WINDOWS
        ensures WindowGood(v.cr, BlobOf(v, img, g, n), w)
      {
        assert DataReady(v, img, g, w);
      }
    } else {
      assert !DataReady(v, img, g, r);
    }
  }

  lemma {:induction false} VerifyAbandonedIff(v: Vault, img: Image, fates: seq<Fate>, n: nat)
    requires v.spec.Valid() && Shaped(img, v.Total()) && |fates| == v.chunkCount && n <= v.Groups()
    ensures Abandoned(v, img, fates, n) <==> !forall h :: 0 <= h < n && !Skipped(v, fates, h) ==> DataVerifies(v, img, h)
    decreases n
  {
    hide Shaped, Skipped, DataVerifies, ReadyPrefix;
    if n == 0 {
    } else {
      VerifyAbandonedIff(v, img, fates, n - 1);
      DataReadyIff(v, img, n - 1);
    }
  }

  /** Verify writes nothing back, so its third pass checks a group as a whole if and
      only if the group is not skipped and in this and all earlier groups that are
      not skipped every data slot of the file verifies as it stands. */
  lemma VerifyVisitedIff(v: Vault, img: Image, g: nat)
    requires Opened(v, img) && g < v.Groups()
    ensures Visited(v, AfterTwo(v, img, false), Fates(v, img, false), g) == WINDOWS <==>
      && !Skipped(v, Fates(v, img, false), g)
      && forall h :: 0 <= h <= g && !Skipped(v, Fates(v, img, false), h) ==> DataVerifies(v, img, h)
  {
    hide Shaped, AfterTwo, Fates, TagsOk, CodesOk, Skipped, DataVerifies, ReadyPrefix, Abandoned;
    VerifyKeeps(v, img);
    VerifyAbandonedIff(v, img, Fates(v, img, false), g);
    DataReadyIff(v, img, g);
  }

  /** When the first two passes have nothing to write, Verify reports what Scrub does,
      the count of bad parity slots included. */
  lemma VerifyCountsAsScrub(v: Vault, img: Image, parity: bool)
    requires Opened(v, img)
    requires forall i :: 0 <= i < v.chunkCount ==> FirstFate(v, img, i) in {Clean, LostEarly}
    ensures AfterTwo(v, img, true) == img && Fates(v, img, true) == Fates(v, img, false)
    ensures
      var scrub, verify := ReportOf(v, img, true, parity), ReportOf(v, img, false, parity);
      verify == scrub.(parityShardsFixed := 0)
  {
    hide InContainer, Shaped, CodesOk, TagsOk, AfterTwo, At, DataBlob, FirstFate, Fates, BadSlots, RepairedSlots;
    VerifyKeeps(v, img);
    forall b | InContainer(v.spec, v.chunkCount, b)
      ensures At(v, AfterTwo(v, img, true), b) == At(v, img, b)
    {
      if b.Data? {
        DataAtPlace(v, img, b);
        DataAtPlace(v, AfterTwo(v, img, true), b);
        FatesAt(v, img, true, b.i);
        AfterTwoBlob(v, img, b.i);
      } else {
        AfterTwoParity(v, img, true, b);
      }
    }
    SameImage(v, AfterTwo(v, img, true), img);
    forall i | 0 <= i < v.chunkCount
      ensures Fates(v, img, true)[i] == Fates(v, img, false)[i]
    {
      FatesAt(v, img, true, i);
      FatesAt(v, img, false, i);
    }
    assert Fates(v, img, true) == Fates(v, img, false);
  }
}

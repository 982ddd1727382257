/** What a verdict of the scrub is worth when nothing is known about the file. */
module Vouched {
  import opened Bytes
  import opened ErasureCode
  import opened Layout
  import opened Vault
  import opened Format
  import opened Repair
  import opened Encoder
  import opened Authenticity
  import opened ScrubSpec
  import opened ScrubTheorems
  import opened Verdicts
  import opened ParityPass
  import Strong

  /** The blob by itself is repaired or sound, and decodes under this index. */
  predicate Decodes(cr: Crypto, i: nat, blob: seq<Slot>)
    requires |blob| == SHARDS_PER_BLOB
  {
    InBlob(cr, blob).Some? && DecodeChunk(cr, i, InBlob(cr, blob).value).Plain?
  }

  /** The same, but decoding is refused. */
  predicate Refused(cr: Crypto, i: nat, blob: seq<Slot>)
    requires |blob| == SHARDS_PER_BLOB
  {
    InBlob(cr, blob).Some? && DecodeChunk(cr, i, InBlob(cr, blob).value).Rejected?
  }

  lemma LoadOfBlob(v: Vault, img: Image, i: nat)
    requires v.spec.Valid() && Shaped(img, v.Total()) && i < v.chunkCount
    ensures Decodes(v.cr, i, DataBlob(v, img, i)) ==> LoadChunk(v, img, i).Chunk?
    ensures Refused(v.cr, i, DataBlob(v, img, i)) ==> LoadChunk(v, img, i).Undecodable?
  {
    hide Shaped, DataBlob, InBlob, DecodeChunk, FileLevel;
  }

  /** A patched blob is sound, with the payloads of the repair. */
  lemma PatchedReads(cr: Crypto, blob: seq<Slot>)
    requires InBlob(cr, blob).Some?
    ensures InBlob(cr, Patched(cr, blob, InBlob(cr, blob).value)) == InBlob(cr, blob)
  {
    var p := InBlob(cr, blob).value;
    var patched := Patched(cr, blob, p);
    BadFacts(cr, blob, |blob|);
    NoneBad(cr, patched);
    assert Payloads(patched) == p;
  }

  lemma SoundReads(cr: Crypto, payloads: seq<Bytes>)
    requires TagsOk(cr) && |payloads| == SHARDS_PER_BLOB && Uniform(payloads, SHARD_SIZE)
    ensures InBlob(cr, FreshSlots(cr, payloads)) == Some(payloads)
  {
    FreshSlotsFacts(cr, payloads);
    NoneBad(cr, FreshSlots(cr, payloads));
  }

  lemma FirstDecides(v: Vault, img: Image, write: bool, i: nat)
    requires Opened(v, img) && i < v.chunkCount
    ensures FirstFate(v, img, i) in {Clean, Repaired} ==> Decodes(v.cr, i, FirstBlob(v, img, write, i))
    ensures FirstFate(v, img, i) == LostEarly ==> Refused(v.cr, i, FirstBlob(v, img, write, i))
  {
    hide Shaped, DataBlob, InBlob, DecodeChunk, Bad, Patched, TagsOk, CodesOk;
    var blob := DataBlob(v, img, i);
    if InBlob(v.cr, blob).Some? {
      PatchedReads(v.cr, blob);
    }
  }

  lemma SecondDecides(v: Vault, img: Image, fates: seq<Fate>, i: nat)
    requires Opened(v, img) && |fates| == v.chunkCount && i < v.chunkCount
    requires fates[i] == Pending && SecondFate(v, img, fates, i) == Rebuilt
    ensures Decodes(v.cr, i, SecondBlob(v, img, fates, true, i))
  {
    hide Shaped, SecondPayloads, InBlob, DecodeChunk, FreshSlots, CodesOk, TagsOk, DataBlob;
    SecondUniform(v, img, fates, i);
    SoundReads(v.cr, SecondPayloads(v, img, fates, i).value);
  }

  /** The data blobs of a scrubbed file are those of the first two passes. */
  lemma ScrubbedBlob(v: Vault, img: Image, write: bool, parity: bool, i: nat)
    requires Opened(v, img) && i < v.chunkCount
    ensures DataBlob(v, Scrubbed(v, img, write, parity), i) ==
      SecondBlob(v, FirstImage(v, img, write), FirstFates(v, img), write, i)
    ensures DataBlob(v, FirstImage(v, img, write), i) == FirstBlob(v, img, write, i)
  {
    hide Shaped, FirstImage, SecondImage, ThirdImage, FirstFates, SecondBlob, FirstBlob, DataBlob;
    hide At, Fates, CodesOk, TagsOk;
    var one, two := FirstImage(v, img, write), AfterTwo(v, img, write);
    DataAt(v, one, i);
    FirstImageAt(v, img, write, Data(i));
    DataAt(v, two, i);
    SecondImageAt(v, one, FirstFates(v, img), write, Data(i));
    if parity {
      DataAt(v, ThirdImage(v, two, Fates(v, img, write), write), i);
      ThirdImageAt(v, two, Fates(v, img, write), write, Data(i));
    }
  }

  /** Whatever the file held: after a scrub every chunk reported clean, repaired or
      rebuilt loads, and every chunk lost in the first pass is refused. Verify says so
      of the file as it is, but for rebuilt chunks. */
  lemma VerdictsHold(v: Vault, img: Image, write: bool, parity: bool, i: nat)
    requires Opened(v, img) && i < v.chunkCount
    ensures
      var fate, r := Fates(v, img, write)[i], LoadChunk(v, Scrubbed(v, img, write, parity), i);
      && (fate in {Clean, Repaired} || (write && fate == Rebuilt) ==> r.Chunk?)
      && (fate == LostEarly ==> r.Undecodable?)
  {
    hide Shaped, FirstImage, FirstFate, SecondFate, FirstBlob, LoadChunk, DataBlob, Fates, Scrubbed, CodesOk, TagsOk;
    hide Decodes, Refused;
    var one, fates := FirstImage(v, img, write), FirstFates(v, img);
    FatesAt(v, img, write, i);
    FirstFateKinds(v, img, i);
    ScrubbedBlob(v, img, write, parity, i);
    FirstDecides(v, img, write, i);
    if FirstFate(v, img, i) == Pending && SecondFate(v, one, fates, i) == Rebuilt && write {
      SecondDecides(v, one, fates, i);
    }
    LoadOfBlob(v, Scrubbed(v, img, write, parity), i);
  }

  /** Under the AEAD's promise alone: after a scrub of any file, a chunk that is not in
      the report's lost list loads as the chunk that was written. */
  lemma NotLostIsWritten(v: Vault, pfx: Bytes, chunks: seq<Bytes>, img: Image, parity: bool, i: nat)
    requires Opened(v, img) && i < v.chunkCount
    requires |pfx| == 4 && OpensOnlySealed(v.cr, ChunkSealings(pfx, chunks)) && |chunks| <= TWO_63
    requires forall n :: 0 <= n < |chunks| ==> ChunkOk(chunks[n])
    requires i !in ReportOf(v, img, true, parity).lost
    ensures i < |chunks| && LoadChunk(v, Scrubbed(v, img, true, parity), i) == Chunk(chunks[i])
  {
    hide Shaped, LoadChunk, Fates, Scrubbed, ReportOf, CodesOk, TagsOk, OpensOnlySealed, ChunkSealings;
    ReportPartitions(v, img, true, parity);
    FatesAt(v, img, true, i);
    AfterTwoBlob(v, img, i);
    VerdictsHold(v, img, true, parity, i);
    NeverAnotherChunk(v, pfx, chunks, Scrubbed(v, img, true, parity), i);
  }

  /** A strong container of any contents loads after a scrub if and only if the scrub
      reports it clean or repaired. */
  lemma StrongVerdictHolds(cr: Crypto, plainSize: nat, slots: seq<Slot>)
    requires |slots| == STRONG_SLOTS
    ensures
      var fate := Strong.StrongFate(cr, plainSize, slots);
      var after := Strong.StrongScrubbed(cr, plainSize, slots);
      && (Strong.LoadStrong(cr, plainSize, after).Chunk? <==> fate in {Clean, Repaired})
      && (fate == LostEarly <==> fate !in {Clean, Repaired})
  {
    hide Strong.DecodeStrong, Strong.RepairStrong, Bad, Patched, StrongShardSize;
    if Strong.StrongFate(cr, plainSize, slots) == Repaired {
      var p := Strong.StrongPayloads(cr, slots, StrongShardSize(plainSize)).value;
      StrongPatchedReads(cr, slots, StrongShardSize(plainSize));
    }
  }

  lemma StrongPatchedReads(cr: Crypto, slots: seq<Slot>, size: nat)
    requires Strong.StrongPayloads(cr, slots, size).Some?
    ensures
      var p := Strong.StrongPayloads(cr, slots, size).value;
      Strong.StrongPayloads(cr, Patched(cr, slots, p), size) == Some(p)
  {
    var p := Strong.StrongPayloads(cr, slots, size).value;
    BadFacts(cr, slots, |slots|);
    NoneBad(cr, Patched(cr, slots, p));
    assert Payloads(Patched(cr, slots, p)) == p;
  }
}

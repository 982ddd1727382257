/** Repaired payloads and the tags stored beside them: the file format's document has
    them compared, the code does not. */
module StoredTags {
  import opened Bytes
  import opened ErasureCode
  import opened Layout
  import opened Vault
  import opened Repair
  import opened RepairTheorems
  import opened Encoder
  import opened ScrubSpec
  import opened ScrubTheorems
  import opened Verdicts
  import opened EarlyLoss

  /** The documented check: every payload put in by the repair passes the tag stored
      in its slot. */
  predicate PassesStoredTags(cr: Crypto, blob: seq<Slot>, payloads: seq<Bytes>)
    requires |payloads| == |blob|
  {
    forall j :: 0 <= j < |blob| && !Good(cr, blob[j]) ==> Good(cr, Slot(payloads[j], blob[j].tag))
  }

  /** No tag of the blob was damaged. */
  predicate TagsIntact(orig: seq<Slot>, blob: seq<Slot>) {
    |orig| == |blob| && forall j :: 0 <= j < |blob| ==> blob[j].tag == orig[j].tag
  }

  lemma PassesIff(cr: Crypto, orig: seq<Slot>, blob: seq<Slot>)
    requires AllGood(cr, orig) && BlobDetected(cr, orig, blob)
    ensures PassesStoredTags(cr, blob, Payloads(orig)) <==> TagsIntact(orig, blob)
  {
    if PassesStoredTags(cr, blob, Payloads(orig)) {
      forall j | 0 <= j < |blob|
        ensures blob[j].tag == orig[j].tag
      {
        assert Good(cr, orig[j]);
        assert Payloads(orig)[j] == orig[j].payload;
      }
    }
  }

  /** Under detected damage the payloads a blob is repaired to would pass the
      documented check if and only if no tag of the blob was damaged. */
  lemma RepairedPassesIff(v: Vault, orig: Image, chunks: seq<Bytes>, img: Image, i: nat)
    requires Damaged(v, orig, chunks, img) && i < v.chunkCount && Few(v.cr, DataBlob(v, img, i))
    ensures InBlob(v.cr, DataBlob(v, img, i)) == Some(Payloads(DataBlob(v, orig, i)))
    ensures
      PassesStoredTags(v.cr, DataBlob(v, img, i), InBlob(v.cr, DataBlob(v, img, i)).value) <==>
        TagsIntact(DataBlob(v, orig, i), DataBlob(v, img, i))
  {
    hide Damaged, Shaped, DataBlob, InBlob, Few, Payloads, PassesStoredTags, TagsIntact, AllGood, BlobDetected;
    hide FirstFate, FirstBlob, BlobWord;
    DamagedParts(v, orig, chunks, img);
    DamagedOriginal(v, orig, chunks, img);
    FirstUnderDamage(v, orig, chunks, img, i);
    OriginalBlob(v, orig, chunks, i);
    DetectedBlob(v, orig, img, i);
    PassesIff(v.cr, DataBlob(v, orig, i), DataBlob(v, img, i));
  }

  /** A blob with one damaged tag, and nothing else wrong, would fail the documented
      check; the code repairs it, and the chunk reads as it was written. */
  lemma DamagedTagIsAccepted(v: Vault, orig: Image, chunks: seq<Bytes>, img: Image, i: nat, s: nat, tag: Bytes)
    requires Damaged(v, orig, chunks, img) && i < v.chunkCount && s < SHARDS_PER_BLOB
    requires |tag| == TAG_SIZE && tag != DataBlob(v, orig, i)[s].tag
    requires DataBlob(v, img, i) == DataBlob(v, orig, i)[s := Slot(DataBlob(v, orig, i)[s].payload, tag)]
    ensures FirstFate(v, img, i) == Repaired && LoadChunk(v, img, i) == Chunk(chunks[i])
    ensures InBlob(v.cr, DataBlob(v, img, i)).Some?
    ensures !PassesStoredTags(v.cr, DataBlob(v, img, i), InBlob(v.cr, DataBlob(v, img, i)).value)
  {
    hide Damaged, Shaped, DataBlob, InBlob, Few, PassesStoredTags, FirstFate, FirstBlob, BlobWord, LoadChunk, Enough, Bad;
    DamagedParts(v, orig, chunks, img);
    DamagedOriginal(v, orig, chunks, img);
    OriginalBlob(v, orig, chunks, i);
    OneBadSlot(v.cr, DataBlob(v, orig, i), s, DataBlob(v, img, i)[s]);
    FirstUnderDamage(v, orig, chunks, img, i);
    ReadsIff(v, orig, chunks, img, i);
    RepairedPassesIff(v, orig, chunks, img, i);
  }
}

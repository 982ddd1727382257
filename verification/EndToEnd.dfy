/** From the plaintext given to Write to the chunks LoadChunk returns. */
module EndToEnd {
  import opened Assumptions
  import opened Bytes
  import opened ErasureCode
  import opened Layout
  import opened Vault
  import opened Format
  import opened Repair
  import opened RepairTheorems
  import opened Authenticity
  import opened Encoder
  import opened Chunking
  import opened ScrubTheorems
  import opened Verdicts
  import opened ExpectedWrites
  import opened PipelineFile
  import opened PipelineText
  import opened PipelineTheorems
  import opened PipelineOneGroup
  import opened PipelinePending
  import FileContents
  import PipelineState
  import Reader
  import Strong

  /** The original of a container's damaged file is what its writer left. */
  lemma SeqImageDamaged(v: Vault, pfx: Bytes, chunks: seq<Bytes>, img: Image)
    requires Plan(v, pfx, chunks) && Detected(v, SeqImage(v, pfx, chunks), img)
    ensures Damaged(v, SeqImage(v, pfx, chunks), chunks, img)
  {
    hide SeqImage, Shaped, Original, BlobDetected;
    SeqImageIsOriginal(v, pfx, chunks);
  }

  /** Drain has returned without an error. */
  ghost predicate Finished(c: PipelineState.Config, run: seq<PipelineState.Action>) {
    && ConfigOk(c) && PipelineState.IsRun(c, run)
    && PipelineState.After(c, run).prod.pc.Returned? && !PipelineState.After(c, run).err
  }

  /** The two loops did not race for the cursor; with one group they cannot. */
  ghost predicate Unraced(c: PipelineState.Config, run: seq<PipelineState.Action>)
    requires Finished(c, run)
  {
    PipelineState.After(c, run).disk.raced ==> |PlanChunks(c)| <= FILE_GROUP_CHUNKS
  }

  lemma UnracedRefines(c: PipelineState.Config, run: seq<PipelineState.Action>)
    requires Finished(c, run) && Unraced(c, run)
    ensures Plan(PlanVault(c), c.pfx, PlanChunks(c))
    ensures
      var s, v := PipelineState.After(c, run), PlanVault(c);
      && Chunks(s.flow.jobs) == PlanChunks(c) && s.wr.plainSize == |Concat(c.calls)|
      && |s.disk.file| == v.Total() * BLOB_DISK_SIZE
      && ImageOf(s.disk.file, v.Total()) == SeqImage(v, c.pfx, PlanChunks(c))
  {
    hide ConfigOk, PipelineState.IsRun, PipelineState.After, Plan, SeqImage, ImageOf, PlanChunks, Concat;
    if PipelineState.After(c, run).disk.raced {
      OneGroupRefinesSequential(c, run);
    } else {
      DrainRefinesSequential(c, run);
    }
  }

  /** The file of such a run holds the sequential encoder's blobs, whose bytes
      FileContents spells out. */
  lemma FileHolds(c: PipelineState.Config, run: seq<PipelineState.Action>)
    requires Finished(c, run) && Unraced(c, run)
    ensures
      var f := PipelineState.After(c, run).disk.file;
      && FileContents.Holds(PlanVault(c), c.pfx, PlanChunks(c), f)
      && |f| == PlanVault(c).Total() * BLOB_DISK_SIZE
  {
    hide Finished, Unraced, SeqImage, ImageOf, PlanChunks, Ready, PipelineState.After, PipelineState.IsRun;
    UnracedRefines(c, run);
    PlanParts(PlanVault(c), c.pfx, PlanChunks(c));
  }

  /** Reading a container back: for every finished error-free run of the pipeline
      and every later state of its file in which damage is detected, a chunk
      either reads as the one written or is reported unrecoverable; it reads
      whenever its blob has at most 128 bad slots or its group enough shards. */
  lemma WrittenThenRead(c: PipelineState.Config, run: seq<PipelineState.Action>, img: Image, i: nat)
    requires Finished(c, run) && Unraced(c, run)
    requires var v := PlanVault(c); Shaped(img, v.Total()) && i < v.chunkCount
    requires
      var v, f := PlanVault(c), PipelineState.After(c, run).disk.file;
      v.Total() * BLOB_DISK_SIZE <= |f| ==> Detected(v, ImageOf(f, v.Total()), img)
    ensures i / FILE_GROUP_CHUNKS < PlanVault(c).Groups()
    ensures
      var v := PlanVault(c);
      LoadChunk(v, img, i) ==
        if Few(v.cr, DataBlob(v, img, i)) || Enough(v, img, i / FILE_GROUP_CHUNKS, {i % FILE_GROUP_CHUNKS})
        then Chunk(PlanChunks(c)[i]) else Unrecoverable
  {
    hide Finished, Unraced, Plan, SeqImage, Detected, Damaged, LoadChunk, Enough, Few, Shaped, ImageOf, PlanChunks;
    UnracedRefines(c, run);
    PlanParts(PlanVault(c), c.pfx, PlanChunks(c));
    SeqImageDamaged(PlanVault(c), c.pfx, PlanChunks(c), img);
    ReadsIff(PlanVault(c), SeqImage(PlanVault(c), c.pfx, PlanChunks(c)), PlanChunks(c), img, i);
  }

  /** The manifest that closing an rs-dual writer records. */
  function ClosedManifest(version: int, m2: int, chunkCount: nat, plainSize: nat): Manifest {
    Manifest(version, DATA_SHARDS, PARITY_SHARDS, FILE_GROUP_CHUNKS, m2, SHARD_SIZE, CHUNK_PLAIN_SIZE, chunkCount, plainSize, 0, 0)
  }

  /** The counts a finished run reports make a manifest that opening accepts, with
      the trailer right behind the blobs. */
  lemma ClosedManifestAccepted(c: PipelineState.Config, run: seq<PipelineState.Action>, trailerLen: nat)
    requires Finished(c, run) && Unraced(c, run)
    ensures
      var s := PipelineState.After(c, run);
      var man := ClosedManifest(c.spec.version, c.spec.m2cap, |s.flow.jobs|, s.wr.plainSize);
      && ValidateRSDual(man, |s.disk.file| + trailerLen, trailerLen) == Accepted
      && ResolveSpec(man) == c.spec
      && man == DualManifest(c.spec.version, c.spec.m2cap, |Concat(c.calls)|, 0, 0)
  {
    hide SeqImage, ImageOf, PipelineState.After, PipelineState.IsRun, Finished, Unraced;
    UnracedRefines(c, run);
    hide Plan;
    assert c.spec.Valid() by { PlanParts(PlanVault(c), c.pfx, PlanChunks(c)); }
    ChunksAreCut(Concat(c.calls));
    CountsFit(|Concat(c.calls)|);
  }

  lemma CountsFit(n: nat)
    ensures
      var count := if n == 0 then 0 else (n - 1) / CHUNK_PLAIN_SIZE + 1;
      && (count == 0 ==> n == 0)
      && (count > 0 ==> (count - 1) * CHUNK_PLAIN_SIZE + 1 <= n <= count * CHUNK_PLAIN_SIZE)
  {}

  /** Whatever a reader's file holds, the chunks that load are those of the text
      that was sealed: what the reader assumes of its container follows from the
      AEAD's promise. */
  lemma LoadsAreFaithful(v: Vault, pfx: Bytes, text: Bytes, img: Image)
    requires v.spec.Valid() && Shaped(img, v.Total()) && |pfx| == 4
    requires OpensOnlySealed(v.cr, ChunkSealings(pfx, ChunksOf(text))) && |ChunksOf(text)| <= TWO_63
    ensures forall i: nat :: i < |ChunksOf(text)| && LoadChunk(v, img, i).Chunk? ==>
      LoadChunk(v, img, i) == Chunk(ChunksOf(text)[i])
  {
    hide LoadChunk, Shaped, OpensOnlySealed, ChunkSealings, ChunksOf;
    ChunksAreCut(text);
    forall i: nat | i < |ChunksOf(text)| && LoadChunk(v, img, i).Chunk?
      ensures LoadChunk(v, img, i) == Chunk(ChunksOf(text)[i])
    {
      NeverAnotherChunk(v, pfx, ChunksOf(text), img, i);
    }
  }

  /** Under both laws of the AEAD: after any error-free run, raced or not, and
      whatever the file holds later, LoadChunk gives the chunk that was written
      under that index or an error; and from the untouched file it gives the chunk. */
  lemma ReadsWhatWasWritten(c: PipelineState.Config, run: seq<PipelineState.Action>, img: Image, i: int)
    requires Finished(c, run) && Shaped(img, PlanVault(c).Total())
    requires OpensOnlySealed(c.cr, ChunkSealings(c.pfx, Chunks(PipelineState.After(c, run).flow.jobs)))
    ensures
      var r := LoadChunk(PlanVault(c), img, i);
      r.Chunk? ==> 0 <= i < |PlanChunks(c)| && r == Chunk(PlanChunks(c)[i])
    ensures
      var v, f := PlanVault(c), PipelineState.After(c, run).disk.file;
      Unraced(c, run) && |f| == v.Total() * BLOB_DISK_SIZE && img == ImageOf(f, v.Total()) && 0 <= i < v.chunkCount ==>
        LoadChunk(v, img, i) == Chunk(PlanChunks(c)[i])
  {
    hide Unraced, Plan, SeqImage, LoadChunk, Shaped, ImageOf, OpensOnlySealed, ChunkSealings, PlanChunks, Concat;
    assert ConfigOk(c) && PipelineState.IsRun(c, run);
    JobsAreThePlan(c, run);
    PlanFacts(c);
    NeverAnotherChunk(PlanVault(c), c.pfx, PlanChunks(c), img, i);
    if Unraced(c, run) && 0 <= i < |PlanChunks(c)| {
      hide Finished;
      UnracedRefines(c, run);
      UntouchedReads(PlanVault(c), c.pfx, PlanChunks(c), i);
    }
  }

  lemma PlanFacts(c: PipelineState.Config)
    requires ConfigOk(c)
    ensures PlanVault(c).spec.Valid() && |c.pfx| == 4 && |PlanChunks(c)| <= TWO_63
    ensures forall i :: 0 <= i < |PlanChunks(c)| ==> ChunkOk(PlanChunks(c)[i])
  {
    ChunksAreCut(Concat(c.calls));
  }

  /** What an error-free run sealed is the plan. */
  lemma JobsAreThePlan(c: PipelineState.Config, run: seq<PipelineState.Action>)
    requires Finished(c, run)
    ensures Chunks(PipelineState.After(c, run).flow.jobs) == PlanChunks(c)
  {
    hide ConfigOk, PipelineState.IsRun, PipelineState.After, ChunksOf, Concat;
    ErrorMeansFailure(c, run);
    ChunksIndependentOfWrites(c, run);
  }

  /** A container read as it was written gives back every chunk. */
  lemma UntouchedReads(v: Vault, pfx: Bytes, chunks: seq<Bytes>, i: nat)
    requires Plan(v, pfx, chunks) && i < v.chunkCount
    ensures LoadChunk(v, SeqImage(v, pfx, chunks), i) == Chunk(chunks[i])
  {
    hide LoadChunk, Enough, Original, SeqImage, Shaped, Detected, Damaged, AllGood, DataBlob, Bad, BlobWord;
    var img := SeqImage(v, pfx, chunks);
    SeqImageIsOriginal(v, pfx, chunks);
    SelfDetectedImage(v, img);
    SeqImageDamaged(v, pfx, chunks, img);
    ReadsIff(v, img, chunks, img, i);
    OriginalBlob(v, img, chunks, i);
    NoneBad(v.cr, DataBlob(v, img, i));
  }

  lemma SelfDetectedImage(v: Vault, img: Image)
    requires v.spec.Valid() && Shaped(img, v.Total())
    ensures Detected(v, img, img)
  {}

  /** Both laws of the AEAD can hold of every pipeline: for every plaintext and every
      setting there are primitives that open what its run seals and nothing else. */
  lemma EveryPipelineHasLaws(intra: Code, c: PipelineState.Config) returns (d: PipelineState.Config)
    requires intra.k == DATA_SHARDS && intra.m == PARITY_SHARDS && intra.sizes(SHARD_SIZE) && Contract(intra)
    requires c.spec.Valid() && |c.pfx| == 4 && |PlanChunks(c)| <= TWO_63
    requires c.workers > 0 && c.encodeCap > 0 && c.outCap > 0 && c.parCap > 0
    ensures d == c.(cr := d.cr) && d.cr.intra == intra && ConfigOk(d)
    ensures OpensOnlySealed(d.cr, ChunkSealings(d.pfx, PlanChunks(d)))
  {
    hide Contract, OpensOnlySealed, OpensSealed, SealOk, TagsOk, CodesOk, ChunkSealings;
    var done := ChunkSealings(c.pfx, PlanChunks(c));
    LawsCanBeMet(intra, done);
    d := c.(cr := Primitives(intra, done));
    assert PlanChunks(d) == PlanChunks(c);
  }

  /** What a reader of chunks assumes of its file holds of any file, by the AEAD's
      promise alone. */
  lemma DualIsFaithful(r: Reader.Reader, pfx: Bytes)
    requires r.backend.Dual? && r.backend.c.Valid() && CodesOk(r.backend.c.v.cr)
    requires r.backend.c.v.chunkCount == |ChunksOf(r.text)| <= TWO_63 && |pfx| == 4
    requires OpensOnlySealed(r.backend.c.v.cr, ChunkSealings(pfx, ChunksOf(r.text)))
    ensures r.Faithful()
  {
    hide LoadChunk, OpensOnlySealed, ChunkSealings, ChunksOf;
    LoadsAreFaithful(r.backend.c.v, pfx, r.text, r.backend.c.Image());
  }

  /** The same of a reader of a single blob. */
  lemma SingleIsFaithful(r: Reader.Reader, nonce: Bytes)
    requires r.backend.Single? && r.backend.s.Valid() && Strong.StrongOk(r.backend.s.cr)
    requires |nonce| == NONCE_SIZE && |r.text| < TWO_63
    requires OpensOnlySealed(r.backend.s.cr, {Strong.StrongSealing(nonce, r.text)})
    ensures r.Faithful()
  {
    hide OpensOnlySealed, Strong.StrongSealing, Strong.LoadStrong;
    Strong.NeverAnotherPlaintext(r.backend.s.cr, nonce, r.text, r.backend.s.plainSize, r.backend.s.Slots());
  }

  /** In every run, failing or not, all nonces begin with the container's prefix and
      no two chunks are sealed under the same one. */
  lemma RunNonces(c: PipelineState.Config, run: seq<PipelineState.Action>)
    requires ConfigOk(c) && PipelineState.IsRun(c, run)
    ensures |c.pfx| == 4
    ensures
      var chunks := Chunks(PipelineState.After(c, run).flow.jobs);
      && (forall s :: s in ChunkSealings(c.pfx, chunks) ==> |s.nonce| == NONCE_SIZE && s.nonce[..4] == c.pfx)
      && forall i, j :: 0 <= i < j < |chunks| ==>
           ChunkSealing(c.pfx, i, chunks[i]).nonce != ChunkSealing(c.pfx, j, chunks[j]).nonce
  {
    hide PipelineState.IsRun, PipelineState.After, ChunkSealings, PlanChunks;
    InFlightAtMost(c, run);
    ChunksCount(PipelineState.After(c, run).flow.jobs);
    NoncesAreFresh(c.pfx, Chunks(PipelineState.After(c, run).flow.jobs));
  }
}

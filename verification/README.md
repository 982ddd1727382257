# secvault: a verified model

secvault stores a plaintext as an encrypted container that survives damage. The
plaintext is cut into chunks; each chunk is sealed with an AEAD, spread over 256
data shards with 128 parity shards, and written as a blob of 384 slots, each slot
a 4096-byte payload and a 16-byte tag. Groups of up to 128 blobs share up to 64
parity blobs. A reader repairs inside a blob, else rebuilds a blob from its group;
a scrub does so for the whole file and writes the repairs back.

This project models that machinery in Dafny and proves what it is for:

- **The codes.** The product of `bench/gfbench` is that of polynomials modulo
  x^8 + x^4 + x^3 + x^2 + 1, its field is a field, its Cauchy code is maximum
  distance separable for every k + m up to 256, and so it meets the contract under
  which the container uses a Reed-Solomon library (`Gf256`, `FieldProduct`,
  `CauchyCode`, `GfKernels`, `ErasureCode`).
- **The file, byte by byte.** Data and parity blobs of both formats tile the file and
  stand in a known order (`Layout`, `BlobOrder`), headers and trailers are the bytes
  of the format and parsing inverts them (`Format`), the checksum is the CRC-32C of
  long division (`PolynomialDivision`, `Crc32c`), and every slot of a written file is
  given in terms of the chunks and the primitives (`FileContents`).
- **Two-level repair.** What gather, repair, windowed rebuild and decode compute,
  and exactly when they succeed (`Vault`, `Repair`, `Engine`, `RepairTheorems`);
  whatever the file holds, no chunk is ever returned under another index
  (`Authenticity`).
- **Scrubbing.** The three passes restore the file, running them again changes
  nothing, their verdicts agree with the read path, and their report is a
  partition and counts what it says (`ScrubSpec`, `ScrubLoops`, `ScrubTheorems`,
  `Verdicts`, `ScrubReport`). For files in which damage is not detected, what a
  verdict is worth (`Vouched`), exactly which groups the third pass checks and what
  it makes of them (`ParityPass`, `EarlyLoss`).
- **The write pipeline.** Producer, any number of workers, write loop and parity
  loop with bounded channels, a pending set, buffer pools, a sticky error and one
  file cursor form a transition system. Every run keeps its invariants, never
  shares a buffer, never deadlocks and ends; a run that returns no error has
  written what a sequential encoder writes, provided the two loops never raced
  for the cursor. With at most 128 chunks they never do; with more there is always
  a run that returns no error and leaves another file (`PipelineState` to
  `PipelineRace`, `ExpectedWrites`, `Chunking`, `Writes`, `Encoder`,
  `EncodeLoops`, `StreamedParity`). What a failing run still guarantees is in
  `PipelineSticky` and `PipelineFailures`, that no buffer is lost in
  `PipelineBuffers`, and how many chunks can be in memory at once in
  `PipelinePending`.
- **The rest of the round trip.** The rs-strong container (`Strong`,
  `StrongLoops`), cached random access (`Reader`), the writer's options and
  manifests (`WriterOptions`), and the whole way from `Write` to `LoadChunk`
  (`EndToEnd`).

Code that the source writes as loops over mutable state is a method here, proved
to compute a function; the theorems are about those functions. The tag, the AEAD
and the Reed-Solomon libraries are functions held in a `Crypto` value, used only
through stated laws: tags are 16 bytes (`TagsOk`), ciphertexts carry a tag
(`SealOk`), an AEAD opens what was sealed under its key (`OpensSealed`) and nothing
else (`OpensOnlySealed`), and the coding contract (`Contract`, `ColumnWise`), which
a code need only meet for the shard sizes it accepts. All of them can hold at once,
whatever was sealed (`Assumptions.LawsCanBeMet`). Where a theorem speaks of damage it assumes
that every slot is the one written or fails its tag (`Detected`).

The code departs from its documentation in places, and the model follows the code:

- `seekWrite` is a seek and a write without a lock, called from two goroutines on
  one file (`internal/engine/pipeline.go:238`, `:327`, `:336`). The pipeline's
  result is therefore proved for runs without a race for the cursor. All runs leave
  the sequential encoder's file if and only if the plaintext has at most 128 chunks
  (`PipelineRace.RefinementIff`).
- A chunk lost in the first scrub pass is not put in `lostSet`
  (`internal/engine/scrub.go:54-57` against `:96`), so its group is not skipped by
  the third pass, and a data window that does not verify ends that pass without an
  error (`internal/engine/scrub.go:232-235`). The rule that groups with a lost chunk
  are left alone and all others checked holds exactly under the conditions of
  `ParityPass.VisitedIff` and `ParityPass.LeftAloneIff`; when damage is detected they
  are always met (`ParityPass.RuleUnderDamage`). A blob filed in the place of another breaks it: with one slot
  damaged, all later groups are left unchecked (`EarlyLoss.OneSlotStopsThePass`), and
  with none, the scrub replaces the group's good parity and with it the last copy of
  the lost chunk (`EarlyLoss.LastCopyLost`).
- Erasures are counted per window of 32 columns, not per column as `FORMAT.md:85-86`
  suggests (`RepairTheorems.WindowsNeedMoreThanColumns`).
- Repaired payloads are not checked against their stored tags, as `FORMAT.md:84`
  says they are; the AEAD decides. The documented check would pass exactly when no
  tag of the blob was damaged (`StoredTags.RepairedPassesIff`).
- The pending map has no bound. With one worker the chunks in flight still fit the
  channels, the worker and the write loop's hand (`PipelinePending.OneWorkerBound`);
  with more, a bound like that of `FORMAT.md:107` holds exactly for plaintexts of no
  more chunks than the bound (`PipelinePending.BoundIff`). Buffers kept for parity
  come on top.

## Model

| member | source | states |
|---|---|---|
| Gf256.GfMul | bench/gfbench/main.go:194-208 | for all bytes the shift-and-reduce loop ends with the field product |
| Gf256.GfPow | bench/gfbench/main.go:210-220 | square-and-multiply gives the n-fold product for every n, and 1 when n is not positive |
| Gf256.MulComm | bench/gfbench/main.go:194-208 | the product is commutative |
| Gf256.MulAssoc | bench/gfbench/main.go:194-208 | the product is associative |
| Gf256.MulAddLeft | bench/gfbench/main.go:194-208 | the product distributes over xor |
| Gf256.MulInv | bench/gfbench/main.go:229 | the 254th power of a nonzero byte is its inverse |
| Gf256.NoZeroDivisors | bench/gfbench/main.go:194-208 | a product is zero only if a factor is |
| FieldProduct.ProductIsRemainder | bench/gfbench/main.go:194-208 | the product of two bytes is the remainder, by long division, of the product of their polynomials modulo x^8 + x^4 + x^3 + x^2 + 1 |
| GfKernels.CauchyMatrix | bench/gfbench/main.go:223-234 | the loops fill row p, column i with the inverse of (k+p) xor i |
| GfKernels.BuildNibbleTable | bench/gfbench/cgo_other.go:23-33 | the table holds the products of all low and all high nibbles with the coefficient |
| GfKernels.LookUp | bench/gfbench/gf256_neon.c:32-34 | two table lookups combine to the product of the whole byte |
| GfKernels.MulAddPlain | bench/gfbench/cgo_other.go:35-39 | byte by byte, dst becomes dst xor coef times src |
| GfKernels.MulAddBlocks | bench/gfbench/gf256_neon.c:22-41 | for every length the blocked loop and its tail compute the same multiply-add as the plain loop |
| GfKernels.XorBlocks | bench/gfbench/gf256_neon.c:43-52 | for every length the blocked xor is the byte-wise one, which is the multiply-add with coefficient 1 |
| GfKernels.Encode | bench/gfbench/main.go:364-381 | parity shard p holds in every byte column the codeword symbol k+p of that column |
| CauchyCode.FewRoots | bench/gfbench/main.go:222-234 | a sum of n fractions with distinct nodes and nonzero coefficients has fewer than n roots outside its nodes |
| CauchyCode.Separable | bench/gfbench/main.go:222-234 | for k+m up to 256, data columns whose codewords agree on any k symbols are equal |
| CauchyCode.EntryInverts | bench/gfbench/main.go:223-234 | entry (p, i) of the matrix times the sum of the points k+p and i is one |
| CauchyCode.CodeIs | bench/gfbench/main.go:364-381 | parity p of a column with one symbol is that symbol divided by the sum of its points, and the parity of a sum is the sum of the parities |
| ErasureCode.AnyKDetermine | internal/codec/codec.go:53-77 | under the contract two data vectors that agree on k shards are equal |
| ErasureCode.CauchyMeetsContract | bench/gfbench/main.go:222-234 | for k+m up to 256 the Cauchy code encodes, reconstructs from exactly k or more shards, and works column by column |
| Assumptions.LawsCanBeMet | internal/codec/codec.go:28-77 | given an intra-blob code, and whatever was sealed, there are primitives that meet all laws assumed of tag, AEAD and codes at once: what was sealed opens, and nothing else does |
| Layout.PlaceIsValid | internal/layout/layout.go:152-171 | every blob's byte offset is its own place below the total, in units of a blob |
| Layout.PlaceIsTaken | internal/layout/layout.go:173-184 | every place below the total is taken by a blob |
| Layout.Tiling | internal/layout/layout.go:93-184 | for v2 and for v3 with any cap in 1..64, blobs and places are in bijection: no overlap and no gap |
| Layout.TotalStrictlyIncreasing | internal/layout/layout.go:173-184 | more chunks always take more blobs |
| Layout.StrongShardFits | internal/layout/layout.go:68-74 | the strong shard size is the least that holds header, ciphertext and tag |
| BlobOrder.WhichBlobs | internal/layout/layout.go:146-160 | which chunks and parity blobs a container has: 64 parity blobs a group in v2, in v3 as many as chunks but at most the cap |
| BlobOrder.GroupBegins | internal/layout/layout.go:152-171 | a group begins behind all full groups before it, in v2 with parity 0, in v3 with its first chunk |
| BlobOrder.DataFollows | internal/layout/layout.go:152-160 | chunks that follow each other in a group are adjacent on disk |
| BlobOrder.ParityFollows | internal/layout/layout.go:162-171 | parity q+1 stands right behind parity q |
| BlobOrder.PartsMeet | internal/layout/layout.go:152-171 | in v2 the last parity blob stands in front of the first chunk, in v3 the last chunk in front of parity 0 |
| BlobOrder.FileIsInOrder | internal/layout/layout.go:93-184 | the whole file is its groups, one after the other without a gap, each in the order of its format |
| Crc32c.Compute | internal/format/format.go:225 | the byte loop computes the checksum, whose reflected bits are the CRC-32C of the data |
| Crc32c.ChecksumIsCrc | internal/format/format.go:225 | the checksum is, bits reflected, the remainder of the message under long division by 0x11EDC6F41 with complemented start and end, for data of any length |
| Crc32c.CheckValue | internal/format/format.go:30 | the checksum of the text 123456789 is 0xE3069283 |
| Crc32c.ChecksumDetects | internal/format/format.go:245 | for data of any length, changing one byte changes the checksum |
| Format.MarshalHeader | internal/format/format.go:40-47 | the filled buffer is the header's encoding |
| Format.HeaderRoundTrip | internal/format/format.go:40-59 | parsing inverts marshalling for all 64-bit index and length values |
| Format.HeaderBytes | internal/format/format.go:40-47 | the header is the text SVC1, index and length as 64-bit integers with the highest byte first, and the nonce |
| Format.ParsedHeaderIs | internal/format/format.go:50-59 | parsing fails exactly without the magic, and what it returns marshals back to the bytes parsed |
| Format.BuildTrailer | internal/format/format.go:214-227 | the appended bytes are the trailer's frame |
| Format.ParseTrailer | internal/format/format.go:231-260 | the backward scan returns the accepted frame of greatest position, and no manifest exactly when no position is accepted |
| Format.OwnFrameAccepted | internal/format/format.go:214-247 | a built frame is accepted where it stands if and only if its payload has 16 to 2^32-1 bytes |
| Format.TrailerRoundTrip | internal/format/format.go:214-258 | reading an accepted built frame gives the trailer back, or the version error |
| Format.ParseAfterBuild | internal/format/format.go:214-260 | with no valid frame starting later, parsing the built trailer behind any prefix returns it |
| Format.DamagedFrameRejected | internal/format/format.go:233-247 | changing any single byte of a frame makes it rejected at its position |
| Format.FrameParts | internal/format/format.go:214-227 | where the parts of a frame stand, the three zero bytes included |
| Format.AcceptedFrames | internal/format/format.go:231-260 | what the parser accepts at a position is a frame up to the end of the buffer, and any such frame, and it returns that frame's trailer |
| Format.AcceptedDual | internal/format/format.go:128-157 | an accepted manifest has a layout that tiles, and no other chunk count fits the same file |
| Format.AcceptedIff | internal/format/format.go:128-157 | accepted are exactly the v2 manifest with 64 parity blobs and the v3 manifests with a cap of 1 to 64, of some plaintext size, for the file size of that many chunks |
| Vault.SpliceSlot | internal/engine/scrub.go:62-69 | writing one slot changes that slot of the container and nothing else |
| Vault.SpliceBlob | internal/engine/scrub.go:109-118 | writing one blob changes that blob of the container and nothing else |
| Vault.ImageDetermines | internal/engine/container.go:132-149 | slots and trailer determine the file byte for byte |
| Engine.Container.GatherBlob | internal/engine/container.go:132-149 | the loop returns all payloads and, in order, exactly the slots whose tag fails |
| Engine.Container.RepairInPlace | internal/engine/container.go:151-172 | success, and the payloads after it, are those of the repair function; at most 128 bad slots are tried |
| Engine.Container.ReadWindow | internal/engine/window.go:19-32 | a window's payloads if every tag in it verifies, else nothing |
| Engine.ExtractPayloads | internal/codec/codec.go:94-103 | the strided loop returns the payloads of the interleaved slots in order |
| Engine.CheckMissing | internal/engine/container.go:180-189 | the checks accept exactly the non-empty missing sets in range of size at most m |
| Engine.Container.WindowViews | internal/engine/container.go:203-228 | the shards offered for a window, and how many are absent |
| Engine.Container.RebuildOneWindow | internal/engine/container.go:229-240 | a window is given up with more than m absent shards or a wrong shard length |
| Engine.Container.SweepWindows | internal/engine/container.go:195-256 | the sweep computes the rebuilt payloads of all missing blobs, or nothing if a window fails |
| Engine.Container.RebuildBlobs | internal/engine/container.go:174-256 | RebuildMissing computes the group rebuild of the missing set |
| Engine.Container.RebuildBlobFileLevel | internal/engine/container.go:258-265 | one blob from the rest of its group |
| Engine.Container.DecodeChunk | internal/engine/container.go:267-298 | the header checks and the authentication verdict, with the error of the first check that fails |
| Repair.DecodeVerdict | internal/engine/container.go:267-298 | the verdict on any data area by its bytes: magic, index, nonce, length, and then what the AEAD opens with the header as associated data |
| Engine.Container.LoadChunk | internal/engine/container.go:300-323 | the read path: gather, repair, else group rebuild, then decode |
| RepairTheorems.InBlobRestores | internal/engine/container.go:151-172 | under detected damage a blob gives back its original payloads if and only if at most 128 slots are bad |
| RepairTheorems.WindowIsWord | internal/engine/window.go:19-32 | windowed parity is column-by-column parity: the shards of a window form a codeword because its columns do |
| RepairTheorems.WindowRestored | internal/engine/container.go:203-240 | a window is rebuilt to its original shards if and only if at most m are absent |
| RepairTheorems.RebuildIff | internal/engine/container.go:174-256 | rebuilding succeeds if and only if the missing set is in range, non-empty and at most m, and no window has more than m absent shards; the result is exactly the original payloads |
| RepairTheorems.ColumnsFollowWindows | internal/engine/container.go:203-231 | enough shards in every window means enough in every column |
| RepairTheorems.WindowsNeedMoreThanColumns | FORMAT.md:85-86 | the converse fails: two erasures in every column at most, and still no rebuild |
| Authenticity.NeverAnotherChunk | internal/engine/container.go:268-323 | for arbitrary file contents LoadChunk returns the writer's chunk of that index or an error |
| Encoder.ChunkBlobFacts | internal/engine/pipeline.go:176-214 | an encoded chunk is a codeword of the intra-blob code and all its tags verify |
| Encoder.SameNonceIff | internal/engine/pipeline.go:176-180 | two chunks' nonces are equal if and only if prefix and index are |
| Encoder.NoncesAreFresh | internal/engine/pipeline.go:176-180 | all nonces of a container begin with its prefix and no two chunks share one |
| Encoder.DecodeInvertsEncode | internal/engine/pipeline.go:176-222 | decoding the blob of chunk i under index i gives the chunk back |
| Encoder.DecodeRefusesOther | internal/engine/container.go:280-286 | read under any other index the blob of a chunk is refused for its index |
| Encoder.FullGroupWritten | internal/engine/pipeline.go:288-333 | data blobs with their column-wise parity form a written group |
| Encoder.SeqImageIsOriginal | internal/engine/pipeline.go:16-19 | the container of a sequential encoder is an original for its chunks |
| FileContents.DataBlobHolds | internal/engine/pipeline.go:175-222 | in a written file the first 256 payloads of a chunk's blob make up its header, ciphertext and zeros, the other 128 are the intra-blob parity of those, and every payload is followed by its tag |
| FileContents.ParityBlobHolds | internal/engine/pipeline.go:288-333 | payload j of parity blob q is shard q of the file-level code of payload j of the group's chunks in order, followed by its tag |
| EncodeLoops.FillData | internal/engine/pipeline.go:186-189 | a recycled buffer holds header, ciphertext and zeros afterwards, whatever it held before |
| EncodeLoops.FillSlots | internal/engine/pipeline.go:206-211 | the disk buffer holds payload and tag of every slot in order |
| EncodeLoops.EncodeJob | internal/engine/pipeline.go:175-222 | the three buffers hold the data area, the intra-blob parity and the blob's slots, slot j being shard j and its tag; the nonce is prefix and index; overflow is an error |
| EncodeLoops.AreaBytes | internal/engine/pipeline.go:176-189 | a data area is magic, index, length, prefix and index again, then the plaintext sealed under the last two with the header as associated data, then zeros |
| EncodeLoops.TagColumns | internal/engine/pipeline.go:320-325 | the slot buffer holds every column of a shard with its tag |
| EncodeLoops.WriteWindow | internal/engine/pipeline.go:319-330 | the file receives one write per parity shard of the window, in order |
| EncodeLoops.WriteParityGroup | internal/engine/pipeline.go:288-333 | the file receives the writes of all windows of the group, or none if no such code exists |
| StreamedParity.SliceIsWindow | internal/codec/codec.go:105-110 | a zero-copy window of the retained buffers is the window of the blob's interleaved slots |
| StreamedParity.ParityPutIsSlots | internal/engine/pipeline.go:291-333 | every parity write carries the slots that column-by-column encoding defines |
| StreamedParity.ParityPlacement | internal/engine/pipeline.go:326 | the offset computed from the running group counter is where the reader looks once the chunk count is known |
| StreamedParity.DataPlacement | internal/engine/pipeline.go:238 | the write loop's offset of a chunk is the reader's |
| Writes.Dst.SeekWrite | internal/engine/pipeline.go:335-348 | run without interruption, a positioned write overwrites exactly its range, extending the file if needed |
| Writes.OverwriteBytes | internal/engine/pipeline.go:335-348 | after a write each byte is the new one where it was written, elsewhere the old one, and zero in a gap |
| Writes.DisjointWritesSurvive | internal/engine/pipeline.go:335-348 | writes that touch no common byte all survive in the file |
| Chunking.ChunksAreCut | internal/engine/pipeline.go:109-140 | cutting loses nothing: full chunks but the last, which is not empty, and as many as the length says |
| Chunking.CutIsUnique | internal/engine/pipeline.go:109-140 | a well-cut sequence is the cut of its concatenation |
| Chunking.ByteInChunk | reader.go:94-95 | byte p of the plaintext is byte p mod chunk size of chunk p div chunk size |
| ExpectedWrites.ExpectApart | internal/engine/pipeline.go:238-327 | different writes of a container touch different bytes |
| ExpectedWrites.CompleteLog | internal/engine/pipeline.go:224-333 | once all due writes were made, in any order, length and blobs are the sequential encoder's |
| PipelineOrder.OrderStep | internal/engine/pipeline.go:153-262 | every step keeps each issued job at exactly one place, consumed in index order |
| PipelineOrder.NothingLeft | internal/engine/pipeline.go:257-259 | when the write loop ends every job is consumed and none is pending |
| PipelineQueue.QueueStep | internal/engine/pipeline.go:238-286 | every step keeps the parity queue such that each flush finds its own number of blobs, in order as long as nothing failed |
| PipelineQueue.FlushIsRight | internal/engine/pipeline.go:274-276 | a received flush names the accumulated number of blobs, and the code of that size exists |
| PipelineMemory.MemoryStep | internal/engine/pipeline.go:186-221 | every step keeps each buffer with one holder and with the contents that holder needs |
| PipelineMemory.EncodedOk | internal/engine/pipeline.go:186-220 | an encode takes three different buffers and fills them with its own chunk's data, parity and slots |
| PipelineMemory.PutAllOk | internal/engine/pipeline.go:279-284 | recycling a group puts back each of its buffers once and touches no other |
| PipelineText.TextStep | internal/engine/pipeline.go:108-156 | every step keeps issued chunks, chunk buffer and uncopied input together equal to the accepted plaintext |
| PipelineFile.JobsArePlanned | internal/engine/pipeline.go:108-156 | without a failure the jobs are a prefix of the sequential cut, and all of it once drained |
| PipelineFile.DataDue | internal/engine/pipeline.go:237-240 | the write loop's data write is the due one, at the due place |
| PipelineFile.EncodedIsDue | internal/engine/pipeline.go:305-326 | a parity window encoded from the accumulated buffers is the due one |
| PipelineFile.FileStep | internal/engine/pipeline.go:224-348 | every step keeps the file equal to exactly the due writes before each loop's position |
| PipelineTheorems.RunsKeepInvariant | internal/engine/pipeline.go:108-366 | every state of every run satisfies all of these invariants |
| PipelineTheorems.NoBufferShared | internal/engine/pipeline.go:186-286 | in every state of every run, failing or not, a buffer is at no more than one place and a pool lists it once |
| PipelineTheorems.ParityReadsItsChunks | internal/engine/pipeline.go:216-218 | what the parity loop reads is what the worker encoded for that chunk, as long as it holds it |
| PipelineTheorems.NoOrderingLoss | internal/engine/pipeline.go:257-259 | the job ordering loss error cannot occur in any run |
| PipelineTheorems.NoGroupMismatch | internal/engine/pipeline.go:274-276 | the parity group size error cannot occur in any run |
| PipelineTheorems.ErrorMeansFailure | internal/engine/pipeline.go:131-151 | the error is set if and only if an encode or a write failed, and a returned pipeline has consumed every job once |
| PipelineSticky.ErrorStops | internal/engine/pipeline.go:108-173 | once the error is set it stays, no more plaintext is accepted, and no chunk that has not passed its worker's check by then is ever written |
| PipelineFailures.EvenWhenFailing | internal/engine/pipeline.go:224-348 | in every run, failing or not, the parity loop only has chunks whose write succeeded, and without a race every chunk was written at its own offset with its own slots and every parity window at an offset of its group |
| PipelineBuffers.NoBufferLost | internal/engine/pipeline.go:186-286 | when Drain has returned without an error every buffer ever made is back in a pool |
| PipelineTheorems.DrainRefinesSequential | internal/engine/pipeline.go:108-348 | if Drain returns no error and the loops never raced for the cursor, chunks, plaintext size, file length and blobs are those of a sequential encoder, for every interleaving |
| PipelineTheorems.ChunksIndependentOfWrites | internal/engine/pipeline.go:108-156 | the chunks are the cut of the accepted plaintext, wherever the Write calls were split |
| PipelineProgress.NeverStuck | internal/engine/pipeline.go:131-286 | for any capacities of at least 1 some goroutine can take a step that does not fail until Drain has returned |
| PipelineTermination.RunsAreBounded | internal/engine/pipeline.go:131-286 | every step lowers a budget, so no run is longer than its first budget |
| PipelineTermination.RunsCanFinish | internal/engine/pipeline.go:131-151 | every run can be continued without a failure until Drain has returned |
| PipelineOneGroup.NeverRaces | internal/engine/pipeline.go:224-286 | with at most 128 chunks the parity loop only writes when all data is written, so no run without a failure races for the cursor |
| PipelineOneGroup.OneGroupRefinesSequential | internal/engine/pipeline.go:108-348 | with at most 128 chunks every run that returns no error leaves the sequential encoder's chunks, sizes and file |
| PipelineRace.RacingRun | internal/engine/pipeline.go:335-348 | with more than 128 chunks there is a run that returns no error although a data blob was written in the wrong place and the file is not the sequential encoder's |
| PipelineRace.PlacementIff | internal/engine/pipeline.go:335-348 | all runs that return no error write every data blob in place if and only if the plaintext has at most 128 chunks |
| PipelineRace.RefinementIff | internal/engine/pipeline.go:108-348 | all runs that return no error leave a file of the sequential encoder's length and blobs if and only if the plaintext has at most 128 chunks |
| PipelinePending.OneWorkerBound | internal/engine/pipeline.go:224-262 | with one worker no run, failing or not, has more than one chunk pending, and the chunks in flight fit the channels, the worker and the write loop's hand |
| PipelinePending.EverythingPending | internal/engine/pipeline.go:224-262 | with more workers some run has every chunk but the first pending at once, whatever the channels' capacities |
| PipelinePending.BoundIff | FORMAT.md:107 | with more workers the chunks in flight stay within a bound in every run if and only if the plaintext has no more chunks than the bound |
| ScrubLoops.WriteBack | internal/engine/scrub.go:61-71 | the write-back turns the blob into the patched blob and leaves the rest of the file |
| ScrubLoops.ScrubChunk | internal/engine/scrub.go:34-73 | one chunk's fate, bad slots and blob after the first pass |
| ScrubLoops.FirstPass | internal/engine/scrub.go:33-74 | the first pass leaves the image, counters and lists of the reference |
| ScrubLoops.RestoreGroup | internal/engine/scrub.go:88-119 | one group's chunks are rebuilt together and each gets its verdict |
| ScrubLoops.SecondPass | internal/engine/scrub.go:76-120 | the second pass leaves the image, count and lost list of the reference |
| ScrubLoops.CheckRow | internal/engine/scrub.go:245-265 | the innermost loop rewrites exactly the slots whose tag fails or whose payload differs, and counts them |
| ScrubLoops.CheckGroup | internal/engine/scrub.go:221-267 | a group's windows are compared up to the first that does not verify |
| ScrubLoops.RebuildFileParity | internal/engine/scrub.go:198-270 | the third pass leaves the image and count of the reference, including where it gives up |
| ScrubLoops.Scrub | internal/engine/scrub.go:26-129 | file and report after Scrub or Verify are those of the reference, and the trailer is untouched |
| ScrubReport.ReportCounts | internal/engine/scrub.go:14-129 | for any file: the chunk counters are the numbers of chunks by fate, the lost list names first the chunks lost early, ShardsBad is the number of slots (i, j) that fail their tag, ShardsRepaired that of those in repaired chunks, ParitySlotsBad that of the parity slots compared and found wrong, and ParityShardsFixed the same with a writer and 0 without |
| ScrubReport.ParityCountUnderDamage | internal/engine/scrub.go:198-270 | when damage is detected, ParitySlotsBad is the number of parity slots of the unskipped groups that are not the ones written |
| ScrubTheorems.FirstUnderDamage | internal/engine/scrub.go:33-74 | a chunk with at most 128 bad slots ends clean or repaired with its original blob, any other waits |
| ScrubTheorems.GroupUnderDamage | internal/engine/scrub.go:88-119 | a group is rebuilt exactly when it has enough shards, and then exactly |
| ScrubTheorems.ThirdUnderDamage | internal/engine/scrub.go:198-270 | parity of every group without a late loss is restored, other parity is untouched |
| ScrubTheorems.ScrubRestores | internal/engine/scrub.go:26-129 | scrubbing restores data and parity of every group without a lost chunk byte for byte; elsewhere every chunk that is not lost, and leaves that parity alone |
| ScrubTheorems.NothingLost | internal/engine/scrub.go:26-129 | when nothing is lost the scrubbed container is the original |
| ScrubTheorems.ScrubIdempotent | internal/engine/scrub.go:26-129 | a second run changes nothing |
| ScrubTheorems.SecondReport | internal/engine/scrub.go:26-129 | the second run repairs, rebuilds and fixes nothing, finds clean what was clean, repaired or rebuilt, and loses the same chunks |
| Verdicts.ReportPartitions | internal/engine/scrub.go:14-24 | for any file, clean, repaired, rebuilt and lost partition the chunks, and the lost list names each lost chunk once |
| Verdicts.ReadsIff | internal/engine/container.go:300-323 | LoadChunk returns the chunk if and only if its blob has at most 128 bad slots or its group has enough shards in every window |
| Verdicts.WriteBackHelps | internal/engine/scrub.go:61-71 | first-pass write-backs never make a group unrebuildable |
| Verdicts.NotLostIsReadable | internal/engine/scrub.go:33-120 | every chunk Verify does not report lost is read correctly from the damaged file |
| Verdicts.ScrubLosesNoMore | internal/engine/scrub.go:33-120 | every chunk Scrub loses is one Verify reports lost |
| Verdicts.FileRestored | internal/engine/scrub.go:26-129 | when nothing is lost the scrubbed file is the original file byte for byte |
| Vouched.VerdictsHold | internal/engine/scrub.go:33-120 | for any file: after a scrub every chunk reported clean, repaired or rebuilt loads, and every chunk lost in the first pass is refused; Verify says so of the file as it is, except for rebuilt chunks |
| Vouched.NotLostIsWritten | internal/engine/scrub.go:26-129 | for any file, by the AEAD's promise alone: after a scrub every chunk that is not in the lost list loads as the chunk that was written |
| Vouched.StrongVerdictHolds | internal/engine/scrub.go:147-191 | a strong container of any contents loads after a scrub if and only if the scrub reports it clean or repaired |
| ParityPass.VisitedIff | internal/engine/scrub.go:198-235 | for any file the third pass checks a group as a whole if and only if the second pass lost none of its chunks and, in this and all earlier such groups, every tag verifies in the blobs that the first pass lost |
| ParityPass.LeftAloneIff | internal/engine/scrub.go:122-127 | exactly when a group with a lost chunk is left alone and when any other is checked |
| ParityPass.RuleUnderDamage | internal/engine/scrub.go:122-127 | when every damaged slot is detected, groups with a lost chunk are left alone and all others are checked as a whole |
| ParityPass.EarlyLossNotSkipped | internal/engine/scrub.go:54-57 | a chunk lost in the first pass keeps its blob and does not make the third pass skip its group |
| ParityPass.EarlyLossStopsParity | internal/engine/scrub.go:232-235 | one bad slot left in such a chunk of an unskipped group leaves the parity of every later group as it was |
| ParityPass.VerifyVisitedIff | internal/engine/scrub.go:198-235 | Verify checks a group as a whole only if in this and all earlier unskipped groups every data slot verifies as it stands, and then always |
| ParityPass.VerifyCountsAsScrub | internal/engine/scrub.go:26-129 | when the first two passes have nothing to write, Verify reports what Scrub does, bad parity slots included |
| EarlyLoss.MisfiledIsLost | internal/engine/scrub.go:54-57 | a blob of another chunk with at most 128 bad slots is lost in the first pass, and the read path refuses it for its index |
| EarlyLoss.ScrubbedGroup | internal/engine/scrub.go:236-266 | a group that is checked as a whole ends as its data blobs, right or wrong, with their parity |
| EarlyLoss.LastCopyLost | internal/engine/scrub.go:236-266 | with a sound but wrong blob in a chunk's place the group gives back the chunk before the scrub and the wrong blob after it |
| EarlyLoss.MisfiledChunk | internal/engine/scrub.go:54-57 | the blob of another chunk makes such a container, whatever was written |
| EarlyLoss.OneSlotStopsThePass | internal/engine/scrub.go:232-235 | with one slot of that blob damaged, the parity of every later group stays as it was, whatever its state |
| StoredTags.RepairedPassesIff | FORMAT.md:84 | under detected damage a blob's repaired payloads pass the tags stored beside them if and only if no tag of the blob was damaged |
| StoredTags.DamagedTagIsAccepted | internal/engine/container.go:151-172 | a blob with one damaged tag fails the documented check, and the code repairs it and reads the chunk as written |
| Strong.StrongRestores | internal/engine/strong.go:114-134 | at most 64 bad slots give back the original shards, more give nothing |
| Strong.StrongDecodes | internal/engine/strong.go:136-161 | the written shards decode to the plaintext, whatever its length |
| Strong.StrongReadsIff | internal/engine/strong.go:163-178 | a strong container reads back its plaintext if and only if at most 64 slots are bad, and otherwise gives an error |
| Strong.StrongScrubRestores | internal/engine/scrub.go:147-191 | scrubbing restores the slot area if and only if at most 64 slots are bad, and otherwise writes nothing |
| Strong.NeverAnotherPlaintext | internal/engine/strong.go:136-178 | for arbitrary slots and any manifest size, loading a strong container returns the plaintext that was sealed or an error |
| Strong.StrongAreaBytes | internal/engine/strong.go:57-63 | the strong data area is magic, index 0, length, nonce, then the plaintext sealed with the header as associated data, then zeros |
| Strong.StrongVerdict | internal/engine/strong.go:136-161 | the verdict on any strong data area by its bytes |
| Strong.StrongReportCounts | internal/engine/scrub.go:153-191 | the report of a strong scrub counts the failing slots, and exactly one of clean, repaired and lost is 1 |
| StrongLoops.Drain | internal/engine/strong.go:43-90 | the sink writes the container of its buffered plaintext at offset 0 |
| StrongLoops.DrainedIsStrongFile | internal/engine/strong.go:76-89 | the drained file has the payload size of the layout and its slots are the container's |
| StrongLoops.DrainedBytes | internal/engine/strong.go:65-89 | slot i of the drained file is shard i and its tag, the first 32 shards being the data area and the rest their parity |
| StrongLoops.StrongContainer.GatherStrongSlots | internal/engine/strong.go:94-112 | all payloads and exactly the slots whose tag fails |
| StrongLoops.StrongContainer.ReconstructStrong | internal/engine/strong.go:114-134 | the loop computes the repair function |
| StrongLoops.StrongContainer.DecodeStrongArea | internal/engine/strong.go:136-161 | the header checks and the authentication verdict |
| StrongLoops.StrongContainer.LoadStrong | internal/engine/strong.go:163-178 | the strong read path |
| StrongLoops.StrongContainer.ScrubStrong | internal/engine/scrub.go:147-191 | report and slots are those of the reference, and the trailer is untouched |
| Reader.Reader.Cached | reader.go:154-161 | a cache hit is the chunk its index names |
| Reader.Reader.ReadChunks | reader.go:88-112 | through any cache state the buffer receives exactly the slice asked for, and a short read ends with EOF at the end of the plaintext or with the chunk that failed |
| Reader.Reader.ReadSmall | reader.go:137-152 | the same for a single-blob container, which fails exactly when it does not load |
| Reader.Reader.ReadAt | reader.go:77-112 | no error if and only if the buffer was filled, EOF if and only if the plaintext ended first; an error names the chunk at the position reached and why it does not load; when all the chunks touched load, the count is exactly what the plaintext has |
| Reader.Reader.ReadChunkAt | reader.go:46-75 | the chunk of that index, out of range exactly when there is none, and an error only when the chunk does not load, with its reason |
| WriterOptions.FoldOptions | writer.go:115-118 | options apply in order |
| WriterOptions.OptionsAreSafe | writer.go:27-81 | whatever the options, workers and channels have room, the layout is one that tiles, and the format is v3 exactly when some option asked for a scheme |
| WriterOptions.LastSchemeWins | writer.go:45-81 | the last option that asks for a scheme decides it |
| WriterOptions.LastValueWins | writer.go:27-59 | workers, channel capacity and parity cap are those of the last option in range, else the defaults |
| WriterOptions.OnlyStrongManifest | writer.go:262-275 | the manifest and file size that Close records for a strong container are the only ones opening accepts |
| EndToEnd.FileHolds | internal/engine/pipeline.go:108-348 | after any error-free run without a race or of at most 128 chunks the file holds the bytes of FileContents and no more |
| EndToEnd.WrittenThenRead | internal/engine/container.go:300-323 | after any error-free run without a race or of at most 128 chunks, under detected damage, a chunk reads as written exactly when repair or its group suffices, and is reported unrecoverable otherwise |
| EndToEnd.LoadsAreFaithful | reader.go:94-106 | for arbitrary file contents, the chunks a reader loads are those of the plaintext that was sealed |
| EndToEnd.ClosedManifestAccepted | writer.go:222-242 | the counts of such a run make the manifest of the plaintext's size, which opening accepts, with the trailer right behind the blobs |
| EndToEnd.ReadsWhatWasWritten | internal/engine/container.go:268-323 | under both laws of the AEAD, after any error-free run and whatever the file holds later, LoadChunk gives the chunk written under that index or an error, and from the untouched file of such a run the chunk |
| EndToEnd.EveryPipelineHasLaws | internal/engine/pipeline.go:176-184 | for every plaintext and setting there are primitives that open what the pipeline seals and nothing else |
| EndToEnd.DualIsFaithful | reader.go:88-112 | what a reader of chunks assumes of its file holds of any file by the AEAD's promise |
| EndToEnd.SingleIsFaithful | reader.go:137-152 | the same of a reader of a single blob |
| EndToEnd.RunNonces | internal/engine/pipeline.go:176-180 | in every run, failing or not, all nonces begin with the container's prefix and no two chunks share one |

## Left out

- PipelineTheorems.DrainRefinesSequential: assumes that the write loop and the parity loop are never both between a seek and its write, because without that the statement is false for every plaintext of more than 128 chunks (PipelineRace.RefinementIff).
- PipelineMemory.MemoryStep: an encode is one step of its worker, and recycling a group one step of the parity loop; both touch only buffers the goroutine holds. A pool never drops a buffer.
- Reader.Reader.ReadAt: assumes that the manifest's plaintext size and chunk count are those of the sealed text, because the source does not compare the chunks' lengths with them.
- Reader.Reader.ReadChunkAt: the result is a value, so reuse of the caller's buffer is not modelled.
- ScrubLoops.SecondPass: groups are visited in ascending order directly, where the source collects them in a map and sorts the keys.
- Writes.Dst.SeekWrite: the method is the write that succeeds; a seek or write that fails is a step of the pipeline's transition system.
- EncodeLoops.EncodeJob: the intra-blob encoder's error return is a step of the transition system too, and so are those in EncodeLoops.WriteParityGroup.
- Engine.Container.GatherBlob: reads do not fail, here and in the methods built on it.
- Read and write errors other than the pipeline's, short reads and short writes: a file is a byte sequence, reads return its slice and in-place writes succeed. A failed pipeline write leaves any prefix of its data.
- The Reed-Solomon libraries: used through their contract. The Cauchy code shows that the contract can be met for the file-level and strong sizes; for the 384-shard intra-blob code, whose symbols are wider than a byte, it stays an assumption.
- AES-GCM, HKDF, SHA-256 and random numbers: functions with the laws named above, or parameters.
- Go's memory model: locks are atomic, and a goroutine's step sees the last state.
- Constants of the layout are the source's values, not parameters.
- Open, size resolution and the JSON text of the manifest: the manifest is a record.
- The gcm-only scheme, the container's concurrency, error wrapping, the codec cache and its warm-up, `demo/`, benchmark timing and `unit/`.
- The vector registers of the NEON kernel: its 16-byte blocks are loops over bytes.

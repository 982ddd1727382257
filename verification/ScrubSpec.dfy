/** What a scrub does to a container and what it reports (internal/engine/scrub.go),
    blob by blob: the reference the loops of module ScrubLoops are proved against. */
module ScrubSpec {
  import opened Bytes
  import opened ErasureCode
  import opened Layout
  import opened Vault
  import opened Repair
  import opened Encoder

  /** The fate of a chunk. Pending chunks wait for the second pass; LostEarly are
      those whose repaired blob does not decode, LostLate those the second pass
      could not bring back. */
  datatype Fate = Clean | Repaired | Pending | Rebuilt | LostEarly | LostLate

  ghost predicate Opened(v: Vault, img: Image) {
    v.spec.Valid() && TagsOk(v.cr) && CodesOk(v.cr) && Shaped(img, v.Total())
  }

  /** The blob at a place of the layout. */
  function At(v: Vault, img: Image, b: Blob): (blob: seq<Slot>)
    requires v.spec.Valid() && Shaped(img, v.Total()) && InContainer(v.spec, v.chunkCount, b)
    ensures Whole(blob)
  {
    PlaceIsValid(v.spec, v.chunkCount, b);
    img[Place(v.spec, v.chunkCount, b)]
  }

  /** Images that agree at every place are equal. */
  lemma SameImage(v: Vault, a: Image, b: Image)
    requires v.spec.Valid() && Shaped(a, v.Total()) && Shaped(b, v.Total())
    requires forall p :: InContainer(v.spec, v.chunkCount, p) ==> At(v, a, p) == At(v, b, p)
    ensures a == b
  {
    hide Place, InContainer, Locate;
    forall n | 0 <= n < v.Total()
      ensures a[n] == b[n]
    {
      PlaceIsTaken(v.spec, v.chunkCount, n);
      assert At(v, a, Locate(v.spec, v.chunkCount, n)) == At(v, b, Locate(v.spec, v.chunkCount, n));
    }
  }

  /** Replacing one blob changes that place only. */
  lemma AtUpdated(v: Vault, img: Image, b: Blob, blob: seq<Slot>, p: Blob)
    requires v.spec.Valid() && Shaped(img, v.Total()) && Whole(blob)
    requires InContainer(v.spec, v.chunkCount, b) && InContainer(v.spec, v.chunkCount, p)
    ensures Place(v.spec, v.chunkCount, b) < |img|
    ensures Shaped(img[Place(v.spec, v.chunkCount, b) := blob], v.Total())
    ensures At(v, img[Place(v.spec, v.chunkCount, b) := blob], p) == if p == b then blob else At(v, img, p)
  {
    hide InContainer, Locate, Place;
    PlaceIsValid(v.spec, v.chunkCount, b);
    PlaceIsValid(v.spec, v.chunkCount, p);
  }

  lemma DataAt(v: Vault, img: Image, i: nat)
    requires v.spec.Valid() && Shaped(img, v.Total()) && i < v.chunkCount
    ensures InContainer(v.spec, v.chunkCount, Data(i)) && At(v, img, Data(i)) == DataBlob(v, img, i)
  {}

  lemma ParityIndex(v: Vault, b: Blob)
    requires v.spec.Valid() && b.Parity? && InContainer(v.spec, v.chunkCount, b)
    ensures b.g < v.Groups() && b.q < v.M(b.g) && b == Parity(b.g, b.q)
  {}

  lemma CodesParts(cr: Crypto)
    requires CodesOk(cr)
    ensures IntraOk(cr) && FileCodesOk(cr)
  {}

  // ---------- pass 1: each blob by itself ----------

  function FirstFate(v: Vault, img: Image, i: nat): Fate
    requires v.spec.Valid() && Shaped(img, v.Total()) && i < v.chunkCount
  {
    var blob := DataBlob(v, img, i);
    match InBlob(v.cr, blob)
    case None => Pending
    case Some(p) =>
      if DecodeChunk(v.cr, i, p).Rejected? then LostEarly
      else if Bad(v.cr, blob) == [] then Clean else Repaired
  }

  /** A blob with its bad slots rewritten from repaired payloads. */
  function Patched(cr: Crypto, blob: seq<Slot>, payloads: seq<Bytes>): (r: seq<Slot>)
    requires |payloads| == |blob|
    ensures |r| == |blob|
  {
    seq(|blob|, j requires 0 <= j < |blob| => if Good(cr, blob[j]) then blob[j] else Fresh(cr, payloads[j]))
  }

  lemma PatchedWhole(cr: Crypto, blob: seq<Slot>)
    requires TagsOk(cr) && Whole(blob) && InBlob(cr, blob).Some?
    ensures Whole(Patched(cr, blob, InBlob(cr, blob).value))
  {
    BadFacts(cr, blob, |blob|);
    var p := InBlob(cr, blob).value;
    forall j | 0 <= j < |blob| && !Good(cr, blob[j])
      ensures |p[j]| == SHARD_SIZE
    {
      assert j in Bad(cr, blob);
    }
  }

  /** Data blob i after the first pass. */
  function FirstBlob(v: Vault, img: Image, write: bool, i: nat): (blob: seq<Slot>)
    requires Opened(v, img) && i < v.chunkCount
    ensures Whole(blob)
  {
    hide InBlob, DataBlob, Patched, DecodeChunk, Shaped;
    var blob := DataBlob(v, img, i);
    if write && FirstFate(v, img, i) == Repaired then
      PatchedWhole(v.cr, blob);
      Patched(v.cr, blob, InBlob(v.cr, blob).value)
    else blob
  }

  function FirstAt(v: Vault, img: Image, write: bool, b: Blob): (blob: seq<Slot>)
    requires Opened(v, img) && InContainer(v.spec, v.chunkCount, b)
    ensures Whole(blob)
  {
    if b.Data? then FirstBlob(v, img, write, b.i) else At(v, img, b)
  }

  lemma ShapedIntro(img: Image, total: nat)
    requires |img| == total && forall n :: 0 <= n < total ==> Whole(img[n])
    ensures Shaped(img, total)
  {}

  function FirstImage(v: Vault, img: Image, write: bool): (r: Image)
    requires Opened(v, img)
    ensures Shaped(r, v.Total())
  {
    hide FirstAt, Whole, InContainer, Locate, Shaped, TagsOk, CodesOk;
    var r := seq(v.Total(), n requires 0 <= n < v.Total() =>
      PlaceIsTaken(v.spec, v.chunkCount, n);
      FirstAt(v, img, write, Locate(v.spec, v.chunkCount, n)));
    ShapedIntro(r, v.Total());
    r
  }

  lemma FirstImageAt(v: Vault, img: Image, write: bool, b: Blob)
    requires Opened(v, img) && InContainer(v.spec, v.chunkCount, b)
    ensures At(v, FirstImage(v, img, write), b) == FirstAt(v, img, write, b)
  {
    hide FirstAt, InContainer, Locate, Place, Shaped, CodesOk, TagsOk;
    PlaceIsValid(v.spec, v.chunkCount, b);
  }

  function FirstFates(v: Vault, img: Image): (fates: seq<Fate>)
    requires v.spec.Valid() && Shaped(img, v.Total())
    ensures |fates| == v.chunkCount
  {
    seq(v.chunkCount, i requires 0 <= i < v.chunkCount => FirstFate(v, img, i))
  }

  // ---------- pass 2: each group's pending blobs at once ----------

  predicate IsPending(fates: seq<Fate>, g: nat, pos: int)
    requires 0 <= pos && g * FILE_GROUP_CHUNKS + pos < |fates|
  {
    fates[g * FILE_GROUP_CHUNKS + pos] == Pending
  }

  /** The positions in group g whose chunks are pending. */
  function PendingIn(fates: seq<Fate>, g: nat, k: nat): set<int>
    requires g * FILE_GROUP_CHUNKS + k <= |fates|
  {
    set pos | 0 <= pos < k && IsPending(fates, g, pos)
  }

  /** What the second pass makes of group g: its pending blobs' payloads, if any. */
  function SecondGroup(v: Vault, img: Image, fates: seq<Fate>, g: nat): (r: Option<map<int, seq<Bytes>>>)
    requires v.spec.Valid() && Shaped(img, v.Total()) && |fates| == v.chunkCount && g < v.Groups()
    ensures g * FILE_GROUP_CHUNKS + v.K(g) <= |fates|
    ensures r.Some? ==> r.value.Keys == PendingIn(fates, g, v.K(g))
    ensures r.Some? ==> forall pos :: pos in r.value ==> |r.value[pos]| == SHARDS_PER_BLOB
  {
    GroupSizes(v, g);
    hide GroupRebuild, Shaped;
    GroupRebuild(v, img, g, PendingIn(fates, g, v.K(g)))
  }

  lemma PendingPosition(v: Vault, fates: seq<Fate>, i: nat)
    requires v.spec.Valid() && |fates| == v.chunkCount && i < v.chunkCount && fates[i] == Pending
    ensures i / FILE_GROUP_CHUNKS < v.Groups()
    ensures i / FILE_GROUP_CHUNKS * FILE_GROUP_CHUNKS + v.K(i / FILE_GROUP_CHUNKS) <= |fates|
    ensures i % FILE_GROUP_CHUNKS in PendingIn(fates, i / FILE_GROUP_CHUNKS, v.K(i / FILE_GROUP_CHUNKS))
  {
    DataNoBound(v, i);
    var g := i / FILE_GROUP_CHUNKS;
    GroupSizes(v, g);
    assert IsPending(fates, g, i % FILE_GROUP_CHUNKS);
  }

  /** The payloads the second pass finds for pending chunk i. */
  function SecondPayloads(v: Vault, img: Image, fates: seq<Fate>, i: nat): (r: Option<seq<Bytes>>)
    requires v.spec.Valid() && Shaped(img, v.Total()) && |fates| == v.chunkCount && i < v.chunkCount && fates[i] == Pending
    ensures r.Some? ==> |r.value| == SHARDS_PER_BLOB
  {
    hide SecondGroup, Shaped, PendingIn;
    PendingPosition(v, fates, i);
    var m := SecondGroup(v, img, fates, i / FILE_GROUP_CHUNKS);
    if m.Some? then Some(m.value[i % FILE_GROUP_CHUNKS]) else None
  }

  function SecondFate(v: Vault, img: Image, fates: seq<Fate>, i: nat): Fate
    requires v.spec.Valid() && Shaped(img, v.Total()) && |fates| == v.chunkCount && i < v.chunkCount
  {
    hide SecondPayloads, Shaped, DecodeChunk;
    if fates[i] != Pending then fates[i]
    else
      match SecondPayloads(v, img, fates, i)
      case None => LostLate
      case Some(p) => if DecodeChunk(v.cr, i, p).Plain? then Rebuilt else LostLate
  }

  function SecondFates(v: Vault, img: Image, fates: seq<Fate>): (r: seq<Fate>)
    requires v.spec.Valid() && Shaped(img, v.Total()) && |fates| == v.chunkCount
    ensures |r| == v.chunkCount
  {
    seq(v.chunkCount, i requires 0 <= i < v.chunkCount => SecondFate(v, img, fates, i))
  }

  /** Rebuilt payloads have the shard size. */
  lemma RebuiltUniform(v: Vault, img: Image, g: nat, missing: set<int>, pos: int)
    requires v.spec.Valid() && Shaped(img, v.Total()) && g < v.Groups()
    requires GroupRebuild(v, img, g, missing).Some? && pos in missing
    ensures Uniform(GroupRebuild(v, img, g, missing).value[pos], SHARD_SIZE)
  {
    hide GroupBlobs, Shaped, RebuildWindow, Blocks;
    BlobLength();
    UniformBlocks(RebuiltBytes(v.cr, GroupBlobs(v, img, g), v.K(g), missing, pos, WINDOWS), SHARD_SIZE, SHARDS_PER_BLOB);
  }

  lemma SecondUniform(v: Vault, img: Image, fates: seq<Fate>, i: nat)
    requires v.spec.Valid() && Shaped(img, v.Total()) && |fates| == v.chunkCount && i < v.chunkCount && fates[i] == Pending
    requires SecondPayloads(v, img, fates, i).Some?
    ensures Uniform(SecondPayloads(v, img, fates, i).value, SHARD_SIZE)
  {
    hide GroupRebuild, Shaped;
    DataNoBound(v, i);
    var g := i / FILE_GROUP_CHUNKS;
    GroupSizes(v, g);
    RebuiltUniform(v, img, g, PendingIn(fates, g, v.K(g)), i % FILE_GROUP_CHUNKS);
  }

  /** Data blob i after the second pass. */
  function SecondBlob(v: Vault, img: Image, fates: seq<Fate>, write: bool, i: nat): (blob: seq<Slot>)
    requires Opened(v, img) && |fates| == v.chunkCount && i < v.chunkCount
    ensures Whole(blob)
  {
    hide SecondPayloads, Shaped, DecodeChunk, FreshSlots, Whole, CodesOk, Payloads;
    if write && fates[i] == Pending && SecondFate(v, img, fates, i) == Rebuilt then
      SecondUniform(v, img, fates, i);
      FreshSlotsFacts(v.cr, SecondPayloads(v, img, fates, i).value);
      FreshSlots(v.cr, SecondPayloads(v, img, fates, i).value)
    else DataBlob(v, img, i)
  }

  function SecondAt(v: Vault, img: Image, fates: seq<Fate>, write: bool, b: Blob): (blob: seq<Slot>)
    requires Opened(v, img) && |fates| == v.chunkCount && InContainer(v.spec, v.chunkCount, b)
    ensures Whole(blob)
  {
    if b.Data? then SecondBlob(v, img, fates, write, b.i) else At(v, img, b)
  }

  function SecondImage(v: Vault, img: Image, fates: seq<Fate>, write: bool): (r: Image)
    requires Opened(v, img) && |fates| == v.chunkCount
    ensures Shaped(r, v.Total())
  {
    hide SecondAt, Whole, InContainer, Locate, Shaped, TagsOk, CodesOk;
    var r := seq(v.Total(), n requires 0 <= n < v.Total() =>
      PlaceIsTaken(v.spec, v.chunkCount, n);
      SecondAt(v, img, fates, write, Locate(v.spec, v.chunkCount, n)));
    ShapedIntro(r, v.Total());
    r
  }

  lemma SecondImageAt(v: Vault, img: Image, fates: seq<Fate>, write: bool, b: Blob)
    requires Opened(v, img) && |fates| == v.chunkCount && InContainer(v.spec, v.chunkCount, b)
    ensures At(v, SecondImage(v, img, fates, write), b) == SecondAt(v, img, fates, write, b)
  {
    hide SecondAt, InContainer, Locate, Place, Shaped, CodesOk, TagsOk;
    PlaceIsValid(v.spec, v.chunkCount, b);
  }

  // ---------- pass 3: file-level parity ----------

  /** A group is left alone when the second pass lost one of its chunks. */
  predicate Skipped(v: Vault, fates: seq<Fate>, g: nat)
    requires v.spec.Valid() && |fates| == v.chunkCount && g < v.Groups()
  {
    GroupSizes(v, g);
    exists i :: g * FILE_GROUP_CHUNKS <= i < g * FILE_GROUP_CHUNKS + v.K(g) && fates[i] == LostLate
  }

  /** Every data blob of the group verifies in window w. */
  predicate DataReady(v: Vault, img: Image, g: nat, w: nat)
    requires v.spec.Valid() && Shaped(img, v.Total()) && g < v.Groups() && w < WINDOWS
  {
    forall n :: 0 <= n < v.K(g) ==> WindowGood(v.cr, BlobOf(v, img, g, n), w)
  }

  /** How many of the first n windows are ready before the first that is not. */
  function ReadyPrefix(v: Vault, img: Image, g: nat, n: nat): (r: nat)
    requires v.spec.Valid() && Shaped(img, v.Total()) && g < v.Groups() && n <= WINDOWS
    ensures r <= n
    ensures forall w :: 0 <= w < r ==> DataReady(v, img, g, w)
    ensures r < n ==> !DataReady(v, img, g, r)
  {
    if n == 0 then 0
    else
      hide DataReady, Shaped;
      var r := ReadyPrefix(v, img, g, n - 1);
      if r == n - 1 && DataReady(v, img, g, n - 1) then n else r
  }

  /** A bad data window in an earlier group ends the pass for good. */
  predicate Abandoned(v: Vault, img: Image, fates: seq<Fate>, n: nat)
    requires v.spec.Valid() && Shaped(img, v.Total()) && |fates| == v.chunkCount && n <= v.Groups()
  {
    n > 0 && (Abandoned(v, img, fates, n - 1) || (!Skipped(v, fates, n - 1) && ReadyPrefix(v, img, n - 1, WINDOWS) < WINDOWS))
  }

  /** The windows of group g whose parity the pass recomputes. */
  function Visited(v: Vault, img: Image, fates: seq<Fate>, g: nat): (r: nat)
    requires v.spec.Valid() && Shaped(img, v.Total()) && |fates| == v.chunkCount && g < v.Groups()
    ensures r <= WINDOWS
  {
    hide Skipped, Abandoned, Shaped;
    if Skipped(v, fates, g) || Abandoned(v, img, fates, g) then 0 else ReadyPrefix(v, img, g, WINDOWS)
  }

  /** Window w of the group's data blobs. */
  function DataWindows(v: Vault, img: Image, g: nat, w: nat): (data: Shards)
    requires v.spec.Valid() && Shaped(img, v.Total()) && g < v.Groups() && w < WINDOWS
    ensures |data| == v.K(g) && Uniform(data, WINDOW_BYTES)
  {
    hide WindowPayload, Whole, Shaped, BlobOf;
    var data := seq(v.K(g), n requires 0 <= n < v.K(g) => WindowPayload(BlobOf(v, img, g, n), w));
    assert forall n :: 0 <= n < v.K(g) ==> |data[n]| == WINDOW_BYTES by {
      forall n | 0 <= n < v.K(g)
        ensures |data[n]| == WINDOW_BYTES
      {
        WindowPayloadLength(BlobOf(v, img, g, n), w);
      }
    }
    data
  }

  lemma WindowPayloadLength(blob: seq<Slot>, w: nat)
    requires Whole(blob) && w < WINDOWS
    ensures |WindowPayload(blob, w)| == WINDOW_BYTES
  {
    BlobLength();
    ConcatLength(Payloads(blob[w * WINDOW..w * WINDOW + WINDOW]), SHARD_SIZE);
  }

  /** The parity recomputed for window w of group g. */
  function NewParity(v: Vault, img: Image, g: nat, w: nat): (out: Shards)
    requires v.spec.Valid() && Shaped(img, v.Total()) && FileCodesOk(v.cr) && g < v.Groups() && w < WINDOWS
    ensures |out| == v.M(g) && Uniform(out, WINDOW_BYTES)
  {
    hide Shaped, FileCodeOk, DataWindows;
    GroupSizes(v, g);
    FileCode(v.cr, v.K(g), v.M(g));
    EncodedSizes(v.cr, DataWindows(v, img, g, w), v.M(g));
    v.cr.file(v.K(g), v.M(g)).encode(DataWindows(v, img, g, w))
  }

  /** Column c of a window's shard. */
  function ColumnOf(out: Bytes, c: nat): (col: Bytes)
    requires |out| == WINDOW_BYTES && c < WINDOW
    ensures |col| == SHARD_SIZE
  {
    out[c * SHARD_SIZE..(c + 1) * SHARD_SIZE]
  }

  /** The test on a parity slot: its tag fails or it is not the recomputed column. */
  predicate WrongSlot(cr: Crypto, s: Slot, col: Bytes) {
    !Good(cr, s) || s.payload != col
  }

  /** A parity blob after its first n windows were checked against new columns. */
  function CheckedBlob(cr: Crypto, blob: seq<Slot>, outs: seq<Bytes>): (r: seq<Slot>)
    requires |blob| == SHARDS_PER_BLOB && |outs| <= WINDOWS && Uniform(outs, WINDOW_BYTES)
    ensures |r| == |blob|
  {
    seq(|blob|, j requires 0 <= j < |blob| =>
      if j / WINDOW < |outs| && WrongSlot(cr, blob[j], ColumnOf(outs[j / WINDOW], j % WINDOW))
      then Fresh(cr, ColumnOf(outs[j / WINDOW], j % WINDOW)) else blob[j])
  }

  lemma CheckedWhole(cr: Crypto, blob: seq<Slot>, outs: seq<Bytes>)
    requires TagsOk(cr) && Whole(blob) && |outs| <= WINDOWS && Uniform(outs, WINDOW_BYTES)
    ensures Whole(CheckedBlob(cr, blob, outs))
  {
    hide ColumnOf;
  }

  lemma CheckedNothing(cr: Crypto, blob: seq<Slot>, outs: seq<Bytes>)
    requires |blob| == SHARDS_PER_BLOB && outs == []
    ensures CheckedBlob(cr, blob, outs) == blob
  {}

  /** The recomputed windows of parity q that the pass compares. */
  function NewWindows(v: Vault, img: Image, g: nat, q: nat, n: nat): (outs: seq<Bytes>)
    requires v.spec.Valid() && Shaped(img, v.Total()) && FileCodesOk(v.cr) && g < v.Groups() && q < v.M(g) && n <= WINDOWS
    ensures |outs| == n && Uniform(outs, WINDOW_BYTES)
  {
    hide NewParity, Shaped, FileCodesOk;
    seq(n, w requires 0 <= w < n => NewParity(v, img, g, w)[q])
  }

  /** Parity q of group g after the third pass. */
  function ThirdBlob(v: Vault, img: Image, fates: seq<Fate>, write: bool, g: nat, q: nat): (blob: seq<Slot>)
    requires Opened(v, img) && |fates| == v.chunkCount && g < v.Groups() && q < v.M(g)
    ensures Whole(blob)
  {
    hide Shaped, CheckedBlob, NewWindows, Whole, BlobOf, Visited, TagsOk;
    var blob := BlobOf(v, img, g, v.K(g) + q);
    if write then
      var outs := NewWindows(v, img, g, q, Visited(v, img, fates, g));
      CheckedWhole(v.cr, blob, outs);
      CheckedBlob(v.cr, blob, outs)
    else blob
  }

  function ThirdAt(v: Vault, img: Image, fates: seq<Fate>, write: bool, b: Blob): (blob: seq<Slot>)
    requires Opened(v, img) && |fates| == v.chunkCount && InContainer(v.spec, v.chunkCount, b)
    ensures Whole(blob)
  {
    if b.Parity? then ThirdBlob(v, img, fates, write, b.g, b.q) else At(v, img, b)
  }

  function ThirdImage(v: Vault, img: Image, fates: seq<Fate>, write: bool): (r: Image)
    requires Opened(v, img) && |fates| == v.chunkCount
    ensures Shaped(r, v.Total())
  {
    hide ThirdAt, Whole, InContainer, Locate, Shaped, TagsOk, CodesOk;
    var r := seq(v.Total(), n requires 0 <= n < v.Total() =>
      PlaceIsTaken(v.spec, v.chunkCount, n);
      ThirdAt(v, img, fates, write, Locate(v.spec, v.chunkCount, n)));
    ShapedIntro(r, v.Total());
    r
  }

  lemma ThirdImageAt(v: Vault, img: Image, fates: seq<Fate>, write: bool, b: Blob)
    requires Opened(v, img) && |fates| == v.chunkCount && InContainer(v.spec, v.chunkCount, b)
    ensures At(v, ThirdImage(v, img, fates, write), b) == ThirdAt(v, img, fates, write, b)
  {
    hide ThirdAt, InContainer, Locate, Place, Shaped, CodesOk, TagsOk;
    PlaceIsValid(v.spec, v.chunkCount, b);
  }

  // ---------- the report ----------

  datatype Report = Report(total: nat, clean: nat, repaired: nat, rebuilt: nat, lost: seq<nat>,
                           shardsBad: nat, shardsRepaired: nat, paritySlotsBad: nat, parityShardsFixed: nat)

  /** How many of the first n chunks met this fate. */
  function Count(fates: seq<Fate>, f: Fate, n: nat): nat
    requires n <= |fates|
  {
    if n == 0 then 0 else Count(fates, f, n - 1) + if fates[n - 1] == f then 1 else 0
  }

  /** Which of the first n chunks met this fate, in order. */
  function Indices(fates: seq<Fate>, f: Fate, n: nat): seq<nat>
    requires n <= |fates|
  {
    if n == 0 then [] else Indices(fates, f, n - 1) + if fates[n - 1] == f then [n - 1] else []
  }

  /** The bad slots of the first n data blobs. */
  function BadSlots(v: Vault, img: Image, n: nat): nat
    requires v.spec.Valid() && Shaped(img, v.Total()) && n <= v.chunkCount
  {
    if n == 0 then 0 else BadSlots(v, img, n - 1) + |Bad(v.cr, DataBlob(v, img, n - 1))|
  }

  /** The bad slots of those among the first n that the first pass repairs. */
  function RepairedSlots(v: Vault, img: Image, n: nat): nat
    requires v.spec.Valid() && Shaped(img, v.Total()) && n <= v.chunkCount
  {
    if n == 0 then 0
    else RepairedSlots(v, img, n - 1) + if FirstFate(v, img, n - 1) == Repaired then |Bad(v.cr, DataBlob(v, img, n - 1))| else 0
  }

  /** Wrong slots among the first n of one parity blob's window. */
  function RowBad(cr: Crypto, blob: seq<Slot>, w: nat, out: Bytes, n: nat): nat
    requires |blob| == SHARDS_PER_BLOB && w < WINDOWS && |out| == WINDOW_BYTES && n <= WINDOW
  {
    if n == 0 then 0
    else RowBad(cr, blob, w, out, n - 1) + if WrongSlot(cr, blob[w * WINDOW + n - 1], ColumnOf(out, n - 1)) then 1 else 0
  }

  /** Wrong slots in window w of the group's first n parity blobs. */
  function WindowBad(v: Vault, img: Image, g: nat, w: nat, n: nat): nat
    requires v.spec.Valid() && Shaped(img, v.Total()) && FileCodesOk(v.cr) && g < v.Groups() && w < WINDOWS && n <= v.M(g)
  {
    hide NewParity, Shaped, FileCodesOk, RowBad, BlobOf;
    if n == 0 then 0
    else
      WindowBad(v, img, g, w, n - 1)
      + RowBad(v.cr, BlobOf(v, img, g, v.K(g) + n - 1), w, NewParity(v, img, g, w)[n - 1], WINDOW)
  }

  /** Wrong slots in the group's first n windows. */
  function GroupBad(v: Vault, img: Image, g: nat, n: nat): nat
    requires v.spec.Valid() && Shaped(img, v.Total()) && FileCodesOk(v.cr) && g < v.Groups() && n <= WINDOWS
  {
    if n == 0 then 0 else GroupBad(v, img, g, n - 1) + WindowBad(v, img, g, n - 1, v.M(g))
  }

  /** Wrong slots found in the first n groups. */
  function ParityBad(v: Vault, img: Image, fates: seq<Fate>, n: nat): nat
    requires v.spec.Valid() && Shaped(img, v.Total()) && FileCodesOk(v.cr) && |fates| == v.chunkCount && n <= v.Groups()
  {
    hide Visited, Shaped, FileCodesOk, GroupBad;
    if n == 0 then 0 else ParityBad(v, img, fates, n - 1) + GroupBad(v, img, n - 1, Visited(v, img, fates, n - 1))
  }

  // ---------- a whole run ----------

  /** The image after the first two passes, and after the whole run. */
  function AfterTwo(v: Vault, img: Image, write: bool): (r: Image)
    requires Opened(v, img)
    ensures Shaped(r, v.Total())
  {
    hide FirstImage, SecondImage, Shaped;
    SecondImage(v, FirstImage(v, img, write), FirstFates(v, img), write)
  }

  function Fates(v: Vault, img: Image, write: bool): (fates: seq<Fate>)
    requires Opened(v, img)
    ensures |fates| == v.chunkCount
  {
    hide FirstImage, SecondFates, Shaped;
    SecondFates(v, FirstImage(v, img, write), FirstFates(v, img))
  }

  function Scrubbed(v: Vault, img: Image, write: bool, parity: bool): (r: Image)
    requires Opened(v, img)
    ensures Shaped(r, v.Total())
  {
    hide AfterTwo, Fates, ThirdImage, Shaped;
    if parity then ThirdImage(v, AfterTwo(v, img, write), Fates(v, img, write), write) else AfterTwo(v, img, write)
  }

  function ReportOf(v: Vault, img: Image, write: bool, parity: bool): Report
    requires Opened(v, img)
  {
    hide AfterTwo, Fates, ParityBad, Shaped;
    var fates, n := Fates(v, img, write), v.chunkCount;
    var wrong := if parity then ParityBad(v, AfterTwo(v, img, write), fates, v.Groups()) else 0;
    Report(n, Count(fates, Clean, n), Count(fates, Repaired, n), Count(fates, Rebuilt, n),
           Indices(fates, LostEarly, n) + Indices(fates, LostLate, n),
           BadSlots(v, img, n), RepairedSlots(v, img, n), wrong, if write then wrong else 0)
  }
}

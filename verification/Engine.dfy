/** The read engine's loops (internal/engine/container.go and window.go), each
    proved to compute the function of module Repair it implements. */
module Engine {
  import opened Bytes
  import opened ErasureCode
  import opened Layout
  import opened Vault
  import opened Format
  import opened Repair

  /** A file that is read and written in place. */
  class Medium {
    var bytes: Bytes

    constructor (b: Bytes)
      ensures bytes == b
    {
      bytes := b;
    }

    method ReadAt(off: nat, n: nat) returns (b: Bytes)
      requires off + n <= |bytes|
      ensures b == bytes[off..off + n]
    {
      b := bytes[off..off + n];
    }

    method WriteAt(b: Bytes, off: nat)
      requires off + |b| <= |bytes|
      modifies this
      ensures bytes == Splice(old(bytes), off, b)
    {
      bytes := bytes[..off] + b + bytes[off + |b|..];
    }
  }

  /** An opened container: what Open derived, and the file. */
  class Container {
    const v: Vault
    const src: Medium

    constructor (v: Vault, src: Medium)
      ensures this.v == v && this.src == src
    {
      this.v := v;
      this.src := src;
    }

    /** The size check of Open: every blob lies within the file. */
    predicate Valid()
      reads src
    {
      v.spec.Valid() && v.Total() * BLOB_DISK_SIZE <= |src.bytes|
    }

    /** The blobs of the file. */
    function Image(): (img: Image)
      requires Valid()
      reads src
      ensures Shaped(img, v.Total())
    {
      ImageShaped(src.bytes, v.Total());
      ImageOf(src.bytes, v.Total())
    }

    /** GatherBlob: read a blob and list the slots whose tag fails. */
    method GatherBlob(index: nat) returns (payloads: array<Bytes>, bad: seq<nat>)
      requires Valid() && index < v.chunkCount
      ensures fresh(payloads) && payloads[..] == Payloads(DataBlob(v, Image(), index))
      ensures bad == Bad(v.cr, DataBlob(v, Image(), index))
    {
      hide ImageOf, SlotAt, Shaped, Place, Offset;
      ghost var blob := DataBlob(v, Image(), index);
      DataRange(v, src.bytes, index);
      var buf := src.ReadAt(v.spec.DataBlobOffset(index), BLOB_DISK_SIZE);
      payloads := new Bytes[SHARDS_PER_BLOB](_ => []);
      bad := [];
      for i := 0 to SHARDS_PER_BLOB
        invariant forall j :: 0 <= j < i ==> payloads[j] == blob[j].payload
        invariant bad == BadUpTo(v.cr, blob, i)
      {
        BlobBuffer(v, src.bytes, index, buf, i);
        var off := i * SLOT_SIZE;
        payloads[i] := buf[off..off + SHARD_SIZE];
        var tag := buf[off + SHARD_SIZE..off + SLOT_SIZE];
        if v.cr.tag(payloads[i]) != tag {
          bad := bad + [i];
        }
      }
      assert payloads[..] == Payloads(blob);
    }

    /** RepairIntra: reconstruct the bad payloads in place. */
    method RepairInPlace(payloads: array<Bytes>, bad: seq<nat>) returns (ok: bool)
      requires payloads.Length == SHARDS_PER_BLOB && IntraOk(v.cr)
      requires forall j :: j in bad ==> j < SHARDS_PER_BLOB
      modifies payloads
      ensures ok == RepairIntra(v.cr, old(payloads[..]), bad).Some?
      ensures ok ==> payloads[..] == RepairIntra(v.cr, old(payloads[..]), bad).value
    {
      hide Contract;
      if |bad| == 0 || |bad| > PARITY_SHARDS {
        return false;
      }
      ghost var before := payloads[..];
      var views := seq(SHARDS_PER_BLOB, j requires 0 <= j < SHARDS_PER_BLOB reads payloads => Some(payloads[j]));
      for b := 0 to |bad|
        invariant |views| == SHARDS_PER_BLOB
        invariant forall j :: 0 <= j < |views| ==> views[j] == if j in bad[..b] then None else Some(before[j])
      {
        assert bad[b] in bad;
        views := views[bad[b] := None];
      }
      assert bad[..|bad|] == bad;
      assert views == Holes(before, bad);
      var r := v.cr.intra.reconstruct(views);
      if r.None? {
        return false;
      }
      ReconstructLength(v.cr.intra, views);
      for b := 0 to |bad|
        invariant forall i :: 0 <= i < b ==> bad[i] < |r.value| && |r.value[bad[i]]| == SHARD_SIZE
        invariant forall j :: 0 <= j < SHARDS_PER_BLOB ==> payloads[j] == if j in bad[..b] then r.value[j] else before[j]
      {
        assert bad[b] in bad;
        if |r.value[bad[b]]| != SHARD_SIZE {
          return false;
        }
        payloads[bad[b]] := r.value[bad[b]];
      }
      assert payloads[..] == Filled(before, bad, r.value);
      return true;
    }

    /** readWindow: WINDOW consecutive slots, or nothing when a tag fails. */
    method ReadWindow(ghost n: nat, off: nat, w: nat) returns (r: Option<Bytes>)
      requires Valid() && n < v.Total() && w < WINDOWS
      requires off == SlotOffset(n, w * WINDOW)
      ensures Whole(Image()[n]) && r == WindowRead(v.cr, Image()[n], w)
    {
      hide ImageOf, SlotAt, Shaped, SlotOffset;
      ShapedBlob(Image(), v.Total(), n);
      ghost var blob := Image()[n];
      WindowRange(v, src.bytes, n, w);
      var raw := src.ReadAt(off, WINDOW_SLOTS);
      ghost var slots := blob[w * WINDOW..w * WINDOW + WINDOW];
      forall c | 0 <= c < WINDOW
        ensures slots[c] == RawSlot(raw, c)
      {
        WindowBuffer(v, src.bytes, n, w, raw, c);
      }
      for c := 0 to WINDOW
        invariant forall d :: 0 <= d < c ==> Good(v.cr, slots[d])
      {
        var lo := c * SLOT_SIZE;
        if v.cr.tag(raw[lo..lo + SHARD_SIZE]) != raw[lo + SHARD_SIZE..lo + SLOT_SIZE] {
          assert !Good(v.cr, slots[c]) && slots[c] == blob[w * WINDOW + c];
          return None;
        }
      }
      forall d | w * WINDOW <= d < w * WINDOW + WINDOW
        ensures Good(v.cr, blob[d])
      {
        assert slots[d - w * WINDOW] == blob[d];
      }
      var p := ExtractPayloads(raw);
      assert RawPayloads(raw) == Payloads(slots);
      return Some(p);
    }

    /** The inner loops of RebuildMissing: one window of every blob of the group,
        and how many shards are absent. */
    method WindowViews(g: nat, missing: set<int>, w: nat) returns (shards: seq<Option<Bytes>>, erasures: nat)
      requires Valid() && g < v.Groups() && w < WINDOWS
      ensures shards == ViewsOf(v, Image(), g, missing, w)
      ensures erasures == |shards| - Present(shards, |shards|)
    {
      hide ImageOf, Shaped, WindowRead, GroupNo, BlobOf, SlotOffset;
      var k, m := v.K(g), v.M(g);
      ghost var views := ViewsOf(v, Image(), g, missing, w);
      shards, erasures := [], 0;
      for i := 0 to k
        invariant shards == views[..i] && erasures == i - Present(views, i)
      {
        if i in missing {
          shards := shards + [None];
          erasures := erasures + 1;
        } else {
          DataWindowOffset(v, Image(), g, i, w);
          var p := ReadWindow(GroupNo(v, g, i), v.spec.DataBlobOffset(g * FILE_GROUP_CHUNKS + i) + w * WINDOW * SLOT_SIZE, w);
          shards := shards + [p];
          if p.None? {
            erasures := erasures + 1;
          }
        }
        assert shards[i] == views[i];
      }
      for q := 0 to m
        invariant shards == views[..k + q] && erasures == k + q - Present(views, k + q)
      {
        ParityWindowOffset(v, Image(), g, q, w);
        var p := ReadWindow(GroupNo(v, g, k + q), v.spec.ParityBlobOffset(g, k, q) + w * WINDOW * SLOT_SIZE, w);
        shards := shards + [p];
        if p.None? {
          erasures := erasures + 1;
        }
        assert shards[k + q] == views[k + q];
      }
      PresentPrefix(views, shards);
    }

    /** One round of RebuildMissing: reconstruct one window of the group. */
    method RebuildOneWindow(g: nat, missing: set<int>, w: nat) returns (r: Option<Shards>)
      requires Valid() && FileCodesOk(v.cr) && g < v.Groups() && w < WINDOWS
      requires forall pos :: pos in missing ==> 0 <= pos < v.K(g)
      ensures r == WindowOf(v, Image(), g, missing, w)
    {
      hide ImageOf, Shaped, GroupViews, Contract, ColumnWise, Present, GroupBlobs;
      GroupSizes(v, g);
      var rs := v.cr.file(v.K(g), v.M(g));
      assert FileCodeOk(v.cr, v.K(g), v.M(g));
      var shards, erasures := WindowViews(g, missing, w);
      r := None;
      if erasures <= v.M(g) {
        r := rs.reconstruct(shards);
        if r.Some? {
          ReconstructLength(rs, shards);
          if exists pos :: pos in missing && |r.value[pos]| != WINDOW_BYTES {
            r := None;
          }
        }
      }
    }

    /** RebuildMissing: sweep the windows, reconstructing all missing blobs at once. */
    method RebuildBlobs(g: nat, wanted: seq<int>) returns (r: Option<map<int, seq<Bytes>>>)
      requires Valid() && FileCodesOk(v.cr) && g < v.Groups()
      ensures r == GroupRebuild(v, Image(), g, SetOf(wanted))
    {
      hide ImageOf, Shaped, Blocks, GroupBlobs, RebuildWindow, FileCodesOk;
      GroupSizes(v, g);
      var missing, ok := CheckMissing(wanted, v.K(g), v.M(g));
      r := None;
      if ok {
        r := SweepWindows(g, missing);
      }
    }

    method SweepWindows(g: nat, missing: set<int>) returns (r: Option<map<int, seq<Bytes>>>)
      requires Valid() && FileCodesOk(v.cr) && g < v.Groups() && MissingOk(v.K(g), v.M(g), missing)
      ensures r == GroupRebuild(v, Image(), g, missing)
    {
      hide ImageOf, Shaped, Blocks, GroupBlobs, RebuildWindow, FileCodesOk, GroupRebuild, RebuildMissing;
      hide Swept, WindowsOk, AllRebuilt, WholeGroup, MissingOk, WindowOf, Start;
      ghost var k, blobs := v.K(g), GroupBlobs(v, Image(), g);
      SweepResult(v, Image(), g, missing);
      BlobLength();
      var bufs: map<int, Bytes> := map pos | pos in missing :: [];
      SweptStart(v.cr, blobs, k, missing, bufs);
      var w := 0;
      while w < WINDOWS
        invariant 0 <= w <= WINDOWS && Swept(v.cr, blobs, k, missing, w, bufs)
      {
        var s := RebuildOneWindow(g, missing, w);
        WindowIsWindow(v, Image(), g, missing, w);
        if s.None? {
          NotSwept(v.cr, blobs, k, missing, w);
          return None;
        }
        SweptSizes(v.cr, blobs, k, missing, w, bufs);
        ghost var before := bufs;
        bufs := map pos | pos in missing :: bufs[pos] + s.value[pos];
        SweptStep(v.cr, blobs, k, missing, w, before, bufs);
        w := w + 1;
      }
      SweptLengths(v.cr, blobs, k, missing, bufs);
      r := Some(map pos | pos in missing :: Blocks(bufs[pos], SHARD_SIZE, SHARDS_PER_BLOB));
      SweptEnd(v.cr, blobs, k, missing, bufs, r.value);
    }

    /** RebuildBlobFileLevel: one blob from the rest of its group. */
    method RebuildBlobFileLevel(index: nat) returns (r: Option<seq<Bytes>>)
      requires Valid() && FileCodesOk(v.cr) && index < v.chunkCount
      ensures r == FileLevel(v, Image(), index)
    {
      hide ImageOf, Shaped, GroupRebuild, FileCodesOk;
      DataNoBound(v, index);
      var pos := index % FILE_GROUP_CHUNKS;
      var m := RebuildBlobs(index / FILE_GROUP_CHUNKS, [pos]);
      assert SetOf([pos]) == {pos};
      r := if m.Some? then Some(m.value[pos]) else None;
    }

    /** DecodeChunk: join the data payloads, check the header, authenticate. */
    method DecodeChunk(index: int, payloads: seq<Bytes>) returns (d: Decoded)
      requires |payloads| == SHARDS_PER_BLOB
      ensures d == Repair.DecodeChunk(v.cr, index, payloads)
    {
      hide DecodeFlat, Concat;
      var flat: Bytes := [];
      JoinStart(payloads);
      for i := 0 to DATA_SHARDS
        invariant Joined(payloads, i, flat)
      {
        if |payloads[i]| != SHARD_SIZE {
          assert payloads[i] == payloads[..DATA_SHARDS][i];
          return Rejected(ShardMissing);
        }
        JoinStep(payloads, i, flat);
        flat := flat + payloads[i];
      }
      FlatLength(payloads[..DATA_SHARDS]);
      d := DecodeFlat(v.cr, index, flat);
    }

    /** LoadChunk: gather, repair inside the blob, else rebuild from the group, decode. */
    method LoadChunk(index: int) returns (r: Loaded)
      requires Valid() && CodesOk(v.cr)
      ensures r == Repair.LoadChunk(v, Image(), index)
    {
      hide ImageOf, Shaped, RepairIntra, FileLevel, FileCodesOk, IntraOk, DataBlob, Repair.DecodeChunk;
      if index < 0 || index >= v.chunkCount {
        return OutOfRange;
      }
      ghost var blob := DataBlob(v, Image(), index);
      var payloads, bad := GatherBlob(index);
      BadFacts(v.cr, blob, |blob|);
      var recovered := Some(payloads[..]);
      if |bad| > 0 {
        var ok := RepairInPlace(payloads, bad);
        if ok {
          recovered := Some(payloads[..]);
        } else {
          recovered := RebuildBlobFileLevel(index);
        }
      }
      assert recovered == Recovered(v, Image(), index);
      if recovered.None? {
        return Unrecoverable;
      }
      var d := DecodeChunk(index, recovered.value);
      r := FromDecoded(d);
    }
  }

  ghost predicate Joined(payloads: seq<Bytes>, n: nat, flat: Bytes) {
    n <= |payloads| && Uniform(payloads[..n], SHARD_SIZE) && flat == Concat(payloads[..n])
  }

  lemma JoinStart(payloads: seq<Bytes>)
    ensures Joined(payloads, 0, [])
  {}

  lemma JoinStep(payloads: seq<Bytes>, n: nat, flat: Bytes)
    requires n < |payloads| && Joined(payloads, n, flat) && |payloads[n]| == SHARD_SIZE
    ensures Joined(payloads, n + 1, flat + payloads[n])
  {
    assert payloads[..n + 1][..n] == payloads[..n];
  }

  lemma WindowIsWindow(v: Vault, img: Image, g: nat, missing: set<int>, w: nat)
    requires v.spec.Valid() && Shaped(img, v.Total()) && g < v.Groups() && w < WINDOWS
    ensures WindowOf(v, img, g, missing, w) == RebuildWindow(v.cr, GroupBlobs(v, img, g), v.K(g), missing, w)
  {
    hide GroupBlobs, RebuildWindow, Shaped;
  }

  /** The buffers hold the first n rebuilt windows of every missing blob. */
  ghost predicate Swept(cr: Crypto, blobs: Group, k: nat, missing: set<int>, n: nat, bufs: map<int, Bytes>)
    requires WholeGroup(blobs, k) && n <= WINDOWS
  {
    && WindowsOk(cr, blobs, k, missing, n) && bufs.Keys == missing
    && forall pos :: pos in missing ==> bufs[pos] == RebuiltBytes(cr, blobs, k, missing, pos, n)
  }

  lemma SweptStart(cr: Crypto, blobs: Group, k: nat, missing: set<int>, bufs: map<int, Bytes>)
    requires WholeGroup(blobs, k) && bufs == map pos | pos in missing :: []
    ensures Swept(cr, blobs, k, missing, 0, bufs)
  {}

  lemma NotSwept(cr: Crypto, blobs: Group, k: nat, missing: set<int>, w: nat)
    requires WholeGroup(blobs, k) && w < WINDOWS && RebuildWindow(cr, blobs, k, missing, w).None?
    ensures !WindowsOk(cr, blobs, k, missing, WINDOWS)
  {
    hide RebuildWindow;
  }

  lemma SweptSizes(cr: Crypto, blobs: Group, k: nat, missing: set<int>, w: nat, bufs: map<int, Bytes>)
    requires WholeGroup(blobs, k) && w < WINDOWS && Swept(cr, blobs, k, missing, w, bufs)
    ensures bufs.Keys == missing
    ensures
      var s := RebuildWindow(cr, blobs, k, missing, w);
      s.Some? ==> forall pos :: pos in missing ==> 0 <= pos < |s.value| && |s.value[pos]| == WINDOW_BYTES
  {}

  lemma SweptStep(cr: Crypto, blobs: Group, k: nat, missing: set<int>, w: nat, bufs: map<int, Bytes>, next: map<int, Bytes>)
    requires WholeGroup(blobs, k) && w < WINDOWS && Swept(cr, blobs, k, missing, w, bufs)
    requires RebuildWindow(cr, blobs, k, missing, w).Some? && next.Keys == missing == bufs.Keys
    requires
      var s := RebuildWindow(cr, blobs, k, missing, w).value;
      forall pos :: pos in missing ==> 0 <= pos < |s| && next[pos] == bufs[pos] + s[pos]
    ensures Swept(cr, blobs, k, missing, w + 1, next)
  {
    hide RebuildWindow;
    assert WindowsOk(cr, blobs, k, missing, w + 1);
    forall pos | pos in missing
      ensures next[pos] == RebuiltBytes(cr, blobs, k, missing, pos, w + 1)
    {
      assert RebuiltBytes(cr, blobs, k, missing, pos, w + 1)
          == RebuiltBytes(cr, blobs, k, missing, pos, w) + RebuildWindow(cr, blobs, k, missing, w).value[pos];
    }
  }

  lemma SweptLengths(cr: Crypto, blobs: Group, k: nat, missing: set<int>, bufs: map<int, Bytes>)
    requires WholeGroup(blobs, k) && Swept(cr, blobs, k, missing, WINDOWS, bufs)
    ensures WindowsOk(cr, blobs, k, missing, WINDOWS) && bufs.Keys == missing
    ensures forall pos :: pos in missing ==> |bufs[pos]| == Start(SHARDS_PER_BLOB, SHARD_SIZE)
  {
    BlobLength();
  }

  lemma SweptEnd(cr: Crypto, blobs: Group, k: nat, missing: set<int>, bufs: map<int, Bytes>, out: map<int, seq<Bytes>>)
    requires WholeGroup(blobs, k) && Swept(cr, blobs, k, missing, WINDOWS, bufs)
    requires WindowsOk(cr, blobs, k, missing, WINDOWS) && bufs.Keys == missing == out.Keys
    requires forall pos :: pos in missing ==> |bufs[pos]| == Start(SHARDS_PER_BLOB, SHARD_SIZE)
    requires forall pos :: pos in missing ==> out[pos] == Blocks(bufs[pos], SHARD_SIZE, SHARDS_PER_BLOB)
    ensures out == AllRebuilt(cr, blobs, k, missing)
  {
    hide RebuildWindow, Blocks, WindowsOk;
  }

  lemma SweepResult(v: Vault, img: Image, g: nat, missing: set<int>)
    requires v.spec.Valid() && Shaped(img, v.Total()) && g < v.Groups() && MissingOk(v.K(g), v.M(g), missing)
    ensures forall pos :: pos in missing ==> 0 <= pos < v.K(g)
    ensures GroupRebuild(v, img, g, missing) ==
      if WindowsOk(v.cr, GroupBlobs(v, img, g), v.K(g), missing, WINDOWS)
      then Some(AllRebuilt(v.cr, GroupBlobs(v, img, g), v.K(g), missing)) else None
  {
    hide GroupBlobs, WindowsOk, AllRebuilt, Shaped;
    GroupSizes(v, g);
  }

  /** The range and size checks at the head of RebuildMissing. */
  method CheckMissing(wanted: seq<int>, k: nat, m: nat) returns (missing: set<int>, ok: bool)
    ensures ok == MissingOk(k, m, SetOf(wanted))
    ensures ok ==> missing == SetOf(wanted)
  {
    missing := {};
    for i := 0 to |wanted|
      invariant missing == SetOf(wanted[..i])
      invariant forall pos :: pos in missing ==> 0 <= pos < k
    {
      if wanted[i] < 0 || wanted[i] >= k {
        assert wanted[i] in SetOf(wanted);
        return missing, false;
      }
      missing := missing + {wanted[i]};
    }
    assert wanted[..|wanted|] == wanted;
    ok := missing != {} && |missing| <= m;
  }

  lemma ReconstructLength(code: Code, views: seq<Option<Bytes>>)
    requires Contract(code) && code.reconstruct(views).Some?
    ensures |code.reconstruct(views).value| == |views|
  {}

  lemma {:induction false} PresentAgrees(a: seq<Option<Bytes>>, b: seq<Option<Bytes>>, n: nat)
    requires n <= |a| && n <= |b| && a[..n] == b[..n]
    ensures Present(a, n) == Present(b, n)
  {
    if n == 0 {
    } else {
      assert a[..n][n - 1] == b[..n][n - 1];
      assert a[..n - 1] == a[..n][..n - 1] && b[..n - 1] == b[..n][..n - 1];
      PresentAgrees(a, b, n - 1);
    }
  }

  lemma PresentPrefix(views: seq<Option<Bytes>>, shards: seq<Option<Bytes>>)
    requires |shards| <= |views| && shards == views[..|shards|]
    ensures Present(shards, |shards|) == Present(views, |shards|)
  {
    assert shards[..|shards|] == views[..|shards|];
    PresentAgrees(shards, views, |shards|);
  }

  lemma DataWindowOffset(v: Vault, img: Image, g: nat, i: nat, w: nat)
    requires v.spec.Valid() && Shaped(img, v.Total()) && g < v.Groups() && i < v.K(g) && w < WINDOWS
    ensures GroupNo(v, g, i) < v.Total() && GroupBlobs(v, img, g)[i] == img[GroupNo(v, g, i)]
    ensures v.spec.DataBlobOffset(g * FILE_GROUP_CHUNKS + i) + w * WINDOW * SLOT_SIZE == SlotOffset(GroupNo(v, g, i), w * WINDOW)
  {
    GroupNoBound(v, g, i);
    GroupSizes(v, g);
    var b := Data(g * FILE_GROUP_CHUNKS + i);
    PlaceIsValid(v.spec, v.chunkCount, b);
    assert Offset(v.spec, v.chunkCount, b) == v.spec.DataBlobOffset(g * FILE_GROUP_CHUNKS + i);
  }

  lemma ParityWindowOffset(v: Vault, img: Image, g: nat, q: nat, w: nat)
    requires v.spec.Valid() && Shaped(img, v.Total()) && g < v.Groups() && q < v.M(g) && w < WINDOWS
    ensures GroupNo(v, g, v.K(g) + q) < v.Total() && GroupBlobs(v, img, g)[v.K(g) + q] == img[GroupNo(v, g, v.K(g) + q)]
    ensures v.spec.ParityBlobOffset(g, v.K(g), q) + w * WINDOW * SLOT_SIZE == SlotOffset(GroupNo(v, g, v.K(g) + q), w * WINDOW)
  {
    GroupNoBound(v, g, v.K(g) + q);
    var b := Parity(g, q);
    PlaceIsValid(v.spec, v.chunkCount, b);
    assert Offset(v.spec, v.chunkCount, b) == v.spec.ParityBlobOffset(g, v.K(g), q);
  }

  const WINDOW_SLOTS: nat := 131584   // WINDOW * SLOT_SIZE

  /** Slot c of an interleaved buffer. */
  function RawSlot(raw: Bytes, c: nat): Slot
    requires |raw| == WINDOW_SLOTS && c < WINDOW
  {
    var lo := c * SLOT_SIZE;
    Slot(raw[lo..lo + SHARD_SIZE], raw[lo + SHARD_SIZE..lo + SLOT_SIZE])
  }

  function RawPayloads(raw: Bytes): seq<Bytes>
    requires |raw| == WINDOW_SLOTS
  {
    seq(WINDOW, c requires 0 <= c < WINDOW => RawSlot(raw, c).payload)
  }

  /** ExtractPayloads: the payloads of interleaved slots, without their tags. */
  method ExtractPayloads(raw: Bytes) returns (p: Bytes)
    requires |raw| == WINDOW_SLOTS
    ensures p == Concat(RawPayloads(raw))
  {
    var out := new byte[WINDOW_BYTES](_ => 0);
    ghost var parts := RawPayloads(raw);
    for c := 0 to WINDOW
      invariant out[..c * SHARD_SIZE] == Concat(parts[..c])
    {
      assert parts[..c + 1][..c] == parts[..c];
      CopyAt(out, c * SHARD_SIZE, raw[c * SLOT_SIZE..c * SLOT_SIZE + SHARD_SIZE]);
      assert out[..(c + 1) * SHARD_SIZE] == out[..c * SHARD_SIZE] + parts[c];
    }
    assert parts[..WINDOW] == parts;
    p := out[..];
  }

  lemma ShapedBlob(img: Image, total: nat, n: nat)
    requires Shaped(img, total) && n < total
    ensures |img| == total && Whole(img[n])
  {}

  /** A data blob's bytes lie in the file, where the source computes its offset. */
  lemma DataRange(v: Vault, f: Bytes, i: nat)
    requires v.spec.Valid() && v.Total() * BLOB_DISK_SIZE <= |f| && i < v.chunkCount
    ensures v.DataNo(i) < v.Total()
    ensures v.spec.DataBlobOffset(i) == v.DataNo(i) * BLOB_DISK_SIZE
    ensures v.spec.DataBlobOffset(i) + BLOB_DISK_SIZE <= |f|
  {
    PlaceIsValid(v.spec, v.chunkCount, Data(i));
    assert Offset(v.spec, v.chunkCount, Data(i)) == v.spec.DataBlobOffset(i);
    BlobInFile(f, v.Total(), v.DataNo(i));
  }

  /** Slot j of a buffer that holds a whole data blob. */
  lemma BlobBuffer(v: Vault, f: Bytes, i: nat, buf: Bytes, j: nat)
    requires v.spec.Valid() && v.Total() * BLOB_DISK_SIZE <= |f| && i < v.chunkCount && j < SHARDS_PER_BLOB
    requires v.spec.DataBlobOffset(i) + BLOB_DISK_SIZE <= |f|
    requires buf == f[v.spec.DataBlobOffset(i)..v.spec.DataBlobOffset(i) + BLOB_DISK_SIZE]
    requires Shaped(ImageOf(f, v.Total()), v.Total())
    ensures j * SLOT_SIZE + SLOT_SIZE <= |buf|
    ensures DataBlob(v, ImageOf(f, v.Total()), i)[j] ==
            Slot(buf[j * SLOT_SIZE..j * SLOT_SIZE + SHARD_SIZE], buf[j * SLOT_SIZE + SHARD_SIZE..j * SLOT_SIZE + SLOT_SIZE])
  {
    DataRange(v, f, i);
    hide Place, Offset, SlotAt;
    var n := v.DataNo(i);
    BlobInFile(f, v.Total(), n);
    SlotInBuffer(f, n, j, buf);
  }

  lemma SlotInBuffer(f: Bytes, n: nat, j: nat, buf: Bytes)
    requires (n + 1) * BLOB_DISK_SIZE <= |f| && j < SHARDS_PER_BLOB
    requires buf == f[n * BLOB_DISK_SIZE..n * BLOB_DISK_SIZE + BLOB_DISK_SIZE]
    ensures j * SLOT_SIZE + SLOT_SIZE <= |buf|
    ensures SlotAt(f, n, j) ==
            Slot(buf[j * SLOT_SIZE..j * SLOT_SIZE + SHARD_SIZE], buf[j * SLOT_SIZE + SHARD_SIZE..j * SLOT_SIZE + SLOT_SIZE])
  {
    var lo := j * SLOT_SIZE;
    SubSlice(f, n * BLOB_DISK_SIZE, n * BLOB_DISK_SIZE + BLOB_DISK_SIZE, lo, lo + SHARD_SIZE);
    SubSlice(f, n * BLOB_DISK_SIZE, n * BLOB_DISK_SIZE + BLOB_DISK_SIZE, lo + SHARD_SIZE, lo + SLOT_SIZE);
  }

  lemma WindowRange(v: Vault, f: Bytes, n: nat, w: nat)
    requires v.Total() * BLOB_DISK_SIZE <= |f| && n < v.Total() && w < WINDOWS
    ensures SlotOffset(n, w * WINDOW) + WINDOW_SLOTS <= |f|
  {
    BlobInFile(f, v.Total(), n);
  }

  /** Slot c of a buffer that holds window w of blob n. */
  lemma WindowBuffer(v: Vault, f: Bytes, n: nat, w: nat, raw: Bytes, c: nat)
    requires v.Total() * BLOB_DISK_SIZE <= |f| && n < v.Total() && w < WINDOWS && c < WINDOW
    requires SlotOffset(n, w * WINDOW) + WINDOW_SLOTS <= |f|
    requires raw == f[SlotOffset(n, w * WINDOW)..SlotOffset(n, w * WINDOW) + WINDOW_SLOTS]
    ensures ImageOf(f, v.Total())[n][w * WINDOW + c] == RawSlot(raw, c)
  {
    BlobInFile(f, v.Total(), n);
    var off, lo := SlotOffset(n, w * WINDOW), c * SLOT_SIZE;
    SubSlice(f, off, off + WINDOW_SLOTS, lo, lo + SHARD_SIZE);
    SubSlice(f, off, off + WINDOW_SLOTS, lo + SHARD_SIZE, lo + SLOT_SIZE);
    assert SlotOffset(n, w * WINDOW + c) == off + lo;
  }
}

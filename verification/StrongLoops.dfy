/** The loops of the rs-strong backend, proved against module Strong. */
module StrongLoops {
  import opened Bytes
  import opened ErasureCode
  import opened Layout
  import opened Vault
  import opened Format
  import opened Repair
  import opened Encoder
  import opened EncodeLoops
  import opened ScrubSpec
  import opened Writes
  import opened Engine
  import opened ScrubLoops
  import S = Strong

  /** The bytes of an area's slots, one after the other, are the area. */
  lemma WrittenArea(slots: seq<Slot>, size: nat, f: Bytes)
    requires S.AreaOf(slots, size)
    requires |BlobBytes(slots)| <= |f| && f[..|BlobBytes(slots)|] == BlobBytes(slots)
    ensures |BlobBytes(slots)| == S.StrongOffset(size, STRONG_SLOTS)
    ensures S.StrongArea(f, size) == slots
  {
    hide Concat, Start, S.StrongSlot;
    var parts := PartsOf(slots);
    assert BlobBytes(slots) == Concat(parts) by { PartsConcat(slots); }
    assert Uniform(parts, size + TAG_SIZE);
    ConcatLength(parts, size + TAG_SIZE);
    forall i | 0 <= i < STRONG_SLOTS
      ensures S.StrongSlot(f, size, i) == slots[i]
    {
      ConcatBlock(parts, size + TAG_SIZE, i);
      S.StrongRange(size, i);
      StrongSlotIs(f, size, i, slots[i], BlobBytes(slots));
    }
  }

  lemma PartsConcat(slots: seq<Slot>)
    ensures BlobBytes(slots) == Concat(PartsOf(slots))
  {
    assert PartsOf(slots) == seq(|slots|, j requires 0 <= j < |slots| => SlotBytes(slots[j]));
  }

  lemma StrongSlotIs(f: Bytes, size: nat, i: nat, s: Slot, b: Bytes)
    requires S.StrongOffset(size, STRONG_SLOTS) == |b| <= |f| && f[..|b|] == b && i < STRONG_SLOTS && S.SlotOf(s, size)
    requires Start(i, size + TAG_SIZE) + (size + TAG_SIZE) <= |b| && Block(b, size + TAG_SIZE, i) == SlotBytes(s)
    ensures S.StrongSlot(f, size, i) == s
  {
    hide Start;
    var o := S.StrongOffset(size, i);
    SubSlice(f, 0, |b|, o, o + size + TAG_SIZE);
    SubSlice(f, o, o + size + TAG_SIZE, 0, size);
    SubSlice(f, o, o + size + TAG_SIZE, size, size + TAG_SIZE);
  }

  /** Drain of the strong sink: seal, encode, and write all slots at once. */
  method Drain(cr: Crypto, nonce: Bytes, buf: Bytes, dst: Dst) returns (plainSize: nat)
    requires |nonce| == NONCE_SIZE && SealOk(cr) && S.StrongOk(cr) && TagsOk(cr)
    modifies dst
    ensures plainSize == |buf|
    ensures dst.bytes == Overwrite(old(dst.bytes), 0, BlobBytes(S.StrongFile(cr, nonce, buf)))
  {
    hide S.StrongDataArea, BlobBytes, Overwrite, FreshSlots, Blocks, Concat, SealOk, S.StrongOk;
    plainSize := |buf|;
    var size := StrongShardSize(plainSize);
    var dataArea := FillArea(cr, nonce, buf, size);
    var shards := Blocks(dataArea, size, K_STRONG);
    shards := shards + cr.strong.encode(shards);
    ghost var parts := PartsOf(FreshSlots(cr, shards));
    FreshParts(cr, shards);
    S.StrongShardsFacts(cr, nonce, buf);
    ConcatStart();
    var disk: Bytes := [];
    for i := 0 to STRONG_SLOTS
      invariant disk == Concat(parts[..i]) && dst.bytes == old(dst.bytes)
    {
      ConcatStep(parts, i);
      ghost var before := disk;
      disk := disk + shards[i];
      disk := disk + cr.tag(shards[i]);
      assert disk == before + (shards[i] + cr.tag(shards[i]));
    }
    assert parts[..STRONG_SLOTS] == parts;
    dst.Seek(0);
    dst.Write(disk);
  }

  /** A zeroed area with header and ciphertext copied to its front. */
  method FillArea(cr: Crypto, nonce: Bytes, plain: Bytes, size: nat) returns (area: Bytes)
    requires |nonce| == NONCE_SIZE && SealOk(cr) && size == StrongShardSize(|plain|)
    ensures area == S.StrongDataArea(cr, nonce, plain)
  {
    hide Start, SealOk, StrongShardSize, Marshal, BigEndian;
    S.StrongFits(cr, nonce, plain);
    StartIsProduct(K_STRONG, size);
    var header := MarshalHeader(S.StrongHeader(nonce, plain));
    var hdr := header[..];
    var ct := S.StrongCiphertext(cr, nonce, plain);
    var buf := new byte[size * K_STRONG](_ => 0);
    CopyAt(buf, 0, hdr);
    CopyAt(buf, HEADER_SIZE, ct);
    area := buf[..];
    var n := HEADER_SIZE + |ct|;
    assert area[..n] == hdr + ct;
    assert area[n..] == Zeros(size * K_STRONG - n);
    assert area == area[..n] + area[n..];
  }

  class StrongContainer {
    const cr: Crypto
    const plainSize: nat
    const src: Medium

    constructor (cr: Crypto, plainSize: nat, src: Medium)
      ensures this.cr == cr && this.plainSize == plainSize && this.src == src
    {
      this.cr := cr;
      this.plainSize := plainSize;
      this.src := src;
    }

    /** The size check of Open: the slots lie within the file. */
    predicate Valid()
      reads src
    {
      S.StrongOffset(StrongShardSize(plainSize), STRONG_SLOTS) <= |src.bytes|
    }

    function Slots(): (slots: seq<Slot>)
      requires Valid()
      reads src
      ensures S.AreaOf(slots, StrongShardSize(plainSize))
    {
      S.StrongArea(src.bytes, StrongShardSize(plainSize))
    }

    /** gatherStrongSlots: read all slots and list those whose tag fails. */
    method GatherStrongSlots() returns (shards: seq<Bytes>, bad: seq<nat>, size: nat)
      requires Valid()
      ensures shards == Payloads(Slots()) && bad == Bad(cr, Slots()) && size == StrongShardSize(plainSize)
    {
      hide Start, StrongShardSize;
      size := StrongShardSize(plainSize);
      var slotSize := size + TAG_SIZE;
      ghost var slots := Slots();
      S.StrongRange(size, 0);
      var raw := src.ReadAt(0, STRONG_SLOTS * slotSize);
      shards, bad := [], [];
      for i := 0 to STRONG_SLOTS
        invariant shards == Payloads(slots)[..i] && bad == BadUpTo(cr, slots, i)
      {
        S.StrongRange(size, i);
        var base := i * slotSize;
        assert slots[i] == Slot(raw[base..base + size], raw[base + size..base + slotSize]);
        shards := shards + [raw[base..base + size]];
        if cr.tag(shards[i]) != raw[base + size..base + slotSize] {
          bad := bad + [i];
        }
      }
    }

    /** reconstructStrong: rebuild the bad shards, if there are at most 64. */
    method ReconstructStrong(shards: seq<Bytes>, bad: seq<nat>, size: nat) returns (r: Option<seq<Bytes>>)
      requires |shards| == STRONG_SLOTS && S.StrongOk(cr) && forall j :: j in bad ==> j < STRONG_SLOTS
      ensures r == S.RepairStrong(cr, shards, bad, size)
    {
      if |bad| == 0 || |bad| > M_STRONG {
        return None;
      }
      var views := seq(STRONG_SLOTS, j requires 0 <= j < STRONG_SLOTS => Some(shards[j]));
      for b := 0 to |bad|
        invariant |views| == STRONG_SLOTS
        invariant forall j :: 0 <= j < |views| ==> views[j] == if j in bad[..b] then None else Some(shards[j])
      {
        assert bad[b] in bad;
        views := views[bad[b] := None];
      }
      assert bad[..|bad|] == bad;
      assert views == Holes(shards, bad);
      var full := cr.strong.reconstruct(views);
      if full.None? {
        return None;
      }
      assert Matches(views, full.value);
      for b := 0 to |bad|
        invariant forall i :: 0 <= i < b ==> bad[i] < |full.value| && |full.value[bad[i]]| == size
      {
        assert bad[b] in bad;
        if |full.value[bad[b]]| != size {
          return None;
        }
      }
      assert full.value == Filled(shards, bad, full.value);
      return full;
    }

    /** decodeStrongArea: join the data shards, check the header, authenticate. */
    method DecodeStrongArea(shards: seq<Bytes>, size: nat) returns (d: Decoded)
      requires |shards| == STRONG_SLOTS && size == StrongShardSize(plainSize)
      ensures d == S.DecodeStrong(cr, plainSize, shards)
    {
      hide Start, StrongShardSize, S.StrongFlat, Concat;
      ConcatStart();
      var area: Bytes := [];
      for i := 0 to K_STRONG
        invariant Uniform(shards[..i], size) && area == Concat(shards[..i])
      {
        if |shards[i]| != size {
          assert shards[..K_STRONG][i] == shards[i];
          return Rejected(ShardMissing);
        }
        ConcatStep(shards, i);
        area := area + shards[i];
      }
      ConcatLength(shards[..K_STRONG], size);
      S.StrongRoom(plainSize);
      d := S.StrongFlat(cr, plainSize, area);
    }

    /** LoadStrong: gather, rebuild, decode. */
    method LoadStrong() returns (r: Loaded)
      requires Valid() && S.StrongOk(cr)
      ensures r == S.LoadStrong(cr, plainSize, Slots())
    {
      hide S.RepairStrong, S.DecodeStrong, StrongShardSize, S.StrongOffset, S.StrongOk;
      ghost var slots := Slots();
      BadFacts(cr, slots, |slots|);
      var shards, bad, size := GatherStrongSlots();
      if |bad| > 0 {
        var fixed := ReconstructStrong(shards, bad, size);
        if fixed.None? {
          return Unrecoverable;
        }
        shards := fixed.value;
      }
      var d := DecodeStrongArea(shards, size);
      r := FromDecoded(d);
    }

    /** ScrubStrong: gather, rebuild, authenticate, and write the bad slots back. */
    method ScrubStrong(w: Medium?) returns (rep: Report)
      requires Valid() && S.StrongOk(cr) && TagsOk(cr) && (w == null || w == src)
      modifies w
      ensures |src.bytes| == old(|src.bytes|) && Valid()
      ensures rep == old(S.StrongReport(cr, plainSize, Slots()))
      ensures Slots() == if w != null then old(S.StrongScrubbed(cr, plainSize, Slots())) else old(Slots())
      ensures
        var end := S.StrongOffset(StrongShardSize(plainSize), STRONG_SLOTS);
        src.bytes[end..] == old(src.bytes[end..])
    {
      hide S.RepairStrong, S.DecodeStrong, StrongShardSize, S.StrongOffset, S.StrongOk, Patched, TagsOk;
      hide S.StrongArea, Bad;
      ghost var slots := Slots();
      var shards, bad, size := GatherStrongSlots();
      BadFacts(cr, slots, |slots|);
      if |bad| > 0 {
        S.BadInArea(cr, slots);
        var rebuilt := ReconstructStrong(shards, bad, size);
        if rebuilt.None? {
          return Report(1, 0, 0, 0, [0], |bad|, 0, 0, 0);
        }
        shards := rebuilt.value;
      }
      var d := DecodeStrongArea(shards, size);
      if d.Rejected? {
        return Report(1, 0, 0, 0, [0], |bad|, 0, 0, 0);
      }
      if |bad| == 0 {
        return Report(1, 1, 0, 0, [], 0, 0, 0, 0);
      }
      if w != null {
        RepairedShards(cr, slots, size);
        WriteBack(w, shards, bad, size);
      }
      return Report(1, 0, 1, 0, [], |bad|, |bad|, 0, 0);
    }

    /** The write-back loop of ScrubStrong. */
    method WriteBack(w: Medium, shards: seq<Bytes>, bad: seq<nat>, size: nat)
      requires Valid() && TagsOk(cr) && w == src && size == StrongShardSize(plainSize)
      requires |shards| == STRONG_SLOTS && bad == Bad(cr, Slots())
      requires forall j :: j in bad ==> j < STRONG_SLOTS && |shards[j]| == size
      modifies w
      ensures |src.bytes| == old(|src.bytes|) && Valid()
      ensures Slots() == Patched(cr, old(Slots()), shards)
      ensures var end := S.StrongOffset(size, STRONG_SLOTS); src.bytes[end..] == old(src.bytes[end..])
    {
      hide StrongShardSize, S.StrongOffset, S.StrongArea, Bad, Patched, PatchedTo;
      ghost var slots, end := Slots(), S.StrongOffset(size, STRONG_SLOTS);
      PatchedNone(cr, slots, shards, bad);
      for k := 0 to |bad|
        invariant |src.bytes| == old(|src.bytes|) && Valid()
        invariant Slots() == PatchedTo(cr, slots, shards, bad, k)
        invariant src.bytes[end..] == old(src.bytes[end..])
      {
        var i := bad[k];
        assert i in bad;
        PatchedStep(cr, slots, shards, bad, k);
        S.StrongRange(size, i);
        assert |cr.tag(shards[i])| == TAG_SIZE;
        S.StrongSplice(src.bytes, size, i, Fresh(cr, shards[i]));
        w.WriteAt(shards[i] + cr.tag(shards[i]), i * (size + TAG_SIZE));
      }
      PatchedDone(cr, slots, shards);
    }
  }

  lemma RepairedShards(cr: Crypto, slots: seq<Slot>, size: nat)
    requires S.RepairStrong(cr, Payloads(slots), Bad(cr, slots), size).Some?
    ensures forall j :: j in Bad(cr, slots) ==>
      j < |slots| && |S.RepairStrong(cr, Payloads(slots), Bad(cr, slots), size).value[j]| == size
  {
    BadFacts(cr, slots, |slots|);
  }

  /** Draining a strong sink into an empty file and opening it gives the slots
      that module Strong calls the container of that plaintext. */
  lemma DrainedIsStrongFile(cr: Crypto, nonce: Bytes, plain: Bytes)
    requires |nonce| == NONCE_SIZE && SealOk(cr) && S.StrongOk(cr) && TagsOk(cr)
    ensures
      var f, size := Overwrite([], 0, BlobBytes(S.StrongFile(cr, nonce, plain))), StrongShardSize(|plain|);
      && |f| == StrongPayloadSize(|plain|) == S.StrongOffset(size, STRONG_SLOTS)
      && S.StrongArea(f, size) == S.StrongFile(cr, nonce, plain)
  {
    hide S.StrongFile, S.StrongArea, BlobBytes, SealOk, S.StrongOk, StrongShardSize;
    var b, size := BlobBytes(S.StrongFile(cr, nonce, plain)), StrongShardSize(|plain|);
    S.StrongFileFacts(cr, nonce, plain);
    var f := Overwrite([], 0, b);
    assert f == b && f[..|b|] == b;
    WrittenArea(S.StrongFile(cr, nonce, plain), size, f);
    S.StrongRange(size, 0);
  }

  /** Slot i of the drained file: shard i of the codeword of the data area, then its tag. */
  lemma DrainedBytes(cr: Crypto, nonce: Bytes, plain: Bytes, i: nat)
    requires |nonce| == NONCE_SIZE && SealOk(cr) && S.StrongOk(cr) && TagsOk(cr) && i < STRONG_SLOTS
    ensures |S.StrongShards(cr, nonce, plain)| == STRONG_SLOTS
    ensures
      var f, size := Overwrite([], 0, BlobBytes(S.StrongFile(cr, nonce, plain))), StrongShardSize(|plain|);
      var shard, o := S.StrongShards(cr, nonce, plain)[i], S.StrongOffset(size, i);
      && o == i * (size + TAG_SIZE) && o + size + TAG_SIZE <= |f|
      && f[o..o + size] == shard && f[o + size..o + size + TAG_SIZE] == cr.tag(shard)
    ensures Concat(S.StrongShards(cr, nonce, plain)[..K_STRONG]) == S.StrongDataArea(cr, nonce, plain)
    ensures S.StrongShards(cr, nonce, plain)[K_STRONG..] == cr.strong.encode(S.StrongShards(cr, nonce, plain)[..K_STRONG])
  {
    hide S.StrongArea, BlobBytes, SealOk, S.StrongOk, StrongShardSize, S.StrongDataArea, Overwrite, Start, Concat, Blocks;
    var f, size := Overwrite([], 0, BlobBytes(S.StrongFile(cr, nonce, plain))), StrongShardSize(|plain|);
    S.StrongShardsFacts(cr, nonce, plain);
    DrainedIsStrongFile(cr, nonce, plain);
    S.StrongRange(size, i);
    SlotOfArea(f, size, i);
    S.StrongFits(cr, nonce, plain);
    ConcatOfBlocks(S.StrongDataArea(cr, nonce, plain), size, K_STRONG);
  }

  lemma SlotOfArea(f: Bytes, size: nat, i: nat)
    requires S.StrongOffset(size, STRONG_SLOTS) <= |f| && i < STRONG_SLOTS
    ensures S.StrongOffset(size, i) + size + TAG_SIZE <= |f|
    ensures S.StrongArea(f, size)[i].payload == f[S.StrongOffset(size, i)..S.StrongOffset(size, i) + size]
    ensures S.StrongArea(f, size)[i].tag == f[S.StrongOffset(size, i) + size..S.StrongOffset(size, i) + size + TAG_SIZE]
  {
    S.StrongRange(size, i);
  }
}

/** The single-blob rs-strong container (internal/engine/strong.go and ScrubStrong
    of internal/engine/scrub.go): 96 slots whose size grows with the plaintext. */
module Strong {
  import opened Bytes
  import opened ErasureCode
  import opened Layout
  import opened Vault
  import opened Format
  import opened Repair
  import opened Encoder
  import opened Authenticity
  import opened ScrubSpec
  import opened Writes

  ghost predicate StrongOk(cr: Crypto) {
    cr.strong.k == K_STRONG && cr.strong.m == M_STRONG && Contract(cr.strong) && AnySize(cr.strong)
  }

  // ---------- the slots of a file ----------

  predicate SlotOf(s: Slot, size: nat) {
    |s.payload| == size && |s.tag| == TAG_SIZE
  }

  predicate AreaOf(slots: seq<Slot>, size: nat) {
    |slots| == STRONG_SLOTS && forall i :: 0 <= i < |slots| ==> SlotOf(slots[i], size)
  }

  function StrongOffset(size: nat, i: nat): nat {
    Start(i, size + TAG_SIZE)
  }

  lemma StrongRange(size: nat, i: nat)
    requires i < STRONG_SLOTS
    ensures StrongOffset(size, i) + size + TAG_SIZE <= StrongOffset(size, STRONG_SLOTS)
    ensures StrongOffset(size, i) == i * (size + TAG_SIZE) &&
      StrongOffset(size, STRONG_SLOTS) == STRONG_SLOTS * (size + TAG_SIZE)
  {
    hide Start;
    StartMonotone(i, STRONG_SLOTS, size + TAG_SIZE);
    StartIsProduct(i, size + TAG_SIZE);
    StartIsProduct(STRONG_SLOTS, size + TAG_SIZE);
  }

  function StrongSlot(f: Bytes, size: nat, i: nat): (s: Slot)
    requires i < STRONG_SLOTS && StrongOffset(size, STRONG_SLOTS) <= |f|
    ensures SlotOf(s, size)
  {
    StrongRange(size, i);
    hide Start;
    var o := StrongOffset(size, i);
    Slot(f[o..o + size], f[o + size..o + size + TAG_SIZE])
  }

  function StrongArea(f: Bytes, size: nat): (slots: seq<Slot>)
    requires StrongOffset(size, STRONG_SLOTS) <= |f|
    ensures AreaOf(slots, size)
  {
    hide StrongOffset;
    seq(STRONG_SLOTS, i requires 0 <= i < STRONG_SLOTS => StrongSlot(f, size, i))
  }

  /** Writing one slot changes that slot and nothing behind the area. */
  lemma StrongSplice(f: Bytes, size: nat, i: nat, s: Slot)
    requires StrongOffset(size, STRONG_SLOTS) <= |f| && i < STRONG_SLOTS && SlotOf(s, size)
    ensures StrongOffset(size, i) + |SlotBytes(s)| <= StrongOffset(size, STRONG_SLOTS)
    ensures
      var g := Splice(f, StrongOffset(size, i), SlotBytes(s));
      && StrongArea(g, size) == StrongArea(f, size)[i := s]
      && g[StrongOffset(size, STRONG_SLOTS)..] == f[StrongOffset(size, STRONG_SLOTS)..]
  {
    hide StrongSlot;
    StrongRange(size, i);
    var g := Splice(f, StrongOffset(size, i), SlotBytes(s));
    forall j | 0 <= j < STRONG_SLOTS
      ensures StrongSlot(g, size, j) == StrongArea(f, size)[i := s][j]
    {
      OneStrongSlot(f, size, i, s, j);
    }
    StrongTail(f, StrongOffset(size, i), SlotBytes(s), StrongOffset(size, STRONG_SLOTS));
  }

  lemma SlotOfParts(s: Slot, size: nat)
    requires SlotOf(s, size)
    ensures |SlotBytes(s)| == size + TAG_SIZE
    ensures SlotBytes(s)[0..size] == s.payload && SlotBytes(s)[size..size + TAG_SIZE] == s.tag
  {}

  lemma StrongTail(f: Bytes, off: nat, b: Bytes, end: nat)
    requires off + |b| <= end <= |f|
    ensures Splice(f, off, b)[end..] == f[end..]
  {}

  lemma OneStrongSlot(f: Bytes, size: nat, i: nat, s: Slot, j: nat)
    requires StrongOffset(size, STRONG_SLOTS) <= |f| && i < STRONG_SLOTS && j < STRONG_SLOTS && SlotOf(s, size)
    requires StrongOffset(size, i) + |SlotBytes(s)| <= |f|
    ensures StrongSlot(Splice(f, StrongOffset(size, i), SlotBytes(s)), size, j) == if j == i then s else StrongSlot(f, size, j)
  {
    hide Start, Splice, SlotBytes;
    var o, p := StrongOffset(size, i), StrongOffset(size, j);
    StrongRange(size, j);
    SlotOfParts(s, size);
    if i == j {
      SliceInside(f, o, SlotBytes(s), 0, size);
      SliceInside(f, o, SlotBytes(s), size, size + TAG_SIZE);
    } else {
      if i < j { StartMonotone(i, j, size + TAG_SIZE); } else { StartMonotone(j, i, size + TAG_SIZE); }
      SliceOutside(f, o, SlotBytes(s), p, p + size);
      SliceOutside(f, o, SlotBytes(s), p + size, p + size + TAG_SIZE);
    }
  }

  // ---------- encoding ----------

  function StrongHeader(nonce: Bytes, plain: Bytes): (h: ChunkHeader)
    requires |nonce| == NONCE_SIZE
    ensures |h.nonce| == NONCE_SIZE
  {
    ChunkHeader(0, |plain|, nonce)
  }

  function StrongCiphertext(cr: Crypto, nonce: Bytes, plain: Bytes): Bytes
    requires |nonce| == NONCE_SIZE
  {
    cr.seal(nonce, plain, Marshal(StrongHeader(nonce, plain)))
  }

  function StrongSealing(nonce: Bytes, plain: Bytes): Sealing
    requires |nonce| == NONCE_SIZE
  {
    Sealing(nonce, plain, Marshal(StrongHeader(nonce, plain)))
  }

  lemma StrongFits(cr: Crypto, nonce: Bytes, plain: Bytes)
    requires |nonce| == NONCE_SIZE && SealOk(cr)
    ensures |StrongCiphertext(cr, nonce, plain)| == |plain| + TAG_SIZE
    ensures HEADER_SIZE + |plain| + TAG_SIZE <= Start(K_STRONG, StrongShardSize(|plain|))
    ensures StrongShardSize(|plain|) > 0
  {
    StrongShardFits(|plain|);
    StartIsProduct(K_STRONG, StrongShardSize(|plain|));
  }

  /** Header, ciphertext, zeros: 32 shards' worth. */
  function StrongDataArea(cr: Crypto, nonce: Bytes, plain: Bytes): (area: Bytes)
    requires |nonce| == NONCE_SIZE && SealOk(cr)
    ensures |area| == Start(K_STRONG, StrongShardSize(|plain|))
  {
    StrongFits(cr, nonce, plain);
    hide Start, SealOk, StrongShardSize;
    Marshal(StrongHeader(nonce, plain)) + StrongCiphertext(cr, nonce, plain)
    + Zeros(Start(K_STRONG, StrongShardSize(|plain|)) - HEADER_SIZE - |plain| - TAG_SIZE)
  }

  function StrongShards(cr: Crypto, nonce: Bytes, plain: Bytes): Shards
    requires |nonce| == NONCE_SIZE && SealOk(cr)
  {
    Codeword(cr.strong, Blocks(StrongDataArea(cr, nonce, plain), StrongShardSize(|plain|), K_STRONG))
  }

  /** The slots the strong sink writes. */
  function StrongFile(cr: Crypto, nonce: Bytes, plain: Bytes): seq<Slot>
    requires |nonce| == NONCE_SIZE && SealOk(cr)
  {
    FreshSlots(cr, StrongShards(cr, nonce, plain))
  }

  lemma StrongShardsFacts(cr: Crypto, nonce: Bytes, plain: Bytes)
    requires |nonce| == NONCE_SIZE && SealOk(cr) && StrongOk(cr)
    ensures |StrongShards(cr, nonce, plain)| == STRONG_SLOTS &&
      Uniform(StrongShards(cr, nonce, plain), StrongShardSize(|plain|))
    ensures IsData(cr.strong, Blocks(StrongDataArea(cr, nonce, plain), StrongShardSize(|plain|), K_STRONG), StrongShardSize(|plain|))
    ensures StrongShards(cr, nonce, plain)[..K_STRONG] == Blocks(StrongDataArea(cr, nonce, plain), StrongShardSize(|plain|), K_STRONG)
  {
    hide StrongDataArea, Blocks, StrongShardSize, Start, SealOk;
    StrongFits(cr, nonce, plain);
    var size := StrongShardSize(|plain|);
    var data := Blocks(StrongDataArea(cr, nonce, plain), size, K_STRONG);
    UniformBlocks(StrongDataArea(cr, nonce, plain), size, K_STRONG);
    assert IsData(cr.strong, data, size);
  }

  lemma StrongFileFacts(cr: Crypto, nonce: Bytes, plain: Bytes)
    requires |nonce| == NONCE_SIZE && SealOk(cr) && StrongOk(cr) && TagsOk(cr)
    ensures AreaOf(StrongFile(cr, nonce, plain), StrongShardSize(|plain|)) && AllGood(cr, StrongFile(cr, nonce, plain))
    ensures Payloads(StrongFile(cr, nonce, plain)) == StrongShards(cr, nonce, plain)
  {
    hide StrongShards, StrongShardSize, StrongOk, SealOk;
    StrongShardsFacts(cr, nonce, plain);
  }

  // ---------- reading ----------

  /** reconstructStrong: repair of at most 64 bad slots. */
  function RepairStrong(cr: Crypto, payloads: seq<Bytes>, bad: seq<nat>, size: nat): (r: Option<seq<Bytes>>)
    ensures r.Some? ==> |r.value| == |payloads|
  {
    if |bad| == 0 || |bad| > M_STRONG then None
    else
      match cr.strong.reconstruct(Holes(payloads, bad))
      case None => None
      case Some(r) =>
        if forall j :: j in bad ==> j < |r| && |r[j]| == size then Some(Filled(payloads, bad, r)) else None
  }

  /** The payloads handed to the decoder. */
  function StrongPayloads(cr: Crypto, slots: seq<Slot>, size: nat): (r: Option<seq<Bytes>>)
    ensures r.Some? ==> |r.value| == |slots|
  {
    var bad := Bad(cr, slots);
    if bad == [] then Some(Payloads(slots)) else RepairStrong(cr, Payloads(slots), bad, size)
  }

  function StrongFlat(cr: Crypto, plainSize: nat, area: Bytes): Decoded
    requires |area| == Start(K_STRONG, StrongShardSize(plainSize)) && |area| >= HEADER_SIZE
  {
    match ParseChunkHeader(area[..HEADER_SIZE])
    case None => Rejected(BadHeader)
    case Some(hdr) =>
      if hdr.index != 0 then Rejected(WrongIndex)
      else if hdr.plainLen != plainSize then Rejected(BadLength)
      else if HEADER_SIZE + hdr.plainLen + TAG_SIZE > |area| then Rejected(BadLength)
      else
        match cr.open(hdr.nonce, area[HEADER_SIZE..HEADER_SIZE + hdr.plainLen + TAG_SIZE], area[..HEADER_SIZE])
        case None => Rejected(AuthFailed)
        case Some(p) => Plain(p)
  }

  lemma StrongRoom(plainSize: nat)
    ensures Start(K_STRONG, StrongShardSize(plainSize)) >= HEADER_SIZE + plainSize + TAG_SIZE
  {
    StrongShardFits(plainSize);
    StartIsProduct(K_STRONG, StrongShardSize(plainSize));
  }

  /** decodeStrongArea. */
  function DecodeStrong(cr: Crypto, plainSize: nat, payloads: seq<Bytes>): Decoded
    requires |payloads| == STRONG_SLOTS
  {
    var parts := payloads[..K_STRONG];
    if !Uniform(parts, StrongShardSize(plainSize)) then Rejected(ShardMissing)
    else
      ConcatLength(parts, StrongShardSize(plainSize));
      StrongRoom(plainSize);
      StrongFlat(cr, plainSize, Concat(parts))
  }

  function LoadStrong(cr: Crypto, plainSize: nat, slots: seq<Slot>): Loaded
    requires |slots| == STRONG_SLOTS
  {
    match StrongPayloads(cr, slots, StrongShardSize(plainSize))
    case None => Unrecoverable
    case Some(p) => FromDecoded(DecodeStrong(cr, plainSize, p))
  }

  // ---------- scrubbing ----------

  /** The fate of the one unit a strong container has. */
  function StrongFate(cr: Crypto, plainSize: nat, slots: seq<Slot>): Fate
    requires |slots| == STRONG_SLOTS
  {
    match StrongPayloads(cr, slots, StrongShardSize(plainSize))
    case None => LostEarly
    case Some(p) =>
      if DecodeStrong(cr, plainSize, p).Rejected? then LostEarly
      else if Bad(cr, slots) == [] then Clean else Repaired
  }

  /** The slots after ScrubStrong with a writer. */
  function StrongScrubbed(cr: Crypto, plainSize: nat, slots: seq<Slot>): seq<Slot>
    requires |slots| == STRONG_SLOTS
  {
    if StrongFate(cr, plainSize, slots) == Repaired then
      Patched(cr, slots, StrongPayloads(cr, slots, StrongShardSize(plainSize)).value)
    else slots
  }

  function StrongReport(cr: Crypto, plainSize: nat, slots: seq<Slot>): Report
    requires |slots| == STRONG_SLOTS
  {
    var fate, nbad := StrongFate(cr, plainSize, slots), |Bad(cr, slots)|;
    Report(1, if fate == Clean then 1 else 0, if fate == Repaired then 1 else 0, 0,
           if fate == LostEarly then [0] else [], nbad, if fate == Repaired then nbad else 0, 0, 0)
  }

  // ---------- theorems ----------

  /** Every slot is the one written, or its tag fails. */
  ghost predicate StrongDetected(cr: Crypto, orig: seq<Slot>, slots: seq<Slot>) {
    |orig| == |slots| && forall j :: 0 <= j < |slots| ==> slots[j] == orig[j] || !Good(cr, slots[j])
  }

  lemma {:induction false} HolesPresent(cr: Crypto, slots: seq<Slot>, n: nat)
    requires n <= |slots|
    ensures Present(Holes(Payloads(slots), Bad(cr, slots)), n) + |BadUpTo(cr, slots, n)| == n
    decreases n
  {
    if n == 0 {
    } else {
      HolesPresent(cr, slots, n - 1);
      BadFacts(cr, slots, |slots|);
    }
  }

  /** At most 64 bad slots give back the original payloads; more give nothing. */
  lemma StrongRestores(cr: Crypto, nonce: Bytes, plain: Bytes, slots: seq<Slot>)
    requires |nonce| == NONCE_SIZE && SealOk(cr) && StrongOk(cr) && TagsOk(cr)
    requires StrongDetected(cr, StrongFile(cr, nonce, plain), slots)
    ensures |slots| == STRONG_SLOTS
    ensures StrongPayloads(cr, slots, StrongShardSize(|plain|)) ==
      if |Bad(cr, slots)| <= M_STRONG then Some(StrongShards(cr, nonce, plain)) else None
  {
    hide StrongShards, StrongShardSize, SealOk, StrongFile, StrongOk, TagsOk, StrongDetected, AllGood, Uniform, Bad;
    var orig := StrongFile(cr, nonce, plain);
    StrongFileFacts(cr, nonce, plain);
    DetectedLength(cr, orig, slots);
    if Bad(cr, slots) == [] {
      CleanStrong(cr, orig, slots);
    } else if |Bad(cr, slots)| <= M_STRONG {
      StrongRepairs(cr, nonce, plain, slots);
    }
  }

  lemma DetectedLength(cr: Crypto, orig: seq<Slot>, slots: seq<Slot>)
    requires StrongDetected(cr, orig, slots)
    ensures |slots| == |orig|
  {}

  lemma StrongRepairs(cr: Crypto, nonce: Bytes, plain: Bytes, slots: seq<Slot>)
    requires |nonce| == NONCE_SIZE && SealOk(cr) && StrongOk(cr) && TagsOk(cr)
    requires StrongDetected(cr, StrongFile(cr, nonce, plain), slots) && 0 < |Bad(cr, slots)| <= M_STRONG
    ensures RepairStrong(cr, Payloads(slots), Bad(cr, slots), StrongShardSize(|plain|)) == Some(StrongShards(cr, nonce, plain))
  {
    hide StrongShards, StrongShardSize, SealOk, StrongFile, StrongOk, TagsOk, Bad, Holes, Filled, AllGood, BadUpTo;
    var orig, ps, bad := StrongFile(cr, nonce, plain), StrongShards(cr, nonce, plain), Bad(cr, slots);
    StrongFileFacts(cr, nonce, plain);
    StrongShardsFacts(cr, nonce, plain);
    DetectedLength(cr, orig, slots);
    BadInArea(cr, slots);
    ViewsOfWord(cr, orig, slots);
    StrongReconstructs(cr, nonce, plain, Holes(Payloads(slots), bad));
    FilledIs(cr, slots, orig, ps, bad);
  }

  lemma BadInArea(cr: Crypto, slots: seq<Slot>)
    ensures forall j :: j in Bad(cr, slots) ==> j < |slots|
  {
    BadFacts(cr, slots, |slots|);
  }

  /** The good slots' payloads are those of the word written, and all but the bad are present. */
  lemma ViewsOfWord(cr: Crypto, orig: seq<Slot>, slots: seq<Slot>)
    requires StrongDetected(cr, orig, slots)
    ensures Matches(Holes(Payloads(slots), Bad(cr, slots)), Payloads(orig))
    ensures Present(Holes(Payloads(slots), Bad(cr, slots)), |slots|) + |Bad(cr, slots)| == |slots|
  {
    HolesPresent(cr, slots, |slots|);
    BadFacts(cr, slots, |slots|);
  }

  lemma FilledIs(cr: Crypto, slots: seq<Slot>, orig: seq<Slot>, ps: seq<Bytes>, bad: seq<nat>)
    requires StrongDetected(cr, orig, slots) && Payloads(orig) == ps && bad == Bad(cr, slots)
    requires forall j :: j in bad ==> j < |ps|
    ensures Filled(Payloads(slots), bad, ps) == ps
  {
    BadFacts(cr, slots, |slots|);
    forall j | 0 <= j < |slots| && j !in bad
      ensures slots[j] == orig[j]
    {
    }
  }

  lemma StrongReconstructs(cr: Crypto, nonce: Bytes, plain: Bytes, views: seq<Option<Bytes>>)
    requires |nonce| == NONCE_SIZE && SealOk(cr) && StrongOk(cr)
    requires Matches(views, StrongShards(cr, nonce, plain)) && Present(views, |views|) >= K_STRONG
    ensures cr.strong.reconstruct(views) == Some(StrongShards(cr, nonce, plain))
  {
    hide StrongDataArea, Blocks, StrongShardSize, SealOk, Start;
    StrongFits(cr, nonce, plain);
    StrongShardsFacts(cr, nonce, plain);
    var data := Blocks(StrongDataArea(cr, nonce, plain), StrongShardSize(|plain|), K_STRONG);
    assert Codeword(cr.strong, data) == StrongShards(cr, nonce, plain);
  }

  /** The slots written decode to the plaintext, whatever its length. */
  lemma StrongDecodes(cr: Crypto, nonce: Bytes, plain: Bytes)
    requires |nonce| == NONCE_SIZE && SealOk(cr) && StrongOk(cr) && |plain| < TWO_63
    requires Opens(cr, StrongSealing(nonce, plain))
    ensures |StrongShards(cr, nonce, plain)| == STRONG_SLOTS
    ensures DecodeStrong(cr, |plain|, StrongShards(cr, nonce, plain)) == Plain(plain)
  {
    hide StrongShards, StrongDataArea, Blocks, StrongShardSize, Start, SealOk, Concat, StrongFlat, Opens, StrongSealing;
    StrongFits(cr, nonce, plain);
    StrongShardsFacts(cr, nonce, plain);
    var size := StrongShardSize(|plain|);
    UniformBlocks(StrongDataArea(cr, nonce, plain), size, K_STRONG);
    ConcatOfBlocks(StrongDataArea(cr, nonce, plain), size, K_STRONG);
    StrongAreaDecodes(cr, nonce, plain);
  }

  lemma StrongAreaDecodes(cr: Crypto, nonce: Bytes, plain: Bytes)
    requires |nonce| == NONCE_SIZE && SealOk(cr) && |plain| < TWO_63
    requires Opens(cr, StrongSealing(nonce, plain))
    ensures |StrongDataArea(cr, nonce, plain)| >= HEADER_SIZE
    ensures StrongFlat(cr, |plain|, StrongDataArea(cr, nonce, plain)) == Plain(plain)
  {
    hide Marshal, ParseChunkHeader, Start, StrongShardSize;
    StrongFits(cr, nonce, plain);
    var h := StrongHeader(nonce, plain);
    HeaderRoundTrip(h);
    var area, ct := StrongDataArea(cr, nonce, plain), StrongCiphertext(cr, nonce, plain);
    assert area[..HEADER_SIZE] == Marshal(h);
    assert area[HEADER_SIZE..HEADER_SIZE + |plain| + TAG_SIZE] == ct;
  }

  /** For every plaintext, a strong container with at most 64 bad slots reads back
      the plaintext, and one with more gives an error. */
  lemma StrongReadsIff(cr: Crypto, nonce: Bytes, plain: Bytes, slots: seq<Slot>)
    requires |nonce| == NONCE_SIZE && SealOk(cr) && StrongOk(cr) && TagsOk(cr) && |plain| < TWO_63
    requires Opens(cr, StrongSealing(nonce, plain))
    requires StrongDetected(cr, StrongFile(cr, nonce, plain), slots)
    ensures |slots| == STRONG_SLOTS
    ensures LoadStrong(cr, |plain|, slots) == if |Bad(cr, slots)| <= M_STRONG then Chunk(plain) else Unrecoverable
  {
    hide StrongShards, StrongShardSize, SealOk, StrongFile, StrongOk, StrongPayloads, DecodeStrong, Opens, StrongSealing;
    hide StrongDetected, Bad, TagsOk;
    StrongRestores(cr, nonce, plain, slots);
    StrongDecodes(cr, nonce, plain);
  }

  lemma PatchedStrong(cr: Crypto, orig: seq<Slot>, slots: seq<Slot>)
    requires AllGood(cr, orig) && StrongDetected(cr, orig, slots)
    ensures Patched(cr, slots, Payloads(orig)) == orig
  {}

  /** ScrubStrong restores the slots exactly when at most 64 are bad, and leaves
      them alone otherwise. */
  lemma StrongScrubRestores(cr: Crypto, nonce: Bytes, plain: Bytes, slots: seq<Slot>)
    requires |nonce| == NONCE_SIZE && SealOk(cr) && StrongOk(cr) && TagsOk(cr) && |plain| < TWO_63
    requires Opens(cr, StrongSealing(nonce, plain))
    requires StrongDetected(cr, StrongFile(cr, nonce, plain), slots)
    ensures |slots| == STRONG_SLOTS
    ensures StrongScrubbed(cr, |plain|, slots) ==
      if |Bad(cr, slots)| <= M_STRONG then StrongFile(cr, nonce, plain) else slots
    ensures StrongFate(cr, |plain|, slots) ==
      if |Bad(cr, slots)| > M_STRONG then LostEarly else if Bad(cr, slots) == [] then Clean else Repaired
  {
    hide StrongShards, StrongShardSize, SealOk, StrongFile, StrongOk, StrongPayloads, DecodeStrong, Opens;
    hide StrongSealing, Bad;
    hide TagsOk, Patched, StrongDetected, Payloads;
    StrongRestores(cr, nonce, plain, slots);
    StrongDecodes(cr, nonce, plain);
    StrongFileFacts(cr, nonce, plain);
    PatchedStrong(cr, StrongFile(cr, nonce, plain), slots);
    if Bad(cr, slots) == [] {
      CleanStrong(cr, StrongFile(cr, nonce, plain), slots);
    }
  }

  lemma CleanStrong(cr: Crypto, orig: seq<Slot>, slots: seq<Slot>)
    requires StrongDetected(cr, orig, slots) && Bad(cr, slots) == []
    ensures slots == orig
  {
    BadFacts(cr, slots, |slots|);
    forall j | 0 <= j < |slots|
      ensures slots[j] == orig[j]
    {
      assert j !in Bad(cr, slots);
    }
  }

  // ---------- arbitrary contents ----------

  lemma StrongFlatIsAuthentic(cr: Crypto, nonce: Bytes, plain: Bytes, plainSize: nat, area: Bytes)
    requires |nonce| == NONCE_SIZE && |plain| < TWO_63 && OpensOnlySealed(cr, {StrongSealing(nonce, plain)})
    requires |area| == Start(K_STRONG, StrongShardSize(plainSize)) && |area| >= HEADER_SIZE
    requires StrongFlat(cr, plainSize, area).Plain?
    ensures StrongFlat(cr, plainSize, area) == Plain(plain) && plainSize == |plain|
  {
    hide Marshal, ParseChunkHeader, Start, StrongShardSize;
    var hdr := ParseChunkHeader(area[..HEADER_SIZE]).value;
    var ct := area[HEADER_SIZE..HEADER_SIZE + hdr.plainLen + TAG_SIZE];
    var found := Sealing(hdr.nonce, cr.open(hdr.nonce, ct, area[..HEADER_SIZE]).value, area[..HEADER_SIZE]);
    assert found == StrongSealing(nonce, plain);
    HeaderRoundTrip(StrongHeader(nonce, plain));
  }

  /** For arbitrary slots, whatever manifest size they are read with, loading a
      strong container returns the plaintext that was sealed or an error. */
  lemma NeverAnotherPlaintext(cr: Crypto, nonce: Bytes, plain: Bytes, plainSize: nat, slots: seq<Slot>)
    requires |nonce| == NONCE_SIZE && |plain| < TWO_63 && OpensOnlySealed(cr, {StrongSealing(nonce, plain)})
    requires |slots| == STRONG_SLOTS
    ensures
      var r := LoadStrong(cr, plainSize, slots);
      r.Chunk? ==> r == Chunk(plain) && plainSize == |plain|
  {
    hide OpensOnlySealed, StrongSealing, StrongPayloads, StrongFlat, Concat, StrongShardSize, Start;
    if LoadStrong(cr, plainSize, slots).Chunk? {
      var parts := StrongPayloads(cr, slots, StrongShardSize(plainSize)).value[..K_STRONG];
      ConcatLength(parts, StrongShardSize(plainSize));
      StrongRoom(plainSize);
      StrongFlatIsAuthentic(cr, nonce, plain, plainSize, Concat(parts));
    }
  }

  // ---------- bytes ----------

  /** The data area: magic, index 0, length, nonce, ciphertext and zeros. */
  lemma StrongAreaBytes(cr: Crypto, nonce: Bytes, plain: Bytes)
    requires |nonce| == NONCE_SIZE && SealOk(cr) && |plain| < TWO_63
    ensures |StrongDataArea(cr, nonce, plain)| >= HEADER_SIZE + |plain| + TAG_SIZE
    ensures
      var area, n := StrongDataArea(cr, nonce, plain), HEADER_SIZE + |plain| + TAG_SIZE;
      && area[..4] == [0x53, 0x56, 0x43, 0x31] && HighFirst(area[4..12], 0) && HighFirst(area[12..20], |plain|)
      && area[20..32] == nonce && area[32..n] == cr.seal(nonce, plain, area[..32])
      && area[n..] == Zeros(|area| - n)
  {
    hide Marshal, Start, StrongShardSize, HighFirst;
    StrongFits(cr, nonce, plain);
    var h := StrongHeader(nonce, plain);
    HeaderBytes(h);
    var area, b := StrongDataArea(cr, nonce, plain), Marshal(h);
    assert area[..32] == b;
    assert area[4..12] == b[4..12] && area[12..20] == b[12..20] && area[20..32] == b[20..32];
  }

  /** The verdict on a strong data area, by its bytes. */
  lemma StrongVerdict(cr: Crypto, plainSize: nat, area: Bytes, h: ChunkHeader)
    requires |area| == Start(K_STRONG, StrongShardSize(plainSize)) && |area| >= HEADER_SIZE
    requires |h.nonce| == NONCE_SIZE && -TWO_63 <= h.index < TWO_63 && -TWO_63 <= h.plainLen < TWO_63
    ensures |area| >= HEADER_SIZE + plainSize + TAG_SIZE
    ensures area[..4] != [0x53, 0x56, 0x43, 0x31] ==> StrongFlat(cr, plainSize, area) == Rejected(BadHeader)
    ensures area[..32] == Marshal(h) ==>
      (StrongFlat(cr, plainSize, area) ==
         if h.index != 0 then Rejected(WrongIndex)
         else if h.plainLen != plainSize then Rejected(BadLength)
         else
           var found := cr.open(h.nonce, area[32..48 + plainSize], area[..32]);
           if found.None? then Rejected(AuthFailed) else Plain(found.value))
  {
    hide Marshal, ParseChunkHeader, Start, StrongShardSize;
    StrongRoom(plainSize);
    ParsedHeaderIs(area[..32]);
    assert area[..32][..4] == area[..4];
    HeaderRoundTrip(h);
  }

  // ---------- the report ----------

  function FailingStrong(cr: Crypto, slots: seq<Slot>, n: nat): set<nat>
    requires n <= |slots|
  {
    set j: nat | j < n && !Good(cr, slots[j])
  }

  lemma {:induction false} FailingCount(cr: Crypto, slots: seq<Slot>, n: nat)
    requires n <= |slots|
    ensures |BadUpTo(cr, slots, n)| == |FailingStrong(cr, slots, n)|
    decreases n
  {
    hide Good;
    if n == 0 {
      assert FailingStrong(cr, slots, 0) == {};
    } else {
      FailingCount(cr, slots, n - 1);
      var before := FailingStrong(cr, slots, n - 1);
      assert FailingStrong(cr, slots, n) == if Good(cr, slots[n - 1]) then before else before + {n - 1};
    }
  }

  /** For any slots: the one unit is lost exactly when it does not load, and otherwise
      clean or repaired; bad slots are counted whatever becomes of it. */
  lemma StrongReportCounts(cr: Crypto, plainSize: nat, slots: seq<Slot>)
    requires |slots| == STRONG_SLOTS
    ensures
      var r, loads, bad := StrongReport(cr, plainSize, slots), LoadStrong(cr, plainSize, slots).Chunk?, |FailingStrong(cr, slots, STRONG_SLOTS)|;
      && r.total == 1 && r.rebuilt == 0 && r.paritySlotsBad == 0 && r.parityShardsFixed == 0
      && r.lost == (if loads then [] else [0])
      && r.clean == (if loads && bad == 0 then 1 else 0) && r.repaired == (if loads && bad > 0 then 1 else 0)
      && r.shardsBad == bad && r.shardsRepaired == (if loads then bad else 0)
  {
    hide StrongPayloads, DecodeStrong, FailingStrong, StrongShardSize;
    FailingCount(cr, slots, STRONG_SLOTS);
  }
}

/** What can become of a chunk that the first pass of a scrub loses: the blob at its
    place is a sound blob of something else. */
module EarlyLoss {
  import opened Bytes
  import opened ErasureCode
  import opened Layout
  import opened Vault
  import opened Format
  import opened Repair
  import opened RepairTheorems
  import opened Encoder
  import opened ExpectedWrites
  import opened ScrubSpec
  import opened ScrubTheorems
  import opened ParityPass

  // ---------- how a chunk is lost early ----------

  /** A blob with at most 128 bad slots whose good ones are those of a codeword that
      does not decode under this index is lost in the first pass. */
  lemma WrongWordIsLost(v: Vault, img: Image, i: nat, wrong: seq<Slot>)
    requires Opened(v, img) && i < v.chunkCount && BlobWord(v.cr, wrong)
    requires BlobDetected(v.cr, wrong, DataBlob(v, img, i)) && Few(v.cr, DataBlob(v, img, i))
    requires DecodeChunk(v.cr, i, Payloads(wrong)).Rejected?
    ensures FirstFate(v, img, i) == LostEarly
  {
    hide DecodeChunk, InBlob, BlobWord, BlobDetected, Bad, DataBlob, Shaped, FileCodesOk, TagsOk;
    assert IntraOk(v.cr) by { CodesParts(v.cr); }
    InBlobRestores(v.cr, wrong, DataBlob(v, img, i));
  }

  /** Such a blob: the blob of another chunk, with at most 128 bad slots. It is
      refused for its index, by the scrub and by the read path. */
  lemma MisfiledIsLost(v: Vault, pfx: Bytes, img: Image, i: nat, j: nat, plain: Bytes)
    requires Opened(v, img) && i < v.chunkCount && i != j && |pfx| == 4 && SealOk(v.cr) && ChunkOk(plain) && j < TWO_63
    requires Fits(v.cr, pfx, j, plain)
    requires BlobDetected(v.cr, ChunkBlob(v.cr, pfx, j, plain), DataBlob(v, img, i)) && Few(v.cr, DataBlob(v, img, i))
    ensures FirstFate(v, img, i) == LostEarly && LoadChunk(v, img, i) == Undecodable(WrongIndex)
  {
    hide DecodeChunk, InBlob, BlobWord, BlobDetected, Bad, DataBlob, Shaped, FileCodesOk, TagsOk, ChunkBlob, Fits, SealOk;
    assert IntraOk(v.cr) && TagsOk(v.cr) by { CodesParts(v.cr); }
    ChunkBlobFacts(v.cr, pfx, j, plain);
    DecodeRefusesOther(v.cr, pfx, j, plain, i);
    WrongWordIsLost(v, img, i, ChunkBlob(v.cr, pfx, j, plain));
    InBlobRestores(v.cr, ChunkBlob(v.cr, pfx, j, plain), DataBlob(v, img, i));
  }

  // ---------- what the third pass writes ----------

  /** The data blobs of a group. */
  function DataGroup(v: Vault, img: Image, g: nat): (data: Group)
    requires v.spec.Valid() && Shaped(img, v.Total()) && g < v.Groups()
    ensures |data| == v.K(g) && WholeGroup(data, 0)
  {
    hide Shaped, BlobOf, Whole;
    var data := seq(v.K(g), n requires 0 <= n < v.K(g) => BlobOf(v, img, g, n));
    WholeGroupIntro(data, 0);
    data
  }

  lemma FullColumns(cr: Crypto, data: Group, m: nat)
    requires WholeGroup(data, 0) && FileCodeOk(cr, |data|, m) && TagsOk(cr) && m > 0
    ensures ColumnWords(cr, FullGroup(cr, data, m), |data|)
  {
    hide FileCodeOk, ColumnWord, FullGroup, TagsOk, AllGood, Whole;
    FullGroupWhole(cr, data, m);
    forall j | 0 <= j < SHARDS_PER_BLOB
      ensures ColumnWord(cr, FullGroup(cr, data, m), |data|, j)
    {
      FullGroupColumn(cr, data, m, j);
    }
  }

  /** The windows the third pass computes are those of the parity blobs that
      column-by-column encoding of the data blobs defines. */
  lemma NewParityIsColumns(v: Vault, img: Image, g: nat, q: nat, w: nat)
    requires Opened(v, img) && g < v.Groups() && q < v.M(g) && w < WINDOWS
    ensures FileCodesOk(v.cr) && FileCodeOk(v.cr, v.K(g), v.M(g))
    ensures NewParity(v, img, g, w)[q] == WindowPayload(ParityBlob(v.cr, DataGroup(v, img, g), v.M(g), q), w)
  {
    hide Shaped, BlobOf, FileCodesOk, TagsOk, WindowPayload, FileCodeOk, ParityBlob, ColumnWord;
    CodesParts(v.cr);
    GroupSizes(v, g);
    FileCode(v.cr, v.K(g), v.M(g));
    var data, k, m := DataGroup(v, img, g), v.K(g), v.M(g);
    var full := FullGroup(v.cr, data, m);
    FullColumns(v.cr, data, m);
    WindowIsWord(v.cr, full, k, w);
    var word := GroupWord(full, w);
    assert DataWindows(v, img, g, w) == word[..k];
    assert word[k + q] == v.cr.file(k, m).encode(word[..k])[q];
    assert full[k + q] == ParityBlob(v.cr, data, m, q);
  }

  /** Checking any parity blob against a fresh blob's columns leaves that blob. */
  lemma CheckedIsFresh(cr: Crypto, want: seq<Slot>, blob: seq<Slot>, outs: seq<Bytes>)
    requires Whole(want) && AllGood(cr, want) && Whole(blob) && |outs| == WINDOWS && Uniform(outs, WINDOW_BYTES)
    requires forall w :: 0 <= w < WINDOWS ==> outs[w] == WindowPayload(want, w)
    ensures CheckedBlob(cr, blob, outs) == want
  {
    hide WindowPayload, ColumnOf, Uniform;
    forall j | 0 <= j < |blob|
      ensures CheckedBlob(cr, blob, outs)[j] == want[j]
    {
      ColumnIsSlot(want, j / WINDOW, j % WINDOW);
      assert j / WINDOW * WINDOW + j % WINDOW == j;
    }
  }

  /** A group that is checked as a whole ends with the parity of whatever its data
      blobs hold, be it right or wrong. */
  lemma ThirdIsParityOfData(v: Vault, img: Image, fates: seq<Fate>, g: nat, q: nat)
    requires Opened(v, img) && |fates| == v.chunkCount && g < v.Groups() && q < v.M(g)
    requires Visited(v, img, fates, g) == WINDOWS
    ensures FileCodeOk(v.cr, v.K(g), v.M(g))
    ensures ThirdBlob(v, img, fates, true, g, q) == ParityBlob(v.cr, DataGroup(v, img, g), v.M(g), q)
  {
    hide Shaped, BlobOf, FileCodesOk, TagsOk, WindowPayload, FileCodeOk, ParityBlob, Visited, NewParity, CheckedBlob;
    hide AllGood;
    CodesParts(v.cr);
    GroupSizes(v, g);
    FileCode(v.cr, v.K(g), v.M(g));
    ParityBlobFacts(v.cr, DataGroup(v, img, g), v.M(g), q);
    var outs := NewWindows(v, img, g, q, WINDOWS);
    forall w | 0 <= w < WINDOWS
      ensures outs[w] == WindowPayload(ParityBlob(v.cr, DataGroup(v, img, g), v.M(g), q), w)
    {
      NewParityIsColumns(v, img, g, q, w);
    }
    CheckedIsFresh(v.cr, ParityBlob(v.cr, DataGroup(v, img, g), v.M(g), q), BlobOf(v, img, g, v.K(g) + q), outs);
  }

  /** For every file: a group that a scrub checks as a whole is, afterwards, its data
      blobs and their parity. */
  lemma ScrubbedGroup(v: Vault, img: Image, g: nat)
    requires Opened(v, img) && g < v.Groups()
    requires Visited(v, AfterTwo(v, img, true), Fates(v, img, true), g) == WINDOWS
    ensures FileCodeOk(v.cr, v.K(g), v.M(g))
    ensures GroupBlobs(v, Scrubbed(v, img, true, true), g) ==
            FullGroup(v.cr, DataGroup(v, AfterTwo(v, img, true), g), v.M(g))
  {
    hide Shaped, BlobOf, FileCodeOk, TagsOk, CodesOk, ParityBlob, Visited, AfterTwo, Fates, ThirdBlob, ThirdImage, At;
    assert FileCodeOk(v.cr, v.K(g), v.M(g)) by { CodesParts(v.cr); GroupSizes(v, g); FileCode(v.cr, v.K(g), v.M(g)); }
    var two, fates, done := AfterTwo(v, img, true), Fates(v, img, true), Scrubbed(v, img, true, true);
    var full := FullGroup(v.cr, DataGroup(v, two, g), v.M(g));
    forall n | 0 <= n < v.K(g) + v.M(g)
      ensures BlobOf(v, done, g, n) == full[n]
    {
      if n < v.K(g) {
        DataUntouched(v, two, fates, g, n);
      } else {
        ThirdIsParityOfData(v, two, fates, g, n - v.K(g));
        GroupParityAt(v, done, g, n - v.K(g));
        ThirdImageAt(v, two, fates, true, Parity(g, n - v.K(g)));
      }
    }
  }

  /** The third pass writes no data blob. */
  lemma DataUntouched(v: Vault, img: Image, fates: seq<Fate>, g: nat, n: nat)
    requires Opened(v, img) && |fates| == v.chunkCount && g < v.Groups() && n < v.K(g)
    ensures BlobOf(v, ThirdImage(v, img, fates, true), g, n) == BlobOf(v, img, g, n)
  {
    hide Shaped, BlobOf, TagsOk, CodesOk, ThirdImage, At, DataBlob;
    var i := g * FILE_GROUP_CHUNKS + n;
    GroupDataAt(v, img, g, n);
    GroupDataAt(v, ThirdImage(v, img, fates, true), g, n);
    DataAt(v, img, i);
    DataAt(v, ThirdImage(v, img, fates, true), i);
    ThirdImageAt(v, img, fates, true, Data(i));
  }

  // ---------- the last copy ----------

  /** What stands at the places given as missing does not matter. */
  lemma MissingIgnored(cr: Crypto, a: Group, b: Group, k: nat, missing: set<int>)
    requires WholeGroup(a, k) && WholeGroup(b, k) && |a| == |b|
    requires forall n :: 0 <= n < |a| && !(n < k && n in missing) ==> a[n] == b[n]
    ensures RebuildMissing(cr, a, k, missing) == RebuildMissing(cr, b, k, missing)
  {
    hide RebuildWindow, WholeGroup, RebuiltPayloads;
    forall w: nat | w < WINDOWS
      ensures RebuildWindow(cr, a, k, missing, w) == RebuildWindow(cr, b, k, missing, w)
    {
      SameWindow(cr, a, b, k, missing, w);
    }
    assert WindowsOk(cr, a, k, missing, WINDOWS) <==> WindowsOk(cr, b, k, missing, WINDOWS);
    if WindowsOk(cr, a, k, missing, WINDOWS) {
      forall pos | pos in missing
        ensures RebuiltPayloads(cr, a, k, missing, pos) == RebuiltPayloads(cr, b, k, missing, pos)
      {
        SamePayloads(cr, a, b, k, missing, pos);
      }
      assert AllRebuilt(cr, a, k, missing) == AllRebuilt(cr, b, k, missing);
    }
  }

  lemma SameWindow(cr: Crypto, a: Group, b: Group, k: nat, missing: set<int>, w: nat)
    requires WholeGroup(a, k) && WholeGroup(b, k) && |a| == |b| && w < WINDOWS
    requires forall n :: 0 <= n < |a| && !(n < k && n in missing) ==> a[n] == b[n]
    ensures RebuildWindow(cr, a, k, missing, w) == RebuildWindow(cr, b, k, missing, w)
  {
    hide WindowRead, Present;
    assert GroupViews(cr, a, k, missing, w) == GroupViews(cr, b, k, missing, w);
  }

  lemma SamePayloads(cr: Crypto, a: Group, b: Group, k: nat, missing: set<int>, pos: int)
    requires WholeGroup(a, k) && WholeGroup(b, k) && pos in missing
    requires WindowsOk(cr, a, k, missing, WINDOWS) && WindowsOk(cr, b, k, missing, WINDOWS)
    requires forall w :: 0 <= w < WINDOWS ==> RebuildWindow(cr, a, k, missing, w) == RebuildWindow(cr, b, k, missing, w)
    ensures RebuiltPayloads(cr, a, k, missing, pos) == RebuiltPayloads(cr, b, k, missing, pos)
  {
    hide RebuildWindow, WholeGroup, Blocks;
    SameBytes(cr, a, b, k, missing, pos, WINDOWS);
  }

  lemma {:induction false} SameBytes(cr: Crypto, a: Group, b: Group, k: nat, missing: set<int>, pos: int, n: nat)
    requires WholeGroup(a, k) && WholeGroup(b, k) && n <= WINDOWS && pos in missing
    requires WindowsOk(cr, a, k, missing, n) && WindowsOk(cr, b, k, missing, n)
    requires forall w :: 0 <= w < n ==> RebuildWindow(cr, a, k, missing, w) == RebuildWindow(cr, b, k, missing, w)
    ensures RebuiltBytes(cr, a, k, missing, pos, n) == RebuiltBytes(cr, b, k, missing, pos, n)
    decreases n
  {
    hide RebuildWindow, WholeGroup;
    if n == 0 {
    } else {
      SameBytes(cr, a, b, k, missing, pos, n - 1);
    }
  }

  /** A written group gives back any one of its data blobs. */
  lemma OneFromGroup(cr: Crypto, blobs: Group, k: nat, pos: nat)
    requires WrittenGroup(cr, blobs, k) && FileCodeOk(cr, k, |blobs| - k) && pos < k
    ensures RebuildMissing(cr, blobs, k, {pos}).Some?
    ensures RebuildMissing(cr, blobs, k, {pos}).value[pos as int] == Payloads(blobs[pos])
  {
    hide FileCodeOk, BlobWord, ColumnWord;
    assert GroupDetected(cr, blobs, blobs);
    forall w | 0 <= w < WINDOWS
      ensures |Absent(cr, blobs, k, {pos}, w)| <= |blobs| - k
    {
      SubsetCount(Absent(cr, blobs, k, {pos}, w), {pos});
    }
    RebuildIff(cr, blobs, blobs, k, {pos});
  }

  /** The original container with another sound blob in the place of chunk i. */
  ghost predicate Replaced(v: Vault, orig: Image, chunks: seq<Bytes>, img: Image, i: nat, wrong: seq<Slot>) {
    && Opened(v, orig) && Original(v, orig, chunks) && i < v.chunkCount
    && Opened(v, img) && BlobWord(v.cr, wrong) && AllGood(v.cr, wrong) && DecodeChunk(v.cr, i, Payloads(wrong)).Rejected?
    && forall p :: InContainer(v.spec, v.chunkCount, p) ==> At(v, img, p) == if p == Data(i) then wrong else At(v, orig, p)
  }

  lemma ReplacedParts(v: Vault, orig: Image, chunks: seq<Bytes>, img: Image, i: nat, wrong: seq<Slot>)
    requires Replaced(v, orig, chunks, img, i, wrong)
    ensures Opened(v, orig) && Original(v, orig, chunks) && i < v.chunkCount && Opened(v, img) && Whole(wrong)
    ensures BlobWord(v.cr, wrong) && AllGood(v.cr, wrong) && DecodeChunk(v.cr, i, Payloads(wrong)).Rejected?
  {}

  lemma ReplacedData(v: Vault, orig: Image, chunks: seq<Bytes>, img: Image, i: nat, wrong: seq<Slot>, c: nat)
    requires Replaced(v, orig, chunks, img, i, wrong) && c < v.chunkCount
    ensures DataBlob(v, img, c) == if c == i then wrong else DataBlob(v, orig, c)
    ensures BlobWord(v.cr, DataBlob(v, img, c)) && AllGood(v.cr, DataBlob(v, img, c)) &&
      Bad(v.cr, DataBlob(v, img, c)) == []
  {
    hide Shaped, At, Original, BlobWord, AllGood, DataBlob, Bad, DecodeChunk, TagsOk, CodesOk;
    DataAt(v, img, c);
    DataAt(v, orig, c);
    OriginalBlob(v, orig, chunks, c);
    NoneBad(v.cr, DataBlob(v, img, c));
  }

  /** Only chunk i is lost, and no other blob needs a repair. */
  lemma ReplacedFates(v: Vault, orig: Image, chunks: seq<Bytes>, img: Image, i: nat, wrong: seq<Slot>, c: nat)
    requires Replaced(v, orig, chunks, img, i, wrong) && c < v.chunkCount
    ensures FirstFate(v, img, c) == Fates(v, img, true)[c] == if c == i then LostEarly else Clean
    ensures DataBlob(v, AfterTwo(v, img, true), c) == DataBlob(v, img, c)
  {
    hide Shaped, Original, Replaced, BlobWord, AllGood, DataBlob, Bad, DecodeChunk, TagsOk, CodesOk, AfterTwo, Fates;
    ReplacedParts(v, orig, chunks, img, i, wrong);
    ReplacedData(v, orig, chunks, img, i, wrong, c);
    OriginalDecodes(v, orig, chunks, c);
    FatesAt(v, img, true, c);
    AfterTwoBlob(v, img, c);
  }

  lemma ReplacedVisited(v: Vault, orig: Image, chunks: seq<Bytes>, img: Image, i: nat, wrong: seq<Slot>, g: nat)
    requires Replaced(v, orig, chunks, img, i, wrong) && g < v.Groups()
    ensures Visited(v, AfterTwo(v, img, true), Fates(v, img, true), g) == WINDOWS
  {
    hide Shaped, Replaced, DataBlob, Bad, TagsOk, CodesOk, AfterTwo, Fates, FirstFate, Visited;
    ReplacedParts(v, orig, chunks, img, i, wrong);
    forall h: nat | h <= g
      ensures !Skipped(v, Fates(v, img, true), h) && EarlyVerifies(v, img, h)
    {
      GroupSizes(v, h);
      forall c: nat | h * FILE_GROUP_CHUNKS <= c < h * FILE_GROUP_CHUNKS + v.K(h)
        ensures Fates(v, img, true)[c] != LostLate && GoodUnlessEarly(v, img, c)
      {
        ReplacedFates(v, orig, chunks, img, i, wrong, c);
        ReplacedData(v, orig, chunks, img, i, wrong, c);
      }
    }
    VisitedIff(v, img, g);
  }

  /** Before the scrub the group gives back the blob of chunk i. */
  lemma GroupHasChunk(v: Vault, orig: Image, chunks: seq<Bytes>, img: Image, i: nat, wrong: seq<Slot>)
    requires Replaced(v, orig, chunks, img, i, wrong)
    ensures FileLevel(v, img, i) == Some(Payloads(DataBlob(v, orig, i)))
  {
    hide Shaped, Original, Replaced, DataBlob, TagsOk, CodesOk, WrittenGroup, FileCodeOk, RebuildMissing, Whole, GroupBlobs;
    ReplacedParts(v, orig, chunks, img, i, wrong);
    DataInGroup(v, orig, i);
    var g, pos := i / FILE_GROUP_CHUNKS, i % FILE_GROUP_CHUNKS;
    OriginalGroup(v, orig, chunks, g);
    assert FileCodeOk(v.cr, v.K(g), v.M(g)) by { CodesParts(v.cr); GroupSizes(v, g); FileCode(v.cr, v.K(g), v.M(g)); }
    OneFromGroup(v.cr, GroupBlobs(v, orig, g), v.K(g), pos);
    forall n | 0 <= n < v.K(g) + v.M(g) && n != pos
      ensures GroupBlobs(v, img, g)[n] == GroupBlobs(v, orig, g)[n]
    {
      ReplacedElsewhere(v, orig, chunks, img, i, wrong, g, n);
    }
    MissingIgnored(v.cr, GroupBlobs(v, img, g), GroupBlobs(v, orig, g), v.K(g), {pos});
  }

  lemma ReplacedElsewhere(v: Vault, orig: Image, chunks: seq<Bytes>, img: Image, i: nat, wrong: seq<Slot>, g: nat, n: nat)
    requires Replaced(v, orig, chunks, img, i, wrong) && g < v.Groups() && n < v.K(g) + v.M(g)
    requires g == i / FILE_GROUP_CHUNKS && n != i % FILE_GROUP_CHUNKS
    ensures GroupBlobs(v, img, g)[n] == GroupBlobs(v, orig, g)[n]
  {
    hide Shaped, Original, BlobOf, DataBlob, At, TagsOk, CodesOk, BlobWord, AllGood, DecodeChunk;
    if n < v.K(g) {
      GroupDataAt(v, img, g, n);
      GroupDataAt(v, orig, g, n);
      DataAt(v, img, g * FILE_GROUP_CHUNKS + n);
      DataAt(v, orig, g * FILE_GROUP_CHUNKS + n);
    } else {
      GroupParityAt(v, img, g, n - v.K(g));
      GroupParityAt(v, orig, g, n - v.K(g));
    }
  }

  /** When every tag of the blob that was lost early verifies, the scrub turns the
      group's good parity into that of the wrong data. Before it, the group gave back
      chunk i; after it, the group gives back the blob that is not chunk i. */
  lemma LastCopyLost(v: Vault, orig: Image, chunks: seq<Bytes>, img: Image, i: nat, wrong: seq<Slot>)
    requires Replaced(v, orig, chunks, img, i, wrong)
    ensures FileLevel(v, img, i) == Some(Payloads(DataBlob(v, orig, i)))
    ensures DecodeChunk(v.cr, i, Payloads(DataBlob(v, orig, i))) == Plain(chunks[i])
    ensures FileLevel(v, Scrubbed(v, img, true, true), i) == Some(Payloads(wrong))
    ensures DecodeChunk(v.cr, i, Payloads(wrong)).Rejected?
  {
    hide Shaped, Original, Replaced, DataBlob, TagsOk, CodesOk, WrittenGroup, FileCodeOk, RebuildMissing, Whole;
    hide GroupBlobs, AfterTwo, Fates, Scrubbed, BlobWord, AllGood, DataGroup, FullGroup, WholeGroup, FileCodeExists;
    ReplacedParts(v, orig, chunks, img, i, wrong);
    OriginalDecodes(v, orig, chunks, i);
    GroupHasChunk(v, orig, chunks, img, i, wrong);
    DataInGroup(v, orig, i);
    var g, pos := i / FILE_GROUP_CHUNKS, i % FILE_GROUP_CHUNKS;
    ReplacedVisited(v, orig, chunks, img, i, wrong, g);
    ScrubbedGroup(v, img, g);
    ScrubbedData(v, orig, chunks, img, i, wrong, g);
    var data := DataGroup(v, AfterTwo(v, img, true), g);
    GroupSizes(v, g);
    CodeExists(v, g);
    FullGroupWritten(v.cr, data, v.M(g));
    OneFromGroup(v.cr, FullGroup(v.cr, data, v.M(g)), v.K(g), pos);
    assert FullGroup(v.cr, data, v.M(g))[pos] == data[pos] by { hide *; FullGroupData(v.cr, data, v.M(g), pos); }
  }

  lemma CodeExists(v: Vault, g: nat)
    requires v.spec.Valid() && g < v.Groups()
    ensures FileCodeExists(v.K(g), v.M(g))
  {
    GroupSizes(v, g);
  }

  lemma FullGroupData(cr: Crypto, data: Group, m: nat, n: nat)
    requires WholeGroup(data, 0) && FileCodeOk(cr, |data|, m) && n < |data|
    ensures FullGroup(cr, data, m)[n] == data[n]
  {
    hide FileCodeOk, ParityBlob, Whole;
  }

  /** The group's data blobs are sound, and the one at chunk i's place is wrong. */
  lemma ScrubbedData(v: Vault, orig: Image, chunks: seq<Bytes>, img: Image, i: nat, wrong: seq<Slot>, g: nat)
    requires Replaced(v, orig, chunks, img, i, wrong) && g == i / FILE_GROUP_CHUNKS < v.Groups()
    ensures i % FILE_GROUP_CHUNKS < v.K(g) && DataGroup(v, AfterTwo(v, img, true), g)[i % FILE_GROUP_CHUNKS] == wrong
    ensures TagsOk(v.cr)
    ensures forall n :: 0 <= n < v.K(g) ==>
      var data := DataGroup(v, AfterTwo(v, img, true), g); BlobWord(v.cr, data[n]) && AllGood(v.cr, data[n])
  {
    hide Shaped, Original, Replaced, DataBlob, CodesOk, AfterTwo, Fates, BlobWord, AllGood, BlobOf, Bad, FirstFate;
    ReplacedParts(v, orig, chunks, img, i, wrong);
    DataNoBound(v, i);
    var data, two := DataGroup(v, AfterTwo(v, img, true), g), AfterTwo(v, img, true);
    forall n | 0 <= n < v.K(g)
      ensures data[n] == DataBlob(v, img, g * FILE_GROUP_CHUNKS + n) && BlobWord(v.cr, data[n]) && AllGood(v.cr, data[n])
    {
      GroupDataAt(v, two, g, n);
      ReplacedFates(v, orig, chunks, img, i, wrong, g * FILE_GROUP_CHUNKS + n);
      ReplacedData(v, orig, chunks, img, i, wrong, g * FILE_GROUP_CHUNKS + n);
    }
    ReplacedData(v, orig, chunks, img, i, wrong, i);
    assert g * FILE_GROUP_CHUNKS + i % FILE_GROUP_CHUNKS == i;
  }

  // ---------- containers in which it happens ----------

  /** The blob of chunk j at the place of chunk i is such a container, whatever was
      written. */
  lemma MisfiledChunk(v: Vault, pfx: Bytes, chunks: seq<Bytes>, i: nat, j: nat)
    requires Plan(v, pfx, chunks) && i < v.chunkCount && j < v.chunkCount && i != j
    ensures v.DataNo(i) < |SeqImage(v, pfx, chunks)|
    ensures
      var orig, wrong := SeqImage(v, pfx, chunks), BlobOfChunk(v.cr, pfx, chunks, j);
      Replaced(v, orig, chunks, orig[v.DataNo(i) := wrong], i, wrong)
  {
    hide SeqImage, ChunkBlob, DecodeChunk, BlobWord, AllGood, Whole, Shaped, Original, At, InContainer, Place;
    hide SealOk, OpensSealed, ChunkOk, FileCodesOk, IntraOk, TagsOk, Fits;
    var orig, wrong := SeqImage(v, pfx, chunks), BlobOfChunk(v.cr, pfx, chunks, j);
    SeqImageIsOriginal(v, pfx, chunks);
    DataNoBound(v, i);
    ShapedSize(orig, v.Total());
    BlobIsWhole(v.cr, wrong);
    DecodeRefusesOther(v.cr, pfx, j, chunks[j], i);
    DataIn(v, i);
    AtUpdated(v, orig, Data(i), wrong, Data(i));
    forall p | InContainer(v.spec, v.chunkCount, p)
      ensures At(v, orig[v.DataNo(i) := wrong], p) == if p == Data(i) then wrong else At(v, orig, p)
    {
      AtUpdated(v, orig, Data(i), wrong, p);
    }
  }

  lemma BlobIsWhole(cr: Crypto, blob: seq<Slot>)
    requires BlobWord(cr, blob)
    ensures Whole(blob)
  {}

  lemma DataIn(v: Vault, i: nat)
    requires i < v.chunkCount
    ensures InContainer(v.spec, v.chunkCount, Data(i)) && v.DataNo(i) == Place(v.spec, v.chunkCount, Data(i))
  {}

  /** The data of such a container with one more slot damaged, and any parity. */
  ghost predicate MisfiledDamaged(v: Vault, pfx: Bytes, chunks: seq<Bytes>, img: Image,
                                  i: nat, j: nat, s: nat, slot: Slot)
  {
    && Plan(v, pfx, chunks) && Opened(v, img) && i < v.chunkCount && j < v.chunkCount && i != j
    && s < SHARDS_PER_BLOB && Sized(slot) && !Good(v.cr, slot)
    && forall c :: 0 <= c < v.chunkCount ==>
         DataBlob(v, img, c) ==
           if c == i then BlobOfChunk(v.cr, pfx, chunks, j)[s := slot] else BlobOfChunk(v.cr, pfx, chunks, c)
  }

  lemma {:induction false} OneBad(cr: Crypto, blob: seq<Slot>, s: nat, n: nat)
    requires s < |blob| && n <= |blob| && forall j :: 0 <= j < |blob| ==> (Good(cr, blob[j]) <==> j != s)
    ensures BadUpTo(cr, blob, n) == if n <= s then [] else [s]
    decreases n
  {
    if n == 0 {
    } else {
      OneBad(cr, blob, s, n - 1);
    }
  }

  lemma OneBadSlot(cr: Crypto, orig: seq<Slot>, s: nat, slot: Slot)
    requires Whole(orig) && AllGood(cr, orig) && s < SHARDS_PER_BLOB && Sized(slot) && !Good(cr, slot)
    ensures BlobDetected(cr, orig, orig[s := slot]) && Few(cr, orig[s := slot]) && Bad(cr, orig[s := slot]) != []
  {
    OneBad(cr, orig[s := slot], s, SHARDS_PER_BLOB);
  }

  /** Its one loss is early, and its group is not skipped. */
  lemma MisfiledFates(v: Vault, pfx: Bytes, chunks: seq<Bytes>, img: Image, i: nat, j: nat, s: nat, slot: Slot, c: nat)
    requires MisfiledDamaged(v, pfx, chunks, img, i, j, s, slot) && c < v.chunkCount
    ensures FirstFate(v, img, c) == Fates(v, img, true)[c] == if c == i then LostEarly else Clean
    ensures Bad(v.cr, DataBlob(v, img, i)) != []
  {
    hide Shaped, ChunkBlob, DecodeChunk, BlobWord, AllGood, Fates, DataBlob, Good, Bad, BlobDetected;
    hide SealOk, OpensSealed, ChunkOk, FileCodesOk, IntraOk, TagsOk, Fits, Sized, Few;
    BlobIsWhole(v.cr, BlobOfChunk(v.cr, pfx, chunks, j));
    OneBadSlot(v.cr, BlobOfChunk(v.cr, pfx, chunks, j), s, slot);
    FatesAt(v, img, true, c);
    if c == i {
      assert ChunkOk(chunks[j]) && Fits(v.cr, pfx, j, chunks[j]) by { ReadyChunkFits(v.cr, pfx, chunks, j); }
      MisfiledIsLost(v, pfx, img, i, j, chunks[j]);
    } else {
      NoneBad(v.cr, BlobOfChunk(v.cr, pfx, chunks, c));
      SeqChunkDecodes(v.cr, pfx, chunks, c);
    }
  }

  lemma ReadyChunkFits(cr: Crypto, pfx: Bytes, chunks: seq<Bytes>, j: nat)
    requires Ready(cr, pfx, chunks) && j < |chunks|
    ensures ChunkOk(chunks[j]) && Fits(cr, pfx, j, chunks[j]) &&
      BlobOfChunk(cr, pfx, chunks, j) == ChunkBlob(cr, pfx, j, chunks[j])
  {
    hide ChunkBlob, TagsOk, CodesOk, OpensSealed;
    ChunkFits(cr, pfx, j, chunks[j]);
  }

  /** In every such container the third pass ends at that group: no parity of any
      later group is looked at, whatever its state. */
  lemma OneSlotStopsThePass(v: Vault, pfx: Bytes, chunks: seq<Bytes>, img: Image,
                            i: nat, j: nat, s: nat, slot: Slot, h: nat, q: nat)
    requires MisfiledDamaged(v, pfx, chunks, img, i, j, s, slot)
    requires i / FILE_GROUP_CHUNKS < h < v.Groups() && q < v.M(h)
    ensures InContainer(v.spec, v.chunkCount, Parity(h, q))
    ensures At(v, Scrubbed(v, img, true, true), Parity(h, q)) == At(v, img, Parity(h, q))
  {
    hide Shaped, MisfiledDamaged, DataBlob, Fates, FirstFate, Bad, Scrubbed, TagsOk, CodesOk, At;
    assert Opened(v, img) && i < v.chunkCount by { MisfiledParts(v, pfx, chunks, img, i, j, s, slot); }
    MisfiledFates(v, pfx, chunks, img, i, j, s, slot, i);
    var g := i / FILE_GROUP_CHUNKS;
    GroupSizes(v, g);
    forall c: nat | g * FILE_GROUP_CHUNKS <= c < g * FILE_GROUP_CHUNKS + v.K(g)
      ensures Fates(v, img, true)[c] != LostLate
    {
      MisfiledFates(v, pfx, chunks, img, i, j, s, slot, c);
    }
    EarlyLossStopsParity(v, img, i, h, q);
  }

  lemma MisfiledParts(v: Vault, pfx: Bytes, chunks: seq<Bytes>, img: Image, i: nat, j: nat, s: nat, slot: Slot)
    requires MisfiledDamaged(v, pfx, chunks, img, i, j, s, slot)
    ensures Opened(v, img) && i < v.chunkCount
  {}
}

/** What two-level repair recovers when every damaged slot is detected. */
module RepairTheorems {
  import opened Bytes
  import opened ErasureCode
  import opened Layout
  import opened Vault
  import opened Repair

  // ---------- what the writer left on disk ----------

  /** The payloads of a blob are a codeword of the intra-blob code. */
  ghost predicate BlobWord(cr: Crypto, blob: seq<Slot>) {
    Whole(blob) && Payloads(blob) == Codeword(cr.intra, Payloads(blob)[..DATA_SHARDS])
  }

  /** Payload j of every blob of a group. */
  function GroupColumn(blobs: Group, j: nat): (column: seq<Bytes>)
    requires WholeGroup(blobs, 0) && j < SHARDS_PER_BLOB
    ensures |column| == |blobs|
  {
    seq(|blobs|, n requires 0 <= n < |blobs| => blobs[n][j].payload)
  }

  /** Column j of a group is a codeword of the file-level code. */
  ghost predicate ColumnWord(cr: Crypto, blobs: Group, k: nat, j: nat)
    requires WholeGroup(blobs, k) && j < SHARDS_PER_BLOB
  {
    var column := GroupColumn(blobs, j);
    column == Codeword(cr.file(k, |blobs| - k), column[..k])
  }

  /** A group as the write pipeline leaves it. */
  ghost predicate WrittenGroup(cr: Crypto, blobs: Group, k: nat) {
    && WholeGroup(blobs, k)
    && FileCodeExists(k, |blobs| - k)
    && (forall n, j :: 0 <= n < |blobs| && 0 <= j < SHARDS_PER_BLOB ==> Good(cr, blobs[n][j]))
    && (forall n :: 0 <= n < k ==> BlobWord(cr, blobs[n]))
    && (forall j :: 0 <= j < SHARDS_PER_BLOB ==> ColumnWord(cr, blobs, k, j))
  }

  ghost predicate BlobDetected(cr: Crypto, orig: seq<Slot>, blob: seq<Slot>) {
    && Whole(orig) && Whole(blob)
    && forall j :: 0 <= j < |blob| ==> blob[j] == orig[j] || !Good(cr, blob[j])
  }

  /** The damage hypothesis: every slot is the one written, or its tag fails. */
  ghost predicate GroupDetected(cr: Crypto, orig: Group, blobs: Group) {
    |orig| == |blobs| && forall n :: 0 <= n < |blobs| ==> BlobDetected(cr, orig[n], blobs[n])
  }

  // ---------- inside a blob ----------

  lemma {:induction false} PresentHoles(cr: Crypto, blob: seq<Slot>, n: nat)
    requires n <= |blob|
    ensures Present(Holes(Payloads(blob), Bad(cr, blob)), n) + |BadUpTo(cr, blob, n)| == n
    decreases n
  {
    if n == 0 {
    } else {
      PresentHoles(cr, blob, n - 1);
      BadFacts(cr, blob, |blob|);
    }
  }

  /** A blob gives back its original payloads exactly when at most 128 of its
      slots are bad; otherwise it gives nothing. */
  lemma InBlobRestores(cr: Crypto, orig: seq<Slot>, blob: seq<Slot>)
    requires IntraOk(cr) && BlobWord(cr, orig) && BlobDetected(cr, orig, blob)
    ensures InBlob(cr, blob) == if |Bad(cr, blob)| <= PARITY_SHARDS then Some(Payloads(orig)) else None
  {
    var bad, ps := Bad(cr, blob), Payloads(orig);
    BadFacts(cr, blob, |blob|);
    if |bad| == 0 {
      forall j | 0 <= j < |blob|
        ensures blob[j] == orig[j]
      {
        assert j !in bad;
      }
      assert Payloads(blob) == ps;
    } else if |bad| <= PARITY_SHARDS {
      var views := Holes(Payloads(blob), bad);
      PresentHoles(cr, blob, |blob|);
      var data := ps[..DATA_SHARDS];
      assert IsData(cr.intra, data, SHARD_SIZE);
      assert Matches(views, Codeword(cr.intra, data));
      assert cr.intra.reconstruct(views) == Some(ps);
      assert Filled(Payloads(blob), bad, ps) == ps;
    }
  }

  // ---------- one window of a group ----------

  /** The full shards of window w. */
  function GroupWord(blobs: Group, w: nat): (word: Shards)
    requires WholeGroup(blobs, 0) && w < WINDOWS
    ensures |word| == |blobs|
  {
    seq(|blobs|, n requires 0 <= n < |blobs| => WindowPayload(blobs[n], w))
  }

  lemma WindowPayloadBlock(blob: seq<Slot>, w: nat, c: nat)
    requires Whole(blob) && w < WINDOWS && c < WINDOW
    ensures |WindowPayload(blob, w)| == WINDOW_BYTES
    ensures Start(c, SHARD_SIZE) + SHARD_SIZE <= WINDOW_BYTES
    ensures Block(WindowPayload(blob, w), SHARD_SIZE, c) == blob[w * WINDOW + c].payload
  {
    hide Start, Block, Concat;
    var parts := Payloads(blob[w * WINDOW..w * WINDOW + WINDOW]);
    BlobLength();
    ConcatLength(parts, SHARD_SIZE);
    ConcatBlock(parts, SHARD_SIZE, c);
  }

  lemma GroupWordBlock(blobs: Group, w: nat, n: nat, c: nat)
    requires WholeGroup(blobs, 0) && w < WINDOWS && n < |blobs| && c < WINDOW
    ensures |GroupWord(blobs, w)[n]| == WINDOW_BYTES
    ensures Start(c, SHARD_SIZE) + SHARD_SIZE <= WINDOW_BYTES
    ensures Block(GroupWord(blobs, w)[n], SHARD_SIZE, c) == GroupColumn(blobs, w * WINDOW + c)[n]
  {
    WindowPayloadBlock(blobs[n], w, c);
  }

  /** The window's data shards, cut to one column, are that column's data. */
  lemma CutIsColumn(blobs: Group, k: nat, w: nat, c: nat)
    requires WholeGroup(blobs, k) && w < WINDOWS && c < WINDOW
    ensures Uniform(GroupWord(blobs, w), WINDOW_BYTES)
    ensures Start(c, SHARD_SIZE) + SHARD_SIZE <= WINDOW_BYTES
    ensures Cut(GroupWord(blobs, w)[..k], Start(c, SHARD_SIZE), Start(c, SHARD_SIZE) + SHARD_SIZE) ==
            GroupColumn(blobs, w * WINDOW + c)[..k]
  {
    hide Start;
    var word := GroupWord(blobs, w);
    StartBound(c);
    forall n | 0 <= n < |word|
      ensures |word[n]| == WINDOW_BYTES
      ensures Block(word[n], SHARD_SIZE, c) == GroupColumn(blobs, w * WINDOW + c)[n]
    {
      GroupWordBlock(blobs, w, n, c);
    }
  }

  lemma StartBound(c: nat)
    requires c < WINDOW
    ensures Start(c, SHARD_SIZE) + SHARD_SIZE <= WINDOW_BYTES
  {
    StartIsProduct(c, SHARD_SIZE);
  }

  lemma EncodesWindow(cr: Crypto, blobs: Group, k: nat, w: nat)
    requires WholeGroup(blobs, k) && k <= |blobs| && FileCodeOk(cr, k, |blobs| - k) && w < WINDOWS
    ensures
      var code, data := cr.file(k, |blobs| - k), GroupWord(blobs, w)[..k];
      IsData(code, data, WINDOW_BYTES) && |code.encode(data)| == |blobs| - k && Uniform(code.encode(data), WINDOW_BYTES)
  {
    CutIsColumn(blobs, k, w, 0);
    assert IsData(cr.file(k, |blobs| - k), GroupWord(blobs, w)[..k], WINDOW_BYTES);
  }

  lemma WindowParityBlock(cr: Crypto, blobs: Group, k: nat, w: nat, q: nat, c: nat)
    requires WholeGroup(blobs, k) && FileCodeOk(cr, k, |blobs| - k)
    requires w < WINDOWS && q < |blobs| - k && c < WINDOW && ColumnWord(cr, blobs, k, w * WINDOW + c)
    ensures Start(c, SHARD_SIZE) + SHARD_SIZE <= WINDOW_BYTES
    ensures |GroupWord(blobs, w)[k + q]| == WINDOW_BYTES
    ensures
      var parity := cr.file(k, |blobs| - k).encode(GroupWord(blobs, w)[..k]);
      |parity| == |blobs| - k && |parity[q]| == WINDOW_BYTES
    ensures Block(cr.file(k, |blobs| - k).encode(GroupWord(blobs, w)[..k])[q], SHARD_SIZE, c) ==
            Block(GroupWord(blobs, w)[k + q], SHARD_SIZE, c)
  {
    hide Start, GroupWord, GroupColumn, Block, Contract;
    var code := cr.file(k, |blobs| - k);
    var data := GroupWord(blobs, w)[..k];
    var lo := Start(c, SHARD_SIZE);
    var column := GroupColumn(blobs, w * WINDOW + c);
    EncodesWindow(cr, blobs, k, w);
    CutIsColumn(blobs, k, w, c);
    GroupWordBlock(blobs, w, k + q, c);
    assert CutCommutes(code, data, WINDOW_BYTES, lo, lo + SHARD_SIZE);
    assert code.encode(column[..k]) == Cut(code.encode(data), lo, lo + SHARD_SIZE);
    assert column[k + q] == code.encode(column[..k])[q];
    CutBlock(code.encode(data), q, c);
  }

  lemma CutBlock(shards: Shards, q: nat, c: nat)
    requires Uniform(shards, WINDOW_BYTES) && q < |shards| && c < WINDOW
    ensures Start(c, SHARD_SIZE) + SHARD_SIZE <= WINDOW_BYTES
    ensures Cut(shards, Start(c, SHARD_SIZE), Start(c, SHARD_SIZE) + SHARD_SIZE)[q] == Block(shards[q], SHARD_SIZE, c)
  {
    StartBound(c);
  }

  /** Every column of a group is a codeword of the file-level code. */
  ghost predicate ColumnWords(cr: Crypto, blobs: Group, k: nat) {
    WholeGroup(blobs, k) && k < |blobs| && forall j :: 0 <= j < SHARDS_PER_BLOB ==> ColumnWord(cr, blobs, k, j)
  }

  lemma WindowParity(cr: Crypto, blobs: Group, k: nat, w: nat, q: nat)
    requires ColumnWords(cr, blobs, k) && FileCodeOk(cr, k, |blobs| - k)
    requires w < WINDOWS && q < |blobs| - k
    ensures
      var parity := cr.file(k, |blobs| - k).encode(GroupWord(blobs, w)[..k]);
      |parity| == |blobs| - k && parity[q] == GroupWord(blobs, w)[k + q]
  {
    hide Start, Block, ColumnWord, GroupWord;
    assert ColumnWord(cr, blobs, k, w * WINDOW + 0);
    WindowParityBlock(cr, blobs, k, w, q, 0);
    var a, b := cr.file(k, |blobs| - k).encode(GroupWord(blobs, w)[..k])[q], GroupWord(blobs, w)[k + q];
    BlobLength();
    forall c: nat | c < WINDOW
      ensures Start(c, SHARD_SIZE) + SHARD_SIZE <= |a| && Block(a, SHARD_SIZE, c) == Block(b, SHARD_SIZE, c)
    {
      assert ColumnWord(cr, blobs, k, w * WINDOW + c);
      WindowParityBlock(cr, blobs, k, w, q, c);
    }
    SameBlocks(a, b, SHARD_SIZE, WINDOW);
  }

  /** Windowed parity is column-by-column parity: the shards of a window form a
      codeword because the columns in it do. */
  lemma WindowIsWord(cr: Crypto, blobs: Group, k: nat, w: nat)
    requires ColumnWords(cr, blobs, k) && FileCodeOk(cr, k, |blobs| - k) && w < WINDOWS
    ensures IsData(cr.file(k, |blobs| - k), GroupWord(blobs, w)[..k], WINDOW_BYTES)
    ensures GroupWord(blobs, w) == Codeword(cr.file(k, |blobs| - k), GroupWord(blobs, w)[..k])
  {
    var code := cr.file(k, |blobs| - k);
    var word := GroupWord(blobs, w);
    CutIsColumn(blobs, k, w, 0);
    WindowParity(cr, blobs, k, w, 0);
    forall q | 0 <= q < |blobs| - k
      ensures code.encode(word[..k])[q] == word[k + q]
    {
      WindowParity(cr, blobs, k, w, q);
    }
    assert word == word[..k] + code.encode(word[..k]);
  }

  lemma WrittenColumns(cr: Crypto, blobs: Group, k: nat)
    requires WrittenGroup(cr, blobs, k)
    ensures ColumnWords(cr, blobs, k)
  {}

  /** The shards absent from window w: missing blobs, and blobs with a bad slot there. */
  function Absent(cr: Crypto, blobs: Group, k: nat, missing: set<int>, w: nat): set<int>
    requires WholeGroup(blobs, k) && w < WINDOWS
  {
    set n | 0 <= n < |blobs| && ((n < k && n in missing) || !WindowGood(cr, blobs[n], w))
  }

  lemma {:induction false} PresentCount(views: seq<Option<Bytes>>, n: nat)
    requires n <= |views|
    ensures |set i | 0 <= i < n && views[i].None?| == n - Present(views, n)
    decreases n
  {
    var s := set i | 0 <= i < n && views[i].None?;
    if n == 0 {
      assert s == {};
    } else {
      PresentCount(views, n - 1);
      var t := set i | 0 <= i < n - 1 && views[i].None?;
      assert s == if views[n - 1].None? then t + {n - 1} else t;
    }
  }

  lemma AbsentCount(cr: Crypto, blobs: Group, k: nat, missing: set<int>, w: nat)
    requires WholeGroup(blobs, k) && w < WINDOWS
    ensures
      var views := GroupViews(cr, blobs, k, missing, w);
      |Absent(cr, blobs, k, missing, w)| == |views| - Present(views, |views|)
  {
    var views := GroupViews(cr, blobs, k, missing, w);
    PresentCount(views, |views|);
    assert Absent(cr, blobs, k, missing, w) == set i | 0 <= i < |views| && views[i].None?;
  }

  /** A window that verifies holds the payloads that were written. */
  lemma GoodWindowIsOriginal(cr: Crypto, orig: seq<Slot>, blob: seq<Slot>, w: nat)
    requires BlobDetected(cr, orig, blob) && w < WINDOWS && WindowGood(cr, blob, w)
    ensures WindowPayload(blob, w) == WindowPayload(orig, w)
  {
    var lo := w * WINDOW;
    forall j | lo <= j < lo + WINDOW
      ensures blob[j] == orig[j]
    {
      assert Good(cr, blob[j]);
    }
    assert blob[lo..lo + WINDOW] == orig[lo..lo + WINDOW];
  }

  /** A window is rebuilt exactly when at most m of its shards are absent, and
      then every shard is the original one. */
  lemma WindowRestored(cr: Crypto, orig: Group, blobs: Group, k: nat, missing: set<int>, w: nat)
    requires WrittenGroup(cr, orig, k) && FileCodeOk(cr, k, |orig| - k) && GroupDetected(cr, orig, blobs)
    requires w < WINDOWS && WholeGroup(blobs, k) && (forall pos :: pos in missing ==> 0 <= pos < k)
    ensures RebuildWindow(cr, blobs, k, missing, w) ==
      if |Absent(cr, blobs, k, missing, w)| <= |orig| - k then Some(GroupWord(orig, w)) else None
  {
    hide WrittenGroup, WindowPayload, WindowGood, Absent, Contract, ColumnWise;
    var code := cr.file(k, |orig| - k);
    var views := GroupViews(cr, blobs, k, missing, w);
    var word := GroupWord(orig, w);
    AbsentCount(cr, blobs, k, missing, w);
    WrittenColumns(cr, orig, k);
    WindowIsWord(cr, orig, k, w);
    EncodesWindow(cr, orig, k, w);
    ViewsMatch(cr, orig, blobs, k, missing, w);
    ReconstructsViews(code, word[..k], WINDOW_BYTES, views);
    WordSizes(orig, w);
  }

  lemma WordSizes(blobs: Group, w: nat)
    requires WholeGroup(blobs, 0) && w < WINDOWS
    ensures |GroupWord(blobs, w)| == |blobs| && Uniform(GroupWord(blobs, w), WINDOW_BYTES)
  {
    CutIsColumn(blobs, 0, w, 0);
  }

  lemma ReconstructsViews(code: Code, data: Shards, size: nat, views: seq<Option<Bytes>>)
    requires Contract(code) && IsData(code, data, size) && Matches(views, Codeword(code, data))
    ensures code.reconstruct(views) == if Present(views, |views|) >= code.k then Some(Codeword(code, data)) else None
  {}

  lemma ViewsMatch(cr: Crypto, orig: Group, blobs: Group, k: nat, missing: set<int>, w: nat)
    requires GroupDetected(cr, orig, blobs) && w < WINDOWS && WholeGroup(blobs, k) && WholeGroup(orig, k)
    ensures Matches(GroupViews(cr, blobs, k, missing, w), GroupWord(orig, w))
  {
    hide WindowPayload, WindowGood;
    var views := GroupViews(cr, blobs, k, missing, w);
    forall n | 0 <= n < |views| && views[n].Some?
      ensures views[n].value == GroupWord(orig, w)[n]
    {
      GoodWindowIsOriginal(cr, orig[n], blobs[n], w);
    }
  }

  // ---------- a whole group ----------

  /** The first n windows of a blob are its first payloads in order. */
  lemma {:induction false} WindowsJoin(cr: Crypto, orig: Group, blobs: Group, k: nat, missing: set<int>, pos: int, n: nat)
    requires WholeGroup(orig, k) && WholeGroup(blobs, k) && n <= WINDOWS && 0 <= pos < k
    requires WindowsOk(cr, blobs, k, missing, n) && pos in missing
    requires forall w :: 0 <= w < n ==> RebuildWindow(cr, blobs, k, missing, w) == Some(GroupWord(orig, w))
    ensures RebuiltBytes(cr, blobs, k, missing, pos, n) == Concat(Payloads(orig[pos])[..n * WINDOW])
    decreases n
  {
    hide RebuildWindow;
    var ps := Payloads(orig[pos]);
    if n == 0 {
    } else {
      WindowsJoin(cr, orig, blobs, k, missing, pos, n - 1);
      var lo := (n - 1) * WINDOW;
      assert Payloads(orig[pos][lo..lo + WINDOW]) == ps[lo..lo + WINDOW];
      ConcatAppend(ps[..lo], ps[lo..lo + WINDOW]);
      assert ps[..n * WINDOW] == ps[..lo] + ps[lo..lo + WINDOW];
    }
  }

  /** Every window has at most m absent shards. */
  ghost predicate EnoughShards(cr: Crypto, blobs: Group, k: nat, missing: set<int>)
    requires WholeGroup(blobs, k)
  {
    forall w :: 0 <= w < WINDOWS ==> |Absent(cr, blobs, k, missing, w)| <= |blobs| - k
  }

  /** RebuildMissing succeeds if and only if the missing set is in range, not
      empty, no larger than m, and no window has more than m absent shards; the
      result then is exactly the original payloads. */
  lemma RebuildIff(cr: Crypto, orig: Group, blobs: Group, k: nat, missing: set<int>)
    requires WrittenGroup(cr, orig, k) && FileCodeOk(cr, k, |orig| - k) && GroupDetected(cr, orig, blobs)
    requires WholeGroup(blobs, k)
    ensures RebuildMissing(cr, blobs, k, missing).Some? <==>
      MissingOk(k, |blobs| - k, missing) && EnoughShards(cr, blobs, k, missing)
    ensures RebuildMissing(cr, blobs, k, missing).Some? ==>
      forall pos :: pos in missing ==>
        0 <= pos < k && RebuildMissing(cr, blobs, k, missing).value[pos] == Payloads(orig[pos])
  {
    if MissingOk(k, |blobs| - k, missing) {
      forall w | 0 <= w < WINDOWS
        ensures RebuildWindow(cr, blobs, k, missing, w) ==
          if |Absent(cr, blobs, k, missing, w)| <= |orig| - k then Some(GroupWord(orig, w)) else None
      {
        WindowRestored(cr, orig, blobs, k, missing, w);
      }
      if WindowsOk(cr, blobs, k, missing, WINDOWS) {
        forall pos | pos in missing
          ensures RebuiltPayloads(cr, blobs, k, missing, pos) == Payloads(orig[pos])
        {
          RebuiltIsOriginal(cr, orig, blobs, k, missing, pos);
        }
      }
    }
  }

  lemma RebuiltIsOriginal(cr: Crypto, orig: Group, blobs: Group, k: nat, missing: set<int>, pos: int)
    requires WholeGroup(orig, k) && WholeGroup(blobs, k) && 0 <= pos < k && pos in missing
    requires WindowsOk(cr, blobs, k, missing, WINDOWS)
    requires forall w :: 0 <= w < WINDOWS ==>
      RebuildWindow(cr, blobs, k, missing, w) == None || RebuildWindow(cr, blobs, k, missing, w) == Some(GroupWord(orig, w))
    ensures RebuiltPayloads(cr, blobs, k, missing, pos) == Payloads(orig[pos])
  {
    hide RebuildWindow, Start, Concat, Blocks;
    var ps := Payloads(orig[pos]);
    WindowsJoin(cr, orig, blobs, k, missing, pos, WINDOWS);
    assert ps[..WINDOWS * WINDOW] == ps;
    BlocksOfConcat(ps, SHARD_SIZE);
  }

  // ---------- windows against columns ----------

  /** The shards absent from one column. */
  function ColumnAbsent(cr: Crypto, blobs: Group, k: nat, missing: set<int>, j: nat): set<int>
    requires WholeGroup(blobs, k) && j < SHARDS_PER_BLOB
  {
    set n | 0 <= n < |blobs| && ((n < k && n in missing) || !Good(cr, blobs[n][j]))
  }

  lemma SubsetCount(a: set<int>, b: set<int>)
    requires a <= b
    ensures |a| <= |b|
  {
    assert a + (b - a) == b && a * (b - a) == {};
  }

  /** Enough shards in every window means enough in every column. */
  lemma ColumnsFollowWindows(cr: Crypto, blobs: Group, k: nat, missing: set<int>, j: nat)
    requires WholeGroup(blobs, k) && EnoughShards(cr, blobs, k, missing) && j < SHARDS_PER_BLOB
    ensures |ColumnAbsent(cr, blobs, k, missing, j)| <= |blobs| - k
  {
    SubsetCount(ColumnAbsent(cr, blobs, k, missing, j), Absent(cr, blobs, k, missing, j / WINDOW));
  }

  /** The converse fails: with two parity blobs, one blob missing and one bad slot
      in each of two other blobs, at different columns of one window, no column
      has more than two shards absent and still nothing is rebuilt. */
  lemma WindowsNeedMoreThanColumns(cr: Crypto, blobs: Group, k: nat, p: nat, a: nat, b: nat)
    requires WholeGroup(blobs, k) && |blobs| == k + 2 && p < k && a < |blobs| && b < |blobs|
    requires p != a && a != b && p != b && !Good(cr, blobs[a][0]) && !Good(cr, blobs[b][1])
    requires forall n, j :: 0 <= n < |blobs| && 0 <= j < SHARDS_PER_BLOB && (n, j) != (a, 0) && (n, j) != (b, 1) ==> Good(cr, blobs[n][j])
    ensures forall j :: 0 <= j < SHARDS_PER_BLOB ==> |ColumnAbsent(cr, blobs, k, {p}, j)| <= 2
    ensures RebuildMissing(cr, blobs, k, {p}) == None
  {
    hide Good;
    forall j | 0 <= j < SHARDS_PER_BLOB
      ensures |ColumnAbsent(cr, blobs, k, {p}, j)| <= 2
    {
      SubsetCount(ColumnAbsent(cr, blobs, k, {p}, j), {p, if j == 0 then a else b});
    }
    AbsentCount(cr, blobs, k, {p}, 0);
    SubsetCount({p as int, a as int, b as int}, Absent(cr, blobs, k, {p}, 0));
    assert RebuildWindow(cr, blobs, k, {p}, 0).None?;
  }

  // ---------- a whole container ----------

  /** What a finished, undamaged container holds: every group as the pipeline
      leaves it, and a blob that decodes to chunk i for every i. */
  ghost predicate Original(v: Vault, img: Image, chunks: seq<Bytes>) {
    && v.spec.Valid() && Shaped(img, v.Total()) && |chunks| == v.chunkCount
    && (forall g :: 0 <= g < v.Groups() ==> WrittenGroup(v.cr, GroupBlobs(v, img, g), v.K(g)))
    && (forall i :: 0 <= i < v.chunkCount ==> DecodeChunk(v.cr, i, Payloads(DataBlob(v, img, i))) == Plain(chunks[i]))
  }

  /** The damage hypothesis for a container. */
  ghost predicate Detected(v: Vault, orig: Image, img: Image) {
    && v.spec.Valid() && Shaped(orig, v.Total()) && Shaped(img, v.Total())
    && forall n :: 0 <= n < v.Total() ==> BlobDetected(v.cr, orig[n], img[n])
  }
}

/** What the numbers in the report of a scrub count. */
module ScrubReport {
  import opened Bytes
  import opened Layout
  import opened Vault
  import opened Repair
  import opened RepairTheorems
  import opened ScrubSpec
  import opened ScrubTheorems
  import opened Verdicts
  import opened ParityPass

  // ---------- chunks by fate ----------

  predicate Met(fates: seq<Fate>, f: Fate, i: nat)
    requires i < |fates|
  {
    fates[i] == f
  }

  function WithFate(fates: seq<Fate>, f: Fate, n: nat): set<nat>
    requires n <= |fates|
  {
    set i: nat | i < n && Met(fates, f, i)
  }

  lemma {:induction false} CountIs(fates: seq<Fate>, f: Fate, n: nat)
    requires n <= |fates|
    ensures Count(fates, f, n) == |WithFate(fates, f, n)|
    decreases n
  {
    if n == 0 {
      assert WithFate(fates, f, 0) == {};
    } else {
      CountIs(fates, f, n - 1);
      WithFateStep(fates, f, n - 1);
      hide WithFate;
    }
  }

  lemma WithFateStep(fates: seq<Fate>, f: Fate, n: nat)
    requires n < |fates|
    ensures n !in WithFate(fates, f, n)
    ensures WithFate(fates, f, n + 1) == WithFate(fates, f, n) + if fates[n] == f then {n} else {}
  {
    assert Met(fates, f, n) == (fates[n] == f);
    hide Met;
  }

  /** The lost list: first the chunks lost early, then those lost late, each ascending. */
  predicate LostInOrder(fates: seq<Fate>, lost: seq<nat>) {
    && (forall a :: 0 <= a < |lost| ==> lost[a] < |fates| && fates[lost[a]] in {LostEarly, LostLate})
    && (forall a, b :: 0 <= a < b < |lost| && fates[lost[a]] == fates[lost[b]] ==> lost[a] < lost[b])
    && (forall a, b :: 0 <= a < b < |lost| && fates[lost[b]] == LostEarly ==> fates[lost[a]] == LostEarly)
  }

  // ---------- bad data slots ----------

  /** Slot j of chunk i fails its tag. */
  predicate Fails(v: Vault, img: Image, i: nat, j: nat)
    requires v.spec.Valid() && Shaped(img, v.Total()) && i < v.chunkCount && j < SHARDS_PER_BLOB
  {
    !Good(v.cr, DataBlob(v, img, i)[j])
  }

  /** The slots of the first n chunks that fail their tags. */
  function FailingSlots(v: Vault, img: Image, n: nat): set<(nat, nat)>
    requires v.spec.Valid() && Shaped(img, v.Total()) && n <= v.chunkCount
  {
    set i: nat, j: nat | i < n && j < SHARDS_PER_BLOB && Fails(v, img, i, j) :: (i, j)
  }

  /** Those of the chunks that the first pass repairs. */
  function RepairedPairs(v: Vault, img: Image, n: nat): set<(nat, nat)>
    requires v.spec.Valid() && Shaped(img, v.Total()) && n <= v.chunkCount
  {
    set i: nat, j: nat | i < n && j < SHARDS_PER_BLOB && Fails(v, img, i, j) && FirstFate(v, img, i) == Repaired :: (i, j)
  }

  function RowPairs(v: Vault, img: Image, i: nat, k: nat): set<(nat, nat)>
    requires v.spec.Valid() && Shaped(img, v.Total()) && i < v.chunkCount && k <= SHARDS_PER_BLOB
  {
    set j: nat | j < k && Fails(v, img, i, j) :: (i, j)
  }

  lemma {:induction false} RowIs(v: Vault, img: Image, i: nat, k: nat)
    requires v.spec.Valid() && Shaped(img, v.Total()) && i < v.chunkCount && k <= SHARDS_PER_BLOB
    ensures |RowPairs(v, img, i, k)| == |BadUpTo(v.cr, DataBlob(v, img, i), k)|
    decreases k
  {
    hide Shaped, DataBlob;
    if k == 0 {
      assert RowPairs(v, img, i, 0) == {};
    } else {
      RowIs(v, img, i, k - 1);
      var before := RowPairs(v, img, i, k - 1);
      assert RowPairs(v, img, i, k) == if Fails(v, img, i, k - 1) then before + {(i, k - 1)} else before;
    }
  }

  lemma DisjointSum<T>(a: set<T>, b: set<T>)
    requires a * b == {}
    ensures |a + b| == |a| + |b|
  {}

  lemma {:induction false} BadSlotsIs(v: Vault, img: Image, n: nat)
    requires v.spec.Valid() && Shaped(img, v.Total()) && n <= v.chunkCount
    ensures BadSlots(v, img, n) == |FailingSlots(v, img, n)|
    decreases n
  {
    hide Shaped, DataBlob, Fails, Bad;
    if n == 0 {
      assert FailingSlots(v, img, 0) == {};
    } else {
      BadSlotsIs(v, img, n - 1);
      var row := RowPairs(v, img, n - 1, SHARDS_PER_BLOB);
      assert FailingSlots(v, img, n) == FailingSlots(v, img, n - 1) + row;
      DisjointSum(FailingSlots(v, img, n - 1), row);
      RowIsBad(v, img, n - 1);
    }
  }

  lemma RowIsBad(v: Vault, img: Image, i: nat)
    requires v.spec.Valid() && Shaped(img, v.Total()) && i < v.chunkCount
    ensures |RowPairs(v, img, i, SHARDS_PER_BLOB)| == |Bad(v.cr, DataBlob(v, img, i))|
  {
    hide Shaped, DataBlob;
    RowIs(v, img, i, SHARDS_PER_BLOB);
  }

  lemma {:induction false} RepairedSlotsIs(v: Vault, img: Image, n: nat)
    requires v.spec.Valid() && Shaped(img, v.Total()) && n <= v.chunkCount
    ensures RepairedSlots(v, img, n) == |RepairedPairs(v, img, n)|
    decreases n
  {
    hide Shaped, DataBlob, Fails, Bad, FirstFate;
    if n == 0 {
      assert RepairedPairs(v, img, 0) == {};
    } else {
      RepairedSlotsIs(v, img, n - 1);
      var row := RowPairs(v, img, n - 1, SHARDS_PER_BLOB);
      var before := RepairedPairs(v, img, n - 1);
      assert RepairedPairs(v, img, n) == if FirstFate(v, img, n - 1) == Repaired then before + row else before;
      DisjointSum(before, row);
      RowIsBad(v, img, n - 1);
    }
  }

  // ---------- wrong parity slots ----------

  /** Slot j of parity q of group g fails its tag or is not the recomputed column. */
  predicate WrongAt(v: Vault, img: Image, g: nat, q: nat, j: nat)
    requires v.spec.Valid() && Shaped(img, v.Total()) && FileCodesOk(v.cr)
    requires g < v.Groups() && q < v.M(g) && j < SHARDS_PER_BLOB
  {
    WrongSlot(v.cr, BlobOf(v, img, g, v.K(g) + q)[j], ColumnOf(NewParity(v, img, g, j / WINDOW)[q], j % WINDOW))
  }

  /** The wrong slots of parity q of group g from column lo to column hi. */
  function WrongRow(v: Vault, img: Image, g: nat, q: nat, lo: nat, hi: nat): set<(nat, nat, nat)>
    requires v.spec.Valid() && Shaped(img, v.Total()) && FileCodesOk(v.cr)
    requires g < v.Groups() && q < v.M(g) && hi <= SHARDS_PER_BLOB
  {
    set j: nat | lo <= j < hi && WrongAt(v, img, g, q, j) :: (g, q, j)
  }

  /** The same of the first m parity blobs. */
  function WrongRows(v: Vault, img: Image, g: nat, m: nat, lo: nat, hi: nat): set<(nat, nat, nat)>
    requires v.spec.Valid() && Shaped(img, v.Total()) && FileCodesOk(v.cr)
    requires g < v.Groups() && m <= v.M(g) && hi <= SHARDS_PER_BLOB
  {
    set q: nat, j: nat | q < m && lo <= j < hi && WrongAt(v, img, g, q, j) :: (g, q, j)
  }

  /** Slot j is in a window that the third pass checks, and wrong. */
  predicate Counted(v: Vault, img: Image, fates: seq<Fate>, g: nat, q: nat, j: nat)
    requires v.spec.Valid() && Shaped(img, v.Total()) && FileCodesOk(v.cr) && |fates| == v.chunkCount
    requires g < v.Groups() && q < v.M(g) && j < SHARDS_PER_BLOB
  {
    j < Visited(v, img, fates, g) * WINDOW && WrongAt(v, img, g, q, j)
  }

  /** The wrong slots of the first n groups, in the windows the third pass checks. */
  function WrongSlots(v: Vault, img: Image, fates: seq<Fate>, n: nat): set<(nat, nat, nat)>
    requires v.spec.Valid() && Shaped(img, v.Total()) && FileCodesOk(v.cr) && |fates| == v.chunkCount && n <= v.Groups()
  {
    set g: nat, q: nat, j: nat | g < n && q < v.M(g) && j < SHARDS_PER_BLOB && Counted(v, img, fates, g, q, j) :: (g, q, j)
  }

  lemma {:induction false} RowBadIs(v: Vault, img: Image, g: nat, q: nat, w: nat, n: nat)
    requires v.spec.Valid() && Shaped(img, v.Total()) && FileCodesOk(v.cr)
    requires g < v.Groups() && q < v.M(g) && w < WINDOWS && n <= WINDOW
    ensures RowBad(v.cr, BlobOf(v, img, g, v.K(g) + q), w, NewParity(v, img, g, w)[q], n) ==
            |WrongRow(v, img, g, q, w * WINDOW, w * WINDOW + n)|
    decreases n
  {
    hide Shaped, FileCodesOk, BlobOf, NewParity, ColumnOf, WrongSlot, WrongRow;
    var lo := w * WINDOW;
    if n == 0 {
      NoRow(v, img, g, q, lo);
    } else {
      RowBadIs(v, img, g, q, w, n - 1);
      var j := lo + n - 1;
      assert j / WINDOW == w && j % WINDOW == n - 1;
      RowStep(v, img, g, q, lo, j);
    }
  }

  lemma NoRow(v: Vault, img: Image, g: nat, q: nat, lo: nat)
    requires v.spec.Valid() && Shaped(img, v.Total()) && FileCodesOk(v.cr)
    requires g < v.Groups() && q < v.M(g) && lo <= SHARDS_PER_BLOB
    ensures WrongRow(v, img, g, q, lo, lo) == {}
  {}

  lemma RowStep(v: Vault, img: Image, g: nat, q: nat, lo: nat, j: nat)
    requires v.spec.Valid() && Shaped(img, v.Total()) && FileCodesOk(v.cr)
    requires g < v.Groups() && q < v.M(g) && lo <= j < SHARDS_PER_BLOB
    ensures (g, q, j) !in WrongRow(v, img, g, q, lo, j)
    ensures WrongRow(v, img, g, q, lo, j + 1) ==
      WrongRow(v, img, g, q, lo, j) + if WrongAt(v, img, g, q, j) then {(g, q, j)} else {}
  {
    hide Shaped, FileCodesOk, WrongAt, GroupCount, DataChunksInGroup, Vault.M, Vault.K, Vault.Total;
  }

  lemma {:induction false} WindowBadIs(v: Vault, img: Image, g: nat, w: nat, n: nat)
    requires v.spec.Valid() && Shaped(img, v.Total()) && FileCodesOk(v.cr) && g < v.Groups() && w < WINDOWS && n <= v.M(g)
    ensures WindowBad(v, img, g, w, n) == |WrongRows(v, img, g, n, w * WINDOW, w * WINDOW + WINDOW)|
    decreases n
  {
    hide Shaped, FileCodesOk, BlobOf, NewParity, WrongAt, RowBad, WrongRows, WrongRow;
    var lo := w * WINDOW;
    if n == 0 {
      NoRows(v, img, g, lo, lo + WINDOW);
    } else {
      WindowBadIs(v, img, g, w, n - 1);
      RowBadIs(v, img, g, n - 1, w, WINDOW);
      RowsStep(v, img, g, n - 1, lo, lo + WINDOW);
      DisjointSum(WrongRows(v, img, g, n - 1, lo, lo + WINDOW), WrongRow(v, img, g, n - 1, lo, lo + WINDOW));
    }
  }

  lemma NoRows(v: Vault, img: Image, g: nat, lo: nat, hi: nat)
    requires v.spec.Valid() && Shaped(img, v.Total()) && FileCodesOk(v.cr) && g < v.Groups() && hi <= SHARDS_PER_BLOB
    ensures WrongRows(v, img, g, 0, lo, hi) == {}
  {}

  lemma RowsStep(v: Vault, img: Image, g: nat, q: nat, lo: nat, hi: nat)
    requires v.spec.Valid() && Shaped(img, v.Total()) && FileCodesOk(v.cr)
    requires g < v.Groups() && q < v.M(g) && hi <= SHARDS_PER_BLOB
    ensures WrongRows(v, img, g, q + 1, lo, hi) == WrongRows(v, img, g, q, lo, hi) + WrongRow(v, img, g, q, lo, hi)
    ensures WrongRows(v, img, g, q, lo, hi) * WrongRow(v, img, g, q, lo, hi) == {}
  {
    hide Shaped, FileCodesOk, WrongAt, GroupCount, DataChunksInGroup, Vault.M, Vault.K, Vault.Total;
  }

  lemma {:induction false} GroupBadIs(v: Vault, img: Image, g: nat, n: nat)
    requires v.spec.Valid() && Shaped(img, v.Total()) && FileCodesOk(v.cr) && g < v.Groups() && n <= WINDOWS
    ensures GroupBad(v, img, g, n) == |WrongRows(v, img, g, v.M(g), 0, n * WINDOW)|
    decreases n
  {
    hide Shaped, FileCodesOk, WrongAt, WindowBad;
    if n == 0 {
      assert WrongRows(v, img, g, v.M(g), 0, 0) == {};
    } else {
      GroupBadIs(v, img, g, n - 1);
      var lo := (n - 1) * WINDOW;
      WindowBadIs(v, img, g, n - 1, v.M(g));
      var before, window := WrongRows(v, img, g, v.M(g), 0, lo), WrongRows(v, img, g, v.M(g), lo, lo + WINDOW);
      assert WrongRows(v, img, g, v.M(g), 0, lo + WINDOW) == before + window;
      DisjointSum(before, window);
    }
  }

  lemma OneGroupMore(v: Vault, img: Image, fates: seq<Fate>, g: nat)
    requires v.spec.Valid() && Shaped(img, v.Total()) && FileCodesOk(v.cr) && |fates| == v.chunkCount && g < v.Groups()
    ensures
      var before, group := WrongSlots(v, img, fates, g), WrongRows(v, img, g, v.M(g), 0, Visited(v, img, fates, g) * WINDOW);
      WrongSlots(v, img, fates, g + 1) == before + group && before * group == {}
  {
    hide Shaped, FileCodesOk, WrongAt, Visited, GroupCount, DataChunksInGroup, Vault.M, Vault.K, Vault.Total;
    var before, group := WrongSlots(v, img, fates, g), WrongRows(v, img, g, v.M(g), 0, Visited(v, img, fates, g) * WINDOW);
    forall t | t in WrongSlots(v, img, fates, g + 1)
      ensures t in before + group
    {
    }
    forall t | t in before + group
      ensures t in WrongSlots(v, img, fates, g + 1)
    {
    }
  }

  lemma {:induction false} ParityBadIs(v: Vault, img: Image, fates: seq<Fate>, n: nat)
    requires v.spec.Valid() && Shaped(img, v.Total()) && FileCodesOk(v.cr) && |fates| == v.chunkCount && n <= v.Groups()
    ensures ParityBad(v, img, fates, n) == |WrongSlots(v, img, fates, n)|
    decreases n
  {
    hide Shaped, FileCodesOk, Counted, GroupBad, Visited, WrongRows;
    if n == 0 {
      assert WrongSlots(v, img, fates, 0) == {};
    } else {
      ParityBadIs(v, img, fates, n - 1);
      var r := Visited(v, img, fates, n - 1);
      GroupBadIs(v, img, n - 1, r);
      var before, group := WrongSlots(v, img, fates, n - 1), WrongRows(v, img, n - 1, v.M(n - 1), 0, r * WINDOW);
      OneGroupMore(v, img, fates, n - 1);
      DisjointSum(before, group);
    }
  }

  // ---------- the report ----------

  lemma LostIsOrdered(fates: seq<Fate>)
    ensures LostInOrder(fates, Indices(fates, LostEarly, |fates|) + Indices(fates, LostLate, |fates|))
  {
    hide Indices;
    var n := |fates|;
    var early, late := Indices(fates, LostEarly, n), Indices(fates, LostLate, n);
    IndicesFacts(fates, LostEarly, n);
    IndicesFacts(fates, LostLate, n);
    assert forall a :: 0 <= a < |early| ==> early[a] in early;
    assert forall a :: 0 <= a < |late| ==> late[a] in late;
    hide LostInOrder;
    EarlyThenLate(fates, early, late);
  }

  lemma EarlyThenLate(fates: seq<Fate>, early: seq<nat>, late: seq<nat>)
    requires forall a :: 0 <= a < |early| ==> early[a] < |fates| && fates[early[a]] == LostEarly
    requires forall a :: 0 <= a < |late| ==> late[a] < |fates| && fates[late[a]] == LostLate
    requires forall a, b :: 0 <= a < b < |early| ==> early[a] < early[b]
    requires forall a, b :: 0 <= a < b < |late| ==> late[a] < late[b]
    ensures LostInOrder(fates, early + late)
  {
    var lost := early + late;
    forall a | 0 <= a < |lost|
      ensures lost[a] < |fates| && fates[lost[a]] == if a < |early| then LostEarly else LostLate
    {
    }
  }

  /** For any file: what each number of the report counts. */
  lemma ReportCounts(v: Vault, img: Image, write: bool, parity: bool)
    requires Opened(v, img)
    ensures FileCodesOk(v.cr)
    ensures
      var r, fates, n := ReportOf(v, img, write, parity), Fates(v, img, write), v.chunkCount;
      && r.clean == |WithFate(fates, Clean, n)| && r.repaired == |WithFate(fates, Repaired, n)|
      && r.rebuilt == |WithFate(fates, Rebuilt, n)| && LostInOrder(fates, r.lost)
      && r.shardsBad == |FailingSlots(v, img, n)| && r.shardsRepaired == |RepairedPairs(v, img, n)|
      && r.paritySlotsBad == (if parity then |WrongSlots(v, AfterTwo(v, img, write), fates, v.Groups())| else 0)
      && r.parityShardsFixed == (if write then r.paritySlotsBad else 0)
  {
    hide Shaped, TagsOk, IntraOk, FileCodesOk, AfterTwo, Fates, WithFate, FailingSlots, RepairedPairs;
    hide WrongSlots, LostInOrder, Count, Indices, BadSlots, RepairedSlots, ParityBad;
    var fates, n := Fates(v, img, write), v.chunkCount;
    CountIs(fates, Clean, n);
    CountIs(fates, Repaired, n);
    CountIs(fates, Rebuilt, n);
    LostIsOrdered(fates);
    BadSlotsIs(v, img, n);
    RepairedSlotsIs(v, img, n);
    ParityBadIs(v, AfterTwo(v, img, write), fates, v.Groups());
  }

  // ---------- under detected damage ----------

  /** Slot j of parity q of group g is not the one written. */
  predicate Differs(v: Vault, orig: Image, img: Image, g: nat, q: nat, j: nat)
    requires v.spec.Valid() && Shaped(orig, v.Total()) && Shaped(img, v.Total())
    requires g < v.Groups() && q < v.M(g) && j < SHARDS_PER_BLOB
  {
    BlobOf(v, img, g, v.K(g) + q)[j] != BlobOf(v, orig, g, v.K(g) + q)[j]
  }

  /** The parity slots that are not the ones written, in groups that are not skipped. */
  function DamagedParity(v: Vault, orig: Image, img: Image, fates: seq<Fate>): set<(nat, nat, nat)>
    requires v.spec.Valid() && Shaped(orig, v.Total()) && Shaped(img, v.Total()) && |fates| == v.chunkCount
  {
    set g: nat, q: nat, j: nat |
      g < v.Groups() && q < v.M(g) && j < SHARDS_PER_BLOB && !Skipped(v, fates, g) && Differs(v, orig, img, g, q, j)
      :: (g, q, j)
  }

  lemma WrongIsDamaged(v: Vault, orig: Image, chunks: seq<Bytes>, img: Image, g: nat, q: nat, j: nat)
    requires Damaged(v, orig, chunks, img) && g < v.Groups() && q < v.M(g) && j < SHARDS_PER_BLOB
    requires DataIntact(v, orig, img, g)
    ensures FileCodesOk(v.cr) && (WrongAt(v, img, g, q, j) <==> Differs(v, orig, img, g, q, j))
  {
    hide Shaped, BlobOf, TagsOk, IntraOk, FileCodesOk, Original, Detected, NewParity, DataIntact, ColumnOf, WindowPayload;
    DamagedParts(v, orig, chunks, img);
    NewParityIsOriginal(v, orig, chunks, img, g, q, j / WINDOW);
    ParityDetected(v, orig, chunks, img, g, q);
    OriginalGroupGood(v, orig, chunks, g, v.K(g) + q);
    ColumnIsSlot(BlobOf(v, orig, g, v.K(g) + q), j / WINDOW, j % WINDOW);
    assert j / WINDOW * WINDOW + j % WINDOW == j;
  }

  lemma SameParity(v: Vault, img: Image, g: nat, q: nat)
    requires Opened(v, img) && g < v.Groups() && q < v.M(g)
    ensures BlobOf(v, AfterTwo(v, img, true), g, v.K(g) + q) == BlobOf(v, img, g, v.K(g) + q)
  {
    hide Shaped, BlobOf, TagsOk, CodesOk, AfterTwo, At;
    GroupParityAt(v, img, g, q);
    GroupParityAt(v, AfterTwo(v, img, true), g, q);
    AfterTwoParity(v, img, true, Parity(g, q));
  }

  lemma CountedIsDamaged(v: Vault, orig: Image, chunks: seq<Bytes>, img: Image, g: nat, q: nat, j: nat)
    requires Damaged(v, orig, chunks, img) && g < v.Groups() && q < v.M(g) && j < SHARDS_PER_BLOB
    ensures Opened(v, img) && FileCodesOk(v.cr)
    ensures Counted(v, AfterTwo(v, img, true), Fates(v, img, true), g, q, j) <==>
      !Skipped(v, Fates(v, img, true), g) && Differs(v, orig, img, g, q, j)
  {
    hide Damaged, Shaped, BlobOf, TagsOk, CodesOk, AfterTwo, Fates, Visited, WrongAt, DataIntact, Skipped;
    DamagedParts(v, orig, chunks, img);
    SkippedIsLost(v, orig, chunks, img, g);
    RuleUnderDamage(v, orig, chunks, img, g);
    if !Skipped(v, Fates(v, img, true), g) {
      UnskippedIntact(v, orig, chunks, img, g);
      AfterTwoDamaged(v, orig, chunks, img);
      WrongIsDamaged(v, orig, chunks, AfterTwo(v, img, true), g, q, j);
      SameParity(v, img, g, q);
    }
  }

  /** Under detected damage a group has a lost chunk exactly when it is skipped. */
  lemma SkippedIsLost(v: Vault, orig: Image, chunks: seq<Bytes>, img: Image, g: nat)
    requires Damaged(v, orig, chunks, img) && g < v.Groups()
    ensures Opened(v, img) && (HasLost(v, img, g) <==> Skipped(v, Fates(v, img, true), g))
  {
    hide Damaged, Shaped, TagsOk, CodesOk, AfterTwo, Fates, FirstFate, DataBlob;
    DamagedParts(v, orig, chunks, img);
    GroupSizes(v, g);
    forall i: nat | g * FILE_GROUP_CHUNKS <= i < g * FILE_GROUP_CHUNKS + v.K(g)
      ensures Fates(v, img, true)[i] != LostEarly
    {
      AfterTwoData(v, orig, chunks, img, i);
    }
  }

  /** When every damaged slot is detected, a scrub with a writer counts, and rewrites,
      exactly the parity slots that are not the ones written, of the groups it does not
      skip. */
  lemma ParityCountUnderDamage(v: Vault, orig: Image, chunks: seq<Bytes>, img: Image)
    requires Damaged(v, orig, chunks, img)
    ensures Opened(v, img)
    ensures
      var r := ReportOf(v, img, true, true);
      r.paritySlotsBad == r.parityShardsFixed == |DamagedParity(v, orig, img, Fates(v, img, true))|
  {
    hide Damaged, Shaped, TagsOk, CodesOk, AfterTwo, Fates, Skipped, Differs, Counted, ReportOf, FileCodesOk;
    DamagedParts(v, orig, chunks, img);
    ReportCounts(v, img, true, true);
    var two, fates := AfterTwo(v, img, true), Fates(v, img, true);
    forall g: nat, q: nat, j: nat | g < v.Groups() && q < v.M(g) && j < SHARDS_PER_BLOB
      ensures Counted(v, two, fates, g, q, j) <==> !Skipped(v, fates, g) && Differs(v, orig, img, g, q, j)
    {
      CountedIsDamaged(v, orig, chunks, img, g, q, j);
    }
    assert WrongSlots(v, two, fates, v.Groups()) == DamagedParity(v, orig, img, fates);
  }
}

/** What is in the file: as long as nothing failed and the two loops did not
    race for the cursor, exactly the due writes up to each loop's position. */
module PipelineFile {
  import opened Bytes
  import opened ErasureCode
  import opened Layout
  import opened Vault
  import opened Format
  import opened Repair
  import opened RepairTheorems
  import opened Encoder
  import opened EncodeLoops
  import opened StreamedParity
  import opened Writes
  import opened Chunking
  import opened ExpectedWrites
  import opened PipelineState
  import opened PipelineOrder
  import opened PipelineQueue
  import opened PipelineMemory
  import opened PipelineText

  /** The chunks a sequential encoder would cut from the whole plaintext. */
  function PlanChunks(c: Config): seq<Bytes> {
    ChunksOf(Concat(c.calls))
  }

  function PlanVault(c: Config): Vault {
    Vault(c.cr, c.spec, |PlanChunks(c)|)
  }

  ghost predicate ConfigOk(c: Config) {
    && c.spec.Valid() && |c.pfx| == 4 && TagsOk(c.cr) && CodesOk(c.cr) && SealOk(c.cr)
    && OpensSealed(c.cr, ChunkSealings(c.pfx, PlanChunks(c)))
    && c.workers > 0 && c.encodeCap > 0 && c.outCap > 0 && c.parCap > 0
    && |PlanChunks(c)| <= TWO_63
  }

  lemma PlanOk(c: Config)
    requires ConfigOk(c)
    ensures Plan(PlanVault(c), c.pfx, PlanChunks(c))
    ensures TagsOk(c.cr) && IntraOk(c.cr) && FileCodesOk(c.cr)
  {
    ChunksAreCut(Concat(c.calls));
  }

  /** Without a failure the jobs are the first of those chunks, and all of them
      once the producer has cut the last. */
  lemma JobsArePlanned(c: Config, s: State)
    requires Text(c, s) && !s.failed
    ensures |s.flow.jobs| <= |PlanChunks(c)|
    ensures forall i :: 0 <= i < |s.flow.jobs| ==> s.flow.jobs[i].chunk == PlanChunks(c)[i]
    ensures Drained(s.prod.pc) ==> |s.flow.jobs| == |PlanChunks(c)|
  {
    hide Concat, ChunksOf, Chunks;
    var chunks := Chunks(s.flow.jobs);
    var text, rest, later := BufText(s.mem, s.prod.buf), RestText(s.prod.pc), Concat(s.prod.calls);
    if Drained(s.prod.pc) {
      NoCalls(s.prod.calls);
      assert Concat(chunks) == Concat(c.calls);
      CutIsUnique(chunks);
    } else {
      assert Concat(c.calls) == Concat(chunks) + (text + rest + later);
      FullChunksFirst(chunks, text + rest + later);
    }
    ChunksAt(s.flow.jobs);
  }

  lemma NoCalls(calls: seq<Bytes>)
    requires calls == []
    ensures Concat(calls) == []
  {}

  lemma ChunksAt(jobs: seq<Job>)
    ensures forall i :: 0 <= i < |jobs| ==> Chunks(jobs)[i] == jobs[i].chunk
  {}

  // ---------- what each loop has written ----------

  predicate PastCursor(pc: ParityPc, w: nat, q: nat) {
    match pc
    case QEncode(_, w') => w < w'
    case QSeek(_, w', q', _) => w < w' || (w == w' && q < q')
    case QWrite(_, w', q', _) => w < w' || (w == w' && q < q')
    case QRecycle => true
    case _ => false
  }

  predicate Past(w: Wr, p: Par, l: Label) {
    match l
    case DataW(i) => i < WrittenCount(w)
    case ParW(g, win, q) => g < p.pg || (g == p.pg && PastCursor(p.pc, win, q))
  }

  /** The parity loop works on a whole group of the container. */
  predicate BusyOk(v: Vault, p: Par)
    requires v.spec.Valid()
  {
    Busy(p.pc) ==> p.pg < v.Groups() && |p.acc| == v.K(p.pg) && (p.pc.QEncode? ==> p.pc.w < WINDOWS)
  }

  /** The parity shards it has encoded are the ones due. */
  ghost predicate OutOk(c: Config, v: Vault, chunks: seq<Bytes>, p: Par)
    requires Plan(v, c.pfx, chunks)
  {
    p.pc.QSeek? || p.pc.QWrite? ==>
      && p.pg < v.Groups() && p.pc.g == p.pg && p.pc.w < WINDOWS && |p.pc.out| == v.M(p.pg) && p.pc.q < |p.pc.out|
      && forall q :: 0 <= q < |p.pc.out| ==> ShardDue(c, v, chunks, p, q)
  }

  ghost predicate ShardDue(c: Config, v: Vault, chunks: seq<Bytes>, p: Par, q: nat)
    requires Plan(v, c.pfx, chunks) && (p.pc.QSeek? || p.pc.QWrite?) && q < |p.pc.out|
  {
    && |p.pc.out[q]| == WINDOW_BYTES && Due(v, ParW(p.pg, p.pc.w, q))
    && ParityPut(c.cr, c.spec, p.pg, |p.acc|, q, p.pc.w, p.pc.out[q]) == Expect(v, c.pfx, chunks, ParW(p.pg, p.pc.w, q))
  }

  /** Whoever is about to write has the cursor where it wants it. */
  predicate CursorOk(c: Config, s: State) {
    && (s.wr.pc.WWrite? ==> s.disk.pos == c.spec.DataBlobOffset(s.wr.next) && !s.par.pc.QWrite?)
    && (s.par.pc.QWrite? ==> OutValid(s.par.pc) && s.disk.pos == NextPut(c, s).off)
  }

  ghost predicate LogComplete(v: Vault, log: seq<Logged>, w: Wr, p: Par) {
    forall l :: Due(v, l) ==> (InLog(log, l) <==> Past(w, p, l))
  }

  ghost predicate FileOk(c: Config, s: State)
    requires ConfigOk(c)
  {
    PlanOk(c);
    var v, chunks := PlanVault(c), PlanChunks(c);
    && s.disk.file == Apply([], Puts(s.disk.log)) && LogRight(v, c.pfx, chunks, s.disk.log)
    && LogComplete(v, s.disk.log, s.wr, s.par)
    && BusyOk(v, s.par) && OutOk(c, v, chunks, s.par) && CursorOk(c, s)
  }

  /** A flush is of a full group, or of all that is left once all is cut. */
  predicate FlushesOk(pc: ProducerPc, parCh: seq<Msg>, jobs: nat) {
    forall i :: 0 <= i < |parCh| && parCh[i].FlushMsg? ==>
      && parCh[i].g * FILE_GROUP_CHUNKS + parCh[i].k <= jobs
      && (parCh[i].k != FILE_GROUP_CHUNKS ==> LastFlushSent(pc) && parCh[i].g * FILE_GROUP_CHUNKS + parCh[i].k == jobs)
  }

  ghost predicate File(c: Config, s: State) {
    && ConfigOk(c)
    && (!s.failed ==> FlushesOk(s.prod.pc, s.parCh, |s.flow.jobs|))
    && (!s.failed && !s.disk.raced ==> FileOk(c, s))
  }

  lemma FileInit(c: Config)
    requires ConfigOk(c)
    ensures File(c, Init(c))
  {
    PlanOk(c);
    hide Expect, PlanChunks;
  }

  lemma FileKept(c: Config, s: State, t: State)
    requires File(c, s) && t.wr == s.wr && t.par == s.par && t.disk == s.disk && (s.failed ==> t.failed)
    requires !t.failed ==> FlushesOk(t.prod.pc, t.parCh, |t.flow.jobs|)
    ensures File(c, t)
  {
    hide ConfigOk, LogRight, LogComplete, OutOk, BusyOk, Puts, Apply, PlanChunks;
  }

  lemma FileProducer(c: Config, s: State, a: ProducerAct)
    requires Order(c, s) && Queue(c, s) && File(c, s) && ProducerCan(c, s, a)
    ensures File(c, ProducerDo(c, s, a))
  {
    hide File, SetCell, CopyLength, BufText, GetBuf, PutBack, CanGet, QueueOk, EncodeQueue, WorkerHolds;
    hide OutQueue, PendingSet;
    var t := ProducerDo(c, s, a);
    if !t.failed {
      ProducerFlushes(c, s, a);
    }
    FileKept(c, s, t);
  }

  lemma ProducerFlushes(c: Config, s: State, a: ProducerAct)
    requires Order(c, s) && Queue(c, s) && File(c, s) && ProducerCan(c, s, a) && !s.failed
    ensures var t := ProducerDo(c, s, a); FlushesOk(t.prod.pc, t.parCh, |t.flow.jobs|)
  {
    hide FileOk, SetCell, CopyLength, BufText, GetBuf, PutBack, CanGet, ReadAll, EncodeQueue, WorkerHolds;
    hide OutQueue, PendingSet, ConfigOk;
    if a.SendLastFlush? {
      assert s.wr.finalG * FILE_GROUP_CHUNKS + s.wr.finalK == |s.flow.jobs|;
    }
  }

  lemma FileWorker(c: Config, s: State, w: nat, a: WorkerAct)
    requires File(c, s) && WorkerCan(c, s, w, a)
    ensures File(c, WorkerDo(c, s, w, a))
  {
    hide ConfigOk, FileOk, WorkerDo, WorkerCan;
    WorkerKeeps(c, s, w, a);
    FileKept(c, s, WorkerDo(c, s, w, a));
  }

  // ---------- write loop ----------

  /** The sequential encoder's blob of a chunk, as a due write. */
  lemma ExpectData(v: Vault, pfx: Bytes, chunks: seq<Bytes>, i: nat)
    requires Plan(v, pfx, chunks) && i < v.chunkCount
    ensures Fits(v.cr, pfx, i, chunks[i])
    ensures Expect(v, pfx, chunks, DataW(i)) == Put(v.spec.DataBlobOffset(i), BlobBytes(ChunkBlob(v.cr, pfx, i, chunks[i])))
  {
    hide SeqImage, BlobBytes, ChunkBlob, SlotOffset, Place, SealOk, CodesOk, TagsOk;
    var l := DataW(i);
    ChunkFits(v.cr, pfx, i, chunks[i]);
    ExpectFacts(v, pfx, chunks, l);
    DataPlacement(v, i);
    SeqImageAt(v, pfx, chunks, Data(i));
    var blob := SeqImage(v, pfx, chunks)[LabelPlace(v, l)];
    assert blob == BlobOfChunk(v.cr, pfx, chunks, i);
    assert blob[0..SHARDS_PER_BLOB] == blob;
  }

  lemma HandDisk(c: Config, s: State)
    requires Order(c, s) && Memory(c, s) && s.wr.pc.WWrite?
    ensures DiskValid(s) && Encodable(c, s.wr.next, Hand(s).chunk)
    ensures DiskData(s) == BlobBytes(ChunkBlob(c.cr, c.pfx, s.wr.next, Hand(s).chunk))
  {
    hide Where, Phase, MemOk, JobsHave, EntriesHave, Ascending, Stages, BlobBytes, ChunkBlob, Fits;
    HandJob(c, s);
  }

  lemma DataDue(c: Config, s: State)
    requires Order(c, s) && Memory(c, s) && Text(c, s) && !s.failed && s.wr.pc.WWrite? && ConfigOk(c)
    requires s.disk.pos == c.spec.DataBlobOffset(s.wr.next)
    ensures Plan(PlanVault(c), c.pfx, PlanChunks(c)) && DiskValid(s) && Due(PlanVault(c), DataW(s.wr.next))
    ensures Put(s.disk.pos, DiskData(s)) == Expect(PlanVault(c), c.pfx, PlanChunks(c), DataW(s.wr.next))
  {
    hide Memory, Order, Text, ConfigOk, Expect, BlobBytes, ChunkBlob, Plan, DiskData, Fits, PlanChunks;
    PlanOk(c);
    HandDisk(c, s);
    JobsArePlanned(c, s);
    ExpectData(PlanVault(c), c.pfx, PlanChunks(c), s.wr.next);
  }

  /** Appending a due write that is not in the log yet. */
  lemma LogGrows(v: Vault, pfx: Bytes, chunks: seq<Bytes>, log: seq<Logged>, l: Label, put: Put)
    requires Plan(v, pfx, chunks) && LogRight(v, pfx, chunks, log) && Due(v, l) && !InLog(log, l)
    requires put == Expect(v, pfx, chunks, l)
    ensures LogRight(v, pfx, chunks, log + [Logged(l, put)])
    ensures forall m :: InLog(log + [Logged(l, put)], m) <==> InLog(log, m) || m == l
    ensures Puts(log + [Logged(l, put)]) == Puts(log) + [put]
  {
    hide Expect, Due, Plan;
    var longer := log + [Logged(l, put)];
    forall m
      ensures InLog(longer, m) <==> InLog(log, m) || m == l
    {
      assert longer[|log|].what == l;
      if InLog(log, m) {
        var a :| 0 <= a < |log| && log[a].what == m;
        assert longer[a].what == m;
      }
    }
    forall a | 0 <= a < |log|
      ensures log[a].what != l
    {
    }
  }

  lemma WriteApplies(file: Bytes, log: seq<Logged>, l: Label, put: Put)
    requires file == Apply([], Puts(log)) && Puts(log + [Logged(l, put)]) == Puts(log) + [put]
    ensures Overwrite(file, put.off, put.data) == Apply([], Puts(log + [Logged(l, put)]))
  {
    ApplyOne([], Puts(log), put);
  }

  lemma FileWriteOk(c: Config, s: State)
    requires Order(c, s) && Memory(c, s) && Text(c, s) && File(c, s) && WriterCan(c, s, WriteOk) && !s.failed && !s.disk.raced
    ensures FileOk(c, WriterDo(c, s, WriteOk))
  {
    hide Order, Memory, Text, ConfigOk, Apply, Puts, LogRight, Expect, DiskData, Overwrite, Plan, InLog;
    hide OutOk, BusyOk, NextPut;
    PlanOk(c);
    var v, chunks, l := PlanVault(c), PlanChunks(c), DataW(s.wr.next);
    DataDue(c, s);
    var put := Put(s.disk.pos, DiskData(s));
    LogGrows(v, c.pfx, chunks, s.disk.log, l, put);
    WriteApplies(s.disk.file, s.disk.log, l, put);
    var t := WriterDo(c, s, WriteOk);
    forall m | Due(v, m)
      ensures InLog(t.disk.log, m) <==> Past(t.wr, t.par, m)
    {
    }
  }

  /** The write loop's other steps leave the file and what counts as written. */
  lemma FileWriterStays(c: Config, s: State, a: WriterAct)
    requires Order(c, s) && Queue(c, s) && File(c, s) && WriterCan(c, s, a) && !a.WriteOk?
    requires !WriterDo(c, s, a).failed && !WriterDo(c, s, a).disk.raced
    ensures FileOk(c, WriterDo(c, s, a))
  {
    hide ConfigOk, LogRight, OutOk, BusyOk, Puts, Apply, PlanChunks, PutBack, QueueOk, Where, Phase, InLog, Due;
    PlanOk(c);
    var t, v := WriterDo(c, s, a), PlanVault(c);
    if a.Scan? && s.wr.next in s.wr.pending {
      ScanUnfailed(c, s, a);
    }
    assert WrittenCount(t.wr) == WrittenCount(s.wr);
    forall m | Due(v, m)
      ensures InLog(t.disk.log, m) <==> Past(t.wr, t.par, m)
    {
    }
  }

  lemma ScanUnfailed(c: Config, s: State, a: WriterAct)
    requires Queue(c, s) && WriterCan(c, s, a) && a.Scan? && !s.failed && s.wr.next in s.wr.pending
    ensures !Hand(s).failed
  {}

  lemma WriterFlushes(c: Config, s: State, a: WriterAct)
    requires Order(c, s) && Queue(c, s) && File(c, s) && WriterCan(c, s, a) && !s.failed
    ensures var t := WriterDo(c, s, a); FlushesOk(t.prod.pc, t.parCh, |t.flow.jobs|)
  {
    hide FileOk, ConfigOk, PutBack, Written, Noted, ReadAll, EncodeQueue, WorkerHolds, OutQueue, PendingSet;
    if a.SendFlush? {
      assert s.wr.groupsDone * FILE_GROUP_CHUNKS + FILE_GROUP_CHUNKS == s.wr.next + 1 <= |s.flow.jobs|;
    }
  }

  lemma FileWriter(c: Config, s: State, a: WriterAct)
    requires Order(c, s) && Queue(c, s) && Memory(c, s) && Text(c, s) && File(c, s) && WriterCan(c, s, a)
    ensures File(c, WriterDo(c, s, a))
  {
    hide Order, Queue, Memory, Text, ConfigOk, FileOk, FlushesOk, WriterDo, WriterCan;
    var t := WriterDo(c, s, a);
    WriterFailed(c, s, a);
    if !t.failed {
      WriterFlushes(c, s, a);
      if !t.disk.raced {
        if a.WriteOk? {
          FileWriteOk(c, s);
        } else {
          FileWriterStays(c, s, a);
        }
      }
    }
  }

  lemma WriterFailed(c: Config, s: State, a: WriterAct)
    requires WriterCan(c, s, a)
    ensures s.failed ==> WriterDo(c, s, a).failed
    ensures s.disk.raced ==> WriterDo(c, s, a).disk.raced
  {
    hide PutBack;
  }

  // ---------- parity loop ----------

  /** The data blobs of a planned group. */
  function GroupData(v: Vault, pfx: Bytes, chunks: seq<Bytes>, g: nat): (data: Group)
    requires Plan(v, pfx, chunks) && g < v.Groups()
    ensures |data| == v.K(g) && WholeGroup(data, 0)
  {
    GroupSizes(v, g);
    BlobRunWhole(v.cr, pfx, chunks, g * FILE_GROUP_CHUNKS, v.K(g));
    hide Ready, WholeGroup, BlobRun;
    BlobRun(v.cr, pfx, chunks, g * FILE_GROUP_CHUNKS, v.K(g))
  }

  lemma GroupCode(v: Vault, pfx: Bytes, chunks: seq<Bytes>, g: nat)
    requires Plan(v, pfx, chunks) && g < v.Groups()
    ensures FileCodeExists(v.K(g), v.M(g)) && FileCodeOk(v.cr, v.K(g), v.M(g)) && TagsOk(v.cr) && IntraOk(v.cr)
  {
    GroupSizes(v, g);
    FileCode(v.cr, v.K(g), v.M(g));
  }

  /** The sequential encoder's parity window, as a due write. */
  lemma ExpectParity(v: Vault, pfx: Bytes, chunks: seq<Bytes>, g: nat, w: nat, q: nat)
    requires Plan(v, pfx, chunks) && g < v.Groups() && w < WINDOWS && q < v.M(g)
    ensures FileCodeOk(v.cr, v.K(g), v.M(g))
    ensures |ParityBlob(v.cr, GroupData(v, pfx, chunks, g), v.M(g), q)| == SHARDS_PER_BLOB
    ensures Expect(v, pfx, chunks, ParW(g, w, q)) ==
      Put(v.spec.ParityBlobOffset(g, v.K(g), q) + w * WINDOW * SLOT_SIZE,
          BlobBytes(ParityBlob(v.cr, GroupData(v, pfx, chunks, g), v.M(g), q)[w * WINDOW..w * WINDOW + WINDOW]))
  {
    hide SeqImage, BlobBytes, ParityBlob, SlotOffset, Place, Ready, FileCodeOk, WholeGroup, Whole, BlobRun;
    var l := ParW(g, w, q);
    GroupCode(v, pfx, chunks, g);
    ExpectFacts(v, pfx, chunks, l);
    ParityPlacement(v, g, q, w);
    DueBlob(v, l);
    SeqImageAt(v, pfx, chunks, BlobOfLabel(v, l));
    ParityLength(v.cr, GroupData(v, pfx, chunks, g), v.M(g), q);
    SeqParity(v, pfx, chunks, g, q);
  }

  lemma ParityLength(cr: Crypto, data: Group, m: nat, q: nat)
    requires WholeGroup(data, 0) && FileCodeOk(cr, |data|, m) && q < m
    ensures |ParityBlob(cr, data, m, q)| == SHARDS_PER_BLOB
  {
    hide ParityPayload;
  }

  lemma SeqParity(v: Vault, pfx: Bytes, chunks: seq<Bytes>, g: nat, q: nat)
    requires Plan(v, pfx, chunks) && g < v.Groups() && q < v.M(g) && FileCodeOk(v.cr, v.K(g), v.M(g))
    ensures InContainer(v.spec, v.chunkCount, Blob.Parity(g, q))
    ensures SeqBlob(v, pfx, chunks, Blob.Parity(g, q)) == ParityBlob(v.cr, GroupData(v, pfx, chunks, g), v.M(g), q)
  {
    hide ParityBlob, Ready, FileCodeOk, WholeGroup, Whole, BlobRun, WrittenGroup;
    GroupFacts(v.chunkCount, g);
  }

  /** The two areas of a chunk are the payloads of its blob. */
  lemma AreasArePayloads(cr: Crypto, pfx: Bytes, i: nat, plain: Bytes)
    requires |pfx| == 4 && TagsOk(cr) && IntraOk(cr) && Fits(cr, pfx, i, plain)
    ensures |Payloads(ChunkBlob(cr, pfx, i, plain))| == SHARDS_PER_BLOB
    ensures Concat(Payloads(ChunkBlob(cr, pfx, i, plain))[..DATA_SHARDS]) == DataArea(cr, pfx, i, plain)
    ensures Concat(Payloads(ChunkBlob(cr, pfx, i, plain))[DATA_SHARDS..]) == ParityArea(cr, pfx, i, plain)
  {
    hide DataArea, Blocks, Concat, ChunkBlob, Fits, BlobWord, AllGood, Payloads, Marshal;
    ChunkBlobFacts(cr, pfx, i, plain);
    DataAreaLength();
    UniformBlocks(DataArea(cr, pfx, i, plain), SHARD_SIZE, DATA_SHARDS);
    var data := DataShards(cr, pfx, i, plain);
    IntraWord(cr, data);
    ConcatOfBlocks(DataArea(cr, pfx, i, plain), SHARD_SIZE, DATA_SHARDS);
    assert Codeword(cr.intra, data)[..DATA_SHARDS] == data;
    assert Codeword(cr.intra, data)[DATA_SHARDS..] == cr.intra.encode(data);
  }

  /** The buffers the parity loop has accumulated hold its group's payloads. */
  lemma AccRetained(c: Config, s: State)
    requires Queue(c, s) && Memory(c, s) && Text(c, s) && ConfigOk(c) && !s.failed && Busy(s.par.pc)
    requires BusyOk(PlanVault(c), s.par) && AccValid(s.mem, s.par.acc)
    ensures Plan(PlanVault(c), c.pfx, PlanChunks(c)) && s.par.pg < PlanVault(c).Groups()
    ensures Retained(GroupData(PlanVault(c), c.pfx, PlanChunks(c), s.par.pg), AccBlobs(s.mem, s.par.acc), AccPars(s.mem, s.par.acc))
  {
    hide QueueOk, MemOk, JobsHave, Stages, Text, ConfigOk, EntryHas, Ascending, PlanChunks, Plan, WholeGroup;
    hide Concat, Payloads;
    PlanOk(c);
    JobsArePlanned(c, s);
    AccOrder(c, s);
    var v, chunks, g := PlanVault(c), PlanChunks(c), s.par.pg;
    var data := GroupData(v, c.pfx, chunks, g);
    forall i | 0 <= i < |data|
      ensures |Payloads(data[i])| == SHARDS_PER_BLOB
      ensures AccBlobs(s.mem, s.par.acc)[i] == Concat(Payloads(data[i])[..DATA_SHARDS])
      ensures AccPars(s.mem, s.par.acc)[i] == Concat(Payloads(data[i])[DATA_SHARDS..])
    {
      AccEntry(c, s, i);
    }
  }

  lemma AccOrder(c: Config, s: State)
    requires Queue(c, s) && !s.failed
    ensures AccInOrder(s.par.acc, s.par.pg)
  {
    ReadKeeps(Head(s.par), s.parCh);
  }

  lemma ReadyChunk(cr: Crypto, pfx: Bytes, chunks: seq<Bytes>, i: nat)
    requires Ready(cr, pfx, chunks) && i < |chunks|
    ensures |pfx| == 4 && Fits(cr, pfx, i, chunks[i])
    ensures BlobOfChunk(cr, pfx, chunks, i) == ChunkBlob(cr, pfx, i, chunks[i])
  {
    hide BlobWord, AllGood, ChunkBlob, CodesOk, TagsOk;
    ChunkFits(cr, pfx, i, chunks[i]);
  }

  lemma PlannedBlob(v: Vault, pfx: Bytes, chunks: seq<Bytes>, g: nat, i: nat)
    requires Plan(v, pfx, chunks) && g < v.Groups() && i < v.K(g)
    ensures g * FILE_GROUP_CHUNKS + i < |chunks| && Fits(v.cr, pfx, g * FILE_GROUP_CHUNKS + i, chunks[g * FILE_GROUP_CHUNKS + i])
    ensures GroupData(v, pfx, chunks, g)[i] ==
            ChunkBlob(v.cr, pfx, g * FILE_GROUP_CHUNKS + i, chunks[g * FILE_GROUP_CHUNKS + i])
  {
    hide BlobWord, AllGood, WholeGroup, ChunkBlob, Ready, Fits;
    GroupSizes(v, g);
    var idx := g * FILE_GROUP_CHUNKS + i;
    ReadyChunk(v.cr, pfx, chunks, idx);
    assert GroupData(v, pfx, chunks, g)[i] == BlobOfChunk(v.cr, pfx, chunks, idx);
  }

  lemma AccEntry(c: Config, s: State, i: nat)
    requires Memory(c, s) && Text(c, s) && ConfigOk(c) && !s.failed && i < |s.par.acc|
    requires AccInOrder(s.par.acc, s.par.pg) && s.par.pg < PlanVault(c).Groups() && i < PlanVault(c).K(s.par.pg)
    requires AccValid(s.mem, s.par.acc) && Plan(PlanVault(c), c.pfx, PlanChunks(c))
    ensures
      var blob := GroupData(PlanVault(c), c.pfx, PlanChunks(c), s.par.pg)[i];
      && |Payloads(blob)| == SHARDS_PER_BLOB
      && s.mem.cells[s.par.acc[i].blob].bytes == Concat(Payloads(blob)[..DATA_SHARDS])
      && s.mem.cells[s.par.acc[i].par].bytes == Concat(Payloads(blob)[DATA_SHARDS..])
  {
    hide MemOk, JobsHave, Stages, Text, Ascending, PlanChunks, DataArea, ParityArea, ChunkBlob, Concat;
    hide Payloads, Fits, WholeGroup, BlobWord, AllGood, SealOk;
    PlanOk(c);
    JobsArePlanned(c, s);
    var idx := s.par.acc[i].idx;
    assert EntryHas(c, s.mem, s.flow.jobs, s.par.acc[i]);
    GroupSizes(PlanVault(c), s.par.pg);
    PlannedBlob(PlanVault(c), c.pfx, PlanChunks(c), s.par.pg, i);
    AreasArePayloads(c.cr, c.pfx, idx, PlanChunks(c)[idx]);
  }

  lemma PlannedData(v: Vault, pfx: Bytes, chunks: seq<Bytes>, g: nat)
    requires Plan(v, pfx, chunks) && g < v.Groups()
    ensures
      var data := GroupData(v, pfx, chunks, g);
      forall n :: 0 <= n < |data| ==> BlobWord(v.cr, data[n]) && AllGood(v.cr, data[n])
  {
    hide Ready, BlobOfChunk, WholeGroup, AllGood, BlobWord, BlobRun;
    GroupSizes(v, g);
    BlobRunWhole(v.cr, pfx, chunks, g * FILE_GROUP_CHUNKS, v.K(g));
  }

  /** A window encoded from the accumulated buffers is the one due. */
  lemma EncodedIsDue(c: Config, s: State, w: nat, q: nat)
    requires Queue(c, s) && Memory(c, s) && Text(c, s) && ConfigOk(c) && !s.failed && Busy(s.par.pc)
    requires BusyOk(PlanVault(c), s.par) && CanEncodeWindow(c, s, w) && q < GroupM(c, s.par.acc)
    ensures Plan(PlanVault(c), c.pfx, PlanChunks(c)) && Due(PlanVault(c), ParW(s.par.pg, w, q))
    ensures GroupM(c, s.par.acc) == PlanVault(c).M(s.par.pg)
    ensures ParityPut(c.cr, c.spec, s.par.pg, |s.par.acc|, q, w, EncodedWindow(c, s, w)[q]) ==
            Expect(PlanVault(c), c.pfx, PlanChunks(c), ParW(s.par.pg, w, q))
  {
    hide Queue, MemOk, JobsHave, Stages, EntriesHave, Ascending, Text, ConfigOk, PlanChunks, WholeGroup;
    hide ParityBlob, BlobBytes;
    hide Expect, Plan, FileCodeOk, WindowEncoded, GroupData, Retained, BlobWord, AllGood, Areas;
    hide FileCodeExists, TagsOk, IntraOk;
    var v, chunks, g, m := PlanVault(c), PlanChunks(c), s.par.pg, GroupM(c, s.par.acc);
    AccRetained(c, s);
    GroupCode(v, c.pfx, chunks, g);
    PlannedData(v, c.pfx, chunks, g);
    ExpectParity(v, c.pfx, chunks, g, w, q);
    var data := GroupData(v, c.pfx, chunks, g);
    ParityPutIsSlots(c.cr, c.spec, g, data, m, AccBlobs(s.mem, s.par.acc), AccPars(s.mem, s.par.acc), w, q);
    PutOffset(c.cr, c.spec, g, |s.par.acc|, q, w, EncodedWindow(c, s, w)[q]);
  }

  lemma PutOffset(cr: Crypto, spec: Spec, g: nat, k: nat, q: nat, w: nat, out: Bytes)
    requires |out| == WINDOW_BYTES
    ensures ParityPut(cr, spec, g, k, q, w, out).off == spec.ParityBlobOffset(g, k, q) + w * WINDOW * SLOT_SIZE
  {}

  lemma FileEncode(c: Config, s: State)
    requires Queue(c, s) && Memory(c, s) && Text(c, s) && File(c, s) && ParityCan(c, s, EncodeWindow) && !s.failed && !s.disk.raced
    ensures FileOk(c, ParityDo(c, s, EncodeWindow))
  {
    hide Queue, Memory, Text, ConfigOk, PlanChunks, LogRight, InLog, Puts, Apply, Expect, Plan, EncodedWindow;
    hide CanEncodeWindow, ParityPut;
    PlanOk(c);
    var t, v, w := ParityDo(c, s, EncodeWindow), PlanVault(c), s.par.pc.w;
    QueueGroup(c, s);
    EncodedShape(c, s, w);
    forall q | 0 <= q < |t.par.pc.out|
      ensures ShardDue(c, v, PlanChunks(c), t.par, q)
    {
      EncodedIsDue(c, s, w, q);
    }
    EncodedIsDue(c, s, w, 0);
    forall l | Due(v, l)
      ensures InLog(t.disk.log, l) <==> Past(t.wr, t.par, l)
    {
    }
  }

  lemma QueueGroup(c: Config, s: State)
    requires Queue(c, s)
    ensures s.par.pc.QEncode? || s.par.pc.QSeek? || s.par.pc.QWrite? ==> s.par.pc.g == s.par.pg
  {
    hide ReadAll;
  }

  lemma EncodedShape(c: Config, s: State, w: nat)
    requires CanEncodeWindow(c, s, w)
    ensures |EncodedWindow(c, s, w)| == GroupM(c, s.par.acc) > 0 && Uniform(EncodedWindow(c, s, w), WINDOW_BYTES)
  {
    hide WindowEncoded, FileCodeOk;
  }

  lemma NextIsDue(c: Config, s: State)
    requires File(c, s) && !s.failed && !s.disk.raced && (s.par.pc.QSeek? || s.par.pc.QWrite?)
    ensures Plan(PlanVault(c), c.pfx, PlanChunks(c)) && OutValid(s.par.pc) && s.par.pc.g == s.par.pg
    ensures Due(PlanVault(c), ParW(s.par.pg, s.par.pc.w, s.par.pc.q))
    ensures NextPut(c, s) == Expect(PlanVault(c), c.pfx, PlanChunks(c), ParW(s.par.pg, s.par.pc.w, s.par.pc.q))
  {
    hide ConfigOk, PlanChunks, LogRight, LogComplete, Puts, Apply, Expect, Plan, ParityPut, FlushesOk;
    PlanOk(c);
    assert ShardDue(c, PlanVault(c), PlanChunks(c), s.par, s.par.pc.q);
  }

  lemma FileSeekParity(c: Config, s: State)
    requires File(c, s) && ParityCan(c, s, SeekParity) && !s.failed && !ParityDo(c, s, SeekParity).disk.raced
    ensures FileOk(c, ParityDo(c, s, SeekParity))
  {
    hide ConfigOk, PlanChunks, LogRight, InLog, Puts, Apply, Expect, Plan, ParityPut, Due, FlushesOk;
    PlanOk(c);
    var t, v := ParityDo(c, s, SeekParity), PlanVault(c);
    forall q | 0 <= q < |t.par.pc.out|
      ensures ShardDue(c, v, PlanChunks(c), t.par, q)
    {
      assert ShardDue(c, v, PlanChunks(c), s.par, q);
    }
    forall l | Due(v, l)
      ensures InLog(t.disk.log, l) <==> Past(t.wr, t.par, l)
    {
    }
  }

  lemma FileWriteParity(c: Config, s: State)
    requires File(c, s) && ParityCan(c, s, WriteParity) && !s.failed && !s.disk.raced
    ensures FileOk(c, ParityDo(c, s, WriteParity))
  {
    hide ConfigOk, PlanChunks, LogRight, InLog, Puts, Apply, Expect, Plan, ParityPut, FlushesOk, Overwrite, NextPut;
    PlanOk(c);
    NextIsDue(c, s);
    var t, v, chunks := ParityDo(c, s, WriteParity), PlanVault(c), PlanChunks(c);
    var l, put := ParW(s.par.pg, s.par.pc.w, s.par.pc.q), NextPut(c, s);
    LogGrows(v, c.pfx, chunks, s.disk.log, l, put);
    WriteApplies(s.disk.file, s.disk.log, l, put);
    assert Put(s.disk.pos, put.data) == put;
    if t.par.pc.QSeek? {
      forall q | 0 <= q < |t.par.pc.out|
        ensures ShardDue(c, v, chunks, t.par, q)
      {
        assert ShardDue(c, v, chunks, s.par, q);
      }
    }
    forall m | Due(v, m)
      ensures InLog(t.disk.log, m) <==> Past(t.wr, t.par, m)
    {
    }
  }

  /** Without a failure a flush is of exactly the container's group. */
  lemma FlushGroup(c: Config, s: State)
    requires Queue(c, s) && Text(c, s) && File(c, s) && !s.failed && s.par.pc.QRecv? && s.parCh != [] && s.parCh[0].FlushMsg?
    ensures s.par.pg < PlanVault(c).Groups() && |s.par.acc| == s.parCh[0].k == PlanVault(c).K(s.par.pg)
  {
    hide ConfigOk, PlanChunks, FileOk, QueueOk, Text;
    FlushIsRight(c, s);
    JobsArePlanned(c, s);
    GroupSizeOf(PlanVault(c), s.par.pg, s.parCh[0].k);
  }

  lemma GroupSizeOf(v: Vault, g: nat, k: nat)
    requires 1 <= k <= FILE_GROUP_CHUNKS && g * FILE_GROUP_CHUNKS + k <= v.chunkCount
    requires k != FILE_GROUP_CHUNKS ==> g * FILE_GROUP_CHUNKS + k == v.chunkCount
    ensures g < v.Groups() && v.K(g) == k
  {}

  lemma FileReceiveMsg(c: Config, s: State)
    requires Queue(c, s) && Text(c, s) && File(c, s) && ParityCan(c, s, ReceiveMsg) && !s.failed && !s.disk.raced
    ensures FileOk(c, ParityDo(c, s, ReceiveMsg))
  {
    hide ConfigOk, PlanChunks, LogRight, InLog, Puts, Apply, Expect, Plan, Text, Due, QueueOk, FlushesOk;
    PlanOk(c);
    var t, v := ParityDo(c, s, ReceiveMsg), PlanVault(c);
    if s.parCh[0].FlushMsg? {
      FlushGroup(c, s);
      FlushIsRight(c, s);
    }
    forall l | Due(v, l)
      ensures InLog(t.disk.log, l) <==> Past(t.wr, t.par, l)
    {
    }
  }

  lemma FileRecycleGroup(c: Config, s: State)
    requires File(c, s) && ParityCan(c, s, RecycleGroup) && !s.failed && !s.disk.raced
    ensures FileOk(c, ParityDo(c, s, RecycleGroup))
  {
    hide ConfigOk, PlanChunks, LogRight, InLog, Puts, Apply, Expect, Plan, Due, FlushesOk, PutAll;
    PlanOk(c);
    var t, v := ParityDo(c, s, RecycleGroup), PlanVault(c);
    forall l | Due(v, l)
      ensures InLog(t.disk.log, l) <==> Past(t.wr, t.par, l)
    {
    }
  }

  lemma FileStop(c: Config, s: State)
    requires File(c, s) && ParityCan(c, s, Stop) && !s.failed && !s.disk.raced
    ensures FileOk(c, ParityDo(c, s, Stop))
  {
    hide ConfigOk, PlanChunks, LogRight, InLog, Puts, Apply, Expect, Plan, Due, FlushesOk;
    PlanOk(c);
    var t, v := ParityDo(c, s, Stop), PlanVault(c);
    forall l | Due(v, l)
      ensures InLog(t.disk.log, l) <==> Past(t.wr, t.par, l)
    {
    }
  }

  lemma ParityFlushes(c: Config, s: State, a: ParityAct)
    requires File(c, s) && ParityCan(c, s, a) && !s.failed
    ensures var t := ParityDo(c, s, a); FlushesOk(t.prod.pc, t.parCh, |t.flow.jobs|)
  {
    hide FileOk, ConfigOk, ParityDo, ParityCan;
    ParityKeeps(c, s, a);
  }

  lemma ParityFailed(c: Config, s: State, a: ParityAct)
    requires ParityCan(c, s, a)
    ensures s.failed ==> ParityDo(c, s, a).failed
    ensures s.disk.raced ==> ParityDo(c, s, a).disk.raced
  {
    hide CanEncodeWindow, NextPut, EncodedWindow, PutAll, AccValid, FileCodeExists, Overwrite;
  }

  lemma FileParity(c: Config, s: State, a: ParityAct)
    requires Queue(c, s) && Memory(c, s) && Text(c, s) && File(c, s) && ParityCan(c, s, a)
    ensures File(c, ParityDo(c, s, a))
  {
    hide Queue, Memory, Text, ConfigOk, FileOk, FlushesOk, ParityDo;
    var t := ParityDo(c, s, a);
    ParityFailed(c, s, a);
    if !t.failed {
      ParityFlushes(c, s, a);
      if !t.disk.raced {
        FileParityOk(c, s, a);
      }
    }
  }

  lemma FileParityOk(c: Config, s: State, a: ParityAct)
    requires Queue(c, s) && Memory(c, s) && Text(c, s) && File(c, s) && ParityCan(c, s, a)
    requires !s.failed && !s.disk.raced && !ParityDo(c, s, a).failed && !ParityDo(c, s, a).disk.raced
    ensures FileOk(c, ParityDo(c, s, a))
  {
    hide Queue, Memory, Text, ConfigOk, FileOk, FlushesOk, CanEncodeWindow, NextPut, EncodedWindow, PutAll;
    hide AccValid, FileCodeExists;
    match a {
      case ReceiveMsg => FileReceiveMsg(c, s);
      case EncodeWindow => FileEncode(c, s);
      case SeekParity => FileSeekParity(c, s);
      case WriteParity => FileWriteParity(c, s);
      case RecycleGroup => FileRecycleGroup(c, s);
      case Stop => FileStop(c, s);
      case _ =>
    }
  }

  lemma FileStep(c: Config, s: State, a: Action)
    requires Order(c, s) && Queue(c, s) && Memory(c, s) && Text(c, s) && File(c, s) && Can(c, s, a)
    ensures File(c, Do(c, s, a))
  {
    hide Order, Queue, Memory, Text, File;
    match a {
      case Producer(p) => FileProducer(c, s, p);
      case Worker(w, act) => FileWorker(c, s, w, act);
      case Writer(r) => FileWriter(c, s, r);
      case Parity(q) => FileParity(c, s, q);
    }
  }
}

/** What every run of the write pipeline keeps and what a finished run has done. */
module PipelineTheorems {
  import opened Bytes
  import opened ErasureCode
  import opened Layout
  import opened Vault
  import opened Repair
  import opened Encoder
  import opened EncodeLoops
  import opened Writes
  import opened Chunking
  import opened ExpectedWrites
  import opened PipelineState
  import opened PipelineOrder
  import opened PipelineQueue
  import opened PipelineMemory
  import opened PipelineText
  import opened PipelineFile

  // ---------- sizes ----------

  /** Plaintext bytes of the first n jobs. */
  function SizeOf(jobs: seq<Job>, n: nat): nat
    requires n <= |jobs|
  {
    if n == 0 then 0 else SizeOf(jobs, n - 1) + |jobs[n - 1].chunk|
  }

  lemma {:induction false} SizeKept(a: seq<Job>, b: seq<Job>, n: nat)
    requires n <= |a| && n <= |b| && forall i :: 0 <= i < n ==> a[i].chunk == b[i].chunk
    ensures SizeOf(a, n) == SizeOf(b, n)
    decreases n
  {
    if n == 0 {
    } else {
      SizeKept(a, b, n - 1);
    }
  }

  lemma {:induction false} SizeIsLength(jobs: seq<Job>, n: nat)
    requires n <= |jobs|
    ensures SizeOf(jobs, n) == |Concat(Chunks(jobs)[..n])|
    decreases n
  {
    if n == 0 {
    } else {
      SizeIsLength(jobs, n - 1);
      assert Chunks(jobs)[..n][..n - 1] == Chunks(jobs)[..n - 1];
    }
  }

  /** plainSize is the length of what was written, as long as nothing failed. */
  predicate Size(s: State) {
    !s.failed ==> WrittenCount(s.wr) <= |s.flow.jobs| && s.wr.plainSize == SizeOf(s.flow.jobs, WrittenCount(s.wr))
  }

  lemma SizeStep(c: Config, s: State, a: Action)
    requires Order(c, s) && Queue(c, s) && Size(s) && Can(c, s, a)
    ensures Size(Do(c, s, a))
  {
    hide Order, Queue;
    match a {
      case Producer(p) => SizeProducer(c, s, p);
      case Worker(w, act) =>
        WorkerKeeps(c, s, w, act);
        hide WorkerDo;
        if !s.failed {
          SizeKept(s.flow.jobs, Do(c, s, a).flow.jobs, WrittenCount(s.wr));
        }
      case Writer(r) => SizeWriter(c, s, r);
      case Parity(q) =>
        ParityKeeps(c, s, q);
        ParityFailed(c, s, q);
        hide ParityDo;
    }
  }

  lemma SizeProducer(c: Config, s: State, a: ProducerAct)
    requires Size(s) && ProducerCan(c, s, a)
    ensures Size(ProducerDo(c, s, a))
  {
    hide CopyLength, BufText, GetBuf, PutBack, SetCell, CanGet, SizeOf;
    var t := ProducerDo(c, s, a);
    if !s.failed && (a.Enqueue? || a.EnqueueLast?) {
      SizeKept(s.flow.jobs, t.flow.jobs, WrittenCount(s.wr));
    }
  }

  lemma SizeWriter(c: Config, s: State, a: WriterAct)
    requires Order(c, s) && Queue(c, s) && Size(s) && WriterCan(c, s, a)
    ensures Size(WriterDo(c, s, a))
  {
    hide PutBack, Written, Noted, QueueOk, Aligned, Where, Phase;
    var t := WriterDo(c, s, a);
    if !t.failed {
      SizeKept(s.flow.jobs, t.flow.jobs, WrittenCount(s.wr));
      if a.Scan? && s.wr.next in s.wr.pending {
        ScanUnfailed(c, s, a);
      }
    }
  }

  // ---------- every run ----------

  ghost predicate Invariant(c: Config, s: State) {
    Order(c, s) && Queue(c, s) && Memory(c, s) && Text(c, s) && File(c, s) && Size(s)
  }

  lemma {:induction false} RunsKeepInvariant(c: Config, run: seq<Action>)
    requires ConfigOk(c) && IsRun(c, run)
    ensures Invariant(c, After(c, run))
    decreases |run|
  {
    if run == [] {
      OrderInit(c);
      QueueInit(c);
      MemoryInit(c);
      TextInit(c);
      FileInit(c);
    } else {
      var before, a := run[..|run| - 1], run[|run| - 1];
      RunsKeepInvariant(c, before);
      hide Order, Queue, Memory, Text, File, Size, Can, Do, ConfigOk;
      var s := After(c, before);
      OrderStep(c, s, a);
      QueueStep(c, s, a);
      MemoryStep(c, s, a);
      TextStep(c, s, a);
      FileStep(c, s, a);
      SizeStep(c, s, a);
    }
  }

  // ---------- no buffer is shared ----------

  /** The places where a buffer can be. */
  datatype Place =
    | PoolPlace(k: Kind) | ProducerPlace
    | JobPlain(idx: nat) | JobBlob(idx: nat) | JobPar(idx: nat) | JobDisk(idx: nat)
    | QueuedBlob(i: nat) | QueuedPar(i: nat) | GroupBlob(i: nat) | GroupPar(i: nat)

  predicate HeldAt(s: State, p: Place, id: nat) {
    var jobs, acc := s.flow.jobs, s.par.acc;
    match p
    case PoolPlace(k) => id in Pool(s.mem, k)
    case ProducerPlace => s.prod.buf == Some(id)
    case JobPlain(idx) => idx < |jobs| && jobs[idx].plain == Some(id)
    case JobBlob(idx) => idx < |jobs| && jobs[idx].blob == Some(id)
    case JobPar(idx) => idx < |jobs| && jobs[idx].par == Some(id)
    case JobDisk(idx) => idx < |jobs| && jobs[idx].disk == Some(id)
    case QueuedBlob(i) => i < |s.parCh| && s.parCh[i].DataMsg? && s.parCh[i].e.blob == id
    case QueuedPar(i) => i < |s.parCh| && s.parCh[i].DataMsg? && s.parCh[i].e.par == id
    case GroupBlob(i) => i < |acc| && acc[i].blob == id
    case GroupPar(i) => i < |acc| && acc[i].par == id
  }

  /** The owner a buffer at this place is marked with. */
  function OwnerAt(s: State, p: Place): Owner
    requires exists id: nat :: HeldAt(s, p, id)
  {
    match p
    case PoolPlace(k) => Pooled(k)
    case ProducerPlace => Filling
    case JobPlain(idx) => PlainOf(idx)
    case JobBlob(idx) => BlobOf(idx)
    case JobPar(idx) => ParOf(idx)
    case JobDisk(idx) => DiskOf(idx)
    case QueuedBlob(i) => BlobOf(s.parCh[i].e.idx)
    case QueuedPar(i) => ParOf(s.parCh[i].e.idx)
    case GroupBlob(i) => BlobOf(s.par.acc[i].idx)
    case GroupPar(i) => ParOf(s.par.acc[i].idx)
  }

  lemma HeldIsOwned(c: Config, s: State, p: Place, id: nat)
    requires Memory(c, s) && HeldAt(s, p, id)
    ensures id < |s.mem.cells| && s.mem.cells[id].owner == OwnerAt(s, p)
  {
    hide MemOk, JobsHave, EntriesHave, Ascending, Stages;
    if IsEntry(p) {
      EntryOwner(c, s, p, id);
    } else if p.PoolPlace? {
      PoolOwner(s, p.k, id);
    } else if !p.ProducerPlace? {
      JobOwner(c, s, p, id);
    }
  }

  lemma PoolOwner(s: State, k: Kind, id: nat)
    requires MemOk(s.mem) && id in Pool(s.mem, k)
    ensures id < |s.mem.cells| && s.mem.cells[id].owner == Pooled(k)
  {
    hide Pool;
    assert PoolOk(s.mem, k);
  }

  lemma JobOwner(c: Config, s: State, p: Place, id: nat)
    requires JobsHave(c, s.mem, s.flow.jobs) && HeldAt(s, p, id)
    requires p.JobPlain? || p.JobBlob? || p.JobPar? || p.JobDisk?
    ensures id < |s.mem.cells| && s.mem.cells[id].owner == OwnerAt(s, p)
  {
    hide Encodable;
    assert JobHas(c, s.mem, s.flow.jobs[p.idx], p.idx);
  }

  lemma EntryCells(c: Config, m: Mem, jobs: seq<Job>, e: Entry)
    requires EntryHas(c, m, jobs, e)
    ensures e.blob < |m.cells| && e.par < |m.cells|
    ensures m.cells[e.blob].owner == BlobOf(e.idx) && m.cells[e.par].owner == ParOf(e.idx)
  {
    hide Encodable;
  }

  lemma EntryOwner(c: Config, s: State, p: Place, id: nat)
    requires EntriesHave(c, s.mem, s.flow.jobs, s.par.acc, s.parCh) && HeldAt(s, p, id) && IsEntry(p)
    ensures id < |s.mem.cells| && s.mem.cells[id].owner == OwnerAt(s, p)
  {
    hide EntryHas;
    match p {
      case QueuedBlob(i) => EntryCells(c, s.mem, s.flow.jobs, s.parCh[i].e);
      case QueuedPar(i) => EntryCells(c, s.mem, s.flow.jobs, s.parCh[i].e);
      case GroupBlob(i) => EntryCells(c, s.mem, s.flow.jobs, s.par.acc[i]);
      case GroupPar(i) => EntryCells(c, s.mem, s.flow.jobs, s.par.acc[i]);
    }
  }

  /** In every state of every run, with or without failures, a buffer is at no
      more than one place, and a pool lists it once. */
  lemma NoBufferShared(c: Config, run: seq<Action>, p: Place, q: Place, id: nat)
    requires ConfigOk(c) && IsRun(c, run) && HeldAt(After(c, run), p, id) && HeldAt(After(c, run), q, id)
    ensures p == q
    ensures p.PoolPlace? ==> Pool(After(c, run).mem, p.k)[id] == 1
  {
    RunsKeepInvariant(c, run);
    SharingExcluded(c, After(c, run), p, q, id);
  }

  predicate IsEntry(p: Place) {
    p.QueuedBlob? || p.QueuedPar? || p.GroupBlob? || p.GroupPar?
  }

  function EntryIdx(s: State, p: Place): nat
    requires IsEntry(p) && exists id: nat :: HeldAt(s, p, id)
  {
    match p
    case QueuedBlob(i) => s.parCh[i].e.idx
    case QueuedPar(i) => s.parCh[i].e.idx
    case GroupBlob(i) => s.par.acc[i].idx
    case GroupPar(i) => s.par.acc[i].idx
  }

  /** Two entry places of the same job and the same kind are one. */
  lemma EntryPlaces(s: State, p: Place, q: Place, id: nat)
    requires Ascending(s.par.acc, s.parCh, SentCount(s.wr)) && HeldAt(s, p, id) && HeldAt(s, q, id)
    requires IsEntry(p) && IsEntry(q) && EntryIdx(s, p) == EntryIdx(s, q)
    requires (p.QueuedBlob? || p.GroupBlob?) <==> (q.QueuedBlob? || q.GroupBlob?)
    ensures p == q
  {}

  lemma EntryNotJob(c: Config, s: State, p: Place, id: nat)
    requires EntriesHave(c, s.mem, s.flow.jobs, s.par.acc, s.parCh) && HeldAt(s, p, id) && IsEntry(p)
    ensures EntryIdx(s, p) < |s.flow.jobs|
    ensures s.flow.jobs[EntryIdx(s, p)].blob.None? && s.flow.jobs[EntryIdx(s, p)].par.None?
  {
    hide Has, Encodable;
    match p {
      case QueuedBlob(i) => assert EntryHas(c, s.mem, s.flow.jobs, s.parCh[i].e);
      case QueuedPar(i) => assert EntryHas(c, s.mem, s.flow.jobs, s.parCh[i].e);
      case GroupBlob(i) => assert EntryHas(c, s.mem, s.flow.jobs, s.par.acc[i]);
      case GroupPar(i) => assert EntryHas(c, s.mem, s.flow.jobs, s.par.acc[i]);
    }
  }

  /** An entry's place determines its owner mark, and a job's place excludes it. */
  lemma EntryOrNot(c: Config, s: State, p: Place, q: Place, id: nat)
    requires Memory(c, s) && HeldAt(s, p, id) && HeldAt(s, q, id) && OwnerAt(s, p) == OwnerAt(s, q) && IsEntry(p)
    ensures p == q
  {
    hide MemOk, JobsHave, Stages, EntriesHave, Ascending, Pool;
    EntryNotJob(c, s, p, id);
    if IsEntry(q) {
      EntryPlaces(s, p, q, id);
    }
  }

  lemma SharingExcluded(c: Config, s: State, p: Place, q: Place, id: nat)
    requires Memory(c, s) && HeldAt(s, p, id) && HeldAt(s, q, id)
    ensures p == q
    ensures p.PoolPlace? ==> Pool(s.mem, p.k)[id] == 1
  {
    HeldIsOwned(c, s, p, id);
    HeldIsOwned(c, s, q, id);
    if p.PoolPlace? {
      assert PoolOk(s.mem, p.k);
    }
    hide Memory, Pool;
    if IsEntry(p) {
      EntryOrNot(c, s, p, q, id);
    } else if IsEntry(q) {
      EntryOrNot(c, s, q, p, id);
    } else {
      SamePlace(s, p, q, id);
    }
  }

  lemma SamePlace(s: State, p: Place, q: Place, id: nat)
    requires HeldAt(s, p, id) && HeldAt(s, q, id) && OwnerAt(s, p) == OwnerAt(s, q) && !IsEntry(p) && !IsEntry(q)
    ensures p == q
  {
    hide HeldAt;
  }

  /** What the parity loop reads is what the worker encoded, for as long as the
      loop holds the chunk. */
  lemma ParityReadsItsChunks(c: Config, run: seq<Action>, i: nat)
    requires ConfigOk(c) && IsRun(c, run) && i < |After(c, run).par.acc|
    ensures
      var s := After(c, run);
      var e := s.par.acc[i];
      && e.idx < |s.flow.jobs| && e.blob < |s.mem.cells| && e.par < |s.mem.cells|
      && Fits(c.cr, c.pfx, e.idx, s.flow.jobs[e.idx].chunk)
      && s.mem.cells[e.blob].bytes == DataArea(c.cr, c.pfx, e.idx, s.flow.jobs[e.idx].chunk)
      && s.mem.cells[e.par].bytes == ParityArea(c.cr, c.pfx, e.idx, s.flow.jobs[e.idx].chunk)
  {
    RunsKeepInvariant(c, run);
    hide Order, Queue, Text, File, MemOk, JobsHave, Stages, Ascending, DataArea, ParityArea, Fits;
    var s := After(c, run);
    assert EntryHas(c, s.mem, s.flow.jobs, s.par.acc[i]);
  }

  // ---------- errors ----------

  /** When the write loop reaches its check for leftover jobs, none is left. */
  lemma NoOrderingLoss(c: Config, run: seq<Action>)
    requires ConfigOk(c) && IsRun(c, run) && WriterCan(c, After(c, run), Finish)
    ensures After(c, run).wr.pending == {} && After(c, run).wr.next == |After(c, run).flow.jobs|
  {
    RunsKeepInvariant(c, run);
    hide Queue, Memory, Text, File, Size;
    NothingLeft(c, After(c, run));
  }

  /** Whatever flush the parity loop receives, it has as many blobs as the flush
      names, and the file-level code of that size exists. */
  lemma NoGroupMismatch(c: Config, run: seq<Action>)
    requires ConfigOk(c) && IsRun(c, run)
    ensures
      var s := After(c, run);
      s.par.pc.QRecv? && s.parCh != [] && s.parCh[0].FlushMsg? ==>
        |s.par.acc| == s.parCh[0].k && FileCodeExists(s.parCh[0].k, c.spec.ParityCountFor(s.parCh[0].k))
  {
    RunsKeepInvariant(c, run);
    hide Order, Queue, Memory, Text, File, Size, FileCodeExists;
    var s := After(c, run);
    if s.par.pc.QRecv? && s.parCh != [] && s.parCh[0].FlushMsg? {
      FlushIsRight(c, s);
    }
  }

  /** The sticky error is set exactly when an encode, a data write or a parity
      write failed, and a returned pipeline has consumed every job it issued. */
  lemma ErrorMeansFailure(c: Config, run: seq<Action>)
    requires ConfigOk(c) && IsRun(c, run)
    ensures After(c, run).err <==> After(c, run).failed
    ensures After(c, run).prod.pc.Returned? ==>
      var s := After(c, run);
      && s.wr.next == |s.flow.jobs| && s.wr.pending == {} && s.flow.encodeCh == [] && s.flow.outCh == [] && s.parCh == []
      && forall i :: 0 <= i < |s.flow.loc| ==> s.flow.loc[i].Consumed?
  {
    RunsKeepInvariant(c, run);
    hide Memory, Text, File, Size, QueueOk, EncodeQueue, WorkerHolds, OutQueue, PendingSet;
  }

  // ---------- what a finished run has written ----------

  lemma GroupsOf(chunkCount: nat, done: nat, left: nat)
    requires done * FILE_GROUP_CHUNKS + left == chunkCount && left < FILE_GROUP_CHUNKS
    ensures GroupCount(chunkCount) == if left > 0 then done + 1 else done
  {}

  lemma AllGroupsDone(c: Config, s: State)
    requires Order(c, s) && Queue(c, s) && Text(c, s) && s.prod.pc.Returned? && !s.failed
    ensures WrittenCount(s.wr) == |PlanChunks(c)| == |s.flow.jobs|
    ensures s.par.pg == PlanVault(c).Groups() && s.par.pc.QDone?
  {
    JobsArePlanned(c, s);
    hide Text, PlanChunks, EncodeQueue, WorkerHolds, OutQueue, PendingSet;
    assert ReadAll(Head(s.par), s.parCh) == Head(s.par);
    GroupsOf(|PlanChunks(c)|, s.wr.groupsDone, s.wr.groupChunks);
  }

  /** If Drain returns no error and the two loops never raced for the cursor, the
      run has cut the plaintext as a sequential encoder would, reported its
      length, and left exactly that encoder's blobs in the file. */
  lemma DrainRefinesSequential(c: Config, run: seq<Action>)
    requires ConfigOk(c) && IsRun(c, run) && After(c, run).prod.pc.Returned?
    requires !After(c, run).err && !After(c, run).disk.raced
    ensures Plan(PlanVault(c), c.pfx, PlanChunks(c))
    ensures
      var s, v := After(c, run), PlanVault(c);
      && Chunks(s.flow.jobs) == PlanChunks(c) && s.wr.plainSize == |Concat(c.calls)|
      && |s.disk.file| == v.Total() * BLOB_DISK_SIZE
      && ImageOf(s.disk.file, v.Total()) == SeqImage(v, c.pfx, PlanChunks(c))
  {
    RunsKeepInvariant(c, run);
    ErrorMeansFailure(c, run);
    PlanOk(c);
    SequentialFile(c, After(c, run));
    SequentialSize(c, After(c, run));
  }

  lemma SequentialSize(c: Config, s: State)
    requires Order(c, s) && Queue(c, s) && Text(c, s) && Size(s) && s.prod.pc.Returned? && !s.failed
    ensures Chunks(s.flow.jobs) == PlanChunks(c) && s.wr.plainSize == |Concat(c.calls)|
  {
    hide Order, Queue, ConfigOk, PlanVault;
    AllGroupsDone(c, s);
    JobsArePlanned(c, s);
    assert Chunks(s.flow.jobs) == PlanChunks(c);
    SizeIsLength(s.flow.jobs, |s.flow.jobs|);
    assert Chunks(s.flow.jobs)[..|s.flow.jobs|] == PlanChunks(c);
    ChunksAreCut(Concat(c.calls));
  }

  lemma SequentialFile(c: Config, s: State)
    requires ConfigOk(c) && Order(c, s) && Queue(c, s) && Text(c, s) && File(c, s) && s.prod.pc.Returned? && !s.failed && !s.disk.raced
    requires Plan(PlanVault(c), c.pfx, PlanChunks(c))
    ensures |s.disk.file| == PlanVault(c).Total() * BLOB_DISK_SIZE
    ensures ImageOf(s.disk.file, PlanVault(c).Total()) == SeqImage(PlanVault(c), c.pfx, PlanChunks(c))
  {
    AllGroupsDone(c, s);
    hide Order, Queue, Text, ConfigOk, PlanChunks, Plan, LogRight, Apply, Puts, OutOk, BusyOk, CursorOk;
    hide InLog, SeqImage, ImageOf, FlushesOk;
    var v := PlanVault(c);
    forall l | Due(v, l)
      ensures InLog(s.disk.log, l)
    {
    }
    CompleteLog(v, c.pfx, PlanChunks(c), s.disk.log);
  }

  /** With or without failures, the chunks of a returned pipeline are the cut of
      the plaintext it accepted, wherever the Write calls were split. */
  lemma ChunksIndependentOfWrites(c: Config, run: seq<Action>)
    requires ConfigOk(c) && IsRun(c, run) && After(c, run).prod.pc.Returned?
    ensures
      var s := After(c, run);
      && Chunks(s.flow.jobs) == ChunksOf(s.prod.taken) && Concat(Chunks(s.flow.jobs)) == s.prod.taken
      && WellCut(Chunks(s.flow.jobs)) && (!s.failed ==> s.prod.taken == Concat(c.calls))
  {
    RunsKeepInvariant(c, run);
    hide Order, Queue, Memory, File, Size, Text, After, IsRun;
    var s := After(c, run);
    TextAtEnd(c.calls, s.prod, BufText(s.mem, s.prod.buf), Chunks(s.flow.jobs), s.failed) by { hide *; TextUnfolds(c, s); }
  }

  lemma TextUnfolds(c: Config, s: State)
    requires Text(c, s)
    ensures TextOk(c.calls, s.prod, BufText(s.mem, s.prod.buf), Chunks(s.flow.jobs), s.failed)
  {}

  lemma TextAtEnd(calls: seq<Bytes>, prod: Prod, text: Bytes, chunks: seq<Bytes>, failed: bool)
    requires TextOk(calls, prod, text, chunks, failed) && prod.pc.Returned?
    ensures chunks == ChunksOf(prod.taken) && Concat(chunks) == prod.taken && WellCut(chunks)
    ensures !failed ==> prod.taken == Concat(calls)
  {
    hide Concat, ChunksOf, WellCut;
    NoCalls(prod.calls);
    assert Concat(chunks) + [] + [] == Concat(chunks);
    CutIsUnique(chunks);
  }
}

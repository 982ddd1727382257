/** Who holds which buffer, and what is in it: no buffer has two holders, and
    none is recycled while its contents are still needed. */
module PipelineMemory {
  import opened Bytes
  import opened ErasureCode
  import opened Layout
  import opened Vault
  import opened Repair
  import opened Encoder
  import opened EncodeLoops
  import opened PipelineState
  import opened PipelineOrder

  // ---------- the memory by itself ----------

  /** A pool lists each of its buffers once, and only buffers that are its own. */
  ghost predicate PoolOk(m: Mem, k: Kind) {
    forall id :: id in Pool(m, k) ==> id < |m.cells| && m.cells[id].owner == Pooled(k) && Pool(m, k)[id] == 1
  }

  ghost predicate MemOk(m: Mem) {
    forall k :: PoolOk(m, k)
  }

  /** A step that touches only buffers of these owners. */
  ghost predicate Touches(m: Mem, n: Mem, owners: set<Owner>) {
    && |m.cells| <= |n.cells|
    && forall id :: 0 <= id < |m.cells| && m.cells[id].owner !in owners ==> n.cells[id] == m.cells[id]
  }

  /** A holder's buffer, if it has one: this content, marked as the holder's. */
  predicate Has(m: Mem, o: Option<nat>, cell: Cell) {
    o.Some? ==> o.value < |m.cells| && m.cells[o.value] == cell
  }

  lemma HasKept(m: Mem, n: Mem, owners: set<Owner>, o: Option<nat>, cell: Cell)
    requires Touches(m, n, owners) && Has(m, o, cell) && cell.owner !in owners
    ensures Has(n, o, cell)
  {}

  lemma PoolOfWith(m: Mem, k: Kind, p: multiset<nat>, k2: Kind)
    ensures Pool(WithPool(m, k, p), k2) == (if k2 == k then p else Pool(m, k2)) && WithPool(m, k, p).cells == m.cells
  {}

  /** A pool after a cell changed hands. */
  lemma PoolAfterSet(m: Mem, id: nat, cell: Cell, k: Kind)
    requires PoolOk(m, k) && id < |m.cells| && id !in Pool(m, k)
    ensures PoolOk(SetCell(m, id, cell), k)
  {
    assert Pool(SetCell(m, id, cell), k) == Pool(m, k);
  }

  lemma GetOk(m: Mem, k: Kind, id: nat, cell: Cell)
    requires MemOk(m) && CanGet(m, k, id) && !cell.owner.Pooled?
    ensures MemOk(GetBuf(m, k, id, cell)) && Touches(m, GetBuf(m, k, id, cell), {Pooled(k)})
    ensures id < |GetBuf(m, k, id, cell).cells| && GetBuf(m, k, id, cell).cells[id] == cell
  {
    hide Pool, WithPool;
    assert PoolOk(m, k);
    var n := GetBuf(m, k, id, cell);
    forall k2: Kind
      ensures PoolOk(n, k2)
    {
      assert PoolOk(m, k2);
      if id == |m.cells| {
        PoolAfterGrow(m, cell, k2);
      } else {
        PoolOfWith(m, k, Pool(m, k) - multiset{id}, k2);
        var p := WithPool(m, k, Pool(m, k) - multiset{id});
        assert PoolOk(p, k2);
        PoolAfterSet(p, id, cell, k2);
      }
    }
    if id < |m.cells| {
      PoolOfWith(m, k, Pool(m, k) - multiset{id}, k);
    }
  }

  lemma PoolAfterGrow(m: Mem, cell: Cell, k: Kind)
    requires PoolOk(m, k)
    ensures PoolOk(m.(cells := m.cells + [cell]), k)
  {
    assert Pool(m.(cells := m.cells + [cell]), k) == Pool(m, k);
  }

  lemma SetOk(m: Mem, id: nat, cell: Cell)
    requires MemOk(m) && id < |m.cells| && !m.cells[id].owner.Pooled? && !cell.owner.Pooled?
    ensures MemOk(SetCell(m, id, cell)) && Touches(m, SetCell(m, id, cell), {m.cells[id].owner})
  {
    forall k
      ensures PoolOk(SetCell(m, id, cell), k)
    {
      assert PoolOk(m, k);
      PoolAfterSet(m, id, cell, k);
    }
  }

  /** Putting back a buffer that no pool lists. */
  lemma PutOk(m: Mem, k: Kind, id: nat)
    requires MemOk(m) && id < |m.cells| && !m.cells[id].owner.Pooled?
    ensures forall k2 :: id !in Pool(m, k2)
    ensures MemOk(PutBack(m, k, id)) && Touches(m, PutBack(m, k, id), {m.cells[id].owner})
  {
    hide Pool, WithPool;
    forall k2
      ensures id !in Pool(m, k2)
    {
      assert PoolOk(m, k2);
    }
    var p := Pool(m, k) + multiset{id};
    var n := PutBack(m, k, id);
    forall k2
      ensures PoolOk(n, k2)
    {
      assert PoolOk(m, k2);
      PoolOfWith(m, k, p, k2);
      PoolOfSet(WithPool(m, k, p), id, m.cells[id].(owner := Pooled(k)), k2);
    }
    PoolOfWith(m, k, p, k);
  }

  lemma PoolOfSet(m: Mem, id: nat, cell: Cell, k: Kind)
    requires id < |m.cells|
    ensures Pool(SetCell(m, id, cell), k) == Pool(m, k)
  {}

  lemma TouchesTrans(a: Mem, b: Mem, c: Mem, p: set<Owner>, q: set<Owner>)
    requires Touches(a, b, p) && Touches(b, c, q)
    ensures Touches(a, c, p + q)
  {}

  // ---------- the holders ----------

  function PlainCell(idx: nat, chunk: Bytes): Cell {
    Cell(chunk, PlainOf(idx))
  }

  predicate Encodable(c: Config, idx: nat, chunk: Bytes) {
    |c.pfx| == 4 && Fits(c.cr, c.pfx, idx, chunk)
  }

  function BlobCell(c: Config, idx: nat, chunk: Bytes): Cell {
    Cell(if Encodable(c, idx, chunk) then DataArea(c.cr, c.pfx, idx, chunk) else [], BlobOf(idx))
  }

  function ParCell(c: Config, idx: nat, chunk: Bytes): Cell {
    Cell(if Encodable(c, idx, chunk) then ParityArea(c.cr, c.pfx, idx, chunk) else [], ParOf(idx))
  }

  function DiskCell(c: Config, idx: nat, chunk: Bytes): Cell {
    Cell(if Encodable(c, idx, chunk) then BlobBytes(ChunkBlob(c.cr, c.pfx, idx, chunk)) else [], DiskOf(idx))
  }

  predicate JobHas(c: Config, m: Mem, j: Job, idx: nat) {
    && Has(m, j.plain, PlainCell(idx, j.chunk)) && Has(m, j.blob, BlobCell(c, idx, j.chunk))
    && Has(m, j.par, ParCell(c, idx, j.chunk)) && Has(m, j.disk, DiskCell(c, idx, j.chunk))
    && (j.blob.Some? || j.par.Some? || j.disk.Some? ==> Encodable(c, idx, j.chunk))
  }

  predicate JobsHave(c: Config, m: Mem, jobs: seq<Job>) {
    forall idx :: 0 <= idx < |jobs| ==> JobHas(c, m, jobs[idx], idx)
  }

  /** A message or accumulated entry holds the two buffers its job gave up. */
  predicate EntryHas(c: Config, m: Mem, jobs: seq<Job>, e: Entry) {
    && e.idx < |jobs| && jobs[e.idx].blob.None? && jobs[e.idx].par.None? && Encodable(c, e.idx, jobs[e.idx].chunk)
    && Has(m, Some(e.blob), BlobCell(c, e.idx, jobs[e.idx].chunk))
    && Has(m, Some(e.par), ParCell(c, e.idx, jobs[e.idx].chunk))
  }

  predicate EntriesHave(c: Config, m: Mem, jobs: seq<Job>, acc: seq<Entry>, parCh: seq<Msg>) {
    && (forall i :: 0 <= i < |acc| ==> EntryHas(c, m, jobs, acc[i]))
    && (forall i :: 0 <= i < |parCh| && parCh[i].DataMsg? ==> EntryHas(c, m, jobs, parCh[i].e))
  }

  /** Jobs given to the parity loop so far. */
  function SentCount(w: Wr): nat {
    if w.pc.WSendFlush? || w.pc.WRecycle? then w.next + 1 else w.next
  }

  /** Entries are of different jobs, in the order they were given. */
  predicate Ascending(acc: seq<Entry>, parCh: seq<Msg>, bound: nat) {
    && (forall i :: 0 <= i < |acc| ==> acc[i].idx < bound)
    && (forall i :: 0 <= i < |parCh| && parCh[i].DataMsg? ==> parCh[i].e.idx < bound)
    && (forall i, j :: 0 <= i < j < |acc| ==> acc[i].idx < acc[j].idx)
    && (forall i, j :: 0 <= i < |acc| && 0 <= j < |parCh| && parCh[j].DataMsg? ==> acc[i].idx < parCh[j].e.idx)
    && (forall i, j :: 0 <= i < j < |parCh| && parCh[i].DataMsg? && parCh[j].DataMsg? ==> parCh[i].e.idx < parCh[j].e.idx)
  }

  // ---------- what a job holds at each place ----------

  predicate Unencoded(j: Job) {
    j.plain.Some? && j.blob.None? && j.par.None? && j.disk.None? && !j.failed
  }

  predicate Processed(j: Job) {
    if j.failed then j.blob.None? && j.par.None? && j.disk.None?
    else j.plain.None? && j.blob.Some? && j.par.Some? && j.disk.Some?
  }

  predicate InStage(j: Job, l: Loc, workers: seq<WorkerPc>, pc: WriterPc) {
    match l
    case InEncode => Unencoded(j)
    case AtWorker(w) => w < |workers| && if workers[w].Handing? then Processed(j) else Unencoded(j)
    case InOut => Processed(j)
    case InPending => Processed(j)
    case InHand =>
      (pc.WSeek? || pc.WWrite? || pc.WSendBlob? ==> Processed(j) && !j.failed)
      && (pc.WSendFlush? ==> j.blob.None? && j.par.None?)
    case Consumed => j.plain.None? && j.blob.None? && j.par.None? && j.disk.None?
  }

  predicate Stages(f: Flow, pc: WriterPc) {
    |f.jobs| == |f.loc| && forall idx :: 0 <= idx < |f.jobs| ==> InStage(f.jobs[idx], f.loc[idx], f.workers, pc)
  }

  predicate BufHeld(m: Mem, buf: Option<nat>) {
    buf.Some? ==> buf.value < |m.cells| && m.cells[buf.value].owner == Filling
  }

  ghost predicate Memory(c: Config, s: State) {
    && MemOk(s.mem) && BufHeld(s.mem, s.prod.buf)
    && JobsHave(c, s.mem, s.flow.jobs) && Stages(s.flow, s.wr.pc)
    && EntriesHave(c, s.mem, s.flow.jobs, s.par.acc, s.parCh)
    && Ascending(s.par.acc, s.parCh, SentCount(s.wr))
  }

  lemma MemoryInit(c: Config)
    ensures Memory(c, Init(c))
  {}

  // ---------- frames ----------

  lemma JobsKept(c: Config, m: Mem, n: Mem, owners: set<Owner>, jobs: seq<Job>)
    requires JobsHave(c, m, jobs) && Touches(m, n, owners)
    requires forall i: nat :: PlainOf(i) !in owners && BlobOf(i) !in owners && ParOf(i) !in owners && DiskOf(i) !in owners
    ensures JobsHave(c, n, jobs)
  {
    forall idx | 0 <= idx < |jobs|
      ensures JobHas(c, n, jobs[idx], idx)
    {
      JobKept(c, m, n, owners, jobs[idx], idx);
    }
  }

  lemma JobKept(c: Config, m: Mem, n: Mem, owners: set<Owner>, j: Job, idx: nat)
    requires JobHas(c, m, j, idx) && Touches(m, n, owners)
    requires PlainOf(idx) !in owners && BlobOf(idx) !in owners && ParOf(idx) !in owners && DiskOf(idx) !in owners
    ensures JobHas(c, n, j, idx)
  {
    hide Encodable, Touches, Has;
    HasKept(m, n, owners, j.plain, PlainCell(idx, j.chunk));
    HasKept(m, n, owners, j.blob, BlobCell(c, idx, j.chunk));
    HasKept(m, n, owners, j.par, ParCell(c, idx, j.chunk));
    HasKept(m, n, owners, j.disk, DiskCell(c, idx, j.chunk));
  }

  lemma EntryKept(c: Config, m: Mem, n: Mem, owners: set<Owner>, jobs: seq<Job>, e: Entry)
    requires EntryHas(c, m, jobs, e) && Touches(m, n, owners) && BlobOf(e.idx) !in owners && ParOf(e.idx) !in owners
    ensures EntryHas(c, n, jobs, e)
  {
    hide Encodable, Touches, Has;
    HasKept(m, n, owners, Some(e.blob), BlobCell(c, e.idx, jobs[e.idx].chunk));
    HasKept(m, n, owners, Some(e.par), ParCell(c, e.idx, jobs[e.idx].chunk));
  }

  lemma EntriesKept(c: Config, m: Mem, n: Mem, owners: set<Owner>, jobs: seq<Job>, acc: seq<Entry>, parCh: seq<Msg>)
    requires EntriesHave(c, m, jobs, acc, parCh) && Touches(m, n, owners)
    requires forall i: nat :: BlobOf(i) !in owners && ParOf(i) !in owners
    ensures EntriesHave(c, n, jobs, acc, parCh)
  {
    hide EntryHas;
    forall i | 0 <= i < |acc|
      ensures EntryHas(c, n, jobs, acc[i])
    {
      EntryKept(c, m, n, owners, jobs, acc[i]);
    }
    forall i | 0 <= i < |parCh| && parCh[i].DataMsg?
      ensures EntryHas(c, n, jobs, parCh[i].e)
    {
      EntryKept(c, m, n, owners, jobs, parCh[i].e);
    }
  }

  /** Jobs given to the parity loop keep their chunk and stay without buffers. */
  lemma EntriesKeepJobs(c: Config, m: Mem, jobs: seq<Job>, later: seq<Job>, acc: seq<Entry>, parCh: seq<Msg>, bound: nat)
    requires EntriesHave(c, m, jobs, acc, parCh) && Ascending(acc, parCh, bound) && |jobs| <= |later|
    requires forall i :: 0 <= i < |jobs| && i < bound && jobs[i].blob.None? && jobs[i].par.None? ==>
      later[i].chunk == jobs[i].chunk && later[i].blob.None? && later[i].par.None?
    ensures EntriesHave(c, m, later, acc, parCh)
  {
    hide Has, Encodable;
  }

  // ---------- producer ----------

  lemma MemoryProducer(c: Config, s: State, a: ProducerAct)
    requires Order(c, s) && Memory(c, s) && ProducerCan(c, s, a)
    ensures Memory(c, ProducerDo(c, s, a))
  {
    match a {
      case Copy(id) => MemoryCopy(c, s, id);
      case Enqueue => MemoryEnqueue(c, s, Copying(s.prod.pc.rest));
      case EnqueueLast => MemoryEnqueue(c, s, CloseEncode);
      case Drain => MemoryDrain(c, s);
      case _ => MemoryProducerStays(c, s, a);
    }
  }

  lemma MemoryProducerStays(c: Config, s: State, a: ProducerAct)
    requires Memory(c, s) && ProducerCan(c, s, a) && !a.Copy? && !a.Enqueue? && !a.EnqueueLast? && !a.Drain?
    ensures Memory(c, ProducerDo(c, s, a))
  {
    hide MemOk, JobsHave, Stages, EntryHas;
  }

  lemma MemoryCopy(c: Config, s: State, id: nat)
    requires Memory(c, s) && ProducerCan(c, s, Copy(id))
    ensures Memory(c, ProducerDo(c, s, Copy(id)))
  {
    var t := ProducerDo(c, s, Copy(id));
    var cell := Cell(BufText(s.mem, s.prod.buf) + s.prod.pc.rest[..CopyLength(s.mem, s.prod.buf, s.prod.pc.rest)], Filling);
    var owners := if s.prod.buf.Some? then {Filling} else {Pooled(PlainBuf)};
    if s.prod.buf.Some? {
      SetOk(s.mem, id, cell);
    } else {
      GetOk(s.mem, PlainBuf, id, cell);
    }
    JobsKept(c, s.mem, t.mem, owners, s.flow.jobs);
    EntriesKept(c, s.mem, t.mem, owners, s.flow.jobs, s.par.acc, s.parCh);
    hide MemOk, JobsHave, Stages, EntriesHave, Ascending, Touches, CopyLength, BufText;
  }

  lemma MemoryEnqueue(c: Config, s: State, pc: ProducerPc)
    requires Memory(c, s) && s.prod.buf.Some? && BufValid(s.mem, s.prod.buf)
    ensures Memory(c, Enqueued(s, pc))
  {
    var t, id, idx := Enqueued(s, pc), s.prod.buf.value, |s.flow.jobs|;
    SetOk(s.mem, id, s.mem.cells[id].(owner := PlainOf(idx)));
    JobsKept(c, s.mem, t.mem, {Filling}, s.flow.jobs);
    EntriesKept(c, s.mem, t.mem, {Filling}, s.flow.jobs, s.par.acc, s.parCh);
    EntriesKeepJobs(c, t.mem, s.flow.jobs, t.flow.jobs, s.par.acc, s.parCh, SentCount(s.wr));
    assert JobHas(c, t.mem, t.flow.jobs[idx], idx);
    hide MemOk, EntriesHave, Ascending, Touches, JobHas;
  }

  lemma MemoryDrain(c: Config, s: State)
    requires Memory(c, s) && ProducerCan(c, s, Drain)
    ensures Memory(c, ProducerDo(c, s, Drain))
  {
    var t := ProducerDo(c, s, Drain);
    if s.prod.buf.Some? && BufText(s.mem, s.prod.buf) == [] {
      PutOk(s.mem, PlainBuf, s.prod.buf.value);
      JobsKept(c, s.mem, t.mem, {Filling}, s.flow.jobs);
      EntriesKept(c, s.mem, t.mem, {Filling}, s.flow.jobs, s.par.acc, s.parCh);
    }
    hide MemOk, JobsHave, Stages, EntriesHave, Ascending, Touches;
  }

  // ---------- worker ----------

  /** Stages after one worker's step: only its own job's stage depends on it. */
  lemma StagesWorker(c: Config, s: State, w: nat, f: Flow, idx: nat)
    requires Order(c, s) && Stages(s.flow, s.wr.pc) && w < |s.flow.workers| && idx < |s.flow.jobs|
    requires |f.jobs| == |f.loc| == |s.flow.jobs| && |f.workers| == |s.flow.workers|
    requires Holding(s.flow.workers[w]) ==> s.flow.workers[w].idx == idx
    requires forall i :: 0 <= i < |f.jobs| && i != idx ==> f.jobs[i] == s.flow.jobs[i] && f.loc[i] == s.flow.loc[i]
    requires forall v :: 0 <= v < |f.workers| && v != w ==> f.workers[v] == s.flow.workers[v]
    requires InStage(f.jobs[idx], f.loc[idx], f.workers, s.wr.pc)
    ensures Stages(f, s.wr.pc)
  {
    hide EncodeQueue, OutQueue, PendingSet, Consumption, Phase;
    forall i | 0 <= i < |f.jobs|
      ensures InStage(f.jobs[i], f.loc[i], f.workers, s.wr.pc)
    {
      assert InStage(s.flow.jobs[i], s.flow.loc[i], s.flow.workers, s.wr.pc);
    }
  }

  lemma MemoryWorker(c: Config, s: State, w: nat, a: WorkerAct)
    requires Order(c, s) && Memory(c, s) && WorkerCan(c, s, w, a)
    ensures Memory(c, WorkerDo(c, s, w, a))
  {
    match a {
      case Take => MemoryTake(c, s, w);
      case CheckError => MemoryCheck(c, s, w, a);
      case EncodeFail => MemoryCheck(c, s, w, a);
      case EncodeOk(_, _, _) => MemoryEncode(c, s, w, a);
      case HandOver => MemoryHandOver(c, s, w);
      case Exit => MemoryExit(c, s, w);
    }
  }

  lemma MemoryTake(c: Config, s: State, w: nat)
    requires Order(c, s) && Memory(c, s) && WorkerCan(c, s, w, Take)
    ensures Memory(c, WorkerDo(c, s, w, Take))
  {
    hide MemOk, JobsHave, EntriesHave, Ascending, Phase, OutQueue, PendingSet, WorkerHolds, CanEncode;
    var idx := s.flow.encodeCh[0];
    assert s.flow.loc[idx].InEncode?;
    assert InStage(s.flow.jobs[idx], s.flow.loc[idx], s.flow.workers, s.wr.pc);
    StagesWorker(c, s, w, WorkerDo(c, s, w, Take).flow, idx);
    hide Stages, Where;
  }

  lemma WorkerJob(c: Config, s: State, w: nat)
    requires Order(c, s) && Memory(c, s) && w < |s.flow.workers| && Holding(s.flow.workers[w])
    ensures
      var idx := s.flow.workers[w].idx;
      && idx < |s.flow.jobs| && s.flow.loc[idx] == AtWorker(w) && SentCount(s.wr) <= idx
      && (if s.flow.workers[w].Handing? then Processed(s.flow.jobs[idx]) else Unencoded(s.flow.jobs[idx]))
      && JobHas(c, s.mem, s.flow.jobs[idx], idx)
  {
    hide EncodeQueue, OutQueue, PendingSet, Phase, MemOk, EntriesHave, Ascending, JobHas;
    var idx := s.flow.workers[w].idx;
    assert InStage(s.flow.jobs[idx], s.flow.loc[idx], s.flow.workers, s.wr.pc);
  }

  /** A job that fails, or that goes on to be encoded. */
  lemma MemoryCheck(c: Config, s: State, w: nat, a: WorkerAct)
    requires Order(c, s) && Memory(c, s) && WorkerCan(c, s, w, a) && (a.CheckError? || a.EncodeFail?)
    ensures Memory(c, WorkerDo(c, s, w, a))
  {
    hide MemOk, EntriesHave, Ascending, Where, Phase, Encodable, Has, CanEncode, EncodedMem;
    var idx := s.flow.workers[w].idx;
    var t := WorkerDo(c, s, w, a);
    WorkerJob(c, s, w);
    StagesWorker(c, s, w, t.flow, idx);
    hide Stages;
    EntriesKeepJobs(c, s.mem, s.flow.jobs, t.flow.jobs, s.par.acc, s.parCh, SentCount(s.wr));
    assert JobHas(c, t.mem, t.flow.jobs[idx], idx);
    hide JobHas;
  }

  lemma MemoryHandOver(c: Config, s: State, w: nat)
    requires Order(c, s) && Memory(c, s) && WorkerCan(c, s, w, HandOver)
    ensures Memory(c, WorkerDo(c, s, w, HandOver))
  {
    WorkerJob(c, s, w);
    StagesWorker(c, s, w, WorkerDo(c, s, w, HandOver).flow, s.flow.workers[w].idx);
    hide MemOk, JobsHave, Stages, EntriesHave, Ascending, Where, Phase, JobHas;
  }

  lemma MemoryExit(c: Config, s: State, w: nat)
    requires Order(c, s) && Memory(c, s) && WorkerCan(c, s, w, Exit)
    ensures Memory(c, WorkerDo(c, s, w, Exit))
  {
    var f := WorkerDo(c, s, w, Exit).flow;
    forall i | 0 <= i < |f.jobs|
      ensures InStage(f.jobs[i], f.loc[i], f.workers, s.wr.pc)
    {
      assert InStage(s.flow.jobs[i], s.flow.loc[i], s.flow.workers, s.wr.pc);
    }
    hide MemOk, JobsHave, EntriesHave, Ascending, JobHas;
  }

  function PoolOwners(): set<Owner> {
    {Pooled(BlobBuf), Pooled(ParBuf), Pooled(DiskBuf)}
  }

  /** The three buffers an encode takes are different ones. */
  lemma TakenOk(m: Mem, blob: nat, par: nat, disk: nat)
    requires MemOk(m) && CanTake(m, blob, par, disk)
    ensures
      var n := Take3(m, blob, par, disk);
      && MemOk(n) && Touches(m, n, PoolOwners()) && blob != par && par != disk && blob != disk
      && n.cells[blob] == n.cells[par] == n.cells[disk] == Cell([], Taken)
  {
    hide GetBuf, MemOk;
    var cell := Cell([], Taken);
    GetOk(m, BlobBuf, blob, cell);
    var m1 := Take1(m, blob);
    GetOk(m1, ParBuf, par, cell);
    var m2 := Take2(m, blob, par);
    GetOk(m2, DiskBuf, disk, cell);
    var n := Take3(m, blob, par, disk);
    NotTaken(m1, ParBuf, par, blob);
    NotTaken(m2, DiskBuf, disk, blob);
    NotTaken(m2, DiskBuf, disk, par);
    TouchesTrans(m, m1, m2, {Pooled(BlobBuf)}, {Pooled(ParBuf)});
    TouchesTrans(m, m2, n, {Pooled(BlobBuf)} + {Pooled(ParBuf)}, {Pooled(DiskBuf)});
    assert {Pooled(BlobBuf)} + {Pooled(ParBuf)} + {Pooled(DiskBuf)} == PoolOwners();
  }

  lemma NotTaken(m: Mem, k: Kind, id: nat, other: nat)
    requires MemOk(m) && CanGet(m, k, id) && other < |m.cells| && !m.cells[other].owner.Pooled?
    ensures id != other
  {
    assert PoolOk(m, k);
  }

  function EncodeOwners(idx: nat): set<Owner> {
    PoolOwners() + {Taken} + {PlainOf(idx)}
  }

  /** After an encode the job's three buffers hold its data, parity and slots. */
  lemma EncodedOk(c: Config, s: State, idx: nat, blob: nat, par: nat, disk: nat)
    requires MemOk(s.mem) && CanEncode(c, s, idx, blob, par, disk) && JobHas(c, s.mem, s.flow.jobs[idx], idx)
    ensures
      var n, chunk := EncodedMem(c, s, idx, blob, par, disk), s.flow.jobs[idx].chunk;
      && MemOk(n) && Touches(s.mem, n, EncodeOwners(idx)) && Encodable(c, idx, chunk)
      && Has(n, Some(blob), BlobCell(c, idx, chunk)) && Has(n, Some(par), ParCell(c, idx, chunk))
      && Has(n, Some(disk), DiskCell(c, idx, chunk))
  {
    hide MemOk, Take3, CanTake, DataArea, ParityArea, BlobBytes, ChunkBlob, Fits, Pool, WithPool, SetCell;
    var id := s.flow.jobs[idx].plain.value;
    var plain := s.mem.cells[id].bytes;
    var m := Take3(s.mem, blob, par, disk);
    TakenOk(s.mem, blob, par, disk);
    assert m.cells[id] == s.mem.cells[id];
    var a := Cell(DataArea(c.cr, c.pfx, idx, plain), BlobOf(idx));
    var b := Cell(ParityArea(c.cr, c.pfx, idx, plain), ParOf(idx));
    var d := Cell(BlobBytes(ChunkBlob(c.cr, c.pfx, idx, plain)), DiskOf(idx));
    var m1 := SetCell(m, blob, a);
    SetOk(m, blob, a);
    CellsAfterSet(m, blob, a);
    var m2 := SetCell(m1, par, b);
    SetOk(m1, par, b);
    CellsAfterSet(m1, par, b);
    var m3 := SetCell(m2, disk, d);
    SetOk(m2, disk, d);
    CellsAfterSet(m2, disk, d);
    PutOk(m3, PlainBuf, id);
    TouchesTrans(m, m1, m2, {Taken}, {Taken});
    TouchesTrans(m, m2, m3, {Taken} + {Taken}, {Taken});
    TouchesTrans(s.mem, m, m3, PoolOwners(), {Taken} + {Taken} + {Taken});
    assert {Taken} + {Taken} + {Taken} == {Taken};
    TouchesTrans(s.mem, m3, EncodedMem(c, s, idx, blob, par, disk), PoolOwners() + {Taken}, {PlainOf(idx)});
  }

  lemma CellsAfterSet(m: Mem, id: nat, cell: Cell)
    requires id < |m.cells|
    ensures SetCell(m, id, cell).cells == m.cells[id := cell]
  {}

  lemma MemoryEncode(c: Config, s: State, w: nat, a: WorkerAct)
    requires Order(c, s) && Memory(c, s) && WorkerCan(c, s, w, a) && a.EncodeOk?
    ensures Memory(c, WorkerDo(c, s, w, a))
  {
    hide MemOk, Phase, Where, EntriesHave, Ascending, Touches, Encodable, EncodedMem;
    var idx := s.flow.workers[w].idx;
    var t := WorkerDo(c, s, w, a);
    WorkerJob(c, s, w);
    EncodedOk(c, s, idx, a.blob, a.par, a.disk);
    StagesWorker(c, s, w, t.flow, idx);
    EncodeKeeps(c, s.mem, t.mem, s.flow.jobs, idx, s.par.acc, s.parCh, SentCount(s.wr));
    EntriesKeepJobs(c, t.mem, s.flow.jobs, t.flow.jobs, s.par.acc, s.parCh, SentCount(s.wr));
    hide Stages, CanEncode, Has;
    forall i | 0 <= i < |t.flow.jobs|
      ensures JobHas(c, t.mem, t.flow.jobs[i], i)
    {
      if i == idx {
        NoPlain(t.mem, PlainCell(idx, s.flow.jobs[idx].chunk));
      }
    }
  }

  lemma NoPlain(m: Mem, cell: Cell)
    ensures Has(m, None, cell)
  {}

  lemma EncodeKeeps(c: Config, m: Mem, n: Mem, jobs: seq<Job>, idx: nat, acc: seq<Entry>, parCh: seq<Msg>, bound: nat)
    requires JobsHave(c, m, jobs) && EntriesHave(c, m, jobs, acc, parCh) && Touches(m, n, EncodeOwners(idx))
    ensures forall i :: 0 <= i < |jobs| && i != idx ==> JobHas(c, n, jobs[i], i)
    ensures EntriesHave(c, n, jobs, acc, parCh)
    ensures forall buf :: BufHeld(m, buf) ==> BufHeld(n, buf)
  {
    forall i | 0 <= i < |jobs| && i != idx
      ensures JobHas(c, n, jobs[i], i)
    {
      JobKept(c, m, n, EncodeOwners(idx), jobs[i], i);
    }
    EntriesKept(c, m, n, EncodeOwners(idx), jobs, acc, parCh);
  }

  // ---------- write loop ----------

  lemma AscendingGrows(acc: seq<Entry>, parCh: seq<Msg>, bound: nat, later: nat)
    requires Ascending(acc, parCh, bound) && bound <= later
    ensures Ascending(acc, parCh, later)
  {}

  /** Stages after a step of the write loop: only the job in hand depends on it. */
  lemma StagesWriter(s: State, f: Flow, pc: WriterPc, idx: nat)
    requires Stages(s.flow, s.wr.pc) && Consumption(s.flow.loc, s.wr.next, s.wr.pc)
    requires |f.jobs| == |f.loc| == |s.flow.jobs| && f.workers == s.flow.workers
    requires forall i :: 0 <= i < |f.jobs| && i != idx ==> f.jobs[i] == s.flow.jobs[i] && f.loc[i] == s.flow.loc[i]
    requires InHands(s.wr.pc) ==> idx == s.wr.next
    requires idx < |f.jobs| ==> InStage(f.jobs[idx], f.loc[idx], f.workers, pc)
    ensures Stages(f, pc)
  {
    forall i | 0 <= i < |f.jobs|
      ensures InStage(f.jobs[i], f.loc[i], f.workers, pc)
    {
      assert InStage(s.flow.jobs[i], s.flow.loc[i], s.flow.workers, s.wr.pc);
    }
  }

  lemma HandJob(c: Config, s: State)
    requires Order(c, s) && Memory(c, s) && InHands(s.wr.pc)
    ensures s.wr.next < |s.flow.jobs| && s.flow.loc[s.wr.next].InHand?
    ensures InStage(s.flow.jobs[s.wr.next], InHand, s.flow.workers, s.wr.pc)
    ensures JobHas(c, s.mem, s.flow.jobs[s.wr.next], s.wr.next)
  {
    hide EncodeQueue, OutQueue, PendingSet, Phase, MemOk, EntriesHave, Ascending, JobHas, WorkerHolds;
    assert InStage(s.flow.jobs[s.wr.next], s.flow.loc[s.wr.next], s.flow.workers, s.wr.pc);
  }

  lemma MemoryWriter(c: Config, s: State, a: WriterAct)
    requires Order(c, s) && Memory(c, s) && WriterCan(c, s, a)
    ensures Memory(c, WriterDo(c, s, a))
  {
    hide Order, Memory, WriterDo, WriterCan;
    match a {
      case Receive => MemoryReceive(c, s);
      case Scan => MemoryScan(c, s);
      case SendBlob => MemorySend(c, s);
      case Recycle => MemoryRecycle(c, s);
      case _ => MemoryWriterStays(c, s, a);
    }
  }

  lemma MemoryReceive(c: Config, s: State)
    requires Order(c, s) && Memory(c, s) && WriterCan(c, s, Receive)
    ensures Memory(c, WriterDo(c, s, Receive))
  {
    hide MemOk, JobsHave, EntriesHave, Ascending, Phase, EncodeQueue, PendingSet, WorkerHolds;
    var idx := s.flow.outCh[0];
    var t := WriterDo(c, s, Receive);
    assert s.flow.loc[idx].InOut?;
    assert InStage(s.flow.jobs[idx], s.flow.loc[idx], s.flow.workers, s.wr.pc);
    StagesWriter(s, t.flow, t.wr.pc, idx);
    hide Stages, Where, InStage;
  }

  lemma MemoryScan(c: Config, s: State)
    requires Order(c, s) && Memory(c, s) && WriterCan(c, s, Scan)
    ensures Memory(c, WriterDo(c, s, Scan))
  {
    hide MemOk, JobsHave, EntriesHave, Ascending, Phase, EncodeQueue, OutQueue, WorkerHolds;
    var t := WriterDo(c, s, Scan);
    if s.wr.next in s.wr.pending {
      assert s.flow.loc[s.wr.next].InPending?;
      assert InStage(s.flow.jobs[s.wr.next], s.flow.loc[s.wr.next], s.flow.workers, s.wr.pc);
      StagesWriter(s, t.flow, t.wr.pc, s.wr.next);
    } else {
      StagesWriter(s, t.flow, t.wr.pc, |s.flow.jobs|);
    }
    AscendingGrows(s.par.acc, s.parCh, SentCount(s.wr), SentCount(t.wr));
    hide Stages, Where;
  }

  lemma MemoryWriterStays(c: Config, s: State, a: WriterAct)
    requires Order(c, s) && Memory(c, s) && WriterCan(c, s, a)
    requires !a.Receive? && !a.Scan? && !a.SendBlob? && !a.Recycle?
    ensures Memory(c, WriterDo(c, s, a))
  {
    hide Written, Noted, EncodeQueue, PendingSet, WorkerHolds, OutQueue, Phase, MemOk, JobHas, EntryHas, DiskData, Pool;
    var t := WriterDo(c, s, a);
    if a.Finish? {
      StagesWriter(s, t.flow, t.wr.pc, |s.flow.jobs|);
    } else {
      HandJob(c, s);
      StagesWriter(s, t.flow, t.wr.pc, s.wr.next);
    }
    AscendingGrows(s.par.acc, s.parCh, SentCount(s.wr), SentCount(t.wr));
    hide JobsHave, Stages, Where, InStage;
    if a.SendFlush? {
      EntriesWithFlush(c, s.mem, s.flow.jobs, s.par.acc, s.parCh, s.wr.groupsDone, SentCount(t.wr));
    }
    hide EntriesHave, Ascending;
  }

  lemma EntriesWithFlush(c: Config, m: Mem, jobs: seq<Job>, acc: seq<Entry>, parCh: seq<Msg>, g: nat, bound: nat)
    requires EntriesHave(c, m, jobs, acc, parCh) && Ascending(acc, parCh, bound)
    ensures EntriesHave(c, m, jobs, acc, parCh + [FlushMsg(g, FILE_GROUP_CHUNKS)])
    ensures Ascending(acc, parCh + [FlushMsg(g, FILE_GROUP_CHUNKS)], bound)
  {
    hide EntryHas;
  }

  lemma MemorySend(c: Config, s: State)
    requires Order(c, s) && Memory(c, s) && WriterCan(c, s, SendBlob)
    ensures Memory(c, WriterDo(c, s, SendBlob))
  {
    hide Where, Phase, MemOk, JobsHave, EntriesHave, Ascending, Stages;
    StagesSend(c, s);
    JobsSend(c, s);
    EntriesSend(c, s);
  }

  lemma StagesSend(c: Config, s: State)
    requires Order(c, s) && Memory(c, s) && WriterCan(c, s, SendBlob)
    ensures Stages(WriterDo(c, s, SendBlob).flow, WriterDo(c, s, SendBlob).wr.pc)
  {
    hide EncodeQueue, PendingSet, WorkerHolds, OutQueue, Phase, MemOk, EntriesHave, Ascending, JobsHave, JobHas;
    var t := WriterDo(c, s, SendBlob);
    HandJob(c, s);
    StagesWriter(s, t.flow, t.wr.pc, s.wr.next);
  }

  lemma JobsSend(c: Config, s: State)
    requires Memory(c, s) && WriterCan(c, s, SendBlob)
    ensures JobsHave(c, s.mem, WriterDo(c, s, SendBlob).flow.jobs)
  {
    hide MemOk, EntriesHave, Ascending, Stages, Has, Encodable;
    var t, idx := WriterDo(c, s, SendBlob), s.wr.next;
    forall i | 0 <= i < |t.flow.jobs|
      ensures JobHas(c, t.mem, t.flow.jobs[i], i)
    {
      if i == idx {
        NoPlain(t.mem, BlobCell(c, idx, Hand(s).chunk));
        NoPlain(t.mem, ParCell(c, idx, Hand(s).chunk));
      }
    }
  }

  lemma EntriesSend(c: Config, s: State)
    requires Order(c, s) && Memory(c, s) && WriterCan(c, s, SendBlob)
    ensures
      var t := WriterDo(c, s, SendBlob);
      EntriesHave(c, t.mem, t.flow.jobs, t.par.acc, t.parCh) && Ascending(t.par.acc, t.parCh, SentCount(t.wr))
  {
    hide Where, Phase, MemOk, EntriesHave, Ascending, Has, Encodable, Stages;
    var t, idx := WriterDo(c, s, SendBlob), s.wr.next;
    var e := Entry(idx, Hand(s).blob.value, Hand(s).par.value);
    EntriesKeepJobs(c, s.mem, s.flow.jobs, t.flow.jobs, s.par.acc, s.parCh, SentCount(s.wr));
    SentEntry(c, s.mem, t.flow.jobs, Hand(s), e);
    EntriesWith(c, t.mem, t.flow.jobs, s.par.acc, s.parCh, e, SentCount(s.wr));
  }

  lemma SentEntry(c: Config, m: Mem, jobs: seq<Job>, j: Job, e: Entry)
    requires e.idx < |jobs| && JobHas(c, m, j, e.idx) && j.blob == Some(e.blob) && j.par == Some(e.par)
    requires jobs[e.idx] == j.(blob := None, par := None)
    ensures EntryHas(c, m, jobs, e)
  {
    hide Has, Encodable;
  }

  lemma EntriesWith(c: Config, m: Mem, jobs: seq<Job>, acc: seq<Entry>, parCh: seq<Msg>, e: Entry, bound: nat)
    requires EntriesHave(c, m, jobs, acc, parCh) && Ascending(acc, parCh, bound) && EntryHas(c, m, jobs, e) && e.idx == bound
    ensures EntriesHave(c, m, jobs, acc, parCh + [DataMsg(e)])
    ensures Ascending(acc, parCh + [DataMsg(e)], bound + 1)
  {
    hide EntryHas;
  }

  lemma MemoryRecycle(c: Config, s: State)
    requires Order(c, s) && Memory(c, s) && WriterCan(c, s, Recycle)
    ensures Memory(c, WriterDo(c, s, Recycle))
  {
    hide Phase, Where, MemOk, JobsHave, EntriesHave, Ascending, Stages, PutBack;
    StagesRecycle(c, s);
    JobsRecycle(c, s);
  }

  lemma StagesRecycle(c: Config, s: State)
    requires Order(c, s) && Memory(c, s) && WriterCan(c, s, Recycle)
    ensures Stages(WriterDo(c, s, Recycle).flow, WriterDo(c, s, Recycle).wr.pc)
  {
    hide EncodeQueue, PendingSet, WorkerHolds, OutQueue, Phase, MemOk, EntriesHave, Ascending, JobsHave;
    hide JobHas, PutBack;
    var t := WriterDo(c, s, Recycle);
    HandJob(c, s);
    StagesWriter(s, t.flow, t.wr.pc, s.wr.next);
  }

  lemma JobsRecycle(c: Config, s: State)
    requires Order(c, s) && Memory(c, s) && WriterCan(c, s, Recycle)
    ensures
      var t := WriterDo(c, s, Recycle);
      && MemOk(t.mem) && BufHeld(t.mem, s.prod.buf) && JobsHave(c, t.mem, t.flow.jobs)
      && EntriesHave(c, t.mem, t.flow.jobs, t.par.acc, t.parCh)
  {
    hide Phase, Where, MemOk, Ascending, Stages, PutBack, EntriesHave, Touches, BufHeld, InStage, JobHas;
    var t, idx := WriterDo(c, s, Recycle), s.wr.next;
    HandJob(c, s);
    DiskBack(c, s);
    forall i | 0 <= i < |t.flow.jobs|
      ensures JobHas(c, t.mem, t.flow.jobs[i], i)
    {
      if i == idx {
        EmptyJob(c, t.mem, t.flow.jobs[idx], idx);
      } else {
        JobKept(c, s.mem, t.mem, {DiskOf(idx)}, s.flow.jobs[i], i);
      }
    }
    EntriesKept(c, s.mem, t.mem, {DiskOf(idx)}, s.flow.jobs, s.par.acc, s.parCh);
    EntriesKeepJobs(c, t.mem, s.flow.jobs, t.flow.jobs, s.par.acc, s.parCh, SentCount(s.wr));
  }

  lemma EmptyJob(c: Config, m: Mem, j: Job, idx: nat)
    requires j.plain.None? && j.blob.None? && j.par.None? && j.disk.None?
    ensures JobHas(c, m, j, idx)
  {}

  lemma DiskBack(c: Config, s: State)
    requires WriterCan(c, s, Recycle) && MemOk(s.mem) && JobHas(c, s.mem, Hand(s), s.wr.next)
    ensures MemOk(WriterDo(c, s, Recycle).mem) && Touches(s.mem, WriterDo(c, s, Recycle).mem, {DiskOf(s.wr.next)})
    ensures BufHeld(s.mem, s.prod.buf) ==> BufHeld(WriterDo(c, s, Recycle).mem, s.prod.buf)
  {
    hide MemOk, PutBack, Encodable, Touches, BufHeld, DiskCell, BlobCell, ParCell;
    var m, n, owners := s.mem, WriterDo(c, s, Recycle).mem, {DiskOf(s.wr.next)};
    if Hand(s).disk.Some? {
      var id := Hand(s).disk.value;
      assert m.cells[id].owner == DiskOf(s.wr.next) by { DiskOwner(c, m, Hand(s), s.wr.next); }
      PutOk(m, DiskBuf, id);
    } else {
      TouchesNone(m, owners);
    }
    if BufHeld(m, s.prod.buf) {
      BufKept(m, n, owners, s.prod.buf);
    }
  }

  lemma DiskOwner(c: Config, m: Mem, j: Job, idx: nat)
    requires JobHas(c, m, j, idx) && j.disk.Some?
    ensures j.disk.value < |m.cells| && m.cells[j.disk.value].owner == DiskOf(idx)
  {
    hide Encodable;
  }

  lemma TouchesNone(m: Mem, owners: set<Owner>)
    ensures Touches(m, m, owners)
  {}

  // ---------- parity loop ----------

  function AccOwners(acc: seq<Entry>, n: nat): set<Owner>
    requires n <= |acc|
  {
    if n == 0 then {} else AccOwners(acc, n - 1) + {BlobOf(acc[n - 1].idx), ParOf(acc[n - 1].idx)}
  }

  lemma {:induction false} AccOwnersIn(acc: seq<Entry>, n: nat)
    requires n <= |acc|
    ensures forall o :: o in AccOwners(acc, n) ==> o.BlobOf? || o.ParOf?
    ensures forall idx: nat :: BlobOf(idx) in AccOwners(acc, n) || ParOf(idx) in AccOwners(acc, n) ==>
      exists i :: 0 <= i < n && acc[i].idx == idx
    decreases n
  {
    if n == 0 {
    } else {
      AccOwnersIn(acc, n - 1);
      forall idx: nat | BlobOf(idx) in AccOwners(acc, n) || ParOf(idx) in AccOwners(acc, n)
        ensures exists i :: 0 <= i < n && acc[i].idx == idx
      {
        if idx == acc[n - 1].idx {
          assert acc[n - 1].idx == idx;
        }
      }
    }
  }

  /** Recycling a group puts back each of its buffers once. */
  lemma {:induction false} PutAllOk(c: Config, m: Mem, jobs: seq<Job>, acc: seq<Entry>, n: nat)
    requires MemOk(m) && n <= |acc| && AccValid(m, acc)
    requires forall i :: 0 <= i < |acc| ==> EntryHas(c, m, jobs, acc[i])
    requires forall i, j :: 0 <= i < j < |acc| ==> acc[i].idx < acc[j].idx
    ensures MemOk(PutAll(m, acc, n)) && Touches(m, PutAll(m, acc, n), AccOwners(acc, n))
    decreases n
  {
    hide MemOk, PutBack, Encodable, Touches, EntryHas;
    if n == 0 {
      TouchesSelf(m);
    } else {
      PutAllOk(c, m, jobs, acc, n - 1);
      var p, e := PutAll(m, acc, n - 1), acc[n - 1];
      NotYetOwner(acc, n - 1);
      EntryKept(c, m, p, AccOwners(acc, n - 1), jobs, e);
      PutPair(c, p, jobs, e);
      TouchesTrans(m, p, PutAll(m, acc, n), AccOwners(acc, n - 1), {BlobOf(e.idx), ParOf(e.idx)});
    }
  }

  lemma NotYetOwner(acc: seq<Entry>, n: nat)
    requires n < |acc| && forall i, j :: 0 <= i < j < |acc| ==> acc[i].idx < acc[j].idx
    ensures BlobOf(acc[n].idx) !in AccOwners(acc, n) && ParOf(acc[n].idx) !in AccOwners(acc, n)
  {
    AccOwnersIn(acc, n);
  }

  lemma TouchesSelf(m: Mem)
    ensures Touches(m, m, {})
  {}

  lemma PutPair(c: Config, m: Mem, jobs: seq<Job>, e: Entry)
    requires MemOk(m) && EntryHas(c, m, jobs, e)
    ensures e.blob < |m.cells| && e.par < |PutBack(m, BlobBuf, e.blob).cells|
    ensures
      var n := PutBack(PutBack(m, BlobBuf, e.blob), ParBuf, e.par);
      MemOk(n) && Touches(m, n, {BlobOf(e.idx), ParOf(e.idx)})
  {
    hide MemOk, Encodable, Pool, WithPool;
    PutOk(m, BlobBuf, e.blob);
    var r := PutBack(m, BlobBuf, e.blob);
    assert e.blob != e.par && r.cells[e.par] == m.cells[e.par];
    PutOk(r, ParBuf, e.par);
    TouchesTrans(m, r, PutBack(r, ParBuf, e.par), {BlobOf(e.idx)}, {ParOf(e.idx)});
    assert {BlobOf(e.idx)} + {ParOf(e.idx)} == {BlobOf(e.idx), ParOf(e.idx)};
  }

  lemma MemoryParity(c: Config, s: State, a: ParityAct)
    requires Memory(c, s) && ParityCan(c, s, a)
    ensures Memory(c, ParityDo(c, s, a))
  {
    match a {
      case ReceiveMsg => MemoryReceiveMsg(c, s);
      case RecycleGroup => MemoryRecycleGroup(c, s);
      case _ => MemoryParityStays(c, s, a);
    }
  }

  lemma MemoryParityStays(c: Config, s: State, a: ParityAct)
    requires Memory(c, s) && ParityCan(c, s, a) && !a.ReceiveMsg? && !a.RecycleGroup?
    ensures Memory(c, ParityDo(c, s, a))
  {
    hide MemOk, JobsHave, Stages, EntriesHave, Ascending, NextPut, EncodedWindow, CanEncodeWindow, Written;
    hide Noted, AccValid;
  }

  lemma MemoryReceiveMsg(c: Config, s: State)
    requires Memory(c, s) && ParityCan(c, s, ReceiveMsg)
    ensures Memory(c, ParityDo(c, s, ReceiveMsg))
  {
    hide MemOk, JobsHave, Stages, EntryHas, FileCodeExists;
    EntriesPop(c, s.mem, s.flow.jobs, s.par.acc, s.parCh, SentCount(s.wr));
    hide EntriesHave, Ascending;
  }

  lemma EntriesPop(c: Config, m: Mem, jobs: seq<Job>, acc: seq<Entry>, parCh: seq<Msg>, bound: nat)
    requires EntriesHave(c, m, jobs, acc, parCh) && Ascending(acc, parCh, bound) && parCh != []
    ensures EntriesHave(c, m, jobs, acc, parCh[1..]) && Ascending(acc, parCh[1..], bound)
    ensures parCh[0].DataMsg? ==>
      EntriesHave(c, m, jobs, acc + [parCh[0].e], parCh[1..]) && Ascending(acc + [parCh[0].e], parCh[1..], bound)
  {
    hide EntryHas;
    var rest := parCh[1..];
    assert forall i :: 0 <= i < |rest| ==> rest[i] == parCh[i + 1];
  }

  lemma MemoryRecycleGroup(c: Config, s: State)
    requires Memory(c, s) && ParityCan(c, s, RecycleGroup)
    ensures Memory(c, ParityDo(c, s, RecycleGroup))
  {
    hide MemOk, PutAll, Stages, EntryHas, JobHas, Touches;
    var t, acc := ParityDo(c, s, RecycleGroup), s.par.acc;
    var owners := AccOwners(acc, |acc|);
    PutAllOk(c, s.mem, s.flow.jobs, acc, |acc|);
    AccOwnersIn(acc, |acc|);
    forall i | 0 <= i < |s.flow.jobs|
      ensures JobHas(c, t.mem, s.flow.jobs[i], i)
    {
      JobGave(c, s.mem, t.mem, s.flow.jobs, acc, i);
    }
    forall i | 0 <= i < |s.parCh| && s.parCh[i].DataMsg?
      ensures EntryHas(c, t.mem, s.flow.jobs, s.parCh[i].e)
    {
      EntryKept(c, s.mem, t.mem, owners, s.flow.jobs, s.parCh[i].e);
    }
    BufKept(s.mem, t.mem, owners, s.prod.buf);
  }

  lemma BufKept(m: Mem, n: Mem, owners: set<Owner>, buf: Option<nat>)
    requires Touches(m, n, owners) && BufHeld(m, buf) && Filling !in owners
    ensures BufHeld(n, buf)
  {}

  lemma GaveUp(c: Config, m: Mem, jobs: seq<Job>, acc: seq<Entry>, i: nat)
    requires i < |jobs| && exists a :: 0 <= a < |acc| && acc[a].idx == i
    requires forall a :: 0 <= a < |acc| ==> EntryHas(c, m, jobs, acc[a])
    ensures jobs[i].blob.None? && jobs[i].par.None?
  {
    hide Encodable, Has;
  }

  /** Jobs hold none of the buffers they gave up. */
  lemma JobGave(c: Config, m: Mem, n: Mem, jobs: seq<Job>, acc: seq<Entry>, i: nat)
    requires i < |jobs| && JobHas(c, m, jobs[i], i) && Touches(m, n, AccOwners(acc, |acc|))
    requires forall a :: 0 <= a < |acc| ==> EntryHas(c, m, jobs, acc[a])
    ensures JobHas(c, n, jobs[i], i)
  {
    hide Encodable, Touches, Has, EntryHas, AccOwners;
    var owners, j := AccOwners(acc, |acc|), jobs[i];
    AccOwnersIn(acc, |acc|);
    HasKept(m, n, owners, j.plain, PlainCell(i, j.chunk));
    HasKept(m, n, owners, j.disk, DiskCell(c, i, j.chunk));
    if BlobOf(i) in owners || ParOf(i) in owners {
      GaveUp(c, m, jobs, acc, i);
      NoPlain(n, BlobCell(c, i, j.chunk));
      NoPlain(n, ParCell(c, i, j.chunk));
    } else {
      HasKept(m, n, owners, j.blob, BlobCell(c, i, j.chunk));
      HasKept(m, n, owners, j.par, ParCell(c, i, j.chunk));
    }
  }

  lemma MemoryStep(c: Config, s: State, a: Action)
    requires Order(c, s) && Memory(c, s) && Can(c, s, a)
    ensures Memory(c, Do(c, s, a))
  {
    hide Order, Memory;
    match a {
      case Producer(p) => MemoryProducer(c, s, p);
      case Worker(w, act) => MemoryWorker(c, s, w, act);
      case Writer(r) => MemoryWriter(c, s, r);
      case Parity(q) => MemoryParity(c, s, q);
    }
  }
}

/** No buffer is lost: in a run without a failure every buffer ever made is in a pool or
    held, and when Drain has returned all are back in their pools. */
module PipelineBuffers {
  import opened Bytes
  import opened ErasureCode
  import opened Layout
  import opened Vault
  import opened Repair
  import opened Encoder
  import opened EncodeLoops
  import opened Writes
  import opened Chunking
  import opened PipelineState
  import opened PipelineOrder
  import opened PipelineQueue
  import opened PipelineMemory
  import opened PipelineText
  import opened PipelineFile
  import opened PipelineTheorems

  // ---------- the memory by itself ----------

  /** All buffers but these stay what they are and in the pool they are in. */
  ghost predicate Moves(m: Mem, n: Mem, ids: set<nat>) {
    && |m.cells| <= |n.cells|
    && (forall id: nat :: |m.cells| <= id < |n.cells| ==> id in ids)
    && (forall id: nat :: id < |m.cells| && id !in ids ==> n.cells[id] == m.cells[id])
    && (forall id: nat, k :: id !in ids && id in Pool(m, k) ==> id in Pool(n, k))
  }

  /** The buffer is in this pool. */
  predicate InPool(m: Mem, k: Kind, id: nat) {
    id < |m.cells| && m.cells[id].owner == Pooled(k) && id in Pool(m, k)
  }

  ghost predicate InSomePool(m: Mem, id: nat) {
    exists k :: InPool(m, k, id)
  }

  lemma GetMoves(m: Mem, k: Kind, id: nat, cell: Cell)
    requires CanGet(m, k, id)
    ensures Moves(m, GetBuf(m, k, id, cell), {id})
    ensures id < |GetBuf(m, k, id, cell).cells| && GetBuf(m, k, id, cell).cells[id] == cell
  {
    hide Pool, WithPool;
    var n := GetBuf(m, k, id, cell);
    if id == |m.cells| {
      forall k2: Kind
        ensures Pool(n, k2) == Pool(m, k2)
      {
        SamePool(m, n, k2);
      }
    } else {
      var p := Pool(m, k) - multiset{id};
      forall k2: Kind
        ensures Pool(n, k2) == (if k2 == k then p else Pool(m, k2)) && WithPool(m, k, p).cells == m.cells
      {
        PoolOfWith(m, k, p, k2);
        PoolOfSet(WithPool(m, k, p), id, cell, k2);
      }
      PoolOfWith(m, k, p, k);
    }
  }

  lemma SamePool(m: Mem, n: Mem, k: Kind)
    requires n == m.(cells := n.cells)
    ensures Pool(n, k) == Pool(m, k)
  {}

  lemma SetMoves(m: Mem, id: nat, cell: Cell)
    requires id < |m.cells|
    ensures Moves(m, SetCell(m, id, cell), {id})
  {}

  lemma PutMoves(m: Mem, k: Kind, id: nat)
    requires id < |m.cells|
    ensures Moves(m, PutBack(m, k, id), {id}) && InPool(PutBack(m, k, id), k, id)
  {}

  lemma MovesTrans(a: Mem, b: Mem, c: Mem, p: set<nat>, q: set<nat>)
    requires Moves(a, b, p) && Moves(b, c, q)
    ensures Moves(a, c, p + q)
  {
    hide Pool;
  }

  lemma PoolKept(m: Mem, n: Mem, ids: set<nat>, k: Kind, id: nat)
    requires Moves(m, n, ids) && InPool(m, k, id) && id !in ids
    ensures InPool(n, k, id)
  {
    hide Pool;
  }

  // ---------- who holds a buffer ----------

  predicate BlobEntry(acc: seq<Entry>, parCh: seq<Msg>, i: nat, id: nat) {
    || (exists a :: 0 <= a < |acc| && acc[a].idx == i && acc[a].blob == id)
    || (exists a :: 0 <= a < |parCh| && parCh[a].DataMsg? && parCh[a].e.idx == i && parCh[a].e.blob == id)
  }

  predicate ParEntry(acc: seq<Entry>, parCh: seq<Msg>, i: nat, id: nat) {
    || (exists a :: 0 <= a < |acc| && acc[a].idx == i && acc[a].par == id)
    || (exists a :: 0 <= a < |parCh| && parCh[a].DataMsg? && parCh[a].e.idx == i && parCh[a].e.par == id)
  }

  /** The owner that a buffer is marked with does hold it. */
  predicate Held(s: State, owner: Owner, id: nat) {
    match owner
    case Pooled(k) => id in Pool(s.mem, k)
    case Filling => s.prod.buf == Some(id)
    case Taken => false
    case PlainOf(i) => i < |s.flow.jobs| && s.flow.jobs[i].plain == Some(id)
    case BlobOf(i) => (i < |s.flow.jobs| && s.flow.jobs[i].blob == Some(id)) || BlobEntry(s.par.acc, s.parCh, i, id)
    case ParOf(i) => (i < |s.flow.jobs| && s.flow.jobs[i].par == Some(id)) || ParEntry(s.par.acc, s.parCh, i, id)
    case DiskOf(i) => i < |s.flow.jobs| && s.flow.jobs[i].disk == Some(id)
  }

  ghost predicate AllHeld(s: State) {
    forall id :: 0 <= id < |s.mem.cells| ==> Held(s, s.mem.cells[id].owner, id)
  }

  /** Before a job is recycled it has given up all but its slots' buffer. */
  predicate HandEmpty(s: State) {
    s.wr.pc.WSendFlush? || s.wr.pc.WRecycle? ==>
      HandValid(s) && Hand(s).plain.None? && Hand(s).blob.None? && Hand(s).par.None?
  }

  ghost predicate Conserved(s: State) {
    !s.failed ==> AllHeld(s) && HandEmpty(s)
  }

  /** A step that leaves the memory alone. */
  lemma HeldAlike(s: State, t: State)
    requires AllHeld(s) && t.mem == s.mem
    requires forall id, owner :: 0 <= id < |s.mem.cells| && s.mem.cells[id].owner == owner && Held(s, owner, id) ==>
      Held(t, owner, id)
    ensures AllHeld(t)
  {}

  predicate StaysHeld(s: State, t: State, owner: Owner, id: nat) {
    !owner.Pooled? && Held(s, owner, id) ==> Held(t, owner, id)
  }

  /** A step that moves these buffers. */
  lemma HeldAfter(s: State, t: State, ids: set<nat>)
    requires AllHeld(s) && Moves(s.mem, t.mem, ids)
    requires forall id :: id in ids && id < |t.mem.cells| ==> Held(t, t.mem.cells[id].owner, id)
    requires forall id :: 0 <= id < |s.mem.cells| && id !in ids ==> StaysHeld(s, t, s.mem.cells[id].owner, id)
    ensures AllHeld(t)
  {
    hide Pool;
  }

  // ---------- producer ----------

  lemma ConservedProducer(c: Config, s: State, a: ProducerAct)
    requires Order(c, s) && Memory(c, s) && Conserved(s) && ProducerCan(c, s, a)
    ensures Conserved(ProducerDo(c, s, a))
  {
    if !s.failed {
      match a {
        case Copy(id) => HeldCopy(c, s, id);
        case Enqueue => HeldEnqueue(c, s, Copying(s.prod.pc.rest));
        case EnqueueLast => HeldEnqueue(c, s, CloseEncode);
        case Drain => HeldDrain(c, s);
        case _ => HeldProducerStays(c, s, a);
      }
    }
  }

  lemma HeldProducerStays(c: Config, s: State, a: ProducerAct)
    requires AllHeld(s) && HandEmpty(s) && ProducerCan(c, s, a) && !a.Copy? && !a.Enqueue? && !a.EnqueueLast? && !a.Drain?
    ensures AllHeld(ProducerDo(c, s, a)) && HandEmpty(ProducerDo(c, s, a))
  {
    var t := ProducerDo(c, s, a);
    if a.SendLastFlush? {
      forall id, owner | Held(s, owner, id)
        ensures Held(t, owner, id)
      {
        EntriesGrow(s.par.acc, s.parCh, FlushMsg(s.wr.finalG, s.wr.finalK));
      }
    }
    hide BlobEntry, ParEntry;
    HeldAlike(s, t);
  }

  lemma EntriesGrow(acc: seq<Entry>, parCh: seq<Msg>, m: Msg)
    ensures forall i, id :: BlobEntry(acc, parCh, i, id) ==> BlobEntry(acc, parCh + [m], i, id)
    ensures forall i, id :: ParEntry(acc, parCh, i, id) ==> ParEntry(acc, parCh + [m], i, id)
    ensures m.DataMsg? ==> BlobEntry(acc, parCh + [m], m.e.idx, m.e.blob) && ParEntry(acc, parCh + [m], m.e.idx, m.e.par)
  {
    var longer := parCh + [m];
    assert longer[|parCh|] == m;
    assert forall a :: 0 <= a < |parCh| ==> longer[a] == parCh[a];
  }

  lemma HeldCopy(c: Config, s: State, id: nat)
    requires AllHeld(s) && HandEmpty(s) && ProducerCan(c, s, Copy(id))
    ensures AllHeld(ProducerDo(c, s, Copy(id))) && HandEmpty(ProducerDo(c, s, Copy(id)))
  {
    hide BlobEntry, ParEntry, Pool, WithPool;
    var t := ProducerDo(c, s, Copy(id));
    var cell := Cell(BufText(s.mem, s.prod.buf) + s.prod.pc.rest[..CopyLength(s.mem, s.prod.buf, s.prod.pc.rest)], Filling);
    if s.prod.buf.Some? {
      SetMoves(s.mem, id, cell);
    } else {
      GetMoves(s.mem, PlainBuf, id, cell);
    }
    HeldAfter(s, t, {id});
  }

  lemma HeldEnqueue(c: Config, s: State, pc: ProducerPc)
    requires AllHeld(s) && HandEmpty(s) && s.prod.buf.Some? && s.prod.buf.value < |s.mem.cells|
    ensures AllHeld(Enqueued(s, pc)) && HandEmpty(Enqueued(s, pc))
  {
    hide BlobEntry, ParEntry, Pool;
    var t, id := Enqueued(s, pc), s.prod.buf.value;
    SetMoves(s.mem, id, s.mem.cells[id].(owner := PlainOf(|s.flow.jobs|)));
    HeldAfter(s, t, {id});
  }

  lemma HeldDrain(c: Config, s: State)
    requires AllHeld(s) && HandEmpty(s) && ProducerCan(c, s, Drain)
    ensures AllHeld(ProducerDo(c, s, Drain)) && HandEmpty(ProducerDo(c, s, Drain))
  {
    hide BlobEntry, ParEntry, Pool, WithPool;
    var t := ProducerDo(c, s, Drain);
    if s.prod.buf.Some? && BufText(s.mem, s.prod.buf) == [] {
      PutMoves(s.mem, PlainBuf, s.prod.buf.value);
      HeldAfter(s, t, {s.prod.buf.value});
    } else {
      HeldAlike(s, t);
    }
  }

  // ---------- workers ----------

  lemma ConservedWorker(c: Config, s: State, w: nat, a: WorkerAct)
    requires Order(c, s) && Queue(c, s) && Memory(c, s) && Conserved(s) && WorkerCan(c, s, w, a)
    ensures Conserved(WorkerDo(c, s, w, a))
  {
    if !WorkerDo(c, s, w, a).failed {
      WorkerLeavesHand(c, s, w, a);
      if a.EncodeOk? {
        HeldEncode(c, s, w, a);
      } else {
        HeldWorkerStays(c, s, w, a);
      }
    }
  }

  /** A worker's job is not the one in the write loop's hand. */
  lemma WorkerLeavesHand(c: Config, s: State, w: nat, a: WorkerAct)
    requires Order(c, s) && WorkerCan(c, s, w, a) && HandEmpty(s)
    ensures HandEmpty(WorkerDo(c, s, w, a))
  {
    hide EncodedMem, CanTake, Fits, Phase, OutQueue, PendingSet;
  }

  lemma HeldWorkerStays(c: Config, s: State, w: nat, a: WorkerAct)
    requires Queue(c, s) && AllHeld(s) && WorkerCan(c, s, w, a) && !a.EncodeOk? && !WorkerDo(c, s, w, a).failed
    ensures AllHeld(WorkerDo(c, s, w, a))
  {
    hide BlobEntry, ParEntry, Pool, CanEncode, EncodedMem, QueueOk, Aligned;
    HeldAlike(s, WorkerDo(c, s, w, a));
  }

  /** What an encode moves: the three buffers it takes, and the plaintext's. */
  lemma EncodeMoves(c: Config, s: State, idx: nat, blob: nat, par: nat, disk: nat)
    requires CanEncode(c, s, idx, blob, par, disk)
    ensures
      var id := s.flow.jobs[idx].plain.value;
      && Moves(s.mem, EncodedMem(c, s, idx, blob, par, disk), {blob, par, disk, id})
      && InPool(EncodedMem(c, s, idx, blob, par, disk), PlainBuf, id)
  {
    hide Moves, InPool, GetBuf, SetCell, PutBack, DataArea, ParityArea, BlobBytes, ChunkBlob, Fits, Pool;
    var id := s.flow.jobs[idx].plain.value;
    var plain, cell := s.mem.cells[id].bytes, Cell([], Taken);
    var t1, t2, m := Take1(s.mem, blob), Take2(s.mem, blob, par), Take3(s.mem, blob, par, disk);
    GetMoves(s.mem, BlobBuf, blob, cell);
    GetMoves(t1, ParBuf, par, cell);
    GetMoves(t2, DiskBuf, disk, cell);
    var m1 := SetCell(m, blob, Cell(DataArea(c.cr, c.pfx, idx, plain), BlobOf(idx)));
    SetMoves(m, blob, Cell(DataArea(c.cr, c.pfx, idx, plain), BlobOf(idx)));
    MoreCells(m, m1, {blob});
    var m2 := SetCell(m1, par, Cell(ParityArea(c.cr, c.pfx, idx, plain), ParOf(idx)));
    SetMoves(m1, par, Cell(ParityArea(c.cr, c.pfx, idx, plain), ParOf(idx)));
    MoreCells(m1, m2, {par});
    var m3 := SetCell(m2, disk, Cell(BlobBytes(ChunkBlob(c.cr, c.pfx, idx, plain)), DiskOf(idx)));
    SetMoves(m2, disk, Cell(BlobBytes(ChunkBlob(c.cr, c.pfx, idx, plain)), DiskOf(idx)));
    MoreCells(m2, m3, {disk});
    PutMoves(m3, PlainBuf, id);
    MovesTrans(s.mem, t1, t2, {blob}, {par});
    MovesTrans(s.mem, t2, m, {blob} + {par}, {disk});
    MovesTrans(m, m1, m2, {blob}, {par});
    MovesTrans(m, m2, m3, {blob} + {par}, {disk});
    MovesTrans(s.mem, m, m3, {blob} + {par} + {disk}, {blob} + {par} + {disk});
    var n := PutBack(m3, PlainBuf, id);
    MovesTrans(s.mem, m3, n, {blob} + {par} + {disk} + ({blob} + {par} + {disk}), {id});
    assert {blob} + {par} + {disk} + ({blob} + {par} + {disk}) + {id} == {blob, par, disk, id};
  }

  lemma MoreCells(m: Mem, n: Mem, ids: set<nat>)
    requires Moves(m, n, ids)
    ensures |m.cells| <= |n.cells|
  {}

  lemma HeldEncode(c: Config, s: State, w: nat, a: WorkerAct)
    requires Order(c, s) && Memory(c, s) && AllHeld(s) && WorkerCan(c, s, w, a) && a.EncodeOk?
    ensures AllHeld(WorkerDo(c, s, w, a))
  {
    hide Order, Memory, AllHeld, CanTake, Fits, EncodedMem, JobHas, MemOk, Touches, Has, Encodable, EncodedJob;
    var idx := s.flow.workers[w].idx;
    WorkerJob(c, s, w);
    MemoryMem(c, s);
    EncodedOk(c, s, idx, a.blob, a.par, a.disk);
    EncodeMoves(c, s, idx, a.blob, a.par, a.disk);
    NoEntry(c, s, idx);
    hide WorkerCan, CanEncode, Moves, InPool, BlobEntry, ParEntry;
    EncodeHolds(c, s, WorkerDo(c, s, w, a), idx, a.blob, a.par, a.disk);
  }

  lemma EncodeHolds(c: Config, s: State, t: State, idx: nat, blob: nat, par: nat, disk: nat)
    requires AllHeld(s) && idx < |s.flow.jobs| && Unencoded(s.flow.jobs[idx])
    requires forall id :: !BlobEntry(s.par.acc, s.parCh, idx, id) && !ParEntry(s.par.acc, s.parCh, idx, id)
    requires Moves(s.mem, t.mem, {blob, par, disk, s.flow.jobs[idx].plain.value})
    requires InPool(t.mem, PlainBuf, s.flow.jobs[idx].plain.value)
    requires var chunk := s.flow.jobs[idx].chunk;
      && Has(t.mem, Some(blob), BlobCell(c, idx, chunk)) && Has(t.mem, Some(par), ParCell(c, idx, chunk))
      && Has(t.mem, Some(disk), DiskCell(c, idx, chunk))
    requires t.prod == s.prod && t.par == s.par && t.parCh == s.parCh
    requires t.flow.jobs == s.flow.jobs[idx := EncodedJob(s.flow.jobs[idx], blob, par, disk)]
    ensures AllHeld(t)
  {
    hide BlobEntry, ParEntry, Pool, Encodable;
    HeldAfter(s, t, {blob, par, disk, s.flow.jobs[idx].plain.value});
  }

  lemma MemoryMem(c: Config, s: State)
    requires Memory(c, s)
    ensures MemOk(s.mem)
  {}

  /** The parity loop has nothing of a chunk that it was not given yet. */
  lemma NoEntry(c: Config, s: State, idx: nat)
    requires Memory(c, s) && SentCount(s.wr) <= idx
    ensures forall id :: !BlobEntry(s.par.acc, s.parCh, idx, id) && !ParEntry(s.par.acc, s.parCh, idx, id)
  {}

  // ---------- write loop ----------

  lemma ConservedWriter(c: Config, s: State, a: WriterAct)
    requires Order(c, s) && Queue(c, s) && Memory(c, s) && Conserved(s) && WriterCan(c, s, a)
    ensures Conserved(WriterDo(c, s, a))
  {
    WriterFailed(c, s, a);
    if !WriterDo(c, s, a).failed {
      WriterHand(c, s, a);
      match a {
        case SendBlob => HeldSend(c, s);
        case Recycle => HeldRecycle(c, s);
        case _ => HeldWriterStays(c, s, a);
      }
    }
  }

  lemma WriterHand(c: Config, s: State, a: WriterAct)
    requires Order(c, s) && Queue(c, s) && Memory(c, s) && HandEmpty(s) && WriterCan(c, s, a) && !WriterDo(c, s, a).failed
    ensures HandEmpty(WriterDo(c, s, a))
  {
    hide Order, Queue, Memory, JobHas, DiskData, Overwrite, PutBack;
    WriterFailed(c, s, a);
    if a.Scan? && s.wr.next in s.wr.pending {
      ScanUnfailed(c, s, a);
    }
    if a.SendBlob? {
      HandJob(c, s);
    }
  }

  lemma HeldWriterStays(c: Config, s: State, a: WriterAct)
    requires AllHeld(s) && WriterCan(c, s, a) && !a.SendBlob? && !a.Recycle?
    ensures AllHeld(WriterDo(c, s, a))
  {
    var t := WriterDo(c, s, a);
    if a.SendFlush? {
      EntriesGrow(s.par.acc, s.parCh, FlushMsg(s.wr.groupsDone, FILE_GROUP_CHUNKS));
    }
    hide BlobEntry, ParEntry, Pool, DiskData, Written, Noted;
    HeldAlike(s, t);
  }

  lemma HeldSend(c: Config, s: State)
    requires AllHeld(s) && WriterCan(c, s, SendBlob)
    ensures AllHeld(WriterDo(c, s, SendBlob))
  {
    var t := WriterDo(c, s, SendBlob);
    EntriesGrow(s.par.acc, s.parCh, DataMsg(Entry(s.wr.next, Hand(s).blob.value, Hand(s).par.value)));
    hide BlobEntry, ParEntry, Pool;
    HeldAlike(s, t);
  }

  lemma HeldRecycle(c: Config, s: State)
    requires AllHeld(s) && HandEmpty(s) && WriterCan(c, s, Recycle)
    ensures AllHeld(WriterDo(c, s, Recycle))
  {
    hide BlobEntry, ParEntry, Pool, WithPool;
    var t := WriterDo(c, s, Recycle);
    if Hand(s).disk.Some? {
      var id := Hand(s).disk.value;
      PutMoves(s.mem, DiskBuf, id);
      hide PutBack;
      HeldAfter(s, t, {id});
    } else {
      HeldAlike(s, t);
    }
  }

  // ---------- parity loop ----------

  lemma ConservedParity(c: Config, s: State, a: ParityAct)
    requires Memory(c, s) && Conserved(s) && ParityCan(c, s, a)
    ensures Conserved(ParityDo(c, s, a))
  {
    ParityFailed(c, s, a);
    if !ParityDo(c, s, a).failed {
      match a {
        case ReceiveMsg => HeldReceiveMsg(c, s);
        case RecycleGroup => HeldRecycleGroup(c, s);
        case _ => HeldParityStays(c, s, a);
      }
    }
  }

  lemma HeldParityStays(c: Config, s: State, a: ParityAct)
    requires AllHeld(s) && HandEmpty(s) && ParityCan(c, s, a) && !a.ReceiveMsg? && !a.RecycleGroup?
    ensures AllHeld(ParityDo(c, s, a)) && HandEmpty(ParityDo(c, s, a))
  {
    hide BlobEntry, ParEntry, Pool, NextPut, EncodedWindow, CanEncodeWindow, Written, Noted, AccValid;
    HeldAlike(s, ParityDo(c, s, a));
  }

  lemma EntriesMove(acc: seq<Entry>, parCh: seq<Msg>)
    requires parCh != []
    ensures
      var later := if parCh[0].DataMsg? then acc + [parCh[0].e] else acc;
      && (forall i, id :: BlobEntry(acc, parCh, i, id) ==> BlobEntry(later, parCh[1..], i, id))
      && (forall i, id :: ParEntry(acc, parCh, i, id) ==> ParEntry(later, parCh[1..], i, id))
  {
    var later, rest := if parCh[0].DataMsg? then acc + [parCh[0].e] else acc, parCh[1..];
    assert forall a :: 0 < a < |parCh| ==> rest[a - 1] == parCh[a];
    assert forall a :: 0 <= a < |acc| ==> later[a] == acc[a];
    assert parCh[0].DataMsg? ==> later[|acc|] == parCh[0].e;
  }

  lemma HeldReceiveMsg(c: Config, s: State)
    requires AllHeld(s) && HandEmpty(s) && ParityCan(c, s, ReceiveMsg)
    ensures AllHeld(ParityDo(c, s, ReceiveMsg)) && HandEmpty(ParityDo(c, s, ReceiveMsg))
  {
    EntriesMove(s.par.acc, s.parCh);
    hide BlobEntry, ParEntry, Pool, FileCodeExists;
    HeldAlike(s, ParityDo(c, s, ReceiveMsg));
  }

  function AccIds(acc: seq<Entry>, n: nat): set<nat>
    requires n <= |acc|
  {
    if n == 0 then {} else AccIds(acc, n - 1) + {acc[n - 1].blob, acc[n - 1].par}
  }

  /** Recycling puts each of the group's buffers into its pool. */
  lemma {:induction false} PutAllPools(c: Config, m: Mem, jobs: seq<Job>, acc: seq<Entry>, n: nat)
    requires MemOk(m) && n <= |acc| && AccValid(m, acc)
    requires forall i :: 0 <= i < |acc| ==> EntryHas(c, m, jobs, acc[i])
    requires forall i, j :: 0 <= i < j < |acc| ==> acc[i].idx < acc[j].idx
    ensures Moves(m, PutAll(m, acc, n), AccIds(acc, n))
    ensures forall i :: 0 <= i < n ==>
      InPool(PutAll(m, acc, n), BlobBuf, acc[i].blob) && InPool(PutAll(m, acc, n), ParBuf, acc[i].par)
    ensures forall id :: id in AccIds(acc, n) ==>
      InPool(PutAll(m, acc, n), BlobBuf, id) || InPool(PutAll(m, acc, n), ParBuf, id)
    decreases n
  {
    hide MemOk, PutBack, Encodable, EntryHas, InPool, Touches, Moves, Pool;
    if n == 0 {
      NothingMoves(m);
    } else {
      PutAllPools(c, m, jobs, acc, n - 1);
      PutAllOk(c, m, jobs, acc, n - 1);
      var p, e := PutAll(m, acc, n - 1), acc[n - 1];
      NotYetOwner(acc, n - 1);
      EntryKept(c, m, p, AccOwners(acc, n - 1), jobs, e);
      PairMoves(c, p, jobs, e);
      var r := PutAll(m, acc, n);
      MovesTrans(m, p, r, AccIds(acc, n - 1), {e.blob, e.par});
      forall k, id | InPool(p, k, id)
        ensures InPool(r, k, id)
      {
        NotInPool(c, p, jobs, e, k, id);
        PoolKept(p, r, {e.blob, e.par}, k, id);
      }
    }
  }

  lemma NothingMoves(m: Mem)
    ensures Moves(m, m, {})
  {}

  lemma NotInPool(c: Config, m: Mem, jobs: seq<Job>, e: Entry, k: Kind, id: nat)
    requires EntryHas(c, m, jobs, e) && InPool(m, k, id)
    ensures id != e.blob && id != e.par
  {
    hide Encodable;
  }

  lemma PairMoves(c: Config, m: Mem, jobs: seq<Job>, e: Entry)
    requires EntryHas(c, m, jobs, e)
    ensures e.blob < |m.cells| && e.par < |PutBack(m, BlobBuf, e.blob).cells|
    ensures
      var n := PutBack(PutBack(m, BlobBuf, e.blob), ParBuf, e.par);
      Moves(m, n, {e.blob, e.par}) && InPool(n, BlobBuf, e.blob) && InPool(n, ParBuf, e.par)
  {
    hide Encodable, Pool, WithPool;
    PutMoves(m, BlobBuf, e.blob);
    var r := PutBack(m, BlobBuf, e.blob);
    assert e.blob != e.par;
    PutMoves(r, ParBuf, e.par);
    hide PutBack, Moves, InPool, EntryHas;
    MovesTrans(m, r, PutBack(r, ParBuf, e.par), {e.blob}, {e.par});
    PoolKept(r, PutBack(r, ParBuf, e.par), {e.par}, BlobBuf, e.blob);
    assert {e.blob} + {e.par} == {e.blob, e.par};
  }

  lemma HeldRecycleGroup(c: Config, s: State)
    requires Memory(c, s) && AllHeld(s) && HandEmpty(s) && ParityCan(c, s, RecycleGroup)
    ensures AllHeld(ParityDo(c, s, RecycleGroup)) && HandEmpty(ParityDo(c, s, RecycleGroup))
  {
    hide MemOk, PutAll, Stages, JobsHave, EntryHas, Pool;
    var t, acc := ParityDo(c, s, RecycleGroup), s.par.acc;
    PutAllPools(c, s.mem, s.flow.jobs, acc, |acc|);
    AccIdsIn(acc, |acc|);
    hide Memory;
    HeldAfter(s, t, AccIds(acc, |acc|));
  }

  lemma {:induction false} AccIdsIn(acc: seq<Entry>, n: nat)
    requires n <= |acc|
    ensures forall i :: 0 <= i < n ==> acc[i].blob in AccIds(acc, n) && acc[i].par in AccIds(acc, n)
    decreases n
  {
    if n == 0 {
    } else {
      AccIdsIn(acc, n - 1);
    }
  }

  // ---------- every run ----------

  lemma ConservedStep(c: Config, s: State, a: Action)
    requires Order(c, s) && Queue(c, s) && Memory(c, s) && Conserved(s) && Can(c, s, a)
    ensures Conserved(Do(c, s, a))
  {
    hide Order, Queue, Memory, Conserved;
    match a {
      case Producer(p) => ConservedProducer(c, s, p);
      case Worker(w, act) => ConservedWorker(c, s, w, act);
      case Writer(r) => ConservedWriter(c, s, r);
      case Parity(q) => ConservedParity(c, s, q);
    }
  }

  lemma {:induction false} RunsConserve(c: Config, run: seq<Action>)
    requires ConfigOk(c) && IsRun(c, run)
    ensures Conserved(After(c, run))
    decreases |run|
  {
    if run == [] {
    } else {
      var before := run[..|run| - 1];
      RunsConserve(c, before);
      RunsKeepInvariant(c, before);
      hide Order, Queue, Memory, Text, File, Size, Conserved, Can, Do;
      ConservedStep(c, After(c, before), run[|run| - 1]);
    }
  }

  /** When Drain has returned without an error, every buffer ever made is in a pool. */
  lemma NoBufferLost(c: Config, run: seq<Action>)
    requires ConfigOk(c) && IsRun(c, run) && After(c, run).prod.pc.Returned? && !After(c, run).err
    ensures
      var m := After(c, run).mem;
      forall id :: 0 <= id < |m.cells| ==> InSomePool(m, id)
  {
    RunsConserve(c, run);
    RunsKeepInvariant(c, run);
    hide IsRun, After, Order, Queue, Memory, Text, File, Size, Conserved, InSomePool;
    var s := After(c, run);
    NoneInLoop(c, s);
    AllJobsEmpty(c, s);
    AllBack(s);
  }

  lemma AllBack(s: State)
    requires Conserved(s) && !s.failed && s.parCh == [] && s.par.acc == [] && s.prod.buf.None?
    requires forall i :: 0 <= i < |s.flow.jobs| ==> NoBuffers(s.flow.jobs[i])
    ensures forall id :: 0 <= id < |s.mem.cells| ==> InSomePool(s.mem, id)
  {
    hide Pool;
    forall id | 0 <= id < |s.mem.cells|
      ensures InSomePool(s.mem, id)
    {
      assert Held(s, s.mem.cells[id].owner, id);
      assert InPool(s.mem, s.mem.cells[id].owner.kind, id);
    }
  }

  predicate NoBuffers(j: Job) {
    j.plain.None? && j.blob.None? && j.par.None? && j.disk.None?
  }

  lemma NoneInLoop(c: Config, s: State)
    requires Order(c, s) && Queue(c, s) && Text(c, s) && s.prod.pc.Returned?
    ensures s.parCh == [] && s.par.acc == [] && s.prod.buf.None? && (s.err <==> s.failed)
  {
    hide Where, Chunks, Concat, WellCut, AllFull, BufText;
  }

  lemma AllJobsEmpty(c: Config, s: State)
    requires Order(c, s) && Memory(c, s) && s.prod.pc.Returned?
    ensures forall i :: 0 <= i < |s.flow.jobs| ==> NoBuffers(s.flow.jobs[i])
  {
    hide MemOk, JobHas, EntriesHave, Ascending, EncodeQueue, WorkerHolds, OutQueue, PendingSet;
    forall i | 0 <= i < |s.flow.jobs|
      ensures NoBuffers(s.flow.jobs[i])
    {
      assert InStage(s.flow.jobs[i], s.flow.loc[i], s.flow.workers, s.wr.pc);
    }
  }
}

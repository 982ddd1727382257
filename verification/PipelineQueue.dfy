/** What is in the parity queue: every flush finds exactly the blobs its group
    has, in every run, so the parity loop's own errors cannot happen. */
module PipelineQueue {
  import opened Layout
  import opened Repair
  import opened PipelineState
  import opened PipelineOrder

  /** Reading messages: groups flushed, blobs since the last flush, whether every
      flush was right, and whether the chunks came in unbroken order. */
  datatype Tally = Tally(ok: bool, inOrder: bool, g: nat, k: nat)

  function Read(t: Tally, m: Msg): Tally {
    match m
    case DataMsg(e) => Tally(t.ok && t.k < FILE_GROUP_CHUNKS, t.inOrder && e.idx == t.g * FILE_GROUP_CHUNKS + t.k, t.g, t.k + 1)
    case FlushMsg(g, k) => Tally(t.ok && g == t.g && k == t.k && 1 <= k <= FILE_GROUP_CHUNKS, t.inOrder, t.g + 1, 0)
  }

  function ReadAll(t: Tally, msgs: seq<Msg>): Tally {
    var n := |msgs|;
    if n == 0 then t else Read(ReadAll(t, msgs[..n - 1]), msgs[n - 1])
  }

  lemma ReadLast(t: Tally, msgs: seq<Msg>, m: Msg)
    ensures ReadAll(t, msgs + [m]) == Read(ReadAll(t, msgs), m)
  {
    assert (msgs + [m])[..|msgs|] == msgs;
  }

  lemma {:induction false} ReadFirst(t: Tally, msgs: seq<Msg>)
    requires msgs != []
    ensures ReadAll(t, msgs) == ReadAll(Read(t, msgs[0]), msgs[1..])
    decreases |msgs|
  {
    var n := |msgs|;
    if n == 1 {
      assert msgs[..0] == [];
      assert ReadAll(t, msgs[..0]) == t;
    } else {
      ReadFirst(t, msgs[..n - 1]);
      assert msgs[..n - 1][1..] == msgs[1..][..n - 2];
    }
  }

  lemma {:induction false} ReadKeeps(t: Tally, msgs: seq<Msg>)
    ensures ReadAll(t, msgs).ok ==> t.ok
    ensures ReadAll(t, msgs).inOrder ==> t.inOrder
    decreases |msgs|
  {
    if msgs == [] {
    } else {
      ReadKeeps(t, msgs[..|msgs| - 1]);
    }
  }

  /** The accumulated chunks are those of group g, from its first on. */
  predicate AccInOrder(acc: seq<Entry>, g: nat) {
    forall i :: 0 <= i < |acc| ==> acc[i].idx == g * FILE_GROUP_CHUNKS + i
  }

  predicate Busy(pc: ParityPc) {
    pc.QEncode? || pc.QSeek? || pc.QWrite? || pc.QRecycle?
  }

  /** Where reading the queue starts. */
  function Head(p: Par): Tally {
    if Busy(p.pc) then Tally(true, AccInOrder(p.acc, p.pg), p.pg + 1, 0)
    else Tally(true, AccInOrder(p.acc, p.pg), p.pg, |p.acc|)
  }

  predicate LastFlushSent(pc: ProducerPc) {
    pc.ClosePar? || ParClosed(pc)
  }

  /** Where it must end: the write loop's own counters, up to a blob not yet sent
      and the last flush. */
  function TailG(pc: ProducerPc, w: Wr): nat {
    if LastFlushSent(pc) && w.finalK > 0 then w.groupsDone + 1 else w.groupsDone
  }

  function TailK(pc: ProducerPc, w: Wr): nat {
    if LastFlushSent(pc) then 0
    else if w.pc.WSendBlob? && w.groupChunks > 0 then w.groupChunks - 1
    else w.groupChunks
  }

  predicate Counters(pc: ProducerPc, w: Wr) {
    && w.groupChunks <= FILE_GROUP_CHUNKS
    && (w.groupChunks == FILE_GROUP_CHUNKS ==> w.pc.WSendBlob? || w.pc.WSendFlush?)
    && (w.pc.WSendFlush? ==> w.groupChunks == FILE_GROUP_CHUNKS)
    && (w.pc.WSendBlob? ==> w.groupChunks > 0)
    && (w.pc.WDone? ==> w.finalG == w.groupsDone && w.finalK == w.groupChunks)
    && (pc.SendFinal? || LastFlushSent(pc) ==> w.pc.WDone?)
    && (pc.SendFinal? ==> w.finalK > 0)
  }

  predicate QueueOk(pc: ProducerPc, w: Wr, p: Par, parCh: seq<Msg>, failed: bool) {
    && Counters(pc, w)
    && (p.pc.QEncode? || p.pc.QSeek? || p.pc.QWrite? ==> p.pc.g == p.pg && 1 <= |p.acc| <= FILE_GROUP_CHUNKS)
    && (var t := ReadAll(Head(p), parCh);
        t.ok && t.g == TailG(pc, w) && t.k == TailK(pc, w) && (!failed ==> t.inOrder))
  }

  /** Blobs written so far, as the write loop counts them. */
  function WrittenCount(w: Wr): nat {
    if w.pc.WSendBlob? || w.pc.WSendFlush? || w.pc.WRecycle? then w.next + 1 else w.next
  }

  /** As long as nothing failed, the counters count every consumed job. */
  predicate Aligned(w: Wr, failed: bool) {
    !failed ==> w.groupsDone * FILE_GROUP_CHUNKS + w.groupChunks == WrittenCount(w)
  }

  /** The error the source keeps is set by failures only. */
  predicate Errors(jobs: seq<Job>, err: bool, failed: bool) {
    && err == failed
    && forall i :: 0 <= i < |jobs| && jobs[i].failed ==> failed
  }

  ghost predicate Queue(c: Config, s: State) {
    && c.spec.Valid()
    && QueueOk(s.prod.pc, s.wr, s.par, s.parCh, s.failed)
    && Aligned(s.wr, s.failed)
    && Errors(s.flow.jobs, s.err, s.failed)
  }

  lemma QueueInit(c: Config)
    requires c.spec.Valid()
    ensures Queue(c, Init(c))
  {}

  lemma QueueProducer(c: Config, s: State, a: ProducerAct)
    requires Order(c, s) && Queue(c, s) && ProducerCan(c, s, a)
    ensures Queue(c, ProducerDo(c, s, a))
  {
    hide CopyLength, BufText, GetBuf, PutBack, SetCell, CanGet, Where, ReadAll;
    if a.SendLastFlush? {
      ReadLast(Head(s.par), s.parCh, FlushMsg(s.wr.finalG, s.wr.finalK));
    }
  }

  lemma QueueWorker(c: Config, s: State, w: nat, a: WorkerAct)
    requires Queue(c, s) && WorkerCan(c, s, w, a)
    ensures Queue(c, WorkerDo(c, s, w, a))
  {
    hide EncodedMem, QueueOk, Aligned;
    WorkerQueueStays(s.prod.pc, s.wr, s.par, s.parCh, s.failed);
    var t := WorkerDo(c, s, w, a);
    assert QueueOk(t.prod.pc, t.wr, t.par, t.parCh, t.failed);
    assert Aligned(t.wr, t.failed);
    assert Errors(t.flow.jobs, t.err, t.failed);
  }

  lemma WorkerQueueStays(pc: ProducerPc, w: Wr, p: Par, parCh: seq<Msg>, failed: bool)
    requires QueueOk(pc, w, p, parCh, failed)
    ensures QueueOk(pc, w, p, parCh, true) && Aligned(w, true)
  {}

  lemma QueueWriter(c: Config, s: State, a: WriterAct)
    requires Order(c, s) && Queue(c, s) && WriterCan(c, s, a)
    ensures Queue(c, WriterDo(c, s, a))
  {
    hide Order, Queue, WriterDo, WriterCan;
    match a {
      case Finish => QueueFinish(c, s);
      case SendBlob => QueueSendBlob(c, s);
      case SendFlush => QueueSendFlush(c, s);
      case _ => QueueWriterStays(c, s, a);
    }
  }

  lemma QueueFinish(c: Config, s: State)
    requires Order(c, s) && Queue(c, s) && WriterCan(c, s, Finish)
    ensures Queue(c, WriterDo(c, s, Finish))
  {
    hide ReadAll, Where;
    NothingLeft(c, s);
  }

  lemma QueueSendBlob(c: Config, s: State)
    requires Order(c, s) && Queue(c, s) && WriterCan(c, s, SendBlob)
    ensures Queue(c, WriterDo(c, s, SendBlob))
  {
    hide ReadAll, Where, Head;
    ReadLast(Head(s.par), s.parCh, DataMsg(Entry(s.wr.next, Hand(s).blob.value, Hand(s).par.value)));
  }

  lemma QueueSendFlush(c: Config, s: State)
    requires Order(c, s) && Queue(c, s) && WriterCan(c, s, SendFlush)
    ensures Queue(c, WriterDo(c, s, SendFlush))
  {
    hide ReadAll, Where, Head;
    ReadLast(Head(s.par), s.parCh, FlushMsg(s.wr.groupsDone, FILE_GROUP_CHUNKS));
  }

  lemma QueueWriterStays(c: Config, s: State, a: WriterAct)
    requires Order(c, s) && Queue(c, s) && WriterCan(c, s, a) && !a.Finish? && !a.SendBlob? && !a.SendFlush?
    ensures Queue(c, WriterDo(c, s, a))
  {
    hide PutBack, ReadAll, Where, Written, Noted, Head;
  }

  /** Whatever flush the parity loop receives, the blobs it has accumulated are
      as many as the flush says, and the file-level code of that size exists. */
  lemma FlushIsRight(c: Config, s: State)
    requires Queue(c, s) && s.par.pc.QRecv? && s.parCh != [] && s.parCh[0].FlushMsg?
    ensures |s.par.acc| == s.parCh[0].k && s.parCh[0].g == s.par.pg
    ensures FileCodeExists(s.parCh[0].k, c.spec.ParityCountFor(s.parCh[0].k))
    ensures !s.failed ==> AccInOrder(s.par.acc, s.par.pg)
  {
    ReadFirst(Head(s.par), s.parCh);
    ReadKeeps(Read(Head(s.par), s.parCh[0]), s.parCh[1..]);
  }

  lemma QueueParity(c: Config, s: State, a: ParityAct)
    requires Queue(c, s) && ParityCan(c, s, a)
    ensures Queue(c, ParityDo(c, s, a))
  {
    match a {
      case ReceiveMsg => QueueReceive(c, s);
      case RecycleGroup => QueueRecycle(c, s);
      case _ => QueueParityStays(c, s, a);
    }
  }

  lemma QueueReceive(c: Config, s: State)
    requires Queue(c, s) && ParityCan(c, s, ReceiveMsg)
    ensures Queue(c, ParityDo(c, s, ReceiveMsg))
  {
    var m := s.parCh[0];
    ReadFirst(Head(s.par), s.parCh);
    ReadKeeps(Read(Head(s.par), m), s.parCh[1..]);
    if m.FlushMsg? {
      FlushIsRight(c, s);
    } else {
      AccGrows(s.par.acc, s.par.pg, m.e);
    }
    hide ReadAll, AccInOrder;
    assert Head(ParityDo(c, s, ReceiveMsg).par) == Read(Head(s.par), m);
  }

  lemma AccGrows(acc: seq<Entry>, g: nat, e: Entry)
    ensures AccInOrder(acc + [e], g) <==> AccInOrder(acc, g) && e.idx == g * FILE_GROUP_CHUNKS + |acc|
  {
    if AccInOrder(acc + [e], g) {
      assert (acc + [e])[|acc|] == e;
      forall i | 0 <= i < |acc|
        ensures acc[i].idx == g * FILE_GROUP_CHUNKS + i
      {
        assert (acc + [e])[i] == acc[i];
      }
    }
  }

  lemma QueueRecycle(c: Config, s: State)
    requires Queue(c, s) && ParityCan(c, s, RecycleGroup)
    ensures Queue(c, ParityDo(c, s, RecycleGroup))
  {
    hide PutAll;
    var t, u := Head(s.par), Head(ParityDo(c, s, RecycleGroup).par);
    assert u == t.(inOrder := true);
    StartAgain(t, s.parCh);
  }

  /** The order of what was read before does not matter to what follows. */
  lemma {:induction false} StartAgain(t: Tally, msgs: seq<Msg>)
    ensures
      var a, b := ReadAll(t, msgs), ReadAll(t.(inOrder := true), msgs);
      b.ok == a.ok && b.g == a.g && b.k == a.k && (a.inOrder ==> b.inOrder)
    decreases |msgs|
  {
    if msgs == [] {
    } else {
      StartAgain(t, msgs[..|msgs| - 1]);
    }
  }

  lemma QueueParityStays(c: Config, s: State, a: ParityAct)
    requires Queue(c, s) && ParityCan(c, s, a) && !a.ReceiveMsg? && !a.RecycleGroup?
    ensures Queue(c, ParityDo(c, s, a))
  {
    hide CanEncodeWindow, NextPut, EncodedWindow, Written, Noted, ReadAll, AccInOrder, Counters, AccValid;
    var t := ParityDo(c, s, a);
    assert Head(t.par) == Head(s.par);
  }

  lemma QueueStep(c: Config, s: State, a: Action)
    requires Order(c, s) && Queue(c, s) && Can(c, s, a)
    ensures Queue(c, Do(c, s, a))
  {
    hide Order, Queue;
    match a {
      case Producer(p) => QueueProducer(c, s, p);
      case Worker(w, act) => QueueWorker(c, s, w, act);
      case Writer(r) => QueueWriter(c, s, r);
      case Parity(q) => QueueParity(c, s, q);
    }
  }
}

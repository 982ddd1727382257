/** What the producer cuts: however the plaintext is split into Write calls, the
    jobs' chunks and what is still buffered are the plaintext accepted so far. */
module PipelineText {
  import opened Bytes
  import opened ErasureCode
  import opened Layout
  import opened Encoder
  import opened Chunking
  import opened PipelineState
  import opened PipelineOrder
  import opened PipelineQueue
  import opened PipelineMemory

  function Chunks(jobs: seq<Job>): (chunks: seq<Bytes>)
    ensures |chunks| == |jobs|
  {
    seq(|jobs|, i requires 0 <= i < |jobs| => jobs[i].chunk)
  }

  /** What Write has accepted but not yet copied. */
  function RestText(pc: ProducerPc): Bytes {
    if pc.Copying? || pc.Sending? then pc.rest else []
  }

  /** The last chunk has been cut. */
  predicate Drained(pc: ProducerPc) {
    pc.CloseEncode? || EncodeClosed(pc)
  }

  /** The chunk buffer in each phase. */
  predicate BufferFits(prod: Prod, text: Bytes) {
    && (prod.pc.Open? || prod.pc.Copying? ==> |text| < CHUNK_PLAIN_SIZE)
    && (prod.pc.Sending? ==> prod.buf.Some? && |text| == CHUNK_PLAIN_SIZE)
    && (prod.pc.FlushChunk? ==> prod.buf.Some? && 0 < |text| < CHUNK_PLAIN_SIZE && prod.calls == [])
    && (Drained(prod.pc) ==> prod.buf.None? && text == [] && prod.calls == [])
    && (prod.buf.None? ==> text == [])
  }

  predicate TextOk(calls: seq<Bytes>, prod: Prod, text: Bytes, chunks: seq<Bytes>, failed: bool) {
    && BufferFits(prod, text)
    && Concat(chunks) + text + RestText(prod.pc) == prod.taken
    && (if Drained(prod.pc) then WellCut(chunks) else AllFull(chunks))
    && (!failed ==> prod.taken + Concat(prod.calls) == Concat(calls))
  }

  ghost predicate Text(c: Config, s: State) {
    TextOk(c.calls, s.prod, BufText(s.mem, s.prod.buf), Chunks(s.flow.jobs), s.failed)
  }

  lemma TextInit(c: Config)
    ensures Text(c, Init(c))
  {
    assert Concat(Chunks([])) == [];
  }

  lemma ConcatSnoc(chunks: seq<Bytes>, last: Bytes)
    ensures Concat(chunks + [last]) == Concat(chunks) + last
  {
    assert (chunks + [last])[..|chunks|] == chunks;
  }

  lemma TextProducer(c: Config, s: State, a: ProducerAct)
    requires Memory(c, s) && Queue(c, s) && Text(c, s) && ProducerCan(c, s, a)
    ensures Text(c, ProducerDo(c, s, a))
  {
    match a {
      case Call => TextCall(c, s);
      case Copy(id) => TextCopy(c, s, id);
      case Enqueue => TextEnqueue(c, s, a);
      case EnqueueLast => TextEnqueue(c, s, a);
      case _ => TextOther(c, s, a);
    }
  }

  lemma TextCall(c: Config, s: State)
    requires Queue(c, s) && Text(c, s) && ProducerCan(c, s, Call)
    ensures Text(c, ProducerDo(c, s, Call))
  {
    hide BufText, Concat, QueueOk, Chunks;
    var calls := s.prod.calls;
    assert calls == [calls[0]] + calls[1..];
    ConcatFirst(calls[0], calls[1..]);
  }

  lemma TextOther(c: Config, s: State, a: ProducerAct)
    requires Text(c, s) && ProducerCan(c, s, a) && !a.Call? && !a.Copy? && !a.Enqueue? && !a.EnqueueLast?
    ensures Text(c, ProducerDo(c, s, a))
  {
    hide Concat, Chunks, PutBack;
    if a.Drain? {
      FullIsWellCut(Chunks(s.flow.jobs));
    }
  }

  lemma FullIsWellCut(chunks: seq<Bytes>)
    requires AllFull(chunks)
    ensures WellCut(chunks)
  {}

  lemma TextCopy(c: Config, s: State, id: nat)
    requires Memory(c, s) && Text(c, s) && ProducerCan(c, s, Copy(id))
    ensures Text(c, ProducerDo(c, s, Copy(id)))
  {
    hide Concat, Chunks, MemOk, JobsHave, EntriesHave, Ascending, Stages, BufText, SetCell, GetBuf, CanGet;
    var text, rest := BufText(s.mem, s.prod.buf), s.prod.pc.rest;
    CopiedText(c, s, id);
    Regroup(Concat(Chunks(s.flow.jobs)), text, rest, CopyLength(s.mem, s.prod.buf, rest));
  }

  lemma Regroup(a: Bytes, b: Bytes, rest: Bytes, n: nat)
    requires n <= |rest|
    ensures a + (b + rest[..n]) + rest[n..] == a + b + rest
  {
    assert rest == rest[..n] + rest[n..];
  }

  lemma CopiedText(c: Config, s: State, id: nat)
    requires ProducerCan(c, s, Copy(id))
    ensures
      var t, rest := ProducerDo(c, s, Copy(id)), s.prod.pc.rest;
      BufText(t.mem, t.prod.buf) == BufText(s.mem, s.prod.buf) + rest[..CopyLength(s.mem, s.prod.buf, rest)]
  {
    hide Pool;
  }

  lemma ChunksGrow(jobs: seq<Job>, j: Job)
    ensures Chunks(jobs + [j]) == Chunks(jobs) + [j.chunk]
  {}

  lemma TextEnqueue(c: Config, s: State, a: ProducerAct)
    requires Text(c, s) && ProducerCan(c, s, a) && (a.Enqueue? || a.EnqueueLast?)
    ensures Text(c, ProducerDo(c, s, a))
  {
    hide Concat, Chunks, SetCell;
    var id := s.prod.buf.value;
    var text := BufText(s.mem, s.prod.buf);
    ChunksGrow(s.flow.jobs, Job(text, Some(id), None, None, None, false));
    ConcatSnoc(Chunks(s.flow.jobs), text);
  }

  /** Steps that keep the chunks and the chunk buffer keep the text. */
  lemma TextKept(c: Config, s: State, t: State)
    requires Text(c, s) && t.prod == s.prod && BufText(t.mem, t.prod.buf) == BufText(s.mem, s.prod.buf)
    requires |t.flow.jobs| == |s.flow.jobs| && (s.failed ==> t.failed)
    requires forall i :: 0 <= i < |s.flow.jobs| ==> t.flow.jobs[i].chunk == s.flow.jobs[i].chunk
    ensures Text(c, t)
  {
    hide BufText;
    assert Chunks(t.flow.jobs) == Chunks(s.flow.jobs);
  }

  lemma BufTextKept(m: Mem, n: Mem, owners: set<Owner>, buf: Option<nat>)
    requires Touches(m, n, owners) && BufHeld(m, buf) && Filling !in owners
    ensures BufText(n, buf) == BufText(m, buf)
  {}

  lemma WorkerKeeps(c: Config, s: State, w: nat, a: WorkerAct)
    requires WorkerCan(c, s, w, a)
    ensures
      var t := WorkerDo(c, s, w, a);
      && t.prod == s.prod && t.wr == s.wr && t.par == s.par && t.parCh == s.parCh && t.disk == s.disk
      && |t.flow.jobs| == |s.flow.jobs| && (s.failed ==> t.failed) && (!a.EncodeOk? ==> t.mem == s.mem)
      && forall i :: 0 <= i < |s.flow.jobs| ==> t.flow.jobs[i].chunk == s.flow.jobs[i].chunk
  {
    hide EncodedMem, CanTake, Fits;
  }

  lemma WriterKeeps(c: Config, s: State, a: WriterAct)
    requires WriterCan(c, s, a)
    ensures
      var t := WriterDo(c, s, a);
      && t.prod == s.prod && t.par == s.par && t.flow.workers == s.flow.workers
      && |t.flow.jobs| == |s.flow.jobs| && (s.failed ==> t.failed) && (!a.Recycle? ==> t.mem == s.mem)
      && forall i :: 0 <= i < |s.flow.jobs| ==> t.flow.jobs[i].chunk == s.flow.jobs[i].chunk
  {
    hide PutBack, Written, Noted;
  }

  lemma TextWorker(c: Config, s: State, w: nat, a: WorkerAct)
    requires Order(c, s) && Memory(c, s) && Text(c, s) && WorkerCan(c, s, w, a)
    ensures Text(c, WorkerDo(c, s, w, a))
  {
    hide Text, MemOk, JobsHave, EntriesHave, Ascending, Stages, Where, Phase, WorkerDo, BufText, Order;
    WorkerKeeps(c, s, w, a);
    if a.EncodeOk? {
      EncodeKeepsText(c, s, w, a);
    }
    TextKept(c, s, WorkerDo(c, s, w, a));
  }

  lemma EncodeKeepsText(c: Config, s: State, w: nat, a: WorkerAct)
    requires Order(c, s) && Memory(c, s) && WorkerCan(c, s, w, a) && a.EncodeOk?
    ensures BufText(WorkerDo(c, s, w, a).mem, s.prod.buf) == BufText(s.mem, s.prod.buf)
  {
    hide Order, WorkerDo, WorkerCan, MemOk, JobsHave, EntriesHave, Ascending, Stages, BufText, EncodedMem, CanEncode;
    hide Touches, BufHeld, JobHas, Processed, Unencoded, Encodable, Has, EncodeOwners;
    EncodeMem(c, s, w, a);
    NotFilling(s.flow.workers[w].idx);
    WorkerJob(c, s, w);
    EncodedOk(c, s, s.flow.workers[w].idx, a.blob, a.par, a.disk);
    BufTextKept(s.mem, WorkerDo(c, s, w, a).mem, EncodeOwners(s.flow.workers[w].idx), s.prod.buf);
  }

  lemma NotFilling(idx: nat)
    ensures Filling !in EncodeOwners(idx)
  {}

  lemma EncodeMem(c: Config, s: State, w: nat, a: WorkerAct)
    requires WorkerCan(c, s, w, a) && a.EncodeOk?
    ensures w < |s.flow.workers| && s.flow.workers[w].Encoding? && CanEncode(c, s, s.flow.workers[w].idx, a.blob, a.par, a.disk)
    ensures WorkerDo(c, s, w, a).mem == EncodedMem(c, s, s.flow.workers[w].idx, a.blob, a.par, a.disk)
  {
    hide CanEncode, EncodedMem;
  }

  lemma TextWriter(c: Config, s: State, a: WriterAct)
    requires Order(c, s) && Memory(c, s) && Text(c, s) && WriterCan(c, s, a)
    ensures Text(c, WriterDo(c, s, a))
  {
    hide Text, MemOk, JobHas, EntriesHave, Ascending, Stages, Where, Phase, BufText, WriterDo, Order;
    WriterKeeps(c, s, a);
    if a.Recycle? {
      RecycleKeepsText(c, s);
    }
    TextKept(c, s, WriterDo(c, s, a));
  }

  lemma RecycleKeepsText(c: Config, s: State)
    requires Order(c, s) && Memory(c, s) && WriterCan(c, s, Recycle)
    ensures BufText(WriterDo(c, s, Recycle).mem, s.prod.buf) == BufText(s.mem, s.prod.buf)
  {
    hide MemOk, JobHas, EntriesHave, Ascending, Stages, Where, Phase, BufText, PutBack, Touches;
    HandJob(c, s);
    DiskBack(c, s);
    BufTextKept(s.mem, WriterDo(c, s, Recycle).mem, {DiskOf(s.wr.next)}, s.prod.buf);
  }

  lemma TextParity(c: Config, s: State, a: ParityAct)
    requires Memory(c, s) && Text(c, s) && ParityCan(c, s, a)
    ensures Text(c, ParityDo(c, s, a))
  {
    hide Text, MemOk, JobHas, EntryHas, Stages, BufText, Written, Noted, Touches, PutAll, CanEncodeWindow;
    hide EncodedWindow, NextPut, AccOwners;
    if a.RecycleGroup? {
      var acc := s.par.acc;
      PutAllOk(c, s.mem, s.flow.jobs, acc, |acc|);
      AccOwnersIn(acc, |acc|);
      BufTextKept(s.mem, ParityDo(c, s, a).mem, AccOwners(acc, |acc|), s.prod.buf);
    }
    TextKept(c, s, ParityDo(c, s, a));
  }

  lemma TextStep(c: Config, s: State, a: Action)
    requires Order(c, s) && Queue(c, s) && Memory(c, s) && Text(c, s) && Can(c, s, a)
    ensures Text(c, Do(c, s, a))
  {
    hide Order, Memory, Queue, Text;
    match a {
      case Producer(p) => TextProducer(c, s, p);
      case Worker(w, act) => TextWorker(c, s, w, act);
      case Writer(r) => TextWriter(c, s, r);
      case Parity(q) => TextParity(c, s, q);
    }
  }
}

/** The write pipeline never deadlocks and always ends: whatever the scheduler
    does, some goroutine can take a step that does not fail until Drain has
    returned, and every step, failing or not, brings the end closer. */
module PipelineProgress {
  import opened Bytes
  import opened Layout
  import opened Vault
  import opened Repair
  import opened Encoder
  import opened EncodeLoops
  import opened Writes
  import opened PipelineState
  import opened PipelineOrder
  import opened PipelineQueue
  import opened PipelineMemory
  import opened PipelineText
  import opened PipelineFile
  import opened PipelineTheorems

  // ---------- the parity loop's shards ----------

  /** The encoded shards in the parity loop's hands have the window's size. */
  predicate Shards64(pc: ParityPc) {
    && (pc.QEncode? ==> pc.w < WINDOWS)
    && (pc.QSeek? || pc.QWrite? ==>
          pc.w < WINDOWS && pc.q < |pc.out| <= FILE_PARITY_SHARDS && Uniform(pc.out, WINDOW_BYTES))
  }

  lemma ShardsParity(c: Config, s: State, a: ParityAct)
    requires Shards64(s.par.pc) && ParityCan(c, s, a) && c.spec.Valid()
    ensures Shards64(ParityDo(c, s, a).par.pc)
  {
    hide NextPut, PutAll, AccValid, FileCodeExists, Overwrite, EncodedWindow, CanEncodeWindow;
    if a.EncodeWindow? {
      EncodedShape(c, s, s.par.pc.w);
    }
  }

  lemma {:induction false} RunsKeepShards(c: Config, run: seq<Action>)
    requires ConfigOk(c) && IsRun(c, run)
    ensures Shards64(After(c, run).par.pc)
    decreases |run|
  {
    if run != [] {
      var before, a := run[..|run| - 1], run[|run| - 1];
      RunsKeepShards(c, before);
      var s := After(c, before);
      match a {
        case Producer(p) => OthersKeepParity(c, s, a);
        case Worker(w, act) => OthersKeepParity(c, s, a);
        case Writer(r) => OthersKeepParity(c, s, a);
        case Parity(q) => ShardsParity(c, s, q);
      }
    }
  }

  lemma OthersKeepParity(c: Config, s: State, a: Action)
    requires Can(c, s, a) && !a.Parity?
    ensures Do(c, s, a).par == s.par
  {
    hide CopyLength, BufText, GetBuf, PutBack, SetCell, CanGet, EncodedMem, CanTake, Fits, Written, Noted;
    match a {
      case Worker(w, act) => WorkerKeeps(c, s, w, act);
      case Writer(r) => WriterKeeps(c, s, r);
      case _ =>
    }
  }

  // ---------- some step is always possible ----------

  /** A step that is not a failure. */
  predicate Ordinary(a: Action) {
    match a
    case Producer(_) => true
    case Worker(_, act) => !act.EncodeFail?
    case Writer(r) => !r.SeekFail? && !r.WriteFail?
    case Parity(q) => !q.EncodeWindowFail? && !q.SeekParityFail? && !q.WriteParityFail?
  }

  ghost predicate CanStep(c: Config, s: State) {
    exists a :: Ordinary(a) && Can(c, s, a)
  }

  lemma Step(c: Config, s: State, a: Action) returns (b: Action)
    requires Ordinary(a) && Can(c, s, a)
    ensures b == a && Ordinary(b) && Can(c, s, b)
  {
    b := a;
  }

  /** The parity loop can always step, except when it waits for a message or is done. */
  lemma ParitySteps(c: Config, s: State) returns (a: Action)
    requires ConfigOk(c) && Queue(c, s) && Memory(c, s) && Shards64(s.par.pc)
    requires !s.par.pc.QDone? && (s.par.pc.QRecv? ==> s.parCh != [] || ParClosed(s.prod.pc))
    ensures Ordinary(a) && Can(c, s, a) && a.Parity?
  {
    hide ConfigOk, Queue, MemOk, JobsHave, Stages, Ascending, CanEncodeWindow;
    AccIsValid(c, s);
    match s.par.pc {
      case QRecv =>
        if s.parCh != [] { a := Step(c, s, Action.Parity(ReceiveMsg)); } else { a := Step(c, s, Action.Parity(Stop)); }
      case QEncode(_, w) =>
        WindowEncodable(c, s, w);
        a := Step(c, s, Action.Parity(EncodeWindow));
      case QSeek(_, _, _, _) => a := Step(c, s, Action.Parity(SeekParity));
      case QWrite(_, _, _, _) => a := Step(c, s, Action.Parity(WriteParity));
      case QRecycle => a := Step(c, s, Action.Parity(RecycleGroup));
    }
  }

  lemma AccIsValid(c: Config, s: State)
    requires Memory(c, s)
    ensures AccValid(s.mem, s.par.acc)
  {
    hide MemOk, JobsHave, Stages, Ascending, Encodable;
    forall i | 0 <= i < |s.par.acc|
      ensures s.par.acc[i].blob < |s.mem.cells| && s.par.acc[i].par < |s.mem.cells|
    {
      assert EntryHas(c, s.mem, s.flow.jobs, s.par.acc[i]);
    }
  }

  lemma AreaSizes(c: Config, idx: nat, chunk: Bytes)
    requires ConfigOk(c) && Encodable(c, idx, chunk)
    ensures |BlobCell(c, idx, chunk).bytes| == BLOB_PLAIN_SIZE && |ParCell(c, idx, chunk).bytes| == PARITY_AREA
  {
    hide DataArea, Fits, Blocks, PlanChunks;
    PlanOk(c);
    DataAreaLength();
    UniformBlocks(DataArea(c.cr, c.pfx, idx, chunk), SHARD_SIZE, DATA_SHARDS);
    IntraWord(c.cr, DataShards(c.cr, c.pfx, idx, chunk));
    ConcatLength(c.cr.intra.encode(DataShards(c.cr, c.pfx, idx, chunk)), SHARD_SIZE);
  }

  lemma WindowEncodable(c: Config, s: State, w: nat)
    requires ConfigOk(c) && Queue(c, s) && Memory(c, s) && s.par.pc.QEncode? && w < WINDOWS
    ensures CanEncodeWindow(c, s, w)
  {
    hide MemOk, JobsHave, Stages, Ascending, FileCodeOk, Encodable, PlanChunks, BlobCell, ParCell;
    AccIsValid(c, s);
    PlanOk(c);
    forall i | 0 <= i < |s.par.acc|
      ensures |AccBlobs(s.mem, s.par.acc)[i]| == BLOB_PLAIN_SIZE && |AccPars(s.mem, s.par.acc)[i]| == PARITY_AREA
    {
      var e := s.par.acc[i];
      assert EntryHas(c, s.mem, s.flow.jobs, e);
      AreaSizes(c, e.idx, s.flow.jobs[e.idx].chunk);
    }
    AccSize(c, s);
    FileCode(c.cr, |s.par.acc|, GroupM(c, s.par.acc));
  }

  lemma AccSize(c: Config, s: State)
    requires Queue(c, s) && s.par.pc.QEncode?
    ensures FileCodeExists(|s.par.acc|, GroupM(c, s.par.acc))
  {
    hide ReadAll;
  }

  /** With the parity queue empty the write loop can step, except when it waits
      for a job or is done. */
  lemma WriterSteps(c: Config, s: State) returns (a: Action)
    requires ConfigOk(c) && Order(c, s) && Memory(c, s) && s.parCh == []
    requires !s.wr.pc.WDone? && (s.wr.pc.WRecv? ==> s.flow.outCh != [] || OutClosed(s.prod.pc))
    ensures Ordinary(a) && Can(c, s, a) && a.Writer?
  {
    hide ConfigOk, Order, Memory;
    assert c.parCap > 0 by { CapsPositive(c); }
    if s.wr.pc.WRecv? {
      if s.flow.outCh != [] {
        FirstOut(c, s);
        a := Step(c, s, Writer(Receive));
      } else {
        a := Step(c, s, Writer(Finish));
      }
    } else if s.wr.pc.WScan? {
      if s.wr.next in s.wr.pending {
        PendingIssued(c, s);
      }
      a := Step(c, s, Writer(Scan));
    } else {
      HandIsReady(c, s);
      match s.wr.pc {
        case WSeek => a := Step(c, s, Writer(SeekOk));
        case WWrite => a := Step(c, s, Writer(WriteOk));
        case WSendBlob => a := Step(c, s, Writer(SendBlob));
        case WSendFlush => a := Step(c, s, Writer(SendFlush));
        case WRecycle => a := Step(c, s, Writer(Recycle));
      }
    }
  }

  /** What the write loop's steps need of the job in its hand. */
  lemma HandIsReady(c: Config, s: State)
    requires Order(c, s) && Memory(c, s)
    ensures s.wr.pc.WWrite? ==> DiskValid(s)
    ensures s.wr.pc.WSendBlob? ==> HandValid(s) && Hand(s).blob.Some? && Hand(s).par.Some?
    ensures s.wr.pc.WRecycle? ==> HandValid(s) && (Hand(s).disk.Some? ==> DiskValid(s))
  {
    hide Where, Phase, MemOk, JobsHave, EntriesHave, Ascending, Stages, Encodable;
    if InHands(s.wr.pc) {
      HandJob(c, s);
    }
  }

  lemma CapsPositive(c: Config)
    requires ConfigOk(c)
    ensures c.workers > 0 && c.encodeCap > 0 && c.outCap > 0 && c.parCap > 0 && |c.pfx| == 4 && SealOk(c.cr)
  {}

  lemma FirstOut(c: Config, s: State)
    requires Order(c, s) && s.flow.outCh != []
    ensures JobValid(s, s.flow.outCh[0])
  {}

  lemma PendingIssued(c: Config, s: State)
    requires Order(c, s) && s.wr.next in s.wr.pending
    ensures JobValid(s, s.wr.next)
  {}

  /** With room in the output channel a worker with a job can step. */
  lemma WorkerSteps(c: Config, s: State, w: nat) returns (a: Action)
    requires ConfigOk(c) && Order(c, s) && Memory(c, s) && Text(c, s) && s.flow.outCh == []
    requires w < |s.flow.workers| && Holding(s.flow.workers[w])
    ensures Ordinary(a) && Can(c, s, a) && a.Worker? && a.w == w
  {
    hide ConfigOk, Where, Phase, Memory, Text, CanEncode, JobHas, Processed;
    CapsPositive(c);
    WorkerJob(c, s, w);
    match s.flow.workers[w] {
      case Got(_) => a := Step(c, s, Worker(w, CheckError));
      case Encoding(idx) =>
        FreshBuffers(c, s, idx);
        var n := |s.mem.cells|;
        a := Step(c, s, Worker(w, EncodeOk(n, n + 1, n + 2)));
      case Handing(_) => a := Step(c, s, Worker(w, HandOver));
    }
  }

  /** An encode may always make three new buffers, and every chunk fits. */
  lemma FreshBuffers(c: Config, s: State, idx: nat)
    requires ConfigOk(c) && Text(c, s) && idx < |s.flow.jobs| && idx < |s.flow.loc|
    requires Unencoded(s.flow.jobs[idx]) && JobHas(c, s.mem, s.flow.jobs[idx], idx)
    ensures var n := |s.mem.cells|; CanEncode(c, s, idx, n, n + 1, n + 2)
  {
    hide Pool, WithPool, ConfigOk, Fits, Concat, Encodable;
    CapsPositive(c);
    ChunksAt(s.flow.jobs);
    assert ChunkOk(s.flow.jobs[idx].chunk) by { assert Chunks(s.flow.jobs)[idx] == s.flow.jobs[idx].chunk; }
    ChunkFits(c.cr, c.pfx, idx, s.flow.jobs[idx].chunk);
  }

  /** With every worker idle or gone, and its queue empty, the producer can step,
      except when it waits for the others. */
  lemma ProducerSteps(c: Config, s: State) returns (a: Action)
    requires ConfigOk(c) && Order(c, s) && Memory(c, s) && Text(c, s) && s.flow.encodeCh == [] && s.parCh == []
    requires !s.prod.pc.WaitWorkers? && !s.prod.pc.WaitWriter? && !s.prod.pc.WaitParity? && !s.prod.pc.Returned?
    ensures Ordinary(a) && Can(c, s, a) && a.Producer?
  {
    hide ConfigOk, MemOk, JobsHave, EntriesHave, Ascending, Order, Stages, BufText, Concat;
    CapsPositive(c);
    match s.prod.pc {
      case Open =>
        if s.prod.calls != [] { a := Step(c, s, Producer(Call)); } else { a := Step(c, s, Producer(Drain)); }
      case Copying(rest) =>
        if rest == [] {
          a := Step(c, s, Producer(Return));
        } else {
          a := Step(c, s, Producer(Copy(if s.prod.buf.Some? then s.prod.buf.value else |s.mem.cells|)));
        }
      case Sending(_) => a := Step(c, s, Producer(Enqueue));
      case FlushChunk => a := Step(c, s, Producer(EnqueueLast));
      case CloseEncode => a := Step(c, s, Producer(CloseEncodeCh));
      case SendFinal => a := Step(c, s, Producer(SendLastFlush));
      case ClosePar => a := Step(c, s, Producer(CloseParCh));
      case _ =>
    }
  }

  /** No reachable state is stuck before Drain has returned. */
  lemma NeverStuck(c: Config, run: seq<Action>)
    requires ConfigOk(c) && IsRun(c, run) && !After(c, run).prod.pc.Returned?
    ensures CanStep(c, After(c, run))
  {
    RunsKeepInvariant(c, run);
    RunsKeepShards(c, run);
    hide IsRun, After, Order, Queue, Memory, Text, File, Size, ConfigOk, Can, Ordinary;
    var a := SomeStep(c, After(c, run));
  }

  lemma SomeStep(c: Config, s: State) returns (a: Action)
    requires ConfigOk(c) && Order(c, s) && Queue(c, s) && Memory(c, s) && Text(c, s) && Shards64(s.par.pc)
    requires !s.prod.pc.Returned?
    ensures Ordinary(a) && Can(c, s, a)
  {
    hide ConfigOk, Queue, Memory, Text, Where;
    if !s.par.pc.QDone? && (s.par.pc.QRecv? ==> s.parCh != [] || ParClosed(s.prod.pc)) {
      a := ParitySteps(c, s);
    } else if s.prod.pc.WaitParity? {
      a := Step(c, s, Producer(SeeParityDone));
    } else {
      a := OthersStep(c, s);
    }
  }

  /** With the parity queue empty, and unless the producer waits for the parity
      loop's end, one of the other goroutines can step. */
  lemma OthersStep(c: Config, s: State) returns (a: Action)
    requires ConfigOk(c) && Order(c, s) && Memory(c, s) && Text(c, s) && s.parCh == []
    requires !s.prod.pc.Returned? && !s.prod.pc.WaitParity?
    ensures Ordinary(a) && Can(c, s, a) && !a.Parity?
  {
    hide ConfigOk, Memory, Text, Where;
    if !s.wr.pc.WDone? && (s.wr.pc.WRecv? ==> s.flow.outCh != [] || OutClosed(s.prod.pc)) {
      a := WriterSteps(c, s);
    } else if w :| 0 <= w < |s.flow.workers| && Holding(s.flow.workers[w]) {
      a := WorkerSteps(c, s, w);
    } else if s.flow.encodeCh != [] {
      FirstQueued(c, s);
      a := Step(c, s, Worker(0, Take));
    } else if EncodeClosed(s.prod.pc) && !AllExited(s.flow.workers) {
      var w :| 0 <= w < |s.flow.workers| && !s.flow.workers[w].Exited?;
      a := Step(c, s, Worker(w, Exit));
    } else if s.prod.pc.WaitWorkers? {
      a := Step(c, s, Producer(CloseOutCh));
    } else if s.prod.pc.WaitWriter? {
      a := Step(c, s, Producer(SeeWriterDone));
    } else {
      a := ProducerSteps(c, s);
    }
  }

  lemma FirstQueued(c: Config, s: State)
    requires Order(c, s) && s.flow.encodeCh != []
    ensures JobValid(s, s.flow.encodeCh[0])
  {}
}

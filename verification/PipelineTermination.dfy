/** Every step of the pipeline, failing or not, uses up part of a bounded budget:
    every run ends, under any scheduler. */
module PipelineTermination {
  import opened Bytes
  import opened ErasureCode
  import opened Layout
  import opened Repair
  import opened PipelineState
  import opened PipelineOrder
  import opened PipelineQueue
  import opened PipelineMemory
  import opened PipelineText
  import opened PipelineFile
  import opened PipelineTheorems
  import opened PipelineProgress

  // What one item at each place can still cause, in steps.
  const WINDOW_COST: nat := 200
  const MSG_COST: nat := 2500
  const PENDING_COST: nat := 5010
  const OUT_COST: nat := 5015
  const QUEUED_COST: nat := 5025
  const BUF_COST: nat := 5100
  const BYTE_COST: nat := 6000
  const CALL_COST: nat := 10

  function TotalBytes(calls: seq<Bytes>): nat {
    if calls == [] then 0 else |calls[0]| + TotalBytes(calls[1..])
  }

  function ProducerCost(pc: ProducerPc): nat {
    match pc
    case Returned => 0
    case WaitParity => 1
    case ClosePar => 2
    case SendFinal => 3 + MSG_COST
    case WaitWriter => 4 + MSG_COST
    case WaitWorkers => 5 + MSG_COST
    case CloseEncode => 6 + MSG_COST
    case FlushChunk => 7 + MSG_COST
    case Open => 8 + MSG_COST
    case Copying(_) => 9 + MSG_COST
    case Sending(_) => 10 + MSG_COST
  }

  function WorkerCost(pc: WorkerPc): nat {
    match pc
    case Exited => 0
    case Idle => 1
    case Handing(_) => 5020
    case Encoding(_) => 5021
    case Got(_) => 5022
  }

  function WorkersCost(workers: seq<WorkerPc>): nat {
    var n := |workers|;
    if n == 0 then 0 else WorkersCost(workers[..n - 1]) + WorkerCost(workers[n - 1])
  }

  function WriterCost(pc: WriterPc): nat {
    match pc
    case WDone => 0
    case WRecv => 1
    case WScan => 2
    case WRecycle => 3
    case WSendFlush => 4 + MSG_COST
    case WSendBlob => 5 + 2 * MSG_COST
    case WWrite => 6 + 2 * MSG_COST
    case WSeek => 7 + 2 * MSG_COST
  }

  function ParityCost(pc: ParityPc): nat {
    match pc
    case QDone => 0
    case QRecv => 1
    case QRecycle => 2
    case QEncode(_, w) => if w < WINDOWS then 2 + (WINDOWS - w) * WINDOW_COST else 2
    case QSeek(_, w, q, out) =>
      if w < WINDOWS && q < |out| then 3 + (WINDOWS - 1 - w) * WINDOW_COST + 2 * (|out| - q) else 3
    case QWrite(_, w, q, out) =>
      if w < WINDOWS && q < |out| then 2 + (WINDOWS - 1 - w) * WINDOW_COST + 2 * (|out| - q) else 3
  }

  function ProducerPart(p: Prod): nat {
    BYTE_COST * (TotalBytes(p.calls) + |RestText(p.pc)|) + CALL_COST * |p.calls|
    + (if p.buf.Some? then BUF_COST else 0) + ProducerCost(p.pc)
  }

  function WriterPart(w: Wr): nat {
    PENDING_COST * |w.pending| + WriterCost(w.pc)
  }

  /** The budget left. */
  function Budget(s: State): nat {
    ProducerPart(s.prod) + QUEUED_COST * |s.flow.encodeCh| + WorkersCost(s.flow.workers) + OUT_COST * |s.flow.outCh|
    + WriterPart(s.wr) + MSG_COST * |s.parCh| + ParityCost(s.par.pc)
  }

  lemma {:induction false} WorkersCostUpdate(workers: seq<WorkerPc>, w: nat, pc: WorkerPc)
    requires w < |workers|
    ensures WorkersCost(workers[w := pc]) + WorkerCost(workers[w]) == WorkersCost(workers) + WorkerCost(pc)
    decreases |workers|
  {
    var n := |workers|;
    if w < n - 1 {
      WorkersCostUpdate(workers[..n - 1], w, pc);
      assert workers[w := pc][..n - 1] == workers[..n - 1][w := pc];
    } else {
      assert workers[w := pc][..n - 1] == workers[..n - 1];
    }
  }

  lemma BudgetProducer(c: Config, s: State, a: ProducerAct)
    requires Text(c, s) && ProducerCan(c, s, a)
    ensures Budget(ProducerDo(c, s, a)) < Budget(s)
  {
    hide WorkersCost, WriterPart, ParityCost, ProducerPart, BufText, GetBuf, PutBack, SetCell, CanGet, TextOk;
    match a {
      case Call => CallCost(c, s);
      case Copy(_) => CopyCost(c, s, a);
      case _ => ProducerStepCost(c, s, a);
    }
  }

  lemma CallCost(c: Config, s: State)
    requires ProducerCan(c, s, Call)
    ensures ProducerPart(ProducerDo(c, s, Call).prod) < ProducerPart(s.prod)
  {}

  lemma CopyCost(c: Config, s: State, a: ProducerAct)
    requires Text(c, s) && ProducerCan(c, s, a) && a.Copy?
    ensures ProducerPart(ProducerDo(c, s, a).prod) < ProducerPart(s.prod)
  {
    hide BufText, GetBuf, SetCell, CanGet, Chunks, TotalBytes, CopyLength;
    CopySomething(c, s, a);
  }

  lemma CopySomething(c: Config, s: State, a: ProducerAct)
    requires Text(c, s) && ProducerCan(c, s, a) && a.Copy?
    ensures 0 < CopyLength(s.mem, s.prod.buf, s.prod.pc.rest) <= |s.prod.pc.rest|
  {
    hide BufText, Chunks;
  }

  /** What a chunk or a message costs later is paid for when it is sent. */
  lemma ProducerStepCost(c: Config, s: State, a: ProducerAct)
    requires ProducerCan(c, s, a) && !a.Call? && !a.Copy?
    ensures
      var t := ProducerDo(c, s, a);
      ProducerPart(t.prod) + QUEUED_COST * |t.flow.encodeCh| + MSG_COST * |t.parCh|
        < ProducerPart(s.prod) + QUEUED_COST * |s.flow.encodeCh| + MSG_COST * |s.parCh|
  {
    hide BufText, PutBack, SetCell, TotalBytes;
  }

  lemma BudgetWorker(c: Config, s: State, w: nat, a: WorkerAct)
    requires WorkerCan(c, s, w, a)
    ensures Budget(WorkerDo(c, s, w, a)) < Budget(s)
  {
    hide EncodedMem, CanEncode, ProducerPart, WriterPart, ParityCost, WorkersCost;
    WorkersCostUpdate(s.flow.workers, w, WorkerDo(c, s, w, a).flow.workers[w]);
  }

  lemma BudgetWriter(c: Config, s: State, a: WriterAct)
    requires Order(c, s) && WriterCan(c, s, a)
    ensures Budget(WriterDo(c, s, a)) < Budget(s)
  {
    hide Order, WriterDo, WriterCan, ProducerPart, WriterPart, ParityCost, WorkersCost;
    WriterKeeps(c, s, a);
    WriterStepCost(c, s, a);
  }

  lemma WriterStepCost(c: Config, s: State, a: WriterAct)
    requires Order(c, s) && WriterCan(c, s, a)
    ensures
      var t := WriterDo(c, s, a);
      && t.flow.encodeCh == s.flow.encodeCh
      && OUT_COST * |t.flow.outCh| + WriterPart(t.wr) + MSG_COST * |t.parCh|
           < OUT_COST * |s.flow.outCh| + WriterPart(s.wr) + MSG_COST * |s.parCh|
  {
    hide PutBack, Written, Noted, Order;
    if a.Receive? {
      NotYetPending(c, s);
    }
  }

  lemma NotYetPending(c: Config, s: State)
    requires Order(c, s) && WriterCan(c, s, Receive)
    ensures s.flow.outCh[0] !in s.wr.pending
  {
    assert s.flow.loc[s.flow.outCh[0]].InOut?;
  }

  lemma BudgetParity(c: Config, s: State, a: ParityAct)
    requires Shards64(s.par.pc) && ParityCan(c, s, a) && c.spec.Valid()
    ensures Budget(ParityDo(c, s, a)) < Budget(s)
  {
    hide ParityDo, ParityCan, ProducerPart, WriterPart, WorkersCost, ParityCost, Shards64;
    ParityKeeps(c, s, a);
    ParityStepCost(c, s, a);
  }

  lemma ParityStepCost(c: Config, s: State, a: ParityAct)
    requires Shards64(s.par.pc) && ParityCan(c, s, a) && c.spec.Valid()
    ensures
      var t := ParityDo(c, s, a);
      MSG_COST * |t.parCh| + ParityCost(t.par.pc) < MSG_COST * |s.parCh| + ParityCost(s.par.pc)
  {
    hide NextPut, PutAll, AccValid, FileCodeExists, Written, Noted, EncodedWindow, CanEncodeWindow;
    match a {
      case EncodeWindow => EncodeCost(c, s);
      case WriteParity => WriteCost(s.par.pc.g, s.par.pc.w, s.par.pc.q, s.par.pc.out);
      case _ =>
    }
  }

  lemma EncodeCost(c: Config, s: State)
    requires Shards64(s.par.pc) && ParityCan(c, s, EncodeWindow) && c.spec.Valid()
    ensures ParityCost(ParityDo(c, s, EncodeWindow).par.pc) < ParityCost(s.par.pc)
  {
    ShardsParity(c, s, EncodeWindow);
    hide EncodedWindow, CanEncodeWindow;
  }

  lemma WriteCost(g: nat, w: nat, q: nat, out: Shards)
    requires Shards64(QWrite(g, w, q, out))
    ensures ParityCost(AfterWrite(g, w, q, out)) < ParityCost(QWrite(g, w, q, out))
  {}

  lemma BudgetStep(c: Config, s: State, a: Action)
    requires ConfigOk(c) && Order(c, s) && Text(c, s) && Shards64(s.par.pc) && Can(c, s, a)
    ensures Budget(Do(c, s, a)) < Budget(s)
  {
    hide Order, Text, Budget, Shards64;
    match a {
      case Producer(p) => BudgetProducer(c, s, p);
      case Worker(w, act) => BudgetWorker(c, s, w, act);
      case Writer(r) => BudgetWriter(c, s, r);
      case Parity(q) => BudgetParity(c, s, q);
    }
  }

  /** No run is longer than the budget of its first state. */
  lemma {:induction false} RunsAreBounded(c: Config, run: seq<Action>)
    requires ConfigOk(c) && IsRun(c, run)
    ensures |run| + Budget(After(c, run)) <= Budget(Init(c))
    decreases |run|
  {
    if run == [] {
    } else {
      var before, a := run[..|run| - 1], run[|run| - 1];
      RunsAreBounded(c, before);
      RunsKeepInvariant(c, before);
      RunsKeepShards(c, before);
      hide Order, Queue, Memory, Text, File, Size, Budget, Can, Do, ConfigOk, Shards64;
      BudgetStep(c, After(c, before), a);
    }
  }

  /** Every run can be continued, without a further failure, to one in which Drain
      has returned. */
  lemma {:induction false} RunsCanFinish(c: Config, run: seq<Action>) returns (full: seq<Action>)
    requires ConfigOk(c) && IsRun(c, run)
    ensures IsRun(c, full) && |run| <= |full| && full[..|run|] == run && After(c, full).prod.pc.Returned?
    ensures forall i :: |run| <= i < |full| ==> Ordinary(full[i])
    decreases Budget(After(c, run))
  {
    hide Budget, ConfigOk, Can, Do, Ordinary;
    if After(c, run).prod.pc.Returned? {
      full := run;
    } else {
      NeverStuck(c, run);
      var a :| Ordinary(a) && Can(c, After(c, run), a);
      var longer := run + [a];
      assert longer[..|longer| - 1] == run;
      OneStepCloser(c, run, longer, a);
      full := RunsCanFinish(c, longer);
      assert full[..|run|] == full[..|longer|][..|run|];
    }
  }

  lemma OneStepCloser(c: Config, run: seq<Action>, longer: seq<Action>, a: Action)
    requires ConfigOk(c) && IsRun(c, run) && Can(c, After(c, run), a)
    requires longer == run + [a] && longer[..|longer| - 1] == run
    ensures IsRun(c, longer) && Budget(After(c, longer)) < Budget(After(c, run))
  {
    hide Budget, ConfigOk, Can, Do;
    RunsKeepInvariant(c, run);
    RunsKeepShards(c, run);
    hide Order, Queue, Memory, Text, File, Size, Shards64;
    BudgetStep(c, After(c, run), a);
  }
}

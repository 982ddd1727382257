/** How many chunks the pipeline can hold at once: the write loop's pending set has
    no bound of its own. */
module PipelinePending {
  import opened Bytes
  import opened Layout
  import opened Encoder
  import opened Chunking
  import opened PipelineState
  import opened PipelineOrder
  import opened PipelineQueue
  import opened PipelineMemory
  import opened PipelineText
  import opened PipelineFile
  import opened PipelineTheorems
  import opened PipelineProgress
  import opened PipelineTermination
  import opened PipelineSchedule

  /** Chunks issued and not yet consumed. */
  function InFlight(s: State): int {
    |s.flow.jobs| - s.wr.next
  }

  // ---------- one worker keeps the order ----------

  function Held(w: WorkerPc): seq<nat> {
    if Holding(w) then [w.idx] else []
  }

  /** The jobs on their way to the write loop, the one that is next to arrive first. */
  function Line(f: Flow): seq<nat>
    requires |f.workers| == 1
  {
    f.outCh + Held(f.workers[0]) + f.encodeCh
  }

  /** The jobs in line are the last ones issued, in order. */
  predicate LineOk(f: Flow) {
    && |f.workers| == 1 && |Line(f)| <= |f.jobs|
    && forall i :: 0 <= i < |Line(f)| ==> Line(f)[i] == |f.jobs| - |Line(f)| + i
  }

  /** What the write loop holds of the jobs that have arrived. */
  predicate HandOk(f: Flow, w: Wr)
    requires |f.workers| == 1
  {
    var arrived := |f.jobs| - |Line(f)|;
    match w.pc
    case WRecv => w.pending == {} && arrived == w.next
    case WScan => (w.pending == {} && arrived == w.next) || (w.pending == {w.next} && arrived == w.next + 1)
    case WDone => w.pending == {} && arrived == w.next
    case _ => w.pending == {} && arrived == w.next + 1
  }

  predicate OneByOne(c: Config, s: State) {
    LineOk(s.flow) && HandOk(s.flow, s.wr) && |s.flow.encodeCh| <= c.encodeCap && |s.flow.outCh| <= c.outCap
  }

  lemma OneProducer(c: Config, s: State, a: ProducerAct)
    requires Order(c, s) && OneByOne(c, s) && ProducerCan(c, s, a)
    ensures OneByOne(c, ProducerDo(c, s, a))
  {
    if a.Enqueue? || a.EnqueueLast? {
      var t := ProducerDo(c, s, a);
      hide CopyLength, BufText, GetBuf, PutBack, SetCell, CanGet, Where;
      assert !s.wr.pc.WDone?;
      assert Line(t.flow) == Line(s.flow) + [|s.flow.jobs|];
    } else {
      ProducerKeeps(c, s, a);
      hide ProducerDo, Order;
    }
  }

  lemma OneWorker(c: Config, s: State, w: nat, a: WorkerAct)
    requires OneByOne(c, s) && WorkerCan(c, s, w, a)
    ensures OneByOne(c, WorkerDo(c, s, w, a))
  {
    hide EncodedMem, CanTake, Fits;
    var t := WorkerDo(c, s, w, a);
    assert w == 0 && |t.flow.jobs| == |s.flow.jobs|;
    assert Line(t.flow) == Line(s.flow);
  }

  lemma OneWriterStep(c: Config, s: State, a: WriterAct)
    requires OneByOne(c, s) && WriterCan(c, s, a)
    ensures OneByOne(c, WriterDo(c, s, a))
  {
    hide PutBack, Written, Noted, DiskData;
    var t := WriterDo(c, s, a);
    assert |t.flow.jobs| == |s.flow.jobs| && t.flow.workers == s.flow.workers && t.flow.encodeCh == s.flow.encodeCh;
    if a.Receive? {
      FirstInLine(s.flow, t.flow);
    } else {
      assert Line(t.flow) == Line(s.flow);
      hide Line;
    }
  }

  lemma FirstInLine(f: Flow, g: Flow)
    requires LineOk(f) && f.outCh != [] && |g.jobs| == |f.jobs|
    requires g.outCh == f.outCh[1..] && g.workers == f.workers && g.encodeCh == f.encodeCh
    ensures LineOk(g) && |Line(g)| == |Line(f)| - 1 && f.outCh[0] == |f.jobs| - |Line(f)|
  {
    assert Line(f)[0] == f.outCh[0];
    assert Line(g) == Line(f)[1..];
  }

  lemma {:induction false} RunsOneByOne(c: Config, run: seq<Action>)
    requires ConfigOk(c) && c.workers == 1 && IsRun(c, run)
    ensures OneByOne(c, After(c, run))
    decreases |run|
  {
    if run == [] {
    } else {
      var before, a := run[..|run| - 1], run[|run| - 1];
      RunsOneByOne(c, before);
      RunsKeepInvariant(c, before);
      var s := After(c, before);
      hide OneByOne, Order, Queue, Memory, Text, File, Size;
      match a {
        case Producer(p) => OneProducer(c, s, p);
        case Worker(w, act) => OneWorker(c, s, w, act);
        case Writer(r) => OneWriterStep(c, s, r);
        case Parity(q) => ParityKeeps(c, s, q); OneKept(c, s, ParityDo(c, s, q));
      }
    }
  }

  lemma OneKept(c: Config, s: State, t: State)
    requires OneByOne(c, s) && t.flow == s.flow && t.wr == s.wr
    ensures OneByOne(c, t)
  {}

  /** With one worker no run, failing or not, ever holds more than one chunk pending,
      and the chunks in flight fit the channels, the worker and the write loop's hand. */
  lemma OneWorkerBound(c: Config, run: seq<Action>)
    requires ConfigOk(c) && c.workers == 1 && IsRun(c, run)
    ensures |After(c, run).wr.pending| <= 1
    ensures InFlight(After(c, run)) <= c.encodeCap + c.outCap + 2
  {
    RunsOneByOne(c, run);
    hide IsRun, After;
  }

  // ---------- two workers and one slow chunk ----------

  /** Chunk 0 is not issued yet, or first in the queue, or in the hands of worker 0. */
  predicate FirstHeld(f: Flow) {
    |f.jobs| == 0 || (|f.loc| > 0 && f.loc[0].InEncode?) || (|f.workers| > 0 && f.workers[0] == Got(0))
  }

  /** Nothing failed and the write loop waits for chunk 0; the parity loop has no work. */
  predicate Stalled(s: State) {
    && !s.failed && FirstHeld(s.flow) && s.parCh == [] && s.par.pc.QRecv?
    && s.wr.next == 0 && (s.wr.pc.WRecv? || s.wr.pc.WScan?)
  }

  /** All chunks are issued and all but chunk 0 have arrived. */
  predicate AllButFirst(s: State) {
    && Stalled(s) && s.wr.pc.WRecv? && s.prod.pc.WaitWorkers? && s.flow.encodeCh == [] && s.flow.outCh == []
    && forall w :: 0 < w < |s.flow.workers| ==> !Holding(s.flow.workers[w])
  }

  lemma NotArrived(c: Config, s: State)
    requires Order(c, s) && Stalled(s)
    ensures 0 !in s.wr.pending && 0 !in s.flow.outCh
    ensures forall w :: 0 < w < |s.flow.workers| && Holding(s.flow.workers[w]) ==> s.flow.workers[w].idx != 0
    ensures |s.flow.workers| > 0 && s.flow.workers[0] == Got(0) ==> |s.flow.loc| > 0 && s.flow.loc[0] == AtWorker(0)
  {
    hide Phase;
    if |s.flow.workers| > 0 && s.flow.workers[0] == Got(0) {
      assert Holding(s.flow.workers[0]);
    }
  }

  /** While chunk 0 is queued the workers have nothing, and it comes first. */
  lemma FirstIsQueued(c: Config, s: State)
    requires Order(c, s) && Stalled(s) && |s.flow.loc| > 0 && s.flow.loc[0].InEncode?
    ensures s.flow.encodeCh != [] && s.flow.encodeCh[0] == 0
    ensures forall w :: 0 <= w < |s.flow.workers| ==> s.flow.workers[w].Idle?
  {
    hide OutQueue, PendingSet;
  }

  /** Nobody has moved on to shut down while chunk 0 is out. */
  lemma StillOpen(c: Config, s: State)
    requires ConfigOk(c) && |PlanChunks(c)| > 0 && Order(c, s) && Text(c, s) && Stalled(s)
    ensures !OutClosed(s.prod.pc)
    ensures Drained(s.prod.pc) ==> |s.flow.jobs| == |PlanChunks(c)|
  {
    hide Text, PlanChunks, ConfigOk, OutQueue, PendingSet;
    JobsArePlanned(c, s);
  }

  lemma WriterStalls(c: Config, s: State, a: WriterAct)
    requires Stalled(s) && WriterCan(c, s, a) && 0 !in s.wr.pending && 0 !in s.flow.outCh
    requires (a.Scan? && s.wr.pc.WScan?) || (a.Receive? && s.wr.pc.WRecv?)
    ensures Stalled(WriterDo(c, s, a))
  {}

  lemma FirstTaken(c: Config, s: State)
    requires Stalled(s) && WorkerCan(c, s, 0, Take) && s.flow.encodeCh[0] == 0
    ensures Stalled(WorkerDo(c, s, 0, Take))
  {}

  /** A job that is queued once chunk 0 has left the queue is another. */
  lemma QueuedNotFirst(c: Config, s: State)
    requires Order(c, s) && Stalled(s) && s.flow.encodeCh != [] && !s.flow.loc[0].InEncode? && c.workers > 1
    requires !Holding(s.flow.workers[1])
    ensures s.flow.encodeCh[0] != 0 && s.flow.workers[0] == Got(0) && s.flow.workers[1].Idle?
  {
    hide OutQueue, PendingSet, WorkerHolds;
    assert EncodeQueue(s.flow.loc, s.flow.encodeCh);
  }

  /** The other workers leave chunk 0 where it is. */
  lemma OtherWorkerStalls(c: Config, s: State, w: nat, a: WorkerAct)
    requires Stalled(s) && WorkerCan(c, s, w, a) && !a.EncodeFail? && w > 0
    requires s.flow.workers[0] == Got(0)
    ensures Stalled(WorkerDo(c, s, w, a))
  {
    hide EncodedMem, CanTake, Fits;
  }

  lemma ProducerStalls(c: Config, s: State, a: ProducerAct)
    requires Order(c, s) && Stalled(s) && ProducerCan(c, s, a) && !OutClosed(s.prod.pc)
    requires s.flow.encodeCh == [] && (|s.flow.loc| > 0 ==> s.flow.workers[0] == Got(0))
    ensures Stalled(ProducerDo(c, s, a))
  {
    hide CopyLength, BufText, GetBuf, PutBack, SetCell, CanGet, Where;
  }

  lemma StalledStep(c: Config, s: State) returns (a: Action)
    requires ConfigOk(c) && |PlanChunks(c)| > 0 && c.workers > 1 && Invariants(c, s) && Stalled(s) && !AllButFirst(s)
    ensures Ordinary(a) && Can(c, s, a) && Stalled(Do(c, s, a))
  {
    hide ConfigOk, PlanChunks, Where, Queue, Memory, Text, Shards64;
    NotArrived(c, s);
    StillOpen(c, s);
    if s.wr.pc.WScan? {
      a := Step(c, s, Writer(Scan));
      WriterStalls(c, s, Scan);
    } else if s.flow.outCh != [] {
      FirstOut(c, s);
      a := Step(c, s, Writer(Receive));
      WriterStalls(c, s, Receive);
    } else if |s.flow.loc| > 0 && s.flow.loc[0].InEncode? {
      FirstIsQueued(c, s);
      FirstQueued(c, s);
      a := Step(c, s, Worker(0, Take));
      FirstTaken(c, s);
    } else if w: nat :| 0 < w < |s.flow.workers| && Holding(s.flow.workers[w]) {
      a := WorkerSteps(c, s, w);
      OtherWorkerStalls(c, s, w, a.act);
    } else if s.flow.encodeCh != [] {
      FirstQueued(c, s);
      QueuedNotFirst(c, s);
      a := Step(c, s, Worker(1, Take));
      OtherWorkerStalls(c, s, 1, Take);
    } else {
      a := ProducerSteps(c, s);
      ProducerStalls(c, s, a.p);
    }
  }

  lemma {:induction false} ToAllButFirst(c: Config, run: seq<Action>) returns (longer: seq<Action>)
    requires ConfigOk(c) && |PlanChunks(c)| > 0 && c.workers > 1 && IsRun(c, run) && Stalled(After(c, run))
    ensures IsRun(c, longer) && AllButFirst(After(c, longer))
    decreases Budget(After(c, run))
  {
    hide ConfigOk, PlanChunks, Invariants, Can, Do, Ordinary, IsRun, Budget, Stalled, AllButFirst;
    if AllButFirst(After(c, run)) {
      longer := run;
    } else {
      RunInvariants(c, run);
      var a := StalledStep(c, After(c, run));
      var one := OneMore(c, run, a);
      Closer(c, run, a);
      assert IsRun(c, one);
      longer := ToAllButFirst(c, one);
    }
  }

  function Below(n: nat): (s: set<nat>)
    ensures |s| == n && forall i: nat :: i in s <==> i < n
  {
    if n == 0 then {} else Below(n - 1) + {n - 1}
  }

  /** Then every chunk is in flight, and every chunk but the first is pending. */
  lemma AllPending(c: Config, s: State)
    requires ConfigOk(c) && |PlanChunks(c)| > 0 && Order(c, s) && Text(c, s) && AllButFirst(s)
    ensures |s.flow.jobs| == |PlanChunks(c)| == InFlight(s)
    ensures |s.wr.pending| == |PlanChunks(c)| - 1
  {
    hide Text, PlanChunks, ConfigOk;
    StillOpen(c, s);
    var n := |s.flow.jobs|;
    forall idx: nat
      ensures idx in s.wr.pending + {0} <==> idx in Below(n)
    {
    }
    NotArrived(c, s);
    assert s.wr.pending + {0} == Below(n);
  }

  /** With two workers or more, and whatever the capacities, some run has all chunks
      in flight at once and all but the first pending. */
  lemma EverythingPending(c: Config) returns (run: seq<Action>)
    requires ConfigOk(c) && |PlanChunks(c)| > 0 && c.workers > 1
    ensures IsRun(c, run) && |After(c, run).wr.pending| == |PlanChunks(c)| - 1 && InFlight(After(c, run)) == |PlanChunks(c)|
  {
    assert IsRun(c, []) && After(c, []) == Init(c);
    hide ConfigOk, PlanChunks, IsRun, After, AllButFirst, Order, Queue, Memory, Text, Shards64, InFlight;
    run := ToAllButFirst(c, []);
    RunInvariants(c, run);
    AllPending(c, After(c, run));
  }

  // ---------- the bound ----------

  /** What was accepted and what is left to accept are no more than what was given. */
  predicate Accepted(c: Config, s: State) {
    |s.prod.taken| + |Concat(s.prod.calls)| <= |Concat(c.calls)|
  }

  lemma ConcatHead(calls: seq<Bytes>)
    requires calls != []
    ensures |Concat(calls)| == |calls[0]| + |Concat(calls[1..])|
  {
    hide Concat;
    assert calls == [calls[0]] + calls[1..];
    ConcatFirst(calls[0], calls[1..]);
  }

  lemma ProducerAccepts(c: Config, s: State, a: ProducerAct)
    requires Accepted(c, s) && ProducerCan(c, s, a)
    ensures Accepted(c, ProducerDo(c, s, a))
  {
    hide CopyLength, BufText, GetBuf, PutBack, SetCell, CanGet, Concat;
    if a.Call? {
      ConcatHead(s.prod.calls);
    }
  }

  lemma OthersKeepProducer(c: Config, s: State, a: Action)
    requires Can(c, s, a) && !a.Producer?
    ensures Do(c, s, a).prod == s.prod
  {
    hide EncodedMem, CanTake, Fits, PutBack, Written, Noted, DiskData;
    match a {
      case Worker(w, act) => WorkerKeeps(c, s, w, act);
      case Parity(q) => ParityKeeps(c, s, q);
      case _ =>
    }
  }

  lemma {:induction false} RunsAccept(c: Config, run: seq<Action>)
    requires IsRun(c, run)
    ensures Accepted(c, After(c, run))
    decreases |run|
  {
    if run == [] {
    } else {
      var before, a := run[..|run| - 1], run[|run| - 1];
      RunsAccept(c, before);
      hide Accepted, Can, Do;
      if a.Producer? {
        ProducerAccepts(c, After(c, before), a.p);
      } else {
        OthersKeepProducer(c, After(c, before), a);
        KeptAccepted(c, After(c, before), Do(c, After(c, before), a));
      }
    }
  }

  lemma KeptAccepted(c: Config, s: State, t: State)
    requires Accepted(c, s) && t.prod == s.prod
    ensures Accepted(c, t)
  {}

  /** Full chunks, and a last one that is not empty, of a text are no more than its cut. */
  lemma NoMoreChunks(chunks: seq<Bytes>, text: Bytes)
    requires (AllFull(chunks) || WellCut(chunks)) && |Concat(chunks)| <= |text|
    ensures |chunks| <= |ChunksOf(text)|
  {
    hide Concat, ChunksOf;
    ChunksAreCut(text);
    if chunks != [] {
      var front, last := chunks[..|chunks| - 1], chunks[|chunks| - 1];
      ConcatLength(front, CHUNK_PLAIN_SIZE);
      StartIsProduct(|front|, CHUNK_PLAIN_SIZE);
      LastChunk(chunks);
      CeilBound(|front|, |text|);
    }
  }

  lemma CeilBound(n: nat, size: nat)
    requires n * CHUNK_PLAIN_SIZE + 1 <= size
    ensures n < (size - 1) / CHUNK_PLAIN_SIZE + 1
  {}

  lemma LastChunk(chunks: seq<Bytes>)
    requires chunks != []
    ensures |Concat(chunks)| == |Concat(chunks[..|chunks| - 1])| + |chunks[|chunks| - 1]|
  {}

  /** No run, failing or not, has more chunks in flight than the plaintext has. */
  lemma InFlightAtMost(c: Config, run: seq<Action>)
    requires ConfigOk(c) && IsRun(c, run)
    ensures InFlight(After(c, run)) <= |After(c, run).flow.jobs| <= |PlanChunks(c)|
  {
    RunsAccept(c, run);
    RunsKeepInvariant(c, run);
    hide Order, Queue, Memory, File, Size, After, IsRun, ConfigOk, Concat, ChunksOf, BufText, Chunks;
    var s := After(c, run);
    assert |Chunks(s.flow.jobs)| == |s.flow.jobs| by { ChunksCount(s.flow.jobs); }
    NoMoreChunks(Chunks(s.flow.jobs), Concat(c.calls));
  }

  lemma ChunksCount(jobs: seq<Job>)
    ensures |Chunks(jobs)| == |jobs|
  {}

  /** With two workers or more the chunks in flight stay within a bound in every run
      if and only if the plaintext has no more chunks than that: neither the channels
      nor the number of workers bounds them. */
  lemma BoundIff(c: Config, bound: nat)
    requires ConfigOk(c) && c.workers > 1
    ensures (forall run :: IsRun(c, run) ==> InFlight(After(c, run)) <= bound) <==> |PlanChunks(c)| <= bound
  {
    hide IsRun, After, ConfigOk, InFlight, PlanChunks;
    if |PlanChunks(c)| <= bound {
      forall run | IsRun(c, run)
        ensures InFlight(After(c, run)) <= bound
      {
        InFlightAtMost(c, run);
      }
    } else {
      var run := EverythingPending(c);
    }
  }
}

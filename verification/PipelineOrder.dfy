/** Where every job is at every moment of a run, and what that excludes: no job
    is lost, and the write loop never ends with jobs left over. */
module PipelineOrder {
  import opened Repair
  import opened PipelineState

  // ---------- phases of the shutdown ----------

  predicate AllExited(workers: seq<WorkerPc>) {
    forall w :: 0 <= w < |workers| ==> workers[w].Exited?
  }

  /** How far the goroutines may be ahead of each other. */
  predicate Phase(pc: ProducerPc, workers: seq<WorkerPc>, encodeCh: seq<nat>, outCh: seq<nat>, wpc: WriterPc,
                  parCh: seq<Msg>, qpc: ParityPc, finalK: nat) {
    && (forall w :: 0 <= w < |workers| && workers[w].Exited? ==> EncodeClosed(pc) && encodeCh == [])
    && (OutClosed(pc) ==> AllExited(workers) && encodeCh == [])
    && (wpc.WDone? ==> OutClosed(pc) && outCh == [])
    && (pc.SendFinal? || pc.ClosePar? || ParClosed(pc) ==> wpc.WDone?)
    && (pc.SendFinal? ==> finalK > 0)
    && (qpc.QDone? ==> ParClosed(pc) && parCh == [])
    && (pc.Returned? ==> qpc.QDone?)
  }

  // ---------- the place of every job ----------

  predicate Holding(w: WorkerPc) {
    w.Got? || w.Encoding? || w.Handing?
  }

  predicate InHands(wpc: WriterPc) {
    wpc.WSeek? || wpc.WWrite? || wpc.WSendBlob? || wpc.WSendFlush? || wpc.WRecycle?
  }

  /** The encode channel holds exactly the jobs issued last, in order. */
  predicate EncodeQueue(loc: seq<Loc>, encodeCh: seq<nat>) {
    && |encodeCh| <= |loc|
    && (forall i :: 0 <= i < |encodeCh| ==> encodeCh[i] == |loc| - |encodeCh| + i)
    && (forall idx :: 0 <= idx < |loc| ==> (loc[idx].InEncode? <==> idx >= |loc| - |encodeCh|))
  }

  predicate WorkerHolds(loc: seq<Loc>, workers: seq<WorkerPc>) {
    && (forall w :: 0 <= w < |workers| && Holding(workers[w]) ==> workers[w].idx < |loc| && loc[workers[w].idx] == AtWorker(w))
    && (forall idx :: 0 <= idx < |loc| && loc[idx].AtWorker? ==>
          loc[idx].w < |workers| && Holding(workers[loc[idx].w]) && workers[loc[idx].w].idx == idx)
  }

  predicate OutQueue(loc: seq<Loc>, outCh: seq<nat>) {
    && (forall i :: 0 <= i < |outCh| ==> outCh[i] < |loc| && loc[outCh[i]].InOut?)
    && (forall i, j :: 0 <= i < j < |outCh| ==> outCh[i] != outCh[j])
    && (forall idx :: 0 <= idx < |loc| && loc[idx].InOut? ==> idx in outCh)
  }

  ghost predicate PendingSet(loc: seq<Loc>, pending: set<nat>) {
    forall idx: nat :: idx in pending <==> idx < |loc| && loc[idx].InPending?
  }

  /** Jobs are consumed in order of their index; at most the next is in hand. */
  predicate Consumption(loc: seq<Loc>, next: nat, wpc: WriterPc) {
    && next <= |loc|
    && (forall idx :: 0 <= idx < |loc| ==> (loc[idx].Consumed? <==> idx < next))
    && (forall idx :: 0 <= idx < |loc| ==> (loc[idx].InHand? <==> idx == next && InHands(wpc)))
    && (InHands(wpc) ==> next < |loc|)
  }

  /** Every issued job is at exactly one place, which its loc names. */
  ghost predicate Where(loc: seq<Loc>, encodeCh: seq<nat>, workers: seq<WorkerPc>, outCh: seq<nat>,
                        pending: set<nat>, next: nat, wpc: WriterPc) {
    && EncodeQueue(loc, encodeCh) && WorkerHolds(loc, workers) && OutQueue(loc, outCh)
    && PendingSet(loc, pending) && Consumption(loc, next, wpc)
    && (wpc.WRecv? ==> next !in pending)
    && (wpc.WDone? ==> pending == {} && next == |loc|)
  }

  ghost predicate Order(c: Config, s: State) {
    && |s.flow.jobs| == |s.flow.loc| && |s.flow.workers| == c.workers > 0
    && Phase(s.prod.pc, s.flow.workers, s.flow.encodeCh, s.flow.outCh, s.wr.pc, s.parCh, s.par.pc, s.wr.finalK)
    && Where(s.flow.loc, s.flow.encodeCh, s.flow.workers, s.flow.outCh, s.wr.pending, s.wr.next, s.wr.pc)
  }

  lemma OrderInit(c: Config)
    requires c.workers > 0
    ensures Order(c, Init(c))
  {}

  lemma OrderProducer(c: Config, s: State, a: ProducerAct)
    requires Order(c, s) && ProducerCan(c, s, a)
    ensures Order(c, ProducerDo(c, s, a))
  {
    hide CopyLength, BufText, GetBuf, PutBack, SetCell, CanGet;
    if a.Enqueue? || a.EnqueueLast? {
      Issued(s.flow.loc, s.flow.encodeCh, s.flow.workers, s.flow.outCh, s.wr.pending, s.wr.next, s.wr.pc);
      hide Where;
    } else {
      ProducerKeeps(c, s, a);
      ProducerPhase(c, s, a);
      hide Where, ProducerDo;
    }
  }

  /** Except when it sends a chunk, the producer leaves the jobs alone. */
  lemma ProducerKeeps(c: Config, s: State, a: ProducerAct)
    requires ProducerCan(c, s, a) && !a.Enqueue? && !a.EnqueueLast?
    ensures
      var t := ProducerDo(c, s, a);
      t.flow == s.flow && t.wr == s.wr && t.par == s.par && t.disk == s.disk && t.err == s.err && t.failed == s.failed
  {
    hide CopyLength, BufText, GetBuf, PutBack, SetCell, CanGet;
  }

  lemma ProducerPhase(c: Config, s: State, a: ProducerAct)
    requires Order(c, s) && ProducerCan(c, s, a) && !a.Enqueue? && !a.EnqueueLast?
    ensures
      var t := ProducerDo(c, s, a);
      Phase(t.prod.pc, t.flow.workers, t.flow.encodeCh, t.flow.outCh, t.wr.pc, t.parCh, t.par.pc, t.wr.finalK)
  {
    hide CopyLength, BufText, GetBuf, PutBack, SetCell, CanGet, Where;
    assert a.CloseOutCh? ==> s.flow.workers[0].Exited?;
  }

  lemma Issued(loc: seq<Loc>, encodeCh: seq<nat>, workers: seq<WorkerPc>, outCh: seq<nat>, pending: set<nat>, next: nat, wpc: WriterPc)
    requires Where(loc, encodeCh, workers, outCh, pending, next, wpc) && !wpc.WDone?
    ensures Where(loc + [InEncode], encodeCh + [|loc|], workers, outCh, pending, next, wpc)
  {}

  lemma OrderWorker(c: Config, s: State, w: nat, a: WorkerAct)
    requires Order(c, s) && WorkerCan(c, s, w, a)
    ensures Order(c, WorkerDo(c, s, w, a))
  {
    match a {
      case Take => OrderTake(c, s, w);
      case HandOver => OrderHandOver(c, s, w);
      case _ => OrderWorkerStays(c, s, w, a);
    }
  }

  lemma OrderWorkerStays(c: Config, s: State, w: nat, a: WorkerAct)
    requires Order(c, s) && WorkerCan(c, s, w, a) && !a.Take? && !a.HandOver?
    ensures Order(c, WorkerDo(c, s, w, a))
  {
    hide EncodedMem, CanEncode;
    var workers := WorkerDo(c, s, w, a).flow.workers;
    assert WorkerHolds(s.flow.loc, workers);
  }

  lemma OrderTake(c: Config, s: State, w: nat)
    requires Order(c, s) && WorkerCan(c, s, w, Take)
    ensures Order(c, WorkerDo(c, s, w, Take))
  {
    var idx := s.flow.encodeCh[0];
    MoveKeepsOut(s.flow.loc, s.flow.outCh, idx, AtWorker(w));
    MoveKeepsPending(s.flow.loc, s.wr.pending, idx, AtWorker(w));
    var loc := s.flow.loc[idx := AtWorker(w)];
    assert EncodeQueue(loc, s.flow.encodeCh[1..]);
    assert WorkerHolds(loc, s.flow.workers[w := Got(idx)]);
    hide EncodeQueue, WorkerHolds, OutQueue, PendingSet;
  }

  lemma OrderHandOver(c: Config, s: State, w: nat)
    requires Order(c, s) && WorkerCan(c, s, w, HandOver)
    ensures Order(c, WorkerDo(c, s, w, HandOver))
  {
    var idx := s.flow.workers[w].idx;
    MoveKeepsEncode(s.flow.loc, s.flow.encodeCh, idx, InOut);
    MoveKeepsPending(s.flow.loc, s.wr.pending, idx, InOut);
    var loc := s.flow.loc[idx := InOut];
    assert OutQueue(loc, s.flow.outCh + [idx]);
    assert WorkerHolds(loc, s.flow.workers[w := Idle]);
    hide EncodeQueue, WorkerHolds, OutQueue, PendingSet;
  }

  lemma OrderWriter(c: Config, s: State, a: WriterAct)
    requires Order(c, s) && WriterCan(c, s, a)
    ensures Order(c, WriterDo(c, s, a))
  {
    match a {
      case Receive => OrderReceive(c, s);
      case Scan => OrderScan(c, s);
      case Recycle => OrderRecycle(c, s);
      case Finish => NothingLeft(c, s);
      case _ =>
    }
  }

  // A job's move does not concern the places it neither leaves nor enters.

  lemma MoveKeepsEncode(loc: seq<Loc>, encodeCh: seq<nat>, idx: nat, l: Loc)
    requires EncodeQueue(loc, encodeCh) && idx < |loc| && !loc[idx].InEncode? && !l.InEncode?
    ensures EncodeQueue(loc[idx := l], encodeCh)
  {}

  lemma MoveKeepsWorkers(loc: seq<Loc>, workers: seq<WorkerPc>, idx: nat, l: Loc)
    requires WorkerHolds(loc, workers) && idx < |loc| && !loc[idx].AtWorker? && !l.AtWorker?
    ensures WorkerHolds(loc[idx := l], workers)
  {}

  lemma MoveKeepsOut(loc: seq<Loc>, outCh: seq<nat>, idx: nat, l: Loc)
    requires OutQueue(loc, outCh) && idx < |loc| && !loc[idx].InOut? && !l.InOut?
    ensures OutQueue(loc[idx := l], outCh)
  {}

  lemma MoveKeepsPending(loc: seq<Loc>, pending: set<nat>, idx: nat, l: Loc)
    requires PendingSet(loc, pending) && idx < |loc| && !loc[idx].InPending? && !l.InPending?
    ensures PendingSet(loc[idx := l], pending)
  {}

  lemma OrderReceive(c: Config, s: State)
    requires Order(c, s) && WriterCan(c, s, Receive)
    ensures Order(c, WriterDo(c, s, Receive))
  {
    var idx := s.flow.outCh[0];
    MoveKeepsEncode(s.flow.loc, s.flow.encodeCh, idx, InPending);
    MoveKeepsWorkers(s.flow.loc, s.flow.workers, idx, InPending);
    var loc := s.flow.loc[idx := InPending];
    assert OutQueue(loc, s.flow.outCh[1..]);
    hide EncodeQueue, WorkerHolds;
  }

  lemma OrderScan(c: Config, s: State)
    requires Order(c, s) && WriterCan(c, s, Scan)
    ensures Order(c, WriterDo(c, s, Scan))
  {
    if s.wr.next in s.wr.pending {
      MoveKeepsEncode(s.flow.loc, s.flow.encodeCh, s.wr.next, InHand);
      MoveKeepsWorkers(s.flow.loc, s.flow.workers, s.wr.next, InHand);
      MoveKeepsOut(s.flow.loc, s.flow.outCh, s.wr.next, InHand);
    }
    hide EncodeQueue, WorkerHolds, OutQueue;
  }

  lemma OrderRecycle(c: Config, s: State)
    requires Order(c, s) && WriterCan(c, s, Recycle)
    ensures Order(c, WriterDo(c, s, Recycle))
  {
    MoveKeepsEncode(s.flow.loc, s.flow.encodeCh, s.wr.next, Consumed);
    MoveKeepsWorkers(s.flow.loc, s.flow.workers, s.wr.next, Consumed);
    MoveKeepsOut(s.flow.loc, s.flow.outCh, s.wr.next, Consumed);
    MoveKeepsPending(s.flow.loc, s.wr.pending, s.wr.next, Consumed);
    hide EncodeQueue, WorkerHolds, OutQueue, PendingSet, PutBack;
  }

  /** When the write loop ends, every issued job has been consumed and none is
      left over: the job ordering loss cannot happen. */
  lemma NothingLeft(c: Config, s: State)
    requires Order(c, s) && WriterCan(c, s, Finish)
    ensures s.wr.pending == {} && s.wr.next == |s.flow.jobs|
    ensures Order(c, WriterDo(c, s, Finish))
  {
    AllConsumed(s.flow.loc, s.flow.encodeCh, s.flow.workers, s.flow.outCh, s.wr.pending, s.wr.next);
  }

  lemma AllConsumed(loc: seq<Loc>, encodeCh: seq<nat>, workers: seq<WorkerPc>, outCh: seq<nat>, pending: set<nat>, next: nat)
    requires Where(loc, encodeCh, workers, outCh, pending, next, WRecv)
    requires AllExited(workers) && encodeCh == [] && outCh == []
    ensures pending == {} && next == |loc|
  {
    forall idx | 0 <= idx < |loc|
      ensures loc[idx].Consumed? || loc[idx].InPending?
    {
    }
    assert forall idx: nat :: idx < |loc| ==> loc[idx].Consumed?;
  }

  /** The parity loop leaves the other goroutines alone. */
  lemma ParityKeeps(c: Config, s: State, a: ParityAct)
    requires ParityCan(c, s, a)
    ensures
      var t := ParityDo(c, s, a);
      && t.prod == s.prod && t.flow == s.flow && t.wr == s.wr
      && (t.parCh == s.parCh || (s.parCh != [] && t.parCh == s.parCh[1..]))
      && (t.par.pc.QDone? ==> s.par.pc.QDone? || (ParClosed(s.prod.pc) && s.parCh == []))
  {
    hide CanEncodeWindow, NextPut, EncodedWindow, PutAll, AccValid, FileCodeExists, Written, Noted;
  }

  lemma OrderParity(c: Config, s: State, a: ParityAct)
    requires Order(c, s) && ParityCan(c, s, a)
    ensures Order(c, ParityDo(c, s, a))
  {
    ParityKeeps(c, s, a);
    hide Where, ParityDo, ParityCan;
  }

  lemma OrderStep(c: Config, s: State, a: Action)
    requires Order(c, s) && Can(c, s, a)
    ensures Order(c, Do(c, s, a))
  {
    hide Order;
    match a {
      case Producer(p) => OrderProducer(c, s, p);
      case Worker(w, act) => OrderWorker(c, s, w, act);
      case Writer(r) => OrderWriter(c, s, r);
      case Parity(q) => OrderParity(c, s, q);
    }
  }
}

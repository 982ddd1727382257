/** What even a failing run never does: write a chunk's slots in a wrong place, or give
    the parity loop a chunk whose write did not succeed. */
module PipelineFailures {
  import opened Vault
  import opened Repair
  import opened Encoder
  import opened EncodeLoops
  import opened Writes
  import opened ExpectedWrites
  import opened PipelineState
  import opened PipelineOrder
  import opened PipelineQueue
  import opened PipelineMemory
  import opened PipelineText
  import opened PipelineFile
  import opened PipelineTheorems

  /** A successful write put a chunk's slots at the chunk's offset, or parity q of a
      group at the offset of its window for a group of k chunks. */
  ghost predicate WriteRight(c: Config, jobs: seq<Job>, l: Logged) {
    match l.what
    case DataW(i) =>
      && i < |jobs| && Encodable(c, i, jobs[i].chunk)
      && l.put == Put(c.spec.DataBlobOffset(i), BlobBytes(ChunkBlob(c.cr, c.pfx, i, jobs[i].chunk)))
    case ParW(g, w, q) =>
      exists k: nat :: 1 <= k <= 128 && l.put.off == c.spec.ParityBlobOffset(g, k, q) + w * 32 * 4112
  }

  ghost predicate LogPlaced(c: Config, jobs: seq<Job>, log: seq<Logged>) {
    forall a :: 0 <= a < |log| ==> WriteRight(c, jobs, log[a])
  }

  /** What the parity loop has, and the chunk that it gets next, is in the file. */
  ghost predicate Backed(log: seq<Logged>, w: Wr, acc: seq<Entry>, parCh: seq<Msg>) {
    && (w.pc.WSendBlob? ==> InLog(log, DataW(w.next)))
    && (forall i :: 0 <= i < |acc| ==> InLog(log, DataW(acc[i].idx)))
    && (forall i :: 0 <= i < |parCh| && parCh[i].DataMsg? ==> InLog(log, DataW(parCh[i].e.idx)))
  }

  ghost predicate Aimed(c: Config, s: State) {
    && (!s.disk.raced ==> CursorOk(c, s) && LogPlaced(c, s.flow.jobs, s.disk.log))
    && Backed(s.disk.log, s.wr, s.par.acc, s.parCh)
  }

  lemma LogLater(c: Config, jobs: seq<Job>, later: seq<Job>, log: seq<Logged>)
    requires LogPlaced(c, jobs, log) && |jobs| <= |later|
    requires forall i :: 0 <= i < |jobs| ==> later[i].chunk == jobs[i].chunk
    ensures LogPlaced(c, later, log)
  {
    hide Encodable;
    forall a | 0 <= a < |log|
      ensures WriteRight(c, later, log[a])
    {
      assert WriteRight(c, jobs, log[a]);
    }
  }

  /** Steps that leave the file and the two loops alone. */
  lemma CursorKept(c: Config, s: State, t: State)
    requires CursorOk(c, s) && t.wr.pc == s.wr.pc && t.wr.next == s.wr.next && t.par == s.par && t.disk == s.disk
    ensures CursorOk(c, t)
  {
    hide TaggedColumns;
  }

  lemma InLonger(log: seq<Logged>, last: Logged)
    ensures InLog(log + [last], last.what)
    ensures forall l :: InLog(log, l) ==> InLog(log + [last], l)
  {
    assert (log + [last])[|log|] == last;
    forall l | InLog(log, l)
      ensures InLog(log + [last], l)
    {
      var a :| 0 <= a < |log| && log[a].what == l;
      assert (log + [last])[a].what == l;
    }
  }

  lemma AimedProducer(c: Config, s: State, a: ProducerAct)
    requires Aimed(c, s) && ProducerCan(c, s, a)
    ensures Aimed(c, ProducerDo(c, s, a))
  {
    hide CopyLength, BufText, GetBuf, PutBack, SetCell, CanGet, InLog, LogPlaced, CursorOk;
    if !s.disk.raced {
      LogLater(c, s.flow.jobs, ProducerDo(c, s, a).flow.jobs, s.disk.log);
      CursorKept(c, s, ProducerDo(c, s, a));
    }
  }

  lemma AimedWorker(c: Config, s: State, w: nat, a: WorkerAct)
    requires Aimed(c, s) && WorkerCan(c, s, w, a)
    ensures Aimed(c, WorkerDo(c, s, w, a))
  {
    hide EncodedMem, CanTake, Fits, InLog, LogPlaced, CursorOk;
    if !s.disk.raced {
      LogLater(c, s.flow.jobs, WorkerDo(c, s, w, a).flow.jobs, s.disk.log);
      CursorKept(c, s, WorkerDo(c, s, w, a));
    }
  }

  lemma AimedWrite(c: Config, s: State)
    requires Order(c, s) && Memory(c, s) && Aimed(c, s) && WriterCan(c, s, WriteOk)
    ensures Aimed(c, WriterDo(c, s, WriteOk))
  {
    hide Order, Memory, InLog, DiskData, Overwrite, NextPut, BlobBytes, ChunkBlob, Fits;
    var entry := Logged(DataW(s.wr.next), Put(s.disk.pos, DiskData(s)));
    InLonger(s.disk.log, entry);
    if !s.disk.raced {
      HandDisk(c, s);
      assert WriteRight(c, s.flow.jobs, entry);
    }
  }

  /** A chunk given to the parity loop is the one in hand, after its write. */
  predicate Given(w: Wr, m: Msg) {
    m.DataMsg? ==> w.pc.WSendBlob? && m.e.idx == w.next
  }

  /** The other steps of the write loop leave the log and the parity loop's state. */
  lemma WriterLeaves(c: Config, s: State, a: WriterAct)
    requires WriterCan(c, s, a) && !a.WriteOk?
    ensures
      var t := WriterDo(c, s, a);
      && t.disk.log == s.disk.log && t.par == s.par && (s.disk.raced ==> t.disk.raced)
      && |t.flow.jobs| == |s.flow.jobs|
      && (forall i :: 0 <= i < |s.flow.jobs| ==> t.flow.jobs[i].chunk == s.flow.jobs[i].chunk)
      && (t.parCh == s.parCh || exists m :: t.parCh == s.parCh + [m] && Given(s.wr, m))
      && !t.wr.pc.WSendBlob?
  {
    hide DiskData, Overwrite, PutBack;
    if a.SendBlob? || a.SendFlush? {
      var t := WriterDo(c, s, a);
      assert t.parCh == s.parCh + [t.parCh[|s.parCh|]];
    }
  }

  lemma BackedWith(log: seq<Logged>, w: Wr, acc: seq<Entry>, parCh: seq<Msg>, m: Msg, later: Wr)
    requires Backed(log, w, acc, parCh) && !later.pc.WSendBlob?
    requires Given(w, m)
    ensures Backed(log, later, acc, parCh + [m])
  {
    hide InLog;
  }

  lemma WriterCursor(c: Config, s: State, a: WriterAct)
    requires WriterCan(c, s, a) && !a.WriteOk? && CursorOk(c, s) && !WriterDo(c, s, a).disk.raced
    ensures CursorOk(c, WriterDo(c, s, a))
  {
    hide TaggedColumns, Overwrite, PutBack, BlobBytes;
  }

  lemma AimedWriter(c: Config, s: State, a: WriterAct)
    requires Order(c, s) && Memory(c, s) && Aimed(c, s) && WriterCan(c, s, a)
    ensures Aimed(c, WriterDo(c, s, a))
  {
    if a.WriteOk? {
      AimedWrite(c, s);
    } else {
      hide Order, Memory, InLog, LogPlaced, CursorOk, WriterDo, WriterCan;
      WriterLeaves(c, s, a);
      var t := WriterDo(c, s, a);
      if !t.disk.raced {
        LogLater(c, s.flow.jobs, t.flow.jobs, s.disk.log);
        WriterCursor(c, s, a);
      }
      if t.parCh != s.parCh {
        var m :| t.parCh == s.parCh + [m] && Given(s.wr, m);
        BackedWith(s.disk.log, s.wr, s.par.acc, s.parCh, m, t.wr);
      }
    }
  }

  lemma AimedWriteParity(c: Config, s: State)
    requires Queue(c, s) && Aimed(c, s) && ParityCan(c, s, WriteParity)
    ensures Aimed(c, ParityDo(c, s, WriteParity))
  {
    hide InLog, Overwrite, TaggedColumns;
    var pc := s.par.pc;
    var entry := Logged(ParW(pc.g, pc.w, pc.q), Put(s.disk.pos, NextPut(c, s).data));
    InLonger(s.disk.log, entry);
    if !s.disk.raced {
      assert 1 <= |s.par.acc| <= 128;
      assert WriteRight(c, s.flow.jobs, entry);
    }
  }

  /** The other steps of the parity loop leave the log, and take messages in order. */
  lemma ParityLeaves(c: Config, s: State, a: ParityAct)
    requires ParityCan(c, s, a) && !a.WriteParity?
    ensures
      var t := ParityDo(c, s, a);
      && t.disk.log == s.disk.log && t.flow == s.flow && t.wr == s.wr && (s.disk.raced ==> t.disk.raced)
    ensures Backed(s.disk.log, s.wr, s.par.acc, s.parCh) ==>
      Backed(s.disk.log, s.wr, ParityDo(c, s, a).par.acc, ParityDo(c, s, a).parCh)
  {
    hide InLog, NextPut, CanEncodeWindow, EncodedWindow, PutAll, AccValid, FileCodeExists, Overwrite;
  }

  lemma ParityCursor(c: Config, s: State, a: ParityAct)
    requires ParityCan(c, s, a) && !a.WriteParity? && CursorOk(c, s) && !ParityDo(c, s, a).disk.raced
    ensures CursorOk(c, ParityDo(c, s, a))
  {
    hide InLog, CanEncodeWindow, EncodedWindow, PutAll, AccValid, FileCodeExists, Overwrite, ParityPut;
  }

  lemma AimedParity(c: Config, s: State, a: ParityAct)
    requires Queue(c, s) && Aimed(c, s) && ParityCan(c, s, a)
    ensures Aimed(c, ParityDo(c, s, a))
  {
    if a.WriteParity? {
      AimedWriteParity(c, s);
    } else {
      hide Queue, InLog, LogPlaced, Backed, CursorOk, ParityDo, ParityCan;
      ParityLeaves(c, s, a);
      if !ParityDo(c, s, a).disk.raced {
        ParityCursor(c, s, a);
      }
    }
  }

  lemma AimedStep(c: Config, s: State, a: Action)
    requires Order(c, s) && Queue(c, s) && Memory(c, s) && Aimed(c, s) && Can(c, s, a)
    ensures Aimed(c, Do(c, s, a))
  {
    hide Order, Queue, Memory, Aimed;
    match a {
      case Producer(p) => AimedProducer(c, s, p);
      case Worker(w, act) => AimedWorker(c, s, w, act);
      case Writer(r) => AimedWriter(c, s, r);
      case Parity(q) => AimedParity(c, s, q);
    }
  }

  lemma {:induction false} RunsAimed(c: Config, run: seq<Action>)
    requires ConfigOk(c) && IsRun(c, run)
    ensures Aimed(c, After(c, run))
    decreases |run|
  {
    if run == [] {
    } else {
      var before := run[..|run| - 1];
      RunsAimed(c, before);
      RunsKeepInvariant(c, before);
      hide Order, Queue, Memory, Text, File, Size, Aimed, Can, Do;
      AimedStep(c, After(c, before), run[|run| - 1]);
    }
  }

  /** In every run, failing or not: a chunk that reached the parity loop was written;
      and as long as the loops never raced, so was every chunk at its own offset, with
      its own slots, and every parity window at an offset of its group. */
  lemma EvenWhenFailing(c: Config, run: seq<Action>)
    requires ConfigOk(c) && IsRun(c, run)
    ensures
      var s := After(c, run);
      && (!s.disk.raced ==> LogPlaced(c, s.flow.jobs, s.disk.log))
      && (forall i :: 0 <= i < |s.par.acc| ==> InLog(s.disk.log, DataW(s.par.acc[i].idx)))
      && (forall i :: 0 <= i < |s.parCh| && s.parCh[i].DataMsg? ==> InLog(s.disk.log, DataW(s.parCh[i].e.idx)))
  {
    hide After, IsRun, InLog, LogPlaced, CursorOk;
    RunsAimed(c, run);
  }
}

/** A plaintext of at most one group needs no assumption about the cursor: its
    parity is only written when all its data is. */
module PipelineOneGroup {
  import opened Bytes
  import opened Layout
  import opened Vault
  import opened Encoder
  import opened ExpectedWrites
  import opened PipelineState
  import opened PipelineOrder
  import opened PipelineQueue
  import opened PipelineMemory
  import opened PipelineText
  import opened PipelineFile
  import opened PipelineTheorems

  ghost predicate OneGroup(c: Config) {
    ConfigOk(c) && |PlanChunks(c)| <= FILE_GROUP_CHUNKS
  }

  lemma GroupZero(v: Vault, g: nat)
    requires v.spec.Valid() && v.chunkCount <= FILE_GROUP_CHUNKS && g < v.Groups()
    ensures g == 0 && v.K(g) == v.chunkCount >= 1
  {}

  /** The parity loop's work on the group means every chunk has been handed to it. */
  lemma BusyMeansAllSent(c: Config, s: State)
    requires OneGroup(c) && Queue(c, s) && Memory(c, s) && File(c, s) && !s.failed && !s.disk.raced && Busy(s.par.pc)
    ensures SentCount(s.wr) >= |PlanChunks(c)|
  {
    hide QueueOk, MemOk, JobsHave, Stages, EntriesHave, FlushesOk, LogRight, LogComplete, OutOk, CursorOk, PlanChunks;
    PlanOk(c);
    AccOrder(c, s);
    GroupZero(PlanVault(c), s.par.pg);
    assert s.par.acc[|s.par.acc| - 1].idx < SentCount(s.wr);
  }

  lemma NotWriting(c: Config, s: State)
    requires OneGroup(c) && Order(c, s) && Queue(c, s) && Memory(c, s) && Text(c, s) && File(c, s)
    requires !s.failed && !s.disk.raced && Busy(s.par.pc)
    ensures !s.wr.pc.WSeek? && !s.wr.pc.WWrite?
  {
    hide Queue, Memory, Text, File, PlanChunks, Phase, EncodeQueue, WorkerHolds, OutQueue, PendingSet, ConfigOk;
    BusyMeansAllSent(c, s);
    JobsArePlanned(c, s);
  }

  /** A step keeps a run without failures free of races. */
  lemma StaysUnraced(c: Config, s: State, a: Action)
    requires OneGroup(c) && Order(c, s) && Queue(c, s) && Memory(c, s) && Text(c, s) && File(c, s)
    requires !s.failed && !s.disk.raced && Can(c, s, a)
    ensures !Do(c, s, a).disk.raced
  {
    hide OneGroup, Order, Queue, Memory, Text, File;
    if Busy(s.par.pc) {
      NotWriting(c, s);
    }
    match a {
      case Producer(p) => ProducerUnraced(c, s, p);
      case Worker(w, act) => WorkerKeeps(c, s, w, act);
      case Writer(r) => WriterUnraced(c, s, r);
      case Parity(q) => ParityUnraced(c, s, q);
    }
  }

  lemma ProducerUnraced(c: Config, s: State, a: ProducerAct)
    requires ProducerCan(c, s, a)
    ensures ProducerDo(c, s, a).disk == s.disk
  {
    hide CopyLength, BufText, GetBuf, PutBack, SetCell, CanGet;
  }

  lemma WriterUnraced(c: Config, s: State, a: WriterAct)
    requires WriterCan(c, s, a) && !s.disk.raced && (a.SeekOk? ==> !s.par.pc.QWrite?)
    ensures !WriterDo(c, s, a).disk.raced
  {
    hide PutBack, DiskData;
  }

  lemma ParityUnraced(c: Config, s: State, a: ParityAct)
    requires ParityCan(c, s, a) && !s.disk.raced && (a.SeekParity? ==> !s.wr.pc.WWrite?)
    ensures !ParityDo(c, s, a).disk.raced
  {
    hide CanEncodeWindow, NextPut, EncodedWindow, PutAll, AccValid;
  }

  lemma StepFailed(c: Config, s: State, a: Action)
    requires Can(c, s, a) && s.failed
    ensures Do(c, s, a).failed
  {
    match a {
      case Producer(p) => ProducerFailed(c, s, p);
      case Worker(w, act) => WorkerKeeps(c, s, w, act);
      case Writer(r) => WriterKeeps(c, s, r);
      case Parity(q) => ParityFailed(c, s, q);
    }
  }

  lemma ProducerFailed(c: Config, s: State, a: ProducerAct)
    requires ProducerCan(c, s, a)
    ensures ProducerDo(c, s, a).failed == s.failed
  {
    hide CopyLength, BufText, GetBuf, PutBack, SetCell, CanGet;
  }

  lemma {:induction false} NeverRaces(c: Config, run: seq<Action>)
    requires OneGroup(c) && IsRun(c, run) && !After(c, run).failed
    ensures !After(c, run).disk.raced
    decreases |run|
  {
    if run == [] {
    } else {
      var before, a := run[..|run| - 1], run[|run| - 1];
      hide OneGroup, Order, Queue, Memory, Text, File, Size, Can, Do;
      assert ConfigOk(c) by { OneGroupOk(c); }
      if After(c, before).failed {
        StepFailed(c, After(c, before), a);
      }
      NeverRaces(c, before);
      RunsKeepInvariant(c, before);
      StaysUnraced(c, After(c, before), a);
    }
  }

  lemma OneGroupOk(c: Config)
    requires OneGroup(c)
    ensures ConfigOk(c)
  {}

  /** For a plaintext of at most 128 chunks every interleaving in which Drain
      returns no error leaves the sequential encoder's file. */
  lemma OneGroupRefinesSequential(c: Config, run: seq<Action>)
    requires OneGroup(c) && IsRun(c, run) && After(c, run).prod.pc.Returned? && !After(c, run).err
    ensures Plan(PlanVault(c), c.pfx, PlanChunks(c))
    ensures
      var s, v := After(c, run), PlanVault(c);
      && Chunks(s.flow.jobs) == PlanChunks(c) && s.wr.plainSize == |Concat(c.calls)|
      && |s.disk.file| == v.Total() * BLOB_DISK_SIZE
      && ImageOf(s.disk.file, v.Total()) == SeqImage(v, c.pfx, PlanChunks(c))
  {
    hide OneGroup, IsRun, After, Plan, SeqImage, ImageOf;
    assert ConfigOk(c) by { OneGroupOk(c); }
    ErrorMeansFailure(c, run);
    NeverRaces(c, run);
    DrainRefinesSequential(c, run);
  }
}

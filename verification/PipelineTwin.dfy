/** A run in which the two loops raced once for the cursor, next to the run that did
    the same steps without the race: their states differ in the file alone, so what
    is known of the second tells what the first leaves behind. */
module PipelineTwin {
  import opened Bytes
  import opened Layout
  import opened Vault
  import opened Format
  import opened Repair
  import opened Encoder
  import opened EncodeLoops
  import opened Writes
  import opened ExpectedWrites
  import opened PipelineState
  import opened PipelineOrder
  import opened PipelineQueue
  import opened PipelineMemory
  import opened PipelineText
  import opened PipelineFile
  import opened PipelineTheorems
  import opened PipelineProgress
  import opened PipelineTermination
  import opened PipelineOneGroup
  import opened PipelineSchedule

  // ---------- single bytes of a file ----------

  /** Byte p of the file; bytes that are not there read as zero. */
  function ByteAt(f: Bytes, p: nat): byte {
    if p < |f| then f[p] else 0
  }

  lemma OverwriteByte(f: Bytes, off: nat, b: Bytes, p: nat)
    ensures ByteAt(Overwrite(f, off, b), p) == if off <= p < off + |b| then b[p - off] else ByteAt(f, p)
  {}

  lemma {:induction false} NeverWritten(log: seq<Put>, p: nat)
    requires forall a :: 0 <= a < |log| ==> p < log[a].off || log[a].End() <= p
    ensures ByteAt(Apply([], log), p) == 0
    decreases |log|
  {
    hide Overwrite;
    var n := |log|;
    if n == 0 {
    } else {
      NeverWritten(log[..n - 1], p);
      OverwriteByte(Apply([], log[..n - 1]), log[n - 1].off, log[n - 1].data, p);
    }
  }

  /** Where slot 352 of a blob begins. */
  const LATE_SLOT: nat := 352 * SLOT_SIZE

  /** The file is not one that holds this blob: the first byte of slot 352 was never
      written, and that of slot 0 was not either or is what belongs to slot 352. */
  predicate Spoiled(f: Bytes, e: Put)
    requires |e.data| == BLOB_DISK_SIZE
  {
    && ByteAt(f, e.off + LATE_SLOT) == 0
    && (ByteAt(f, e.off) == 0 || ByteAt(f, e.off) == e.data[LATE_SLOT])
  }

  lemma SpoiledKept(f: Bytes, e: Put, p: Put)
    requires |e.data| == BLOB_DISK_SIZE && Spoiled(f, e) && Apart(p, e)
    ensures Spoiled(Overwrite(f, p.off, p.data), e)
  {
    hide Overwrite, ByteAt;
    OverwriteByte(f, p.off, p.data, e.off);
    OverwriteByte(f, p.off, p.data, e.off + LATE_SLOT);
  }

  /** One window written in its place, and the blob right behind it instead of in its
      own place, spoil the file. */
  lemma SpoiledByRace(f: Bytes, e: Put, off: nat, window: Bytes, k: nat)
    requires |e.data| == BLOB_DISK_SIZE && e.off == off + k * BLOB_DISK_SIZE && k > 0
    requires ByteAt(f, e.off) == 0 && ByteAt(f, e.off + LATE_SLOT) == 0 && |window| == WINDOW * SLOT_SIZE
    ensures Spoiled(Overwrite(Overwrite(f, off, window), off + |window|, e.data), e)
  {
    hide Overwrite, ByteAt;
    var g := Overwrite(f, off, window);
    OverwriteByte(f, off, window, e.off);
    OverwriteByte(f, off, window, e.off + LATE_SLOT);
    OverwriteByte(g, off + |window|, e.data, e.off);
    OverwriteByte(g, off + |window|, e.data, e.off + LATE_SLOT);
  }

  lemma HoldsByte(f: Bytes, e: Put, p: nat)
    requires Holds(f, e) && p < |e.data|
    ensures ByteAt(f, e.off + p) == e.data[p]
  {
    assert f[e.off..e.End()][p] == f[e.off + p];
  }

  lemma SpoiledHoldsNot(f: Bytes, e: Put)
    requires |e.data| == BLOB_DISK_SIZE && Spoiled(f, e) && Holds(f, e)
    ensures e.data[0] == 0
  {
    hide Holds;
    HoldsByte(f, e, 0);
    HoldsByte(f, e, LATE_SLOT);
  }

  // ---------- the first byte of a blob ----------

  /** The blob of a chunk begins with the magic number of its header. */
  lemma BlobBegins(cr: Crypto, pfx: Bytes, i: nat, plain: Bytes)
    requires |pfx| == 4 && TagsOk(cr) && IntraOk(cr) && Fits(cr, pfx, i, plain)
    ensures |BlobBytes(ChunkBlob(cr, pfx, i, plain))| == BLOB_DISK_SIZE
    ensures BlobBytes(ChunkBlob(cr, pfx, i, plain))[0] == MAGIC_CHUNK[0] != 0
  {
    hide Blocks, BlobBytes, Fits, BigEndian, SlotBytes, IntraOk, TagsOk, DataArea, Start, AllGood;
    var blob := ChunkBlob(cr, pfx, i, plain);
    ChunkBlobFacts(cr, pfx, i, plain);
    BlobBytesSlot(blob, 0);
    SlotBegins(blob[0]);
    var data := DataShards(cr, pfx, i, plain);
    assert blob[0].payload == Payloads(blob)[0] == data[0];
    DataAreaLength();
    BlocksAt(DataArea(cr, pfx, i, plain), SHARD_SIZE, DATA_SHARDS, 0);
    AreaBegins(cr, pfx, i, plain);
    assert BlobBytes(blob)[0..SLOT_SIZE][0] == BlobBytes(blob)[0];
  }

  lemma SlotBegins(s: Slot)
    requires Sized(s)
    ensures |SlotBytes(s)| == SLOT_SIZE && SlotBytes(s)[0] == s.payload[0]
  {}

  lemma AreaBegins(cr: Crypto, pfx: Bytes, i: nat, plain: Bytes)
    requires |pfx| == 4 && Fits(cr, pfx, i, plain)
    ensures Start(0, SHARD_SIZE) + SHARD_SIZE <= |DataArea(cr, pfx, i, plain)|
    ensures Block(DataArea(cr, pfx, i, plain), SHARD_SIZE, 0)[0] == MAGIC_CHUNK[0]
  {
    hide BigEndian, Fits;
    assert Start(0, SHARD_SIZE) == 0;
    assert Marshal(HeaderFor(pfx, i, plain))[0] == MAGIC_CHUNK[0];
  }

  /** The due write of chunk 128. */
  ghost function DueBlobWrite(c: Config): (e: Put)
    requires ManyGroups(c)
    ensures |e.data| == BLOB_DISK_SIZE && e.off == c.spec.DataBlobOffset(FILE_GROUP_CHUNKS)
    ensures Plan(PlanVault(c), c.pfx, PlanChunks(c)) && Due(PlanVault(c), DataW(FILE_GROUP_CHUNKS))
    ensures e == Expect(PlanVault(c), c.pfx, PlanChunks(c), DataW(FILE_GROUP_CHUNKS))
    ensures e.data[0] != 0
  {
    hide PlanChunks, Expect, BlobBytes, ChunkBlob, Fits;
    PlanOk(c);
    ExpectData(PlanVault(c), c.pfx, PlanChunks(c), FILE_GROUP_CHUNKS);
    BlobBegins(c.cr, c.pfx, FILE_GROUP_CHUNKS, PlanChunks(c)[FILE_GROUP_CHUNKS]);
    Expect(PlanVault(c), c.pfx, PlanChunks(c), DataW(FILE_GROUP_CHUNKS))
  }

  // ---------- twins ----------

  /** The states differ in the file alone; who is about to write has the same cursor. */
  predicate Twin(s: State, t: State) {
    s == t.(disk := s.disk) && (t.wr.pc.WWrite? || t.par.pc.QWrite? ==> s.disk.pos == t.disk.pos)
  }

  /** An unraced state that is not the last has a step that neither fails nor races. */
  lemma CalmStep(c: Config, t: State) returns (a: Action)
    requires ConfigOk(c) && Invariants(c, t) && File(c, t) && !t.failed && !t.disk.raced && !t.prod.pc.Returned?
    ensures Ordinary(a) && Can(c, t, a) && !Do(c, t, a).disk.raced
  {
    hide ConfigOk, Order, Queue, Memory, Text, FileOk, NextPut;
    if t.wr.pc.WWrite? {
      HandIsReady(c, t);
      a := Step(c, t, Writer(WriteOk));
      WriterUnraced(c, t, WriteOk);
    } else if t.par.pc.QWrite? {
      a := Step(c, t, Action.Parity(WriteParity));
      ParityUnraced(c, t, WriteParity);
    } else {
      a := SomeStep(c, t);
      match a {
        case Producer(p) => ProducerUnraced(c, t, p);
        case Worker(w, act) => WorkerDisk(c, t, w, act);
        case Writer(r) => WriterUnraced(c, t, r);
        case Parity(q) => ParityUnraced(c, t, q);
      }
    }
  }

  lemma WorkerDisk(c: Config, s: State, w: nat, a: WorkerAct)
    requires WorkerCan(c, s, w, a)
    ensures WorkerDo(c, s, w, a).disk == s.disk && (!a.EncodeFail? ==> WorkerDo(c, s, w, a).failed == s.failed)
  {
    hide EncodedMem, CanTake, Fits;
  }

  /** Twins can do the same steps and stay twins, as long as the second does not race. */
  lemma TwinStep(c: Config, s: State, t: State, a: Action)
    requires Twin(s, t) && Can(c, t, a) && Ordinary(a) && !t.disk.raced && !Do(c, t, a).disk.raced
    requires t.wr.pc.WWrite? ==> !t.par.pc.QWrite?
    ensures Can(c, s, a) && Twin(Do(c, s, a), Do(c, t, a))
  {
    match a {
      case Producer(p) => ProducerTwin(c, s, t, p);
      case Worker(w, act) => WorkerTwin(c, s, t, w, act);
      case Writer(r) => WriterTwin(c, s, t, r);
      case Parity(q) => ParityTwin(c, s, t, q);
    }
  }

  lemma ProducerTwin(c: Config, s: State, t: State, a: ProducerAct)
    requires Twin(s, t) && ProducerCan(c, t, a)
    ensures ProducerCan(c, s, a) && Twin(ProducerDo(c, s, a), ProducerDo(c, t, a))
  {
    hide CopyLength, BufText, GetBuf, PutBack, SetCell, CanGet;
  }

  lemma WorkerTwin(c: Config, s: State, t: State, w: nat, a: WorkerAct)
    requires Twin(s, t) && WorkerCan(c, t, w, a)
    ensures WorkerCan(c, s, w, a) && Twin(WorkerDo(c, s, w, a), WorkerDo(c, t, w, a))
  {
    hide CanTake, Fits, Take3, SetCell, PutBack;
    if a.EncodeOk? {
      var idx := t.flow.workers[w].idx;
      assert CanEncode(c, s, idx, a.blob, a.par, a.disk) &&
        EncodedMem(c, s, idx, a.blob, a.par, a.disk) == EncodedMem(c, t, idx, a.blob, a.par, a.disk);
    }
    hide CanEncode, EncodedMem;
  }

  lemma WriterTwin(c: Config, s: State, t: State, a: WriterAct)
    requires Twin(s, t) && WriterCan(c, t, a) && !a.SeekFail? && !a.WriteFail? && !WriterDo(c, t, a).disk.raced
    requires t.wr.pc.WWrite? ==> !t.par.pc.QWrite?
    ensures WriterCan(c, s, a) && Twin(WriterDo(c, s, a), WriterDo(c, t, a))
  {
    hide PutBack, Overwrite;
  }

  lemma ParityTwin(c: Config, s: State, t: State, a: ParityAct)
    requires Twin(s, t) && ParityCan(c, t, a) && !ParityDo(c, t, a).disk.raced
    requires !a.EncodeWindowFail? && !a.SeekParityFail? && !a.WriteParityFail?
    requires t.wr.pc.WWrite? ==> !t.par.pc.QWrite?
    ensures ParityCan(c, s, a) && Twin(ParityDo(c, s, a), ParityDo(c, t, a))
  {
    hide ParityPut, WindowEncoded, PutAll, AccValid, FileCodeExists, Overwrite, Areas, FileCodeOk;
  }

  // ---------- the spoiled file stays spoiled ----------

  /** A due write other than that of chunk 128 leaves its place alone. */
  lemma OtherWriteApart(c: Config, l: Label)
    requires ManyGroups(c) && Plan(PlanVault(c), c.pfx, PlanChunks(c))
    requires Due(PlanVault(c), l) && l != DataW(FILE_GROUP_CHUNKS)
    ensures Apart(Expect(PlanVault(c), c.pfx, PlanChunks(c), l), DueBlobWrite(c))
  {
    hide Expect, Plan, PlanChunks, Apart;
    ExpectApart(PlanVault(c), c.pfx, PlanChunks(c), l, DataW(FILE_GROUP_CHUNKS));
  }

  /** The unraced state has written chunk 128, and its twin's file is spoiled. */
  ghost predicate SpoiledTwin(c: Config, s: State, t: State) {
    ManyGroups(c) && Twin(s, t) && InLog(t.disk.log, DataW(FILE_GROUP_CHUNKS)) && Spoiled(s.disk.file, DueBlobWrite(c))
  }

  lemma SpoiledStep(c: Config, s: State, t: State, a: Action)
    requires SpoiledTwin(c, s, t) && Invariants(c, t) && File(c, t) && !t.failed && !t.disk.raced
    requires Can(c, t, a) && Ordinary(a) && Can(c, s, a)
    ensures Spoiled(Do(c, s, a).disk.file, DueBlobWrite(c)) && InLog(Do(c, t, a).disk.log, DataW(FILE_GROUP_CHUNKS))
  {
    hide ManyGroups, Order, Queue, Memory, Text, FileOk, Twin, Spoiled, InLog, Shards64;
    match a {
      case Producer(p) => ProducerUnraced(c, s, p); ProducerUnraced(c, t, p);
      case Worker(w, act) => WorkerDisk(c, s, w, act); WorkerDisk(c, t, w, act);
      case Writer(r) =>
        if r.WriteOk? {
          DataSpoiled(c, s, t);
        } else {
          WriterNoWrite(c, s, r);
          WriterNoWrite(c, t, r);
        }
      case Parity(q) =>
        if q.WriteParity? {
          ParitySpoiled(c, s, t);
        } else {
          ParityNoWrite(c, s, q);
          ParityNoWrite(c, t, q);
        }
    }
  }

  lemma WriterNoWrite(c: Config, s: State, a: WriterAct)
    requires WriterCan(c, s, a) && !a.WriteOk? && !a.WriteFail?
    ensures WriterDo(c, s, a).disk.file == s.disk.file && WriterDo(c, s, a).disk.log == s.disk.log
  {
    hide PutBack;
  }

  lemma ParityNoWrite(c: Config, s: State, a: ParityAct)
    requires ParityCan(c, s, a) && !a.WriteParity? && !a.WriteParityFail?
    ensures ParityDo(c, s, a).disk.file == s.disk.file && ParityDo(c, s, a).disk.log == s.disk.log
  {
    hide CanEncodeWindow, NextPut, EncodedWindow, PutAll, AccValid, FileCodeExists;
  }

  lemma LogLonger(log: seq<Logged>, l: Label, entry: Logged)
    requires InLog(log, l)
    ensures InLog(log + [entry], l)
  {
    var a :| 0 <= a < |log| && log[a].what == l;
    assert (log + [entry])[a].what == l;
  }

  /** The write loop's next write is due and not in the log. */
  lemma NextDataDue(c: Config, t: State)
    requires ManyGroups(c) && Order(c, t) && Memory(c, t) && Text(c, t) && File(c, t) && !t.failed && !t.disk.raced
    requires t.wr.pc.WWrite?
    requires InLog(t.disk.log, DataW(FILE_GROUP_CHUNKS))
    ensures Plan(PlanVault(c), c.pfx, PlanChunks(c)) && DiskValid(t) && Due(PlanVault(c), DataW(t.wr.next))
    ensures Put(t.disk.pos, DiskData(t)) == Expect(PlanVault(c), c.pfx, PlanChunks(c), DataW(t.wr.next))
    ensures t.wr.next != FILE_GROUP_CHUNKS && !t.par.pc.QWrite?
  {
    hide Order, Memory, Text, PlanChunks, Expect, Plan, DiskData, LogRight, OutOk, BusyOk, Puts, Apply, InLog, FlushesOk;
    assert ConfigOk(c) by { ManyOk(c); }
    hide ConfigOk;
    PlanOk(c);
    DataDue(c, t);
  }

  lemma DataSpoiled(c: Config, s: State, t: State)
    requires SpoiledTwin(c, s, t) && Invariants(c, t) && File(c, t) && !t.failed && !t.disk.raced
    requires WriterCan(c, t, WriteOk) && WriterCan(c, s, WriteOk)
    ensures Spoiled(WriterDo(c, s, WriteOk).disk.file, DueBlobWrite(c))
    ensures InLog(WriterDo(c, t, WriteOk).disk.log, DataW(FILE_GROUP_CHUNKS))
  {
    hide ManyGroups, Order, Queue, Memory, Text, File, Spoiled, InLog, Shards64, Overwrite, Expect, Plan, PlanChunks, Apart;
    NextDataDue(c, t);
    OtherWriteApart(c, DataW(t.wr.next));
    SpoiledKept(s.disk.file, DueBlobWrite(c), Put(t.disk.pos, DiskData(t)));
    assert DiskData(s) == DiskData(t) && s.disk.pos == t.disk.pos;
    LogLonger(t.disk.log, DataW(FILE_GROUP_CHUNKS), Logged(DataW(t.wr.next), Put(t.disk.pos, DiskData(t))));
  }

  lemma ParitySpoiled(c: Config, s: State, t: State)
    requires SpoiledTwin(c, s, t) && Invariants(c, t) && File(c, t) && !t.failed && !t.disk.raced
    requires ParityCan(c, t, WriteParity) && ParityCan(c, s, WriteParity)
    ensures Spoiled(ParityDo(c, s, WriteParity).disk.file, DueBlobWrite(c))
    ensures InLog(ParityDo(c, t, WriteParity).disk.log, DataW(FILE_GROUP_CHUNKS))
  {
    hide ManyGroups, Order, Queue, Memory, Text, Spoiled, InLog, Shards64, Overwrite, Expect, Plan, PlanChunks;
    hide Apart, ParityPut;
    hide FileOk;
    NextIsDue(c, t);
    ParityCursor(c, t);
    OtherWriteApart(c, ParW(t.par.pg, t.par.pc.w, t.par.pc.q));
    assert NextPut(c, s) == NextPut(c, t) && s.disk.pos == t.disk.pos;
    var put := NextPut(c, t);
    SpoiledKept(s.disk.file, DueBlobWrite(c), put);
    LogLonger(t.disk.log, DataW(FILE_GROUP_CHUNKS), Logged(ParW(t.par.pc.g, t.par.pc.w, t.par.pc.q), Put(t.disk.pos, put.data)));
  }

  lemma ParityCursor(c: Config, t: State)
    requires File(c, t) && !t.failed && !t.disk.raced && t.par.pc.QWrite?
    ensures OutValid(t.par.pc) && t.disk.pos == NextPut(c, t).off && !t.wr.pc.WWrite?
  {
    hide ConfigOk, PlanChunks, LogRight, LogComplete, OutOk, BusyOk, Puts, Apply, NextPut, FlushesOk;
  }

  lemma OneWriter(c: Config, t: State)
    requires File(c, t) && !t.failed && !t.disk.raced
    ensures t.wr.pc.WWrite? ==> !t.par.pc.QWrite?
  {
    hide ConfigOk, PlanChunks, LogRight, LogComplete, OutOk, BusyOk, Puts, Apply, NextPut, FlushesOk;
  }

  // ---------- to the end ----------

  /** Ordinary steps only add to the log, and fail nothing. */
  lemma StepKeepsLog(c: Config, s: State, a: Action)
    requires Can(c, s, a) && Ordinary(a)
    ensures Do(c, s, a).failed == s.failed
    ensures |s.disk.log| <= |Do(c, s, a).disk.log| && Do(c, s, a).disk.log[..|s.disk.log|] == s.disk.log
  {
    match a {
      case Producer(p) => ProducerUnraced(c, s, p); ProducerFailed(c, s, p);
      case Worker(w, act) => WorkerDisk(c, s, w, act);
      case Writer(r) => WriterLog(c, s, r);
      case Parity(q) => ParityLog(c, s, q);
    }
  }

  lemma WriterLog(c: Config, s: State, a: WriterAct)
    requires WriterCan(c, s, a) && !a.SeekFail? && !a.WriteFail?
    ensures WriterDo(c, s, a).failed == s.failed
    ensures |s.disk.log| <= |WriterDo(c, s, a).disk.log| && WriterDo(c, s, a).disk.log[..|s.disk.log|] == s.disk.log
  {
    hide PutBack, Overwrite, DiskData;
  }

  lemma ParityLog(c: Config, s: State, a: ParityAct)
    requires ParityCan(c, s, a) && !a.EncodeWindowFail? && !a.SeekParityFail? && !a.WriteParityFail?
    ensures ParityDo(c, s, a).failed == s.failed
    ensures |s.disk.log| <= |ParityDo(c, s, a).disk.log| && ParityDo(c, s, a).disk.log[..|s.disk.log|] == s.disk.log
  {
    hide CanEncodeWindow, NextPut, EncodedWindow, PutAll, AccValid, FileCodeExists, Overwrite;
  }

  /** A run that raced once, and the unraced run beside it. */
  ghost predicate Beside(c: Config, run: seq<Action>, calm: seq<Action>) {
    && ConfigOk(c) && IsRun(c, run) && IsRun(c, calm) && SpoiledTwin(c, After(c, run), After(c, calm))
    && !After(c, calm).failed && !After(c, calm).disk.raced
  }

  lemma BothStep(c: Config, run: seq<Action>, calm: seq<Action>) returns (a: Action)
    requires Beside(c, run, calm) && !After(c, calm).prod.pc.Returned?
    ensures Ordinary(a) && Can(c, After(c, run), a) && Can(c, After(c, calm), a)
    ensures SpoiledTwin(c, Do(c, After(c, run), a), Do(c, After(c, calm), a))
    ensures !Do(c, After(c, calm), a).failed && !Do(c, After(c, calm), a).disk.raced
  {
    hide IsRun, After, ManyGroups, ConfigOk, Order, Queue, Memory, Text, File, Size, Shards64, Can, Do, Ordinary;
    hide Twin, Spoiled, InLog;
    var s, t := After(c, run), After(c, calm);
    RunsKeepInvariant(c, calm);
    RunsKeepShards(c, calm);
    a := CalmStep(c, t);
    OneWriter(c, t);
    TwinStep(c, s, t, a);
    SpoiledStep(c, s, t, a);
    StepKeepsLog(c, t, a);
  }

  lemma {:induction false} FinishBoth(c: Config, run: seq<Action>, calm: seq<Action>)
      returns (full: seq<Action>, calmFull: seq<Action>)
    requires Beside(c, run, calm)
    ensures Continues(c, run, full) && Beside(c, full, calmFull) && After(c, calmFull).prod.pc.Returned?
    decreases Budget(After(c, calm))
  {
    hide ConfigOk, SpoiledTwin, Can, Do, Budget, Ordinary;
    if After(c, calm).prod.pc.Returned? {
      full, calmFull := run, calm;
      assert full[..|run|] == run;
    } else {
      var a := BothStep(c, run, calm);
      Closer(c, calm, a);
      var one := OneMore(c, run, a);
      var calmOne := OneMore(c, calm, a);
      full, calmFull := FinishBoth(c, one, calmOne);
      ContinuesTrans(c, run, one, full);
    }
  }
}

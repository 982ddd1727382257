/** What goes wrong without an exclusive cursor: seekWrite is two steps, and with
    more than one group there are runs in which a data blob lands where it does not
    belong, and Drain still returns no error; with one group there are none. */
module PipelineRace {
  import opened Bytes
  import opened Layout
  import opened Vault
  import opened Encoder
  import opened EncodeLoops
  import opened Writes
  import opened ExpectedWrites
  import opened PipelineState
  import opened PipelineOrder
  import opened PipelineQueue
  import opened PipelineMemory
  import opened PipelineText
  import opened PipelineFile
  import opened PipelineTheorems
  import opened PipelineProgress
  import opened PipelineOneGroup
  import opened PipelineSchedule
  import opened PipelineTwin

  // ---------- the race ----------

  /** The blob of chunk 128 belongs some whole blobs behind the first parity blob. */
  lemma OffsetsDiffer(spec: Spec) returns (k: nat)
    requires spec.Valid()
    ensures k > 0
    ensures spec.DataBlobOffset(FILE_GROUP_CHUNKS) == spec.ParityBlobOffset(0, FILE_GROUP_CHUNKS, 0) + k * BLOB_DISK_SIZE
  {
    k := if spec.version >= 3 then spec.GroupSpan() - FILE_GROUP_CHUNKS else spec.GroupSpan() + FILE_PARITY_SHARDS;
  }

  /** The first window's first parity shard, about to be written. */
  predicate FirstSeek(p: Par) {
    p.pc.QSeek? && p.pc.g == 0 && p.pc.w == 0 && p.pc.q == 0 && |p.acc| == FILE_GROUP_CHUNKS
  }

  /** The parity loop seeks and writes the first window of the first parity blob. */
  function ParityWritten(c: Config, s: State): State
    requires FirstSeek(s.par) && OutValid(s.par.pc)
  {
    var put := NextPut(c, s);
    s.(par := s.par.(pc := AfterWrite(0, 0, 0, s.par.pc.out)),
       disk := Disk(Overwrite(s.disk.file, put.off, put.data), put.off + |put.data|,
                    s.disk.log + [Logged(ParW(0, 0, 0), put)], s.disk.raced || s.wr.pc.WWrite?))
  }

  lemma ParitySeeksAndWrites(c: Config, s: State)
    requires FirstSeek(s.par) && OutValid(s.par.pc)
    ensures Can(c, s, Action.Parity(SeekParity)) && Can(c, Do(c, s, Action.Parity(SeekParity)), Action.Parity(WriteParity))
    ensures Do(c, Do(c, s, Action.Parity(SeekParity)), Action.Parity(WriteParity)) == ParityWritten(c, s)
  {
    hide ParityPut, Overwrite;
  }

  /** The write loop has sought. */
  function Sought(c: Config, s: State): State {
    s.(wr := s.wr.(pc := WWrite),
       disk := s.disk.(pos := c.spec.DataBlobOffset(s.wr.next), raced := s.disk.raced || s.par.pc.QWrite?))
  }

  lemma WriterSeeks(c: Config, s: State)
    requires s.wr.pc.WSeek?
    ensures Can(c, s, Writer(SeekOk)) && Do(c, s, Writer(SeekOk)) == Sought(c, s)
  {}

  /** The write loop has written at the cursor. */
  function BlobWritten(s: State): State
    requires DiskValid(s)
  {
    var w := s.wr;
    s.(disk := Noted(s.disk, DataW(w.next), DiskData(s)),
       wr := w.(pc := WSendBlob, plainSize := w.plainSize + |Hand(s).chunk|, groupChunks := w.groupChunks + 1))
  }

  lemma WriterWrites(c: Config, s: State)
    requires s.wr.pc.WWrite? && DiskValid(s)
    ensures Can(c, s, Writer(WriteOk)) && Do(c, s, Writer(WriteOk)) == BlobWritten(s)
  {
    hide DiskData, Overwrite;
  }

  /** What is known where both loops are about to seek. */
  ghost predicate AtRace(c: Config, s: State) {
    ManyGroups(c) && Invariants(c, s) && File(c, s) && BothSeek(s)
  }

  /** The parity loop's write is due, and nothing was written at the place of chunk 128. */
  lemma RaceFacts(c: Config, s: State)
    requires AtRace(c, s)
    ensures FirstSeek(s.par) && OutValid(s.par.pc) && Apart(NextPut(c, s), DueBlobWrite(c))
    ensures NextPut(c, s).off == c.spec.ParityBlobOffset(0, FILE_GROUP_CHUNKS, 0) &&
      |NextPut(c, s).data| == WINDOW * SLOT_SIZE
    ensures ByteAt(s.disk.file, DueBlobWrite(c).off) == 0 && ByteAt(s.disk.file, DueBlobWrite(c).off + LATE_SLOT) == 0
  {
    hide ManyGroups, Order, Queue, Memory, Text, Expect, Plan, PlanChunks, Apart, ParityPut, FileOk, ConfigOk;
    NextIsDue(c, s);
    var l := ParW(s.par.pg, 0, 0);
    OtherWriteApart(c, l);
    ExpectFacts(PlanVault(c), c.pfx, PlanChunks(c), l);
    FirstOffset(c, s);
    LogApart(c, s);
    var e := DueBlobWrite(c);
    forall p | p == e.off || p == e.off + LATE_SLOT
      ensures ByteAt(s.disk.file, p) == 0
    {
      ApartByte(Puts(s.disk.log), e, p);
    }
  }

  lemma FirstOffset(c: Config, s: State)
    requires FirstSeek(s.par) && OutValid(s.par.pc)
    ensures NextPut(c, s).off == c.spec.ParityBlobOffset(0, FILE_GROUP_CHUNKS, 0)
  {
    hide TaggedColumns;
  }

  /** Before the race the log has no write of chunk 128, so no write near its place. */
  lemma LogApart(c: Config, s: State)
    requires AtRace(c, s)
    ensures s.disk.file == Apply([], Puts(s.disk.log))
    ensures forall a :: 0 <= a < |s.disk.log| ==> Apart(Puts(s.disk.log)[a], DueBlobWrite(c))
  {
    hide ManyGroups, Order, Queue, Memory, Text, Expect, Plan, PlanChunks, Apart, OutOk, BusyOk, CursorOk;
    hide Apply, FlushesOk, ConfigOk;
    assert ConfigOk(c) by { ManyOk(c); }
    PlanOk(c);
    var log := s.disk.log;
    var e := DueBlobWrite(c);
    assert Due(PlanVault(c), DataW(FILE_GROUP_CHUNKS)) && !InLog(log, DataW(FILE_GROUP_CHUNKS));
    forall a | 0 <= a < |log|
      ensures Apart(Puts(log)[a], DueBlobWrite(c))
    {
      OtherWriteApart(c, log[a].what);
    }
  }

  lemma ApartByte(log: seq<Put>, e: Put, p: nat)
    requires (forall a :: 0 <= a < |log| ==> Apart(log[a], e)) && e.off <= p < e.End()
    ensures ByteAt(Apply([], log), p) == 0
  {
    hide ByteAt, Apply;
    NeverWritten(log, p);
  }

  /** After the steps with the race the file is spoiled. */
  lemma RacedFile(c: Config, s: State)
    requires AtRace(c, s)
    ensures FirstSeek(s.par) && OutValid(s.par.pc)
    ensures
      var put, e := NextPut(c, s), DueBlobWrite(c);
      Spoiled(Overwrite(Overwrite(s.disk.file, put.off, put.data), put.off + |put.data|, e.data), e)
  {
    hide *;
    AtRaceSpec(c, s);
    RaceFacts(c, s);
    var k := OffsetsDiffer(c.spec);
    SpoiledByRace(s.disk.file, DueBlobWrite(c), NextPut(c, s).off, NextPut(c, s).data, k);
  }

  lemma AtRaceSpec(c: Config, s: State)
    requires AtRace(c, s)
    ensures c.spec.Valid() && ConfigOk(c) && ManyGroups(c) && BothSeek(s) && !s.failed && !s.disk.raced
  {}

  /** The run without the race: the same four steps, the write loop's last. */
  lemma CalmRun(c: Config, run: seq<Action>) returns (calm: seq<Action>)
    requires ManyGroups(c) && IsRun(c, run) && BothSeek(After(c, run))
    ensures IsRun(c, calm)
    ensures
      var s := After(c, run);
      && FirstSeek(s.par) && OutValid(s.par.pc) && DiskValid(s) && DiskData(s) == DueBlobWrite(c).data
      && After(c, calm) == BlobWritten(Sought(c, ParityWritten(c, s)))
  {
    hide ManyGroups, ConfigOk, Can, Do, Order, Memory, Text, Queue, File, Size, IsRun, After, Overwrite, NextPut;
    hide PlanChunks, Expect, Plan, ByteAt;
    var s := After(c, run);
    ReachesAtRace(c, run);
    AtRaceSpec(c, s);
    RaceFacts(c, s);
    ParitySeeksAndWrites(c, s);
    var one := OneMore(c, run, Action.Parity(SeekParity));
    var two := OneMore(c, one, Action.Parity(WriteParity));
    WriterSeeks(c, After(c, two));
    var three := OneMore(c, two, Writer(SeekOk));
    var t := After(c, three);
    RunsKeepInvariant(c, three);
    DataDue(c, t);
    WriterWrites(c, t);
    calm := OneMore(c, three, Writer(WriteOk));
  }

  lemma ReachesAtRace(c: Config, run: seq<Action>)
    requires ManyGroups(c) && IsRun(c, run) && BothSeek(After(c, run))
    ensures AtRace(c, After(c, run))
  {
    hide ManyGroups, IsRun, After, Order, Queue, Memory, Text, File, Size, Shards64, BothSeek;
    assert ConfigOk(c) by { ManyOk(c); }
    RunInvariants(c, run);
    RunsKeepInvariant(c, run);
  }

  /** The run with the race: the write loop seeks, the parity loop seeks and writes,
      the write loop writes. */
  lemma RacedRun(c: Config, run: seq<Action>) returns (raced: seq<Action>)
    requires ManyGroups(c) && IsRun(c, run) && BothSeek(After(c, run))
    requires DiskValid(After(c, run))
    ensures IsRun(c, raced)
    ensures
      var s := After(c, run);
      && FirstSeek(s.par) && OutValid(s.par.pc)
      && After(c, raced) == BlobWritten(ParityWritten(c, Sought(c, s)))
  {
    hide ManyGroups, ConfigOk, Can, Do, IsRun, After, Overwrite, NextPut, ByteAt, DiskData, AtRace;
    var s := After(c, run);
    ReachesAtRace(c, run);
    AtRaceSpec(c, s);
    RaceFacts(c, s);
    WriterSeeks(c, s);
    var one := OneMore(c, run, Writer(SeekOk));
    ParitySeeksAndWrites(c, After(c, one));
    var two := OneMore(c, one, Action.Parity(SeekParity));
    var three := OneMore(c, two, Action.Parity(WriteParity));
    WriterWrites(c, After(c, three));
    raced := OneMore(c, three, Writer(WriteOk));
  }

  /** Entry at of the log put the blob of chunk 128 not where it is due, but one
      window behind the place of the first parity blob. */
  predicate Misplaced(c: Config, log: seq<Logged>, at: int) {
    && 0 <= at < |log| && log[at].what == DataW(FILE_GROUP_CHUNKS)
    && log[at].put.off == c.spec.ParityBlobOffset(0, FILE_GROUP_CHUNKS, 0) + WINDOW * SLOT_SIZE
    && log[at].put.off != c.spec.DataBlobOffset(FILE_GROUP_CHUNKS)
  }

  /** The log's last entry put the blob of chunk 128 elsewhere. */
  lemma LastEntry(c: Config, s: State)
    requires AtRace(c, s) && FirstSeek(s.par) && OutValid(s.par.pc) && DiskValid(s)
    requires DiskValid(ParityWritten(c, Sought(c, s)))
    ensures
      var log := BlobWritten(ParityWritten(c, Sought(c, s))).disk.log;
      Misplaced(c, log, |log| - 1)
  {
    hide ManyGroups, Invariants, File, DiskData, Overwrite, NextPut, Spec.DataBlobOffset, Spec.ParityBlobOffset;
    RaceFacts(c, s);
    AtRaceSpec(c, s);
    var k := OffsetsDiffer(c.spec);
    assert NextPut(c, Sought(c, s)) == NextPut(c, s) by { SameNextPut(c, s); }
  }

  lemma SameNextPut(c: Config, s: State)
    requires OutValid(s.par.pc)
    ensures NextPut(c, Sought(c, s)) == NextPut(c, s)
  {
    hide ParityPut;
  }

  /** The two runs end in twins. */
  lemma RaceTwins(c: Config, s: State)
    requires AtRace(c, s) && FirstSeek(s.par) && OutValid(s.par.pc) && DiskValid(s) && DiskData(s) == DueBlobWrite(c).data
    ensures DiskValid(ParityWritten(c, Sought(c, s))) && DiskValid(Sought(c, ParityWritten(c, s)))
    ensures
      var a, b := BlobWritten(ParityWritten(c, Sought(c, s))), BlobWritten(Sought(c, ParityWritten(c, s)));
      SpoiledTwin(c, a, b) && !b.failed && !b.disk.raced
  {
    hide ManyGroups, AtRace, NextPut, Overwrite, DiskData, Spoiled, DueBlobWrite, ParityWritten, Sought, BlobWritten;
    hide InLog, Twin;
    AtRaceSpec(c, s);
    SameData(c, s);
    SameDisk(c, s);
    EndInTwins(c, s);
    SpoiledEnd(c, s);
  }

  lemma SameDisk(c: Config, s: State)
    requires FirstSeek(s.par) && OutValid(s.par.pc) && DiskValid(s)
    ensures DiskValid(Sought(c, ParityWritten(c, s)))
  {
    hide NextPut, Overwrite;
  }

  lemma EndInTwins(c: Config, s: State)
    requires FirstSeek(s.par) && OutValid(s.par.pc) && s.wr.pc.WSeek? && s.wr.next == FILE_GROUP_CHUNKS && !s.failed
    requires !s.disk.raced
    requires DiskValid(ParityWritten(c, Sought(c, s))) && DiskValid(Sought(c, ParityWritten(c, s)))
    ensures
      var a, b := BlobWritten(ParityWritten(c, Sought(c, s))), BlobWritten(Sought(c, ParityWritten(c, s)));
      Twin(a, b) && !b.failed && !b.disk.raced && InLog(b.disk.log, DataW(FILE_GROUP_CHUNKS))
  {
    hide NextPut, Overwrite, DiskData;
    var b := BlobWritten(Sought(c, ParityWritten(c, s)));
    assert b.disk.log[|b.disk.log| - 1].what == DataW(FILE_GROUP_CHUNKS);
  }

  lemma SpoiledEnd(c: Config, s: State)
    requires AtRace(c, s) && FirstSeek(s.par) && OutValid(s.par.pc) && DiskValid(s) && DiskData(s) == DueBlobWrite(c).data
    requires DiskValid(ParityWritten(c, Sought(c, s)))
    ensures Spoiled(BlobWritten(ParityWritten(c, Sought(c, s))).disk.file, DueBlobWrite(c))
  {
    hide AtRace, NextPut, Overwrite, DiskData, Spoiled, DueBlobWrite;
    AtRaceSpec(c, s);
    SameNextPut(c, s);
    RacedFile(c, s);
    SameData(c, s);
  }

  lemma SameData(c: Config, s: State)
    requires FirstSeek(s.par) && OutValid(s.par.pc) && DiskValid(s)
    ensures DiskValid(ParityWritten(c, Sought(c, s))) && DiskData(ParityWritten(c, Sought(c, s))) == DiskData(s)
  {
    hide NextPut, Overwrite;
  }

  /** From where both loops are about to seek, a racing run and the calm one beside it. */
  lemma RaceBeside(c: Config, run: seq<Action>) returns (raced: seq<Action>, calm: seq<Action>)
    requires ManyGroups(c) && IsRun(c, run) && BothSeek(After(c, run))
    ensures Beside(c, raced, calm)
    ensures Misplaced(c, After(c, raced).disk.log, |After(c, raced).disk.log| - 1)
  {
    hide ManyGroups, ConfigOk, IsRun, After, BothSeek, AtRace, SpoiledTwin, Misplaced, DueBlobWrite, FirstSeek;
    hide NextPut, DiskData;
    hide ParityWritten, Sought, BlobWritten;
    assert ConfigOk(c) by { ManyOk(c); }
    ReachesAtRace(c, run);
    calm := CalmRun(c, run);
    raced := RacedRun(c, run);
    RaceTwins(c, After(c, run));
    LastEntry(c, After(c, run));
  }

  lemma {:induction false} LogKept(c: Config, run: seq<Action>, longer: seq<Action>)
    requires IsRun(c, run) && Continues(c, run, longer)
    ensures After(c, longer).failed == After(c, run).failed
    ensures
      var a, b := After(c, run).disk.log, After(c, longer).disk.log;
      |a| <= |b| && b[..|a|] == a
    decreases |longer|
  {
    hide Can, Do, Ordinary;
    if |longer| > |run| {
      var before := longer[..|longer| - 1];
      assert before[..|run|] == run;
      LogKept(c, run, before);
      StepKeepsLog(c, After(c, before), longer[|longer| - 1]);
      var a, b, d := After(c, run).disk.log, After(c, before).disk.log, After(c, longer).disk.log;
      assert d[..|a|] == d[..|b|][..|a|];
    } else {
      assert longer == run;
    }
  }

  lemma SamePrefix(a: seq<Logged>, b: seq<Logged>, at: nat)
    requires at < |a| <= |b| && b[..|a|] == a
    ensures b[at] == a[at]
  {}

  lemma ErrIsFailed(c: Config, run: seq<Action>)
    requires ConfigOk(c) && IsRun(c, run)
    ensures After(c, run).err == After(c, run).failed
  {
    RunsKeepInvariant(c, run);
    hide Order, Memory, Text, File, Size, QueueOk;
  }

  /** Length and blobs of the file are the sequential encoder's. */
  ghost predicate HoldsPlan(c: Config, f: Bytes)
    requires ConfigOk(c)
  {
    PlanOk(c);
    var v := PlanVault(c);
    |f| == v.Total() * BLOB_DISK_SIZE && ImageOf(f, v.Total()) == SeqImage(v, c.pfx, PlanChunks(c))
  }

  /** A finished twin's file is not the sequential encoder's. */
  lemma SpoiledIsWrong(c: Config, run: seq<Action>, calm: seq<Action>)
    requires Beside(c, run, calm) && After(c, calm).prod.pc.Returned?
    ensures After(c, run).prod.pc.Returned? && !After(c, run).err && !HoldsPlan(c, After(c, run).disk.file)
  {
    hide IsRun, After, ManyGroups, ConfigOk, SeqImage, ImageOf, DueBlobWrite, Spoiled, InLog, Plan, PlanChunks;
    hide Expect, Holds, Apply;
    ErrIsFailed(c, calm);
    DrainRefinesSequential(c, calm);
    var f, g, v := After(c, run).disk.file, After(c, calm).disk.file, PlanVault(c);
    CalmHolds(c, calm);
    if HoldsPlan(c, f) {
      assert f[v.Total() * BLOB_DISK_SIZE..] == [] == g[v.Total() * BLOB_DISK_SIZE..];
      ImageDetermines(f, g, v.Total());
      SpoiledHoldsNot(f, DueBlobWrite(c));
    }
  }

  lemma CalmHolds(c: Config, calm: seq<Action>)
    requires ManyGroups(c) && ConfigOk(c) && IsRun(c, calm) && !After(c, calm).failed && !After(c, calm).disk.raced
    requires InLog(After(c, calm).disk.log, DataW(FILE_GROUP_CHUNKS))
    ensures Holds(After(c, calm).disk.file, DueBlobWrite(c)) && DueBlobWrite(c).data[0] != 0
  {
    hide IsRun, After, ManyGroups, ConfigOk, Plan, PlanChunks, Expect, Holds, Apply, LogRight, LogComplete;
    hide OutOk, BusyOk, CursorOk;
    hide Order, Queue, Memory, Text, Size, FlushesOk, InLog;
    RunsKeepInvariant(c, calm);
    PlanOk(c);
    var e := DueBlobWrite(c);
    LogHolds(PlanVault(c), c.pfx, PlanChunks(c), After(c, calm).disk.log, DataW(FILE_GROUP_CHUNKS));
  }

  /** For every pipeline given more than one group of plaintext there is a run in
      which Drain returns no error although the blob of chunk 128 was written in
      the wrong place, and the file is not the sequential encoder's. */
  lemma RacingRun(c: Config) returns (run: seq<Action>, at: nat)
    requires ManyGroups(c)
    ensures ConfigOk(c) && IsRun(c, run) && After(c, run).prod.pc.Returned? && !After(c, run).err
    ensures Misplaced(c, After(c, run).disk.log, at)
    ensures !HoldsPlan(c, After(c, run).disk.file)
  {
    hide ManyGroups, ConfigOk, IsRun, After, BothSeek, Ordinary, SpoiledTwin, HoldsPlan, Spec.ParityBlobOffset;
    hide Spec.DataBlobOffset;
    assert ConfigOk(c) by { ManyOk(c); }
    var start := ReachBothSeek(c);
    var raced, calm := RaceBeside(c, start);
    at := |After(c, raced).disk.log| - 1;
    var calmFull;
    run, calmFull := FinishBoth(c, raced, calm);
    SpoiledIsWrong(c, run, calmFull);
    LogKept(c, raced, run);
    hide Continues;
    SamePrefix(After(c, raced).disk.log, After(c, run).disk.log, at);
  }

  // ---------- exactly when the code keeps its promise ----------

  /** Every data blob was written at its own offset. */
  predicate DataInPlace(c: Config, log: seq<Logged>) {
    forall a :: 0 <= a < |log| && log[a].what.DataW? ==> log[a].put.off == c.spec.DataBlobOffset(log[a].what.i)
  }

  /** All runs in which Drain returns no error write every data blob in place if
      and only if the plaintext has at most 128 chunks. */
  lemma PlacementIff(c: Config)
    requires ConfigOk(c)
    ensures (forall run :: IsRun(c, run) && After(c, run).prod.pc.Returned? && !After(c, run).err ==>
               DataInPlace(c, After(c, run).disk.log))
            <==> |PlanChunks(c)| <= FILE_GROUP_CHUNKS
  {
    hide IsRun, After, ConfigOk, DataInPlace, Misplaced, PlanChunks;
    if |PlanChunks(c)| <= FILE_GROUP_CHUNKS {
      forall run | IsRun(c, run) && After(c, run).prod.pc.Returned? && !After(c, run).err
        ensures DataInPlace(c, After(c, run).disk.log)
      {
        OneGroupInPlace(c, run);
      }
    } else {
      var run, at := RacingRun(c);
      NotInPlace(c, After(c, run).disk.log, at);
    }
  }

  lemma NotInPlace(c: Config, log: seq<Logged>, at: nat)
    requires Misplaced(c, log, at)
    ensures !DataInPlace(c, log)
  {
    hide Spec.DataBlobOffset, Spec.ParityBlobOffset;
  }

  lemma OneGroupInPlace(c: Config, run: seq<Action>)
    requires OneGroup(c) && IsRun(c, run) && !After(c, run).err
    ensures DataInPlace(c, After(c, run).disk.log)
  {
    hide OneGroup, IsRun, After;
    assert ConfigOk(c) by { OneGroupOk(c); }
    ErrIsFailed(c, run);
    NeverRaces(c, run);
    RunsKeepInvariant(c, run);
    hide Order, Queue, Memory, Text, Size;
    RightIsInPlace(c, After(c, run));
  }

  lemma RightIsInPlace(c: Config, s: State)
    requires File(c, s) && !s.failed && !s.disk.raced
    ensures DataInPlace(c, s.disk.log)
  {
    hide ConfigOk, PlanChunks, Expect, Plan, Puts, LogComplete, BusyOk, OutOk, CursorOk, FlushesOk, Spec.DataBlobOffset;
    PlanOk(c);
    var v, log := PlanVault(c), s.disk.log;
    forall a | 0 <= a < |log| && log[a].what.DataW?
      ensures log[a].put.off == c.spec.DataBlobOffset(log[a].what.i)
    {
      hide BlobBytes, ChunkBlob, Fits;
      ExpectData(v, c.pfx, PlanChunks(c), log[a].what.i);
    }
  }

  /** All runs in which Drain returns no error leave the sequential encoder's file if
      and only if the plaintext has at most 128 chunks. */
  lemma RefinementIff(c: Config)
    requires ConfigOk(c)
    ensures (forall run :: IsRun(c, run) && After(c, run).prod.pc.Returned? && !After(c, run).err ==>
               HoldsPlan(c, After(c, run).disk.file))
            <==> |PlanChunks(c)| <= FILE_GROUP_CHUNKS
  {
    hide IsRun, After, ConfigOk, Misplaced, PlanChunks, SeqImage, ImageOf, Plan, Concat;
    if |PlanChunks(c)| <= FILE_GROUP_CHUNKS {
      forall run | IsRun(c, run) && After(c, run).prod.pc.Returned? && !After(c, run).err
        ensures HoldsPlan(c, After(c, run).disk.file)
      {
        OneGroupRefinesSequential(c, run);
      }
    } else {
      hide HoldsPlan;
      var run, at := RacingRun(c);
    }
  }
}

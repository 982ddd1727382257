/** A schedule that, with more than one group of plaintext, brings the write loop and
    the parity loop to their seeks at the same time. */
module PipelineSchedule {
  import opened Layout
  import opened Repair
  import opened Encoder
  import opened Writes
  import opened PipelineState
  import opened PipelineOrder
  import opened PipelineQueue
  import opened PipelineMemory
  import opened PipelineText
  import opened PipelineFile
  import opened PipelineTheorems
  import opened PipelineProgress
  import opened PipelineTermination

  /** A run that begins with another and goes on without failing. */
  ghost predicate Continues(c: Config, run: seq<Action>, longer: seq<Action>) {
    && IsRun(c, longer) && |run| <= |longer| && longer[..|run|] == run
    && forall i :: |run| <= i < |longer| ==> Ordinary(longer[i])
  }

  lemma ContinuesTrans(c: Config, a: seq<Action>, b: seq<Action>, d: seq<Action>)
    requires Continues(c, a, b) && Continues(c, b, d)
    ensures Continues(c, a, d)
  {
    hide Ordinary, IsRun;
    assert d[..|a|] == d[..|b|][..|a|];
    forall i | |a| <= i < |d|
      ensures Ordinary(d[i])
    {
      if i < |b| {
        assert d[i] == d[..|b|][i];
      }
    }
  }

  lemma OneMore(c: Config, run: seq<Action>, a: Action) returns (longer: seq<Action>)
    requires IsRun(c, run) && Can(c, After(c, run), a) && Ordinary(a)
    ensures Continues(c, run, longer) && After(c, longer) == Do(c, After(c, run), a)
  {
    hide Can, Do, Ordinary;
    longer := run + [a];
    assert longer[..|longer| - 1] == run;
  }

  /** More than one group of plaintext, in any number of Write calls. */
  ghost predicate ManyGroups(c: Config) {
    ConfigOk(c) && |PlanChunks(c)| > FILE_GROUP_CHUNKS
  }

  ghost predicate Invariants(c: Config, s: State) {
    Order(c, s) && Queue(c, s) && Memory(c, s) && Text(c, s) && Shards64(s.par.pc)
  }

  lemma RunInvariants(c: Config, run: seq<Action>)
    requires ConfigOk(c) && IsRun(c, run)
    ensures Invariants(c, After(c, run))
  {
    RunsKeepInvariant(c, run);
    RunsKeepShards(c, run);
    hide IsRun, After, Order, Queue, Memory, Text, File, Size, Shards64;
  }

  // ---------- until the first group is flushed ----------

  /** The parity loop has taken all it was given, or is about to, and no group is flushed. */
  predicate BeforeFlush(s: State) {
    && !s.failed && !s.disk.raced && s.par.pc.QRecv? && s.par.pg == 0 && s.wr.groupsDone == 0
    && (s.parCh == [] || (|s.parCh| == 1 && s.parCh[0].DataMsg?))
  }

  /** The flush of the first group is the only message. */
  predicate AtFlush(s: State) {
    && !s.failed && !s.disk.raced && s.par.pc.QRecv? && s.par.pg == 0 && s.wr.groupsDone == 1 && s.wr.groupChunks == 0
    && s.wr.pc.WRecycle? && s.parCh == [FlushMsg(0, FILE_GROUP_CHUNKS)]
  }

  /** While chunks beyond the first group are to come, the write loop is not done. */
  lemma NotDone(c: Config, s: State)
    requires ManyGroups(c) && Order(c, s) && Queue(c, s) && Text(c, s) && !s.failed
    requires s.wr.groupsDone * FILE_GROUP_CHUNKS + s.wr.groupChunks <= FILE_GROUP_CHUNKS
    ensures !s.wr.pc.WDone? && !s.prod.pc.SendFinal? && !s.prod.pc.ClosePar? && !ParClosed(s.prod.pc)
    ensures !WriterCan(c, s, Finish)
  {
    hide PlanChunks, Text, ConfigOk, EncodeQueue, WorkerHolds, OutQueue, PendingSet, ReadAll;
    JobsArePlanned(c, s);
    if WriterCan(c, s, Finish) {
      NothingLeft(c, s);
    }
  }

  lemma StepToFlush(c: Config, s: State) returns (a: Action)
    requires ManyGroups(c) && Invariants(c, s) && BeforeFlush(s)
    ensures Ordinary(a) && Can(c, s, a) && (BeforeFlush(Do(c, s, a)) || AtFlush(Do(c, s, a)))
  {
    hide ManyGroups, Order, Queue, Memory, Text, Shards64;
    assert ConfigOk(c) by { ManyOk(c); }
    if s.parCh != [] {
      a := Action.Parity(ReceiveMsg);
    } else {
      FewCounted(c, s);
      NotDone(c, s);
      a := OthersStep(c, s);
      OthersToFlush(c, s, a);
    }
  }

  lemma ManyOk(c: Config)
    requires ManyGroups(c)
    ensures ConfigOk(c)
  {}

  lemma FewCounted(c: Config, s: State)
    requires Queue(c, s)
    ensures s.wr.groupChunks <= FILE_GROUP_CHUNKS
    ensures s.wr.pc.WSendFlush? ==> s.wr.groupChunks == FILE_GROUP_CHUNKS
  {
    hide ReadAll;
  }

  lemma OthersToFlush(c: Config, s: State, a: Action)
    requires BeforeFlush(s) && s.parCh == [] && Can(c, s, a) && Ordinary(a) && !a.Parity? && !s.prod.pc.SendFinal?
    ensures BeforeFlush(Do(c, s, a)) || AtFlush(Do(c, s, a))
  {
    match a {
      case Producer(p) => ProducerAside(c, s, p);
      case Worker(w, act) => WorkerAside(c, s, w, act);
      case Writer(r) => WriterToFlush(c, s, r);
    }
  }

  /** The producer and the workers leave the two loops and their queue alone. */
  lemma ProducerAside(c: Config, s: State, a: ProducerAct)
    requires ProducerCan(c, s, a) && !s.prod.pc.SendFinal?
    ensures
      var t := ProducerDo(c, s, a);
      t.wr == s.wr && t.par == s.par && t.parCh == s.parCh && t.failed == s.failed && t.err == s.err && t.disk == s.disk
  {
    hide CopyLength, BufText, GetBuf, PutBack, SetCell, CanGet;
  }

  lemma WorkerAside(c: Config, s: State, w: nat, a: WorkerAct)
    requires WorkerCan(c, s, w, a) && !a.EncodeFail?
    ensures
      var t := WorkerDo(c, s, w, a);
      t.wr == s.wr && t.par == s.par && t.parCh == s.parCh && t.failed == s.failed && t.err == s.err && t.disk == s.disk
  {
    hide EncodedMem, CanTake, Fits;
  }

  lemma WriterToFlush(c: Config, s: State, a: WriterAct)
    requires BeforeFlush(s) && s.parCh == [] && WriterCan(c, s, a) && !a.SeekFail? && !a.WriteFail?
    ensures BeforeFlush(WriterDo(c, s, a)) || AtFlush(WriterDo(c, s, a))
  {
    hide PutBack, Overwrite, DiskData;
  }

  lemma {:induction false} ToFlush(c: Config, run: seq<Action>) returns (longer: seq<Action>)
    requires ManyGroups(c) && IsRun(c, run) && BeforeFlush(After(c, run))
    ensures Continues(c, run, longer) && AtFlush(After(c, longer))
    decreases Budget(After(c, run))
  {
    hide ManyGroups, Invariants, Can, Do, Ordinary, IsRun, Budget, BeforeFlush, AtFlush;
    assert ConfigOk(c) by { ManyOk(c); }
    RunInvariants(c, run);
    var a := StepToFlush(c, After(c, run));
    longer := OneMore(c, run, a);
    Closer(c, run, a);
    if !AtFlush(After(c, longer)) {
      var further := ToFlush(c, longer);
      ContinuesTrans(c, run, longer, further);
      longer := further;
    }
  }

  lemma Closer(c: Config, run: seq<Action>, a: Action)
    requires ConfigOk(c) && IsRun(c, run) && Can(c, After(c, run), a)
    ensures Budget(Do(c, After(c, run), a)) < Budget(After(c, run))
  {
    RunInvariants(c, run);
    hide IsRun, After, Can, Do, Budget, Order, Text, Shards64, Queue, Memory;
    BudgetStep(c, After(c, run), a);
  }

  // ---------- until both loops are about to seek ----------

  /** The parity loop rests before its first seek, and the write loop has not
      begun the second group. */
  predicate Waits(s: State) {
    && !s.failed && !s.disk.raced && s.par.pc.QSeek? && s.par.pc.g == 0 && s.par.pc.w == 0 && s.par.pc.q == 0
    && |s.par.acc| == FILE_GROUP_CHUNKS && s.parCh == [] && s.wr.groupsDone == 1 && s.wr.groupChunks == 0
    && (s.wr.pc.WRecycle? || s.wr.pc.WScan? || s.wr.pc.WRecv?)
  }

  /** Both loops are about to seek: the write loop for the first chunk of the
      second group, the parity loop for the parity of the first. */
  predicate BothSeek(s: State) {
    && !s.failed && !s.disk.raced && s.wr.pc.WSeek? && s.wr.next == FILE_GROUP_CHUNKS
    && s.par.pc.QSeek? && s.par.pc.g == 0 && s.par.pc.w == 0 && s.par.pc.q == 0 && |s.par.acc| == FILE_GROUP_CHUNKS
  }

  /** The parity loop takes the flush and encodes the first window. */
  lemma TakeFlush(c: Config, s: State)
    requires ManyGroups(c) && Queue(c, s) && AtFlush(s)
    ensures Can(c, s, Action.Parity(ReceiveMsg))
    ensures
      var t := Do(c, s, Action.Parity(ReceiveMsg));
      && t.par.pc == QEncode(0, 0) && |t.par.acc| == FILE_GROUP_CHUNKS && t.parCh == [] && t.wr == s.wr && !t.failed && t.disk == s.disk
  {
    hide Queue, ManyGroups, FileCodeExists;
    FlushIsRight(c, s);
  }

  lemma EncodeFirst(c: Config, s: State)
    requires ManyGroups(c) && Queue(c, s) && Memory(c, s) && s.par.pc == QEncode(0, 0) && |s.par.acc| == FILE_GROUP_CHUNKS
    requires s.parCh == [] && !s.failed && !s.disk.raced && s.wr.groupsDone == 1 && s.wr.groupChunks == 0
    requires s.wr.pc.WRecycle?
    ensures Can(c, s, Action.Parity(EncodeWindow)) && Waits(Do(c, s, Action.Parity(EncodeWindow)))
  {
    hide Queue, Memory, ManyGroups, CanEncodeWindow, EncodedWindow;
    assert ConfigOk(c) by { ManyOk(c); }
    WindowEncodable(c, s, 0);
  }

  lemma ToWaits(c: Config, run: seq<Action>) returns (longer: seq<Action>)
    requires ManyGroups(c) && IsRun(c, run) && AtFlush(After(c, run))
    ensures Continues(c, run, longer) && Waits(After(c, longer))
  {
    hide ManyGroups, Can, Do, IsRun, Order, Queue, Memory, Text, Shards64, After, Waits;
    assert ConfigOk(c) by { ManyOk(c); }
    RunInvariants(c, run);
    TakeFlush(c, After(c, run));
    var one := OneMore(c, run, Action.Parity(ReceiveMsg));
    assert IsRun(c, one);
    RunInvariants(c, one);
    EncodeFirst(c, After(c, one));
    longer := OneMore(c, one, Action.Parity(EncodeWindow));
    ContinuesTrans(c, run, one, longer);
  }

  lemma StepToSeek(c: Config, s: State) returns (a: Action)
    requires ManyGroups(c) && Invariants(c, s) && Waits(s)
    ensures Ordinary(a) && Can(c, s, a) && (Waits(Do(c, s, a)) || BothSeek(Do(c, s, a)))
  {
    hide ManyGroups, Order, Queue, Memory, Text, Shards64;
    assert ConfigOk(c) by { ManyOk(c); }
    NotDone(c, s);
    a := OthersStep(c, s);
    match a {
      case Producer(p) => ProducerAside(c, s, p);
      case Worker(w, act) => WorkerAside(c, s, w, act);
      case Writer(r) => WriterToSeek(c, s, r);
    }
  }

  lemma WriterToSeek(c: Config, s: State, a: WriterAct)
    requires Queue(c, s) && Waits(s) && WriterCan(c, s, a) && !a.SeekFail? && !a.WriteFail? && !a.Finish?
    ensures Waits(WriterDo(c, s, a)) || BothSeek(WriterDo(c, s, a))
  {
    hide PutBack, QueueOk;
    if a.Scan? && s.wr.next in s.wr.pending {
      ScanUnfailed(c, s, a);
    }
  }

  lemma {:induction false} ToBothSeek(c: Config, run: seq<Action>) returns (longer: seq<Action>)
    requires ManyGroups(c) && IsRun(c, run) && Waits(After(c, run))
    ensures Continues(c, run, longer) && BothSeek(After(c, longer))
    decreases Budget(After(c, run))
  {
    hide ManyGroups, Invariants, Can, Do, Ordinary, IsRun, Budget, Waits, BothSeek;
    assert ConfigOk(c) by { ManyOk(c); }
    RunInvariants(c, run);
    var a := StepToSeek(c, After(c, run));
    longer := OneMore(c, run, a);
    Closer(c, run, a);
    if !BothSeek(After(c, longer)) {
      var further := ToBothSeek(c, longer);
      ContinuesTrans(c, run, longer, further);
      longer := further;
    }
  }

  lemma ReachBothSeek(c: Config) returns (run: seq<Action>)
    requires ManyGroups(c)
    ensures IsRun(c, run) && BothSeek(After(c, run))
  {
    assert IsRun(c, []) && After(c, []) == Init(c);
    hide ManyGroups, IsRun, After;
    var a := ToFlush(c, []);
    assert IsRun(c, a);
    var b := ToWaits(c, a);
    assert IsRun(c, b);
    run := ToBothSeek(c, b);
    assert IsRun(c, run);
  }
}

/** What the sticky error stops: once it is set, no more plaintext is accepted, and no
    chunk is written that has not passed its worker's check by then. */
module PipelineSticky {
  import opened Repair
  import opened Encoder
  import opened Writes
  import opened PipelineState
  import opened PipelineOrder
  import opened PipelineQueue
  import opened PipelineMemory
  import opened PipelineText
  import opened PipelineFile
  import opened PipelineTheorems
  import opened ExpectedWrites

  /** The write loop only seeks and writes for a job that did not fail. */
  predicate HandGood(s: State) {
    s.wr.pc.WSeek? || s.wr.pc.WWrite? ==> HandValid(s) && !Hand(s).failed
  }

  /** Chunk idx has not been checked for encoding yet, or has failed. */
  predicate Unchecked(f: Flow, idx: nat) {
    || idx >= |f.jobs|
    || (idx < |f.loc| && f.loc[idx].InEncode?)
    || (idx < |f.loc| && f.loc[idx].AtWorker? && f.loc[idx].w < |f.workers| && f.workers[f.loc[idx].w] == Got(idx))
    || f.jobs[idx].failed
  }

  /** The error is set, and chunk idx is neither checked nor written. */
  predicate Barred(s: State, idx: nat) {
    s.err && Unchecked(s.flow, idx) && !InLog(s.disk.log, DataW(idx))
  }

  lemma ProducerStays(c: Config, s: State, a: ProducerAct, idx: nat)
    requires Order(c, s) && ProducerCan(c, s, a)
    ensures ProducerDo(c, s, a).err == s.err && ProducerDo(c, s, a).disk == s.disk
    ensures s.err ==> ProducerDo(c, s, a).prod.taken == s.prod.taken
    ensures HandGood(s) ==> HandGood(ProducerDo(c, s, a))
    ensures Unchecked(s.flow, idx) ==> Unchecked(ProducerDo(c, s, a).flow, idx)
  {
    hide CopyLength, BufText, GetBuf, PutBack, SetCell, CanGet, Phase, Where;
  }

  lemma WorkerStays(c: Config, s: State, w: nat, a: WorkerAct, idx: nat)
    requires Order(c, s) && WorkerCan(c, s, w, a)
    ensures s.err ==> WorkerDo(c, s, w, a).err
    ensures WorkerDo(c, s, w, a).disk == s.disk && WorkerDo(c, s, w, a).prod == s.prod
    ensures HandGood(s) ==> HandGood(WorkerDo(c, s, w, a))
    ensures s.err && Unchecked(s.flow, idx) ==> Unchecked(WorkerDo(c, s, w, a).flow, idx)
  {
    hide EncodedMem, CanTake, Fits, Phase, OutQueue, PendingSet;
  }

  lemma WriterStays(c: Config, s: State, a: WriterAct, idx: nat)
    requires Order(c, s) && WriterCan(c, s, a) && HandGood(s)
    ensures s.err ==> WriterDo(c, s, a).err
    ensures WriterDo(c, s, a).prod == s.prod && HandGood(WriterDo(c, s, a))
    ensures Unchecked(s.flow, idx) ==> Unchecked(WriterDo(c, s, a).flow, idx)
    ensures WriterDo(c, s, a).disk.log == s.disk.log || (a.WriteOk? && !Unchecked(s.flow, s.wr.next)
      && exists p :: WriterDo(c, s, a).disk.log == s.disk.log + [Logged(DataW(s.wr.next), p)])
  {
    hide PutBack, Overwrite, DiskData, Phase;
  }

  lemma ParityStays(c: Config, s: State, a: ParityAct, idx: nat)
    requires ParityCan(c, s, a)
    ensures s.err ==> ParityDo(c, s, a).err
    ensures ParityDo(c, s, a).prod == s.prod && ParityDo(c, s, a).flow == s.flow && ParityDo(c, s, a).wr == s.wr
    ensures InLog(ParityDo(c, s, a).disk.log, DataW(idx)) ==> InLog(s.disk.log, DataW(idx))
  {
    hide CanEncodeWindow, NextPut, EncodedWindow, PutAll, AccValid, FileCodeExists, Overwrite;
  }

  lemma LogMore(log: seq<Logged>, l: Label, entry: Logged)
    requires InLog(log + [entry], l) && entry.what != l
    ensures InLog(log, l)
  {
    var a :| 0 <= a < |log + [entry]| && (log + [entry])[a].what == l;
    assert log[a].what == l;
  }

  lemma StickyStep(c: Config, s: State, a: Action, idx: nat)
    requires Order(c, s) && HandGood(s) && Can(c, s, a)
    ensures HandGood(Do(c, s, a))
    ensures s.err ==> Do(c, s, a).err && Do(c, s, a).prod.taken == s.prod.taken
    ensures Barred(s, idx) ==> Barred(Do(c, s, a), idx)
  {
    hide Order, InLog, Unchecked, HandGood;
    match a {
      case Producer(p) => ProducerStays(c, s, p, idx);
      case Worker(w, act) => WorkerStays(c, s, w, act, idx);
      case Writer(r) =>
        WriterStays(c, s, r, idx);
        if Barred(s, idx) && InLog(WriterDo(c, s, r).disk.log, DataW(idx)) {
          var p :| WriterDo(c, s, r).disk.log == s.disk.log + [Logged(DataW(s.wr.next), p)];
          LogMore(s.disk.log, DataW(idx), Logged(DataW(s.wr.next), p));
        }
      case Parity(q) =>
        ParityStays(c, s, q, idx);
        StaysGood(s, ParityDo(c, s, q));
    }
  }

  lemma StaysGood(s: State, t: State)
    requires HandGood(s) && t.wr == s.wr && t.flow == s.flow
    ensures HandGood(t)
  {}

  lemma {:induction false} RunsHandGood(c: Config, run: seq<Action>)
    requires ConfigOk(c) && IsRun(c, run)
    ensures HandGood(After(c, run))
    decreases |run|
  {
    if run == [] {
    } else {
      var before := run[..|run| - 1];
      RunsHandGood(c, before);
      RunsKeepInvariant(c, before);
      hide Order, Queue, Memory, Text, File, Size, HandGood, Barred, Can, Do;
      StickyStep(c, After(c, before), run[|run| - 1], 0);
    }
  }

  /** Once the error is set it stays set, the accepted plaintext stays what it is, and
      no chunk that has not passed its check by then is ever written. */
  lemma {:induction false} ErrorStops(c: Config, run: seq<Action>, longer: seq<Action>, idx: nat)
    requires ConfigOk(c) && IsRun(c, run) && IsRun(c, longer) && |run| <= |longer| && longer[..|run|] == run
    requires After(c, run).err
    ensures After(c, longer).err && After(c, longer).prod.taken == After(c, run).prod.taken
    ensures Barred(After(c, run), idx) ==> Barred(After(c, longer), idx)
    decreases |longer|
  {
    if |longer| == |run| {
      assert longer == run;
    } else {
      var before := longer[..|longer| - 1];
      assert before[..|run|] == run;
      ErrorStops(c, run, before, idx);
      RunsHandGood(c, before);
      RunsKeepInvariant(c, before);
      hide Order, Queue, Memory, Text, File, Size, HandGood, Barred, Can, Do;
      StickyStep(c, After(c, before), longer[|longer| - 1], idx);
    }
  }
}

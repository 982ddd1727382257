/** The write pipeline of internal/engine/pipeline.go as a transition system: a
    producer, any number of workers, the write loop and the parity loop, joined
    by bounded channels and sharing a sticky error, buffer pools and one file
    with one cursor. An action is one step of one goroutine. */
module PipelineState {
  import opened Bytes
  import opened ErasureCode
  import opened Layout
  import opened Vault
  import opened Repair
  import opened Encoder
  import opened EncodeLoops
  import opened Writes

  datatype Config = Config(cr: Crypto, pfx: Bytes, spec: Spec, calls: seq<Bytes>,
                           workers: nat, encodeCap: nat, outCap: nat, parCap: nat)

  // ---------- buffers ----------

  datatype Kind = PlainBuf | BlobBuf | ParBuf | DiskBuf

  /** Whose buffer it is; kept only to state the proof. */
  datatype Owner = Pooled(kind: Kind) | Filling | Taken | PlainOf(idx: nat) | BlobOf(idx: nat) | ParOf(idx: nat) | DiskOf(idx: nat)

  datatype Cell = Cell(bytes: Bytes, owner: Owner)

  /** All buffers ever made, by number, and the four pools. */
  datatype Mem = Mem(cells: seq<Cell>, plain: multiset<nat>, blob: multiset<nat>, par: multiset<nat>, disk: multiset<nat>)

  function Pool(m: Mem, k: Kind): multiset<nat> {
    match k
    case PlainBuf => m.plain
    case BlobBuf => m.blob
    case ParBuf => m.par
    case DiskBuf => m.disk
  }

  function WithPool(m: Mem, k: Kind, p: multiset<nat>): Mem {
    match k
    case PlainBuf => m.(plain := p)
    case BlobBuf => m.(blob := p)
    case ParBuf => m.(par := p)
    case DiskBuf => m.(disk := p)
  }

  /** A pool hands out one of its buffers or makes a new one. */
  predicate CanGet(m: Mem, k: Kind, id: nat) {
    id == |m.cells| || (id < |m.cells| && id in Pool(m, k))
  }

  function SetCell(m: Mem, id: nat, cell: Cell): Mem
    requires id < |m.cells|
  {
    m.(cells := m.cells[id := cell])
  }

  function GetBuf(m: Mem, k: Kind, id: nat, cell: Cell): Mem
    requires CanGet(m, k, id)
  {
    if id == |m.cells| then m.(cells := m.cells + [cell])
    else SetCell(WithPool(m, k, Pool(m, k) - multiset{id}), id, cell)
  }

  function PutBack(m: Mem, k: Kind, id: nat): Mem
    requires id < |m.cells|
  {
    SetCell(WithPool(m, k, Pool(m, k) + multiset{id}), id, m.cells[id].(owner := Pooled(k)))
  }

  // ---------- jobs, messages, program counters ----------

  /** A chunk's job; chunk is the plaintext it was made for. */
  datatype Job = Job(chunk: Bytes, plain: Option<nat>, blob: Option<nat>, par: Option<nat>, disk: Option<nat>, failed: bool)

  /** Where a job is; kept only to state the proof. */
  datatype Loc = InEncode | AtWorker(w: nat) | InOut | InPending | InHand | Consumed

  datatype Entry = Entry(idx: nat, blob: nat, par: nat)

  datatype Msg = DataMsg(e: Entry) | FlushMsg(g: nat, k: nat)

  datatype ProducerPc =
    | Open | Copying(rest: Bytes) | Sending(rest: Bytes)
    | FlushChunk | CloseEncode | WaitWorkers | WaitWriter | SendFinal | ClosePar | WaitParity | Returned

  datatype WorkerPc = Idle | Got(idx: nat) | Encoding(idx: nat) | Handing(idx: nat) | Exited

  datatype WriterPc = WRecv | WScan | WSeek | WWrite | WSendBlob | WSendFlush | WRecycle | WDone

  datatype ParityPc =
    | QRecv | QEncode(g: nat, w: nat) | QSeek(g: nat, w: nat, q: nat, out: Shards) | QWrite(g: nat, w: nat, q: nat, out: Shards)
    | QRecycle | QDone

  /** What a successful write wrote: data blob i, or parity q, window w, of group g. */
  datatype Label = DataW(i: nat) | ParW(g: nat, w: nat, q: nat)

  datatype Logged = Logged(what: Label, put: Put)

  /** The producer; taken is the plaintext it has accepted. */
  datatype Prod = Prod(calls: seq<Bytes>, pc: ProducerPc, buf: Option<nat>, taken: Bytes)

  /** The jobs on their way to the write loop. */
  datatype Flow = Flow(jobs: seq<Job>, loc: seq<Loc>, encodeCh: seq<nat>, outCh: seq<nat>, workers: seq<WorkerPc>)

  datatype Wr = Wr(pc: WriterPc, pending: set<nat>, next: nat, groupChunks: nat, groupsDone: nat, plainSize: nat,
                   finalK: nat, finalG: nat)

  /** The parity loop; pg counts the groups it is through with. */
  datatype Par = Par(pc: ParityPc, acc: seq<Entry>, pg: nat)

  /** The file and its cursor; the successful writes, and whether both loops were
      ever between a seek and its write at the same time. */
  datatype Disk = Disk(file: Bytes, pos: nat, log: seq<Logged>, raced: bool)

  /** failed records that an encode or a write failed; err is what the source keeps. */
  datatype State = State(prod: Prod, flow: Flow, wr: Wr, par: Par, parCh: seq<Msg>, mem: Mem, disk: Disk, err: bool, failed: bool)

  function EncodeClosed(pc: ProducerPc): bool {
    pc.WaitWorkers? || OutClosed(pc)
  }

  function OutClosed(pc: ProducerPc): bool {
    pc.WaitWriter? || pc.SendFinal? || pc.ClosePar? || ParClosed(pc)
  }

  function ParClosed(pc: ProducerPc): bool {
    pc.WaitParity? || pc.Returned?
  }

  function Init(c: Config): State {
    State(Prod(c.calls, Open, None, []), Flow([], [], [], [], seq(c.workers, _ => Idle)),
          Wr(WRecv, {}, 0, 0, 0, 0, 0, 0), Par(QRecv, [], 0), [],
          Mem([], multiset{}, multiset{}, multiset{}, multiset{}), Disk([], 0, [], false), false, false)
  }

  // ---------- producer ----------

  datatype ProducerAct =
    | Call              // Write: the error check
    | Copy(id: nat)     // Write: fill the chunk buffer
    | Return            // Write: nothing left to copy
    | Enqueue           // send the full chunk
    | Drain             // Drain: is there a partial chunk?
    | EnqueueLast
    | CloseEncodeCh | CloseOutCh | SeeWriterDone | SendLastFlush | CloseParCh | SeeParityDone

  /** The bytes of the chunk buffer. */
  function BufText(m: Mem, buf: Option<nat>): Bytes {
    if buf.Some? && buf.value < |m.cells| then m.cells[buf.value].bytes else []
  }

  function CopyLength(m: Mem, buf: Option<nat>, rest: Bytes): nat {
    var used := |BufText(m, buf)|;
    Min(if used <= CHUNK_PLAIN_SIZE then CHUNK_PLAIN_SIZE - used else 0, |rest|)
  }

  predicate BufValid(m: Mem, buf: Option<nat>) {
    buf.Some? ==> buf.value < |m.cells|
  }

  predicate ProducerCan(c: Config, s: State, a: ProducerAct) {
    match a
    case Call => s.prod.pc.Open? && s.prod.calls != []
    case Copy(id) =>
      s.prod.pc.Copying? && s.prod.pc.rest != [] && BufValid(s.mem, s.prod.buf)
      && (if s.prod.buf.Some? then id == s.prod.buf.value else CanGet(s.mem, PlainBuf, id))
    case Return => s.prod.pc.Copying? && s.prod.pc.rest == []
    case Enqueue => s.prod.pc.Sending? && s.prod.buf.Some? && BufValid(s.mem, s.prod.buf) && |s.flow.encodeCh| < c.encodeCap
    case Drain => s.prod.pc.Open? && s.prod.calls == [] && BufValid(s.mem, s.prod.buf)
    case EnqueueLast => s.prod.pc.FlushChunk? && s.prod.buf.Some? && BufValid(s.mem, s.prod.buf) && |s.flow.encodeCh| < c.encodeCap
    case CloseEncodeCh => s.prod.pc.CloseEncode?
    case CloseOutCh => s.prod.pc.WaitWorkers? && forall w :: 0 <= w < |s.flow.workers| ==> s.flow.workers[w].Exited?
    case SeeWriterDone => s.prod.pc.WaitWriter? && s.wr.pc.WDone?
    case SendLastFlush => s.prod.pc.SendFinal? && |s.parCh| < c.parCap
    case CloseParCh => s.prod.pc.ClosePar?
    case SeeParityDone => s.prod.pc.WaitParity? && s.par.pc.QDone?
  }

  /** The chunk buffer becomes a job: it is handed over, not copied. */
  function Enqueued(s: State, pc: ProducerPc): State
    requires s.prod.buf.Some? && s.prod.buf.value < |s.mem.cells|
  {
    var f, idx, id := s.flow, |s.flow.jobs|, s.prod.buf.value;
    s.(prod := s.prod.(pc := pc, buf := None),
         flow := f.(jobs := f.jobs + [Job(s.mem.cells[id].bytes, Some(id), None, None, None, false)],
                    loc := f.loc + [InEncode], encodeCh := f.encodeCh + [idx]),
         mem := SetCell(s.mem, id, s.mem.cells[id].(owner := PlainOf(idx))))
  }

  function ProducerDo(c: Config, s: State, a: ProducerAct): State
    requires ProducerCan(c, s, a)
  {
    match a
    case Call =>
      var p := s.prod;
      s.(prod := if s.err then p.(calls := p.calls[1..])
                 else p.(calls := p.calls[1..], pc := Copying(p.calls[0]), taken := p.taken + p.calls[0]))
    case Copy(id) =>
      var n := CopyLength(s.mem, s.prod.buf, s.prod.pc.rest);
      var cell := Cell(BufText(s.mem, s.prod.buf) + s.prod.pc.rest[..n], Filling);
      var rest := s.prod.pc.rest[n..];
      s.(prod := s.prod.(buf := Some(id), pc := if |cell.bytes| == CHUNK_PLAIN_SIZE then Sending(rest) else Copying(rest)),
         mem := if s.prod.buf.Some? then SetCell(s.mem, id, cell) else GetBuf(s.mem, PlainBuf, id, cell))
    case Return => s.(prod := s.prod.(pc := Open))
    case Enqueue => Enqueued(s, Copying(s.prod.pc.rest))
    case Drain =>
      if s.prod.buf.None? then s.(prod := s.prod.(pc := CloseEncode))
      else if BufText(s.mem, s.prod.buf) != [] then s.(prod := s.prod.(pc := FlushChunk))
      else s.(prod := s.prod.(pc := CloseEncode, buf := None),
         mem := PutBack(s.mem, PlainBuf, s.prod.buf.value))
    case EnqueueLast => Enqueued(s, CloseEncode)
    case CloseEncodeCh => s.(prod := s.prod.(pc := WaitWorkers))
    case CloseOutCh => s.(prod := s.prod.(pc := WaitWriter))
    case SeeWriterDone => s.(prod := s.prod.(pc := if s.wr.finalK > 0 then SendFinal else ClosePar))
    case SendLastFlush => s.(prod := s.prod.(pc := ClosePar), parCh := s.parCh + [FlushMsg(s.wr.finalG, s.wr.finalK)])
    case CloseParCh => s.(prod := s.prod.(pc := WaitParity))
    case SeeParityDone => s.(prod := s.prod.(pc := Returned))
  }

  // ---------- worker ----------

  datatype WorkerAct =
    | Take | CheckError
    | EncodeOk(blob: nat, par: nat, disk: nat)
    | EncodeFail
    | HandOver | Exit

  predicate JobValid(s: State, idx: nat) {
    idx < |s.flow.jobs| && idx < |s.flow.loc|
  }

  function Take1(m: Mem, blob: nat): Mem
    requires CanGet(m, BlobBuf, blob)
  {
    GetBuf(m, BlobBuf, blob, Cell([], Taken))
  }

  function Take2(m: Mem, blob: nat, par: nat): Mem
    requires CanGet(m, BlobBuf, blob) && CanGet(Take1(m, blob), ParBuf, par)
  {
    GetBuf(Take1(m, blob), ParBuf, par, Cell([], Taken))
  }

  /** An encode takes three buffers, one after the other. */
  predicate CanTake(m: Mem, blob: nat, par: nat, disk: nat) {
    && CanGet(m, BlobBuf, blob) && CanGet(Take1(m, blob), ParBuf, par) && CanGet(Take2(m, blob, par), DiskBuf, disk)
  }

  function Take3(m: Mem, blob: nat, par: nat, disk: nat): (r: Mem)
    requires CanTake(m, blob, par, disk)
    ensures |m.cells| <= |r.cells| && blob < |r.cells| && par < |r.cells| && disk < |r.cells|
  {
    GetBuf(Take2(m, blob, par), DiskBuf, disk, Cell([], Taken))
  }

  predicate CanEncode(c: Config, s: State, idx: nat, blob: nat, par: nat, disk: nat) {
    && JobValid(s, idx) && s.flow.jobs[idx].plain.Some? && s.flow.jobs[idx].plain.value < |s.mem.cells|
    && |c.pfx| == 4 && Fits(c.cr, c.pfx, idx, s.mem.cells[s.flow.jobs[idx].plain.value].bytes)
    && CanTake(s.mem, blob, par, disk)
  }

  predicate WorkerCan(c: Config, s: State, w: nat, a: WorkerAct) {
    var f := s.flow;
    && w < |f.workers|
    && match a
       case Take => f.workers[w].Idle? && f.encodeCh != [] && JobValid(s, f.encodeCh[0])
       case CheckError => f.workers[w].Got? && JobValid(s, f.workers[w].idx)
       case EncodeOk(blob, par, disk) => f.workers[w].Encoding? && CanEncode(c, s, f.workers[w].idx, blob, par, disk)
       case EncodeFail => f.workers[w].Encoding? && JobValid(s, f.workers[w].idx)
       case HandOver => f.workers[w].Handing? && JobValid(s, f.workers[w].idx) && |f.outCh| < c.outCap
       case Exit => f.workers[w].Idle? && f.encodeCh == [] && EncodeClosed(s.prod.pc)
  }

  /** The memory after encodeJob: three buffers filled, the plaintext's put back. */
  function EncodedMem(c: Config, s: State, idx: nat, blob: nat, par: nat, disk: nat): Mem
    requires CanEncode(c, s, idx, blob, par, disk)
  {
    var id := s.flow.jobs[idx].plain.value;
    var plain := s.mem.cells[id].bytes;
    var m := Take3(s.mem, blob, par, disk);
    var m1 := SetCell(m, blob, Cell(DataArea(c.cr, c.pfx, idx, plain), BlobOf(idx)));
    var m2 := SetCell(m1, par, Cell(ParityArea(c.cr, c.pfx, idx, plain), ParOf(idx)));
    var m3 := SetCell(m2, disk, Cell(BlobBytes(ChunkBlob(c.cr, c.pfx, idx, plain)), DiskOf(idx)));
    PutBack(m3, PlainBuf, id)
  }

  /** A worker's job marked as failed and about to be handed over. */
  function FailJob(f: Flow, w: nat, idx: nat): Flow
    requires w < |f.workers| && idx < |f.jobs|
  {
    f.(workers := f.workers[w := Handing(idx)], jobs := f.jobs[idx := f.jobs[idx].(failed := true)])
  }

  function EncodedJob(j: Job, blob: nat, par: nat, disk: nat): Job {
    j.(plain := None, blob := Some(blob), par := Some(par), disk := Some(disk))
  }

  function WorkerDo(c: Config, s: State, w: nat, a: WorkerAct): State
    requires WorkerCan(c, s, w, a)
  {
    var f := s.flow;
    match a
    case Take =>
      var idx := f.encodeCh[0];
      s.(flow := f.(encodeCh := f.encodeCh[1..], workers := f.workers[w := Got(idx)], loc := f.loc[idx := AtWorker(w)]))
    case CheckError =>
      var idx := f.workers[w].idx;
      s.(flow := if s.err then FailJob(f, w, idx) else f.(workers := f.workers[w := Encoding(idx)]))
    case EncodeOk(blob, par, disk) =>
      var idx := f.workers[w].idx;
      s.(flow := f.(workers := f.workers[w := Handing(idx)],
                    jobs := f.jobs[idx := EncodedJob(f.jobs[idx], blob, par, disk)]),
         mem := EncodedMem(c, s, idx, blob, par, disk))
    case EncodeFail => s.(flow := FailJob(f, w, f.workers[w].idx), err := true, failed := true)
    case HandOver =>
      var idx := f.workers[w].idx;
      s.(flow := f.(workers := f.workers[w := Idle], outCh := f.outCh + [idx], loc := f.loc[idx := InOut]))
    case Exit => s.(flow := f.(workers := f.workers[w := Exited]))
  }

  // ---------- write loop ----------

  datatype WriterAct =
    | Receive | Scan | SeekOk | SeekFail | WriteOk | WriteFail(n: nat) | SendBlob | SendFlush | Recycle | Finish

  /** The job in the write loop's hand. */
  predicate HandValid(s: State) {
    JobValid(s, s.wr.next)
  }

  function Hand(s: State): Job
    requires HandValid(s)
  {
    s.flow.jobs[s.wr.next]
  }

  predicate DiskValid(s: State) {
    HandValid(s) && Hand(s).disk.Some? && Hand(s).disk.value < |s.mem.cells|
  }

  /** What the write loop is about to write. */
  function DiskData(s: State): Bytes
    requires DiskValid(s)
  {
    s.mem.cells[Hand(s).disk.value].bytes
  }

  predicate WriterCan(c: Config, s: State, a: WriterAct) {
    var w := s.wr;
    match a
    case Receive => w.pc.WRecv? && s.flow.outCh != [] && JobValid(s, s.flow.outCh[0])
    case Scan => w.pc.WScan? && (w.next in w.pending ==> HandValid(s))
    case SeekOk => w.pc.WSeek?
    case SeekFail => w.pc.WSeek?
    case WriteOk => w.pc.WWrite? && DiskValid(s)
    case WriteFail(n) => w.pc.WWrite? && DiskValid(s) && n <= |DiskData(s)|
    case SendBlob => w.pc.WSendBlob? && HandValid(s) && Hand(s).blob.Some? && Hand(s).par.Some? && |s.parCh| < c.parCap
    case SendFlush => w.pc.WSendFlush? && |s.parCh| < c.parCap
    case Recycle => w.pc.WRecycle? && HandValid(s) && (Hand(s).disk.Some? ==> DiskValid(s))
    case Finish => w.pc.WRecv? && s.flow.outCh == [] && OutClosed(s.prod.pc)
  }

  /** Write data at the cursor. */
  function Written(d: Disk, data: Bytes): Disk {
    d.(file := Overwrite(d.file, d.pos, data), pos := d.pos + |data|)
  }

  /** Write data at the cursor and note what it was. */
  function Noted(d: Disk, what: Label, data: Bytes): Disk {
    Written(d, data).(log := d.log + [Logged(what, Put(d.pos, data))])
  }

  function HandTo(f: Flow, idx: nat, loc: Loc): Flow
    requires idx < |f.loc|
  {
    f.(loc := f.loc[idx := loc])
  }

  function WriterDo(c: Config, s: State, a: WriterAct): State
    requires WriterCan(c, s, a)
  {
    var w, f := s.wr, s.flow;
    match a
    case Receive =>
      s.(flow := HandTo(f, f.outCh[0], InPending).(outCh := f.outCh[1..]),
         wr := w.(pending := w.pending + {f.outCh[0]}, pc := WScan))
    case Scan =>
      if w.next in w.pending then
        s.(flow := HandTo(f, w.next, InHand),
           wr := w.(pending := w.pending - {w.next}, pc := if Hand(s).failed then WRecycle else WSeek))
      else s.(wr := w.(pc := WRecv))
    case SeekOk =>
      s.(wr := w.(pc := WWrite),
         disk := s.disk.(pos := c.spec.DataBlobOffset(w.next), raced := s.disk.raced || s.par.pc.QWrite?))
    case SeekFail => s.(wr := w.(pc := WRecycle), err := true, failed := true)
    case WriteOk =>
      s.(disk := Noted(s.disk, DataW(w.next), DiskData(s)),
         wr := w.(pc := WSendBlob, plainSize := w.plainSize + |Hand(s).chunk|, groupChunks := w.groupChunks + 1))
    case WriteFail(n) => s.(disk := Written(s.disk, DiskData(s)[..n]), wr := w.(pc := WRecycle), err := true, failed := true)
    case SendBlob =>
      s.(parCh := s.parCh + [DataMsg(Entry(w.next, Hand(s).blob.value, Hand(s).par.value))],
         flow := f.(jobs := f.jobs[w.next := Hand(s).(blob := None, par := None)]),
         wr := w.(pc := if w.groupChunks == FILE_GROUP_CHUNKS then WSendFlush else WRecycle))
    case SendFlush =>
      s.(parCh := s.parCh + [FlushMsg(w.groupsDone, FILE_GROUP_CHUNKS)],
         wr := w.(groupsDone := w.groupsDone + 1, groupChunks := 0, pc := WRecycle))
    case Recycle =>
      s.(mem := if Hand(s).disk.Some? then PutBack(s.mem, DiskBuf, Hand(s).disk.value) else s.mem,
         flow := HandTo(f, w.next, Consumed).(jobs := f.jobs[w.next := Hand(s).(plain := None, blob := None, par := None, disk := None)]),
         wr := w.(next := w.next + 1, pc := WScan))
    case Finish =>
      s.(wr := w.(pc := WDone, finalG := w.groupsDone, finalK := w.groupChunks), err := s.err || w.pending != {})
  }

  // ---------- parity loop ----------

  datatype ParityAct =
    | ReceiveMsg | EncodeWindow | EncodeWindowFail | SeekParity | SeekParityFail | WriteParity | WriteParityFail(n: nat)
    | RecycleGroup | Stop

  predicate AccValid(m: Mem, acc: seq<Entry>) {
    forall i :: 0 <= i < |acc| ==> acc[i].blob < |m.cells| && acc[i].par < |m.cells|
  }

  /** What the buffers of the accumulated group hold. */
  function AccBlobs(m: Mem, acc: seq<Entry>): seq<Bytes>
    requires AccValid(m, acc)
  {
    seq(|acc|, i requires 0 <= i < |acc| => m.cells[acc[i].blob].bytes)
  }

  function AccPars(m: Mem, acc: seq<Entry>): seq<Bytes>
    requires AccValid(m, acc)
  {
    seq(|acc|, i requires 0 <= i < |acc| => m.cells[acc[i].par].bytes)
  }

  function GroupM(c: Config, acc: seq<Entry>): nat {
    c.spec.ParityCountFor(|acc|)
  }

  ghost predicate CanEncodeWindow(c: Config, s: State, w: nat) {
    && w < WINDOWS && AccValid(s.mem, s.par.acc) && Areas(AccBlobs(s.mem, s.par.acc), AccPars(s.mem, s.par.acc))
    && FileCodeOk(c.cr, |s.par.acc|, GroupM(c, s.par.acc)) && GroupM(c, s.par.acc) > 0
  }

  function EncodedWindow(c: Config, s: State, w: nat): Shards
    requires CanEncodeWindow(c, s, w)
  {
    WindowEncoded(c.cr, AccBlobs(s.mem, s.par.acc), AccPars(s.mem, s.par.acc), GroupM(c, s.par.acc), w)
  }

  predicate OutValid(pc: ParityPc) {
    (pc.QSeek? || pc.QWrite?) && pc.q < |pc.out| && |pc.out[pc.q]| == WINDOW_BYTES
  }

  /** The write the parity loop is about to do. */
  function NextPut(c: Config, s: State): Put
    requires OutValid(s.par.pc)
  {
    var pc := s.par.pc;
    ParityPut(c.cr, c.spec, pc.g, |s.par.acc|, pc.q, pc.w, pc.out[pc.q])
  }

  ghost predicate ParityCan(c: Config, s: State, a: ParityAct) {
    var pc := s.par.pc;
    match a
    case ReceiveMsg => pc.QRecv? && s.parCh != []
    case EncodeWindow => pc.QEncode? && CanEncodeWindow(c, s, pc.w)
    case EncodeWindowFail => pc.QEncode?
    case SeekParity => pc.QSeek? && OutValid(pc)
    case SeekParityFail => pc.QSeek?
    case WriteParity => pc.QWrite? && OutValid(pc)
    case WriteParityFail(n) => pc.QWrite? && OutValid(pc) && n <= |NextPut(c, s).data|
    case RecycleGroup => pc.QRecycle? && AccValid(s.mem, s.par.acc)
    case Stop => pc.QRecv? && s.parCh == [] && ParClosed(s.prod.pc)
  }

  /** Put back the buffers of the first n accumulated chunks. */
  function PutAll(m: Mem, acc: seq<Entry>, n: nat): (r: Mem)
    requires n <= |acc| && AccValid(m, acc)
    ensures |r.cells| == |m.cells|
  {
    if n == 0 then m
    else
      var p := PutAll(m, acc, n - 1);
      PutBack(PutBack(p, BlobBuf, acc[n - 1].blob), ParBuf, acc[n - 1].par)
  }

  /** After parity q of window w: the next one, the next window, or the end. */
  function AfterWrite(g: nat, w: nat, q: nat, out: Shards): ParityPc {
    if q + 1 < |out| then QSeek(g, w, q + 1, out)
    else if w + 1 < WINDOWS then QEncode(g, w + 1)
    else QRecycle
  }

  function ParityDo(c: Config, s: State, a: ParityAct): State
    requires ParityCan(c, s, a)
  {
    var p := s.par;
    match a
    case ReceiveMsg =>
      (match s.parCh[0]
       case DataMsg(e) => s.(parCh := s.parCh[1..], par := p.(acc := p.acc + [e]))
       case FlushMsg(g, k) =>
         if |p.acc| != k || !FileCodeExists(k, c.spec.ParityCountFor(k)) then
           s.(parCh := s.parCh[1..], par := p.(pc := QRecycle), err := true)
         else s.(parCh := s.parCh[1..], par := p.(pc := QEncode(g, 0))))
    case EncodeWindow => s.(par := p.(pc := QSeek(p.pc.g, p.pc.w, 0, EncodedWindow(c, s, p.pc.w))))
    case EncodeWindowFail => s.(par := p.(pc := QRecycle), err := true, failed := true)
    case SeekParity =>
      s.(par := p.(pc := QWrite(p.pc.g, p.pc.w, p.pc.q, p.pc.out)),
         disk := s.disk.(pos := NextPut(c, s).off, raced := s.disk.raced || s.wr.pc.WWrite?))
    case SeekParityFail => s.(par := p.(pc := QRecycle), err := true, failed := true)
    case WriteParity =>
      s.(disk := Noted(s.disk, ParW(p.pc.g, p.pc.w, p.pc.q), NextPut(c, s).data),
         par := p.(pc := AfterWrite(p.pc.g, p.pc.w, p.pc.q, p.pc.out)))
    case WriteParityFail(n) =>
      s.(disk := Written(s.disk, NextPut(c, s).data[..n]), par := p.(pc := QRecycle), err := true, failed := true)
    case RecycleGroup => s.(mem := PutAll(s.mem, p.acc, |p.acc|), par := Par(QRecv, [], p.pg + 1))
    case Stop => s.(par := p.(pc := QDone))
  }

  // ---------- runs ----------

  datatype Action = Producer(p: ProducerAct) | Worker(w: nat, act: WorkerAct) | Writer(r: WriterAct) | Parity(q: ParityAct)

  ghost predicate Can(c: Config, s: State, a: Action) {
    match a
    case Producer(p) => ProducerCan(c, s, p)
    case Worker(w, act) => WorkerCan(c, s, w, act)
    case Writer(r) => WriterCan(c, s, r)
    case Parity(q) => ParityCan(c, s, q)
  }

  function Do(c: Config, s: State, a: Action): State
    requires Can(c, s, a)
  {
    match a
    case Producer(p) => ProducerDo(c, s, p)
    case Worker(w, act) => WorkerDo(c, s, w, act)
    case Writer(r) => WriterDo(c, s, r)
    case Parity(q) => ParityDo(c, s, q)
  }

  /** These actions are a run of the pipeline. */
  ghost predicate IsRun(c: Config, run: seq<Action>)
    decreases |run|, 0
  {
    var n := |run|;
    n == 0 || (IsRun(c, run[..n - 1]) && Can(c, After(c, run[..n - 1]), run[n - 1]))
  }

  /** The state a run reaches. */
  ghost function After(c: Config, run: seq<Action>): State
    requires IsRun(c, run)
    decreases |run|, 1
  {
    var n := |run|;
    if n == 0 then Init(c) else Do(c, After(c, run[..n - 1]), run[n - 1])
  }
}

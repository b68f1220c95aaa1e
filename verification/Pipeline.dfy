/**
  The acquisition pipeline as a step system.

  Three kinds of thread share the driver's state: the interrupt (one hard handler and
  its thread, never two at once), any number of callers of `read`, and the control calls
  (`ioctl` and `release`, one at a time).  Every list-lock section, buffer-lock section,
  atomic operation and SPI transfer is one step; a program counter per thread says
  which step comes next.  A label carries what the environment decides: the clock, the
  received bytes, the outcome of a transfer, of an interrupt request or of a copy to
  user space.

  `Hist` holds history only: no step reads it to decide anything.
*/
module Pipeline {
  import opened Wrappers
  import opened Codec

  const CHUNK_BUF_CNT := 8
  const XFER_BUF_NUM := 8
  const MAX_CHUNK_SZ := 320
  const DEFAULT_CHUNK_SZ := 40
  const SMPL_DATA_SZ := 40   // an 8-byte time stamp and eight 4-byte values

  type BufId = b: int | 0 <= b < CHUNK_BUF_CNT
  type XferId = x: int | 0 <= x < XFER_BUF_NUM
  type Errno = e: int | e < 0 witness -1

  datatype Sample = Sample(ts: int, ch: seq<int>)

  datatype Stat = StatFree | StatReady | StatActive

  type Slots = d: seq<Sample> | |d| == MAX_CHUNK_SZ witness seq(MAX_CHUNK_SZ, _ => Sample(0, []))

  datatype Buf = Buf(stat: Stat, idx: int, chunkSz: int, xfer: Option<XferId>, data: Slots)
  {
    /** The samples the buffer currently holds. */
    function Filled(): seq<Sample> {
      if 0 <= idx <= MAX_CHUNK_SZ then data[..idx] else []
    }

    /** A store outside `data` has no defined effect in C; here it has none at all. */
    function SetTs(slot: int, ts: int): Buf {
      if 0 <= slot < MAX_CHUNK_SZ then this.(data := data[slot := data[slot].(ts := ts)]) else this
    }

    function SetChannels(slot: int, ch: seq<int>): Buf {
      if 0 <= slot < MAX_CHUNK_SZ then this.(data := data[slot := data[slot].(ch := ch)]) else this
    }

    function Cleared(): Buf {
      this.(idx := 0, stat := StatFree, xfer := None)
    }
  }

  type Bufs = s: seq<Buf> | |s| == CHUNK_BUF_CNT
    witness seq(CHUNK_BUF_CNT, _ => Buf(StatFree, 0, DEFAULT_CHUNK_SZ, None, seq(MAX_CHUNK_SZ, _ => Sample(0, []))))

  // ----- program counters -----

  /** Where the interrupt is: each constructor names the step to come. */
  datatype Irq =
    | IrqIdle
    | FetchActive
    | FetchFree
    | CountDrop
    | Discard
    | MarkActive(b: BufId)
    | FindStamp(b: BufId)
    | Stamp(b: BufId, slot: int)
    | TakeXfer(b: BufId)
    | ReadFrame(b: BufId, x: XferId)
    | Abort(b: BufId, x: XferId)
    | FindSlot(b: BufId, x: XferId, rx: DataFrame)
    | Decode(b: BufId, x: XferId, rx: DataFrame, slot: int)
    | Bump(b: BufId)
    | PutActive(b: BufId)
    | PutReady(b: BufId)
    | WakeReaders

  /** A caller of `read`.  `woken` is set by a wake-up that arrives once the caller is on the wait queue. */
  datatype Reader =
    | Outside
    | Prepare(max: nat)
    | CheckReady(max: nat, woken: bool)
    | CheckStop(max: nat, woken: bool)
    | Asleep(max: nat, woken: bool)
    | Grab(max: nat)
    | Missed(max: nat)
    | Holding(max: nat, b: BufId, chunk: seq<Sample>)
    | Copying(max: nat, b: BufId, chunk: seq<Sample>, got: int)
    | Clearing(b: BufId)
    | Returning(b: BufId)

  datatype Cmd =
    | CmdReset | CmdStandby | CmdWakeup | CmdLock | CmdUnlock | CmdRreg | CmdWreg
    | CmdChunkSz(arg: nat) | CmdStat(arg: nat) | CmdOther

  /** The command frames a control call sends, and how many of them. */
  datatype Op = OpReset | OpStandby | OpWakeup | OpLock | OpUnlock | OpRreg | OpWreg
  {
    function Frames(): nat {
      match this
      case OpReset => 3
      case OpRreg => 2
      case OpWreg => 2
      case _ => 1
    }

    /** The command word of frame `i`; address and count of a register command are not in it. */
    function Word(i: nat): Codec.Word {
      match this
      case OpReset => if i == 0 then CMD_RESET else if i == 1 then CMD_NULL else CMD_STANDBY
      case OpStandby => CMD_STANDBY
      case OpWakeup => CMD_WAKEUP
      case OpLock => CMD_LOCK
      case OpUnlock => CMD_UNLOCK
      case OpRreg => if i == 0 then CMD_RREG else CMD_NULL
      case OpWreg => if i == 0 then CMD_WREG else CMD_NULL
    }
  }

  /** What the current call of `ads131m08_data_cleanup` belongs to. */
  datatype Purpose = Starting | StartFailed(err: int) | Stopping(ret: int)

  datatype Ctl =
    | CtlIdle(ret: int)
    | Gate(cmd: Cmd)
    | RunCheck(on: bool)
    | Sweep(k: Purpose, active: bool)
    | SweepClear(k: Purpose, active: bool, b: BufId)
    | SweepReturn(k: Purpose, active: bool, b: BufId)
    | SweepWake(k: Purpose)
    | SetRun
    | SetIrq
    | IrqRefused(err: int)
    | FrameTake(op: Op, i: nat)
    | FrameSend(op: Op, i: nat, x: XferId)
    | FrameDone(op: Op, i: nat, x: XferId, res: int)
    | ClearIrq(k: Purpose)
    | SetStop(k: Purpose)
    | SizeGate(arg: nat)
    | Resize(n: int, i: nat)
    | Publish(n: int)

  // ----- what each thread holds -----

  function IrqBuf(irq: Irq): Option<BufId> {
    match irq
    case MarkActive(b) => Some(b)
    case FindStamp(b) => Some(b)
    case Stamp(b, _) => Some(b)
    case TakeXfer(b) => Some(b)
    case ReadFrame(b, _) => Some(b)
    case Abort(b, _) => Some(b)
    case FindSlot(b, _, _) => Some(b)
    case Decode(b, _, _, _) => Some(b)
    case Bump(b) => Some(b)
    case PutActive(b) => Some(b)
    case PutReady(b) => Some(b)
    case _ => None
  }

  function ReaderBuf(r: Reader): Option<BufId> {
    match r
    case Holding(_, b, _) => Some(b)
    case Copying(_, b, _, _) => Some(b)
    case Clearing(b) => Some(b)
    case Returning(b) => Some(b)
    case _ => None
  }

  function CtlBuf(ctl: Ctl): Option<BufId> {
    match ctl
    case SweepClear(_, _, b) => Some(b)
    case SweepReturn(_, _, b) => Some(b)
    case _ => None
  }

  function IrqXfer(irq: Irq): Option<XferId> {
    match irq
    case ReadFrame(_, x) => Some(x)
    case Abort(_, x) => Some(x)
    case FindSlot(_, x, _) => Some(x)
    case Decode(_, x, _, _) => Some(x)
    case _ => None
  }

  function CtlXfer(ctl: Ctl): Option<XferId> {
    match ctl
    case FrameSend(_, _, x) => Some(x)
    case FrameDone(_, _, x, _) => Some(x)
    case _ => None
  }

  // ----- state -----

  datatype BusEvent = IrqFrame | CtlFrame(op: Op, i: nat, ok: bool)

  /**
    One buffer fetched from the ready list, or from the active list by the cleanup; `sz` is the
    size published then.
  */
  datatype Chunk = Chunk(byReader: bool, sz: int, samples: seq<Sample>)

  /** Caller `r` took `chunk` from the ready list. */
  datatype Take = Take(r: nat, chunk: seq<Sample>)

  /** Caller `r` was done with `chunk`; `copied` is the outcome of `copy_to_user`. */
  datatype Ending = Ending(r: nat, chunk: seq<Sample>, copied: bool)

  /** One successful `copy_to_user`, to caller `r`. */
  datatype Delivery = Delivery(r: nat, max: nat, chunk: seq<Sample>, samples: seq<Sample>)

  datatype Hist = Hist(
    eventTs: int,              // clock at the latest DRDY edge
    frames: seq<Sample>,       // every frame read without error, as stamped and decoded
    taken: seq<Chunk>,
    frameMark: nat,            // |frames| and |taken| when the current session began
    takenMark: nat,
    takes: seq<Take>,
    endings: seq<Ending>,
    deliveries: seq<Delivery>,
    delivered: nat,            // samples copied to user space
    cut: int,                  // samples beyond the caller's count
    lost: int,                 // samples in a chunk whose copy failed
    erased: int,               // samples a resize hid from the reader that held them
    clashes: nat,              // resizes that hit a buffer held by a reader
    discarded: nat,            // samples thrown away by the cleanup
    runs: nat,                 // DRDY edges served
    failed: nat,               // IRQ-thread runs whose transfer failed
    bus: seq<BusEvent>)

  datatype State = State(
    run: bool,
    registered: bool,
    chunkSz: int,
    dropCnt: nat,
    smplTs: int,
    free: seq<BufId>,
    active: seq<BufId>,
    ready: seq<BufId>,
    pool: seq<XferId>,
    bufs: Bufs,
    isOpen: bool,
    closing: bool,
    irq: Irq,
    readers: seq<Reader>,
    ctl: Ctl,
    h: Hist)

  // ----- labels -----

  datatype Io = Ok(rx: DataFrame) | Fail(err: Errno)

  datatype Label =
    | Drdy(ts: int)
    | StepIrq(io: Io)
    | Call(r: nat, count: nat)
    | StepRead(r: nat, copied: bool)
    | Signal(r: nat)
    | Open
    | Release
    | Released
    | Ioctl(cmd: Cmd)
    | StepCtl(io: Io)
    | StrayClear(i: BufId, n: int)    // a resize that does not wait for its turn
    | StrayPublish(n: int)

  predicate Enabled(s: State, l: Label) {
    match l
    case Drdy(_) => s.registered && s.irq.IrqIdle?
    case StepIrq(_) => !s.irq.IrqIdle?
    case Call(r, _) => s.isOpen && !s.closing && r < |s.readers| && s.readers[r].Outside?
    case StepRead(r, _) =>
      r < |s.readers| && !s.readers[r].Outside? && (s.readers[r].Asleep? ==> s.readers[r].woken)
    case Signal(r) => r < |s.readers| && s.readers[r].Asleep?
    case Open => !s.isOpen
    case Release => s.isOpen && !s.closing && s.ctl.CtlIdle? && AllOutside(s.readers)
    case Released => s.closing && s.ctl.CtlIdle?
    case Ioctl(_) => s.isOpen && !s.closing && s.ctl.CtlIdle?
    case StepCtl(_) => !s.ctl.CtlIdle? && (s.ctl.ClearIrq? && s.registered ==> s.irq.IrqIdle?)
    case StrayClear(_, n) => 1 <= n <= MAX_CHUNK_SZ
    case StrayPublish(n) => 1 <= n <= MAX_CHUNK_SZ
  }

  /** Labels of control calls that respect the one-at-a-time assumption. */
  predicate Serialised(ls: seq<Label>) {
    forall i :: 0 <= i < |ls| ==> !ls[i].StrayClear? && !ls[i].StrayPublish?
  }

  predicate AllOutside(rs: seq<Reader>) {
    forall r :: 0 <= r < |rs| ==> rs[r].Outside?
  }

  function Step(s: State, l: Label): State
    requires Enabled(s, l)
  {
    match l
    case Drdy(ts) => DrdyStep(s, ts)
    case StepIrq(io) => IrqStep(s, io)
    case Call(r, count) =>
      if count < SMPL_DATA_SZ then s   // -EINVAL
      else s.(readers := s.readers[r := Prepare(count / SMPL_DATA_SZ)])
    case StepRead(r, copied) => ReadStep(s, r, copied)
    case Signal(r) => s.(readers := s.readers[r := Outside])
    case Open => s.(isOpen := true)
    case Release => s.(closing := true, ctl := RunCheck(false))
    case Released => s.(closing := false, isOpen := false)
    case Ioctl(cmd) => s.(ctl := Gate(cmd))
    case StepCtl(io) => CtlStep(s, io)
    case StrayClear(i, n) => ClearForSize(s, i, n)
    case StrayPublish(n) => s.(chunkSz := n)
  }

  // ----- the interrupt -----

  function DrdyStep(s: State, ts: int): State {
    s.(smplTs := ts, irq := FetchActive, h := s.h.(eventTs := ts, runs := s.h.runs + 1))
  }

  predicate Fetching(irq: Irq) {
    irq.FetchActive? || irq.FetchFree? || irq.CountDrop? || irq.Discard?
  }

  predicate Stamping(irq: Irq) {
    irq.MarkActive? || irq.FindStamp? || irq.Stamp? || irq.TakeXfer?
  }

  predicate Filling(irq: Irq) {
    irq.ReadFrame? || irq.Abort? || irq.FindSlot? || irq.Decode? || irq.Bump?
  }

  predicate Handing(irq: Irq) {
    irq.PutActive? || irq.PutReady? || irq.WakeReaders?
  }

  function IrqStep(s: State, io: Io): (t: State)
    requires !s.irq.IrqIdle?
    ensures t == s.(free := t.free, active := t.active, ready := t.ready, pool := t.pool, bufs := t.bufs,
                    dropCnt := t.dropCnt, readers := t.readers, irq := t.irq, h := t.h)
  {
    if Fetching(s.irq) then FetchStep(s)
    else if Stamping(s.irq) then StampStep(s)
    else if Filling(s.irq) then FillStep(s, io)
    else HandStep(s)
  }

  /** `ads131m08_irq_thread` up to the point where it has a buffer, or has given up. */
  function FetchStep(s: State): (t: State)
    requires Fetching(s.irq)
    ensures t == s.(free := t.free, active := t.active, dropCnt := t.dropCnt, irq := t.irq,
                    h := s.h.(bus := t.h.bus))
  {
    match s.irq
    case FetchActive =>
      if s.active == [] then s.(irq := FetchFree)
      else s.(active := s.active[1..], irq := MarkActive(s.active[0]))
    case FetchFree =>
      if s.free == [] then s.(irq := CountDrop)
      else s.(free := s.free[1..], irq := MarkActive(s.free[0]))
    case CountDrop => s.(dropCnt := s.dropCnt + 1, irq := Discard)
    case Discard => s.(irq := IrqIdle, h := s.h.(bus := s.h.bus + [IrqFrame]))
  }

  /** The rest of it up to the SPI transfer in `ads131m08_read_data`. */
  function StampStep(s: State): (t: State)
    requires Stamping(s.irq)
    ensures t == s.(bufs := s.bufs[s.irq.b := t.bufs[s.irq.b]], pool := t.pool, irq := t.irq,
                    h := s.h.(failed := t.h.failed))
  {
    match s.irq
    case MarkActive(b) => SetBuf(s, b, s.bufs[b].(stat := StatActive)).(irq := FindStamp(b))
    case FindStamp(b) => s.(irq := Stamp(b, s.bufs[b].idx))
    case Stamp(b, slot) => SetBuf(s, b, s.bufs[b].SetTs(slot, s.smplTs)).(irq := TakeXfer(b))
    case TakeXfer(b) =>
      if s.pool == [] then s.(irq := PutActive(b), h := s.h.(failed := s.h.failed + 1))
      else SetBuf(s, b, s.bufs[b].(xfer := Some(s.pool[0]))).(pool := s.pool[1..], irq := ReadFrame(b, s.pool[0]))
  }

  /** The transfer itself and `xfer_complete`. */
  function FillStep(s: State, io: Io): (t: State)
    requires Filling(s.irq)
    ensures t == s.(bufs := s.bufs[s.irq.b := t.bufs[s.irq.b]], pool := t.pool, irq := t.irq,
                    h := s.h.(failed := t.h.failed, bus := t.h.bus, frames := t.h.frames))
  {
    match s.irq
    case ReadFrame(b, x) =>
      s.(irq := if io.Ok? then FindSlot(b, x, io.rx) else Abort(b, x), h := Transferred(s.h, io))
    case Abort(b, x) =>
      SetBuf(s, b, s.bufs[b].(xfer := None))
        .(pool := s.pool + [x], irq := PutActive(b), h := s.h.(failed := s.h.failed + 1))
    case FindSlot(b, x, rx) =>
      // Without a transfer the source returns here, and the buffer is on no list.
      if s.bufs[b].xfer.None? then s.(irq := IrqIdle)
      else s.(irq := Decode(b, s.bufs[b].xfer.value, rx, s.bufs[b].idx))
    case Decode(b, x, rx, slot) =>
      SetBuf(s, b, s.bufs[b].SetChannels(slot, Channels(rx)).(xfer := None)).(pool := s.pool + [x], irq := Bump(b))
    case Bump(b) =>
      var buf := s.bufs[b].(idx := s.bufs[b].idx + 1);
      if buf.idx >= buf.chunkSz then SetBuf(s, b, buf.(stat := StatReady)).(irq := PutReady(b))
      else SetBuf(s, b, buf).(irq := PutActive(b))
  }

  /** The transfer in the logs. */
  function Transferred(h: Hist, io: Io): (h': Hist)
    ensures h' == h.(bus := h'.bus, frames := h'.frames)
  {
    if io.Ok? then h.(bus := h.bus + [IrqFrame], frames := h.frames + [Sample(h.eventTs, Channels(io.rx))])
    else h.(bus := h.bus + [IrqFrame])
  }

  function HandStep(s: State): (t: State)
    requires Handing(s.irq)
    ensures t == s.(active := t.active, ready := t.ready, readers := t.readers, irq := t.irq)
  {
    match s.irq
    case PutActive(b) => s.(active := s.active + [b], irq := IrqIdle)
    case PutReady(b) => s.(ready := s.ready + [b], irq := WakeReaders)
    case WakeReaders => s.(readers := WakeAll(s.readers), irq := IrqIdle)
  }

  function SetBuf(s: State, b: BufId, buf: Buf): State {
    s.(bufs := s.bufs[b := buf])
  }

  /** `wake_up_interruptible`: everyone on the wait queue is woken. */
  function WakeAll(rs: seq<Reader>): (out: seq<Reader>)
    ensures |out| == |rs|
  {
    seq(|rs|, i requires 0 <= i < |rs| => Wake(rs[i]))
  }

  function Wake(r: Reader): Reader {
    match r
    case CheckReady(max, _) => CheckReady(max, true)
    case CheckStop(max, _) => CheckStop(max, true)
    case Asleep(max, _) => Asleep(max, true)
    case _ => r
  }

  // ----- read() -----

  predicate Waiting(r: Reader) {
    r.Prepare? || r.CheckReady? || r.CheckStop? || r.Asleep? || r.Missed?
  }

  function ReadStep(s: State, r: nat, copied: bool): (t: State)
    requires r < |s.readers| && !s.readers[r].Outside?
    ensures |t.readers| == |s.readers|
    ensures t == s.(free := t.free, ready := t.ready, bufs := t.bufs, readers := s.readers[r := t.readers[r]], h := t.h)
  {
    if Waiting(s.readers[r]) then SetReader(s, r, WaitTo(s, s.readers[r]))
    else if s.readers[r].Grab? then GrabStep(s, r)
    else DeliverStep(s, r, copied)
  }

  /** `wait_event_interruptible`: queue up, test the two halves of the condition, sleep; and the retry after it. */
  function WaitTo(s: State, pc: Reader): (to: Reader)
    requires Waiting(pc)
    ensures Waiting(to) || to.Grab? || to.Outside?
  {
    match pc
    case Prepare(max) => CheckReady(max, false)
    case CheckReady(max, woken) => if s.ready != [] then Grab(max) else CheckStop(max, woken)
    case CheckStop(max, woken) => if !s.run then Grab(max) else Asleep(max, woken)
    case Asleep(max, _) => Prepare(max)
    case Missed(max) => if !s.run then Outside else Prepare(max)
  }

  function GrabStep(s: State, r: nat): (t: State)
    requires r < |s.readers| && s.readers[r].Grab?
    ensures |t.readers| == |s.readers|
    ensures t == s.(ready := t.ready, readers := s.readers[r := t.readers[r]],
                    h := s.h.(taken := t.h.taken, takes := t.h.takes))
  {
    var max := s.readers[r].max;
    if s.ready == [] then SetReader(s, r, Missed(max))
    else
      var b := s.ready[0];
      var chunk := s.bufs[b].Filled();
      SetReader(s, r, Holding(max, b, chunk))
        .(ready := s.ready[1..], h := TakenBy(s, b, true).(takes := s.h.takes + [Take(r, chunk)]))
  }

  /** The rest of `ads131m08_read`: find out how much there is, copy it, give the buffer back. */
  function DeliverStep(s: State, r: nat, copied: bool): (t: State)
    requires r < |s.readers| && ReaderBuf(s.readers[r]).Some?
    ensures |t.readers| == |s.readers|
    ensures var b := ReaderBuf(s.readers[r]).value;
      t == s.(bufs := s.bufs[b := t.bufs[b]], free := t.free, readers := s.readers[r := t.readers[r]],
              h := s.h.(erased := t.h.erased, lost := t.h.lost, endings := t.h.endings,
                        deliveries := t.h.deliveries, delivered := t.h.delivered, cut := t.h.cut))
  {
    match s.readers[r]
    case Holding(max, b, chunk) =>
      var got := s.bufs[b].idx;
      s.(readers := s.readers[r := Copying(max, b, chunk, got)], h := s.h.(erased := s.h.erased + |chunk| - got))
    case Copying(max, b, chunk, got) =>
      s.(readers := s.readers[r := Clearing(b)], h := CopyOut(s, r, max, b, chunk, got, copied))
    case Clearing(b) => s.(readers := s.readers[r := Returning(b)], bufs := s.bufs[b := s.bufs[b].Cleared()])
    case Returning(b) => s.(readers := s.readers[r := Outside], free := s.free + [b])
  }

  function SetReader(s: State, r: nat, pc: Reader): State
    requires r < |s.readers|
  {
    s.(readers := s.readers[r := pc])
  }

  function TakenBy(s: State, b: BufId, byReader: bool): Hist {
    s.h.(taken := s.h.taken + [Chunk(byReader, s.chunkSz, s.bufs[b].Filled())])
  }

  /** The bytes handed to the user are read from the buffer at the time of the copy. */
  function CopyOut(s: State, r: nat, max: nat, b: BufId, chunk: seq<Sample>, got: int, copied: bool): (h: Hist)
    ensures h == s.h.(lost := h.lost, endings := h.endings, deliveries := h.deliveries,
                      delivered := h.delivered, cut := h.cut)
    ensures h.endings == s.h.endings + [Ending(r, chunk, copied)]
  {
    var n := Min(max, got);
    var h := s.h.(endings := s.h.endings + [Ending(r, chunk, copied)]);
    if !copied then h.(lost := h.lost + got)
    else if 0 <= n <= MAX_CHUNK_SZ then
      h.(deliveries := h.deliveries + [Delivery(r, max, chunk, s.bufs[b].data[..n])],
         delivered := h.delivered + n, cut := h.cut + got - n)
    else h
  }

  // ----- control calls -----

  /** Conversion of an unsigned long to int. */
  function ToInt32(n: nat): (r: int)
    ensures -0x8000_0000 <= r < 0x8000_0000 && (n - r) % 0x1_0000_0000 == 0
    ensures n < 0x8000_0000 ==> r == n
    ensures 0x8000_0000 <= n < 0x1_0000_0000 ==> r == n - 0x1_0000_0000
  {
    var m := n % 0x1_0000_0000;
    if m >= 0x8000_0000 then m - 0x1_0000_0000 else m
  }

  predicate AllowedWhileRunning(cmd: Cmd) {
    cmd.CmdStandby? || cmd.CmdStat?
  }

  function GateTo(s: State, cmd: Cmd, io: Io): (c: Ctl)
    ensures c.CtlIdle? || c.RunCheck? || (!s.run && (c.SizeGate? || c.FrameTake?))
    ensures c.FrameTake? ==> c.i == 0 && !c.op.OpWakeup? && !c.op.OpStandby?
    ensures s.run && !cmd.CmdStandby? && !cmd.CmdStat? ==> c == CtlIdle(-16)
    ensures s.run && c.RunCheck? && c.on ==> cmd.CmdStat?
  {
    if s.run && !AllowedWhileRunning(cmd) then CtlIdle(EBUSY)
    else match cmd
      case CmdReset => FrameTake(OpReset, 0)
      case CmdStandby => RunCheck(false)
      case CmdWakeup => RunCheck(true)
      case CmdLock => FrameTake(OpLock, 0)
      case CmdUnlock => FrameTake(OpUnlock, 0)
      case CmdRreg => if io.Fail? then CtlIdle(io.err) else FrameTake(OpRreg, 0)
      case CmdWreg => if io.Fail? then CtlIdle(io.err) else FrameTake(OpWreg, 0)
      case CmdChunkSz(arg) => SizeGate(arg)
      case CmdStat(arg) =>
        if ToInt32(arg) == 0 then RunCheck(false)
        else if ToInt32(arg) == 1 then RunCheck(true)
        else CtlIdle(if s.run then 1 else 0)
      case CmdOther => CtlIdle(ENOTTY)
  }

  function SizeGateTo(s: State, arg: nat): (c: Ctl)
    ensures c.CtlIdle? || (!s.run && c.Resize? && 1 <= c.n <= MAX_CHUNK_SZ && c.i == 0)
  {
    if s.run then CtlIdle(EBUSY)
    else if ToInt32(arg) <= 0 then CtlIdle(s.chunkSz)
    else Resize(Min(ToInt32(arg), MAX_CHUNK_SZ), 0)
  }

  /** Where a command frame with result `res` leads. */
  function AfterFrame(op: Op, i: nat, res: int): (c: Ctl)
    ensures c.FrameTake? || c.CtlIdle? || c == ClearIrq(StartFailed(res)) || c == Sweep(Stopping(res), false)
  {
    if res >= 0 && i + 1 < op.Frames() then FrameTake(op, i + 1)
    else match op
      case OpWakeup => if res < 0 then ClearIrq(StartFailed(res)) else CtlIdle(0)
      case OpStandby => Sweep(Stopping(res), false)
      case _ => CtlIdle(res)
  }

  function AfterSweep(k: Purpose): (c: Ctl)
    ensures c.SetRun? || c.CtlIdle?
  {
    match k
    case Starting => SetRun
    case StartFailed(err) => CtlIdle(err)
    case Stopping(ret) => CtlIdle(if ret < 0 then ret else 0)
  }

  function ClearForSize(s: State, i: BufId, n: int): State {
    var held := exists r :: 0 <= r < |s.readers| && s.readers[r].Holding? && s.readers[r].b == i;
    SetBuf(s, i, s.bufs[i].(chunkSz := n, idx := 0))
      .(h := s.h.(clashes := if held then s.h.clashes + 1 else s.h.clashes))
  }

  predicate Switching(ctl: Ctl) {
    || ctl.Gate? || ctl.SizeGate? || ctl.RunCheck? || ctl.SetRun? || ctl.SetIrq? || ctl.IrqRefused?
    || ctl.ClearIrq? || ctl.SetStop?
  }

  predicate Sweeping(ctl: Ctl) {
    ctl.Sweep? || ctl.SweepClear? || ctl.SweepReturn? || ctl.SweepWake?
  }

  predicate Commanding(ctl: Ctl) {
    ctl.FrameTake? || ctl.FrameSend? || ctl.FrameDone?
  }

  predicate Sizing(ctl: Ctl) {
    ctl.Resize? || ctl.Publish?
  }

  function CtlStep(s: State, io: Io): (t: State)
    requires !s.ctl.CtlIdle?
    ensures t == s.(run := t.run, registered := t.registered, chunkSz := t.chunkSz, free := t.free,
                    active := t.active, ready := t.ready, pool := t.pool, bufs := t.bufs, readers := t.readers,
                    ctl := t.ctl, h := t.h)
  {
    if Switching(s.ctl) then SwitchStep(s, io)
    else if Sweeping(s.ctl) then SweepStep(s)
    else if Commanding(s.ctl) then CommandStep(s, io)
    else SizeStep(s)
  }

  /** `ads131m08_run_cmd` and the gates in front of it. */
  function SwitchStep(s: State, io: Io): (t: State)
    requires Switching(s.ctl)
    ensures t == s.(run := t.run, registered := t.registered, ctl := t.ctl,
                    h := s.h.(frameMark := t.h.frameMark, takenMark := t.h.takenMark))
  {
    match s.ctl
    case Gate(cmd) => s.(ctl := GateTo(s, cmd, io))
    case SizeGate(arg) => s.(ctl := SizeGateTo(s, arg))
    case RunCheck(on) =>
      s.(ctl := if s.run == on then CtlIdle(0) else if on then Sweep(Starting, false) else SetStop(Stopping(0)))
    case SetRun => s.(run := true, ctl := SetIrq, h := s.h.(frameMark := |s.h.frames|, takenMark := |s.h.taken|))
    case SetIrq =>
      if s.registered then s.(ctl := FrameTake(OpWakeup, 0))
      else if io.Fail? then s.(ctl := IrqRefused(io.err))
      else s.(registered := true, ctl := FrameTake(OpWakeup, 0))
    case IrqRefused(err) => s.(run := false, ctl := CtlIdle(err))
    case ClearIrq(k) =>
      s.(registered := false, ctl := if k.StartFailed? then SetStop(k) else FrameTake(OpStandby, 0))
    case SetStop(k) => s.(run := false, ctl := if k.StartFailed? then Sweep(k, false) else ClearIrq(k))
  }

  /** `ads131m08_data_cleanup`: drain the ready list, then the active list, then wake everyone. */
  function SweepStep(s: State): (t: State)
    requires Sweeping(s.ctl)
    ensures t == s.(free := t.free, active := t.active, ready := t.ready, bufs := t.bufs,
                    readers := t.readers, ctl := t.ctl, h := s.h.(taken := t.h.taken, discarded := t.h.discarded))
  {
    match s.ctl
    case Sweep(k, active) =>
      var list := if active then s.active else s.ready;
      if list == [] then s.(ctl := if active then SweepWake(k) else Sweep(k, true))
      else
        var b := list[0];
        var h := TakenBy(s, b, false).(discarded := s.h.discarded + |s.bufs[b].Filled()|);
        var t := s.(ctl := SweepClear(k, active, b), h := h);
        if active then t.(active := list[1..]) else t.(ready := list[1..])
    case SweepClear(k, active, b) => SetBuf(s, b, s.bufs[b].Cleared()).(ctl := SweepReturn(k, active, b))
    case SweepReturn(k, active, b) => s.(free := s.free + [b], ctl := Sweep(k, active))
    case SweepWake(k) => s.(readers := WakeAll(s.readers), ctl := AfterSweep(k))
  }

  /** `adc_trx`, for each frame of a command. */
  function CommandStep(s: State, io: Io): (t: State)
    requires Commanding(s.ctl)
    ensures t == s.(pool := t.pool, ctl := t.ctl, h := s.h.(bus := t.h.bus))
  {
    match s.ctl
    case FrameTake(op, i) =>
      if s.pool == [] then s.(ctl := AfterFrame(op, i, ENOMEM))
      else s.(pool := s.pool[1..], ctl := FrameSend(op, i, s.pool[0]))
    case FrameSend(op, i, x) =>
      s.(ctl := FrameDone(op, i, x, if io.Fail? then io.err else 0),
         h := s.h.(bus := s.h.bus + [CtlFrame(op, i, io.Ok?)]))
    case FrameDone(op, i, x, res) => s.(pool := s.pool + [x], ctl := AfterFrame(op, i, res))
  }

  /** `ads131m08_data_resize_chunk_buf`. */
  function SizeStep(s: State): (t: State)
    requires Sizing(s.ctl)
    ensures t == s.(bufs := t.bufs, chunkSz := t.chunkSz, ctl := t.ctl, h := s.h.(clashes := t.h.clashes))
  {
    match s.ctl
    case Resize(n, i) =>
      if i < CHUNK_BUF_CNT then ClearForSize(s, i, n).(ctl := Resize(n, i + 1)) else s.(ctl := Publish(n))
    case Publish(n) => s.(chunkSz := n, ctl := CtlIdle(n))
  }

  // ----- runs -----

  /** After `ads131m08_probe`: all buffers free, the device closed and stopped, room for `n` callers of `read`. */
  function Init(n: nat): State {
    State(false, false, DEFAULT_CHUNK_SZ, 0, 0,
          seq(CHUNK_BUF_CNT, i requires 0 <= i < CHUNK_BUF_CNT => i), [], [],
          seq(XFER_BUF_NUM, i requires 0 <= i < XFER_BUF_NUM => i),
          seq(CHUNK_BUF_CNT, _ => Buf(StatFree, 0, DEFAULT_CHUNK_SZ, None, seq(MAX_CHUNK_SZ, _ => Sample(0, [])))),
          false, false, IrqIdle, seq(n, _ => Outside), CtlIdle(0),
          Hist(0, [], [], 0, 0, [], [], [], 0, 0, 0, 0, 0, 0, 0, 0, []))
  }

  /** The state after the labels `ls`, or None when one of them was not enabled. */
  function Exec(s: State, ls: seq<Label>): Option<State> {
    if ls == [] then Some(s)
    else
      var t := Exec(s, ls[..|ls| - 1]);
      if t.Some? && Enabled(t.value, ls[|ls| - 1]) then Some(Step(t.value, ls[|ls| - 1])) else None
  }
}

/**
  Concrete runs, with one caller of `read` and one control call at a time, in which the
  driver falls short: a reader that nobody wakes, and a reader whose samples are gone.
*/
module Witnesses {
  import opened Wrappers
  import opened Codec
  import opened Pipeline
  import opened Theorems
  import opened Wakeups

  ghost predicate Reaches(ls: seq<Label>, t: State) {
    Serialised(ls) && Exec(Init(1), ls) == Some(t)
  }

  /** Lets one label follow the run `ls`, which led to `t`. */
  lemma Next(ls: seq<Label>, t: State, l: Label) returns (ls': seq<Label>, t': State)
    requires Reaches(ls, t) && Enabled(t, l) && !l.StrayClear? && !l.StrayPublish?
    ensures Reaches(ls', t') && t' == Step(t, l)
  {
    RunStep(1, ls, l);
    ls', t' := ls + [l], Step(t, l);
  }

  // ----- starting and stopping -----

  /** Open and at rest, apart from the control call. */
  predicate Resting(t: State, r: Reader) {
    t.isOpen && !t.closing && t.irq.IrqIdle? && t.readers == [r] && t.ready == [] && t.active == []
  }

  predicate Stopped(t: State, r: Reader) {
    Resting(t, r) && !t.run && !t.registered
  }

  /** What a start or a stop does not touch. */
  predicate SameBufs(t: State, t': State) {
    t'.bufs == t.bufs && t'.free == t.free && t'.chunkSz == t.chunkSz
  }

  /** The next point of a sweep that finds nothing. */
  function SweepTo(c: Ctl): Ctl
    requires c.Sweep? || c.SweepWake?
  {
    match c
    case Sweep(k, active) => if active then SweepWake(k) else Sweep(k, true)
    case SweepWake(k) => AfterSweep(k)
  }

  lemma SweepOn(ls: seq<Label>, t: State, r: Reader) returns (ls': seq<Label>, t': State)
    requires Reaches(ls, t) && Stopped(t, r) && (r.Outside? || r.Holding?) && (t.ctl.Sweep? || t.ctl.SweepWake?)
    ensures Reaches(ls', t') && Stopped(t', r) && SameBufs(t, t') && t'.ctl == SweepTo(t.ctl)
  {
    ls', t' := Next(ls, t, StepCtl(Fail(-1)));
    assert t' == SweepStep(t);
    assert WakeAll([r]) == [r];
  }

  /** The whole of `ads131m08_data_cleanup`, with nothing to clean up. */
  lemma SweepThrough(ls: seq<Label>, t: State, r: Reader, k: Purpose) returns (ls': seq<Label>, t': State)
    requires Reaches(ls, t) && Stopped(t, r) && (r.Outside? || r.Holding?) && t.ctl == Sweep(k, false)
    ensures Reaches(ls', t') && Stopped(t', r) && SameBufs(t, t') && t'.ctl == AfterSweep(k)
  {
    ls', t' := SweepOn(ls, t, r);
    ls', t' := SweepOn(ls', t', r);
    ls', t' := SweepOn(ls', t', r);
  }

  lemma Switch(ls: seq<Label>, t: State, io: Io) returns (ls': seq<Label>, t': State)
    requires Reaches(ls, t) && Switching(t.ctl) && (t.ctl.ClearIrq? ==> t.irq.IrqIdle?)
    ensures Reaches(ls', t') && t' == SwitchStep(t, io)
  {
    ls', t' := Next(ls, t, StepCtl(io));
  }

  /** The one frame of WAKEUP or STANDBY, answered. */
  lemma SendOne(ls: seq<Label>, t: State, op: Op, rx: DataFrame) returns (ls': seq<Label>, t': State)
    requires Reaches(ls, t) && t.ctl == FrameTake(op, 0) && op.Frames() == 1
    ensures Reaches(ls', t') && t' == t.(pool := t'.pool, ctl := AfterFrame(op, 0, 0), h := t'.h)
  {
    TransfersConserved(1, ls, t);
    ls', t' := Next(ls, t, StepCtl(Ok(rx)));
    assert t' == CommandStep(t, Ok(rx));
    ls', t' := SendTaken(ls', t', op, rx);
  }

  lemma SendTaken(ls: seq<Label>, t: State, op: Op, rx: DataFrame) returns (ls': seq<Label>, t': State)
    requires Reaches(ls, t) && t.ctl.FrameSend? && t.ctl.op == op && t.ctl.i == 0 && op.Frames() == 1
    ensures Reaches(ls', t') && t' == t.(pool := t'.pool, ctl := AfterFrame(op, 0, 0), h := t'.h)
  {
    ls', t' := Next(ls, t, StepCtl(Ok(rx)));
    assert t' == CommandStep(t, Ok(rx));
    ls', t' := SendDone(ls', t', op, rx);
  }

  lemma SendDone(ls: seq<Label>, t: State, op: Op, rx: DataFrame) returns (ls': seq<Label>, t': State)
    requires Reaches(ls, t) && t.ctl.FrameDone? && t.ctl.op == op && t.ctl.i == 0 && t.ctl.res == 0 && op.Frames() == 1
    ensures Reaches(ls', t') && t' == t.(pool := t'.pool, ctl := AfterFrame(op, 0, 0), h := t'.h)
  {
    ls', t' := Next(ls, t, StepCtl(Ok(rx)));
    assert t' == CommandStep(t, Ok(rx));
  }

  /** A start that has swept the lists. */
  lemma ReachSetRun(ls: seq<Label>, t: State) returns (ls': seq<Label>, t': State)
    requires Reaches(ls, t) && Stopped(t, Outside) && t.ctl.CtlIdle?
    ensures Reaches(ls', t') && Stopped(t', Outside) && SameBufs(t, t') && t'.ctl.SetRun?
  {
    ls', t' := Next(ls, t, Ioctl(CmdWakeup));
    ls', t' := Switch(ls', t', Fail(-1));
    ls', t' := Switch(ls', t', Fail(-1));
    ls', t' := SweepThrough(ls', t', Outside, Starting);
  }

  /** The device runs. */
  lemma Start(ls: seq<Label>, t: State, rx: DataFrame) returns (ls': seq<Label>, t': State)
    requires Reaches(ls, t) && Stopped(t, Outside) && t.ctl.CtlIdle?
    ensures Reaches(ls', t') && Resting(t', Outside) && SameBufs(t, t') && t'.ctl.CtlIdle? && t'.run && t'.registered
  {
    ls', t' := ReachSetRun(ls, t);
    ls', t' := Switch(ls', t', Fail(-1));
    ls', t' := Switch(ls', t', Ok(rx));
    ls', t' := SendOne(ls', t', OpWakeup, rx);
  }

  /** STANDBY, with a chunk in the reader's hands. */
  lemma Stop(ls: seq<Label>, t: State, r: Reader, rx: DataFrame) returns (ls': seq<Label>, t': State)
    requires Reaches(ls, t) && Resting(t, r) && r.Holding? && t.ctl.CtlIdle? && t.run && t.registered
    ensures Reaches(ls', t') && Stopped(t', r) && SameBufs(t, t') && t'.ctl.CtlIdle?
  {
    ls', t' := Next(ls, t, Ioctl(CmdStandby));
    ls', t' := Switch(ls', t', Fail(-1));
    ls', t' := Switch(ls', t', Fail(-1));
    ls', t' := Switch(ls', t', Fail(-1));
    ls', t' := Switch(ls', t', Fail(-1));
    ls', t' := SendOne(ls', t', OpStandby, rx);
    ls', t' := SweepThrough(ls', t', r, Stopping(0));
  }

  // ----- a chunk size of one sample -----

  lemma ResizeOne(ls: seq<Label>, t: State, r: Reader, i: BufId) returns (ls': seq<Label>, t': State)
    requires Reaches(ls, t) && Stopped(t, r) && t.ctl == Resize(1, i)
    ensures Reaches(ls', t') && Stopped(t', r) && t'.ctl == Resize(1, i + 1) && t'.free == t.free
    ensures t'.bufs == t.bufs[i := t.bufs[i].(chunkSz := 1, idx := 0)]
  {
    ls', t' := Next(ls, t, StepCtl(Fail(-1)));
    assert t' == SizeStep(t);
  }

  lemma PublishOne(ls: seq<Label>, t: State, r: Reader) returns (ls': seq<Label>, t': State)
    requires Reaches(ls, t) && Stopped(t, r) && t.ctl == Resize(1, CHUNK_BUF_CNT)
    ensures Reaches(ls', t') && Stopped(t', r) && t'.ctl == CtlIdle(1) && t'.free == t.free && t'.bufs == t.bufs
  {
    ls', t' := Next(ls, t, StepCtl(Fail(-1)));
    assert t' == SizeStep(t);
    ls', t' := Published(ls', t', r);
  }

  lemma Published(ls: seq<Label>, t: State, r: Reader) returns (ls': seq<Label>, t': State)
    requires Reaches(ls, t) && Stopped(t, r) && t.ctl == Publish(1)
    ensures Reaches(ls', t') && Stopped(t', r) && t'.ctl == CtlIdle(1) && t'.free == t.free && t'.bufs == t.bufs
  {
    ls', t' := Next(ls, t, StepCtl(Fail(-1)));
    assert t' == SizeStep(t);
  }

  lemma {:induction false} ResizeRest(ls: seq<Label>, t: State, r: Reader, i: nat) returns (ls': seq<Label>, t': State)
    requires Reaches(ls, t) && Stopped(t, r) && t.ctl == Resize(1, i) && i <= CHUNK_BUF_CNT
    ensures Reaches(ls', t') && Stopped(t', r) && t'.ctl == CtlIdle(1) && t'.free == t.free
    ensures forall b: BufId :: t'.bufs[b] == if b < i then t.bufs[b] else t.bufs[b].(chunkSz := 1, idx := 0)
    decreases CHUNK_BUF_CNT - i
  {
    if i == CHUNK_BUF_CNT {
      ls', t' := PublishOne(ls, t, r);
    } else {
      ls', t' := ResizeOne(ls, t, r, i);
      ls', t' := ResizeRest(ls', t', r, i + 1);
    }
  }

  lemma AskOne(ls: seq<Label>, t: State, r: Reader) returns (ls': seq<Label>, t': State)
    requires Reaches(ls, t) && Stopped(t, r) && t.ctl.CtlIdle?
    ensures Reaches(ls', t') && Stopped(t', r) && SameBufs(t, t') && t'.ctl == Resize(1, 0)
  {
    ls', t' := Next(ls, t, Ioctl(CmdChunkSz(1)));
    ls', t' := PassGate(ls', t', r);
    ls', t' := PassSize(ls', t', r);
  }

  lemma PassGate(ls: seq<Label>, t: State, r: Reader) returns (ls': seq<Label>, t': State)
    requires Reaches(ls, t) && Stopped(t, r) && t.ctl == Gate(CmdChunkSz(1))
    ensures Reaches(ls', t') && Stopped(t', r) && SameBufs(t, t') && t'.ctl == SizeGate(1)
  {
    ls', t' := Next(ls, t, StepCtl(Fail(-1)));
    assert SwitchStep(t, Fail(-1)) == t.(ctl := SizeGate(1), h := t'.h);
  }

  lemma PassSize(ls: seq<Label>, t: State, r: Reader) returns (ls': seq<Label>, t': State)
    requires Reaches(ls, t) && Stopped(t, r) && t.ctl == SizeGate(1)
    ensures Reaches(ls', t') && Stopped(t', r) && SameBufs(t, t') && t'.ctl == Resize(1, 0)
  {
    assert ToInt32(1) == 1;
    ls', t' := Switch(ls, t, Fail(-1));
  }

  lemma SizeOne(ls: seq<Label>, t: State, r: Reader) returns (ls': seq<Label>, t': State)
    requires Reaches(ls, t) && Stopped(t, r) && t.ctl.CtlIdle?
    ensures Reaches(ls', t') && Stopped(t', r) && t'.ctl.CtlIdle?
    ensures forall b: BufId :: t'.bufs[b] == t.bufs[b].(chunkSz := 1, idx := 0)
    ensures t'.free == t.free
  {
    ls', t' := AskOne(ls, t, r);
    ls', t' := ResizeRest(ls', t', r, 0);
  }

  // ----- one sample, from the edge to the reader -----

  /** The IRQ thread is filling `b`, which has one slot. */
  predicate Serving(t: State, b: BufId) {
    && t.isOpen && !t.closing && t.run && t.registered && t.ctl.CtlIdle?
    && t.readers == [Outside] && t.ready == [] && t.active == []
    && t.bufs[b].chunkSz == 1 && t.bufs[b].idx == 0
  }

  lemma Irq(ls: seq<Label>, t: State, io: Io) returns (ls': seq<Label>, t': State)
    requires Reaches(ls, t) && !t.irq.IrqIdle?
    ensures Reaches(ls', t') && t' == IrqStep(t, io)
  {
    ls', t' := Next(ls, t, StepIrq(io));
  }

  lemma Fetch(ls: seq<Label>, t: State, b: BufId) returns (ls': seq<Label>, t': State)
    requires Reaches(ls, t) && t.irq.IrqIdle? && Serving(t, b) && t.free != [] && t.free[0] == b
    ensures Reaches(ls', t') && t'.irq == MarkActive(b) && Serving(t', b)
  {
    ls', t' := Next(ls, t, Drdy(0));
    ls', t' := Irq(ls', t', Fail(-1));
    ls', t' := Irq(ls', t', Fail(-1));
  }

  lemma StampIt(ls: seq<Label>, t: State, b: BufId) returns (ls': seq<Label>, t': State)
    requires Reaches(ls, t) && t.irq == MarkActive(b) && Serving(t, b)
    ensures Reaches(ls', t') && t'.irq == TakeXfer(b) && Serving(t', b)
  {
    ls', t' := Irq(ls, t, Fail(-1));
    ls', t' := Irq(ls', t', Fail(-1));
    ls', t' := Irq(ls', t', Fail(-1));
  }

  lemma Transfer(ls: seq<Label>, t: State, b: BufId, rx: DataFrame) returns (ls': seq<Label>, t': State)
    requires Reaches(ls, t) && t.irq == TakeXfer(b) && Serving(t, b)
    ensures Reaches(ls', t') && t'.irq.FindSlot? && t'.irq.b == b && Serving(t', b) && t'.bufs[b].xfer.Some?
  {
    TransfersConserved(1, ls, t);
    ls', t' := Irq(ls, t, Ok(rx));
    assert t' == StampStep(t);
    ls', t' := Irq(ls', t', Ok(rx));
  }

  lemma Complete(ls: seq<Label>, t: State, b: BufId) returns (ls': seq<Label>, t': State)
    requires Reaches(ls, t) && t.irq.FindSlot? && t.irq.b == b && Serving(t, b) && t.bufs[b].xfer.Some?
    ensures Reaches(ls', t') && t'.irq == Bump(b) && Serving(t', b)
  {
    ls', t' := Irq(ls, t, Fail(-1));
    assert t'.irq.Decode? && t'.irq.b == b;
    ls', t' := Irq(ls', t', Fail(-1));
  }

  lemma HandOver(ls: seq<Label>, t: State, b: BufId) returns (ls': seq<Label>, t': State)
    requires Reaches(ls, t) && t.irq == Bump(b) && Serving(t, b)
    ensures Reaches(ls', t') && t'.irq.IrqIdle? && t'.isOpen && !t'.closing && t'.run && t'.registered
    ensures t'.ctl.CtlIdle?
    ensures t'.readers == [Outside] && t'.ready == [b] && t'.active == [] && t'.bufs[b].idx == 1
  {
    ls', t' := Irq(ls, t, Fail(-1));
    assert t'.irq == PutReady(b) && t'.bufs[b].idx == 1;
    ls', t' := PutIt(ls', t', b);
  }

  lemma PutIt(ls: seq<Label>, t: State, b: BufId) returns (ls': seq<Label>, t': State)
    requires Reaches(ls, t) && t.irq == PutReady(b) && t.readers == [Outside] && t.ready == []
    ensures Reaches(ls', t') && t' == t.(irq := IrqIdle, ready := [b])
  {
    ls', t' := Irq(ls, t, Fail(-1));
    var s := t';
    assert s == HandStep(t);
    ls', t' := Irq(ls', s, Fail(-1));
    assert t' == HandStep(s);
    assert WakeAll([Outside]) == [Outside];
  }

  lemma OneSample(ls: seq<Label>, t: State, b: BufId, rx: DataFrame) returns (ls': seq<Label>, t': State)
    requires Reaches(ls, t) && t.irq.IrqIdle? && Serving(t, b) && t.free != [] && t.free[0] == b
    ensures Reaches(ls', t') && t'.irq.IrqIdle? && t'.isOpen && !t'.closing && t'.run && t'.registered
    ensures t'.ctl.CtlIdle?
    ensures t'.readers == [Outside] && t'.ready == [b] && t'.active == [] && t'.bufs[b].idx == 1
  {
    ls', t' := Fetch(ls, t, b);
    ls', t' := StampIt(ls', t', b);
    ls', t' := Transfer(ls', t', b, rx);
    ls', t' := Complete(ls', t', b);
    ls', t' := HandOver(ls', t', b);
  }

  /** A caller with room for one sample takes it. */
  lemma TakeIt(ls: seq<Label>, t: State, b: BufId) returns (ls': seq<Label>, t': State)
    requires Reaches(ls, t) && t.isOpen && !t.closing && t.readers == [Outside] && t.ready == [b] && t.bufs[b].idx == 1
    ensures Reaches(ls', t') && t' == t.(ready := [], readers := t'.readers, h := t'.h)
    ensures t'.readers == [Holding(1, b, t.bufs[b].Filled())]
  {
    ls', t' := Next(ls, t, Call(0, SMPL_DATA_SZ));
    assert t' == t.(readers := [Prepare(1)]);
    ls', t' := SeeIt(ls', t');
    ls', t' := GrabIt(ls', t', b);
  }

  lemma SeeIt(ls: seq<Label>, t: State) returns (ls': seq<Label>, t': State)
    requires Reaches(ls, t) && t.readers == [Prepare(1)] && t.ready != []
    ensures Reaches(ls', t') && t' == t.(readers := [Grab(1)])
  {
    ls', t' := Next(ls, t, StepRead(0, true));
    var s := t';
    assert s == t.(readers := [CheckReady(1, false)]);
    ls', t' := Next(ls', s, StepRead(0, true));
  }

  lemma GrabIt(ls: seq<Label>, t: State, b: BufId) returns (ls': seq<Label>, t': State)
    requires Reaches(ls, t) && t.readers == [Grab(1)] && t.ready == [b]
    ensures Reaches(ls', t') && t' == t.(ready := [], readers := [Holding(1, b, t.bufs[b].Filled())], h := t'.h)
  {
    ls', t' := Next(ls, t, StepRead(0, true));
    assert t' == GrabStep(t, 0);
  }

  // ----- the two runs -----

  lemma Opened() returns (ls: seq<Label>, t: State)
    ensures Reaches(ls, t) && Stopped(t, Outside) && t.ctl.CtlIdle?
    ensures t.free != [] && t == Init(1).(isOpen := true)
  {
    assert Reaches([], Init(1));
    ls, t := Next([], Init(1), Open);
  }

  /** `run_stat` says RUN, the interrupt is not yet requested, and a reader has gone to sleep. */
  lemma ReachSleeper() returns (ls: seq<Label>, t: State)
    ensures Reaches(ls, t) && t.ctl.SetIrq? && !t.registered && t.readers == [Asleep(1, false)]
  {
    ls, t := Opened();
    ls, t := ReachSetRun(ls, t);
    ls, t := Switch(ls, t, Fail(-1));
    ls, t := Next(ls, t, Call(0, SMPL_DATA_SZ));
    ls, t := Next(ls, t, StepRead(0, true));
    ls, t := Next(ls, t, StepRead(0, true));
    ls, t := Next(ls, t, StepRead(0, true));
  }

  /**
    One reader, one WAKEUP, and an interrupt request that is refused: the reader sleeps on, and
    nobody will wake it.
  */
  lemma RefusalStrandsReader() returns (ls: seq<Label>)
    ensures Serialised(ls) && Exec(Init(1), ls).Some?
    ensures Forgotten(Exec(Init(1), ls).value)
  {
    var t;
    ls, t := ReachSleeper();
    ls, t := Switch(ls, t, Fail(-1));
    ls := Strand(ls, t);
  }

  lemma Strand(ls: seq<Label>, t: State) returns (ls': seq<Label>)
    requires Reaches(ls, t) && t.ctl.IrqRefused? && t.readers == [Asleep(1, false)]
    ensures Serialised(ls') && Exec(Init(1), ls').Some? && Forgotten(Exec(Init(1), ls').value)
  {
    var refuse, t' := StepCtl(Fail(-1)), t;
    RunInv(1, ls);
    assert Sleeping(t.readers[0]);
    StrandForgets(t, refuse);
    ls', t' := Next(ls, t, refuse);
  }

  /** A stopped device, and a reader that still has the one sample of the session in hand. */
  lemma ReachHolder(rx: DataFrame) returns (ls: seq<Label>, t: State, r: Reader)
    ensures Reaches(ls, t) && Stopped(t, r) && t.ctl.CtlIdle? && r.Holding? && r.max == 1 && |r.chunk| == 1
  {
    ls, t := Opened();
    ls, t := SizeOne(ls, t, Outside);
    var b := t.free[0];
    ls, t := Start(ls, t, rx);
    ls, t := OneSample(ls, t, b, rx);
    ls, t := TakeIt(ls, t, b);
    r := t.readers[0];
    ls, t := Stop(ls, t, r, rx);
  }

  /**
    CHUNK_SZ 1, WAKEUP, one sample, a reader that has fetched it, STANDBY, CHUNK_SZ 1: the
    reader is handed nothing, although it had room, and its sample is gone.
  */
  lemma ResizeHidesSample(rx: DataFrame) returns (ls: seq<Label>, t: State, d: Delivery)
    ensures Serialised(ls) && Exec(Init(1), ls) == Some(t) && d in t.h.deliveries
    ensures d.max == 1 && |d.chunk| == 1 && d.samples == []
    ensures t.h.clashes > 0
  {
    var r;
    ls, t, r := ReachHolder(rx);
    ls, t := SizeOne(ls, t, r);
    ls, t := Next(ls, t, StepRead(0, true));
    assert t.readers[0] == Copying(1, r.b, r.chunk, 0);
    d := Delivery(0, 1, r.chunk, []);
    var s := t;
    ls, t := Next(ls, t, StepRead(0, true));
    assert t == DeliverStep(s, 0, true);
    DeliveriesGenuine(1, ls, t, d);
  }
}

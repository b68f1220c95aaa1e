/**
  Bus adjacency: a register read is a command frame answered in the next frame, so no
  transfer of the IRQ thread may come in between.  The same goes for a register write and
  its status read, and for the three frames of a reset.
*/
module BusLog {
  import opened Codec
  import opened Pipeline
  import opened Conservation
  import opened StartStop

  /** The command words of the control frames on the bus, in order. */
  function CtlWords(bus: seq<BusEvent>): seq<Word> {
    if bus == [] then []
    else
      var e := bus[|bus| - 1];
      CtlWords(bus[..|bus| - 1]) + if e.CtlFrame? then [e.op.Word(e.i)] else []
  }

  lemma CtlWordsSnoc(bus: seq<BusEvent>, e: BusEvent)
    ensures CtlWords(bus + [e]) == CtlWords(bus) + if e.CtlFrame? then [e.op.Word(e.i)] else []
  {
    assert (bus + [e])[..|bus|] == bus;
  }

  /** The IRQ thread sends no commands. */
  lemma IrqWords(s: State, io: Io)
    requires !s.irq.IrqIdle?
    ensures CtlWords(IrqStep(s, io).h.bus) == CtlWords(s.h.bus)
  {
    CtlWordsSnoc(s.h.bus, IrqFrame);
    assert CtlWords(s.h.bus) + [] == CtlWords(s.h.bus);
    if s.irq.Discard? || s.irq.ReadFrame? {
      IrqSends(s, io);
    } else {
      IrqSilent(s, io);
    }
  }

  lemma IrqSends(s: State, io: Io)
    requires s.irq.Discard? || s.irq.ReadFrame?
    ensures IrqStep(s, io).h.bus == s.h.bus + [IrqFrame]
  {
  }

  /** A command frame that went through and has a successor in its command. */
  predicate Unfinished(e: BusEvent) {
    e.CtlFrame? && e.ok && e.i + 1 < e.op.Frames()
  }

  predicate Follows(e: BusEvent, next: BusEvent) {
    && (Unfinished(e) ==> next.CtlFrame? && next.op == e.op && next.i == e.i + 1)
    && (next.CtlFrame? && next.i > 0 ==> e == CtlFrame(next.op, next.i - 1, true))
  }

  /** Every frame but the last of a command is followed at once by the next frame of that command, and conversely. */
  ghost predicate Adjacent(bus: seq<BusEvent>) {
    && (forall i :: 0 <= i < |bus| - 1 ==> Follows(bus[i], bus[i + 1]))
    && (|bus| > 0 && bus[0].CtlFrame? ==> bus[0].i == 0)
  }

  predicate LastIs(bus: seq<BusEvent>, e: BusEvent) {
    |bus| > 0 && bus[|bus| - 1] == e
  }

  predicate LastUnfinished(bus: seq<BusEvent>) {
    |bus| > 0 && Unfinished(bus[|bus| - 1])
  }

  ghost predicate BusOk(s: State) {
    && Adjacent(s.h.bus)
    && match s.ctl
       case FrameTake(op, i) => AtFrame(s.h.bus, op, i)
       case FrameSend(op, i, _) => AtFrame(s.h.bus, op, i)
       case FrameDone(op, i, _, res) =>
         if res >= 0 && i + 1 < op.Frames() then LastIs(s.h.bus, CtlFrame(op, i, true)) else !LastUnfinished(s.h.bus)
       case _ => !LastUnfinished(s.h.bus)
  }

  predicate AtFrame(bus: seq<BusEvent>, op: Op, i: nat) {
    if i > 0 then LastIs(bus, CtlFrame(op, i - 1, true)) else !LastUnfinished(bus)
  }

  lemma Logged(bus: seq<BusEvent>, e: BusEvent)
    requires Adjacent(bus)
    requires |bus| > 0 ==> Follows(bus[|bus| - 1], e)
    requires bus == [] && e.CtlFrame? ==> e.i == 0
    ensures Adjacent(bus + [e])
  {
  }

  /** The IRQ thread sends nothing while a command has frames left: it is not even registered then. */
  lemma IrqBus(s: State, io: Io)
    requires Protocol(s) && BusOk(s) && !s.irq.IrqIdle?
    ensures BusOk(IrqStep(s, io))
  {
    if s.irq.Discard? || s.irq.ReadFrame? {
      assert s.registered;
      assert !LastUnfinished(s.h.bus);
      Logged(s.h.bus, IrqFrame);
      assert !LastUnfinished(s.h.bus + [IrqFrame]);
    } else {
      IrqSilent(s, io);
    }
  }

  lemma IrqSilent(s: State, io: Io)
    requires !s.irq.IrqIdle? && !s.irq.Discard? && !s.irq.ReadFrame?
    ensures IrqStep(s, io).h.bus == s.h.bus
  {
    if Fetching(s.irq) {
    } else if Stamping(s.irq) {
    } else if Filling(s.irq) {
      assert FillStep(s, io).h.bus == s.h.bus;
    } else {
    }
  }

  lemma CommandBus(s: State, io: Io)
    requires Protocol(s) && PoolConserved(s) && BusOk(s) && Commanding(s.ctl)
    ensures BusOk(CommandStep(s, io))
  {
    match s.ctl
    case FrameTake(op, i) =>
      PoolSuffices(s);
    case FrameSend(op, i, x) =>
      var e := CtlFrame(op, i, io.Ok?);
      Logged(s.h.bus, e);
      assert LastIs(s.h.bus + [e], e);
    case FrameDone(op, i, x, res) =>
  }

  lemma StepBus(s: State, l: Label)
    requires Enabled(s, l) && Protocol(s) && PoolConserved(s) && BusOk(s)
    ensures BusOk(Step(s, l))
  {
    match l
    case StepIrq(io) => IrqBus(s, io);
    case StepCtl(io) =>
      if Commanding(s.ctl) {
        CommandBus(s, io);
      } else {
        OtherCtlBus(s, io);
      }
    case StepRead(r, copied) => ReadBus(s, r, copied);
    case _ => EntryBus(s, l);
  }

  lemma EntryBus(s: State, l: Label)
    requires Enabled(s, l) && BusOk(s) && !l.StepIrq? && !l.StepCtl? && !l.StepRead?
    ensures BusOk(Step(s, l))
  {
    var t := Step(s, l);
    assert t.h.bus == s.h.bus;
    assert t.ctl == s.ctl || (s.ctl.CtlIdle? && (t.ctl.RunCheck? || t.ctl.Gate?));
  }

  lemma ReadBus(s: State, r: nat, copied: bool)
    requires BusOk(s) && r < |s.readers| && !s.readers[r].Outside?
    ensures BusOk(ReadStep(s, r, copied))
  {
    var t := ReadStep(s, r, copied);
    assert t.h.bus == s.h.bus && t.ctl == s.ctl;
  }

  lemma OtherCtlBus(s: State, io: Io)
    requires BusOk(s) && !s.ctl.CtlIdle? && !Commanding(s.ctl)
    ensures BusOk(CtlStep(s, io))
  {
    QuietCtl(s, io);
    var t := CtlStep(s, io);
    assert t.h.bus == s.h.bus;
  }

  lemma QuietCtl(s: State, io: Io)
    requires !s.ctl.CtlIdle? && !Commanding(s.ctl)
    ensures var c := CtlStep(s, io).ctl; !Commanding(c) || (c.FrameTake? && c.i == 0)
    ensures CtlStep(s, io).h.bus == s.h.bus
  {
    if Switching(s.ctl) {
      QuietSwitch(s, io);
    } else if Sweeping(s.ctl) {
      QuietSweep(s);
    } else {
      assert !Commanding(SizeStep(s).ctl);
    }
  }

  lemma QuietSwitch(s: State, io: Io)
    requires Switching(s.ctl)
    ensures var c := SwitchStep(s, io).ctl; !Commanding(c) || (c.FrameTake? && c.i == 0)
  {
  }

  lemma QuietSweep(s: State)
    requires Sweeping(s.ctl)
    ensures !Commanding(SweepStep(s).ctl)
  {
  }
}

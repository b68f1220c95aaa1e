/**
  The start/stop protocol of `ads131m08_run_cmd` and the gate in front of `ioctl`:
  `run_stat`, the interrupt registration and the lists at every point of a control call.
*/
module StartStop {
  import opened Pipeline

  predicate Drained(s: State) {
    s.ready == [] && s.active == []
  }

  /** What holds whenever no start or stop is under way. */
  predicate Settled(s: State) {
    (s.run <==> s.registered) && (!s.run ==> Drained(s))
  }

  predicate Halted(s: State) {
    !s.run && !s.registered && Drained(s)
  }

  predicate CommandPhase(s: State, op: Op, i: nat) {
    && i < op.Frames()
    && match op
       case OpWakeup => s.run && s.registered
       case OpStandby => !s.run && !s.registered
       case _ => Halted(s)
  }

  /** `run_stat`, the interrupt registration and the lists, at every point of a control call. */
  predicate Phase(s: State) {
    match s.ctl
    case CtlIdle(_) => Settled(s)
    case Gate(_) => Settled(s)
    case RunCheck(_) => Settled(s)
    case SizeGate(_) => Halted(s)
    case Resize(_, _) => Halted(s)
    case Publish(_) => Halted(s)
    case SetRun => Halted(s)
    case SetIrq => s.run && !s.registered && Drained(s)
    case IrqRefused(err) => s.run && !s.registered && Drained(s) && err < 0
    case FrameTake(op, i) => CommandPhase(s, op, i)
    case FrameSend(op, i, _) => CommandPhase(s, op, i)
    case FrameDone(op, i, _, _) => CommandPhase(s, op, i)
    case ClearIrq(k) => s.registered && !k.Starting? && s.run == k.StartFailed?
    case SetStop(k) => s.run && !k.Starting? && s.registered == k.Stopping?
    case Sweep(k, active) =>
      !s.run && !s.registered && (active || k.Starting? ==> s.ready == []) && (k.Starting? ==> s.active == [])
    case SweepClear(k, active, _) => !s.run && !s.registered && !k.Starting? && (active ==> s.ready == [])
    case SweepReturn(k, active, _) => !s.run && !s.registered && !k.Starting? && (active ==> s.ready == [])
    case SweepWake(_) => Halted(s)
  }

  predicate Protocol(s: State) {
    && (!s.registered ==> s.irq.IrqIdle?)
    && Phase(s)
    && (!s.isOpen ==> !s.closing && s.ctl.CtlIdle? && !s.run && AllOutside(s.readers))
    && (s.closing ==> AllOutside(s.readers))
    && (s.closing ==> ClosingPc(s))
  }

  /** A release runs `ads131m08_run_cmd(ADC_STOP)` and nothing else. */
  predicate ClosingPc(s: State) {
    match s.ctl
    case CtlIdle(_) => !s.run
    case RunCheck(on) => !on
    case SetStop(k) => k.Stopping?
    case ClearIrq(k) => k.Stopping?
    case FrameTake(op, _) => op.OpStandby?
    case FrameSend(op, _, _) => op.OpStandby?
    case FrameDone(op, _, _, _) => op.OpStandby?
    case Sweep(k, _) => k.Stopping?
    case SweepClear(k, _, _) => k.Stopping?
    case SweepReturn(k, _, _) => k.Stopping?
    case SweepWake(k) => k.Stopping?
    case _ => false
  }

  lemma IrqProtocol(s: State, io: Io)
    requires Protocol(s) && !s.irq.IrqIdle?
    ensures Protocol(IrqStep(s, io))
  {
    var t := IrqStep(s, io);
    if Fetching(s.irq) {
      assert FetchStep(s).active == [] || s.active != [];
    }
    assert s.registered;
    if s.irq.WakeReaders? {
      assert forall r :: 0 <= r < |s.readers| && s.readers[r].Outside? ==> t.readers[r].Outside?;
    }
  }

  lemma SwitchProtocol(s: State, io: Io)
    requires Protocol(s) && Switching(s.ctl)
    requires s.ctl.ClearIrq? && s.registered ==> s.irq.IrqIdle?
    ensures Protocol(SwitchStep(s, io))
  {
  }

  lemma SweepProtocol(s: State)
    requires Protocol(s) && Sweeping(s.ctl)
    ensures Protocol(SweepStep(s))
  {
  }

  lemma CommandProtocol(s: State, io: Io)
    requires Protocol(s) && Commanding(s.ctl)
    ensures Protocol(CommandStep(s, io))
  {
  }

  lemma SizeProtocol(s: State)
    requires Protocol(s) && Sizing(s.ctl)
    ensures Protocol(SizeStep(s))
  {
  }

  lemma ReadProtocol(s: State, r: nat, copied: bool)
    requires Protocol(s) && r < |s.readers| && !s.readers[r].Outside?
    ensures Protocol(ReadStep(s, r, copied))
  {
    var t := ReadStep(s, r, copied);
    assert s.ready == [] ==> t.ready == [];
  }

  lemma StepProtocol(s: State, l: Label)
    requires Enabled(s, l) && Protocol(s) && !l.StrayClear? && !l.StrayPublish?
    ensures Protocol(Step(s, l))
  {
    match l
    case StepIrq(io) => IrqProtocol(s, io);
    case StepRead(r, copied) => ReadProtocol(s, r, copied);
    case StepCtl(io) =>
      if Switching(s.ctl) {
        SwitchProtocol(s, io);
      } else if Sweeping(s.ctl) {
        SweepProtocol(s);
      } else if Commanding(s.ctl) {
        CommandProtocol(s, io);
      } else {
        SizeProtocol(s);
      }
    case _ =>
  }
}

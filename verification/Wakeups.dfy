/**
  Wake-ups.  A caller of `read` that sleeps although its condition holds must have a
  wake-up on its way.  The wait queue is modelled at the grain of the kernel macro: a
  caller joins the queue first, then tests the ready list and `run_stat` in two separate
  steps, and only then sleeps, unless it was woken in the meantime.
*/
module Wakeups {
  import opened Pipeline
  import opened StartStop

  predicate Sleeping(r: Reader) {
    r.Asleep? && !r.woken
  }

  /** Has tested the ready list without success, and will sleep if `run_stat` says RUN. */
  predicate AboutToSleep(r: Reader) {
    r.CheckStop? && !r.woken
  }

  /** The control call will reach the wake-up at the end of `ads131m08_data_cleanup`. */
  predicate CtlWillWake(ctl: Ctl) {
    match ctl
    case ClearIrq(k) => k.Stopping?
    case FrameTake(op, _) => op.OpStandby?
    case FrameSend(op, _, _) => op.OpStandby?
    case FrameDone(op, _, _, _) => op.OpStandby?
    case Sweep(_, _) => true
    case SweepClear(_, _, _) => true
    case SweepReturn(_, _, _) => true
    case SweepWake(_) => true
    case _ => false
  }

  predicate WakePending(s: State) {
    s.irq.WakeReaders? || CtlWillWake(s.ctl)
  }

  predicate Ready(s: State) {
    s.ready != []
  }

  /** No sleeper is forgotten: neither one with data waiting nor one waiting on a stopped device. */
  ghost predicate NoneLost(s: State) {
    && (forall r :: 0 <= r < |s.readers| && Sleeping(s.readers[r]) && (Ready(s) || !s.run) ==> WakePending(s))
    && (forall r :: 0 <= r < |s.readers| && Sleeping(s.readers[r]) && !s.run ==> CtlWillWake(s.ctl))
    && (forall r :: 0 <= r < |s.readers| && AboutToSleep(s.readers[r]) && Ready(s) ==> WakePending(s))
  }

  /** The one step that strands a sleeper: a refused interrupt request is undone without a wake-up. */
  ghost predicate Strands(s: State, l: Label) {
    l.StepCtl? && s.ctl.IrqRefused? && exists r :: 0 <= r < |s.readers| && Sleeping(s.readers[r])
  }

  /** On the wait queue, whether asleep yet or not. */
  predicate Queued(r: Reader) {
    r.CheckReady? || r.CheckStop? || r.Asleep?
  }

  /** A wake-up reaches everyone on the wait queue and changes nobody else. */
  lemma AllWoken(s: State, t: State)
    requires t.readers == WakeAll(s.readers)
    ensures NoneLost(t)
    ensures forall r :: 0 <= r < |s.readers| ==>
      t.readers[r] == if Queued(s.readers[r]) then s.readers[r].(woken := true) else s.readers[r]
  {
    assert forall r :: 0 <= r < |t.readers| ==> !Sleeping(t.readers[r]) && !AboutToSleep(t.readers[r]);
  }

  lemma IrqWakes(s: State, io: Io)
    requires StartStop.Protocol(s) && NoneLost(s) && !s.irq.IrqIdle?
    ensures NoneLost(IrqStep(s, io))
  {
    var t := IrqStep(s, io);
    if s.irq.WakeReaders? {
      AllWoken(s, t);
    } else if s.irq.PutReady? {
      assert WakePending(t);
    } else {
      assert t.readers == s.readers && t.ready == s.ready;
    }
  }

  /** One reader moves on; the others see neither more data nor a stop. */
  lemma OneReaderMoves(s: State, t: State, r: nat)
    requires NoneLost(s) && r < |s.readers| && |t.readers| == |s.readers|
    requires t.readers == s.readers[r := t.readers[r]]
    requires t.run == s.run && t.irq == s.irq && t.ctl == s.ctl && (Ready(t) ==> Ready(s))
    requires AboutToSleep(t.readers[r]) ==> !Ready(t)
    requires Sleeping(t.readers[r]) ==> AboutToSleep(s.readers[r]) && s.run
    ensures NoneLost(t)
  {
  }

  lemma ReadWakes(s: State, r: nat, copied: bool)
    requires NoneLost(s) && r < |s.readers| && !s.readers[r].Outside?
    requires s.readers[r].Asleep? ==> s.readers[r].woken
    ensures NoneLost(ReadStep(s, r, copied))
  {
    if Waiting(s.readers[r]) {
      OneReaderMoves(s, ReadStep(s, r, copied), r);
    } else {
      BusyWakes(s, r, copied);
    }
  }

  lemma BusyWakes(s: State, r: nat, copied: bool)
    requires NoneLost(s) && r < |s.readers| && !s.readers[r].Outside? && !Waiting(s.readers[r])
    ensures NoneLost(ReadStep(s, r, copied))
  {
    if s.readers[r].Grab? {
      OneReaderMoves(s, GrabStep(s, r), r);
    } else {
      OneReaderMoves(s, DeliverStep(s, r, copied), r);
    }
  }

  /** Exactly the stranding step loses a wake-up. */
  lemma SwitchWakes(s: State, io: Io)
    requires StartStop.Protocol(s) && NoneLost(s) && Switching(s.ctl)
    ensures NoneLost(SwitchStep(s, io)) <==> !Strands(s, StepCtl(io))
  {
    var t := SwitchStep(s, io);
    assert t.readers == s.readers && t.ready == s.ready;
    if Strands(s, StepCtl(io)) {
      var r :| 0 <= r < |s.readers| && Sleeping(s.readers[r]);
      assert Sleeping(t.readers[r]) && !t.run && !CtlWillWake(t.ctl);
    }
  }

  lemma CtlWakes(s: State, io: Io)
    requires StartStop.Protocol(s) && NoneLost(s) && !s.ctl.CtlIdle? && !Switching(s.ctl)
    ensures NoneLost(CtlStep(s, io))
  {
    var t := CtlStep(s, io);
    if s.ctl.SweepWake? {
      AllWoken(s, t);
    } else {
      assert t.readers == s.readers;
      assert Ready(t) ==> Ready(s);
    }
  }

  lemma StepWakes(s: State, l: Label)
    requires Enabled(s, l) && StartStop.Protocol(s) && NoneLost(s) && !l.StrayClear? && !l.StrayPublish?
    ensures NoneLost(Step(s, l)) <==> !Strands(s, l)
  {
    match l
    case StepIrq(io) => IrqWakes(s, io);
    case StepRead(r, copied) => ReadWakes(s, r, copied);
    case StepCtl(io) =>
      if Switching(s.ctl) {
        SwitchWakes(s, io);
      } else {
        CtlWakes(s, io);
      }
    case _ =>
  }
}

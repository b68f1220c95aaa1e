/**
  Progress.  Waiting for the IRQ thread ends, and so does a `read` on a stopped device: each
  has a bound on its own steps that nothing the other threads do can raise.
*/
module Progress {
  import opened Wrappers
  import opened Pipeline
  import opened Wakeups
  import opened Theorems

  // ----- what other threads leave alone -----

  lemma IrqLeaves(s: State, io: Io)
    requires !s.irq.IrqIdle?
    ensures var t := IrqStep(s, io);
      |t.readers| == |s.readers| && t.h.deliveries == s.h.deliveries &&
      forall r :: 0 <= r < |s.readers| ==> t.readers[r] == s.readers[r] || t.readers[r] == Wake(s.readers[r])
  {
    if s.irq.WakeReaders? {
      assert IrqStep(s, io).readers == WakeAll(s.readers);
    } else {
      assert IrqStep(s, io).readers == s.readers;
    }
  }

  lemma CtlLeaves(s: State, io: Io)
    requires !s.ctl.CtlIdle?
    ensures var t := CtlStep(s, io);
      && t.h.frames == s.h.frames && t.h.failed == s.h.failed && t.h.deliveries == s.h.deliveries
      && |t.readers| == |s.readers|
      && forall r :: 0 <= r < |s.readers| ==> t.readers[r] == s.readers[r] || t.readers[r] == Wake(s.readers[r])
  {
    if Sweeping(s.ctl) {
      SweepLeaves(s);
    }
  }

  lemma SweepLeaves(s: State)
    requires Sweeping(s.ctl)
    ensures var t := SweepStep(s); t.readers == s.readers || t.readers == WakeAll(s.readers)
  {
  }

  /** Only the interrupt itself moves its program counter. */
  lemma OthersLeaveIrq(s: State, l: Label)
    requires Enabled(s, l) && !l.StepIrq? && !l.Drdy?
    ensures Step(s, l).irq == s.irq
  {
    match l
    case StepRead(r, copied) =>
      assert ReadStep(s, r, copied).irq == s.irq;
    case StepCtl(io) =>
      assert CtlStep(s, io).irq == s.irq;
    case _ =>
  }

  /** The other threads can only wake a caller of `read`. */
  lemma OthersLeaveReader(s: State, l: Label, r: nat)
    requires Enabled(s, l) && r < |s.readers| && !OfReader(l, r)
    ensures |Step(s, l).readers| == |s.readers|
    ensures Step(s, l).readers[r] == s.readers[r] || Step(s, l).readers[r] == Wake(s.readers[r])
  {
    match l
    case StepIrq(io) => IrqLeaves(s, io);
    case StepCtl(io) => CtlLeaves(s, io);
    case StepRead(q, copied) =>
      assert ReadStep(s, q, copied).readers[r] == s.readers[r];
    case _ =>
  }

  // ----- the IRQ thread -----

  /** How many steps the IRQ thread has at most before it. */
  function StepsLeft(irq: Irq): (k: nat)
    ensures k <= 12 && (k == 0 <==> irq.IrqIdle?)
  {
    match irq
    case IrqIdle => 0
    case WakeReaders => 1
    case PutActive(_) => 1
    case PutReady(_) => 2
    case Bump(_) => 3
    case Decode(_, _, _, _) => 4
    case FindSlot(_, _, _) => 5
    case Abort(_, _) => 5
    case ReadFrame(_, _) => 6
    case TakeXfer(_) => 7
    case Stamp(_, _) => 8
    case FindStamp(_) => 9
    case MarkActive(_) => 10
    case Discard => 1
    case CountDrop => 2
    case FetchFree => 11
    case FetchActive => 12
  }

  lemma IrqStepShortens(s: State, io: Io)
    requires !s.irq.IrqIdle?
    ensures StepsLeft(IrqStep(s, io).irq) < StepsLeft(s.irq)
  {
    if Filling(s.irq) {
      FillEnds(s, io);
    } else if Stamping(s.irq) {
      StampEnds(s);
    } else {
      OtherEnds(s);
    }
  }

  lemma OtherEnds(s: State)
    requires Fetching(s.irq) || Handing(s.irq)
    ensures StepsLeft((if Fetching(s.irq) then FetchStep(s) else HandStep(s)).irq) < StepsLeft(s.irq)
  {
  }

  lemma FillEnds(s: State, io: Io)
    requires Filling(s.irq)
    ensures StepsLeft(FillStep(s, io).irq) < StepsLeft(s.irq)
  {
  }

  lemma StampEnds(s: State)
    requires Stamping(s.irq)
    ensures StepsLeft(StampStep(s).irq) < StepsLeft(s.irq)
  {
  }

  function IrqSteps(ls: seq<Label>): nat {
    if ls == [] then 0 else IrqSteps(ls[..|ls| - 1]) + if ls[|ls| - 1].StepIrq? then 1 else 0
  }

  /**
    From any state, and whatever the other threads do, the IRQ thread has at most
    `StepsLeft` steps before it is idle, as long as no new edge is served; `free_irq` has
    shut the line before it waits.  The bus lock does not hold the thread up: a control call
    that waits in `free_irq` is between its command frames.
  */
  lemma {:induction false} IrqThreadEnds(s: State, more: seq<Label>, t: State)
    requires Exec(s, more) == Some(t) && forall l :: l in more ==> !l.Drdy?
    ensures IrqSteps(more) + StepsLeft(t.irq) <= StepsLeft(s.irq)
  {
    if more != [] {
      var pre, l := more[..|more| - 1], more[|more| - 1];
      var u := Exec(s, pre).value;
      IrqThreadEnds(s, pre, u);
      if l.StepIrq? {
        IrqStepShortens(u, l.io);
      } else {
        OthersLeaveIrq(u, l);
      }
    }
  }

  // ----- read() on a stopped device -----

  /** How many steps a caller of `read` has at most before it on a stopped device. */
  function TurnsLeft(r: Reader): (k: nat)
    ensures k <= 9 && (k == 0 <==> r.Outside?)
  {
    match r
    case Outside => 0
    case Returning(_) => 1
    case Clearing(_) => 2
    case Copying(_, _, _, _) => 3
    case Holding(_, _, _) => 4
    case Missed(_) => 1
    case Grab(_) => 5
    case CheckStop(_, _) => 6
    case CheckReady(_, _) => 7
    case Prepare(_) => 8
    case Asleep(_, _) => 9
  }

  lemma ReadStepShortens(s: State, r: nat, copied: bool)
    requires r < |s.readers| && !s.readers[r].Outside? && !s.run
    ensures TurnsLeft(ReadStep(s, r, copied).readers[r]) < TurnsLeft(s.readers[r])
  {
    if Waiting(s.readers[r]) {
    } else if s.readers[r].Grab? {
    } else {
      assert TurnsLeft(DeliverStep(s, r, copied).readers[r]) < TurnsLeft(s.readers[r]);
    }
  }

  /** A label of caller `r`. */
  predicate OfReader(l: Label, r: nat) {
    (l.Call? || l.StepRead? || l.Signal?) && l.r == r
  }

  function ReadSteps(ls: seq<Label>, r: nat): nat {
    if ls == [] then 0
    else ReadSteps(ls[..|ls| - 1], r) + if ls[|ls| - 1].StepRead? && ls[|ls| - 1].r == r then 1 else 0
  }

  ghost predicate StaysStopped(s: State, more: seq<Label>) {
    forall i :: 0 <= i <= |more| && Exec(s, more[..i]).Some? ==> !Exec(s, more[..i]).value.run
  }

  /**
    Whatever the others do, a call of `read` has at most `TurnsLeft` steps before it returns
    while the device stays stopped.
  */
  lemma {:induction false} ReadEnds(s: State, more: seq<Label>, t: State, r: nat)
    requires Exec(s, more) == Some(t) && r < |s.readers| && StaysStopped(s, more)
    requires forall l :: l in more && l.Call? ==> l.r != r
    ensures |t.readers| == |s.readers|
    ensures ReadSteps(more, r) + TurnsLeft(t.readers[r]) <= TurnsLeft(s.readers[r])
  {
    if more != [] {
      var pre, l := more[..|more| - 1], more[|more| - 1];
      var u := Exec(s, pre).value;
      assert forall i :: 0 <= i <= |pre| ==> pre[..i] == more[..i];
      ReadEnds(s, pre, u, r);
      StoppedStep(u, l, r);
    }
  }

  lemma StoppedStep(u: State, l: Label, r: nat)
    requires Enabled(u, l) && r < |u.readers| && !u.run && !(l.Call? && l.r == r)
    ensures |Step(u, l).readers| == |u.readers|
    ensures TurnsLeft(Step(u, l).readers[r]) + (if l.StepRead? && l.r == r then 1 else 0) <= TurnsLeft(u.readers[r])
  {
    if l.StepRead? && l.r == r {
      ReadStepShortens(u, r, l.copied);
    } else if !OfReader(l, r) {
      OthersLeaveReader(u, l, r);
    }
  }

  /**
    And it can always take the next one: nobody sleeps on a stopped device, unless an interrupt
    request was refused.
  */
  lemma StoppedReadGoesOn(n: nat, ls: seq<Label>, t: State, r: nat, copied: bool)
    requires Serialised(ls) && Exec(Init(n), ls) == Some(t)
    requires forall i :: 0 <= i < |ls| ==> !StrandsAt(n, ls, i)
    requires !t.run && t.ctl.CtlIdle? && r < |t.readers| && !t.readers[r].Outside?
    ensures Enabled(t, StepRead(r, copied))
  {
    NoneLostUpTo(n, ls, |ls|);
    assert ls[..|ls|] == ls;
    assert Sleeping(t.readers[r]) ==> CtlWillWake(t.ctl);
  }
}

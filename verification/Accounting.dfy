/**
  Sample and run accounting: what was read is delivered, cut off, lost in a failed copy,
  hidden by a resize, discarded by the cleanup, or still inside the driver.
*/
module Accounting {
  import opened Pipeline
  import opened Conservation
  import opened Bounds
  import opened Locations
  import opened Stream

  /** Samples of a fetched chunk that a reader has still to deliver. */
  function Owed(r: Reader): int {
    match r
    case Holding(_, _, chunk) => |chunk|
    case Copying(_, _, _, got) => got
    case _ => 0
  }

  function OwedAll(rs: seq<Reader>): int {
    if rs == [] then 0 else OwedAll(rs[..|rs| - 1]) + Owed(rs[|rs| - 1])
  }

  lemma {:induction false} OwedUpdate(rs: seq<Reader>, r: nat, pc: Reader)
    requires r < |rs|
    ensures OwedAll(rs[r := pc]) == OwedAll(rs) - Owed(rs[r]) + Owed(pc)
  {
    var m := |rs| - 1;
    if r < m {
      OwedUpdate(rs[..m], r, pc);
      assert rs[r := pc][..m] == rs[..m][r := pc];
    } else {
      assert rs[r := pc][..m] == rs[..m];
    }
  }

  lemma {:induction false} OwedSame(a: seq<Reader>, b: seq<Reader>)
    requires |a| == |b| && forall r :: 0 <= r < |a| ==> Owed(a[r]) == Owed(b[r])
    ensures OwedAll(a) == OwedAll(b)
  {
    if a != [] {
      OwedSame(a[..|a| - 1], b[..|b| - 1]);
    }
  }

  lemma {:induction false} OwedByNone(rs: seq<Reader>)
    requires AllOutside(rs)
    ensures OwedAll(rs) == 0
  {
    if rs != [] {
      OwedByNone(rs[..|rs| - 1]);
    }
  }

  /** Every fetched sample has one fate. */
  predicate FatesAddUp(s: State) {
    |Flat(s.h.taken)| == s.h.delivered + s.h.cut + s.h.lost + s.h.erased + s.h.discarded + OwedAll(s.readers)
  }

  /** The current IRQ-thread run has not yet been counted as stored, failed or dropped. */
  predicate Undecided(irq: Irq) {
    irq.FetchActive? || irq.FetchFree? || irq.CountDrop? || Stamping(irq) || irq.ReadFrame? || irq.Abort?
  }

  predicate RunsAddUp(s: State) {
    s.h.runs == |s.h.frames| + s.h.failed + s.dropCnt + if Undecided(s.irq) then 1 else 0
  }

  /** What a session delivers starts where the last one ended, and only the cleanup takes from it besides readers. */
  predicate SessionOk(s: State) {
    && s.h.takenMark <= |s.h.taken| && s.h.frameMark <= |s.h.frames|
    && Flat(s.h.taken[..s.h.takenMark]) == s.h.frames[..s.h.frameMark]
    && (s.run ==> forall i :: s.h.takenMark <= i < |s.h.taken| ==> s.h.taken[i].byReader)
  }

  // ----- fates -----

  lemma ReadFates(s: State, r: nat, copied: bool)
    requires Sound(s) && FatesAddUp(s) && r < |s.readers| && !s.readers[r].Outside?
    ensures FatesAddUp(ReadStep(s, r, copied))
  {
    var t := ReadStep(s, r, copied);
    OwedUpdate(s.readers, r, t.readers[r]);
    if Waiting(s.readers[r]) {
    } else if s.readers[r].Grab? {
      GrabFates(s, r);
    } else {
      DeliverFates(s, r, copied);
    }
  }

  lemma GrabFates(s: State, r: nat)
    requires FatesAddUp(s) && r < |s.readers| && s.readers[r].Grab?
    ensures FatesAddUp(GrabStep(s, r))
  {
    var t := GrabStep(s, r);
    OwedUpdate(s.readers, r, t.readers[r]);
    if s.ready != [] {
      FlatSnoc(s.h.taken, Chunk(true, s.chunkSz, s.bufs[s.ready[0]].Filled()));
    }
  }

  lemma DeliverFates(s: State, r: nat, copied: bool)
    requires Bounded(s) && FatesAddUp(s) && r < |s.readers| && ReaderBuf(s.readers[r]).Some?
    ensures FatesAddUp(DeliverStep(s, r, copied))
  {
    var t := DeliverStep(s, r, copied);
    OwedUpdate(s.readers, r, t.readers[r]);
    if s.readers[r].Copying? {
      assert ReaderOk(s.readers[r]);
      CopyFates(s, r, copied);
    }
  }

  /** All that was owed for the chunk is delivered, cut off or lost. */
  lemma CopyFates(s: State, r: nat, copied: bool)
    requires r < |s.readers| && s.readers[r].Copying? && 0 <= s.readers[r].got <= MAX_CHUNK_SZ
    ensures var t := DeliverStep(s, r, copied);
      && t.h.delivered + t.h.cut + t.h.lost == s.h.delivered + s.h.cut + s.h.lost + s.readers[r].got
      && t.h.erased == s.h.erased && t.h.discarded == s.h.discarded && t.h.taken == s.h.taken
      && t.readers == s.readers[r := t.readers[r]] && Owed(t.readers[r]) == 0
  {
  }

  lemma SweepFates(s: State)
    requires FatesAddUp(s) && Sweeping(s.ctl)
    ensures FatesAddUp(SweepStep(s))
  {
    var t := SweepStep(s);
    match s.ctl
    case Sweep(_, active) =>
      var list := if active then s.active else s.ready;
      if list != [] {
        FlatSnoc(s.h.taken, Chunk(false, s.chunkSz, s.bufs[list[0]].Filled()));
      }
    case SweepWake(_) =>
      OwedSame(s.readers, t.readers);
    case _ =>
  }

  /** Steps that neither fetch a chunk nor decide the fate of a sample. */
  lemma NoFate(s: State, t: State)
    requires FatesAddUp(s) && t.h.taken == s.h.taken && |t.readers| == |s.readers|
    requires forall r :: 0 <= r < |s.readers| ==> Owed(t.readers[r]) == Owed(s.readers[r])
    requires t.h.delivered == s.h.delivered && t.h.cut == s.h.cut && t.h.lost == s.h.lost
    requires t.h.erased == s.h.erased && t.h.discarded == s.h.discarded
    ensures FatesAddUp(t)
  {
    OwedSame(s.readers, t.readers);
  }

  lemma IrqFates(s: State, io: Io)
    requires FatesAddUp(s) && !s.irq.IrqIdle?
    ensures FatesAddUp(IrqStep(s, io))
  {
    if Fetching(s.irq) {
      NoFate(s, FetchStep(s));
    } else if Stamping(s.irq) {
      NoFate(s, StampStep(s));
    } else if Filling(s.irq) {
      NoFate(s, FillStep(s, io));
    } else {
      NoFate(s, HandStep(s));
    }
  }

  lemma CtlFates(s: State, io: Io)
    requires FatesAddUp(s) && !s.ctl.CtlIdle?
    ensures FatesAddUp(CtlStep(s, io))
  {
    if Switching(s.ctl) {
      NoFate(s, SwitchStep(s, io));
    } else if Sweeping(s.ctl) {
      SweepFates(s);
    } else if Commanding(s.ctl) {
      NoFate(s, CommandStep(s, io));
    } else {
      NoFate(s, SizeStep(s));
    }
  }

  lemma StepFates(s: State, l: Label)
    requires Enabled(s, l) && Sound(s) && FatesAddUp(s)
    ensures FatesAddUp(Step(s, l))
  {
    match l
    case StepIrq(io) => IrqFates(s, io);
    case StepRead(r, copied) => ReadFates(s, r, copied);
    case StepCtl(io) => CtlFates(s, io);
    case _ => NoFate(s, Step(s, l));
  }

  // ----- runs -----

  lemma IrqRuns(s: State, io: Io)
    requires Sound(s) && RunsAddUp(s) && !s.irq.IrqIdle?
    ensures RunsAddUp(IrqStep(s, io))
  {
    if Fetching(s.irq) {
      assert RunsAddUp(FetchStep(s));
    } else if Stamping(s.irq) {
      StampRuns(s);
    } else if Filling(s.irq) {
      FillRuns(s, io);
    } else {
      assert RunsAddUp(HandStep(s));
    }
  }

  lemma StampRuns(s: State)
    requires PoolConserved(s) && RunsAddUp(s) && Stamping(s.irq)
    ensures RunsAddUp(StampStep(s))
  {
    PoolSuffices(s);
  }

  lemma FillRuns(s: State, io: Io)
    requires TransferRecorded(s) && RunsAddUp(s) && Filling(s.irq)
    ensures RunsAddUp(FillStep(s, io))
  {
  }

  lemma StepRuns(s: State, l: Label)
    requires Enabled(s, l) && Sound(s) && RunsAddUp(s)
    ensures RunsAddUp(Step(s, l))
  {
    match l
    case StepIrq(io) => IrqRuns(s, io);
    case _ => OthersKeepRuns(s, l);
  }

  lemma OthersKeepRuns(s: State, l: Label)
    requires Enabled(s, l) && RunsAddUp(s) && !l.StepIrq?
    ensures RunsAddUp(Step(s, l))
  {
    match l
    case StepRead(r, copied) => ReadKeepsRuns(s, r, copied);
    case StepCtl(io) => CtlKeepsRuns(s, io);
    case _ =>
  }

  predicate SameRuns(s: State, t: State) {
    && t.irq == s.irq && t.dropCnt == s.dropCnt
    && t.h.runs == s.h.runs && t.h.frames == s.h.frames && t.h.failed == s.h.failed
  }

  lemma ReadKeepsRuns(s: State, r: nat, copied: bool)
    requires r < |s.readers| && !s.readers[r].Outside?
    ensures SameRuns(s, ReadStep(s, r, copied))
  {
  }

  lemma CtlKeepsRuns(s: State, io: Io)
    requires !s.ctl.CtlIdle?
    ensures SameRuns(s, CtlStep(s, io))
  {
  }

  /** Every buffer is waiting to be read or being read. */
  ghost predicate Saturated(s: State) {
    forall b: BufId, p :: At(s, b, p) ==> p.InReady? || p.WithReader?
  }

  /** A run is dropped exactly when the free list is found empty, and then the readers have every buffer. */
  lemma DropAtSaturation(s: State, io: Io)
    requires Sound(s) && !s.irq.IrqIdle?
    ensures IrqStep(s, io).irq.CountDrop? <==> s.irq.FetchFree? && Saturated(s)
    ensures IrqStep(s, io).dropCnt == s.dropCnt + if s.irq.CountDrop? then 1 else 0
  {
    if Fetching(s.irq) {
      if s.irq.FetchFree? {
        FetchFreeSaturated(s);
      }
      FetchDrops(s);
    } else {
      NoDrop(s, io);
    }
  }

  lemma FetchDrops(s: State)
    requires Fetching(s.irq)
    ensures FetchStep(s).irq.CountDrop? <==> s.irq.FetchFree? && s.free == []
    ensures FetchStep(s).dropCnt == s.dropCnt + if s.irq.CountDrop? then 1 else 0
  {
  }

  lemma NoDrop(s: State, io: Io)
    requires !s.irq.IrqIdle? && !Fetching(s.irq)
    ensures !IrqStep(s, io).irq.CountDrop? && IrqStep(s, io).dropCnt == s.dropCnt
  {
    if Stamping(s.irq) {
      assert !StampStep(s).irq.CountDrop?;
    } else if Filling(s.irq) {
      assert !FillStep(s, io).irq.CountDrop?;
    } else {
      assert !HandStep(s).irq.CountDrop?;
    }
  }

  lemma FetchFreeSaturated(s: State)
    requires Sound(s) && s.irq.FetchFree?
    ensures s.free == [] <==> Saturated(s)
  {
    if s.free == [] {
      forall b: BufId, p | At(s, b, p)
        ensures p.InReady? || p.WithReader?
      {
        assert s.active == [] && CtlBuf(s.ctl).None?;
      }
    } else {
      assert At(s, s.free[0], InFree);
    }
  }

  // ----- sessions -----

  lemma SessionGrows(s: State, t: State)
    requires SessionOk(s) && t.h.takenMark == s.h.takenMark && t.h.frameMark == s.h.frameMark
    requires s.h.taken <= t.h.taken && s.h.frames <= t.h.frames && (t.run ==> s.run)
    requires t.run ==> forall i :: |s.h.taken| <= i < |t.h.taken| ==> t.h.taken[i].byReader
    ensures SessionOk(t)
  {
    assert t.h.taken[..s.h.takenMark] == s.h.taken[..s.h.takenMark];
    assert t.h.frames[..s.h.frameMark] == s.h.frames[..s.h.frameMark];
  }

  /** A session begins with nothing left over from the one before. */
  lemma SessionBegins(s: State, io: Io)
    requires Sound(s) && InOrder(s) && s.ctl.SetRun?
    ensures SessionOk(SwitchStep(s, io))
  {
    var t := SwitchStep(s, io);
    assert Pending(s) == [];
    assert t.h.taken[..t.h.takenMark] == s.h.taken;
    assert t.h.frames[..t.h.frameMark] == s.h.frames;
  }

  lemma CtlSession(s: State, io: Io)
    requires Sound(s) && InOrder(s) && SessionOk(s) && !s.ctl.CtlIdle?
    ensures SessionOk(CtlStep(s, io))
  {
    if s.ctl.SetRun? {
      SessionBegins(s, io);
    } else {
      OtherCtlSession(s, io);
    }
  }

  lemma OtherCtlSession(s: State, io: Io)
    requires Sound(s) && SessionOk(s) && !s.ctl.CtlIdle? && !s.ctl.SetRun?
    ensures SessionOk(CtlStep(s, io))
  {
    if Switching(s.ctl) {
      SessionGrows(s, SwitchStep(s, io));
    } else if Sweeping(s.ctl) {
      SessionGrows(s, SweepStep(s));
    } else if Commanding(s.ctl) {
      SessionGrows(s, CommandStep(s, io));
    } else {
      SessionGrows(s, SizeStep(s));
    }
  }

  lemma IrqSession(s: State, io: Io)
    requires SessionOk(s) && !s.irq.IrqIdle?
    ensures SessionOk(IrqStep(s, io))
  {
    if Fetching(s.irq) {
      SessionGrows(s, FetchStep(s));
    } else if Stamping(s.irq) {
      SessionGrows(s, StampStep(s));
    } else if Filling(s.irq) {
      SessionGrows(s, FillStep(s, io));
    } else {
      SessionGrows(s, HandStep(s));
    }
  }

  lemma ReadSession(s: State, r: nat, copied: bool)
    requires SessionOk(s) && r < |s.readers| && !s.readers[r].Outside?
    ensures SessionOk(ReadStep(s, r, copied))
  {
    if Waiting(s.readers[r]) {
      SessionGrows(s, ReadStep(s, r, copied));
    } else if s.readers[r].Grab? {
      SessionGrows(s, GrabStep(s, r));
    } else {
      SessionGrows(s, DeliverStep(s, r, copied));
    }
  }

  lemma StepSession(s: State, l: Label)
    requires Enabled(s, l) && Sound(s) && InOrder(s) && SessionOk(s)
    ensures SessionOk(Step(s, l))
  {
    match l
    case StepIrq(io) => IrqSession(s, io);
    case StepRead(r, copied) => ReadSession(s, r, copied);
    case StepCtl(io) => CtlSession(s, io);
    case _ => SessionGrows(s, Step(s, l));
  }
}

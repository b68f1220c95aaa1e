/**
  Where the eight chunk buffers and the eight transfer buffers are.

  Both conservation laws hold for every label, a resize at the worst moment included;
  apart from that there is one control call at a time.
*/
module Conservation {
  import opened Wrappers
  import opened Pipeline

  datatype Place = InFree | InActive | InReady | WithIrq | WithReader(r: nat) | WithCtl

  predicate At(s: State, b: BufId, p: Place) {
    match p
    case InFree => b in s.free
    case InActive => b in s.active
    case InReady => b in s.ready
    case WithIrq => IrqBuf(s.irq) == Some(b)
    case WithReader(r) => r < |s.readers| && ReaderBuf(s.readers[r]) == Some(b)
    case WithCtl => CtlBuf(s.ctl) == Some(b)
  }

  ghost predicate Somewhere(s: State, b: BufId) {
    exists p :: At(s, b, p)
  }

  /** Each buffer is in exactly one place, and on a list at most once. */
  ghost predicate Conserved(s: State) {
    && NoDup(s.free) && NoDup(s.active) && NoDup(s.ready)
    && (forall b: BufId :: Somewhere(s, b))
    && (forall b: BufId, p, q :: At(s, b, p) && At(s, b, q) ==> p == q)
  }

  // ----- what a step may do to the places -----

  ghost predicate Lists(s: State) {
    NoDup(s.free) && NoDup(s.active) && NoDup(s.ready)
  }

  ghost predicate Same(s: State, t: State) {
    && t.free == s.free && t.active == s.active && t.ready == s.ready
    && IrqBuf(t.irq) == IrqBuf(s.irq)
    && CtlBuf(t.ctl) == CtlBuf(s.ctl)
    && |t.readers| == |s.readers|
    && (forall r :: 0 <= r < |s.readers| ==> ReaderBuf(t.readers[r]) == ReaderBuf(s.readers[r]))
  }

  ghost predicate Moved(s: State, t: State, b: BufId, p: Place, q: Place) {
    && Lists(t)
    && At(s, b, p)
    && (forall c: BufId, r ::
          At(t, c, r) <==> (c == b && r == q) || (At(s, c, r) && !(c == b && r == p)))
  }

  lemma SameConserves(s: State, t: State)
    requires Conserved(s) && Same(s, t)
    ensures Conserved(t)
  {
    forall b: BufId, p
      ensures At(t, b, p) <==> At(s, b, p)
    {
    }
    forall b: BufId
      ensures Somewhere(t, b)
    {
      assert Somewhere(s, b);
      var p :| At(s, b, p);
      assert At(t, b, p);
    }
  }

  lemma MoveConserves(s: State, t: State, b: BufId, p: Place, q: Place)
    requires Conserved(s) && Moved(s, t, b, p, q)
    ensures Conserved(t)
  {
    forall c: BufId
      ensures Somewhere(t, c)
    {
      assert Somewhere(s, c);
      var r :| At(s, c, r);
      assert At(t, c, if c == b then q else r);
    }
  }

  lemma Tail<T>(l: seq<T>)
    requires NoDup(l) && l != []
    ensures NoDup(l[1..])
    ensures forall c :: c in l[1..] <==> c in l && c != l[0]
  {
    forall c | c in l && c != l[0]
      ensures c in l[1..]
    {
      var i :| 0 <= i < |l| && l[i] == c;
      assert l[1..][i - 1] == c;
    }
  }

  lemma Snoc<T>(l: seq<T>, x: T)
    requires NoDup(l) && x !in l
    ensures NoDup(l + [x])
    ensures forall c :: c in l + [x] <==> c in l || c == x
  {
  }

  /** The transfer in progress is the one recorded in the buffer being filled. */
  predicate TransferRecorded(s: State) {
    match s.irq
    case ReadFrame(b, x) => s.bufs[b].xfer == Some(x)
    case Abort(b, x) => s.bufs[b].xfer == Some(x)
    case FindSlot(b, x, _) => s.bufs[b].xfer == Some(x)
    case Decode(b, x, _, _) => s.bufs[b].xfer == Some(x)
    case _ => true
  }

  lemma FetchConserves(s: State)
    requires Conserved(s) && Fetching(s.irq)
    ensures Conserved(FetchStep(s))
  {
    var t := FetchStep(s);
    if s.irq.FetchActive? && s.active != [] {
      Tail(s.active);
      assert At(s, s.active[0], InActive);
      MoveConserves(s, t, s.active[0], InActive, WithIrq);
    } else if s.irq.FetchFree? && s.free != [] {
      Tail(s.free);
      assert At(s, s.free[0], InFree);
      MoveConserves(s, t, s.free[0], InFree, WithIrq);
    } else {
      SameConserves(s, t);
    }
  }

  lemma HandConserves(s: State)
    requires Conserved(s) && Handing(s.irq)
    ensures Conserved(HandStep(s))
  {
    if s.irq.WakeReaders? {
      SameConserves(s, HandStep(s));
    } else {
      PutConserves(s);
    }
  }

  lemma PutConserves(s: State)
    requires Conserved(s) && (s.irq.PutActive? || s.irq.PutReady?)
    ensures Conserved(HandStep(s))
  {
    var t, b := HandStep(s), s.irq.b;
    assert At(s, b, WithIrq) && !At(s, b, InActive) && !At(s, b, InReady);
    if s.irq.PutActive? {
      Snoc(s.active, b);
      MoveConserves(s, t, b, WithIrq, InActive);
    } else {
      Snoc(s.ready, b);
      MoveConserves(s, t, b, WithIrq, InReady);
    }
  }

  lemma IrqConserves(s: State, io: Io)
    requires Conserved(s) && TransferRecorded(s) && !s.irq.IrqIdle?
    ensures Conserved(IrqStep(s, io))
  {
    if Fetching(s.irq) {
      FetchConserves(s);
    } else if Stamping(s.irq) {
      StampConserves(s);
    } else if Filling(s.irq) {
      FillConserves(s, io);
    } else {
      HandConserves(s);
    }
  }

  lemma StampConserves(s: State)
    requires Conserved(s) && Stamping(s.irq)
    ensures Conserved(StampStep(s))
  {
    SameConserves(s, StampStep(s));
  }

  lemma FillConserves(s: State, io: Io)
    requires Conserved(s) && TransferRecorded(s) && Filling(s.irq)
    ensures Conserved(FillStep(s, io))
  {
    SameConserves(s, FillStep(s, io));
  }

  // ----- read() and the control calls -----

  lemma GrabConserves(s: State, r: nat)
    requires Conserved(s) && r < |s.readers| && s.readers[r].Grab?
    ensures Conserved(GrabStep(s, r))
  {
    var t := GrabStep(s, r);
    if s.ready == [] {
      SameConserves(s, t);
    } else {
      Tail(s.ready);
      assert At(s, s.ready[0], InReady);
      MoveConserves(s, t, s.ready[0], InReady, WithReader(r));
    }
  }

  lemma DeliverConserves(s: State, r: nat, copied: bool)
    requires Conserved(s) && r < |s.readers| && ReaderBuf(s.readers[r]).Some?
    ensures Conserved(DeliverStep(s, r, copied))
  {
    var t := DeliverStep(s, r, copied);
    if s.readers[r].Returning? {
      var b := s.readers[r].b;
      assert At(s, b, WithReader(r)) && !At(s, b, InFree);
      Snoc(s.free, b);
      MoveConserves(s, t, b, WithReader(r), InFree);
    } else {
      SameConserves(s, t);
    }
  }

  lemma ReadConserves(s: State, r: nat, copied: bool)
    requires Conserved(s) && r < |s.readers| && !s.readers[r].Outside?
    ensures Conserved(ReadStep(s, r, copied))
  {
    if Waiting(s.readers[r]) {
      SameConserves(s, ReadStep(s, r, copied));
    } else if s.readers[r].Grab? {
      GrabConserves(s, r);
    } else {
      DeliverConserves(s, r, copied);
    }
  }

  lemma SweepConserves(s: State)
    requires Conserved(s) && Sweeping(s.ctl)
    ensures Conserved(SweepStep(s))
  {
    var t := SweepStep(s);
    if s.ctl.Sweep? {
      SweepFetchConserves(s);
    } else if s.ctl.SweepReturn? {
      var b := s.ctl.b;
      assert At(s, b, WithCtl) && !At(s, b, InFree);
      Snoc(s.free, b);
      MoveConserves(s, t, b, WithCtl, InFree);
    } else {
      SameConserves(s, t);
    }
  }

  lemma SweepFetchConserves(s: State)
    requires Conserved(s) && s.ctl.Sweep?
    ensures Conserved(SweepStep(s))
  {
    if s.ctl.active {
      SweepActiveConserves(s);
    } else {
      SweepReadyConserves(s);
    }
  }

  lemma SweepActiveConserves(s: State)
    requires Conserved(s) && s.ctl.Sweep? && s.ctl.active
    ensures Conserved(SweepStep(s))
  {
    var t := SweepStep(s);
    if s.active != [] {
      Tail(s.active);
      assert At(s, s.active[0], InActive);
      MoveConserves(s, t, s.active[0], InActive, WithCtl);
    } else {
      SameConserves(s, t);
    }
  }

  lemma SweepReadyConserves(s: State)
    requires Conserved(s) && s.ctl.Sweep? && !s.ctl.active
    ensures Conserved(SweepStep(s))
  {
    var t := SweepStep(s);
    if s.ready != [] {
      Tail(s.ready);
      assert At(s, s.ready[0], InReady);
      MoveConserves(s, t, s.ready[0], InReady, WithCtl);
    } else {
      SameConserves(s, t);
    }
  }

  lemma CtlConserves(s: State, io: Io)
    requires Conserved(s) && !s.ctl.CtlIdle?
    ensures Conserved(CtlStep(s, io))
  {
    if Sweeping(s.ctl) {
      SweepConserves(s);
    } else {
      CtlStays(s, io);
      SameConserves(s, CtlStep(s, io));
    }
  }

  lemma CtlStays(s: State, io: Io)
    requires !s.ctl.CtlIdle? && !Sweeping(s.ctl)
    ensures Same(s, CtlStep(s, io))
  {
    if Switching(s.ctl) {
      SwitchHoldsNone(s, io);
    } else if Commanding(s.ctl) {
      CommandHoldsNone(s, io);
    } else {
      assert CtlBuf(SizeStep(s).ctl).None?;
    }
  }

  lemma SwitchHoldsNone(s: State, io: Io)
    requires Switching(s.ctl)
    ensures CtlBuf(SwitchStep(s, io).ctl).None? && CtlXfer(SwitchStep(s, io).ctl).None?
  {
  }

  lemma CommandHoldsNone(s: State, io: Io)
    requires Commanding(s.ctl)
    ensures CtlBuf(CommandStep(s, io).ctl).None?
  {
  }

  lemma StepConserves(s: State, l: Label)
    requires Enabled(s, l) && Conserved(s) && TransferRecorded(s)
    ensures Conserved(Step(s, l))
  {
    match l
    case StepIrq(io) => IrqConserves(s, io);
    case StepRead(r, copied) => ReadConserves(s, r, copied);
    case StepCtl(io) => CtlConserves(s, io);
    case _ => SameConserves(s, Step(s, l));
  }

  // ----- a thread writes only to buffers it holds -----

  lemma IrqWrites(s: State, io: Io, c: BufId)
    requires !s.irq.IrqIdle? && IrqBuf(s.irq) != Some(c)
    ensures IrqStep(s, io).bufs[c] == s.bufs[c]
  {
  }

  lemma ReadWrites(s: State, r: nat, copied: bool, c: BufId)
    requires r < |s.readers| && !s.readers[r].Outside? && ReaderBuf(s.readers[r]) != Some(c)
    ensures ReadStep(s, r, copied).bufs[c] == s.bufs[c]
  {
  }

  /** The control call writes where it must not only in a resize, and then only the fill level and the size. */
  lemma CtlWrites(s: State, io: Io, c: BufId)
    requires !s.ctl.CtlIdle? && CtlBuf(s.ctl) != Some(c)
    ensures !Sizing(s.ctl) ==> CtlStep(s, io).bufs[c] == s.bufs[c]
    ensures CtlStep(s, io).bufs[c] == s.bufs[c]
         || (s.ctl.Resize? && CtlStep(s, io).bufs[c] == s.bufs[c].(chunkSz := s.ctl.n, idx := 0))
  {
    if Switching(s.ctl) {
    } else if Sweeping(s.ctl) {
      SweepWrites(s, c);
    } else if Commanding(s.ctl) {
    } else {
      SizeWrites(s, c);
    }
  }

  lemma SweepWrites(s: State, c: BufId)
    requires Sweeping(s.ctl) && CtlBuf(s.ctl) != Some(c)
    ensures SweepStep(s).bufs[c] == s.bufs[c]
  {
  }

  lemma SizeWrites(s: State, c: BufId)
    requires Sizing(s.ctl)
    ensures SizeStep(s).bufs[c] == s.bufs[c]
         || (s.ctl.Resize? && SizeStep(s).bufs[c] == s.bufs[c].(chunkSz := s.ctl.n, idx := 0))
  {
  }

  lemma StepRecords(s: State, l: Label)
    requires Enabled(s, l) && Conserved(s) && TransferRecorded(s)
    ensures TransferRecorded(Step(s, l))
  {
    if l.StepIrq? {
      IrqRecords(s, l.io);
    } else if IrqBuf(s.irq).Some? {
      var b := IrqBuf(s.irq).value;
      assert At(s, b, WithIrq);
      OthersKeepXfer(s, l, b);
    }
  }

  lemma IrqRecords(s: State, io: Io)
    requires TransferRecorded(s) && !s.irq.IrqIdle?
    ensures TransferRecorded(IrqStep(s, io))
  {
    if Fetching(s.irq) {
      assert IrqXfer(FetchStep(s).irq).None?;
    } else if Stamping(s.irq) {
      StampRecords(s);
    } else if Filling(s.irq) {
      FillRecords(s, io);
    } else {
      assert IrqXfer(HandStep(s).irq).None?;
    }
  }

  lemma StampRecords(s: State)
    requires Stamping(s.irq)
    ensures TransferRecorded(StampStep(s))
  {
  }

  lemma FillRecords(s: State, io: Io)
    requires TransferRecorded(s) && Filling(s.irq)
    ensures TransferRecorded(FillStep(s, io))
  {
  }

  lemma OthersKeepXfer(s: State, l: Label, b: BufId)
    requires Enabled(s, l) && Conserved(s) && At(s, b, WithIrq) && !l.StepIrq?
    ensures Step(s, l).irq == s.irq && Step(s, l).bufs[b].xfer == s.bufs[b].xfer
  {
    match l
    case StepRead(r, copied) =>
      assert !At(s, b, WithReader(r));
      ReadWrites(s, r, copied, b);
    case StepCtl(io) =>
      assert !At(s, b, WithCtl);
      CtlWrites(s, io, b);
    case _ =>
  }

  // ----- transfer buffers -----

  /** Each transfer buffer is in the pool, with the IRQ thread or with the control call: in exactly one of them. */
  ghost predicate PoolConserved(s: State) {
    && NoDup(s.pool)
    && (forall x: XferId :: x in s.pool || IrqXfer(s.irq) == Some(x) || CtlXfer(s.ctl) == Some(x))
    && (forall x: XferId :: IrqXfer(s.irq) == Some(x) ==> x !in s.pool && CtlXfer(s.ctl) != Some(x))
    && (forall x: XferId :: CtlXfer(s.ctl) == Some(x) ==> x !in s.pool)
  }

  /** Two holders cannot use up eight buffers: `get_xfer_buf` never returns NULL. */
  lemma PoolSuffices(s: State)
    requires PoolConserved(s)
    requires IrqXfer(s.irq).None? || CtlXfer(s.ctl).None?
    ensures s.pool != []
  {
    var x0: XferId, x1: XferId := 0, 1;
    assert x0 in s.pool || x1 in s.pool;
  }

  lemma PoolTaken(s: State, t: State)
    requires PoolConserved(s) && s.pool != [] && t.pool == s.pool[1..]
    requires
      || (IrqXfer(s.irq).None? && IrqXfer(t.irq) == Some(s.pool[0]) && CtlXfer(t.ctl) == CtlXfer(s.ctl))
      || (CtlXfer(s.ctl).None? && CtlXfer(t.ctl) == Some(s.pool[0]) && IrqXfer(t.irq) == IrqXfer(s.irq))
    ensures PoolConserved(t)
  {
    Tail(s.pool);
  }

  lemma PoolReturned(s: State, t: State, x: XferId)
    requires PoolConserved(s) && t.pool == s.pool + [x]
    requires
      || (IrqXfer(s.irq) == Some(x) && IrqXfer(t.irq).None? && CtlXfer(t.ctl) == CtlXfer(s.ctl))
      || (CtlXfer(s.ctl) == Some(x) && CtlXfer(t.ctl).None? && IrqXfer(t.irq) == IrqXfer(s.irq))
    ensures PoolConserved(t)
  {
    Snoc(s.pool, x);
  }

  lemma StampPool(s: State)
    requires PoolConserved(s) && Stamping(s.irq)
    ensures PoolConserved(StampStep(s))
  {
    if s.irq.TakeXfer? {
      PoolSuffices(s);
      PoolTaken(s, StampStep(s));
    }
  }

  lemma FillPool(s: State, io: Io)
    requires PoolConserved(s) && TransferRecorded(s) && Filling(s.irq)
    ensures PoolConserved(FillStep(s, io))
  {
    var t := FillStep(s, io);
    if s.irq.Abort? || s.irq.Decode? {
      PoolReturned(s, t, s.irq.x);
    } else {
      FillKeepsXfer(s, io);
    }
  }

  lemma FillKeepsXfer(s: State, io: Io)
    requires TransferRecorded(s) && (s.irq.ReadFrame? || s.irq.FindSlot? || s.irq.Bump?)
    ensures IrqXfer(FillStep(s, io).irq) == IrqXfer(s.irq)
    ensures FillStep(s, io).pool == s.pool
  {
  }

  lemma IrqPool(s: State, io: Io)
    requires PoolConserved(s) && TransferRecorded(s) && !s.irq.IrqIdle?
    ensures PoolConserved(IrqStep(s, io))
  {
    if Fetching(s.irq) {
      assert IrqXfer(FetchStep(s).irq).None?;
    } else if Stamping(s.irq) {
      StampPool(s);
    } else if Filling(s.irq) {
      FillPool(s, io);
    } else {
      assert IrqXfer(HandStep(s).irq).None?;
    }
  }

  lemma CommandPool(s: State, io: Io)
    requires PoolConserved(s) && Commanding(s.ctl)
    ensures PoolConserved(CommandStep(s, io))
  {
    var t := CommandStep(s, io);
    if s.ctl.FrameTake? {
      PoolSuffices(s);
      PoolTaken(s, t);
    } else if s.ctl.FrameDone? {
      PoolReturned(s, t, s.ctl.x);
    } else {
      assert t.pool == s.pool && CtlXfer(t.ctl) == CtlXfer(s.ctl);
    }
  }

  lemma CtlPool(s: State, io: Io)
    requires PoolConserved(s) && !s.ctl.CtlIdle?
    ensures PoolConserved(CtlStep(s, io))
  {
    if Commanding(s.ctl) {
      CommandPool(s, io);
    } else {
      OtherCtlHoldsNone(s, io);
    }
  }

  lemma OtherCtlHoldsNone(s: State, io: Io)
    requires !s.ctl.CtlIdle? && !Commanding(s.ctl)
    ensures var t := CtlStep(s, io);
      CtlXfer(t.ctl).None? && t.pool == s.pool && t.irq == s.irq
  {
    if Switching(s.ctl) {
      SwitchHoldsNone(s, io);
    } else if Sweeping(s.ctl) {
      assert CtlXfer(SweepStep(s).ctl).None?;
    } else {
      assert CtlXfer(SizeStep(s).ctl).None?;
    }
  }

  lemma StepPool(s: State, l: Label)
    requires Enabled(s, l) && PoolConserved(s) && TransferRecorded(s)
    ensures PoolConserved(Step(s, l))
  {
    match l
    case StepIrq(io) => IrqPool(s, io);
    case StepCtl(io) => CtlPool(s, io);
    case StepRead(r, copied) =>
      assert ReadStep(s, r, copied).pool == s.pool;
    case _ =>
  }
}

/**
  Index bounds.  These hold whatever a resize does: `ads131m08_data_resize_chunk_buf`
  may clear any buffer and publish any size at any moment, between any two steps.
*/
module Bounds {
  import opened Pipeline
  import opened Conservation

  predicate Fits(buf: Buf) {
    1 <= buf.chunkSz <= MAX_CHUNK_SZ && 0 <= buf.idx <= buf.chunkSz
  }

  /** There is a slot left to fill. */
  predicate Room(buf: Buf) {
    Fits(buf) && buf.idx < buf.chunkSz
  }

  /** Places whose buffers are not full. */
  predicate RoomPlace(s: State, p: Place) {
    match p
    case InFree => true
    case InActive => true
    case InReady => false
    case WithIrq => !s.irq.PutReady?
    case WithReader(r) => r < |s.readers| && s.readers[r].Returning?
    case WithCtl => s.ctl.SweepReturn?
  }

  predicate SlotOk(irq: Irq) {
    match irq
    case Stamp(_, slot) => 0 <= slot < MAX_CHUNK_SZ
    case Decode(_, _, _, slot) => 0 <= slot < MAX_CHUNK_SZ
    case _ => true
  }

  predicate CtlSizeOk(ctl: Ctl) {
    match ctl
    case Resize(n, _) => 1 <= n <= MAX_CHUNK_SZ
    case Publish(n) => 1 <= n <= MAX_CHUNK_SZ
    case _ => true
  }

  predicate ReaderOk(r: Reader) {
    match r
    case Copying(_, _, _, got) => 0 <= got <= MAX_CHUNK_SZ
    case Holding(_, _, chunk) => |chunk| <= MAX_CHUNK_SZ
    case _ => true
  }

  ghost predicate Bounded(s: State) {
    && 1 <= s.chunkSz <= MAX_CHUNK_SZ
    && (forall b: BufId :: Fits(s.bufs[b]))
    && (forall b: BufId, p :: At(s, b, p) && RoomPlace(s, p) ==> Room(s.bufs[b]))
    && SlotOk(s.irq)
    && CtlSizeOk(s.ctl)
    && (forall r :: 0 <= r < |s.readers| ==> ReaderOk(s.readers[r]))
    && (forall d :: d in s.h.deliveries ==> |d.samples| <= MAX_CHUNK_SZ && |d.samples| <= d.max)
  }

  /** Only the acting thread's own place, and the one it hands a buffer to, need an argument. */
  lemma FetchBounded(s: State)
    requires Conserved(s) && Bounded(s) && Fetching(s.irq)
    ensures Bounded(FetchStep(s))
  {
    var t := FetchStep(s);
    forall b: BufId, p | At(t, b, p) && RoomPlace(t, p)
      ensures Room(t.bufs[b])
    {
      if s.irq.FetchActive? && s.active != [] && b == s.active[0] {
        assert At(s, b, InActive);
      } else if s.irq.FetchFree? && s.free != [] && b == s.free[0] {
        assert At(s, b, InFree);
      } else {
        assert At(s, b, p);
      }
    }
  }

  lemma StampBounded(s: State)
    requires Conserved(s) && Bounded(s) && Stamping(s.irq)
    ensures Bounded(StampStep(s))
  {
    var t := StampStep(s);
    assert At(s, s.irq.b, WithIrq) && Room(s.bufs[s.irq.b]);
    StampRoom(s);
    forall b: BufId, p | At(t, b, p) && RoomPlace(t, p)
      ensures Room(t.bufs[b])
    {
      assert At(s, b, p);
    }
  }

  lemma StampRoom(s: State)
    requires Stamping(s.irq) && Room(s.bufs[s.irq.b])
    ensures Room(StampStep(s).bufs[s.irq.b]) && SlotOk(StampStep(s).irq)
  {
  }

  /** The fill level moves only in `Bump`, and then there was room. */
  lemma BumpBounded(s: State, io: Io)
    requires Conserved(s) && Bounded(s) && s.irq.Bump?
    ensures Bounded(FillStep(s, io))
  {
    var t := FillStep(s, io);
    assert At(s, s.irq.b, WithIrq);
    assert Room(s.bufs[s.irq.b]);
    forall b: BufId, p | At(t, b, p) && RoomPlace(t, p)
      ensures Room(t.bufs[b])
    {
      assert At(s, b, p);
    }
  }

  lemma FillBounded(s: State, io: Io)
    requires Conserved(s) && TransferRecorded(s) && Bounded(s) && Filling(s.irq) && !s.irq.Bump?
    ensures Bounded(FillStep(s, io))
  {
    var t := FillStep(s, io);
    assert At(s, s.irq.b, WithIrq);
    forall b: BufId, p | At(t, b, p) && RoomPlace(t, p)
      ensures Room(t.bufs[b])
    {
      assert At(s, b, p);
    }
  }

  lemma HandBounded(s: State)
    requires Conserved(s) && Bounded(s) && Handing(s.irq)
    ensures Bounded(HandStep(s))
  {
    var t := HandStep(s);
    forall b: BufId, p | At(t, b, p) && RoomPlace(t, p)
      ensures Room(t.bufs[b])
    {
      if s.irq.PutActive? && b == s.irq.b {
        assert At(s, b, WithIrq);
      } else {
        assert At(s, b, p);
      }
    }
  }

  lemma ReadBounded(s: State, r: nat, copied: bool)
    requires Conserved(s) && Bounded(s) && r < |s.readers| && !s.readers[r].Outside?
    ensures Bounded(ReadStep(s, r, copied))
  {
    if Waiting(s.readers[r]) {
      WaitBounded(s, r, copied);
    } else if s.readers[r].Grab? {
      GrabBounded(s, r);
    } else if s.readers[r].Holding? {
      HoldingBounded(s, r, copied);
    } else if s.readers[r].Copying? {
      CopyBounded(s, r, copied);
    } else {
      DeliverBounded(s, r, copied);
    }
  }

  lemma WaitBounded(s: State, r: nat, copied: bool)
    requires Bounded(s) && r < |s.readers| && Waiting(s.readers[r])
    ensures Bounded(ReadStep(s, r, copied))
  {
    var t := SetReader(s, r, WaitTo(s, s.readers[r]));
    forall b: BufId, p | At(t, b, p) && RoomPlace(t, p)
      ensures Room(t.bufs[b])
    {
      assert At(s, b, p);
    }
  }

  lemma GrabBounded(s: State, r: nat)
    requires Conserved(s) && Bounded(s) && r < |s.readers| && s.readers[r].Grab?
    ensures Bounded(GrabStep(s, r))
  {
    var t := GrabStep(s, r);
    forall b: BufId, p | At(t, b, p) && RoomPlace(t, p)
      ensures Room(t.bufs[b])
    {
      assert At(s, b, p);
    }
  }

  lemma DeliverBounded(s: State, r: nat, copied: bool)
    requires Conserved(s) && Bounded(s) && r < |s.readers| && (s.readers[r].Clearing? || s.readers[r].Returning?)
    ensures Bounded(DeliverStep(s, r, copied))
  {
    var t, c := DeliverStep(s, r, copied), s.readers[r].b;
    assert At(s, c, WithReader(r));
    forall b: BufId, p | At(t, b, p) && RoomPlace(t, p)
      ensures Room(t.bufs[b])
    {
      if b != c {
        assert At(s, b, p);
      }
    }
  }

  lemma CopyBounded(s: State, r: nat, copied: bool)
    requires Bounded(s) && r < |s.readers| && s.readers[r].Copying?
    ensures Bounded(DeliverStep(s, r, copied))
  {
    var t := DeliverStep(s, r, copied);
    assert ReaderOk(s.readers[r]);
    forall b: BufId, p | At(t, b, p) && RoomPlace(t, p)
      ensures Room(t.bufs[b])
    {
      assert At(s, b, p);
    }
  }

  lemma HoldingBounded(s: State, r: nat, copied: bool)
    requires Conserved(s) && Bounded(s) && r < |s.readers| && s.readers[r].Holding?
    ensures Bounded(DeliverStep(s, r, copied))
  {
    var t := DeliverStep(s, r, copied);
    forall b: BufId, p | At(t, b, p) && RoomPlace(t, p)
      ensures Room(t.bufs[b])
    {
      assert At(s, b, p);
    }
  }

  lemma SweepBounded(s: State)
    requires Conserved(s) && Bounded(s) && Sweeping(s.ctl)
    ensures Bounded(SweepStep(s))
  {
    if CtlBuf(s.ctl).Some? {
      GiveBackBounded(s);
    } else if s.ctl.Sweep? {
      SweepFetchBounded(s);
    } else {
      SweepWakeBounded(s);
    }
  }

  lemma SweepFetchBounded(s: State)
    requires Bounded(s) && s.ctl.Sweep?
    ensures Bounded(SweepStep(s))
  {
    var t := SweepStep(s);
    assert t.readers == s.readers && t.bufs == s.bufs && t.free == s.free;
    forall b: BufId, p | At(t, b, p) && RoomPlace(t, p)
      ensures Room(t.bufs[b])
    {
      assert At(s, b, p);
    }
  }

  lemma SweepWakeBounded(s: State)
    requires Bounded(s) && s.ctl.SweepWake?
    ensures Bounded(SweepStep(s))
  {
    var t := SweepStep(s);
    forall b: BufId, p | At(t, b, p) && RoomPlace(t, p)
      ensures Room(t.bufs[b])
    {
      assert At(s, b, p);
    }
  }

  lemma GiveBackBounded(s: State)
    requires Conserved(s) && Bounded(s) && CtlBuf(s.ctl).Some?
    ensures Bounded(SweepStep(s))
  {
    var t, c := SweepStep(s), s.ctl.b;
    assert At(s, c, WithCtl);
    GiveBackRoom(s);
    forall b: BufId, p | At(t, b, p) && RoomPlace(t, p)
      ensures Room(t.bufs[b])
    {
      if b != c {
        assert At(s, b, p);
      }
    }
  }

  lemma GiveBackRoom(s: State)
    requires Bounded(s) && CtlBuf(s.ctl).Some?
    requires s.ctl.SweepReturn? ==> Room(s.bufs[s.ctl.b])
    ensures Room(SweepStep(s).bufs[s.ctl.b])
  {
  }

  /** A resize, timely or not, leaves room in every buffer it touches. */
  lemma ClearBounded(s: State, i: BufId, n: int, t: State)
    requires Bounded(s) && 1 <= n <= MAX_CHUNK_SZ
    requires t == ClearForSize(s, i, n) || (s.ctl.Resize? && t == ClearForSize(s, i, n).(ctl := Resize(n, s.ctl.i + 1)))
    ensures Bounded(t)
  {
    forall b: BufId, p | At(t, b, p) && RoomPlace(t, p)
      ensures Room(t.bufs[b])
    {
      if b != i {
        assert At(s, b, p);
      }
    }
  }

  lemma SwitchBounded(s: State, io: Io)
    requires Bounded(s) && Switching(s.ctl)
    ensures Bounded(SwitchStep(s, io))
  {
    var t := SwitchStep(s, io);
    forall b: BufId, p | At(t, b, p) && RoomPlace(t, p)
      ensures Room(t.bufs[b])
    {
      assert At(s, b, p);
    }
  }

  lemma CommandBounded(s: State, io: Io)
    requires Bounded(s) && Commanding(s.ctl)
    ensures Bounded(CommandStep(s, io))
  {
    var t := CommandStep(s, io);
    forall b: BufId, p | At(t, b, p) && RoomPlace(t, p)
      ensures Room(t.bufs[b])
    {
      assert At(s, b, p);
    }
  }

  lemma IrqBounded(s: State, io: Io)
    requires Conserved(s) && TransferRecorded(s) && Bounded(s) && !s.irq.IrqIdle?
    ensures Bounded(IrqStep(s, io))
  {
    if Fetching(s.irq) {
      FetchBounded(s);
    } else if Stamping(s.irq) {
      StampBounded(s);
    } else if s.irq.Bump? {
      BumpBounded(s, io);
    } else if Filling(s.irq) {
      FillBounded(s, io);
    } else {
      HandBounded(s);
    }
  }

  lemma CtlBounded(s: State, io: Io)
    requires Conserved(s) && Bounded(s) && !s.ctl.CtlIdle?
    ensures Bounded(CtlStep(s, io))
  {
    if Sweeping(s.ctl) {
      SweepBounded(s);
    } else if s.ctl.Resize? && s.ctl.i < CHUNK_BUF_CNT {
      ClearBounded(s, s.ctl.i, s.ctl.n, SizeStep(s));
    } else {
      OtherCtlBounded(s, io);
    }
  }

  lemma OtherCtlBounded(s: State, io: Io)
    requires Bounded(s) && !s.ctl.CtlIdle? && !Sweeping(s.ctl) && !(s.ctl.Resize? && s.ctl.i < CHUNK_BUF_CNT)
    ensures Bounded(CtlStep(s, io))
  {
    if Sizing(s.ctl) {
      PublishBounded(s);
    } else if Switching(s.ctl) {
      SwitchBounded(s, io);
    } else {
      CommandBounded(s, io);
    }
  }

  lemma PublishBounded(s: State)
    requires Bounded(s) && (s.ctl.Publish? || (s.ctl.Resize? && s.ctl.i >= CHUNK_BUF_CNT))
    ensures Bounded(SizeStep(s))
  {
    var t := SizeStep(s);
    forall b: BufId, p | At(t, b, p) && RoomPlace(t, p)
      ensures Room(t.bufs[b])
    {
      assert At(s, b, p);
    }
  }

  lemma EntryBounded(s: State, l: Label)
    requires Enabled(s, l) && Bounded(s)
    requires !l.StepIrq? && !l.StepRead? && !l.StepCtl? && !l.StrayClear?
    ensures Bounded(Step(s, l))
  {
    var t := Step(s, l);
    forall b: BufId, p | At(t, b, p) && RoomPlace(t, p)
      ensures Room(t.bufs[b])
    {
      assert At(s, b, p);
    }
  }

  lemma StepBounded(s: State, l: Label)
    requires Enabled(s, l) && Conserved(s) && TransferRecorded(s) && Bounded(s)
    ensures Bounded(Step(s, l))
  {
    match l
    case StepIrq(io) => IrqBounded(s, io);
    case StepRead(r, copied) => ReadBounded(s, r, copied);
    case StepCtl(io) => CtlBounded(s, io);
    case StrayClear(i, n) => ClearBounded(s, i, n, Step(s, l));
    case _ => EntryBounded(s, l);
  }
}

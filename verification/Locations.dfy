/**
  Location agreement: the fields of a chunk buffer always tell where it is.
  From here on a resize waits for its turn, like every other control call.
*/
module Locations {
  import opened Wrappers
  import opened Pipeline
  import opened Conservation
  import opened Bounds
  import opened StartStop

  predicate FreeBuf(buf: Buf) {
    buf.stat == StatFree && buf.idx == 0 && buf.xfer == None
  }

  predicate PartBuf(buf: Buf) {
    buf.stat == StatActive && buf.idx < buf.chunkSz && buf.xfer == None
  }

  predicate FullBuf(buf: Buf) {
    buf.stat == StatReady && buf.idx == buf.chunkSz && buf.xfer == None
  }

  predicate IrqHolds(irq: Irq, buf: Buf) {
    match irq
    case MarkActive(_) => buf.stat != StatReady && buf.xfer == None
    case Stamp(_, slot) => PartBuf(buf) && slot == buf.idx
    case ReadFrame(_, x) => PartBuf(buf.(xfer := None)) && buf.xfer == Some(x)
    case Abort(_, x) => PartBuf(buf.(xfer := None)) && buf.xfer == Some(x)
    case FindSlot(_, x, _) => PartBuf(buf.(xfer := None)) && buf.xfer == Some(x)
    case Decode(_, x, _, slot) => PartBuf(buf.(xfer := None)) && buf.xfer == Some(x) && slot == buf.idx
    case PutReady(_) => FullBuf(buf)
    case _ => PartBuf(buf)
  }

  predicate ReaderHolds(r: Reader, buf: Buf) {
    match r
    case Holding(_, _, chunk) => buf.stat == StatReady && buf.xfer == None && (buf.idx == |chunk| || buf.idx == 0)
    case Copying(_, _, chunk, got) => buf.stat == StatReady && buf.xfer == None && (got == |chunk| || got == 0)
    case Clearing(_) => buf.stat == StatReady && buf.xfer == None
    case _ => FreeBuf(buf)
  }

  predicate CtlHolds(ctl: Ctl, buf: Buf) {
    if ctl.SweepClear? then buf.xfer == None else FreeBuf(buf)
  }

  predicate Agrees(s: State, buf: Buf, p: Place) {
    match p
    case InFree => FreeBuf(buf)
    case InActive => PartBuf(buf)
    case InReady => FullBuf(buf)
    case WithIrq => IrqHolds(s.irq, buf)
    case WithReader(r) => r < |s.readers| && ReaderHolds(s.readers[r], buf)
    case WithCtl => CtlHolds(s.ctl, buf)
  }

  /** All buffers have the published size, except during a resize. */
  predicate SizeAgrees(s: State, b: BufId) {
    s.bufs[b].chunkSz ==
      if s.ctl.Publish? || (s.ctl.Resize? && b < s.ctl.i) then s.ctl.n else s.chunkSz
  }

  /** At most one buffer is being filled. */
  predicate OneFilling(s: State) {
    && (IrqBuf(s.irq).Some? ==> s.active == [])
    && |s.active| <= 1
    && (s.irq.FetchFree? || s.irq.CountDrop? ==> s.active == [])
  }

  ghost predicate Located(s: State) {
    && (forall b: BufId, p :: At(s, b, p) ==> Agrees(s, s.bufs[b], p))
    && (forall b: BufId :: SizeAgrees(s, b))
    && OneFilling(s)
  }

  ghost predicate Sound(s: State) {
    Conserved(s) && TransferRecorded(s) && PoolConserved(s) && Bounded(s) && StartStop.Protocol(s) && Located(s)
  }

  lemma FetchLocated(s: State)
    requires Sound(s) && Fetching(s.irq)
    ensures Located(FetchStep(s))
  {
    var t := FetchStep(s);
    forall b: BufId, p | At(t, b, p)
      ensures Agrees(t, t.bufs[b], p)
    {
      if s.irq.FetchActive? && s.active != [] && b == s.active[0] {
        assert At(s, b, InActive);
        Tail(s.active);
        assert p == WithIrq || At(s, b, p);
      } else if s.irq.FetchFree? && s.free != [] && b == s.free[0] {
        assert At(s, b, InFree);
        Tail(s.free);
        assert p == WithIrq || At(s, b, p);
      } else {
        assert At(s, b, p);
      }
    }
    assert forall b: BufId :: SizeAgrees(s, b) ==> SizeAgrees(t, b);
  }

  lemma StampLocated(s: State)
    requires Sound(s) && Stamping(s.irq)
    ensures Located(StampStep(s))
  {
    var t := StampStep(s);
    assert At(s, s.irq.b, WithIrq) && Room(s.bufs[s.irq.b]);
    PoolSuffices(s);
    forall b: BufId, p | At(t, b, p)
      ensures Agrees(t, t.bufs[b], p)
    {
      assert At(s, b, p);
    }
    assert forall b: BufId :: SizeAgrees(s, b) ==> SizeAgrees(t, b);
  }

  lemma BumpLocated(s: State, io: Io)
    requires Sound(s) && s.irq.Bump?
    ensures Located(FillStep(s, io))
  {
    var t := FillStep(s, io);
    assert At(s, s.irq.b, WithIrq) && Room(s.bufs[s.irq.b]);
    forall b: BufId, p | At(t, b, p)
      ensures Agrees(t, t.bufs[b], p)
    {
      assert At(s, b, p);
    }
    assert forall b: BufId :: SizeAgrees(s, b) ==> SizeAgrees(t, b);
  }

  lemma FillLocated(s: State, io: Io)
    requires Sound(s) && Filling(s.irq) && !s.irq.Bump?
    ensures Located(FillStep(s, io))
  {
    var t := FillStep(s, io);
    FillAgrees(s, io);
    forall b: BufId, p | At(t, b, p)
      ensures Agrees(t, t.bufs[b], p)
    {
      assert At(s, b, p);
    }
    assert forall b: BufId :: SizeAgrees(s, b) ==> SizeAgrees(t, b);
  }

  /** The buffer being filled, at the next point of the IRQ thread. */
  lemma FillAgrees(s: State, io: Io)
    requires Conserved(s) && Located(s) && TransferRecorded(s) && Filling(s.irq) && !s.irq.Bump?
    ensures var t := FillStep(s, io);
      && IrqBuf(t.irq) == Some(s.irq.b) && IrqHolds(t.irq, t.bufs[s.irq.b])
      && t.bufs[s.irq.b].chunkSz == s.bufs[s.irq.b].chunkSz
  {
    assert At(s, s.irq.b, WithIrq);
    assert Agrees(s, s.bufs[s.irq.b], WithIrq);
    FillHolds(s, io);
  }

  lemma FillHolds(s: State, io: Io)
    requires TransferRecorded(s) && Filling(s.irq) && !s.irq.Bump? && IrqHolds(s.irq, s.bufs[s.irq.b])
    ensures var t := FillStep(s, io);
      && IrqBuf(t.irq) == Some(s.irq.b) && IrqHolds(t.irq, t.bufs[s.irq.b])
      && t.bufs[s.irq.b].chunkSz == s.bufs[s.irq.b].chunkSz
  {
  }

  lemma HandLocated(s: State)
    requires Sound(s) && Handing(s.irq)
    ensures Located(HandStep(s))
  {
    var t := HandStep(s);
    forall b: BufId, p | At(t, b, p)
      ensures Agrees(t, t.bufs[b], p)
    {
      if !s.irq.WakeReaders? && b == s.irq.b {
        assert At(s, b, WithIrq);
        assert p == (if s.irq.PutActive? then InActive else InReady) || At(s, b, p);
      } else {
        assert At(s, b, p);
      }
    }
    assert forall b: BufId :: SizeAgrees(s, b) ==> SizeAgrees(t, b);
  }

  lemma WaitLocated(s: State, r: nat, copied: bool)
    requires Sound(s) && r < |s.readers| && Waiting(s.readers[r])
    ensures Located(ReadStep(s, r, copied))
  {
    var t := ReadStep(s, r, copied);
    forall b: BufId, p | At(t, b, p)
      ensures Agrees(t, t.bufs[b], p)
    {
      assert At(s, b, p);
    }
    assert forall b: BufId :: SizeAgrees(s, b) ==> SizeAgrees(t, b);
  }

  lemma GrabLocated(s: State, r: nat)
    requires Sound(s) && r < |s.readers| && s.readers[r].Grab?
    ensures Located(GrabStep(s, r))
  {
    var t := GrabStep(s, r);
    forall b: BufId, p | At(t, b, p)
      ensures Agrees(t, t.bufs[b], p)
    {
      if s.ready != [] && b == s.ready[0] {
        assert At(s, b, InReady);
        assert p == WithReader(r) || At(s, b, p);
        Tail(s.ready);
      } else {
        assert At(s, b, p);
      }
    }
    assert forall b: BufId :: SizeAgrees(s, b) ==> SizeAgrees(t, b);
  }

  lemma DeliverLocated(s: State, r: nat, copied: bool)
    requires Sound(s) && r < |s.readers| && ReaderBuf(s.readers[r]).Some?
    ensures Located(DeliverStep(s, r, copied))
  {
    if s.readers[r].Returning? {
      ReturnLocated(s, r, copied);
    } else {
      HeldLocated(s, r, copied);
    }
  }

  lemma ReturnLocated(s: State, r: nat, copied: bool)
    requires Sound(s) && r < |s.readers| && s.readers[r].Returning?
    ensures Located(DeliverStep(s, r, copied))
  {
    var t, c := DeliverStep(s, r, copied), s.readers[r].b;
    assert At(s, c, WithReader(r));
    forall b: BufId, p | At(t, b, p)
      ensures Agrees(t, t.bufs[b], p)
    {
      assert At(s, b, p) || (b == c && p == InFree);
    }
    assert forall b: BufId :: SizeAgrees(s, b) ==> SizeAgrees(t, b);
  }

  lemma HeldLocated(s: State, r: nat, copied: bool)
    requires Sound(s) && r < |s.readers| && ReaderBuf(s.readers[r]).Some? && !s.readers[r].Returning?
    ensures Located(DeliverStep(s, r, copied))
  {
    var t, c := DeliverStep(s, r, copied), ReaderBuf(s.readers[r]).value;
    assert At(s, c, WithReader(r));
    forall b: BufId, p | At(t, b, p)
      ensures Agrees(t, t.bufs[b], p)
    {
      assert At(s, b, p);
    }
    assert forall b: BufId :: SizeAgrees(s, b) ==> SizeAgrees(t, b);
  }

  lemma SweepLocated(s: State)
    requires Sound(s) && Sweeping(s.ctl)
    ensures Located(SweepStep(s))
  {
    if s.ctl.Sweep? {
      SweepFetchLocated(s);
    } else {
      SweepRestLocated(s);
    }
  }

  lemma SweepFetchLocated(s: State)
    requires Sound(s) && s.ctl.Sweep?
    ensures Located(SweepStep(s))
  {
    var t := SweepStep(s);
    forall b: BufId, p | At(t, b, p)
      ensures Agrees(t, t.bufs[b], p)
    {
      if p == WithCtl {
        assert At(s, b, if s.ctl.active then InActive else InReady);
      } else {
        assert At(s, b, p);
      }
    }
    assert forall b: BufId :: SizeAgrees(s, b) ==> SizeAgrees(t, b);
  }

  lemma SweepRestLocated(s: State)
    requires Sound(s) && Sweeping(s.ctl) && !s.ctl.Sweep?
    ensures Located(SweepStep(s))
  {
    var t := SweepStep(s);
    forall b: BufId, p | At(t, b, p)
      ensures Agrees(t, t.bufs[b], p)
    {
      if CtlBuf(s.ctl) == Some(b) {
        assert At(s, b, WithCtl);
        assert p == InFree || At(s, b, p);
      } else {
        assert At(s, b, p);
      }
    }
    assert forall b: BufId :: SizeAgrees(s, b) ==> SizeAgrees(t, b);
  }

  /** A resize meets only free buffers and buffers held by readers. */
  lemma SizeLocated(s: State)
    requires Sound(s) && Sizing(s.ctl)
    ensures Located(SizeStep(s))
  {
    var t := SizeStep(s);
    forall b: BufId, p | At(t, b, p)
      ensures Agrees(t, t.bufs[b], p)
    {
      assert At(s, b, p);
    }
    forall b: BufId
      ensures SizeAgrees(t, b)
    {
      assert SizeAgrees(s, b);
    }
  }

  lemma OtherCtlLocated(s: State, io: Io)
    requires Sound(s) && (Switching(s.ctl) || Commanding(s.ctl))
    ensures Located(CtlStep(s, io))
  {
    if Switching(s.ctl) {
      SwitchLocated(s, io);
    } else {
      CommandLocated(s, io);
    }
  }

  lemma SwitchLocated(s: State, io: Io)
    requires Sound(s) && Switching(s.ctl)
    ensures Located(SwitchStep(s, io))
  {
    SwitchHoldsNone(s, io);
    ListsLocated(s, SwitchStep(s, io));
  }

  lemma CommandLocated(s: State, io: Io)
    requires Sound(s) && Commanding(s.ctl)
    ensures Located(CommandStep(s, io))
  {
    CommandHoldsNone(s, io);
    ListsLocated(s, CommandStep(s, io));
  }

  /** The control call holds no buffer, and only it has moved. */
  lemma ListsLocated(s: State, t: State)
    requires Located(s) && t.free == s.free && t.active == s.active && t.ready == s.ready
    requires t.bufs == s.bufs && t.irq == s.irq && t.readers == s.readers && t.chunkSz == s.chunkSz
    requires CtlBuf(t.ctl).None? && !s.ctl.Publish? && !s.ctl.Resize?
    requires !t.ctl.Publish? && (t.ctl.Resize? ==> t.ctl.i == 0)
    ensures Located(t)
  {
    forall b: BufId, p | At(t, b, p)
      ensures Agrees(t, t.bufs[b], p)
    {
      assert At(s, b, p);
    }
    forall b: BufId
      ensures SizeAgrees(t, b)
    {
      assert SizeAgrees(s, b);
    }
  }

  lemma EntryLocated(s: State, l: Label)
    requires Enabled(s, l) && Sound(s)
    requires !l.StepIrq? && !l.StepRead? && !l.StepCtl? && !l.StrayClear? && !l.StrayPublish?
    ensures Located(Step(s, l))
  {
    var t := Step(s, l);
    forall b: BufId, p | At(t, b, p)
      ensures Agrees(t, t.bufs[b], p)
    {
      assert At(s, b, p);
    }
    assert forall b: BufId :: SizeAgrees(s, b) ==> SizeAgrees(t, b);
  }

  lemma IrqLocated(s: State, io: Io)
    requires Sound(s) && !s.irq.IrqIdle?
    ensures Located(IrqStep(s, io))
  {
    if Fetching(s.irq) {
      FetchLocated(s);
    } else if Stamping(s.irq) {
      StampLocated(s);
    } else if s.irq.Bump? {
      BumpLocated(s, io);
    } else if Filling(s.irq) {
      FillLocated(s, io);
    } else {
      HandLocated(s);
    }
  }

  lemma ReadLocated(s: State, r: nat, copied: bool)
    requires Sound(s) && r < |s.readers| && !s.readers[r].Outside?
    ensures Located(ReadStep(s, r, copied))
  {
    if Waiting(s.readers[r]) {
      WaitLocated(s, r, copied);
    } else if s.readers[r].Grab? {
      GrabLocated(s, r);
    } else {
      DeliverLocated(s, r, copied);
    }
  }

  lemma CtlLocated(s: State, io: Io)
    requires Sound(s) && !s.ctl.CtlIdle?
    ensures Located(CtlStep(s, io))
  {
    if Sweeping(s.ctl) {
      SweepLocated(s);
    } else if Sizing(s.ctl) {
      SizeLocated(s);
    } else {
      OtherCtlLocated(s, io);
    }
  }

  lemma StepLocated(s: State, l: Label)
    requires Enabled(s, l) && Sound(s) && !l.StrayClear? && !l.StrayPublish?
    ensures Located(Step(s, l))
  {
    match l
    case StepIrq(io) => IrqLocated(s, io);
    case StepRead(r, copied) => ReadLocated(s, r, copied);
    case StepCtl(io) => CtlLocated(s, io);
    case _ => EntryLocated(s, l);
  }
}

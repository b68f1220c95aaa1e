/**
  The sample stream.  Every frame read without error, with the time stamp of its own DRDY
  edge, is in exactly one spot of one sequence: first the chunks that were fetched, in
  fetch order, then the ready list, then the buffer being filled.
*/
module Stream {
  import opened Wrappers
  import opened Codec
  import opened Pipeline
  import opened Conservation
  import opened Bounds
  import opened Locations

  function Flat(taken: seq<Chunk>): seq<Sample> {
    if taken == [] then [] else Flat(taken[..|taken| - 1]) + taken[|taken| - 1].samples
  }

  function Content(bufs: Bufs, l: seq<BufId>): seq<Sample> {
    if l == [] then [] else Content(bufs, l[..|l| - 1]) + bufs[l[|l| - 1]].Filled()
  }

  /** The slot the next sample goes to. */
  function NextSlot(buf: Buf): Sample {
    if 0 <= buf.idx < MAX_CHUNK_SZ then buf.data[buf.idx] else Sample(0, [])
  }

  /** The frame received but not yet counted in its buffer. */
  function InFlight(s: State): seq<Sample> {
    match s.irq
    case FindSlot(_, _, rx) => [Sample(s.h.eventTs, Channels(rx))]
    case Decode(_, _, rx, _) => [Sample(s.h.eventTs, Channels(rx))]
    case Bump(b) => [NextSlot(s.bufs[b])]
    case _ => []
  }

  function IrqTail(s: State): seq<Sample> {
    match IrqBuf(s.irq)
    case None => []
    case Some(b) => s.bufs[b].Filled() + InFlight(s)
  }

  function Pending(s: State): seq<Sample> {
    Content(s.bufs, s.ready) + Content(s.bufs, s.active) + IrqTail(s)
  }

  predicate InOrder(s: State) {
    s.h.frames == Flat(s.h.taken) + Pending(s)
  }

  /** The slot being filled carries the time stamp of the edge being served. */
  predicate Stamped(s: State) {
    && (!s.irq.IrqIdle? ==> s.smplTs == s.h.eventTs)
    && match s.irq
       case TakeXfer(b) => NextSlot(s.bufs[b]).ts == s.h.eventTs
       case ReadFrame(b, _) => NextSlot(s.bufs[b]).ts == s.h.eventTs
       case FindSlot(b, _, _) => NextSlot(s.bufs[b]).ts == s.h.eventTs
       case Decode(b, _, _, _) => NextSlot(s.bufs[b]).ts == s.h.eventTs
       case _ => true
  }

  // ----- sequences -----

  lemma {:induction false} ContentFrame(a: Bufs, b: Bufs, l: seq<BufId>)
    requires forall c :: c in l ==> a[c].Filled() == b[c].Filled()
    ensures Content(a, l) == Content(b, l)
  {
    if l != [] {
      ContentFrame(a, b, l[..|l| - 1]);
    }
  }

  lemma {:induction false} ContentHead(bufs: Bufs, l: seq<BufId>)
    requires l != []
    ensures Content(bufs, l) == bufs[l[0]].Filled() + Content(bufs, l[1..])
  {
    var m := |l| - 1;
    if m == 0 {
      assert Content(bufs, l[..m]) == [] && Content(bufs, l[1..]) == [];
    } else {
      ContentHead(bufs, l[..m]);
      assert l[..m][1..] == l[1..][..m - 1];
      assert Content(bufs, l[1..]) == Content(bufs, l[1..][..m - 1]) + bufs[l[m]].Filled();
      Associates(bufs[l[0]].Filled(), Content(bufs, l[..m][1..]), bufs[l[m]].Filled());
    }
  }

  lemma ContentSnoc(bufs: Bufs, l: seq<BufId>, b: BufId)
    ensures Content(bufs, l + [b]) == Content(bufs, l) + bufs[b].Filled()
  {
    assert (l + [b])[..|l|] == l;
  }

  lemma FlatSnoc(taken: seq<Chunk>, c: Chunk)
    ensures Flat(taken + [c]) == Flat(taken) + c.samples
  {
    assert (taken + [c])[..|taken|] == taken;
  }

  lemma {:induction false} FlatConcat(a: seq<Chunk>, b: seq<Chunk>)
    ensures Flat(a + b) == Flat(a) + Flat(b)
  {
    if b == [] {
      assert a + b == a;
    } else {
      var m := |b| - 1;
      FlatConcat(a, b[..m]);
      assert (a + b)[..|a + b| - 1] == a + b[..m];
      Associates(Flat(a), Flat(b[..m]), b[m].samples);
    }
  }

  lemma Associates(a: seq<Sample>, b: seq<Sample>, c: seq<Sample>)
    ensures (a + b) + c == a + (b + c)
  {
  }

  /** A chunk fetched from the front of `c + r`. */
  lemma RegroupTaken(f: seq<Sample>, c: seq<Sample>, r: seq<Sample>, a: seq<Sample>, i: seq<Sample>)
    ensures f + ((c + r) + a + i) == (f + c) + (r + a + i)
  {
  }

  /** A full buffer moves from the interrupt to the end of the ready list. */
  lemma RegroupHanded(r: seq<Sample>, i: seq<Sample>)
    ensures r + [] + i == (r + i) + [] + []
    ensures r + [] + i == r + ([] + i) + []
    ensures r + [] + i == r + (i + []) + []
  {
  }

  // ----- the interrupt -----

  lemma FetchInOrder(s: State)
    requires Sound(s) && InOrder(s) && Fetching(s.irq)
    ensures InOrder(FetchStep(s))
  {
    var t := FetchStep(s);
    if s.irq.FetchActive? && s.active != [] {
      ActiveResumed(s);
    } else if s.irq.FetchFree? && s.free != [] {
      assert At(s, s.free[0], InFree);
      assert IrqTail(t) == [];
    } else {
      assert IrqTail(t) == IrqTail(s);
    }
  }

  /** The partly filled buffer is taken up again. */
  lemma ActiveResumed(s: State)
    requires Sound(s) && s.irq.FetchActive? && s.active != []
    ensures Pending(FetchStep(s)) == Pending(s)
  {
    var t := FetchStep(s);
    ContentHead(s.bufs, s.active);
    assert s.active[1..] == [];
    var r, i := Content(s.bufs, s.ready), s.bufs[s.active[0]].Filled();
    RegroupHanded(r, i);
    assert IrqTail(s) == [] && IrqTail(t) == i && Content(s.bufs, []) == [];
    assert Pending(s) == r + (i + []) + [] && Pending(t) == r + [] + i;
  }

  lemma StampInOrder(s: State)
    requires Sound(s) && InOrder(s) && Stamping(s.irq)
    ensures InOrder(StampStep(s))
  {
    var t, b := StampStep(s), s.irq.b;
    StampTail(s);
    IrqBufApart(s, b);
    ContentFrame(s.bufs, t.bufs, s.ready);
  }

  lemma StampTail(s: State)
    requires Sound(s) && Stamping(s.irq)
    ensures IrqTail(StampStep(s)) == IrqTail(s)
  {
    var t, b := StampStep(s), s.irq.b;
    assert At(s, b, WithIrq);
    PoolSuffices(s);
    assert t.bufs[b].Filled() == s.bufs[b].Filled();
  }

  /** A frame that arrives is at once the last one of the stream. */
  lemma ArriveInOrder(s: State, io: Io)
    requires Sound(s) && InOrder(s) && s.irq.ReadFrame? && io.Ok?
    ensures InOrder(FillStep(s, io))
  {
    var t := FillStep(s, io);
    assert t.h.frames == s.h.frames + InFlight(t);
    assert IrqTail(t) == IrqTail(s) + InFlight(t);
  }

  lemma FillInOrder(s: State, io: Io)
    requires Sound(s) && Stamped(s) && InOrder(s) && Filling(s.irq) && !s.irq.Bump? && !(s.irq.ReadFrame? && io.Ok?)
    ensures InOrder(FillStep(s, io))
  {
    var t, b := FillStep(s, io), s.irq.b;
    FillTail(s, io);
    IrqBufApart(s, b);
    ContentFrame(s.bufs, t.bufs, s.ready);
  }

  lemma FillTail(s: State, io: Io)
    requires Sound(s) && Stamped(s) && Filling(s.irq) && !s.irq.Bump? && !(s.irq.ReadFrame? && io.Ok?)
    ensures IrqTail(FillStep(s, io)) == IrqTail(s)
  {
    var b := s.irq.b;
    assert At(s, b, WithIrq) && Room(s.bufs[b]) && IrqHolds(s.irq, s.bufs[b]);
    if s.irq.Decode? {
      DecodeTail(s, io);
    } else {
      assert FillStep(s, io).bufs[b].Filled() == s.bufs[b].Filled();
    }
  }

  /** The values join the time stamp that is already in the slot. */
  lemma DecodeTail(s: State, io: Io)
    requires Stamped(s) && s.irq.Decode? && Room(s.bufs[s.irq.b]) && IrqHolds(s.irq, s.bufs[s.irq.b])
    ensures IrqTail(FillStep(s, io)) == IrqTail(s)
  {
    var t, b := FillStep(s, io), s.irq.b;
    assert t.bufs[b].Filled() == s.bufs[b].Filled();
    assert NextSlot(t.bufs[b]) == Sample(s.h.eventTs, Channels(s.irq.rx));
  }

  lemma BumpInOrder(s: State, io: Io)
    requires Sound(s) && InOrder(s) && s.irq.Bump?
    ensures InOrder(FillStep(s, io))
  {
    var t, b := FillStep(s, io), s.irq.b;
    BumpTail(s, io);
    IrqBufApart(s, b);
    ContentFrame(s.bufs, t.bufs, s.ready);
  }

  lemma BumpTail(s: State, io: Io)
    requires Sound(s) && s.irq.Bump?
    ensures IrqTail(FillStep(s, io)) == IrqTail(s)
  {
    var t, b := FillStep(s, io), s.irq.b;
    assert At(s, b, WithIrq) && Room(s.bufs[b]);
    BumpFills(s, io);
    assert t.bufs[b].Filled() == s.bufs[b].Filled() + [NextSlot(s.bufs[b])];
    assert IrqTail(t) == t.bufs[b].Filled() + [];
  }

  lemma BumpFills(s: State, io: Io)
    requires s.irq.Bump?
    ensures var t, b := FillStep(s, io), s.irq.b;
      && (t.irq == PutReady(b) || t.irq == PutActive(b))
      && t.bufs[b].data == s.bufs[b].data && t.bufs[b].idx == s.bufs[b].idx + 1
  {
  }

  lemma IrqBufApart(s: State, b: BufId)
    requires Conserved(s) && IrqBuf(s.irq) == Some(b)
    ensures b !in s.ready && b !in s.active
  {
    assert At(s, b, WithIrq) && !At(s, b, InReady) && !At(s, b, InActive);
  }

  lemma HandInOrder(s: State)
    requires Sound(s) && InOrder(s) && Handing(s.irq)
    ensures InOrder(HandStep(s))
  {
    var t := HandStep(s);
    if s.irq.PutActive? || s.irq.PutReady? {
      HandKeepsPending(s);
    } else {
      assert Pending(t) == Pending(s);
    }
  }

  lemma HandKeepsPending(s: State)
    requires s.active == [] && (s.irq.PutActive? || s.irq.PutReady?)
    ensures Pending(HandStep(s)) == Pending(s)
  {
    var t, b := HandStep(s), s.irq.b;
    var r, i := Content(s.bufs, s.ready), s.bufs[b].Filled();
    HandTail(s);
    if s.irq.PutActive? {
      assert t.active == [b] && t.ready == s.ready;
      ContentOne(s.bufs, b);
    } else {
      assert t.ready == s.ready + [b] && t.active == [];
      ContentSnoc(s.bufs, s.ready, b);
    }
    SamePending(s, t, r, i);
  }

  lemma HandTail(s: State)
    requires s.irq.PutActive? || s.irq.PutReady?
    ensures IrqTail(s) == s.bufs[s.irq.b].Filled() && IrqTail(HandStep(s)) == []
  {
    assert s.bufs[s.irq.b].Filled() + [] == s.bufs[s.irq.b].Filled();
  }

  lemma ContentOne(bufs: Bufs, b: BufId)
    ensures Content(bufs, [b]) == bufs[b].Filled()
  {
    assert [b][..0] == [];
    assert [] + bufs[b].Filled() == bufs[b].Filled();
  }

  /** The buffer of the interrupt goes to the end of the active or of the ready list. */
  lemma SamePending(s: State, t: State, r: seq<Sample>, i: seq<Sample>)
    requires Content(s.bufs, s.ready) == r && Content(s.bufs, s.active) == [] && IrqTail(s) == i
    requires IrqTail(t) == []
    requires
      || (Content(t.bufs, t.ready) == r && Content(t.bufs, t.active) == i)
      || (Content(t.bufs, t.ready) == r + i && Content(t.bufs, t.active) == [])
    ensures Pending(t) == Pending(s)
  {
    assert r + [] + i == r + i + [] == (r + i) + [] + [];
  }

  lemma IrqInOrder(s: State, io: Io)
    requires Sound(s) && Stamped(s) && InOrder(s) && !s.irq.IrqIdle?
    ensures InOrder(IrqStep(s, io))
  {
    if Fetching(s.irq) {
      FetchInOrder(s);
    } else if Stamping(s.irq) {
      StampInOrder(s);
    } else if s.irq.Bump? {
      BumpInOrder(s, io);
    } else if s.irq.ReadFrame? && io.Ok? {
      ArriveInOrder(s, io);
    } else if Filling(s.irq) {
      FillInOrder(s, io);
    } else {
      HandInOrder(s);
    }
  }

  // ----- fetching from the ready list -----

  lemma TakeInOrder(s: State, t: State, byReader: bool)
    requires InOrder(s) && s.ready != [] && t.ready == s.ready[1..] && t.active == s.active
    requires t.bufs == s.bufs && t.irq == s.irq && t.h.eventTs == s.h.eventTs && t.h.frames == s.h.frames
    requires t.h.taken == s.h.taken + [Chunk(byReader, s.chunkSz, s.bufs[s.ready[0]].Filled())]
    ensures InOrder(t)
  {
    var c := Chunk(byReader, s.chunkSz, s.bufs[s.ready[0]].Filled());
    FlatSnoc(s.h.taken, c);
    ContentHead(s.bufs, s.ready);
    assert IrqTail(t) == IrqTail(s);
    RegroupTaken(Flat(s.h.taken), c.samples, Content(t.bufs, t.ready), Content(t.bufs, t.active), IrqTail(t));
  }

  /** Writing to a buffer that is on neither list, nor with the interrupt, does not touch the stream. */
  lemma KeepsOrder(s: State, t: State)
    requires InOrder(s) && t.ready == s.ready && t.active == s.active && t.irq == s.irq
    requires t.h.eventTs == s.h.eventTs && t.h.frames == s.h.frames && t.h.taken == s.h.taken
    requires forall b :: b in s.ready || b in s.active || IrqBuf(s.irq) == Some(b) ==> t.bufs[b] == s.bufs[b]
    ensures InOrder(t)
  {
    ContentFrame(s.bufs, t.bufs, s.ready);
    ContentFrame(s.bufs, t.bufs, s.active);
    assert IrqTail(t) == IrqTail(s);
  }

  lemma ReadInOrder(s: State, r: nat, copied: bool)
    requires Sound(s) && InOrder(s) && r < |s.readers| && !s.readers[r].Outside?
    ensures InOrder(ReadStep(s, r, copied))
  {
    if Waiting(s.readers[r]) {
      KeepsOrder(s, ReadStep(s, r, copied));
    } else if s.readers[r].Grab? {
      var t := GrabStep(s, r);
      if s.ready == [] {
        KeepsOrder(s, t);
      } else {
        TakeInOrder(s, t, true);
      }
    } else {
      DeliverInOrder(s, r, copied);
    }
  }

  lemma DeliverInOrder(s: State, r: nat, copied: bool)
    requires Sound(s) && InOrder(s) && r < |s.readers| && ReaderBuf(s.readers[r]).Some?
    ensures InOrder(DeliverStep(s, r, copied))
  {
    var t, c := DeliverStep(s, r, copied), ReaderBuf(s.readers[r]).value;
    assert At(s, c, WithReader(r));
    assert !At(s, c, InReady) && !At(s, c, InActive) && !At(s, c, WithIrq);
    KeepsOrder(s, t);
  }

  /** The cleanup reaches the active list once the ready list is empty and the interrupt gone. */
  lemma SweepActiveInOrder(s: State)
    requires Sound(s) && InOrder(s) && s.ctl.Sweep? && s.ctl.active && s.active != []
    ensures InOrder(SweepStep(s))
  {
    var t, c := SweepStep(s), Chunk(false, s.chunkSz, s.bufs[s.active[0]].Filled());
    FlatSnoc(s.h.taken, c);
    ContentHead(s.bufs, s.active);
    assert s.ready == [] && IrqTail(s) == [] == IrqTail(t);
    assert Content(s.bufs, []) == [];
    assert s.active[1..] == [];
  }

  lemma SweepInOrder(s: State)
    requires Sound(s) && InOrder(s) && Sweeping(s.ctl)
    ensures InOrder(SweepStep(s))
  {
    var t := SweepStep(s);
    match s.ctl
    case Sweep(_, active) =>
      if !active && s.ready != [] {
        TakeInOrder(s, t, false);
      } else if active && s.active != [] {
        SweepActiveInOrder(s);
      } else {
        KeepsOrder(s, t);
      }
    case SweepClear(_, _, b) =>
      assert At(s, b, WithCtl);
      assert !At(s, b, InReady) && !At(s, b, InActive) && !At(s, b, WithIrq);
      KeepsOrder(s, t);
    case _ =>
      KeepsOrder(s, t);
  }

  lemma CtlInOrder(s: State, io: Io)
    requires Sound(s) && InOrder(s) && !s.ctl.CtlIdle?
    ensures InOrder(CtlStep(s, io))
  {
    if Switching(s.ctl) {
      KeepsOrder(s, SwitchStep(s, io));
    } else if Sweeping(s.ctl) {
      SweepInOrder(s);
    } else if Commanding(s.ctl) {
      KeepsOrder(s, CommandStep(s, io));
    } else {
      KeepsOrder(s, SizeStep(s));
    }
  }

  lemma StepInOrder(s: State, l: Label)
    requires Enabled(s, l) && Sound(s) && Stamped(s) && InOrder(s) && !l.StrayClear? && !l.StrayPublish?
    ensures InOrder(Step(s, l))
  {
    match l
    case StepIrq(io) => IrqInOrder(s, io);
    case StepRead(r, copied) => ReadInOrder(s, r, copied);
    case StepCtl(io) => CtlInOrder(s, io);
    case Drdy(_) =>
      var t := Step(s, l);
      assert IrqTail(t) == [] == IrqTail(s);
    case Call(_, _) => KeepsOrder(s, Step(s, l));
    case Signal(_) => KeepsOrder(s, Step(s, l));
    case Open => KeepsOrder(s, Step(s, l));
    case Release => KeepsOrder(s, Step(s, l));
    case Released => KeepsOrder(s, Step(s, l));
    case Ioctl(_) => KeepsOrder(s, Step(s, l));
    case _ =>
  }

  // ----- time stamps -----

  lemma IrqStamped(s: State, io: Io)
    requires Sound(s) && Stamped(s) && !s.irq.IrqIdle?
    ensures Stamped(IrqStep(s, io))
  {
    if Fetching(s.irq) {
      assert Stamped(FetchStep(s));
    } else if Stamping(s.irq) {
      StampStamped(s);
    } else if Filling(s.irq) {
      FillStamped(s, io);
    } else {
      assert Stamped(HandStep(s));
    }
  }

  lemma StampStamped(s: State)
    requires Sound(s) && Stamped(s) && Stamping(s.irq)
    ensures Stamped(StampStep(s))
  {
    assert At(s, s.irq.b, WithIrq) && Room(s.bufs[s.irq.b]);
  }

  lemma FillStamped(s: State, io: Io)
    requires Sound(s) && Stamped(s) && Filling(s.irq)
    ensures Stamped(FillStep(s, io))
  {
  }

  lemma StepStamped(s: State, l: Label)
    requires Enabled(s, l) && Sound(s) && Stamped(s) && !l.StrayClear? && !l.StrayPublish?
    ensures Stamped(Step(s, l))
  {
    match l
    case StepIrq(io) => IrqStamped(s, io);
    case StepRead(r, copied) =>
      if IrqBuf(s.irq).Some? {
        var b := IrqBuf(s.irq).value;
        assert At(s, b, WithIrq) && !At(s, b, WithReader(r));
        ReadWrites(s, r, copied, b);
      }
    case StepCtl(io) =>
      if IrqBuf(s.irq).Some? {
        var b := IrqBuf(s.irq).value;
        assert At(s, b, WithIrq) && !At(s, b, WithCtl);
        CtlWrites(s, io, b);
      }
    case _ =>
  }
}

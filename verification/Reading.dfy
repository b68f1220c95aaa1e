/**
  What the callers of `read` get: whole chunks, in one piece, and every sample accounted for.
*/
module Reading {
  import opened Wrappers
  import opened Pipeline
  import opened Conservation
  import opened Bounds
  import opened Locations

  // ----- chunks -----

  /** `chunk` was fetched from the ready list by a reader. */
  ghost predicate FromReady(taken: seq<Chunk>, chunk: seq<Sample>) {
    exists i :: 0 <= i < |taken| && taken[i].byReader && taken[i].samples == chunk
  }

  /** A reader's chunk stays in its buffer until it has been copied. */
  ghost predicate KeepsChunk(s: State, r: Reader) {
    match r
    case Holding(_, b, chunk) =>
      |chunk| <= MAX_CHUNK_SZ && s.bufs[b].data[..|chunk|] == chunk && FromReady(s.h.taken, chunk)
    case Copying(_, b, chunk, _) =>
      |chunk| <= MAX_CHUNK_SZ && s.bufs[b].data[..|chunk|] == chunk && FromReady(s.h.taken, chunk)
    case _ => true
  }

  /** As long as no resize has hit a buffer in a reader's hands, its fill level is that of the chunk. */
  predicate Unharmed(s: State, r: Reader) {
    match r
    case Holding(_, b, chunk) => s.bufs[b].idx == |chunk|
    case Copying(_, _, chunk, got) => got == |chunk|
    case _ => true
  }

  ghost predicate Genuine(s: State, d: Delivery) {
    && FromReady(s.h.taken, d.chunk)
    && (d.samples == d.chunk[..Min(d.max, |d.chunk|)] || (d.samples == [] && s.h.clashes > 0))
  }

  ghost predicate ChunksOk(s: State) {
    && (forall r :: 0 <= r < |s.readers| ==> KeepsChunk(s, s.readers[r]))
    && (s.h.clashes == 0 ==> forall r :: 0 <= r < |s.readers| ==> Unharmed(s, s.readers[r]))
    && (s.h.clashes == 0 ==> s.h.erased == 0)
    && (forall d :: d in s.h.deliveries ==> Genuine(s, d))
    && (forall i :: 0 <= i < |s.h.taken| && s.h.taken[i].byReader ==> |s.h.taken[i].samples| == s.h.taken[i].sz)
  }

  lemma FromReadyGrows(taken: seq<Chunk>, c: Chunk, chunk: seq<Sample>)
    requires FromReady(taken, chunk) || (c.byReader && c.samples == chunk)
    ensures FromReady(taken + [c], chunk)
  {
    if FromReady(taken, chunk) {
      var i :| 0 <= i < |taken| && taken[i].byReader && taken[i].samples == chunk;
      assert (taken + [c])[i] == taken[i];
    } else {
      assert (taken + [c])[|taken|] == c;
    }
  }

  /** A step that leaves the readers, their buffers and the log of chunks alone. */
  lemma KeepsChunks(s: State, t: State)
    requires ChunksOk(s) && |t.readers| == |s.readers|
    requires t.h.taken == s.h.taken && t.h.deliveries == s.h.deliveries
    requires t.h.clashes == s.h.clashes && t.h.erased == s.h.erased
    requires forall r :: 0 <= r < |s.readers| ==>
      && (ReaderBuf(s.readers[r]).Some? ==>
           && t.readers[r] == s.readers[r]
           && t.bufs[ReaderBuf(s.readers[r]).value] == s.bufs[ReaderBuf(s.readers[r]).value])
      && (ReaderBuf(s.readers[r]).None? ==> ReaderBuf(t.readers[r]).None?)
    ensures ChunksOk(t)
  {
    forall r | 0 <= r < |t.readers|
      ensures KeepsChunk(t, t.readers[r])
      ensures t.h.clashes == 0 ==> Unharmed(t, t.readers[r])
    {
      assert KeepsChunk(s, s.readers[r]);
    }
    forall d | d in t.h.deliveries
      ensures Genuine(t, d)
    {
      assert Genuine(s, d);
    }
  }

  lemma IrqChunks(s: State, io: Io)
    requires Sound(s) && ChunksOk(s) && !s.irq.IrqIdle?
    ensures ChunksOk(IrqStep(s, io))
  {
    IrqSpares(s, io);
    IrqKeepsBooks(s, io);
    KeepsChunks(s, IrqStep(s, io));
  }

  /** The IRQ thread writes to no buffer in a reader's hands. */
  lemma IrqSpares(s: State, io: Io)
    requires Conserved(s) && !s.irq.IrqIdle?
    ensures forall r :: 0 <= r < |s.readers| && ReaderBuf(s.readers[r]).Some? ==>
      var b := ReaderBuf(s.readers[r]).value;
      IrqStep(s, io).bufs[b] == s.bufs[b]
  {
    forall r | 0 <= r < |s.readers| && ReaderBuf(s.readers[r]).Some?
      ensures IrqStep(s, io).bufs[ReaderBuf(s.readers[r]).value] == s.bufs[ReaderBuf(s.readers[r]).value]
    {
      var b := ReaderBuf(s.readers[r]).value;
      assert At(s, b, WithReader(r)) && !At(s, b, WithIrq);
      IrqWrites(s, io, b);
    }
  }

  /** It logs frames, failures and transfers only, and can only wake the readers. */
  lemma IrqKeepsBooks(s: State, io: Io)
    requires !s.irq.IrqIdle?
    ensures var t := IrqStep(s, io);
      && t.h == s.h.(frames := t.h.frames, failed := t.h.failed, bus := t.h.bus)
      && (t.readers == s.readers || t.readers == WakeAll(s.readers))
  {
    if Fetching(s.irq) {
    } else if Stamping(s.irq) {
    } else if Filling(s.irq) {
    } else {
      assert HandStep(s).readers == s.readers || HandStep(s).readers == WakeAll(s.readers);
    }
  }

  lemma CtlChunks(s: State, io: Io)
    requires Sound(s) && ChunksOk(s) && !s.ctl.CtlIdle? && !Sizing(s.ctl) && !(s.ctl.Sweep?)
    ensures ChunksOk(CtlStep(s, io))
  {
    var t := CtlStep(s, io);
    forall r | 0 <= r < |s.readers| && ReaderBuf(s.readers[r]).Some?
      ensures t.readers[r] == s.readers[r]
      ensures t.bufs[ReaderBuf(s.readers[r]).value] == s.bufs[ReaderBuf(s.readers[r]).value]
    {
      var b := ReaderBuf(s.readers[r]).value;
      assert At(s, b, WithReader(r)) && !At(s, b, WithCtl);
      CtlWrites(s, io, b);
    }
    KeepsChunks(s, t);
  }

  /** A chunk is fetched, by a reader or by the cleanup. */
  lemma TakeChunks(s: State, t: State, c: Chunk)
    requires ChunksOk(s) && t.h.taken == s.h.taken + [c] && t.bufs == s.bufs
    requires t.h.deliveries == s.h.deliveries && t.h.clashes == s.h.clashes && t.h.erased == s.h.erased
    requires c.byReader ==> |c.samples| == c.sz
    requires |t.readers| == |s.readers|
    requires forall r :: 0 <= r < |s.readers| ==>
      || t.readers[r] == s.readers[r]
      || (c.byReader && t.readers[r].Holding? && t.readers[r].chunk == c.samples
          && c.samples == s.bufs[t.readers[r].b].Filled() && s.bufs[t.readers[r].b].idx == |c.samples|)
    ensures ChunksOk(t)
  {
    forall r | 0 <= r < |t.readers|
      ensures KeepsChunk(t, t.readers[r])
      ensures t.h.clashes == 0 ==> Unharmed(t, t.readers[r])
    {
      assert KeepsChunk(s, s.readers[r]);
      match t.readers[r]
      case Holding(_, b, chunk) => FromReadyGrows(s.h.taken, c, chunk);
      case Copying(_, b, chunk, _) => FromReadyGrows(s.h.taken, c, chunk);
      case _ =>
    }
    forall d | d in t.h.deliveries
      ensures Genuine(t, d)
    {
      assert Genuine(s, d);
      FromReadyGrows(s.h.taken, c, d.chunk);
    }
  }

  lemma SweepChunks(s: State)
    requires Sound(s) && ChunksOk(s) && s.ctl.Sweep?
    ensures ChunksOk(SweepStep(s))
  {
    var t := SweepStep(s);
    var list := if s.ctl.active then s.active else s.ready;
    if list == [] {
      KeepsChunks(s, t);
    } else {
      TakeChunks(s, t, Chunk(false, s.chunkSz, s.bufs[list[0]].Filled()));
    }
  }

  /** What a reader finds on the ready list is full, and full means the published size. */
  lemma ReadyIsFull(s: State, b: BufId)
    requires Sound(s) && b in s.ready
    ensures |s.bufs[b].Filled()| == s.bufs[b].idx == s.chunkSz
  {
    assert At(s, b, InReady) && Agrees(s, s.bufs[b], InReady) && SizeAgrees(s, b);
  }

  lemma GrabChunks(s: State, r: nat)
    requires Sound(s) && ChunksOk(s) && r < |s.readers| && s.readers[r].Grab?
    ensures ChunksOk(GrabStep(s, r))
  {
    var t := GrabStep(s, r);
    if s.ready == [] {
      KeepsChunks(s, t);
    } else {
      ReadyIsFull(s, s.ready[0]);
      TakeChunks(s, t, Chunk(true, s.chunkSz, s.bufs[s.ready[0]].Filled()));
    }
  }

  /** Reading the fill level: all of the chunk, unless a resize came first. */
  lemma HoldingChunks(s: State, r: nat, copied: bool)
    requires Sound(s) && ChunksOk(s) && r < |s.readers| && s.readers[r].Holding?
    ensures ChunksOk(DeliverStep(s, r, copied))
  {
    var t := DeliverStep(s, r, copied);
    forall q | 0 <= q < |t.readers|
      ensures KeepsChunk(t, t.readers[q])
      ensures t.h.clashes == 0 ==> Unharmed(t, t.readers[q])
    {
      assert KeepsChunk(s, s.readers[q]);
    }
    assert s.h.clashes == 0 ==> Unharmed(s, s.readers[r]);
    forall d | d in t.h.deliveries
      ensures Genuine(t, d)
    {
      assert Genuine(s, d);
    }
  }

  lemma CopyChunks(s: State, r: nat, copied: bool)
    requires Sound(s) && ChunksOk(s) && r < |s.readers| && s.readers[r].Copying?
    ensures ChunksOk(DeliverStep(s, r, copied))
  {
    var t := DeliverStep(s, r, copied);
    var Copying(max, b, chunk, got) := s.readers[r];
    assert KeepsChunk(s, s.readers[r]) && At(s, b, WithReader(r)) && ReaderOk(s.readers[r]);
    assert Agrees(s, s.bufs[b], WithReader(r));
    assert s.h.clashes == 0 ==> Unharmed(s, s.readers[r]);
    var n := Min(max, got);
    assert s.bufs[b].data[..n] == if got == 0 then [] else chunk[..n];
    forall q | 0 <= q < |t.readers|
      ensures KeepsChunk(t, t.readers[q])
      ensures t.h.clashes == 0 ==> Unharmed(t, t.readers[q])
    {
      assert KeepsChunk(s, s.readers[q]);
    }
    forall d | d in t.h.deliveries
      ensures Genuine(t, d)
    {
      if d in s.h.deliveries {
        assert Genuine(s, d);
      }
    }
  }

  lemma GiveBackChunks(s: State, r: nat, copied: bool)
    requires Sound(s) && ChunksOk(s) && r < |s.readers| && (s.readers[r].Clearing? || s.readers[r].Returning?)
    ensures ChunksOk(DeliverStep(s, r, copied))
  {
    var t, c := DeliverStep(s, r, copied), s.readers[r].b;
    assert At(s, c, WithReader(r));
    forall q | 0 <= q < |t.readers|
      ensures KeepsChunk(t, t.readers[q])
      ensures t.h.clashes == 0 ==> Unharmed(t, t.readers[q])
    {
      assert KeepsChunk(s, s.readers[q]);
      if q != r && ReaderBuf(s.readers[q]).Some? {
        assert At(s, ReaderBuf(s.readers[q]).value, WithReader(q));
        assert ReaderBuf(s.readers[q]).value != c;
      }
    }
    forall d | d in t.h.deliveries
      ensures Genuine(t, d)
    {
      assert Genuine(s, d);
    }
  }

  lemma ReadChunks(s: State, r: nat, copied: bool)
    requires Sound(s) && ChunksOk(s) && r < |s.readers| && !s.readers[r].Outside?
    ensures ChunksOk(ReadStep(s, r, copied))
  {
    if Waiting(s.readers[r]) {
      KeepsChunks(s, ReadStep(s, r, copied));
    } else if s.readers[r].Grab? {
      GrabChunks(s, r);
    } else if s.readers[r].Holding? {
      HoldingChunks(s, r, copied);
    } else if s.readers[r].Copying? {
      CopyChunks(s, r, copied);
    } else {
      GiveBackChunks(s, r, copied);
    }
  }

  /** A resize hides the samples of a buffer in a reader's hands, and says so in `clashes`. */
  lemma SizeChunks(s: State)
    requires Sound(s) && ChunksOk(s) && Sizing(s.ctl)
    ensures ChunksOk(SizeStep(s))
  {
    var t := SizeStep(s);
    forall r | 0 <= r < |t.readers|
      ensures KeepsChunk(t, t.readers[r])
      ensures t.h.clashes == 0 ==> Unharmed(t, t.readers[r])
    {
      assert KeepsChunk(s, s.readers[r]);
      assert s.h.clashes == 0 ==> Unharmed(s, s.readers[r]);
    }
    forall d | d in t.h.deliveries
      ensures Genuine(t, d)
    {
      assert Genuine(s, d);
    }
  }

  lemma StepChunks(s: State, l: Label)
    requires Enabled(s, l) && Sound(s) && ChunksOk(s) && !l.StrayClear? && !l.StrayPublish?
    ensures ChunksOk(Step(s, l))
  {
    match l
    case StepIrq(io) => IrqChunks(s, io);
    case StepRead(r, copied) => ReadChunks(s, r, copied);
    case StepCtl(io) =>
      if Sizing(s.ctl) {
        SizeChunks(s);
      } else if s.ctl.Sweep? {
        SweepChunks(s);
      } else {
        CtlChunks(s, io);
      }
    case StrayClear(_, _) =>
    case StrayPublish(_) =>
    case _ => KeepsChunks(s, Step(s, l));
  }
}

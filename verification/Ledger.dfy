/**
  The books of a run against its logs: the counters are the sums of what was logged, and a
  resize that meets a reader always shows.
*/
module Ledger {
  import opened Wrappers
  import opened Pipeline
  import opened Conservation
  import opened Bounds
  import opened Locations
  import opened Reading

  function SumDelivered(ds: seq<Delivery>): nat {
    if ds == [] then 0 else SumDelivered(ds[..|ds| - 1]) + |ds[|ds| - 1].samples|
  }

  /** Samples of delivered chunks that the caller had no room for. */
  function SumCut(ds: seq<Delivery>): int {
    if ds == [] then 0 else SumCut(ds[..|ds| - 1]) + |ds[|ds| - 1].chunk| - |ds[|ds| - 1].samples|
  }

  /** Samples in the chunks the cleanup fetched. */
  function SumSwept(taken: seq<Chunk>): nat {
    if taken == [] then 0
    else SumSwept(taken[..|taken| - 1]) + if taken[|taken| - 1].byReader then 0 else |taken[|taken| - 1].samples|
  }

  /** Samples of the chunks whose copy failed. */
  function SumFailed(es: seq<Ending>): nat {
    if es == [] then 0 else SumFailed(es[..|es| - 1]) + if es[|es| - 1].copied then 0 else |es[|es| - 1].chunk|
  }

  predicate Summed(s: State) {
    && s.h.delivered == SumDelivered(s.h.deliveries) && s.h.discarded == SumSwept(s.h.taken)
    && (s.h.clashes == 0 ==> s.h.cut == SumCut(s.h.deliveries) && s.h.lost == SumFailed(s.h.endings))
  }

  /** The reader will find its buffer emptied by a resize. */
  predicate Emptied(s: State, r: Reader) {
    r.Holding? && s.bufs[r.b].idx != |r.chunk|
  }

  ghost predicate SomeEmptied(s: State) {
    exists r :: 0 <= r < |s.readers| && Emptied(s, s.readers[r])
  }

  ghost predicate Shown(s: State) {
    && s.h.erased >= 0
    && (forall r :: 0 <= r < |s.readers| && s.readers[r].Holding? ==> s.readers[r].chunk != [])
    && (s.h.clashes > 0 ==> s.h.erased > 0 || SomeEmptied(s))
  }

  ghost predicate LedgerOk(s: State) {
    Summed(s) && Shown(s)
  }

  // ----- sequences -----

  lemma SnocSwept(taken: seq<Chunk>, c: Chunk)
    ensures SumSwept(taken + [c]) == SumSwept(taken) + if c.byReader then 0 else |c.samples|
  {
    assert (taken + [c])[..|taken|] == taken;
  }

  lemma SnocDelivered(ds: seq<Delivery>, d: Delivery)
    ensures SumDelivered(ds + [d]) == SumDelivered(ds) + |d.samples|
    ensures SumCut(ds + [d]) == SumCut(ds) + |d.chunk| - |d.samples|
  {
    assert (ds + [d])[..|ds|] == ds;
  }

  lemma SnocFailed(es: seq<Ending>, e: Ending)
    ensures SumFailed(es + [e]) == SumFailed(es) + if e.copied then 0 else |e.chunk|
  {
    assert (es + [e])[..|es|] == es;
  }

  // ----- steps -----

  /** Nothing is fetched, delivered or resized, and no reader moves on with a chunk. */
  lemma LedgerKept(s: State, t: State)
    requires LedgerOk(s) && |t.readers| == |s.readers|
    requires t.h.taken == s.h.taken && t.h.deliveries == s.h.deliveries && t.h.endings == s.h.endings
    requires t.h.delivered == s.h.delivered && t.h.discarded == s.h.discarded && t.h.cut == s.h.cut
    requires t.h.lost == s.h.lost && t.h.erased == s.h.erased && t.h.clashes == s.h.clashes
    requires forall r :: 0 <= r < |s.readers| ==> HoldingKept(s, t, s.readers[r], t.readers[r])
    ensures LedgerOk(t)
  {
    ShownKept(s, t);
  }

  /** A reader that holds a chunk goes on holding it, untouched, and nobody else begins to. */
  predicate HoldingKept(s: State, t: State, was: Reader, now: Reader) {
    && (now.Holding? ==> was == now)
    && (was.Holding? ==> now == was && t.bufs[was.b].idx == s.bufs[was.b].idx)
  }

  lemma ShownKept(s: State, t: State)
    requires Shown(s) && |t.readers| == |s.readers| && t.h.erased == s.h.erased && t.h.clashes == s.h.clashes
    requires forall r :: 0 <= r < |s.readers| ==> HoldingKept(s, t, s.readers[r], t.readers[r])
    ensures Shown(t)
  {
    if SomeEmptied(s) {
      var r :| 0 <= r < |s.readers| && Emptied(s, s.readers[r]);
      assert Emptied(t, t.readers[r]);
    }
  }

  lemma IrqLedger(s: State, io: Io)
    requires Sound(s) && LedgerOk(s) && !s.irq.IrqIdle?
    ensures LedgerOk(IrqStep(s, io))
  {
    IrqSpares(s, io);
    IrqKeepsBooks(s, io);
    HoldersSpared(s, IrqStep(s, io));
    LedgerKept(s, IrqStep(s, io));
  }

  lemma HoldersSpared(s: State, t: State)
    requires t.readers == s.readers || t.readers == WakeAll(s.readers)
    requires forall r :: 0 <= r < |s.readers| && ReaderBuf(s.readers[r]).Some? ==>
      var b := ReaderBuf(s.readers[r]).value;
      t.bufs[b] == s.bufs[b]
    ensures forall r :: 0 <= r < |s.readers| ==> HoldingKept(s, t, s.readers[r], t.readers[r])
  {
    forall r | 0 <= r < |s.readers|
      ensures HoldingKept(s, t, s.readers[r], t.readers[r])
    {
      if s.readers[r].Holding? {
        assert t.bufs[s.readers[r].b] == s.bufs[s.readers[r].b];
      }
    }
  }

  /** A reader fetches a chunk, and has it in hand. */
  lemma GrabLedger(s: State, r: nat)
    requires Sound(s) && LedgerOk(s) && r < |s.readers| && s.readers[r].Grab?
    ensures LedgerOk(GrabStep(s, r))
  {
    var t := GrabStep(s, r);
    if s.ready == [] {
      LedgerKept(s, t);
    } else {
      ReadyIsFull(s, s.ready[0]);
      GrabBooks(s, r);
      GrabShows(s, r);
    }
  }

  lemma GrabBooks(s: State, r: nat)
    requires Summed(s) && r < |s.readers| && s.readers[r].Grab? && s.ready != []
    ensures Summed(GrabStep(s, r))
  {
    SnocSwept(s.h.taken, Chunk(true, s.chunkSz, s.bufs[s.ready[0]].Filled()));
  }

  lemma GrabShows(s: State, r: nat)
    requires Shown(s) && r < |s.readers| && s.readers[r].Grab? && s.ready != []
    requires s.bufs[s.ready[0]].Filled() != []
    ensures Shown(GrabStep(s, r))
  {
    if SomeEmptied(s) {
      var q :| 0 <= q < |s.readers| && Emptied(s, s.readers[q]);
      assert Emptied(GrabStep(s, r), GrabStep(s, r).readers[q]);
    }
  }

  /** The fill level is read: a chunk that was emptied in the meantime is booked as erased. */
  lemma LevelLedger(s: State, r: nat, copied: bool)
    requires Sound(s) && LedgerOk(s) && r < |s.readers| && s.readers[r].Holding?
    ensures LedgerOk(DeliverStep(s, r, copied))
  {
    var Holding(max, b, chunk) := s.readers[r];
    assert At(s, b, WithReader(r)) && Agrees(s, s.bufs[b], WithReader(r));
    LevelShows(s, r, copied);
  }

  lemma LevelShows(s: State, r: nat, copied: bool)
    requires Shown(s) && r < |s.readers| && s.readers[r].Holding?
    requires s.bufs[s.readers[r].b].idx == |s.readers[r].chunk| || s.bufs[s.readers[r].b].idx == 0
    ensures Shown(DeliverStep(s, r, copied))
  {
    var t := DeliverStep(s, r, copied);
    if SomeEmptied(s) {
      var q :| 0 <= q < |s.readers| && Emptied(s, s.readers[q]);
      if q != r {
        assert Emptied(t, t.readers[q]);
      }
    }
  }

  lemma CopyLedger(s: State, r: nat, copied: bool)
    requires Bounded(s) && ChunksOk(s) && LedgerOk(s) && r < |s.readers| && s.readers[r].Copying?
    ensures LedgerOk(DeliverStep(s, r, copied))
  {
    assert s.h.clashes == 0 ==> Unharmed(s, s.readers[r]);
    CopyBooks(s, r, copied);
    CopyShows(s, r, copied);
  }

  lemma CopyShows(s: State, r: nat, copied: bool)
    requires Shown(s) && r < |s.readers| && s.readers[r].Copying?
    ensures Shown(DeliverStep(s, r, copied))
  {
    var t := DeliverStep(s, r, copied);
    if SomeEmptied(s) {
      var q :| 0 <= q < |s.readers| && Emptied(s, s.readers[q]);
      assert Emptied(t, t.readers[q]);
    }
  }

  lemma CopyBooks(s: State, r: nat, copied: bool)
    requires Bounded(s) && Summed(s) && r < |s.readers| && s.readers[r].Copying?
    requires s.h.clashes == 0 ==> Unharmed(s, s.readers[r])
    ensures Summed(DeliverStep(s, r, copied))
  {
    var Copying(max, b, chunk, got) := s.readers[r];
    assert ReaderOk(s.readers[r]);
    var t := DeliverStep(s, r, copied);
    if copied {
      CopiedBooks(s, t, r, Delivery(r, max, chunk, s.bufs[b].data[..Min(max, got)]));
    } else {
      FailedBooks(s, t, r, chunk);
    }
  }

  lemma CopiedBooks(s: State, t: State, r: nat, d: Delivery)
    requires Summed(s)
    requires t.h == s.h.(endings := s.h.endings + [Ending(r, d.chunk, true)], deliveries := s.h.deliveries + [d],
                         delivered := s.h.delivered + |d.samples|, cut := t.h.cut)
    requires s.h.clashes == 0 ==> t.h.cut == s.h.cut + |d.chunk| - |d.samples|
    ensures Summed(t)
  {
    SnocFailed(s.h.endings, Ending(r, d.chunk, true));
    SnocDelivered(s.h.deliveries, d);
  }

  lemma FailedBooks(s: State, t: State, r: nat, chunk: seq<Sample>)
    requires Summed(s)
    requires t.h == s.h.(endings := s.h.endings + [Ending(r, chunk, false)], lost := t.h.lost)
    requires s.h.clashes == 0 ==> t.h.lost == s.h.lost + |chunk|
    ensures Summed(t)
  {
    SnocFailed(s.h.endings, Ending(r, chunk, false));
  }

  lemma ReadLedger(s: State, r: nat, copied: bool)
    requires Sound(s) && ChunksOk(s) && LedgerOk(s) && r < |s.readers| && !s.readers[r].Outside?
    ensures LedgerOk(ReadStep(s, r, copied))
  {
    if Waiting(s.readers[r]) {
      LedgerKept(s, ReadStep(s, r, copied));
    } else if s.readers[r].Grab? {
      GrabLedger(s, r);
    } else if s.readers[r].Holding? {
      LevelLedger(s, r, copied);
    } else if s.readers[r].Copying? {
      CopyLedger(s, r, copied);
    } else {
      GiveBackLedger(s, r, copied);
    }
  }

  lemma GiveBackLedger(s: State, r: nat, copied: bool)
    requires Sound(s) && LedgerOk(s) && r < |s.readers| && (s.readers[r].Clearing? || s.readers[r].Returning?)
    ensures LedgerOk(DeliverStep(s, r, copied))
  {
    GiveBackSpares(s, r, copied);
    LedgerKept(s, DeliverStep(s, r, copied));
  }

  lemma GiveBackSpares(s: State, r: nat, copied: bool)
    requires Conserved(s) && r < |s.readers| && (s.readers[r].Clearing? || s.readers[r].Returning?)
    ensures var t := DeliverStep(s, r, copied);
      && t.h == s.h && t.readers == s.readers[r := t.readers[r]] && !t.readers[r].Holding?
      && forall q :: 0 <= q < |s.readers| && s.readers[q].Holding? ==> t.bufs[s.readers[q].b] == s.bufs[s.readers[q].b]
  {
    assert At(s, s.readers[r].b, WithReader(r));
    forall q | 0 <= q < |s.readers| && s.readers[q].Holding?
      ensures s.readers[q].b != s.readers[r].b
    {
      assert At(s, s.readers[q].b, WithReader(q));
    }
  }

  /** The cleanup's chunks are not the readers'. */
  lemma SweepLedger(s: State)
    requires Sound(s) && LedgerOk(s) && Sweeping(s.ctl)
    ensures LedgerOk(SweepStep(s))
  {
    var t := SweepStep(s);
    if s.ctl.Sweep? {
      SweepFetchLedger(s);
    } else {
      SweepRestKeeps(s);
      LedgerKept(s, t);
    }
  }

  lemma SweepRestKeeps(s: State)
    requires Sound(s) && Sweeping(s.ctl) && !s.ctl.Sweep?
    ensures SweepStep(s).h == s.h && (SweepStep(s).readers == s.readers || SweepStep(s).readers == WakeAll(s.readers))
    ensures forall r :: 0 <= r < |s.readers| && s.readers[r].Holding? ==>
      SweepStep(s).bufs[s.readers[r].b] == s.bufs[s.readers[r].b]
  {
    forall r | 0 <= r < |s.readers| && s.readers[r].Holding?
      ensures CtlBuf(s.ctl) != Some(s.readers[r].b)
    {
      assert At(s, s.readers[r].b, WithReader(r)) && !At(s, s.readers[r].b, WithCtl);
    }
  }

  lemma SweepFetchLedger(s: State)
    requires LedgerOk(s) && s.ctl.Sweep?
    ensures LedgerOk(SweepStep(s))
  {
    var list := if s.ctl.active then s.active else s.ready;
    SweepBooks(s);
    if list == [] {
      SameBooks(s, SweepStep(s));
    } else {
      SweptBooks(s, SweepStep(s), s.bufs[list[0]].Filled());
    }
  }

  /** What a sweep puts in the books. */
  lemma SweepBooks(s: State)
    requires s.ctl.Sweep?
    ensures var t, list := SweepStep(s), if s.ctl.active then s.active else s.ready;
      && t.bufs == s.bufs && t.readers == s.readers
      && t.h == if list == [] then s.h else
           var samples := s.bufs[list[0]].Filled();
           s.h.(taken := s.h.taken + [Chunk(false, s.chunkSz, samples)], discarded := s.h.discarded + |samples|)
  {
  }

  lemma SameBooks(s: State, t: State)
    requires LedgerOk(s) && t.bufs == s.bufs && t.readers == s.readers && t.h == s.h
    ensures LedgerOk(t)
  {
    ShownKept(s, t);
  }

  lemma SweptBooks(s: State, t: State, samples: seq<Sample>)
    requires LedgerOk(s) && t.bufs == s.bufs && t.readers == s.readers
    requires t.h == s.h.(taken := s.h.taken + [Chunk(false, s.chunkSz, samples)],
                         discarded := s.h.discarded + |samples|)
    ensures LedgerOk(t)
  {
    SnocSwept(s.h.taken, Chunk(false, s.chunkSz, samples));
    if SomeEmptied(s) {
      var q :| 0 <= q < |s.readers| && Emptied(s, s.readers[q]);
      assert Emptied(t, t.readers[q]);
    }
  }

  /** A resize of a buffer in hand empties it, and counts. */
  lemma SizeLedger(s: State)
    requires LedgerOk(s) && Sizing(s.ctl)
    ensures LedgerOk(SizeStep(s))
  {
    var t := SizeStep(s);
    if s.ctl.Resize? && s.ctl.i < CHUNK_BUF_CNT {
      SizeShows(s, t, s.ctl.i);
    } else {
      LedgerKept(s, t);
    }
  }

  lemma SizeShows(s: State, t: State, i: BufId)
    requires LedgerOk(s) && t.readers == s.readers && t.h == s.h.(clashes := t.h.clashes) && t.h.clashes >= s.h.clashes
    requires forall b: BufId :: t.bufs[b].idx == if b == i then 0 else s.bufs[b].idx
    requires t.h.clashes > s.h.clashes ==>
      exists r :: 0 <= r < |s.readers| && s.readers[r].Holding? && s.readers[r].b == i
    ensures LedgerOk(t)
  {
    if t.h.clashes > s.h.clashes {
      var r :| 0 <= r < |s.readers| && s.readers[r].Holding? && s.readers[r].b == i;
      assert Emptied(t, t.readers[r]);
    } else if SomeEmptied(s) {
      var q :| 0 <= q < |s.readers| && Emptied(s, s.readers[q]);
      assert Emptied(t, t.readers[q]);
    }
  }

  lemma CtlLedger(s: State, io: Io)
    requires Sound(s) && LedgerOk(s) && !s.ctl.CtlIdle?
    ensures LedgerOk(CtlStep(s, io))
  {
    if Switching(s.ctl) {
      LedgerKept(s, SwitchStep(s, io));
    } else if Sweeping(s.ctl) {
      SweepLedger(s);
    } else if Commanding(s.ctl) {
      LedgerKept(s, CommandStep(s, io));
    } else {
      SizeLedger(s);
    }
  }

  lemma StepLedger(s: State, l: Label)
    requires Enabled(s, l) && Sound(s) && ChunksOk(s) && LedgerOk(s) && !l.StrayClear? && !l.StrayPublish?
    ensures LedgerOk(Step(s, l))
  {
    match l
    case StepIrq(io) => IrqLedger(s, io);
    case StepRead(r, copied) => ReadLedger(s, r, copied);
    case StepCtl(io) => CtlLedger(s, io);
    case _ => EntryLedger(s, l);
  }

  lemma EntryLedger(s: State, l: Label)
    requires Enabled(s, l) && LedgerOk(s)
    requires !l.StepIrq? && !l.StepRead? && !l.StepCtl? && !l.StrayClear?
    ensures LedgerOk(Step(s, l))
  {
    LedgerKept(s, Step(s, l));
  }
}

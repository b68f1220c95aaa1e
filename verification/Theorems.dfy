/**
  The main results, for every run of the step system: any number of readers, any clock,
  any received bytes, any outcome of transfers, interrupt requests and copies, in any
  interleaving.
*/
module Theorems {
  import opened Wrappers
  import opened Pipeline
  import opened Conservation
  import opened Bounds
  import opened StartStop
  import opened BusLog
  import opened Wakeups
  import opened Locations
  import opened Stream
  import opened Reading
  import opened Accounting
  import opened Turns
  import opened Ledger

  /** Kept by every step, a resize between any two steps of the other threads included. */
  ghost predicate Base(s: State) {
    Conserved(s) && TransferRecorded(s) && PoolConserved(s) && Bounded(s) && TurnsOk(s)
  }

  /** Kept by every step when such a resize waits for its turn. */
  ghost predicate Inv(s: State) {
    && Sound(s) && TurnsOk(s) && BusOk(s) && Stamped(s) && InOrder(s) && ChunksOk(s)
    && FatesAddUp(s) && RunsAddUp(s) && SessionOk(s) && LedgerOk(s)
  }

  lemma InitConserved(n: nat)
    ensures Conserved(Init(n)) && PoolConserved(Init(n))
  {
    var s := Init(n);
    forall b: BufId
      ensures Somewhere(s, b)
    {
      assert s.free[b] == b;
      assert At(s, b, InFree);
    }
    forall x: XferId
      ensures x in s.pool
    {
      assert s.pool[x] == x;
    }
  }

  lemma InitBase(n: nat)
    ensures Base(Init(n))
  {
    InitConserved(n);
    InitTurns(n);
  }

  lemma InitTurns(n: nat)
    ensures TurnsOk(Init(n))
  {
    var s := Init(n);
    forall c
      ensures TimesInHand(s.readers, c) == 0
    {
      NoneInHand(s.readers, c);
    }
  }

  lemma InitLocated(n: nat)
    ensures Located(Init(n))
  {
    var s := Init(n);
    forall b: BufId
      ensures FreeBuf(s.bufs[b]) && SizeAgrees(s, b)
    {
      assert s.bufs[b] == Buf(StatFree, 0, DEFAULT_CHUNK_SZ, None, seq(MAX_CHUNK_SZ, _ => Sample(0, [])));
    }
    forall b: BufId, p | At(s, b, p)
      ensures Agrees(s, s.bufs[b], p)
    {
      assert p == InFree;
    }
  }

  lemma InitStream(n: nat)
    ensures InOrder(Init(n)) && ChunksOk(Init(n)) && FatesAddUp(Init(n)) && SessionOk(Init(n)) && LedgerOk(Init(n))
  {
    var s := Init(n);
    assert Pending(s) == [];
    OwedByNone(s.readers);
  }

  lemma InitInv(n: nat)
    ensures Inv(Init(n)) && NoneLost(Init(n))
  {
    InitBase(n);
    InitLocated(n);
    InitStream(n);
    assert StartStop.Protocol(Init(n));
  }

  lemma StepBase(s: State, l: Label)
    requires Base(s) && Enabled(s, l)
    ensures Base(Step(s, l))
  {
    StepConserves(s, l);
    StepRecords(s, l);
    StepPool(s, l);
    StepBounded(s, l);
    StepTurns(s, l);
  }

  lemma StepInv(s: State, l: Label)
    requires Inv(s) && Enabled(s, l) && !l.StrayClear? && !l.StrayPublish?
    ensures Inv(Step(s, l))
  {
    StepBase(s, l);
    StepProtocol(s, l);
    StepLocated(s, l);
    StepBus(s, l);
    StepStamped(s, l);
    StepInOrder(s, l);
    StepChunks(s, l);
    StepFates(s, l);
    StepRuns(s, l);
    StepSession(s, l);
    StepLedger(s, l);
  }

  lemma {:induction false} RunBase(n: nat, ls: seq<Label>)
    requires Exec(Init(n), ls).Some?
    ensures Base(Exec(Init(n), ls).value)
  {
    if ls == [] {
      InitBase(n);
    } else {
      RunBase(n, ls[..|ls| - 1]);
      StepBase(Exec(Init(n), ls[..|ls| - 1]).value, ls[|ls| - 1]);
    }
  }

  lemma {:induction false} RunInv(n: nat, ls: seq<Label>)
    requires Serialised(ls) && Exec(Init(n), ls).Some?
    ensures Inv(Exec(Init(n), ls).value)
  {
    if ls == [] {
      InitInv(n);
    } else {
      RunInv(n, ls[..|ls| - 1]);
      StepInv(Exec(Init(n), ls[..|ls| - 1]).value, ls[|ls| - 1]);
    }
  }

  // ----- conservation and bounds: all runs -----

  /** In every reachable state each of the eight chunk buffers is in exactly one place, and listed at most once. */
  lemma BuffersConserved(n: nat, ls: seq<Label>, t: State, b: BufId)
    requires Exec(Init(n), ls) == Some(t)
    ensures exists p :: At(t, b, p) && forall q :: At(t, b, q) ==> q == p
    ensures multiset(t.free)[b] + multiset(t.active)[b] + multiset(t.ready)[b] <= 1
  {
    RunBase(n, ls);
    assert Somewhere(t, b);
    var p :| At(t, b, p);
    forall q | At(t, b, q)
      ensures q == p
    {
    }
    CountNoDup(t.free, b);
    CountNoDup(t.active, b);
    CountNoDup(t.ready, b);
    assert At(t, b, InFree) <==> b in t.free;
    assert At(t, b, InActive) <==> b in t.active;
    assert At(t, b, InReady) <==> b in t.ready;
  }

  lemma {:induction false} CountNoDup(l: seq<BufId>, b: BufId)
    requires NoDup(l)
    ensures multiset(l)[b] == if b in l then 1 else 0
  {
    if l != [] {
      var m := |l| - 1;
      CountNoDup(l[..m], b);
      assert l == l[..m] + [l[m]];
    }
  }

  /** Each transfer buffer has one holder, and `get_xfer_buf` never finds the pool empty. */
  lemma TransfersConserved(n: nat, ls: seq<Label>, t: State)
    requires Exec(Init(n), ls) == Some(t)
    ensures PoolConserved(t)
    ensures t.irq.TakeXfer? || t.ctl.FrameTake? ==> t.pool != []
  {
    RunBase(n, ls);
    if t.irq.TakeXfer? || t.ctl.FrameTake? {
      PoolSuffices(t);
    }
  }

  /** No slot outside the 320 of a buffer is written or copied, even if a resize races with filling and reading. */
  lemma IndexBounds(n: nat, ls: seq<Label>, t: State)
    requires Exec(Init(n), ls) == Some(t)
    ensures 1 <= t.chunkSz <= MAX_CHUNK_SZ
    ensures t.irq.Stamp? ==> 0 <= t.irq.slot < MAX_CHUNK_SZ
    ensures t.irq.Decode? ==> 0 <= t.irq.slot < MAX_CHUNK_SZ
    ensures forall d :: d in t.h.deliveries ==> |d.samples| <= MAX_CHUNK_SZ && |d.samples| <= d.max
    ensures forall r :: 0 <= r < |t.readers| && t.readers[r].Copying? ==> 0 <= t.readers[r].got <= MAX_CHUNK_SZ
  {
    RunBase(n, ls);
    forall r | 0 <= r < |t.readers| && t.readers[r].Copying?
      ensures 0 <= t.readers[r].got <= MAX_CHUNK_SZ
    {
      assert ReaderOk(t.readers[r]);
    }
  }

  // ----- protocol: a resize waits for its turn -----

  /**
    Whenever no control call is under way, `run_stat` says RUN exactly when the interrupt is
    registered, and a stopped driver has nothing queued.
  */
  lemma StartStopHolds(n: nat, ls: seq<Label>, t: State)
    requires Serialised(ls) && Exec(Init(n), ls) == Some(t)
    ensures t.ctl.CtlIdle? ==> (t.run <==> t.registered)
    ensures t.ctl.CtlIdle? && !t.run ==> t.ready == [] && t.active == [] && t.irq.IrqIdle?
    ensures !t.isOpen ==> !t.run && !t.registered
  {
    RunInv(n, ls);
  }

  /** A stopped driver without readers has all buffers back: nothing leaks over any number of sessions and failures. */
  lemma StoppedMeansFree(n: nat, ls: seq<Label>, t: State)
    requires Serialised(ls) && Exec(Init(n), ls) == Some(t)
    requires t.ctl.CtlIdle? && !t.run && AllOutside(t.readers)
    ensures forall b: BufId :: b in t.free
    ensures forall x: XferId :: x in t.pool
    ensures OwedAll(t.readers) == 0 && t.h.frames == Flat(t.h.taken)
  {
    RunInv(n, ls);
    NothingHeld(t);
    OwedByNone(t.readers);
    assert Pending(t) == [];
  }

  lemma NothingHeld(t: State)
    requires Sound(t) && t.ctl.CtlIdle? && !t.run && AllOutside(t.readers)
    ensures forall b: BufId :: b in t.free
    ensures forall x: XferId :: x in t.pool
  {
    forall b: BufId
      ensures b in t.free
    {
      assert Somewhere(t, b);
      var p :| At(t, b, p);
      assert p == InFree;
    }
  }

  /** No frame of another thread falls between the frames of one command. */
  lemma FramesAdjacent(n: nat, ls: seq<Label>, t: State)
    requires Serialised(ls) && Exec(Init(n), ls) == Some(t)
    ensures Adjacent(t.h.bus)
    ensures (t.ctl.FrameTake? || t.ctl.FrameSend?) && t.ctl.i > 0 ==>
      t.irq.IrqIdle? && !t.registered && LastIs(t.h.bus, CtlFrame(t.ctl.op, t.ctl.i - 1, true))
  {
    RunInv(n, ls);
    if (t.ctl.FrameTake? || t.ctl.FrameSend?) && t.ctl.i > 0 {
      MidCommand(t);
    }
  }

  /** In the middle of a command only the device is being talked to. */
  lemma MidCommand(t: State)
    requires StartStop.Protocol(t) && BusOk(t) && (t.ctl.FrameTake? || t.ctl.FrameSend?) && t.ctl.i > 0
    ensures t.irq.IrqIdle? && !t.registered && LastIs(t.h.bus, CtlFrame(t.ctl.op, t.ctl.i - 1, true))
  {
  }

  /** The fields of every buffer say where it is, and at most one buffer is partly filled. */
  lemma LocationsAgree(n: nat, ls: seq<Label>, t: State, b: BufId)
    requires Serialised(ls) && Exec(Init(n), ls) == Some(t)
    ensures b in t.free ==> FreeBuf(t.bufs[b])
    ensures b in t.active ==> PartBuf(t.bufs[b])
    ensures b in t.ready ==> FullBuf(t.bufs[b]) && t.bufs[b].chunkSz == t.chunkSz
    ensures |t.active| + (if IrqBuf(t.irq).Some? then 1 else 0) <= 1
  {
    RunInv(n, ls);
    PlaceAgrees(t, b);
    FullAgrees(t, b);
  }

  lemma FullAgrees(t: State, b: BufId)
    requires Located(t) && StartStop.Protocol(t)
    ensures b in t.ready ==> t.bufs[b].chunkSz == t.chunkSz
    ensures |t.active| + (if IrqBuf(t.irq).Some? then 1 else 0) <= 1
  {
    assert SizeAgrees(t, b);
  }

  lemma PlaceAgrees(t: State, b: BufId)
    requires Located(t)
    ensures b in t.free ==> FreeBuf(t.bufs[b])
    ensures b in t.active ==> PartBuf(t.bufs[b])
    ensures b in t.ready ==> FullBuf(t.bufs[b])
    ensures SizeAgrees(t, b)
  {
    assert b in t.free ==> At(t, b, InFree);
    assert b in t.active ==> At(t, b, InActive);
    assert b in t.ready ==> At(t, b, InReady);
  }

  // ----- the stream -----

  /**
    Over the life of the driver, the fetched chunks in fetch order are a prefix of the frames
    read, and readers get full chunks only.
  */
  lemma StreamOrder(n: nat, ls: seq<Label>, t: State)
    requires Serialised(ls) && Exec(Init(n), ls) == Some(t)
    ensures Flat(t.h.taken) <= t.h.frames
    ensures t.h.frames == Flat(t.h.taken) + Pending(t)
    ensures forall i :: 0 <= i < |t.h.taken| && t.h.taken[i].byReader ==> |t.h.taken[i].samples| == t.h.taken[i].sz
  {
    RunInv(n, ls);
  }

  /**
    While a session runs, what its readers fetched is a prefix of what it read: no gap, no
    repetition, nothing from before.
  */
  lemma SessionOrder(n: nat, ls: seq<Label>, t: State)
    requires Serialised(ls) && Exec(Init(n), ls) == Some(t)
    ensures t.h.takenMark <= |t.h.taken| && t.h.frameMark <= |t.h.frames|
    ensures t.h.frames[t.h.frameMark..] == Flat(t.h.taken[t.h.takenMark..]) + Pending(t)
    ensures t.run ==> forall c :: c in t.h.taken[t.h.takenMark..] ==> c.byReader && |c.samples| == c.sz
  {
    RunInv(n, ls);
    SessionSplit(t.h.frames, t.h.frameMark, t.h.taken, t.h.takenMark, Pending(t));
    assert forall i :: 0 <= i < |t.h.taken| && t.h.taken[i].byReader ==> |t.h.taken[i].samples| == t.h.taken[i].sz;
  }

  lemma SessionSplit(frames: seq<Sample>, frameMark: nat, taken: seq<Chunk>, takenMark: nat, rest: seq<Sample>)
    requires frameMark <= |frames| && takenMark <= |taken|
    requires frames == Flat(taken) + rest && Flat(taken[..takenMark]) == frames[..frameMark]
    ensures frames[frameMark..] == Flat(taken[takenMark..]) + rest
  {
    FlatSplit(taken, takenMark);
    CutFront(frames, frameMark, Flat(taken[..takenMark]), Flat(taken[takenMark..]), rest);
  }

  lemma FlatSplit(taken: seq<Chunk>, m: nat)
    requires m <= |taken|
    ensures Flat(taken) == Flat(taken[..m]) + Flat(taken[m..])
  {
    assert taken == taken[..m] + taken[m..];
    FlatConcat(taken[..m], taken[m..]);
  }

  lemma CutFront(frames: seq<Sample>, mark: nat, a: seq<Sample>, b: seq<Sample>, rest: seq<Sample>)
    requires mark <= |frames| && frames[..mark] == a && frames == (a + b) + rest
    ensures frames[mark..] == b + rest
  {
    assert frames == a + (b + rest);
  }

  /**
    What user space receives is the beginning of a chunk fetched from the ready list, as
    long as the caller's buffer allows; or nothing, once a resize has met a reader.
  */
  lemma DeliveriesGenuine(n: nat, ls: seq<Label>, t: State, d: Delivery)
    requires Serialised(ls) && Exec(Init(n), ls) == Some(t) && d in t.h.deliveries
    ensures FromReady(t.h.taken, d.chunk)
    ensures d.samples == d.chunk[..Min(d.max, |d.chunk|)] || d.samples == []
    ensures t.h.clashes == 0 ==> d.samples == d.chunk[..Min(d.max, |d.chunk|)]
  {
    RunInv(n, ls);
    assert Genuine(t, d);
  }

  /**
    Every frame read is accounted for, and the counters are those of the logs.  Samples
    vanish if and only if a resize meets a buffer in a reader's hands.
  */
  lemma SamplesAccounted(n: nat, ls: seq<Label>, t: State)
    requires Serialised(ls) && Exec(Init(n), ls) == Some(t)
    ensures |t.h.frames| ==
      t.h.delivered + t.h.cut + t.h.lost + t.h.discarded + t.h.erased + OwedAll(t.readers) + |Pending(t)|
    ensures t.h.delivered == SumDelivered(t.h.deliveries) && t.h.discarded == SumSwept(t.h.taken)
    ensures t.h.clashes == 0 ==>
      t.h.erased == 0 && t.h.cut == SumCut(t.h.deliveries) && t.h.lost == SumFailed(t.h.endings)
    ensures t.h.clashes > 0 <==> t.h.erased > 0 || SomeEmptied(t)
    ensures AllOutside(t.readers) ==> (t.h.erased == 0 <==> t.h.clashes == 0)
  {
    RunInv(n, ls);
    ClashesShow(t);
  }

  lemma ClashesShow(t: State)
    requires ChunksOk(t) && Shown(t)
    ensures t.h.clashes > 0 <==> t.h.erased > 0 || SomeEmptied(t)
    ensures AllOutside(t.readers) ==> !SomeEmptied(t)
  {
    if SomeEmptied(t) {
      var r :| 0 <= r < |t.readers| && Emptied(t, t.readers[r]);
      assert !Unharmed(t, t.readers[r]);
    }
  }

  /** Every chunk fetched by a reader is delivered, lost in a failed copy or still in hand, and is so exactly once. */
  lemma DeliveredOnce(n: nat, ls: seq<Label>, t: State, c: seq<Sample>)
    requires Exec(Init(n), ls) == Some(t)
    ensures TimesDelivered(t.h.deliveries, c) + TimesFailed(t.h.endings, c) + TimesInHand(t.readers, c)
         == TimesFetched(t.h.taken, c)
  {
    RunBase(n, ls);
  }

  /**
    Every caller of `read` is done with its chunks in the order in which it took them, and
    takes the next only then.  What was delivered to it are those whose copy succeeded, and
    all takes together are the fetches from the ready list, in the order of the stream.
  */
  lemma ReadersInOrder(n: nat, ls: seq<Label>, t: State, r: nat)
    requires Exec(Init(n), ls) == Some(t) && r < n
    ensures |t.readers| == n && EndingsOf(t.h.endings, r) + InHand(t.readers[r]) == TakesOf(t.h.takes, r)
    ensures DeliveredTo(t.h.deliveries, r) == CopiesOf(t.h.endings, r)
    ensures AllTakes(t.h.takes) == ByReaders(t.h.taken)
  {
    RunBase(n, ls);
    SameReaders(n, ls);
  }

  /** Callers of `read` neither come nor go. */
  lemma {:induction false} SameReaders(n: nat, ls: seq<Label>)
    requires Exec(Init(n), ls).Some?
    ensures |Exec(Init(n), ls).value.readers| == n
  {
    if ls != [] {
      var pre := ls[..|ls| - 1];
      SameReaders(n, pre);
      StepKeepsReaders(Exec(Init(n), pre).value, ls[|ls| - 1]);
    }
  }

  lemma StepKeepsReaders(s: State, l: Label)
    requires Enabled(s, l)
    ensures |Step(s, l).readers| == |s.readers|
  {
    match l
    case StepIrq(io) => IrqKeepsBooks(s, io);
    case StepCtl(io) =>
      if Sweeping(s.ctl) {
        assert SweepStep(s).readers == s.readers || SweepStep(s).readers == WakeAll(s.readers);
      } else {
        assert CtlStep(s, io).readers == s.readers;
      }
    case _ =>
  }

  /** Every DRDY edge served is a stored frame, a failed transfer or a drop. */
  lemma RunsAccounted(n: nat, ls: seq<Label>, t: State)
    requires Serialised(ls) && Exec(Init(n), ls) == Some(t) && t.irq.IrqIdle?
    ensures t.h.runs == |t.h.frames| + t.h.failed + t.dropCnt
  {
    RunInv(n, ls);
    assert RunsAddUp(t);
  }

  /** `drop_cnt` counts exactly the runs that found every buffer ready or in a reader's hands. */
  lemma DropsOnlyAtSaturation(n: nat, ls: seq<Label>, t: State, io: Io)
    requires Serialised(ls) && Exec(Init(n), ls) == Some(t) && !t.irq.IrqIdle?
    ensures IrqStep(t, io).irq.CountDrop? <==> t.irq.FetchFree? && Saturated(t)
    ensures IrqStep(t, io).dropCnt == t.dropCnt + if t.irq.CountDrop? then 1 else 0
  {
    RunInv(n, ls);
    DropAtSaturation(t, io);
  }

  // ----- wake-ups -----

  /** The state after the first `i` labels. */
  function StateAt(n: nat, ls: seq<Label>, i: nat): State
    requires i <= |ls| && Exec(Init(n), ls[..i]).Some?
  {
    Exec(Init(n), ls[..i]).value
  }

  lemma {:induction false} PrefixRuns(n: nat, ls: seq<Label>, i: nat)
    requires Exec(Init(n), ls).Some? && i <= |ls|
    ensures Exec(Init(n), ls[..i]).Some?
    decreases |ls| - i
  {
    if i == |ls| {
      assert ls[..i] == ls;
    } else {
      PrefixRuns(n, ls, i + 1);
      assert ls[..i + 1][..i] == ls[..i];
    }
  }

  lemma StepAt(n: nat, ls: seq<Label>, i: nat)
    requires Exec(Init(n), ls).Some? && i < |ls|
    ensures Exec(Init(n), ls[..i]).Some? && Exec(Init(n), ls[..i + 1]).Some?
    ensures Enabled(StateAt(n, ls, i), ls[i])
    ensures StateAt(n, ls, i + 1) == Step(StateAt(n, ls, i), ls[i])
  {
    PrefixRuns(n, ls, i);
    PrefixRuns(n, ls, i + 1);
    assert ls[..i + 1][..i] == ls[..i];
  }

  /** A caller of `read` sleeps on a condition that holds, and nobody is about to wake it. */
  ghost predicate Forgotten(s: State) {
    exists r :: 0 <= r < |s.readers| && Sleeping(s.readers[r]) && (Ready(s) || !s.run) && !WakePending(s)
  }

  ghost predicate ForgottenAt(n: nat, ls: seq<Label>, i: nat)
    requires Exec(Init(n), ls).Some? && i <= |ls|
  {
    PrefixRuns(n, ls, i);
    Forgotten(StateAt(n, ls, i))
  }

  ghost predicate StrandsAt(n: nat, ls: seq<Label>, i: nat)
    requires Exec(Init(n), ls).Some? && i < |ls|
  {
    PrefixRuns(n, ls, i);
    Strands(StateAt(n, ls, i), ls[i])
  }

  lemma StrandForgets(s: State, l: Label)
    requires StartStop.Protocol(s) && Enabled(s, l) && Strands(s, l)
    ensures Forgotten(Step(s, l))
  {
    var r :| 0 <= r < |s.readers| && Sleeping(s.readers[r]);
    var t := Step(s, l);
    assert Sleeping(t.readers[r]) && !t.run && t.irq.IrqIdle?;
  }

  lemma {:induction false} NoneLostUpTo(n: nat, ls: seq<Label>, i: nat)
    requires Serialised(ls) && Exec(Init(n), ls).Some? && i <= |ls|
    requires forall j :: 0 <= j < i ==> !StrandsAt(n, ls, j)
    ensures Exec(Init(n), ls[..i]).Some? && NoneLost(StateAt(n, ls, i))
  {
    if i == 0 {
      InitInv(n);
    } else {
      NoneLostUpTo(n, ls, i - 1);
      StepAt(n, ls, i - 1);
      RunInv(n, ls[..i - 1]);
      assert !StrandsAt(n, ls, i - 1);
      StepWakes(StateAt(n, ls, i - 1), ls[i - 1]);
    }
  }

  /**
    No wake-up is lost in a run if and only if the interrupt request is never refused
    while a caller of `read` sleeps: the early return of `ads131m08_run_cmd` sets
    `run_stat` back to STOP and wakes nobody.
  */
  lemma NoLostWakeup(n: nat, ls: seq<Label>)
    requires Serialised(ls) && Exec(Init(n), ls).Some?
    ensures (forall i :: 0 <= i <= |ls| ==> !ForgottenAt(n, ls, i))
       <==> (forall i :: 0 <= i < |ls| ==> !StrandsAt(n, ls, i))
  {
    if forall i :: 0 <= i < |ls| ==> !StrandsAt(n, ls, i) {
      forall i | 0 <= i <= |ls|
        ensures !ForgottenAt(n, ls, i)
      {
        NoneLostUpTo(n, ls, i);
      }
    } else {
      var i :| 0 <= i < |ls| && StrandsAt(n, ls, i);
      StepAt(n, ls, i);
      RunInv(n, ls[..i]);
      StrandForgets(StateAt(n, ls, i), ls[i]);
      assert ForgottenAt(n, ls, i + 1);
    }
  }

  lemma RunStep(n: nat, ls: seq<Label>, l: Label)
    requires Exec(Init(n), ls).Some? && Enabled(Exec(Init(n), ls).value, l)
    ensures Exec(Init(n), ls + [l]) == Some(Step(Exec(Init(n), ls).value, l))
  {
    assert (ls + [l])[..|ls|] == ls;
  }
}

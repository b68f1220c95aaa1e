/**
  The driver's functions in the order of the source, working on shared fields.

  Each method carries out the atomic sections of one C function.  After every section
  `Yield` lets all other threads take any steps they can.  `Valid` says that the fields
  are those of the step system after the run recorded in `trace`; so everything proved
  about runs holds at every point of these methods.
*/
module Driver {
  import opened Wrappers
  import opened Codec
  import opened Pipeline
  import opened Conservation
  import opened Bounds
  import opened StartStop
  import opened Locations
  import opened Stream
  import opened Wakeups
  import opened BusLog
  import opened Accounting
  import opened Theorems
  import opened Progress

  /** Whose point of view: the thread that is running, or a control call waiting in `free_irq`. */
  datatype Who = Interrupt | ReadCaller(r: nat) | Control | IrqWaiter

  predicate Own(who: Who, l: Label) {
    match who
    case Interrupt => l.Drdy? || l.StepIrq?
    case ReadCaller(r) => (l.Call? || l.StepRead? || l.Signal?) && l.r == r
    case Control => l.Open? || l.Release? || l.Released? || l.Ioctl? || l.StepCtl?
    case IrqWaiter => !(l.Call? || l.StepRead? || l.Signal?)
  }

  /** Every label, but for a stray resize, belongs to one thread and to no other. */
  lemma OneOwner(l: Label)
    requires !l.StrayClear? && !l.StrayPublish?
    ensures Own(Interrupt, l) || Own(Control, l) || exists r :: Own(ReadCaller(r), l)
    ensures !(Own(Interrupt, l) && Own(Control, l))
    ensures forall r :: Own(ReadCaller(r), l) ==> !Own(Interrupt, l) && !Own(Control, l)
    ensures forall r, q :: Own(ReadCaller(r), l) && Own(ReadCaller(q), l) ==> r == q
    ensures Own(IrqWaiter, l) <==> Own(Interrupt, l) || Own(Control, l) || l.StrayClear? || l.StrayPublish?
  {
    if l.Call? || l.StepRead? || l.Signal? {
      assert Own(ReadCaller(l.r), l);
    }
  }

  predicate Foreign(who: Who, ls: seq<Label>) {
    Serialised(ls) && forall i :: 0 <= i < |ls| ==> !Own(who, ls[i])
  }

  predicate ControlSame(s: State, t: State) {
    && t.ctl == s.ctl && t.run == s.run && t.registered == s.registered && t.chunkSz == s.chunkSz
    && t.isOpen == s.isOpen && t.closing == s.closing
  }

  /** What a thread can rely on while others run. */
  predicate Untouched(who: Who, s: State, t: State) {
    match who
    case Interrupt =>
      && t.irq == s.irq && t.smplTs == s.smplTs && t.dropCnt == s.dropCnt
      && t.h.frames == s.h.frames && t.h.failed == s.h.failed
    case ReadCaller(r) =>
      && |t.readers| == |s.readers|
      && (r < |s.readers| ==> t.readers[r] == s.readers[r] || t.readers[r] == Wake(s.readers[r]))
      && s.h.deliveries <= t.h.deliveries
    case Control =>
      && ControlSame(s, t) && CtlWords(t.h.bus) == CtlWords(s.h.bus)
      && (!s.registered && s.irq.IrqIdle? ==> t.irq.IrqIdle? && |t.ready| <= |s.ready| && t.active == s.active)
    case IrqWaiter => ControlSame(s, t) && t.irq == s.irq && CtlWords(t.h.bus) == CtlWords(s.h.bus)
  }

  lemma StepUntouched(who: Who, s: State, l: Label)
    requires Enabled(s, l) && !Own(who, l) && !l.StrayClear? && !l.StrayPublish?
    ensures Untouched(who, s, Step(s, l))
  {
    match l
    case StepIrq(io) =>
      IrqLeaves(s, io);
      IrqWords(s, io);
      assert Untouched(who, s, IrqStep(s, io));
    case StepCtl(io) =>
      CtlLeaves(s, io);
      assert Untouched(who, s, CtlStep(s, io));
    case StepRead(r, copied) =>
      ReadLeaves(s, r, copied);
      assert Untouched(who, s, ReadStep(s, r, copied));
    case _ => EntryUntouched(who, s, l);
  }

  lemma EntryUntouched(who: Who, s: State, l: Label)
    requires Enabled(s, l) && !Own(who, l) && !l.StrayClear? && !l.StrayPublish?
    requires !l.StepIrq? && !l.StepCtl? && !l.StepRead?
    ensures Untouched(who, s, Step(s, l))
  {
  }

  lemma ReadLeaves(s: State, r: nat, copied: bool)
    requires r < |s.readers| && !s.readers[r].Outside?
    ensures var t := ReadStep(s, r, copied);
      && t.h.frames == s.h.frames && t.h.failed == s.h.failed && s.h.deliveries <= t.h.deliveries
      && |t.ready| <= |s.ready|
  {
    if s.readers[r].Grab? {
      assert |GrabStep(s, r).ready| <= |s.ready|;
    } else if !Waiting(s.readers[r]) {
      DeliverLeaves(s, r, copied);
    }
  }

  lemma DeliverLeaves(s: State, r: nat, copied: bool)
    requires r < |s.readers| && ReaderBuf(s.readers[r]).Some?
    ensures s.h.deliveries <= DeliverStep(s, r, copied).h.deliveries
  {
  }

  lemma {:induction false} ForeignKeeps(who: Who, n: nat, pre: seq<Label>, ls: seq<Label>)
    requires Exec(Init(n), pre + ls).Some? && Foreign(who, ls)
    ensures Exec(Init(n), pre).Some?
    ensures Untouched(who, Exec(Init(n), pre).value, Exec(Init(n), pre + ls).value)
    decreases |ls|
  {
    if ls == [] {
      assert pre + ls == pre;
    } else {
      var m := |ls| - 1;
      assert (pre + ls)[..|pre + ls| - 1] == pre + ls[..m];
      ForeignKeeps(who, n, pre, ls[..m]);
      StepUntouched(who, Exec(Init(n), pre + ls[..m]).value, ls[m]);
      UntouchedTwice(who, Exec(Init(n), pre).value, Exec(Init(n), pre + ls[..m]).value, Exec(Init(n), pre + ls).value);
    }
  }

  lemma UntouchedTwice(who: Who, s: State, t: State, u: State)
    requires Untouched(who, s, t) && Untouched(who, t, u)
    ensures Untouched(who, s, u)
  {
    if who.ReadCaller? && who.r < |s.readers| {
      assert Wake(Wake(s.readers[who.r])) == Wake(s.readers[who.r]);
    }
  }

  // ----- what a call can have seen while it ran -----

  datatype Moment =
    | Saturation
    | Halt
    | Running
    | NothingReady
    | Dozing(r: nat)        // asleep, woken or not
    | Sleeper(r: nat)       // asleep, and nobody has woken it
    | Roused(r: nat)        // asleep, and woken
    | NobodyAsleep
    | FirstFree(b: BufId)
    | LastActive(b: BufId)
    | LastReady(b: BufId)
    | Listed(b: BufId)      // at the end of the active or of the ready list
    | Returned(b: BufId)    // at the end of the free list, and empty

  predicate Last(l: seq<BufId>, b: BufId) {
    l != [] && l[|l| - 1] == b
  }

  ghost predicate Saw(s: State, what: Moment) {
    match what
    case Saturation => Saturated(s)
    case Halt => !s.run
    case Running => s.run
    case NothingReady => s.ready == []
    case Dozing(r) => r < |s.readers| && s.readers[r].Asleep?
    case Sleeper(r) => r < |s.readers| && s.readers[r].Asleep? && !s.readers[r].woken
    case Roused(r) => r < |s.readers| && s.readers[r].Asleep? && s.readers[r].woken
    case NobodyAsleep => forall r :: 0 <= r < |s.readers| ==> !Sleeping(s.readers[r])
    case FirstFree(b) => s.free != [] && s.free[0] == b
    case LastActive(b) => Last(s.active, b)
    case LastReady(b) => Last(s.ready, b)
    case Listed(b) => Last(s.active, b) || Last(s.ready, b)
    case Returned(b) => Last(s.free, b) && FreeBuf(s.bufs[b])
  }

  /** At some moment after the first `from` labels, `what` was true. */
  ghost predicate Happened(n: nat, ls: seq<Label>, from: nat, what: Moment) {
    exists i :: from <= i <= |ls| && Exec(Init(n), ls[..i]).Some? && Saw(Exec(Init(n), ls[..i]).value, what)
  }

  lemma HappenedStays(n: nat, pre: seq<Label>, ls: seq<Label>, from: nat, what: Moment)
    requires Happened(n, pre, from, what) && pre <= ls
    ensures Happened(n, ls, from, what)
  {
    var i :| from <= i <= |pre| && Exec(Init(n), pre[..i]).Some? && Saw(Exec(Init(n), pre[..i]).value, what);
    assert ls[..i] == pre[..i];
  }

  lemma HappenedThen(n: nat, pre: seq<Label>, s: State, ls: seq<Label>, from: nat, what: Moment)
    requires Exec(Init(n), pre) == Some(s) && Saw(s, what) && pre <= ls && from <= |pre|
    ensures Happened(n, ls, from, what)
  {
    assert ls[..|pre|] == pre;
  }

  // ----- the turns of a waiting caller -----

  /** What a turn of the loop in `read` came to that did not end it. */
  datatype Turn = Tried | Slept | Woke

  /** Such a turn, between two points of the run: there was nothing to fetch and the device ran, or the caller slept. */
  ghost predicate TurnSeen(n: nat, ls: seq<Label>, lo: nat, hi: nat, r: nat, turn: Turn) {
    && lo <= hi <= |ls|
    && match turn
       case Tried => Happened(n, ls[..hi], lo, NothingReady) && Happened(n, ls[..hi], lo, Running)
       case Slept => Happened(n, ls[..hi], lo, Sleeper(r))
       case Woke => Happened(n, ls[..hi], lo, Roused(r))
  }

  /** Turn after turn from `from` on; the first one tries, and so does the one after a wake-up. */
  ghost predicate AllTurns(n: nat, ls: seq<Label>, from: nat, cuts: seq<nat>, turns: seq<Turn>, r: nat) {
    && |cuts| == |turns| + 1 && from <= cuts[0] && cuts[|turns|] <= |ls|
    && (forall i :: 0 <= i < |turns| ==> TurnSeen(n, ls, cuts[i], cuts[i + 1], r, turns[i]))
    && (turns != [] ==> turns[0] == Tried)
    && (forall i :: 0 <= i < |turns| - 1 && turns[i] == Woke ==> turns[i + 1] == Tried)
  }

  /** Caller `r` has waited for `k` turns. */
  ghost predicate Waited(n: nat, ls: seq<Label>, from: nat, k: nat, r: nat) {
    exists cuts, turns :: |turns| == k && AllTurns(n, ls, from, cuts, turns, r)
  }

  lemma TurnsStay(n: nat, pre: seq<Label>, ls: seq<Label>, from: nat, cuts: seq<nat>, turns: seq<Turn>, r: nat)
    requires AllTurns(n, pre, from, cuts, turns, r) && pre <= ls
    ensures AllTurns(n, ls, from, cuts, turns, r)
  {
    forall i | 0 <= i < |turns|
      ensures TurnSeen(n, ls, cuts[i], cuts[i + 1], r, turns[i])
    {
      assert TurnSeen(n, pre, cuts[i], cuts[i + 1], r, turns[i]);
      assert ls[..cuts[i + 1]] == pre[..cuts[i + 1]];
    }
  }

  /** One more turn, from the last cut to the end of the run. */
  lemma TurnAdded(n: nat, pre: seq<Label>, ls: seq<Label>, from: nat, cuts: seq<nat>, turns: seq<Turn>, r: nat,
                  turn: Turn)
    requires AllTurns(n, pre, from, cuts, turns, r) && pre <= ls && cuts[|turns|] == |pre|
    requires TurnSeen(n, ls, |pre|, |ls|, r, turn)
    requires turns == [] || turns[|turns| - 1] == Woke ==> turn == Tried
    ensures AllTurns(n, ls, from, cuts + [|ls|], turns + [turn], r)
  {
    TurnsStay(n, pre, ls, from, cuts, turns, r);
    var k, cuts', turns' := |turns|, cuts + [|ls|], turns + [turn];
    assert cuts'[k] == |pre| && cuts'[k + 1] == |ls| && turns'[k] == turn;
    forall i | 0 <= i < k
      ensures TurnSeen(n, ls, cuts'[i], cuts'[i + 1], r, turns'[i])
    {
      assert TurnSeen(n, ls, cuts[i], cuts[i + 1], r, turns[i]);
    }
  }

  class Driver {
    // what the C code declares
    var run: bool
    var registered: bool
    var chunkSz: int
    var dropCnt: nat
    var smplTs: int
    var free: seq<BufId>
    var active: seq<BufId>
    var ready: seq<BufId>
    var pool: seq<XferId>
    var bufs: Bufs
    var isOpen: bool
    var closing: bool
    // where each thread is, and the history; only what the kernel does looks at these
    // (waking sleepers, waiting for a thread)
    var irq: Irq
    var readers: seq<Reader>
    var ctl: Ctl
    var h: Hist
    const n: nat
    ghost var trace: seq<Label>

    function St(): State
      reads this
    {
      State(run, registered, chunkSz, dropCnt, smplTs, free, active, ready, pool, bufs, isOpen, closing,
            irq, readers, ctl, h)
    }

    ghost predicate Valid()
      reads this
    {
      Serialised(trace) && Exec(Init(n), trace) == Some(St())
    }

    /** `ads131m08_data_init` and `xfer_buf_init`: every buffer is initialised and put on the free list. */
    constructor (n: nat)
      ensures Valid() && trace == [] && this.n == n
    {
      this.n := n;
      var start := Init(n);
      run, registered, chunkSz, dropCnt, smplTs := false, false, DEFAULT_CHUNK_SZ, 0, 0;
      active, ready := [], [];
      bufs, pool := start.bufs, start.pool;
      isOpen, closing := false, false;
      irq, readers, ctl, h := start.irq, start.readers, start.ctl, start.h;
      free := [0, 1, 2, 3, 4, 5, 6, 7];
      trace := [];
      new;
      assert free == start.free;
    }

    /** Ends an atomic section that began in state `s`: the threads' positions and the history follow. */
    method Commit(s: State, l: Label)
      requires Serialised(trace) && Exec(Init(n), trace) == Some(s)
      requires Enabled(s, l) && !l.StrayClear? && !l.StrayPublish?
      requires St() == Step(s, l).(irq := irq, readers := readers, ctl := ctl, h := h)
      modifies this`irq, this`readers, this`ctl, this`h, this`trace
      ensures Valid() && St() == Step(s, l) && trace == old(trace) + [l]
    {
      var to := Step(s, l);
      irq, readers, ctl, h := to.irq, to.readers, to.ctl, to.h;
      trace := trace + [l];
      RunStep(n, old(trace), l);
    }

    /** Any number of steps of the other threads, from none upwards. */
    method Others(ghost who: Who)
      requires Valid()
      modifies this
      ensures Valid() && old(trace) <= trace && Foreign(who, trace[|old(trace)|..])
    {
    }

    method Yield(ghost who: Who)
      requires Valid()
      modifies this
      ensures Valid() && old(trace) <= trace
      ensures Untouched(who, old(St()), St())
    {
      Others(who);
      ghost var before := old(trace);
      assert trace == before + trace[|before|..];
      ForeignKeeps(who, n, before, trace[|before|..]);
    }

    /** Ends a section of the IRQ thread and lets the others run. */
    method EndIrq(s: State, io: Io)
      requires Serialised(trace) && Exec(Init(n), trace) == Some(s) && !s.irq.IrqIdle?
      requires St() == IrqStep(s, io).(irq := irq, readers := readers, ctl := ctl, h := h)
      modifies this
      ensures Valid() && old(trace) <= trace
      ensures Untouched(Interrupt, IrqStep(s, io), St())
    {
      Commit(s, StepIrq(io));
      Yield(Interrupt);
    }

    // ----- ads131m08_data.c and ads131m08_spi.c: the interrupt -----

    /** `ads131m08_isr` */
    method Isr(ts: int)
      requires Valid() && registered && irq.IrqIdle?
      modifies this
      ensures Valid() && old(trace) <= trace && irq == FetchActive && smplTs == ts
    {
      var s := St();
      smplTs := ts;
      Commit(s, Drdy(ts));
    }

    ghost predicate During(from: nat, what: Moment)
      reads this
    {
      Happened(n, trace, from, what)
    }

    /** The IRQ thread holds no transfer buffer. */
    ghost predicate IrqGaveBack()
      reads this
    {
      forall x: XferId :: x in pool || CtlXfer(ctl) == Some(x)
    }

    /** The control call holds no transfer buffer. */
    ghost predicate CtlGaveBack()
      reads this
    {
      forall x: XferId :: x in pool || IrqXfer(irq) == Some(x)
    }

    lemma Now(from: nat, what: Moment)
      requires Valid() && from <= |trace| && Saw(St(), what)
      ensures During(from, what)
    {
      assert trace[..|trace|] == trace;
    }

    /** What the IRQ thread knows, at whatever step it is. */
    lemma IrqFacts()
      requires Valid()
      ensures SlotOk(irq) && TransferRecorded(St())
      ensures IrqXfer(irq).None? ==> IrqGaveBack()
      ensures irq.TakeXfer? ==> pool != []
      ensures !irq.IrqIdle? ==> smplTs == h.eventTs
    {
      RunInv(n, trace);
      if irq.TakeXfer? {
        PoolSuffices(St());
      }
    }

    /** The new frames, failures and drops between two states. */
    twostate predicate Outcome(news: seq<Sample>, failed: nat, dropped: nat)
      reads this
    {
      && h.frames == old(h.frames) + news && h.failed == old(h.failed) + failed && dropCnt == old(dropCnt) + dropped
      && smplTs == old(smplTs)
    }

    /**
      Between `was` and `now` at most one frame was read; it has the stamp `ts`, and each
      channel from its own three bytes of the transfer.
    */
    static predicate Logged(was: seq<Sample>, now: seq<Sample>, ts: int, io: Io) {
      && |was| <= |now| <= |was| + 1
      && (|now| > |was| ==> io.Ok? && now[|was|].ts == ts && Carries(io.rx, now[|was|].ch))
    }

    static lemma FrameLogged(was: seq<Sample>, now: seq<Sample>, ts: int, io: Io)
      requires now == was || (io.Ok? && now == was + [Sample(ts, Channels(io.rx))])
      ensures Logged(was, now, ts, io)
    {
      if io.Ok? {
        ChannelsCarried(io.rx);
      }
    }

    /** `ads131m08_irq_thread`; `io` is what the SPI transfer brings. */
    method IrqThread(io: Io)
      requires Valid() && irq == FetchActive
      modifies this
      ensures Valid() && old(trace) <= trace && irq == IrqIdle
      ensures
        || (Outcome([], 0, 1) && During(|old(trace)|, Saturation))
        || (io.Fail? && Outcome([], 1, 0))
        || (io.Ok? && Outcome([Sample(old(smplTs), Channels(io.rx))], 0, 0))
      ensures Logged(old(h.frames), h.frames, old(smplTs), io)
    {
      var b := FetchBuf();
      if b.None? {
        ghost var pre := trace;
        Drop();
        HappenedStays(n, pre, trace, |old(trace)|, Saturation);
      } else {
        ReadInto(b.value, io);
      }
      FrameLogged(old(h.frames), h.frames, old(smplTs), io);
    }

    method ReadInto(b: BufId, io: Io)
      requires Valid() && irq == MarkActive(b)
      modifies this
      ensures Valid() && old(trace) <= trace && irq == IrqIdle
      ensures io.Fail? ==> Outcome([], 1, 0)
      ensures io.Ok? ==> Outcome([Sample(old(smplTs), Channels(io.rx))], 0, 0)
      ensures io.Ok? ==> Logged(old(h.frames), h.frames, old(smplTs), io)
      ensures During(|old(trace)|, Listed(b))
    {
      StampSlot(b);
      assert h.frames == old(h.frames) && smplTs == old(smplTs);
      ReadStamped(b, io);
    }

    /** `ads131m08_read_data`; after a failure the buffer goes back to the active list. */
    method ReadStamped(b: BufId, io: Io)
      requires Valid() && irq == TakeXfer(b)
      modifies this
      ensures Valid() && old(trace) <= trace && irq == IrqIdle
      ensures io.Fail? ==> Outcome([], 1, 0)
      ensures io.Ok? ==> Outcome([Sample(old(smplTs), Channels(io.rx))], 0, 0)
      ensures io.Ok? ==> Logged(old(h.frames), h.frames, old(smplTs), io)
      ensures During(|old(trace)|, Listed(b))
    {
      var ret := ReadData(b, io);
      if ret < 0 {
        ChunkBufActive(b);
      }
    }

    method FetchBuf() returns (b: Option<BufId>)
      requires Valid() && irq == FetchActive
      modifies this
      ensures Valid() && old(trace) <= trace && Outcome([], 0, 0)
      ensures irq == if b.Some? then MarkActive(b.value) else CountDrop
      ensures old(active) != [] ==> b == Some(old(active)[0])
      ensures old(active) == [] && b.Some? ==> During(|old(trace)|, FirstFree(b.value))
      ensures b.None? ==> During(|old(trace)|, Saturation)
    {
      b := FetchActiveList();
      if b.None? {
        b := FetchFreeList();
      }
    }

    method FetchActiveList() returns (b: Option<BufId>)
      requires Valid() && irq == FetchActive
      modifies this
      ensures Valid() && old(trace) <= trace && Outcome([], 0, 0)
      ensures irq == if b.Some? then MarkActive(b.value) else FetchFree
      ensures b == if old(active) == [] then None else Some(old(active)[0])
    {
      b := None;
      var s := St();
      if active != [] {
        b, active := Some(active[0]), active[1..];
      }
      EndIrq(s, Fail(-1));
    }

    method FetchFreeList() returns (b: Option<BufId>)
      requires Valid() && irq == FetchFree
      modifies this
      ensures Valid() && old(trace) <= trace && Outcome([], 0, 0)
      ensures irq == if b.Some? then MarkActive(b.value) else CountDrop
      ensures b == if old(free) == [] then None else Some(old(free)[0])
      ensures b.None? ==> During(|old(trace)|, Saturation)
      ensures b.Some? ==> During(|old(trace)|, FirstFree(b.value))
    {
      ghost var pre, s := trace, St();
      EmptyIsSaturated();
      b := TakeFree();
      HappenedThen(n, pre, s, trace, |pre|, if b.None? then Saturation else FirstFree(b.value));
    }

    lemma EmptyIsSaturated()
      requires Valid() && irq == FetchFree
      ensures free == [] <==> Saturated(St())
    {
      RunInv(n, trace);
      FetchFreeSaturated(St());
    }

    method TakeFree() returns (b: Option<BufId>)
      requires Valid() && irq == FetchFree
      modifies this
      ensures Valid() && old(trace) <= trace && Outcome([], 0, 0)
      ensures irq == if b.Some? then MarkActive(b.value) else CountDrop
      ensures b == if old(free) == [] then None else Some(old(free)[0])
    {
      b := None;
      var s := St();
      if free != [] {
        b, free := Some(free[0]), free[1..];
      }
      EndIrq(s, Fail(-1));
    }

    /** No buffer: the frame is counted as dropped, then read and thrown away. */
    method Drop()
      requires Valid() && irq == CountDrop
      modifies this
      ensures Valid() && old(trace) <= trace && irq == IrqIdle && Outcome([], 0, 1)
    {
      CountDropped();
      var s := St();
      EndIrq(s, Fail(-1));   // ads131m08_read_data_discard
    }

    method CountDropped()
      requires Valid() && irq == CountDrop
      modifies this
      ensures Valid() && old(trace) <= trace && irq == Discard && Outcome([], 0, 1)
    {
      var s := St();
      dropCnt := dropCnt + 1;
      EndIrq(s, Fail(-1));
    }

    /** Marks the buffer active and stamps the slot to be filled. */
    method StampSlot(b: BufId)
      requires Valid() && irq == MarkActive(b)
      modifies this
      ensures Valid() && old(trace) <= trace && irq == TakeXfer(b) && Outcome([], 0, 0)
      ensures bufs[b].stat == StatActive && NextSlot(bufs[b]).ts == smplTs
    {
      SetActive(b);
      var slot := SmplDataGet(b);
      StoreTs(b, slot);
      StampStands(b);
    }

    lemma StampStands(b: BufId)
      requires Valid() && irq == TakeXfer(b)
      ensures bufs[b].stat == StatActive && NextSlot(bufs[b]).ts == smplTs
    {
      RunInv(n, trace);
      assert At(St(), b, WithIrq);
      assert Agrees(St(), bufs[b], WithIrq);
    }

    method SetActive(b: BufId)
      requires Valid() && irq == MarkActive(b)
      modifies this
      ensures Valid() && old(trace) <= trace && irq == FindStamp(b) && Outcome([], 0, 0)
    {
      var s := St();
      bufs := bufs[b := bufs[b].(stat := StatActive)];
      EndIrq(s, Fail(-1));
    }

    /** `ads131m08_smpl_data_get`, as an index into `data`; it is called for the time stamp and again for the values. */
    method SmplDataGet(b: BufId) returns (slot: int)
      requires Valid() && (irq == FindStamp(b) || (irq.FindSlot? && irq.b == b))
      modifies this
      ensures Valid() && old(trace) <= trace && Outcome([], 0, 0)
      ensures old(irq).FindStamp? ==> irq == Stamp(b, slot)
      ensures old(irq).FindSlot? ==> irq == Decode(b, old(irq).x, old(irq).rx, slot)
      ensures slot == old(bufs[b].idx) && 0 <= slot < MAX_CHUNK_SZ
    {
      IrqFacts();
      var s := St();
      slot := bufs[b].idx;
      EndIrq(s, Fail(-1));
      IrqFacts();
    }

    method StoreTs(b: BufId, slot: int)
      requires Valid() && irq == Stamp(b, slot)
      modifies this
      ensures Valid() && old(trace) <= trace && irq == TakeXfer(b) && Outcome([], 0, 0)
    {
      var s := St();
      bufs := bufs[b := bufs[b].SetTs(slot, smplTs)];
      EndIrq(s, Fail(-1));
    }

    /** `ads131m08_read_data` */
    method ReadData(b: BufId, io: Io) returns (ret: int)
      requires Valid() && irq == TakeXfer(b)
      modifies this
      ensures Valid() && old(trace) <= trace
      ensures ret < 0 ==> io.Fail? && irq == PutActive(b) && Outcome([], 1, 0)
      ensures ret >= 0 ==> ret == 0 && io.Ok? && irq == IrqIdle
      ensures ret >= 0 ==> Outcome([Sample(old(smplTs), Channels(io.rx))], 0, 0)
      ensures ret >= 0 ==> Logged(old(h.frames), h.frames, old(smplTs), io)
      ensures ret >= 0 ==> During(|old(trace)|, Listed(b))
      ensures IrqGaveBack()
    {
      var x := GetXferBuf(b);
      ret := TransferInto(b, x, io);
      FrameLogged(old(h.frames), h.frames, old(smplTs), io);
    }

    method TransferInto(b: BufId, x: XferId, io: Io) returns (ret: int)
      requires Valid() && irq == ReadFrame(b, x)
      modifies this
      ensures Valid() && old(trace) <= trace && IrqGaveBack()
      ensures ret == if io.Fail? then io.err else 0
      ensures io.Fail? ==> irq == PutActive(b) && Outcome([], 1, 0)
      ensures io.Ok? ==> irq == IrqIdle && Outcome([Sample(old(smplTs), Channels(io.rx))], 0, 0)
      ensures io.Ok? ==> During(|old(trace)|, Listed(b))
    {
      SpiTransfer(b, x, io);
      ret := FinishTransfer(b, x, io);
    }

    /** What `ads131m08_read_data` does with the outcome. */
    method FinishTransfer(b: BufId, x: XferId, io: Io) returns (ret: int)
      requires Valid() && irq == if io.Fail? then Abort(b, x) else FindSlot(b, x, io.rx)
      modifies this
      ensures Valid() && old(trace) <= trace && IrqGaveBack()
      ensures ret == if io.Fail? then io.err else 0
      ensures io.Fail? ==> irq == PutActive(b) && Outcome([], 1, 0)
      ensures io.Ok? ==> irq == IrqIdle && Outcome([], 0, 0) && During(|old(trace)|, Listed(b))
    {
      match io
      case Fail(err) =>
        GiveUp(b, x);
        ret := err;
      case Ok(rx) =>
        XferComplete(b, x, rx);
        ret := 0;
    }

    /** `get_xfer_buf`, recorded in the chunk buffer; it always finds one. */
    method GetXferBuf(b: BufId) returns (x: XferId)
      requires Valid() && irq == TakeXfer(b)
      modifies this
      ensures Valid() && old(trace) <= trace && irq == ReadFrame(b, x) && Outcome([], 0, 0)
      ensures bufs[b].xfer == Some(x)
    {
      IrqFacts();
      var s := St();
      x := FetchXfer(b);
      EndIrq(s, Fail(-1));
      IrqFacts();
    }

    /** `list_fetch` on the pool, and a note in the chunk buffer. */
    method FetchXfer(b: BufId) returns (x: XferId)
      requires pool != []
      modifies this`pool, this`bufs
      ensures x == old(pool)[0]
      ensures St() == old(St()).(pool := old(pool)[1..], bufs := old(bufs)[b := old(bufs)[b].(xfer := Some(x))])
    {
      x := pool[0];
      pool := pool[1..];
      bufs := bufs[b := bufs[b].(xfer := Some(x))];
    }

    /** `spi_sync_transfer` on the data path. */
    method SpiTransfer(b: BufId, x: XferId, io: Io)
      requires Valid() && irq == ReadFrame(b, x)
      modifies this
      ensures Valid() && old(trace) <= trace
      ensures io.Fail? ==> irq == Abort(b, x) && Outcome([], 0, 0)
      ensures io.Ok? ==> irq == FindSlot(b, x, io.rx)
      ensures io.Ok? ==> Outcome([Sample(old(smplTs), Channels(io.rx))], 0, 0)
    {
      IrqFacts();
      var s := St();
      EndIrq(s, io);
    }

    /** `return_xfer_buf`, with the chunk buffer that used it. */
    method ReturnXfer(b: BufId, x: XferId, buf: Buf)
      modifies this`bufs, this`pool
      ensures St() == old(St()).(bufs := old(bufs)[b := buf], pool := old(pool) + [x])
    {
      bufs := bufs[b := buf];
      pool := pool + [x];
    }

    method GiveUp(b: BufId, x: XferId)
      requires Valid() && irq == Abort(b, x)
      modifies this
      ensures Valid() && old(trace) <= trace && irq == PutActive(b) && Outcome([], 1, 0) && IrqGaveBack()
    {
      var s := St();
      var buf := bufs[b].(xfer := None);
      AbortIs(s, b, x, buf);
      ReturnXfer(b, x, buf);
      EndIrq(s, Fail(-1));
      IrqFacts();
    }

    static lemma AbortIs(s: State, b: BufId, x: XferId, buf: Buf)
      requires s.irq == Abort(b, x) && buf == s.bufs[b].(xfer := None)
      ensures IrqStep(s, Fail(-1)) ==
        s.(bufs := s.bufs[b := buf], pool := s.pool + [x], irq := PutActive(b),
           h := s.h.(failed := s.h.failed + 1))
    {
    }

    /** `xfer_complete`; its test for a missing transfer never fails. */
    method XferComplete(b: BufId, x: XferId, rx: DataFrame)
      requires Valid() && irq == FindSlot(b, x, rx)
      modifies this
      ensures Valid() && old(trace) <= trace && irq == IrqIdle && Outcome([], 0, 0)
      ensures During(|old(trace)|, Listed(b))
      ensures IrqGaveBack()
    {
      IrqFacts();
      var xfer := bufs[b].xfer;
      if xfer.Some? {
        var slot := SmplDataGet(b);
        StoreChannels(b, xfer.value, rx, slot);
        FileBuf(b);
        IrqFacts();
      }
    }

    lemma SinceEarlier(from: nat, lo: nat, what: Moment)
      requires During(lo, what) && from <= lo
      ensures During(from, what)
    {
      var i :| lo <= i <= |trace| && Exec(Init(n), trace[..i]).Some? && Saw(Exec(Init(n), trace[..i]).value, what);
    }

    /** The sample counts from here on; a full buffer is for the readers. */
    method FileBuf(b: BufId)
      requires Valid() && irq == Bump(b)
      modifies this
      ensures Valid() && old(trace) <= trace && irq == IrqIdle && Outcome([], 0, 0)
      ensures During(|old(trace)|, Listed(b))
    {
      var full := CountSample(b);
      ghost var from := |trace|;
      if full {
        ChunkBufReady(b);
      } else {
        ChunkBufActive(b);
      }
      SinceEarlier(|old(trace)|, from, Listed(b));
    }

    method StoreChannels(b: BufId, x: XferId, rx: DataFrame, slot: int)
      requires Valid() && irq == Decode(b, x, rx, slot)
      modifies this
      ensures Valid() && old(trace) <= trace && irq == Bump(b) && Outcome([], 0, 0)
      ensures h.frames != [] && NextSlot(bufs[b]) == h.frames[|h.frames| - 1]
    {
      var s := St();
      var buf := bufs[b].SetChannels(slot, Channels(rx)).(xfer := None);
      DecodeIs(s, b, x, buf);
      ReturnXfer(b, x, buf);
      EndIrq(s, Fail(-1));
      SlotLogged(b);
    }

    /** The slot that is about to be counted holds the frame logged last. */
    lemma SlotLogged(b: BufId)
      requires Valid() && irq == Bump(b)
      ensures h.frames != [] && NextSlot(bufs[b]) == h.frames[|h.frames| - 1]
    {
      RunInv(n, trace);
      LastInFlight(St());
    }

    static lemma LastInFlight(s: State)
      requires InOrder(s) && s.irq.Bump?
      ensures s.h.frames != [] && NextSlot(s.bufs[s.irq.b]) == s.h.frames[|s.h.frames| - 1]
    {
      assert IrqTail(s)[|IrqTail(s)| - 1] == NextSlot(s.bufs[s.irq.b]);
    }

    static lemma DecodeIs(s: State, b: BufId, x: XferId, buf: Buf)
      requires s.irq.Decode? && s.irq.b == b && s.irq.x == x
      requires buf == s.bufs[b].SetChannels(s.irq.slot, Channels(s.irq.rx)).(xfer := None)
      ensures IrqStep(s, Fail(-1)) == s.(bufs := s.bufs[b := buf], pool := s.pool + [x], irq := Bump(b))
    {
    }

    method CountSample(b: BufId) returns (full: bool)
      requires Valid() && irq == Bump(b)
      modifies this
      ensures Valid() && old(trace) <= trace && Outcome([], 0, 0)
      ensures irq == if full then PutReady(b) else PutActive(b)
      ensures full == (old(bufs[b].idx) + 1 >= old(bufs[b].chunkSz))
    {
      var s := St();
      var buf := bufs[b].(idx := bufs[b].idx + 1);
      full := buf.idx >= buf.chunkSz;
      if full {
        buf := buf.(stat := StatReady);
      }
      BumpIs(s, b, buf);
      StoreBuf(b, buf);
      EndIrq(s, Fail(-1));
    }

    /** Writes the fields of a chunk buffer. */
    method StoreBuf(b: BufId, buf: Buf)
      modifies this`bufs
      ensures St() == old(St()).(bufs := old(bufs)[b := buf])
    {
      bufs := bufs[b := buf];
    }

    static lemma BumpIs(s: State, b: BufId, buf: Buf)
      requires s.irq == Bump(b)
      requires var next := s.bufs[b].(idx := s.bufs[b].idx + 1);
        buf == if next.idx >= next.chunkSz then next.(stat := StatReady) else next
      ensures IrqStep(s, Fail(-1)) ==
        s.(bufs := s.bufs[b := buf], irq := if buf.idx >= buf.chunkSz then PutReady(b) else PutActive(b))
    {
    }

    /** `ads131m08_chunk_buf_active` */
    method ChunkBufActive(b: BufId)
      requires Valid() && irq == PutActive(b)
      modifies this
      ensures Valid() && old(trace) <= trace && irq == IrqIdle && Outcome([], 0, 0)
      ensures During(|old(trace)|, LastActive(b)) && During(|old(trace)|, Listed(b))
    {
      AppendActive(b);
      Now(|old(trace)|, LastActive(b));
      Now(|old(trace)|, Listed(b));
      ghost var pre := trace;
      Yield(Interrupt);
      HappenedStays(n, pre, trace, |old(trace)|, LastActive(b));
      HappenedStays(n, pre, trace, |old(trace)|, Listed(b));
    }

    /** `list_append` on the active list. */
    method AppendActive(b: BufId)
      requires Valid() && irq == PutActive(b)
      modifies this
      ensures Valid() && old(trace) <= trace && irq == IrqIdle && Outcome([], 0, 0) && active == old(active) + [b]
    {
      var s := St();
      active := active + [b];
      Commit(s, StepIrq(Fail(-1)));
    }

    /** `ads131m08_chunk_buf_ready` */
    method ChunkBufReady(b: BufId)
      requires Valid() && irq == PutReady(b)
      modifies this
      ensures Valid() && old(trace) <= trace && irq == IrqIdle && Outcome([], 0, 0)
      ensures During(|old(trace)|, LastReady(b)) && During(|old(trace)|, Listed(b))
      ensures During(|old(trace)|, NobodyAsleep)
    {
      AppendReady(b);
      Now(|old(trace)|, LastReady(b));
      Now(|old(trace)|, Listed(b));
      ghost var pre := trace;
      Yield(Interrupt);
      WakeUpReaders();
      HappenedStays(n, pre, trace, |old(trace)|, LastReady(b));
      HappenedStays(n, pre, trace, |old(trace)|, Listed(b));
    }

    /** `list_append` on the ready list. */
    method AppendReady(b: BufId)
      requires Valid() && irq == PutReady(b)
      modifies this
      ensures Valid() && old(trace) <= trace && irq == WakeReaders && Outcome([], 0, 0) && ready == old(ready) + [b]
    {
      var s := St();
      ready := ready + [b];
      Commit(s, StepIrq(Fail(-1)));
    }

    method WakeNow()
      requires Valid() && irq == WakeReaders
      modifies this
      ensures Valid() && old(trace) <= trace && irq == IrqIdle && Outcome([], 0, 0)
      ensures Saw(St(), NobodyAsleep)
    {
      var s := St();
      Commit(s, StepIrq(Fail(-1)));
      assert St() == HandStep(s);
    }

    /** `wake_up_interruptible` */
    method WakeUpReaders()
      requires Valid() && irq == WakeReaders
      modifies this
      ensures Valid() && old(trace) <= trace && irq == IrqIdle && Outcome([], 0, 0)
      ensures During(|old(trace)|, NobodyAsleep)
    {
      WakeNow();
      Now(|old(trace)|, NobodyAsleep);
      ghost var pre := trace;
      Yield(Interrupt);
      HappenedStays(n, pre, trace, |old(trace)|, NobodyAsleep);
    }

    // ----- ads131m08_iface.c: read() -----

    /** Callers of `read` neither come nor go, and what was delivered stays delivered. */
    twostate predicate Steady()
      reads this
    {
      |readers| == |old(readers)| && old(h.deliveries) <= h.deliveries
    }

    method EndRead(s: State, r: nat, copied: bool)
      requires Serialised(trace) && Exec(Init(n), trace) == Some(s)
      requires r < |s.readers| && !s.readers[r].Outside? && (s.readers[r].Asleep? ==> s.readers[r].woken)
      requires St() == ReadStep(s, r, copied).(irq := irq, readers := readers, ctl := ctl, h := h)
      modifies this
      ensures Valid() && old(trace) <= trace
      ensures Untouched(ReadCaller(r), ReadStep(s, r, copied), St())
    {
      Commit(s, StepRead(r, copied));
      Yield(ReadCaller(r));
    }

    /** One pass of `wait_event_interruptible`: join the queue, test both halves of the condition, or sleep. */
    method WaitForData(r: nat) returns (go: bool)
      requires Valid() && r < |readers| && readers[r].Prepare?
      modifies this
      ensures Valid() && old(trace) <= trace && Steady()
      ensures go ==> readers[r] == Grab(old(readers[r].max))
      ensures !go ==> readers[r].Asleep? && readers[r].max == old(readers[r].max)
      ensures !go ==> During(|old(trace)|, NothingReady) && During(|old(trace)|, Running)
    {
      JoinQueue(r);
      ghost var pre, s := trace, St();
      go := TestReady(r);
      if !go {
        ghost var pre', s' := trace, St();
        go := TestStop(r);
        if !go {
          HappenedThen(n, pre, s, trace, |old(trace)|, NothingReady);
          HappenedThen(n, pre', s', trace, |old(trace)|, Running);
        }
      }
    }

    method JoinQueue(r: nat)
      requires Valid() && r < |readers| && readers[r].Prepare?
      modifies this
      ensures Valid() && old(trace) <= trace && Steady()
      ensures readers[r].CheckReady? && readers[r].max == old(readers[r].max)
    {
      var s := St();
      EndRead(s, r, true);
    }

    method TestReady(r: nat) returns (some: bool)
      requires Valid() && r < |readers| && readers[r].CheckReady?
      modifies this
      ensures Valid() && old(trace) <= trace && Steady()
      ensures some == (old(ready) != [])
      ensures some ==> readers[r] == Grab(old(readers[r].max))
      ensures !some ==> readers[r].CheckStop? && readers[r].max == old(readers[r].max)
    {
      var s := St();
      some := ready != [];
      EndRead(s, r, true);
    }

    method TestStop(r: nat) returns (stopped: bool)
      requires Valid() && r < |readers| && readers[r].CheckStop?
      modifies this
      ensures Valid() && old(trace) <= trace && Steady()
      ensures stopped == !old(run)
      ensures stopped ==> readers[r] == Grab(old(readers[r].max))
      ensures !stopped ==> readers[r].Asleep? && readers[r].max == old(readers[r].max)
    {
      var s := St();
      stopped := !run;
      EndRead(s, r, true);
    }

    /** The scheduler's part: a sleeper that has been woken goes on. */
    method SleepOn(r: nat) returns (awake: bool)
      requires Valid() && r < |readers| && readers[r].Asleep?
      modifies this
      ensures Valid() && old(trace) <= trace && Steady()
      ensures awake == old(readers[r].woken)
      ensures awake ==> readers[r] == Prepare(old(readers[r].max))
      ensures !awake ==> readers[r].Asleep? && readers[r].max == old(readers[r].max)
    {
      awake := readers[r].woken;
      if awake {
        var s := St();
        EndRead(s, r, true);
      } else {
        Yield(ReadCaller(r));
      }
    }

    /** A signal ends the wait. */
    method Interrupted(r: nat)
      requires Valid() && r < |readers| && readers[r].Asleep?
      modifies this
      ensures Valid() && old(trace) <= trace && Steady() && readers[r] == Outside
    {
      var s := St();
      Commit(s, Signal(r));
      Yield(ReadCaller(r));
    }

    method EnterRead(r: nat, count: nat)
      requires Valid() && isOpen && !closing && r < |readers| && readers[r].Outside?
      modifies this
      ensures Valid() && old(trace) <= trace && Steady()
      ensures readers[r] == if count < SMPL_DATA_SZ then Outside else Prepare(count / SMPL_DATA_SZ)
    {
      var s := St();
      Commit(s, Call(r, count));
      Yield(ReadCaller(r));
    }

    /**
      `ads131m08_read`, for `|signals|` turns of its loop: None when the caller is still
      waiting after them.  `signals[i]` tells whether a signal meets it asleep at turn `i`.
    */
    method Read(r: nat, count: nat, signals: seq<bool>, copied: bool) returns (ret: Option<int>)
      requires Valid() && isOpen && !closing && r < |readers| && readers[r].Outside?
      modifies this
      ensures Valid() && old(trace) <= trace && Steady()
      ensures ret.Some? <==> readers[r].Outside?
      ensures ret == Some(EINVAL) <==> count < 40
      ensures ret == Some(EINTR) ==> true in signals && During(|old(trace)|, Dozing(r))
      ensures ret == Some(EFAULT) ==> !copied
      ensures ret.Some? && ret.value !in {EINVAL, EINTR, EFAULT} ==>
        || (ret.value == 0 && During(|old(trace)|, Halt) && During(|old(trace)|, NothingReady))
        || (copied && Served(old(h.deliveries), h.deliveries, count / 40, ret.value))
      ensures ret.Some? ==> ret.value <= count
      ensures ret.None? ==> Waited(n, trace, |old(trace)|, |signals|, r)
      ensures ret.None? && signals != [] ==> During(|old(trace)|, NothingReady) && During(|old(trace)|, Running)
    {
      ret := None;
      EnterRead(r, count);
      if count < SMPL_DATA_SZ {
        return Some(EINVAL);
      }
      var asleep, max := false, count / SMPL_DATA_SZ;
      assert max == count / 40 && max * 40 <= count;
      ghost var cuts: seq<nat>, turns: seq<Turn> := [|trace|], [];
      for i := 0 to |signals|
        invariant Valid() && old(trace) <= trace && Steady() && ret.None?
        invariant if asleep then readers[r].Asleep? else readers[r].Prepare?
        invariant readers[r].max == max
        invariant |turns| == i && AllTurns(n, trace, |old(trace)|, cuts, turns, r) && cuts[i] == |trace|
        invariant turns == [] || turns[i - 1] == Woke ==> !asleep
      {
        ghost var pre := trace;
        ghost var turn;
        asleep, ret, turn := OneTurn(r, max, asleep, signals[i], copied);
        if ret.Some? {
          return;
        }
        TurnAdded(n, pre, trace, |old(trace)|, cuts, turns, r, turn);
        cuts, turns := cuts + [|trace|], turns + [turn];
      }
      if signals != [] {
        FirstTried(n, trace, |old(trace)|, cuts, turns, r);
      }
    }

    /** The first turn has looked. */
    static lemma FirstTried(n: nat, ls: seq<Label>, from: nat, cuts: seq<nat>, turns: seq<Turn>, r: nat)
      requires AllTurns(n, ls, from, cuts, turns, r) && turns != []
      ensures Happened(n, ls, from, NothingReady) && Happened(n, ls, from, Running)
    {
      assert turns[0] == Tried && TurnSeen(n, ls, cuts[0], cuts[0 + 1], r, turns[0]);
      EarlierFrom(n, ls, cuts[0], cuts[1], from, NothingReady);
      EarlierFrom(n, ls, cuts[0], cuts[1], from, Running);
    }

    static lemma EarlierFrom(n: nat, ls: seq<Label>, lo: nat, hi: nat, from: nat, what: Moment)
      requires hi <= |ls| && from <= lo && Happened(n, ls[..hi], lo, what)
      ensures Happened(n, ls, from, what)
    {
      HappenedStays(n, ls[..hi], ls, lo, what);
      var i :| lo <= i <= |ls| && Exec(Init(n), ls[..i]).Some? && Saw(Exec(Init(n), ls[..i]).value, what);
    }

    /** One turn of the loop; a signal ends a sleep, a wake-up lets the caller look again. */
    method OneTurn(r: nat, max: nat, asleep: bool, signal: bool, copied: bool)
      returns (still: bool, ret: Option<int>, ghost turn: Turn)
      requires Valid() && r < |readers| && (if asleep then readers[r].Asleep? else readers[r].Prepare?)
      requires readers[r].max == max
      modifies this
      ensures Valid() && old(trace) <= trace && Steady()
      ensures asleep && signal <==> ret == Some(EINTR)
      ensures ret.Some? ==> readers[r].Outside?
      ensures ret.None? ==> (if still then readers[r].Asleep? else readers[r].Prepare?) && readers[r].max == max
      ensures ret.None? ==> TurnSeen(n, trace, |old(trace)|, |trace|, r, turn)
      ensures ret.None? ==> (turn == Woke ==> !still) && (!asleep ==> turn == Tried)
      ensures asleep ==> During(|old(trace)|, Dozing(r))
      ensures ret.None? && asleep ==> still == !old(readers[r].woken)
      ensures ret.Some? && ret.value != EINTR ==>
        || (ret.value == 0 && During(|old(trace)|, Halt) && During(|old(trace)|, NothingReady))
        || (!copied && ret.value == EFAULT)
        || (copied && Served(old(h.deliveries), h.deliveries, max, ret.value))
    {
      still, ret, turn := false, None, Tried;
      ghost var pre, s := trace, St();
      if asleep && signal {
        Interrupted(r);
        ret := Some(EINTR);
      } else if asleep {
        var awake := SleepOn(r);
        still, turn := !awake, if awake then Woke else Slept;
        HappenedThen(n, pre, s, trace, |pre|, if awake then Roused(r) else Sleeper(r));
      } else {
        still, ret := Attempt(r, max, copied);
      }
      if asleep {
        HappenedThen(n, pre, s, trace, |pre|, Dozing(r));
      }
      assert trace[..|trace|] == trace;
    }

    /** One turn of the loop that does not begin asleep. */
    method Attempt(r: nat, max: nat, copied: bool) returns (asleep: bool, ret: Option<int>)
      requires Valid() && r < |readers| && readers[r] == Prepare(max)
      modifies this
      ensures Valid() && old(trace) <= trace && Steady()
      ensures ret.Some? ==> readers[r].Outside?
      ensures ret.None? ==> (if asleep then readers[r].Asleep? else readers[r].Prepare?) && readers[r].max == max
      ensures ret.None? ==> During(|old(trace)|, NothingReady) && During(|old(trace)|, Running)
      ensures ret.Some? ==>
        || (ret.value == 0 && During(|old(trace)|, Halt) && During(|old(trace)|, NothingReady))
        || (!copied && ret.value == EFAULT)
        || (copied && Served(old(h.deliveries), h.deliveries, max, ret.value))
    {
      asleep, ret := false, None;
      var go := WaitForData(r);
      if !go {
        asleep := true;
        return;
      }
      ghost var pre, s := trace, St();
      var b := DataGet(r);
      if b.Some? {
        var bytes := ReadOut(r, max, b.value, copied);
        ret := Some(bytes);
      } else {
        ghost var pre', s' := trace, St();
        var stop := StopOrRetry(r);
        HappenedThen(n, pre, s, trace, |old(trace)|, NothingReady);
        HappenedThen(n, pre', s', trace, |old(trace)|, if stop then Halt else Running);
        ret := if stop then Some(0) else None;
      }
    }

    /** `ads131m08_data_get` */
    method DataGet(r: nat) returns (b: Option<BufId>)
      requires Valid() && r < |readers| && readers[r].Grab?
      modifies this
      ensures Valid() && old(trace) <= trace && Steady()
      ensures b == if old(ready) == [] then None else Some(old(ready)[0])
      ensures b.None? ==> readers[r] == Missed(old(readers[r].max))
      ensures b.Some? ==> readers[r].Holding? && readers[r].b == b.value && readers[r].max == old(readers[r].max)
    {
      var s := St();
      b := FetchReady();
      GrabIs(s, r);
      EndRead(s, r, true);
    }

    /** `list_fetch` on the ready list. */
    method FetchReady() returns (b: Option<BufId>)
      modifies this`ready
      ensures b == if old(ready) == [] then None else Some(old(ready)[0])
      ensures St() == old(St()).(ready := if old(ready) == [] then [] else old(ready)[1..])
    {
      b := None;
      if ready != [] {
        b, ready := Some(ready[0]), ready[1..];
      }
    }

    static lemma GrabIs(s: State, r: nat)
      requires r < |s.readers| && s.readers[r].Grab?
      ensures var t, max := ReadStep(s, r, true), s.readers[r].max;
        && |t.readers| == |s.readers|
        && t == s.(ready := if s.ready == [] then [] else s.ready[1..], readers := t.readers, h := t.h)
        && t.readers[r] == if s.ready == [] then Missed(max) else Holding(max, s.ready[0], s.bufs[s.ready[0]].Filled())
    {
    }

    /** Nothing there after all: give up on a stopped device, else go back to waiting. */
    method StopOrRetry(r: nat) returns (stop: bool)
      requires Valid() && r < |readers| && readers[r].Missed?
      modifies this
      ensures Valid() && old(trace) <= trace && Steady()
      ensures readers[r] == if stop then Outside else Prepare(old(readers[r].max))
      ensures stop == !old(run)
    {
      var s := St();
      stop := !run;
      EndRead(s, r, true);
    }

    /** Between `was` and `now`, `ret` bytes have gone to a caller with room for `max` samples. */
    static ghost predicate Served(was: seq<Delivery>, now: seq<Delivery>, max: nat, ret: int) {
      exists i :: |was| <= i < |now| && now[i].max == max && ret == |now[i].samples| * 40
        && |now[i].samples| <= max
    }

    /** The same, and they are from `chunk`. */
    static ghost predicate Gave(was: seq<Delivery>, now: seq<Delivery>, max: nat, chunk: seq<Sample>, ret: int) {
      exists i :: |was| <= i < |now|
        && now[i].max == max && now[i].chunk == chunk && ret == |now[i].samples| * 40
        && |now[i].samples| <= max
    }

    /** The part of `ads131m08_read` after the loop; `copied` is the outcome of `copy_to_user`. */
    method ReadOut(r: nat, max: nat, b: BufId, copied: bool) returns (ret: int)
      requires Valid() && r < |readers| && readers[r].Holding? && readers[r].max == max && readers[r].b == b
      modifies this
      ensures Valid() && old(trace) <= trace && Steady() && readers[r] == Outside
      ensures !copied ==> ret == EFAULT
      ensures copied ==> Gave(old(h.deliveries), h.deliveries, max, old(readers[r].chunk), ret)
      ensures During(|old(trace)|, Returned(b))
    {
      var got := FillLevel(r, b);
      ret := CopyToUser(r, max, b, got, copied);
      DataReturn(r, b);
    }

    method FillLevel(r: nat, b: BufId) returns (got: int)
      requires Valid() && r < |readers| && readers[r].Holding? && readers[r].b == b
      modifies this
      ensures Valid() && old(trace) <= trace && Steady()
      ensures var was := old(readers[r]); readers[r] == Copying(was.max, b, was.chunk, got)
    {
      var s := St();
      got := bufs[b].idx;
      EndRead(s, r, true);
    }

    lemma GotInRange(r: nat)
      requires Valid() && r < |readers| && readers[r].Copying?
      ensures 0 <= readers[r].got <= MAX_CHUNK_SZ
    {
      RunBase(n, trace);
      assert ReaderOk(readers[r]);
    }

    method CopyToUser(r: nat, max: nat, b: BufId, got: int, copied: bool) returns (ret: int)
      requires Valid() && r < |readers| && readers[r].Copying?
      requires readers[r].max == max && readers[r].b == b && readers[r].got == got
      modifies this
      ensures Valid() && old(trace) <= trace && Steady()
      ensures readers[r] == Clearing(b)
      ensures !copied ==> ret == EFAULT
      ensures copied ==> Gave(old(h.deliveries), h.deliveries, max, old(readers[r].chunk), ret)
    {
      GotInRange(r);
      var s := St();
      var k := Min(max, got);
      ret := if copied then k * SMPL_DATA_SZ else EFAULT;
      ghost var d := Delivery(r, max, readers[r].chunk, bufs[b].data[..k]);
      assert copied ==> DeliverStep(s, r, copied).h.deliveries == s.h.deliveries + [d];
      EndRead(s, r, copied);
      assert copied ==> h.deliveries[|s.h.deliveries|] == d;
    }

    /** `ads131m08_data_return` */
    method DataReturn(r: nat, b: BufId)
      requires Valid() && r < |readers| && readers[r] == Clearing(b)
      modifies this
      ensures Valid() && old(trace) <= trace && Steady() && readers[r] == Outside
      ensures During(|old(trace)|, Returned(b))
    {
      ClearBuf(r, b);
      AppendFree(r, b);
      FreeIsEmpty(b);
      Now(|old(trace)|, Returned(b));
      ghost var pre := trace;
      Yield(ReadCaller(r));
      HappenedStays(n, pre, trace, |old(trace)|, Returned(b));
    }

    lemma FreeIsEmpty(b: BufId)
      requires Valid() && b in free
      ensures FreeBuf(bufs[b])
    {
      RunInv(n, trace);
      PlaceAgrees(St(), b);
    }

    /** `list_append` on the free list. */
    method AppendFree(r: nat, b: BufId)
      requires Valid() && r < |readers| && readers[r] == Returning(b)
      modifies this
      ensures Valid() && old(trace) <= trace && Steady() && readers[r] == Outside && free == old(free) + [b]
    {
      var s := St();
      free := free + [b];
      Commit(s, StepRead(r, true));
    }

    method ClearBuf(r: nat, b: BufId)
      requires Valid() && r < |readers| && readers[r] == Clearing(b)
      modifies this
      ensures Valid() && old(trace) <= trace && Steady() && readers[r] == Returning(b)
    {
      var s := St();
      bufs := bufs[b := bufs[b].Cleared()];
      EndRead(s, r, true);
    }

    // ----- control calls: ads131m08_data.c, ads131m08_gpio.c, ads131m08_spi.c, ads131m08_iface.c -----

    method EndCtl(s: State, io: Io)
      requires Serialised(trace) && Exec(Init(n), trace) == Some(s)
      requires !s.ctl.CtlIdle? && (s.ctl.ClearIrq? && s.registered ==> s.irq.IrqIdle?)
      requires St() == CtlStep(s, io).(irq := irq, readers := readers, ctl := ctl, h := h)
      modifies this
      ensures Valid() && old(trace) <= trace
      ensures Untouched(Control, CtlStep(s, io), St())
    {
      Commit(s, StepCtl(io));
      Yield(Control);
    }

    /** What a control call knows at whatever step it is. */
    lemma CtlFacts()
      requires Valid()
      ensures Phase(St()) && (!registered ==> irq.IrqIdle?)
      ensures CtlXfer(ctl).None? ==> CtlGaveBack()
      ensures ctl.FrameTake? ==> pool != []
    {
      RunInv(n, trace);
      if ctl.FrameTake? {
        PoolSuffices(St());
      }
    }

    /** A section of a control call that leaves the switches alone. */
    twostate predicate SameState()
      reads this
    {
      run == old(run) && registered == old(registered) && isOpen == old(isOpen) && Apart()
    }

    /** No command frame was sent. */
    twostate predicate Quiet()
      reads this
    {
      CtlWords(h.bus) == CtlWords(old(h.bus))
    }

    /** Exactly these command words went out. */
    twostate predicate Sent(ws: seq<Word>)
      reads this
    {
      CtlWords(h.bus) == CtlWords(old(h.bus)) + ws
    }

    /** What starting and stopping have nothing to do with. */
    twostate predicate Apart()
      reads this
    {
      closing == old(closing) && chunkSz == old(chunkSz)
    }

    /** `list_cleanup` of one list, with `ads131m08_data_return` as the callback. */
    method CleanupList(k: Purpose, which: bool)
      requires Valid() && ctl == Sweep(k, which)
      modifies this
      ensures Valid() && old(trace) <= trace && SameState() && Quiet()
      ensures ctl == if which then SweepWake(k) else Sweep(k, true)
      ensures ready == [] && (which ==> active == [])
    {
      var b := FetchForCleanup(k, which);
      while b.Some?
        invariant Valid() && old(trace) <= trace && SameState() && Quiet()
        invariant b.Some? ==> ctl == SweepClear(k, which, b.value)
        invariant b.None? ==> ctl == if which then SweepWake(k) else Sweep(k, true)
        decreases if which then |active| else |ready|, b.Some?
      {
        ClearForCleanup(k, which, b.value);
        ReturnFromCleanup(k, which, b.value);
        b := FetchForCleanup(k, which);
      }
      CtlFacts();
    }

    method FetchForCleanup(k: Purpose, which: bool) returns (b: Option<BufId>)
      requires Valid() && ctl == Sweep(k, which)
      modifies this
      ensures Valid() && old(trace) <= trace && SameState() && Quiet()
      ensures b.Some? ==> ctl == SweepClear(k, which, b.value)
      ensures b.None? ==> ctl == if which then SweepWake(k) else Sweep(k, true)
      ensures var list := if which then old(active) else old(ready); b == if list == [] then None else Some(list[0])
      ensures which ==> |active| <= |old(active)| && (b.Some? ==> |active| < |old(active)|)
      ensures !which ==> |ready| <= |old(ready)| && (b.Some? ==> |ready| < |old(ready)|)
    {
      CtlFacts();
      var s := St();
      if which {
        b := FetchFirstActive();
      } else {
        b := FetchReady();
      }
      SweepIs(s);
      EndCtl(s, Fail(-1));
    }

    /** `list_fetch` on the active list. */
    method FetchFirstActive() returns (b: Option<BufId>)
      modifies this`active
      ensures b == if old(active) == [] then None else Some(old(active)[0])
      ensures St() == old(St()).(active := if old(active) == [] then [] else old(active)[1..])
    {
      b := None;
      if active != [] {
        b, active := Some(active[0]), active[1..];
      }
    }

    static lemma SweepIs(s: State)
      requires s.ctl.Sweep?
      ensures var t, k, which := CtlStep(s, Fail(-1)), s.ctl.k, s.ctl.active;
        var list := if which then s.active else s.ready;
        t == s.(active := if which && list != [] then list[1..] else s.active,
                ready := if !which && list != [] then list[1..] else s.ready,
                ctl := if list != [] then SweepClear(k, which, list[0])
                       else if which then SweepWake(k) else Sweep(k, true),
                h := t.h)
    {
    }

    method ClearForCleanup(k: Purpose, which: bool, b: BufId)
      requires Valid() && ctl == SweepClear(k, which, b)
      modifies this
      ensures Valid() && old(trace) <= trace && SameState() && Quiet()
      ensures ctl == SweepReturn(k, which, b)
      ensures |active| <= |old(active)| && |ready| <= |old(ready)|
    {
      CtlFacts();
      var s := St();
      bufs := bufs[b := bufs[b].Cleared()];
      EndCtl(s, Fail(-1));
    }

    method ReturnFromCleanup(k: Purpose, which: bool, b: BufId)
      requires Valid() && ctl == SweepReturn(k, which, b)
      modifies this
      ensures Valid() && old(trace) <= trace && SameState() && Quiet()
      ensures ctl == Sweep(k, which)
      ensures |active| <= |old(active)| && |ready| <= |old(ready)|
    {
      CtlFacts();
      var s := St();
      free := free + [b];
      EndCtl(s, Fail(-1));
    }

    /** `ads131m08_data_cleanup` */
    method Cleanup(k: Purpose)
      requires Valid() && ctl == Sweep(k, false)
      modifies this
      ensures Valid() && old(trace) <= trace && SameState() && Quiet()
      ensures ctl == AfterSweep(k)
      ensures !run && ready == [] && active == []
      ensures During(|old(trace)|, NobodyAsleep)
    {
      CtlFacts();
      CleanupList(k, false);
      CleanupList(k, true);
      WakeUpAll(k);
      CtlFacts();
    }

    method WakeStep(k: Purpose)
      requires Valid() && ctl == SweepWake(k)
      modifies this
      ensures Valid() && old(trace) <= trace && SameState() && Quiet()
      ensures ctl == AfterSweep(k) && Saw(St(), NobodyAsleep)
    {
      var s := St();
      WakeIs(s);
      Commit(s, StepCtl(Fail(-1)));
    }

    static lemma WakeIs(s: State)
      requires s.ctl.SweepWake?
      ensures CtlStep(s, Fail(-1)) == s.(readers := WakeAll(s.readers), ctl := AfterSweep(s.ctl.k))
      ensures forall r :: 0 <= r < |s.readers| ==> !Sleeping(WakeAll(s.readers)[r])
    {
    }

    /** `wake_up_interruptible`, by a control call. */
    method WakeUpAll(k: Purpose)
      requires Valid() && ctl == SweepWake(k)
      modifies this
      ensures Valid() && old(trace) <= trace && SameState() && Quiet()
      ensures ctl == AfterSweep(k)
      ensures During(|old(trace)|, NobodyAsleep)
    {
      WakeStep(k);
      Now(|old(trace)|, NobodyAsleep);
      ghost var pre := trace;
      Yield(Control);
      HappenedStays(n, pre, trace, |old(trace)|, NobodyAsleep);
    }

    /** `adc_trx` for frame `i` of a command; `io` is the outcome of its transfer. */
    method AdcTrx(op: Op, i: nat, io: Io) returns (ret: int)
      requires Valid() && ctl == FrameTake(op, i)
      modifies this
      ensures Valid() && old(trace) <= trace && SameState() && Sent([op.Word(i)])
      ensures ret == (if io.Fail? then io.err else 0) && ctl == AfterFrame(op, i, ret)
      ensures CtlGaveBack()
    {
      var x := TakeForFrame(op, i);
      ret := SendFrame(op, i, x, io);
      FrameReturned(op, i, x, ret);
      CtlFacts();
    }

    /** `return_xfer_buf`, at the end of `adc_trx`. */
    method FrameReturned(op: Op, i: nat, x: XferId, res: int)
      requires Valid() && ctl == FrameDone(op, i, x, res)
      modifies this
      ensures Valid() && old(trace) <= trace && SameState() && Quiet()
      ensures ctl == AfterFrame(op, i, res)
    {
      var s := St();
      pool := pool + [x];
      EndCtl(s, Fail(-1));
    }

    method TakeForFrame(op: Op, i: nat) returns (x: XferId)
      requires Valid() && ctl == FrameTake(op, i)
      modifies this
      ensures Valid() && old(trace) <= trace && SameState() && Quiet()
      ensures ctl == FrameSend(op, i, x)
    {
      CtlFacts();
      var s := St();
      x := pool[0];
      pool := pool[1..];
      EndCtl(s, Fail(-1));
    }

    method SendFrame(op: Op, i: nat, x: XferId, io: Io) returns (ret: int)
      requires Valid() && ctl == FrameSend(op, i, x)
      modifies this
      ensures Valid() && old(trace) <= trace && SameState() && Sent([op.Word(i)])
      ensures ret == (if io.Fail? then io.err else 0) && ctl == FrameDone(op, i, x, ret)
    {
      var s := St();
      CtlWordsSnoc(h.bus, CtlFrame(op, i, io.Ok?));
      EndCtl(s, io);
      ret := if io.Fail? then io.err else 0;
    }

    /** The error of the first transfer that fails, or 0. */
    static function FirstError(ios: seq<Io>): int {
      if ios == [] then 0 else if ios[0].Fail? then ios[0].err else FirstError(ios[1..])
    }

    /** How many frames go out: all up to the first that fails. */
    static function SentCount(ios: seq<Io>): (k: nat)
      ensures k <= |ios| && (ios != [] ==> k > 0)
    {
      if ios == [] then 0 else if ios[0].Fail? then 1 else 1 + SentCount(ios[1..])
    }

    /** The words of the `k` frames of a command from number `i` on. */
    static function WordsFrom(op: Op, i: nat, k: nat): seq<Word>
      decreases k
    {
      if k == 0 then [] else [op.Word(i)] + WordsFrom(op, i + 1, k - 1)
    }

    /** The frames of one command, up to the first that fails (`cmd_strobe`, `ads131m08_reg_read`, `cmd_reset`, ...). */
    method Command(op: Op, ios: seq<Io>) returns (ret: int)
      requires Valid() && ctl == FrameTake(op, 0) && |ios| == op.Frames()
      modifies this
      ensures Valid() && old(trace) <= trace && SameState() && Sent(WordsFrom(op, 0, SentCount(ios)))
      ensures ret <= 0 && ctl == AfterFrame(op, op.Frames() - 1, ret)
      ensures ret == FirstError(ios)
    {
      ret := CommandFrom(op, 0, ios);
    }

    /** The frames from number `i` on. */
    method CommandFrom(op: Op, i: nat, ios: seq<Io>) returns (ret: int)
      requires Valid() && ctl == FrameTake(op, i) && i < op.Frames() && |ios| == op.Frames() - i
      modifies this
      ensures Valid() && old(trace) <= trace && SameState() && Sent(WordsFrom(op, i, SentCount(ios)))
      ensures ret <= 0 && ctl == AfterFrame(op, op.Frames() - 1, ret)
      ensures ret == FirstError(ios)
      decreases |ios|
    {
      ghost var w0 := CtlWords(h.bus);
      ret := AdcTrx(op, i, ios[0]);
      if ret == 0 && i + 1 < op.Frames() {
        MoreFrames(op, i, ios);
        ret := CommandFrom(op, i + 1, ios[1..]);
        OneMore(w0, op.Word(i), WordsFrom(op, i + 1, SentCount(ios[1..])));
      } else {
        LastFrame(op, i, ios, ret);
      }
    }

    static lemma LastFrame(op: Op, i: nat, ios: seq<Io>, ret: int)
      requires i < op.Frames() && |ios| == op.Frames() - i && (ret != 0 || i + 1 == op.Frames())
      requires ret == if ios[0].Fail? then ios[0].err else 0
      ensures AfterFrame(op, i, ret) == AfterFrame(op, op.Frames() - 1, ret)
      ensures FirstError(ios) == ret && WordsFrom(op, i, SentCount(ios)) == [op.Word(i)]
    {
      assert SentCount(ios) == 1;
      assert [op.Word(i)] + [] == [op.Word(i)];
    }

    static lemma MoreFrames(op: Op, i: nat, ios: seq<Io>)
      requires i + 1 < op.Frames() && |ios| == op.Frames() - i && ios[0].Ok?
      ensures AfterFrame(op, i, 0) == FrameTake(op, i + 1)
      ensures FirstError(ios) == FirstError(ios[1..])
      ensures WordsFrom(op, i, SentCount(ios)) == [op.Word(i)] + WordsFrom(op, i + 1, SentCount(ios[1..]))
    {
    }

    static lemma OneMore(sent: seq<Word>, w: Word, ws: seq<Word>)
      ensures sent + [w] + ws == sent + ([w] + ws)
    {
    }

    /** `ads131m08_gpio_set_irq`; `req` is the answer of `request_threaded_irq`. */
    method GpioSetIrq(req: Io) returns (ret: int)
      requires Valid() && ctl.SetIrq?
      modifies this
      ensures Valid() && old(trace) <= trace && run == old(run) && Apart() && Quiet()
      ensures ret == (if req.Fail? then req.err else 0) && registered == (ret == 0)
      ensures ctl == if ret < 0 then IrqRefused(ret) else FrameTake(OpWakeup, 0)
    {
      CtlFacts();
      var s := St();
      ret := if registered then 0 else if req.Fail? then req.err else 0;
      if ret == 0 {
        registered := true;
      }
      EndCtl(s, req);
    }

    /** The IRQ thread runs on while a control call waits for it in `free_irq`. */
    method IrqThreadMoves(io: Io)
      requires Valid() && !irq.IrqIdle?
      modifies this
      ensures Valid() && old(trace) <= trace && SameState() && Quiet() && ctl == old(ctl)
      ensures StepsLeft(irq) < StepsLeft(old(irq))
    {
      OneIrqStep(io);
      Yield(IrqWaiter);
    }

    method OneIrqStep(io: Io)
      requires Valid() && !irq.IrqIdle?
      modifies this
      ensures Valid() && old(trace) <= trace && SameState() && Quiet() && ctl == old(ctl)
      ensures StepsLeft(irq) < StepsLeft(old(irq))
    {
      var s := St();
      IrqStepShortens(s, io);
      IrqWords(s, io);
      Adopt(IrqStep(s, io));
      Commit(s, StepIrq(io));
    }

    /** Whatever the IRQ thread did to the driver's data. */
    method Adopt(t: State)
      modifies this`free, this`active, this`ready, this`pool, this`bufs, this`dropCnt
      ensures St() == old(St()).(free := t.free, active := t.active, ready := t.ready, pool := t.pool,
                                 bufs := t.bufs, dropCnt := t.dropCnt)
    {
      free, active, ready, pool, bufs, dropCnt := t.free, t.active, t.ready, t.pool, t.bufs, t.dropCnt;
    }

    /** `ads131m08_gpio_clr_irq` */
    method GpioClrIrq(k: Purpose)
      requires Valid() && ctl == ClearIrq(k)
      modifies this
      ensures Valid() && old(trace) <= trace && run == old(run) && !registered && Apart() && Quiet()
      ensures ctl == if k.StartFailed? then SetStop(k) else FrameTake(OpStandby, 0)
    {
      while !irq.IrqIdle?
        invariant Valid() && old(trace) <= trace && run == old(run) && Apart() && Quiet() && ctl == ClearIrq(k)
        decreases StepsLeft(irq)
      {
        var io: Io := *;
        IrqThreadMoves(io);
      }
      var s := St();
      registered := false;
      EndCtl(s, Fail(-1));
    }

    method SetRunStat(on: bool)
      requires Valid() && if on then ctl.SetRun? else ctl.SetStop? || ctl.IrqRefused?
      modifies this
      ensures Valid() && old(trace) <= trace && run == on && registered == old(registered) && Apart() && Quiet()
      ensures ctl == CtlStep(old(St()), Fail(-1)).ctl
    {
      var s := St();
      run := on;
      EndCtl(s, Fail(-1));
    }

    /** The test at the top of `ads131m08_run_cmd`. */
    method AlreadyThere(on: bool) returns (same: bool)
      requires Valid() && ctl == RunCheck(on)
      modifies this
      ensures Valid() && old(trace) <= trace && SameState() && Quiet() && same == (run == on)
      ensures ctl == if same then CtlIdle(0) else if on then Sweep(Starting, false) else SetStop(Stopping(0))
    {
      var s := St();
      same := run == on;
      EndCtl(s, Fail(-1));
    }

    /**
      `ads131m08_run_cmd`.  On success the driver is in the requested state; on failure,
      whichever call failed, it is stopped; and a stopped driver has nothing queued.
    */
    method RunCmd(on: bool, req: Io, frame: Io) returns (ret: int)
      requires Valid() && ctl == RunCheck(on)
      modifies this
      ensures Valid() && old(trace) <= trace && ctl == CtlIdle(ret) && ret <= 0
      ensures run == registered
      ensures ret == RunResult(old(run), on, req, frame)
      ensures run == (on && ret == 0)
      ensures Sent(RunWords(old(run), on, req))
      ensures !run ==> ready == [] && active == []
      ensures Apart()
    {
      var same := AlreadyThere(on);
      if same {
        ret := 0;
      } else if on {
        ret := Start(req, frame);
      } else {
        ret := Stop(frame);
      }
      CtlFacts();
    }

    method Stop(frame: Io) returns (ret: int)
      requires Valid() && ctl == SetStop(Stopping(0))
      modifies this
      ensures Valid() && old(trace) <= trace && ctl == CtlIdle(ret) && ret <= 0
      ensures !run && Apart() && ret == FirstError([frame]) && Sent([0x0022])
    {
      SetRunStat(false);
      GpioClrIrq(Stopping(0));
      ret := StandBy(frame);
    }

    /** The device is told to stop, and the lists are swept whether it answered or not. */
    method StandBy(frame: Io) returns (ret: int)
      requires Valid() && ctl == FrameTake(OpStandby, 0)
      modifies this
      ensures Valid() && old(trace) <= trace && ctl == CtlIdle(ret) && ret <= 0 && SameState()
      ensures ret == FirstError([frame]) && Sent([0x0022])
    {
      ret := Strobe(OpStandby, frame);
      Cleanup(Stopping(ret));
    }

    method Start(req: Io, frame: Io) returns (ret: int)
      requires Valid() && ctl == Sweep(Starting, false)
      modifies this
      ensures Valid() && old(trace) <= trace && ctl == CtlIdle(ret) && ret <= 0
      ensures run == (ret == 0) && Apart() && ret == FirstError([req, frame])
      ensures if req.Fail? then Quiet() else Sent([0x0033])
    {
      Cleanup(Starting);
      SetRunStat(true);
      ret := StartIrq(req, frame);
    }

    /** `run_stat` says RUN: request the interrupt, and go back to STOP if it is refused. */
    method StartIrq(req: Io, frame: Io) returns (ret: int)
      requires Valid() && ctl.SetIrq? && run
      modifies this
      ensures Valid() && old(trace) <= trace && ctl == CtlIdle(ret) && ret <= 0
      ensures run == (ret == 0) && Apart() && ret == FirstError([req, frame])
      ensures if req.Fail? then Quiet() else Sent([0x0033])
    {
      ret := GpioSetIrq(req);
      if ret < 0 {
        SetRunStat(false);
      } else {
        ret := WakeUp(frame);
      }
    }

    /** The interrupt is registered: tell the device to convert, and undo the start if that fails. */
    method WakeUp(frame: Io) returns (ret: int)
      requires Valid() && ctl == FrameTake(OpWakeup, 0) && run
      modifies this
      ensures Valid() && old(trace) <= trace && ctl == CtlIdle(ret) && ret <= 0
      ensures run == (ret == 0) && Apart() && ret == FirstError([frame]) && Sent([0x0033])
    {
      ret := Strobe(OpWakeup, frame);
      if ret < 0 {
        UndoStart(ret);
      }
    }

    /** WAKEUP failed: the interrupt is given back before the driver is declared stopped. */
    method UndoStart(err: Errno)
      requires Valid() && ctl == ClearIrq(StartFailed(err))
      modifies this
      ensures Valid() && old(trace) <= trace && ctl == CtlIdle(err) && !run && Apart()
      ensures !registered && ready == [] && active == [] && Quiet()
    {
      GpioClrIrq(StartFailed(err));
      SetRunStat(false);
      Cleanup(StartFailed(err));
    }

    /** `ads131m08_data_resize_chunk_buf`, once the size is known to be in range. */
    method ResizeChunkBuf(size: int)
      requires Valid() && ctl == Resize(size, 0)
      modifies this
      ensures Valid() && old(trace) <= trace && ctl == CtlIdle(size) && run == old(run) && Quiet()
      ensures chunkSz == size && forall b: BufId :: bufs[b].chunkSz == size
    {
      var i := 0;
      while i < CHUNK_BUF_CNT
        invariant 0 <= i <= CHUNK_BUF_CNT
        invariant Valid() && old(trace) <= trace && run == old(run) && Quiet() && ctl == Resize(size, i)
      {
        ResizeOne(size, i);
        i := i + 1;
      }
      PublishSize(size);
      SizesAgree();
    }

    method ResizeOne(size: int, i: BufId)
      requires Valid() && ctl == Resize(size, i)
      modifies this
      ensures Valid() && old(trace) <= trace && run == old(run) && Quiet() && ctl == Resize(size, i + 1)
    {
      var s := St();
      var buf := bufs[i].(chunkSz := size, idx := 0);
      ResizeIs(s, buf);
      StoreBuf(i, buf);
      EndCtl(s, Fail(-1));
    }

    static lemma ResizeIs(s: State, buf: Buf)
      requires s.ctl.Resize? && s.ctl.i < CHUNK_BUF_CNT
      requires buf == s.bufs[s.ctl.i].(chunkSz := s.ctl.n, idx := 0)
      ensures var t := CtlStep(s, Fail(-1));
        t == s.(bufs := s.bufs[s.ctl.i := buf], ctl := Resize(s.ctl.n, s.ctl.i + 1), h := t.h) && t.h.bus == s.h.bus
    {
    }

    method PublishSize(size: int)
      requires Valid() && ctl == Resize(size, CHUNK_BUF_CNT)
      modifies this
      ensures Valid() && old(trace) <= trace && run == old(run) && Quiet() && ctl == CtlIdle(size) && chunkSz == size
    {
      EndResize(size);
      var s := St();
      chunkSz := size;
      EndCtl(s, Fail(-1));
    }

    method EndResize(size: int)
      requires Valid() && ctl == Resize(size, CHUNK_BUF_CNT)
      modifies this
      ensures Valid() && old(trace) <= trace && run == old(run) && Quiet() && ctl == Publish(size)
    {
      var s := St();
      EndCtl(s, Fail(-1));
    }

    lemma SizesAgree()
      requires Valid() && ctl.CtlIdle?
      ensures forall b: BufId :: bufs[b].chunkSz == chunkSz
    {
      RunInv(n, trace);
      assert forall b: BufId :: SizeAgrees(St(), b) ==> bufs[b].chunkSz == chunkSz;
    }

    method EnterIoctl(cmd: Cmd)
      requires Valid() && isOpen && !closing && ctl.CtlIdle?
      modifies this
      ensures Valid() && old(trace) <= trace && SameState() && Quiet() && ctl == Gate(cmd)
    {
      var s := St();
      Commit(s, Ioctl(cmd));
      Yield(Control);
    }

    /** The gate at the top of `ads131m08_ioctl`; `io` is the outcome of copying the arguments in. */
    method TestGate(cmd: Cmd, io: Io) returns (busy: bool)
      requires Valid() && ctl == Gate(cmd)
      modifies this
      ensures Valid() && old(trace) <= trace && SameState() && Quiet()
      ensures busy == (run && !cmd.CmdStandby? && !cmd.CmdStat?)
      ensures ctl == GateTo(St(), cmd, io)
    {
      var s := St();
      busy := run && !AllowedWhileRunning(cmd);
      GateIs(s, cmd, io);
      EndCtl(s, io);
      GateSame(s, St(), cmd, io);
    }

    static lemma GateSame(s: State, t: State, cmd: Cmd, io: Io)
      requires t.run == s.run
      ensures GateTo(t, cmd, io) == GateTo(s, cmd, io)
    {
    }

    static lemma GateIs(s: State, cmd: Cmd, io: Io)
      requires s.ctl == Gate(cmd)
      ensures CtlStep(s, io) == s.(ctl := GateTo(s, cmd, io))
    {
    }

    /** The size a request leads to: none below one sample, and none beyond what a buffer holds. */
    static function NewSize(arg: nat, sz: int): (r: int)
      ensures 1 <= arg <= 320 ==> r == arg
      ensures 320 < arg < 0x8000_0000 ==> r == 320
      ensures arg == 0 || 0x8000_0000 <= arg < 0x1_0000_0000 ==> r == sz
    {
      if ToInt32(arg) > 0 then Min(ToInt32(arg), MAX_CHUNK_SZ) else sz
    }

    /** `ioctl_chunk_sz` */
    method ChunkSz(arg: nat) returns (ret: int)
      requires Valid() && ctl == SizeGate(arg)
      modifies this
      ensures Valid() && old(trace) <= trace && ctl == CtlIdle(ret) && run == old(run) && Quiet()
      ensures ret == chunkSz == NewSize(arg, old(chunkSz))
      ensures 1 <= arg <= 320 ==> ret == chunkSz == arg
      ensures 320 < arg < 0x8000_0000 ==> ret == chunkSz == 320
      ensures arg == 0 || 0x8000_0000 <= arg < 0x1_0000_0000 ==> ret == chunkSz == old(chunkSz)
    {
      CtlFacts();
      var s := St();
      ret := chunkSz;
      var size := ToInt32(arg);
      EndCtl(s, Fail(-1));
      if size > 0 {
        ret := Min(size, MAX_CHUNK_SZ);
        ResizeChunkBuf(ret);
      }
    }

    /** The command words of `ads131m08_run_cmd(on)`. */
    static function RunWords(was: bool, on: bool, req: Io): seq<Word> {
      if was == on then [] else if !on then [0x0022] else if req.Fail? then [] else [0x0033]
    }

    /** What `ads131m08_run_cmd(on)` returns. */
    static function RunResult(was: bool, on: bool, req: Io, frame: Io): int {
      if was == on then 0 else FirstError(if on then [req, frame] else [frame])
    }

    /** `cmd_stat`: 0 and 1 stop and start, everything else asks. */
    method Stat(arg: nat, req: Io, frame: Io) returns (ret: int)
      requires Valid() && ctl == GateTo(St(), CmdStat(arg), req)
      modifies this
      ensures Valid() && old(trace) <= trace && ctl == CtlIdle(ret) && Apart()
      ensures ToInt32(arg) in {0, 1} ==>
        ret == RunResult(old(run), ToInt32(arg) == 1, req, frame) && (run <==> ToInt32(arg) == 1 && ret == 0)
      ensures ToInt32(arg) !in {0, 1} ==> run == old(run) && ret == (if run then 1 else 0) && Quiet()
      ensures ToInt32(arg) in {0, 1} ==> Sent(RunWords(old(run), ToInt32(arg) == 1, req))
      ensures arg == 0 ==> !run
      ensures arg == 1 && ret == 0 ==> run
      ensures 2 <= arg < 0x1_0000_0000 ==> run == old(run) && ret == (if run then 1 else 0) && Quiet()
    {
      var stat := ToInt32(arg);
      if stat == 0 {
        ret := RunCmd(false, req, frame);
      } else if stat == 1 {
        ret := RunCmd(true, req, frame);
      } else {
        ret := if run then 1 else 0;
      }
    }

    /** The commands that only send frames. */
    static function Sends(cmd: Cmd): Option<Op> {
      match cmd
      case CmdReset => Some(OpReset)
      case CmdLock => Some(OpLock)
      case CmdUnlock => Some(OpUnlock)
      case CmdRreg => Some(OpRreg)
      case CmdWreg => Some(OpWreg)
      case _ => None
    }

    /** What they return: arguments that cannot be copied in are refused first. */
    static function SendResult(cmd: Cmd, io: Io, ios: seq<Io>): int
      requires Sends(cmd).Some? && |ios| == 3
    {
      if (cmd.CmdRreg? || cmd.CmdWreg?) && io.Fail? then io.err else FirstError(ios[..Sends(cmd).value.Frames()])
    }

    /**
      `ads131m08_ioctl`.  `io` is the outcome of copying the arguments in, `ios` what the
      interrupt request and the transfers bring.  While the driver runs, everything but
      STANDBY and STAT is refused and changes nothing.
    */
    method IoctlCall(cmd: Cmd, io: Io, ios: seq<Io>) returns (ret: int)
      requires Valid() && isOpen && !closing && ctl.CtlIdle? && |ios| == 3
      modifies this
      ensures Valid() && old(trace) <= trace && ctl == CtlIdle(ret)
      ensures run == registered && (!run ==> ready == [] && active == [])
      ensures forall b: BufId :: bufs[b].chunkSz == chunkSz
      ensures old(run) && !cmd.CmdStandby? && !cmd.CmdStat? ==>
        ret == -16 && run && chunkSz == old(chunkSz) && Quiet()
      ensures !old(run) || cmd.CmdStandby? || cmd.CmdStat? ==>
        Answered(cmd, io, ios, ret) && Sent(IoctlWords(old(run), cmd, io, ios))
    {
      EnterIoctl(cmd);
      var busy := TestGate(cmd, io);
      if busy {
        ret := EBUSY;
      } else {
        ret := Dispatch(cmd, io, ios);
      }
      CtlFacts();
      SizesAgree();
    }

    /** The command words a call puts on the bus when it is let through. */
    static function IoctlWords(was: bool, cmd: Cmd, io: Io, ios: seq<Io>): seq<Word>
      requires |ios| == 3
    {
      match cmd
      case CmdReset => [0x0011, 0x0000, 0x0022][..SentCount(ios)]
      case CmdStandby => RunWords(was, false, ios[0])
      case CmdWakeup => RunWords(was, true, ios[0])
      case CmdLock => [0x0555]
      case CmdUnlock => [0x0655]
      case CmdRreg => if io.Fail? then [] else [0xA000, 0x0000][..SentCount(ios[..2])]
      case CmdWreg => if io.Fail? then [] else [0x6000, 0x0000][..SentCount(ios[..2])]
      case CmdStat(arg) => if ToInt32(arg) in {0, 1} then RunWords(was, ToInt32(arg) == 1, ios[0]) else []
      case CmdChunkSz(_) => []
      case CmdOther => []
    }

    /** Result, state and size after a command that was let through. */
    twostate predicate Answered(cmd: Cmd, io: Io, ios: seq<Io>, ret: int)
      requires |ios| == 3
      reads this
    {
      match cmd
      case CmdWakeup => ret == RunResult(old(run), true, ios[0], ios[1]) && run == (ret == 0) && chunkSz == old(chunkSz)
      case CmdStandby => ret == RunResult(old(run), false, ios[0], ios[1]) && !run && chunkSz == old(chunkSz)
      case CmdStat(arg) =>
        && chunkSz == old(chunkSz)
        && if ToInt32(arg) in {0, 1} then
             ret == RunResult(old(run), ToInt32(arg) == 1, ios[0], ios[1]) && (run <==> ToInt32(arg) == 1 && ret == 0)
           else run == old(run) && ret == if run then 1 else 0
      case CmdChunkSz(arg) => run == old(run) && ret == chunkSz == NewSize(arg, old(chunkSz))
      case CmdOther => run == old(run) && chunkSz == old(chunkSz) && ret == ENOTTY
      case _ => run == old(run) && chunkSz == old(chunkSz) && ret == SendResult(cmd, io, ios)
    }

    /** The switch of `ads131m08_ioctl`. */
    method Dispatch(cmd: Cmd, io: Io, ios: seq<Io>) returns (ret: int)
      requires Valid() && |ios| == 3 && (run ==> AllowedWhileRunning(cmd)) && ctl == GateTo(St(), cmd, io)
      modifies this
      ensures Valid() && old(trace) <= trace && ctl == CtlIdle(ret)
      ensures Answered(cmd, io, ios, ret) && Sent(IoctlWords(old(run), cmd, io, ios))
    {
      match cmd
      case CmdStandby =>
        ret := RunCmd(false, ios[0], ios[1]);
      case CmdWakeup =>
        ret := RunCmd(true, ios[0], ios[1]);
      case CmdChunkSz(arg) =>
        ret := ChunkSz(arg);
      case CmdStat(arg) =>
        ret := Stat(arg, ios[0], ios[1]);
      case CmdOther =>
        ret := ENOTTY;
      case _ =>
        ret := SendCommand(cmd, io, ios);
    }

    /** RESET, LOCK, UNLOCK, RREG and WREG. */
    method SendCommand(cmd: Cmd, io: Io, ios: seq<Io>) returns (ret: int)
      requires Valid() && |ios| == 3 && !run && Sends(cmd).Some? && ctl == GateTo(St(), cmd, io)
      modifies this
      ensures Valid() && old(trace) <= trace && ctl == CtlIdle(ret) && SameState()
      ensures ret == SendResult(cmd, io, ios) && Sent(IoctlWords(false, cmd, io, ios))
    {
      match cmd
      case CmdReset =>
        ret := Reset(ios);
      case CmdLock =>
        ret := Strobe(OpLock, ios[0]);
        FirstOnly(ios);
      case CmdUnlock =>
        ret := Strobe(OpUnlock, ios[0]);
        FirstOnly(ios);
      case CmdRreg =>
        ret := RegisterCommand(OpRreg, io, ios[..2]);
      case CmdWreg =>
        ret := RegisterCommand(OpWreg, io, ios[..2]);
    }

    static lemma {:induction false} WordsAre(op: Op, i: nat, ws: seq<Word>, k: nat)
      requires k <= |ws| && forall j :: 0 <= j < |ws| ==> op.Word(i + j) == ws[j]
      ensures WordsFrom(op, i, k) == ws[..k]
      decreases k
    {
      if k > 0 {
        assert forall j :: 0 <= j < |ws| - 1 ==> op.Word(i + 1 + j) == ws[1..][j];
        WordsAre(op, i + 1, ws[1..], k - 1);
        assert ws[..k] == [ws[0]] + ws[1..][..k - 1];
      }
    }

    /** `cmd_strobe`: a command of one frame. */
    method Strobe(op: Op, frame: Io) returns (ret: int)
      requires Valid() && ctl == FrameTake(op, 0) && op.Frames() == 1
      modifies this
      ensures Valid() && old(trace) <= trace && SameState() && Sent([op.Word(0)])
      ensures ret == FirstError([frame]) && ret <= 0 && ctl == AfterFrame(op, 0, ret)
    {
      ret := Command(op, [frame]);
      WordsAre(op, 0, [op.Word(0)], 1);
    }

    /** `cmd_reset`: the two frames of `ads131m08_cmd_reset`, then STANDBY. */
    method Reset(ios: seq<Io>) returns (ret: int)
      requires Valid() && ctl == FrameTake(OpReset, 0) && |ios| == 3
      modifies this
      ensures Valid() && old(trace) <= trace && ctl == CtlIdle(ret) && SameState()
      ensures ret == FirstError(ios[..3]) && Sent([0x0011, 0x0000, 0x0022][..SentCount(ios)])
    {
      ret := Command(OpReset, ios);
      WordsAre(OpReset, 0, [0x0011, 0x0000, 0x0022], SentCount(ios));
      assert ios[..3] == ios;
    }

    static lemma FirstOnly(ios: seq<Io>)
      requires ios != []
      ensures FirstError(ios[..1]) == FirstError([ios[0]])
    {
      assert ios[..1] == [ios[0]];
    }

    /** `ioctl_reg` */
    method RegisterCommand(op: Op, io: Io, ios: seq<Io>) returns (ret: int)
      requires Valid() && (op.OpRreg? || op.OpWreg?) && |ios| == 2
      requires ctl == if io.Fail? then CtlIdle(io.err) else FrameTake(op, 0)
      modifies this
      ensures Valid() && old(trace) <= trace && ctl == CtlIdle(ret) && SameState()
      ensures ret == if io.Fail? then io.err else FirstError(ios)
      ensures Sent(if io.Fail? then [] else [if op.OpRreg? then 0xA000 else 0x6000, 0x0000][..SentCount(ios)])
    {
      if io.Fail? {
        ret := io.err;
      } else {
        ret := Command(op, ios);
        WordsAre(op, 0, [if op.OpRreg? then 0xA000 else 0x6000, 0x0000], SentCount(ios));
      }
    }

    method BeginRelease()
      requires Valid() && isOpen && !closing && ctl.CtlIdle? && AllOutside(readers)
      modifies this
      ensures Valid() && old(trace) <= trace && ctl == RunCheck(false) && closing && run == old(run) && Quiet()
    {
      var s := St();
      closing := true;
      Commit(s, Release);
      Yield(Control);
    }

    /** `ads131m08_release`: whatever fails on the way, the device ends up stopped with every buffer free. */
    method ReleaseFile(frame: Io)
      requires Valid() && isOpen && !closing && ctl.CtlIdle? && AllOutside(readers)
      modifies this
      ensures Valid() && old(trace) <= trace && !isOpen && !run && !registered
      ensures Sent(if old(run) then [0x0022] else [])
      ensures forall b: BufId :: b in free
      ensures forall x: XferId :: x in pool
    {
      BeginRelease();
      var ret := StopForRelease(frame);
      EndRelease();
      AllFree();
    }

    method EndRelease()
      requires Valid() && closing && ctl.CtlIdle?
      modifies this
      ensures Valid() && old(trace) <= trace && !isOpen && ctl.CtlIdle? && Quiet()
    {
      var s := St();
      closing, isOpen := false, false;
      Commit(s, Released);
    }

    lemma AllFree()
      requires Valid() && !isOpen && ctl.CtlIdle?
      ensures !run && !registered
      ensures forall b: BufId :: b in free
      ensures forall x: XferId :: x in pool
    {
      StartStopHolds(n, trace, St());
      RunInv(n, trace);
      StoppedMeansFree(n, trace, St());
    }

    method StopForRelease(frame: Io) returns (ret: int)
      requires Valid() && ctl == RunCheck(false) && closing
      modifies this
      ensures Valid() && old(trace) <= trace && ctl == CtlIdle(ret) && closing && !run
      ensures Sent(if old(run) then [0x0022] else [])
    {
      ret := RunCmd(false, frame, frame);
    }
  }
}

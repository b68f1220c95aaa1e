/**
  Who got which chunk.  Each caller of `read` is done with its chunks in the order in which
  it took them; every chunk taken is delivered, lost in a failed copy, or still in hand, and
  exactly one of these.  All of this holds for every label, a resize out of turn included.
*/
module Turns {
  import opened Wrappers
  import opened Pipeline
  import opened Bounds

  // ----- the logs, caller by caller -----

  /** The chunks caller `r` took, in order. */
  function TakesOf(ts: seq<Take>, r: nat): seq<seq<Sample>> {
    if ts == [] then []
    else TakesOf(ts[..|ts| - 1], r) + if ts[|ts| - 1].r == r then [ts[|ts| - 1].chunk] else []
  }

  /** The chunks caller `r` was done with, in order. */
  function EndingsOf(es: seq<Ending>, r: nat): seq<seq<Sample>> {
    if es == [] then []
    else EndingsOf(es[..|es| - 1], r) + if es[|es| - 1].r == r then [es[|es| - 1].chunk] else []
  }

  /** Those of them whose copy succeeded. */
  function CopiesOf(es: seq<Ending>, r: nat): seq<seq<Sample>> {
    if es == [] then []
    else
      var last := es[|es| - 1];
      CopiesOf(es[..|es| - 1], r) + if last.r == r && last.copied then [last.chunk] else []
  }

  /** The chunks delivered to caller `r`, in order. */
  function DeliveredTo(ds: seq<Delivery>, r: nat): seq<seq<Sample>> {
    if ds == [] then []
    else DeliveredTo(ds[..|ds| - 1], r) + if ds[|ds| - 1].r == r then [ds[|ds| - 1].chunk] else []
  }

  /** The chunks taken, by whomever, in order. */
  function AllTakes(ts: seq<Take>): seq<seq<Sample>> {
    if ts == [] then [] else AllTakes(ts[..|ts| - 1]) + [ts[|ts| - 1].chunk]
  }

  /** The chunks readers fetched from the ready list, in the order of the stream. */
  function ByReaders(taken: seq<Chunk>): seq<seq<Sample>> {
    if taken == [] then []
    else ByReaders(taken[..|taken| - 1]) + if taken[|taken| - 1].byReader then [taken[|taken| - 1].samples] else []
  }

  /** The chunk a reader has still to copy. */
  function InHand(r: Reader): seq<seq<Sample>> {
    match r
    case Holding(_, _, chunk) => [chunk]
    case Copying(_, _, chunk, _) => [chunk]
    case _ => []
  }

  // ----- the logs, chunk by chunk -----

  function Holds(r: Reader, c: seq<Sample>): nat {
    if InHand(r) == [c] then 1 else 0
  }

  /** How many readers have the chunk `c` in hand. */
  function TimesInHand(rs: seq<Reader>, c: seq<Sample>): nat {
    if rs == [] then 0 else TimesInHand(rs[..|rs| - 1], c) + Holds(rs[|rs| - 1], c)
  }

  function TimesDelivered(ds: seq<Delivery>, c: seq<Sample>): nat {
    if ds == [] then 0 else TimesDelivered(ds[..|ds| - 1], c) + if ds[|ds| - 1].chunk == c then 1 else 0
  }

  function TimesFailed(es: seq<Ending>, c: seq<Sample>): nat {
    if es == [] then 0
    else TimesFailed(es[..|es| - 1], c) + if !es[|es| - 1].copied && es[|es| - 1].chunk == c then 1 else 0
  }

  /** How often a reader fetched the chunk `c`. */
  function TimesFetched(taken: seq<Chunk>, c: seq<Sample>): nat {
    if taken == [] then 0
    else
      var last := taken[|taken| - 1];
      TimesFetched(taken[..|taken| - 1], c) + if last.byReader && last.samples == c then 1 else 0
  }

  // ----- the invariant -----

  ghost predicate InTurn(s: State) {
    && (forall r: nat :: r < |s.readers| ==>
         EndingsOf(s.h.endings, r) + InHand(s.readers[r]) == TakesOf(s.h.takes, r))
    && (forall r: nat :: CopiesOf(s.h.endings, r) == DeliveredTo(s.h.deliveries, r))
    && AllTakes(s.h.takes) == ByReaders(s.h.taken)
  }

  /** Every log entry names a caller. */
  ghost predicate Named(s: State) {
    && (forall e :: e in s.h.takes ==> e.r < |s.readers|)
    && (forall e :: e in s.h.endings ==> e.r < |s.readers|)
  }

  /** Every fetch has one fate. */
  ghost predicate Once(s: State) {
    forall c :: (
      TimesDelivered(s.h.deliveries, c) + TimesFailed(s.h.endings, c) + TimesInHand(s.readers, c)
        == TimesFetched(s.h.taken, c))
  }

  ghost predicate TurnsOk(s: State) {
    InTurn(s) && Named(s) && Once(s)
  }

  // ----- one more entry -----

  lemma SnocTake(ts: seq<Take>, e: Take)
    ensures forall r: nat :: TakesOf(ts + [e], r) == TakesOf(ts, r) + if e.r == r then [e.chunk] else []
    ensures AllTakes(ts + [e]) == AllTakes(ts) + [e.chunk]
  {
    assert (ts + [e])[..|ts|] == ts;
  }

  lemma SnocEnding(es: seq<Ending>, e: Ending)
    ensures forall r: nat :: EndingsOf(es + [e], r) == EndingsOf(es, r) + if e.r == r then [e.chunk] else []
    ensures forall r: nat :: CopiesOf(es + [e], r) == CopiesOf(es, r) + if e.r == r && e.copied then [e.chunk] else []
    ensures forall c :: TimesFailed(es + [e], c) == TimesFailed(es, c) + if !e.copied && e.chunk == c then 1 else 0
  {
    assert (es + [e])[..|es|] == es;
  }

  lemma SnocDelivery(ds: seq<Delivery>, d: Delivery)
    ensures forall r: nat :: DeliveredTo(ds + [d], r) == DeliveredTo(ds, r) + if d.r == r then [d.chunk] else []
    ensures forall c :: TimesDelivered(ds + [d], c) == TimesDelivered(ds, c) + if d.chunk == c then 1 else 0
  {
    assert (ds + [d])[..|ds|] == ds;
  }

  lemma SnocFetched(taken: seq<Chunk>, c: Chunk)
    ensures ByReaders(taken + [c]) == ByReaders(taken) + if c.byReader then [c.samples] else []
    ensures forall x :: (
      TimesFetched(taken + [c], x) == TimesFetched(taken, x) + if c.byReader && c.samples == x then 1 else 0)
  {
    assert (taken + [c])[..|taken|] == taken;
  }

  lemma {:induction false} HandUpdate(rs: seq<Reader>, r: nat, pc: Reader, c: seq<Sample>)
    requires r < |rs|
    ensures TimesInHand(rs[r := pc], c) == TimesInHand(rs, c) - Holds(rs[r], c) + Holds(pc, c)
  {
    var m := |rs| - 1;
    if r < m {
      HandUpdate(rs[..m], r, pc, c);
      assert rs[r := pc][..m] == rs[..m][r := pc];
    } else {
      assert rs[r := pc][..m] == rs[..m];
    }
  }

  lemma {:induction false} HandSame(a: seq<Reader>, b: seq<Reader>, c: seq<Sample>)
    requires |a| == |b| && forall r :: 0 <= r < |a| ==> InHand(a[r]) == InHand(b[r])
    ensures TimesInHand(a, c) == TimesInHand(b, c)
  {
    if a != [] {
      HandSame(a[..|a| - 1], b[..|b| - 1], c);
    }
  }

  lemma {:induction false} NoneInHand(rs: seq<Reader>, c: seq<Sample>)
    requires AllOutside(rs)
    ensures TimesInHand(rs, c) == 0
  {
    if rs != [] {
      NoneInHand(rs[..|rs| - 1], c);
    }
  }

  // ----- the three things that can happen to a chunk -----

  /** None of them: at most the cleanup fetches one. */
  lemma TurnsKept(s: State, t: State)
    requires TurnsOk(s) && |t.readers| == |s.readers|
    requires forall r :: 0 <= r < |s.readers| ==> InHand(t.readers[r]) == InHand(s.readers[r])
    requires t.h.takes == s.h.takes && t.h.endings == s.h.endings && t.h.deliveries == s.h.deliveries
    requires t.h.taken == s.h.taken || exists c: Chunk :: !c.byReader && t.h.taken == s.h.taken + [c]
    ensures TurnsOk(t)
  {
    if t.h.taken != s.h.taken {
      var c: Chunk :| !c.byReader && t.h.taken == s.h.taken + [c];
      SnocFetched(s.h.taken, c);
      assert ByReaders(s.h.taken) + [] == ByReaders(s.h.taken);
    }
    forall c
      ensures TimesInHand(t.readers, c) == TimesInHand(s.readers, c)
    {
      HandSame(s.readers, t.readers, c);
    }
  }

  /** Caller `r`, with nothing in hand, takes `c`. */
  lemma TurnBegins(s: State, t: State, r: nat, c: seq<Sample>)
    requires TurnsOk(s) && r < |s.readers| && InHand(s.readers[r]) == []
    requires |t.readers| == |s.readers| && t.readers == s.readers[r := t.readers[r]] && InHand(t.readers[r]) == [c]
    requires t.h == s.h.(taken := s.h.taken + [Chunk(true, s.chunkSz, c)], takes := s.h.takes + [Take(r, c)])
    ensures TurnsOk(t)
  {
    SnocFetched(s.h.taken, Chunk(true, s.chunkSz, c));
    SnocTake(s.h.takes, Take(r, c));
    BeginsInTurn(s, t, r, c);
    forall x
      ensures TimesInHand(t.readers, x) == TimesInHand(s.readers, x) + if c == x then 1 else 0
    {
      HandUpdate(s.readers, r, t.readers[r], x);
    }
  }

  lemma BeginsInTurn(s: State, t: State, r: nat, c: seq<Sample>)
    requires InTurn(s) && r < |s.readers| && InHand(s.readers[r]) == []
    requires |t.readers| == |s.readers| && t.readers == s.readers[r := t.readers[r]] && InHand(t.readers[r]) == [c]
    requires t.h.endings == s.h.endings
    requires forall q: nat :: TakesOf(t.h.takes, q) == TakesOf(s.h.takes, q) + if q == r then [c] else []
    ensures forall q: nat :: q < |t.readers| ==>
      EndingsOf(t.h.endings, q) + InHand(t.readers[q]) == TakesOf(t.h.takes, q)
  {
    forall q: nat | q < |t.readers|
      ensures EndingsOf(t.h.endings, q) + InHand(t.readers[q]) == TakesOf(t.h.takes, q)
    {
      assert EndingsOf(s.h.endings, q) + InHand(s.readers[q]) == TakesOf(s.h.takes, q);
      if q == r {
        assert EndingsOf(s.h.endings, q) + [] == EndingsOf(s.h.endings, q);
      } else {
        assert TakesOf(s.h.takes, q) + [] == TakesOf(s.h.takes, q);
      }
    }
  }

  /** Caller `r` is done with the chunk in its hand: `d` if it was delivered. */
  lemma TurnEnds(s: State, t: State, r: nat, copied: bool, d: Delivery)
    requires TurnsOk(s) && r < |s.readers| && InHand(s.readers[r]) == [d.chunk] && d.r == r
    requires |t.readers| == |s.readers| && t.readers == s.readers[r := t.readers[r]] && InHand(t.readers[r]) == []
    requires t.h.taken == s.h.taken && t.h.takes == s.h.takes
    requires t.h.endings == s.h.endings + [Ending(r, d.chunk, copied)]
    requires t.h.deliveries == if copied then s.h.deliveries + [d] else s.h.deliveries
    ensures TurnsOk(t)
  {
    SnocEnding(s.h.endings, Ending(r, d.chunk, copied));
    SnocDelivery(s.h.deliveries, d);
    EndsInTurn(s, t, r, d.chunk);
    EndsCopied(s, t);
    forall x
      ensures TimesInHand(t.readers, x) == TimesInHand(s.readers, x) - if d.chunk == x then 1 else 0
    {
      HandUpdate(s.readers, r, t.readers[r], x);
    }
  }

  lemma EndsInTurn(s: State, t: State, r: nat, c: seq<Sample>)
    requires InTurn(s) && r < |s.readers| && InHand(s.readers[r]) == [c]
    requires |t.readers| == |s.readers| && t.readers == s.readers[r := t.readers[r]] && InHand(t.readers[r]) == []
    requires t.h.takes == s.h.takes
    requires forall q: nat :: EndingsOf(t.h.endings, q) == EndingsOf(s.h.endings, q) + if r == q then [c] else []
    ensures forall q: nat :: q < |t.readers| ==>
      EndingsOf(t.h.endings, q) + InHand(t.readers[q]) == TakesOf(t.h.takes, q)
  {
    forall q: nat | q < |t.readers|
      ensures EndingsOf(t.h.endings, q) + InHand(t.readers[q]) == TakesOf(t.h.takes, q)
    {
      assert EndingsOf(s.h.endings, q) + InHand(s.readers[q]) == TakesOf(s.h.takes, q);
      if q == r {
        assert EndingsOf(s.h.endings, q) + [c] + [] == EndingsOf(s.h.endings, q) + [c];
      } else {
        assert EndingsOf(s.h.endings, q) + [] == EndingsOf(s.h.endings, q);
      }
    }
  }

  lemma EndsCopied(s: State, t: State)
    requires InTurn(s) && |t.h.endings| > 0 && t.h.endings[..|t.h.endings| - 1] == s.h.endings
    requires var e := t.h.endings[|t.h.endings| - 1];
      if e.copied then
        && |t.h.deliveries| > 0 && t.h.deliveries[..|t.h.deliveries| - 1] == s.h.deliveries
        && t.h.deliveries[|t.h.deliveries| - 1].r == e.r && t.h.deliveries[|t.h.deliveries| - 1].chunk == e.chunk
      else t.h.deliveries == s.h.deliveries
    ensures forall q: nat :: CopiesOf(t.h.endings, q) == DeliveredTo(t.h.deliveries, q)
  {
    forall q: nat
      ensures CopiesOf(t.h.endings, q) == DeliveredTo(t.h.deliveries, q)
    {
      assert CopiesOf(s.h.endings, q) == DeliveredTo(s.h.deliveries, q);
    }
  }

  // ----- steps -----

  lemma GrabTurns(s: State, r: nat)
    requires TurnsOk(s) && r < |s.readers| && s.readers[r].Grab?
    ensures TurnsOk(GrabStep(s, r))
  {
    if s.ready == [] {
      TurnsKept(s, GrabStep(s, r));
    } else {
      TurnBegins(s, GrabStep(s, r), r, s.bufs[s.ready[0]].Filled());
    }
  }

  lemma CopyTurns(s: State, r: nat, copied: bool)
    requires TurnsOk(s) && r < |s.readers| && s.readers[r].Copying? && 0 <= s.readers[r].got <= MAX_CHUNK_SZ
    ensures TurnsOk(DeliverStep(s, r, copied))
  {
    var Copying(max, b, chunk, got) := s.readers[r];
    TurnEnds(s, DeliverStep(s, r, copied), r, copied, Delivery(r, max, chunk, s.bufs[b].data[..Min(max, got)]));
  }

  lemma ReadTurns(s: State, r: nat, copied: bool)
    requires Bounded(s) && TurnsOk(s) && r < |s.readers| && !s.readers[r].Outside?
    ensures TurnsOk(ReadStep(s, r, copied))
  {
    if Waiting(s.readers[r]) {
      TurnsKept(s, ReadStep(s, r, copied));
    } else if s.readers[r].Grab? {
      GrabTurns(s, r);
    } else {
      DeliverTurns(s, r, copied);
    }
  }

  lemma DeliverTurns(s: State, r: nat, copied: bool)
    requires Bounded(s) && TurnsOk(s) && r < |s.readers| && ReaderBuf(s.readers[r]).Some?
    ensures TurnsOk(DeliverStep(s, r, copied))
  {
    if s.readers[r].Copying? {
      assert ReaderOk(s.readers[r]);
      CopyTurns(s, r, copied);
    } else {
      TurnsKept(s, DeliverStep(s, r, copied));
    }
  }

  /** What the other threads do to the logs. */
  predicate SameTurns(s: State, t: State) {
    && t.h.takes == s.h.takes && t.h.endings == s.h.endings && t.h.deliveries == s.h.deliveries
    && |t.readers| == |s.readers|
    && forall r :: 0 <= r < |s.readers| ==> InHand(t.readers[r]) == InHand(s.readers[r])
  }

  lemma IrqTurns(s: State, io: Io)
    requires TurnsOk(s) && !s.irq.IrqIdle?
    ensures TurnsOk(IrqStep(s, io))
  {
    IrqSameTurns(s, io);
    TurnsKept(s, IrqStep(s, io));
  }

  lemma IrqSameTurns(s: State, io: Io)
    requires !s.irq.IrqIdle?
    ensures SameTurns(s, IrqStep(s, io)) && IrqStep(s, io).h.taken == s.h.taken
  {
    if Fetching(s.irq) {
    } else if Stamping(s.irq) {
    } else if Filling(s.irq) {
    } else {
      assert HandStep(s).readers == s.readers || HandStep(s).readers == WakeAll(s.readers);
    }
  }

  lemma SweepTurns(s: State)
    requires TurnsOk(s) && Sweeping(s.ctl)
    ensures TurnsOk(SweepStep(s))
  {
    SweepSameTurns(s);
    TurnsKept(s, SweepStep(s));
  }

  lemma SweepSameTurns(s: State)
    requires Sweeping(s.ctl)
    ensures SameTurns(s, SweepStep(s))
    ensures SweepStep(s).h.taken == s.h.taken
         || exists c: Chunk :: !c.byReader && SweepStep(s).h.taken == s.h.taken + [c]
  {
    SweepLogs(s);
    if s.ctl.Sweep? && SweepStep(s).h.taken != s.h.taken {
      var list := if s.ctl.active then s.active else s.ready;
      var c := Chunk(false, s.chunkSz, s.bufs[list[0]].Filled());
      assert SweepStep(s).h.taken == s.h.taken + [c];
    }
  }

  lemma SweepLogs(s: State)
    requires Sweeping(s.ctl)
    ensures var t := SweepStep(s);
      && (t.readers == s.readers || t.readers == WakeAll(s.readers))
      && (!s.ctl.Sweep? ==> t.h == s.h)
  {
  }

  lemma CtlTurns(s: State, io: Io)
    requires TurnsOk(s) && !s.ctl.CtlIdle?
    ensures TurnsOk(CtlStep(s, io))
  {
    if Switching(s.ctl) {
      TurnsKept(s, SwitchStep(s, io));
    } else if Sweeping(s.ctl) {
      SweepTurns(s);
    } else if Commanding(s.ctl) {
      TurnsKept(s, CommandStep(s, io));
    } else {
      TurnsKept(s, SizeStep(s));
    }
  }

  lemma EntryTurns(s: State, l: Label)
    requires Enabled(s, l) && TurnsOk(s) && !l.StepIrq? && !l.StepRead? && !l.StepCtl?
    ensures TurnsOk(Step(s, l))
  {
    TurnsKept(s, Step(s, l));
  }

  lemma StepTurns(s: State, l: Label)
    requires Enabled(s, l) && Bounded(s) && TurnsOk(s)
    ensures TurnsOk(Step(s, l))
  {
    match l
    case StepIrq(io) => IrqTurns(s, io);
    case StepRead(r, copied) => ReadTurns(s, r, copied);
    case StepCtl(io) => CtlTurns(s, io);
    case _ => EntryTurns(s, l);
  }
}

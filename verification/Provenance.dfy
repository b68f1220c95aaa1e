/**
  Time stamps: every sample that reaches user space pairs the clock of one DRDY edge with
  the values of the one transfer made for that edge.
*/
module Provenance {
  import opened Wrappers
  import opened Codec
  import opened Pipeline
  import opened Stream
  import opened Theorems

  /** Label `j` is a data transfer of the IRQ thread that went through, and received `f`'s values. */
  ghost predicate TransferAt(n: nat, ls: seq<Label>, j: nat, f: Sample)
    requires j < |ls|
  {
    && Exec(Init(n), ls[..j]).Some? && Exec(Init(n), ls[..j]).value.irq.ReadFrame?
    && ls[j].StepIrq? && ls[j].io.Ok? && Carries(ls[j].io.rx, f.ch)
  }

  /** Label `k` is a DRDY edge, label `j` the transfer that followed it, and no other edge came in between. */
  ghost predicate EdgeThenFrame(n: nat, ls: seq<Label>, k: nat, j: nat, f: Sample)
    requires k < j < |ls|
  {
    && ls[k] == Drdy(f.ts)
    && TransferAt(n, ls, j, f)
    && forall m :: k < m < j ==> !ls[m].Drdy?
  }

  ghost predicate ReadFrom(n: nat, ls: seq<Label>, f: Sample) {
    exists k: nat, j: nat :: k < j < |ls| && EdgeThenFrame(n, ls, k, j, f)
  }

  ghost predicate LastEdge(ls: seq<Label>, ts: int) {
    exists k: nat :: k < |ls| && ls[k] == Drdy(ts) && forall m :: k < m < |ls| ==> !ls[m].Drdy?
  }

  lemma ReadFromGrows(n: nat, ls: seq<Label>, l: Label, f: Sample)
    requires ReadFrom(n, ls, f)
    ensures ReadFrom(n, ls + [l], f)
  {
    var k: nat, j: nat :| k < j < |ls| && EdgeThenFrame(n, ls, k, j, f);
    assert (ls + [l])[..j] == ls[..j];
    assert EdgeThenFrame(n, ls + [l], k, j, f);
  }

  lemma ReadNow(n: nat, ls: seq<Label>, l: Label, f: Sample)
    requires Exec(Init(n), ls).Some? && Exec(Init(n), ls).value.irq.ReadFrame?
    requires LastEdge(ls, f.ts) && l.StepIrq? && l.io.Ok? && f.ch == Channels(l.io.rx)
    ensures ReadFrom(n, ls + [l], f)
  {
    var k: nat :| k < |ls| && ls[k] == Drdy(f.ts) && forall m :: k < m < |ls| ==> !ls[m].Drdy?;
    ChannelsCarried(l.io.rx);
    assert (ls + [l])[..|ls|] == ls;
    assert EdgeThenFrame(n, ls + [l], k, |ls|, f);
  }

  lemma EdgeStays(ls: seq<Label>, l: Label, ts: int)
    requires if l.Drdy? then l.ts == ts else LastEdge(ls, ts)
    ensures LastEdge(ls + [l], ts)
  {
    var k: nat := |ls|;
    if !l.Drdy? {
      k :| k < |ls| && ls[k] == Drdy(ts) && forall m :: k < m < |ls| ==> !ls[m].Drdy?;
    }
    assert (ls + [l])[k] == Drdy(ts);
  }

  /** What a step adds to the frames, and when the interrupt is busy. */
  lemma StepFrames(s: State, l: Label)
    requires Enabled(s, l)
    ensures var t := Step(s, l);
      || t.h.frames == s.h.frames
      || (s.irq.ReadFrame? && l.StepIrq? && l.io.Ok?
          && t.h.frames == s.h.frames + [Sample(s.h.eventTs, Channels(l.io.rx))])
    ensures l.Drdy? ==> Step(s, l).h.eventTs == l.ts
    ensures !l.Drdy? ==> Step(s, l).h.eventTs == s.h.eventTs && (s.irq.IrqIdle? ==> Step(s, l).irq.IrqIdle?)
  {
    match l
    case StepIrq(io) => IrqFrames(s, io);
    case StepRead(r, copied) =>
      assert ReadStep(s, r, copied).h.frames == s.h.frames;
    case StepCtl(io) =>
      assert CtlStep(s, io).h.frames == s.h.frames;
    case _ =>
  }

  lemma IrqFrames(s: State, io: Io)
    requires !s.irq.IrqIdle?
    ensures var t := IrqStep(s, io);
      && t.h.eventTs == s.h.eventTs
      && (t.h.frames == s.h.frames
          || (s.irq.ReadFrame? && io.Ok? && t.h.frames == s.h.frames + [Sample(s.h.eventTs, Channels(io.rx))]))
  {
    if Fetching(s.irq) {
    } else if Stamping(s.irq) {
    } else if Filling(s.irq) {
      FillFrames(s, io);
    } else {
    }
  }

  lemma FillFrames(s: State, io: Io)
    requires Filling(s.irq)
    ensures var t := FillStep(s, io);
      && t.h.eventTs == s.h.eventTs
      && (t.h.frames == s.h.frames
          || (s.irq.ReadFrame? && io.Ok? && t.h.frames == s.h.frames + [Sample(s.h.eventTs, Channels(io.rx))]))
  {
  }

  lemma {:induction false} FramesHaveEdges(n: nat, ls: seq<Label>)
    requires Exec(Init(n), ls).Some?
    ensures var t := Exec(Init(n), ls).value;
      && (forall f :: f in t.h.frames ==> ReadFrom(n, ls, f))
      && (!t.irq.IrqIdle? ==> LastEdge(ls, t.h.eventTs))
  {
    if ls != [] {
      var pre, l := ls[..|ls| - 1], ls[|ls| - 1];
      var s := Exec(Init(n), pre).value;
      FramesHaveEdges(n, pre);
      assert ls == pre + [l];
      StepFrames(s, l);
      var t := Step(s, l);
      forall f | f in t.h.frames
        ensures ReadFrom(n, ls, f)
      {
        if f in s.h.frames {
          ReadFromGrows(n, pre, l, f);
        } else {
          ReadNow(n, pre, l, f);
        }
      }
      if !t.irq.IrqIdle? {
        EdgeStays(pre, l, t.h.eventTs);
      }
    }
  }

  lemma {:induction false} ChunkInFlat(taken: seq<Chunk>, i: nat, f: Sample)
    requires i < |taken| && f in taken[i].samples
    ensures f in Flat(taken)
  {
    if i < |taken| - 1 {
      ChunkInFlat(taken[..|taken| - 1], i, f);
    }
  }

  /** Every delivered sample carries the time of one DRDY edge and the values of the transfer made for that edge. */
  lemma TimestampPairing(n: nat, ls: seq<Label>, t: State, d: Delivery, f: Sample)
    requires Serialised(ls) && Exec(Init(n), ls) == Some(t)
    requires d in t.h.deliveries && f in d.samples
    ensures ReadFrom(n, ls, f)
  {
    DeliveriesGenuine(n, ls, t, d);
    StreamOrder(n, ls, t);
    var i :| 0 <= i < |t.h.taken| && t.h.taken[i].byReader && t.h.taken[i].samples == d.chunk;
    assert f in d.chunk;
    ChunkInFlat(t.h.taken, i, f);
    FramesHaveEdges(n, ls);
  }
}

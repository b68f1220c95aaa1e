/**
  The end to end result: what callers of `read` receive is the stream, in order and
  complete, as long as nothing that the driver reports or counts has taken from it.
*/
module Completeness {
  import opened Wrappers
  import opened Pipeline
  import opened Stream
  import opened Turns
  import opened Ledger
  import opened Theorems

  function Join(ss: seq<seq<Sample>>): seq<Sample> {
    if ss == [] then [] else Join(ss[..|ss| - 1]) + ss[|ss| - 1]
  }

  /** The samples caller `r` received, in order. */
  function Received(ds: seq<Delivery>, r: nat): seq<Sample> {
    if ds == [] then []
    else Received(ds[..|ds| - 1], r) + if ds[|ds| - 1].r == r then ds[|ds| - 1].samples else []
  }

  /** No copy to `r` failed, and `r` always had room for the chunk it got. */
  predicate Undisturbed(h: Hist, r: nat) {
    && (forall e :: e in h.endings && e.r == r ==> e.copied)
    && (forall d :: d in h.deliveries && d.r == r ==> |d.chunk| <= d.max)
  }

  lemma JoinSnoc(ss: seq<seq<Sample>>, x: seq<Sample>)
    ensures Join(ss + [x]) == Join(ss) + x
  {
    assert (ss + [x])[..|ss|] == ss;
  }

  /** For logs in which caller `r` was handed whole chunks. */
  lemma {:induction false} ReceivedWhole(ds: seq<Delivery>, r: nat)
    requires forall d :: d in ds && d.r == r ==> d.samples == d.chunk
    ensures Received(ds, r) == Join(DeliveredTo(ds, r))
  {
    if ds != [] {
      var front, d := ds[..|ds| - 1], ds[|ds| - 1];
      ReceivedWhole(front, r);
      if d.r == r {
        JoinSnoc(DeliveredTo(front, r), d.chunk);
      } else {
        assert DeliveredTo(front, r) + [] == DeliveredTo(front, r);
        assert Received(front, r) + [] == Received(front, r);
      }
    }
  }

  lemma {:induction false} AllCopied(es: seq<Ending>, r: nat)
    requires forall e :: e in es && e.r == r ==> e.copied
    ensures CopiesOf(es, r) == EndingsOf(es, r)
  {
    if es != [] {
      AllCopied(es[..|es| - 1], r);
    }
  }

  /**
    What a caller has received, and what it holds, is what it took: no sample is missing, none
    comes twice, none out of order.
  */
  lemma CallerGetsAll(n: nat, ls: seq<Label>, t: State, r: nat)
    requires Serialised(ls) && Exec(Init(n), ls) == Some(t) && r < n
    requires t.h.clashes == 0 && Undisturbed(t.h, r)
    ensures |t.readers| == n
    ensures Received(t.h.deliveries, r) + Join(InHand(t.readers[r])) == Join(TakesOf(t.h.takes, r))
  {
    ReadersInOrder(n, ls, t, r);
    forall d | d in t.h.deliveries && d.r == r
      ensures d.samples == d.chunk
    {
      DeliveriesGenuine(n, ls, t, d);
    }
    ReceivedWhole(t.h.deliveries, r);
    AllCopied(t.h.endings, r);
    JoinHand(EndingsOf(t.h.endings, r), InHand(t.readers[r]));
  }

  lemma JoinHand(done: seq<seq<Sample>>, hand: seq<seq<Sample>>)
    requires |hand| <= 1
    ensures Join(done + hand) == Join(done) + Join(hand)
  {
    if hand == [] {
      assert done + [] == done;
    } else {
      assert hand == [hand[0]] == [] + [hand[0]];
      JoinSnoc(done, hand[0]);
      JoinSnoc([], hand[0]);
    }
  }

  /** Where the cleanup found nothing, the fetched chunks are the readers'. */
  lemma {:induction false} NothingSwept(taken: seq<Chunk>)
    requires SumSwept(taken) == 0
    ensures Flat(taken) == Join(ByReaders(taken))
  {
    if taken != [] {
      var front, c := taken[..|taken| - 1], taken[|taken| - 1];
      NothingSwept(front);
      if c.byReader {
        JoinSnoc(ByReaders(front), c.samples);
      } else {
        assert ByReaders(front) + [] == ByReaders(front);
        assert c.samples == [];
      }
    }
  }

  /**
    As long as the cleanup has thrown nothing away, the chunks taken by all callers and what is
    pending are the stream.
  */
  lemma TakesAreTheStream(n: nat, ls: seq<Label>, t: State)
    requires Serialised(ls) && Exec(Init(n), ls) == Some(t) && t.h.discarded == 0
    ensures t.h.frames == Join(AllTakes(t.h.takes)) + Pending(t)
  {
    StreamOrder(n, ls, t);
    SamplesAccounted(n, ls, t);
    NothingSwept(t.h.taken);
    RunBase(n, ls);
  }

  lemma {:induction false} OnlyCaller(ts: seq<Take>)
    requires forall e :: e in ts ==> e.r == 0
    ensures TakesOf(ts, 0) == AllTakes(ts)
  {
    if ts != [] {
      OnlyCaller(ts[..|ts| - 1]);
    }
  }

  /**
    One caller, no failed copy, always room, nothing thrown away and no resize while a chunk
    was in its hands: what it received, what it holds and what is still in the driver are,
    in this order, all the frames ever read.
  */
  lemma WholeStream(ls: seq<Label>, t: State)
    requires Serialised(ls) && Exec(Init(1), ls) == Some(t)
    requires t.h.clashes == 0 && t.h.discarded == 0 && Undisturbed(t.h, 0)
    ensures |t.readers| == 1
    ensures t.h.frames == Received(t.h.deliveries, 0) + Join(InHand(t.readers[0])) + Pending(t)
  {
    CallerGetsAll(1, ls, t, 0);
    TakesAreTheStream(1, ls, t);
    RunBase(1, ls);
    OnlyCaller(t.h.takes);
  }

  // ----- one session -----

  lemma {:induction false} ByReadersConcat(a: seq<Chunk>, b: seq<Chunk>)
    ensures ByReaders(a + b) == ByReaders(a) + ByReaders(b)
  {
    if b == [] {
      assert a + b == a;
    } else {
      var m := |b| - 1;
      ByReadersConcat(a, b[..m]);
      assert (a + b)[..|a + b| - 1] == a + b[..m];
    }
  }

  lemma {:induction false} JoinConcat(a: seq<seq<Sample>>, b: seq<seq<Sample>>)
    ensures Join(a + b) == Join(a) + Join(b)
  {
    if b == [] {
      assert a + b == a;
    } else {
      var m := |b| - 1;
      JoinConcat(a, b[..m]);
      assert (a + b)[..|a + b| - 1] == a + b[..m];
      Associates(Join(a), Join(b[..m]), b[m]);
    }
  }

  lemma {:induction false} AllByReaders(taken: seq<Chunk>)
    requires forall c :: c in taken ==> c.byReader
    ensures Flat(taken) == Join(ByReaders(taken))
  {
    if taken != [] {
      AllByReaders(taken[..|taken| - 1]);
      JoinSnoc(ByReaders(taken[..|taken| - 1]), taken[|taken| - 1].samples);
    }
  }

  /** How many chunks callers of `read` had taken when the current session began. */
  function TakenBefore(h: Hist): nat
    requires h.takenMark <= |h.taken|
  {
    |ByReaders(h.taken[..h.takenMark])|
  }

  /** While a session runs, the chunks taken since it began, and what is pending, are all the frames it has read. */
  lemma TakesAreTheSession(n: nat, ls: seq<Label>, t: State)
    requires Serialised(ls) && Exec(Init(n), ls) == Some(t) && t.run
    ensures t.h.takenMark <= |t.h.taken| && t.h.frameMark <= |t.h.frames|
    ensures TakenBefore(t.h) <= |AllTakes(t.h.takes)|
    ensures t.h.frames[t.h.frameMark..] == Join(AllTakes(t.h.takes)[TakenBefore(t.h)..]) + Pending(t)
  {
    SessionOrder(n, ls, t);
    RunBase(n, ls);
    var a, b := t.h.taken[..t.h.takenMark], t.h.taken[t.h.takenMark..];
    assert ByReaders(t.h.taken) == ByReaders(a) + ByReaders(b) by {
      assert t.h.taken == a + b;
      ByReadersConcat(a, b);
    }
    AllByReaders(b);
  }

  /**
    One caller, no failed copy, always room, no resize while it held a chunk: what it has
    received and holds, and what is pending, are the chunks it took in earlier sessions and
    then all the frames of this one, in order and complete.
  */
  lemma WholeSession(ls: seq<Label>, t: State)
    requires Serialised(ls) && Exec(Init(1), ls) == Some(t) && t.run
    requires t.h.clashes == 0 && Undisturbed(t.h, 0)
    ensures |t.readers| == 1 && t.h.takenMark <= |t.h.taken| && t.h.frameMark <= |t.h.frames|
    ensures TakenBefore(t.h) <= |AllTakes(t.h.takes)|
    ensures Received(t.h.deliveries, 0) + Join(InHand(t.readers[0])) + Pending(t)
         == Join(AllTakes(t.h.takes)[..TakenBefore(t.h)]) + t.h.frames[t.h.frameMark..]
  {
    CallerGetsAll(1, ls, t, 0);
    TakesAreTheSession(1, ls, t);
    RunBase(1, ls);
    OnlyCaller(t.h.takes);
    JoinSplit(AllTakes(t.h.takes), TakenBefore(t.h), Pending(t));
  }

  lemma JoinSplit(all: seq<seq<Sample>>, k: nat, rest: seq<Sample>)
    requires k <= |all|
    ensures Join(all) + rest == Join(all[..k]) + (Join(all[k..]) + rest)
  {
    assert all == all[..k] + all[k..];
    JoinConcat(all[..k], all[k..]);
    Associates(Join(all[..k]), Join(all[k..]), rest);
  }
}

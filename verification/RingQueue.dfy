/**
  The ring of queue.c.  `que_enq` never wraps `tail`, `que_deq` does it later; and
  `head == tail` always means empty.  So the ring is a FIFO only under conditions, stated
  here exactly.  (The Makefile leaves queue.c out of the module.)
*/
module RingQueue {
  import opened Wrappers

  /** The fields of `que_t`, as a value. */
  datatype Ring<T> = Ring(head: int, tail: int, que: seq<T>)
  {
    predicate Valid() {
      0 <= head < |que| && 0 <= tail <= |que|
    }

    /** `calc_que_sz` */
    function Size(): int {
      if head == tail then 0
      else if tail > head then tail - head
      else |que| - head + tail
    }

    predicate Full() { Size() == |que| }

    predicate Empty() { Size() == 0 }

    /** The queued items, oldest first. */
    function Contents(): (s: seq<T>)
      requires Valid()
      ensures |s| == Size()
    {
      if head == tail then []
      else if tail > head then que[head..tail]
      else que[head..] + que[..tail]
    }

    /** `que_enq` stores inside the array. */
    predicate CanStore() {
      Full() || tail < |que|
    }

    /** A store outside the array has no defined effect in C; here it has none at all. */
    function Enq(x: T): Ring<T>
      requires Valid()
    {
      if Full() then this
      else this.(que := if tail < |que| then que[tail := x] else que, tail := tail + 1)
    }

    function Deq(): Ring<T>
      requires Valid()
    {
      if Empty() then this
      else
        this.(head := if head + 1 == |que| then 0 else head + 1, tail := if tail == |que| then 0 else tail)
    }

    function Peek(): Option<T>
      requires Valid()
    {
      if Empty() then None else Some(que[head])
    }
  }

  lemma SizeInRange<T>(r: Ring<T>)
    requires r.Valid()
    ensures 0 <= r.Size() <= |r.que|
    ensures r.Full() <==> r.head == 0 && r.tail == |r.que|
  {
  }

  /** Dequeuing always agrees with a FIFO. */
  lemma DeqIsFifo<T>(r: Ring<T>)
    requires r.Valid()
    ensures r.Deq().Valid()
    ensures r.Deq().Contents() == if r.Contents() == [] then [] else r.Contents()[1..]
    ensures r.Peek() == if r.Contents() == [] then None else Some(r.Contents()[0])
  {
  }

  /**
    The store is inside the array, and the ring stays well-formed, exactly under
    `CanStore`.  Then an accepted item is appended exactly when the slot behind it is not
    the head; otherwise the full ring looks empty, and everything in it is lost.
  */
  lemma EnqIsFifo<T>(r: Ring<T>, x: T)
    requires r.Valid()
    ensures r.Enq(x).Valid() <==> r.CanStore()
    ensures r.Full() ==> r.Enq(x) == r
    ensures !r.Full() && r.CanStore() ==> (r.Enq(x).Contents() == r.Contents() + [x] <==> r.tail + 1 != r.head)
    ensures !r.Full() && r.CanStore() && r.tail + 1 == r.head ==> r.Enq(x).Contents() == []
  {
    var t := r.Enq(x);
    if !r.Full() && r.CanStore() && r.tail + 1 != r.head {
      if r.head == r.tail {
        assert t.que[r.head..r.tail + 1] == [x];
      } else if r.tail > r.head {
        assert t.que[r.head..r.tail + 1] == r.que[r.head..r.tail] + [x];
      } else {
        assert t.que[r.head..] == r.que[r.head..];
        assert t.que[..r.tail + 1] == r.que[..r.tail] + [x];
      }
    }
  }

  /** Both exceptions come up in use: a queue of three, four calls each. */
  lemma RingMisbehaves()
    ensures var r := Ring(0, 0, [0, 0, 0]).Enq(1).Enq(2).Deq().Enq(3); r.Valid() && !r.CanStore() && !r.Enq(4).Valid()
    ensures var r := Ring(0, 0, [0, 0, 0]).Enq(1).Enq(2).Enq(3).Deq();
      r.Contents() == [2, 3] && r.Enq(4).Contents() == []
  {
    var a := Ring(0, 0, [0, 0, 0]).Enq(1).Enq(2);
    assert a == Ring(0, 2, [1, 2, 0]);
    assert a.Deq().Enq(3) == Ring(1, 3, [1, 2, 3]);
    var b := a.Enq(3).Deq();
    assert b == Ring(1, 0, [1, 2, 3]);
    assert b.Enq(4) == Ring(1, 1, [4, 2, 3]);
  }

  // ----- whole runs -----

  datatype Op<T> = OpEnq(x: T) | OpDeq

  /** What a caller must check before an operation: an enqueue has a free slot behind which the head is not. */
  predicate Good<T>(r: Ring<T>, op: Op<T>) {
    op.OpEnq? ==> r.Full() || (r.tail < |r.que| && r.tail + 1 != r.head)
  }

  function Apply<T>(r: Ring<T>, op: Op<T>): (Ring<T>, Option<T>)
    requires r.Valid() && Good(r, op)
  {
    match op
    case OpEnq(x) => (r.Enq(x), None)
    case OpDeq => (r.Deq(), r.Peek())
  }

  /** The reference: a list that holds at most `cap` items. */
  function ApplyFifo<T>(s: seq<T>, cap: nat, op: Op<T>): (seq<T>, Option<T>) {
    match op
    case OpEnq(x) => (if |s| == cap then s else s + [x], None)
    case OpDeq => if s == [] then (s, None) else (s[1..], Some(s[0]))
  }

  /** Every operation of the run meets its condition. */
  predicate GoodRun<T>(r: Ring<T>, ops: seq<Op<T>>)
    requires r.Valid()
    decreases |ops|
  {
    ops == [] || (Good(r, ops[0]) && Apply(r, ops[0]).0.Valid() && GoodRun(Apply(r, ops[0]).0, ops[1..]))
  }

  function Outputs<T>(r: Ring<T>, ops: seq<Op<T>>): seq<Option<T>>
    requires r.Valid() && GoodRun(r, ops)
    decreases |ops|
  {
    if ops == [] then [] else [Apply(r, ops[0]).1] + Outputs(Apply(r, ops[0]).0, ops[1..])
  }

  function FifoOutputs<T>(s: seq<T>, cap: nat, ops: seq<Op<T>>): seq<Option<T>>
    decreases |ops|
  {
    if ops == [] then []
    else [ApplyFifo(s, cap, ops[0]).1] + FifoOutputs(ApplyFifo(s, cap, ops[0]).0, cap, ops[1..])
  }

  lemma ApplyRefines<T>(r: Ring<T>, op: Op<T>)
    requires r.Valid() && Good(r, op)
    ensures Apply(r, op).0.Valid() && |Apply(r, op).0.que| == |r.que|
    ensures (Apply(r, op).0.Contents(), Apply(r, op).1) == ApplyFifo(r.Contents(), |r.que|, op)
  {
    SizeInRange(r);
    match op
    case OpEnq(x) => EnqIsFifo(r, x);
    case OpDeq => DeqIsFifo(r);
  }

  /** A run that keeps the condition gives out exactly what a bounded FIFO gives out. */
  lemma {:induction false} GoodRunsAreFifo<T>(r: Ring<T>, ops: seq<Op<T>>)
    requires r.Valid() && GoodRun(r, ops)
    ensures Outputs(r, ops) == FifoOutputs(r.Contents(), |r.que|, ops)
    decreases |ops|
  {
    if ops != [] {
      ApplyRefines(r, ops[0]);
      GoodRunsAreFifo(Apply(r, ops[0]).0, ops[1..]);
    }
  }

  // ----- the code -----

  class Queue<T> {
    var head: int
    var tail: int
    const que: array<T>

    function Value(): Ring<T>
      reads this, que
    {
      Ring(head, tail, que[..])
    }

    /** `que_new` */
    constructor (size: nat, blank: T)
      requires size > 0
      ensures Value().Valid() && Value().Contents() == [] && que.Length == size && fresh(que)
    {
      head, tail := 0, 0;
      que := new T[size](_ => blank);
    }

    method CalcQueSz() returns (ret: int)
      ensures ret == Value().Size()
      ensures Value().Valid() ==> ret == |Value().Contents()|
    {
      if head == tail {
        ret := 0;
      } else if tail > head {
        ret := tail - head;
      } else {
        ret := que.Length - head + tail;
      }
    }

    /** `que_enq`; the store is inside the array exactly under `CanStore`. */
    method Enq(item: T) returns (ok: bool)
      requires Value().Valid()
      modifies this, que
      ensures ok == !old(Value()).Full()
      ensures Value() == old(Value()).Enq(item)
      ensures Value().Valid() <==> old(Value()).CanStore()
      ensures ok && old(Value()).CanStore() && old(tail + 1 != head) ==>
        Value().Contents() == old(Value().Contents()) + [item]
    {
      EnqIsFifo(Value(), item);
      var size := CalcQueSz();
      ok := size != que.Length;
      if ok {
        if tail < que.Length {
          que[tail] := item;
        }
        tail := tail + 1;
      }
    }

    method Deq() returns (ret: Option<T>)
      requires Value().Valid()
      modifies this
      ensures ret == old(Value()).Peek()
      ensures Value() == old(Value()).Deq() && Value().Valid()
      ensures Value().Contents() == if ret.None? then [] else old(Value().Contents())[1..]
    {
      DeqIsFifo(Value());
      ret := None;
      var size := CalcQueSz();
      if size != 0 {
        ret := Some(que[head]);
        head := head + 1;
        if tail == que.Length {
          tail := 0;
        }
        if head == que.Length {
          head := 0;
        }
      }
    }

    method Peek() returns (ret: Option<T>)
      requires Value().Valid()
      ensures ret == if Value().Contents() == [] then None else Some(Value().Contents()[0])
    {
      ret := None;
      var size := CalcQueSz();
      if size != 0 {
        ret := Some(que[head]);
      }
    }
  }
}

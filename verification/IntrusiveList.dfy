/**
  The intrusive doubly linked list of list.c on the heap, with `elems` as its abstract
  value.  Every buffer pool of the driver is such a list.
*/
module IntrusiveList {
  import opened Wrappers

  class Elem {
    var parent: List?
    var prev: Elem?
    var next: Elem?
  }

  function InsertAt(s: seq<Elem>, p: nat, x: Elem): seq<Elem>
    requires p <= |s|
  {
    s[..p] + [x] + s[p..]
  }

  function RemoveAt(s: seq<Elem>, p: nat): seq<Elem>
    requires p < |s|
  {
    s[..p] + s[p + 1..]
  }

  function Nth(s: seq<Elem>, i: int): Elem? {
    if 0 <= i < |s| then s[i] else null
  }

  /** Position of `x`, or |s|. */
  function IndexOf<T(==)>(s: seq<T>, x: T): (p: nat)
    ensures p <= |s|
    ensures x in s ==> p < |s| && s[p] == x
  {
    if s == [] then 0 else if s[0] == x then 0 else 1 + IndexOf(s[1..], x)
  }

  lemma InsertNth(s: seq<Elem>, p: nat, x: Elem)
    requires NoDup(s) && p <= |s| && x !in s
    ensures NoDup(InsertAt(s, p, x))
    ensures forall i {:trigger Nth(InsertAt(s, p, x), i)} ::
      Nth(InsertAt(s, p, x), i) == if i < p then Nth(s, i) else if i == p then x else Nth(s, i - 1)
  {
  }

  lemma RemoveNth(s: seq<Elem>, p: nat)
    requires NoDup(s) && p < |s|
    ensures NoDup(RemoveAt(s, p))
    ensures forall i {:trigger Nth(RemoveAt(s, p), i)} ::
      Nth(RemoveAt(s, p), i) == if i < p then Nth(s, i) else Nth(s, i + 1)
  {
  }

  class List {
    var head: Elem?
    var tail: Elem?
    var count: int
    ghost var elems: seq<Elem>

    /** Member `i` is linked to its neighbours and to the list. */
    ghost predicate Linked(i: nat)
      requires i < |elems|
      reads this, elems
    {
      && elems[i].parent == this
      && elems[i].prev == Nth(elems, i - 1)
      && elems[i].next == Nth(elems, i + 1)
    }

    /** `prev` and `next` are mutually inverse along `elems`, and nothing else is linked. */
    ghost predicate Valid()
      reads this, elems
    {
      && count == |elems|
      && NoDup(elems)
      && head == Nth(elems, 0)
      && tail == Nth(elems, |elems| - 1)
      && (forall i: nat :: i < |elems| ==> Linked(i))
    }

    /** The list and its members. */
    ghost function Footprint(): set<object>
      reads this
    {
      {this} + set e: object | e in elems
    }

    /** `list_new` */
    constructor ()
      ensures Valid() && elems == []
    {
      head, tail, count := null, null, 0;
      elems := [];
    }
  }

  // ----- list_append, list_insert -----

  method Append(list: List?, elm: Elem?)
    requires list != null ==> list.Valid() && elm !in list.elems
    modifies if list != null && elm != null then list.Footprint() + {elm} else {}
    ensures list != null && elm != null ==> list.Valid() && list.elems == old(list.elems) + [elm]
  {
    if list == null || elm == null {
      return;
    }
    elm.parent := list;
    elm.next := null;
    ghost var was := list.elems;
    if list.head == null {
      elm.prev := null;
      list.head, list.tail := elm, elm;
    } else {
      assert list.Linked(|was| - 1);
      elm.prev := list.tail;
      elm.prev.next := elm;
      list.tail := elm;
    }
    list.count := list.count + 1;
    list.elems := list.elems + [elm];
    forall i: nat | i < |list.elems|
      ensures list.Linked(i)
    {
      assert i < |was| ==> old(list.Linked(i));
    }
  }

  /** Where `list_insert` puts an element: behind `prev`, or first without one. */
  function InsertPos(s: seq<Elem>, prev: Elem?): (p: nat)
    requires prev == null || s == [] || prev in s
    ensures p <= |s|
  {
    if s == [] || prev == null then 0 else IndexOf(s, prev) + 1
  }

  method Insert(list: List?, prev: Elem?, elm: Elem?)
    requires list != null ==> list.Valid() && elm !in list.elems
    requires list != null && prev != null && list.elems != [] ==> prev in list.elems
    modifies if list != null && elm != null then list.Footprint() + {elm} else {}
    ensures list != null && elm != null ==>
      list.Valid() && list.elems == InsertAt(old(list.elems), InsertPos(old(list.elems), prev), elm)
    ensures list != null && elm != null ==> elm.prev == if old(list.elems) == [] then null else prev
  {
    if list == null || elm == null {
      return;
    }
    ghost var was, p := list.elems, InsertPos(list.elems, prev);
    assert 0 < p ==> list.Linked(p - 1);
    assert p < |was| ==> list.Linked(p);
    elm.parent := list;
    if list.head == null {
      elm.prev, elm.next := null, null;
      list.head, list.tail := elm, elm;
    } else if prev == null {
      elm.prev := null;
      elm.next := list.head;
      list.head.prev := elm;
      list.head := elm;
    } else {
      elm.prev := prev;
      elm.next := prev.next;
      prev.next := elm;
      if elm.next == null {
        list.tail := elm;
      } else {
        elm.next.prev := elm;
      }
    }
    list.count := list.count + 1;
    InsertNth(was, p, elm);
    list.elems := InsertAt(was, p, elm);
    forall i: nat | i < |list.elems|
      ensures list.Linked(i)
    {
      assert Nth(list.elems, i) == list.elems[i];
      assert i < p ==> old(list.Linked(i)) && Nth(was, i) == was[i];
      assert p < i ==> old(list.Linked(i - 1)) && Nth(was, i - 1) == was[i - 1];
    }
  }

  // ----- list_fetch, list_del_elm -----

  method Fetch(list: List?) returns (ret: Elem?)
    requires list != null ==> list.Valid()
    modifies if list != null then list.Footprint() else {}
    ensures list == null ==> ret == null
    ensures list != null ==> list.Valid()
    ensures list != null && old(list.elems) == [] ==> ret == null && list.elems == []
    ensures list != null && old(list.elems) != [] ==> ret == old(list.elems[0]) && list.elems == old(list.elems)[1..]
    ensures ret != null ==> ret.parent == null && ret.prev == null && ret.next == null
  {
    if list == null {
      return null;
    }
    ret := list.head;
    if ret != null {
      assert list.Linked(0);
      assert |list.elems| > 1 ==> list.Linked(1);
      list.head := ret.next;
      if list.head != null {
        list.head.prev := null;
      } else {
        list.tail := null;
      }
      list.count := list.count - 1;
      ret.parent := null;
      ret.prev := null;
      ret.next := null;
      list.elems := list.elems[1..];
      forall i: nat | i < |list.elems|
        ensures list.Linked(i)
      {
        assert old(list.Linked(i + 1));
      }
    }
  }

  /** `list_del_elm`; `freed` is what it passes to kfree. */
  method DelElm(elm: Elem?, freeElm: bool) returns (freed: Elem?)
    requires elm != null && elm.parent != null ==> elm.parent.Valid() && elm in elm.parent.elems
    modifies if elm != null && elm.parent != null then elm.parent.Footprint() else {}
    ensures elm != null && old(elm.parent) != null ==>
      var list := old(elm.parent);
      && list.Valid()
      && list.elems == RemoveAt(old(elm.parent.elems), IndexOf(old(elm.parent.elems), elm))
      && elm.parent == null && elm.prev == null && elm.next == null
    ensures freed == if freeElm then elm else null
  {
    freed := null;
    if elm == null {
      return;
    }
    var list := elm.parent;
    if list == null {
      if freeElm {
        freed := elm;
      }
      return;
    }
    Unlink(list, elm);
    if freeElm {
      freed := elm;
    }
  }

  /** The part of `list_del_elm` under the lock. */
  method Unlink(list: List, elm: Elem)
    requires list.Valid() && elm in list.elems
    modifies list.Footprint()
    ensures list.Valid() && list.elems == RemoveAt(old(list.elems), IndexOf(old(list.elems), elm))
    ensures elm.parent == null && elm.prev == null && elm.next == null
  {
    ghost var was, p := list.elems, IndexOf(list.elems, elm);
    assert list.Linked(p);
    assert 0 < p ==> list.Linked(p - 1);
    assert p + 1 < |was| ==> list.Linked(p + 1);
    if elm.prev != null {
      elm.prev.next := elm.next;
    } else {
      list.head := elm.next;
    }
    if elm.next != null {
      elm.next.prev := elm.prev;
    } else {
      list.tail := elm.prev;
    }
    elm.prev := null;
    elm.next := null;
    elm.parent := null;
    list.count := list.count - 1;
    RemoveNth(was, p);
    list.elems := RemoveAt(was, p);
    forall i: nat | i < |list.elems|
      ensures list.Linked(i)
    {
      assert Nth(list.elems, i) == list.elems[i];
      assert i < p ==> old(list.Linked(i)) && Nth(was, i) == was[i];
      assert p <= i ==> old(list.Linked(i + 1)) && Nth(was, i + 1) == was[i + 1];
    }
  }

  // ----- reading -----

  method Search(list: List?, match_: Elem -> bool) returns (ret: Elem?)
    requires list != null ==> list.Valid()
    ensures list == null ==> ret == null
    ensures list != null ==>
      if ret == null then forall e :: e in list.elems ==> !match_(e)
      else ret in list.elems && match_(ret) && forall e :: e in list.elems[..IndexOf(list.elems, ret)] ==> !match_(e)
  {
    if list == null {
      return null;
    }
    ret := list.head;
    ghost var i := 0;
    while ret != null
      invariant 0 <= i <= |list.elems|
      invariant ret == if i < |list.elems| then list.elems[i] else null
      invariant forall e :: e in list.elems[..i] ==> !match_(e)
      decreases |list.elems| - i
    {
      if match_(ret) {
        IndexOfAt(list.elems, i);
        return;
      }
      assert list.Linked(i);
      ret := ret.next;
      i := i + 1;
    }
  }

  lemma {:induction false} IndexOfAt<T>(s: seq<T>, i: nat)
    requires NoDup(s) && i < |s|
    ensures IndexOf(s, s[i]) == i
  {
    if i > 0 {
      assert s[1..][i - 1] == s[i];
      IndexOfAt(s[1..], i - 1);
    }
  }

  method GetIdx(list: List?, idx: int) returns (ret: Elem?)
    requires list != null ==> list.Valid()
    ensures ret == if list != null && 0 <= idx < |list.elems| then list.elems[idx] else null
  {
    ret := null;
    if list == null || idx < 0 {
      return;
    }
    if idx < list.count {
      ret := list.head;
      var cnt := idx;
      while cnt > 0 && ret != null
        invariant 0 <= cnt <= idx
        invariant ret == list.elems[idx - cnt]
      {
        assert list.Linked(idx - cnt);
        ret := ret.next;
        cnt := cnt - 1;
      }
    }
  }

  // ----- list_insert_sort -----

  /** First position whose element has to come after the new one, or |s|. */
  function ScanPos(s: seq<Elem>, new_: Elem, after: (Elem, Elem) -> bool): (p: nat)
    ensures p <= |s|
    ensures forall i :: 0 <= i < p ==> !after(s[i], new_)
    ensures p < |s| ==> after(s[p], new_)
  {
    if s == [] || after(s[0], new_) then 0 else 1 + ScanPos(s[1..], new_, after)
  }

  /** With the shortcut for an element that goes last. */
  function SortPos(s: seq<Elem>, new_: Elem, after: (Elem, Elem) -> bool): (p: nat)
    ensures p <= |s|
  {
    if s != [] && !after(s[|s| - 1], new_) then |s| else ScanPos(s, new_, after)
  }

  lemma {:induction false} ScanPosIs(s: seq<Elem>, new_: Elem, after: (Elem, Elem) -> bool, p: nat)
    requires p <= |s| && (forall i :: 0 <= i < p ==> !after(s[i], new_)) && (p < |s| ==> after(s[p], new_))
    ensures ScanPos(s, new_, after) == p
  {
  }

  /** `list_insert` behind the element before position `p`. */
  method InsertBehind(list: List, prev: Elem?, elm: Elem, ghost p: nat)
    requires list.Valid() && elm !in list.elems && list.elems != [] && p <= |list.elems|
    requires prev == if p == 0 then null else list.elems[p - 1]
    modifies list.Footprint() + {elm}
    ensures list.Valid() && list.elems == InsertAt(old(list.elems), p, elm)
  {
    if p > 0 {
      IndexOfAt(list.elems, p - 1);
    }
    Insert(list, prev, elm);
  }

  method InsertSort(list: List?, new_: Elem?, after: (Elem, Elem) -> bool)
    requires list != null ==> list.Valid() && new_ !in list.elems
    modifies if list != null && new_ != null then list.Footprint() + {new_} else {}
    ensures list != null && new_ != null ==>
      && list.Valid()
      && list.elems == InsertAt(old(list.elems), SortPos(old(list.elems), new_, after), new_)
  {
    if list == null || new_ == null {
      return;
    }
    var prev: Elem?, next := null, list.head;
    var last := list.tail;
    if last != null && !after(last, new_) {
      Append(list, new_);
      return;
    }
    ghost var i := 0;
    while next != null
      invariant 0 <= i <= |list.elems| && list.Valid() && list.elems == old(list.elems) && new_ !in list.elems
      invariant next == if i < |list.elems| then list.elems[i] else null
      invariant prev == if i == 0 then null else list.elems[i - 1]
      invariant forall j :: 0 <= j < i ==> !after(list.elems[j], new_)
      decreases |list.elems| - i
    {
      if after(next, new_) {
        ScanPosIs(list.elems, new_, after, i);
        InsertBehind(list, prev, new_, i);
        return;
      }
      assert list.Linked(i);
      prev := next;
      next := next.next;
      i := i + 1;
    }
    ScanPosIs(list.elems, new_, after, |list.elems|);
    Append(list, new_);
  }

  /** Nothing has to come after anything behind it. */
  ghost predicate Sorted(s: seq<Elem>, after: (Elem, Elem) -> bool) {
    forall i, j :: 0 <= i < j < |s| ==> !after(s[i], s[j])
  }

  /** `after` is a strict weak order on the given elements. */
  ghost predicate OrdersAll(es: set<Elem>, after: (Elem, Elem) -> bool) {
    && (forall a, b :: a in es && b in es && after(a, b) ==> !after(b, a))
    && (forall a, b, c :: a in es && b in es && c in es && !after(a, b) && !after(b, c) ==> !after(a, c))
  }

  /**
    The tail shortcut agrees with the full scan exactly when the last element has to come after
    the new one, or none has.
  */
  lemma ShortcutAgrees(s: seq<Elem>, new_: Elem, after: (Elem, Elem) -> bool)
    ensures SortPos(s, new_, after) == ScanPos(s, new_, after)
       <==> s == [] || after(s[|s| - 1], new_) || forall i :: 0 <= i < |s| ==> !after(s[i], new_)
  {
    if forall i :: 0 <= i < |s| ==> !after(s[i], new_) {
      ScanPosIs(s, new_, after, |s|);
    }
  }

  /** On a sorted list the elements that have to come after a new one are the last ones. */
  lemma AfterIsSuffix(s: seq<Elem>, new_: Elem, after: (Elem, Elem) -> bool)
    requires Sorted(s, after) && OrdersAll((set e | e in s) + {new_}, after)
    ensures forall i :: 0 <= i < |s| ==> (i < ScanPos(s, new_, after) <==> !after(s[i], new_))
  {
    var p := ScanPos(s, new_, after);
    forall i | p <= i < |s|
      ensures after(s[i], new_)
    {
      assert s[p] in s && s[i] in s;
      assert i == p || !after(s[p], s[i]);
    }
  }

  /** On a sorted list: the shortcut is harmless, the result is sorted, and the new element follows its equals. */
  lemma InsertKeepsSorted(s: seq<Elem>, new_: Elem, after: (Elem, Elem) -> bool)
    requires Sorted(s, after) && OrdersAll((set e | e in s) + {new_}, after)
    ensures SortPos(s, new_, after) == ScanPos(s, new_, after)
    ensures Sorted(InsertAt(s, SortPos(s, new_, after), new_), after)
    ensures forall i :: 0 <= i < |s| ==> (i < SortPos(s, new_, after) <==> !after(s[i], new_))
    ensures multiset(InsertAt(s, SortPos(s, new_, after), new_)) == multiset(s) + multiset{new_}
  {
    var p := ScanPos(s, new_, after);
    AfterIsSuffix(s, new_, after);
    ShortcutAgrees(s, new_, after);
    InsertAdds(s, p, new_);
    SplitSorted(s, p, new_, after);
  }

  lemma InsertAdds(s: seq<Elem>, p: nat, x: Elem)
    requires p <= |s|
    ensures multiset(InsertAt(s, p, x)) == multiset(s) + multiset{x}
  {
    assert s == s[..p] + s[p..];
  }

  lemma SplitSorted(s: seq<Elem>, p: nat, new_: Elem, after: (Elem, Elem) -> bool)
    requires p <= |s| && Sorted(s, after)
    requires forall i :: 0 <= i < p ==> !after(s[i], new_)
    requires forall i :: p <= i < |s| ==> !after(new_, s[i])
    ensures Sorted(InsertAt(s, p, new_), after)
  {
    var t := InsertAt(s, p, new_);
    forall i, j | 0 <= i < j < |t|
      ensures !after(t[i], t[j])
    {
      assert t[i] == if i < p then s[i] else if i == p then new_ else s[i - 1];
      assert t[j] == if j < p then s[j] else if j == p then new_ else s[j - 1];
    }
  }

  // ----- list_cleanup, list_iter_do -----

  predicate Apart<T(==)>(a: seq<T>, b: seq<T>) {
    forall e :: e in a ==> e !in b
  }

  /**
    `list_cleanup` with any callback that leaves the list and its members alone until they
    are handed to it: it is called once for each, in order, with an element whose links are
    cleared, and the list is empty afterwards.  So the callback may free them.
  */
  method Drain(list: List?) returns (handed: seq<Elem>)
    requires list != null ==> list.Valid()
    modifies if list != null then list.Footprint() else {}
    ensures list == null ==> handed == []
    ensures list != null ==> list.Valid() && list.elems == [] && handed == old(list.elems)
    ensures AllLoose(handed)
  {
    handed := [];
    if list == null {
      return;
    }
    ghost var all, frame := list.elems, list.Footprint();
    var elm := FetchNext(list, []);
    while elm != null
      invariant |handed| <= |all| && handed == all[..|handed|]
      invariant list.Valid() && list.Footprint() <= frame
      invariant elm == Nth(all, |handed|)
      invariant list.elems == if elm == null then [] else all[|handed| + 1..]
      invariant AllLoose(handed) && (elm != null ==> Loose(elm))
      decreases |all| - |handed|
    {
      NotBehind(all, |handed|);
      handed := handed + [elm];
      elm := FetchNext(list, handed);
    }
  }

  /** `list_fetch`, which leaves the elements fetched before as they are. */
  method FetchNext(list: List, ghost before: seq<Elem>) returns (next: Elem?)
    requires list.Valid() && AllLoose(before) && forall e :: e in before ==> e !in list.elems
    modifies list.Footprint()
    ensures list.Valid() && list.Footprint() <= old(list.Footprint()) && AllLoose(before)
    ensures next == Nth(old(list.elems), 0)
    ensures next == null ==> list.elems == old(list.elems) == []
    ensures next != null ==> list.elems == old(list.elems)[1..] && Loose(next)
  {
    next := Fetch(list);
  }

  /** On no list. */
  predicate Loose(e: Elem)
    reads e
  {
    e.parent == null && e.prev == null && e.next == null
  }

  predicate AllLoose(es: seq<Elem>)
    reads es
  {
    forall e :: e in es ==> Loose(e)
  }

  lemma NotBehind(all: seq<Elem>, i: nat)
    requires NoDup(all) && i < |all|
    ensures forall e :: e in all[..i] + [all[i]] ==> e !in all[i + 1..]
    ensures all[..i + 1] == all[..i] + [all[i]]
  {
  }

  /** One turn of the loop in `list_cleanup`: hand `elm` on, and fetch the next. */
  method HandOn(list: List, dst: List, elm: Elem, ghost frame: set<object>) returns (next: Elem?)
    requires list.Valid() && dst.Valid() && list != dst && Apart(list.elems, dst.elems)
    requires elm !in list.elems && elm !in dst.elems
    requires list.Footprint() <= frame && dst.Footprint() <= frame && elm in frame
    modifies frame
    ensures list.Valid() && dst.Valid() && dst.elems == old(dst.elems) + [elm]
    ensures next == Nth(old(list.elems), 0)
    ensures list.elems == if next == null then [] else old(list.elems)[1..]
    ensures list.Footprint() <= frame && dst.Footprint() <= frame && (next != null ==> next in frame)
  {
    Append(dst, elm);
    assert list.Valid();
    next := Fetch(list);
  }

  /**
    `list_cleanup` with a callback that appends to another list, as
    `ads131m08_data_return` does: it ends, and everything is handed on in order.
  */
  method DrainTo(list: List, dst: List)
    requires list.Valid() && dst.Valid() && list != dst && Apart(list.elems, dst.elems)
    modifies list.Footprint(), dst.Footprint()
    ensures list.Valid() && list.elems == []
    ensures dst.Valid() && dst.elems == old(dst.elems) + old(list.elems)
  {
    ghost var all, was, frame := list.elems, dst.elems, list.Footprint() + dst.Footprint();
    var elm := Fetch(list);
    ghost var i := 0;
    while elm != null
      invariant 0 <= i <= |all|
      invariant list.Valid() && dst.Valid()
      invariant list.Footprint() <= frame && dst.Footprint() <= frame && (elm != null ==> elm in frame)
      invariant elm == Nth(all, i)
      invariant dst.elems == was + all[..i]
      invariant list.elems == if elm == null then [] else all[i + 1..]
      decreases |all| - i
    {
      StillApart(all, was, i);
      elm := HandOn(list, dst, elm, frame);
      i := i + 1;
    }
  }

  lemma StillApart(all: seq<Elem>, was: seq<Elem>, i: nat)
    requires NoDup(all) && Apart(all, was) && i < |all|
    ensures Apart(all[i + 1..], was + all[..i])
    ensures all[i] !in all[i + 1..] && all[i] !in was + all[..i]
    ensures was + all[..i + 1] == was + all[..i] + [all[i]]
  {
  }

  /**
    Moving the first element of one list to the end of another, or draining it there, leaves
    every disjoint list alone.
  */
  method MoveBeside(list: List, dst: List, other: List, all: bool)
    requires list.Valid() && dst.Valid() && list != dst && Apart(list.elems, dst.elems)
    requires other.Valid() && other.Footprint() !! list.Footprint() + dst.Footprint()
    modifies list.Footprint(), dst.Footprint()
    ensures list.Valid() && dst.Valid() && dst.elems + list.elems == old(dst.elems) + old(list.elems)
    ensures all ==> list.elems == []
    ensures !all && old(list.elems) != [] ==> list.elems == old(list.elems)[1..]
    ensures other.Valid() && other.elems == old(other.elems)
  {
    if all {
      DrainTo(list, dst);
    } else {
      var elm := Fetch(list);
      Append(dst, elm);
    }
  }

  /** `list_iter_do`: `action` sees every element in order; the list is emptied, but the elements keep their links. */
  method IterDo(list: List?) returns (seen: seq<Elem>)
    requires list != null ==> list.Valid()
    modifies list
    ensures list == null ==> seen == []
    ensures list != null ==> list.Valid() && list.elems == [] && seen == old(list.elems)
    ensures list != null ==> forall i :: 0 <= i < |seen| ==> seen[i].parent == list && seen[i].next == Nth(seen, i + 1)
  {
    seen := [];
    if list == null {
      return;
    }
    var elm := list.head;
    ghost var i := 0;
    while elm != null
      invariant 0 <= i <= |list.elems|
      invariant elm == if i < |list.elems| then list.elems[i] else null
      invariant seen == list.elems[..i]
      invariant list.Valid() && list.elems == old(list.elems)
      decreases |list.elems| - i
    {
      assert list.Linked(i);
      var next := elm.next;
      seen := seen + [elm];
      elm := next;
      i := i + 1;
    }
    forall j: nat | j < |seen|
      ensures seen[j].parent == list && seen[j].next == Nth(seen, j + 1)
    {
      assert list.Linked(j);
    }
    list.head := null;
    list.tail := null;
    list.count := 0;
    list.elems := [];
  }
}

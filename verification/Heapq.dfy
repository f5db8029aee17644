/**
 Heap entries, and the binary heap that orders them.

 The heap is the library's array heap on a sequence: the smallest key is at index 0.
 */
module Heapq {

  /** An entry is shared by the heap and the id map; only its `cancelled` flag ever changes. */
  class Event<T> {
    const time: int
    const prio: int
    const id: nat
    const tag: T
    var cancelled: bool

    constructor (time: int, prio: int, id: nat, tag: T)
      ensures this.time == time && this.prio == prio && this.id == id && this.tag == tag && !cancelled
    {
      this.time, this.prio, this.id, this.tag := time, prio, id, tag;
      cancelled := false;
    }
  }

  /** The key is (time, priority, id); the flag is no part of it. */
  predicate Less<T>(a: Event<T>, b: Event<T>) {
    a.time < b.time || (a.time == b.time && (a.prio < b.prio || (a.prio == b.prio && a.id < b.id)))
  }

  predicate Leq<T>(a: Event<T>, b: Event<T>) {
    !Less(b, a)
  }

  function Parent(i: int): int {
    (i - 1) / 2
  }

  ghost predicate HeapOrdered<T>(h: seq<Event<T>>) {
    forall i {:trigger Parent(i)} :: 1 <= i < |h| ==> Leq(h[Parent(i)], h[i])
  }

  lemma {:induction false} RootIsLeast<T>(h: seq<Event<T>>, i: nat)
    requires HeapOrdered(h) && i < |h|
    ensures Leq(h[0], h[i])
  {
    if i > 0 {
      RootIsLeast(h, Parent(i));
    }
  }

  lemma SwapKeeps<T>(h: seq<T>, i: nat, j: nat)
    requires i < |h| && j < |h|
    ensures multiset(h[i := h[j]][j := h[i]]) == multiset(h)
  {
  }

  /** Heap order, except that `pos` may be smaller than its parent. */
  ghost predicate Rising<T>(h: seq<Event<T>>, pos: int) {
    && 0 <= pos < |h|
    && (forall i :: 1 <= i < |h| && i != pos ==> Leq(h[Parent(i)], h[i]))
    && (forall i :: 1 <= i < |h| && Parent(i) == pos && 1 <= pos ==> Leq(h[Parent(pos)], h[i]))
  }

  /** Heap order, except that `pos` may be larger than its children. */
  ghost predicate Sinking<T>(h: seq<Event<T>>, pos: int) {
    && 0 <= pos
    && (forall i :: 1 <= i < |h| && Parent(i) != pos ==> Leq(h[Parent(i)], h[i]))
    && (forall i :: 1 <= i < |h| && Parent(i) == pos && 1 <= pos ==> Leq(h[Parent(pos)], h[i]))
  }

  lemma RiseStep<T>(h: seq<Event<T>>, pos: int, r: seq<Event<T>>)
    requires Rising(h, pos) && 1 <= pos && Less(h[pos], h[Parent(pos)])
    requires r == h[pos := h[Parent(pos)]][Parent(pos) := h[pos]]
    ensures Rising(r, Parent(pos))
  {
    var parent := Parent(pos);
    forall i | 1 <= i < |r| && i != parent
      ensures Leq(r[Parent(i)], r[i])
    {
      assert i != pos ==> Leq(h[Parent(i)], h[i]);
      assert Parent(i) == pos ==> Leq(h[parent], h[i]);
    }
    forall i | 1 <= i < |r| && Parent(i) == parent && 1 <= parent
      ensures Leq(r[Parent(parent)], r[i])
    {
      assert Leq(h[Parent(parent)], h[parent]);
      assert i != pos ==> Leq(h[Parent(i)], h[i]);
    }
  }

  lemma SinkStep<T>(h: seq<Event<T>>, pos: int, child: int, r: seq<Event<T>>)
    requires Sinking(h, pos) && 1 <= child < |h| && Parent(child) == pos && Less(h[child], h[pos])
    requires forall i :: 1 <= i < |h| && Parent(i) == pos ==> Leq(h[child], h[i])
    requires r == h[pos := h[child]][child := h[pos]]
    ensures Sinking(r, child)
  {
    forall i | 1 <= i < |r| && Parent(i) != child
      ensures Leq(r[Parent(i)], r[i])
    {
      assert Parent(i) != pos ==> Leq(h[Parent(i)], h[i]);
    }
    forall i | 1 <= i < |r| && Parent(i) == child
      ensures Leq(r[Parent(child)], r[i])
    {
      assert Leq(h[Parent(i)], h[i]);
    }
  }

  method Push<T>(h: seq<Event<T>>, e: Event<T>) returns (r: seq<Event<T>>)
    requires HeapOrdered(h)
    ensures HeapOrdered(r) && multiset(r) == multiset(h) + multiset{e}
  {
    r := h + [e];
    var pos := |h|;
    while pos > 0
      invariant |r| == |h| + 1 && Rising(r, pos) && r[pos] == e
      invariant multiset(r) == multiset(h) + multiset{e}
    {
      var parent := Parent(pos);
      if !Less(e, r[parent]) {
        break;
      }
      ghost var r0 := r;
      SwapKeeps(r, pos, parent);
      r := r[pos := r[parent]][parent := e];
      RiseStep(r0, pos, r);
      pos := parent;
    }
  }

  lemma Sunk<T>(h: seq<Event<T>>, pos: int)
    requires Sinking(h, pos)
    requires forall i :: 1 <= i < |h| && Parent(i) == pos ==> Leq(h[pos], h[i])
    ensures HeapOrdered(h)
  {
  }

  /** The smaller of two children. */
  method LesserChild<T>(h: seq<Event<T>>, pos: int) returns (child: int)
    requires 0 <= pos && 2 * pos + 1 < |h|
    ensures pos < child < |h| && Parent(child) == pos
    ensures forall i :: 1 <= i < |h| && Parent(i) == pos ==> Leq(h[child], h[i])
  {
    child := 2 * pos + 1;
    if child + 1 < |h| && !Less(h[child], h[child + 1]) {
      child := child + 1;
    }
    assert forall i :: Parent(i) == pos ==> i == 2 * pos + 1 || i == 2 * pos + 2;
  }

  /** Sinks the root, which alone may be out of place. */
  method SiftDown<T>(h: seq<Event<T>>) returns (r: seq<Event<T>>)
    requires Sinking(h, 0)
    ensures HeapOrdered(r) && multiset(r) == multiset(h)
  {
    r := h;
    var pos := 0;
    while 2 * pos + 1 < |r|
      invariant |r| == |h| && Sinking(r, pos)
      invariant multiset(r) == multiset(h)
      decreases |r| - pos
    {
      var child := LesserChild(r, pos);
      if Leq(r[pos], r[child]) {
        Sunk(r, pos);
        return;
      }
      ghost var r0 := r;
      SwapKeeps(r, pos, child);
      r := r[pos := r[child]][child := r[pos]];
      SinkStep(r0, pos, child, r);
      pos := child;
    }
    Sunk(r, pos);
  }

  method Pop<T>(h: seq<Event<T>>) returns (e: Event<T>, r: seq<Event<T>>)
    requires HeapOrdered(h) && h != []
    ensures e == h[0] && HeapOrdered(r) && multiset(r) == multiset(h) - multiset{e}
  {
    e := h[0];
    var last := h[|h| - 1];
    r := h[..|h| - 1];
    assert h == r + [last];
    if r != [] {
      var s := r[0 := last];
      assert r == [e] + r[1..] && s == [last] + r[1..];
      r := SiftDown(s);
    }
  }
}

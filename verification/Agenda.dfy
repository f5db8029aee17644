/**
 The meaning of the simulator's future-event heap: the live events in firing order.

 An entry that is added goes behind every entry with the same time and priority, which is what a
 growing sequence number achieves in the heap.  No sequence number occurs here, so two runs that
 consume different amounts of sequence numbers can still have equal agendas.
 */
module Agenda {

  datatype Entry<+X> = Entry(time: int, prio: int, what: X)

  /** `a` fires before `b` when both are live and `a` was scheduled first. */
  predicate NotAfter<X, Y>(a: Entry<X>, b: Entry<Y>) {
    a.time < b.time || (a.time == b.time && a.prio <= b.prio)
  }

  /** `x` fires before everything in `q`; enough to look at the head when `q` is sorted. */
  ghost predicate Leads<X, Y>(x: Entry<X>, q: seq<Entry<Y>>) {
    q == [] || NotAfter(x, q[0])
  }

  ghost predicate Sorted<X>(q: seq<Entry<X>>) {
    q == [] || (Leads(q[0], q[1..]) && Sorted(q[1..]))
  }

  /** Nothing in a sorted `q` lies before `t`. */
  ghost predicate From<X>(q: seq<Entry<X>>, t: int) {
    q == [] || t <= q[0].time
  }

  /** What `Sorted` means for any two entries: the head is the least. */
  lemma {:induction false} SortedPairs<X>(q: seq<Entry<X>>, i: nat, j: nat)
    requires Sorted(q) && i < j < |q|
    ensures NotAfter(q[i], q[j])
  {
    if i > 0 {
      SortedPairs(q[1..], i - 1, j - 1);
    } else if j > 1 {
      SortedPairs(q[1..], 0, j - 1);
    }
  }

  lemma FromAll<X>(q: seq<Entry<X>>, t: int)
    requires Sorted(q) && From(q, t)
    ensures forall i :: 0 <= i < |q| ==> t <= q[i].time
  {
    forall i | 0 <= i < |q|
      ensures t <= q[i].time
    {
      if i > 0 {
        SortedPairs(q, 0, i);
      }
    }
  }

  /** Schedule `e`: it goes behind everything that fires before a newcomer of its time and priority. */
  function Insert<X>(q: seq<Entry<X>>, e: Entry<X>): seq<Entry<X>> {
    if q == [] || !NotAfter(q[0], e) then [e] + q else [q[0]] + Insert(q[1..], e)
  }

  /** Where a new entry lands. */
  lemma {:induction false} InsertPlace<X>(q: seq<Entry<X>>, e: Entry<X>) returns (k: nat)
    ensures k <= |q| && Insert(q, e) == q[..k] + [e] + q[k..]
    ensures forall i :: 0 <= i < k ==> NotAfter(q[i], e)
    ensures k < |q| ==> !NotAfter(q[k], e)
  {
    if q == [] || !NotAfter(q[0], e) {
      k := 0;
    } else {
      k := InsertPlace(q[1..], e);
      k := k + 1;
    }
  }

  /** A zero-delay event runs after an event already queued at the current time exactly when that event's
      priority value is not above its own. */
  lemma DeltaPlace<X>(q: seq<Entry<X>>, now: int, prio: int, x: X) returns (k: nat)
    requires Sorted(q) && From(q, now)
    ensures k <= |q| && Insert(q, Entry(now, prio, x)) == q[..k] + [Entry(now, prio, x)] + q[k..]
    ensures forall i :: 0 <= i < |q| && q[i].time == now ==> (i < k <==> q[i].prio <= prio)
  {
    k := InsertPlace(q, Entry(now, prio, x));
    FromAll(q, now);
    forall i | k <= i < |q| && q[i].time == now
      ensures q[i].prio > prio
    {
      if i > k {
        SortedPairs(q, k, i);
      }
    }
  }

  /** It may even run first. */
  lemma DeltaMayRunFirst<X>(now: int, x: X, y: X)
    ensures Insert([Entry(now, 1, x)], Entry(now, 0, y)) == [Entry(now, 0, y), Entry(now, 1, x)]
  {
  }

  /** Scheduling keeps the agenda in firing order. */
  lemma {:induction false} InsertSorted<X>(q: seq<Entry<X>>, e: Entry<X>)
    requires Sorted(q)
    ensures Sorted(Insert(q, e))
    ensures forall x: Entry<X> :: Leads(x, q) && NotAfter(x, e) ==> Leads(x, Insert(q, e))
  {
    if q == [] || !NotAfter(q[0], e) {
      assert ([e] + q)[1..] == q;
    } else {
      InsertSorted(q[1..], e);
      assert Insert(q, e)[1..] == Insert(q[1..], e);
    }
  }

  lemma InsertFrom<X>(q: seq<Entry<X>>, e: Entry<X>, t: int)
    requires From(q, t) && t <= e.time
    ensures From(Insert(q, e), t)
  {
  }

  /** The entries of an agenda, counted. */
  ghost function Whats<X>(q: seq<Entry<X>>): multiset<X>
  {
    if q == [] then multiset{} else multiset{q[0].what} + Whats(q[1..])
  }

  /** Scheduling adds exactly one entry, whatever its place. */
  lemma {:induction false} WhatsInsert<X>(q: seq<Entry<X>>, e: Entry<X>)
    ensures Whats(Insert(q, e)) == Whats(q) + multiset{e.what}
  {
    if q != [] && NotAfter(q[0], e) {
      WhatsInsert(q[1..], e);
      assert Insert(q, e)[1..] == Insert(q[1..], e);
    } else {
      assert ([e] + q)[1..] == q;
    }
  }

  // -- Cancelling ----------------------------------------------------------------

  /** The agenda without the entries that `dead` picks out. */
  function Drop<X>(q: seq<Entry<X>>, dead: X -> bool): seq<Entry<X>> {
    if q == [] then []
    else if dead(q[0].what) then Drop(q[1..], dead)
    else [q[0]] + Drop(q[1..], dead)
  }

  lemma {:induction false} DropSorted<X>(q: seq<Entry<X>>, dead: X -> bool)
    requires Sorted(q)
    ensures Sorted(Drop(q, dead)) && |Drop(q, dead)| <= |q|
    ensures forall x: Entry<X> :: Leads(x, q) ==> Leads(x, Drop(q, dead))
    ensures forall t :: From(q, t) ==> From(Drop(q, dead), t)
  {
    if q != [] {
      DropSorted(q[1..], dead);
      if !dead(q[0].what) {
        assert Drop(q, dead)[1..] == Drop(q[1..], dead);
      }
    }
  }

  lemma {:induction false} DropWhats<X>(q: seq<Entry<X>>, dead: X -> bool)
    ensures forall x :: Whats(Drop(q, dead))[x] == if dead(x) then 0 else Whats(q)[x]
  {
    if q != [] {
      DropWhats(q[1..], dead);
      if !dead(q[0].what) {
        assert Drop(q, dead)[1..] == Drop(q[1..], dead);
      }
    }
  }

  /** Cancelling removes something exactly when something was there to remove. */
  lemma {:induction false} DropShrinks<X>(q: seq<Entry<X>>, dead: X -> bool)
    ensures |Drop(q, dead)| <= |q|
    ensures |Drop(q, dead)| < |q| <==> exists i :: 0 <= i < |q| && dead(q[i].what)
    ensures |Drop(q, dead)| == |q| ==> Drop(q, dead) == q
  {
    if q != [] {
      DropShrinks(q[1..], dead);
      assert forall i :: 1 <= i < |q| ==> q[i] == q[1..][i - 1];
      if !dead(q[0].what) && exists i :: 0 <= i < |q| && dead(q[i].what) {
        var i :| 0 <= i < |q| && dead(q[i].what);
        assert dead(q[1..][i - 1].what);
      }
    }
  }

  lemma {:induction false} WhatsMember<X>(q: seq<Entry<X>>, i: nat)
    requires i < |q|
    ensures q[i].what in Whats(q)
  {
    if i > 0 {
      WhatsMember(q[1..], i - 1);
    }
  }

  lemma {:induction false} InsertMembers<X>(q: seq<Entry<X>>, e: Entry<X>)
    ensures forall x :: x in Insert(q, e) <==> x in q || x == e
  {
    var k := InsertPlace(q, e);
    assert q == q[..k] + q[k..];
  }

  lemma {:induction false} DropMembers<X>(q: seq<Entry<X>>, dead: X -> bool)
    ensures forall x :: x in Drop(q, dead) <==> x in q && !dead(x.what)
  {
    if q != [] {
      DropMembers(q[1..], dead);
    }
  }
}

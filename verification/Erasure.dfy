/**
 Forgetting event ids: from the kernel's list of live events to the agenda of the device model.
 */
module Erasure {
  import opened Agenda
  import opened Kernel

  function Erased<T>(q: Queue<T>): (r: seq<Entry<T>>)
    ensures |r| == |q|
  {
    if q == [] then [] else [Entry(q[0].time, q[0].prio, q[0].what.tag)] + Erased(q[1..])
  }

  lemma ErasedTail<T>(q: Queue<T>)
    requires q != []
    ensures Erased(q)[0] == Entry(q[0].time, q[0].prio, q[0].what.tag) && Erased(q)[1..] == Erased(q[1..])
  {
  }

  lemma {:induction false} ErasedInsert<T>(q: Queue<T>, time: int, prio: int, id: nat, tag: T)
    ensures Erased(Insert(q, Entry(time, prio, Stamp(id, tag)))) == Insert(Erased(q), Entry(time, prio, tag))
  {
    var e := Entry(time, prio, Stamp(id, tag));
    if q == [] || !NotAfter(q[0], e) {
      assert ([e] + q)[1..] == q;
    } else {
      ErasedInsert(q[1..], time, prio, id, tag);
      ErasedTail(q);
      assert Insert(q, e)[1..] == Insert(q[1..], e);
    }
  }

  /** Cancelling by id is dropping by content when the two pick the same entries. */
  lemma {:induction false} ErasedDrop<T>(q: Queue<T>, byId: Stamp<T> -> bool, dead: T -> bool)
    requires forall e :: e in q ==> (byId(e.what) <==> dead(e.what.tag))
    ensures Erased(Drop(q, byId)) == Drop(Erased(q), dead)
  {
    if q != [] {
      assert q[0] in q;
      ErasedDrop(q[1..], byId, dead);
      ErasedTail(q);
      if !byId(q[0].what) {
        assert Drop(q, byId)[1..] == Drop(q[1..], byId);
      }
    }
  }
}

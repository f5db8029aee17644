/**
 The discrete-event kernel, as the object it is: a heap, an id map, counters and a horizon.

 Its abstract state is `queue`, the sorted list of live events.  A callback is whatever its caller
 does between `Begin`, which takes the event, and `Finish`, which counts it.
 */
module Simulator {
  import opened Prelude
  import opened Agenda
  import opened Heapq
  import opened Kernel

  /** Push on the heap of a sound state: the state that the fields must become. */
  method PushHeap<T>(
    heap: seq<Event<T>>, e: Event<T>, ghost s: State<T>) returns (heap': seq<Event<T>>, ghost r: State<T>)
    requires Sound(s) && s.heap == heap && e.id == s.nextId && !e.cancelled && s.now <= e.time
    ensures r == s.(heap := heap', byId := s.byId[s.nextId := e], nextId := s.nextId + 1, live := s.live + 1,
                    order := r.order, queue := Insert(s.queue, EntryOf(e)), events := s.events + {e})
    ensures Sound(r)
  {
    HeapIsOrdered(s);
    heap' := Heapq.Push(heap, e);
    r := Pushed(s, e, heap');
  }

  method PopHeap<T>(
    heap: seq<Event<T>>, ghost s: State<T>) returns (top: Event<T>, heap': seq<Event<T>>, ghost r: State<T>)
    requires Sound(s) && s.heap == heap && heap != []
    ensures top == heap[0] && |r.order| < |s.order| && r.events <= s.events
    ensures !top.cancelled ==> s.queue != [] && s.queue[0] == EntryOf(top)
    ensures var b := s.(heap := heap', byId := s.byId - {top.id}, order := r.order, events := r.events);
            r == if top.cancelled then b
              else b.(now := top.time, live := s.live - 1, queue := s.queue[1..], gone := s.gone + 1)
    ensures Sound(r)
  {
    HeapIsOrdered(s);
    top, heap' := Heapq.Pop(heap);
    Popped(s, heap');
    r := if top.cancelled then Buried(s, heap') else Taken(s, heap');
  }

  class Simulator<T> {
    var heap: seq<Event<T>>
    var byId: map<nat, Event<T>>
    var nextId: nat
    var now: int
    var processed: nat
    var live: int
    var runUntil: Option<int>

    /** The heap's entries in key order, the ids of the cancelled ones, and the objects. */
    ghost var order: seq<Event<T>>
    ghost var dead: set<nat>
    ghost var events: set<Event<T>>
    /** The live events in firing order: what the object stands for. */
    ghost var queue: Queue<T>
    /** How many events were cancelled in time, and how many were taken to fire. */
    ghost var cancelled: nat
    ghost var fired: nat

    ghost function Whole(): State<T>
      reads this
    {
      State(heap, byId, nextId, now, live, order, dead, queue, events, cancelled + fired)
    }

    ghost predicate Valid()
      reads this, order
    {
      Sound(Whole())
    }

    constructor ()
      ensures Valid() && queue == [] && now == 0 && runUntil == None && processed == 0
      ensures nextId == 0 && cancelled == 0 && fired == 0 && heap == [] && events == {}
    {
      heap, byId, nextId, now, processed, live, runUntil := [], map[], 0, 0, 0, 0, None;
      order, dead, cancelled, fired, events, queue := [], {}, 0, 0, {}, [];
    }

    method Schedule(delay: int, tag: T, prio: int) returns (r: Result<nat>)
      requires Valid()
      modifies this
      ensures Valid() && unchanged(`now, `processed, `runUntil, `cancelled, `fired) && fresh(events - old(events))
      ensures r.Raised? <==> delay < 0
      ensures r.Raised? ==> unchanged(this)
      ensures r.Ok? ==> r.value == old(nextId) && nextId == r.value + 1
      ensures r.Ok? ==> queue == Insert(old(queue), Entry(now + delay, prio, Stamp(r.value, tag)))
    {
      if delay < 0 {
        return Raised;
      }
      var id := PushEvent(now + delay, tag, prio);
      r := Ok(id);
    }

    method At(time: int, tag: T, prio: int) returns (r: Result<nat>)
      requires Valid()
      modifies this
      ensures Valid() && unchanged(`now, `processed, `runUntil, `cancelled, `fired) && fresh(events - old(events))
      ensures r.Raised? <==> time < now
      ensures r.Raised? ==> unchanged(this)
      ensures r.Ok? ==> r.value == old(nextId) && nextId == r.value + 1
      ensures r.Ok? ==> queue == Insert(old(queue), Entry(time, prio, Stamp(r.value, tag)))
    {
      if time < now {
        return Raised;
      }
      var id := PushEvent(time, tag, prio);
      r := Ok(id);
    }

    method PushEvent(time: int, tag: T, prio: int) returns (id: nat)
      requires Valid() && now <= time
      modifies this
      ensures Valid() && unchanged(`now, `processed, `runUntil, `cancelled, `fired)
      ensures fresh(events - old(events))
      ensures id == old(nextId) && nextId == id + 1
      ensures queue == Insert(old(queue), Entry(time, prio, Stamp(id, tag)))
    {
      id := nextId;
      var e := new Event(time, prio, id, tag);
      var heap';
      ghost var r;
      heap', r := PushHeap(heap, e, Whole());
      nextId := nextId + 1;
      heap := heap';
      live := live + 1;
      byId := byId[id := e];
      order, queue, events := r.order, r.queue, r.events;
      assert Whole() == r;
    }

    method Cancel(id: nat) returns (ok: bool)
      requires Valid()
      modifies this, events
      ensures Valid() && events == old(events) && unchanged(`now, `processed, `runUntil, `nextId, `fired)
      ensures ok <==> id in LiveIds(old(queue))
      ensures queue == Drop(old(queue), (s: Stamp<T>) => s.id == id)
      ensures cancelled == old(cancelled) + (if ok then 1 else 0)
    {
      LookUp(Whole(), id);
      if id in byId && !byId[id].cancelled {
        Mark(id);
        return true;
      }
      return false;
    }

    /** The live event `id` stays in the heap, marked. */
    method Mark(id: nat)
      requires Valid() && id in byId && byId[id] in events && !byId[id].cancelled
      modifies this, byId[id]
      ensures Valid() && unchanged(`events, `now, `processed, `runUntil, `nextId, `fired)
      ensures queue == Drop(old(queue), (s: Stamp<T>) => s.id == id) && cancelled == old(cancelled) + 1
    {
      ghost var s := Whole();
      Unmarked(s, id);
      byId[id].cancelled := true;
      Marked(s, id);
      live := live - 1;
      dead := dead + {id};
      cancelled := cancelled + 1;
      queue := Drop(queue, (s: Stamp<T>) => s.id == id);
    }

    /** Drops one cancelled entry. */
    method PopDead()
      requires Valid() && heap != [] && heap[0].cancelled
      modifies this
      ensures Valid() && queue == old(queue) && events <= old(events) && |order| < old(|order|)
      ensures unchanged(`now, `processed, `runUntil, `nextId, `live, `cancelled, `fired)
    {
      var top, heap';
      ghost var r;
      top, heap', r := PopHeap(heap, Whole());
      heap := heap';
      byId := byId - {top.id};
      order, events := r.order, r.events;
      assert Whole() == r;
    }

    /** Drops cancelled entries from the top of the heap and shows the next live event. */
    method Peek() returns (e: Event?<T>)
      requires Valid()
      modifies this
      ensures Valid() && queue == old(queue) && events <= old(events)
      ensures unchanged(`now, `processed, `runUntil, `nextId, `live, `cancelled, `fired)
      ensures e == null <==> queue == []
      ensures e == null <==> heap == []
      ensures e != null ==> e == heap[0] && !e.cancelled && e in events && queue[0] == EntryOf(e)
    {
      while heap != [] && heap[0].cancelled
        invariant Valid() && queue == old(queue) && events <= old(events)
        invariant unchanged(`now, `processed, `runUntil, `nextId, `live, `cancelled, `fired)
        decreases |order|
      {
        PopDead();
      }
      HeapTop(Whole());
      e := if heap == [] then null else heap[0];
    }

    method NextTime() returns (t: Option<int>)
      requires Valid()
      modifies this
      ensures Valid() && queue == old(queue) && events <= old(events)
      ensures unchanged(`now, `processed, `runUntil, `nextId, `live)
      ensures t == if queue == [] then None else Some(queue[0].time)
    {
      var e := Peek();
      t := if e == null then None else Some(e.time);
    }

    /** Jumps to `time` without firing anything; the three illegal jumps are refused. */
    method AdvanceTo(time: int) returns (ok: bool)
      requires Valid()
      modifies this
      ensures Valid() && queue == old(queue) && events <= old(events)
      ensures unchanged(`processed, `runUntil, `nextId, `live, `cancelled, `fired)
      ensures ok <==> CanAdvance(old(queue), old(now), runUntil, time)
      ensures now == if ok then time else old(now)
    {
      if time < now {
        return false;
      }
      var e := Peek();
      if e != null && e.time < time {
        return false;
      }
      if runUntil.Some? && runUntil.value < time {
        return false;
      }
      Moved(Whole(), time);
      now := time;
      ok := true;
    }

    /** Takes the peeked event off the heap; its callback runs next, at its time. */
    method Begin() returns (tag: T)
      requires Valid() && heap != [] && !heap[0].cancelled
      modifies this
      ensures Valid() && old(queue) != [] && queue == old(queue)[1..] && events <= old(events)
      ensures now == old(queue)[0].time && tag == old(queue)[0].what.tag
      ensures unchanged(`processed, `runUntil, `nextId, `cancelled)
      ensures fired == old(fired) + 1
    {
      var e, heap';
      ghost var r;
      e, heap', r := PopHeap(heap, Whole());
      heap := heap';
      order, queue, events := r.order, r.queue, r.events;
      live := live - 1;
      now := e.time;
      byId := byId - {e.id};
      fired := fired + 1;
      assert Whole() == r;
      tag := e.tag;
    }

    /** The callback returned without an exception. */
    method Finish()
      requires Valid()
      modifies this`processed
      ensures Valid() && processed == old(processed) + 1
    {
      processed := processed + 1;
    }

    /** `run` sets the horizon, and puts the previous one back on every exit. */
    method SetHorizon(until: Option<int>) returns (previous: Option<int>)
      requires Valid()
      modifies this`runUntil
      ensures Valid() && runUntil == until && previous == old(runUntil)
    {
      previous := runUntil;
      runUntil := until;
    }
  }
}

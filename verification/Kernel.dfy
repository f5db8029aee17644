/**
 What a heap of lazily cancelled events stands for: a sorted list of the live ones.
 */
module Kernel {
  import opened Prelude
  import opened Agenda
  import opened Heapq

  /** A live event with the id its scheduler got. */
  datatype Stamp<+T> = Stamp(id: nat, tag: T)

  type Queue<+T> = seq<Entry<Stamp<T>>>

  function EntryOf<T>(e: Event<T>): Entry<Stamp<T>> {
    Entry(e.time, e.prio, Stamp(e.id, e.tag))
  }

  /** All heap entries in key order; `dead` holds the ids of the cancelled ones. */
  function Live<T>(order: seq<Event<T>>, dead: set<nat>): Queue<T> {
    if order == [] then []
    else if order[0].id in dead then Live(order[1..], dead)
    else [EntryOf(order[0])] + Live(order[1..], dead)
  }

  function Ids<T>(order: seq<Event<T>>): set<nat> {
    if order == [] then {} else {order[0].id} + Ids(order[1..])
  }

  /** The ids of a queue. */
  function LiveIds<T>(q: Queue<T>): set<nat> {
    if q == [] then {} else {q[0].what.id} + LiveIds(q[1..])
  }

  ghost predicate KeySorted<T>(order: seq<Event<T>>) {
    order == [] ||
    ((order[1..] == [] || Less(order[0], order[1..][0])) && order[0].id !in Ids(order[1..]) && KeySorted(order[1..]))
  }

  /** Where a new entry, with an id above all others, goes in key order. */
  function Place<T>(order: seq<Event<T>>, e: Event<T>): seq<Event<T>> {
    if order == [] || Less(e, order[0]) then [e] + order else [order[0]] + Place(order[1..], e)
  }

  // -- Facts about key order ---------------------------------------------------------

  lemma {:induction false} HeadIsLess<T>(order: seq<Event<T>>, i: nat)
    requires KeySorted(order) && 1 <= i < |order|
    ensures Less(order[0], order[i])
  {
    if i > 1 {
      HeadIsLess(order[1..], i - 1);
    }
  }

  /** The live part of a sorted heap begins no earlier than the heap. */
  lemma {:induction false} LiveBegins<T>(order: seq<Event<T>>, dead: set<nat>)
    requires KeySorted(order) && Live(order, dead) != []
    ensures var h := Live(order, dead)[0];
            order[0].time < h.time || (order[0].time == h.time && order[0].prio <= h.prio)
  {
    if order[0].id in dead {
      LiveBegins(order[1..], dead);
    }
  }

  /** Pushing on the heap is scheduling on the list. */
  lemma {:induction false} PlaceIsInsert<T>(order: seq<Event<T>>, dead: set<nat>, e: Event<T>)
    requires KeySorted(order) && e.id !in dead && forall id :: id in Ids(order) ==> id < e.id
    ensures Live(Place(order, e), dead) == Insert(Live(order, dead), EntryOf(e))
  {
    if order == [] || Less(e, order[0]) {
      assert ([e] + order)[1..] == order;
      if Live(order, dead) != [] {
        LiveBegins(order, dead);
      }
    } else {
      assert Ids(order[1..]) <= Ids(order);
      PlaceIsInsert(order[1..], dead, e);
      assert Place(order, e)[1..] == Place(order[1..], e);
      assert order[0].id in Ids(order);
      var rest := Live(order[1..], dead);
      if order[0].id !in dead {
        assert Live(order, dead)[1..] == rest;
      }
    }
  }

  lemma {:induction false} LiveIdsOf<T>(order: seq<Event<T>>, dead: set<nat>)
    ensures LiveIds(Live(order, dead)) == Ids(order) - dead
  {
    if order != [] {
      LiveIdsOf(order[1..], dead);
      if order[0].id !in dead {
        assert Live(order, dead)[1..] == Live(order[1..], dead);
      }
    }
  }

  lemma {:induction false} LiveIdsMember<T>(q: Queue<T>, e: Entry<Stamp<T>>)
    requires e in q
    ensures e.what.id in LiveIds(q)
  {
    if e != q[0] {
      LiveIdsMember(q[1..], e);
    }
  }

  /** Marking an entry dead is dropping it from the list, and it drops exactly one. */
  lemma {:induction false} MarkIsDrop<T>(order: seq<Event<T>>, dead: set<nat>, id: nat)
    requires KeySorted(order)
    ensures Live(order, dead + {id}) == Drop(Live(order, dead), (s: Stamp<T>) => s.id == id)
    ensures id in Ids(order) && id !in dead ==> |Live(order, dead)| == |Live(order, dead + {id})| + 1
    ensures id !in Ids(order) || id in dead ==> Live(order, dead + {id}) == Live(order, dead)
  {
    if order != [] {
      MarkIsDrop(order[1..], dead, id);
      if order[0].id !in dead {
        assert Live(order, dead)[1..] == Live(order[1..], dead);
      }
    }
  }

  /** A sorted heap gives a sorted list. */
  lemma {:induction false} LiveIsSorted<T>(order: seq<Event<T>>, dead: set<nat>)
    requires KeySorted(order)
    ensures Sorted(Live(order, dead))
  {
    if order != [] {
      LiveIsSorted(order[1..], dead);
      if order[0].id !in dead {
        assert Live(order, dead)[1..] == Live(order[1..], dead);
        if Live(order[1..], dead) != [] {
          LiveBegins(order[1..], dead);
        }
      }
    }
  }

  /** Index 0 of the heap is the first in key order. */
  lemma HeapHead<T>(heap: seq<Event<T>>, order: seq<Event<T>>)
    requires HeapOrdered(heap) && KeySorted(order) && multiset(heap) == multiset(order)
    ensures heap == [] <==> order == []
    ensures heap != [] ==> heap[0] == order[0] && multiset(heap) - multiset{heap[0]} == multiset(order[1..])
  {
    assert |heap| == |multiset(heap)| == |multiset(order)| == |order|;
    if order != [] {
      assert order[0] in multiset(heap);
      assert order[0] in heap;
      var i :| 0 <= i < |heap| && heap[i] == order[0];
      RootIsLeast(heap, i);
      assert heap[0] in multiset(order);
      assert heap[0] in order;
      var j :| 0 <= j < |order| && order[j] == heap[0];
      if j > 0 {
        HeadIsLess(order, j);
        assert false;
      }
      assert order == [order[0]] + order[1..];
    }
  }

  /** `_advance_to` is legal: not into the past, not over an event, not past the horizon. */
  predicate CanAdvance<T>(q: Queue<T>, now: int, until: Option<int>, time: int) {
    now <= time && (q == [] || time <= q[0].time) && (until.None? || time <= until.value)
  }

  // -- The representation ------------------------------------------------------------

  function MapOf<T>(order: seq<Event<T>>): map<nat, Event<T>> {
    if order == [] then map[] else MapOf(order[1..])[order[0].id := order[0]]
  }

  /** All ids are below `n`. */
  ghost predicate Below<T>(order: seq<Event<T>>, n: nat) {
    order == [] || (order[0].id < n && Below(order[1..], n))
  }

  /** The flag of every entry in the heap says whether its id is dead. */
  ghost predicate FlagsOk<T>(order: seq<Event<T>>, dead: set<nat>)
    reads order
  {
    order == [] || ((order[0].cancelled <==> order[0].id in dead) && FlagsOk(order[1..], dead))
  }

  ghost function Members<T>(order: seq<Event<T>>): set<Event<T>> {
    if order == [] then {} else {order[0]} + Members(order[1..])
  }

  lemma {:induction false} MembersAre<T>(order: seq<Event<T>>)
    ensures forall e :: e in Members(order) <==> e in order
  {
    if order != [] {
      MembersAre(order[1..]);
    }
  }

  /** The heap holds the entries of `order`, and the id map knows exactly them. */
  ghost predicate Shape<T>(heap: seq<Event<T>>, order: seq<Event<T>>, byId: map<nat, Event<T>>, nextId: nat) {
    && HeapOrdered(heap) && KeySorted(order) && multiset(heap) == multiset(order)
    && byId == MapOf(order) && Below(order, nextId)
  }

  lemma {:induction false} MapOfIds<T>(order: seq<Event<T>>, n: nat)
    requires Below(order, n)
    ensures MapOf(order).Keys == Ids(order)
    ensures forall id :: id in Ids(order) ==> id < n && MapOf(order)[id].id == id && MapOf(order)[id] in order
  {
    if order != [] {
      MapOfIds(order[1..], n);
    }
  }

  lemma {:induction false} PlaceSorted<T>(order: seq<Event<T>>, n: nat, e: Event<T>)
    requires KeySorted(order) && Below(order, n) && e.id == n
    ensures KeySorted(Place(order, e)) && Below(Place(order, e), n + 1)
    ensures n !in Ids(order) && Ids(Place(order, e)) == Ids(order) + {n}
    ensures Place(order, e) != [] && (Place(order, e)[0] == e || (order != [] && Place(order, e)[0] == order[0]))
  {
    BelowMore(order, n);
    if order == [] || Less(e, order[0]) {
      assert ([e] + order)[1..] == order;
    } else {
      PlaceSorted(order[1..], n, e);
      assert Place(order, e)[1..] == Place(order[1..], e);
    }
  }

  lemma {:induction false} PlaceMap<T>(order: seq<Event<T>>, n: nat, e: Event<T>)
    requires Below(order, n) && e.id == n
    ensures MapOf(Place(order, e)) == MapOf(order)[n := e]
  {
    if order == [] || Less(e, order[0]) {
      assert ([e] + order)[1..] == order;
    } else {
      PlaceMap(order[1..], n, e);
      assert Place(order, e)[1..] == Place(order[1..], e);
    }
  }

  lemma {:induction false} PlaceMembers<T>(order: seq<Event<T>>, e: Event<T>)
    ensures multiset(Place(order, e)) == multiset(order) + multiset{e}
  {
    if order != [] && !Less(e, order[0]) {
      PlaceMembers(order[1..], e);
      assert order == [order[0]] + order[1..];
    }
  }

  lemma {:induction false} PlaceSet<T>(order: seq<Event<T>>, e: Event<T>)
    ensures Members(Place(order, e)) == Members(order) + {e}
  {
    if order == [] || Less(e, order[0]) {
      assert ([e] + order)[1..] == order;
    } else {
      PlaceSet(order[1..], e);
      assert Place(order, e)[1..] == Place(order[1..], e);
    }
  }

  lemma {:induction false} BelowMore<T>(order: seq<Event<T>>, n: nat)
    requires Below(order, n)
    ensures Below(order, n + 1) && forall id :: id in Ids(order) ==> id < n
  {
    if order != [] {
      BelowMore(order[1..], n);
    }
  }

  lemma {:induction false} FlagsFrom<T>(order: seq<Event<T>>, dead: set<nat>)
    requires forall e :: e in order ==> (e.cancelled <==> e.id in dead)
    ensures FlagsOk(order, dead)
  {
    if order != [] {
      FlagsFrom(order[1..], dead);
    }
  }

  lemma {:induction false} FlagsTo<T>(order: seq<Event<T>>, dead: set<nat>)
    requires FlagsOk(order, dead)
    ensures forall e :: e in order ==> (e.cancelled <==> e.id in dead)
  {
    if order != [] {
      FlagsTo(order[1..], dead);
    }
  }

  /** In a sorted heap only one entry has a given id. */
  lemma {:induction false} OneOfEachId<T>(order: seq<Event<T>>, e: Event<T>)
    requires KeySorted(order) && e in order
    ensures e.id in MapOf(order) && MapOf(order)[e.id] == e
  {
    if e != order[0] {
      OneOfEachId(order[1..], e);
      MapKeys(order[1..]);
    }
  }

  lemma {:induction false} MapKeys<T>(order: seq<Event<T>>)
    ensures MapOf(order).Keys == Ids(order)
  {
    if order != [] {
      MapKeys(order[1..]);
    }
  }

  lemma PushShape<T>(
    heap: seq<Event<T>>, order: seq<Event<T>>, byId: map<nat, Event<T>>, nextId: nat, e: Event<T>, heap': seq<Event<T>>)
    requires Shape(heap, order, byId, nextId) && e.id == nextId
    requires HeapOrdered(heap') && multiset(heap') == multiset(heap) + multiset{e}
    ensures Shape(heap', Place(order, e), byId[nextId := e], nextId + 1)
  {
    PlaceSorted(order, nextId, e);
    PlaceMap(order, nextId, e);
    PlaceMembers(order, e);
  }

  lemma PushLive<T>(order: seq<Event<T>>, nextId: nat, dead: set<nat>, e: Event<T>)
    requires KeySorted(order) && Below(order, nextId) && e.id == nextId && e.id !in dead
    ensures Live(Place(order, e), dead) == Insert(Live(order, dead), EntryOf(e))
    ensures |Live(Place(order, e), dead)| == |Live(order, dead)| + 1
  {
    BelowMore(order, nextId);
    PlaceIsInsert(order, dead, e);
    var k := InsertPlace(Live(order, dead), EntryOf(e));
  }

  /** The head leaves the heap. */
  lemma PopShape<T>(
    heap: seq<Event<T>>, order: seq<Event<T>>, byId: map<nat, Event<T>>, nextId: nat, heap': seq<Event<T>>)
    requires Shape(heap, order, byId, nextId) && heap != []
    requires HeapOrdered(heap') && multiset(heap') == multiset(heap) - multiset{heap[0]}
    ensures order != [] && heap[0] == order[0]
    ensures Shape(heap', order[1..], byId - {heap[0].id}, nextId)
  {
    HeapHead(heap, order);
    MapKeys(order[1..]);
    assert order == [order[0]] + order[1..];
  }

  // -- The whole state, as a value ------------------------------------------------------

  /** The simulator's fields, and what they stand for: all entries in key order with the ids of the
      cancelled ones, the list of live events, the objects in the heap, the number of events gone. */
  datatype State<T> = State(
    heap: seq<Event<T>>,
    byId: map<nat, Event<T>>,
    nextId: nat,
    now: int,
    live: int,
    order: seq<Event<T>>,
    dead: set<nat>,
    queue: Queue<T>,
    events: set<Event<T>>,
    gone: int)

  /** `_live` counts the live entries, the id map has exactly the heap's ids, nothing lies in the past, and
      every event ever scheduled is live or gone. */
  ghost predicate Consistent<T>(s: State<T>)
    reads s.order
  {
    && Shape(s.heap, s.order, s.byId, s.nextId)
    && (forall id :: id in s.dead ==> id < s.nextId)
    && FlagsOk(s.order, s.dead)
    && s.queue == Live(s.order, s.dead) && s.live == |s.queue|
    && s.events == Members(s.order)
    && (s.order == [] || s.now <= s.order[0].time)
    && s.nextId == s.live + s.gone
  }

  /** Guarded: see `Inside`. */
  ghost predicate Sound<T>(s: State<T>)
    reads s.order
  {
    forall u :: Inside(Layer.Lists, u) ==> Consistent(s)
  }

  lemma HeapIsOrdered<T>(s: State<T>)
    requires Sound(s)
    ensures HeapOrdered(s.heap) && |s.queue| == s.live
  {
    assert Inside(Layer.Lists, true);
  }

  /** The list of live events is sorted, not in the past, and its ids are old ones. */
  lemma QueueFacts<T>(s: State<T>)
    requires Sound(s)
    ensures Sorted(s.queue) && From(s.queue, s.now)
    ensures forall e :: e in s.queue ==> e.what.id < s.nextId
  {
    assert Inside(Layer.Lists, true);
    LiveIsSorted(s.order, s.dead);
    LiveIdsOf(s.order, s.dead);
    MapOfIds(s.order, s.nextId);
    if s.queue != [] {
      LiveBegins(s.order, s.dead);
    }
    forall e | e in s.queue
      ensures e.what.id < s.nextId
    {
      LiveIdsMember(s.queue, e);
    }
  }

  ghost function LiveEvents<T>(events: set<Event<T>>): set<Event<T>>
    reads events
  {
    set e | e in events && !e.cancelled
  }

  lemma {:induction false} CountLive<T>(order: seq<Event<T>>, dead: set<nat>)
    requires KeySorted(order) && FlagsOk(order, dead)
    ensures |LiveEvents(Members(order))| == |Live(order, dead)|
  {
    if order != [] {
      CountLive(order[1..], dead);
      MembersAre(order[1..]);
      var e, rest := order[0], LiveEvents(Members(order[1..]));
      if e in order[1..] {
        MemberId(order[1..], e);
      }
      assert LiveEvents(Members(order)) == if e.cancelled then rest else rest + {e};
    }
  }

  lemma {:induction false} MemberId<T>(order: seq<Event<T>>, e: Event<T>)
    requires e in order
    ensures e.id in Ids(order)
  {
    if e != order[0] {
      MemberId(order[1..], e);
    }
  }

  lemma {:induction false} AllFrom<T>(order: seq<Event<T>>, now: int)
    requires KeySorted(order) && (order == [] || now <= order[0].time)
    ensures forall e :: e in order ==> now <= e.time
  {
    if order != [] {
      AllFrom(order[1..], now);
    }
  }

  /** What soundness says about the fields alone: `_live` counts the entries that are not cancelled, the id map
      knows exactly the heap's ids, no entry lies in the past, and scheduled = live + gone. */
  lemma SoundMeans<T>(s: State<T>)
    requires Sound(s)
    ensures (forall e :: e in s.events <==> e in s.heap) && s.live == |LiveEvents(s.events)|
    ensures forall id :: id in s.byId <==> exists e :: e in s.heap && e.id == id
    ensures forall e :: e in s.heap ==> s.now <= e.time && s.byId[e.id] == e
    ensures s.nextId == s.live + s.gone
  {
    assert Inside(Layer.Lists, true);
    CountLive(s.order, s.dead);
    MembersAre(s.order);
    AllFrom(s.order, s.now);
    MapOfIds(s.order, s.nextId);
    forall e
      ensures e in s.heap <==> e in s.order
    {
      assert e in multiset(s.heap) <==> e in multiset(s.order);
    }
    forall e | e in s.heap
      ensures e.id in s.byId && s.byId[e.id] == e
    {
      OneOfEachId(s.order, e);
    }
  }

  /** Everything a push changes. */
  lemma Pushed<T>(s: State<T>, e: Event<T>, heap': seq<Event<T>>) returns (r: State<T>)
    requires Sound(s) && e.id == s.nextId && !e.cancelled && s.now <= e.time
    requires HeapOrdered(heap') && multiset(heap') == multiset(s.heap) + multiset{e}
    ensures r == s.(heap := heap', byId := s.byId[s.nextId := e], nextId := s.nextId + 1, live := s.live + 1,
                    order := r.order, queue := Insert(s.queue, EntryOf(e)), events := s.events + {e})
    ensures Sound(r)
  {
    assert Inside(Layer.Lists, true);
    var order' := Place(s.order, e);
    PushShape(s.heap, s.order, s.byId, s.nextId, e, heap');
    PushLive(s.order, s.nextId, s.dead, e);
    PushFlags(s.order, s.dead, e);
    PlaceSorted(s.order, s.nextId, e);
    PlaceSet(s.order, e);
    r := s.(heap := heap', byId := s.byId[s.nextId := e], nextId := s.nextId + 1, live := s.live + 1,
            order := order', queue := Insert(s.queue, EntryOf(e)), events := s.events + {e});
    assert Consistent(r);
  }

  lemma {:induction false} PushFlags<T>(order: seq<Event<T>>, dead: set<nat>, e: Event<T>)
    requires FlagsOk(order, dead) && (e.cancelled <==> e.id in dead)
    ensures FlagsOk(Place(order, e), dead)
  {
    if order == [] || Less(e, order[0]) {
      assert ([e] + order)[1..] == order;
    } else {
      PushFlags(order[1..], dead, e);
      assert Place(order, e)[1..] == Place(order[1..], e);
    }
  }

  /** The state without the heap's first entry, when that entry was cancelled. */
  ghost function Buried<T>(s: State<T>, heap': seq<Event<T>>): State<T>
    requires s.heap != [] && s.order != []
  {
    s.(heap := heap', byId := s.byId - {s.heap[0].id}, order := s.order[1..], events := Members(s.order[1..]))
  }

  /** The state without its first live event, at that event's time. */
  ghost function Taken<T>(s: State<T>, heap': seq<Event<T>>): State<T>
    requires s.heap != [] && s.order != [] && s.queue != []
  {
    Buried(s, heap').(now := s.heap[0].time, live := s.live - 1, queue := s.queue[1..], gone := s.gone + 1)
  }

  /** Everything a pop changes. */
  lemma Popped<T>(s: State<T>, heap': seq<Event<T>>)
    requires Sound(s) && s.heap != []
    requires HeapOrdered(heap') && multiset(heap') == multiset(s.heap) - multiset{s.heap[0]}
    ensures s.order != [] && Members(s.order[1..]) <= s.events
    ensures s.heap[0].cancelled ==> Sound(Buried(s, heap'))
    ensures !s.heap[0].cancelled ==> s.queue != [] && s.queue[0] == EntryOf(s.heap[0]) && Sound(Taken(s, heap'))
  {
    assert Inside(Layer.Lists, true);
    PopShape(s.heap, s.order, s.byId, s.nextId, heap');
    if s.heap[0].cancelled {
      assert Consistent(Buried(s, heap'));
    } else {
      assert Live(s.order, s.dead)[1..] == Live(s.order[1..], s.dead);
      assert Consistent(Taken(s, heap'));
    }
  }

  /** What the top of the heap says about the list. */
  lemma HeapTop<T>(s: State<T>)
    requires Sound(s)
    ensures s.heap == [] ==> s.queue == []
    ensures s.heap != [] ==> s.heap[0] in s.events
    ensures s.heap != [] && !s.heap[0].cancelled ==> s.queue != [] && s.queue[0] == EntryOf(s.heap[0])
  {
    assert Inside(Layer.Lists, true);
    HeapHead(s.heap, s.order);
  }

  /** Time may move up to the first live event, once the cancelled ones before it are gone. */
  lemma Moved<T>(s: State<T>, time: int)
    requires Sound(s) && s.now <= time
    requires s.heap == [] || (!s.heap[0].cancelled && time <= s.heap[0].time)
    ensures Sound(s.(now := time))
  {
    assert Inside(Layer.Lists, true);
    HeapHead(s.heap, s.order);
    assert Consistent(s.(now := time));
  }

  /** Looking an id up finds its entry, whose flag is not yet set exactly when the event is live. */
  lemma LookUp<T>(s: State<T>, id: nat)
    requires Sound(s)
    ensures id in s.byId ==> s.byId[id].id == id && s.byId[id] in s.events
    ensures id in LiveIds(s.queue) <==> id in s.byId && !s.byId[id].cancelled
    ensures id !in LiveIds(s.queue) ==> Drop(s.queue, (x: Stamp<T>) => x.id == id) == s.queue
  {
    assert Inside(Layer.Lists, true);
    MapOfIds(s.order, s.nextId);
    MembersAre(s.order);
    FlagsTo(s.order, s.dead);
    LiveIdsOf(s.order, s.dead);
    MarkIsDrop(s.order, s.dead, id);
  }

  /** Before a mark: the flags are as `dead` says, and one entry has the id. */
  lemma Unmarked<T>(s: State<T>, id: nat)
    requires Sound(s) && id in s.byId && !s.byId[id].cancelled
    ensures Consistent(s) && id !in s.dead
    ensures forall e :: e in s.order ==> (e.cancelled <==> e.id in s.dead) && (e.id == id <==> e == s.byId[id])
  {
    assert Inside(Layer.Lists, true);
    MapOfIds(s.order, s.nextId);
    FlagsTo(s.order, s.dead);
    forall e | e in s.order
      ensures e.id == id <==> e == s.byId[id]
    {
      OneOfEachId(s.order, e);
    }
  }

  /** Marking the entry with this id, and no other, takes it off the list of live events. */
  lemma Marked<T>(s: State<T>, id: nat)
    requires Shape(s.heap, s.order, s.byId, s.nextId) && (forall x :: x in s.dead ==> x < s.nextId)
    requires forall e :: e in s.order ==> (e.cancelled <==> e.id in s.dead || e.id == id)
    requires s.queue == Live(s.order, s.dead) && s.live == |s.queue| && s.events == Members(s.order)
    requires (s.order == [] || s.now <= s.order[0].time) && s.nextId == s.live + s.gone
    requires id in s.byId && id !in s.dead
    ensures Sound(s.(dead := s.dead + {id}, live := s.live - 1, gone := s.gone + 1,
                     queue := Drop(s.queue, (x: Stamp<T>) => x.id == id)))
  {
    assert Inside(Layer.Lists, true);
    MapOfIds(s.order, s.nextId);
    MarkIsDrop(s.order, s.dead, id);
    FlagsFrom(s.order, s.dead + {id});
  }
}

/**
 A small memory controller that keeps every promise asked of the engine, so that those promises can
 be kept together: two bounded queues whose requests count down side by side, and a refresh that is
 queued every so many cycles and counts as pending while it lasts.
 */
module ToyEngine {
  import opened Ramulator = Engine

  /** A read that is answered after `left` more cycles. */
  datatype Slot<+C> = Slot(addr: int, core: int, arrive: int, closure: Closure<C>, left: nat)

  datatype Toy<+C> = Toy(clock: int, queue: seq<Slot<C>>, writing: seq<nat>, refreshing: nat)

  datatype Shape = Shape(readSlots: nat, writeSlots: nat, delay: int -> nat, refreshEvery: nat, refreshCycles: nat)

  /** The reads that a cycle at time `now` answers. */
  function Due<C>(now: int, queue: seq<Slot<C>>): seq<Served<C>> {
    if queue == [] then []
    else
      var r := queue[0];
      (if r.left == 0 then [Served(r.addr, READ, r.arrive, now, r.core, r.closure)] else []) + Due(now, queue[1..])
  }

  function Waiting<C>(queue: seq<Slot<C>>): seq<Slot<C>> {
    if queue == [] then []
    else (if queue[0].left == 0 then [] else [queue[0].(left := queue[0].left - 1)]) + Waiting(queue[1..])
  }

  function Draining(writing: seq<nat>): seq<nat> {
    if writing == [] then []
    else (if writing[0] == 0 then [] else [writing[0] - 1]) + Draining(writing[1..])
  }

  function Refreshing<C>(sh: Shape, e: Toy<C>): nat {
    if e.refreshing > 0 then e.refreshing - 1
    else if sh.refreshEvery > 0 && (e.clock + 1) % sh.refreshEvery == 0 then sh.refreshCycles
    else 0
  }

  function Tick<C>(sh: Shape, e: Toy<C>): (Toy<C>, seq<Served<C>>) {
    (Toy(e.clock + 1, Waiting(e.queue), Draining(e.writing), Refreshing(sh, e)), Due(e.clock + 1, e.queue))
  }

  function Pending<C>(e: Toy<C>): nat {
    |e.queue| + |e.writing| + if e.refreshing > 0 then 1 else 0
  }

  function Send<C>(sh: Shape, e: Toy<C>, r: Request<C>): (Toy<C>, bool) {
    if r.kind == READ then
      if sh.readSlots <= |e.queue| then (e, false)
      else (e.(queue := e.queue + [Slot(r.addr, r.core, e.clock, r.closure, sh.delay(r.addr))]), true)
    else
      if sh.writeSlots <= |e.writing| then (e, false)
      else (e.(writing := e.writing + [sh.delay(r.addr)]), true)
  }

  function Make<C>(sh: Shape): Engine<Toy<C>, C> {
    Ramulator.Engine.Engine(e => Tick(sh, e), e => Pending(e), (e, r) => Send(sh, e, r))
  }

  ghost function Under<C>(queue: seq<Slot<C>>, k: Closure<C>): multiset<int> {
    if queue == [] then multiset{}
    else (if queue[0].closure == k then multiset{queue[0].addr} else multiset{}) + Under(queue[1..], k)
  }

  ghost function Flight<C>(): Flight<Toy<C>, C> {
    (e: Toy<C>, k: Closure<C>) => Under(e.queue, k)
  }

  lemma {:induction false} UnderAppend<C>(a: seq<Slot<C>>, s: Slot<C>, k: Closure<C>)
    ensures Under(a + [s], k) == Under(a, k) + (if s.closure == k then multiset{s.addr} else multiset{})
  {
    if a != [] {
      assert (a + [s])[1..] == a[1..] + [s];
      UnderAppend(a[1..], s, k);
    }
  }

  /** Every read is either answered now or still waiting. */
  lemma {:induction false} TickSplits<C>(now: int, queue: seq<Slot<C>>, k: Closure<C>)
    ensures Under(queue, k) == Under(Waiting(queue), k) + ServedUnder(Due(now, queue), k)
  {
    if queue != [] {
      TickSplits(now, queue[1..], k);
      var r := queue[0];
      var one := if r.closure == k then multiset{r.addr} else multiset{};
      var waiting, due := Under(Waiting(queue[1..]), k), ServedUnder(Due(now, queue[1..]), k);
      if r.left == 0 {
        assert Due(now, queue)[1..] == Due(now, queue[1..]);
        assert ServedUnder(Due(now, queue), k) == one + due;
        assert Waiting(queue) == Waiting(queue[1..]);
      } else {
        assert Waiting(queue)[1..] == Waiting(queue[1..]);
        assert Under(Waiting(queue), k) == one + waiting;
        assert Due(now, queue) == Due(now, queue[1..]);
      }
      assert one + (waiting + due) == (one + waiting) + due == waiting + (one + due);
    }
  }

  lemma {:induction false} DueAreReads<C>(now: int, queue: seq<Slot<C>>, i: nat)
    requires i < |Due(now, queue)|
    ensures Due(now, queue)[i].kind == READ
  {
    if queue[0].left != 0 {
      DueAreReads(now, queue[1..], i);
    } else if i > 0 {
      assert Due(now, queue)[i] == Due(now, queue[1..])[i - 1];
      DueAreReads(now, queue[1..], i - 1);
    }
  }

  lemma TrackedOnSend<C(!new)>(sh: Shape)
    ensures SendAddsTheRead(Make<C>(sh), Flight())
  {
    forall e: Toy<C>, r: Request<C>, k: Closure<C> | Send(sh, e, r).1
      ensures Flight<C>()(Send(sh, e, r).0, k) ==
              Flight<C>()(e, k) + (if r.kind == READ && r.closure == k then multiset{r.addr} else multiset{})
    {
      if r.kind == READ {
        UnderAppend(e.queue, Slot(r.addr, r.core, e.clock, r.closure, sh.delay(r.addr)), k);
      }
    }
  }

  lemma TrackedOnTick<C(!new)>(sh: Shape)
    ensures TickServesReads(Make<C>(sh), Flight()) && OnlyReadsServed(Make<C>(sh))
  {
    forall e: Toy<C>, k: Closure<C>
      ensures Flight<C>()(e, k) == Flight<C>()(Tick(sh, e).0, k) + ServedUnder(Tick(sh, e).1, k)
    {
      TickSplits(e.clock + 1, e.queue, k);
    }
    forall e: Toy<C>, i: nat | i < |Tick(sh, e).1|
      ensures Tick(sh, e).1[i].kind == READ
    {
      DueAreReads(e.clock + 1, e.queue, i);
    }
  }

  lemma ToySends<C(!new)>(sh: Shape)
    ensures AcceptedIsPending(Make<C>(sh)) && RefusedKeepsPending(Make<C>(sh))
  {
    forall e: Toy<C>, r: Request<C>
      ensures Send(sh, e, r).1 ==> Pending(Send(sh, e, r).0) > 0
      ensures !Send(sh, e, r).1 ==> Send(sh, e, r).0 == e
    {
    }
  }

  lemma ToyIdles<C(!new)>(sh: Shape)
    ensures IdleIsQuiet(Make<C>(sh))
  {
    forall e: Toy<C>, n: nat | Pending(e) == 0
      ensures TickN(Make<C>(sh), e, n).1 == []
    {
      ToyStaysIdle(sh, e, n);
    }
  }

  /** Without requests nothing is served, refreshes or not. */
  lemma {:induction false} ToyStaysIdle<C>(sh: Shape, e: Toy<C>, n: nat)
    requires e.queue == []
    ensures TickN(Make<C>(sh), e, n).1 == []
    decreases n
  {
    if n > 0 {
      ToyStaysIdle(sh, Tick(sh, e).0, n - 1);
    }
  }

  lemma ToyKeepsFlight<C(!new)>(sh: Shape)
    ensures RefusedKeepsFlight(Make<C>(sh), Flight()) && FlightIsPending(Make<C>(sh), Flight())
  {
  }

  /** A full read queue holds a read. */
  lemma ToyRefusals<C(!new)>(sh: Shape)
    requires 1 <= sh.readSlots
    ensures ReadRefusedOnlyWhenReading(Make<C>(sh), Flight())
  {
    forall e: Toy<C>, r: Request<C> | r.kind == READ && !Send(sh, e, r).1
      ensures exists k :: Flight<C>()(e, k) != multiset{}
    {
      var s := e.queue[0];
      assert s.addr in Under(e.queue, s.closure);
      assert Flight<C>()(e, s.closure) == Under(e.queue, s.closure);
    }
  }

  /** The promises hold together, also the one that only the examples need. */
  lemma ToyIsHonest<C(!new)>(sh: Shape)
    ensures Honest(Make<C>(sh), Flight())
    ensures 1 <= sh.readSlots ==> ReadRefusedOnlyWhenReading(Make<C>(sh), Flight())
  {
    ToySends<C>(sh);
    ToyIdles<C>(sh);
    ToyKeepsFlight<C>(sh);
    TrackedOnSend<C>(sh);
    TrackedOnTick<C>(sh);
    if 1 <= sh.readSlots {
      ToyRefusals<C>(sh);
    }
  }
}

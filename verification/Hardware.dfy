/**
 The FIFO and the fixed-latency pipe as objects, on the simulator object.

 A pipe cannot call its consumer here, so each of its two event bodies comes as the part around the
 call: `Delivered`, and `BeginRetry` with `Retried` for every round of the retry loop.  Class `Bench`
 puts the calls back in, for any deterministic consumer, and is proved against module Pipes.
 */
module Hardware {
  import opened Prelude
  import opened Agenda
  import opened Kernel
  import opened Erasure
  import P = Pipes
  import Sim = Simulator

  class FIFO<T> {
    const capacity: int
    var q: seq<T>

    predicate Valid()
      reads this
    {
      1 <= capacity && |q| <= capacity
    }

    constructor (capacity: int)
      requires 1 <= capacity
      ensures Valid() && q == [] && this.capacity == capacity
    {
      this.capacity, q := capacity, [];
    }

    predicate Full()
      reads this
    {
      capacity <= |q|
    }

    method Put(item: T) returns (ok: bool)
      requires Valid()
      modifies this
      ensures Valid() && ok == (|old(q)| < capacity)
      ensures q == if ok then old(q) + [item] else old(q)
    {
      if Full() {
        return false;
      }
      q := q + [item];
      ok := true;
    }

    /** Taking from an empty FIFO raises. */
    method Get() returns (r: Result<T>)
      requires Valid()
      modifies this
      ensures Valid() && (r.Raised? <==> old(q) == [])
      ensures r.Raised? ==> q == old(q)
      ensures r.Ok? ==> old(q) == [r.value] + q
    {
      if q == [] {
        return Raised;
      }
      r := Ok(q[0]);
      q := q[1..];
    }

    function Peek(): (r: Option<T>)
      reads this
      ensures r.None? <==> q == []
      ensures r.Some? ==> r.value == q[0]
    {
      if q == [] then None else Some(q[0])
    }
  }

  class Pipe<T, X> {
    const sim: Sim.Simulator<X>
    const shape: P.Shape
    /** The events of this pipe. */
    const arrive: T -> X
    const retryTag: X
    var inFlight: int
    var stalled: seq<T>
    var retryEid: Option<nat>

    constructor (sim: Sim.Simulator<X>, shape: P.Shape, arrive: T -> X, retryTag: X)
      requires shape.Valid()
      ensures this.sim == sim && this.shape == shape && this.arrive == arrive && this.retryTag == retryTag
      ensures Value() == P.Pipe(0, [], false)
    {
      this.sim, this.shape, this.arrive, this.retryTag := sim, shape, arrive, retryTag;
      inFlight, stalled, retryEid := 0, [], None;
    }

    function Value(): P.Pipe<T>
      reads this
    {
      P.Pipe(inFlight, stalled, retryEid.Some?)
    }

    predicate CanPut()
      reads this
    {
      inFlight < shape.slots
    }

    /** One more event of this pipe, `delay` from now; nothing else happens to the simulator. */
    twostate predicate Scheduled(delay: int, new tag: X)
      reads sim
    {
      && Untouched()
      && sim.nextId == old(sim.nextId) + 1
      && sim.queue == Insert(old(sim.queue), Entry(sim.now + delay, 0, Stamp(old(sim.nextId), tag)))
    }

    twostate predicate Untouched()
      reads sim
    {
      sim.now == old(sim.now) && sim.runUntil == old(sim.runUntil) && fresh(sim.events - old(sim.events))
    }

    method Put(item: T) returns (ok: bool)
      requires sim.Valid() && shape.Valid()
      modifies this`inFlight, sim
      ensures sim.Valid() && ok == (old(inFlight) < shape.slots)
      ensures ok ==> inFlight == old(inFlight) + 1 && Scheduled(shape.delay, arrive(item))
      ensures !ok ==> inFlight == old(inFlight) && Untouched()
      ensures !ok ==> sim.queue == old(sim.queue) && sim.nextId == old(sim.nextId)
    {
      if !CanPut() {
        return false;
      }
      inFlight := inFlight + 1;
      var id := sim.Schedule(shape.delay, arrive(item), 0);
      ok := true;
    }

    /** The rest of a delivery, once the consumer has answered: leave, or stall and share one retry event. */
    method Delivered(item: T, ok: bool)
      requires sim.Valid() && shape.Valid()
      modifies this, sim
      ensures sim.Valid()
      ensures ok ==> Value() == old(Value()).(inFlight := old(inFlight) - 1)
      ensures !ok ==> Value() == old(Value()).(stalled := old(stalled) + [item], retry := true)
      ensures if !ok && old(retryEid).None? then Scheduled(shape.period, retryTag)
              else Untouched() && sim.queue == old(sim.queue) && sim.nextId == old(sim.nextId)
    {
      if !ok {
        stalled := stalled + [item];
        if retryEid.None? {
          var id := sim.Schedule(shape.period, retryTag, 0);
          retryEid := Some(id.value);
        }
        return;
      }
      inFlight := inFlight - 1;
    }

    method BeginRetry()
      modifies this`retryEid
      ensures Value() == old(Value()).(retry := false)
    {
      retryEid := None;
    }

    /** One round of the retry loop, once the consumer has answered for the oldest stalled item. */
    method Retried(ok: bool)
      requires sim.Valid() && shape.Valid() && stalled != []
      modifies this, sim
      ensures sim.Valid()
      ensures ok ==> Value() == old(Value()).(stalled := old(stalled)[1..], inFlight := old(inFlight) - 1)
      ensures !ok ==> Value() == old(Value()).(retry := true)
      ensures if !ok then Scheduled(shape.period, retryTag)
              else Untouched() && sim.queue == old(sim.queue) && sim.nextId == old(sim.nextId)
    {
      if !ok {
        var id := sim.Schedule(shape.period, retryTag, 0);
        retryEid := Some(id.value);
        return;
      }
      stalled := stalled[1..];
      inFlight := inFlight - 1;
    }
  }

  // -- Around a consumer ------------------------------------------------------------------

  lemma {:induction false} EnterSplits<S, T>(sh: P.Shape, st: P.Stage<S, T>, a: seq<T>, b: seq<T>)
    ensures P.Enter(sh, st, a + b) == P.Enter(sh, P.Enter(sh, st, a), b)
    decreases |a|
  {
    if a == [] {
      assert a + b == b;
    } else {
      assert (a + b)[1..] == a[1..] + b;
      EnterSplits(sh, P.Enter(sh, st, a[..1]), a[1..], b);
      assert a[..1] == [a[0]] && [a[0]][1..] == [];
      assert P.Enter(sh, P.Enter(sh, st, [a[0]]), []) == P.Enter(sh, st, [a[0]]);
    }
  }

  /** Entering touches nothing but the agenda and the history of puts, and depends on nothing else. */
  lemma {:induction false} EnterFrame<S, T>(sh: P.Shape, st: P.Stage<S, T>, st': P.Stage<S, T>, a: seq<T>)
    requires st' == st.(pipe := st'.pipe, s := st'.s, tries := st'.tries, taken := st'.taken, stalls := st'.stalls,
             drained := st'.drained)
    ensures P.Enter(sh, st', a) == st'.(agenda := P.Enter(sh, st, a).agenda, puts := P.Enter(sh, st, a).puts)
    decreases |a|
  {
    if a != [] {
      var e := Entry(P.Due(sh, st.now), 0, P.Tag.Arrive(a[0]));
      var put := P.Stamp(st.now, a[0]);
      EnterFrame(sh, st.(agenda := Insert(st.agenda, e), puts := st.puts + [put]),
                 st'.(agenda := Insert(st'.agenda, e), puts := st'.puts + [put]), a[1..]);
    }
  }

  /** A retry event from the middle of its loop on. */
  function Draining<S, T>(sh: P.Shape, f: P.Consumer<S, T>, st: P.Stage<S, T>): P.Stage<S, T> {
    var o := P.Drain(sh, f, st.pipe, st.s);
    P.Again(sh, P.Enter(sh, P.Drained(st, o), o.entered), o.again)
  }

  lemma {:induction false} DrainShrinks<S, T>(sh: P.Shape, f: P.Consumer<S, T>, p: P.Pipe<T>, s: S)
    ensures var o := P.Drain(sh, f, p, s);
            var n := |p.stalled| - |o.pipe.stalled|;
            0 <= n && o.pipe.stalled == p.stalled[n..]
    decreases |p.stalled|
  {
    if p.stalled != [] {
      var a := f(s, p.stalled[0], P.Room(sh, p));
      var entered := P.Fitting(sh, p, a.puts);
      if a.ok {
        DrainShrinks(sh, f, p.(inFlight := p.inFlight + |entered| - 1, stalled := p.stalled[1..]), a.s);
      }
    }
  }

  /** The state when the consumer has taken the oldest item, before anything it put meanwhile enters. */
  function Popped<S, T>(st: P.Stage<S, T>, s: S, entered: nat): P.Stage<S, T>
    requires st.pipe.stalled != []
  {
    var item := st.pipe.stalled[0];
    var p := st.pipe.(inFlight := st.pipe.inFlight + entered - 1, stalled := st.pipe.stalled[1..]);
    st.(pipe := p, s := s, taken := st.taken + [item], drained := st.drained + [item])
  }

  lemma DrainedJoins<S, T>(st: P.Stage<S, T>, mid: P.Stage<S, T>, s: S, entered: nat, o: P.Outcome<S, T>)
    requires st.pipe.stalled != [] && mid == Popped(st, s, entered)
    requires |o.pipe.stalled| <= |mid.pipe.stalled|
    ensures P.Drained(st, o) == P.Drained(mid, o)
  {
    var item, rest := st.pipe.stalled[0], st.pipe.stalled[1..];
    var n := |rest| - |o.pipe.stalled|;
    assert st.pipe.stalled[..n + 1] == [item] + rest[..n];
    assert st.taken + ([item] + rest[..n]) == st.taken + [item] + rest[..n];
    assert st.drained + ([item] + rest[..n]) == st.drained + [item] + rest[..n];
  }

  lemma DrainedEnters<S, T>(sh: P.Shape, mid: P.Stage<S, T>, entered: seq<T>, o: P.Outcome<S, T>)
    ensures P.Drained(P.Enter(sh, mid, entered), o) == P.Enter(sh, P.Drained(mid, o), entered)
    ensures P.Enter(sh, mid, entered).pipe == mid.pipe && P.Enter(sh, mid, entered).s == mid.s
  {
    EnterFrame(sh, mid, mid, entered);
    EnterFrame(sh, mid, P.Drained(mid, o), entered);
  }

  lemma DrainStep<S, T>(
    sh: P.Shape, f: P.Consumer<S, T>, st: P.Stage<S, T>, a: P.Answer<S, T>, entered: seq<T>, mid: P.Stage<S, T>)
    requires st.pipe.stalled != [] && a == f(st.s, st.pipe.stalled[0], P.Room(sh, st.pipe)) && a.ok
    requires entered == P.Fitting(sh, st.pipe, a.puts) && mid == Popped(st, a.s, |entered|)
    ensures var o := P.Drain(sh, f, mid.pipe, mid.s);
            P.Drain(sh, f, st.pipe, st.s) == o.(entered := entered + o.entered)
  {
  }

  /** An accepted item is one round of the loop. */
  lemma DrainingRound<S, T>(sh: P.Shape, f: P.Consumer<S, T>, st: P.Stage<S, T>, a: P.Answer<S, T>, entered: seq<T>)
    requires st.pipe.stalled != [] && a == f(st.s, st.pipe.stalled[0], P.Room(sh, st.pipe)) && a.ok
    requires entered == P.Fitting(sh, st.pipe, a.puts)
    ensures Draining(sh, f, st) == Draining(sh, f, P.Enter(sh, Popped(st, a.s, |entered|), entered))
  {
    var mid := Popped(st, a.s, |entered|);
    var o := P.Drain(sh, f, mid.pipe, mid.s);
    DrainStep(sh, f, st, a, entered, mid);
    DrainShrinks(sh, f, mid.pipe, mid.s);
    DrainedJoins(st, mid, a.s, |entered|, o.(entered := entered + o.entered));
    assert P.Drained(mid, o.(entered := entered + o.entered)) == P.Drained(mid, o);
    EnterSplits(sh, P.Drained(mid, o), entered, o.entered);
    DrainedEnters(sh, mid, entered, o);
  }

  lemma NoneDrained<S, T>(st: P.Stage<S, T>, o: P.Outcome<S, T>)
    requires o.pipe.stalled == st.pipe.stalled
    ensures P.Drained(st, o) == st.(pipe := o.pipe, s := o.s)
  {
    assert st.pipe.stalled[..0] == [];
    assert st.taken + [] == st.taken && st.drained + [] == st.drained;
  }

  /** A refused item ends the loop. */
  lemma DrainingStops<S, T>(sh: P.Shape, f: P.Consumer<S, T>, st: P.Stage<S, T>, a: P.Answer<S, T>, entered: seq<T>)
    requires st.pipe.stalled != [] && a == f(st.s, st.pipe.stalled[0], P.Room(sh, st.pipe)) && !a.ok
    requires entered == P.Fitting(sh, st.pipe, a.puts)
    ensures Draining(sh, f, st) ==
            P.Again(sh, P.Enter(sh,
              st.(pipe := st.pipe.(inFlight := st.pipe.inFlight + |entered|, retry := true), s := a.s), entered), true)
  {
    var p := st.pipe.(inFlight := st.pipe.inFlight + |entered|, retry := true);
    assert P.Drain(sh, f, st.pipe, st.s) == P.Outcome(p, a.s, entered, true);
    NoneDrained(st, P.Outcome(p, a.s, entered, true));
  }

  /** The rest of a round may come after what entered. */
  lemma RoundAfterEntering<S, T>(sh: P.Shape, st: P.Stage<S, T>, s: S, entered: seq<T>)
    requires st.pipe.stalled != []
    ensures var p := st.pipe.(inFlight := st.pipe.inFlight + |entered|);
            var m := P.Enter(sh, st.(s := s, pipe := p), entered);
            && m.pipe == p && m.s == s
            && P.Enter(sh, Popped(st, s, |entered|), entered) ==
               m.(pipe := p.(stalled := p.stalled[1..], inFlight := p.inFlight - 1),
                  taken := m.taken + [p.stalled[0]], drained := m.drained + [p.stalled[0]])
            && P.Enter(sh, st.(s := s, pipe := p.(retry := true)), entered) == m.(pipe := p.(retry := true))
  {
    var p := st.pipe.(inFlight := st.pipe.inFlight + |entered|);
    var m0 := st.(s := s, pipe := p);
    EnterFrame(sh, m0, m0, entered);
    EnterFrame(sh, m0, Popped(st, s, |entered|), entered);
    EnterFrame(sh, m0, m0.(pipe := p.(retry := true)), entered);
  }

  /** One whole round: the consumer, what entered, and what follows its answer. */
  lemma RoundDone<S, T>(
    sh: P.Shape, f: P.Consumer<S, T>, st: P.Stage<S, T>, a: P.Answer<S, T>, entered: seq<T>, mid: P.Stage<S, T>,
    end: P.Stage<S, T>)
    requires st.pipe.stalled != [] && a == f(st.s, st.pipe.stalled[0], P.Room(sh, st.pipe))
    requires entered == P.Fitting(sh, st.pipe, a.puts)
    requires mid == P.Enter(sh, st.(s := a.s, pipe := st.pipe.(inFlight := st.pipe.inFlight + |entered|)), entered)
    requires mid.pipe.stalled != []
    requires var p := mid.pipe;
             end == if a.ok then mid.(pipe := p.(stalled := p.stalled[1..], inFlight := p.inFlight - 1),
                                      taken := mid.taken + [p.stalled[0]], drained := mid.drained + [p.stalled[0]])
                    else P.Again(sh, mid.(pipe := p.(retry := true)), true)
    ensures Draining(sh, f, st) == if a.ok then Draining(sh, f, end) else end
  {
    RoundAfterEntering(sh, st, a.s, entered);
    if a.ok {
      DrainingRound(sh, f, st, a, entered);
    } else {
      DrainingStops(sh, f, st, a, entered);
    }
  }

  /** A delivery: what entered meanwhile comes before the shared retry event. */
  function Answered<S, T>(mid: P.Stage<S, T>, item: T, ok: bool): P.Stage<S, T> {
    var p := if ok then mid.pipe.(inFlight := mid.pipe.inFlight - 1)
             else mid.pipe.(stalled := mid.pipe.stalled + [item], retry := true);
    mid.(pipe := p, tries := mid.tries + [P.Stamp(mid.now, item)],
         taken := if ok then mid.taken + [item] else mid.taken,
         stalls := if ok then mid.stalls else mid.stalls + [item])
  }

  lemma ArrivedAs<S, T>(
    sh: P.Shape, f: P.Consumer<S, T>, st: P.Stage<S, T>, item: T, a: P.Answer<S, T>, entered: seq<T>)
    requires a == f(st.s, item, P.Room(sh, st.pipe)) && entered == P.Fitting(sh, st.pipe, a.puts)
    ensures var mid := st.(s := a.s, pipe := st.pipe.(inFlight := st.pipe.inFlight + |entered|));
            P.Arrived(sh, f, st, item) ==
            P.Again(sh, Answered(P.Enter(sh, mid, entered), item, a.ok), !a.ok && !st.pipe.retry)
  {
    var mid := st.(s := a.s, pipe := st.pipe.(inFlight := st.pipe.inFlight + |entered|));
    var o := P.Deliver(sh, f, st.pipe, st.s, item);
    assert P.Tried(st, o, item) == Answered(mid, item, a.ok);
    EnterFrame(sh, mid, mid, entered);
    EnterFrame(sh, mid, Answered(mid, item, a.ok), entered);
  }

  /** A pipe, its simulator and a consumer that is any deterministic machine with state `s`. */
  class Bench<S, T> {
    const sim: Sim.Simulator<P.Tag<T>>
    const pipe: Pipe<T, P.Tag<T>>
    const consumer: P.Consumer<S, T>
    var s: S
    ghost var puts: seq<P.Stamp<T>>
    ghost var tries: seq<P.Stamp<T>>
    ghost var taken: seq<T>
    ghost var stalls: seq<T>
    ghost var drained: seq<T>

    ghost predicate Valid()
      reads this, sim, sim.order
    {
      && pipe.sim == sim && sim.Valid() && pipe.shape.Valid()
      && pipe.arrive == ((item: T) => P.Tag.Arrive(item)) && pipe.retryTag == P.Retry
    }

    ghost function View(): P.Stage<S, T>
      reads this, sim, pipe
    {
      P.Stage(sim.now, Erased(sim.queue), pipe.Value(), s, puts, tries, taken, stalls, drained)
    }

    constructor (shape: P.Shape, consumer: P.Consumer<S, T>, s: S)
      requires shape.Valid()
      ensures Valid() && pipe.shape == shape && this.consumer == consumer && View() == P.Start(0, s)
      ensures fresh(sim) && fresh(pipe) && fresh(sim.events)
    {
      var kernel := new Sim.Simulator<P.Tag<T>>();
      sim := kernel;
      pipe := new Pipe(kernel, shape, (item: T) => P.Tag.Arrive(item), P.Retry);
      this.consumer, this.s := consumer, s;
      puts, tries, taken, stalls, drained := [], [], [], [], [];
    }

    /** `put`, by the environment or by the consumer itself. */
    method Put(item: T) returns (ok: bool)
      requires Valid()
      modifies this`puts, pipe`inFlight, sim
      ensures Valid() && ok == (old(pipe.inFlight) < pipe.shape.slots)
      ensures pipe.inFlight == old(pipe.inFlight) + (if ok then 1 else 0)
      ensures View() == if ok then P.Enter(pipe.shape, old(View()).(pipe := pipe.Value()), [item]) else old(View())
    {
      ok := pipe.Put(item);
      if ok {
        ErasedInsert(old(sim.queue), sim.now + pipe.shape.delay, 0, old(sim.nextId), P.Tag.Arrive(item));
        puts := puts + [P.Stamp(sim.now, item)];
      }
    }

    /** The environment's `put`. */
    method PutItem(item: T) returns (ok: bool)
      requires Valid()
      modifies this`puts, pipe`inFlight, sim
      ensures Valid() && View() == P.PutItem(pipe.shape, old(View()), item)
    {
      ok := Put(item);
    }

    /** The consumer runs; its own puts go through `Put`, and those that find the stage full are refused. */
    method Consume(item: T) returns (ok: bool, ghost a: P.Answer<S, T>, ghost entered: seq<T>)
      requires Valid()
      modifies this`s, this`puts, pipe`inFlight, sim
      ensures Valid()
      ensures a == consumer(old(s), item, P.Room(pipe.shape, old(pipe.Value()))) && ok == a.ok
      ensures entered == P.Fitting(pipe.shape, old(pipe.Value()), a.puts)
      ensures View() == P.Enter(pipe.shape,
              old(View()).(s := a.s, pipe := old(pipe.Value()).(inFlight := old(pipe.inFlight) + |entered|)), entered)
    {
      var ans := consumer(s, item, P.Room(pipe.shape, pipe.Value()));
      a := ans;
      s := ans.s;
      var i := 0;
      entered := [];
      ghost var st0 := View();
      ghost var room := P.Room(pipe.shape, pipe.Value());
      while i < |ans.puts|
        invariant Valid() && i <= |ans.puts|
        invariant entered == ans.puts[..if i <= room then i else room]
        invariant pipe.inFlight == st0.pipe.inFlight + |entered|
        invariant View() == P.Enter(pipe.shape, st0.(pipe := pipe.Value()), entered)
      {
        ghost var st, p := View(), pipe.Value();
        var fits := Put(ans.puts[i]);
        if fits {
          assert entered + [ans.puts[i]] == ans.puts[..i + 1];
          EnterFrame(pipe.shape, st0.(pipe := p), st0.(pipe := p), entered);
          EnterFrame(pipe.shape, st0.(pipe := p), st0.(pipe := pipe.Value()), entered);
          EnterSplits(pipe.shape, st0.(pipe := pipe.Value()), entered, [ans.puts[i]]);
          entered := entered + [ans.puts[i]];
        }
        i := i + 1;
      }
      ok := ans.ok;
    }

    /** The body of a delivery event. */
    method Deliver(item: T)
      requires Valid()
      modifies this, pipe, sim
      ensures Valid() && View() == P.Arrived(pipe.shape, consumer, old(View()), item)
    {
      ghost var a, entered;
      var ok;
      ok, a, entered := Consume(item);
      ArrivedAs(pipe.shape, consumer, old(View()), item, a, entered);
      Settle(item, ok);
    }

    /** What follows the consumer's answer to a delivery. */
    method Settle(item: T, ok: bool)
      requires Valid()
      modifies this`tries, this`taken, this`stalls, pipe, sim
      ensures Valid()
      ensures View() == P.Again(pipe.shape, Answered(old(View()), item, ok), !ok && !old(pipe.Value().retry))
    {
      ErasedInsert(sim.queue, sim.now + pipe.shape.period, 0, sim.nextId, P.Tag<T>.Retry);
      pipe.Delivered(item, ok);
      tries := tries + [P.Stamp(sim.now, item)];
      taken := if ok then taken + [item] else taken;
      stalls := if ok then stalls else stalls + [item];
    }

    /** The body of a retry event. */
    method Retry()
      requires Valid()
      modifies this, pipe, sim
      ensures Valid() && View() == P.Retried(pipe.shape, consumer, old(View()))
    {
      pipe.BeginRetry();
      ghost var st0 := View();
      assert P.Retried(pipe.shape, consumer, old(View())) == Draining(pipe.shape, consumer, st0);
      while pipe.stalled != []
        invariant Valid() && Draining(pipe.shape, consumer, View()) == Draining(pipe.shape, consumer, st0)
        decreases |pipe.stalled|
      {
        var ok := RetryOne();
        if !ok {
          return;
        }
      }
    }

    /** One round of the retry loop. */
    method RetryOne() returns (ok: bool)
      requires Valid() && pipe.stalled != []
      modifies this, pipe, sim
      ensures Valid()
      ensures ok ==> |pipe.stalled| < |old(pipe.stalled)|
      ensures Draining(pipe.shape, consumer, old(View())) == if ok then Draining(pipe.shape, consumer, View())
              else View()
    {
      ghost var st := View();
      var item := pipe.stalled[0];
      ghost var a, entered;
      ok, a, entered := Consume(item);
      ghost var mid := View();
      Resume(ok);
      RoundDone(pipe.shape, consumer, st, a, entered, mid, View());
    }

    /** What follows the consumer's answer in the retry loop. */
    method Resume(ok: bool)
      requires Valid() && pipe.stalled != []
      modifies this`taken, this`drained, pipe, sim
      ensures Valid()
      ensures var st, p := old(View()), old(pipe.Value());
              View() == if ok then
                          st.(pipe := p.(stalled := p.stalled[1..], inFlight := p.inFlight - 1),
                              taken := st.taken + [p.stalled[0]], drained := st.drained + [p.stalled[0]])
                        else P.Again(pipe.shape, st.(pipe := p.(retry := true)), true)
    {
      var item := pipe.stalled[0];
      ErasedInsert(sim.queue, sim.now + pipe.shape.period, 0, sim.nextId, P.Tag<T>.Retry);
      pipe.Retried(ok);
      if ok {
        taken, drained := taken + [item], drained + [item];
      }
    }

    /** The next event of the simulator: what module Pipes calls `Fire`. */
    method Fire() returns (fired: bool)
      requires Valid()
      modifies this, pipe, sim
      ensures Valid() && (fired <==> P.Enabled(old(View()), P.Fire))
      ensures View() == if fired then P.Step(pipe.shape, consumer, old(View()), P.Fire) else old(View())
    {
      var e := sim.Peek();
      if e == null {
        return false;
      }
      ErasedTail(sim.queue);
      var tag := sim.Begin();
      match tag {
        case Arrive(item) => Deliver(item);
        case Retry => Retry();
      }
      sim.Finish();
      fired := true;
    }

    /** Time passes and the consumer's state changes; an event is never skipped. */
    method Wait(time: int, s: S) returns (ok: bool)
      requires Valid() && sim.runUntil == None
      modifies this`s, sim
      ensures Valid() && (ok <==> P.Enabled(old(View()), P.Env(time, s)))
      ensures View() == if ok then P.Step(pipe.shape, consumer, old(View()), P.Env(time, s)) else old(View())
    {
      if sim.queue != [] {
        ErasedTail(sim.queue);
      }
      ok := sim.AdvanceTo(time);
      if ok {
        this.s := s;
      }
    }
  }
}

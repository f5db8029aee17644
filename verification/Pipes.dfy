/**
 The fixed-latency pipeline stage, alone with its consumer.

 The consumer is any deterministic machine.  While it is called it may also put items into the same
 stage; it knows how much room is left, so it can tell which of those puts succeed.  Everything else
 in the simulation is an environment that changes the consumer's state, puts items and lets time pass.
 */
module Pipes {
  import opened Prelude
  import opened Agenda

  /** `retry` stands for a pending retry event id. */
  datatype Pipe<+T> = Pipe(inFlight: int, stalled: seq<T>, retry: bool)

  /** `delay` is the latency in simulator time. */
  datatype Shape = Shape(delay: int, slots: int, period: int)
  {
    predicate Valid() {
      0 <= delay && 1 <= slots && 0 < period
    }
  }

  /** A stage of `latency` cycles, under the constructors' conditions. */
  function StageOf(latency: int, slots: int, period: int): (sh: Shape)
    ensures 1 <= latency && 1 <= slots && 0 < period ==> sh.Valid() && period <= sh.delay
  {
    assert 1 <= latency && 0 < period ==> latency * period >= period by {
      if 1 <= latency && 0 < period {
        assert (latency - 1) * period >= 0;
      }
    }
    Shape(latency * period, slots, period)
  }

  /** What the consumer answers: its new state, whether it takes the item, and what it puts meanwhile. */
  datatype Answer<+S, +T> = Answer(s: S, ok: bool, puts: seq<T>)

  type Consumer<!S, !T> = (S, T, int) -> Answer<S, T>

  /** The stage and its consumer after an event: `entered` entered the stage, `retry` asks for a new event. */
  datatype Outcome<+S, +T> = Outcome(pipe: Pipe<T>, s: S, entered: seq<T>, again: bool)

  function Room<T>(sh: Shape, p: Pipe<T>): nat {
    if p.inFlight < sh.slots then sh.slots - p.inFlight else 0
  }

  /** The puts made while the consumer runs: the first ones fit, the rest find the stage full. */
  function Fitting<T>(sh: Shape, p: Pipe<T>, puts: seq<T>): seq<T> {
    if |puts| <= Room(sh, p) then puts else puts[..Room(sh, p)]
  }

  /** The body of a delivery event. */
  function Deliver<S, T>(sh: Shape, f: Consumer<S, T>, p: Pipe<T>, s: S, item: T): Outcome<S, T> {
    var a := f(s, item, Room(sh, p));
    var entered := Fitting(sh, p, a.puts);
    var p1 := p.(inFlight := p.inFlight + |entered|);
    if !a.ok then Outcome(p1.(stalled := p1.stalled + [item], retry := true), a.s, entered, !p1.retry)
    else Outcome(p1.(inFlight := p1.inFlight - 1), a.s, entered, false)
  }

  /** The body of a retry event, once `retry` was cleared. */
  function Drain<S, T>(sh: Shape, f: Consumer<S, T>, p: Pipe<T>, s: S): Outcome<S, T>
    decreases |p.stalled|
  {
    if p.stalled == [] then Outcome(p, s, [], false)
    else
      var a := f(s, p.stalled[0], Room(sh, p));
      var entered := Fitting(sh, p, a.puts);
      var p1 := p.(inFlight := p.inFlight + |entered|);
      if !a.ok then Outcome(p1.(retry := true), a.s, entered, true)
      else
        var o := Drain(sh, f, p1.(stalled := p1.stalled[1..], inFlight := p1.inFlight - 1), a.s);
        o.(entered := entered + o.entered)
  }

  /** A consumer that puts nothing back: one round of the retry loop. */
  lemma DrainRound<S, T>(sh: Shape, f: Consumer<S, T>, p: Pipe<T>, s: S, s1: S, ok: bool)
    requires p.stalled != [] && f(s, p.stalled[0], Room(sh, p)) == Answer(s1, ok, [])
    ensures Drain(sh, f, p, s) ==
            if ok then Drain(sh, f, p.(stalled := p.stalled[1..], inFlight := p.inFlight - 1), s1)
            else Outcome(p.(retry := true), s1, [], true)
  {
    assert Fitting(sh, p, []) == [];
    if ok {
      var o := Drain(sh, f, p.(stalled := p.stalled[1..], inFlight := p.inFlight - 1), s1);
      assert [] + o.entered == o.entered;
    }
  }

  // -- The stage in time ---------------------------------------------------------------

  datatype Tag<+T> = Arrive(item: T) | Retry

  /** An item and the time of its put or of its first delivery attempt. */
  datatype Stamp<+T> = Stamp(time: int, item: T)

  /** `puts`, `tries`, `taken`, `stalls` and `drained` are histories that no step consults. */
  datatype Stage<+S, +T> = Stage(
    now: int,
    agenda: seq<Entry<Tag<T>>>,
    pipe: Pipe<T>,
    s: S,
    puts: seq<Stamp<T>>,
    tries: seq<Stamp<T>>,
    taken: seq<T>,
    stalls: seq<T>,
    drained: seq<T>)

  /** `Env` is whatever else happens: time passes without skipping an event, the consumer's state changes. */
  datatype Move<+S, +T> = Env(now: int, s: S) | Put(item: T) | Fire

  function Due(sh: Shape, now: int): int {
    now + sh.delay
  }

  /** Accept the items of `entered`, one after the other, at the current time. */
  function Enter<S, T>(sh: Shape, st: Stage<S, T>, entered: seq<T>): Stage<S, T>
    decreases |entered|
  {
    if entered == [] then st
    else
      Enter(sh, st.(agenda := Insert(st.agenda, Entry(Due(sh, st.now), 0, Arrive(entered[0]))),
                    puts := st.puts + [Stamp(st.now, entered[0])]), entered[1..])
  }

  /** Schedule the retry, behind the arrivals of the same event. */
  function Again<S, T>(sh: Shape, st: Stage<S, T>, again: bool): Stage<S, T> {
    if again then st.(agenda := Insert(st.agenda, Entry(st.now + sh.period, 0, Tag<T>.Retry))) else st
  }

  /** The stage right after the consumer answered a delivery attempt. */
  function Tried<S, T>(st: Stage<S, T>, o: Outcome<S, T>, item: T): Stage<S, T> {
    var ok := |o.pipe.stalled| == |st.pipe.stalled|;
    st.(pipe := o.pipe, s := o.s, tries := st.tries + [Stamp(st.now, item)],
        taken := if ok then st.taken + [item] else st.taken,
        stalls := if ok then st.stalls else st.stalls + [item])
  }

  function Arrived<S, T>(sh: Shape, f: Consumer<S, T>, st: Stage<S, T>, item: T): Stage<S, T> {
    var o := Deliver(sh, f, st.pipe, st.s, item);
    Again(sh, Enter(sh, Tried(st, o, item), o.entered), o.again)
  }

  /** The stage right after the consumer answered a retry. */
  function Drained<S, T>(st: Stage<S, T>, o: Outcome<S, T>): Stage<S, T> {
    var n := |st.pipe.stalled| - |o.pipe.stalled|;
    var gone := if 0 <= n <= |st.pipe.stalled| then st.pipe.stalled[..n] else [];
    st.(pipe := o.pipe, s := o.s, taken := st.taken + gone, drained := st.drained + gone)
  }

  function Retried<S, T>(sh: Shape, f: Consumer<S, T>, st: Stage<S, T>): Stage<S, T> {
    var o := Drain(sh, f, st.pipe.(retry := false), st.s);
    Again(sh, Enter(sh, Drained(st, o), o.entered), o.again)
  }

  /** What may happen next. */
  predicate Enabled<S, T>(st: Stage<S, T>, m: Move<S, T>) {
    match m
    case Env(now, s) => st.now <= now && (st.agenda == [] || now <= st.agenda[0].time)
    case Put(item) => true
    case Fire => st.agenda != []
  }

  function PutItem<S, T>(sh: Shape, st: Stage<S, T>, item: T): Stage<S, T> {
    if sh.slots <= st.pipe.inFlight then st
    else Enter(sh, st.(pipe := st.pipe.(inFlight := st.pipe.inFlight + 1)), [item])
  }

  function FireHead<S, T>(sh: Shape, f: Consumer<S, T>, st: Stage<S, T>): Stage<S, T>
    requires st.agenda != []
  {
    var st1 := st.(now := st.agenda[0].time, agenda := st.agenda[1..]);
    match st.agenda[0].what
    case Arrive(item) => Arrived(sh, f, st1, item)
    case Retry => Retried(sh, f, st1)
  }

  function Step<S, T>(sh: Shape, f: Consumer<S, T>, st: Stage<S, T>, m: Move<S, T>): Stage<S, T>
    requires Enabled(st, m)
  {
    match m
    case Env(now, s) => st.(now := now, s := s)
    case Put(item) => PutItem(sh, st, item)
    case Fire => FireHead(sh, f, st)
  }

  function Start<S, T>(now: int, s: S): Stage<S, T> {
    Stage(now, [], Pipe(0, [], false), s, [], [], [], [], [])
  }

  ghost predicate Reaches<S, T>(sh: Shape, f: Consumer<S, T>, st: Stage<S, T>, ms: seq<Move<S, T>>, end: Stage<S, T>)
    decreases ms
  {
    if ms == [] then st == end
    else Enabled(st, ms[0]) && Reaches(sh, f, Step(sh, f, st, ms[0]), ms[1..], end)
  }

  // -- What always holds ------------------------------------------------------------------

  /** The deliveries still to come, in order. */
  function Coming<T>(q: seq<Entry<Tag<T>>>): seq<Stamp<T>> {
    if q == [] then []
    else (match q[0].what case Arrive(item) => [Stamp(q[0].time, item)] case Retry => []) + Coming(q[1..])
  }

  function Items<T>(xs: seq<Stamp<T>>): seq<T> {
    if xs == [] then [] else [xs[0].item] + Items(xs[1..])
  }

  /** Every put, shifted by the latency of the stage. */
  function Shifted<T>(sh: Shape, xs: seq<Stamp<T>>): seq<Stamp<T>> {
    if xs == [] then [] else Shifted(sh, xs[..|xs| - 1]) + [Stamp(Due(sh, xs[|xs| - 1].time), xs[|xs| - 1].item)]
  }

  /** No delivery lies beyond `last`, and all have the default priority. */
  ghost predicate Near<T>(q: seq<Entry<Tag<T>>>, last: int) {
    q == [] || ((q[0].what.Arrive? ==> q[0].time <= last && q[0].prio == 0) && Near(q[1..], last))
  }

  ghost predicate Ordered<S, T>(sh: Shape, st: Stage<S, T>) {
    Sorted(st.agenda) && From(st.agenda, st.now) && Near(st.agenda, Due(sh, st.now))
  }

  /** Occupancy is what is on its way plus what is stalled, and there is one retry event per stall. */
  ghost predicate Occupancy<S, T>(sh: Shape, st: Stage<S, T>) {
    && st.pipe.inFlight == |Coming(st.agenda)| + |st.pipe.stalled| <= sh.slots
    && (st.pipe.retry <==> st.pipe.stalled != [])
    && Whats(st.agenda)[Tag.Retry] == Bit(st.pipe.retry)
  }

  /** Nothing is lost or doubled; first attempts come in put order, one latency after the put; stalls
      drain in stall order. */
  ghost predicate Flow<S, T>(sh: Shape, st: Stage<S, T>) {
    && Shifted(sh, st.puts) == st.tries + Coming(st.agenda)
    && st.stalls == st.drained + st.pipe.stalled
    && multiset(Items(st.tries)) == multiset(st.taken) + multiset(st.pipe.stalled)
    && (st.stalls == [] ==> st.taken == Items(st.tries))
  }

  ghost predicate Inv<S, T>(sh: Shape, st: Stage<S, T>) {
    Ordered(sh, st) && Occupancy(sh, st) && Flow(sh, st)
  }

  // -- Entering the stage -------------------------------------------------------------------

  function Stamps<T>(time: int, items: seq<T>): seq<Stamp<T>> {
    if items == [] then [] else [Stamp(time, items[0])] + Stamps(time, items[1..])
  }

  lemma {:induction false} NoneComing<T>(q: seq<Entry<Tag<T>>>, e: Entry<Tag<T>>)
    requires Sorted(q) && (q == [] || !NotAfter(q[0], e))
    requires Near(q, e.time) && e.prio == 0
    ensures Coming(q) == []
  {
    if q != [] {
      assert q[1..] != [] ==> NotAfter(q[0], q[1..][0]);
      NoneComing(q[1..], e);
    }
  }

  lemma {:induction false} ArrivalGoesLast<T>(q: seq<Entry<Tag<T>>>, e: Entry<Tag<T>>)
    requires Sorted(q) && e.what.Arrive?
    requires Near(q, e.time) && e.prio == 0
    ensures Coming(Insert(q, e)) == Coming(q) + [Stamp(e.time, e.what.item)]
  {
    if q != [] && NotAfter(q[0], e) {
      ArrivalGoesLast(q[1..], e);
      assert Insert(q, e)[1..] == Insert(q[1..], e);
    } else {
      NoneComing(q, e);
      assert ([e] + q)[1..] == q;
    }
  }

  lemma {:induction false} NearInsert<T>(q: seq<Entry<Tag<T>>>, e: Entry<Tag<T>>, last: int)
    requires Near(q, last) && (e.what.Arrive? ==> e.time <= last && e.prio == 0)
    ensures Near(Insert(q, e), last)
  {
    if q != [] && NotAfter(q[0], e) {
      NearInsert(q[1..], e, last);
      assert Insert(q, e)[1..] == Insert(q[1..], e);
    } else {
      assert ([e] + q)[1..] == q;
    }
  }

  lemma {:induction false} NearLater<T>(q: seq<Entry<Tag<T>>>, last: int, later: int)
    requires Near(q, last) && last <= later
    ensures Near(q, later)
  {
    if q != [] {
      NearLater(q[1..], last, later);
    }
  }

  lemma {:induction false} RetryKeepsComing<T>(q: seq<Entry<Tag<T>>>, e: Entry<Tag<T>>)
    requires e.what.Retry?
    ensures Coming(Insert(q, e)) == Coming(q)
  {
    if q != [] && NotAfter(q[0], e) {
      RetryKeepsComing(q[1..], e);
      assert Insert(q, e)[1..] == Insert(q[1..], e);
    } else {
      assert ([e] + q)[1..] == q;
    }
  }

  /** One item enters: it will arrive after everything already on its way. */
  lemma EnterOne<S, T>(sh: Shape, st: Stage<S, T>, item: T)
    requires sh.Valid() && Ordered(sh, st)
    ensures var st1 := st.(agenda := Insert(st.agenda, Entry(Due(sh, st.now), 0, Arrive(item))));
            && Ordered(sh, st1)
            && Coming(st1.agenda) == Coming(st.agenda) + [Stamp(Due(sh, st.now), item)]
            && Whats(st1.agenda)[Tag.Retry] == Whats(st.agenda)[Tag.Retry]
  {
    var e := Entry(Due(sh, st.now), 0, Tag.Arrive(item));
    InsertSorted(st.agenda, e);
    InsertFrom(st.agenda, e, st.now);
    NearInsert(st.agenda, e, e.time);
    WhatsInsert(st.agenda, e);
    ArrivalGoesLast(st.agenda, e);
  }

  lemma {:induction false} EnterAll<S, T>(sh: Shape, st: Stage<S, T>, entered: seq<T>)
    requires sh.Valid() && Ordered(sh, st)
    ensures var r := Enter(sh, st, entered);
            && r == st.(agenda := r.agenda, puts := r.puts)
            && Ordered(sh, r)
            && Coming(r.agenda) == Coming(st.agenda) + Stamps(Due(sh, st.now), entered)
            && Shifted(sh, r.puts) == Shifted(sh, st.puts) + Stamps(Due(sh, st.now), entered)
            && Whats(r.agenda)[Tag.Retry] == Whats(st.agenda)[Tag.Retry]
    decreases |entered|
  {
    if entered != [] {
      EnterOne(sh, st, entered[0]);
      var st1 := st.(agenda := Insert(st.agenda, Entry(Due(sh, st.now), 0, Arrive(entered[0]))),
                     puts := st.puts + [Stamp(st.now, entered[0])]);
      assert st1.puts[..|st.puts|] == st.puts;
      EnterAll(sh, st1, entered[1..]);
    }
  }

  lemma {:induction false} StampsLength<T>(time: int, items: seq<T>)
    ensures |Stamps(time, items)| == |items|
  {
    if items != [] {
      StampsLength(time, items[1..]);
    }
  }

  lemma AgainKeeps<S, T>(sh: Shape, st: Stage<S, T>, again: bool)
    requires sh.Valid() && Ordered(sh, st)
    ensures var r := Again(sh, st, again);
            && r == st.(agenda := r.agenda)
            && Ordered(sh, r)
            && Coming(r.agenda) == Coming(st.agenda)
            && Whats(r.agenda)[Tag.Retry] == Whats(st.agenda)[Tag.Retry] + Bit(again)
  {
    if again {
      var e := Entry(st.now + sh.period, 0, Tag<T>.Retry);
      InsertSorted(st.agenda, e);
      InsertFrom(st.agenda, e, st.now);
      NearInsert(st.agenda, e, Due(sh, st.now));
      WhatsInsert(st.agenda, e);
      RetryKeepsComing(st.agenda, e);
    }
  }

  // -- The events ---------------------------------------------------------------------------

  lemma {:induction false} ItemsAppend<T>(a: seq<Stamp<T>>, x: Stamp<T>)
    ensures Items(a + [x]) == Items(a) + [x.item]
  {
    if a != [] {
      ItemsAppend(a[1..], x);
      assert (a + [x])[1..] == a[1..] + [x];
    }
  }

  /** A retry event drains the stalled queue from the front, and asks for another exactly when some is left. */
  lemma {:induction false} DrainEffect<S, T>(sh: Shape, f: Consumer<S, T>, p: Pipe<T>, s: S)
    requires p.inFlight <= sh.slots
    ensures var o := Drain(sh, f, p, s);
            var n := |p.stalled| - |o.pipe.stalled|;
            && 0 <= n
            && o.pipe.stalled == p.stalled[n..]
            && o.pipe.inFlight == p.inFlight - n + |o.entered| <= sh.slots
            && (o.again <==> o.pipe.stalled != [])
            && (o.pipe.retry <==> p.retry || o.again)
    decreases |p.stalled|
  {
    if p.stalled != [] {
      var a := f(s, p.stalled[0], Room(sh, p));
      var entered := Fitting(sh, p, a.puts);
      if a.ok {
        DrainEffect(sh, f, p.(inFlight := p.inFlight + |entered| - 1, stalled := p.stalled[1..]), a.s);
      }
    }
  }

  /** The end of every event: what entered is on its way, and a retry is scheduled if asked for. */
  lemma FinishKeeps<S, T>(sh: Shape, st: Stage<S, T>, entered: seq<T>, again: bool)
    requires sh.Valid() && Ordered(sh, st) && Flow(sh, st)
    requires st.pipe.inFlight == |Coming(st.agenda)| + |st.pipe.stalled| + |entered| <= sh.slots
    requires st.pipe.retry <==> st.pipe.stalled != []
    requires Whats(st.agenda)[Tag.Retry] + Bit(again) == Bit(st.pipe.retry)
    ensures Inv(sh, Again(sh, Enter(sh, st, entered), again))
  {
    EnterAll(sh, st, entered);
    StampsLength(Due(sh, st.now), entered);
    AgainKeeps(sh, Enter(sh, st, entered), again);
    FlowGrows(sh, st, Again(sh, Enter(sh, st, entered), again), Stamps(Due(sh, st.now), entered));
  }

  lemma FlowGrows<S, T>(sh: Shape, st: Stage<S, T>, r: Stage<S, T>, more: seq<Stamp<T>>)
    requires Flow(sh, st) && r == st.(agenda := r.agenda, puts := r.puts)
    requires Coming(r.agenda) == Coming(st.agenda) + more && Shifted(sh, r.puts) == Shifted(sh, st.puts) + more
    ensures Flow(sh, r)
  {
    Assoc(st.tries, Coming(st.agenda), more);
  }

  /** The item under delivery is first in line of what was coming. */
  lemma TriedFlow<S, T>(sh: Shape, f: Consumer<S, T>, st: Stage<S, T>, item: T)
    requires Shifted(sh, st.puts) == st.tries + [Stamp(st.now, item)] + Coming(st.agenda)
    requires st.stalls == st.drained + st.pipe.stalled
    requires multiset(Items(st.tries)) == multiset(st.taken) + multiset(st.pipe.stalled)
    requires st.stalls == [] ==> st.taken == Items(st.tries)
    ensures Flow(sh, Tried(st, Deliver(sh, f, st.pipe, st.s, item), item))
  {
    ItemsAppend(st.tries, Stamp(st.now, item));
    Assoc(st.drained, st.pipe.stalled, [item]);
  }

  lemma ArrivedKeeps<S, T>(sh: Shape, f: Consumer<S, T>, st: Stage<S, T>, item: T)
    requires sh.Valid() && Ordered(sh, st)
    requires st.pipe.inFlight == 1 + |Coming(st.agenda)| + |st.pipe.stalled| <= sh.slots
    requires st.pipe.retry <==> st.pipe.stalled != []
    requires Whats(st.agenda)[Tag.Retry] == Bit(st.pipe.retry)
    requires Flow(sh, Tried(st, Deliver(sh, f, st.pipe, st.s, item), item))
    ensures Inv(sh, Arrived(sh, f, st, item))
  {
    var o := Deliver(sh, f, st.pipe, st.s, item);
    FinishKeeps(sh, Tried(st, o, item), o.entered, o.again);
  }

  lemma DrainedFlow<S, T>(sh: Shape, st: Stage<S, T>, o: Outcome<S, T>, n: nat)
    requires Flow(sh, st) && st.pipe.stalled != []
    requires n <= |st.pipe.stalled| && o.pipe.stalled == st.pipe.stalled[n..]
    ensures Flow(sh, Drained(st, o))
  {
    var gone := st.pipe.stalled[..n];
    assert st.pipe.stalled == gone + o.pipe.stalled;
    Assoc(st.drained, gone, o.pipe.stalled);
  }

  lemma RetriedKeeps<S, T>(sh: Shape, f: Consumer<S, T>, st: Stage<S, T>)
    requires sh.Valid() && Ordered(sh, st) && Flow(sh, st)
    requires st.pipe.inFlight == |Coming(st.agenda)| + |st.pipe.stalled| <= sh.slots
    requires st.pipe.stalled != [] && Whats(st.agenda)[Tag.Retry] == 0
    ensures Inv(sh, Retried(sh, f, st))
  {
    var o := Drain(sh, f, st.pipe.(retry := false), st.s);
    DrainEffect(sh, f, st.pipe.(retry := false), st.s);
    DrainedFlow(sh, st, o, |st.pipe.stalled| - |o.pipe.stalled|);
    FinishKeeps(sh, Drained(st, o), o.entered, o.again);
  }

  lemma CountOneMore<S, T>(sh: Shape, st: Stage<S, T>) returns (st1: Stage<S, T>)
    requires Ordered(sh, st) && Flow(sh, st)
    ensures st1 == st.(pipe := st.pipe.(inFlight := st.pipe.inFlight + 1))
    ensures Ordered(sh, st1) && Flow(sh, st1)
  {
    st1 := st.(pipe := st.pipe.(inFlight := st.pipe.inFlight + 1));
  }

  lemma PutKeeps<S, T>(sh: Shape, st: Stage<S, T>, item: T)
    requires sh.Valid() && Inv(sh, st)
    ensures Inv(sh, PutItem(sh, st, item))
  {
    if st.pipe.inFlight < sh.slots {
      var st1 := CountOneMore(sh, st);
      var r := Enter(sh, st1, [item]);
      assert PutItem(sh, st, item) == Again(sh, r, false) == r;
      FinishKeeps(sh, st1, [item], false);
    }
  }

  lemma WaitKeeps<S, T>(sh: Shape, st: Stage<S, T>, now: int, s: S)
    requires sh.Valid() && Inv(sh, st) && Enabled(st, Env(now, s))
    ensures Inv(sh, st.(now := now, s := s))
  {
    NearLater(st.agenda, Due(sh, st.now), Due(sh, now));
  }

  lemma FireArrival<S, T>(sh: Shape, f: Consumer<S, T>, st: Stage<S, T>)
    requires sh.Valid() && Inv(sh, st) && st.agenda != [] && st.agenda[0].what.Arrive?
    ensures Inv(sh, FireHead(sh, f, st))
  {
    var st1 := st.(now := st.agenda[0].time, agenda := st.agenda[1..]);
    var item := st.agenda[0].what.item;
    NearLater(st1.agenda, Due(sh, st.now), Due(sh, st1.now));
    Assoc(st.tries, [Stamp(st1.now, item)], Coming(st1.agenda));
    TriedFlow(sh, f, st1, item);
    ArrivedKeeps(sh, f, st1, item);
  }

  lemma FireRetry<S, T>(sh: Shape, f: Consumer<S, T>, st: Stage<S, T>)
    requires sh.Valid() && Inv(sh, st) && st.agenda != [] && st.agenda[0].what.Retry?
    ensures Inv(sh, FireHead(sh, f, st))
  {
    var st1 := st.(now := st.agenda[0].time, agenda := st.agenda[1..]);
    NearLater(st1.agenda, Due(sh, st.now), Due(sh, st1.now));
    assert Coming(st.agenda) == Coming(st1.agenda);
    RetriedKeeps(sh, f, st1);
  }

  lemma StepKeeps<S, T>(sh: Shape, f: Consumer<S, T>, st: Stage<S, T>, m: Move<S, T>)
    requires sh.Valid() && Inv(sh, st) && Enabled(st, m)
    ensures Inv(sh, Step(sh, f, st, m))
  {
    match m
    case Env(now, s) => WaitKeeps(sh, st, now, s);
    case Put(item) => PutKeeps(sh, st, item);
    case Fire =>
      if st.agenda[0].what.Arrive? {
        FireArrival(sh, f, st);
      } else {
        FireRetry(sh, f, st);
      }
  }

  /** Bounded occupancy, conservation, timing and order, after any sequence of moves. */
  lemma {:induction false} StageInvariant<S, T>(
    sh: Shape, f: Consumer<S, T>, st: Stage<S, T>, ms: seq<Move<S, T>>, end: Stage<S, T>)
    requires sh.Valid() && Inv(sh, st) && Reaches(sh, f, st, ms, end)
    ensures Inv(sh, end) && 0 <= end.pipe.inFlight <= sh.slots
    decreases ms
  {
    if ms != [] {
      StepKeeps(sh, f, st, ms[0]);
      StageInvariant(sh, f, Step(sh, f, st, ms[0]), ms[1..], end);
    }
  }

  lemma StartIsSound<S, T>(sh: Shape, now: int, s: S)
    requires sh.Valid()
    ensures Inv(sh, Start<S, T>(now, s))
  {
  }

  // -- What follows ----------------------------------------------------------------------------

  lemma {:induction false} ShiftedItems<T>(sh: Shape, xs: seq<Stamp<T>>)
    ensures Items(Shifted(sh, xs)) == Items(xs) && |Shifted(sh, xs)| == |xs|
  {
    if xs != [] {
      var n := |xs| - 1;
      ShiftedItems(sh, xs[..n]);
      ItemsAppend(Shifted(sh, xs[..n]), Stamp(Due(sh, xs[n].time), xs[n].item));
      ItemsAppend(xs[..n], xs[n]);
      assert xs == xs[..n] + [xs[n]];
    }
  }

  lemma {:induction false} ItemsConcat<T>(a: seq<Stamp<T>>, b: seq<Stamp<T>>)
    ensures Items(a + b) == Items(a) + Items(b)
  {
    if a == [] {
      assert a + b == b;
    } else {
      ItemsConcat(a[1..], b);
      assert (a + b)[1..] == a[1..] + b;
    }
  }

  /** Conservation, and order when nothing ever stalled. */
  lemma PipeConserves<S, T>(sh: Shape, st: Stage<S, T>)
    requires Inv(sh, st)
    ensures multiset(Items(st.puts)) ==
            multiset(st.taken) + multiset(st.pipe.stalled) + multiset(Items(Coming(st.agenda)))
    ensures st.stalls == [] ==> Items(st.puts) == st.taken + Items(Coming(st.agenda))
  {
    ShiftedItems(sh, st.puts);
    ItemsConcat(st.tries, Coming(st.agenda));
  }

  lemma {:induction false} ShiftedAt<T>(sh: Shape, xs: seq<Stamp<T>>, i: nat)
    requires i < |xs|
    ensures i < |Shifted(sh, xs)| && Shifted(sh, xs)[i] == Stamp(Due(sh, xs[i].time), xs[i].item)
    decreases |xs|
  {
    var n := |xs| - 1;
    ShiftedItems(sh, xs[..n]);
    if i < n {
      ShiftedAt(sh, xs[..n], i);
    }
  }

  /** The i-th first attempt is for the i-th put, exactly one latency later. */
  lemma AttemptsFollowPuts<S, T>(sh: Shape, st: Stage<S, T>, i: nat)
    requires Inv(sh, st) && i < |st.tries|
    ensures i < |st.puts| && st.tries[i] == Stamp(st.puts[i].time + sh.delay, st.puts[i].item)
  {
    ShiftedItems(sh, st.puts);
    assert Shifted(sh, st.puts)[i] == st.tries[i];
    ShiftedAt(sh, st.puts, i);
  }

  // -- A FIFO as consumer -------------------------------------------------------------------------

  /** A bounded FIFO and what was taken from it; `clear` is never called. */
  datatype Fifo<+T> = Fifo(q: seq<T>, gets: seq<T>)

  function FifoPut<T>(capacity: nat, s: Fifo<T>, item: T, room: int): Answer<Fifo<T>, T> {
    if capacity <= |s.q| then Answer(s, false, []) else Answer(s.(q := s.q + [item]), true, [])
  }

  /** The environment only takes items from the front. */
  ghost predicate OnlyGets<T>(s: Fifo<T>, s': Fifo<T>) {
    exists k: nat :: k <= |s.q| && s' == Fifo(s.q[k..], s.gets + s.q[..k])
  }

  ghost predicate FifoMoves<T>(sh: Shape, capacity: nat, st: Stage<Fifo<T>, T>, ms: seq<Move<Fifo<T>, T>>)
    decreases ms
  {
    var f := (s: Fifo<T>, item: T, room: int) => FifoPut(capacity, s, item, room);
    ms == [] ||
    (Enabled(st, ms[0]) && (ms[0].Env? ==> OnlyGets(st.s, ms[0].s))
      && FifoMoves(sh, capacity, Step(sh, f, st, ms[0]), ms[1..]))
  }

  /** What the FIFO was given is what it holds behind what was taken from it. */
  ghost predicate FifoOk<T>(capacity: nat, st: Stage<Fifo<T>, T>) {
    st.taken == st.s.gets + st.s.q && |st.s.q| <= capacity
  }

  lemma {:induction false} FifoDrain<T>(sh: Shape, capacity: nat, f: Consumer<Fifo<T>, T>, p: Pipe<T>, s: Fifo<T>)
    requires forall s, item, room :: f(s, item, room) == FifoPut(capacity, s, item, room)
    requires |s.q| <= capacity
    ensures var o := Drain(sh, f, p, s);
            var n := |p.stalled| - |o.pipe.stalled|;
            && 0 <= n && o.s.gets == s.gets && |o.s.q| <= capacity
            && o.s.q == s.q + p.stalled[..n]
    decreases |p.stalled|
  {
    if p.stalled != [] {
      var a := f(s, p.stalled[0], Room(sh, p));
      if a.ok {
        var entered := Fitting(sh, p, a.puts);
        var p1 := p.(inFlight := p.inFlight + |entered| - 1, stalled := p.stalled[1..]);
        FifoDrain(sh, capacity, f, p1, a.s);
        var o, o1 := Drain(sh, f, p, s), Drain(sh, f, p1, a.s);
        assert o.pipe == o1.pipe && o.s == o1.s && a.s == s.(q := s.q + [p.stalled[0]]);
        var n := |p1.stalled| - |o1.pipe.stalled|;
        assert p.stalled[..n + 1] == [p.stalled[0]] + p1.stalled[..n];
        Assoc(s.q, [p.stalled[0]], p1.stalled[..n]);
      }
    }
  }

  lemma FifoGets<T>(capacity: nat, st: Stage<Fifo<T>, T>, s: Fifo<T>)
    requires FifoOk(capacity, st) && OnlyGets(st.s, s)
    ensures st.taken == s.gets + s.q && |s.q| <= capacity
  {
    var k: nat :| k <= |st.s.q| && s == Fifo(st.s.q[k..], st.s.gets + st.s.q[..k]);
    assert st.s.q == st.s.q[..k] + st.s.q[k..];
    Assoc(st.s.gets, st.s.q[..k], st.s.q[k..]);
  }

  lemma FifoRetried<T>(sh: Shape, capacity: nat, f: Consumer<Fifo<T>, T>, st: Stage<Fifo<T>, T>)
    requires st.pipe.inFlight <= sh.slots && FifoOk(capacity, st)
    requires forall s, item, room :: f(s, item, room) == FifoPut(capacity, s, item, room)
    ensures FifoOk(capacity, Retried(sh, f, st))
  {
    var o := Drain(sh, f, st.pipe.(retry := false), st.s);
    FifoDrain(sh, capacity, f, st.pipe.(retry := false), st.s);
    Assoc(st.s.gets, st.s.q, st.pipe.stalled[..|st.pipe.stalled| - |o.pipe.stalled|]);
    EnterOther(sh, Drained(st, o), o.entered);
  }

  lemma FifoStep<T>(sh: Shape, capacity: nat, f: Consumer<Fifo<T>, T>, st: Stage<Fifo<T>, T>, m: Move<Fifo<T>, T>)
    requires sh.Valid() && Inv(sh, st) && FifoOk(capacity, st) && Enabled(st, m)
    requires forall s, item, room :: f(s, item, room) == FifoPut(capacity, s, item, room)
    requires m.Env? ==> OnlyGets(st.s, m.s)
    ensures FifoOk(capacity, Step(sh, f, st, m))
  {
    match m
    case Env(now, s) => FifoGets(capacity, st, s);
    case Put(item) =>
      if st.pipe.inFlight < sh.slots {
        EnterOther(sh, st.(pipe := st.pipe.(inFlight := st.pipe.inFlight + 1)), [item]);
      }
    case Fire =>
      var st1 := st.(now := st.agenda[0].time, agenda := st.agenda[1..]);
      if st.agenda[0].what.Arrive? {
        FifoArrived(sh, capacity, f, st1, st.agenda[0].what.item);
      } else {
        FifoRetried(sh, capacity, f, st1);
      }
  }

  lemma FifoArrived<T>(sh: Shape, capacity: nat, f: Consumer<Fifo<T>, T>, st: Stage<Fifo<T>, T>, item: T)
    requires FifoOk(capacity, st)
    requires forall s, item, room :: f(s, item, room) == FifoPut(capacity, s, item, room)
    ensures FifoOk(capacity, Arrived(sh, f, st, item))
  {
    var o := Deliver(sh, f, st.pipe, st.s, item);
    Assoc(st.s.gets, st.s.q, [item]);
    EnterOther(sh, Tried(st, o, item), o.entered);
  }

  lemma {:induction false} EnterOther<S, T>(sh: Shape, st: Stage<S, T>, entered: seq<T>)
    ensures var r := Enter(sh, st, entered); r == st.(agenda := r.agenda, puts := r.puts)
    decreases |entered|
  {
    if entered != [] {
      EnterOther(sh, st.(agenda := Insert(st.agenda, Entry(Due(sh, st.now), 0, Arrive(entered[0]))),
                         puts := st.puts + [Stamp(st.now, entered[0])]), entered[1..]);
    }
  }

  /** With `FIFO.put` downstream: puts = in flight + FIFO level + gets, and the FIFO never overflows. */
  lemma {:induction false} PipeIntoFifo<T>(
    sh: Shape, capacity: nat, st: Stage<Fifo<T>, T>, ms: seq<Move<Fifo<T>, T>>, end: Stage<Fifo<T>, T>)
    requires sh.Valid() && Inv(sh, st) && FifoOk(capacity, st) && FifoMoves(sh, capacity, st, ms)
    requires Reaches(sh, (s: Fifo<T>, item: T, room: int) => FifoPut(capacity, s, item, room), st, ms, end)
    ensures |end.s.q| <= capacity
    ensures multiset(Items(end.puts)) ==
            multiset(Items(Coming(end.agenda))) + multiset(end.pipe.stalled) + multiset(end.s.q) + multiset(end.s.gets)
    decreases ms
  {
    var f := (s: Fifo<T>, item: T, room: int) => FifoPut(capacity, s, item, room);
    if ms == [] {
      PipeConserves(sh, end);
    } else {
      StepKeeps(sh, f, st, ms[0]);
      FifoStep(sh, capacity, f, st, ms[0]);
      PipeIntoFifo(sh, capacity, Step(sh, f, st, ms[0]), ms[1..], end);
    }
  }

  // -- Order under stalls ---------------------------------------------------------------------------

  /** What was taken, and what waits behind it, is in the order of the delivery attempts. */
  ghost predicate InPutOrder<S, T>(st: Stage<S, T>) {
    Items(st.tries) == st.taken + st.pipe.stalled
  }

  /** The consumer takes an item on its first attempt while different items are stalled. */
  predicate Overtakes<S, T(==)>(sh: Shape, f: Consumer<S, T>, st: Stage<S, T>, m: Move<S, T>)
    requires Enabled(st, m)
  {
    m.Fire? && st.agenda[0].what.Arrive? &&
    var item := st.agenda[0].what.item;
    f(st.s, item, Room(sh, st.pipe)).ok && st.pipe.stalled + [item] != [item] + st.pipe.stalled
  }

  lemma ArrivalOrder<S, T>(sh: Shape, f: Consumer<S, T>, st: Stage<S, T>, item: T)
    requires InPutOrder(st)
    ensures InPutOrder(Arrived(sh, f, st, item)) <==>
            (f(st.s, item, Room(sh, st.pipe)).ok ==> st.pipe.stalled + [item] == [item] + st.pipe.stalled)
  {
    var o := Deliver(sh, f, st.pipe, st.s, item);
    EnterOther(sh, Tried(st, o, item), o.entered);
    ItemsAppend(st.tries, Stamp(st.now, item));
    var taken, stalled := st.taken, st.pipe.stalled;
    assert taken + stalled + [item] == taken + (stalled + [item]);
    assert taken + [item] + stalled == taken + ([item] + stalled);
    SamePrefix(taken, stalled + [item], [item] + stalled);
  }

  lemma SamePrefix<T>(a: seq<T>, b: seq<T>, c: seq<T>)
    ensures a + b == a + c <==> b == c
  {
    assert b == (a + b)[|a|..] && c == (a + c)[|a|..];
  }

  lemma RetryOrder<S, T>(sh: Shape, f: Consumer<S, T>, st: Stage<S, T>)
    requires InPutOrder(st) && st.pipe.inFlight <= sh.slots
    ensures InPutOrder(Retried(sh, f, st))
  {
    var p := st.pipe.(retry := false);
    DrainEffect(sh, f, p, st.s);
    var o := Drain(sh, f, p, st.s);
    EnterOther(sh, Drained(st, o), o.entered);
    var n := |st.pipe.stalled| - |o.pipe.stalled|;
    assert st.pipe.stalled == st.pipe.stalled[..n] + o.pipe.stalled;
    Assoc(st.taken, st.pipe.stalled[..n], o.pipe.stalled);
  }

  /** Items come out in the order they went in until, and only until, one overtakes a stalled one. */
  lemma OrderBreaksByOvertaking<S, T>(sh: Shape, f: Consumer<S, T>, st: Stage<S, T>, m: Move<S, T>)
    requires sh.Valid() && Inv(sh, st) && Enabled(st, m) && InPutOrder(st)
    ensures InPutOrder(Step(sh, f, st, m)) <==> !Overtakes(sh, f, st, m)
  {
    match m
    case Env(now, s) =>
    case Put(item) => EnterOther(sh, st.(pipe := st.pipe.(inFlight := st.pipe.inFlight + 1)), [item]);
    case Fire =>
      var st1 := st.(now := st.agenda[0].time, agenda := st.agenda[1..]);
      if st.agenda[0].what.Arrive? {
        ArrivalOrder(sh, f, st1, st.agenda[0].what.item);
      } else {
        RetryOrder(sh, f, st1);
      }
  }

  /** The order holds at every point of a run. */
  ghost predicate KeepsOrder<S, T>(
    sh: Shape, f: Consumer<S, T>, st: Stage<S, T>, ms: seq<Move<S, T>>, end: Stage<S, T>)
    requires Reaches(sh, f, st, ms, end)
    decreases ms
  {
    InPutOrder(st) && (ms == [] || KeepsOrder(sh, f, Step(sh, f, st, ms[0]), ms[1..], end))
  }

  ghost predicate NeverOvertakes<S, T>(
    sh: Shape, f: Consumer<S, T>, st: Stage<S, T>, ms: seq<Move<S, T>>, end: Stage<S, T>)
    requires Reaches(sh, f, st, ms, end)
    decreases ms
  {
    ms == [] ||
    (!Overtakes(sh, f, st, ms[0]) && NeverOvertakes(sh, f, Step(sh, f, st, ms[0]), ms[1..], end))
  }

  /** A whole run stays in order exactly when nothing overtakes in it.  With equal items a second overtaking can
      restore the order, so looking at the end of the run is not enough. */
  lemma {:induction false} RunsBreakByOvertaking<S, T>(
    sh: Shape, f: Consumer<S, T>, st: Stage<S, T>, ms: seq<Move<S, T>>, end: Stage<S, T>)
    requires sh.Valid() && Inv(sh, st) && InPutOrder(st) && Reaches(sh, f, st, ms, end)
    ensures KeepsOrder(sh, f, st, ms, end) <==> NeverOvertakes(sh, f, st, ms, end)
    decreases ms
  {
    if ms != [] {
      OrderBreaksByOvertaking(sh, f, st, ms[0]);
      if !Overtakes(sh, f, st, ms[0]) {
        StepKeeps(sh, f, st, ms[0]);
        RunsBreakByOvertaking(sh, f, Step(sh, f, st, ms[0]), ms[1..], end);
      }
    }
  }

  lemma PutOne<S, T>(sh: Shape, st: Stage<S, T>, item: T)
    ensures Enter(sh, st, [item]) ==
            st.(agenda := Insert(st.agenda, Entry(Due(sh, st.now), 0, Arrive(item))), puts := st.puts +
              [Stamp(st.now, item)])
  {
    assert [item][1..] == [];
  }

  /** Takes an item once it has refused one. */
  function Reluctant(): Consumer<bool, int> {
    (s: bool, item: int, room: int) => Answer(true, s, [])
  }

  /** Two items put in the same cycle, and the first of them refused. */
  lemma OneRefused(
    sh: Shape, st0: Stage<bool, int>) returns (st1: Stage<bool, int>, st2: Stage<bool, int>, st3: Stage<bool, int>)
    requires sh.Valid() && 2 <= sh.slots && st0 == Start(0, false)
    ensures st1 == Step(sh, Reluctant(), st0, Put(1)) && st2 == Step(sh, Reluctant(), st1, Put(2))
    ensures Enabled(st2, Fire) && st3 == Step(sh, Reluctant(), st2, Fire)
    ensures st3.agenda == [Entry(sh.delay, 0, Arrive(2)), Entry(sh.delay + sh.period, 0, Tag<int>.Retry)]
    ensures st3.now == sh.delay && st3.s && st3.pipe == Pipe(2, [1], true)
    ensures st3.puts == [Stamp(0, 1), Stamp(0, 2)] && st3.tries == [Stamp(sh.delay, 1)] && st3.taken == []
  {
    var e1, e2 := Entry(sh.delay, 0, Tag<int>.Arrive(1)), Entry(sh.delay, 0, Tag<int>.Arrive(2));
    var retry := Entry(sh.delay + sh.period, 0, Tag<int>.Retry);
    st1 := st0.(agenda := [e1], pipe := Pipe(1, [], false), puts := [Stamp(0, 1)]);
    PutOne(sh, st0.(pipe := Pipe(1, [], false)), 1);
    st2 := st1.(agenda := [e1, e2], pipe := Pipe(2, [], false), puts := [Stamp(0, 1), Stamp(0, 2)]);
    PutOne(sh, st1.(pipe := Pipe(2, [], false)), 2);
    assert [e1][1..] == [] && Insert([e1], e2) == [e1] + Insert([], e2);
    var st := st2.(now := sh.delay, agenda := [e2]);
    assert [e1, e2][1..] == [e2];
    var o := Outcome(Pipe(2, [1], true), true, [], true);
    assert Deliver(sh, Reluctant(), st.pipe, st.s, 1) == o;
    st3 := Again(sh, Tried(st, o, 1), true);
    assert Enter(sh, Tried(st, o, 1), []) == Tried(st, o, 1);
    assert [e2][1..] == [] && Insert([e2], retry) == [e2] + Insert([], retry);
  }

  /** Overtaking happens: item 2 is taken before item 1. */
  lemma OvertakingHappens(sh: Shape) returns (st: Stage<bool, int>)
    requires sh.Valid() && 2 <= sh.slots
    ensures Reaches(sh, Reluctant(), Start(0, false), [Move<bool, int>.Put(1), Put(2), Fire, Fire], st)
    ensures Items(st.puts) == [1, 2] && st.taken == [2] && st.pipe.stalled == [1] && !InPutOrder(st)
  {
    var f := Reluctant();
    var st0: Stage<bool, int> := Start(0, false);
    var st1, st2, st3 := OneRefused(sh, st0);
    st := Step(sh, f, st3, Fire);
    var popped := st3.(agenda := st3.agenda[1..]);
    var o := Outcome(Pipe(1, [1], true), true, [], false);
    assert Deliver(sh, f, st3.pipe, true, 2) == o;
    assert st == Enter(sh, Tried(popped, o, 2), []) == Tried(popped, o, 2);
    assert Reaches(sh, f, st3, [Move<bool, int>.Fire], st) by {
      assert [Move<bool, int>.Fire][1..] == [];
    }
    ReachesOn(sh, f, st2, Fire, [Move<bool, int>.Fire], st);
    ReachesOn(sh, f, st1, Put(2), [Move<bool, int>.Fire, Fire], st);
    ReachesOn(sh, f, st0, Put(1), [Move<bool, int>.Put(2), Fire, Fire], st);
    ItemsAppend([Stamp(0, 1)], Stamp(0, 2));
    ItemsAppend([], Stamp(0, 1));
    assert [Stamp(0, 1)] + [Stamp(0, 2)] == [Stamp(0, 1), Stamp(0, 2)] && [] + [Stamp(0, 1)] == [Stamp(0, 1)];
    ItemsAppend([Stamp(sh.delay, 1)], Stamp(sh.delay, 2));
    assert |Items(st.tries)| > 0 && Items(st.tries)[0] == 1;
  }

  lemma ReachesOn<S, T>(
    sh: Shape, f: Consumer<S, T>, st: Stage<S, T>, m: Move<S, T>, ms: seq<Move<S, T>>, end: Stage<S, T>)
    requires Enabled(st, m) && Reaches(sh, f, Step(sh, f, st, m), ms, end)
    ensures Reaches(sh, f, st, [m] + ms, end)
  {
    assert ([m] + ms)[1..] == ms;
  }
}

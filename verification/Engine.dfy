/**
 Ramulator as an opaque deterministic machine, and the few promises the model relies on.

 A request carries a `Closure`: what the C++ layer does when the engine serves it.  Everything the
 engine may do with time, ordering and refusals is left open.
 */
module Engine {
  import opened Prelude

  datatype Kind = READ | WRITE

  /** What a completion callback receives. */
  datatype Info = Info(addr: int, kind: Kind, arrive: int, depart: int, core: int)

  /** `Record` appends a completion event, `Counted` also bumps the drive counter, `NoOp` does nothing. */
  datatype Closure<+C> = NoOp | Record(core: int, user: Option<C>) | Counted(user: Option<C>)

  datatype Request<+C> = Request(addr: int, kind: Kind, core: int, closure: Closure<C>)

  /** A request handed back by the engine on the tick that served it. */
  datatype Served<+C> = Served(addr: int, kind: Kind, arrive: int, depart: int, core: int, closure: Closure<C>)

  /** A recorded completion and the user callback it is for. */
  datatype Note<+C> = Note(info: Info, user: Option<C>)

  datatype Engine<!E, !C> = Engine(
    tick: E -> (E, seq<Served<C>>),
    pending: E -> nat,
    send: (E, Request<C>) -> (E, bool))

  /** What the closure of a served request records. */
  function Noted<C>(r: Served<C>): seq<Note<C>> {
    match r.closure
    case NoOp => []
    case Record(core, user) => [Note(Info(r.addr, r.kind, r.arrive, r.depart, core), user)]
    case Counted(None) => []
    case Counted(Some(c)) => [Note(Info(r.addr, r.kind, r.arrive, r.depart, r.core), Some(c))]
  }

  /** A write completes on acceptance, at the current DRAM cycle. */
  function WriteNote<C>(addr: int, clk: int, core: int, user: Option<C>): Note<C> {
    Note(Info(addr, WRITE, clk, clk, core), user)
  }

  /** The completions of the accepted writes of a batch, in order. */
  function WriteNotes<C>(addrs: seq<int>, oks: seq<bool>, clk: int, core: int, cb: Option<C>): seq<Note<C>>
    requires |addrs| == |oks|
  {
    if addrs == [] then []
    else (if oks[0] then [WriteNote(addrs[0], clk, core, cb)] else [])
         + WriteNotes(addrs[1..], oks[1..], clk, core, cb)
  }

  /** The completion events that serving `s` records, in engine order. */
  function Recorded<C>(s: seq<Served<C>>): seq<Note<C>> {
    if s == [] then [] else Noted(s[0]) + Recorded(s[1..])
  }

  /** How often serving `s` bumps the drive counter. */
  function Bumps<C>(s: seq<Served<C>>): nat {
    if s == [] then 0 else (if s[0].closure.Counted? then 1 else 0) + Bumps(s[1..])
  }

  /** `n` engine cycles, with everything served in order. */
  function TickN<E, C>(g: Engine<E, C>, e: E, n: nat): (E, seq<Served<C>>) {
    if n == 0 then (e, [])
    else
      var (e1, s1) := g.tick(e);
      var (e2, s2) := TickN(g, e1, n - 1);
      (e2, s1 + s2)
  }

  /** What `run_until_progress` leaves behind: the engine, the cycles it took, the completions. */
  datatype Burst<+E, +C> = Burst(mem: E, cycles: nat, notes: seq<Note<C>>)

  /** A cycle makes progress when it records a completion or leaves the engine idle. */
  predicate Progress<E, C>(g: Engine<E, C>, e: E, s: seq<Served<C>>) {
    Recorded(s) != [] || g.pending(e) == 0
  }

  function UntilProgress<E, C>(g: Engine<E, C>, e: E, max: nat): (b: Burst<E, C>)
    requires 1 <= max
    ensures 1 <= b.cycles <= max
  {
    var (e1, s1) := g.tick(e);
    if Progress(g, e1, s1) || max == 1 then Burst(e1, 1, Recorded(s1))
    else
      var b := UntilProgress(g, e1, max - 1);
      b.(cycles := b.cycles + 1)
  }

  /** The addresses that serving `s` returns under closure `k`. */
  ghost function ServedUnder<C>(s: seq<Served<C>>, k: Closure<C>): multiset<int> {
    if s == [] then multiset{}
    else (if s[0].closure == k then multiset{s[0].addr} else multiset{}) + ServedUnder(s[1..], k)
  }

  // -- What is assumed of the engine -----------------------------------------
  // `flight(e, k)` is the multiset of addresses of the reads in `e` that carry closure `k`.

  type Flight<!E, !C> = (E, Closure<C>) -> multiset<int>

  ghost predicate AcceptedIsPending<E(!new), C(!new)>(g: Engine<E, C>) {
    forall e, r :: g.send(e, r).1 ==> g.pending(g.send(e, r).0) > 0
  }

  ghost predicate RefusedKeepsPending<E(!new), C(!new)>(g: Engine<E, C>) {
    forall e, r :: !g.send(e, r).1 ==> g.pending(g.send(e, r).0) == g.pending(e)
  }

  ghost predicate RefusedKeepsFlight<E(!new), C(!new)>(g: Engine<E, C>, flight: Flight<E, C>) {
    forall e, r, k :: !g.send(e, r).1 ==> flight(g.send(e, r).0, k) == flight(e, k)
  }

  /** Cycles that start with nothing pending serve nothing.  They may leave something pending, say a
      queued refresh. */
  ghost predicate IdleIsQuiet<E(!new), C(!new)>(g: Engine<E, C>) {
    forall e, n: nat :: g.pending(e) == 0 ==> TickN(g, e, n).1 == []
  }

  /** All that the clock chains need. */
  ghost predicate Prompt<E(!new), C(!new)>(g: Engine<E, C>) {
    AcceptedIsPending(g) && RefusedKeepsPending(g) && IdleIsQuiet(g)
  }

  ghost predicate SendAddsTheRead<E(!new), C(!new)>(g: Engine<E, C>, flight: Flight<E, C>) {
    forall e, r, k :: g.send(e, r).1 ==>
      flight(g.send(e, r).0, k) ==
      flight(e, k) + (if r.kind == READ && r.closure == k then multiset{r.addr} else multiset{})
  }

  /** A read leaves the engine exactly when a tick hands it back. */
  ghost predicate TickServesReads<E(!new), C(!new)>(g: Engine<E, C>, flight: Flight<E, C>) {
    forall e, k :: flight(e, k) == flight(g.tick(e).0, k) + ServedUnder(g.tick(e).1, k)
  }

  ghost predicate FlightIsPending<E(!new), C(!new)>(g: Engine<E, C>, flight: Flight<E, C>) {
    forall e, k :: g.pending(e) == 0 ==> flight(e, k) == multiset{}
  }

  ghost predicate OnlyReadsServed<E(!new), C(!new)>(g: Engine<E, C>) {
    forall e, i :: 0 <= i < |g.tick(e).1| ==> g.tick(e).1[i].kind == READ
  }

  ghost predicate Honest<E(!new), C(!new)>(g: Engine<E, C>, flight: Flight<E, C>) {
    && Prompt(g)
    && RefusedKeepsFlight(g, flight)
    && SendAddsTheRead(g, flight)
    && TickServesReads(g, flight)
    && FlightIsPending(g, flight)
    && OnlyReadsServed(g)
  }

  /** Assumed for the copy engine and SpMM only. */
  ghost predicate ReadRefusedOnlyWhenReading<E(!new), C(!new)>(g: Engine<E, C>, flight: Flight<E, C>) {
    forall e: E, r: Request<C> :: r.kind == READ && !g.send(e, r).1 ==> exists k :: flight(e, k) != multiset{}
  }

  /** No request of a drive is in the engine. */
  ghost predicate NoDrive<E, C(!new)>(flight: Flight<E, C>, e: E) {
    forall u: Option<C> :: flight(e, Counted(u)) == multiset{}
  }

  lemma {:induction false} ServedMember<C>(s: seq<Served<C>>, i: nat)
    requires i < |s|
    ensures s[i].addr in ServedUnder(s, s[i].closure)
  {
    if i > 0 {
      ServedMember(s[1..], i - 1);
    }
  }

  // -- Bulk ticking ------------------------------------------------------------

  lemma {:induction false} RecordedAppend<C>(a: seq<Served<C>>, b: seq<Served<C>>)
    ensures Recorded(a + b) == Recorded(a) + Recorded(b)
  {
    if a == [] {
      assert a + b == b;
    } else {
      RecordedAppend(a[1..], b);
      assert (a + b)[1..] == a[1..] + b && (a + b)[0] == a[0];
      var first, rest, more := Noted(a[0]), Recorded(a[1..]), Recorded(b);
      assert first + (rest + more) == (first + rest) + more;
    }
  }

  /** Ticking `m` then `n` cycles is ticking `m + n`, so `run` may be split anywhere. */
  lemma {:induction false} TickNSplit<E, C>(g: Engine<E, C>, e: E, m: nat, n: nat)
    ensures TickN(g, e, m + n) ==
            (TickN(g, TickN(g, e, m).0, n).0, TickN(g, e, m).1 + TickN(g, TickN(g, e, m).0, n).1)
  {
    if m == 0 {
      assert [] + TickN(g, e, n).1 == TickN(g, e, n).1;
    } else {
      var (e1, s1) := g.tick(e);
      TickNSplit(g, e1, m - 1, n);
      var b, c := TickN(g, e1, m - 1).1, TickN(g, TickN(g, e1, m - 1).0, n).1;
      assert (s1 + b) + c == s1 + (b + c);
    }
  }

  /** `UntilProgress` is plain ticking, stopped at the first cycle that makes progress or at the bound. */
  lemma {:induction false} UntilProgressIsFirst<E, C>(g: Engine<E, C>, e: E, max: nat)
    requires 1 <= max
    ensures var b := UntilProgress(g, e, max);
            && b.mem == TickN(g, e, b.cycles).0
            && b.notes == Recorded(TickN(g, e, b.cycles).1)
            && (b.cycles == max || b.notes != [] || g.pending(b.mem) == 0)
            && forall k :: 1 <= k < b.cycles ==>
                 Recorded(TickN(g, e, k).1) == [] && g.pending(TickN(g, e, k).0) > 0
  {
    var (e1, s1) := g.tick(e);
    assert TickN(g, e, 1) == (e1, s1) by {
      assert s1 + [] == s1;
    }
    if !Progress(g, e1, s1) && max != 1 {
      UntilProgressIsFirst(g, e1, max - 1);
      var b := UntilProgress(g, e1, max - 1);
      forall k | 1 <= k <= b.cycles
        ensures TickN(g, e, k + 1).0 == TickN(g, e1, k).0
        ensures Recorded(TickN(g, e, k + 1).1) == Recorded(TickN(g, e1, k).1)
      {
        RecordedAppend(s1, TickN(g, e1, k).1);
      }
      forall k | 1 <= k < b.cycles + 1
        ensures Recorded(TickN(g, e, k).1) == [] && g.pending(TickN(g, e, k).0) > 0
      {
        if k > 1 {
          assert TickN(g, e, (k - 1) + 1).0 == TickN(g, e1, k - 1).0;
        }
      }
    }
  }
}

/**
 The DRAM component on the event kernel, as functions on values.

 `Tick` takes the bound on its burst as an argument: `MaxBurst` gives the coalescing device, and 1
 gives the plain device that spends one event on every DRAM cycle.
 */
module Device {
  import opened Prelude
  import opened Agenda
  import opened Engine

  datatype Config = Config(period: int, priority: int, idleRefresh: bool, idleBase: nat, cores: int)
  {
    /** What the constructors insist on. */
    predicate Valid() {
      0 < period && 1 <= idleBase
    }

    function MaxIdle(): nat {
      16 * idleBase
    }
  }

  /** What a scheduled event will run: `Call` is a completion callback, `User` anything else. */
  datatype Tag<+C, +U> = Tick | IdleTick | Call(cb: C, info: Info) | User(u: U)

  /** A request the engine accepted, the callback its caller gave, and the DRAM cycle it was accepted in. */
  datatype Accepted<+C> = Accepted(addr: int, kind: Kind, core: int, user: Option<C>, at: int)

  /** Simulator and DRAM together.  Five histories that no step consults: the accepted requests, the
      completions handed over to the simulator, the completions in the order they were recorded, everything the
      engine has handed back, and the idle events since the last busy one. */
  datatype Dev<+E, +C, +U> = Dev(
    now: int,
    agenda: seq<Entry<Tag<C, U>>>,
    mem: E,
    clk: int,
    ticking: bool,
    idleTicking: bool,
    idleBatch: nat,
    completed: seq<Note<C>>,
    accepted: seq<Accepted<C>>,
    posted: seq<Note<C>>,
    recorded: seq<Note<C>>,
    served: seq<Served<C>>,
    naps: nat)

  /** Largest burst the engine is ever asked for. */
  const BURST_CAP := 1_000_000

  /** The horizon of the active `run`; None when it has no bound. */
  type Horizon = Option<int>

  predicate Within(t: int, h: Horizon) {
    h.None? || t <= h.value
  }

  predicate NoLater(a: Horizon, b: Horizon) {
    b.None? || (a.Some? && a.value <= b.value)
  }

  // -- Scheduling --------------------------------------------------------------

  function At<E, C, U>(d: Dev<E, C, U>, time: int, prio: int, tag: Tag<C, U>): Dev<E, C, U> {
    d.(agenda := Insert(d.agenda, Entry(time, prio, tag)))
  }

  function AfterCycles<E, C, U>(cfg: Config, d: Dev<E, C, U>, cycles: int, tag: Tag<C, U>): Dev<E, C, U> {
    At(d, d.now + cycles * cfg.period, 0, tag)
  }

  /** Take the next event off the agenda and move to its time. */
  function Pop<E, C, U>(d: Dev<E, C, U>): Dev<E, C, U>
    requires d.agenda != []
  {
    d.(now := d.agenda[0].time, agenda := d.agenda[1..])
  }

  predicate IsIdle<C, U>(t: Tag<C, U>) {
    t.IdleTick?
  }

  // -- Completions ---------------------------------------------------------------

  /** The collectors append to the deque of completions. */
  function Gather<E, C, U>(d: Dev<E, C, U>, notes: seq<Note<C>>): Dev<E, C, U> {
    d.(completed := d.completed + notes, recorded := d.recorded + notes)
  }

  /** Turn the recorded completions into events at the current time, oldest first. */
  function Deliver<E, C, U>(cfg: Config, d: Dev<E, C, U>): Dev<E, C, U>
    decreases |d.completed|
  {
    if d.completed == [] then d
    else
      var n := d.completed[0];
      var d1 := d.(completed := d.completed[1..]);
      Deliver(cfg, if n.user.None? then d1 else Post(cfg, d1, n.user.value, n.info))
  }

  function Post<E, C, U>(cfg: Config, d: Dev<E, C, U>, cb: C, info: Info): Dev<E, C, U> {
    At(d, d.now, cfg.priority, Call(cb, info)).(posted := d.posted + [Note(info, Some(cb))])
  }

  // -- The two clock chains ------------------------------------------------------

  function StartTicking<E, C, U>(cfg: Config, d: Dev<E, C, U>): Dev<E, C, U> {
    if d.ticking then d
    else
      var d1 := if d.idleTicking then d.(idleTicking := false, agenda := Drop(d.agenda, IsIdle)) else d;
      AfterCycles(cfg, d1.(ticking := true), 1, Tag.Tick)
  }

  function StartIdleTicking<E, C, U>(cfg: Config, d: Dev<E, C, U>): Dev<E, C, U> {
    if d.idleTicking then d
    else AfterCycles(cfg, d.(idleTicking := true, idleBatch := cfg.idleBase), cfg.idleBase, IdleTick)
  }

  /** Cycle `k` of a burst can run unseen: it lies before the next event and within the horizon. */
  predicate FreeCycle(period: int, now: int, next: Option<int>, h: Horizon, k: int) {
    (next.None? || now + k * period < next.value) && Within(now + k * period, h)
  }

  /** How many cycles one burst may take: the legal number, and the largest such number up to the cap. */
  function MaxBurst(period: int, now: int, next: Option<int>, h: Horizon): (n: int)
    requires 0 < period
    ensures 1 <= n <= 1_000_000
    ensures forall k :: 1 <= k < n ==> FreeCycle(period, now, next, h, k)
    ensures n == 1_000_000 || !FreeCycle(period, now, next, h, n)
  {
    // The divisor is positive, so Euclidean and floor division agree.
    var n0 := BURST_CAP;
    var n1 :=
      if next.None? then n0
      else if next.value - now <= 0 then 1
      else Min(n0, (next.value - now - 1) / period + 1);
    var n2 :=
      if h.None? then n1
      else if h.value - now < 0 then 1
      else Min(n1, (h.value - now) / period + 1);
    assert 1 <= n2 <= BURST_CAP
      && (forall k :: 1 <= k < n2 ==> FreeCycle(period, now, next, h, k))
      && (n2 == BURST_CAP || !FreeCycle(period, now, next, h, n2)) by {
      BurstIsMaximal(period, now, next, h, n1, n2);
    }
    n2
  }

  lemma FitsExactly(period: int, room: int, k: int)
    requires 0 < period && 0 <= room
    ensures k * period <= room <==> k < room / period + 1
  {
    var q := room / period;
    assert room == q * period + room % period;
    if k <= q {
      assert k * period <= q * period by { Monotone(period, k, q); }
    } else {
      assert (q + 1) * period <= k * period by { Monotone(period, q + 1, k); }
    }
  }

  lemma Monotone(period: int, a: int, b: int)
    requires 0 <= period && a <= b
    ensures a * period <= b * period
  {
    assert b * period - a * period == (b - a) * period;
  }

  lemma BurstIsMaximal(period: int, now: int, next: Option<int>, h: Horizon, n1: int, n2: int)
    requires 0 < period
    requires n1 == if next.None? then BURST_CAP
                   else if next.value - now <= 0 then 1
                   else Min(BURST_CAP, (next.value - now - 1) / period + 1)
    requires n2 == if h.None? then n1
                   else if h.value - now < 0 then 1
                   else Min(n1, (h.value - now) / period + 1)
    ensures 1 <= n2 <= BURST_CAP
    ensures forall k :: 1 <= k < n2 ==> FreeCycle(period, now, next, h, k)
    ensures n2 == BURST_CAP || !FreeCycle(period, now, next, h, n2)
  {
    forall k | 1 <= k
      ensures next.None? || now + k * period < next.value || n1 <= k
      ensures h.None? || now + k * period <= h.value || n2 <= k
      ensures next.Some? && n1 != BURST_CAP && k >= n1 ==> now + k * period >= next.value
      ensures h.Some? && n2 != n1 && k >= n2 ==> now + k * period > h.value
    {
      Monotone(period, 1, k);
      if next.Some? && next.value > now {
        FitsExactly(period, next.value - now - 1, k);
      }
      if h.Some? && h.value >= now {
        FitsExactly(period, h.value - now, k);
      }
    }
  }

  function Min(a: int, b: int): int {
    if a <= b then a else b
  }

  function NextTime<X>(q: seq<Entry<X>>): Option<int> {
    if q == [] then None else Some(q[0].time)
  }

  /** The tick event's body, after the event itself was taken off the agenda. */
  function TickBody<E, C, U>(cfg: Config, g: Engine<E, C>, d: Dev<E, C, U>, max: nat): Dev<E, C, U>
    requires 1 <= max
  {
    Settle(cfg, g, d, UntilProgress(g, d.mem, max))
  }

  /** Both clocks after a burst: the simulator jumps to the cycle the burst stopped at. */
  function Advance<E, C, U>(cfg: Config, d: Dev<E, C, U>, b: Burst<E, C>): Dev<E, C, U> {
    Gather(d.(mem := b.mem, clk := d.clk + b.cycles, now := d.now + (b.cycles - 1) * cfg.period), b.notes)
  }

  /** Account for a burst, deliver, and keep or leave the busy chain. */
  function Settle<E, C, U>(cfg: Config, g: Engine<E, C>, d: Dev<E, C, U>, b: Burst<E, C>): Dev<E, C, U> {
    GoOn(cfg, g, Deliver(cfg, Advance(cfg, d, b))).(served := d.served + TickN(g, d.mem, b.cycles).1, naps := 0)
  }

  /** Keep or leave the busy chain. */
  function GoOn<E, C, U>(cfg: Config, g: Engine<E, C>, d: Dev<E, C, U>): Dev<E, C, U> {
    if g.pending(d.mem) > 0 then AfterCycles(cfg, d, 1, Tag.Tick)
    else
      var d1 := d.(ticking := false);
      if cfg.idleRefresh then StartIdleTicking(cfg, d1) else d1
  }

  function IdleBody<E, C, U>(cfg: Config, g: Engine<E, C>, d: Dev<E, C, U>): Dev<E, C, U> {
    var (e, s) := TickN(g, d.mem, d.idleBatch);
    var d1 := Gather(d.(mem := e, clk := d.clk + d.idleBatch, served := d.served + s, naps := d.naps + 1), Recorded(s));
    if g.pending(e) > 0 then
      StartTicking(cfg, d1.(idleTicking := false, idleBatch := cfg.idleBase))
    else
      var next: nat := Min(d.idleBatch * 2, cfg.MaxIdle());
      AfterCycles(cfg, d1.(idleBatch := next), next, IdleTick)
  }

  // -- Requests -------------------------------------------------------------------

  predicate CoreOk(cfg: Config, core: int) {
    0 <= core < cfg.cores
  }

  /** What the C++ layer attaches: only a read is answered by the engine. */
  function ClosureFor<C>(kind: Kind, core: int, cb: Option<C>): Closure<C> {
    if kind == READ then Record(core, cb) else NoOp
  }

  /** Hand one request to the engine and note it if it is accepted. */
  function Send<E, C, U>(
    g: Engine<E, C>, d: Dev<E, C, U>, addr: int, kind: Kind, core: int, cb: Option<C>): (Dev<E, C, U>, bool) {
    var (e, ok) := g.send(d.mem, Request(addr, kind, core, ClosureFor(kind, core, cb)));
    (d.(mem := e, accepted := if ok then d.accepted + [Accepted(addr, kind, core, cb, d.clk)] else d.accepted), ok)
  }

  function SendAll<E, C, U>(g: Engine<E, C>, d: Dev<E, C, U>, addrs: seq<int>, kind: Kind, core: int, cb: Option<C>)
    : (r: (Dev<E, C, U>, seq<bool>))
    ensures |r.1| == |addrs|
    decreases addrs
  {
    if addrs == [] then (d, [])
    else
      var (d1, ok) := Send(g, d, addrs[0], kind, core, cb);
      var (d2, oks) := SendAll(g, d1, addrs[1..], kind, core, cb);
      (d2, [ok] + oks)
  }

  function Read<E, C, U>(cfg: Config, g: Engine<E, C>, d: Dev<E, C, U>, addr: int, core: int, cb: Option<C>)
    : (Dev<E, C, U>, Result<bool>)
  {
    if !CoreOk(cfg, core) then (d, Raised)
    else
      var (d1, ok) := Send(g, d, addr, READ, core, cb);
      (if ok then StartTicking(cfg, d1) else d1, Ok(ok))
  }

  function Write<E, C, U>(cfg: Config, g: Engine<E, C>, d: Dev<E, C, U>, addr: int, core: int, cb: Option<C>)
    : (Dev<E, C, U>, Result<bool>)
  {
    if !CoreOk(cfg, core) then (d, Raised)
    else
      var (d1, ok) := Send(g, d, addr, WRITE, core, cb);
      if !ok then (d1, Ok(false))
      else
        var d2 := Gather(d1, [WriteNote(addr, d1.clk, core, cb)]);
        (StartTicking(cfg, Deliver(cfg, d2)), Ok(true))
  }

  function Reads<E, C, U>(cfg: Config, g: Engine<E, C>, d: Dev<E, C, U>, addrs: seq<int>, core: int, cb: Option<C>)
    : (Dev<E, C, U>, Result<seq<bool>>)
  {
    if !CoreOk(cfg, core) then (d, Raised)
    else
      var (d1, oks) := SendAll(g, d, addrs, READ, core, cb);
      (if true in oks then StartTicking(cfg, d1) else d1, Ok(oks))
  }

  function Writes<E, C, U>(cfg: Config, g: Engine<E, C>, d: Dev<E, C, U>, addrs: seq<int>, core: int, cb: Option<C>)
    : (Dev<E, C, U>, Result<seq<bool>>)
  {
    if !CoreOk(cfg, core) then (d, Raised)
    else
      var (d1, oks) := SendAll(g, d, addrs, WRITE, core, cb);
      var d2 := Gather(d1, WriteNotes(addrs, oks, d1.clk, core, cb));
      (if true in oks then StartTicking(cfg, Deliver(cfg, d2)) else d2, Ok(oks))
  }
}

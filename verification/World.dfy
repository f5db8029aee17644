/**
 A closed event system: one simulator, one DRAM, and arbitrary host code.

 The host is any deterministic machine.  It is given the event that fired, or the reply to its last
 call, and answers with its next call, with `Done` at the end of a callback, or with `Raise` when an
 exception leaves the callback.  Event ids are opaque to it: it holds handles 0, 1, 2, ... in the
 order of its own scheduling calls.
 */
module World {
  import opened Prelude
  import opened Agenda
  import opened Engine
  import opened Device

  /** An event scheduled by the host, under the handle it was given. */
  datatype Named<+V> = Named(handle: nat, v: V)

  /** Calls on the simulator. */
  datatype SimCall<+V> =
    | Schedule(delay: int, prio: int, v: V)
    | ScheduleAt(time: int, prio: int, v: V)
    | Cancel(handle: nat)

  /** Calls on the DRAM. */
  datatype DramCall<+C> =
    | DoRead(addr: int, core: int, cb: Option<C>)
    | DoWrite(addr: int, core: int, cb: Option<C>)
    | DoReads(addrs: seq<int>, core: int, cb: Option<C>)
    | DoWrites(addrs: seq<int>, core: int, cb: Option<C>)

  /** What host code can do next. */
  datatype Action<+C, +V> = OnSim(s: SimCall<V>) | OnDram(m: DramCall<C>) | Observe | Done | Raise

  /** What host code is told. `Between` starts the code that runs before each `run` call. */
  datatype Stim<+C, +V> =
    | Between
    | Completion(cb: C, info: Info)
    | Woken(handle: nat, v: V)
    | Scheduled(id: Result<nat>)
    | Cancelled(live: bool)
    | Sent(ok: Result<bool>)
    | SentAll(oks: Result<seq<bool>>)
    | Observed(now: int, events: nat, next: Option<int>, inDram: nat, cycles: int)

  type Host<!H, !C, !V> = (H, Stim<C, V>) -> (H, Action<C, V>)

  /** A user callback starting at a time. */
  datatype Firing<+C, +V> = Firing(time: int, stim: Stim<C, V>)

  /** `ctl` is what the host is about to be told; None means the simulator has control. */
  datatype World<E, C, V, H> = World(
    dev: Dev<E, C, Named<V>>,
    host: H,
    ctl: Option<Stim<C, V>>,
    raised: bool,
    handles: nat,
    trace: seq<Firing<C, V>>)

  /** The burst component, or the plain one that spends an event on every DRAM cycle. */
  datatype Mode = Coalescing | EveryCycle

  predicate Names<C, V>(tag: Tag<C, Named<V>>, handle: nat) {
    tag.User? && tag.u.handle == handle
  }

  // -- One call made by the host ---------------------------------------------------

  function PushUser<E, C, V, H>(w: World<E, C, V, H>, time: int, prio: int, v: V): World<E, C, V, H> {
    w.(dev := At(w.dev, time, prio, User(Named(w.handles, v))), handles := w.handles + 1,
       ctl := Some(Scheduled(Ok(w.handles))))
  }

  function ActSim<E, C, V, H>(w: World<E, C, V, H>, s: SimCall<V>): World<E, C, V, H> {
    match s
    case Schedule(delay, prio, v) =>
      if delay < 0 then w.(ctl := Some(Scheduled(Raised))) else PushUser(w, w.dev.now + delay, prio, v)
    case ScheduleAt(time, prio, v) =>
      if time < w.dev.now then w.(ctl := Some(Scheduled(Raised))) else PushUser(w, time, prio, v)
    case Cancel(handle) =>
      var q := Drop(w.dev.agenda, (t: Tag<C, Named<V>>) => Names(t, handle));
      w.(dev := w.dev.(agenda := q), ctl := Some(Cancelled(|q| < |w.dev.agenda|)))
  }

  function ActDram<E, C, U, V>(
    cfg: Config, g: Engine<E, C>, d: Dev<E, C, U>, m: DramCall<C>): (Dev<E, C, U>, Stim<C, V>) {
    match m
    case DoRead(addr, core, cb) => var (d', ok) := Read(cfg, g, d, addr, core, cb); (d', Sent(ok))
    case DoWrite(addr, core, cb) => var (d', ok) := Write(cfg, g, d, addr, core, cb); (d', Sent(ok))
    case DoReads(addrs, core, cb) => var (d', oks) := Reads(cfg, g, d, addrs, core, cb); (d', SentAll(oks))
    case DoWrites(addrs, core, cb) => var (d', oks) := Writes(cfg, g, d, addrs, core, cb); (d', SentAll(oks))
  }

  function Act<E, C, V, H>(cfg: Config, g: Engine<E, C>, w: World<E, C, V, H>, a: Action<C, V>): World<E, C, V, H>
  {
    match a
    case OnSim(s) => ActSim(w, s)
    case OnDram(m) =>
      var (d, reply) := ActDram(cfg, g, w.dev, m);
      w.(dev := d, ctl := Some(reply))
    case Observe =>
      w.(ctl := Some(Observed(w.dev.now, |w.dev.agenda|, NextTime(w.dev.agenda), g.pending(w.dev.mem), w.dev.clk)))
    case Done => w.(ctl := None)
    case Raise => w.(ctl := None, raised := true)
  }

  // -- One step of a run -----------------------------------------------------------

  /** The simulator stops: an exception left a callback, or no event is due within the horizon. */
  predicate Halted<E, C, V, H>(w: World<E, C, V, H>, h: Horizon) {
    w.raised || (w.ctl.None? && (w.dev.agenda == [] || !Within(w.dev.agenda[0].time, h)))
  }

  /** The bound `_tick` passes to the engine, once the tick event is off the agenda. */
  function BurstBound<E, C, U>(mode: Mode, cfg: Config, d: Dev<E, C, U>, h: Horizon): (n: nat)
    requires cfg.Valid()
    ensures 1 <= n
    ensures forall k :: 1 <= k < n ==> FreeCycle(cfg.period, d.now, NextTime(d.agenda), h, k)
  {
    if mode.Coalescing? then MaxBurst(cfg.period, d.now, NextTime(d.agenda), h) else 1
  }

  function Fire<E, C, V, H>(
    mode: Mode, cfg: Config, g: Engine<E, C>, w: World<E, C, V, H>, h: Horizon): World<E, C, V, H>
    requires cfg.Valid() && w.dev.agenda != []
  {
    var d := Pop(w.dev);
    match w.dev.agenda[0].what
    case Tick => w.(dev := TickBody(cfg, g, d, BurstBound(mode, cfg, d, h)))
    case IdleTick => w.(dev := IdleBody(cfg, g, d))
    case Call(cb, info) => Invoke(w.(dev := d), Completion(cb, info))
    case User(u) => Invoke(w.(dev := d), Woken(u.handle, u.v))
  }

  function Invoke<E, C, V, H>(w: World<E, C, V, H>, s: Stim<C, V>): World<E, C, V, H> {
    w.(ctl := Some(s), trace := w.trace + [Firing(w.dev.now, s)])
  }

  function Step<E, C, V, H>(
    mode: Mode, cfg: Config, g: Engine<E, C>, host: Host<H, C, V>, w: World<E, C, V, H>, h: Horizon)
    : World<E, C, V, H>
    requires cfg.Valid() && !Halted(w, None)
  {
    if w.ctl.Some? then
      var (host', a) := host(w.host, w.ctl.value);
      Act(cfg, g, w.(host := host'), a)
    else Fire(mode, cfg, g, w, h)
  }

  /** At most `n` steps of `run(until = h)`. */
  function Run<E, C, V, H>(
    mode: Mode, cfg: Config, g: Engine<E, C>, host: Host<H, C, V>, w: World<E, C, V, H>, h: Horizon, n: nat)
    : World<E, C, V, H>
    requires cfg.Valid()
    decreases n
  {
    if n == 0 || Halted(w, h) then w else Run(mode, cfg, g, host, Step(mode, cfg, g, host, w, h), h, n - 1)
  }
}

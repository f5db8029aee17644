/**
 Several DRAM components on one simulator, with arbitrary host code.

 The components share the agenda, so each clips its bursts by the next live event of any other.  Component `i` sees
 its own events as the tags of module Device and everything else as `User`; its steps are those of that module.
 */
module Fleet {
  import opened Prelude
  import opened Agenda
  import opened Engine
  import opened Device
  import opened World
  import Chains

  /** Whose event it is: a clock chain or a completion of component `i`, or an event of the host. */
  datatype Job<+C, +V> = Busy(i: nat) | Idle(i: nat) | Answer(i: nat, cb: C, info: Info) | Hosted(u: Named<V>)

  /** An event as component `i` sees it. */
  function See<C, V>(i: nat, j: Job<C, V>): Tag<C, Job<C, V>> {
    match j
    case Busy(k) => if k == i then Tag.Tick else Tag.User(j)
    case Idle(k) => if k == i then Tag.IdleTick else Tag.User(j)
    case Answer(k, cb, info) => if k == i then Tag.Call(cb, info) else Tag.User(j)
    case Hosted(_) => Tag.User(j)
  }

  /** The way back. */
  function Sign<C, V>(i: nat, t: Tag<C, Job<C, V>>): Job<C, V> {
    match t
    case Tick => Busy(i)
    case IdleTick => Idle(i)
    case Call(cb, info) => Answer(i, cb, info)
    case User(j) => j
  }

  function Seen<C, V>(i: nat, q: seq<Entry<Job<C, V>>>): seq<Entry<Tag<C, Job<C, V>>>> {
    if q == [] then [] else [Entry(q[0].time, q[0].prio, See(i, q[0].what))] + Seen(i, q[1..])
  }

  function Signed<C, V>(i: nat, q: seq<Entry<Tag<C, Job<C, V>>>>): seq<Entry<Job<C, V>>> {
    if q == [] then [] else [Entry(q[0].time, q[0].prio, Sign(i, q[0].what))] + Signed(i, q[1..])
  }

  type Unit<E, C, V> = Dev<E, C, Job<C, V>>

  /** A component and the engine it runs on. */
  datatype Part<!E, !C> = Part(cfg: Config, g: Engine<E, C>)

  type Rig<!E, !C> = seq<Part<E, C>>

  predicate ValidRig<E, C>(rig: Rig<E, C>) {
    forall i :: 0 <= i < |rig| ==> rig[i].cfg.Valid()
  }

  /** `units[i]` holds the fields of component `i`; time and agenda are those of the simulator. */
  datatype Fleet<E, C, V, H> = Fleet(
    now: int,
    agenda: seq<Entry<Job<C, V>>>,
    units: seq<Unit<E, C, V>>,
    host: H,
    ctl: Option<Stim<C, V>>,
    raised: bool,
    handles: nat,
    trace: seq<Firing<C, V>>)

  /** The simulator as component `i` sees it. */
  function Focus<E, C, V, H>(f: Fleet<E, C, V, H>, i: nat): Unit<E, C, V>
    requires i < |f.units|
  {
    f.units[i].(now := f.now, agenda := Seen(i, f.agenda))
  }

  /** Component `i` has moved to `d`. */
  function Moved<E, C, V, H>(f: Fleet<E, C, V, H>, i: nat, d: Unit<E, C, V>): Fleet<E, C, V, H>
    requires i < |f.units|
  {
    f.(now := d.now, agenda := Signed(i, d.agenda), units := f.units[i := d.(now := 0, agenda := [])])
  }

  // -- Host code ---------------------------------------------------------------------

  /** Host code names the component that its next call is for. */
  type Crew<!H, !C, !V> = (H, Stim<C, V>) -> (H, nat, Action<C, V>)

  function Push<E, C, V, H>(f: Fleet<E, C, V, H>, time: int, prio: int, v: V): Fleet<E, C, V, H> {
    f.(agenda := Insert(f.agenda, Entry(time, prio, Hosted(Named(f.handles, v)))), handles := f.handles + 1,
       ctl := Some(Scheduled(Ok(f.handles))))
  }

  function CallSim<E, C, V, H>(f: Fleet<E, C, V, H>, s: SimCall<V>): Fleet<E, C, V, H> {
    match s
    case Schedule(delay, prio, v) =>
      if delay < 0 then f.(ctl := Some(Scheduled(Raised))) else Push(f, f.now + delay, prio, v)
    case ScheduleAt(time, prio, v) =>
      if time < f.now then f.(ctl := Some(Scheduled(Raised))) else Push(f, time, prio, v)
    case Cancel(handle) =>
      var q := Drop(f.agenda, (j: Job<C, V>) => j.Hosted? && j.u.handle == handle);
      f.(agenda := q, ctl := Some(Cancelled(|q| < |f.agenda|)))
  }

  /** A call on a component that does not exist raises. */
  function Perform<E, C, V, H>(rig: Rig<E, C>, f: Fleet<E, C, V, H>, i: nat, a: Action<C, V>): Fleet<E, C, V, H>
    requires |f.units| == |rig|
  {
    match a
    case OnSim(s) => CallSim(f, s)
    case OnDram(m) =>
      if |rig| <= i then f.(ctl := None, raised := true)
      else
        var (d, reply) := ActDram<E, C, Job<C, V>, V>(rig[i].cfg, rig[i].g, Focus(f, i), m);
        Moved(f, i, d).(ctl := Some(reply))
    case Observe =>
      if |rig| <= i then f.(ctl := None, raised := true)
      else
        f.(ctl := Some(Observed(f.now, |f.agenda|, NextTime(f.agenda), rig[i].g.pending(f.units[i].mem),
                                f.units[i].clk)))
    case Done => f.(ctl := None)
    case Raise => f.(ctl := None, raised := true)
  }

  // -- One step of a run -----------------------------------------------------------------

  predicate Halted<E, C, V, H>(f: Fleet<E, C, V, H>, h: Horizon) {
    f.raised || (f.ctl.None? && (f.agenda == [] || !Within(f.agenda[0].time, h)))
  }

  /** The next event leaves the agenda. */
  function Popped<E, C, V, H>(f: Fleet<E, C, V, H>): Fleet<E, C, V, H>
    requires f.agenda != []
  {
    f.(now := f.agenda[0].time, agenda := f.agenda[1..])
  }

  function Invoke<E, C, V, H>(f: Fleet<E, C, V, H>, s: Stim<C, V>): Fleet<E, C, V, H> {
    f.(ctl := Some(s), trace := f.trace + [Firing(f.now, s)])
  }

  function Fire<E, C, V, H>(mode: Mode, rig: Rig<E, C>, f: Fleet<E, C, V, H>, h: Horizon): Fleet<E, C, V, H>
    requires |f.units| == |rig| && ValidRig(rig) && f.agenda != []
  {
    var f1 := Popped(f);
    match f.agenda[0].what
    case Busy(i) =>
      if |rig| <= i then f1
      else
        var d := Focus(f1, i);
        Moved(f1, i, TickBody(rig[i].cfg, rig[i].g, d, BurstBound(mode, rig[i].cfg, d, h)))
    case Idle(i) => if |rig| <= i then f1 else Moved(f1, i, IdleBody(rig[i].cfg, rig[i].g, Focus(f1, i)))
    case Answer(_, cb, info) => Invoke(f1, Completion(cb, info))
    case Hosted(u) => Invoke(f1, Woken(u.handle, u.v))
  }

  function Step<E, C, V, H>(
    mode: Mode, rig: Rig<E, C>, crew: Crew<H, C, V>, f: Fleet<E, C, V, H>, h: Horizon): Fleet<E, C, V, H>
    requires |f.units| == |rig| && ValidRig(rig) && !Halted(f, h)
  {
    if f.ctl.Some? then
      var (host', i, a) := crew(f.host, f.ctl.value);
      Perform(rig, f.(host := host'), i, a)
    else Fire(mode, rig, f, h)
  }

  // -- A new component ---------------------------------------------------------------------

  /** The fields of a component right before its constructor returns. */
  function NewUnit<E, C, V, H>(f: Fleet<E, C, V, H>, cfg: Config, mem: E): Unit<E, C, V> {
    Dev(f.now, Seen(|f.units|, f.agenda), mem, 0, false, false, cfg.idleBase, [], [], [], [], [], 0)
  }

  /** It joins a simulator on which others may be at work. */
  function Join<E, C, V, H>(f: Fleet<E, C, V, H>, cfg: Config, mem: E): Fleet<E, C, V, H> {
    var d := NewUnit(f, cfg, mem);
    Moved(f.(units := f.units + [d]), |f.units|, Chains.Begun(cfg, d))
  }
}

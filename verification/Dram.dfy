/**
 The DRAM component as the object it is, on the simulator object and on the engine wrapper.

 Every method is proved against the function of the same name in module Device, applied to `View()`:
 the agenda without event ids, and the two clocks.
 */
module Dram {
  import opened Prelude
  import opened Agenda
  import opened Engine
  import opened Kernel
  import opened Erasure
  import D = Device
  import Chains
  import S = Simulator
  import M = MemorySystem
  import CE = CoreEngine

  type Tags<+C, +U> = Queue<D.Tag<C, U>>

  /** What the collectors do: they append to the deque of completions. */
  function Collect<C>(): M.Call<seq<Note<C>>, C> {
    (q: seq<Note<C>>, n: Note<C>) => (q + [n], None)
  }

  lemma {:induction false} CollectAll<C>(q: seq<Note<C>>, notes: seq<Note<C>>)
    ensures M.Dispatched(Collect(), q, notes) == (q + notes, None)
    decreases |notes|
  {
    if notes == [] {
      assert q + notes == q;
    } else {
      CollectAll(q + [notes[0]], notes[1..]);
      assert q + [notes[0]] + notes[1..] == q + notes;
    }
  }

  lemma {:induction false} CollectWrites<C>(
    q: seq<Note<C>>, addrs: seq<int>, oks: seq<bool>, clk: int, core: int, cb: Option<C>)
    requires |oks| == |addrs|
    ensures M.WritesFired(Collect(), q, addrs, oks, clk, core, cb) ==
            (q + WriteNotes(addrs, oks, clk, core, cb), None)
    decreases |oks|
  {
    if oks == [] {
      assert q + [] == q;
    } else if !oks[0] {
      CollectWrites(q, addrs[1..], oks[1..], clk, core, cb);
      assert WriteNotes(addrs, oks, clk, core, cb) == WriteNotes(addrs[1..], oks[1..], clk, core, cb);
    } else {
      var n := WriteNote(addrs[0], clk, core, cb);
      CollectWrites(q + [n], addrs[1..], oks[1..], clk, core, cb);
      var rest := WriteNotes(addrs[1..], oks[1..], clk, core, cb);
      assert q + [n] + rest == q + ([n] + rest);
    }
  }

  /** The bulk send of the wrapper is the one of the device. */
  lemma {:induction false} SendManyIsSendAll<E, C, U>(
    g: Engine<E, C>, d: D.Dev<E, C, U>, addrs: seq<int>, kind: Kind, core: int, cb: Option<C>)
    ensures var rs := CE.Requests(addrs, kind, core, D.ClosureFor(kind, core, cb));
            var (r, oks) := D.SendAll(g, d, addrs, kind, core, cb);
            CE.SendMany(g, d.mem, rs) == (r.mem, oks) && r == d.(mem := r.mem, accepted := r.accepted)
    decreases addrs
  {
    if addrs != [] {
      var rs := CE.Requests(addrs, kind, core, D.ClosureFor(kind, core, cb));
      assert rs[1..] == CE.Requests(addrs[1..], kind, core, D.ClosureFor(kind, core, cb));
      var (d1, ok) := D.Send(g, d, addrs[0], kind, core, cb);
      SendManyIsSendAll(g, d1, addrs[1..], kind, core, cb);
    }
  }

  // Three conditions on the ids in the queue.  They are guarded by `Inside`: the methods below
  // hand them on, and only the lemmas that follow look at them.

  /** `id` is the id of every idle event in the queue, and of nothing else in it. */
  ghost predicate IdleIs<C, U>(q: Tags<C, U>, id: Option<nat>) {
    forall u :: Inside(Layer.Lists, u) ==> forall e :: e in q ==>
      (e.what.tag.IdleTick? <==> Some(e.what.id) == id)
  }

  ghost predicate NoIdle<C, U>(q: Tags<C, U>) {
    forall u :: Inside(Layer.Lists, u) ==> forall e :: e in q ==> !e.what.tag.IdleTick?
  }

  /** Later on, the queue holds old entries and new ones of the component. */
  ghost predicate Grown<C, U>(q0: Tags<C, U>, n0: nat, q1: Tags<C, U>, n1: nat) {
    n0 <= n1 && forall u :: Inside(Layer.Lists, u) ==> forall e :: e in q1 ==>
      e in q0 || (n0 <= e.what.id < n1 && !e.what.tag.User?)
  }

  lemma GrownSelf<C, U>(q: Tags<C, U>, n: nat)
    ensures Grown(q, n, q, n)
  {
  }

  lemma GrownTrans<C, U>(q0: Tags<C, U>, n0: nat, q1: Tags<C, U>, n1: nat, q2: Tags<C, U>, n2: nat)
    requires Grown(q0, n0, q1, n1) && Grown(q1, n1, q2, n2)
    ensures Grown(q0, n0, q2, n2)
  {
    assert Inside(Layer.Lists, true);
  }

  /** A new event of the component. */
  lemma ScheduleIds<C, U>(
    q: Tags<C, U>, n: nat, time: int, prio: int, tag: D.Tag<C, U>, idle: Option<nat>, q': Tags<C, U>)
    requires q' == Insert(q, Entry(time, prio, Stamp(n, tag))) && !tag.User?
    requires forall e :: e in q ==> e.what.id < n
    requires if tag.IdleTick? then NoIdle(q) else IdleIs(q, idle)
    requires idle.Some? ==> idle.value < n
    ensures Erased(q') == Insert(Erased(q), Entry(time, prio, tag))
    ensures IdleIs(q', if tag.IdleTick? then Some(n) else idle)
    ensures NoIdle(q) && !tag.IdleTick? ==> NoIdle(q')
    ensures Grown(q, n, q', n + 1)
  {
    assert Inside(Layer.Lists, true);
    ErasedInsert(q, time, prio, n, tag);
    InsertMembers(q, Entry(time, prio, Stamp(n, tag)));
  }

  /** An agenda without an idle event is a queue without one. */
  lemma {:induction false} NoneIdle<C, U>(q: Tags<C, U>)
    requires Whats(Erased(q))[D.Tag<C, U>.IdleTick] == 0
    ensures NoIdle(q)
  {
    if q != [] {
      ErasedTail(q);
      NoneIdle(q[1..]);
      assert Inside(Layer.Lists, true);
    }
  }

  lemma TailIds<C, U>(q: Tags<C, U>, n: nat, idle: Option<nat>)
    requires q != [] && IdleIs(q, idle)
    ensures IdleIs(q[1..], idle) && Grown(q, n, q[1..], n)
  {
    assert Inside(Layer.Lists, true);
  }

  /** A new event of someone else. */
  lemma OtherIds<C, U>(q: Tags<C, U>, n: nat, time: int, prio: int, tag: D.Tag<C, U>, idle: Option<nat>, q': Tags<C, U>)
    requires q' == Insert(q, Entry(time, prio, Stamp(n, tag))) && !tag.IdleTick?
    requires IdleIs(q, idle) && (idle.Some? ==> idle.value < n)
    ensures Erased(q') == Insert(Erased(q), Entry(time, prio, tag))
    ensures IdleIs(q', idle)
  {
    assert Inside(Layer.Lists, true);
    ErasedInsert(q, time, prio, n, tag);
    InsertMembers(q, Entry(time, prio, Stamp(n, tag)));
  }

  /** The idle event leaves. */
  lemma CancelIds<C, U>(q: Tags<C, U>, n: nat, id: nat, byId: Stamp<D.Tag<C, U>> -> bool)
    requires IdleIs(q, Some(id)) && forall s :: byId(s) <==> s.id == id
    ensures Erased(Drop(q, byId)) == Drop(Erased(q), D.IsIdle)
    ensures IdleIs(Drop(q, byId), Some(id)) && Grown(q, n, Drop(q, byId), n)
  {
    assert Inside(Layer.Lists, true);
    DropMembers(q, byId);
    ErasedDrop(q, byId, D.IsIdle);
  }

  class Dram<E, C(==), U> {
    const cfg: D.Config
    const sim: S.Simulator<D.Tag<C, U>>
    /** Its `host` field is the deque of completions. */
    const mem: M.MemorySystem<seq<Note<C>>, E, C>
    var ticking: bool
    var idleTicking: bool
    var idleEventId: Option<nat>
    var currentIdleBatch: nat
    var collectorSrc: Option<C>
    var collectorWrap: M.Handler?<C>

    ghost var accepted: seq<D.Accepted<C>>
    ghost var posted: seq<Note<C>>
    ghost var recorded: seq<Note<C>>
    ghost var served: seq<Served<C>>
    ghost var naps: nat

    ghost function Queue(): Tags<C, U>
      reads sim
    {
      sim.queue
    }

    function G(): Engine<E, C> {
      mem.impl.g
    }

    ghost predicate Valid()
      reads this, sim, sim.order, mem, mem.impl
    {
      cfg.Valid() && forall u :: Inside(Layer.Objects, u) ==> sim.Valid() && Wired() && IdsOk()
    }

    /** The engine layer calls the collectors, and the memo belongs to its callback. */
    ghost predicate Wired()
      reads this, mem, mem.impl
    {
      && mem.Valid() && mem.call == Collect() && mem.cores == cfg.cores
      && (collectorWrap != null ==> collectorWrap.target == collectorSrc)
    }

    ghost predicate IdsOk()
      reads this, sim
    {
      && (idleTicking ==> idleEventId.Some?)
      && (idleEventId.Some? ==> idleEventId.value < sim.nextId)
      && IdleIs(Queue(), idleEventId)
    }

    ghost function View(): D.Dev<E, C, U>
      reads this, sim, mem, mem.impl
    {
      D.Dev(sim.now, Erased(Queue()), mem.impl.mem, mem.clk, ticking, idleTicking, currentIdleBatch, mem.host,
        accepted, posted, recorded, served, naps)
    }

    /** What every method leaves alone: the horizon, and the events of others. */
    twostate predicate Framed()
      reads sim
    {
      fresh(sim.events - old(sim.events)) && sim.runUntil == old(sim.runUntil)
      && Grown(old(sim.queue), old(sim.nextId), sim.queue, sim.nextId)
    }

    /** Another component has scheduled an event on the shared simulator, whose queue was `q`. */
    lemma OtherScheduled(q: Tags<C, U>, n: nat, time: int, prio: int, tag: D.Tag<C, U>)
      requires cfg.Valid() && sim.Valid() && Wired() && !tag.IdleTick?
      requires (idleTicking ==> idleEventId.Some?)
      requires (idleEventId.Some? ==> idleEventId.value < n) && IdleIs(q, idleEventId)
      requires sim.queue == Insert(q, Entry(time, prio, Stamp(n, tag))) && n < sim.nextId
      ensures Valid() && View().agenda == Insert(Erased(q), Entry(time, prio, tag))
    {
      OtherIds(q, n, time, prio, tag, idleEventId, Queue());
    }

    /** The simulator has taken an event off its queue, which was `q`. */
    lemma EventTaken(q: Tags<C, U>, inv: D.Dev<E, C, U>)
      requires cfg.Valid() && sim.Valid() && Wired() && q != [] && Queue() == q[1..]
      requires (idleTicking ==> idleEventId.Some?)
      requires (idleEventId.Some? ==> idleEventId.value < sim.nextId) && IdleIs(q, idleEventId)
      requires Chains.ChainInv(cfg, G(), inv) && inv.agenda == Erased(q) && inv.idleTicking == idleTicking
      ensures Valid() && View().agenda == Erased(q)[1..] && Erased(q) != []
      ensures !idleTicking || Erased(q)[0].what.IdleTick? ==> NoIdle(Queue())
    {
      TailIds(q, sim.nextId, idleEventId);
      ErasedTail(q);
      if !idleTicking || Erased(q)[0].what.IdleTick? {
        NoneIdle(q[1..]);
      }
    }

    /** One DRAM on a simulator that holds no idle event of another. */
    constructor (sim: S.Simulator<D.Tag<C, U>>, cfg: D.Config, g: Engine<E, C>, mem: E, cacheline: int)
      requires cfg.Valid() && sim.Valid() && NoIdle(sim.queue)
      modifies sim
      ensures Valid() && this.sim == sim && this.cfg == cfg && G() == g
      ensures fresh(this.mem) && fresh(this.mem.impl)
      ensures fresh(sim.events - old(sim.events)) && sim.runUntil == old(sim.runUntil)
      ensures Grown(old(sim.queue), old(sim.nextId), sim.queue, sim.nextId)
      ensures var q := old(Erased(sim.queue));
              var d := D.Dev(old(sim.now), q, mem, 0, false, false, cfg.idleBase, [], [], [], [], [], 0);
              View() == Chains.Begun(cfg, d)
    {
      this.cfg, this.sim := cfg, sim;
      this.mem := new M.MemorySystem(g, mem, Collect(), cfg.cores, cacheline, []);
      ticking, idleTicking, idleEventId, currentIdleBatch := false, false, None, cfg.idleBase;
      collectorSrc, collectorWrap := None, null;
      accepted, posted, recorded, served, naps := [], [], [], [], 0;
      new;
      GrownSelf(sim.queue, sim.nextId);
      assert Inside(Layer.Lists, true);
      if cfg.idleRefresh {
        StartIdleTicking();
      }
    }

    // -- Scheduling ---------------------------------------------------------------------

    /** Any event of this simulator; `idle` says which id belongs to the idle event. */
    method Schedule(delay: int, tag: D.Tag<C, U>, prio: int, ghost idle: Option<nat>) returns (id: nat)
      requires sim.Valid() && 0 <= delay && !tag.User?
      requires if tag.IdleTick? then NoIdle(Queue()) else IdleIs(Queue(), idle)
      requires idle.Some? ==> idle.value < sim.nextId
      modifies sim
      ensures sim.Valid() && Framed() && sim.now == old(sim.now)
      ensures id == old(sim.nextId) && id < sim.nextId
      ensures Erased(Queue()) == Insert(old(Erased(Queue())), Entry(sim.now + delay, prio, tag))
      ensures IdleIs(Queue(), if tag.IdleTick? then Some(id) else idle)
      ensures NoIdle(old(Queue())) && !tag.IdleTick? ==> NoIdle(Queue())
    {
      QueueFacts(sim.Whole());
      ghost var q, n := Queue(), sim.nextId;
      ScheduleIds(q, n, sim.now + delay, prio, tag, idle, Insert(q, Entry(sim.now + delay, prio, Stamp(n, tag))));
      id := Enter(delay, tag, prio);
    }

    method Enter(delay: int, tag: D.Tag<C, U>, prio: int) returns (id: nat)
      requires sim.Valid() && 0 <= delay
      modifies sim
      ensures sim.Valid() && sim.now == old(sim.now) && sim.runUntil == old(sim.runUntil)
      ensures fresh(sim.events - old(sim.events))
      ensures id == old(sim.nextId) && sim.nextId == id + 1
      ensures Queue() == Insert(old(Queue()), Entry(sim.now + delay, prio, Stamp(id, tag)))
    {
      var r := sim.Schedule(delay, tag, prio);
      id := r.value;
    }

    /** `Clock.cycles` and `schedule` together. */
    method ScheduleCycles(cycles: nat, tag: D.Tag<C, U>) returns (id: nat)
      requires cfg.Valid() && sim.Valid() && !tag.User? && (idleEventId.Some? ==> idleEventId.value < sim.nextId)
      requires if tag.IdleTick? then NoIdle(Queue()) else IdleIs(Queue(), idleEventId)
      modifies sim
      ensures sim.Valid() && Framed()
      ensures id < sim.nextId && IdleIs(Queue(), if tag.IdleTick? then Some(id) else idleEventId)
      ensures idleEventId.Some? ==> idleEventId.value < sim.nextId
      ensures View() == D.AfterCycles(cfg, old(View()), cycles, tag)
    {
      D.Monotone(cfg.period, 0, cycles);
      id := Schedule(cycles * cfg.period, tag, 0, idleEventId);
    }

    // -- Completions -----------------------------------------------------------------------

    /** The collector belongs to the callback it is asked for, for any interleaving of callbacks. */
    method Collector(callback: Option<C>) returns (h: M.Handler<C>)
      requires Wired()
      modifies this`collectorSrc, this`collectorWrap
      ensures Wired()
      ensures h.target == callback
    {
      if callback == collectorSrc && collectorWrap != null {
        return collectorWrap;
      }
      h := new M.Handler(callback);
      collectorSrc, collectorWrap := callback, h;
    }

    method DeliverCompleted()
      requires Valid()
      modifies this, sim, mem
      ensures Valid() && Framed()
      ensures (NoIdle(old(Queue())) ==> NoIdle(Queue())) && idleTicking == old(idleTicking)
      ensures View() == D.Deliver(cfg, old(View()))
    {
      assert Inside(Layer.Objects, true);
      GrownSelf(Queue(), sim.nextId);
      while mem.host != []
        invariant Valid() && Framed()
        invariant (NoIdle(old(Queue())) ==> NoIdle(Queue())) && idleTicking == old(idleTicking)
        invariant D.Deliver(cfg, View()) == D.Deliver(cfg, old(View()))
        decreases |mem.host|
      {
        ghost var q1, n1 := Queue(), sim.nextId;
        DeliverOne();
        GrownTrans(old(Queue()), old(sim.nextId), q1, n1, Queue(), sim.nextId);
      }
    }

    /** The oldest completion becomes an event at the current time. */
    method DeliverOne()
      requires Valid() && mem.host != []
      modifies this, sim, mem
      ensures Valid() && Framed()
      ensures (NoIdle(old(Queue())) ==> NoIdle(Queue())) && idleTicking == old(idleTicking)
      ensures mem.host == old(mem.host)[1..]
      ensures var n, d := old(mem.host)[0], old(View()).(completed := old(mem.host)[1..]);
              View() == if n.user.None? then d else D.Post(cfg, d, n.user.value, n.info)
    {
      assert Inside(Layer.Objects, true);
      GrownSelf(Queue(), sim.nextId);
      var n := mem.host[0];
      mem.host := mem.host[1..];
      if n.user.Some? {
        Post(n);
      }
    }

    method Post(n: Note<C>)
      requires Valid() && n.user.Some?
      modifies this`posted, sim
      ensures Valid() && Framed()
      ensures NoIdle(old(Queue())) ==> NoIdle(Queue())
      ensures View() == D.Post(cfg, old(View()), n.user.value, n.info)
    {
      assert Inside(Layer.Objects, true);
      var id := Schedule(0, D.Call(n.user.value, n.info), cfg.priority, idleEventId);
      posted := posted + [n];
    }

    // -- The two clock chains -----------------------------------------------------------------

    method StartTicking()
      requires Valid()
      modifies this, sim, sim.events
      ensures Valid() && Framed()
      ensures View() == D.StartTicking(cfg, old(View()))
    {
      assert Inside(Layer.Objects, true);
      GrownSelf(Queue(), sim.nextId);
      if ticking {
        return;
      }
      ghost var d := View();
      if idleTicking {
        idleTicking := false;
        CancelIdle();
      }
      ghost var d1 := if d.idleTicking then d.(idleTicking := false, agenda := Drop(d.agenda, D.IsIdle)) else d;
      assert View() == d1;
      ghost var q1, n1 := Queue(), sim.nextId;
      BeginTicking();
      GrownTrans(old(Queue()), old(sim.nextId), q1, n1, Queue(), sim.nextId);
    }

    method BeginTicking()
      requires Valid()
      modifies this`ticking, sim
      ensures Valid() && Framed()
      ensures View() == D.AfterCycles(cfg, old(View()).(ticking := true), 1, D.Tag.Tick)
    {
      assert Inside(Layer.Objects, true);
      ticking := true;
      var id := ScheduleCycles(1, D.Tag.Tick);
    }

    /** There always is an id to cancel; the error for its absence is unreachable. */
    method CancelIdle()
      requires Valid() && idleEventId.Some?
      modifies sim, sim.events
      ensures Valid() && Framed()
      ensures View() == old(View()).(agenda := Drop(old(View().agenda), D.IsIdle))
    {
      assert Inside(Layer.Objects, true);
      var id := idleEventId.value;
      CancelIds(Queue(), sim.nextId, id, (s: Stamp<D.Tag<C, U>>) => s.id == id);
      var ok := sim.Cancel(id);
    }

    method StartIdleTicking()
      requires Valid() && (!idleTicking ==> NoIdle(Queue()))
      modifies this, sim
      ensures Valid() && Framed()
      ensures View() == D.StartIdleTicking(cfg, old(View()))
    {
      GrownSelf(Queue(), sim.nextId);
      if !idleTicking {
        BeginIdle();
      }
    }

    method BeginIdle()
      requires Valid() && !idleTicking && NoIdle(Queue())
      modifies this, sim
      ensures Valid() && Framed()
      ensures View() == D.StartIdleTicking(cfg, old(View()))
    {
      assert Inside(Layer.Objects, true);
      idleTicking, currentIdleBatch := true, cfg.idleBase;
      ScheduleIdle(cfg.idleBase);
    }

    /** The one idle event, under its id. */
    method ScheduleIdle(cycles: nat)
      requires cfg.Valid() && sim.Valid() && Wired() && NoIdle(Queue())
      requires idleEventId.Some? ==> idleEventId.value < sim.nextId
      modifies this`idleEventId, sim
      ensures Valid() && Framed()
      ensures View() == D.AfterCycles(cfg, old(View()), cycles, D.IdleTick)
    {
      var id := ScheduleCycles(cycles, D.IdleTick);
      idleEventId := Some(id);
    }

    method MaxTickBurst() returns (n: int)
      requires Valid()
      modifies sim
      ensures Valid() && View() == old(View()) && sim.events <= old(sim.events) && sim.runUntil == old(sim.runUntil)
      ensures Queue() == old(Queue()) && sim.nextId == old(sim.nextId)
      ensures n == D.MaxBurst(cfg.period, sim.now, D.NextTime(View().agenda), sim.runUntil)
    {
      assert Inside(Layer.Objects, true);
      n := D.BURST_CAP;
      var next := sim.NextTime();
      if next.Some? {
        var dt := next.value - sim.now;
        n := if dt <= 0 then 1 else D.Min(n, (dt - 1) / cfg.period + 1);
      }
      if sim.runUntil.Some? {
        var dt := sim.runUntil.value - sim.now;
        n := if dt < 0 then 1 else D.Min(n, dt / cfg.period + 1);
      }
    }

    /** Jump to the last cycle of a burst: never into the past, over an event or past the horizon. */
    method CatchUp(n: int, ghost max: int)
      requires Valid() && 1 <= n <= max
      requires max == D.MaxBurst(cfg.period, sim.now, D.NextTime(View().agenda), sim.runUntil)
      modifies sim
      ensures Valid() && Framed()
      ensures Queue() == old(Queue()) && sim.nextId == old(sim.nextId)
      ensures View() == old(View()).(now := old(sim.now) + (n - 1) * cfg.period)
    {
      assert Inside(Layer.Objects, true);
      GrownSelf(Queue(), sim.nextId);
      if n > 1 {
        assert D.FreeCycle(cfg.period, sim.now, D.NextTime(View().agenda), sim.runUntil, n - 1);
        D.Monotone(cfg.period, 0, n - 1);
        var ok := sim.AdvanceTo(sim.now + (n - 1) * cfg.period);
        assert ok;
      }
    }

    /** The tick event's body. */
    method Tick()
      requires Valid() && (!idleTicking ==> NoIdle(Queue()))
      modifies this, sim, mem, mem.impl
      ensures Valid() && Framed()
      ensures View() == D.TickBody(cfg, G(), old(View()),
              D.MaxBurst(cfg.period, old(sim.now), D.NextTime(old(View()).agenda), old(sim.runUntil)))
    {
      assert Inside(Layer.Objects, true);
      ghost var b := RunBurst();
      Settle(b, old(View()));
    }

    /** As many cycles as may run unseen, and the jump to the last of them. */
    method RunBurst() returns (ghost b: Burst<E, C>)
      requires Valid()
      modifies this, sim, mem, mem.impl
      ensures Valid() && Framed() && Queue() == old(Queue()) && idleTicking == old(idleTicking)
      ensures b == UntilProgress(G(), old(mem.impl.mem),
              D.MaxBurst(cfg.period, old(sim.now), D.NextTime(old(View()).agenda), old(sim.runUntil)))
      ensures View() == D.Advance(cfg, old(View()), b)
    {
      assert Inside(Layer.Objects, true);
      GrownSelf(Queue(), sim.nextId);
      var max := MaxTickBurst();
      var n;
      n, b := TickMemory(max);
      CatchUp(n, max);
    }

    /** The cycles of a burst, before the simulator follows. */
    method TickMemory(max: nat) returns (n: int, ghost b: Burst<E, C>)
      requires Valid() && 1 <= max
      modifies this`recorded, mem, mem.impl
      ensures Valid() && b == UntilProgress(G(), old(mem.impl.mem), max) && n == b.cycles
      ensures var d := old(View()); View() == D.Gather(d.(mem := b.mem, clk := d.clk + b.cycles), b.notes)
    {
      assert Inside(Layer.Objects, true);
      b := UntilProgress(G(), mem.impl.mem, max);
      CollectAll(mem.host, b.notes);
      recorded := recorded + b.notes;
      var r := mem.TickUntilProgress(max);
      n := r.value;
    }

    /** Deliver, then keep or leave the busy chain. */
    method Settle(ghost b: Burst<E, C>, ghost d0: D.Dev<E, C, U>)
      requires Valid() && (!idleTicking ==> NoIdle(Queue()))
      requires View() == D.Advance(cfg, d0, b)
      modifies this, sim, mem
      ensures Valid() && Framed()
      ensures View() == D.Settle(cfg, G(), d0, b)
    {
      DeliverAndGoOn();
      Remember(d0.served + TickN(G(), d0.mem, b.cycles).1);
    }

    method DeliverAndGoOn()
      requires Valid() && (!idleTicking ==> NoIdle(Queue()))
      modifies this, sim, mem
      ensures Valid() && Framed()
      ensures View() == D.GoOn(cfg, G(), D.Deliver(cfg, old(View())))
    {
      DeliverCompleted();
      ghost var q1, n1 := Queue(), sim.nextId;
      GoOn();
      GrownTrans(old(Queue()), old(sim.nextId), q1, n1, Queue(), sim.nextId);
    }

    /** After a busy stretch: what the engine has handed back so far. */
    ghost method Remember(s: seq<Served<C>>)
      requires Valid()
      modifies this`served, this`naps
      ensures Valid() && View() == old(View()).(served := s, naps := 0)
    {
      assert Inside(Layer.Objects, true);
      served, naps := s, 0;
    }

    method GoOn()
      requires Valid() && (!idleTicking ==> NoIdle(Queue()))
      modifies this, sim
      ensures Valid() && Framed()
      ensures View() == D.GoOn(cfg, G(), old(View()))
    {
      assert Inside(Layer.Objects, true);
      GrownSelf(Queue(), sim.nextId);
      if mem.Pending() > 0 {
        var id := ScheduleCycles(1, D.Tag.Tick);
      } else {
        GoIdle();
      }
    }

    method GoIdle()
      requires Valid() && (!idleTicking ==> NoIdle(Queue()))
      modifies this, sim
      ensures Valid() && Framed()
      ensures var d := old(View()).(ticking := false);
              View() == if cfg.idleRefresh then D.StartIdleTicking(cfg, d) else d
    {
      assert Inside(Layer.Objects, true);
      GrownSelf(Queue(), sim.nextId);
      ticking := false;
      if cfg.idleRefresh {
        StartIdleTicking();
      }
    }

    method IdleTick()
      requires Valid() && NoIdle(Queue())
      modifies this, sim, sim.events, mem, mem.impl
      ensures Valid() && Framed()
      ensures View() == D.IdleBody(cfg, G(), old(View()))
    {
      assert Inside(Layer.Objects, true);
      RunIdle();
      if mem.Pending() > 0 {
        HandBack();
      } else {
        BackOff();
      }
    }

    method HandBack()
      requires Valid()
      modifies this, sim, sim.events
      ensures Valid() && Framed()
      ensures View() == D.StartTicking(cfg, old(View()).(idleTicking := false, idleBatch := cfg.idleBase))
    {
      assert Inside(Layer.Objects, true);
      idleTicking, currentIdleBatch := false, cfg.idleBase;
      StartTicking();
    }

    method RunIdle()
      requires Valid()
      modifies this`recorded, this`served, this`naps, mem, mem.impl
      ensures Valid()
      ensures var (e, s), d := TickN(G(), old(mem.impl.mem), currentIdleBatch), old(View());
              View() == D.Gather(d.(mem := e, clk := d.clk + currentIdleBatch, served := d.served + s,
                                    naps := d.naps + 1), Recorded(s))
    {
      assert Inside(Layer.Objects, true);
      served, naps := served + TickN(G(), mem.impl.mem, currentIdleBatch).1, naps + 1;
      ghost var notes := Recorded(TickN(G(), mem.impl.mem, currentIdleBatch).1);
      CollectAll(mem.host, notes);
      recorded := recorded + notes;
      var r := mem.Run(currentIdleBatch);
    }

    /** The next idle event, after twice as long up to the maximum. */
    method BackOff()
      requires Valid() && NoIdle(Queue())
      modifies this, sim
      ensures Valid() && Framed()
      ensures var next: nat := D.Min(old(currentIdleBatch) * 2, cfg.MaxIdle());
              View() == D.AfterCycles(cfg, old(View()).(idleBatch := next), next, D.IdleTick)
    {
      assert Inside(Layer.Objects, true);
      currentIdleBatch := D.Min(currentIdleBatch * 2, cfg.MaxIdle());
      ScheduleIdle(currentIdleBatch);
    }

    // -- Requests ------------------------------------------------------------------------------

    /** One request through the wrapper, with the collector of its callback. */
    method SendOne(addr: int, kind: Kind, core: int, callback: Option<C>) returns (r: Result<bool>)
      requires Wired()
      modifies this`collectorSrc, this`collectorWrap, this`accepted, this`recorded, mem, mem.impl
      ensures Wired() && (r.Raised? <==> core < 0 || cfg.cores <= core)
      ensures r.Raised? ==> View() == old(View())
      ensures r.Ok? ==>
                var (d, ok) := D.Send(G(), old(View()), addr, kind, core, callback);
                && r.value == ok
                && View() == if ok && kind == WRITE then D.Gather(d, [WriteNote(addr, d.clk, core, callback)]) else d
    {
      var h := Collector(callback);
      var out := mem.Send(addr, kind, core, h);
      if out.Rejected? {
        return Raised;
      }
      assert out.Returned?;
      if out.value {
        accepted := accepted + [D.Accepted(addr, kind, core, callback, mem.clk)];
        recorded := if kind == WRITE then recorded + [WriteNote(addr, mem.clk, core, callback)] else recorded;
      }
      r := Ok(out.value);
    }

    method Read(addr: int, callback: Option<C>, core: int) returns (r: Result<bool>)
      requires Valid()
      modifies this, sim, sim.events, mem, mem.impl
      ensures Valid() && Framed()
      ensures r.Raised? <==> core < 0 || cfg.cores <= core
      ensures (View(), r) == D.Read(cfg, G(), old(View()), addr, core, callback)
    {
      assert Inside(Layer.Objects, true);
      GrownSelf(Queue(), sim.nextId);
      r := SendOne(addr, READ, core, callback);
      if r == Ok(true) {
        StartTicking();
      }
    }

    method Write(addr: int, callback: Option<C>, core: int) returns (r: Result<bool>)
      requires Valid()
      modifies this, sim, sim.events, mem, mem.impl
      ensures Valid() && Framed()
      ensures r.Raised? <==> core < 0 || cfg.cores <= core
      ensures (View(), r) == D.Write(cfg, G(), old(View()), addr, core, callback)
    {
      assert Inside(Layer.Objects, true);
      GrownSelf(Queue(), sim.nextId);
      r := SendOne(addr, WRITE, core, callback);
      if r == Ok(true) {
        Accepted();
      }
    }

    method SendMany(addrs: seq<int>, kind: Kind, core: int, callback: Option<C>) returns (r: Result<seq<bool>>)
      requires Wired()
      modifies this`collectorSrc, this`collectorWrap, this`accepted, this`recorded, mem, mem.impl
      ensures Wired() && (r.Raised? <==> core < 0 || cfg.cores <= core)
      ensures r.Raised? ==> View() == old(View())
      ensures r.Ok? ==>
                var (d, oks) := D.SendAll(G(), old(View()), addrs, kind, core, callback);
                && r.value == oks
                && View() == if kind == WRITE then D.Gather(d, WriteNotes(addrs, oks, d.clk, core, callback)) else d
    {
      ghost var sent := D.SendAll(G(), View(), addrs, kind, core, callback);
      var h := Collector(callback);
      r := Submit(addrs, kind, core, callback, h, sent);
      if r.Ok? {
        accepted := sent.0.accepted;
        recorded := if kind == WRITE then recorded + WriteNotes(addrs, sent.1, mem.clk, core, callback) else recorded;
      }
    }

    /** The batch itself; the collectors of accepted writes run. */
    method Submit(addrs: seq<int>, kind: Kind, core: int, callback: Option<C>, h: M.Handler<C>,
                  ghost sent: (D.Dev<E, C, U>, seq<bool>))
      returns (r: Result<seq<bool>>)
      requires Wired() && h.target == callback && sent == D.SendAll(G(), View(), addrs, kind, core, callback)
      modifies mem, mem.impl
      ensures Wired() && (r.Raised? <==> core < 0 || cfg.cores <= core)
      ensures r.Raised? ==> View() == old(View())
      ensures r.Ok? ==> r.value == sent.1
      ensures sent.0 == old(View()).(mem := sent.0.mem, accepted := sent.0.accepted)
      ensures r.Ok? ==>
                View() == sent.0.(accepted := accepted, recorded := recorded, completed :=
                  if kind == WRITE then old(mem.host) + WriteNotes(addrs, sent.1, mem.clk, core, callback)
                  else old(mem.host))
    {
      SendManyIsSendAll(G(), View(), addrs, kind, core, callback);
      CollectWrites(mem.host, addrs, sent.1, mem.clk, core, callback);
      var out := mem.SendBatch(addrs, kind, core, h);
      if out.Rejected? {
        return Raised;
      }
      assert out == M.Returned(sent.1);
      r := Ok(out.value);
    }

    /** Accepted writes complete at once, and the busy chain runs. */
    method Accepted()
      requires Valid()
      modifies this, sim, sim.events, mem
      ensures Valid() && Framed()
      ensures View() == D.StartTicking(cfg, D.Deliver(cfg, old(View())))
    {
      assert Inside(Layer.Objects, true);
      DeliverCompleted();
      ghost var q1, n1 := Queue(), sim.nextId;
      StartTicking();
      GrownTrans(old(Queue()), old(sim.nextId), q1, n1, Queue(), sim.nextId);
    }

    method Reads(addrs: seq<int>, callback: Option<C>, core: int) returns (r: Result<seq<bool>>)
      requires Valid()
      modifies this, sim, sim.events, mem, mem.impl
      ensures Valid() && Framed()
      ensures r.Raised? <==> core < 0 || cfg.cores <= core
      ensures (View(), r) == D.Reads(cfg, G(), old(View()), addrs, core, callback)
    {
      assert Inside(Layer.Objects, true);
      GrownSelf(Queue(), sim.nextId);
      r := SendMany(addrs, READ, core, callback);
      if r.Ok? && true in r.value {
        StartTicking();
      }
    }

    method Writes(addrs: seq<int>, callback: Option<C>, core: int) returns (r: Result<seq<bool>>)
      requires Valid()
      modifies this, sim, sim.events, mem, mem.impl
      ensures Valid() && Framed()
      ensures r.Raised? <==> core < 0 || cfg.cores <= core
      ensures (View(), r) == D.Writes(cfg, G(), old(View()), addrs, core, callback)
    {
      assert Inside(Layer.Objects, true);
      GrownSelf(Queue(), sim.nextId);
      r := SendMany(addrs, WRITE, core, callback);
      if r.Ok? && true in r.value {
        Accepted();
      }
    }
  }
}

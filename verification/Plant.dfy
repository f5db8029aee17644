/**
 The closed event system run by the real objects: a simulator with its heap, a DRAM component with its
 engine wrapper, and host code.  Running it is running module World, step by step, so that everything
 proved about worlds holds of these objects.
 */
module Plant {
  import opened Prelude
  import opened Agenda
  import opened Engine
  import opened Kernel
  import opened Erasure
  import opened W = World
  import D = Device
  import Chains
  import Co = Coalescing
  import Windows
  import Machines
  import DR = Dram
  import S = Simulator

  type PlantTag<+C, +V> = D.Tag<C, Named<V>>

  /** The host's handle `h` stands for the event id `ids[h]`, and no other event has that id. */
  ghost predicate Handled<C, V>(q: Queue<PlantTag<C, V>>, ids: seq<nat>) {
    forall u :: Inside(Layer.Lists, u) ==> forall e :: e in q ==>
      if e.what.tag.User? then e.what.tag.u.handle < |ids| && ids[e.what.tag.u.handle] == e.what.id
      else e.what.id !in ids
  }

  /** The ids are old ones, and no two handles share one. */
  ghost predicate Old(ids: seq<nat>, n: nat) {
    forall u :: Inside(Layer.Lists, u) ==>
      (forall i :: 0 <= i < |ids| ==> ids[i] < n) && (forall i, j :: 0 <= i < j < |ids| ==> ids[i] != ids[j])
  }

  lemma HandledGrown<C, V>(q: Queue<PlantTag<C, V>>, n: nat, q': Queue<PlantTag<C, V>>, n': nat, ids: seq<nat>)
    requires Handled(q, ids) && Old(ids, n) && DR.Grown(q, n, q', n')
    ensures Handled(q', ids) && Old(ids, n')
  {
    assert Inside(Layer.Lists, true);
  }

  lemma HandledNew<C, V>(q: Queue<PlantTag<C, V>>, n: nat, time: int, prio: int, v: V, ids: seq<nat>)
    requires Handled(q, ids) && Old(ids, n) && forall e :: e in q ==> e.what.id < n
    ensures var tag := D.User(Named(|ids|, v));
            var q' := Insert(q, Entry(time, prio, Stamp(n, tag)));
            Handled(q', ids + [n]) && Old(ids + [n], n + 1)
  {
    assert Inside(Layer.Lists, true);
    var tag: PlantTag<C, V> := D.User(Named(|ids|, v));
    InsertMembers(q, Entry(time, prio, Stamp(n, tag)));
  }

  /** Cancelling by handle. */
  lemma HandledCancel<C, V>(q: Queue<PlantTag<C, V>>, n: nat, ids: seq<nat>, handle: nat, idle: Option<nat>,
                            byId: Stamp<PlantTag<C, V>> -> bool)
    requires Handled(q, ids) && Old(ids, n) && DR.IdleIs(q, idle) && handle < |ids|
    requires forall s :: byId(s) <==> s.id == ids[handle]
    ensures var q' := Drop(q, byId);
            && Handled(q', ids) && DR.IdleIs(q', idle)
            && Erased(q') == Drop(Erased(q), (t: PlantTag<C, V>) => Names(t, handle))
    ensures ids[handle] in LiveIds(q) <==> |Drop(Erased(q), (t: PlantTag<C, V>) => Names(t, handle))| < |Erased(q)|
  {
    assert Inside(Layer.Lists, true);
    var named := (t: PlantTag<C, V>) => Names(t, handle);
    DropMembers(q, byId);
    forall e | e in q
      ensures byId(e.what) <==> named(e.what.tag)
    {
    }
    ErasedDrop(q, byId, named);
    DropShrinks(q, byId);
    LiveIdsAre(q, ids[handle]);
  }

  /** A handle that was never given out names nothing. */
  lemma HandledUnknown<C, V>(q: Queue<PlantTag<C, V>>, ids: seq<nat>, handle: nat)
    requires Handled(q, ids) && |ids| <= handle
    ensures Drop(Erased(q), (t: PlantTag<C, V>) => Names(t, handle)) == Erased(q)
  {
    assert Inside(Layer.Lists, true);
    var named := (t: PlantTag<C, V>) => Names(t, handle);
    var none := (s: Stamp<PlantTag<C, V>>) => false;
    forall e | e in q
      ensures none(e.what) <==> named(e.what.tag)
    {
    }
    ErasedDrop(q, none, named);
    DropShrinks(q, none);
  }

  lemma {:induction false} LiveIdsAre<T>(q: Queue<T>, id: nat)
    ensures id in LiveIds(q) <==> exists i :: 0 <= i < |q| && q[i].what.id == id
  {
    if q != [] {
      LiveIdsAre(q[1..], id);
      assert forall i :: 1 <= i < |q| ==> q[i] == q[1..][i - 1];
      if exists i :: 0 <= i < |q| && q[i].what.id == id {
        var i :| 0 <= i < |q| && q[i].what.id == id;
        assert i > 0 ==> q[1..][i - 1].what.id == id;
      }
    }
  }

  lemma HandledTail<C, V>(q: Queue<PlantTag<C, V>>, ids: seq<nat>)
    requires Handled(q, ids)
    ensures q != [] ==> Handled(q[1..], ids)
  {
    assert Inside(Layer.Lists, true);
  }

  /** The chain invariant on an engine that keeps its promises, guarded by `Inside`. */
  ghost predicate Sane<E(!new), C(!new), U>(cfg: D.Config, g: Engine<E, C>, d: D.Dev<E, C, U>) {
    forall u :: Inside(Layer.Lists, u) ==> cfg.Valid() && Prompt(g) && Chains.ChainInv(cfg, g, d)
  }

  lemma SaneMeans<E(!new), C(!new), U>(cfg: D.Config, g: Engine<E, C>, d: D.Dev<E, C, U>)
    requires Sane(cfg, g, d)
    ensures Chains.ChainInv(cfg, g, d) && (g.pending(d.mem) > 0 ==> d.agenda != [])
  {
    assert Inside(Layer.Lists, true);
  }

  lemma StaysSane<E(!new), C(!new), V, H>(
    cfg: D.Config, g: Engine<E, C>, host: Host<H, C, V>, w: World<E, C, V, H>, h: D.Horizon)
    requires cfg.Valid() && Sane(cfg, g, w.dev) && !Halted(w, None)
    ensures Sane(cfg, g, W.Step(Coalescing, cfg, g, host, w, h).dev)
  {
    assert Inside(Layer.Lists, true);
    Co.StepKeeps(Coalescing, cfg, g, host, w, h);
  }

  class Plant<E(!new), C(!new, ==), V, H> {
    const sim: S.Simulator<PlantTag<C, V>>
    const dram: DR.Dram<E, C, Named<V>>
    const program: Host<H, C, V>
    var host: H
    /** What the host is about to be told; None when the simulator has control. */
    var ctl: Option<Stim<C, V>>
    var raised: bool
    /** The ids of the events the host scheduled, by handle. */
    var ids: seq<nat>
    ghost var trace: seq<Firing<C, V>>

    ghost predicate Valid()
      reads this, dram, sim, sim.order, dram.mem, dram.mem.impl
    {
      && dram.sim == sim && dram.Valid()
      && Handled(sim.queue, ids) && Old(ids, sim.nextId)
      && Sane(dram.cfg, dram.G(), dram.View())
    }

    ghost function View(): World<E, C, V, H>
      reads this, dram, dram.sim, dram.mem, dram.mem.impl
    {
      World(dram.View(), host, ctl, raised, |ids|, trace)
    }

    constructor (dram: DR.Dram<E, C, Named<V>>, program: Host<H, C, V>, host: H)
      requires dram.Valid() && Prompt(dram.G()) && Chains.ChainInv(dram.cfg, dram.G(), dram.View())
      requires DR.Grown([], 0, dram.sim.queue, dram.sim.nextId)
      ensures Valid() && this.dram == dram && this.program == program
      ensures View() == World(dram.View(), host, Some(Between), false, 0, [])
    {
      sim, this.dram, this.program, this.host := dram.sim, dram, program, host;
      ctl, raised, ids, trace := Some(Between), false, [], [];
      new;
      assert Inside(Layer.Lists, true);
    }

    /** The part of `Valid` that the calls of the host rely on. */
    ghost predicate Linked()
      reads this, dram, sim, sim.order, dram.mem, dram.mem.impl
    {
      dram.sim == sim && dram.Valid() && Handled(sim.queue, ids) && Old(ids, sim.nextId)
    }

    twostate predicate Kept()
      reads sim
    {
      fresh(sim.events - old(sim.events)) && sim.runUntil == old(sim.runUntil)
    }

    /** The calls of the host on the simulator. */
    method OnSim(s: SimCall<V>)
      requires Linked()
      modifies this, sim, sim.events
      ensures Linked() && Kept()
      ensures View() == ActSim(old(View()), s)
    {
      match s
      case Schedule(delay, prio, v) => Schedule(delay, prio, v);
      case ScheduleAt(time, prio, v) => ScheduleAt(time, prio, v);
      case Cancel(handle) => Cancel(handle);
    }

    method Schedule(delay: int, prio: int, v: V)
      requires Linked()
      modifies this, sim
      ensures Linked() && Kept()
      ensures View() == ActSim(old(View()), SimCall.Schedule(delay, prio, v))
    {
      assert Inside(Layer.Objects, true);
      QueueFacts(sim.Whole());
      ghost var w, q, n := View(), sim.queue, sim.nextId;
      var id := sim.Schedule(delay, D.User(Named(|ids|, v)), prio);
      Entered(id, sim.now + delay, prio, v, q, n);
      assert View() == w.(dev := w.dev.(agenda := Erased(sim.queue)), ctl := ctl, handles := |ids|);
    }

    method ScheduleAt(time: int, prio: int, v: V)
      requires Linked()
      modifies this, sim
      ensures Linked() && Kept()
      ensures View() == ActSim(old(View()), SimCall.ScheduleAt(time, prio, v))
    {
      assert Inside(Layer.Objects, true);
      QueueFacts(sim.Whole());
      ghost var w, q, n := View(), sim.queue, sim.nextId;
      var id := sim.At(time, D.User(Named(|ids|, v)), prio);
      Entered(id, time, prio, v, q, n);
      assert View() == w.(dev := w.dev.(agenda := Erased(sim.queue)), ctl := ctl, handles := |ids|);
    }

    /** What follows both: `q` and `n` are the queue and the next id before the call. */
    method Entered(id: Result<nat>, ghost time: int, ghost prio: int, ghost v: V,
                   ghost q: Queue<PlantTag<C, V>>, ghost n: nat)
      requires dram.sim == sim && dram.cfg.Valid() && sim.Valid() && dram.Wired() && Handled(q, ids) && Old(ids, n)
      requires (dram.idleTicking ==> dram.idleEventId.Some?) && DR.IdleIs(q, dram.idleEventId)
      requires (dram.idleEventId.Some? ==> dram.idleEventId.value < n) && forall e :: e in q ==> e.what.id < n
      requires id.Raised? ==> sim.queue == q && sim.nextId == n
      requires id.Ok? ==> id.value == n && sim.nextId == n + 1
      requires id.Ok? ==> sim.queue == Insert(q, Entry(time, prio, Stamp(n, D.User(Named(|ids|, v)))))
      modifies this`ids, this`ctl
      ensures Linked()
      ensures ids == if id.Ok? then old(ids) + [n] else old(ids)
      ensures ctl == Some(Scheduled(if id.Ok? then Ok(|old(ids)|) else Raised))
      ensures Erased(sim.queue) ==
              if id.Ok? then Insert(Erased(q), Entry(time, prio, D.User(Named(|old(ids)|, v)))) else Erased(q)
    {
      if id.Ok? {
        HandledNew(q, n, time, prio, v, ids);
        dram.OtherScheduled(q, n, time, prio, D.User(Named(|ids|, v)));
        ctl := Some(Scheduled(Ok(|ids|)));
        ids := ids + [id.value];
      } else {
        ctl := Some(Scheduled(Raised));
      }
    }

    /** `cancel` of an id the simulator gave out. */
    method CancelKnown(id: nat, ghost handle: nat) returns (ok: bool)
      requires Linked() && handle < |ids| && id == ids[handle]
      modifies sim, sim.events
      ensures Linked() && Kept()
      ensures var d := old(dram.View()); var q := Drop(d.agenda, (t: D.Tag<C, Named<V>>) => Names(t, handle));
              dram.View() == d.(agenda := q) && ok == (|q| < |d.agenda|)
    {
      assert Inside(Layer.Objects, true);
      HandledCancel(sim.queue, sim.nextId, ids, handle, dram.idleEventId, (s: Stamp<PlantTag<C, V>>) => s.id == id);
      ok := sim.Cancel(id);
    }

    method Cancel(handle: nat)
      requires Linked()
      modifies this`ctl, sim, sim.events
      ensures Linked() && Kept()
      ensures View() == ActSim(old(View()), SimCall.Cancel(handle))
    {
      assert Inside(Layer.Objects, true);
      var ok := false;
      if handle < |ids| {
        var id := ids[handle];
        ok := CancelKnown(id, handle);
      } else {
        HandledUnknown(sim.queue, ids, handle);
      }
      ctl := Some(Cancelled(ok));
    }

    // -- Calls on the DRAM --------------------------------------------------------------

    /** After any call on the component: the host's handles still mean the same events. */
    lemma StillLinked(q: Queue<PlantTag<C, V>>, n: nat)
      requires dram.sim == sim && dram.Valid() && Handled(q, ids)
      requires Old(ids, n) && DR.Grown(q, n, sim.queue, sim.nextId)
      ensures Linked()
    {
      HandledGrown(q, n, sim.queue, sim.nextId, ids);
    }

    method OnDram(m: DramCall<C>)
      requires Linked()
      modifies this`ctl, dram, sim, sim.events, dram.mem, dram.mem.impl
      ensures Linked() && Kept()
      ensures var (d, reply) := ActDram(dram.cfg, dram.G(), old(dram.View()), m);
              View() == old(View()).(dev := d, ctl := Some(reply))
    {
      ghost var q, n := sim.queue, sim.nextId;
      match m {
        case DoRead(addr, core, cb) =>
          var ok := dram.Read(addr, cb, core);
          ctl := Some(Sent(ok));
        case DoWrite(addr, core, cb) =>
          var ok := dram.Write(addr, cb, core);
          ctl := Some(Sent(ok));
        case DoReads(addrs, core, cb) =>
          var oks := dram.Reads(addrs, cb, core);
          ctl := Some(SentAll(oks));
        case DoWrites(addrs, core, cb) =>
          var oks := dram.Writes(addrs, cb, core);
          ctl := Some(SentAll(oks));
      }
      assert dram.Valid() && DR.Grown(q, n, sim.queue, sim.nextId);
      StillLinked(q, n);
    }

    // -- Steps --------------------------------------------------------------------------------

    method LookAround()
      requires Linked()
      modifies this`ctl, sim
      ensures Linked() && Kept()
      ensures View() == Act(dram.cfg, dram.G(), old(View()), Observe)
    {
      assert Inside(Layer.Objects, true);
      HeapIsOrdered(sim.Whole());
      var next := sim.NextTime();
      ctl := Some(Observed(sim.now, sim.live, next, dram.mem.Pending(), dram.mem.clk));
    }

    method Perform(a: Action<C, V>)
      requires Linked()
      modifies this, dram, sim, sim.events, dram.mem, dram.mem.impl
      ensures Linked() && Kept()
      ensures View() == Act(dram.cfg, dram.G(), old(View()), a)
    {
      assert Inside(Layer.Objects, true);
      match a
      case OnSim(s) => OnSim(s);
      case OnDram(m) => OnDram(m);
      case Observe => LookAround();
      case Done =>
        ctl := None;
        sim.Finish();
      case Raise =>
        ctl, raised := None, true;
    }

    /** Takes the peeked event and runs its body, or hands control to the host. */
    method Fire()
      requires Valid() && ctl.None? && sim.heap != [] && !sim.heap[0].cancelled
      modifies this, dram, sim, sim.events, dram.mem, dram.mem.impl
      ensures Linked() && Kept()
      ensures old(dram.View()).agenda != []
      ensures View() == W.Fire(Coalescing, dram.cfg, dram.G(), old(View()), old(sim.runUntil))
    {
      ghost var w := View();
      var tag := Take();
      assert View() == w.(dev := D.Pop(w.dev));
      match tag
      case Call(cb, info) => Invoke(Completion(cb, info));
      case User(u) => Invoke(Woken(u.handle, u.v));
      case _ => RunChain(tag);
    }

    /** Takes the peeked event. */
    method Take() returns (tag: PlantTag<C, V>)
      requires Valid() && sim.heap != [] && !sim.heap[0].cancelled
      modifies sim
      ensures Linked() && Kept()
      ensures old(View()).dev.agenda != [] && View() == old(View()).(dev := D.Pop(old(View()).dev))
      ensures tag == old(View()).dev.agenda[0].what
      ensures !dram.idleTicking || tag.IdleTick? ==> DR.NoIdle(sim.queue)
    {
      assert Inside(Layer.Objects, true);
      HandledTail(sim.queue, ids);
      tag := sim.Begin();
      SaneMeans(dram.cfg, dram.G(), old(dram.View()));
      dram.EventTaken(old(sim.queue), old(dram.View()));
      ErasedTail(old(sim.queue));
    }

    /** The events of the two clock chains. */
    method RunChain(tag: PlantTag<C, V>)
      requires Linked() && (tag.Tick? || tag.IdleTick?) && (!dram.idleTicking || tag.IdleTick? ==> DR.NoIdle(sim.queue))
      modifies dram, sim, sim.events, dram.mem, dram.mem.impl
      ensures Linked() && Kept()
      ensures var d := old(dram.View());
              View() == old(View()).(dev :=
                if tag.Tick? then D.TickBody(dram.cfg, dram.G(), d,
                  BurstBound(Coalescing, dram.cfg, d, old(sim.runUntil)))
                else D.IdleBody(dram.cfg, dram.G(), d))
    {
      assert Inside(Layer.Objects, true);
      if tag.Tick? {
        dram.Tick();
      } else {
        dram.IdleTick();
      }
      StillLinked(old(sim.queue), old(sim.nextId));
      sim.Finish();
    }

    method Invoke(s: Stim<C, V>)
      modifies this`ctl, this`trace
      ensures ctl == Some(s) && trace == old(trace) + [Firing(sim.now, s)]
    {
      ctl := Some(s);
      trace := trace + [Firing(sim.now, s)];
    }

    /** One step of the host. */
    method Tell()
      requires Valid() && ctl.Some?
      modifies this, dram, sim, sim.events, dram.mem, dram.mem.impl
      ensures Linked() && Kept()
      ensures var (h, a) := program(old(host), old(ctl).value);
              View() == Act(dram.cfg, dram.G(), old(View()).(host := h), a)
    {
      var (h, a) := program(host, ctl.value);
      host := h;
      Perform(a);
    }

    /** The next event, when one is due within the horizon. */
    method Next() returns (moved: bool)
      requires Valid() && ctl.None? && !raised
      modifies this, dram, sim, sim.events, dram.mem, dram.mem.impl
      ensures Linked() && Kept()
      ensures moved <==> !Halted(old(View()), old(sim.runUntil))
      ensures moved ==> View() == W.Fire(Coalescing, dram.cfg, dram.G(), old(View()), old(sim.runUntil))
      ensures !moved ==> View() == old(View())
    {
      assert Inside(Layer.Objects, true);
      DR.GrownSelf(sim.queue, sim.nextId);
      var e := sim.Peek();
      if e == null || (sim.runUntil.Some? && sim.runUntil.value < e.time) {
        return false;
      }
      Fire();
      moved := true;
    }

    method Step() returns (moved: bool)
      requires Valid() && !raised
      modifies this, dram, sim, sim.events, dram.mem, dram.mem.impl
      ensures Valid() && Kept()
      ensures moved <==> !Halted(old(View()), old(sim.runUntil))
      ensures View() ==
              if moved then W.Step(Coalescing, dram.cfg, dram.G(), program, old(View()), old(sim.runUntil))
              else old(View())
    {
      if !Halted(View(), sim.runUntil) {
        StaysSane(dram.cfg, dram.G(), program, View(), sim.runUntil);
      }
      if ctl.Some? {
        Tell();
        moved := true;
      } else {
        moved := Next();
      }
    }

    /** `run(until)`, for at most `fuel` steps of the host and the simulator: exactly the world's run, and the
        horizon of the caller is back in place, also when a callback raised. */
    method Run(until: Option<int>, fuel: nat)
      requires Valid()
      modifies this, dram, sim, sim.events, dram.mem, dram.mem.impl
      ensures Valid() && Kept()
      ensures View() == W.Run(Coalescing, dram.cfg, dram.G(), program, old(View()), until, fuel)
    {
      var previous := SetHorizon(until);
      RunLoop(until, fuel);
      previous := SetHorizon(previous);
    }

    method SetHorizon(until: Option<int>) returns (previous: Option<int>)
      requires Valid()
      modifies sim`runUntil
      ensures Valid() && View() == old(View()) && sim.runUntil == until && previous == old(sim.runUntil)
    {
      assert Inside(Layer.Objects, true);
      previous := sim.SetHorizon(until);
      assert dram.IdsOk() && dram.Wired();
    }

    /** The loop of `run`. */
    method RunLoop(until: Option<int>, fuel: nat)
      requires Valid() && sim.runUntil == until
      modifies this, dram, sim, sim.events, dram.mem, dram.mem.impl
      ensures Valid() && Kept()
      ensures View() == W.Run(Coalescing, dram.cfg, dram.G(), program, old(View()), until, fuel)
    {
      var moved := true;
      ghost var n, w0 := 0, View();
      for i := 0 to fuel
        invariant Valid() && Kept() && moved && n == i && Reached(dram.cfg, dram.G(), program, w0, until, n, View())
      {
        if raised {
          break;
        }
        ghost var w := View();
        moved := Step();
        if !moved {
          break;
        }
        OneStepMore(dram.cfg, dram.G(), program, w0, until, n, w, View());
        n := n + 1;
      }
      ReachedIs(dram.cfg, dram.G(), program, w0, until, n, View(), fuel);
    }

    /** One step while the DRAM is busy or a callback runs: there always is one.  It is step `n + 1` of a flush that
        began in world `w0`. */
    method FlushStep(ghost m: Flush<E, C, V, H>, ghost w0: World<E, C, V, H>, ghost n: nat, ghost before: nat)
      returns (moved: bool)
      requires Valid() && !raised && (ctl.Some? || dram.G().pending(dram.mem.impl.mem) > 0)
      requires FlushesBy(dram.cfg, dram.G(), program, sim.runUntil, m) && Pumped(m, w0, n, View(), before)
      modifies this, dram, sim, sim.events, dram.mem, dram.mem.impl
      ensures Valid() && Kept() && moved
      ensures Pumped(m, w0, n + 1, View(), before + Bit(ctl.None?))
    {
      SaneMeans(dram.cfg, dram.G(), dram.View());
      StaysSane(dram.cfg, dram.G(), program, View(), sim.runUntil);
      ghost var w := View();
      if ctl.Some? {
        Tell();
        moved := true;
      } else {
        moved := FireNext();
      }
      PumpedOnceMore(dram.cfg, dram.G(), program, sim.runUntil, m, w0, n, w, View(), before);
    }

    /** `step`: the next event, whether or not it is due within the horizon. */
    method FireNext() returns (moved: bool)
      requires Valid() && ctl.None? && !raised
      modifies this, dram, sim, sim.events, dram.mem, dram.mem.impl
      ensures Linked() && Kept()
      ensures moved <==> !Halted(old(View()), None)
      ensures moved ==> View() == W.Fire(Coalescing, dram.cfg, dram.G(), old(View()), old(sim.runUntil))
      ensures !moved ==> View() == old(View())
    {
      assert Inside(Layer.Objects, true);
      DR.GrownSelf(sim.queue, sim.nextId);
      var e := sim.Peek();
      if e == null {
        return false;
      }
      Fire();
      moved := true;
    }

    /** `flush`: single steps until the DRAM is empty, between runs or inside one, whose horizon then clips the
        bursts; `n` counts the world's steps, at most `fuel`.  It never finds the simulator stalled, and a normal return
        means that the DRAM is empty and the flush has ended. */
    method Flush(max: int, fuel: nat) returns (r: Flushed, ghost n: nat)
      requires Valid() && ctl.None? && !raised
      modifies this, dram, sim, sim.events, dram.mem, dram.mem.impl
      ensures Valid() && Kept() && n <= fuel
      ensures View() == Machines.Iterate(Windows.Flusher(Coalescing, dram.cfg, dram.G(), program, old(sim.runUntil)),
                                         old(View()), n)
      ensures r != Stalled && (r.Interrupted? <==> raised)
      ensures r.Drained? ==>
                && dram.G().pending(dram.mem.impl.mem) == 0 && ctl.None? && (r.events < max || r.events == 0)
                && Windows.Flusher(Coalescing, dram.cfg, dram.G(), program, old(sim.runUntil)).stop(View())
      ensures r.NotDrained? ==> ctl.None?
      ensures var m := Windows.Flusher(Coalescing, dram.cfg, dram.G(), program, old(sim.runUntil));
              var fired := Windows.EventsFired(m, old(View()), n);
              && (r.Drained? ==> r.events == fired)
              && (r.NotDrained? ==> fired == if max < 1 then 1 else max)
    {
      ghost var w0 := View();
      ghost var m := Windows.Flusher(Coalescing, dram.cfg, dram.G(), program, sim.runUntil);
      var processed;
      r, n, processed := FlushLoop(max, fuel, m, w0);
      PumpedIs(m, w0, n, View(), processed);
      JudgedMeans(r, processed, max);
      EndedAreFired(m, w0, n);
    }

    method FlushLoop(max: int, fuel: nat, ghost m: Flush<E, C, V, H>, ghost w0: World<E, C, V, H>)
      returns (r: Flushed, ghost n: nat, processed: nat)
      requires Valid() && ctl.None? && !raised && w0 == View()
      requires FlushesBy(dram.cfg, dram.G(), program, sim.runUntil, m)
      modifies this, dram, sim, sim.events, dram.mem, dram.mem.impl
      ensures Valid() && Kept() && n <= fuel
      ensures Pumped(m, w0, n, View(), processed)
      ensures Judged(r, processed, max) && processed <= Windows.Max(1, max)
    {
      n, processed := 0, 0;
      var moved := true;
      PumpedStarts(m, w0);
      for i := 0 to fuel
        invariant Valid() && Kept() && moved && n <= i
        invariant Pumped(m, w0, n, View(), processed) && processed + Bit(ctl.Some?) <= Windows.Max(1, max)
      {
        r := Judge(moved, processed, max);
        if r != OutOfFuel {
          return;
        }
        JudgedMeans(r, processed, max);
        moved, processed := FlushRound(m, w0, n, processed, max);
        n := n + 1;
      }
      r := Judge(moved, processed, max);
    }

    /** One step of the world; an event has been processed when no callback is left running. */
    method FlushRound(ghost m: Flush<E, C, V, H>, ghost w0: World<E, C, V, H>, ghost n: nat, before: nat, max: int)
      returns (moved: bool, processed: nat)
      requires Valid() && GoesOn(before, max)
      requires FlushesBy(dram.cfg, dram.G(), program, sim.runUntil, m) && Pumped(m, w0, n, View(), before)
      modifies this, dram, sim, sim.events, dram.mem, dram.mem.impl
      ensures Valid() && Kept() && moved && Pumped(m, w0, n + 1, View(), processed)
      ensures processed + Bit(ctl.Some?) <= Windows.Max(1, max)
    {
      moved := FlushStep(m, w0, n, before);
      processed := before + (if ctl.None? then 1 else 0);
    }

    /** A flush that is not over: an event may be added to those that have ended. */
    ghost predicate GoesOn(ended: nat, max: int)
      reads this, dram, dram.mem, dram.mem.impl
    {
      && !raised && (ctl.Some? || dram.G().pending(dram.mem.impl.mem) > 0)
      && ended + 1 <= Windows.Max(1, max)
    }

    /** The tests of the loop, `OutOfFuel` to go on; guarded by `Inside`. */
    ghost predicate Judged(r: Flushed, processed: nat, max: int)
      reads this, dram, dram.mem, dram.mem.impl
    {
      forall u :: Inside(Layer.Runs, u) ==>
        r == if raised then Interrupted
             else if ctl.None? && 0 < processed && max <= processed then NotDrained
             else if ctl.None? && dram.G().pending(dram.mem.impl.mem) == 0 then Drained(processed)
             else OutOfFuel
    }

    lemma JudgedMeans(r: Flushed, processed: nat, max: int)
      requires Judged(r, processed, max)
      ensures r != Stalled && (r.Interrupted? <==> raised)
      ensures r == OutOfFuel && processed + Bit(ctl.Some?) <= Windows.Max(1, max) ==> GoesOn(processed, max)
      ensures r.Drained? ==>
                r.events == processed && dram.G().pending(dram.mem.impl.mem) == 0 && ctl.None? &&
                (processed < max || processed == 0)
      ensures r.NotDrained? ==> ctl.None? && 0 < processed && max <= processed
    {
      assert Inside(Layer.Runs, true);
    }

    method Judge(moved: bool, processed: nat, max: int) returns (r: Flushed)
      ensures if moved then Judged(r, processed, max) else r == Stalled
    {
      assert Inside(Layer.Runs, true);
      r := if !moved then Stalled
           else if raised then Interrupted
           else if ctl.None? && 0 < processed && max <= processed then NotDrained
           else if ctl.None? && dram.mem.Pending() == 0 then Drained(processed)
           else OutOfFuel;
    }
  }

  /** A new closed system: its objects, wired together, satisfy what running them needs. */
  method Build<E(!new), C(!new, ==), V, H>(
    cfg: D.Config, g: Engine<E, C>, mem: E, cacheline: int, program: Host<H, C, V>, host: H)
    returns (p: Plant<E, C, V, H>)
    requires cfg.Valid() && Prompt(g) && g.pending(mem) == 0
    ensures fresh(p) && p.Valid() && p.dram.cfg == cfg && p.dram.G() == g && p.program == program
    ensures var d := D.Dev(0, [], mem, 0, false, false, cfg.idleBase, [], [], [], [], [], 0);
            p.View() == World(Chains.Begun(cfg, d), host, Some(Between), false, 0, [])
  {
    var sim := new S.Simulator<PlantTag<C, V>>();
    ghost var d: D.Dev<E, C, Named<V>> := D.Dev(0, [], mem, 0, false, false, cfg.idleBase, [], [], [], [], [], 0);
    DR.NoneIdle(sim.queue);
    var dram := new DR.Dram<E, C, Named<V>>(sim, cfg, g, mem, cacheline);
    assert Chains.IsNew(cfg, g, d);
    Chains.BegunIsSound(cfg, g, d);
    p := new Plant(dram, program, host);
  }

  datatype Flushed = Drained(events: nat) | Stalled | NotDrained | Interrupted | OutOfFuel

  ghost predicate Reached<E, C, V, H>(
    cfg: D.Config, g: Engine<E, C>, host: Host<H, C, V>, w0: World<E, C, V, H>, h: D.Horizon, n: nat,
    w: World<E, C, V, H>)
    requires cfg.Valid()
  {
    forall u :: Inside(Layer.Lists, u) ==> w == W.Run(Coalescing, cfg, g, host, w0, h, n)
  }

  lemma ReachedIs<E, C, V, H>(
    cfg: D.Config, g: Engine<E, C>, host: Host<H, C, V>, w0: World<E, C, V, H>, h: D.Horizon, n: nat,
    w: World<E, C, V, H>, m: nat)
    requires cfg.Valid() && Reached(cfg, g, host, w0, h, n, w) && n <= m && (n == m || Halted(w, h))
    ensures w == W.Run(Coalescing, cfg, g, host, w0, h, m)
  {
    assert Inside(Layer.Lists, true);
    Co.RunSplit(Coalescing, cfg, g, host, w0, h, n, m - n);
  }

  lemma OneStepMore<E, C, V, H>(
    cfg: D.Config, g: Engine<E, C>, host: Host<H, C, V>, w0: World<E, C, V, H>, h: D.Horizon, n: nat,
    w: World<E, C, V, H>, w': World<E, C, V, H>)
    requires cfg.Valid() && Reached(cfg, g, host, w0, h, n, w) && !Halted(w, h)
    requires w' == W.Step(Coalescing, cfg, g, host, w, h)
    ensures Reached(cfg, g, host, w0, h, n + 1, w')
  {
    assert Inside(Layer.Lists, true);
    Co.RunSplit(Coalescing, cfg, g, host, w0, h, n, 1);
    Co.RunOnce(Coalescing, cfg, g, host, w, w', h, 0);
  }

  type Flush<!E, !C, !V, !H> = Machines.Machine<World<E, C, V, H>>

  /** `m` is the flush on this component under this horizon. */
  ghost predicate FlushesBy<E, C, V, H>(
    cfg: D.Config, g: Engine<E, C>, host: Host<H, C, V>, h: D.Horizon, m: Flush<E, C, V, H>)
    requires cfg.Valid()
  {
    forall u :: Inside(Layer.Runs, u) ==> m == Windows.Flusher(Coalescing, cfg, g, host, h)
  }

  /** `w` is step `n` of the flush, after which `ended` events are over. */
  ghost predicate Pumped<E, C, V, H>(
    m: Flush<E, C, V, H>, w0: World<E, C, V, H>, n: nat, w: World<E, C, V, H>, ended: nat) {
    forall u :: Inside(Layer.Runs, u) ==> w == Machines.Iterate(m, w0, n) && ended == Ended(m, w0, n)
  }

  /** After how many of the first `n` steps no callback is left running. */
  ghost function Ended<E, C, V, H>(m: Flush<E, C, V, H>, w0: World<E, C, V, H>, n: nat): nat {
    if n == 0 then 0 else Ended(m, w0, n - 1) + Bit(Machines.Iterate(m, w0, n).ctl.None?)
  }

  /** Every event that was fired is over, but for one whose callback is running. */
  lemma {:induction false} EndedAreFired<E, C, V, H>(m: Flush<E, C, V, H>, w0: World<E, C, V, H>, n: nat)
    requires w0.ctl.None?
    ensures Windows.EventsFired(m, w0, n) == Ended(m, w0, n) + Bit(Machines.Iterate(m, w0, n).ctl.Some?)
  {
    if n > 0 {
      EndedAreFired(m, w0, n - 1);
    }
  }

  lemma PumpedStarts<E, C, V, H>(m: Flush<E, C, V, H>, w0: World<E, C, V, H>)
    ensures Pumped(m, w0, 0, w0, 0)
  {
  }

  lemma PumpedIs<E, C, V, H>(m: Flush<E, C, V, H>, w0: World<E, C, V, H>, n: nat, w: World<E, C, V, H>, ended: nat)
    requires Pumped(m, w0, n, w, ended)
    ensures w == Machines.Iterate(m, w0, n) && ended == Ended(m, w0, n)
  {
    assert Inside(Layer.Runs, true);
  }

  lemma PumpedOnceMore<E, C, V, H>(
    cfg: D.Config, g: Engine<E, C>, host: Host<H, C, V>, h: D.Horizon, m: Flush<E, C, V, H>,
    w0: World<E, C, V, H>, n: nat, w: World<E, C, V, H>, w': World<E, C, V, H>, before: nat)
    requires cfg.Valid() && FlushesBy(cfg, g, host, h, m) && Pumped(m, w0, n, w, before)
    requires !Halted(w, None) && (w.ctl.Some? || g.pending(w.dev.mem) > 0)
    requires w' == W.Step(Coalescing, cfg, g, host, w, h)
    ensures Pumped(m, w0, n + 1, w', before + Bit(w'.ctl.None?))
  {
    assert Inside(Layer.Runs, true);
    Machines.IterateSplit(m, w0, n, 1);
    Machines.IterateOnce(m, w, w', 0);
  }
}

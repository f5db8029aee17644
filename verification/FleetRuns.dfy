/**
 Coalescing with several DRAM components on one simulator: bursts that clip each other change nothing that host code
 can see, and every component keeps its chain invariant.
 */
module FleetRuns {
  import opened Prelude
  import opened Agenda
  import opened Engine
  import opened Device
  import opened Chains
  import opened Machines
  import opened Fleet
  import W = World
  import Co = Coalescing

  // -- Two ways to look at one agenda ---------------------------------------------------

  lemma {:induction false} SignedSeen<C, V>(i: nat, q: seq<Entry<Job<C, V>>>)
    ensures Signed(i, Seen(i, q)) == q
  {
    if q != [] {
      SignedSeen(i, q[1..]);
      assert Seen(i, q)[1..] == Seen(i, q[1..]);
    }
  }

  lemma {:induction false} SeenOrder<C, V>(i: nat, q: seq<Entry<Job<C, V>>>)
    ensures Sorted(Seen(i, q)) <==> Sorted(q)
    ensures NextTime(Seen(i, q)) == NextTime(q) && |Seen(i, q)| == |q|
    ensures q != [] ==> Seen(i, q)[0] == Entry(q[0].time, q[0].prio, See(i, q[0].what))
    ensures q != [] ==> Seen(i, q)[1..] == Seen(i, q[1..])
  {
    if q != [] {
      SeenOrder(i, q[1..]);
      assert Seen(i, q)[1..] == Seen(i, q[1..]);
      if |q| > 1 {
        SeenOrder(i, q[1..]);
      }
    }
  }

  lemma {:induction false} SignedOrder<C, V>(i: nat, q: seq<Entry<Tag<C, Job<C, V>>>>)
    ensures Sorted(Signed(i, q)) <==> Sorted(q)
    ensures NextTime(Signed(i, q)) == NextTime(q) && |Signed(i, q)| == |q|
    ensures q != [] ==> Signed(i, q)[0].time == q[0].time && Signed(i, q)[0].prio == q[0].prio
  {
    if q != [] {
      SignedOrder(i, q[1..]);
      assert Signed(i, q)[1..] == Signed(i, q[1..]);
    }
  }

  lemma OneMore<X>(q: seq<Entry<X>>, x: X)
    requires q != []
    ensures Whats(q)[x] == (if q[0].what == x then 1 else 0) + Whats(q[1..])[x]
  {
  }

  lemma SeeIs<C, V>(i: nat, j: Job<C, V>, t: Tag<C, Job<C, V>>)
    ensures See(i, j) == t <==> j == Sign(i, t) && See(i, Sign(i, t)) == t
  {
  }

  lemma {:induction false} SeenWhats<C, V>(i: nat, q: seq<Entry<Job<C, V>>>, t: Tag<C, Job<C, V>>)
    ensures Whats(Seen(i, q))[t] == if See(i, Sign(i, t)) == t then Whats(q)[Sign(i, t)] else 0
  {
    if q != [] {
      SeenWhats(i, q[1..], t);
      assert Seen(i, q)[1..] == Seen(i, q[1..]) && Seen(i, q)[0].what == See(i, q[0].what);
      SeeIs(i, q[0].what, t);
      OneMore(q, Sign(i, t));
      OneMore(Seen(i, q), t);
    }
  }

  lemma SignIs<C, V>(i: nat, t: Tag<C, Job<C, V>>, j: Job<C, V>)
    ensures Sign(i, t) == j <==> t == Tag.User(j) || t == See(i, j)
  {
  }

  lemma {:induction false} SignedWhats<C, V>(i: nat, q: seq<Entry<Tag<C, Job<C, V>>>>, j: Job<C, V>)
    ensures var own := See(i, j);
            Whats(Signed(i, q))[j] == Whats(q)[Tag.User(j)] + (if own == Tag.User(j) then 0 else Whats(q)[own])
  {
    if q != [] {
      SignedWhats(i, q[1..], j);
      assert Signed(i, q)[1..] == Signed(i, q[1..]) && Signed(i, q)[0].what == Sign(i, q[0].what);
      SignIs(i, q[0].what, j);
      OneMore(q, Tag.User(j));
      OneMore(q, See(i, j));
      OneMore(Signed(i, q), j);
    }
  }

  // -- The invariant -------------------------------------------------------------------------

  ghost predicate UnitOk<E, C, V, H>(rig: Rig<E, C>, f: Fleet<E, C, V, H>, i: nat)
    requires i < |rig| == |f.units|
  {
    ChainInv(rig[i].cfg, rig[i].g, Focus(f, i))
  }

  /** The event of a component that does not exist. */
  predicate Stray<C, V>(j: Job<C, V>, n: nat) {
    !j.Hosted? && n <= j.i
  }

  ghost predicate InvBut<E, C(!new), V(!new), H>(rig: Rig<E, C>, f: Fleet<E, C, V, H>, i: nat) {
    && |f.units| == |rig|
    && Sorted(f.agenda) && From(f.agenda, f.now)
    && (forall j: Job<C, V> :: Stray(j, |rig|) ==> Whats(f.agenda)[j] == 0)
    && forall k :: 0 <= k < |rig| && k != i ==> UnitOk(rig, f, k)
  }

  /** Every component keeps the invariant of its clock chains. */
  ghost predicate Inv<E, C(!new), V(!new), H>(rig: Rig<E, C>, f: Fleet<E, C, V, H>) {
    InvBut(rig, f, |rig|)
  }

  ghost predicate PromptRig<E(!new), C(!new)>(rig: Rig<E, C>) {
    ValidRig(rig) && forall i :: 0 <= i < |rig| ==> Prompt(rig[i].g)
  }

  /** A component that did nothing, when its chain events are where they were. */
  lemma Untouched<E, C, V, H>(rig: Rig<E, C>, f: Fleet<E, C, V, H>, r: Fleet<E, C, V, H>, k: nat)
    requires k < |rig| == |f.units| == |r.units| && UnitOk(rig, f, k) && r.units[k] == f.units[k]
    requires Sorted(r.agenda) && From(r.agenda, r.now)
    requires Whats(r.agenda)[Busy(k)] == Whats(f.agenda)[Busy(k)]
    requires Whats(r.agenda)[Idle(k)] == Whats(f.agenda)[Idle(k)]
    ensures UnitOk(rig, r, k)
  {
    SeenOrder(k, r.agenda);
    SeenWhats(k, f.agenda, Tag.Tick);
    SeenWhats(k, f.agenda, Tag.IdleTick);
    SeenWhats(k, r.agenda, Tag.Tick);
    SeenWhats(k, r.agenda, Tag.IdleTick);
  }

  /** The events of others are as many as they were. */
  ghost predicate Foreign<E, C, U(!new)>(d: Dev<E, C, U>, r: Dev<E, C, U>) {
    forall u: U :: Whats(r.agenda)[Tag<C, U>.User(u)] == Whats(d.agenda)[Tag<C, U>.User(u)]
  }

  /** `r` is `f` after component `i` has moved to `d`, as far as the simulator and the components go. */
  ghost predicate IsMoved<E, C, V, H>(f: Fleet<E, C, V, H>, i: nat, d: Unit<E, C, V>, r: Fleet<E, C, V, H>)
    requires i < |f.units|
  {
    r.now == d.now && r.agenda == Signed(i, d.agenda) && r.units == f.units[i := d.(now := 0, agenda := [])]
  }

  lemma MovedCount<E, C(!new), V(!new), H>(
    f: Fleet<E, C, V, H>, i: nat, d: Unit<E, C, V>, r: Fleet<E, C, V, H>, j: Job<C, V>)
    requires i < |f.units| && Foreign(Focus(f, i), d) && IsMoved(f, i, d, r)
    ensures See(i, j) == Tag.User(j) ==> Whats(r.agenda)[j] == Whats(f.agenda)[j]
    ensures See(i, j) != Tag.User(j) ==> Whats(r.agenda)[j] == Whats(d.agenda)[See(i, j)]
  {
    SignedWhats(i, d.agenda, j);
    SeenWhats(i, f.agenda, Tag.User(j));
    assert Whats(d.agenda)[Tag.User(j)] == Whats(Focus(f, i).agenda)[Tag.User(j)];
  }

  lemma MovedOwn<E, C(!new), V(!new), H>(
    cfg: Config, g: Engine<E, C>, f: Fleet<E, C, V, H>, i: nat, d: Unit<E, C, V>, r: Fleet<E, C, V, H>)
    requires i < |f.units| && ChainInv(cfg, g, d) && Foreign(Focus(f, i), d) && IsMoved(f, i, d, r)
    ensures ChainInv(cfg, g, Focus(r, i))
  {
    SignedOrder(i, d.agenda);
    SeenOrder(i, r.agenda);
    SeenWhats(i, r.agenda, Tag.Tick);
    SeenWhats(i, r.agenda, Tag.IdleTick);
    MovedCount(f, i, d, r, Busy(i));
    MovedCount(f, i, d, r, Idle(i));
  }

  lemma MovedOther<E, C(!new), V(!new), H>(
    rig: Rig<E, C>, f: Fleet<E, C, V, H>, i: nat, d: Unit<E, C, V>, r: Fleet<E, C, V, H>, k: nat)
    requires i < |rig| == |f.units| && k < |rig| && k != i && UnitOk(rig, f, k)
    requires Ordered(d) && Foreign(Focus(f, i), d) && IsMoved(f, i, d, r)
    ensures UnitOk(rig, r, k)
  {
    SignedOrder(i, d.agenda);
    MovedCount(f, i, d, r, Busy(k));
    MovedCount(f, i, d, r, Idle(k));
    Untouched(rig, f, r, k);
  }

  /** A move of one component that leaves the events of others alone keeps every invariant. */
  lemma MovedKeeps<E, C(!new), V(!new), H>(
    rig: Rig<E, C>, f: Fleet<E, C, V, H>, i: nat, d: Unit<E, C, V>, r: Fleet<E, C, V, H>)
    requires i < |rig| && InvBut(rig, f, i) && ChainInv(rig[i].cfg, rig[i].g, d) && Foreign(Focus(f, i), d)
    requires IsMoved(f, i, d, r)
    ensures Inv(rig, r)
  {
    SignedOrder(i, d.agenda);
    forall j: Job<C, V> | Stray(j, |rig|)
      ensures Whats(r.agenda)[j] == 0
    {
      MovedCount(f, i, d, r, j);
    }
    forall k | 0 <= k < |rig|
      ensures UnitOk(rig, r, k)
    {
      if k == i {
        MovedOwn(rig[i].cfg, rig[i].g, f, i, d, r);
      } else {
        MovedOther(rig, f, i, d, r, k);
      }
    }
  }

  // -- What a component does to the events of others: nothing ------------------------------

  lemma AfterCyclesForeign<E, C, U(!new)>(cfg: Config, d: Dev<E, C, U>, cycles: nat, tag: Tag<C, U>)
    requires !tag.User?
    ensures Foreign(d, AfterCycles(cfg, d, cycles, tag))
  {
    WhatsInsert(d.agenda, Entry(d.now + cycles * cfg.period, 0, tag));
    forall u: U
      ensures (Whats(d.agenda) + multiset{tag})[Tag<C, U>.User(u)] == Whats(d.agenda)[Tag<C, U>.User(u)]
    {
    }
  }

  lemma StartTickingForeign<E, C, U(!new)>(cfg: Config, d: Dev<E, C, U>)
    ensures Foreign(d, StartTicking(cfg, d))
  {
    if !d.ticking {
      DropWhats(d.agenda, IsIdle);
      var d1 := if d.idleTicking then d.(idleTicking := false, agenda := Drop(d.agenda, IsIdle)) else d;
      AfterCyclesForeign(cfg, d1.(ticking := true), 1, Tag<C, U>.Tick);
    }
  }

  lemma StartIdleForeign<E, C, U(!new)>(cfg: Config, d: Dev<E, C, U>)
    ensures Foreign(d, StartIdleTicking(cfg, d))
  {
    AfterCyclesForeign(cfg, d.(idleTicking := true, idleBatch := cfg.idleBase), cfg.idleBase, Tag<C, U>.IdleTick);
  }

  /** The chain event that fires is the component's own. */
  lemma PopForeign<E, C, U(!new)>(d: Dev<E, C, U>)
    requires d.agenda != [] && !d.agenda[0].what.User?
    ensures Foreign(d, Pop(d))
  {
  }

  lemma SettleForeign<E, C, U(!new)>(cfg: Config, g: Engine<E, C>, d0: Dev<E, C, U>, b: Burst<E, C>)
    requires cfg.Valid() && ChainInv(cfg, g, d0) && d0.agenda != [] && d0.agenda[0].what == Tag.Tick
    requires 1 <= b.cycles
    requires From(Pop(d0).agenda, Pop(d0).now + (b.cycles - 1) * cfg.period)
    ensures Foreign(d0, Settle(cfg, g, Pop(d0), b))
  {
    PopFrame(d0);
    PopForeign(d0);
    var d1 := Advance(cfg, Pop(d0), b);
    assert d1.agenda == Pop(d0).agenda && Ordered(d1);
    DeliverForeign(cfg, d1);
    var d2 := Deliver(cfg, d1);
    ForeignTrans(d0, d1, d2);
    var d3 := d2.(ticking := false);
    if g.pending(d2.mem) > 0 {
      AfterCyclesForeign(cfg, d2, 1, Tag<C, U>.Tick);
      ForeignTrans(d0, d2, AfterCycles(cfg, d2, 1, Tag<C, U>.Tick));
    } else if cfg.idleRefresh {
      StartIdleForeign(cfg, d3);
      ForeignTrans(d0, d3, StartIdleTicking(cfg, d3));
    }
  }

  lemma ForeignTrans<E, C, U(!new)>(a: Dev<E, C, U>, b: Dev<E, C, U>, c: Dev<E, C, U>)
    requires Foreign(a, b) && Foreign(b, c)
    ensures Foreign(a, c)
  {
  }

  lemma DeliverForeign<E, C, U(!new)>(cfg: Config, d: Dev<E, C, U>)
    requires Ordered(d)
    ensures Foreign(d, Deliver(cfg, d))
  {
    DeliverFrame(cfg, d);
  }

  lemma TickForeign<E, C, U(!new)>(cfg: Config, g: Engine<E, C>, d0: Dev<E, C, U>, max: nat, h: Horizon)
    requires cfg.Valid() && ChainInv(cfg, g, d0) && d0.agenda != [] && d0.agenda[0].what == Tag.Tick
    requires 1 <= max
    requires forall k :: 1 <= k < max ==> FreeCycle(cfg.period, Pop(d0).now, NextTime(Pop(d0).agenda), h, k)
    ensures Foreign(d0, TickBody(cfg, g, Pop(d0), max))
  {
    PopFrame(d0);
    var d := Pop(d0);
    var b := UntilProgress(g, d.mem, max);
    assert b.cycles > 1 ==> FreeCycle(cfg.period, d.now, NextTime(d.agenda), h, b.cycles - 1);
    SettleForeign(cfg, g, d0, b);
  }

  lemma IdleForeign<E(!new), C(!new), U(!new)>(cfg: Config, g: Engine<E, C>, d0: Dev<E, C, U>)
    requires cfg.Valid() && Prompt(g) && ChainInv(cfg, g, d0)
    requires d0.agenda != [] && d0.agenda[0].what == Tag.IdleTick
    ensures Foreign(d0, IdleBody(cfg, g, Pop(d0)))
  {
    PopForeign(d0);
    var d := IdleBodyIs(cfg, g, d0);
    var next: nat := Min(d.idleBatch * 2, cfg.MaxIdle());
    AfterCyclesForeign(cfg, d.(idleTicking := false, idleBatch := cfg.idleBase, ticking := true), 1, Tag<C, U>.Tick);
    AfterCyclesForeign(cfg, d.(idleBatch := next), next, Tag<C, U>.IdleTick);
  }

  lemma ReadsForeign<E(!new), C(!new), U(!new)>(
    cfg: Config, g: Engine<E, C>, d: Dev<E, C, U>, addrs: seq<int>, core: int, cb: Option<C>)
    requires Prompt(g)
    ensures Foreign(d, Reads(cfg, g, d, addrs, core, cb).0)
  {
    SendAllFrame(g, d, addrs, READ, core, cb);
    StartTickingForeign(cfg, SendAll(g, d, addrs, READ, core, cb).0);
  }

  lemma WritesForeign<E(!new), C(!new), U(!new)>(
    cfg: Config, g: Engine<E, C>, d: Dev<E, C, U>, addrs: seq<int>, core: int, cb: Option<C>)
    requires Prompt(g) && Ordered(d)
    ensures Foreign(d, Writes(cfg, g, d, addrs, core, cb).0)
  {
    SendAllFrame(g, d, addrs, WRITE, core, cb);
    var (d1, oks) := SendAll(g, d, addrs, WRITE, core, cb);
    var d2 := Gather(d1, WriteNotes(addrs, oks, d1.clk, core, cb));
    DeliverFrame(cfg, d2);
    StartTickingForeign(cfg, Deliver(cfg, d2));
  }

  lemma ActDramForeign<E(!new), C(!new), U(!new), V>(
    cfg: Config, g: Engine<E, C>, d: Dev<E, C, U>, m: W.DramCall<C>)
    requires Prompt(g) && ChainInv(cfg, g, d)
    ensures Foreign(d, W.ActDram<E, C, U, V>(cfg, g, d, m).0)
  {
    match m
    case DoRead(addr, core, cb) =>
      ReadIsReads(cfg, g, d, addr, core, cb);
      ReadsForeign(cfg, g, d, [addr], core, cb);
    case DoWrite(addr, core, cb) =>
      WriteIsWrites(cfg, g, d, addr, core, cb);
      WritesForeign(cfg, g, d, [addr], core, cb);
    case DoReads(addrs, core, cb) => ReadsForeign(cfg, g, d, addrs, core, cb);
    case DoWrites(addrs, core, cb) => WritesForeign(cfg, g, d, addrs, core, cb);
  }

  // -- Every step keeps every invariant ---------------------------------------------------------

  /** Only the host's events came or went. */
  lemma HostKeeps<E, C(!new), V(!new), H>(rig: Rig<E, C>, f: Fleet<E, C, V, H>, r: Fleet<E, C, V, H>)
    requires Inv(rig, f) && r.units == f.units && Sorted(r.agenda) && From(r.agenda, r.now)
    requires forall j: Job<C, V> :: !j.Hosted? && !j.Answer? ==> Whats(r.agenda)[j] == Whats(f.agenda)[j]
    requires forall j: Job<C, V> :: j.Answer? ==> Whats(r.agenda)[j] <= Whats(f.agenda)[j]
    ensures Inv(rig, r)
  {
    forall k | 0 <= k < |rig|
      ensures UnitOk(rig, r, k)
    {
      Untouched(rig, f, r, k);
    }
  }

  lemma PushKeeps<E, C(!new), V(!new), H>(rig: Rig<E, C>, f: Fleet<E, C, V, H>, time: int, prio: int, v: V)
    requires Inv(rig, f) && f.now <= time
    ensures Inv(rig, Push(f, time, prio, v))
  {
    var e := Entry(time, prio, Job<C, V>.Hosted(W.Named(f.handles, v)));
    InsertSorted(f.agenda, e);
    InsertFrom(f.agenda, e, f.now);
    WhatsInsert(f.agenda, e);
    HostKeeps(rig, f, Push(f, time, prio, v));
  }

  lemma CancelKeeps<E, C(!new), V(!new), H>(
    rig: Rig<E, C>, f: Fleet<E, C, V, H>, dead: Job<C, V> -> bool, r: Fleet<E, C, V, H>)
    requires Inv(rig, f) && r.units == f.units && r.now == f.now && r.agenda == Drop(f.agenda, dead)
    requires forall j: Job<C, V> :: dead(j) ==> j.Hosted?
    ensures Inv(rig, r)
  {
    DropSorted(f.agenda, dead);
    DropWhats(f.agenda, dead);
    HostKeeps(rig, f, r);
  }

  lemma CallSimKeeps<E, C(!new), V(!new), H>(rig: Rig<E, C>, f: Fleet<E, C, V, H>, s: W.SimCall<V>)
    requires Inv(rig, f)
    ensures Inv(rig, CallSim(f, s))
  {
    match s {
      case Schedule(delay, prio, v) =>
        if 0 <= delay {
          PushKeeps(rig, f, f.now + delay, prio, v);
        } else {
          HostKeeps(rig, f, CallSim(f, s));
        }
      case ScheduleAt(time, prio, v) =>
        if f.now <= time {
          PushKeeps(rig, f, time, prio, v);
        } else {
          HostKeeps(rig, f, CallSim(f, s));
        }
      case Cancel(handle) =>
        CancelKeeps(rig, f, (j: Job<C, V>) => j.Hosted? && j.u.handle == handle, CallSim(f, s));
    }
  }

  lemma PerformKeeps<E(!new), C(!new), V(!new), H>(
    rig: Rig<E, C>, f: Fleet<E, C, V, H>, i: nat, a: W.Action<C, V>)
    requires PromptRig(rig) && Inv(rig, f)
    ensures Inv(rig, Perform(rig, f, i, a))
  {
    if a.OnSim? {
      CallSimKeeps(rig, f, a.s);
    } else if a.OnDram? && i < |rig| {
      assert UnitOk(rig, f, i);
      var d := Focus(f, i);
      Co.ActDramKeeps<E, C, Job<C, V>, V>(rig[i].cfg, rig[i].g, d, a.m);
      ActDramForeign<E, C, Job<C, V>, V>(rig[i].cfg, rig[i].g, d, a.m);
      MovedKeeps(rig, f, i, W.ActDram<E, C, Job<C, V>, V>(rig[i].cfg, rig[i].g, d, a.m).0, Perform(rig, f, i, a));
    } else {
      HostKeeps(rig, f, Perform(rig, f, i, a));
    }
  }

  /** The component whose event fires sees it fire. */
  lemma FocusPopped<E, C, V, H>(f: Fleet<E, C, V, H>, i: nat)
    requires i < |f.units| && f.agenda != []
    ensures Focus(f, i).agenda != [] && Focus(f, i).agenda[0].what == See(i, f.agenda[0].what)
    ensures Focus(Popped(f), i) == Pop(Focus(f, i))
    ensures NextTime(Focus(Popped(f), i).agenda) == NextTime(Popped(f).agenda)
  {
    SeenOrder(i, f.agenda);
    SeenOrder(i, f.agenda[1..]);
  }

  lemma NotStray<C(!new), V(!new)>(q: seq<Entry<Job<C, V>>>, n: nat)
    requires (forall j: Job<C, V> :: Stray(j, n) ==> Whats(q)[j] == 0) && q != []
    ensures !Stray(q[0].what, n)
  {
    WhatsMember(q, 0);
  }

  lemma FireBusyKeeps<E(!new), C(!new), V(!new), H>(
    rig: Rig<E, C>, f: Fleet<E, C, V, H>, i: nat, max: nat, h: Horizon, r: Fleet<E, C, V, H>)
    requires PromptRig(rig) && Inv(rig, f) && i < |rig| && f.agenda != [] && f.agenda[0].what == Busy(i)
    requires 1 <= max
    requires forall k :: 1 <= k < max ==> FreeCycle(rig[i].cfg.period, Popped(f).now, NextTime(Popped(f).agenda), h, k)
    requires r == Moved(Popped(f), i, TickBody(rig[i].cfg, rig[i].g, Focus(Popped(f), i), max))
    ensures Inv(rig, r)
  {
    FocusPopped(f, i);
    assert UnitOk(rig, f, i);
    TickKeeps(rig[i].cfg, rig[i].g, Focus(f, i), max, h);
    TickForeign(rig[i].cfg, rig[i].g, Focus(f, i), max, h);
    MovedKeeps(rig, f, i, TickBody(rig[i].cfg, rig[i].g, Focus(Popped(f), i), max), r);
  }

  lemma FireIdleKeeps<E(!new), C(!new), V(!new), H>(
    rig: Rig<E, C>, f: Fleet<E, C, V, H>, i: nat, r: Fleet<E, C, V, H>)
    requires PromptRig(rig) && Inv(rig, f) && i < |rig| && f.agenda != [] && f.agenda[0].what == Idle(i)
    requires r == Moved(Popped(f), i, IdleBody(rig[i].cfg, rig[i].g, Focus(Popped(f), i)))
    ensures Inv(rig, r)
  {
    FocusPopped(f, i);
    assert UnitOk(rig, f, i);
    IdleKeeps(rig[i].cfg, rig[i].g, Focus(f, i));
    IdleForeign(rig[i].cfg, rig[i].g, Focus(f, i));
    MovedKeeps(rig, f, i, IdleBody(rig[i].cfg, rig[i].g, Focus(Popped(f), i)), r);
  }

  lemma FireOtherKeeps<E(!new), C(!new), V(!new), H>(
    rig: Rig<E, C>, f: Fleet<E, C, V, H>, r: Fleet<E, C, V, H>)
    requires Inv(rig, f) && f.agenda != [] && !f.agenda[0].what.Busy? && !f.agenda[0].what.Idle?
    requires r.now == f.agenda[0].time && r.agenda == f.agenda[1..] && r.units == f.units
    ensures Inv(rig, r)
  {
    HostKeeps(rig, f, r);
  }

  lemma FireKeeps<E(!new), C(!new), V(!new), H>(mode: W.Mode, rig: Rig<E, C>, f: Fleet<E, C, V, H>, h: Horizon)
    requires PromptRig(rig) && Inv(rig, f) && f.agenda != []
    ensures Inv(rig, Fire(mode, rig, f, h))
  {
    NotStray(f.agenda, |rig|);
    var r := Fire(mode, rig, f, h);
    match f.agenda[0].what {
      case Busy(i) =>
        FocusPopped(f, i);
        FireBusyKeeps(rig, f, i, W.BurstBound(mode, rig[i].cfg, Focus(Popped(f), i), h), h, r);
      case Idle(i) => FireIdleKeeps(rig, f, i, r);
      case Answer(_, _, _) => FireOtherKeeps(rig, f, r);
      case Hosted(_) => FireOtherKeeps(rig, f, r);
    }
  }

  /** The chain invariants of all components, through every step of any host. */
  lemma StepKeeps<E(!new), C(!new), V(!new), H>(
    mode: W.Mode, rig: Rig<E, C>, crew: Crew<H, C, V>, f: Fleet<E, C, V, H>, h: Horizon)
    requires PromptRig(rig) && Inv(rig, f) && !Halted(f, h)
    ensures Inv(rig, Step(mode, rig, crew, f, h))
  {
    if f.ctl.Some? {
      var (host', i, a) := crew(f.host, f.ctl.value);
      var f1 := f.(host := host');
      HostKeeps(rig, f, f1);
      PerformKeeps(rig, f1, i, a);
    } else {
      FireKeeps(mode, rig, f, h);
    }
  }

  /** A component may be built on a simulator on which others are at work. */
  lemma JoinKeeps<E(!new), C(!new), V(!new), H>(rig: Rig<E, C>, f: Fleet<E, C, V, H>, p: Part<E, C>, mem: E)
    requires Inv(rig, f) && p.cfg.Valid() && p.g.pending(mem) == 0 && 0 <= f.now
    ensures Inv(rig + [p], Join(f, p.cfg, mem))
  {
    var n, d := |rig|, NewUnit(f, p.cfg, mem);
    var f1 := f.(units := f.units + [d]);
    SeenOrder(n, f.agenda);
    AllForeign(f.agenda, n);
    BegunIsSound(p.cfg, p.g, d);
    forall k | 0 <= k < n
      ensures UnitOk(rig + [p], f1, k)
    {
      assert UnitOk(rig, f, k) && Focus(f1, k) == Focus(f, k);
    }
    assert Focus(f1, n) == d;
    StartIdleForeign(p.cfg, d);
    MovedKeeps(rig + [p], f1, n, Begun(p.cfg, d), Join(f, p.cfg, mem));
  }

  /** A newcomer finds only events of others. */
  lemma {:induction false} AllForeign<C(!new), V(!new)>(q: seq<Entry<Job<C, V>>>, n: nat)
    requires forall j: Job<C, V> :: Stray(j, n) ==> Whats(q)[j] == 0
    ensures forall e :: e in Seen(n, q) ==> e.what.User?
  {
    if q != [] {
      NotStray(q, n);
      AllForeign(q[1..], n);
      assert Seen(n, q)[1..] == Seen(n, q[1..]);
    }
  }

  // -- One burst is a run of single ticks -------------------------------------------------------

  /** `run(until = h)` of the whole system. */
  function Runner<E, C, V, H>(mode: W.Mode, rig: Rig<E, C>, crew: Crew<H, C, V>, h: Horizon): Machine<Fleet<E, C, V, H>>
    requires ValidRig(rig)
  {
    Machine((f: Fleet<E, C, V, H>) => Halted(f, h) || |f.units| != |rig|,
            (f: Fleet<E, C, V, H>) =>
              if Halted(f, h) || |f.units| != |rig| then f else Step(mode, rig, crew, f, h))
  }

  /** The busy event of component `i` is next, and due. */
  ghost predicate TicksNext<E, C, V, H>(f: Fleet<E, C, V, H>, i: nat, h: Horizon) {
    i < |f.units| && f.ctl.None? && !Halted(f, h) && f.agenda[0].what == Busy(i)
  }

  /** A first cycle without progress, done without coalescing: the same event comes back one period later, in front of
      everything else, and what a burst would do from there is the rest of the burst. */
  lemma SecondCycle<E(!new), C(!new), V(!new), H>(
    rig: Rig<E, C>, crew: Crew<H, C, V>, f: Fleet<E, C, V, H>, i: nat, h: Horizon, max: nat)
    returns (f1: Fleet<E, C, V, H>)
    requires PromptRig(rig) && Inv(rig, f) && i < |rig| && TicksNext(f, i, h)
    requires 1 < max && Co.Legal(rig[i].cfg, Focus(Popped(f), i), h, max)
    requires var (e, s) := rig[i].g.tick(f.units[i].mem); !Progress(rig[i].g, e, s)
    ensures f1 == Step(W.EveryCycle, rig, crew, f, h) && |f1.units| == |rig| && TicksNext(f1, i, h)
    ensures Co.Legal(rig[i].cfg, Focus(Popped(f1), i), h, max - 1)
    ensures Moved(Popped(f), i, TickBody(rig[i].cfg, rig[i].g, Focus(Popped(f), i), max)) ==
            Moved(Popped(f1), i, TickBody(rig[i].cfg, rig[i].g, Focus(Popped(f1), i), max - 1))
  {
    NothingWaits(rig, f, i);
    var d1 := Co.QuietBurst(rig[i].cfg, rig[i].g, Focus(Popped(f), i), h, max);
    f1 := QuietStep(rig, crew, f, i, h, d1);
  }

  /** A component has no completions to deliver when its clock event fires. */
  lemma NothingWaits<E(!new), C(!new), V(!new), H>(rig: Rig<E, C>, f: Fleet<E, C, V, H>, i: nat)
    requires ValidRig(rig) && Inv(rig, f) && i < |rig| && f.agenda != []
    ensures Focus(Popped(f), i).completed == []
  {
    FocusPopped(f, i);
    assert UnitOk(rig, f, i);
  }

  lemma QuietStep<E, C, V, H>(
    rig: Rig<E, C>, crew: Crew<H, C, V>, f: Fleet<E, C, V, H>, i: nat, h: Horizon, d1: Unit<E, C, V>)
    returns (f1: Fleet<E, C, V, H>)
    requires ValidRig(rig) && |f.units| == |rig| && i < |rig| && TicksNext(f, i, h)
    requires var d := Focus(Popped(f), i);
             && d1 == d.(mem := d1.mem, clk := d1.clk, now := d1.now, served := d1.served, naps := d1.naps)
             && (d.agenda == [] || d1.now < d.agenda[0].time) && Within(d1.now, h)
             && TickBody(rig[i].cfg, rig[i].g, d, 1) ==
                d.(mem := d1.mem, clk := d1.clk, served := d1.served, naps := d1.naps,
                   agenda := [Entry(d1.now, 0, Tag<C, Job<C, V>>.Tick)] + d.agenda)
    ensures f1 == Step(W.EveryCycle, rig, crew, f, h) && |f1.units| == |rig| && TicksNext(f1, i, h)
    ensures Focus(Popped(f1), i) == d1
    ensures f1 == f.(now := f1.now, agenda := f1.agenda, units := f.units[i := f1.units[i]])
  {
    var d := Focus(Popped(f), i);
    var r := TickBody(rig[i].cfg, rig[i].g, d, 1);
    f1 := Moved(Popped(f), i, r);
    assert Step(W.EveryCycle, rig, crew, f, h) == Fire(W.EveryCycle, rig, f, h) == f1;
    SignedSeen(i, f.agenda[1..]);
    assert r.agenda[1..] == d.agenda;
    assert f1.agenda == [Entry(d1.now, 0, Job<C, V>.Busy(i))] + f.agenda[1..];
    assert f1.agenda[1..] == f.agenda[1..];
  }

  /** What a burst of component `i` starts from. */
  ghost predicate Bursting<E(!new), C(!new), V(!new), H>(
    rig: Rig<E, C>, f: Fleet<E, C, V, H>, i: nat, h: Horizon, max: nat, end: Fleet<E, C, V, H>)
  {
    forall u :: Inside(Layer.Lists, u) ==>
      && PromptRig(rig) && Inv(rig, f) && i < |rig| && TicksNext(f, i, h)
      && Co.Legal(rig[i].cfg, Focus(Popped(f), i), h, max)
      && end == Moved(Popped(f), i, TickBody(rig[i].cfg, rig[i].g, Focus(Popped(f), i), max))
  }

  /** Either the burst ends in its first cycle, or the rest of it starts one cycle later. */
  lemma BurstUnfolds<E(!new), C(!new), V(!new), H>(
    rig: Rig<E, C>, crew: Crew<H, C, V>, f: Fleet<E, C, V, H>, i: nat, h: Horizon, max: nat, end: Fleet<E, C, V, H>)
    returns (f1: Fleet<E, C, V, H>)
    requires ValidRig(rig) && Bursting(rig, f, i, h, max, end)
    ensures var m := Runner(W.EveryCycle, rig, crew, h); !m.stop(f) && m.step(f) == f1
    ensures f1 == end || (1 < max && Bursting(rig, f1, i, h, max - 1, end))
  {
    assert Inside(Layer.Lists, true);
    var (e, s) := rig[i].g.tick(f.units[i].mem);
    if Progress(rig[i].g, e, s) || max == 1 {
      OneTick(rig, crew, f, i, h, max, end);
      f1 := end;
    } else {
      f1 := SecondCycle(rig, crew, f, i, h, max);
      StepKeeps(W.EveryCycle, rig, crew, f, h);
      StepOf(rig, crew, f, h, f1);
    }
  }

  lemma {:induction false} BurstIsTicks<E(!new), C(!new), V(!new), H>(
    rig: Rig<E, C>, crew: Crew<H, C, V>, f: Fleet<E, C, V, H>, i: nat, h: Horizon, max: nat, end: Fleet<E, C, V, H>)
    returns (n: nat)
    requires ValidRig(rig) && Bursting(rig, f, i, h, max, end)
    ensures 1 <= n && Iterate(Runner(W.EveryCycle, rig, crew, h), f, n) == end
    decreases max
  {
    var m := Runner(W.EveryCycle, rig, crew, h);
    var f1 := BurstUnfolds(rig, crew, f, i, h, max, end);
    var n1 := 0;
    if f1 != end {
      n1 := BurstIsTicks(rig, crew, f1, i, h, max - 1, end);
    }
    IterateOnce(m, f, f1, n1);
    n := n1 + 1;
  }

  lemma StepOf<E, C, V, H>(rig: Rig<E, C>, crew: Crew<H, C, V>, f: Fleet<E, C, V, H>, h: Horizon, f1: Fleet<E, C, V, H>)
    requires ValidRig(rig) && |f.units| == |rig| && !Halted(f, h) && f1 == Step(W.EveryCycle, rig, crew, f, h)
    ensures var m := Runner(W.EveryCycle, rig, crew, h); !m.stop(f) && m.step(f) == f1
  {
  }

  /** A burst that ends in its first cycle. */
  lemma OneTick<E, C, V, H>(
    rig: Rig<E, C>, crew: Crew<H, C, V>, f: Fleet<E, C, V, H>, i: nat, h: Horizon, max: nat, end: Fleet<E, C, V, H>)
    requires ValidRig(rig) && |f.units| == |rig| && i < |rig| && TicksNext(f, i, h) && 1 <= max
    requires max == 1 || (var (e, s) := rig[i].g.tick(f.units[i].mem); Progress(rig[i].g, e, s))
    requires end == Moved(Popped(f), i, TickBody(rig[i].cfg, rig[i].g, Focus(Popped(f), i), max))
    ensures var m := Runner(W.EveryCycle, rig, crew, h); !m.stop(f) && m.step(f) == end
  {
    var (g, d) := (rig[i].g, Focus(Popped(f), i));
    assert UntilProgress(g, d.mem, max) == UntilProgress(g, d.mem, 1);
    StepOf(rig, crew, f, h, end);
  }

  /** Every step of the bursting system is one or more steps of the plain one. */
  lemma StepIsSteps<E(!new), C(!new), V(!new), H>(
    rig: Rig<E, C>, crew: Crew<H, C, V>, f: Fleet<E, C, V, H>, h: Horizon)
    requires PromptRig(rig) && Inv(rig, f) && !Halted(f, h)
    ensures Skips(Runner(W.EveryCycle, rig, crew, h), f, Step(W.Coalescing, rig, crew, f, h))
  {
    var m, end := Runner(W.EveryCycle, rig, crew, h), Step(W.Coalescing, rig, crew, f, h);
    if f.ctl.None? && f.agenda[0].what.Busy? {
      var i := f.agenda[0].what.i;
      NotStray(f.agenda, |rig|);
      FocusPopped(f, i);
      var max := W.BurstBound(W.Coalescing, rig[i].cfg, Focus(Popped(f), i), h);
      assert Bursting(rig, f, i, h, max, end);
      var n := BurstIsTicks(rig, crew, f, i, h, max, end);
    } else {
      assert m.step(f) == end;
      assert Iterate(m, f, 1) == Iterate(m, end, 0) == end;
    }
  }

  // -- Main results ------------------------------------------------------------------------------

  ghost function Kept<E, C(!new), V(!new), H>(rig: Rig<E, C>): Fleet<E, C, V, H> -> bool {
    (f: Fleet<E, C, V, H>) => Inv(rig, f)
  }

  lemma BurstsRefineTicks<E(!new), C(!new), V(!new), H(!new)>(
    rig: Rig<E, C>, crew: Crew<H, C, V>, h: Horizon, inv: Fleet<E, C, V, H> -> bool)
    requires PromptRig(rig) && inv == Kept(rig)
    ensures Refines(inv, Runner(W.Coalescing, rig, crew, h), Runner(W.EveryCycle, rig, crew, h))
  {
    forall f: Fleet<E, C, V, H> | inv(f) && !Halted(f, h)
      ensures var f' := Step(W.Coalescing, rig, crew, f, h);
              inv(f') && Skips(Runner(W.EveryCycle, rig, crew, h), f, f')
    {
      StepKeeps(W.Coalescing, rig, crew, f, h);
      StepIsSteps(rig, crew, f, h);
    }
  }

  /** Bursts of several components that clip each other end every run where single cycles end it. */
  lemma FleetPreservesRuns<E(!new), C(!new), V(!new), H(!new)>(
    rig: Rig<E, C>, crew: Crew<H, C, V>, f: Fleet<E, C, V, H>, h: Horizon)
    requires PromptRig(rig) && Inv(rig, f)
    ensures var fast, slow := Runner(W.Coalescing, rig, crew, h), Runner(W.EveryCycle, rig, crew, h);
            && (Ends(fast, f) <==> Ends(slow, f))
            && (Ends(fast, f) ==> EndOf(fast, f) == EndOf(slow, f) && Inv(rig, EndOf(fast, f)))
  {
    var inv := Kept(rig);
    BurstsRefineTicks(rig, crew, h, inv);
    RefinementPreservesEnds(inv, Runner(W.Coalescing, rig, crew, h), Runner(W.EveryCycle, rig, crew, h), f);
  }

  /** Host code gets control before a `run` call, unless an exception already ended the script. */
  function Open<E, C, V, H>(f: Fleet<E, C, V, H>): Fleet<E, C, V, H> {
    if f.raised then f else f.(ctl := Some(W.Between))
  }

  function Runners<E, C, V, H>(mode: W.Mode, rig: Rig<E, C>, crew: Crew<H, C, V>): Horizon -> Machine<Fleet<E, C, V, H>>
    requires ValidRig(rig)
  {
    (h: Horizon) => Runner(mode, rig, crew, h)
  }

  /** The same for a whole script of runs with host code in between. */
  lemma FleetPreservesScripts<E(!new), C(!new), V(!new), H(!new)>(
    rig: Rig<E, C>, crew: Crew<H, C, V>, f: Fleet<E, C, V, H>, hs: seq<Horizon>)
    requires PromptRig(rig) && Inv(rig, f)
    ensures var fast, slow := Runners(W.Coalescing, rig, crew), Runners(W.EveryCycle, rig, crew);
            && (ScriptEnds(Open, fast, f, hs) <==> ScriptEnds(Open, slow, f, hs))
            && (ScriptEnds(Open, fast, f, hs) ==> ScriptEndOf(Open, fast, f, hs) == ScriptEndOf(Open, slow, f, hs))
  {
    var inv := Kept(rig);
    forall h
      ensures Refines(inv, Runners(W.Coalescing, rig, crew)(h), Runners(W.EveryCycle, rig, crew)(h))
    {
      BurstsRefineTicks(rig, crew, h, inv);
    }
    forall f: Fleet<E, C, V, H> | inv(f)
      ensures inv(Open(f))
    {
      HostKeeps(rig, f, Open(f));
    }
    RefinementPreservesScripts(inv, Open, Runners(W.Coalescing, rig, crew), Runners(W.EveryCycle, rig, crew), f, hs);
  }

  /** `run(until = a); run(until = b)` is `run(until = b)`. */
  lemma FleetWindowsCompose<E(!new), C(!new), V(!new), H(!new)>(
    rig: Rig<E, C>, crew: Crew<H, C, V>, f: Fleet<E, C, V, H>, a: Horizon, b: Horizon)
    requires PromptRig(rig) && Inv(rig, f) && NoLater(a, b)
    ensures var short, long := Runner(W.Coalescing, rig, crew, a), Runner(W.Coalescing, rig, crew, b);
            && (Ends(long, f) <==> Ends(short, f) && Ends(long, EndOf(short, f)))
            && (Ends(long, f) ==> EndOf(long, EndOf(short, f)) == EndOf(long, f))
  {
    var inv := Kept(rig);
    BurstsRefineTicks(rig, crew, a, inv);
    BurstsRefineTicks(rig, crew, b, inv);
    RefinedRunsCompose(
      inv, Runner(W.Coalescing, rig, crew, a), Runner(W.EveryCycle, rig, crew, a),
      Runner(W.Coalescing, rig, crew, b), Runner(W.EveryCycle, rig, crew, b), f);
  }
}

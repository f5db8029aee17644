/**
 Coalescing empty DRAM cycles changes nothing that host code can see.

 The burst component and the component that spends one event on every DRAM cycle end each `run` in
 the same world: same engine, same clock, same agenda, same host state, same trace of callbacks.
 The statements cover every host, every engine that keeps `Prompt`, and every reachable world.
 */
module Coalescing {
  import opened Prelude
  import opened Agenda
  import opened Engine
  import opened Device
  import opened Chains
  import opened World
  import opened Machines

  // -- The chain invariant along a run ------------------------------------------------

  lemma PushUserKeeps<E, C, V, H>(cfg: Config, g: Engine<E, C>, w: World<E, C, V, H>, time: int, prio: int, v: V)
    requires ChainInv(cfg, g, w.dev) && w.dev.now <= time
    ensures ChainInv(cfg, g, PushUser(w, time, prio, v).dev)
    ensures PushUser(w, time, prio, v).dev.now == w.dev.now
  {
    OtherKeeps(cfg, g, w.dev, time, prio, Tag.User(Named(w.handles, v)));
  }

  lemma CancelKeeps<E, C, V>(cfg: Config, g: Engine<E, C>, d: Dev<E, C, Named<V>>, dead: Tag<C, Named<V>> -> bool)
    requires ChainInv(cfg, g, d) && !dead(Tag.Tick) && !dead(Tag.IdleTick)
    ensures ChainInv(cfg, g, d.(agenda := Drop(d.agenda, dead)))
  {
    DropSorted(d.agenda, dead);
    DropWhats(d.agenda, dead);
  }

  lemma ActSimKeeps<E(!new), C(!new), V, H>(cfg: Config, g: Engine<E, C>, w: World<E, C, V, H>, s: SimCall<V>)
    requires ChainInv(cfg, g, w.dev)
    ensures ChainInv(cfg, g, ActSim(w, s).dev) && ActSim(w, s).dev.now == w.dev.now
  {
    match s
    case Schedule(delay, prio, v) =>
      if 0 <= delay { PushUserKeeps(cfg, g, w, w.dev.now + delay, prio, v); }
    case ScheduleAt(time, prio, v) =>
      if w.dev.now <= time { PushUserKeeps(cfg, g, w, time, prio, v); }
    case Cancel(handle) =>
      CancelKeeps(cfg, g, w.dev, (t: Tag<C, Named<V>>) => Names(t, handle));
  }

  lemma ActDramKeeps<E(!new), C(!new), U, V>(cfg: Config, g: Engine<E, C>, d: Dev<E, C, U>, m: DramCall<C>)
    requires cfg.Valid() && Prompt(g) && ChainInv(cfg, g, d)
    ensures var (d', _) := ActDram<E, C, U, V>(cfg, g, d, m); ChainInv(cfg, g, d') && d'.now == d.now
  {
    match m
    case DoRead(addr, core, cb) => ReadKeeps(cfg, g, d, addr, core, cb);
    case DoWrite(addr, core, cb) => WriteKeeps(cfg, g, d, addr, core, cb);
    case DoReads(addrs, core, cb) => ReadsKeep(cfg, g, d, addrs, core, cb);
    case DoWrites(addrs, core, cb) => WritesKeep(cfg, g, d, addrs, core, cb);
  }

  lemma ActKeeps<E(!new), C(!new), V, H>(cfg: Config, g: Engine<E, C>, w: World<E, C, V, H>, a: Action<C, V>)
    requires cfg.Valid() && Prompt(g) && ChainInv(cfg, g, w.dev)
    ensures ChainInv(cfg, g, Act(cfg, g, w, a).dev)
    ensures Act(cfg, g, w, a).dev.now == w.dev.now
  {
    if a.OnSim? {
      ActSimKeeps(cfg, g, w, a.s);
    } else if a.OnDram? {
      ActDramKeeps<E, C, Named<V>, V>(cfg, g, w.dev, a.m);
    }
  }

  lemma FireKeeps<E(!new), C(!new), V, H>(mode: Mode, cfg: Config, g: Engine<E, C>, w: World<E, C, V, H>, h: Horizon)
    requires cfg.Valid() && Prompt(g) && ChainInv(cfg, g, w.dev) && w.dev.agenda != []
    ensures ChainInv(cfg, g, Fire(mode, cfg, g, w, h).dev)
  {
    PopFrame(w.dev);
    var d := Pop(w.dev);
    match w.dev.agenda[0].what
    case Tick => TickKeeps(cfg, g, w.dev, BurstBound(mode, cfg, d, h), h);
    case IdleTick => IdleKeeps(cfg, g, w.dev);
    case Call(_, _) =>
    case User(_) =>
  }

  /** The chain state machine: its invariant holds after every step of every run. */
  lemma StepKeeps<E(!new), C(!new), V, H>(
    mode: Mode, cfg: Config, g: Engine<E, C>, host: Host<H, C, V>, w: World<E, C, V, H>, h: Horizon)
    requires cfg.Valid() && Prompt(g) && ChainInv(cfg, g, w.dev) && !Halted(w, None)
    ensures ChainInv(cfg, g, Step(mode, cfg, g, host, w, h).dev)
  {
    if w.ctl.Some? {
      var (host', a) := host(w.host, w.ctl.value);
      ActKeeps(cfg, g, w.(host := host'), a);
    } else {
      FireKeeps(mode, cfg, g, w, h);
    }
  }

  lemma {:induction false} RunKeeps<E(!new), C(!new), V, H>(
    mode: Mode, cfg: Config, g: Engine<E, C>, host: Host<H, C, V>, w: World<E, C, V, H>, h: Horizon, n: nat)
    requires cfg.Valid() && Prompt(g) && ChainInv(cfg, g, w.dev)
    ensures ChainInv(cfg, g, Run(mode, cfg, g, host, w, h, n).dev)
    decreases n
  {
    if n > 0 && !Halted(w, h) {
      StepKeeps(mode, cfg, g, host, w, h);
      RunKeeps(mode, cfg, g, host, Step(mode, cfg, g, host, w, h), h, n - 1);
    }
  }

  // -- Runs ------------------------------------------------------------------------------

  lemma {:induction false} RunSplit<E, C, V, H>(
    mode: Mode, cfg: Config, g: Engine<E, C>, host: Host<H, C, V>, w: World<E, C, V, H>, h: Horizon, m: nat, n: nat)
    requires cfg.Valid()
    ensures Run(mode, cfg, g, host, w, h, m + n) == Run(mode, cfg, g, host, Run(mode, cfg, g, host, w, h, m), h, n)
    decreases m
  {
    if m > 0 && !Halted(w, h) {
      var w1 := Step(mode, cfg, g, host, w, h);
      RunSplit(mode, cfg, g, host, w1, h, m - 1, n);
      RunOnce(mode, cfg, g, host, w, w1, h, m - 1 + n);
      RunOnce(mode, cfg, g, host, w, w1, h, m - 1);
    }
  }

  // -- One burst is a run of single ticks ----------------------------------------------------

  /** One quiet cycle later. */
  function Later<E, C, U>(cfg: Config, g: Engine<E, C>, d: Dev<E, C, U>): Dev<E, C, U> {
    d.(mem := g.tick(d.mem).0, clk := d.clk + 1, now := d.now + cfg.period, served := d.served + g.tick(d.mem).1,
       naps := 0)
  }

  /** A first cycle without progress, done by the plain device: only a tick one period later. */
  lemma QuietTick<E, C, U>(cfg: Config, g: Engine<E, C>, d: Dev<E, C, U>, h: Horizon)
    requires cfg.Valid() && d.completed == []
    requires var (e, s) := g.tick(d.mem); !Progress(g, e, s)
    requires FreeCycle(cfg.period, d.now, NextTime(d.agenda), h, 1)
    ensures TickBody(cfg, g, d, 1) ==
            d.(mem := g.tick(d.mem).0, clk := d.clk + 1, served := d.served + g.tick(d.mem).1, naps := 0,
               agenda := [Entry(d.now + cfg.period, 0, Tag<C, U>.Tick)] + d.agenda)
  {
    var (e, s) := g.tick(d.mem);
    assert UntilProgress(g, d.mem, 1) == Burst(e, 1, []);
    assert d.completed + [] == [] && d.recorded + [] == d.recorded;
    var none: seq<Served<C>> := [];
    assert TickN(g, e, 0).1 == none && TickN(g, d.mem, 1).1 == s + none == s;
  }

  /** Delivery does not look at what the engine handed back. */
  lemma {:induction false} DeliverIgnores<E, C, U>(cfg: Config, d: Dev<E, C, U>, s: seq<Served<C>>, n: nat)
    ensures Deliver(cfg, d.(served := s, naps := n)) == Deliver(cfg, d).(served := s, naps := n)
    decreases |d.completed|
  {
    if d.completed != [] {
      var note := d.completed[0];
      var d1 := d.(completed := d.completed[1..]);
      DeliverIgnores(
        cfg, if note.user.None? then d1 else Post(cfg, d1, note.user.value, note.info), s, n);
    }
  }

  lemma GoOnIgnores<E, C, U>(cfg: Config, g: Engine<E, C>, d: Dev<E, C, U>, s: seq<Served<C>>, n: nat)
    ensures GoOn(cfg, g, d.(served := s, naps := n)) == GoOn(cfg, g, d).(served := s, naps := n)
  {
  }

  lemma SettleIgnores<E, C, U>(
    cfg: Config, g: Engine<E, C>, x: Dev<E, C, U>, y: Dev<E, C, U>, s: seq<Served<C>>)
    requires y == x.(served := y.served, naps := y.naps)
    ensures GoOn(cfg, g, Deliver(cfg, y)).(served := s, naps := 0) ==
            GoOn(cfg, g, Deliver(cfg, x)).(served := s, naps := 0)
  {
    var d := Deliver(cfg, x);
    assert Deliver(cfg, y) == d.(served := y.served, naps := y.naps) by {
      DeliverIgnores(cfg, x, y.served, y.naps);
    }
    GoOnIgnores(cfg, g, d, y.served, y.naps);
  }

  lemma UntilTail<E, C>(g: Engine<E, C>, e: E, max: nat) returns (b: Burst<E, C>)
    requires 1 < max
    requires var (e1, s) := g.tick(e); !Progress(g, e1, s)
    ensures var (e1, s) := g.tick(e);
            && b == UntilProgress(g, e1, max - 1) && UntilProgress(g, e, max) == b.(cycles := b.cycles + 1)
            && TickN(g, e, b.cycles + 1).1 == s + TickN(g, e1, b.cycles).1
  {
    b := UntilProgress(g, g.tick(e).0, max - 1);
  }

  /** The rest of a burst, seen from its second cycle. */
  lemma BurstTail<E, C, U>(cfg: Config, g: Engine<E, C>, d: Dev<E, C, U>, max: nat)
    requires cfg.Valid() && 1 < max
    requires var (e, s) := g.tick(d.mem); !Progress(g, e, s)
    ensures TickBody(cfg, g, d, max) == TickBody(cfg, g, Later(cfg, g, d), max - 1)
  {
    var b := UntilTail(g, d.mem, max);
    var d1 := Later(cfg, g, d);
    var b1 := b.(cycles := b.cycles + 1);
    var s := d.served + TickN(g, d.mem, b1.cycles).1;
    assert s == d1.served + TickN(g, d1.mem, b.cycles).1 by {
      Assoc(d.served, g.tick(d.mem).1, TickN(g, d1.mem, b.cycles).1);
    }
    assert Advance(cfg, d1, b) == Advance(cfg, d, b1).(served := d1.served, naps := 0) by {
      assert d.now + (b1.cycles - 1) * cfg.period == d1.now + (b.cycles - 1) * cfg.period;
    }
    SettleIgnores(cfg, g, Advance(cfg, d, b1), Advance(cfg, d1, b), s);
  }

  /** The last cycle of a burst may run unseen; then so may all before it. */
  predicate Legal<E, C, U>(cfg: Config, d: Dev<E, C, U>, h: Horizon, max: nat) {
    1 <= max && (max == 1 || FreeCycle(cfg.period, d.now, NextTime(d.agenda), h, max - 1))
  }

  /** A burst that is legal stays legal, one cycle shorter, from its second cycle. */
  lemma LegalTail<E, C, U>(cfg: Config, d: Dev<E, C, U>, d1: Dev<E, C, U>, h: Horizon, max: nat)
    requires cfg.Valid() && 1 < max && Legal(cfg, d, h, max)
    requires d1.now == d.now + cfg.period && d1.agenda == d.agenda
    ensures FreeCycle(cfg.period, d.now, NextTime(d.agenda), h, 1)
    ensures Legal(cfg, d1, h, max - 1)
  {
    Monotone(cfg.period, 1, max - 1);
    assert d1.now + (max - 2) * cfg.period == d.now + (max - 1) * cfg.period;
  }

  /** All of this for a first cycle without progress. */
  lemma QuietBurst<E, C, U>(cfg: Config, g: Engine<E, C>, d: Dev<E, C, U>, h: Horizon, max: nat)
    returns (d1: Dev<E, C, U>)
    requires cfg.Valid() && d.completed == [] && 1 < max && Legal(cfg, d, h, max)
    requires var (e, s) := g.tick(d.mem); !Progress(g, e, s)
    ensures d1 == d.(mem := d1.mem, clk := d1.clk, now := d1.now, served := d1.served, naps := d1.naps)
    ensures (d.agenda == [] || d1.now < d.agenda[0].time) && Within(d1.now, h) && Legal(cfg, d1, h, max - 1)
    ensures TickBody(cfg, g, d, 1) ==
            d.(mem := d1.mem, clk := d1.clk, served := d1.served, naps := d1.naps,
               agenda := [Entry(d1.now, 0, Tag<C, U>.Tick)] + d.agenda)
    ensures TickBody(cfg, g, d, max) == TickBody(cfg, g, d1, max - 1)
  {
    d1 := Later(cfg, g, d);
    LegalTail(cfg, d, d1, h, max);
    QuietTick(cfg, g, d, h);
    BurstTail(cfg, g, d, max);
  }

  lemma QuietStep<E, C, V, H>(
    cfg: Config, g: Engine<E, C>, host: Host<H, C, V>, w: World<E, C, V, H>, h: Horizon)
    requires cfg.Valid() && w.dev.completed == []
    requires w.ctl.None? && !Halted(w, h) && w.dev.agenda[0].what == Tag.Tick
    requires var (e, s) := g.tick(w.dev.mem); !Progress(g, e, s)
    requires FreeCycle(cfg.period, Pop(w.dev).now, NextTime(Pop(w.dev).agenda), h, 1)
    ensures var w1 := Step(EveryCycle, cfg, g, host, w, h);
            var d := Pop(w.dev);
            && w1.ctl.None? && !Halted(w1, h) && w1.dev.agenda[0].what == Tag.Tick
            && w1 == w.(dev := w1.dev)
            && Pop(w1.dev) == Later(cfg, g, d)
  {
    QuietTick(cfg, g, Pop(w.dev), h);
  }

  /** When the first cycle makes no progress, the burst may be handed to the second. */
  lemma SecondCycle<E(!new), C(!new), V, H>(
    cfg: Config, g: Engine<E, C>, host: Host<H, C, V>, w: World<E, C, V, H>, h: Horizon, max: nat)
    returns (w1: World<E, C, V, H>)
    requires cfg.Valid() && Prompt(g) && ChainInv(cfg, g, w.dev)
    requires w.ctl.None? && !Halted(w, h) && w.dev.agenda[0].what == Tag.Tick
    requires 1 < max && Legal(cfg, Pop(w.dev), h, max)
    requires var (e, s) := g.tick(w.dev.mem); !Progress(g, e, s)
    ensures w1 == Step(EveryCycle, cfg, g, host, w, h)
    ensures ChainInv(cfg, g, w1.dev)
    ensures w1.ctl.None? && !Halted(w1, h) && w1.dev.agenda[0].what == Tag.Tick
    ensures Legal(cfg, Pop(w1.dev), h, max - 1)
    ensures w.(dev := TickBody(cfg, g, Pop(w.dev), max)) == w1.(dev := TickBody(cfg, g, Pop(w1.dev), max - 1))
  {
    var d := Pop(w.dev);
    LegalTail(cfg, d, Later(cfg, g, d), h, max);
    QuietStep(cfg, g, host, w, h);
    StepKeeps(EveryCycle, cfg, g, host, w, h);
    BurstTail(cfg, g, d, max);
    w1 := Step(EveryCycle, cfg, g, host, w, h);
  }

  lemma RunOnce<E, C, V, H>(
    mode: Mode, cfg: Config, g: Engine<E, C>, host: Host<H, C, V>, w: World<E, C, V, H>, w1: World<E, C, V, H>,
    h: Horizon, n: nat)
    requires cfg.Valid() && !Halted(w, h) && w1 == Step(mode, cfg, g, host, w, h)
    ensures Run(mode, cfg, g, host, w, h, n + 1) == Run(mode, cfg, g, host, w1, h, n)
  {
  }

  /** A machine that takes the plain steps, at least while the DRAM is busy and its next event is due. */
  ghost predicate TakesTicks<E(!new), C(!new), V(!new), H(!new)>(
    cfg: Config, g: Engine<E, C>, host: Host<H, C, V>, h: Horizon, m: Machine<World<E, C, V, H>>)
    requires cfg.Valid()
  {
    forall w: World<E, C, V, H> :: w.ctl.None? && !Halted(w, h) && g.pending(w.dev.mem) > 0 ==>
      !m.stop(w) && m.step(w) == Step(EveryCycle, cfg, g, host, w, h)
  }

  lemma BusyAtTick<E, C, U>(cfg: Config, g: Engine<E, C>, d: Dev<E, C, U>)
    requires ChainInv(cfg, g, d) && d.agenda != [] && d.agenda[0].what == Tag.Tick
    ensures g.pending(d.mem) > 0
  {
    WhatsMember(d.agenda, 0);
  }

  /** What a burst starts from. */
  ghost predicate Bursting<E(!new), C(!new), V, H>(
    cfg: Config, g: Engine<E, C>, w: World<E, C, V, H>, h: Horizon, max: nat, end: World<E, C, V, H>)
  {
    forall u :: Inside(Layer.Lists, u) ==>
      && cfg.Valid() && Prompt(g) && ChainInv(cfg, g, w.dev)
      && w.ctl.None? && !Halted(w, h) && w.dev.agenda[0].what == Tag.Tick
      && Legal(cfg, Pop(w.dev), h, max) && end == w.(dev := TickBody(cfg, g, Pop(w.dev), max))
  }

  /** Either the burst ends in its first cycle, or the rest of it starts one cycle later. */
  lemma BurstUnfolds<E(!new), C(!new), V(!new), H(!new)>(
    cfg: Config, g: Engine<E, C>, host: Host<H, C, V>, w: World<E, C, V, H>, h: Horizon,
    m: Machine<World<E, C, V, H>>, max: nat, end: World<E, C, V, H>) returns (w1: World<E, C, V, H>)
    requires cfg.Valid() && Bursting(cfg, g, w, h, max, end) && TakesTicks(cfg, g, host, h, m)
    ensures !m.stop(w) && m.step(w) == w1
    ensures w1 == end || (1 < max && Bursting(cfg, g, w1, h, max - 1, end))
  {
    assert Inside(Layer.Lists, true);
    BusyAtTick(cfg, g, w.dev);
    var (e, s) := g.tick(w.dev.mem);
    if Progress(g, e, s) || max == 1 {
      OneTick(cfg, g, host, w, h, max);
      w1 := end;
    } else {
      w1 := SecondCycle(cfg, g, host, w, h, max);
    }
  }

  lemma {:induction false} BurstIsTicks<E(!new), C(!new), V(!new), H(!new)>(
    cfg: Config, g: Engine<E, C>, host: Host<H, C, V>, w: World<E, C, V, H>, h: Horizon,
    m: Machine<World<E, C, V, H>>, max: nat, end: World<E, C, V, H>) returns (n: nat)
    requires cfg.Valid() && Bursting(cfg, g, w, h, max, end) && TakesTicks(cfg, g, host, h, m)
    ensures 1 <= n && Iterate(m, w, n) == end
    decreases max
  {
    var w1 := BurstUnfolds(cfg, g, host, w, h, m, max, end);
    var n1 := 0;
    if w1 != end {
      n1 := BurstIsTicks(cfg, g, host, w1, h, m, max - 1, end);
    }
    IterateOnce(m, w, w1, n1);
    n := n1 + 1;
  }

  lemma OneTick<E, C, V, H>(
    cfg: Config, g: Engine<E, C>, host: Host<H, C, V>, w: World<E, C, V, H>, h: Horizon, max: nat)
    requires cfg.Valid() && w.ctl.None? && !Halted(w, None) && w.dev.agenda[0].what == Tag.Tick
    requires max == 1 || (1 < max && var (e, s) := g.tick(w.dev.mem); Progress(g, e, s))
    ensures Step(EveryCycle, cfg, g, host, w, h) == w.(dev := TickBody(cfg, g, Pop(w.dev), max))
  {
  }

  /** Every step of the burst device is one or more steps of the plain device, due within the horizon or not. */
  lemma StepIsSteps<E(!new), C(!new), V(!new), H(!new)>(
    cfg: Config, g: Engine<E, C>, host: Host<H, C, V>, w: World<E, C, V, H>, h: Horizon,
    m: Machine<World<E, C, V, H>>)
    requires cfg.Valid() && Prompt(g) && ChainInv(cfg, g, w.dev) && !Halted(w, None)
    requires TakesTicks(cfg, g, host, h, m) && !m.stop(w) && m.step(w) == Step(EveryCycle, cfg, g, host, w, h)
    ensures Skips(m, w, Step(Coalescing, cfg, g, host, w, h))
  {
    var end := Step(Coalescing, cfg, g, host, w, h);
    if w.ctl.None? && w.dev.agenda[0].what == Tag.Tick {
      var max := BurstBound(Coalescing, cfg, Pop(w.dev), h);
      if Halted(w, h) {
        assert max == 1;
        OneTick(cfg, g, host, w, h, max);
        IterateOnce(m, w, end, 0);
      } else {
        assert Bursting(cfg, g, w, h, max, end);
        var n := BurstIsTicks(cfg, g, host, w, h, m, max, end);
      }
    } else {
      IterateOnce(m, w, end, 0);
    }
  }
}

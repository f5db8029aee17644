/**
 How far DRAM time trails simulator time.

 A chain event at time t that stands for c cycles leaves a lag of t - (cycles + c) * period.  Bursts,
 idle batches and the switch from busy to idle keep the lag exactly; waking from idle adds the part
 of the cancelled idle interval that had already passed, which is never counted.
 */
module ClockLag {
  import opened Prelude
  import opened Agenda
  import opened Engine
  import opened Device
  import opened Chains
  import opened World
  import opened Coalescing

  /** Time of the first entry marked `x`; 0 when there is none. */
  ghost function TimeOf<X>(q: seq<Entry<X>>, x: X): int {
    if q == [] then 0 else if q[0].what == x then q[0].time else TimeOf(q[1..], x)
  }

  lemma {:induction false} TimeOfInsertOther<X>(q: seq<Entry<X>>, e: Entry<X>, x: X)
    requires e.what != x
    ensures TimeOf(Insert(q, e), x) == TimeOf(q, x)
  {
    if q != [] && NotAfter(q[0], e) {
      TimeOfInsertOther(q[1..], e, x);
      assert Insert(q, e)[1..] == Insert(q[1..], e);
    } else {
      assert ([e] + q)[1..] == q;
    }
  }

  lemma {:induction false} TimeOfInsertNew<X>(q: seq<Entry<X>>, e: Entry<X>)
    requires e.what !in Whats(q)
    ensures TimeOf(Insert(q, e), e.what) == e.time
  {
    if q != [] && NotAfter(q[0], e) {
      TimeOfInsertNew(q[1..], e);
      assert Insert(q, e)[1..] == Insert(q[1..], e);
    }
  }

  lemma {:induction false} TimeOfDrop<X>(q: seq<Entry<X>>, dead: X -> bool, x: X)
    requires !dead(x)
    ensures TimeOf(Drop(q, dead), x) == TimeOf(q, x)
  {
    if q != [] {
      TimeOfDrop(q[1..], dead, x);
      if !dead(q[0].what) {
        assert Drop(q, dead)[1..] == Drop(q[1..], dead);
      }
    }
  }

  lemma {:induction false} TimeOfFrom<X>(q: seq<Entry<X>>, x: X, t: int)
    requires Sorted(q) && From(q, t) && x in Whats(q)
    ensures t <= TimeOf(q, x)
  {
    if q[0].what != x {
      TimeOfFrom(q[1..], x, t);
    }
  }

  lemma {:induction false} TimeOfDeliver<E, C, U>(cfg: Config, d: Dev<E, C, U>, x: Tag<C, U>)
    requires !x.Call?
    ensures TimeOf(Deliver(cfg, d).agenda, x) == TimeOf(d.agenda, x)
    decreases |d.completed|
  {
    if d.completed != [] {
      var n := d.completed[0];
      var d1 := d.(completed := d.completed[1..]);
      if n.user.None? {
        TimeOfDeliver(cfg, d1, x);
      } else {
        TimeOfInsertOther(d1.agenda, Entry(d1.now, cfg.priority, Tag.Call(n.user.value, n.info)), x);
        TimeOfDeliver(cfg, Post(cfg, d1, n.user.value, n.info), x);
      }
    }
  }

  // -- The lag -----------------------------------------------------------------------

  function Span(cfg: Config, cycles: int): int {
    cycles * cfg.period
  }

  lemma SpanAdds(cfg: Config, a: int, b: int)
    ensures Span(cfg, a + b) == Span(cfg, a) + Span(cfg, b)
  {
  }

  /** The pending chain event: its time, and the cycles it stands for. */
  ghost function ChainTime<E, C, U>(d: Dev<E, C, U>): int {
    if d.ticking then TimeOf(d.agenda, Tag.Tick) else TimeOf(d.agenda, Tag.IdleTick)
  }

  function ChainCycles<E, C, U>(d: Dev<E, C, U>): nat {
    if d.ticking then 1 else d.idleBatch
  }

  ghost function Lag<E, C, U>(cfg: Config, d: Dev<E, C, U>): int {
    ChainTime(d) - Span(cfg, d.clk + ChainCycles(d))
  }

  /** DRAM time never runs ahead, and the pending chain event will not make it do so. */
  ghost predicate Synced<E, C, U>(cfg: Config, d: Dev<E, C, U>) {
    && Span(cfg, d.clk) <= d.now
    && (d.ticking || d.idleTicking ==> 0 <= Lag(cfg, d))
    && (d.idleTicking ==> ChainTime(d) - Span(cfg, d.idleBatch) <= d.now)
  }

  /** Simulator time that the cancelled idle event had been waiting. */
  ghost function Elapsed<E, C, U>(cfg: Config, d: Dev<E, C, U>): int {
    d.now - (ChainTime(d) - Span(cfg, d.idleBatch))
  }

  /** A chain event scheduled now leaves the lag that the clocks have now. */
  lemma ChainStarts<E, C, U>(cfg: Config, d: Dev<E, C, U>, cycles: int, tag: Tag<C, U>)
    requires tag !in Whats(d.agenda)
    ensures var t := TimeOf(AfterCycles(cfg, d, cycles, tag).agenda, tag);
            && t - Span(cfg, d.clk + cycles) == d.now - Span(cfg, d.clk)
            && t - Span(cfg, cycles) == d.now
  {
    TimeOfInsertNew(d.agenda, Entry(d.now + cycles * cfg.period, 0, tag));
    SpanAdds(cfg, d.clk, cycles);
  }

  /** Where the clocks stand after `cycles` cycles that start at the chain event. */
  lemma BurstClocks<E, C, U>(cfg: Config, d0: Dev<E, C, U>, cycles: nat)
    requires cfg.Valid() && d0.ticking && d0.agenda != [] && d0.agenda[0].what == Tag.Tick && 1 <= cycles
    ensures Pop(d0).now + (cycles - 1) * cfg.period - Span(cfg, d0.clk + cycles) == Lag(cfg, d0)
    ensures Pop(d0).now <= Pop(d0).now + (cycles - 1) * cfg.period
  {
    SpanAdds(cfg, d0.clk + 1, cycles - 1);
    Monotone(cfg.period, 0, cycles - 1);
  }

  /** What the body of a tick does once the burst is over and the completions are out. */
  lemma AfterBurst<E, C, U>(cfg: Config, g: Engine<E, C>, d: Dev<E, C, U>)
    requires Whats(d.agenda)[Tag.Tick] == 0 && Whats(d.agenda)[Tag.IdleTick] == 0
    requires d.ticking && !d.idleTicking && Span(cfg, d.clk) <= d.now
    ensures var r := if g.pending(d.mem) > 0 then AfterCycles(cfg, d, 1, Tag.Tick)
                     else if cfg.idleRefresh then StartIdleTicking(cfg, d.(ticking := false))
                     else d.(ticking := false);
            && r.clk == d.clk && r.now == d.now
            && (r.ticking || r.idleTicking ==> Lag(cfg, r) == d.now - Span(cfg, d.clk))
            && Synced(cfg, r)
  {
    if g.pending(d.mem) > 0 {
      ChainStarts(cfg, d, 1, Tag.Tick);
    } else if cfg.idleRefresh {
      var d3 := d.(ticking := false, idleTicking := true, idleBatch := cfg.idleBase);
      ChainStarts(cfg, d3, cfg.idleBase, Tag<C, U>.IdleTick);
    }
  }

  lemma BurstDelivered<E, C, U>(
    cfg: Config, g: Engine<E, C>, d0: Dev<E, C, U>, b: Burst<E, C>) returns (d2: Dev<E, C, U>)
    requires cfg.Valid() && ChainInv(cfg, g, d0) && Synced(cfg, d0)
    requires d0.agenda != [] && d0.agenda[0].what == Tag.Tick && 1 <= b.cycles
    requires From(Pop(d0).agenda, Pop(d0).now + (b.cycles - 1) * cfg.period)
    ensures d2 == Deliver(cfg, Advance(cfg, Pop(d0), b))
    ensures Whats(d2.agenda)[Tag.Tick] == 0 && Whats(d2.agenda)[Tag.IdleTick] == 0
    ensures d2.ticking && !d2.idleTicking && d2.now - Span(cfg, d2.clk) == Lag(cfg, d0)
  {
    PopFrame(d0);
    WhatsMember(d0.agenda, 0);
    BurstClocks(cfg, d0, b.cycles);
    var d1 := Advance(cfg, Pop(d0), b);
    assert d1.clk == d0.clk + b.cycles && d1.now == Pop(d0).now + (b.cycles - 1) * cfg.period;
    assert Ordered(d1) && d1.ticking && !d1.idleTicking;
    DeliverFrame(cfg, d1);
    d2 := Deliver(cfg, d1);
  }

  /** Bursts of any length, and the switch from busy to idle, keep the lag. */
  lemma BurstKeepsLag<E, C, U>(cfg: Config, g: Engine<E, C>, d0: Dev<E, C, U>, b: Burst<E, C>)
    requires cfg.Valid() && ChainInv(cfg, g, d0) && Synced(cfg, d0)
    requires d0.agenda != [] && d0.agenda[0].what == Tag.Tick && 1 <= b.cycles
    requires From(Pop(d0).agenda, Pop(d0).now + (b.cycles - 1) * cfg.period)
    ensures var d := Settle(cfg, g, Pop(d0), b);
            && d.now - Span(cfg, d.clk) == Lag(cfg, d0)
            && (d.ticking || d.idleTicking ==> Lag(cfg, d) == Lag(cfg, d0))
            && Synced(cfg, d)
  {
    var lag := Lag(cfg, d0);
    assert 0 <= lag by {
      PopFrame(d0);
    }
    var d2 := BurstDelivered(cfg, g, d0, b);
    AfterBurst(cfg, g, d2);
  }

  /** An idle batch keeps the lag, whatever the back-off has grown to; so does the hand-over to the busy chain
      when its cycles left something pending. */
  lemma IdleKeepsLag<E(!new), C(!new), U>(cfg: Config, g: Engine<E, C>, d0: Dev<E, C, U>)
    requires cfg.Valid() && Prompt(g) && ChainInv(cfg, g, d0) && Synced(cfg, d0)
    requires d0.agenda != [] && d0.agenda[0].what == Tag.IdleTick
    ensures var d := IdleBody(cfg, g, Pop(d0)); Synced(cfg, d) && Lag(cfg, d) == Lag(cfg, d0)
  {
    PopFrame(d0);
    var d := IdleBodyIs(cfg, g, d0);
    if g.pending(d.mem) > 0 {
      HandsOver(cfg, d.(idleTicking := false, idleBatch := cfg.idleBase, ticking := true), Lag(cfg, d0));
    } else {
      var next: nat := Min(d.idleBatch * 2, cfg.MaxIdle());
      IdleRestarts(cfg, d.(idleBatch := next), Lag(cfg, d0));
    }
  }

  lemma HandsOver<E, C, U>(cfg: Config, d: Dev<E, C, U>, lag: int)
    requires d.ticking && !d.idleTicking && Whats(d.agenda)[Tag.Tick] == 0
    requires d.now - Span(cfg, d.clk) == lag && 0 <= lag
    ensures var r := AfterCycles(cfg, d, 1, Tag.Tick); Synced(cfg, r) && Lag(cfg, r) == lag
  {
    ChainStarts(cfg, d, 1, Tag.Tick);
  }

  lemma IdleRestarts<E, C, U>(cfg: Config, d: Dev<E, C, U>, lag: int)
    requires !d.ticking && d.idleTicking && Whats(d.agenda)[Tag.IdleTick] == 0
    requires d.now - Span(cfg, d.clk) == lag && 0 <= lag
    ensures var r := AfterCycles(cfg, d, d.idleBatch, IdleTick); Synced(cfg, r) && Lag(cfg, r) == lag
  {
    ChainStarts(cfg, d, d.idleBatch, Tag.IdleTick);
  }

  /** Waking from idle: the lag grows by exactly the elapsed part of the idle interval, which is bounded. */
  lemma WakeGrowsLag<E, C, U>(cfg: Config, g: Engine<E, C>, d: Dev<E, C, U>)
    requires cfg.Valid() && Ordered(d) && Flags(d) && Synced(cfg, d) && d.idleTicking && !d.ticking
    requires d.idleBatch <= cfg.MaxIdle()
    ensures Lag(cfg, StartTicking(cfg, d)) == Lag(cfg, d) + Elapsed(cfg, d)
    ensures 0 <= Elapsed(cfg, d) <= Span(cfg, d.idleBatch) <= Span(cfg, 16 * cfg.idleBase)
    ensures Synced(cfg, StartTicking(cfg, d))
  {
    var d1 := d.(idleTicking := false, agenda := Drop(d.agenda, IsIdle), ticking := true);
    DropWhats(d.agenda, IsIdle);
    ChainStarts(cfg, d1, 1, Tag.Tick);
    SpanAdds(cfg, d.clk, d.idleBatch);
    TimeOfFrom(d.agenda, Tag.IdleTick, d.now);
    Monotone(cfg.period, d.idleBatch, 16 * cfg.idleBase);
  }

  lemma StartTickingSynced<E, C, U>(cfg: Config, g: Engine<E, C>, d: Dev<E, C, U>)
    requires cfg.Valid() && Ordered(d) && Flags(d) && Synced(cfg, d) && !(d.ticking && d.idleTicking)
    requires d.idleBatch <= cfg.MaxIdle()
    ensures Synced(cfg, StartTicking(cfg, d))
  {
    if d.idleTicking {
      WakeGrowsLag(cfg, g, d);
    } else if !d.ticking {
      ChainStarts(cfg, d.(ticking := true), 1, Tag.Tick);
    }
  }

  // -- Along every run -------------------------------------------------------------------

  lemma ReadsSynced<E(!new), C(!new), U>(
    cfg: Config, g: Engine<E, C>, d: Dev<E, C, U>, addrs: seq<int>, core: int, cb: Option<C>)
    requires cfg.Valid() && Prompt(g) && ChainInv(cfg, g, d) && Synced(cfg, d)
    ensures Synced(cfg, Reads(cfg, g, d, addrs, core, cb).0)
  {
    if CoreOk(cfg, core) {
      SendAllFrame(g, d, addrs, READ, core, cb);
      StartTickingSynced(cfg, g, SendAll(g, d, addrs, READ, core, cb).0);
    }
  }

  lemma DeliverSynced<E, C, U>(cfg: Config, d: Dev<E, C, U>)
    requires Ordered(d) && Synced(cfg, d)
    ensures Synced(cfg, Deliver(cfg, d))
  {
    DeliverFrame(cfg, d);
    TimeOfDeliver(cfg, d, Tag.Tick);
    TimeOfDeliver(cfg, d, Tag.IdleTick);
  }

  lemma WritesSynced<E(!new), C(!new), U>(
    cfg: Config, g: Engine<E, C>, d: Dev<E, C, U>, addrs: seq<int>, core: int, cb: Option<C>)
    requires cfg.Valid() && Prompt(g) && ChainInv(cfg, g, d) && Synced(cfg, d)
    ensures Synced(cfg, Writes(cfg, g, d, addrs, core, cb).0)
  {
    if CoreOk(cfg, core) {
      SendAllFrame(g, d, addrs, WRITE, core, cb);
      var (d1, oks) := SendAll(g, d, addrs, WRITE, core, cb);
      var d2 := Gather(d1, WriteNotes(addrs, oks, d1.clk, core, cb));
      assert Synced(cfg, d2);
      DeliverSynced(cfg, d2);
      DeliverFrame(cfg, d2);
      StartTickingSynced(cfg, g, Deliver(cfg, d2));
    }
  }

  lemma ReadSynced<E(!new), C(!new), U>(
    cfg: Config, g: Engine<E, C>, d: Dev<E, C, U>, addr: int, core: int, cb: Option<C>)
    requires cfg.Valid() && Prompt(g) && ChainInv(cfg, g, d) && Synced(cfg, d)
    ensures Synced(cfg, Read(cfg, g, d, addr, core, cb).0)
  {
    ReadIsReads(cfg, g, d, addr, core, cb);
    ReadsSynced(cfg, g, d, [addr], core, cb);
  }

  lemma WriteSynced<E(!new), C(!new), U>(
    cfg: Config, g: Engine<E, C>, d: Dev<E, C, U>, addr: int, core: int, cb: Option<C>)
    requires cfg.Valid() && Prompt(g) && ChainInv(cfg, g, d) && Synced(cfg, d)
    ensures Synced(cfg, Write(cfg, g, d, addr, core, cb).0)
  {
    WriteIsWrites(cfg, g, d, addr, core, cb);
    WritesSynced(cfg, g, d, [addr], core, cb);
  }

  lemma CancelSynced<E, C, V>(cfg: Config, d: Dev<E, C, Named<V>>, dead: Tag<C, Named<V>> -> bool)
    requires Synced(cfg, d) && !dead(Tag.Tick) && !dead(Tag.IdleTick)
    ensures Synced(cfg, d.(agenda := Drop(d.agenda, dead)))
  {
    TimeOfDrop(d.agenda, dead, Tag.Tick);
    TimeOfDrop(d.agenda, dead, Tag.IdleTick);
  }

  lemma ActDramSynced<E(!new), C(!new), U, V>(cfg: Config, g: Engine<E, C>, d: Dev<E, C, U>, m: DramCall<C>)
    requires cfg.Valid() && Prompt(g) && ChainInv(cfg, g, d) && Synced(cfg, d)
    ensures Synced(cfg, ActDram<E, C, U, V>(cfg, g, d, m).0)
  {
    match m
    case DoRead(addr, core, cb) => ReadSynced(cfg, g, d, addr, core, cb);
    case DoWrite(addr, core, cb) => WriteSynced(cfg, g, d, addr, core, cb);
    case DoReads(addrs, core, cb) => ReadsSynced(cfg, g, d, addrs, core, cb);
    case DoWrites(addrs, core, cb) => WritesSynced(cfg, g, d, addrs, core, cb);
  }

  lemma ActSimSynced<E, C, V, H>(cfg: Config, w: World<E, C, V, H>, s: SimCall<V>)
    requires Synced(cfg, w.dev)
    ensures Synced(cfg, ActSim(w, s).dev)
  {
    match s
    case Schedule(delay, prio, v) => PushUserSynced(cfg, w, w.dev.now + delay, prio, v);
    case ScheduleAt(time, prio, v) => PushUserSynced(cfg, w, time, prio, v);
    case Cancel(handle) => CancelSynced(cfg, w.dev, (t: Tag<C, Named<V>>) => Names(t, handle));
  }

  lemma ActSynced<E(!new), C(!new), V, H>(cfg: Config, g: Engine<E, C>, w: World<E, C, V, H>, a: Action<C, V>)
    requires cfg.Valid() && Prompt(g) && ChainInv(cfg, g, w.dev) && Synced(cfg, w.dev)
    ensures Synced(cfg, Act(cfg, g, w, a).dev)
  {
    if a.OnSim? {
      ActSimSynced(cfg, w, a.s);
    } else if a.OnDram? {
      ActDramSynced<E, C, Named<V>, V>(cfg, g, w.dev, a.m);
    }
  }

  lemma PushUserSynced<E, C, V, H>(cfg: Config, w: World<E, C, V, H>, time: int, prio: int, v: V)
    requires Synced(cfg, w.dev)
    ensures Synced(cfg, PushUser(w, time, prio, v).dev)
  {
    var e := Entry(time, prio, Tag<C, Named<V>>.User(Named(w.handles, v)));
    TimeOfInsertOther(w.dev.agenda, e, Tag.Tick);
    TimeOfInsertOther(w.dev.agenda, e, Tag.IdleTick);
  }

  lemma StepSynced<E(!new), C(!new), V, H>(
    mode: Mode, cfg: Config, g: Engine<E, C>, host: Host<H, C, V>, w: World<E, C, V, H>, h: Horizon)
    requires cfg.Valid() && Prompt(g) && ChainInv(cfg, g, w.dev) && Synced(cfg, w.dev) && !Halted(w, h)
    ensures Synced(cfg, Step(mode, cfg, g, host, w, h).dev)
  {
    if w.ctl.Some? {
      var (host', a) := host(w.host, w.ctl.value);
      ActSynced(cfg, g, w.(host := host'), a);
    } else {
      PopFrame(w.dev);
      var d := Pop(w.dev);
      match w.dev.agenda[0].what {
        case Tick =>
          var max := BurstBound(mode, cfg, d, h);
          var b := UntilProgress(g, d.mem, max);
          assert b.cycles > 1 ==> FreeCycle(cfg.period, d.now, NextTime(d.agenda), h, b.cycles - 1);
          BurstKeepsLag(cfg, g, w.dev, b);
        case IdleTick => IdleKeepsLag(cfg, g, w.dev);
        case Call(_, _) =>
        case User(_) =>
      }
    }
  }

  /** The chains and the lag, guarded by `Inside`. */
  ghost predicate OnTime<E, C, U>(cfg: Config, g: Engine<E, C>, d: Dev<E, C, U>) {
    forall u :: Inside(Layer.Lists, u) ==> ChainInv(cfg, g, d) && Synced(cfg, d)
  }

  lemma StepOnTime<E(!new), C(!new), V, H>(
    mode: Mode, cfg: Config, g: Engine<E, C>, host: Host<H, C, V>, w: World<E, C, V, H>, h: Horizon)
    requires cfg.Valid() && Prompt(g) && OnTime(cfg, g, w.dev) && !Halted(w, h)
    ensures OnTime(cfg, g, Step(mode, cfg, g, host, w, h).dev)
  {
    assert Inside(Layer.Lists, true);
    StepSynced(mode, cfg, g, host, w, h);
    StepKeeps(mode, cfg, g, host, w, h);
  }

  lemma {:induction false} RunOnTime<E(!new), C(!new), V, H>(
    mode: Mode, cfg: Config, g: Engine<E, C>, host: Host<H, C, V>, w: World<E, C, V, H>, h: Horizon, n: nat,
    end: World<E, C, V, H>)
    requires cfg.Valid() && Prompt(g) && OnTime(cfg, g, w.dev)
    requires end == Run(mode, cfg, g, host, w, h, n)
    ensures OnTime(cfg, g, end.dev)
    decreases n
  {
    if n > 0 && !Halted(w, h) {
      StepOnTime(mode, cfg, g, host, w, h);
      var w1 := Step(mode, cfg, g, host, w, h);
      RunOnce(mode, cfg, g, host, w, w1, h, n - 1);
      RunOnTime(mode, cfg, g, host, w1, h, n - 1, end);
    }
  }

  /** A new component starts in step. */
  lemma BegunOnTime<E, C, U>(cfg: Config, g: Engine<E, C>, d: Dev<E, C, U>)
    requires cfg.Valid() && IsNew(cfg, g, d)
    ensures OnTime(cfg, g, Begun(cfg, d))
  {
    BegunIsSound(cfg, g, d);
    if cfg.idleRefresh {
      NoChain(d.agenda, Tag<C, U>.IdleTick);
      ChainStarts(cfg, d.(idleTicking := true, idleBatch := cfg.idleBase), cfg.idleBase, Tag<C, U>.IdleTick);
    }
  }
}

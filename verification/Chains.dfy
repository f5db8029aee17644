/**
 The busy and idle clock chains of the DRAM component: what holds between any two events.
 */
module Chains {
  import opened Prelude
  import opened Agenda
  import opened Engine
  import opened Device

  ghost predicate Ordered<E, C, U>(d: Dev<E, C, U>) {
    Sorted(d.agenda) && From(d.agenda, d.now)
  }

  /** Each flag stands for exactly one live event of its chain. */
  ghost predicate Flags<E, C, U>(d: Dev<E, C, U>) {
    && Whats(d.agenda)[Tag.Tick] == Bit(d.ticking)
    && Whats(d.agenda)[Tag.IdleTick] == Bit(d.idleTicking)
  }

  ghost predicate ChainInv<E, C, U>(cfg: Config, g: Engine<E, C>, d: Dev<E, C, U>) {
    && Ordered(d)
    && Flags(d)
    && d.completed == []
    && (d.ticking <==> g.pending(d.mem) > 0)
    && !(d.ticking && d.idleTicking)
    && (d.idleTicking ==> cfg.idleRefresh)
    && (cfg.idleRefresh ==> d.ticking || d.idleTicking)
    && cfg.idleBase <= d.idleBatch <= cfg.MaxIdle()
  }

  /** A valid component on an engine that keeps all its promises; assumed for the two accelerators. */
  ghost predicate GoodEngine<E(!new), C(!new)>(cfg: Config, g: Engine<E, C>, flight: Flight<E, C>) {
    cfg.Valid() && forall u :: Inside(Layer.Lists, u) ==>
      Honest(g, flight) && ReadRefusedOnlyWhenReading(g, flight)
  }

  /** Nothing to do and nothing scheduled, with the idle clock off: a component that has served all it accepted. */
  ghost predicate Quiet<E, C, U>(cfg: Config, g: Engine<E, C>, d: Dev<E, C, U>) {
    ChainInv(cfg, g, d) && d.agenda == [] && !cfg.idleRefresh
  }

  // -- Frames: what the small operations leave alone ---------------------------------

  lemma AtFrame<E, C, U>(d: Dev<E, C, U>, time: int, prio: int, tag: Tag<C, U>)
    requires Ordered(d) && d.now <= time
    ensures Ordered(At(d, time, prio, tag))
    ensures Whats(At(d, time, prio, tag).agenda) == Whats(d.agenda) + multiset{tag}
  {
    InsertSorted(d.agenda, Entry(time, prio, tag));
    InsertFrom(d.agenda, Entry(time, prio, tag), d.now);
    WhatsInsert(d.agenda, Entry(time, prio, tag));
  }

  /** Events that are not of the chains come and go freely. */
  lemma OtherKeeps<E, C, U>(cfg: Config, g: Engine<E, C>, d: Dev<E, C, U>, time: int, prio: int, tag: Tag<C, U>)
    requires ChainInv(cfg, g, d) && d.now <= time && !tag.Tick? && !tag.IdleTick?
    ensures ChainInv(cfg, g, At(d, time, prio, tag))
  {
    AtFrame(d, time, prio, tag);
  }

  lemma AfterCyclesFrame<E, C, U>(cfg: Config, d: Dev<E, C, U>, cycles: nat, tag: Tag<C, U>)
    requires cfg.Valid() && Ordered(d)
    ensures var r := AfterCycles(cfg, d, cycles, tag);
            && r == d.(agenda := r.agenda)
            && Ordered(r)
            && Whats(r.agenda) == Whats(d.agenda) + multiset{tag}
  {
    var time := d.now + cycles * cfg.period;
    assert d.now <= time by {
      Monotone(cfg.period, 0, cycles);
    }
    AtFrame(d, time, 0, tag);
  }

  lemma {:induction false} DeliverFrame<E, C, U>(cfg: Config, d: Dev<E, C, U>)
    requires Ordered(d)
    ensures var r := Deliver(cfg, d);
            && r == d.(agenda := r.agenda, posted := r.posted, completed := [])
            && Ordered(r)
            && forall t: Tag<C, U> :: !t.Call? ==> Whats(r.agenda)[t] == Whats(d.agenda)[t]
    decreases |d.completed|
  {
    if d.completed != [] {
      var n := d.completed[0];
      var d1 := d.(completed := d.completed[1..]);
      if n.user.None? {
        DeliverFrame(cfg, d1);
      } else {
        AtFrame(d1, d.now, cfg.priority, Tag.Call(n.user.value, n.info));
        DeliverFrame(cfg, Post(cfg, d1, n.user.value, n.info));
      }
    }
  }

  lemma PopFrame<E, C, U>(d: Dev<E, C, U>)
    requires Ordered(d) && d.agenda != []
    ensures Ordered(Pop(d)) && d.now <= Pop(d).now
    ensures Whats(d.agenda) == Whats(Pop(d).agenda) + multiset{d.agenda[0].what}
  {
  }

  // -- The chain operations ------------------------------------------------------------

  lemma StartTickingKeeps<E, C, U>(cfg: Config, g: Engine<E, C>, d: Dev<E, C, U>)
    requires cfg.Valid() && Ordered(d) && Flags(d) && d.completed == []
    requires !(d.ticking && d.idleTicking) && g.pending(d.mem) > 0
    requires d.idleTicking ==> cfg.idleRefresh
    requires cfg.idleBase <= d.idleBatch <= cfg.MaxIdle()
    ensures ChainInv(cfg, g, StartTicking(cfg, d))
    ensures StartTicking(cfg, d).now == d.now && StartTicking(cfg, d).mem == d.mem
  {
    if !d.ticking {
      DropSorted(d.agenda, IsIdle);
      DropWhats(d.agenda, IsIdle);
      var d1 := if d.idleTicking then d.(idleTicking := false, agenda := Drop(d.agenda, IsIdle)) else d;
      AfterCyclesFrame(cfg, d1.(ticking := true), 1, Tag.Tick);
    }
  }

  lemma StartIdleKeeps<E, C, U>(cfg: Config, g: Engine<E, C>, d: Dev<E, C, U>)
    requires cfg.Valid() && cfg.idleRefresh && Ordered(d) && Flags(d) && d.completed == []
    requires !d.ticking && !d.idleTicking && g.pending(d.mem) == 0
    ensures ChainInv(cfg, g, StartIdleTicking(cfg, d))
  {
    AfterCyclesFrame(cfg, d.(idleTicking := true, idleBatch := cfg.idleBase), cfg.idleBase, Tag<C, U>.IdleTick);
  }

  /** A component right before its constructor returns: nothing sent, counted or recorded yet, on a simulator that
      carries no event of another component of its kind. */
  ghost predicate IsNew<E, C, U>(cfg: Config, g: Engine<E, C>, d: Dev<E, C, U>) {
    && Ordered(d) && 0 <= d.now && (forall e :: e in d.agenda ==> e.what.User?)
    && d.clk == 0 && g.pending(d.mem) == 0 && !d.ticking && !d.idleTicking && d.idleBatch == cfg.idleBase
    && d.completed == [] && d.accepted == [] && d.posted == [] && d.recorded == []
    && d.served == [] && d.naps == 0
  }

  /** A new component, on a simulator that carries no chain of another. */
  function Begun<E, C, U>(cfg: Config, d: Dev<E, C, U>): Dev<E, C, U> {
    if cfg.idleRefresh then StartIdleTicking(cfg, d) else d
  }

  lemma {:induction false} NoChain<C, U>(q: seq<Entry<Tag<C, U>>>, tag: Tag<C, U>)
    requires (forall e :: e in q ==> e.what.User?) && !tag.User?
    ensures Whats(q)[tag] == 0
  {
    if q != [] {
      NoChain(q[1..], tag);
      assert q[0] in q;
    }
  }

  lemma BegunIsSound<E, C, U>(cfg: Config, g: Engine<E, C>, d: Dev<E, C, U>)
    requires cfg.Valid() && IsNew(cfg, g, d)
    ensures ChainInv(cfg, g, Begun(cfg, d))
  {
    NoChain(d.agenda, Tag<C, U>.Tick);
    NoChain(d.agenda, Tag<C, U>.IdleTick);
    if cfg.idleRefresh {
      StartIdleKeeps(cfg, g, d);
    }
  }

  /** The body of a tick event, for any burst. */
  lemma SettleKeeps<E, C, U>(cfg: Config, g: Engine<E, C>, d0: Dev<E, C, U>, b: Burst<E, C>)
    requires cfg.Valid() && ChainInv(cfg, g, d0) && d0.agenda != [] && d0.agenda[0].what == Tag.Tick
    requires 1 <= b.cycles
    requires From(Pop(d0).agenda, Pop(d0).now + (b.cycles - 1) * cfg.period)
    ensures ChainInv(cfg, g, Settle(cfg, g, Pop(d0), b))
  {
    PopFrame(d0);
    var d := Pop(d0);
    Monotone(cfg.period, 0, b.cycles - 1);
    DeliverFrame(cfg, Advance(cfg, d, b));
    var d2 := Deliver(cfg, Advance(cfg, d, b));
    if g.pending(d2.mem) > 0 {
      AfterCyclesFrame(cfg, d2, 1, Tag.Tick);
    } else if cfg.idleRefresh {
      StartIdleKeeps(cfg, g, d2.(ticking := false));
    }
  }

  lemma TickKeeps<E, C, U>(cfg: Config, g: Engine<E, C>, d0: Dev<E, C, U>, max: nat, h: Horizon)
    requires cfg.Valid() && ChainInv(cfg, g, d0) && d0.agenda != [] && d0.agenda[0].what == Tag.Tick
    requires 1 <= max
    requires forall k :: 1 <= k < max ==> FreeCycle(cfg.period, Pop(d0).now, NextTime(Pop(d0).agenda), h, k)
    ensures ChainInv(cfg, g, TickBody(cfg, g, Pop(d0), max))
  {
    PopFrame(d0);
    var d := Pop(d0);
    var b := UntilProgress(g, d.mem, max);
    assert b.cycles > 1 ==> FreeCycle(cfg.period, d.now, NextTime(d.agenda), h, b.cycles - 1);
    SettleKeeps(cfg, g, d0, b);
  }

  /** The cycles of an idle batch, before the component looks at what they left. */
  function Idled<E, C, U>(g: Engine<E, C>, d: Dev<E, C, U>): Dev<E, C, U> {
    d.(mem := TickN(g, d.mem, d.idleBatch).0, clk := d.clk + d.idleBatch, naps := d.naps + 1)
  }

  /** An idle event finds nothing pending and records nothing.  It hands over to the busy chain exactly when its
      cycles left something pending; otherwise it backs off. */
  lemma IdleBodyIs<E(!new), C(!new), U>(cfg: Config, g: Engine<E, C>, d0: Dev<E, C, U>) returns (d: Dev<E, C, U>)
    requires cfg.Valid() && Prompt(g) && ChainInv(cfg, g, d0)
    requires d0.agenda != [] && d0.agenda[0].what == Tag.IdleTick
    ensures d0.idleTicking && g.pending(d0.mem) == 0 && d == Idled(g, Pop(d0)) && d.completed == []
    ensures IdleBody(cfg, g, Pop(d0)) ==
            if g.pending(d.mem) > 0 then
              AfterCycles(cfg, d.(idleTicking := false, idleBatch := cfg.idleBase, ticking := true), 1, Tag.Tick)
            else
              var next: nat := Min(d.idleBatch * 2, cfg.MaxIdle());
              AfterCycles(cfg, d.(idleBatch := next), next, IdleTick)
  {
    WhatsMember(d0.agenda, 0);
    assert TickN(g, d0.mem, d0.idleBatch).1 == [];
    assert d0.completed == d0.completed + [] && d0.recorded == d0.recorded + [] && d0.served == d0.served + [];
    d := Idled(g, Pop(d0));
  }

  lemma IdleKeeps<E(!new), C(!new), U>(cfg: Config, g: Engine<E, C>, d0: Dev<E, C, U>)
    requires cfg.Valid() && Prompt(g) && ChainInv(cfg, g, d0)
    requires d0.agenda != [] && d0.agenda[0].what == Tag.IdleTick
    ensures ChainInv(cfg, g, IdleBody(cfg, g, Pop(d0)))
    ensures IdleBody(cfg, g, Pop(d0)).now == Pop(d0).now
  {
    PopFrame(d0);
    var d := IdleBodyIs(cfg, g, d0);
    if g.pending(d.mem) > 0 {
      AfterCyclesFrame(cfg, d.(idleTicking := false, idleBatch := cfg.idleBase, ticking := true), 1, Tag.Tick);
    } else {
      var next: nat := Min(d.idleBatch * 2, cfg.MaxIdle());
      AfterCyclesFrame(cfg, d.(idleBatch := next), next, Tag.IdleTick);
    }
  }

  // -- Requests -------------------------------------------------------------------------

  /** Sending leaves all but the engine and the history alone, and keeps the chains' condition. */
  lemma {:induction false} SendAllFrame<E(!new), C(!new), U>(
    g: Engine<E, C>, d: Dev<E, C, U>, addrs: seq<int>, kind: Kind, core: int, k: Option<C>)
    requires Prompt(g)
    ensures var (r, oks) := SendAll(g, d, addrs, kind, core, k);
            && r == d.(mem := r.mem, accepted := r.accepted)
            && (true in oks ==> g.pending(r.mem) > 0)
            && (true !in oks ==> g.pending(r.mem) == g.pending(d.mem))
            && (g.pending(d.mem) > 0 ==> g.pending(r.mem) > 0)
    decreases addrs
  {
    if addrs != [] {
      var (d1, ok) := Send(g, d, addrs[0], kind, core, k);
      SendAllFrame(g, d1, addrs[1..], kind, core, k);
    }
  }

  lemma ReadsKeep<E(!new), C(!new), U>(
    cfg: Config, g: Engine<E, C>, d: Dev<E, C, U>, addrs: seq<int>, core: int, cb: Option<C>)
    requires cfg.Valid() && Prompt(g) && ChainInv(cfg, g, d)
    ensures ChainInv(cfg, g, Reads(cfg, g, d, addrs, core, cb).0)
    ensures Reads(cfg, g, d, addrs, core, cb).0.now == d.now
  {
    if CoreOk(cfg, core) {
      SendAllFrame(g, d, addrs, READ, core, cb);
      var (d1, oks) := SendAll(g, d, addrs, READ, core, cb);
      if true in oks {
        StartTickingKeeps(cfg, g, d1);
      }
    }
  }

  lemma WritesKeep<E(!new), C(!new), U>(
    cfg: Config, g: Engine<E, C>, d: Dev<E, C, U>, addrs: seq<int>, core: int, cb: Option<C>)
    requires cfg.Valid() && Prompt(g) && ChainInv(cfg, g, d)
    ensures ChainInv(cfg, g, Writes(cfg, g, d, addrs, core, cb).0)
    ensures Writes(cfg, g, d, addrs, core, cb).0.now == d.now
  {
    if CoreOk(cfg, core) {
      SendAllFrame(g, d, addrs, WRITE, core, cb);
      var (d1, oks) := SendAll(g, d, addrs, WRITE, core, cb);
      var d2 := Gather(d1, WriteNotes(addrs, oks, d1.clk, core, cb));
      if true in oks {
        DeliverFrame(cfg, d2);
        StartTickingKeeps(cfg, g, Deliver(cfg, d2));
      } else {
        NoWriteNotes(addrs, oks, d1.clk, core, cb);
      }
    }
  }

  lemma {:induction false} NoWriteNotes<C>(addrs: seq<int>, oks: seq<bool>, clk: int, core: int, cb: Option<C>)
    requires |addrs| == |oks| && true !in oks
    ensures WriteNotes(addrs, oks, clk, core, cb) == []
  {
    if addrs != [] {
      NoWriteNotes(addrs[1..], oks[1..], clk, core, cb);
    }
  }

  /** One request is a bulk request of one, for the device and for its chains. */
  lemma ReadIsReads<E, C, U>(cfg: Config, g: Engine<E, C>, d: Dev<E, C, U>, addr: int, core: int, cb: Option<C>)
    ensures Read(cfg, g, d, addr, core, cb).0 == Reads(cfg, g, d, [addr], core, cb).0
    ensures Read(cfg, g, d, addr, core, cb).1 ==
            match Reads(cfg, g, d, [addr], core, cb).1 { case Raised => Raised case Ok(oks) => Ok(oks[0]) }
  {
    if CoreOk(cfg, core) {
      var (d1, ok) := Send(g, d, addr, READ, core, cb);
      assert [addr][1..] == [];
      assert [ok] + [] == [ok];
      assert SendAll(g, d1, [addr][1..], READ, core, cb) == (d1, []);
    }
  }

  lemma WriteIsWrites<E, C, U>(cfg: Config, g: Engine<E, C>, d: Dev<E, C, U>, addr: int, core: int, cb: Option<C>)
    requires d.completed == []
    ensures Write(cfg, g, d, addr, core, cb).0 == Writes(cfg, g, d, [addr], core, cb).0
    ensures Write(cfg, g, d, addr, core, cb).1 ==
            match Writes(cfg, g, d, [addr], core, cb).1 { case Raised => Raised case Ok(oks) => Ok(oks[0]) }
  {
    if CoreOk(cfg, core) {
      var (d1, ok) := Send(g, d, addr, WRITE, core, cb);
      assert [addr][1..] == [] && [ok][1..] == [];
      assert [ok] + [] == [ok];
      assert SendAll(g, d1, [addr][1..], WRITE, core, cb) == (d1, []);
      assert WriteNotes([addr], [ok], d1.clk, core, cb) == if ok then [WriteNote(addr, d1.clk, core, cb)] else [];
    }
  }

  lemma ReadKeeps<E(!new), C(!new), U>(
    cfg: Config, g: Engine<E, C>, d: Dev<E, C, U>, addr: int, core: int, cb: Option<C>)
    requires cfg.Valid() && Prompt(g) && ChainInv(cfg, g, d)
    ensures ChainInv(cfg, g, Read(cfg, g, d, addr, core, cb).0)
    ensures Read(cfg, g, d, addr, core, cb).0.now == d.now
  {
    ReadIsReads(cfg, g, d, addr, core, cb);
    ReadsKeep(cfg, g, d, [addr], core, cb);
  }

  lemma WriteKeeps<E(!new), C(!new), U>(
    cfg: Config, g: Engine<E, C>, d: Dev<E, C, U>, addr: int, core: int, cb: Option<C>)
    requires cfg.Valid() && Prompt(g) && ChainInv(cfg, g, d)
    ensures ChainInv(cfg, g, Write(cfg, g, d, addr, core, cb).0)
    ensures Write(cfg, g, d, addr, core, cb).0.now == d.now
  {
    WriteIsWrites(cfg, g, d, addr, core, cb);
    WritesKeep(cfg, g, d, [addr], core, cb);
  }
}

/**
 Whole runs: the two devices stop together, over any script of windows, and windows compose.
 */
module Windows {
  import opened Prelude
  import opened Agenda
  import opened Engine
  import opened Device
  import opened Chains
  import opened World
  import opened Coalescing
  import opened Machines

  /** `run(until = h)` as a machine on worlds. */
  function Runner<E, C, V, H>(
    mode: Mode, cfg: Config, g: Engine<E, C>, host: Host<H, C, V>, h: Horizon): Machine<World<E, C, V, H>>
    requires cfg.Valid()
  {
    Machine((w: World<E, C, V, H>) => Halted(w, h),
            (w: World<E, C, V, H>) => if Halted(w, h) then w else Step(mode, cfg, g, host, w, h))
  }

  lemma {:induction false} RunIsIterate<E, C, V, H>(
    mode: Mode, cfg: Config, g: Engine<E, C>, host: Host<H, C, V>, w: World<E, C, V, H>, h: Horizon, n: nat)
    requires cfg.Valid()
    ensures Run(mode, cfg, g, host, w, h, n) == Iterate(Runner(mode, cfg, g, host, h), w, n)
    decreases n
  {
    if n > 0 && !Halted(w, h) {
      RunIsIterate(mode, cfg, g, host, Step(mode, cfg, g, host, w, h), h, n - 1);
    }
  }

  /** `run(until = h)` comes to an end. */
  ghost predicate Stops<E, C, V, H>(
    mode: Mode, cfg: Config, g: Engine<E, C>, host: Host<H, C, V>, w: World<E, C, V, H>, h: Horizon)
    requires cfg.Valid()
  {
    Ends(Runner(mode, cfg, g, host, h), w)
  }

  /** The world in which `run(until = h)` ends. */
  ghost function End<E, C, V, H>(
    mode: Mode, cfg: Config, g: Engine<E, C>, host: Host<H, C, V>, w: World<E, C, V, H>, h: Horizon): World<E, C, V, H>
    requires cfg.Valid() && Stops(mode, cfg, g, host, w, h)
  {
    EndOf(Runner(mode, cfg, g, host, h), w)
  }

  lemma BurstsRefineTicks<E(!new), C(!new), V(!new), H(!new)>(
    cfg: Config, g: Engine<E, C>, host: Host<H, C, V>, h: Horizon, inv: World<E, C, V, H> -> bool)
    requires cfg.Valid() && Prompt(g) && inv == Linked(cfg, g)
    ensures Refines(inv, Runner(Coalescing, cfg, g, host, h), Runner(EveryCycle, cfg, g, host, h))
  {
    var slow := Runner(EveryCycle, cfg, g, host, h);
    assert TakesTicks(cfg, g, host, h, slow);
    forall w: World<E, C, V, H> | inv(w) && !Halted(w, h)
      ensures var w' := Step(Coalescing, cfg, g, host, w, h); inv(w') && Skips(slow, w, w')
    {
      StepKeeps(Coalescing, cfg, g, host, w, h);
      StepIsSteps(cfg, g, host, w, h, slow);
    }
  }

  /** The chain invariant as a property of worlds. */
  ghost function Linked<E, C, V, H>(cfg: Config, g: Engine<E, C>): World<E, C, V, H> -> bool {
    (w: World<E, C, V, H>) => ChainInv(cfg, g, w.dev)
  }

  /** Coalescing preserves meaning: the devices stop on the same runs, in the same world. */
  lemma CoalescingPreservesRuns<E(!new), C(!new), V(!new), H(!new)>(
    cfg: Config, g: Engine<E, C>, host: Host<H, C, V>, w: World<E, C, V, H>, h: Horizon)
    requires cfg.Valid() && Prompt(g) && ChainInv(cfg, g, w.dev)
    ensures Stops(Coalescing, cfg, g, host, w, h) <==> Stops(EveryCycle, cfg, g, host, w, h)
    ensures Stops(Coalescing, cfg, g, host, w, h) ==>
              End(Coalescing, cfg, g, host, w, h) == End(EveryCycle, cfg, g, host, w, h)
  {
    var inv := Linked(cfg, g);
    BurstsRefineTicks(cfg, g, host, h, inv);
    RefinementPreservesEnds(inv, Runner(Coalescing, cfg, g, host, h), Runner(EveryCycle, cfg, g, host, h), w);
  }

  // -- Scripts: host code, run, host code, run, ... ----------------------------------------

  /** Host code gets control before a `run` call, unless an exception already ended the script. */
  function Open<E, C, V, H>(w: World<E, C, V, H>): World<E, C, V, H> {
    if w.raised then w else w.(ctl := Some(Between))
  }

  /** The runs of a script, by their horizons. */
  function Runners<E, C, V, H>(
    mode: Mode, cfg: Config, g: Engine<E, C>, host: Host<H, C, V>): Horizon -> Machine<World<E, C, V, H>>
    requires cfg.Valid()
  {
    (h: Horizon) => Runner(mode, cfg, g, host, h)
  }

  ghost predicate ScriptStops<E, C, V, H>(
    mode: Mode, cfg: Config, g: Engine<E, C>, host: Host<H, C, V>, w: World<E, C, V, H>, hs: seq<Horizon>)
    requires cfg.Valid()
  {
    ScriptEnds(Open, Runners(mode, cfg, g, host), w, hs)
  }

  ghost function ScriptEnd<E, C, V, H>(
    mode: Mode, cfg: Config, g: Engine<E, C>, host: Host<H, C, V>, w: World<E, C, V, H>, hs: seq<Horizon>)
    : World<E, C, V, H>
    requires cfg.Valid() && ScriptStops(mode, cfg, g, host, w, hs)
  {
    ScriptEndOf(Open, Runners(mode, cfg, g, host), w, hs)
  }

  /** The same for a whole script of runs with host code in between. */
  lemma CoalescingPreservesScripts<E(!new), C(!new), V(!new), H(!new)>(
    cfg: Config, g: Engine<E, C>, host: Host<H, C, V>, w: World<E, C, V, H>, hs: seq<Horizon>)
    requires cfg.Valid() && Prompt(g) && ChainInv(cfg, g, w.dev)
    ensures ScriptStops(Coalescing, cfg, g, host, w, hs) <==> ScriptStops(EveryCycle, cfg, g, host, w, hs)
    ensures ScriptStops(Coalescing, cfg, g, host, w, hs) ==>
              ScriptEnd(Coalescing, cfg, g, host, w, hs) == ScriptEnd(EveryCycle, cfg, g, host, w, hs)
  {
    var inv := Linked(cfg, g);
    forall h
      ensures Refines(inv, Runners(Coalescing, cfg, g, host)(h), Runners(EveryCycle, cfg, g, host)(h))
    {
      BurstsRefineTicks(cfg, g, host, h, inv);
    }
    RefinementPreservesScripts(
      inv, Open, Runners(Coalescing, cfg, g, host), Runners(EveryCycle, cfg, g, host), w, hs);
  }

  // -- Windows compose -----------------------------------------------------------------------

  /** The plain component does not look at the horizon. */
  lemma SameStep<E, C, V, H>(
    cfg: Config, g: Engine<E, C>, host: Host<H, C, V>, w: World<E, C, V, H>, a: Horizon, b: Horizon)
    requires cfg.Valid() && !Halted(w, a) && NoLater(a, b)
    ensures !Halted(w, b) && Step(EveryCycle, cfg, g, host, w, a) == Step(EveryCycle, cfg, g, host, w, b)
  {
  }

  /** `run(until = a); run(until = b)` is `run(until = b)`, although bursts are clipped at `a`. */
  lemma WindowsCompose<E(!new), C(!new), V(!new), H(!new)>(
    cfg: Config, g: Engine<E, C>, host: Host<H, C, V>, w: World<E, C, V, H>, a: Horizon, b: Horizon)
    requires cfg.Valid() && Prompt(g) && ChainInv(cfg, g, w.dev) && NoLater(a, b)
    ensures Stops(Coalescing, cfg, g, host, w, b) <==>
            Stops(Coalescing, cfg, g, host, w, a) &&
            Stops(Coalescing, cfg, g, host, End(Coalescing, cfg, g, host, w, a), b)
    ensures Stops(Coalescing, cfg, g, host, w, b) ==>
            End(Coalescing, cfg, g, host, End(Coalescing, cfg, g, host, w, a), b) == End(Coalescing, cfg, g, host, w, b)
  {
    var inv := Linked(cfg, g);
    BurstsRefineTicks(cfg, g, host, a, inv);
    BurstsRefineTicks(cfg, g, host, b, inv);
    forall w: World<E, C, V, H> | !Halted(w, a)
      ensures !Halted(w, b) && Step(EveryCycle, cfg, g, host, w, a) == Step(EveryCycle, cfg, g, host, w, b)
    {
      SameStep(cfg, g, host, w, a, b);
    }
    RefinedRunsCompose(
      inv, Runner(Coalescing, cfg, g, host, a), Runner(EveryCycle, cfg, g, host, a),
      Runner(Coalescing, cfg, g, host, b), Runner(EveryCycle, cfg, g, host, b), w);
  }

  // -- Flushing ------------------------------------------------------------------------------

  /** `flush`, between runs or inside a `run(until = h)`: single steps until no callback runs and the DRAM is empty. */
  function Flusher<E, C, V, H>(
    mode: Mode, cfg: Config, g: Engine<E, C>, host: Host<H, C, V>, h: Horizon): Machine<World<E, C, V, H>>
    requires cfg.Valid()
  {
    Machine((w: World<E, C, V, H>) => Halted(w, None) || (w.ctl.None? && g.pending(w.dev.mem) == 0),
            (w: World<E, C, V, H>) => if Halted(w, None) then w else Step(mode, cfg, g, host, w, h))
  }

  /** How many of the first `n` steps of a flush take an event; the others run callbacks. */
  ghost function EventsFired<E, C, V, H>(m: Machine<World<E, C, V, H>>, w: World<E, C, V, H>, n: nat): nat {
    if n == 0 then 0 else EventsFired(m, w, n - 1) + Bit(Iterate(m, w, n - 1).ctl.None?)
  }

  /** A flush empties the DRAM on the same starts and leaves the same world, bursts or not. */
  lemma CoalescingPreservesFlush<E(!new), C(!new), V(!new), H(!new)>(
    cfg: Config, g: Engine<E, C>, host: Host<H, C, V>, w: World<E, C, V, H>, h: Horizon)
    requires cfg.Valid() && Prompt(g) && ChainInv(cfg, g, w.dev)
    ensures var fast, slow := Flusher(Coalescing, cfg, g, host, h), Flusher(EveryCycle, cfg, g, host, h);
            && (Ends(fast, w) <==> Ends(slow, w))
            && (Ends(fast, w) ==> EndOf(fast, w) == EndOf(slow, w))
  {
    var inv := Linked(cfg, g);
    var fast, slow := Flusher(Coalescing, cfg, g, host, h), Flusher(EveryCycle, cfg, g, host, h);
    assert TakesTicks(cfg, g, host, h, slow);
    forall w: World<E, C, V, H> | inv(w) && !fast.stop(w)
      ensures inv(fast.step(w)) && Skips(slow, w, fast.step(w))
    {
      StepKeeps(Coalescing, cfg, g, host, w, h);
      StepIsSteps(cfg, g, host, w, h, slow);
    }
    RefinementPreservesEnds(inv, fast, slow, w);
  }

  // -- The horizon ----------------------------------------------------------------------------

  function Max(a: int, b: int): int {
    if a <= b then b else a
  }

  lemma StepWithin<E(!new), C(!new), V, H>(
    mode: Mode, cfg: Config, g: Engine<E, C>, host: Host<H, C, V>, w: World<E, C, V, H>, until: int)
    requires cfg.Valid() && Prompt(g) && ChainInv(cfg, g, w.dev) && !Halted(w, Some(until))
    ensures Step(mode, cfg, g, host, w, Some(until)).dev.now <= Max(w.dev.now, until)
  {
    if w.ctl.Some? {
      var (host', a) := host(w.host, w.ctl.value);
      ActKeeps(cfg, g, w.(host := host'), a);
    } else {
      PopFrame(w.dev);
      var d := Pop(w.dev);
      match w.dev.agenda[0].what {
        case Tick =>
          var max := BurstBound(mode, cfg, d, Some(until));
          var b := UntilProgress(g, d.mem, max);
          assert b.cycles > 1 ==> FreeCycle(cfg.period, d.now, NextTime(d.agenda), Some(until), b.cycles - 1);
          SettleNow(cfg, g, w.dev, b);
        case IdleTick => IdleKeeps(cfg, g, w.dev);
        case Call(_, _) =>
        case User(_) =>
      }
    }
  }

  lemma SettleNow<E, C, U>(cfg: Config, g: Engine<E, C>, d0: Dev<E, C, U>, b: Burst<E, C>)
    requires cfg.Valid() && Ordered(d0) && d0.agenda != [] && 1 <= b.cycles
    requires From(Pop(d0).agenda, Pop(d0).now + (b.cycles - 1) * cfg.period)
    ensures Settle(cfg, g, Pop(d0), b).now == Pop(d0).now + (b.cycles - 1) * cfg.period
  {
    var d := Pop(d0);
    DeliverFrame(cfg, Advance(cfg, d, b));
  }

  lemma {:induction false} RunWithin<E(!new), C(!new), V, H>(
    mode: Mode, cfg: Config, g: Engine<E, C>, host: Host<H, C, V>, w: World<E, C, V, H>, until: int, n: nat,
    end: World<E, C, V, H>)
    requires cfg.Valid() && Prompt(g) && ChainInv(cfg, g, w.dev)
    requires end == Run(mode, cfg, g, host, w, Some(until), n)
    ensures end.dev.now <= Max(w.dev.now, until)
    decreases n
  {
    if n > 0 && !Halted(w, Some(until)) {
      StepWithin(mode, cfg, g, host, w, until);
      StepKeeps(mode, cfg, g, host, w, Some(until));
      var w1 := Step(mode, cfg, g, host, w, Some(until));
      RunOnce(mode, cfg, g, host, w, w1, Some(until), n - 1);
      RunWithin(mode, cfg, g, host, w1, until, n - 1, end);
    }
  }

  /** No overshoot, and nothing due is left unfired unless an exception ended the run. */
  lemma HorizonSafety<E(!new), C(!new), V, H>(
    mode: Mode, cfg: Config, g: Engine<E, C>, host: Host<H, C, V>, w: World<E, C, V, H>, until: int)
    requires cfg.Valid() && Prompt(g) && ChainInv(cfg, g, w.dev) && Stops(mode, cfg, g, host, w, Some(until))
    ensures var end := End(mode, cfg, g, host, w, Some(until));
            && end.dev.now <= Max(w.dev.now, until)
            && (!end.raised ==> forall i :: 0 <= i < |end.dev.agenda| ==> until < end.dev.agenda[i].time)
  {
    var m := Runner(mode, cfg, g, host, Some(until));
    var n: nat :| m.stop(Iterate(m, w, n));
    EndOfIs(m, w, n);
    RunIsIterate(mode, cfg, g, host, w, Some(until), n);
    var end := Run(mode, cfg, g, host, w, Some(until), n);
    RunWithin(mode, cfg, g, host, w, until, n, end);
    RunKeeps(mode, cfg, g, host, w, Some(until), n);
    if !end.raised {
      FromAll(end.dev.agenda, until + 1);
    }
  }
}

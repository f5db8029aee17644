/**
 What the host code is told: exactly the callbacks that start, in order.
 */
module Telling {
  import opened Prelude
  import opened Engine
  import opened Device
  import opened World

  /** The same host code, writing down everything it is told. */
  function Logging<H(!new), C(!new), V(!new)>(host: Host<H, C, V>): Host<(H, seq<Stim<C, V>>), C, V> {
    (s: (H, seq<Stim<C, V>>), x: Stim<C, V>) => var (h, a) := host(s.0, x); ((h, s.1 + [x]), a)
  }

  predicate Starts<C, V>(x: Stim<C, V>) {
    x.Completion? || x.Woken?
  }

  /** The callbacks that a log speaks of; the rest are replies to calls and the code between runs. */
  ghost function Callbacks<C, V>(log: seq<Stim<C, V>>): seq<Stim<C, V>> {
    if log == [] then []
    else
      var last := log[|log| - 1];
      Callbacks(log[..|log| - 1]) + (if Starts(last) then [last] else [])
  }

  ghost function Started<C, V>(trace: seq<Firing<C, V>>): seq<Stim<C, V>> {
    if trace == [] then [] else Started(trace[..|trace| - 1]) + [trace[|trace| - 1].stim]
  }

  /** What has started is what the host was told and what it is about to be told. */
  ghost predicate Told<E, C, V, H>(w: World<E, C, V, (H, seq<Stim<C, V>>)>) {
    Started(w.trace) ==
    Callbacks(w.host.1) + (if w.ctl.Some? && Starts(w.ctl.value) then [w.ctl.value] else [])
  }

  lemma OneMore<C, V>(log: seq<Stim<C, V>>, x: Stim<C, V>)
    ensures Callbacks(log + [x]) == Callbacks(log) + (if Starts(x) then [x] else [])
  {
    assert (log + [x])[..|log|] == log;
  }

  lemma ActTellsNothing<E, C, V, H>(cfg: Config, g: Engine<E, C>, w: World<E, C, V, H>, a: Action<C, V>)
    ensures var r := Act(cfg, g, w, a);
            r.trace == w.trace && r.host == w.host && (r.ctl.Some? ==> !Starts(r.ctl.value))
  {
  }

  lemma FireTells<E, C, V, H>(
    mode: Mode, cfg: Config, g: Engine<E, C>, w: World<E, C, V, (H, seq<Stim<C, V>>)>, h: Horizon)
    requires cfg.Valid() && w.dev.agenda != [] && w.ctl.None? && Told(w)
    ensures Told(Fire(mode, cfg, g, w, h))
  {
    var r := Fire(mode, cfg, g, w, h);
    if r.ctl.Some? {
      assert r.trace[..|w.trace|] == w.trace;
      assert Callbacks(w.host.1) + [] == Callbacks(w.host.1);
    }
  }

  lemma StepTells<E, C(!new), V(!new), H(!new)>(
    mode: Mode, cfg: Config, g: Engine<E, C>, host: Host<H, C, V>, w: World<E, C, V, (H, seq<Stim<C, V>>)>, h: Horizon)
    requires cfg.Valid() && !Halted(w, None) && Told(w)
    ensures Told(Step(mode, cfg, g, Logging(host), w, h))
  {
    if w.ctl.Some? {
      var (host', a) := Logging(host)(w.host, w.ctl.value);
      OneMore(w.host.1, w.ctl.value);
      ActTellsNothing(cfg, g, w.(host := host'), a);
    } else {
      FireTells(mode, cfg, g, w, h);
    }
  }

  /** Over whole runs, whatever the host code does: it is told of every callback that starts, once and in order. */
  lemma {:induction false} RunTells<E, C(!new), V(!new), H(!new)>(
    mode: Mode, cfg: Config, g: Engine<E, C>, host: Host<H, C, V>, w: World<E, C, V, (H, seq<Stim<C, V>>)>, h: Horizon,
    n: nat)
    requires cfg.Valid() && Told(w)
    ensures Told(Run(mode, cfg, g, Logging(host), w, h, n))
    decreases n
  {
    if n > 0 && !Halted(w, h) {
      StepTells(mode, cfg, g, host, w, h);
      RunTells(mode, cfg, g, host, Step(mode, cfg, g, Logging(host), w, h), h, n - 1);
    }
  }

  // -- Writing things down changes nothing else ------------------------------------------------

  function Plain<E, C, V, H>(w: World<E, C, V, (H, seq<Stim<C, V>>)>): World<E, C, V, H> {
    World(w.dev, w.host.0, w.ctl, w.raised, w.handles, w.trace)
  }

  lemma ActIsPlain<E, C, V, H>(
    cfg: Config, g: Engine<E, C>, w: World<E, C, V, (H, seq<Stim<C, V>>)>, a: Action<C, V>)
    ensures Plain(Act(cfg, g, w, a)) == Act(cfg, g, Plain(w), a)
  {
  }

  lemma StepIsPlain<E, C(!new), V(!new), H(!new)>(
    mode: Mode, cfg: Config, g: Engine<E, C>, host: Host<H, C, V>, w: World<E, C, V, (H, seq<Stim<C, V>>)>, h: Horizon)
    requires cfg.Valid() && !Halted(w, None)
    ensures Plain(Step(mode, cfg, g, Logging(host), w, h)) == Step(mode, cfg, g, host, Plain(w), h)
  {
    if w.ctl.Some? {
      var (host', a) := Logging(host)(w.host, w.ctl.value);
      ActIsPlain(cfg, g, w.(host := host'), a);
    }
  }

  lemma {:induction false} LoggingIsTransparent<E, C(!new), V(!new), H(!new)>(
    mode: Mode, cfg: Config, g: Engine<E, C>, host: Host<H, C, V>, w: World<E, C, V, (H, seq<Stim<C, V>>)>, h: Horizon,
    n: nat)
    requires cfg.Valid()
    ensures Plain(Run(mode, cfg, g, Logging(host), w, h, n)) == Run(mode, cfg, g, host, Plain(w), h, n)
    decreases n
  {
    if n > 0 && !Halted(w, h) {
      StepIsPlain(mode, cfg, g, host, w, h);
      LoggingIsTransparent(mode, cfg, g, host, Step(mode, cfg, g, Logging(host), w, h), h, n - 1);
    }
  }
}

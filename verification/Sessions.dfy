/**
 Whole sessions with a new component: host code, `run`, host code, `run`, and so on, each `run` ended or
 looked at after any number of steps.
 */
module Sessions {
  import opened Prelude
  import opened Agenda
  import opened Engine
  import opened Device
  import opened Chains
  import opened World
  import opened Windows
  import opened ClockLag
  import opened Delivery
  import opened Coalescing
  import R = Reports

  /** One `run(until = h)`, as far as `steps` steps. */
  datatype Leg = Leg(h: Horizon, steps: nat)

  function Session<E, C, V, H>(
    mode: Mode, cfg: Config, g: Engine<E, C>, host: Host<H, C, V>, w: World<E, C, V, H>, legs: seq<Leg>)
    : World<E, C, V, H>
    requires cfg.Valid()
    decreases legs
  {
    if legs == [] then w
    else Session(mode, cfg, g, host, Run(mode, cfg, g, host, Open(w), legs[0].h, legs[0].steps), legs[1..])
  }

  /** The world of a new component: no callback has started. */
  ghost predicate Fresh<E, C, V, H>(cfg: Config, g: Engine<E, C>, d: Dev<E, C, Named<V>>, w: World<E, C, V, H>) {
    IsNew(cfg, g, d) && w.dev == Begun(cfg, d) && w.trace == []
  }

  // -- The clock --------------------------------------------------------------------------

  lemma {:induction false} SessionOnTime<E(!new), C(!new), V, H>(
    mode: Mode, cfg: Config, g: Engine<E, C>, host: Host<H, C, V>, w: World<E, C, V, H>, legs: seq<Leg>)
    requires cfg.Valid() && Prompt(g) && OnTime(cfg, g, w.dev)
    ensures OnTime(cfg, g, Session(mode, cfg, g, host, w, legs).dev)
    decreases legs
  {
    if legs != [] {
      var w1 := Run(mode, cfg, g, host, Open(w), legs[0].h, legs[0].steps);
      RunOnTime(mode, cfg, g, host, Open(w), legs[0].h, legs[0].steps, w1);
      SessionOnTime(mode, cfg, g, host, w1, legs[1..]);
    }
  }

  /** DRAM time never runs ahead of simulator time, at any point of any session; each flag stands for its one
      live event, and with idle refresh exactly one chain is alive. */
  lemma NeverAhead<E(!new), C(!new), V, H>(
    mode: Mode, cfg: Config, g: Engine<E, C>, host: Host<H, C, V>, d: Dev<E, C, Named<V>>, w: World<E, C, V, H>,
    legs: seq<Leg>)
    requires cfg.Valid() && Prompt(g) && Fresh(cfg, g, d, w)
    ensures var end := Session(mode, cfg, g, host, w, legs).dev;
            && end.clk * cfg.period <= end.now
            && Synced(cfg, end) && ChainInv(cfg, g, end)
  {
    BegunOnTime(cfg, g, d);
    SessionOnTime(mode, cfg, g, host, w, legs);
    assert Inside(Layer.Lists, true);
  }

  // -- Completions ----------------------------------------------------------------------------

  /** Chains, ledger and record order, with times, priorities and the back-off. */
  ghost predicate Reported<E, C(!new), V, H>(
    cfg: Config, g: Engine<E, C>, flight: Flight<E, C>, w: World<E, C, V, H>) {
    InOrder(cfg, g, flight, w) &&
    forall u :: Inside(Layer.Objects, u) ==> R.Exact(w.dev) && R.Ranked(w.dev) && R.Rested(cfg, w.dev)
  }

  lemma FreshIsReported<E(!new), C(!new), V, H>(
    cfg: Config, g: Engine<E, C>, flight: Flight<E, C>, d: Dev<E, C, Named<V>>, w: World<E, C, V, H>)
    requires cfg.Valid() && FlightIsPending(g, flight) && Fresh(cfg, g, d, w)
    ensures Reported(cfg, g, flight, w)
  {
    BegunIsSound(cfg, g, d);
    NoCalls(d.agenda);
    assert Ledger(cfg, flight, d, []);
    if cfg.idleRefresh {
      var d1 := d.(idleTicking := true, idleBatch := cfg.idleBase);
      AfterCyclesKeepsLedger(cfg, flight, d1, [], cfg.idleBase, Tag<C, Named<V>>.IdleTick);
      R.AtIsRanked(d1, d.now + cfg.idleBase * cfg.period, 0, Tag<C, Named<V>>.IdleTick);
    }
    assert R.Exact(w.dev);
  }

  lemma {:induction false} NoCalls<C, U>(q: seq<Entry<Tag<C, U>>>)
    requires forall e :: e in q ==> e.what.User?
    ensures Calls(q) == []
  {
    if q != [] {
      NoCalls(q[1..]);
      assert q[0] in q;
    }
  }

  lemma StepIsReported<E(!new), C(!new), V, H>(
    mode: Mode, cfg: Config, g: Engine<E, C>, flight: Flight<E, C>, host: Host<H, C, V>, w: World<E, C, V, H>,
    h: Horizon)
    requires cfg.Valid() && Honest(g, flight) && Reported(cfg, g, flight, w) && !Halted(w, h)
    ensures Reported(cfg, g, flight, Step(mode, cfg, g, host, w, h))
  {
    StepKeepsOrder(mode, cfg, g, flight, host, w, h);
    assert Inside(Layer.Objects, true);
    OrderMeans(cfg, g, flight, w);
    R.StepIsExact(mode, cfg, g, flight, host, w, h);
    R.StepIsRanked(mode, cfg, g, host, w, h);
    R.StepIsRested(mode, cfg, g, host, w, h);
  }

  lemma OrderMeans<E, C(!new), V, H>(cfg: Config, g: Engine<E, C>, flight: Flight<E, C>, w: World<E, C, V, H>)
    requires InOrder(cfg, g, flight, w)
    ensures ChainInv(cfg, g, w.dev) && NoDrive(flight, w.dev.mem)
  {
    assert Inside(Layer.Lists, true);
  }

  lemma {:induction false} RunIsReported<E(!new), C(!new), V, H>(
    mode: Mode, cfg: Config, g: Engine<E, C>, flight: Flight<E, C>, host: Host<H, C, V>, w: World<E, C, V, H>,
    h: Horizon, n: nat, end: World<E, C, V, H>)
    requires cfg.Valid() && Honest(g, flight) && Reported(cfg, g, flight, w)
    requires end == Run(mode, cfg, g, host, w, h, n)
    ensures Reported(cfg, g, flight, end)
    decreases n
  {
    if n > 0 && !Halted(w, h) {
      var w1 := Step(mode, cfg, g, host, w, h);
      StepIsReported(mode, cfg, g, flight, host, w, h);
      assert end == Run(mode, cfg, g, host, w1, h, n - 1) by {
        RunOnce(mode, cfg, g, host, w, w1, h, n - 1);
      }
      RunIsReported(mode, cfg, g, flight, host, w1, h, n - 1, end);
    }
  }

  lemma {:induction false} SessionIsReported<E(!new), C(!new), V, H>(
    mode: Mode, cfg: Config, g: Engine<E, C>, flight: Flight<E, C>, host: Host<H, C, V>, w: World<E, C, V, H>,
    legs: seq<Leg>)
    requires cfg.Valid() && Honest(g, flight) && Reported(cfg, g, flight, w)
    ensures Reported(cfg, g, flight, Session(mode, cfg, g, host, w, legs))
    decreases legs
  {
    if legs != [] {
      OpenIsReported(cfg, g, flight, w);
      var w1 := Run(mode, cfg, g, host, Open(w), legs[0].h, legs[0].steps);
      RunIsReported(mode, cfg, g, flight, host, Open(w), legs[0].h, legs[0].steps, w1);
      SessionIsReported(mode, cfg, g, flight, host, w1, legs[1..]);
    }
  }

  lemma OpenIsReported<E, C(!new), V, H>(cfg: Config, g: Engine<E, C>, flight: Flight<E, C>, w: World<E, C, V, H>)
    requires Reported(cfg, g, flight, w)
    ensures Reported(cfg, g, flight, Open(w))
  {
  }

  /** At any point of any session: the callbacks that have started, followed by those waiting in firing order and
      those still in the deque, are the recorded completions in the order of the engine's records; and per callback,
      kind and core, every accepted request is in the engine or recorded. */
  lemma InRecordOrder<E(!new), C(!new), V, H>(
    mode: Mode, cfg: Config, g: Engine<E, C>, flight: Flight<E, C>, host: Host<H, C, V>, d: Dev<E, C, Named<V>>,
    w: World<E, C, V, H>, legs: seq<Leg>)
    requires cfg.Valid() && Honest(g, flight) && Fresh(cfg, g, d, w)
    ensures var end := Session(mode, cfg, g, host, w, legs);
            && WithCallback(end.dev.recorded) == Fired(end.trace) + Calls(end.dev.agenda) +
              WithCallback(end.dev.completed)
            && forall k :: Taken(end.dev.accepted, k) == InEngine(flight, end.dev.mem, k) + Addrs(end.dev.completed, k)
                                                         + Addrs(Fired(end.trace) + Calls(end.dev.agenda), k)
  {
    FreshIsReported(cfg, g, flight, d, w);
    SessionIsReported(mode, cfg, g, flight, host, w, legs);
    assert Inside(Layer.Lists, true);
  }

  /** When the simulator has nothing left to do, every accepted request has called its own callback exactly once, in
      the order of the engine's records, and was told its own address, kind, core and times: those that the engine
      handed back with a read, the cycle of acceptance for a write. */
  lemma ExactlyOnce<E(!new), C(!new), V, H>(
    mode: Mode, cfg: Config, g: Engine<E, C>, flight: Flight<E, C>, host: Host<H, C, V>, d: Dev<E, C, Named<V>>,
    w: World<E, C, V, H>, legs: seq<Leg>, end: World<E, C, V, H>)
    requires cfg.Valid() && Honest(g, flight) && Fresh(cfg, g, d, w)
    requires end == Session(mode, cfg, g, host, w, legs) && end.dev.agenda == []
    ensures Fired(end.trace) == WithCallback(end.dev.recorded)
    ensures forall k :: Taken(end.dev.accepted, k) == Addrs(Fired(end.trace), k)
    ensures forall k :: R.Infos(Fired(end.trace), k) ==
                        if k.kind == READ then R.Handed(end.dev.served, k) else R.Written(end.dev.accepted, k)
  {
    FreshIsReported(cfg, g, flight, d, w);
    SessionIsReported(mode, cfg, g, flight, host, w, legs);
    QuietIsDone(cfg, g, flight, end);
    assert Inside(Layer.Objects, true);
    forall k
      ensures R.Infos(Fired(end.trace), k) == R.Due(end.dev.served, end.dev.accepted, k)
    {
      R.InfosWithCallback(end.dev.recorded, k);
    }
  }

  lemma QuietIsDone<E(!new), C(!new), V, H>(
    cfg: Config, g: Engine<E, C>, flight: Flight<E, C>, end: World<E, C, V, H>)
    requires Honest(g, flight) && InOrder(cfg, g, flight, end) && end.dev.agenda == []
    ensures Fired(end.trace) == WithCallback(end.dev.recorded)
    ensures forall k :: Taken(end.dev.accepted, k) == Addrs(Fired(end.trace), k)
  {
    assert Inside(Layer.Lists, true);
    assert Fired(end.trace) + [] == Fired(end.trace);
    assert !end.dev.ticking;
    forall k
      ensures Taken(end.dev.accepted, k) == Addrs(Fired(end.trace), k)
    {
      assert InEngine(flight, end.dev.mem, k) == multiset{};
    }
  }

  /** At any point of any session: the completions told so far, waiting, or in the deque are, times included, those of
      the reads that the engine has handed back and of the accepted writes. */
  lemma TimesAreTheEngines<E(!new), C(!new), V, H>(
    mode: Mode, cfg: Config, g: Engine<E, C>, flight: Flight<E, C>, host: Host<H, C, V>, d: Dev<E, C, Named<V>>,
    w: World<E, C, V, H>, legs: seq<Leg>, k: Key<C>)
    requires cfg.Valid() && Honest(g, flight) && Fresh(cfg, g, d, w)
    ensures var end := Session(mode, cfg, g, host, w, legs);
            R.Infos(Fired(end.trace) + Calls(end.dev.agenda) + WithCallback(end.dev.completed), k) ==
              if k.kind == READ then R.Handed(end.dev.served, k) else R.Written(end.dev.accepted, k)
  {
    FreshIsReported(cfg, g, flight, d, w);
    SessionIsReported(mode, cfg, g, flight, host, w, legs);
    InRecordOrder(mode, cfg, g, flight, host, d, w, legs);
    assert Inside(Layer.Objects, true);
    R.InfosWithCallback(Session(mode, cfg, g, host, w, legs).dev.recorded, k);
  }

  /** At any point of any session: a waiting completion is due now, at the completion priority; the events of the
      clock chains have priority 0; and a pending idle event stands for min(2^k * idleBase, 16 * idleBase) cycles when
      `k` idle events have fired since the component was last busy. */
  lemma EventsAreInPlace<E(!new), C(!new), V, H>(
    mode: Mode, cfg: Config, g: Engine<E, C>, flight: Flight<E, C>, host: Host<H, C, V>, d: Dev<E, C, Named<V>>,
    w: World<E, C, V, H>, legs: seq<Leg>)
    requires cfg.Valid() && Honest(g, flight) && Fresh(cfg, g, d, w)
    ensures var end := Session(mode, cfg, g, host, w, legs).dev;
            && (forall e :: e in end.agenda ==>
                  && (e.what.Call? ==> e.time == end.now && e.prio == cfg.priority)
                  && (e.what.Tick? || e.what.IdleTick? ==> e.prio == 0))
            && (end.idleTicking ==>
                  end.idleBatch ==
                    if R.Pow2(end.naps) < 16 then R.Pow2(end.naps) * cfg.idleBase else 16 * cfg.idleBase)
  {
    FreshIsReported(cfg, g, flight, d, w);
    SessionIsReported(mode, cfg, g, flight, host, w, legs);
    assert Inside(Layer.Objects, true);
    DueNow(cfg, g, flight, Session(mode, cfg, g, host, w, legs));
  }

  lemma DueNow<E, C(!new), V, H>(cfg: Config, g: Engine<E, C>, flight: Flight<E, C>, w: World<E, C, V, H>)
    requires InOrder(cfg, g, flight, w)
    ensures forall e :: e in w.dev.agenda && e.what.Call? ==> e.time == w.dev.now && e.prio == cfg.priority
  {
    assert Inside(Layer.Lists, true);
    FromAll(w.dev.agenda, w.dev.now);
  }
}

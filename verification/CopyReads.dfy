/**
 The copy engine reads every line once: each produced address is on its way to the issue queue, stalled before it,
 in it, or accepted by the DRAM as a read, and is in one of these places only.
 */
module CopyReads {
  import opened Prelude
  import opened Agenda
  import opened Engine
  import opened Device
  import opened CopyEngine
  import opened CopyInvariant
  import P = Pipes
  import Delivery

  /** The source addresses accepted as reads so far. */
  ghost function Fetched<E>(d: CopyDev<E>): multiset<int> {
    Delivery.Taken(d.accepted, Delivery.Key(READ, 0, Load))
  }

  /** How often address `a` is on its way through the issue pipe. */
  ghost function Arriving(q: CopyAgenda, a: int): nat {
    if q == [] then 0 else Bit(q[0].what == User(IssueArrive(a))) + Arriving(q[1..], a)
  }

  ghost function Asked<E>(d: CopyDev<E>, a: int): nat {
    Arriving(d.agenda, a) + Fetched(d)[a]
  }

  /** In all places but the stalled queue of the issue pipe. */
  ghost function Reading<E>(k: Copy<E>, a: int): nat {
    Asked(k.dev, a) + multiset(k.queue)[a]
  }

  ghost function Whereabouts<E>(k: Copy<E>, a: int): nat {
    Reading(k, a) + multiset(k.issue.stalled)[a]
  }

  // -- The DRAM ------------------------------------------------------------------------

  lemma {:induction false} ArrivingInsert(q: CopyAgenda, e: Entry<CopyTag>, a: int)
    ensures Arriving(Insert(q, e), a) == Arriving(q, a) + Bit(e.what == User(IssueArrive(a)))
  {
    if q != [] && NotAfter(q[0], e) {
      ArrivingInsert(q[1..], e, a);
      assert Insert(q, e)[1..] == Insert(q[1..], e);
    } else {
      assert ([e] + q)[1..] == q;
    }
  }

  lemma {:induction false} ArrivingDrop(q: CopyAgenda, a: int)
    ensures Arriving(Drop(q, IsIdle), a) == Arriving(q, a)
  {
    if q != [] {
      ArrivingDrop(q[1..], a);
      if !IsIdle(q[0].what) {
        assert Drop(q, IsIdle)[1..] == Drop(q[1..], IsIdle);
      }
    }
  }

  /** No read is accepted and no address is put into the issue pipe. */
  ghost predicate Silent<E>(d: CopyDev<E>, r: CopyDev<E>, a: int) {
    r.accepted == d.accepted && Arriving(r.agenda, a) == Arriving(d.agenda, a)
  }

  lemma AtIsSilent<E>(d: CopyDev<E>, time: int, prio: int, tag: CopyTag, a: int)
    requires tag != User(IssueArrive(a))
    ensures Silent(d, At(d, time, prio, tag), a)
  {
    ArrivingInsert(d.agenda, Entry(time, prio, tag), a);
  }

  lemma {:induction false} DeliverIsSilent<E>(cfg: Config, d: CopyDev<E>, a: int)
    ensures Silent(d, Deliver(cfg, d), a)
    decreases |d.completed|
  {
    if d.completed != [] {
      var n := d.completed[0];
      var d1 := d.(completed := d.completed[1..]);
      if n.user.None? {
        DeliverIsSilent(cfg, d1, a);
      } else {
        AtIsSilent(d1, d1.now, cfg.priority, Call(n.user.value, n.info), a);
        DeliverIsSilent(cfg, Post(cfg, d1, n.user.value, n.info), a);
      }
    }
  }

  lemma StartTickingIsSilent<E>(cfg: Config, d: CopyDev<E>, a: int)
    ensures Silent(d, StartTicking(cfg, d), a)
  {
    if !d.ticking {
      ArrivingDrop(d.agenda, a);
      var d1 := if d.idleTicking then d.(idleTicking := false, agenda := Drop(d.agenda, IsIdle)) else d;
      AtIsSilent(d1.(ticking := true), d1.now + 1 * cfg.period, 0, Tag.Tick, a);
    }
  }

  lemma GoOnIsSilent<E>(cfg: Config, g: CopyEng<E>, d: CopyDev<E>, a: int)
    ensures Silent(d, GoOn(cfg, g, d), a)
  {
    AtIsSilent(d, d.now + 1 * cfg.period, 0, Tag.Tick, a);
    AtIsSilent(d, d.now + cfg.idleBase * cfg.period, 0, Tag.IdleTick, a);
  }

  lemma TickIsSilent<E>(cfg: Config, g: CopyEng<E>, d: CopyDev<E>, max: nat, a: int)
    requires 1 <= max
    ensures Silent(d, TickBody(cfg, g, d, max), a)
  {
    var d1 := Advance(cfg, d, UntilProgress(g, d.mem, max));
    DeliverIsSilent(cfg, d1, a);
    GoOnIsSilent(cfg, g, Deliver(cfg, d1), a);
  }

  lemma IdleIsSilent<E>(cfg: Config, g: CopyEng<E>, d: CopyDev<E>, a: int)
    ensures Silent(d, IdleBody(cfg, g, d), a)
  {
    var (e, s) := TickN(g, d.mem, d.idleBatch);
    var d1 := Gather(d.(mem := e, clk := d.clk + d.idleBatch, served := d.served + s, naps := d.naps + 1), Recorded(s));
    var next: nat := Min(d.idleBatch * 2, cfg.MaxIdle());
    StartTickingIsSilent(cfg, d1.(idleTicking := false, idleBatch := cfg.idleBase), a);
    AtIsSilent(d1.(idleBatch := next), d1.now + next * cfg.period, 0, Tag.IdleTick, a);
  }

  lemma ReadAsks<E>(cfg: Config, g: CopyEng<E>, d: CopyDev<E>, addr: int, a: int)
    ensures var (r, res) := Device.Read(cfg, g, d, addr, 0, Some(Load));
            Asked(r, a) == Asked(d, a) + Bit(res == Ok(true) && a == addr)
  {
    var (d1, ok) := Send(g, d, addr, READ, 0, Some(Load));
    Delivery.TakenOne(d.accepted, addr, READ, 0, Some(Load), d.clk, ok, Delivery.Key(READ, 0, Load));
    StartTickingIsSilent(cfg, d1, a);
  }

  lemma WriteAsksNothing<E>(cfg: Config, g: CopyEng<E>, d: CopyDev<E>, addr: int, a: int)
    ensures Asked(Device.Write(cfg, g, d, addr, 0, Some(Store)).0, a) == Asked(d, a)
  {
    var (d1, ok) := Send(g, d, addr, WRITE, 0, Some(Store));
    Delivery.TakenOne(d.accepted, addr, WRITE, 0, Some(Store), d.clk, ok, Delivery.Key(READ, 0, Load));
    var d2 := Gather(d1, [WriteNote(addr, d1.clk, 0, Some(Store))]);
    DeliverIsSilent(cfg, d2, a);
    StartTickingIsSilent(cfg, Deliver(cfg, d2), a);
  }

  // -- The handlers --------------------------------------------------------------------

  lemma LaterAsks<E>(k: Copy<E>, delay: int, job: Job, a: int)
    ensures Asked(After(k, delay, job).dev, a) == Asked(k.dev, a) + Bit(job == IssueArrive(a))
  {
    ArrivingInsert(k.dev.agenda, Entry(k.dev.now + delay, 0, Tag.User(job)), a);
  }

  /** Apart from reads accepted or queued, the address is where it was. */
  ghost predicate Steady<E>(k: Copy<E>, r: Copy<E>, a: int) {
    Reading(r, a) == Reading(k, a) && r.produced == k.produced && r.issue == k.issue
  }

  lemma PutIsSteady<E>(p: Params, k: Copy<E>, line: Line, a: int)
    ensures Steady(k, PutCompute(p, k, line).0, a)
  {
    if k.compute.inFlight < p.computeSlots {
      var k1 := k.(compute := k.compute.(inFlight := k.compute.inFlight + 1));
      LaterAsks(k1, p.computeLatency * HOST_PERIOD, ComputeArrive(line), a);
      assert PutCompute(p, k, line).0 == After(k1, p.computeLatency * HOST_PERIOD, ComputeArrive(line));
    }
  }

  lemma {:induction false} DrainHeldIsSteady<E>(p: Params, k: Copy<E>, a: int)
    ensures Steady(k, DrainHeld(p, k), a)
    decreases |k.held|
  {
    if k.held != [] {
      PutIsSteady(p, k, k.held[0], a);
      var (k1, ok) := PutCompute(p, k, k.held[0]);
      if ok {
        DrainHeldIsSteady(p, k1.(held := k.held[1..]), a);
      }
    }
  }

  lemma SteadyTrans<E>(k: Copy<E>, m: Copy<E>, r: Copy<E>, a: int)
    requires Steady(k, m, a) && Steady(m, r, a)
    ensures Steady(k, r, a)
  {
  }

  /** One round of the loop. */
  lemma ReadRound<E>(cfg: Config, g: CopyEng<E>, p: Params, k: Copy<E>) returns (d: CopyDev<E>, ok: bool, r: Copy<E>)
    requires k.queue != [] && k.loading < p.maxOutstanding && Reserved(k) < p.computeSlots
    ensures d == Device.Read(cfg, g, k.dev, k.queue[0], 0, Some(Load)).0
    ensures ok == (Device.Read(cfg, g, k.dev, k.queue[0], 0, Some(Load)).1 == Ok(true))
    ensures r == if ok then k.(dev := d, queue := k.queue[1..], loading := k.loading + 1) else k.(dev := d)
    ensures IssueReads(cfg, g, p, k) == if ok then IssueReads(cfg, g, p, r) else r
  {
    d := Device.Read(cfg, g, k.dev, k.queue[0], 0, Some(Load)).0;
    ok := Device.Read(cfg, g, k.dev, k.queue[0], 0, Some(Load)).1 == Ok(true);
    r := if ok then k.(dev := d, queue := k.queue[1..], loading := k.loading + 1) else k.(dev := d);
  }

  lemma ReadMoves<E>(k: Copy<E>, d: CopyDev<E>, ok: bool, a: int)
    requires k.queue != [] && Asked(d, a) == Asked(k.dev, a) + Bit(ok && a == k.queue[0])
    ensures Steady(k, if ok then k.(dev := d, queue := k.queue[1..], loading := k.loading + 1) else k.(dev := d), a)
  {
    QueueHead(k.queue, a);
  }

  lemma {:induction false} IssueReadsIsSteady<E>(cfg: Config, g: CopyEng<E>, p: Params, k: Copy<E>, a: int)
    ensures Steady(k, IssueReads(cfg, g, p, k), a)
    decreases |k.queue|
  {
    if k.queue != [] && k.loading < p.maxOutstanding && Reserved(k) < p.computeSlots {
      var d, ok, k1 := ReadRound(cfg, g, p, k);
      ReadAsks(cfg, g, k.dev, k.queue[0], a);
      ReadMoves(k, d, ok, a);
      if ok {
        IssueReadsIsSteady(cfg, g, p, k1, a);
        SteadyTrans(k, k1, IssueReads(cfg, g, p, k1), a);
      }
    }
  }

  lemma PumpIsSteady<E>(cfg: Config, g: CopyEng<E>, p: Params, k: Copy<E>, a: int)
    ensures Steady(k, PumpReads(cfg, g, p, k), a)
  {
    DrainHeldIsSteady(p, k, a);
    IssueReadsIsSteady(cfg, g, p, DrainHeld(p, k), a);
  }

  lemma OnIssueQueues<E>(cfg: Config, g: CopyEng<E>, p: Params, k: Copy<E>, addr: int, a: int)
    ensures var (r, ok) := OnIssue(cfg, g, p, k, addr);
            Reading(r, a) == Reading(k, a) + Bit(ok && a == addr) && r.produced == k.produced && r.issue == k.issue
  {
    if |k.queue| < p.queueDepth {
      var q := k.queue + [addr];
      var k1 := k.(queue := q, highWater := if |q| > k.highWater then |q| else k.highWater);
      PumpIsSteady(cfg, g, p, k1, a);
      LaterAsks(PumpReads(cfg, g, p, k1), 0, Fill, a);
    }
  }

  lemma OnLoadIsSteady<E>(cfg: Config, g: CopyEng<E>, p: Params, k: Copy<E>, addr: int, a: int)
    ensures Steady(k, OnLoad(cfg, g, p, k, addr), a)
  {
    var k0 := k.(loading := k.loading - 1);
    DrainHeldIsSteady(p, k0, a);
    var k2 := Land(p, DrainHeld(p, k0), LineOf(addr), a);
    assert OnLoad(cfg, g, p, k, addr) == PumpReads(cfg, g, p, k2);
    PumpIsSteady(cfg, g, p, k2, a);
  }

  /** A loaded line enters the compute pipe or is held. */
  lemma Land<E>(p: Params, k: Copy<E>, line: Line, a: int) returns (r: Copy<E>)
    ensures var (k2, ok) := PutCompute(p, k, line);
            r == if ok then k2 else k2.(held := k2.held + [line], computeStalls := k2.computeStalls + 1)
    ensures Steady(k, r, a)
  {
    PutIsSteady(p, k, line, a);
    var (k2, ok) := PutCompute(p, k, line);
    r := if ok then k2 else k2.(held := k2.held + [line], computeStalls := k2.computeStalls + 1);
  }

  lemma StoreIsSteady<E>(cfg: Config, g: CopyEng<E>, k: Copy<E>, line: Line, a: int)
    ensures Steady(k, TryStore(cfg, g, k, line).0, a)
  {
    WriteAsksNothing(cfg, g, k.dev, line.dst, a);
  }

  // -- The pipes -------------------------------------------------------------------------

  lemma {:induction false} IssueDrainKeeps<E>(
    cfg: Config, g: CopyEng<E>, p: Params, pipe: P.Pipe<int>, k: Copy<E>, a: int)
    ensures var o := P.Drain(p.IssueShape(), IssueConsumer(cfg, g, p), pipe, k);
            && Reading(o.s, a) + multiset(o.pipe.stalled)[a] == Reading(k, a) + multiset(pipe.stalled)[a]
            && o.s.produced == k.produced
    decreases |pipe.stalled|
  {
    if pipe.stalled != [] {
      var (r, ok) := OnIssue(cfg, g, p, k, pipe.stalled[0]);
      P.DrainRound(p.IssueShape(), IssueConsumer(cfg, g, p), pipe, k, r, ok);
      OnIssueQueues(cfg, g, p, k, pipe.stalled[0], a);
      if ok {
        QueueHead(pipe.stalled, a);
        IssueDrainKeeps(cfg, g, p, pipe.(stalled := pipe.stalled[1..], inFlight := pipe.inFlight - 1), r, a);
      }
    }
  }

  lemma {:induction false} ComputeDrainIsSteady<E>(
    cfg: Config, g: CopyEng<E>, p: Params, pipe: P.Pipe<Line>, k: Copy<E>, a: int)
    ensures Steady(k, P.Drain(p.ComputeShape(), ComputeConsumer(cfg, g), pipe, k).s, a)
    decreases |pipe.stalled|
  {
    if pipe.stalled != [] {
      var (r, ok) := TryStore(cfg, g, k, pipe.stalled[0]);
      P.DrainRound(p.ComputeShape(), ComputeConsumer(cfg, g), pipe, k, r, ok);
      StoreIsSteady(cfg, g, k, pipe.stalled[0], a);
      if ok {
        ComputeDrainIsSteady(cfg, g, p, pipe.(stalled := pipe.stalled[1..], inFlight := pipe.inFlight - 1), r, a);
      }
    }
  }

  lemma {:induction false} FillProduces<E>(p: Params, k: Copy<E>, a: int)
    requires 0 <= k.produced
    ensures var r := FillIssue(p, k);
            && Whereabouts(r, a) + Bit(Produced(k.produced, a)) == Whereabouts(k, a) + Bit(Produced(r.produced, a))
            && k.produced <= r.produced
    decreases p.lines - k.produced
  {
    if k.produced < p.lines && k.issue.inFlight < p.issueSlots {
      var m := ProduceOne(p, k, a);
      FillRound(p, k, m);
      FillProduces(p, m, a);
    }
  }

  lemma ProduceOne<E>(p: Params, k: Copy<E>, a: int) returns (m: Copy<E>)
    requires 0 <= k.produced
    ensures var addr := SRC_BASE + k.produced * CACHELINE;
            var k1 := k.(issue := k.issue.(inFlight := k.issue.inFlight + 1), produced := k.produced + 1);
            m == After(k1, p.issueLatency * HOST_PERIOD, IssueArrive(addr))
    ensures Whereabouts(m, a) + Bit(Produced(k.produced, a)) == Whereabouts(k, a) + Bit(Produced(k.produced + 1, a))
    ensures m.produced == k.produced + 1
  {
    var addr := SRC_BASE + k.produced * CACHELINE;
    var k1 := k.(issue := k.issue.(inFlight := k.issue.inFlight + 1), produced := k.produced + 1);
    LaterAsks(k1, p.issueLatency * HOST_PERIOD, IssueArrive(addr), a);
    NextLine(k.produced, a);
    m := After(k1, p.issueLatency * HOST_PERIOD, IssueArrive(addr));
  }

  // -- Every step --------------------------------------------------------------------------

  /** Every produced address is in one place, on top of what `was` fetched before. */
  ghost predicate Placed<E>(k: Copy<E>, was: multiset<int>, a: int) {
    forall u :: Inside(Layer.Sums, u) ==>
      0 <= k.produced && Whereabouts(k, a) == was[a] + Bit(Produced(k.produced, a))
  }

  lemma JobKeeps<E>(cfg: Config, g: CopyEng<E>, p: Params, k: Copy<E>, job: Job, a: int)
    requires 0 <= k.produced
    ensures var r := OnJob(cfg, g, p, k, job);
            && Whereabouts(r, a) + Bit(Produced(k.produced, a)) ==
               Whereabouts(k, a) + Bit(Produced(r.produced, a)) + Bit(job == IssueArrive(a))
            && k.produced <= r.produced
  {
    match job
    case IssueArrive(addr) => IssueArriveKeeps(cfg, g, p, k, addr, a);
    case IssueRetry =>
      IssueDrainKeeps(cfg, g, p, k.issue.(retry := false), k, a);
      IssueDoneKeeps(P.Drain(p.IssueShape(), IssueConsumer(cfg, g, p), k.issue.(retry := false), k), a);
    case ComputeArrive(line) => ComputeArriveKeeps(cfg, g, p, k, line, a);
    case ComputeRetry =>
      ComputeDrainIsSteady(cfg, g, p, k.compute.(retry := false), k, a);
      ComputeDoneKeeps(P.Drain(p.ComputeShape(), ComputeConsumer(cfg, g), k.compute.(retry := false), k), a);
    case Fill =>
      FillProduces(p, k, a);
  }

  lemma IssueArriveKeeps<E>(cfg: Config, g: CopyEng<E>, p: Params, k: Copy<E>, addr: int, a: int)
    ensures var r := OnJob(cfg, g, p, k, IssueArrive(addr));
            Whereabouts(r, a) == Whereabouts(k, a) + Bit(a == addr) && r.produced == k.produced
  {
    OnIssueQueues(cfg, g, p, k, addr, a);
    IssueDoneKeeps(P.Deliver(p.IssueShape(), IssueConsumer(cfg, g, p), k.issue, k, addr), a);
  }

  lemma ComputeArriveKeeps<E>(cfg: Config, g: CopyEng<E>, p: Params, k: Copy<E>, line: Line, a: int)
    ensures Steady(k, OnJob(cfg, g, p, k, ComputeArrive(line)), a)
  {
    StoreIsSteady(cfg, g, k, line, a);
    ComputeDoneKeeps(P.Deliver(p.ComputeShape(), ComputeConsumer(cfg, g), k.compute, k, line), a);
  }

  lemma IssueDoneKeeps<E>(o: P.Outcome<Copy<E>, int>, a: int)
    ensures Whereabouts(IssueDone(o), a) == Reading(o.s, a) + multiset(o.pipe.stalled)[a]
    ensures IssueDone(o).produced == o.s.produced
  {
    LaterAsks(o.s.(issue := o.pipe), HOST_PERIOD, IssueRetry, a);
  }

  lemma ComputeDoneKeeps<E>(o: P.Outcome<Copy<E>, Line>, a: int)
    ensures Steady(o.s, ComputeDone(o), a)
  {
    LaterAsks(o.s.(compute := o.pipe), HOST_PERIOD, ComputeRetry, a);
  }

  lemma HandledKeeps<E>(cfg: Config, g: CopyEng<E>, p: Params, k: Copy<E>, t: CopyTag, a: int)
    requires cfg.Valid() && 0 <= k.produced
    ensures var r := Handled(cfg, g, p, k, t);
            && Whereabouts(r, a) + Bit(Produced(k.produced, a)) ==
               Whereabouts(k, a) + Bit(Produced(r.produced, a)) + Bit(t == User(IssueArrive(a)))
            && k.produced <= r.produced
  {
    match t
    case Tick => TickIsSilent(cfg, g, k.dev, MaxBurst(cfg.period, k.dev.now, NextTime(k.dev.agenda), None), a);
    case IdleTick => IdleIsSilent(cfg, g, k.dev, a);
    case Call(cb, info) =>
      if cb.Load? {
        OnLoadIsSteady(cfg, g, p, k, info.addr, a);
      } else {
        PumpIsSteady(cfg, g, p, k.(writes := k.writes + 1), a);
      }
    case User(job) => JobKeeps(cfg, g, p, k, job, a);
  }

  lemma StepKeepsPlaced<E>(cfg: Config, g: CopyEng<E>, p: Params, k: Copy<E>, was: multiset<int>, a: int)
    requires cfg.Valid() && k.dev.agenda != [] && Placed(k, was, a)
    ensures Placed(Step(cfg, g, p, k), was, a)
  {
    assert Inside(Layer.Sums, true);
    var k1, t := k.(dev := Pop(k.dev)), k.dev.agenda[0].what;
    assert Whereabouts(k, a) == Whereabouts(k1, a) + Bit(t == User(IssueArrive(a)));
    HandledKeeps(cfg, g, p, k1, t, a);
    assert Step(cfg, g, p, k) == Handled(cfg, g, p, k1, t);
  }

  lemma {:induction false} RunKeepsPlaced<E>(
    cfg: Config, g: CopyEng<E>, p: Params, k: Copy<E>, n: nat, was: multiset<int>, a: int, end: Copy<E>)
    requires cfg.Valid() && Placed(k, was, a) && end == Run(cfg, g, p, k, n)
    ensures Placed(end, was, a)
    decreases n
  {
    if n > 0 && k.dev.agenda != [] {
      var k1 := Step(cfg, g, p, k);
      StepKeepsPlaced(cfg, g, p, k, was, a);
      RunKeepsPlaced(cfg, g, p, k1, n - 1, was, a, end);
    }
  }

  // -- How far the loops go ------------------------------------------------------------------

  /** Filling stops only at the end of the stream or with the issue pipe full. */
  lemma {:induction false} FillGoesOn<E>(p: Params, k: Copy<E>)
    ensures var r := FillIssue(p, k); p.lines <= r.produced || p.issueSlots <= r.issue.inFlight
    decreases p.lines - k.produced
  {
    if k.produced < p.lines && k.issue.inFlight < p.issueSlots {
      var addr := SRC_BASE + k.produced * CACHELINE;
      var k1 := k.(issue := k.issue.(inFlight := k.issue.inFlight + 1), produced := k.produced + 1);
      FillGoesOn(p, After(k1, p.issueLatency * HOST_PERIOD, IssueArrive(addr)));
    }
  }

  ghost predicate Refuses<E>(g: CopyEng<E>, e: E, addr: int, e1: E) {
    g.send(e, Request(addr, READ, 0, Record(0, Some(Load)))) == (e1, false)
  }

  /** Reading stops only with the queue empty, the read window or the reservation used up, or a read refused. */
  lemma {:induction false} IssueReadsGoesOn<E>(cfg: Config, g: CopyEng<E>, p: Params, k: Copy<E>)
    requires CoreOk(cfg, 0)
    ensures var r := IssueReads(cfg, g, p, k);
            || r.queue == [] || p.maxOutstanding <= r.loading
            || p.computeSlots <= r.loading + r.compute.inFlight + |r.held|
            || exists e :: Refuses(g, e, r.queue[0], r.dev.mem)
    decreases |k.queue|
  {
    if k.queue != [] && k.loading < p.maxOutstanding && Reserved(k) < p.computeSlots {
      var (d, ok) := Device.Read(cfg, g, k.dev, k.queue[0], 0, Some(Load));
      if ok == Ok(true) {
        var k1 := k.(dev := d, queue := k.queue[1..], loading := k.loading + 1);
        IssueReadsGoesOn(cfg, g, p, k1);
        assert IssueReads(cfg, g, p, k) == IssueReads(cfg, g, p, k1);
      } else {
        assert Refuses(g, k.dev.mem, k.queue[0], d.mem);
        assert IssueReads(cfg, g, p, k) == k.(dev := d);
      }
    }
  }

  // -- Main results --------------------------------------------------------------------------

  lemma StartIsPlaced<E>(p: Params, d: CopyDev<E>, a: int)
    requires d.agenda == []
    ensures Placed(Start(p, d), Fetched(d), a)
  {
    assert Whereabouts(Fresh(d), a) == Fetched(d)[a];
    FillProduces(p, Fresh(d), a);
  }

  /** Once nothing is left in the issue pipe and the queue, every produced line has been read, exactly once. */
  lemma EachLineIsRead<E>(cfg: Config, g: CopyEng<E>, p: Params, d: CopyDev<E>, n: nat)
    requires cfg.Valid() && d.agenda == []
    ensures var k := Run(cfg, g, p, Start(p, d), n);
            && 0 <= k.produced
            && (k.dev.agenda == [] && k.queue == [] && k.issue.stalled == [] ==>
                  Fetched(k.dev) == Fetched(d) + Lines(0, k.produced))
  {
    var k := Run(cfg, g, p, Start(p, d), n);
    forall a
      ensures Placed(k, Fetched(d), a)
    {
      StartIsPlaced(p, d, a);
      RunKeepsPlaced(cfg, g, p, Start(p, d), n, Fetched(d), a, k);
    }
    assert Placed(k, Fetched(d), 0) && Inside(Layer.Sums, true);
    if k.dev.agenda == [] && k.queue == [] && k.issue.stalled == [] {
      PlacedMeans(k, Fetched(d));
    }
  }

  lemma PlacedMeans<E>(k: Copy<E>, was: multiset<int>)
    requires 0 <= k.produced && k.dev.agenda == [] && k.queue == [] && k.issue.stalled == []
    requires forall a :: Placed(k, was, a)
    ensures Fetched(k.dev) == was + Lines(0, k.produced)
  {
    assert Inside(Layer.Sums, true);
    forall a
      ensures Fetched(k.dev)[a] == (was + Lines(0, k.produced))[a]
    {
      assert Placed(k, was, a);
      LineIn(0, k.produced, a);
    }
    assert Fetched(k.dev) == was + Lines(0, k.produced);
  }

  /** `run` either still has an event to fire, or has read every line exactly once and stored every line exactly
      once, each at its own place in the destination. */
  lemma CopyCompletes<E(!new)>(
    cfg: Config, g: CopyEng<E>, p: Params, flight: Flight<E, Callback>, d: CopyDev<E>, n: nat)
    requires Ready(cfg, g, p, flight, d)
    ensures var k := Run(cfg, g, p, Start(p, d), n);
            k.dev.agenda == [] ==>
              && k.writes == k.produced == (if 0 <= p.lines then p.lines else 0)
              && Fetched(k.dev) == Fetched(d) + Lines(0, k.writes)
              && Stored(k.dev) == Lines(0x10_0000, k.writes)
              && g.pending(k.dev.mem) == 0
  {
    var k0 := Start(p, d);
    StartIsSound(cfg, g, p, flight, d);
    var k := Run(cfg, g, p, k0, n);
    RunKeepsInv(cfg, g, p, flight, k0, n, k);
    if k.dev.agenda == [] {
      QuietMeansDone(cfg, g, p, flight, k);
      EachLineIsRead(cfg, g, p, d, n);
    }
  }

  /** A copy that fits before its destination leaves its source alone. */
  lemma SourceIsKept<E(!new)>(
    cfg: Config, g: CopyEng<E>, p: Params, flight: Flight<E, Callback>, d: CopyDev<E>, n: nat, x: int)
    requires Ready(cfg, g, p, flight, d) && p.lines * 64 <= 0x10_0000
    ensures var k := Run(cfg, g, p, Start(p, d), n);
            k.dev.agenda == [] && x in Stored(k.dev) ==> !(0 <= x < p.lines * 64)
  {
    var k := Run(cfg, g, p, Start(p, d), n);
    CopyCompletes(cfg, g, p, flight, d, n);
    if k.dev.agenda == [] && x in Stored(k.dev) {
      LineIn(0x10_0000, k.writes, x - 0x10_0000);
    }
  }
}

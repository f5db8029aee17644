/**
 The copy engine as the object it is, on the FIFO, the two pipes and the DRAM component.

 Every method is proved against the function of the same name in module CopyEngine, so the engine's
 invariant and its completion theorem hold of the objects.
 */
module CopyMachine {
  import opened Prelude
  import opened Engine
  import opened Erasure
  import D = Device
  import C = CopyEngine
  import P = Pipes
  import H = Hardware
  import DR = Dram
  import S = Simulator
  import CI = CopyInvariant
  import CR = CopyReads
  import Chains

  type CopyTag = D.Tag<C.Callback, C.Job>

  class CopyEngine<E(!new)> {
    const p: C.Params
    const sim: S.Simulator<CopyTag>
    const dram: DR.Dram<E, C.Callback, C.Job>
    const issueQ: H.FIFO<int>
    const issuePipe: H.Pipe<int, CopyTag>
    const computePipe: H.Pipe<C.Line, CopyTag>
    var produced: int
    var readsInflight: int
    var writesAccepted: int
    var issueStalls: int
    var storeStalls: int
    var computeStalls: int
    var fifoHighWater: int
    var heldCompute: seq<C.Line>

    /** How the parts were put together. */
    ghost predicate Wired() {
      && p.Valid() && dram.sim == sim
      && issuePipe.sim == sim && issuePipe.shape == p.IssueShape() && issuePipe.retryTag == D.User(C.IssueRetry)
      && issuePipe.arrive == ((addr: int) => D.User(C.IssueArrive(addr)))
      && computePipe.sim == sim && computePipe.shape == p.ComputeShape() && computePipe.retryTag ==
        D.User(C.ComputeRetry)
      && computePipe.arrive == ((line: C.Line) => D.User(C.ComputeArrive(line)))
      && issueQ.capacity == p.queueDepth
    }

    ghost predicate Valid()
      reads this, issueQ, dram, sim, sim.order, dram.mem, dram.mem.impl
    {
      Wired() && Ready()
    }

    /** The part of `Valid` that can change; the wiring is made of constants. */
    ghost predicate Ready()
      reads issueQ, dram, dram.sim, dram.sim.order, dram.mem, dram.mem.impl
    {
      dram.Valid() && issueQ.Valid()
    }

    ghost function State(): C.Copy<E>
      reads this, issueQ, issuePipe, computePipe, dram, dram.sim, dram.mem, dram.mem.impl
    {
      C.Copy(dram.View(), produced, readsInflight, writesAccepted, heldCompute, issueQ.q,
             issuePipe.Value(), computePipe.Value(), issueStalls, storeStalls, computeStalls, fifoHighWater)
    }

    twostate predicate Kept()
      reads sim
    {
      fresh(sim.events - old(sim.events)) && sim.runUntil == old(sim.runUntil)
    }

    constructor (sim: S.Simulator<CopyTag>, dram: DR.Dram<E, C.Callback, C.Job>, p: C.Params)
      requires p.Valid() && dram.sim == sim && dram.Valid()
      ensures Valid() && this.p == p && this.sim == sim && this.dram == dram
      ensures State() == C.Copy(dram.View(), 0, 0, 0, [], [], P.Pipe(0, [], false), P.Pipe(0, [], false), 0, 0, 0, 0)
      ensures fresh(issueQ) && fresh(issuePipe) && fresh(computePipe)
      ensures issuePipe.shape == P.Shape(p.issueLatency * 1000, p.issueSlots, 1000)
      ensures computePipe.shape == P.Shape(p.computeLatency * 1000, p.computeSlots, 1000)
      ensures issueQ.capacity == p.queueDepth
    {
      this.p, this.sim, this.dram := p, sim, dram;
      issueQ := new H.FIFO(p.queueDepth);
      issuePipe := new H.Pipe(sim, p.IssueShape(), (addr: int) => D.User(C.IssueArrive(addr)), D.User(C.IssueRetry));
      computePipe := new H.Pipe(sim, p.ComputeShape(), (line: C.Line) => D.User(C.ComputeArrive(line)),
        D.User(C.ComputeRetry));
      produced, readsInflight, writesAccepted := 0, 0, 0;
      issueStalls, storeStalls, computeStalls, fifoHighWater := 0, 0, 0, 0;
      heldCompute := [];
    }

    // -- The pipes, as the engine sees them -------------------------------------------------

    method PutIssue(addr: int) returns (ok: bool)
      requires Valid()
      modifies issuePipe`inFlight, sim
      ensures Ready() && Kept()
      ensures ok == (old(issuePipe.inFlight) < p.issueSlots)
      ensures var k := old(State());
              State() == if ok then
                C.After(k.(issue := k.issue.(inFlight := k.issue.inFlight + 1)), p.issueLatency * C.HOST_PERIOD,
                  C.IssueArrive(addr))
                         else k
    {
      assert Inside(Layer.Objects, true);
      ok := issuePipe.Put(addr);
      if ok {
        dram.OtherScheduled(old(sim.queue), old(sim.nextId), sim.now + issuePipe.shape.delay, 0,
          D.User(C.IssueArrive(addr)));
      }
    }

    method PutCompute(line: C.Line) returns (ok: bool)
      requires Valid()
      modifies computePipe`inFlight, sim
      ensures Ready() && Kept()
      ensures (State(), ok) == C.PutCompute(p, old(State()), line)
    {
      assert Inside(Layer.Objects, true);
      ok := computePipe.Put(line);
      if ok {
        dram.OtherScheduled(old(sim.queue), old(sim.nextId), sim.now + computePipe.shape.delay, 0,
          D.User(C.ComputeArrive(line)));
      }
    }

    // -- Filling and pumping ---------------------------------------------------------------

    method FillIssue()
      requires Valid()
      modifies this`produced, issuePipe`inFlight, sim
      ensures Ready() && Kept()
      ensures State() == C.FillIssue(p, old(State()))
    {
      while produced < p.lines && issuePipe.CanPut()
        invariant Ready() && Kept()
        invariant C.FillIssue(p, State()) == C.FillIssue(p, old(State()))
        decreases p.lines - produced
      {
        FillOne();
      }
    }

    method FillOne()
      requires Valid() && issuePipe.CanPut()
      modifies this`produced, issuePipe`inFlight, sim
      ensures Ready() && Kept() && produced == old(produced) + 1
      ensures var k := old(State());
              State() == C.After(k.(issue := k.issue.(inFlight := k.issue.inFlight + 1), produced := k.produced + 1),
                                 p.issueLatency * C.HOST_PERIOD, C.IssueArrive(C.SRC_BASE + k.produced * C.CACHELINE))
    {
      var addr := C.SRC_BASE + produced * C.CACHELINE;
      var ok := PutIssue(addr);
      produced := produced + 1;
    }

    method DrainHeldCompute()
      requires Valid()
      modifies this`heldCompute, computePipe`inFlight, sim
      ensures Ready() && Kept()
      ensures State() == C.DrainHeld(p, old(State()))
    {
      ghost var end := C.DrainHeld(p, State());
      while heldCompute != []
        invariant Ready() && Kept()
        invariant C.DrainHeld(p, State()) == end
        decreases |heldCompute|
      {
        var ok := PutCompute(heldCompute[0]);
        if !ok {
          break;
        }
        heldCompute := heldCompute[1..];
      }
    }

    function Reserved(): int
      reads this, computePipe
    {
      readsInflight + computePipe.inFlight + |heldCompute|
    }

    method PumpReads()
      requires Valid()
      modifies this, issueQ, computePipe`inFlight, dram, sim, sim.events, dram.mem, dram.mem.impl
      ensures Ready() && Kept()
      ensures State() == C.PumpReads(dram.cfg, dram.G(), p, old(State()))
    {
      DrainHeldCompute();
      IssueReads();
    }

    /** The loop of `_pump_reads`. */
    method IssueReads()
      requires Valid()
      modifies this`readsInflight, issueQ, dram, sim, sim.events, dram.mem, dram.mem.impl
      ensures Ready() && Kept()
      ensures State() == C.IssueReads(dram.cfg, dram.G(), p, old(State()))
    {
      while issueQ.q != [] && readsInflight < p.maxOutstanding && Reserved() < p.computeSlots
        invariant Ready() && Kept()
        invariant C.IssueReads(dram.cfg, dram.G(), p, State()) == C.IssueReads(dram.cfg, dram.G(), p, old(State()))
        decreases |issueQ.q|
      {
        var ok := IssueRead();
        if !ok {
          return;
        }
      }
    }

    /** One round: the head of the queue leaves it once the DRAM has taken the read. */
    method IssueRead() returns (ok: bool)
      requires Valid() && issueQ.q != []
      modifies this`readsInflight, issueQ, dram, sim, sim.events, dram.mem, dram.mem.impl
      ensures Ready() && Kept()
      ensures var k := old(State());
              var (d, r) := D.Read(dram.cfg, dram.G(), k.dev, k.queue[0], 0, Some(C.Load));
              && ok == (r == Ok(true))
              && State() == if ok then k.(dev := d, queue := k.queue[1..], loading := k.loading + 1) else k.(dev := d)
    {
      var addr := issueQ.Peek();
      var r := dram.Read(addr.value, Some(C.Load), 0);
      ok := r == Ok(true);
      if ok {
        var taken := issueQ.Get();
        readsInflight := readsInflight + 1;
      }
    }

    // -- The consumers and callbacks ----------------------------------------------------------

    /** `schedule_ps(0, self._fill_issue)`. */
    method ScheduleFill()
      requires Valid()
      modifies sim
      ensures Ready() && Kept()
      ensures State() == C.After(old(State()), 0, C.Fill)
    {
      assert Inside(Layer.Objects, true);
      var id := sim.Schedule(0, D.User(C.Fill), 0);
      dram.OtherScheduled(old(sim.queue), old(sim.nextId), sim.now, 0, D.User(C.Fill));
    }

    method OnIssue(addr: int) returns (ok: bool)
      requires Valid()
      modifies this, issueQ, computePipe`inFlight, dram, sim, sim.events, dram.mem, dram.mem.impl
      ensures Ready() && Kept()
      ensures (State(), ok) == C.OnIssue(dram.cfg, dram.G(), p, old(State()), addr)
    {
      ok := Enqueue(addr);
      if ok {
        PumpAndRefill();
      }
    }

    /** The refill is an event of its own, so that it runs once the item has left the issue pipe. */
    method PumpAndRefill()
      requires Valid()
      modifies this, issueQ, computePipe`inFlight, dram, sim, sim.events, dram.mem, dram.mem.impl
      ensures Ready() && Kept()
      ensures State() == C.After(C.PumpReads(dram.cfg, dram.G(), p, old(State())), 0, C.Fill)
    {
      PumpReads();
      ScheduleFill();
    }

    method Enqueue(addr: int) returns (ok: bool)
      requires Valid()
      modifies this`issueStalls, this`fifoHighWater, issueQ
      ensures Ready() && ok == (|old(issueQ.q)| < p.queueDepth)
      ensures var k, q := old(State()), old(issueQ.q) + [addr];
              State() == if ok then k.(queue := q, highWater := if |q| > k.highWater then |q| else k.highWater)
                         else k.(issueStalls := k.issueStalls + 1)
    {
      ok := issueQ.Put(addr);
      if !ok {
        issueStalls := issueStalls + 1;
      } else if |issueQ.q| > fifoHighWater {
        fifoHighWater := |issueQ.q|;
      }
    }

    method OnLoad(addr: int)
      requires Valid()
      modifies this, issueQ, computePipe`inFlight, dram, sim, sim.events, dram.mem, dram.mem.impl
      ensures Ready() && Kept()
      ensures State() == C.OnLoad(dram.cfg, dram.G(), p, old(State()), addr)
    {
      Unload();
      Land(C.LineOf(addr));
    }

    method Unload()
      requires Valid()
      modifies this`readsInflight, this`heldCompute, computePipe`inFlight, sim
      ensures Ready() && Kept()
      ensures State() == C.DrainHeld(p, old(State()).(loading := old(readsInflight) - 1))
    {
      readsInflight := readsInflight - 1;
      DrainHeldCompute();
    }

    /** The loaded line goes into the compute pipe, or is held. */
    method Land(line: C.Line)
      requires Valid()
      modifies this, issueQ, computePipe`inFlight, dram, sim, sim.events, dram.mem, dram.mem.impl
      ensures Ready() && Kept()
      ensures var (k, ok) := C.PutCompute(p, old(State()), line);
              State() == C.PumpReads(dram.cfg, dram.G(), p,
                if ok then k else k.(held := k.held + [line], computeStalls := k.computeStalls + 1))
    {
      PutOrHold(line);
      PumpReads();
    }

    method PutOrHold(line: C.Line)
      requires Valid()
      modifies this`heldCompute, this`computeStalls, computePipe`inFlight, sim
      ensures Ready() && Kept()
      ensures var (k, ok) := C.PutCompute(p, old(State()), line);
              State() == if ok then k else k.(held := k.held + [line], computeStalls := k.computeStalls + 1)
    {
      var ok := PutCompute(line);
      if !ok {
        heldCompute := heldCompute + [line];
        computeStalls := computeStalls + 1;
      }
    }

    method TryStore(line: C.Line) returns (ok: bool)
      requires Valid()
      modifies this`storeStalls, dram, sim, sim.events, dram.mem, dram.mem.impl
      ensures Ready() && Kept()
      ensures (State(), ok) == C.TryStore(dram.cfg, dram.G(), old(State()), line)
    {
      var r := dram.Write(line.dst, Some(C.Store), 0);
      ok := r == Ok(true);
      if !ok {
        storeStalls := storeStalls + 1;
      }
    }

    method OnStoreAccepted()
      requires Valid()
      modifies this, issueQ, computePipe`inFlight, dram, sim, sim.events, dram.mem, dram.mem.impl
      ensures Ready() && Kept()
      ensures State() == C.OnStoreAccepted(dram.cfg, dram.G(), p, old(State()))
    {
      CountStore();
      PumpReads();
    }

    method CountStore()
      requires Valid()
      modifies this`writesAccepted
      ensures Ready() && State() == old(State()).(writes := old(State()).writes + 1)
    {
      writesAccepted := writesAccepted + 1;
    }

    // -- The pipe events ------------------------------------------------------------------------

    method DeliverIssue(addr: int)
      requires Valid()
      modifies this, issueQ, issuePipe, computePipe`inFlight, dram, sim, sim.events, dram.mem, dram.mem.impl
      ensures Ready() && Kept()
      ensures State() == C.OnJob(dram.cfg, dram.G(), p, old(State()), C.IssueArrive(addr))
    {
      var ok := OnIssue(addr);
      AnswerIssue(addr, ok);
    }

    method AnswerIssue(addr: int, ok: bool)
      requires Valid()
      modifies issuePipe, sim
      ensures Ready() && Kept()
      ensures var k := old(State());
              State() == if ok then k.(issue := k.issue.(inFlight := k.issue.inFlight - 1))
                         else
                           var k1 := k.(issue := k.issue.(stalled := k.issue.stalled + [addr], retry := true));
                           if k.issue.retry then k1 else C.After(k1, C.HOST_PERIOD, C.IssueRetry)
    {
      assert Inside(Layer.Objects, true);
      issuePipe.Delivered(addr, ok);
      if !ok && old(issuePipe.retryEid).None? {
        dram.OtherScheduled(old(sim.queue), old(sim.nextId), sim.now + issuePipe.shape.period, 0, D.User(C.IssueRetry));
      }
    }

    method RetryIssue()
      requires Valid()
      modifies this, issueQ, issuePipe, computePipe`inFlight, dram, sim, sim.events, dram.mem, dram.mem.impl
      ensures Ready() && Kept()
      ensures State() == C.OnJob(dram.cfg, dram.G(), p, old(State()), C.IssueRetry)
    {
      issuePipe.BeginRetry();
      RetryIssueIsDraining(dram.cfg, dram.G(), p, old(State()));
      ghost var end := DrainingIssue(dram.cfg, dram.G(), p, State());
      while issuePipe.stalled != []
        invariant Ready() && Kept()
        invariant DrainingIssue(dram.cfg, dram.G(), p, State()) == end
        decreases |issuePipe.stalled|
      {
        var ok := RetryOneIssue();
        if !ok {
          return;
        }
      }
      DrainIssueEnd(dram.cfg, dram.G(), p, State());
    }

    /** One round of the retry loop. */
    method RetryOneIssue() returns (ok: bool)
      requires Valid() && issuePipe.stalled != []
      modifies this, issueQ, issuePipe, computePipe`inFlight, dram, sim, sim.events, dram.mem, dram.mem.impl
      ensures Ready() && Kept()
      ensures ok ==> |issuePipe.stalled| < |old(issuePipe.stalled)|
      ensures DrainingIssue(dram.cfg, dram.G(), p, old(State())) ==
              if ok then DrainingIssue(dram.cfg, dram.G(), p, State()) else State()
    {
      ghost var k := State();
      var item := issuePipe.stalled[0];
      ok := OnIssue(item);
      DrainIssueRound(dram.cfg, dram.G(), p, k, State(), ok);
      AnswerRetry(ok);
    }

    method AnswerRetry(ok: bool)
      requires Valid() && issuePipe.stalled != []
      modifies issuePipe, sim
      ensures Ready() && Kept()
      ensures ok ==> |issuePipe.stalled| < |old(issuePipe.stalled)|
      ensures State() == AnsweredIssue(old(State()), ok)
    {
      assert Inside(Layer.Objects, true);
      issuePipe.Retried(ok);
      if !ok {
        dram.OtherScheduled(old(sim.queue), old(sim.nextId), sim.now + issuePipe.shape.period, 0, D.User(C.IssueRetry));
      }
    }

    method DeliverCompute(line: C.Line)
      requires Valid()
      modifies this`storeStalls, computePipe, dram, sim, sim.events, dram.mem, dram.mem.impl
      ensures Ready() && Kept()
      ensures State() == C.OnJob(dram.cfg, dram.G(), p, old(State()), C.ComputeArrive(line))
    {
      var ok := TryStore(line);
      AnswerCompute(line, ok);
    }

    method AnswerCompute(line: C.Line, ok: bool)
      requires Valid()
      modifies computePipe, sim
      ensures Ready() && Kept()
      ensures var k := old(State());
              State() == if ok then k.(compute := k.compute.(inFlight := k.compute.inFlight - 1))
                         else
                           var k1 := k.(compute := k.compute.(stalled := k.compute.stalled + [line], retry := true));
                           if k.compute.retry then k1 else C.After(k1, C.HOST_PERIOD, C.ComputeRetry)
    {
      assert Inside(Layer.Objects, true);
      computePipe.Delivered(line, ok);
      if !ok && old(computePipe.retryEid).None? {
        dram.OtherScheduled(old(sim.queue), old(sim.nextId), sim.now + computePipe.shape.period, 0,
          D.User(C.ComputeRetry));
      }
    }

    method RetryCompute()
      requires Valid()
      modifies this`storeStalls, computePipe, dram, sim, sim.events, dram.mem, dram.mem.impl
      ensures Ready() && Kept()
      ensures State() == C.OnJob(dram.cfg, dram.G(), p, old(State()), C.ComputeRetry)
    {
      computePipe.BeginRetry();
      RetryComputeIsDraining(dram.cfg, dram.G(), p, old(State()));
      ghost var end := DrainingCompute(dram.cfg, dram.G(), p, State());
      while computePipe.stalled != []
        invariant Ready() && Kept()
        invariant DrainingCompute(dram.cfg, dram.G(), p, State()) == end
        decreases |computePipe.stalled|
      {
        var ok := RetryOneCompute();
        if !ok {
          return;
        }
      }
      DrainComputeEnd(dram.cfg, dram.G(), p, State());
    }

    /** One round of the retry loop. */
    method RetryOneCompute() returns (ok: bool)
      requires Valid() && computePipe.stalled != []
      modifies this`storeStalls, computePipe, dram, sim, sim.events, dram.mem, dram.mem.impl
      ensures Ready() && Kept()
      ensures ok ==> |computePipe.stalled| < |old(computePipe.stalled)|
      ensures DrainingCompute(dram.cfg, dram.G(), p, old(State())) ==
              if ok then DrainingCompute(dram.cfg, dram.G(), p, State()) else State()
    {
      ghost var k := State();
      var item := computePipe.stalled[0];
      ok := TryStore(item);
      DrainComputeRound(dram.cfg, dram.G(), p, k, State(), ok);
      AnswerComputeRetry(ok);
    }

    method AnswerComputeRetry(ok: bool)
      requires Valid() && computePipe.stalled != []
      modifies computePipe, sim
      ensures Ready() && Kept()
      ensures ok ==> |computePipe.stalled| < |old(computePipe.stalled)|
      ensures State() == AnsweredCompute(old(State()), ok)
    {
      assert Inside(Layer.Objects, true);
      computePipe.Retried(ok);
      if !ok {
        dram.OtherScheduled(old(sim.queue), old(sim.nextId), sim.now + computePipe.shape.period, 0,
          D.User(C.ComputeRetry));
      }
    }

    // -- Running ----------------------------------------------------------------------------------

    ghost predicate Chained()
      reads dram, dram.sim, dram.mem, dram.mem.impl
    {
      Chains.ChainInv(dram.cfg, dram.G(), dram.View())
    }

    /** Takes the peeked event. */
    method Take() returns (tag: CopyTag)
      requires Valid() && Chained() && sim.heap != [] && !sim.heap[0].cancelled
      modifies sim
      ensures Ready() && Kept()
      ensures old(State()).dev.agenda != [] && State() == old(State()).(dev := D.Pop(old(State()).dev))
      ensures tag == old(State()).dev.agenda[0].what
      ensures !dram.idleTicking || tag.IdleTick? ==> DR.NoIdle(sim.queue)
    {
      assert Inside(Layer.Objects, true);
      tag := sim.Begin();
      dram.EventTaken(old(sim.queue), old(dram.View()));
      ErasedTail(old(sim.queue));
    }

    method OnJob(job: C.Job)
      requires Valid()
      modifies this, issueQ, issuePipe, computePipe, dram, sim, sim.events, dram.mem, dram.mem.impl
      ensures Ready() && Kept()
      ensures State() == C.OnJob(dram.cfg, dram.G(), p, old(State()), job)
    {
      match job
      case IssueArrive(addr) => DeliverIssue(addr);
      case IssueRetry => RetryIssue();
      case ComputeArrive(line) => DeliverCompute(line);
      case ComputeRetry => RetryCompute();
      case Fill => FillIssue();
    }

    method RunChain(tag: CopyTag)
      requires Valid() && (tag.Tick? || tag.IdleTick?) && (!dram.idleTicking || tag.IdleTick? ==> DR.NoIdle(sim.queue))
      requires sim.runUntil == None
      modifies dram, sim, sim.events, dram.mem, dram.mem.impl
      ensures Ready() && Kept()
      ensures var k := old(State());
              State() == k.(dev :=
                if tag.Tick? then D.TickBody(dram.cfg, dram.G(), k.dev,
                  D.MaxBurst(dram.cfg.period, k.dev.now, D.NextTime(k.dev.agenda), None))
                else D.IdleBody(dram.cfg, dram.G(), k.dev))
    {
      ghost var k := State();
      if tag.Tick? {
        dram.Tick();
        assert dram.View() == D.TickBody(
            dram.cfg, dram.G(), k.dev, D.MaxBurst(dram.cfg.period, k.dev.now, D.NextTime(k.dev.agenda), None));
      } else {
        dram.IdleTick();
        assert dram.View() == D.IdleBody(dram.cfg, dram.G(), k.dev);
      }
      assert State() == k.(dev := dram.View());
    }

    /** Runs the callback of the event that was taken. */
    method Handle(tag: CopyTag)
      requires Valid() && (!dram.idleTicking || tag.IdleTick? ==> DR.NoIdle(sim.queue)) && sim.runUntil == None
      modifies this, issueQ, issuePipe, computePipe, dram, sim, sim.events, dram.mem, dram.mem.impl
      ensures Ready() && Kept()
      ensures State() == C.Handled(dram.cfg, dram.G(), p, old(State()), tag)
    {
      match tag
      case Call(cb, info) =>
        if cb.Load? {
          OnLoad(info.addr);
        } else {
          OnStoreAccepted();
        }
      case User(job) => OnJob(job);
      case _ => RunChain(tag);
    }

    method Step()
      requires Valid() && Chained() && sim.heap != [] && !sim.heap[0].cancelled && sim.runUntil == None
      modifies this, issueQ, issuePipe, computePipe, dram, sim, sim.events, dram.mem, dram.mem.impl
      ensures Ready() && Kept()
      ensures old(State()).dev.agenda != [] && State() == C.Step(dram.cfg, dram.G(), p, old(State()))
    {
      ghost var k := State();
      var tag := Take();
      assert State() == k.(dev := D.Pop(k.dev));
      Handle(tag);
      Finish();
    }

    method Finish()
      requires Valid()
      modifies sim`processed
      ensures Ready() && State() == old(State())
    {
      assert Inside(Layer.Objects, true);
      sim.Finish();
    }

    /** `run_until_idle`, for at most `fuel` events. */
    method RunUntilIdle(fuel: nat, ghost flight: Flight<E, C.Callback>) returns (idle: bool)
      requires Valid() && Going(dram.cfg, dram.G(), p, flight, State())
      modifies this, issueQ, issuePipe, computePipe, dram, sim, sim.events, dram.mem, dram.mem.impl
      ensures Ready() && Kept() && Going(dram.cfg, dram.G(), p, flight, State())
      ensures State() == C.Run(dram.cfg, dram.G(), p, old(State()), fuel)
      ensures idle <==> State().dev.agenda == []
    {
      var previous := SetHorizon(None);
      idle := RunLoop(fuel, flight);
      previous := SetHorizon(previous);
    }

    /** `run` on a new engine and a DRAM that has served all it accepted: it is either cut off by `fuel` with events
        left, or every line has been accepted as a read and as a write, exactly once, and nothing is left anywhere. */
    method Run(fuel: nat, ghost flight: Flight<E, C.Callback>) returns (idle: bool)
      requires Valid() && CI.Ready(dram.cfg, dram.G(), p, flight, dram.View()) && State() == C.Fresh(dram.View())
      modifies this, issueQ, issuePipe, computePipe, dram, sim, sim.events, dram.mem, dram.mem.impl
      ensures Ready() && Kept()
      ensures State() == C.Run(dram.cfg, dram.G(), p, C.Start(p, old(dram.View())), fuel)
      ensures idle ==>
                && writesAccepted == produced == (if 0 <= p.lines then p.lines else 0)
                && CR.Fetched(dram.View()) == old(CR.Fetched(dram.View())) + CI.Lines(0, writesAccepted)
                && CI.Stored(dram.View()) == CI.Lines(0x10_0000, writesAccepted)
                && heldCompute == [] && issueQ.q == [] && readsInflight == 0 && computeStalls == 0
                && issuePipe.Value() == P.Pipe(0, [], false) && computePipe.Value() == P.Pipe(0, [], false)
                && dram.G().pending(dram.mem.impl.mem) == 0
    {
      ghost var d := dram.View();
      CI.StartIsSound(dram.cfg, dram.G(), p, flight, d);
      FillIssue();
      idle := RunUntilIdle(fuel, flight);
      RunEnds(dram.cfg, dram.G(), p, flight, d, fuel, State());
    }

    method SetHorizon(until: Option<int>) returns (previous: Option<int>)
      requires Valid()
      modifies sim`runUntil
      ensures Ready() && State() == old(State()) && sim.runUntil == until && previous == old(sim.runUntil)
    {
      assert Inside(Layer.Objects, true);
      previous := sim.SetHorizon(until);
      assert dram.IdsOk() && dram.Wired();
    }

    method RunLoop(fuel: nat, ghost flight: Flight<E, C.Callback>) returns (idle: bool)
      requires Valid() && sim.runUntil == None && Going(dram.cfg, dram.G(), p, flight, State())
      modifies this, issueQ, issuePipe, computePipe, dram, sim, sim.events, dram.mem, dram.mem.impl
      ensures Ready() && Kept() && Going(dram.cfg, dram.G(), p, flight, State())
      ensures State() == C.Run(dram.cfg, dram.G(), p, old(State()), fuel)
      ensures idle <==> State().dev.agenda == []
    {
      var left := fuel;
      idle := Idle();
      while left > 0 && !idle
        invariant Ready() && Kept() && Going(dram.cfg, dram.G(), p, flight, State())
        invariant C.Run(dram.cfg, dram.G(), p, State(), left) == C.Run(dram.cfg, dram.G(), p, old(State()), fuel)
        invariant idle <==> State().dev.agenda == []
      {
        idle := StepSoundly(flight);
        left := left - 1;
      }
    }

    /** Nothing is left to fire. */
    method Idle() returns (idle: bool)
      requires Valid()
      modifies sim
      ensures Ready() && Kept() && State() == old(State())
      ensures idle <==> State().dev.agenda == []
    {
      assert Inside(Layer.Objects, true);
      var e := sim.Peek();
      idle := e == null;
    }

    /** Brings the next live event to the top of the heap. */
    method Peek()
      requires Valid() && State().dev.agenda != []
      modifies sim
      ensures Ready() && Kept() && State() == old(State()) && sim.heap != [] && !sim.heap[0].cancelled
    {
      assert Inside(Layer.Objects, true);
      var e := sim.Peek();
    }

    method StepSoundly(ghost flight: Flight<E, C.Callback>) returns (idle: bool)
      requires Valid() && Going(dram.cfg, dram.G(), p, flight, State())
      requires sim.runUntil == None && State().dev.agenda != []
      modifies this, issueQ, issuePipe, computePipe, dram, sim, sim.events, dram.mem, dram.mem.impl
      ensures Ready() && Kept() && Going(dram.cfg, dram.G(), p, flight, State())
      ensures State() == C.Step(dram.cfg, dram.G(), p, old(State()))
      ensures idle <==> State().dev.agenda == []
    {
      CI.InvChains(dram.cfg, dram.G(), p, flight, State());
      CI.StepKeepsInv(dram.cfg, dram.G(), p, flight, State(), C.Step(dram.cfg, dram.G(), p, State()));
      Peek();
      Step();
      idle := Idle();
    }
  }

  /** The invariant of the copy, on an engine that keeps its promises. */
  ghost predicate Going<E(!new)>(
    cfg: D.Config, g: C.CopyEng<E>, p: C.Params, flight: Flight<E, C.Callback>, k: C.Copy<E>) {
    Chains.GoodEngine(cfg, g, flight) && CI.Inv(cfg, g, p, flight, k)
  }

  /** What an empty agenda means, from module CopyInvariant. */
  lemma RunEnds<E(!new)>(
    cfg: D.Config, g: C.CopyEng<E>, p: C.Params, flight: Flight<E, C.Callback>, d: C.CopyDev<E>, n: nat, k: C.Copy<E>)
    requires Going(cfg, g, p, flight, k) && CI.Ready(cfg, g, p, flight, d)
    requires k == C.Run(cfg, g, p, C.Start(p, d), n)
    ensures k.dev.agenda == [] ==>
              && k.writes == k.produced == (if 0 <= p.lines then p.lines else 0)
              && CR.Fetched(k.dev) == CR.Fetched(d) + CI.Lines(0, k.writes)
              && CI.Stored(k.dev) == CI.Lines(0x10_0000, k.writes)
              && k.held == [] && k.queue == [] && k.loading == 0 && k.computeStalls == 0
              && k.issue == P.Pipe(0, [], false) && k.compute == P.Pipe(0, [], false)
              && g.pending(k.dev.mem) == 0
  {
    assert Inside(Layer.Lists, true);
    if k.dev.agenda == [] {
      CI.QuietMeansDone(cfg, g, p, flight, k);
      CR.CopyCompletes(cfg, g, p, flight, d, n);
    }
  }

  // -- Retry loops, from the middle on ------------------------------------------------------------

  function DrainingIssue<E>(cfg: D.Config, g: C.CopyEng<E>, p: C.Params, k: C.Copy<E>): C.Copy<E> {
    C.IssueDone(P.Drain(p.IssueShape(), C.IssueConsumer(cfg, g, p), k.issue, k))
  }

  lemma {:induction false} DrainIgnoresPipe<E>(
    cfg: D.Config, g: C.CopyEng<E>, p: C.Params, pipe: P.Pipe<int>, k: C.Copy<E>, x: P.Pipe<int>)
    ensures var o := P.Drain(p.IssueShape(), C.IssueConsumer(cfg, g, p), pipe, k);
            P.Drain(p.IssueShape(), C.IssueConsumer(cfg, g, p), pipe, k.(issue := x)) == o.(s := o.s.(issue := x))
    decreases |pipe.stalled|
  {
    var sh, f := p.IssueShape(), C.IssueConsumer(cfg, g, p);
    if pipe.stalled != [] {
      var (k1, ok) := C.OnIssue(cfg, g, p, k, pipe.stalled[0]);
      CI.OnIssueIgnoresPipe(cfg, g, p, k, pipe.stalled[0], x);
      P.DrainRound(sh, f, pipe, k, k1, ok);
      P.DrainRound(sh, f, pipe, k.(issue := x), k1.(issue := x), ok);
      if ok {
        DrainIgnoresPipe(cfg, g, p, pipe.(stalled := pipe.stalled[1..], inFlight := pipe.inFlight - 1), k1, x);
      }
    }
  }

  /** The retry event is its loop, once the flag is cleared. */
  lemma RetryIssueIsDraining<E>(cfg: D.Config, g: C.CopyEng<E>, p: C.Params, k: C.Copy<E>)
    ensures C.OnJob(cfg, g, p, k, C.IssueRetry) == DrainingIssue(cfg, g, p, k.(issue := k.issue.(retry := false)))
  {
    DrainIgnoresPipe(cfg, g, p, k.issue.(retry := false), k, k.issue.(retry := false));
  }

  /** What follows the consumer's answer in the retry loop. */
  function AnsweredIssue<E>(k: C.Copy<E>, ok: bool): C.Copy<E>
    requires k.issue.stalled != []
  {
    if ok then k.(issue := k.issue.(stalled := k.issue.stalled[1..], inFlight := k.issue.inFlight - 1))
    else C.After(k.(issue := k.issue.(retry := true)), C.HOST_PERIOD, C.IssueRetry)
  }

  lemma DrainIssueRound<E>(cfg: D.Config, g: C.CopyEng<E>, p: C.Params, k: C.Copy<E>, k1: C.Copy<E>, ok: bool)
    requires k.issue.stalled != [] && (k1, ok) == C.OnIssue(cfg, g, p, k, k.issue.stalled[0]) && k1.issue == k.issue
    ensures DrainingIssue(cfg, g, p, k) ==
            if ok then DrainingIssue(cfg, g, p, AnsweredIssue(k1, true)) else AnsweredIssue(k1, false)
  {
    if ok {
      P.DrainRound(p.IssueShape(), C.IssueConsumer(cfg, g, p), k.issue, k, k1, true);
      DrainIssueTakes(cfg, g, p, k1, AnsweredIssue(k1, true));
    } else {
      DrainIssueStops(cfg, g, p, k, k1);
    }
  }

  lemma DrainIssueStops<E>(cfg: D.Config, g: C.CopyEng<E>, p: C.Params, k: C.Copy<E>, k1: C.Copy<E>)
    requires k.issue.stalled != [] && (k1, false) == C.OnIssue(cfg, g, p, k, k.issue.stalled[0]) && k1.issue == k.issue
    ensures DrainingIssue(cfg, g, p, k) == AnsweredIssue(k1, false)
  {
    P.DrainRound(p.IssueShape(), C.IssueConsumer(cfg, g, p), k.issue, k, k1, false);
  }

  lemma DrainIssueTakes<E>(cfg: D.Config, g: C.CopyEng<E>, p: C.Params, k1: C.Copy<E>, r: C.Copy<E>)
    requires r == k1.(issue := r.issue)
    ensures DrainingIssue(cfg, g, p, r) == C.IssueDone(P.Drain(p.IssueShape(), C.IssueConsumer(cfg, g, p), r.issue, k1))
  {
    DrainIgnoresPipe(cfg, g, p, r.issue, k1, r.issue);
    SameDone(P.Drain(p.IssueShape(), C.IssueConsumer(cfg, g, p), r.issue, k1), r.issue);
  }

  lemma SameDone<E>(o: P.Outcome<C.Copy<E>, int>, x: P.Pipe<int>)
    ensures C.IssueDone(o.(s := o.s.(issue := x))) == C.IssueDone(o)
  {
  }

  lemma DrainIssueEnd<E>(cfg: D.Config, g: C.CopyEng<E>, p: C.Params, k: C.Copy<E>)
    requires k.issue.stalled == []
    ensures DrainingIssue(cfg, g, p, k) == k
  {
  }

  function DrainingCompute<E>(cfg: D.Config, g: C.CopyEng<E>, p: C.Params, k: C.Copy<E>): C.Copy<E> {
    C.ComputeDone(P.Drain(p.ComputeShape(), C.ComputeConsumer(cfg, g), k.compute, k))
  }

  lemma {:induction false} DrainIgnoresCompute<E>(
    cfg: D.Config, g: C.CopyEng<E>, p: C.Params, pipe: P.Pipe<C.Line>, k: C.Copy<E>, x: P.Pipe<C.Line>)
    ensures var o := P.Drain(p.ComputeShape(), C.ComputeConsumer(cfg, g), pipe, k);
            P.Drain(p.ComputeShape(), C.ComputeConsumer(cfg, g), pipe, k.(compute := x)) == o.(s := o.s.(compute := x))
    decreases |pipe.stalled|
  {
    var sh, f := p.ComputeShape(), C.ComputeConsumer(cfg, g);
    if pipe.stalled != [] {
      var (k1, ok) := C.TryStore(cfg, g, k, pipe.stalled[0]);
      P.DrainRound(sh, f, pipe, k, k1, ok);
      P.DrainRound(sh, f, pipe, k.(compute := x), k1.(compute := x), ok);
      if ok {
        DrainIgnoresCompute(cfg, g, p, pipe.(stalled := pipe.stalled[1..], inFlight := pipe.inFlight - 1), k1, x);
      }
    }
  }

  /** The retry event is its loop, once the flag is cleared. */
  lemma RetryComputeIsDraining<E>(cfg: D.Config, g: C.CopyEng<E>, p: C.Params, k: C.Copy<E>)
    ensures C.OnJob(cfg, g, p, k, C.ComputeRetry) ==
            DrainingCompute(cfg, g, p, k.(compute := k.compute.(retry := false)))
  {
    DrainIgnoresCompute(cfg, g, p, k.compute.(retry := false), k, k.compute.(retry := false));
  }

  /** What follows the consumer's answer in the retry loop. */
  function AnsweredCompute<E>(k: C.Copy<E>, ok: bool): C.Copy<E>
    requires k.compute.stalled != []
  {
    if ok then k.(compute := k.compute.(stalled := k.compute.stalled[1..], inFlight := k.compute.inFlight - 1))
    else C.After(k.(compute := k.compute.(retry := true)), C.HOST_PERIOD, C.ComputeRetry)
  }

  lemma DrainComputeRound<E>(cfg: D.Config, g: C.CopyEng<E>, p: C.Params, k: C.Copy<E>, k1: C.Copy<E>, ok: bool)
    requires k.compute.stalled != [] && (k1, ok) == C.TryStore(cfg, g, k, k.compute.stalled[0])
    requires k1.compute == k.compute
    ensures DrainingCompute(cfg, g, p, k) ==
            if ok then DrainingCompute(cfg, g, p, AnsweredCompute(k1, true)) else AnsweredCompute(k1, false)
  {
    if ok {
      P.DrainRound(p.ComputeShape(), C.ComputeConsumer(cfg, g), k.compute, k, k1, true);
      DrainComputeTakes(cfg, g, p, k1, AnsweredCompute(k1, true));
    } else {
      DrainComputeStops(cfg, g, p, k, k1);
    }
  }

  lemma DrainComputeStops<E>(cfg: D.Config, g: C.CopyEng<E>, p: C.Params, k: C.Copy<E>, k1: C.Copy<E>)
    requires k.compute.stalled != [] && (k1, false) == C.TryStore(cfg, g, k, k.compute.stalled[0])
    requires k1.compute == k.compute
    ensures DrainingCompute(cfg, g, p, k) == AnsweredCompute(k1, false)
  {
    P.DrainRound(p.ComputeShape(), C.ComputeConsumer(cfg, g), k.compute, k, k1, false);
  }

  lemma DrainComputeTakes<E>(cfg: D.Config, g: C.CopyEng<E>, p: C.Params, k1: C.Copy<E>, r: C.Copy<E>)
    requires r == k1.(compute := r.compute)
    ensures DrainingCompute(cfg, g, p, r) ==
            C.ComputeDone(P.Drain(p.ComputeShape(), C.ComputeConsumer(cfg, g), r.compute, k1))
  {
    DrainIgnoresCompute(cfg, g, p, r.compute, k1, r.compute);
    SameStoreDone(P.Drain(p.ComputeShape(), C.ComputeConsumer(cfg, g), r.compute, k1), r.compute);
  }

  lemma SameStoreDone<E>(o: P.Outcome<C.Copy<E>, C.Line>, x: P.Pipe<C.Line>)
    ensures C.ComputeDone(o.(s := o.s.(compute := x))) == C.ComputeDone(o)
  {
  }

  lemma DrainComputeEnd<E>(cfg: D.Config, g: C.CopyEng<E>, p: C.Params, k: C.Copy<E>)
    requires k.compute.stalled == []
    ensures DrainingCompute(cfg, g, p, k) == k
  {
  }
}

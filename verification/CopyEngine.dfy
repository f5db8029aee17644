/**
 The copy engine: issue pipe, issue FIFO, DRAM reads, compute pipe, DRAM writes, on two clocks.

 All handlers are functions on one value that holds the engine's fields and the simulator with its
 DRAM.  The pipes are those of module Pipes; their consumers put nothing back into their own pipe.
 */
module CopyEngine {
  import opened Prelude
  import opened Engine
  import opened Device
  import P = Pipes

  const HOST_PERIOD := 1000
  const CACHELINE := 64
  const SRC_BASE := 0x0
  const DST_BASE := 0x10_0000

  /** The two completion callbacks. */
  datatype Callback = Load | Store

  /** A line in the compute pipe. */
  datatype Line = Line(src: int, dst: int)

  /** The other events of the engine and its pipes. */
  datatype Job = IssueArrive(addr: int) | IssueRetry | ComputeArrive(line: Line) | ComputeRetry | Fill

  type CopyDev<E> = Dev<E, Callback, Job>
  type CopyEng<!E> = Engine<E, Callback>

  datatype Params = Params(
    lines: int,
    issueLatency: int,
    computeLatency: int,
    issueSlots: int,
    computeSlots: int,
    queueDepth: int,
    maxOutstanding: int)
  {
    /** What `Pipe` and `FIFO` insist on, and a read window that lets something through. */
    predicate Valid() {
      && 1 <= issueLatency && 1 <= computeLatency
      && 1 <= issueSlots && 1 <= computeSlots && 1 <= queueDepth
      && 1 <= maxOutstanding
    }

    function IssueShape(): P.Shape {
      P.StageOf(issueLatency, issueSlots, HOST_PERIOD)
    }

    function ComputeShape(): P.Shape {
      P.StageOf(computeLatency, computeSlots, HOST_PERIOD)
    }
  }

  datatype Copy<E> = Copy(
    dev: CopyDev<E>,
    produced: int,
    loading: int,
    writes: int,
    held: seq<Line>,
    queue: seq<int>,
    issue: P.Pipe<int>,
    compute: P.Pipe<Line>,
    issueStalls: int,
    storeStalls: int,
    computeStalls: int,
    highWater: int)

  function Dst(src: int): int {
    DST_BASE + (src - SRC_BASE)
  }

  function LineOf(src: int): Line {
    Line(src, Dst(src))
  }

  function After<E>(k: Copy<E>, delay: int, job: Job): Copy<E> {
    k.(dev := At(k.dev, k.dev.now + delay, 0, User(job)))
  }

  // -- The handlers ----------------------------------------------------------------

  function FillIssue<E>(p: Params, k: Copy<E>): Copy<E>
    decreases p.lines - k.produced
  {
    if k.produced < p.lines && k.issue.inFlight < p.issueSlots then
      var addr := SRC_BASE + k.produced * CACHELINE;
      var k1 := k.(issue := k.issue.(inFlight := k.issue.inFlight + 1), produced := k.produced + 1);
      FillIssue(p, After(k1, p.issueLatency * HOST_PERIOD, IssueArrive(addr)))
    else k
  }

  /** `compute_pipe.put`. */
  function PutCompute<E>(p: Params, k: Copy<E>, line: Line): (Copy<E>, bool) {
    if p.computeSlots <= k.compute.inFlight then (k, false)
    else
      var k1 := k.(compute := k.compute.(inFlight := k.compute.inFlight + 1));
      (After(k1, p.computeLatency * HOST_PERIOD, ComputeArrive(line)), true)
  }

  function DrainHeld<E>(p: Params, k: Copy<E>): Copy<E>
    decreases |k.held|
  {
    if k.held == [] then k
    else
      var (k1, ok) := PutCompute(p, k, k.held[0]);
      if ok then DrainHeld(p, k1.(held := k.held[1..])) else k1
  }

  function Reserved<E>(k: Copy<E>): int {
    k.loading + k.compute.inFlight + |k.held|
  }

  /** The loop of `_pump_reads`. */
  function IssueReads<E>(cfg: Config, g: CopyEng<E>, p: Params, k: Copy<E>): Copy<E>
    decreases |k.queue|
  {
    if k.queue != [] && k.loading < p.maxOutstanding && Reserved(k) < p.computeSlots then
      var (d, ok) := Device.Read(cfg, g, k.dev, k.queue[0], 0, Some(Load));
      if ok == Ok(true) then
        IssueReads(cfg, g, p, k.(dev := d, queue := k.queue[1..], loading := k.loading + 1))
      else k.(dev := d)
    else k
  }

  function PumpReads<E>(cfg: Config, g: CopyEng<E>, p: Params, k: Copy<E>): Copy<E> {
    IssueReads(cfg, g, p, DrainHeld(p, k))
  }

  /** Consumer of the issue pipe. */
  function OnIssue<E>(cfg: Config, g: CopyEng<E>, p: Params, k: Copy<E>, addr: int): (Copy<E>, bool) {
    if p.queueDepth <= |k.queue| then (k.(issueStalls := k.issueStalls + 1), false)
    else
      var q := k.queue + [addr];
      var k1 := k.(queue := q, highWater := if |q| > k.highWater then |q| else k.highWater);
      (After(PumpReads(cfg, g, p, k1), 0, Fill), true)
  }

  function OnLoad<E>(cfg: Config, g: CopyEng<E>, p: Params, k: Copy<E>, addr: int): Copy<E> {
    var line := LineOf(addr);
    var k1 := DrainHeld(p, k.(loading := k.loading - 1));
    var (k2, ok) := PutCompute(p, k1, line);
    PumpReads(cfg, g, p, if ok then k2 else k2.(held := k2.held + [line], computeStalls := k2.computeStalls + 1))
  }

  /** Consumer of the compute pipe. */
  function TryStore<E>(cfg: Config, g: CopyEng<E>, k: Copy<E>, line: Line): (Copy<E>, bool) {
    var (d, ok) := Device.Write(cfg, g, k.dev, line.dst, 0, Some(Store));
    if ok == Ok(true) then (k.(dev := d), true) else (k.(dev := d, storeStalls := k.storeStalls + 1), false)
  }

  function OnStoreAccepted<E>(cfg: Config, g: CopyEng<E>, p: Params, k: Copy<E>): Copy<E> {
    PumpReads(cfg, g, p, k.(writes := k.writes + 1))
  }

  // -- The pipe events ----------------------------------------------------------------

  function IssueConsumer<E>(cfg: Config, g: CopyEng<E>, p: Params): P.Consumer<Copy<E>, int> {
    (k: Copy<E>, addr: int, room: int) => var (k', ok) := OnIssue(cfg, g, p, k, addr); P.Answer(k', ok, [])
  }

  function ComputeConsumer<E>(cfg: Config, g: CopyEng<E>): P.Consumer<Copy<E>, Line> {
    (k: Copy<E>, line: Line, room: int) => var (k', ok) := TryStore(cfg, g, k, line); P.Answer(k', ok, [])
  }

  function IssueDone<E>(o: P.Outcome<Copy<E>, int>): Copy<E> {
    var k := o.s.(issue := o.pipe);
    if o.again then After(k, HOST_PERIOD, IssueRetry) else k
  }

  function ComputeDone<E>(o: P.Outcome<Copy<E>, Line>): Copy<E> {
    var k := o.s.(compute := o.pipe);
    if o.again then After(k, HOST_PERIOD, ComputeRetry) else k
  }

  function OnJob<E>(cfg: Config, g: CopyEng<E>, p: Params, k: Copy<E>, job: Job): Copy<E> {
    match job
    case IssueArrive(addr) =>
      IssueDone(P.Deliver(p.IssueShape(), IssueConsumer(cfg, g, p), k.issue, k, addr))
    case IssueRetry =>
      IssueDone(P.Drain(p.IssueShape(), IssueConsumer(cfg, g, p), k.issue.(retry := false), k))
    case ComputeArrive(line) =>
      ComputeDone(P.Deliver(p.ComputeShape(), ComputeConsumer(cfg, g), k.compute, k, line))
    case ComputeRetry =>
      ComputeDone(P.Drain(p.ComputeShape(), ComputeConsumer(cfg, g), k.compute.(retry := false), k))
    case Fill => FillIssue(p, k)
  }

  /** The handler of an event, once the event is off the agenda. */
  function Handled<E>(cfg: Config, g: CopyEng<E>, p: Params, k: Copy<E>, t: Tag<Callback, Job>): Copy<E>
    requires cfg.Valid()
  {
    match t
    case Tick => k.(dev := TickBody(cfg, g, k.dev, MaxBurst(cfg.period, k.dev.now, NextTime(k.dev.agenda), None)))
    case IdleTick => k.(dev := IdleBody(cfg, g, k.dev))
    case Call(cb, info) => if cb.Load? then OnLoad(cfg, g, p, k, info.addr) else OnStoreAccepted(cfg, g, p, k)
    case User(job) => OnJob(cfg, g, p, k, job)
  }

  /** One event of `run_until_idle`. */
  function Step<E>(cfg: Config, g: CopyEng<E>, p: Params, k: Copy<E>): Copy<E>
    requires cfg.Valid() && k.dev.agenda != []
  {
    Handled(cfg, g, p, k.(dev := Pop(k.dev)), k.dev.agenda[0].what)
  }

  function Run<E>(cfg: Config, g: CopyEng<E>, p: Params, k: Copy<E>, n: nat): Copy<E>
    requires cfg.Valid()
    decreases n
  {
    if n == 0 || k.dev.agenda == [] then k else Run(cfg, g, p, Step(cfg, g, p, k), n - 1)
  }

  /** A new engine on a DRAM. */
  function Fresh<E>(d: CopyDev<E>): Copy<E> {
    Copy(d, 0, 0, 0, [], [], P.Pipe(0, [], false), P.Pipe(0, [], false), 0, 0, 0, 0)
  }

  /** The first fill of `run`. */
  function Start<E>(p: Params, d: CopyDev<E>): Copy<E> {
    FillIssue(p, Fresh(d))
  }
}

/**
 Sparse times dense on the DRAM component: requests in a window of 16, accumulation in completion
 order, over exact reals.
 */
module Spmm {
  import opened Prelude
  import opened Engine
  import opened Device

  const BLOCK := 16
  const MAX_INFLIGHT := 16
  const B_BASE := 0x100000

  /** One cacheline of B for one nonzero of A; it is also the completion callback's captured state. */
  datatype Job = Job(i: int, j: int, t: int, v: real)

  datatype Csr = Csr(rows: seq<int>, cols: seq<int>, vals: seq<real>)

  /** The dense operand: `image` is the `n` by `k` matrix, row by row. */
  datatype Dense = Dense(n: int, k: int, image: seq<real>)
  {
    predicate Valid() {
      0 <= n && 0 <= k && |image| == n * k
    }
  }

  function RowCount(a: Csr): int {
    |a.rows| - 1
  }

  /** CSR as numpy stores it. */
  ghost predicate WellFormed(a: Csr, b: Dense) {
    && a.rows != [] && |a.cols| == |a.vals|
    && (forall i :: 0 <= i < |a.rows| ==> 0 <= a.rows[i] <= |a.cols|)
    && (forall x :: 0 <= x < |a.cols| ==> 0 <= a.cols[x] < b.n)
  }

  // -- The request list -------------------------------------------------------------

  function BlockJobs(k: int, i: int, j: int, v: real, t: int): seq<Job>
    decreases k - t
  {
    if k <= t then [] else [Job(i, j, t, v)] + BlockJobs(k, i, j, v, t + BLOCK)
  }

  function RowJobs(a: Csr, k: int, i: int, x: int, end: int): seq<Job>
    requires 0 <= x && end <= |a.cols| == |a.vals|
    decreases end - x
  {
    if end <= x then [] else BlockJobs(k, i, a.cols[x], a.vals[x], 0) + RowJobs(a, k, i, x + 1, end)
  }

  ghost function JobsFrom(a: Csr, b: Dense, i: int): seq<Job>
    requires WellFormed(a, b) && 0 <= i <= RowCount(a)
    decreases RowCount(a) - i
  {
    if i == RowCount(a) then []
    else RowJobs(a, b.k, i, a.rows[i], a.rows[i + 1]) + JobsFrom(a, b, i + 1)
  }

  // -- The accelerator ------------------------------------------------------------------

  type SpDev<E> = Dev<E, Job, ()>
  type SpEng<!E> = Engine<E, Job>

  /** `issued` and `finished` are histories; `raised` says that numpy refused a block. */
  datatype Accel<E> = Accel(
    dev: SpDev<E>,
    pending: seq<Job>,
    inflight: int,
    acc: seq<seq<real>>,
    raised: bool,
    issued: seq<Job>,
    finished: seq<Job>)

  function AddrOf(b: Dense, j: Job): int {
    B_BASE + (j.j * b.k + j.t) * 4
  }

  function Issue<E>(cfg: Config, g: SpEng<E>, b: Dense, s: Accel<E>): Accel<E>
    decreases |s.pending|
  {
    if s.inflight < MAX_INFLIGHT && s.pending != [] then
      var job := s.pending[0];
      var (d, ok) := Device.Read(cfg, g, s.dev, AddrOf(b, job), 0, Some(job));
      if ok == Ok(true) then
        Issue(cfg, g, b, s.(dev := d, pending := s.pending[1..], inflight := s.inflight + 1, issued := s.issued +
          [job]))
      else s.(dev := d)
    else s
  }

  /** Clipping as slices do it. */
  function Clip(len: int, from: int, to: int): nat {
    var lo := if from < 0 then 0 else if len < from then len else from;
    var hi := if to < lo then lo else if len < to then len else to;
    if lo <= hi then hi - lo else 0
  }

  /** The block of B that starts at element `off`. */
  function BlockAt(b: Dense, off: int): seq<real> {
    b.image[if off < 0 then 0 else if off < |b.image| then off else |b.image|..][..Clip(|b.image|, off, off + BLOCK)]
  }

  /** `row[t..] += v * blk`. */
  function AddBlock(row: seq<real>, t: int, v: real, blk: seq<real>): (r: seq<real>)
    ensures |r| == |row|
  {
    seq(|row|, c requires 0 <= c < |row| => if t <= c < t + |blk| then row[c] + v * blk[c - t] else row[c])
  }

  /** Floor division; addresses of this accelerator lie at or above B_BASE. */
  function OffsetOf(addr: int): int {
    (addr - B_BASE) / 4
  }

  /** The in-place addition is refused when the two slices differ in length. */
  predicate SlicesAgree(b: Dense, off: int, t: int) {
    Clip(|b.image|, off, off + BLOCK) == Clip(b.k, t, t + BLOCK)
  }

  function OnComplete<E>(cfg: Config, g: SpEng<E>, b: Dense, s: Accel<E>, addr: int, job: Job): Accel<E> {
    var s1 := s.(inflight := s.inflight - 1);
    var off := OffsetOf(addr);
    if !SlicesAgree(b, off, job.t) || off < 0 || |s.acc| <= job.i || job.i < 0 then s1.(raised := true)
    else
      var blk := BlockAt(b, off);
      Issue(cfg, g, b, s1.(acc := s.acc[job.i := AddBlock(s.acc[job.i], job.t, job.v, blk)], finished := s.finished +
        [job]))
  }

  function Step<E>(cfg: Config, g: SpEng<E>, b: Dense, s: Accel<E>): Accel<E>
    requires cfg.Valid() && s.dev.agenda != []
  {
    var d := Pop(s.dev);
    match s.dev.agenda[0].what
    case Tick => s.(dev := TickBody(cfg, g, d, MaxBurst(cfg.period, d.now, NextTime(d.agenda), None)))
    case IdleTick => s.(dev := IdleBody(cfg, g, d))
    case Call(job, info) => OnComplete(cfg, g, b, s.(dev := d), info.addr, job)
    case User(_) => s.(dev := d)
  }

  /** `run_until_idle`, at most `n` events; an exception ends it. */
  function Run<E>(cfg: Config, g: SpEng<E>, b: Dense, s: Accel<E>, n: nat): Accel<E>
    requires cfg.Valid()
    decreases n
  {
    if n == 0 || s.raised || s.dev.agenda == [] then s else Run(cfg, g, b, Step(cfg, g, b, s), n - 1)
  }

  function Zeros(m: nat, k: nat): seq<seq<real>> {
    seq(m, _ => seq(k, _ => 0.0))
  }

  /** A cleared accumulator, the request list, and the first window of requests. */
  ghost function Start<E>(cfg: Config, g: SpEng<E>, a: Csr, b: Dense, d: SpDev<E>): Accel<E>
    requires WellFormed(a, b) && b.Valid()
  {
    Issue(cfg, g, b, Accel(d, JobsFrom(a, b, 0), 0, Zeros(RowCount(a), b.k), false, [], []))
  }

  // -- What the accumulator should be ----------------------------------------------------------

  /** What one finished job adds to element (i, c). */
  function Term(b: Dense, job: Job, i: int, c: int): real {
    var at := job.j * b.k + c;
    if job.i == i && job.t <= c < job.t + BLOCK && 0 <= at < |b.image| then job.v * b.image[at] else 0.0
  }

  function Sum(b: Dense, jobs: seq<Job>, i: int, c: int): real {
    if jobs == [] then 0.0 else Term(b, jobs[0], i, c) + Sum(b, jobs[1..], i, c)
  }

  /** What the stored nonzero `x` adds to its row in column `c`. */
  function Nonzero(a: Csr, b: Dense, c: int, x: int): real
    requires 0 <= x < |a.cols| == |a.vals|
  {
    var at := a.cols[x] * b.k + c;
    if 0 <= at < |b.image| then a.vals[x] * b.image[at] else 0.0
  }

  /** Row `i` of A times column `c` of B, over the stored nonzeros. */
  function RowDot(a: Csr, b: Dense, c: int, x: int, end: int): real
    requires 0 <= x && end <= |a.cols| == |a.vals|
    decreases end - x
  {
    if end <= x then 0.0
    else Nonzero(a, b, c, x) + RowDot(a, b, c, x + 1, end)
  }

  /** The entry (i, j) of A as a dense matrix; stored duplicates add up. */
  function Coefficient(a: Csr, j: int, x: int, end: int): real
    requires 0 <= x && end <= |a.cols| == |a.vals|
    decreases end - x
  {
    if end <= x then 0.0 else (if a.cols[x] == j then a.vals[x] else 0.0) + Coefficient(a, j, x + 1, end)
  }

  /** The textbook sum over j of A[i, j] * B[j, c], for j from `j` on. */
  function Product(a: Csr, b: Dense, c: int, x: int, end: int, j: int): real
    requires 0 <= x && end <= |a.cols| == |a.vals|
    decreases b.n - j
  {
    if b.n <= j then 0.0
    else
      var at := j * b.k + c;
      Coefficient(a, j, x, end) * (if 0 <= at < |b.image| then b.image[at] else 0.0) + Product(a, b, c, x, end, j + 1)
  }
}

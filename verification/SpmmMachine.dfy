/**
 The SpMM accelerator as the object it is: its queue, its window, and an accumulator updated in place.
 */
module SpmmMachine {
  import opened Prelude
  import opened Engine
  import opened Erasure
  import D = Device
  import Sp = Spmm
  import SR = SpmmResult
  import DR = Dram
  import S = Simulator
  import Chains

  type SpTag = D.Tag<Sp.Job, ()>

  ghost function RowOf(a: array2<real>, i: int, n: nat): seq<real>
    requires 0 <= i < a.Length0 && n <= a.Length1
    reads a
    decreases n
  {
    if n == 0 then [] else RowOf(a, i, n - 1) + [a[i, n - 1]]
  }

  ghost function RowsOf(a: array2<real>, m: nat): seq<seq<real>>
    requires m <= a.Length0
    reads a
    decreases m
  {
    if m == 0 then [] else RowsOf(a, m - 1) + [RowOf(a, m - 1, a.Length1)]
  }

  /** The accumulator as a value. */
  ghost function AccOf(a: array2<real>): seq<seq<real>>
    reads a
  {
    RowsOf(a, a.Length0)
  }

  lemma {:induction false} RowAt(a: array2<real>, i: int, n: nat)
    requires 0 <= i < a.Length0 && n <= a.Length1
    ensures |RowOf(a, i, n)| == n && forall c :: 0 <= c < n ==> RowOf(a, i, n)[c] == a[i, c]
    decreases n
  {
    if n > 0 {
      RowAt(a, i, n - 1);
    }
  }

  lemma {:induction false} RowsAt(a: array2<real>, m: nat)
    requires m <= a.Length0
    ensures |RowsOf(a, m)| == m
    ensures forall i :: 0 <= i < m ==> |RowsOf(a, m)[i]| == a.Length1
    ensures forall i, c :: 0 <= i < m && 0 <= c < a.Length1 ==> RowsOf(a, m)[i][c] == a[i, c]
    decreases m
  {
    if m > 0 {
      RowsAt(a, m - 1);
      RowAt(a, m - 1, a.Length1);
    }
  }

  lemma AccAt(a: array2<real>)
    ensures |AccOf(a)| == a.Length0
    ensures forall i :: 0 <= i < a.Length0 ==> |AccOf(a)[i]| == a.Length1
    ensures forall i, c :: 0 <= i < a.Length0 && 0 <= c < a.Length1 ==> AccOf(a)[i][c] == a[i, c]
  {
    RowsAt(a, a.Length0);
  }

  /** `acc[i, t : t + len(blk)] += v * blk`. */
  method AddInPlace(acc: array2<real>, i: int, t: int, v: real, blk: seq<real>)
    requires 0 <= i < acc.Length0
    modifies acc
    ensures i < |old(AccOf(acc))| && AccOf(acc) == old(AccOf(acc))[i := Sp.AddBlock(old(AccOf(acc))[i], t, v, blk)]
  {
    AccAt(acc);
    for x := 0 to |blk|
      invariant forall i', c :: 0 <= i' < acc.Length0 && 0 <= c < acc.Length1 ==>
                  acc[i', c] == if i' == i && t <= c < t + x then old(acc[i', c]) + v * blk[c - t] else old(acc[i', c])
    {
      if 0 <= t + x < acc.Length1 {
        acc[i, t + x] := acc[i, t + x] + v * blk[x];
      }
    }
    AccAt(acc);
    ghost var was := old(AccOf(acc));
    ghost var r := was[i := Sp.AddBlock(was[i], t, v, blk)];
    forall i' | 0 <= i' < acc.Length0
      ensures AccOf(acc)[i'] == r[i']
    {
      forall c | 0 <= c < acc.Length1
        ensures AccOf(acc)[i'][c] == r[i'][c]
      {
        assert was[i'][c] == old(acc[i', c]);
      }
    }
  }

  class SpMMAccelerator<E(!new)> {
    const sim: S.Simulator<SpTag>
    const dram: DR.Dram<E, Sp.Job, ()>
    var b: Sp.Dense
    var pending: seq<Sp.Job>
    var inflight: int
    var sent: int
    var acc: array2<real>
    /** numpy refused a block. */
    var raised: bool
    ghost var issued: seq<Sp.Job>
    ghost var finished: seq<Sp.Job>

    ghost predicate Valid()
      reads this, dram, dram.sim, dram.sim.order, dram.mem, dram.mem.impl
    {
      dram.sim == sim && dram.Valid() && acc.Length1 == b.k
    }

    ghost function State(): Sp.Accel<E>
      reads this, acc, dram, dram.sim, dram.mem, dram.mem.impl
    {
      Sp.Accel(dram.View(), pending, inflight, AccOf(acc), raised, issued, finished)
    }

    twostate predicate Kept()
      reads sim
    {
      fresh(sim.events - old(sim.events)) && sim.runUntil == old(sim.runUntil)
    }

    constructor (sim: S.Simulator<SpTag>, dram: DR.Dram<E, Sp.Job, ()>)
      requires dram.sim == sim && dram.Valid()
      ensures Valid() && this.sim == sim && this.dram == dram
      ensures pending == [] && inflight == 0 && !raised && issued == [] && finished == []
    {
      this.sim, this.dram := sim, dram;
      b, pending, inflight, sent, raised := Sp.Dense(0, 0, []), [], 0, 0, false;
      acc := new real[0, 0];
      issued, finished := [], [];
    }

    // -- The request list ---------------------------------------------------------------------

    /** The three loops over rows, nonzeros and blocks. */
    method BuildJobs(a: Sp.Csr)
      requires Sp.WellFormed(a, b)
      modifies this`pending
      ensures pending == old(pending) + Sp.JobsFrom(a, b, 0)
    {
      var i := 0;
      while i < Sp.RowCount(a)
        invariant 0 <= i <= Sp.RowCount(a)
        invariant pending + Sp.JobsFrom(a, b, i) == old(pending) + Sp.JobsFrom(a, b, 0)
      {
        ghost var before := pending;
        RowJobs(a, i);
        assert before + Sp.JobsFrom(a, b, i) == pending + Sp.JobsFrom(a, b, i + 1);
        i := i + 1;
      }
      assert pending + [] == pending;
    }

    method RowJobs(a: Sp.Csr, i: int)
      requires Sp.WellFormed(a, b) && 0 <= i < Sp.RowCount(a)
      modifies this`pending
      ensures pending == old(pending) + Sp.RowJobs(a, b.k, i, a.rows[i], a.rows[i + 1])
    {
      var x, end := a.rows[i], a.rows[i + 1];
      while x < end
        invariant a.rows[i] <= x && (x <= end || x == a.rows[i])
        invariant pending + Sp.RowJobs(a, b.k, i, x, end) == old(pending) + Sp.RowJobs(a, b.k, i, a.rows[i], end)
      {
        ghost var before := pending;
        BlockJobs(i, a.cols[x], a.vals[x]);
        ghost var blocks := Sp.BlockJobs(b.k, i, a.cols[x], a.vals[x], 0);
        assert before + (blocks + Sp.RowJobs(a, b.k, i, x + 1, end)) == pending + Sp.RowJobs(a, b.k, i, x + 1, end);
        x := x + 1;
      }
      assert pending + [] == pending;
    }

    method BlockJobs(i: int, j: int, v: real)
      modifies this`pending
      ensures pending == old(pending) + Sp.BlockJobs(b.k, i, j, v, 0)
    {
      var t := 0;
      while t < b.k
        invariant 0 <= t
        invariant pending + Sp.BlockJobs(b.k, i, j, v, t) == old(pending) + Sp.BlockJobs(b.k, i, j, v, 0)
        decreases b.k - t
      {
        ghost var rest := Sp.BlockJobs(b.k, i, j, v, t + Sp.BLOCK);
        assert pending + ([Sp.Job(i, j, t, v)] + rest) == (pending + [Sp.Job(i, j, t, v)]) + rest;
        pending := pending + [Sp.Job(i, j, t, v)];
        t := t + Sp.BLOCK;
      }
      assert pending + [] == pending;
    }

    // -- The window ----------------------------------------------------------------------------

    method Issue()
      requires Valid()
      modifies this`pending, this`inflight, this`sent, this`issued, dram, sim, sim.events, dram.mem, dram.mem.impl
      ensures dram.Valid() && Kept()
      ensures State() == Sp.Issue(dram.cfg, dram.G(), b, old(State()))
    {
      while inflight < Sp.MAX_INFLIGHT && pending != []
        invariant dram.Valid() && Kept()
        invariant Sp.Issue(dram.cfg, dram.G(), b, State()) == Sp.Issue(dram.cfg, dram.G(), b, old(State()))
        decreases |pending|
      {
        var ok := IssueOne();
        if !ok {
          return;
        }
      }
    }

    method IssueOne() returns (ok: bool)
      requires Valid() && pending != []
      modifies this`pending, this`inflight, this`sent, this`issued, dram, sim, sim.events, dram.mem, dram.mem.impl
      ensures dram.Valid() && Kept()
      ensures var s, job := old(State()), old(pending)[0];
              var (d, r) := D.Read(dram.cfg, dram.G(), s.dev, Sp.AddrOf(b, job), 0, Some(job));
              && ok == (r == Ok(true))
              && State() == if ok then
                s.(dev := d, pending := s.pending[1..], inflight := s.inflight + 1, issued := s.issued + [job])
                            else s.(dev := d)
    {
      ghost var s, job := State(), pending[0];
      ok := Send(pending[0]);
      ghost var d := D.Read(dram.cfg, dram.G(), s.dev, Sp.AddrOf(b, job), 0, Some(job)).0;
      assert State() == s.(dev := d) && pending == s.pending && pending[0] == job;
      if ok {
        Sent();
        assert State() ==
            s.(dev := d, pending := s.pending[1..], inflight := s.inflight + 1, issued := s.issued + [job]);
      }
    }

    method Sent()
      requires pending != []
      modifies this`pending, this`inflight, this`sent, this`issued
      ensures var s := old(State());
              State() == s.(pending := s.pending[1..], inflight := s.inflight + 1, issued := s.issued + [s.pending[0]])
    {
      issued := issued + [pending[0]];
      pending := pending[1..];
      inflight, sent := inflight + 1, sent + 1;
    }

    /** The read for a job, with the job as the callback's captured state. */
    method Send(job: Sp.Job) returns (ok: bool)
      requires Valid()
      modifies dram, sim, sim.events, dram.mem, dram.mem.impl
      ensures dram.Valid() && Kept()
      ensures var s := old(State());
              var (d, r) := D.Read(dram.cfg, dram.G(), s.dev, Sp.AddrOf(b, job), 0, Some(job));
              ok == (r == Ok(true)) && State() == s.(dev := d)
    {
      var r := dram.Read(Sp.AddrOf(b, job), Some(job), 0);
      ok := r == Ok(true);
    }

    method OnComplete(addr: int, job: Sp.Job)
      requires Valid()
      modifies this`pending, this`inflight, this`sent, this`raised, this`issued, this`finished, acc, dram, sim,
               sim.events, dram.mem, dram.mem.impl
      ensures dram.Valid() && Kept()
      ensures State() == Sp.OnComplete(dram.cfg, dram.G(), b, old(State()), addr, job)
    {
      var off := Sp.OffsetOf(addr);
      AccAt(acc);
      if !Sp.SlicesAgree(b, off, job.t) || off < 0 || acc.Length0 <= job.i || job.i < 0 {
        Refuse();
      } else {
        Finish(off, job);
      }
    }

    method Refuse()
      modifies this`inflight, this`raised
      ensures State() == old(State()).(inflight := old(inflight) - 1, raised := true)
    {
      inflight, raised := inflight - 1, true;
    }

    method Finish(off: int, job: Sp.Job)
      requires Valid() && Sp.SlicesAgree(b, off, job.t) && 0 <= off && 0 <= job.i < acc.Length0
      modifies this`pending, this`inflight, this`sent, this`issued, this`finished, acc, dram, sim, sim.events,
               dram.mem, dram.mem.impl
      ensures dram.Valid() && Kept()
      ensures var s := old(State());
              job.i < |s.acc| && State() == Sp.Issue(dram.cfg, dram.G(), b,
                s.(inflight := s.inflight - 1, finished := s.finished + [job],
                   acc := s.acc[job.i := Sp.AddBlock(s.acc[job.i], job.t, job.v, Sp.BlockAt(b, off))]))
    {
      Accumulate(off, job);
      Issue();
    }

    method Accumulate(off: int, job: Sp.Job)
      requires Valid() && Sp.SlicesAgree(b, off, job.t) && 0 <= off && 0 <= job.i < acc.Length0
      modifies this`inflight, this`finished, acc
      ensures Valid()
      ensures var s := old(State());
              job.i < |s.acc| && State() == s.(inflight := s.inflight - 1, finished := s.finished + [job],
                            acc := s.acc[job.i := Sp.AddBlock(s.acc[job.i], job.t, job.v, Sp.BlockAt(b, off))])
    {
      inflight := inflight - 1;
      var blk := Sp.BlockAt(b, off);
      AddInPlace(acc, job.i, job.t, job.v, blk);
      finished := finished + [job];
    }

    // -- Running ------------------------------------------------------------------------------------

    method Take() returns (tag: SpTag)
      requires Valid() && sim.heap != [] && !sim.heap[0].cancelled
      requires Chains.ChainInv(dram.cfg, dram.G(), dram.View())
      modifies sim
      ensures dram.Valid() && Kept()
      ensures old(State()).dev.agenda != [] && State() == old(State()).(dev := D.Pop(old(State()).dev))
      ensures tag == old(State()).dev.agenda[0].what
      ensures !dram.idleTicking || tag.IdleTick? ==> DR.NoIdle(sim.queue)
    {
      assert Inside(Layer.Objects, true);
      tag := sim.Begin();
      dram.EventTaken(old(sim.queue), old(dram.View()));
      ErasedTail(old(sim.queue));
    }

    method RunChain(tag: SpTag)
      requires Valid() && (tag.Tick? || tag.IdleTick?) && (!dram.idleTicking || tag.IdleTick? ==> DR.NoIdle(sim.queue))
      requires sim.runUntil == None
      modifies dram, sim, sim.events, dram.mem, dram.mem.impl
      ensures dram.Valid() && Kept()
      ensures State() == Handled(dram.cfg, dram.G(), b, old(State()), tag)
    {
      if tag.Tick? {
        dram.Tick();
      } else {
        dram.IdleTick();
      }
    }

    method Handle(tag: SpTag)
      requires Valid() && (!dram.idleTicking || tag.IdleTick? ==> DR.NoIdle(sim.queue)) && sim.runUntil == None
      modifies this`pending, this`inflight, this`sent, this`raised, this`issued, this`finished, acc, dram, sim,
               sim.events, dram.mem, dram.mem.impl
      ensures dram.Valid() && Kept()
      ensures State() == Handled(dram.cfg, dram.G(), b, old(State()), tag)
    {
      match tag
      case Call(job, info) => OnComplete(info.addr, job);
      case User(_) =>
      case _ => RunChain(tag);
    }

    method Step()
      requires Valid() && sim.heap != [] && !sim.heap[0].cancelled && sim.runUntil == None
      requires Chains.ChainInv(dram.cfg, dram.G(), dram.View())
      modifies this`pending, this`inflight, this`sent, this`raised, this`issued, this`finished, acc, dram, sim,
               sim.events, dram.mem, dram.mem.impl
      ensures dram.Valid() && Kept()
      ensures old(State()).dev.agenda != [] && State() == Sp.Step(dram.cfg, dram.G(), b, old(State()))
    {
      var tag := Take();
      Handle(tag);
      if !raised {
        Finished();
      }
    }

    method Finished()
      requires Valid()
      modifies sim`processed
      ensures dram.Valid() && State() == old(State())
    {
      assert Inside(Layer.Objects, true);
      sim.Finish();
    }

    method Idle() returns (idle: bool)
      requires Valid()
      modifies sim
      ensures dram.Valid() && Kept() && State() == old(State())
      ensures idle <==> State().dev.agenda == []
    {
      assert Inside(Layer.Objects, true);
      var e := sim.Peek();
      idle := e == null;
    }

    /** Brings the next live event to the top of the heap. */
    method Peek()
      requires Valid() && State().dev.agenda != []
      modifies sim
      ensures dram.Valid() && Kept() && State() == old(State()) && sim.heap != [] && !sim.heap[0].cancelled
    {
      assert Inside(Layer.Objects, true);
      var e := sim.Peek();
    }

    method StepSoundly(
      ghost a: Sp.Csr, ghost flight: Flight<E, Sp.Job>, ghost s0: Sp.Accel<E>, ghost fuel: nat, ghost left: nat)
      returns (idle: bool)
      requires Valid() && 0 < left && Going(dram.cfg, dram.G(), a, b, flight, s0, fuel, State(), left)
      requires sim.runUntil == None && !raised && State().dev.agenda != []
      modifies this`pending, this`inflight, this`sent, this`raised, this`issued, this`finished, acc, dram, sim,
               sim.events, dram.mem, dram.mem.impl
      ensures dram.Valid() && Kept() && Going(dram.cfg, dram.G(), a, b, flight, s0, fuel, State(), left - 1)
      ensures idle <==> State().dev.agenda == []
    {
      StepGoesOn(dram.cfg, dram.G(), a, b, flight, s0, fuel, State(), left, Sp.Step(dram.cfg, dram.G(), b, State()));
      Peek();
      Step();
      idle := Idle();
    }

    /** The loop of `run_until_idle`, for at most `fuel` events; an exception ends it. */
    method RunLoop(fuel: nat, ghost a: Sp.Csr, ghost flight: Flight<E, Sp.Job>) returns (idle: bool)
      requires Valid() && sim.runUntil == None && Going(dram.cfg, dram.G(), a, b, flight, State(), fuel, State(), fuel)
      modifies this, acc, dram, sim, sim.events, dram.mem, dram.mem.impl
      ensures dram.Valid() && Kept() && Going(dram.cfg, dram.G(), a, b, flight, old(State()), fuel, State(), 0)
      ensures b == old(b) && acc == old(acc)
      ensures idle <==> State().dev.agenda == []
    {
      ghost var left, s0 := fuel, State();
      idle := Idle();
      for i := 0 to fuel
        invariant dram.Valid() && Kept() && b == old(b) && acc == old(acc)
        invariant left == fuel - i && Going(dram.cfg, dram.G(), a, b, flight, s0, fuel, State(), left)
        invariant idle <==> State().dev.agenda == []
      {
        if idle || raised {
          break;
        }
        idle := StepSoundly(a, flight, s0, fuel, left);
        left := left - 1;
      }
      GoneEnough(dram.cfg, dram.G(), a, b, flight, s0, fuel, State(), left);
    }

    method SetHorizon(until: Option<int>) returns (previous: Option<int>)
      requires Valid()
      modifies sim`runUntil
      ensures dram.Valid() && State() == old(State()) && sim.runUntil == until && previous == old(sim.runUntil)
    {
      assert Inside(Layer.Objects, true);
      previous := sim.SetHorizon(until);
      assert dram.IdsOk() && dram.Wired();
    }

    method RunUntilIdle(fuel: nat, ghost a: Sp.Csr, ghost flight: Flight<E, Sp.Job>) returns (idle: bool)
      requires Valid() && Going(dram.cfg, dram.G(), a, b, flight, State(), fuel, State(), fuel)
      modifies this, acc, dram, sim, sim.events, dram.mem, dram.mem.impl
      ensures dram.Valid() && Kept() && Going(dram.cfg, dram.G(), a, b, flight, old(State()), fuel, State(), 0)
      ensures b == old(b) && acc == old(acc)
      ensures idle <==> State().dev.agenda == []
    {
      var previous := SetHorizon(None);
      idle := RunLoop(fuel, a, flight);
      previous := SetHorizon(previous);
    }

    /** The operands and a cleared accumulator; the histories of an earlier run end here. */
    method Load(a: Sp.Csr, b: Sp.Dense)
      requires Sp.WellFormed(a, b) && b.Valid() && pending == []
      modifies this
      ensures this.b == b && pending == Sp.JobsFrom(a, b, 0) && fresh(acc) && acc.Length1 == b.k
      ensures AccOf(acc) == Sp.Zeros(Sp.RowCount(a), b.k)
      ensures unchanged(`inflight, `raised) && issued == [] && finished == []
    {
      this.b := b;
      issued, finished := [], [];
      acc := new real[Sp.RowCount(a), b.k]((i, c) => 0.0);
      BuildJobs(a);
      AccAt(acc);
      ghost var zeros := Sp.Zeros(Sp.RowCount(a), b.k);
      forall i | 0 <= i < acc.Length0
        ensures AccOf(acc)[i] == zeros[i]
      {
        assert forall c :: 0 <= c < acc.Length1 ==> AccOf(acc)[i][c] == zeros[i][c];
      }
    }

    /** The first window of requests. */
    method Begin(a: Sp.Csr, b: Sp.Dense)
      requires Valid() && Sp.WellFormed(a, b) && b.Valid() && pending == [] && inflight == 0 && !raised
      modifies this, dram, sim, sim.events, dram.mem, dram.mem.impl
      ensures Valid() && Kept() && this.b == b && fresh(acc)
      ensures State() == Sp.Start(dram.cfg, dram.G(), a, b, old(dram.View()))
    {
      Load(a, b);
      Issue();
    }

    /** `run` on an idle accelerator, used before or not, and a DRAM that has served all it accepted.  An exception
        needs a block of B that does not fit; without one, the run is either cut off by `fuel` or leaves A times B in
        the accumulator and nothing pending. */
    method Run(a: Sp.Csr, b: Sp.Dense, fuel: nat, ghost flight: Flight<E, Sp.Job>) returns (idle: bool)
      requires Valid() && Sp.WellFormed(a, b) && b.Valid() && Chains.GoodEngine(dram.cfg, dram.G(), flight)
      requires Chains.Quiet(dram.cfg, dram.G(), dram.View()) && D.CoreOk(dram.cfg, 0)
      requires pending == [] && inflight == 0 && !raised
      modifies this, dram, sim, sim.events, dram.mem, dram.mem.impl
      ensures dram.Valid() && Kept()
      ensures State() == Sp.Run(dram.cfg, dram.G(), b, Sp.Start(dram.cfg, dram.G(), a, b, old(dram.View())), fuel)
      ensures raised ==> !SR.Aligned(a, b)
      ensures !raised ==> 0 <= inflight <= 16
      ensures idle && !raised ==>
                && SR.Aligned(a, b) && pending == [] && inflight == 0 && acc.Length0 == Sp.RowCount(a)
                  && acc.Length1 == b.k
                && forall i, c :: 0 <= i < acc.Length0 && 0 <= c < acc.Length1 ==> acc[i, c] == SR.MatMul(a, b, i, c)
    {
      StartGoes(dram.cfg, dram.G(), a, b, flight, dram.View(), fuel);
      Begin(a, b);
      ghost var s0 := State();
      idle := RunUntilIdle(fuel, a, flight);
      AccAt(acc);
      RunEnds(dram.cfg, dram.G(), a, b, flight, s0, fuel, State());
    }
  }

  /** The callback of an event, once the event is off the agenda. */
  function Handled<E>(cfg: D.Config, g: Sp.SpEng<E>, b: Sp.Dense, s: Sp.Accel<E>, tag: SpTag): Sp.Accel<E>
    requires cfg.Valid()
  {
    match tag
    case Tick => s.(dev := D.TickBody(cfg, g, s.dev, D.MaxBurst(cfg.period, s.dev.now, D.NextTime(s.dev.agenda), None)))
    case IdleTick => s.(dev := D.IdleBody(cfg, g, s.dev))
    case Call(job, info) => Sp.OnComplete(cfg, g, b, s, info.addr, job)
    case User(_) => s
  }

  /** `left` more events from `s` on end where `fuel` events from `s0` on end, and the invariant holds. */
  ghost predicate Going<E(!new)>(
    cfg: D.Config, g: Sp.SpEng<E>, a: Sp.Csr, b: Sp.Dense, flight: Flight<E, Sp.Job>, s0: Sp.Accel<E>, fuel: nat,
    s: Sp.Accel<E>, left: nat)
    requires cfg.Valid()
  {
    forall u :: Inside(Layer.Runs, u) ==>
      && Sp.Run(cfg, g, b, s, left) == Sp.Run(cfg, g, b, s0, fuel)
      && Chains.GoodEngine(cfg, g, flight) && Sp.WellFormed(a, b) && b.Valid()
      && if s.raised then !SR.AllFit(a, b) else exists m :: SR.Inv(cfg, g, a, b, flight, s, m)
  }

  lemma RunUnfolds<E>(cfg: D.Config, g: Sp.SpEng<E>, b: Sp.Dense, s: Sp.Accel<E>, left: nat, s1: Sp.Accel<E>)
    requires cfg.Valid() && !s.raised && s.dev.agenda != [] && 0 < left && s1 == Sp.Step(cfg, g, b, s)
    ensures Sp.Run(cfg, g, b, s, left) == Sp.Run(cfg, g, b, s1, left - 1)
  {
  }

  lemma StepGoesOn<E(!new)>(
    cfg: D.Config, g: Sp.SpEng<E>, a: Sp.Csr, b: Sp.Dense, flight: Flight<E, Sp.Job>, s0: Sp.Accel<E>, fuel: nat,
    s: Sp.Accel<E>, left: nat,
    s1: Sp.Accel<E>)
    requires cfg.Valid() && Going(cfg, g, a, b, flight, s0, fuel, s, left)
    requires !s.raised && s.dev.agenda != [] && 0 < left
    requires s1 == Sp.Step(cfg, g, b, s)
    ensures Chains.ChainInv(cfg, g, s.dev)
    ensures Going(cfg, g, a, b, flight, s0, fuel, s1, left - 1)
  {
    assert Inside(Layer.Runs, true);
    RunUnfolds(cfg, g, b, s, left, s1);
    var m :| SR.Inv(cfg, g, a, b, flight, s, m);
    SR.InvChains(cfg, g, a, b, flight, s, m);
    var m' := SR.StepKeeps(cfg, g, a, b, flight, s, m, s1);
  }

  lemma GoneEnough<E(!new)>(
    cfg: D.Config, g: Sp.SpEng<E>, a: Sp.Csr, b: Sp.Dense, flight: Flight<E, Sp.Job>, s0: Sp.Accel<E>, fuel: nat,
    s: Sp.Accel<E>, left: nat)
    requires cfg.Valid() && Going(cfg, g, a, b, flight, s0, fuel, s, left)
    requires (left == 0 || s.raised || s.dev.agenda == [])
    ensures Going(cfg, g, a, b, flight, s0, fuel, s, 0)
  {
    assert Inside(Layer.Runs, true);
  }

  lemma StartGoes<E(!new)>(
    cfg: D.Config, g: Sp.SpEng<E>, a: Sp.Csr, b: Sp.Dense, flight: Flight<E, Sp.Job>, d: Sp.SpDev<E>, fuel: nat)
    requires Chains.GoodEngine(cfg, g, flight) && Sp.WellFormed(a, b) && b.Valid()
    requires Chains.Quiet(cfg, g, d) && D.CoreOk(cfg, 0)
    ensures var s := Sp.Start(cfg, g, a, b, d); Going(cfg, g, a, b, flight, s, fuel, s, fuel)
  {
    var m := SR.StartKeeps(cfg, g, a, b, flight, d);
  }

  /** What the end of a run means, from module SpmmResult. */
  lemma RunEnds<E(!new)>(
    cfg: D.Config, g: Sp.SpEng<E>, a: Sp.Csr, b: Sp.Dense, flight: Flight<E, Sp.Job>, s0: Sp.Accel<E>, fuel: nat,
    s: Sp.Accel<E>)
    requires cfg.Valid() && Sp.WellFormed(a, b) && b.Valid() && Going(cfg, g, a, b, flight, s0, fuel, s, 0)
    ensures s == Sp.Run(cfg, g, b, s0, fuel)
    ensures s.raised ==> !SR.Aligned(a, b)
    ensures !s.raised ==> 0 <= s.inflight <= 16
    ensures !s.raised && s.dev.agenda == [] ==>
              && SR.Aligned(a, b) && s.pending == [] && s.inflight == 0 && |s.acc| == Sp.RowCount(a)
              && forall i, c :: 0 <= i < Sp.RowCount(a) && 0 <= c < b.k ==>
                c < |s.acc[i]| && s.acc[i][c] == SR.MatMul(a, b, i, c)
  {
    assert Inside(Layer.Runs, true);
    SR.AlignedIffAllFit(a, b);
    if !s.raised {
      var m :| SR.Inv(cfg, g, a, b, flight, s, m);
      SR.WindowHolds(cfg, g, a, b, flight, s, m);
    }
    if !s.raised && s.dev.agenda == [] {
      var m :| SR.Inv(cfg, g, a, b, flight, s, m);
      SR.QuietMeansProduct(cfg, g, a, b, flight, s, m);
    }
  }
}

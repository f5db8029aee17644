/**
 What the SpMM accelerator asks of the DRAM: one read for each block of the request list, in order, at the address
 of the block.
 */
module SpmmTraffic {
  import opened Prelude
  import opened Engine
  import opened Device
  import opened Spmm
  import SR = SpmmResult
  import Chains

  /** The reads accepted since `before` are those of the issued jobs, each with its own callback. */
  ghost predicate Logged<E>(b: Dense, before: seq<Accepted<Job>>, s: Accel<E>) {
    && |s.dev.accepted| == |before| + |s.issued| && s.dev.accepted[..|before|] == before
    && forall i :: 0 <= i < |s.issued| ==> Asks(b, s.issued[i], s.dev.accepted[|before| + i])
  }

  /** A read of the block from column `t` of row `j` of the dense operand, four bytes an element, row by row. */
  ghost predicate Asks(b: Dense, job: Job, x: Accepted<Job>) {
    x.addr == 0x10_0000 + (job.j * b.k + job.t) * 4 && x.kind == READ && x.core == 0 && x.user == Some(job)
  }

  lemma {:induction false} DeliverAcceptsNothing<E, C, U>(cfg: Config, d: Dev<E, C, U>)
    ensures Deliver(cfg, d).accepted == d.accepted
    decreases |d.completed|
  {
    if d.completed != [] {
      var n := d.completed[0];
      var d1 := d.(completed := d.completed[1..]);
      DeliverAcceptsNothing(cfg, if n.user.None? then d1 else Post(cfg, d1, n.user.value, n.info));
    }
  }

  lemma TickAcceptsNothing<E, C, U>(cfg: Config, g: Engine<E, C>, d: Dev<E, C, U>, max: nat)
    requires 1 <= max
    ensures TickBody(cfg, g, d, max).accepted == d.accepted
  {
    DeliverAcceptsNothing(cfg, Advance(cfg, d, UntilProgress(g, d.mem, max)));
  }

  lemma ReadIsLogged<E>(
    cfg: Config, g: SpEng<E>, b: Dense, before: seq<Accepted<Job>>, s: Accel<E>) returns (s1: Accel<E>)
    requires Logged(b, before, s) && s.pending != []
    requires Device.Read(cfg, g, s.dev, AddrOf(b, s.pending[0]), 0, Some(s.pending[0])).1 == Ok(true)
    ensures var job := s.pending[0];
            s1 == s.(dev := Device.Read(cfg, g, s.dev, AddrOf(b, job), 0, Some(job)).0, pending := s.pending[1..],
                     inflight := s.inflight + 1, issued := s.issued + [job])
    ensures Logged(b, before, s1)
  {
    var job := s.pending[0];
    var d := Device.Read(cfg, g, s.dev, AddrOf(b, job), 0, Some(job)).0;
    s1 := s.(dev := d, pending := s.pending[1..], inflight := s.inflight + 1, issued := s.issued + [job]);
    assert d.accepted == s.dev.accepted + [Accepted(AddrOf(b, job), READ, 0, Some(job), s.dev.clk)];
    assert d.accepted[..|before|] == before;
    assert Asks(b, job, d.accepted[|before| + |s.issued|]);
    forall i | 0 <= i < |s1.issued|
      ensures Asks(b, s1.issued[i], d.accepted[|before| + i])
    {
      if i < |s.issued| {
        assert Asks(b, s.issued[i], s.dev.accepted[|before| + i]);
      }
    }
  }

  lemma {:induction false} IssueIsLogged<E>(
    cfg: Config, g: SpEng<E>, b: Dense, before: seq<Accepted<Job>>, s: Accel<E>)
    requires Logged(b, before, s)
    ensures var r := Issue(cfg, g, b, s); Logged(b, before, r) && r.issued + r.pending == s.issued + s.pending
    decreases |s.pending|
  {
    if s.inflight < MAX_INFLIGHT && s.pending != [] {
      var job := s.pending[0];
      SR.IssueRound(cfg, g, b, s);
      var (d, ok) := Device.Read(cfg, g, s.dev, AddrOf(b, job), 0, Some(job));
      if ok == Ok(true) {
        var s1 := ReadIsLogged(cfg, g, b, before, s);
        IssueIsLogged(cfg, g, b, before, s1);
        assert [job] + s.pending[1..] == s.pending;
        Assoc(s.issued, [job], s.pending[1..]);
      }
    }
  }

  lemma StepIsLogged<E>(cfg: Config, g: SpEng<E>, b: Dense, before: seq<Accepted<Job>>, s: Accel<E>)
    requires cfg.Valid() && s.dev.agenda != [] && Logged(b, before, s)
    ensures var r := Step(cfg, g, b, s); Logged(b, before, r) && r.issued + r.pending == s.issued + s.pending
  {
    var d := Pop(s.dev);
    match s.dev.agenda[0].what
    case Tick => TickAcceptsNothing(cfg, g, d, MaxBurst(cfg.period, d.now, NextTime(d.agenda), None));
    case IdleTick =>
    case Call(job, info) => CompletionIsLogged(cfg, g, b, before, s.(dev := d), info.addr, job);
    case User(_) =>
  }

  lemma CompletionIsLogged<E>(
    cfg: Config, g: SpEng<E>, b: Dense, before: seq<Accepted<Job>>, s: Accel<E>, addr: int, job: Job)
    requires Logged(b, before, s)
    ensures var r := OnComplete(cfg, g, b, s, addr, job);
            Logged(b, before, r) && r.issued + r.pending == s.issued + s.pending
  {
    var off := OffsetOf(addr);
    if SlicesAgree(b, off, job.t) && 0 <= off && 0 <= job.i < |s.acc| {
      var acc := s.acc[job.i := AddBlock(s.acc[job.i], job.t, job.v, BlockAt(b, off))];
      var s1 := s.(inflight := s.inflight - 1, acc := acc, finished := s.finished + [job]);
      assert OnComplete(cfg, g, b, s, addr, job) == Issue(cfg, g, b, s1);
      IssueIsLogged(cfg, g, b, before, s1);
    }
  }

  lemma {:induction false} RunIsLogged<E>(
    cfg: Config, g: SpEng<E>, b: Dense, before: seq<Accepted<Job>>, s: Accel<E>, n: nat)
    requires cfg.Valid() && Logged(b, before, s)
    ensures var r := Run(cfg, g, b, s, n); Logged(b, before, r) && r.issued + r.pending == s.issued + s.pending
    decreases n
  {
    if n > 0 && !s.raised && s.dev.agenda != [] {
      StepIsLogged(cfg, g, b, before, s);
      RunIsLogged(cfg, g, b, before, Step(cfg, g, b, s), n - 1);
    }
  }

  // -- Main results ----------------------------------------------------------------------------

  /** In every reachable state the accepted requests are reads of the first jobs of the list, in order, each at the
      address of its block; at the end of a run without an exception they are those of all jobs. */
  lemma EachBlockIsReadOnce<E(!new)>(
    cfg: Config, g: SpEng<E>, a: Csr, b: Dense, flight: Flight<E, Job>, d: SpDev<E>, n: nat)
    requires Chains.GoodEngine(cfg, g, flight) && WellFormed(a, b) && b.Valid()
    requires Chains.Quiet(cfg, g, d) && CoreOk(cfg, 0)
    ensures var s, jobs := Run(cfg, g, b, Start(cfg, g, a, b, d), n), JobsFrom(a, b, 0);
            && |d.accepted| <= |s.dev.accepted| <= |d.accepted| + |jobs|
            && s.dev.accepted[..|d.accepted|] == d.accepted
            && (forall i :: 0 <= i < |s.dev.accepted| - |d.accepted| ==>
                  var x := s.dev.accepted[|d.accepted| + i];
                  && x.addr == 0x10_0000 + (jobs[i].j * b.k + jobs[i].t) * 4
                  && x.kind == READ && x.user == Some(jobs[i]))
            && (!s.raised && s.dev.agenda == [] ==> |s.dev.accepted| == |d.accepted| + |jobs|)
  {
    RunOfListIsLogged(cfg, g, a, b, d, n);
    var s := Run(cfg, g, b, Start(cfg, g, a, b, d), n);
    LoggedMeans(b, d.accepted, s, JobsFrom(a, b, 0));
    SR.SpmmIsProduct(cfg, g, a, b, flight, d, n);
  }

  lemma RunOfListIsLogged<E>(cfg: Config, g: SpEng<E>, a: Csr, b: Dense, d: SpDev<E>, n: nat)
    requires cfg.Valid() && WellFormed(a, b) && b.Valid()
    ensures var s := Run(cfg, g, b, Start(cfg, g, a, b, d), n);
            Logged(b, d.accepted, s) && s.issued + s.pending == JobsFrom(a, b, 0)
  {
    var jobs := JobsFrom(a, b, 0);
    var s0 := Accel(d, jobs, 0, Zeros(RowCount(a), b.k), false, [], []);
    assert s0.issued + s0.pending == jobs;
    IssueIsLogged(cfg, g, b, d.accepted, s0);
    RunIsLogged(cfg, g, b, d.accepted, Start(cfg, g, a, b, d), n);
  }

  lemma LoggedMeans<E>(b: Dense, before: seq<Accepted<Job>>, s: Accel<E>, jobs: seq<Job>)
    requires Logged(b, before, s) && s.issued + s.pending == jobs
    ensures |before| <= |s.dev.accepted| <= |before| + |jobs| && s.dev.accepted[..|before|] == before
    ensures forall i :: 0 <= i < |s.dev.accepted| - |before| ==>
              var x := s.dev.accepted[|before| + i];
              x.addr == 0x10_0000 + (jobs[i].j * b.k + jobs[i].t) * 4 && x.kind == READ && x.user == Some(jobs[i])
    ensures s.pending == [] ==> |s.dev.accepted| == |before| + |jobs|
  {
    forall i | 0 <= i < |s.dev.accepted| - |before|
      ensures Asks(b, jobs[i], s.dev.accepted[|before| + i])
    {
      assert jobs[i] == s.issued[i];
    }
  }

  /** The accelerator stops issuing only with nothing left to issue, 16 reads in flight, or a read refused. */
  lemma {:induction false} IssueGoesOn<E>(cfg: Config, g: SpEng<E>, b: Dense, s: Accel<E>)
    requires CoreOk(cfg, 0)
    ensures var r := Issue(cfg, g, b, s);
            r.pending == [] || 16 <= r.inflight || exists e :: Refuses(g, b, e, r.pending[0], r.dev.mem)
    decreases |s.pending|
  {
    if s.inflight < MAX_INFLIGHT && s.pending != [] {
      var job := s.pending[0];
      SR.IssueRound(cfg, g, b, s);
      var (d, ok) := Device.Read(cfg, g, s.dev, AddrOf(b, job), 0, Some(job));
      if ok == Ok(true) {
        IssueGoesOn(cfg, g, b, s.(dev := d, pending := s.pending[1..], inflight := s.inflight + 1,
          issued := s.issued + [job]));
      } else {
        assert Refuses(g, b, s.dev.mem, job, d.mem);
      }
    }
  }

  ghost predicate Refuses<E>(g: SpEng<E>, b: Dense, e: E, job: Job, e1: E) {
    g.send(e, Request(0x10_0000 + (job.j * b.k + job.t) * 4, READ, 0, Record(0, Some(job)))) == (e1, false)
  }
}

/**
 Concrete runs on the toy engine: things that do happen, so that no theorem excludes them silently.
 */
module Witnesses {
  import opened Prelude
  import opened Agenda
  import E = Engine
  import D = Device
  import Drive
  import Chains
  import C = CoreEngine
  import M = MemorySystem
  import Sp = Spmm
  import SR = SpmmResult
  import T = ToyEngine

  /** A refresh queued during an idle batch makes the idle event hand over to the busy chain. */
  lemma HandOverHappens<C, U>() returns (cfg: D.Config, sh: T.Shape, d: D.Dev<T.Toy<C>, C, U>, r: D.Dev<T.Toy<C>, C, U>)
    ensures cfg.Valid() && cfg.idleRefresh && Chains.IsNew(cfg, T.Make(sh), d)
    ensures var d0 := Chains.Begun(cfg, d);
            && d0.agenda != [] && d0.agenda[0].what.IdleTick?
            && r == D.IdleBody(cfg, T.Make(sh), D.Pop(d0))
    ensures r.ticking && !r.idleTicking && r.agenda == [Entry(r.now + cfg.period, 0, D.Tag<C, U>.Tick)]
  {
    cfg := D.Config(1, 0, true, 1, 1);
    sh := T.Shape(1, 1, _ => 0, 1, 5);
    var g := T.Make<C>(sh);
    var e: T.Toy<C> := T.Toy(0, [], [], 0);
    d := D.Dev(0, [], e, 0, false, false, 1, [], [], [], [], [], 0);
    var d0 := Chains.Begun(cfg, d);
    assert d0.agenda == [Entry(1, 0, D.Tag<C, U>.IdleTick)];
    var p := D.Pop(d0);
    assert p.agenda == [];
    var e1 := T.Tick(sh, e).0;
    assert e1 == T.Toy(1, [], [], 5) && T.Tick(sh, e).1 == [];
    assert g.tick(e) == (e1, []);
    var none: seq<E.Served<C>> := [];
    assert E.TickN(g, e1, 0) == (e1, none) && none + none == none;
    assert E.TickN(g, e, 1) == (e1, none);
    r := D.IdleBody(cfg, g, p);
  }

  /** Two rows of width 1 and a nonzero in the first column: the only block of B is one element too long. */
  lemma NarrowOperandRaises(v: real) returns (cfg: D.Config, sh: T.Shape, a: Sp.Csr, b: Sp.Dense, e: T.Toy<Sp.Job>)
    ensures cfg.Valid() && !cfg.idleRefresh && D.CoreOk(cfg, 0)
    ensures Chains.GoodEngine(cfg, T.Make<Sp.Job>(sh), T.Flight<Sp.Job>())
    ensures Chains.Quiet(cfg, T.Make<Sp.Job>(sh), NewDev(e))
    ensures Sp.WellFormed(a, b) && b.Valid() && !SR.Aligned(a, b)
    ensures Sp.Run(cfg, T.Make(sh), b, Sp.Start(cfg, T.Make(sh), a, b, NewDev(e)), 2).raised
  {
    cfg := D.Config(1, 0, false, 1, 1);
    sh := T.Shape(1, 1, _ => 0, 0, 0);
    a, b := Sp.Csr([0, 1], [0], [v]), Sp.Dense(2, 1, [0.0, 0.0]);
    e := T.Toy(0, [], [], 0);
    T.ToyIsHonest<Sp.Job>(sh);
    assert !SR.Aligned(a, b) by {
      assert a.rows[0] <= 0 < a.rows[1] && a.cols[0] != b.n - 1;
    }
    var s := RaisingStart(cfg, sh, a, b, e, v);
    RaisingRun(cfg, sh, b, e, v, s);
  }

  /** A DRAM on a new simulator. */
  function NewDev(e: T.Toy<Sp.Job>): Sp.SpDev<T.Toy<Sp.Job>> {
    D.Dev(0, [], e, 0, false, false, 1, [], [], [], [], [], 0)
  }

  const FIRST_JOB := Sp.Job(0, 0, 0, 0.0)

  /** The one read is out, and the busy chain has begun. */
  lemma RaisingStart(
    cfg: D.Config, sh: T.Shape, a: Sp.Csr, b: Sp.Dense, e: T.Toy<Sp.Job>, v: real)
    returns (s: Sp.Accel<T.Toy<Sp.Job>>)
    requires cfg == D.Config(1, 0, false, 1, 1) && sh.readSlots == 1 && sh.delay(Sp.B_BASE) == 0
    requires a == Sp.Csr([0, 1], [0], [v]) && b == Sp.Dense(2, 1, [0.0, 0.0]) && e == T.Toy(0, [], [], 0)
    ensures Sp.WellFormed(a, b) && b.Valid() && s == Sp.Start(cfg, T.Make(sh), a, b, NewDev(e))
    ensures s.dev.agenda == [Entry(1, 0, D.Tag<Sp.Job, ()>.Tick)]
    ensures s.dev.completed == [] && s.pending == [] && !s.raised
    ensures s.dev.mem == T.Toy(0, [T.Slot(Sp.B_BASE, 0, 0, E.Record(0, Some(FIRST_JOB.(v := v))), 0)], [], 0)
    ensures s.dev.ticking && s.dev.now == 0
  {
    var job := FIRST_JOB.(v := v);
    assert Sp.BlockJobs(1, 0, 0, v, 0) == [job] by {
      assert Sp.BlockJobs(1, 0, 0, v, 16) == [];
    }
    assert Sp.RowJobs(a, 1, 0, 0, 1) == [job] by {
      assert Sp.RowJobs(a, 1, 0, 1, 1) == [];
    }
    assert Sp.JobsFrom(a, b, 0) == [job] by {
      assert Sp.JobsFrom(a, b, 1) == [];
    }
    var g := T.Make<Sp.Job>(sh);
    var d := NewDev(e);
    var s0 := Sp.Accel(d, [job], 0, Sp.Zeros(1, 1), false, [], []);
    var e1 := T.Toy(0, [T.Slot(Sp.B_BASE, 0, 0, E.Record(0, Some(job)), 0)], [], 0);
    var req := E.Request(Sp.B_BASE, E.READ, 0, E.Record(0, Some(job)));
    assert e.queue + e1.queue == e1.queue;
    assert g.send(e, req) == T.Send(sh, e, req) == (e1, true);
    var (d1, ok) := D.Read(cfg, g, d, Sp.B_BASE, 0, Some(job));
    assert ok == Ok(true) && d1.mem == e1;
    SR.IssueRound(cfg, g, b, s0);
    assert Sp.AddrOf(b, job) == Sp.B_BASE && [job][1..] == [];
    s := Sp.Accel(d1, [], 1, Sp.Zeros(1, 1), false, [job], []);
    assert [] + [job] == [job] && Sp.Issue(cfg, g, b, s) == s;
    assert Sp.Issue(cfg, g, b, s0) == s;
    assert Sp.Start(cfg, g, a, b, NewDev(e)) == Sp.Issue(cfg, g, b, s0);
  }

  /** One tick brings the completion, and its callback finds 2 elements for a row of 1. */
  lemma RaisingRun(cfg: D.Config, sh: T.Shape, b: Sp.Dense, e: T.Toy<Sp.Job>, v: real, s: Sp.Accel<T.Toy<Sp.Job>>)
    requires cfg == D.Config(1, 0, false, 1, 1) && sh.refreshEvery == 0
    requires b == Sp.Dense(2, 1, [0.0, 0.0])
    requires s.dev.agenda == [Entry(1, 0, D.Tag<Sp.Job, ()>.Tick)] && s.dev.completed == [] && !s.raised
    requires s.dev.mem == T.Toy(0, [T.Slot(Sp.B_BASE, 0, 0, E.Record(0, Some(FIRST_JOB.(v := v))), 0)], [], 0)
    ensures Sp.Run(cfg, T.Make(sh), b, s, 2).raised
  {
    var g := T.Make<Sp.Job>(sh);
    var job := FIRST_JOB.(v := v);
    var info := E.Info(Sp.B_BASE, E.READ, 0, 1, 0);
    var e1: T.Toy<Sp.Job> := T.Toy(1, [], [], 0);
    var served: E.Served<Sp.Job> := E.Served(Sp.B_BASE, E.READ, 0, 1, 0, E.Record(0, Some(job)));
    var slot := T.Slot(Sp.B_BASE, 0, 0, E.Record(0, Some(job)), 0);
    var rest: seq<T.Slot<Sp.Job>> := [slot][1..];
    assert rest == [] && T.Due(1, [slot]) == [served] + T.Due(1, rest) == [served] && T.Waiting([slot]) == [];
    assert g.tick(s.dev.mem) == T.Tick(sh, s.dev.mem) == (e1, [served]);
    assert E.Recorded([served]) == [E.Note(info, Some(job))] by {
      var none: seq<E.Served<Sp.Job>> := [served][1..];
      assert none == [];
    }
    var d := D.Pop(s.dev);
    assert d.agenda == [];
    var max := D.MaxBurst(1, 1, None, None);
    assert E.UntilProgress(g, d.mem, max) == E.Burst(e1, 1, [E.Note(info, Some(job))]);
    var note := E.Note(info, Some(job));
    var adv := D.Advance(cfg, d, E.Burst(e1, 1, [note]));
    assert adv.completed == [] + [note] == [note] && adv.now == 1 && adv.agenda == [];
    var out := D.Post(cfg, adv.(completed := [note][1..]), job, info);
    assert D.Deliver(cfg, adv) == D.Deliver(cfg, out) == out;
    assert g.pending(e1) == T.Pending(e1) == 0;
    var s1 := Sp.Step(cfg, g, b, s);
    assert s1.dev.agenda == [Entry(1, 0, D.Tag<Sp.Job, ()>.Call(job, info))];
    var s2 := Sp.Step(cfg, g, b, s1);
    assert s2.raised;
  }

  // -- Callbacks that raise --------------------------------------------------------------

  /** Notes down its address, and raises for address 0. */
  function Touchy(): M.Call<seq<int>, ()> {
    (told: seq<int>, n: E.Note<()>) => (told + [n.info.addr], if n.info.addr == 0 then Some(7) else None)
  }

  /** Both writes are accepted; the callback of the first raises, and the second is never told. */
  method WriteGoesUntold() returns (r: M.Outcome<seq<bool>>, told: seq<int>, pending: nat)
    ensures r == M.Threw(7) && told == [0] && pending == 2
  {
    var g := T.Make<()>(T.Shape(0, 2, _ => 0, 0, 0));
    var e: T.Toy<()> := T.Toy(0, [], [], 0);
    var callback := new M.Handler(Some(()));
    var mem := new M.MemorySystem<seq<int>, T.Toy<()>, ()>(g, e, Touchy(), 1, 64, []);
    BothAccepted(g, e);
    r := mem.SendBatch([0, 64], E.WRITE, 0, callback);
    FirstRaises();
    told, pending := mem.host, mem.Pending();
  }

  lemma BothAccepted(g: E.Engine<T.Toy<()>, ()>, e: T.Toy<()>)
    requires g == T.Make<()>(T.Shape(0, 2, _ => 0, 0, 0)) && e == T.Toy(0, [], [], 0)
    ensures C.SendMany(g, e, C.Requests([0, 64], E.WRITE, 0, E.NoOp)) == (T.Toy(0, [], [0, 0], 0), [true, true])
  {
    var sh := T.Shape(0, 2, _ => 0, 0, 0);
    var r0: E.Request<()>, r1: E.Request<()> := E.Request(0, E.WRITE, 0, E.NoOp), E.Request(64, E.WRITE, 0, E.NoOp);
    assert [0, 64][1..] == [64] && [64][1..] == [];
    assert C.Requests([64], E.WRITE, 0, E.NoOp) == [r1] + [] == [r1];
    assert C.Requests([0, 64], E.WRITE, 0, E.NoOp) == [r0] + [r1] == [r0, r1];
    var e1, e2 := e.(writing := [0]), e.(writing := [0, 0]);
    assert g.send(e, r0) == T.Send(sh, e, r0) == (e1, true) by {
      assert e.writing + [0] == [0];
    }
    assert g.send(e1, r1) == T.Send(sh, e1, r1) == (e2, true) by {
      assert [0] + [0] == [0, 0];
    }
    assert [r0, r1][1..] == [r1] && [r1][1..] == [r1][..0];
    var none: seq<bool> := [];
    assert C.SendMany(g, e2, [r1][..0]) == (e2, none) && [true] + none == [true];
    assert C.SendMany(g, e1, [r1]) == (e2, [true]) && [true] + [true] == [true, true];
  }

  lemma FirstRaises()
    ensures M.WritesFired(Touchy(), [], [0, 64], [true, true], 0, 0, Some(())) == ([0], Some(7))
  {
    var h: seq<int>, n := [], E.WriteNote(0, 0, 0, Some(()));
    assert Touchy()(h, n) == (h + [0], Some(7)) && h + [0] == [0];
  }

  /** Two cycles, a read served in each, and the callback of the first raises: `run(2)` goes through both cycles and
      tells both reads, while ticking stops in the first cycle and does not count it. */
  lemma RaisingRunIsNotTicks() returns (g: E.Engine<T.Toy<()>, ()>, m: M.Mem<seq<int>, T.Toy<()>>)
    ensures M.RunOf(g, Touchy(), m, 2) == (M.Mem([0, 64], T.Toy(2, [], [], 0), 2), Some(7))
    ensures exists e :: M.Ticks(g, Touchy(), m, 2) == (M.Mem([0], e, 0), Some(7))
  {
    var sh := T.Shape(2, 0, _ => 0, 0, 0);
    g := T.Make<()>(sh);
    var k := E.Record(0, Some(()));
    var early, late := T.Slot(0, 0, 0, k, 0), T.Slot(64, 0, 0, k, 1);
    var e0, e1, e2 := T.Toy(0, [early, late], [], 0), T.Toy(1, [late.(left := 0)], [], 0), T.Toy<()>.Toy(2, [], [], 0);
    m := M.Mem([], e0, 0);
    var s1, s2 := E.Served(0, E.READ, 0, 1, 0, k), E.Served(64, E.READ, 0, 2, 0, k);
    EarlyThenLate(sh, early, late, s1, s2);
    assert g.tick(e0) == (e1, [s1]) && g.tick(e1) == (e2, [s2]);
    var n1, n2 := E.Note(E.Info(0, E.READ, 0, 1, 0), Some(())), E.Note(E.Info(64, E.READ, 0, 2, 0), Some(()));
    var none: seq<E.Served<()>>, quiet: seq<E.Note<()>> := [], [];
    assert E.Recorded([s1]) == [n1] && E.Recorded([s1, s2]) == [n1, n2] by {
      assert [s1][1..] == none && [s1, s2][1..] == [s2] && [s2][1..] == none;
    }
    assert E.TickN(g, e0, 2) == (e2, [s1, s2]) by {
      assert E.TickN(g, e1, 1) == (e2, [s2] + []) && [s1] + [s2] == [s1, s2];
    }
    assert M.Dispatched(Touchy(), [], [n1]) == ([0], Some(7)) by {
      assert [n1][1..] == quiet && [] + [0] == [0];
    }
    assert M.Dispatched(Touchy(), [], [n1, n2]) == ([0, 64], Some(7)) by {
      assert [n1, n2][1..] == [n2] && [n2][1..] == quiet && [0] + [64] == [0, 64];
    }
  }

  lemma EarlyThenLate(sh: T.Shape, early: T.Slot<()>, late: T.Slot<()>, s1: E.Served<()>, s2: E.Served<()>)
    requires sh.refreshEvery == 0
    requires early == T.Slot(0, 0, 0, early.closure, 0) && late == T.Slot(64, 0, 0, early.closure, 1)
    requires s1 == E.Served(0, E.READ, 0, 1, 0, early.closure) && s2 == E.Served(64, E.READ, 0, 2, 0, early.closure)
    ensures T.Tick(sh, T.Toy(0, [early, late], [], 0)) == (T.Toy(1, [late.(left := 0)], [], 0), [s1])
    ensures T.Tick(sh, T.Toy(1, [late.(left := 0)], [], 0)) == (T.Toy(2, [], [], 0), [s2])
  {
    var nil, last := [late][..0], late.(left := 0);
    assert [early, late][1..] == [late] && [late][1..] == nil == [last][1..];
    assert T.Due(1, [late]) == [] + T.Due(1, nil) == [] && T.Due(1, [early, late]) == [s1] + [] == [s1];
    assert T.Waiting([late]) == [last] + T.Waiting(nil) == [last];
    assert T.Waiting([early, late]) == [] + T.Waiting([late]) == [last];
    assert T.Due(2, [last]) == [s2] + T.Due(2, nil) == [s2];
    assert T.Waiting([last]) == [] + T.Waiting(nil) == [];
  }

  // -- Drives ------------------------------------------------------------------------------

  const COUNTED: E.Closure<()> := E.Counted(None)

  /** `n` reads of an earlier drive, all about to be served. */
  function Leftovers(n: nat): seq<T.Slot<()>> {
    if n == 0 then [] else [T.Slot(0, 0, 0, COUNTED, 0)] + Leftovers(n - 1)
  }

  /** With any positive number of requests of an earlier drive in the engine, their completions can end a drive of one
      request: it returns within its budget and leaves its own request in the engine. */
  lemma LeftoverEndsDrive(n: nat) returns (sh: T.Shape, j: Drive.Job<()>, e: T.Toy<()>, end: Drive.State<T.Toy<()>, ()>)
    requires 1 <= n
    ensures j.Valid() && j.total == 1 && T.Make<()>(sh).pending(e) == n
    ensures Drive.Lists(T.Flight<()>(), e, [None]) && Drive.InDrive(T.Flight<()>(), e, [None]) == n
    ensures end == Drive.Driven(T.Make<()>(sh), j, Drive.Begin(e, []))
    ensures end.issued == 1 <= end.count && end.cycles < j.budget
    ensures T.Make<()>(sh).pending(end.mem) == |end.mem.queue| == 1 && end.mem.queue[0].addr == 64
  {
    sh := T.Shape(n + 1, 0, addr => if addr == 0 then 0 else 5, 0, 0);
    j := Drive.Job(1, 2, 1, 100, None, Drive.ListAddr([64]));
    var g := T.Make<()>(sh);
    var own := T.Slot(64, 0, 0, COUNTED, 5);
    e := T.Toy(0, Leftovers(n), [], 0);
    var e1, e2 := T.Toy(0, Leftovers(n) + [own], [], 0), T.Toy(1, [own.(left := 4)], [], 0);
    LeftoversAreLeft(n);
    assert Drive.InDrive(T.Flight<()>(), e, [None]) == n by {
      var none: seq<Option<()>> := [];
      assert [None][1..] == none && T.Flight<()>()(e, COUNTED) == T.Under(Leftovers(n), COUNTED);
    }
    var s0: Drive.State<T.Toy<()>, ()> := Drive.Begin(e, []);
    var s1 := s0.(mem := e1, issued := 1, ops := [Drive.Send(64)]);
    assert Drive.Fill(g, j, s0) == Drive.Fill(g, j, s1) == s1 by {
      assert g.send(e, Drive.DriveRequest(j, 0)) == (e1, true);
      assert s0.ops + [Drive.Send(64)] == [Drive.Send(64)];
    }
    assert Drive.Issue(g, j, s0) == Drive.Issue(g, j, s1) == s1;
    LeftoversAreServed(n, own);
    end := s1.(mem := e2, count := n, cycles := 1, ops := [Drive.Send(64), Drive.Tick]);
    assert Drive.Cycle(g, s1) == end by {
      var quiet: seq<E.Note<()>> := [];
      assert g.tick(e1) == T.Tick(sh, e1) && E.Recorded(T.Due(1, e1.queue)) == quiet && s1.notes + quiet == s1.notes;
    }
    assert Drive.Drain(g, j, s1) == Drive.Drain(g, j, end) == end;
  }

  lemma {:induction false} LeftoversAreLeft(n: nat)
    ensures |Leftovers(n)| == n == |T.Under(Leftovers(n), COUNTED)|
    ensures forall u: Option<()> :: u != None ==> T.Under(Leftovers(n), E.Counted(u)) == multiset{}
  {
    if n > 0 {
      LeftoversAreLeft(n - 1);
      assert Leftovers(n)[1..] == Leftovers(n - 1);
    }
  }

  /** One cycle serves them all, with nothing to record; the new request waits on. */
  lemma {:induction false} LeftoversAreServed(n: nat, own: T.Slot<()>)
    requires own == T.Slot(64, 0, 0, COUNTED, 5)
    ensures var s := T.Due(1, Leftovers(n) + [own]); E.Bumps(s) == n && E.Recorded(s) == []
    ensures T.Waiting(Leftovers(n) + [own]) == [own.(left := 4)]
  {
    if n == 0 {
      var nil := [own][..0];
      assert Leftovers(0) + [own] == [own] && [own][1..] == nil;
      assert T.Due(1, [own]) == [] + T.Due(1, nil) == [];
      assert T.Waiting([own]) == [own.(left := 4)] + T.Waiting(nil) == [own.(left := 4)];
    } else {
      LeftoversAreServed(n - 1, own);
      var q, rest := Leftovers(n) + [own], Leftovers(n - 1) + [own];
      assert q[1..] == rest && q[0].left == 0;
      assert T.Due(1, q)[1..] == T.Due(1, rest);
    }
  }
}

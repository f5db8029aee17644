/**
 The C++ wrapper around the engine: an object with a completion deque, and the loops over it.
 */
module CoreEngine {
  import opened Prelude
  import opened Engine
  import Drive

  /** The addresses of `send_range`, as a running sum. */
  function RunningSum(start: int, count: nat, stride: int): seq<int>
    decreases count
  {
    if count == 0 then [] else [start] + RunningSum(start + stride, count - 1, stride)
  }

  /** Sending one request after the other: the engine and the accept flags. */
  function SendMany<E, C>(g: Engine<E, C>, e: E, rs: seq<Request<C>>): (E, seq<bool>)
    decreases |rs|
  {
    if rs == [] then (e, [])
    else
      var (e1, ok) := g.send(e, rs[0]);
      var (e2, oks) := SendMany(g, e1, rs[1..]);
      (e2, [ok] + oks)
  }

  function Requests<C>(addrs: seq<int>, kind: Kind, core: int, k: Closure<C>): seq<Request<C>> {
    if addrs == [] then [] else [Request(addrs[0], kind, core, k)] + Requests(addrs[1..], kind, core, k)
  }

  /** The i-th flag of a batch is the answer to the i-th request alone, after those before it. */
  lemma {:induction false} EachIsSent<E, C>(
    g: Engine<E, C>, e: E, addrs: seq<int>, kind: Kind, core: int, k: Closure<C>, i: nat)
    requires i < |addrs|
    ensures var all := SendMany(g, e, Requests(addrs, kind, core, k));
            var before := SendMany(g, e, Requests(addrs[..i], kind, core, k)).0;
            && |all.1| == |addrs|
            && all.1[i] == g.send(before, Request(addrs[i], kind, core, k)).1
            && SendMany(g, e, Requests(addrs[..i + 1], kind, core, k)).0 ==
               g.send(before, Request(addrs[i], kind, core, k)).0
    decreases |addrs|
  {
    var e1 := g.send(e, Request(addrs[0], kind, core, k)).0;
    assert Requests(addrs, kind, core, k)[1..] == Requests(addrs[1..], kind, core, k);
    SendOneMore(g, e, addrs, kind, core, k, i);
    if |addrs| > 1 {
      EachIsSent(g, e1, addrs[1..], kind, core, k, if i > 0 then i - 1 else 0);
    }
  }

  /** The engine after the requests up to `i`, by the first of them. */
  lemma SendOneMore<E, C>(g: Engine<E, C>, e: E, addrs: seq<int>, kind: Kind, core: int, k: Closure<C>, i: nat)
    requires i < |addrs|
    ensures var e1 := g.send(e, Request(addrs[0], kind, core, k)).0;
            && (i > 0 ==> SendMany(g, e, Requests(addrs[..i], kind, core, k)).0 ==
                          SendMany(g, e1, Requests(addrs[1..][..i - 1], kind, core, k)).0)
            && SendMany(g, e, Requests(addrs[..i + 1], kind, core, k)).0 ==
               SendMany(g, e1, Requests(addrs[1..][..i], kind, core, k)).0
  {
    assert addrs[..i + 1][1..] == addrs[1..][..i] && addrs[..i + 1][0] == addrs[0];
    assert Requests(addrs[..i + 1], kind, core, k)[1..] == Requests(addrs[1..][..i], kind, core, k);
    if i > 0 {
      assert addrs[..i][1..] == addrs[1..][..i - 1] && addrs[..i][0] == addrs[0];
      assert Requests(addrs[..i], kind, core, k)[1..] == Requests(addrs[1..][..i - 1], kind, core, k);
    }
  }

  /** Loops over a negative count do not run. */
  function Count(n: int): nat {
    if n < 0 then 0 else n
  }

  /** `run_until_idle`: how many cycles it takes. */
  function IdleCycles<E, C>(g: Engine<E, C>, e: E, max: nat): (n: nat)
    ensures n <= max
  {
    if max == 0 || g.pending(e) == 0 then 0 else 1 + IdleCycles(g, g.tick(e).0, max - 1)
  }

  /** It stops at the first idle cycle, or at the bound. */
  lemma {:induction false} IdleCyclesIsFirst<E, C>(g: Engine<E, C>, e: E, max: nat)
    ensures var n := IdleCycles(g, e, max);
            && (n == max || g.pending(TickN(g, e, n).0) == 0)
            && forall k :: 0 <= k < n ==> g.pending(TickN(g, e, k).0) > 0
  {
    if max > 0 && g.pending(e) > 0 {
      var e1 := g.tick(e).0;
      IdleCyclesIsFirst(g, e1, max - 1);
      var n := IdleCycles(g, e1, max - 1);
      assert TickN(g, e, n + 1).0 == TickN(g, e1, n).0;
      forall k | 0 <= k < n + 1
        ensures g.pending(TickN(g, e, k).0) > 0
      {
        assert k > 0 ==> TickN(g, e, k).0 == TickN(g, e1, k - 1).0;
      }
    }
  }

  // -- Loops from the middle on, guarded by `Inside` ----------------------------------------

  /** After accept flags `accepted`, with `rest` still to send, a batch `all` that began with engine `e0`. */
  ghost predicate Sending<E, C>(
    g: Engine<E, C>, e0: E, all: seq<Request<C>>, e: E, rest: seq<Request<C>>, accepted: seq<bool>)
  {
    forall u :: Inside(Layer.Runs, u) ==>
      SendMany(g, e0, all) == (SendMany(g, e, rest).0, accepted + SendMany(g, e, rest).1)
  }

  lemma SendingStarts<E, C>(g: Engine<E, C>, e: E, all: seq<Request<C>>)
    ensures Sending(g, e, all, e, all, [])
  {
    assert [] + SendMany(g, e, all).1 == SendMany(g, e, all).1;
  }

  lemma SendingStep<E, C>(
    g: Engine<E, C>, e0: E, all: seq<Request<C>>, e: E, rest: seq<Request<C>>, accepted: seq<bool>)
    requires Sending(g, e0, all, e, rest, accepted) && rest != []
    ensures var (e1, ok) := g.send(e, rest[0]); Sending(g, e0, all, e1, rest[1..], accepted + [ok])
  {
    assert Inside(Layer.Runs, true);
    var (e1, ok) := g.send(e, rest[0]);
    var oks := SendMany(g, e1, rest[1..]).1;
    assert accepted + ([ok] + oks) == (accepted + [ok]) + oks;
  }

  lemma SendingEnds<E, C>(g: Engine<E, C>, e0: E, all: seq<Request<C>>, e: E, accepted: seq<bool>)
    requires Sending(g, e0, all, e, [], accepted)
    ensures (e, accepted) == SendMany(g, e0, all)
  {
    assert Inside(Layer.Runs, true);
    assert accepted + [] == accepted;
  }

  lemma RequestsStep<C>(addrs: seq<int>, kind: Kind, core: int, k: Closure<C>)
    ensures addrs != [] ==>
              var rs := Requests(addrs, kind, core, k);
              rs != [] && rs[0] == Request(addrs[0], kind, core, k) && rs[1..] == Requests(addrs[1..], kind, core, k)
  {
  }

  lemma RunningStep(start: int, count: nat, stride: int)
    ensures count > 0 ==>
              var rs := RunningSum(start, count, stride);
              rs != [] && rs[0] == start && rs[1..] == RunningSum(start + stride, count - 1, stride)
  {
  }

  /** `n` cycles after engine `e0` with completions `c0`. */
  ghost predicate Ticked<E, C>(g: Engine<E, C>, e0: E, c0: seq<Note<C>>, n: nat, e: E, c: seq<Note<C>>) {
    forall u :: Inside(Layer.Runs, u) ==> e == TickN(g, e0, n).0 && c == c0 + Recorded(TickN(g, e0, n).1)
  }

  lemma TickedStarts<E, C>(g: Engine<E, C>, e: E, c: seq<Note<C>>)
    ensures Ticked(g, e, c, 0, e, c)
  {
    assert c + [] == c;
  }

  lemma TickedStep<E, C>(g: Engine<E, C>, e0: E, c0: seq<Note<C>>, n: nat, e: E, c: seq<Note<C>>)
    requires Ticked(g, e0, c0, n, e, c)
    ensures Ticked(g, e0, c0, n + 1, g.tick(e).0, c + Recorded(g.tick(e).1))
  {
    assert Inside(Layer.Runs, true);
    var e1, c1 := TickN(g, e0, n + 1).0, Recorded(TickN(g, e0, n + 1).1);
    OneMore(g, e0, n);
    Assoc(c0, Recorded(TickN(g, e0, n).1), Recorded(g.tick(e).1));
    assert e1 == g.tick(e).0 && c0 + c1 == c + Recorded(g.tick(e).1);
  }

  lemma TickedMeans<E, C>(g: Engine<E, C>, e0: E, c0: seq<Note<C>>, n: nat, e: E, c: seq<Note<C>>)
    requires Ticked(g, e0, c0, n, e, c)
    ensures e == TickN(g, e0, n).0 && c == c0 + Recorded(TickN(g, e0, n).1)
  {
    assert Inside(Layer.Runs, true);
  }

  class PyMemorySystem<E, C> {
    const g: Engine<E, C>
    var mem: E
    var completed: seq<Note<C>>
    var completedCount: int

    constructor (g: Engine<E, C>, mem: E)
      ensures this.g == g && this.mem == mem && completed == [] && completedCount == 0
    {
      this.g, this.mem, completed, completedCount := g, mem, [], 0;
    }

    /** One engine cycle; the closures of what it serves run at once. */
    method Tick()
      modifies this
      ensures mem == g.tick(old(mem)).0
      ensures completed == old(completed) + Recorded(g.tick(old(mem)).1)
      ensures completedCount == old(completedCount) + Bumps(g.tick(old(mem)).1)
    {
      var (e, served) := g.tick(mem);
      mem := e;
      completed := completed + Recorded(served);
      completedCount := completedCount + Bumps(served);
    }

    method DrainCompleted() returns (out: seq<Note<C>>)
      modifies this`completed
      ensures out == old(completed) && completed == []
    {
      out := [];
      while completed != []
        invariant out + completed == old(completed)
        decreases |completed|
      {
        out := out + [completed[0]];
        completed := completed[1..];
      }
    }

    method Send(addr: int, kind: Kind, core: int, closure: Closure<C>) returns (ok: bool)
      modifies this`mem
      ensures (mem, ok) == g.send(old(mem), Request(addr, kind, core, closure))
    {
      var (e, accepted) := g.send(mem, Request(addr, kind, core, closure));
      mem, ok := e, accepted;
    }

    method SendBatch(addrs: seq<int>, kind: Kind, core: int, closure: Closure<C>) returns (accepted: seq<bool>)
      modifies this`mem
      ensures (mem, accepted) == SendMany(g, old(mem), Requests(addrs, kind, core, closure))
    {
      accepted := [];
      var i := 0;
      ghost var all, rest := Requests(addrs, kind, core, closure), Requests(addrs, kind, core, closure);
      assert addrs[0..] == addrs;
      SendingStarts(g, mem, all);
      while i < |addrs|
        invariant i <= |addrs| && rest == Requests(addrs[i..], kind, core, closure)
        invariant Sending(g, old(mem), all, mem, rest, accepted)
      {
        RequestsStep(addrs[i..], kind, core, closure);
        assert addrs[i..][1..] == addrs[i + 1..];
        var ok := SendNext(addrs[i], kind, core, closure, old(mem), all, rest, accepted);
        rest := rest[1..];
        accepted := accepted + [ok];
        i := i + 1;
      }
      SendingEnds(g, old(mem), all, mem, accepted);
    }

    /** The next send of a batch. */
    method SendNext(addr: int, kind: Kind, core: int, closure: Closure<C>,
                    ghost e0: E, ghost all: seq<Request<C>>, ghost rest: seq<Request<C>>, ghost accepted: seq<bool>)
      returns (ok: bool)
      requires rest != [] && rest[0] == Request(addr, kind, core, closure)
      requires Sending(g, e0, all, mem, rest, accepted)
      modifies this`mem
      ensures Sending(g, e0, all, mem, rest[1..], accepted + [ok])
    {
      SendingStep(g, e0, all, mem, rest, accepted);
      ok := Send(addr, kind, core, closure);
    }

    /** The address is a running sum, never a product. */
    method SendRange(
      start: int, count: int, stride: int, kind: Kind, core: int, closure: Closure<C>) returns (accepted: seq<bool>)
      modifies this`mem
      ensures (mem, accepted) ==
              SendMany(g, old(mem), Requests(RunningSum(start, Count(count), stride), kind, core, closure))
    {
      accepted := [];
      var addr, i := start, 0;
      ghost var all := Requests(RunningSum(start, Count(count), stride), kind, core, closure);
      ghost var rest := all;
      SendingStarts(g, mem, all);
      while i < count
        invariant i <= Count(count)
        invariant rest == Requests(RunningSum(addr, Count(count) - i, stride), kind, core, closure)
        invariant Sending(g, old(mem), all, mem, rest, accepted)
      {
        RequestsStep(RunningSum(addr, Count(count) - i, stride), kind, core, closure);
        RunningStep(addr, Count(count) - i, stride);
        var ok := SendNext(addr, kind, core, closure, old(mem), all, rest, accepted);
        rest := rest[1..];
        accepted := accepted + [ok];
        i, addr := i + 1, addr + stride;
      }
      SendingEnds(g, old(mem), all, mem, accepted);
    }

    /** One cycle of a bulk run that began with engine `e0` and completions `c0`. */
    method TickNext(ghost e0: E, ghost c0: seq<Note<C>>, ghost n: nat)
      requires Ticked(g, e0, c0, n, mem, completed)
      modifies this
      ensures Ticked(g, e0, c0, n + 1, mem, completed) && mem == g.tick(old(mem)).0
    {
      TickedStep(g, e0, c0, n, mem, completed);
      Tick();
    }

    /** Bulk ticking is ticking, with the completions in one batch; the requested count is returned as given. */
    method Run(cycles: int) returns (n: int, out: seq<Note<C>>)
      modifies this
      ensures n == cycles && mem == TickN(g, old(mem), Count(cycles)).0 && completed == []
      ensures out == old(completed) + Recorded(TickN(g, old(mem), Count(cycles)).1)
    {
      var i := 0;
      TickedStarts(g, mem, completed);
      while i < cycles
        invariant i <= Count(cycles) && Ticked(g, old(mem), old(completed), i, mem, completed)
      {
        TickNext(old(mem), old(completed), i);
        i := i + 1;
      }
      TickedMeans(g, old(mem), old(completed), Count(cycles), mem, completed);
      out := DrainCompleted();
      n := cycles;
    }

    method RunUntilIdle(max: int) returns (n: nat, out: seq<Note<C>>)
      modifies this
      ensures n == IdleCycles(g, old(mem), Count(max)) && mem == TickN(g, old(mem), n).0 && completed == []
      ensures out == old(completed) + Recorded(TickN(g, old(mem), n).1)
    {
      n := 0;
      TickedStarts(g, mem, completed);
      while n < max && g.pending(mem) > 0
        invariant n <= Count(max) && Ticked(g, old(mem), old(completed), n, mem, completed)
        invariant n + IdleCycles(g, mem, Count(max) - n) == IdleCycles(g, old(mem), Count(max))
      {
        TickNext(old(mem), old(completed), n);
        n := n + 1;
      }
      TickedMeans(g, old(mem), old(completed), n, mem, completed);
      out := DrainCompleted();
    }

    /** With nothing recorded on entry, the loop is `UntilProgress`; otherwise what is recorded stops it after one
        cycle. */
    method RunUntilProgress(max: int) returns (n: nat, out: seq<Note<C>>)
      modifies this
      ensures completed == []
      ensures max < 1 ==> n == 0 && out == old(completed) && mem == old(mem)
      ensures 1 <= max ==>
                Burst(mem, n, out) ==
                  if old(completed) == [] then UntilProgress(g, old(mem), max)
                  else
                    var (e, s) := g.tick(old(mem));
                    Burst(e, 1, old(completed) + Recorded(s))
    {
      n := 0;
      while n < max
        invariant n <= Count(max) && (n == 0 ==> mem == old(mem) && completed == old(completed))
        invariant n > 0 ==> completed == [] && old(completed) == []
        invariant 0 < n < max ==>
                    UntilProgress(g, old(mem), max) ==
                      UntilProgress(g, mem, max - n).(cycles := n + UntilProgress(g, mem, max - n).cycles)
        invariant n == max && 1 <= max ==> Burst(mem, n, []) == UntilProgress(g, old(mem), max)
      {
        Tick();
        n := n + 1;
        if completed != [] || g.pending(mem) == 0 {
          break;
        }
      }
      out := DrainCompleted();
    }

    /** The loop's variables as the specification sees them. */
    ghost function Now(cycles: int, issued: int, ops: seq<Drive.Op>): Drive.State<E, C>
      reads this
    {
      Drive.State(mem, completed, completedCount, cycles, issued, ops)
    }

    /** Fill the window while slots are available. */
    method FillWindow(
      j: Drive.Job<C>, cycles: int, from: int, ghost before: seq<Drive.Op>)
      returns (issued: int, ghost ops: seq<Drive.Op>)
      modifies this
      ensures Now(cycles, issued, ops) == Drive.Fill(g, j, old(Now(cycles, from, before)))
    {
      issued, ops := from, before;
      while issued < j.total && issued - completedCount < j.depth
        invariant completedCount == old(completedCount) && completed == old(completed)
        invariant Drive.Fill(g, j, Now(cycles, issued, ops)) == Drive.Fill(g, j, old(Now(cycles, from, before)))
        decreases j.total - issued
      {
        ops := ops + [Drive.Send(j.addr(issued))];
        var ok := Send(j.addr(issued), READ, 0, Counted(j.cb));
        if !ok {
          break;
        }
        issued := issued + 1;
      }
    }

    /** Advance a batch of cycles without send attempts. */
    method RunBatch(
      j: Drive.Job<C>, from: int, issued: int, ghost before: seq<Drive.Op>)
      returns (cycles: int, ghost ops: seq<Drive.Op>)
      modifies this
      ensures Now(cycles, issued, ops) == Drive.Batch(g, j, old(Now(from, issued, before)), j.batch)
    {
      cycles, ops := from, before;
      var ticks := 0;
      while ticks < j.batch && issued < j.total && cycles < j.budget
        invariant ticks <= j.batch || ticks == 0
        invariant Drive.Batch(g, j, Now(cycles, issued, ops), j.batch - ticks) ==
                  Drive.Batch(g, j, old(Now(from, issued, before)), j.batch)
        decreases j.batch - ticks
      {
        Tick();
        cycles, ticks, ops := cycles + 1, ticks + 1, ops + [Drive.Tick];
      }
    }

    /** Drain what is in flight after the last request. */
    method DrainWindow(
      j: Drive.Job<C>, from: int, issued: int, ghost before: seq<Drive.Op>)
      returns (cycles: int, ghost ops: seq<Drive.Op>)
      modifies this
      ensures Now(cycles, issued, ops) == Drive.Drain(g, j, old(Now(from, issued, before)))
    {
      cycles, ops := from, before;
      while issued - completedCount > 0 && cycles < j.budget
        invariant Drive.Drain(g, j, Now(cycles, issued, ops)) == Drive.Drain(g, j, old(Now(from, issued, before)))
        decreases j.budget - cycles
      {
        Tick();
        cycles, ops := cycles + 1, ops + [Drive.Tick];
      }
    }

    /** The drive, against `Driven`; arguments that are not positive are rejected before anything happens. */
    method DriveLoop(j: Drive.Job<C>) returns (r: Result<(int, int, seq<Note<C>>)>)
      modifies this
      ensures r.Raised? <==> !j.Valid()
      ensures r.Raised? ==> mem == old(mem) && completed == old(completed)
      ensures r.Ok? ==>
                var end := Drive.Driven(g, j, Drive.Begin(old(mem), old(completed)));
                && mem == end.mem && completed == [] && completedCount == end.count
                && r.value == (end.cycles, end.issued, end.notes)
    {
      if j.depth < 1 || j.batch < 1 {
        return Raised;
      }
      completedCount := 0;
      var issued, cycles := 0, 0;
      ghost var ops := [];
      ghost var s0 := Now(0, 0, []);
      while issued < j.total && cycles < j.budget
        invariant Drive.Issue(g, j, Now(cycles, issued, ops)) == Drive.Issue(g, j, s0)
        decreases if issued < j.total && cycles < j.budget then j.budget - cycles else 0
      {
        issued, ops := FillWindow(j, cycles, issued, ops);
        cycles, ops := RunBatch(j, cycles, issued, ops);
      }
      cycles, ops := DrainWindow(j, cycles, issued, ops);
      var out := DrainCompleted();
      r := Ok((cycles, issued, out));
    }
  }

  /** `n` cycles and one more are `n + 1` cycles. */
  lemma OneMore<E, C>(g: Engine<E, C>, e: E, n: nat)
    ensures TickN(g, e, n + 1).0 == g.tick(TickN(g, e, n).0).0
    ensures Recorded(TickN(g, e, n + 1).1) == Recorded(TickN(g, e, n).1) + Recorded(g.tick(TickN(g, e, n).0).1)
  {
    TickNSplit(g, e, n, 1);
    var (e1, s1) := TickN(g, e, n);
    assert TickN(g, e1, 1).1 == g.tick(e1).1 + [] == g.tick(e1).1;
    RecordedAppend(s1, TickN(g, e1, 1).1);
  }

  /** The running sum is what Python recomputes as start + i * stride. */
  lemma {:induction false} RunningSumIsProduct(start: int, count: nat, stride: int, i: nat)
    requires i < count
    ensures |RunningSum(start, count, stride)| == count
    ensures RunningSum(start, count, stride)[i] == start + i * stride
    decreases count
  {
    if count > 1 {
      RunningSumIsProduct(start + stride, count - 1, stride, if i > 0 then i - 1 else 0);
      if i > 0 {
        assert start + stride + (i - 1) * stride == start + i * stride;
      }
    }
  }
}

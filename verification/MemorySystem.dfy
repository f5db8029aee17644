/**
 The thin Python layer over the C++ wrapper: validation, callback wrapping, batch dispatch and the
 cycle counter.

 A Python callable is an object with an identity; what calling it does is a fixed function on the
 state of the user's program.  Exceptions are numbered.
 */
module MemorySystem {
  import opened Prelude
  import opened Engine
  import opened CoreEngine
  import D = Drive

  /** A callable, known by its identity; `target` names what it does. */
  class Handler<C> {
    const target: Option<C>

    constructor (target: Option<C>)
      ensures this.target == target
    {
      this.target := target;
    }
  }

  /** The function that turns raw completion fields into a `RequestInfo` for `inner`. */
  class Wrapper<C> {
    const inner: Handler<C>

    constructor (inner: Handler<C>)
      ensures this.inner == inner
    {
      this.inner := inner;
    }
  }

  /** What calling a completion callback does to the user's state, and the exception it raises. */
  type Call<!H, !C> = (H, Note<C>) -> (H, Option<int>)

  datatype Outcome<+T> = Returned(value: T) | Rejected | Threw(exc: int)

  /** Every callback of the batch runs; the first exception survives. */
  function Dispatched<H, C>(call: Call<H, C>, h: H, events: seq<Note<C>>): (H, Option<int>)
    decreases |events|
  {
    if events == [] then (h, None)
    else
      var (h1, x) := call(h, events[0]);
      var (h2, y) := Dispatched(call, h1, events[1..]);
      (h2, if x.Some? then x else y)
  }

  /** Write completions run one by one, and an exception ends them. */
  function WritesFired<H, C>(
    call: Call<H, C>, h: H, addrs: seq<int>, oks: seq<bool>, clk: int, core: int, target: Option<C>)
    : (H, Option<int>)
    requires |oks| <= |addrs|
    decreases |oks|
  {
    if oks == [] then (h, None)
    else if !oks[0] then WritesFired(call, h, addrs[1..], oks[1..], clk, core, target)
    else
      var (h1, x) := call(h, WriteNote(addrs[0], clk, core, target));
      if x.Some? then (h1, x) else WritesFired(call, h1, addrs[1..], oks[1..], clk, core, target)
  }

  /** A raising callback takes nothing away from the callbacks behind it, and the exception that comes
      out is that of the first one that raised. */
  lemma {:induction false} DispatchReachesAll<H, C>(
    call: Call<H, C>, h: H, events: seq<Note<C>>) returns (states: seq<H>, first: nat)
    ensures |states| == |events| + 1 && states[0] == h && states[|events|] == Dispatched(call, h, events).0
    ensures forall i :: 0 <= i < |events| ==> states[i + 1] == call(states[i], events[i]).0
    ensures first <= |events| && forall i :: 0 <= i < first ==> call(states[i], events[i]).1 == None
    ensures Dispatched(call, h, events).1 == if first < |events| then call(states[first], events[first]).1 else None
    ensures first < |events| ==> Dispatched(call, h, events).1.Some?
    decreases |events|
  {
    if events == [] {
      states, first := [h], 0;
    } else {
      var (h1, x) := call(h, events[0]);
      states, first := DispatchReachesAll(call, h1, events[1..]);
      states := [h] + states;
      first := if x.Some? then 0 else first + 1;
    }
  }

  /** The exception of callback `i`, when every callback before it ran. */
  function Raises<H, C>(call: Call<H, C>, h: H, events: seq<Note<C>>, i: nat): Option<int>
    requires i < |events|
  {
    call(Dispatched(call, h, events[..i]).0, events[i]).1
  }

  lemma {:induction false} RaisesNext<H, C>(call: Call<H, C>, h: H, events: seq<Note<C>>, i: nat)
    requires 0 < i < |events|
    ensures Raises(call, h, events, i) == Raises(call, call(h, events[0]).0, events[1..], i - 1)
  {
    assert events[..i][1..] == events[1..][..i - 1];
  }

  /** A batch raises exactly when one of its callbacks does. */
  lemma {:induction false} NoneRaises<H, C>(call: Call<H, C>, h: H, events: seq<Note<C>>)
    ensures Dispatched(call, h, events).1 == None <==>
            forall i :: 0 <= i < |events| ==> Raises(call, h, events, i) == None
    decreases |events|
  {
    if events != [] {
      var (h1, x) := call(h, events[0]);
      NoneRaises(call, h1, events[1..]);
      assert Raises(call, h, events, 0) == x;
      forall i | 0 < i < |events|
        ensures Raises(call, h, events, i) == Raises(call, h1, events[1..], i - 1)
      {
        RaisesNext(call, h, events, i);
      }
      if Dispatched(call, h1, events[1..]).1.Some? {
        var k :| 0 <= k < |events[1..]| && Raises(call, h1, events[1..], k) != None;
        assert Raises(call, h, events, k + 1) != None;
      }
    }
  }

  /** Of the accepted writes exactly the first `ran` are told, as a batch of completions would be, and the last one
      told is the first whose callback raises.  So all are told if and only if no callback but the last one raises. */
  lemma {:induction false} WritesEndAtRaise<H, C>(
    call: Call<H, C>, h: H, addrs: seq<int>, oks: seq<bool>, clk: int, core: int, target: Option<C>)
    returns (notes: seq<Note<C>>, ran: nat)
    requires |oks| == |addrs|
    ensures notes == WriteNotes(addrs, oks, clk, core, target) && ran <= |notes|
    ensures WritesFired(call, h, addrs, oks, clk, core, target) == Dispatched(call, h, notes[..ran])
    ensures forall i :: 0 <= i < ran - 1 ==> Raises(call, h, notes, i) == None
    ensures ran < |notes| ==> 0 < ran && Raises(call, h, notes, ran - 1).Some?
    ensures ran == |notes| <==> forall i :: 0 <= i < |notes| - 1 ==> Raises(call, h, notes, i) == None
    decreases |oks|
  {
    notes := WriteNotes(addrs, oks, clk, core, target);
    if oks == [] {
      ran := 0;
    } else if !oks[0] {
      var rest;
      rest, ran := WritesEndAtRaise(call, h, addrs[1..], oks[1..], clk, core, target);
      assert notes == rest;
    } else {
      var (h1, x) := call(h, notes[0]);
      var rest, more := WritesEndAtRaise(call, h1, addrs[1..], oks[1..], clk, core, target);
      assert notes[1..] == rest;
      ran := if x.Some? then 1 else more + 1;
      forall i | 0 < i < |notes|
        ensures Raises(call, h, notes, i) == Raises(call, h1, rest, i - 1)
      {
        RaisesNext(call, h, notes, i);
      }
      assert Raises(call, h, notes, 0) == x;
      assert notes[..ran][1..] == rest[..ran - 1];
    }
  }

  lemma {:induction false} DispatchSplits<H, C>(call: Call<H, C>, h: H, a: seq<Note<C>>, b: seq<Note<C>>)
    ensures var (h1, x) := Dispatched(call, h, a);
            var (h2, y) := Dispatched(call, h1, b);
            Dispatched(call, h, a + b) == (h2, if x.Some? then x else y)
    decreases |a|
  {
    if a == [] {
      assert a + b == b;
    } else {
      assert (a + b)[1..] == a[1..] + b;
      DispatchSplits(call, call(h, a[0]).0, a[1..], b);
    }
  }

  /** The part of the object that ticking changes. */
  datatype Mem<+H, +E> = Mem(host: H, mem: E, clk: int)

  class MemorySystem<H, E, C(==)> {
    const impl: PyMemorySystem<E, C>
    const call: Call<H, C>
    const cores: int
    const cacheline: int
    /** What the user's callbacks change. */
    var host: H
    var clk: int
    var readCbSrc: Handler?<C>
    var readCbWrap: Wrapper?<C>

    /** Nothing recorded is left behind, and the memo belongs to the handler it was made for. */
    ghost predicate Valid()
      reads this, impl
    {
      && impl.completed == []
      && (readCbSrc == null <==> readCbWrap == null)
      && (readCbSrc != null ==> readCbWrap.inner == readCbSrc)
    }

    ghost function View(): Mem<H, E>
      reads this, impl
    {
      Mem(host, impl.mem, clk)
    }

    constructor (g: Engine<E, C>, mem: E, call: Call<H, C>, cores: int, cacheline: int, host: H)
      ensures Valid() && View() == Mem(host, mem, 0) && fresh(impl)
      ensures impl.g == g && this.call == call && this.cores == cores && this.cacheline == cacheline
    {
      impl := new PyMemorySystem(g, mem);
      this.call, this.cores, this.cacheline := call, cores, cacheline;
      this.host, clk, readCbSrc, readCbWrap := host, 0, null, null;
    }

    predicate CoreOk(core: int) {
      0 <= core < cores
    }

    function Pending(): nat
      reads impl
    {
      impl.g.pending(impl.mem)
    }

    // -- Callbacks -----------------------------------------------------------------

    /** The wrapper always belongs to the handler it is asked for; the last one is reused. */
    method ReadCb(callback: Handler?<C>) returns (w: Wrapper?<C>)
      requires Valid()
      modifies this`readCbSrc, this`readCbWrap
      ensures Valid()
      ensures callback == null <==> w == null
      ensures w != null ==> w.inner == callback
      ensures w != null && callback == old(readCbSrc) ==> w == old(readCbWrap)
    {
      if callback == null {
        return null;
      }
      if callback == readCbSrc {
        return readCbWrap;
      }
      w := new Wrapper(callback);
      readCbSrc, readCbWrap := callback, w;
    }

    method Dispatch(events: seq<Note<C>>) returns (exc: Option<int>)
      modifies this`host
      ensures (host, exc) == Dispatched(call, old(host), events)
    {
      exc := None;
      var i := 0;
      assert events[0..] == events;
      while i < |events|
        invariant i <= |events|
        invariant var (h, x) := Dispatched(call, host, events[i..]);
                  (h, if exc.Some? then exc else x) == Dispatched(call, old(host), events)
      {
        assert events[i..][1..] == events[i + 1..];
        var (h, x) := call(host, events[i]);
        host := h;
        if exc.None? {
          exc := x;
        }
        i := i + 1;
      }
    }

    // -- Ticking ---------------------------------------------------------------------

    /** The cycle is counted after the callbacks ran, so a cycle whose callback raised is not counted. */
    method Tick() returns (r: Outcome<int>)
      requires Valid()
      modifies this, impl
      ensures Valid()
      ensures var (e, served) := impl.g.tick(old(impl.mem));
              var (h, exc) := Dispatched(call, old(host), Recorded(served));
              && View() == Mem(h, e, old(clk) + (if exc.Some? then 0 else 1))
              && r == if exc.Some? then Threw(exc.value) else Returned(1)
    {
      impl.Tick();
      var events := impl.DrainCompleted();
      assert events == Recorded(impl.g.tick(old(impl.mem)).1);
      var exc := Dispatch(events);
      if exc.Some? {
        return Threw(exc.value);
      }
      clk := clk + 1;
      r := Returned(1);
    }

    method Run(cycles: int) returns (r: Outcome<int>)
      requires Valid()
      modifies this, impl
      ensures Valid()
      ensures var (e, served) := TickN(impl.g, old(impl.mem), Count(cycles));
              var (h, exc) := Dispatched(call, old(host), Recorded(served));
              && View() == Mem(h, e, old(clk) + cycles)
              && r == if exc.Some? then Threw(exc.value) else Returned(cycles)
    {
      var n, events := impl.Run(cycles);
      assert events == Recorded(TickN(impl.g, old(impl.mem), Count(cycles)).1);
      clk := clk + n;
      var exc := Dispatch(events);
      r := if exc.Some? then Threw(exc.value) else Returned(n);
    }

    method TickUntilProgress(max: int) returns (r: Outcome<int>)
      requires Valid()
      modifies this, impl
      ensures Valid()
      ensures max < 1 ==> r == Rejected && View() == old(View())
      ensures 1 <= max ==>
                var b := UntilProgress(impl.g, old(impl.mem), max);
                var (h, exc) := Dispatched(call, old(host), b.notes);
                && View() == Mem(h, b.mem, old(clk) + b.cycles)
                && r == if exc.Some? then Threw(exc.value) else Returned(b.cycles)
    {
      if max < 1 {
        return Rejected;
      }
      var n, events := impl.RunUntilProgress(max);
      assert Burst(impl.mem, n, events) == UntilProgress(impl.g, old(impl.mem), max);
      clk := clk + n;
      var exc := Dispatch(events);
      r := if exc.Some? then Threw(exc.value) else Returned(n);
    }

    method RunUntilIdle(max: int) returns (r: Outcome<int>)
      requires Valid()
      modifies this, impl
      ensures Valid()
      ensures var n := IdleCycles(impl.g, old(impl.mem), Count(max));
              var (e, served) := TickN(impl.g, old(impl.mem), n);
              var (h, exc) := Dispatched(call, old(host), Recorded(served));
              && View() == Mem(h, e, old(clk) + n)
              && r == if exc.Some? then Threw(exc.value) else Returned(n)
    {
      var n, events := impl.RunUntilIdle(max);
      assert events == Recorded(TickN(impl.g, old(impl.mem), n).1);
      clk := clk + n;
      var exc := Dispatch(events);
      r := if exc.Some? then Threw(exc.value) else Returned(n);
    }

    // -- Sending -----------------------------------------------------------------------

    method FireWriteCompletion(addr: int, core: int, callback: Handler?<C>) returns (exc: Option<int>)
      modifies this`host
      ensures callback == null ==> host == old(host) && exc == None
      ensures callback != null ==> (host, exc) == call(old(host), WriteNote(addr, clk, core, callback.target))
    {
      exc := None;
      if callback != null {
        var (h, x) := call(host, WriteNote(addr, clk, core, callback.target));
        host, exc := h, x;
      }
    }

    /** Only reads are answered by the engine; a write's callback runs on acceptance. */
    method Send(addr: int, kind: Kind, core: int, callback: Handler?<C>) returns (r: Outcome<bool>)
      requires Valid()
      modifies this, impl
      ensures Valid() && clk == old(clk)
      ensures core < 0 || cores <= core ==> r == Rejected && View() == old(View())
      ensures 0 <= core < cores ==>
                (impl.mem, r != Returned(false)) ==
                impl.g.send(old(impl.mem), Request(addr, kind, core, ClosureOf(kind, callback, core)))
      ensures 0 <= core < cores && (kind == READ || r == Returned(false) || callback == null) ==>
                r.Returned? && host == old(host)
      ensures 0 <= core < cores && kind == WRITE && r != Returned(false) && callback != null ==>
                var (h, exc) := call(old(host), WriteNote(addr, clk, core, callback.target));
                host == h && r == if exc.Some? then Threw(exc.value) else Returned(true)
    {
      if !CoreOk(core) {
        return Rejected;
      }
      if kind == WRITE {
        var ok := impl.Send(addr, kind, core, NoOp);
        if ok {
          var exc := FireWriteCompletion(addr, core, callback);
          if exc.Some? {
            return Threw(exc.value);
          }
        }
        return Returned(ok);
      }
      var w := ReadCb(callback);
      var ok := impl.Send(addr, kind, core, MakeCallback(kind, w, core));
      r := Returned(ok);
    }

    /** The loop over the flags that fires the completions of accepted writes. */
    method FireWrites(addrs: seq<int>, oks: seq<bool>, core: int, callback: Handler?<C>) returns (exc: Option<int>)
      requires |oks| == |addrs|
      modifies this`host
      ensures callback == null ==> host == old(host) && exc == None
      ensures callback != null ==> (host, exc) == WritesFired(call, old(host), addrs, oks, clk, core, callback.target)
    {
      exc := None;
      var i := 0;
      assert oks[0..] == oks && addrs[0..] == addrs;
      while i < |oks|
        invariant i <= |oks| && exc == None
        invariant callback == null ==> host == old(host)
        invariant callback != null ==>
                    WritesFired(call, host, addrs[i..], oks[i..], clk, core, callback.target) ==
                    WritesFired(call, old(host), addrs, oks, clk, core, callback.target)
      {
        assert oks[i..][1..] == oks[i + 1..] && addrs[i..][1..] == addrs[i + 1..];
        if oks[i] {
          exc := FireWriteCompletion(addrs[i], core, callback);
          if exc.Some? {
            return;
          }
        }
        i := i + 1;
      }
    }

    /** One call for many requests; `drive`-like loops see the same accept flags as single sends. */
    method SendBatch(addrs: seq<int>, kind: Kind, core: int, callback: Handler?<C>) returns (r: Outcome<seq<bool>>)
      requires Valid()
      modifies this, impl
      ensures Valid() && clk == old(clk)
      ensures core < 0 || cores <= core ==> r == Rejected && View() == old(View())
      ensures 0 <= core < cores ==> Batched(old(View()), View(), addrs, kind, core, callback, r)
    {
      if !CoreOk(core) {
        return Rejected;
      }
      SendManyLength(impl.g, impl.mem, addrs, kind, core, ClosureOf(kind, callback, core));
      if kind == WRITE {
        var oks := impl.SendBatch(addrs, kind, core, NoOp);
        var exc := FireWrites(addrs, oks, core, callback);
        return if exc.Some? then Threw(exc.value) else Returned(oks);
      }
      var w := ReadCb(callback);
      var oks := impl.SendBatch(addrs, kind, core, MakeCallback(kind, w, core));
      r := Returned(oks);
    }

    /** What a batch does, in terms of the engine alone and of the callbacks of accepted writes. */
    ghost predicate Batched(
      from: Mem<H, E>, to: Mem<H, E>, addrs: seq<int>, kind: Kind, core: int, callback: Handler?<C>,
      r: Outcome<seq<bool>>) {
      var (e, oks) := SendMany(impl.g, from.mem, Requests(addrs, kind, core, ClosureOf(kind, callback, core)));
      && |oks| == |addrs|
      && to.mem == e && to.clk == from.clk
      && if kind == READ || callback == null then to.host == from.host && r == Returned(oks)
         else
           var (h, exc) := WritesFired(call, from.host, addrs, oks, from.clk, core, callback.target);
           to.host == h && r == if exc.Some? then Threw(exc.value) else Returned(oks)
    }

    /** The write completions carry start + i * stride; the engine saw a running sum. */
    method SendRange(
      start: int, count: int, stride: Option<int>, kind: Kind, core: int, callback: Handler?<C>)
      returns (r: Outcome<seq<bool>>)
      requires Valid()
      modifies this, impl
      ensures Valid() && clk == old(clk)
      ensures core < 0 || cores <= core ==> r == Rejected && View() == old(View())
      ensures 0 <= core < cores ==>
                Batched(old(View()), View(),
                  Strided(start, Count(count), if stride.Some? then stride.value else cacheline), kind, core,
                    callback, r)
    {
      var step := if stride.Some? then stride.value else cacheline;
      if !CoreOk(core) {
        return Rejected;
      }
      ghost var addrs := Strided(start, Count(count), step);
      RunningSumIsStrided(start, Count(count), step);
      SendManyLength(impl.g, impl.mem, addrs, kind, core, ClosureOf(kind, callback, core));
      if kind == WRITE {
        var oks := impl.SendRange(start, count, step, kind, core, NoOp);
        var exc := FireRange(start, step, oks, core, callback);
        return if exc.Some? then Threw(exc.value) else Returned(oks);
      }
      var w := ReadCb(callback);
      var oks := impl.SendRange(start, count, step, kind, core, MakeCallback(kind, w, core));
      r := Returned(oks);
    }

    method FireRange(
      start: int, stride: int, oks: seq<bool>, core: int, callback: Handler?<C>) returns (exc: Option<int>)
      modifies this`host
      ensures callback == null ==> host == old(host) && exc == None
      ensures callback != null ==>
                (host, exc) == WritesFired(call, old(host), Strided(start, |oks|, stride), oks, clk, core,
                  callback.target)
    {
      exc := None;
      var i := 0;
      ghost var addrs := Strided(start, |oks|, stride);
      assert oks[0..] == oks && addrs[0..] == addrs;
      while i < |oks|
        invariant i <= |oks| && exc == None
        invariant callback == null ==> host == old(host)
        invariant callback != null ==>
                    WritesFired(call, host, addrs[i..], oks[i..], clk, core, callback.target) ==
                    WritesFired(call, old(host), addrs, oks, clk, core, callback.target)
      {
        assert oks[i..][1..] == oks[i + 1..] && addrs[i..][1..] == addrs[i + 1..];
        if oks[i] {
          exc := FireWriteCompletion(start + i * stride, core, callback);
          if exc.Some? {
            return;
          }
        }
        i := i + 1;
      }
    }

    // -- Driving ------------------------------------------------------------------------

    /** The drive loop, then the cycle count and one batch of callbacks; it returns the issued count. */
    method DriveJob(j: D.Job<C>, callback: Handler?<C>) returns (r: Outcome<int>)
      requires Valid() && (callback != null ==> callback.target.Some?)
      requires j.cb == Target(callback)
      modifies this, impl
      ensures Valid()
      ensures !j.Valid() ==> r == Rejected && View() == old(View())
      ensures j.Valid() ==>
                var end := D.Driven(impl.g, j, D.Begin(old(impl.mem), []));
                var (h, exc) := Dispatched(call, old(host), end.notes);
                && View() == Mem(h, end.mem, old(clk) + end.cycles)
                && r == if exc.Some? then Threw(exc.value) else Returned(end.issued)
    {
      var w := ReadCb(callback);
      var out := impl.DriveLoop(j);
      if out.Raised? {
        return Rejected;
      }
      var (n, issued, events) := out.value;
      clk := clk + n;
      var exc := Dispatch(events);
      r := if exc.Some? then Threw(exc.value) else Returned(issued);
    }

    /** What a finished drive leaves behind. */
    ghost predicate DroveOn(j: D.Job<C>, from: Mem<H, E>, to: Mem<H, E>, r: Outcome<int>)
      requires j.Valid()
    {
      var end := D.Driven(impl.g, j, D.Begin(from.mem, []));
      var (h, exc) := Dispatched(call, from.host, end.notes);
      && to == Mem(h, end.mem, from.clk + end.cycles)
      && r == if exc.Some? then Threw(exc.value) else Returned(end.issued)
    }

    method Drive(addrs: seq<int>, depth: int, batch: int, max: int, callback: Handler?<C>) returns (r: Outcome<int>)
      requires Valid() && (callback != null ==> callback.target.Some?)
      modifies this, impl
      ensures Valid()
      ensures r == Rejected <==> depth < 1 || batch < 1
      ensures r == Rejected ==> View() == old(View())
      ensures r != Rejected ==>
                DroveOn(D.Job(|addrs|, depth, batch, max, Target(callback), D.ListAddr(addrs)), old(View()), View(), r)
    {
      r := DriveJob(D.Job(|addrs|, depth, batch, max, Target(callback), D.ListAddr(addrs)), callback);
    }

    /** A drive over a range does what a drive over the listed addresses would do. */
    method DriveRange(
      start: int, count: int, stride: Option<int>, depth: int, batch: int, max: int, callback: Handler?<C>)
      returns (r: Outcome<int>)
      requires Valid() && (callback != null ==> callback.target.Some?)
      modifies this, impl
      ensures Valid()
      ensures r == Rejected <==> depth < 1 || batch < 1
      ensures r == Rejected ==> View() == old(View())
      ensures r != Rejected ==>
                var addrs := Strided(start, Count(count), if stride.Some? then stride.value else cacheline);
                DroveOn(D.Job(|addrs|, depth, batch, max, Target(callback), D.ListAddr(addrs)), old(View()), View(), r)
    {
      var step := if stride.Some? then stride.value else cacheline;
      var j := D.Job(count, depth, batch, max, Target(callback), D.RangeAddr(start, step));
      ghost var addrs := Strided(start, Count(count), step);
      if j.Valid() {
        D.DriveRangeIsDrive(impl.g, j, start, step, addrs, D.Begin(impl.mem, []));
        D.NoneIsNegative(impl.g, j.(addr := D.ListAddr(addrs)), |addrs|, D.Begin(impl.mem, []));
      }
      r := DriveJob(j, callback);
    }
  }

  function Target<C>(callback: Handler?<C>): Option<C> {
    if callback == null then None else callback.target
  }

  /** What the C++ layer attaches to a request; a wrapper stands for its handler. */
  function MakeCallback<C>(kind: Kind, w: Wrapper?<C>, core: int): Closure<C> {
    if kind == READ && w != null then Record(core, w.inner.target) else NoOp
  }

  function ClosureOf<C>(kind: Kind, callback: Handler?<C>, core: int): Closure<C> {
    if kind == READ && callback != null then Record(core, callback.target) else NoOp
  }

  lemma {:induction false} SendManyLength<E, C>(
    g: Engine<E, C>, e: E, addrs: seq<int>, kind: Kind, core: int, k: Closure<C>)
    ensures |SendMany(g, e, Requests(addrs, kind, core, k)).1| == |addrs|
    decreases |addrs|
  {
    if addrs != [] {
      var r := Request(addrs[0], kind, core, k);
      assert Requests(addrs, kind, core, k)[1..] == Requests(addrs[1..], kind, core, k);
      SendManyLength(g, g.send(e, r).0, addrs[1..], kind, core, k);
    }
  }

  /** start, start + stride, ... as Python recomputes them. */
  function Strided(start: int, count: nat, stride: int): (r: seq<int>)
    ensures |r| == count
  {
    seq(count, i => start + i * stride)
  }

  lemma RunningSumIsStrided(start: int, count: nat, stride: int)
    ensures RunningSum(start, count, stride) == Strided(start, count, stride)
  {
    if count > 0 {
      RunningSumIsProduct(start, count, stride, 0);
    }
    forall i | 0 <= i < count
      ensures RunningSum(start, count, stride)[i] == Strided(start, count, stride)[i]
    {
      RunningSumIsProduct(start, count, stride, i);
    }
  }

  // -- Bulk ticking is ticking -----------------------------------------------------------

  function Ticked<H, E, C>(g: Engine<E, C>, call: Call<H, C>, m: Mem<H, E>): (Mem<H, E>, Option<int>) {
    var (e, served) := g.tick(m.mem);
    var (h, exc) := Dispatched(call, m.host, Recorded(served));
    (Mem(h, e, m.clk + (if exc.Some? then 0 else 1)), exc)
  }

  /** Single ticks until one raises. */
  function Ticks<H, E, C>(g: Engine<E, C>, call: Call<H, C>, m: Mem<H, E>, n: nat): (Mem<H, E>, Option<int>)
    decreases n
  {
    if n == 0 then (m, None)
    else
      var (m1, exc) := Ticked(g, call, m);
      if exc.Some? then (m1, exc) else Ticks(g, call, m1, n - 1)
  }

  function RunOf<H, E, C>(g: Engine<E, C>, call: Call<H, C>, m: Mem<H, E>, n: nat): (Mem<H, E>, Option<int>) {
    var (e, served) := TickN(g, m.mem, n);
    var (h, exc) := Dispatched(call, m.host, Recorded(served));
    (Mem(h, e, m.clk + n), exc)
  }

  /** `run(n)` is `n` ticks: the two raise on the same inputs, and the same exception. */
  lemma {:induction false} RaisesAlike<H, E, C>(g: Engine<E, C>, call: Call<H, C>, m: Mem<H, E>, n: nat)
    ensures RunOf(g, call, m, n).1 == Ticks(g, call, m, n).1
    ensures RunOf(g, call, m, n).1 == None ==> RunOf(g, call, m, n) == Ticks(g, call, m, n)
    decreases n
  {
    if n > 0 {
      var (e1, s1) := g.tick(m.mem);
      var (e2, s2) := TickN(g, e1, n - 1);
      RecordedAppend(s1, s2);
      DispatchSplits(call, m.host, Recorded(s1), Recorded(s2));
      var (m1, exc) := Ticked(g, call, m);
      if exc.None? {
        RaisesAlike(g, call, m1, n - 1);
      }
    }
  }

  /** Ticks that raise stop at the cycle that raised, which is not counted. */
  lemma {:induction false} TicksFallShort<H, E, C>(
    g: Engine<E, C>, call: Call<H, C>, m: Mem<H, E>, n: nat) returns (i: nat)
    requires Ticks(g, call, m, n).1.Some?
    ensures i < n
    ensures var end := Ticks(g, call, m, n).0;
            && end.clk == m.clk + i && end.mem == TickN(g, m.mem, i + 1).0
            && end.host == Dispatched(call, m.host, Recorded(TickN(g, m.mem, i + 1).1)).0
    ensures Ticks(g, call, m, i).1 == None
    decreases n
  {
    var (m1, exc) := Ticked(g, call, m);
    var s1 := g.tick(m.mem).1;
    if exc.Some? {
      i := 0;
      assert TickN(g, m.mem, 1).1 == s1 + [] == s1;
    } else {
      var k := TicksFallShort(g, call, m1, n - 1);
      i := k + 1;
      var s2 := TickN(g, m1.mem, k + 1).1;
      RecordedAppend(s1, s2);
      DispatchSplits(call, m.host, Recorded(s1), Recorded(s2));
    }
  }

  /** `run(n)` does what `n` ticks do exactly when no callback of its batch raises. */
  lemma RunIsTicks<H, E, C>(g: Engine<E, C>, call: Call<H, C>, m: Mem<H, E>, n: nat)
    ensures RunOf(g, call, m, n).1 == Ticks(g, call, m, n).1
    ensures var events := Recorded(TickN(g, m.mem, n).1);
            RunOf(g, call, m, n) == Ticks(g, call, m, n) <==>
              forall i :: 0 <= i < |events| ==> Raises(call, m.host, events, i) == None
  {
    RaisesAlike(g, call, m, n);
    if Ticks(g, call, m, n).1.Some? {
      var i := TicksFallShort(g, call, m, n);
    }
    NoneRaises(call, m.host, Recorded(TickN(g, m.mem, n).1));
  }
}

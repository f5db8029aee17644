/**
 Callbacks that schedule, cancel, run the simulator again, or raise.

 A machine with a call stack: callbacks on top of the `run` or `step` calls that fire them, on top of
 the callbacks that made those calls, and so on down to the main program.  Host code is any
 deterministic machine with private state per activation and state shared between them.
 */
module Nesting {
  import opened Prelude
  import opened Agenda
  import opened Kernel

  datatype Call<+T> =
    | Schedule(delay: int, prio: int, tag: T)
    | At(time: int, prio: int, tag: T)
    | Cancel(id: nat)
    | Advance(time: int)
    | Step
    | Run(until: Option<int>, max: Option<int>)
    | Return
    | Raise

  /** What an activation is told. `Failed` is an exception arriving from a nested `step` or `run`. */
  datatype Reply =
    | Start
    | Scheduled(id: Result<nat>)
    | Done(ok: bool)
    | Stepped(some: bool)
    | Ran(count: int)
    | Failed

  /** `busy` says that the loop is inside a callback. */
  datatype Frame<+L> =
    | Callback(local: L)
    | StepCall
    | RunLoop(until: Option<int>, previous: Option<int>, max: Option<int>, start: int, busy: bool)

  /** What happens next: the top callback gets a reply, the top loop goes on, or an exception unwinds. */
  datatype Control = Tell(reply: Reply) | Resume | Unwind

  datatype Host<!H, !L, !T> = Host(begin: T -> L, next: (H, L, Reply) -> (H, L, Call<T>))

  /** An event taken to fire: at what time, by the call in which frame of the stack, and after how many others. */
  datatype Shot = Shot(time: int, frame: nat, before: int)

  /** Four histories that no step consults: the ids fired and cancelled, the events fired in order, and how many of
      them raised. */
  datatype Machine<H, L, T> = Machine(
    now: int,
    queue: Queue<T>,
    nextId: nat,
    processed: int,
    horizon: Option<int>,
    stack: seq<Frame<L>>,
    ctl: Control,
    host: H,
    fired: set<nat>,
    cancelled: set<nat>,
    shots: seq<Shot>,
    lost: nat)

  function Top<X>(s: seq<X>): X
    requires s != []
  {
    s[|s| - 1]
  }

  function Below<X>(s: seq<X>): seq<X>
    requires s != []
  {
    s[..|s| - 1]
  }

  function Push<H, L, T>(m: Machine<H, L, T>, time: int, prio: int, tag: T): Machine<H, L, T> {
    m.(queue := Insert(m.queue, Entry(time, prio, Stamp(m.nextId, tag))), nextId := m.nextId + 1,
       ctl := Tell(Scheduled(Ok(m.nextId))))
  }

  /** The call on top of the stack takes the head of the queue, moves to its time and enters its callback. */
  function Fire<H, L, T>(p: Host<H, L, T>, m: Machine<H, L, T>): Machine<H, L, T>
    requires m.queue != [] && m.stack != []
  {
    var e := m.queue[0];
    m.(now := e.time, queue := m.queue[1..], fired := m.fired + {e.what.id},
       shots := m.shots + [Shot(e.time, |m.stack| - 1, m.processed)],
       stack := m.stack + [Callback(p.begin(e.what.tag))], ctl := Tell(Start))
  }

  function Perform<H, L, T>(p: Host<H, L, T>, m: Machine<H, L, T>, c: Call<T>): Machine<H, L, T>
    requires m.stack != []
  {
    match c
    case Schedule(delay, prio, tag) =>
      if delay < 0 then m.(ctl := Tell(Scheduled(Raised))) else Push(m, m.now + delay, prio, tag)
    case At(time, prio, tag) =>
      if time < m.now then m.(ctl := Tell(Scheduled(Raised))) else Push(m, time, prio, tag)
    case Cancel(id) =>
      var ok := id in LiveIds(m.queue);
      m.(queue := Drop(m.queue, (s: Stamp<T>) => s.id == id), ctl := Tell(Done(ok)),
         cancelled := if ok then m.cancelled + {id} else m.cancelled)
    case Advance(time) =>
      if CanAdvance(m.queue, m.now, m.horizon, time) then m.(now := time, ctl := Tell(Done(true)))
      else m.(ctl := Tell(Done(false)))
    case Step =>
      if m.queue == [] then m.(ctl := Tell(Stepped(false)))
      else Fire(p, m.(stack := m.stack + [StepCall]))
    case Run(until, max) =>
      m.(stack := m.stack + [RunLoop(until, m.horizon, max, m.processed, false)], horizon := until, ctl := Resume)
    case Return => m.(stack := Below(m.stack), ctl := Resume)
    case Raise => m.(stack := Below(m.stack), ctl := Unwind)
  }

  /** The end of a `run` call, normal or not: the horizon of the caller is put back. */
  function Leave<H, L, T>(m: Machine<H, L, T>, reply: Reply): Machine<H, L, T>
    requires m.stack != [] && Top(m.stack).RunLoop?
  {
    m.(stack := Below(m.stack), horizon := Top(m.stack).previous, ctl := Tell(reply))
  }

  function Loop<H, L, T>(p: Host<H, L, T>, m: Machine<H, L, T>): Machine<H, L, T>
    requires m.stack != [] && Top(m.stack).RunLoop?
  {
    var f := Top(m.stack);
    if f.busy then
      m.(processed := m.processed + 1, stack := Below(m.stack) + [f.(busy := false)])
    else if f.max.Some? && f.max.value <= m.processed - f.start then Leave(m, Ran(m.processed - f.start))
    else if m.queue == [] || (f.until.Some? && f.until.value < m.queue[0].time) then
      Leave(m, Ran(m.processed - f.start))
    else Fire(p, m.(stack := Below(m.stack) + [f.(busy := true)]))
  }

  /** The main program has ended when the stack is empty. */
  predicate Over<H, L, T>(m: Machine<H, L, T>) {
    m.stack == []
  }

  /** A callback runs on a `step` or on a `run` that is busy with it; a call was made by a callback. */
  predicate OnTop<L>(upper: Frame<L>, lower: Frame<L>) {
    if upper.Callback? then lower.StepCall? || (lower.RunLoop? && lower.busy) else lower.Callback?
  }

  ghost predicate Alternates<L>(stack: seq<Frame<L>>)
    decreases |stack|
  {
    stack == [] ||
    (Alternates(Below(stack)) && if |stack| == 1 then Top(stack).Callback? else OnTop(Top(stack), Top(Below(stack))))
  }

  predicate InControl<H, L, T>(m: Machine<H, L, T>) {
    m.stack == [] || (m.ctl.Tell? <==> Top(m.stack).Callback?)
  }

  function Next<H, L, T>(p: Host<H, L, T>, m: Machine<H, L, T>): Machine<H, L, T>
    requires !Over(m) && InControl(m)
  {
    match m.ctl
    case Tell(reply) =>
      var (h, l, c) := p.next(m.host, Top(m.stack).local, reply);
      Perform(p, m.(host := h, stack := Below(m.stack) + [Callback(l)]), c)
    case Resume =>
      if Top(m.stack).StepCall? then
        m.(processed := m.processed + 1, stack := Below(m.stack), ctl := Tell(Stepped(true)))
      else Loop(p, m)
    case Unwind =>
      var m1 := m.(lost := m.lost + 1);
      if Top(m.stack).StepCall? then m1.(stack := Below(m.stack), ctl := Tell(Failed))
      else Leave(m1, Failed)
  }

  // -- The invariant ---------------------------------------------------------------------

  /** The horizon that the innermost active `run` asked for; `base` outside every `run`. */
  ghost function Innermost<L>(stack: seq<Frame<L>>, base: Option<int>): Option<int>
    decreases |stack|
  {
    if stack == [] then base
    else if Top(stack).RunLoop? then Top(stack).until
    else Innermost(Below(stack), base)
  }

  /** Every `run` remembers the horizon that was active when it was called. */
  ghost predicate Remembered<L>(stack: seq<Frame<L>>, base: Option<int>)
    decreases |stack|
  {
    stack == [] ||
    (Remembered(Below(stack), base) && (Top(stack).RunLoop? ==> Top(stack).previous == Innermost(Below(stack), base)))
  }

  /** In key order: by time, priority and id. */
  ghost predicate KeyOrdered<T>(q: Queue<T>) {
    q == [] ||
    ((q[1..] == [] || KeyLess(q[0], q[1..][0])) && q[0].what.id !in LiveIds(q[1..]) && KeyOrdered(q[1..]))
  }

  predicate KeyLess<T>(a: Entry<Stamp<T>>, b: Entry<Stamp<T>>) {
    a.time < b.time || (a.time == b.time && (a.prio < b.prio || (a.prio == b.prio && a.what.id < b.what.id)))
  }

  function UpTo(n: nat): set<nat> {
    if n == 0 then {} else UpTo(n - 1) + {n - 1}
  }

  /** Every id ever given out is live, cancelled or fired, and only one of these. */
  ghost predicate Partition<H, L, T>(m: Machine<H, L, T>) {
    && LiveIds(m.queue) + m.cancelled + m.fired == UpTo(m.nextId)
    && LiveIds(m.queue) !! m.cancelled && LiveIds(m.queue) !! m.fired && m.cancelled !! m.fired
  }

  ghost predicate Inv<H, L, T>(m: Machine<H, L, T>, base: Option<int>) {
    && KeyOrdered(m.queue) && From(m.queue, m.now)
    && Partition(m)
    && Alternates(m.stack) && InControl(m)
    && Remembered(m.stack, base) && m.horizon == Innermost(m.stack, base)
  }

  // -- The queue -----------------------------------------------------------------------------

  lemma {:induction false} InUpTo(n: nat, i: nat)
    ensures i in UpTo(n) <==> i < n
  {
    if n > 0 {
      InUpTo(n - 1, i);
    }
  }

  lemma {:induction false} InsertKeyed<T>(q: Queue<T>, e: Entry<Stamp<T>>)
    requires KeyOrdered(q) && forall id :: id in LiveIds(q) ==> id < e.what.id
    ensures KeyOrdered(Insert(q, e)) && LiveIds(Insert(q, e)) == LiveIds(q) + {e.what.id}
    ensures Insert(q, e) != [] && (Insert(q, e)[0] == e || (q != [] && Insert(q, e)[0] == q[0]))
  {
    if q == [] || !NotAfter(q[0], e) {
      assert ([e] + q)[1..] == q;
    } else {
      assert LiveIds(q[1..]) <= LiveIds(q) && q[0].what.id in LiveIds(q);
      InsertKeyed(q[1..], e);
      assert Insert(q, e)[1..] == Insert(q[1..], e);
    }
  }

  lemma {:induction false} DropKeyed<T>(q: Queue<T>, id: nat)
    requires KeyOrdered(q)
    ensures var r := Drop(q, (s: Stamp<T>) => s.id == id);
            && KeyOrdered(r) && LiveIds(r) == LiveIds(q) - {id}
            && (r != [] ==> q != [] && (r[0] == q[0] || KeyLess(q[0], r[0])))
  {
    if q != [] {
      DropKeyed(q[1..], id);
      if q[0].what.id != id {
        assert Drop(q, (s: Stamp<T>) => s.id == id)[1..] == Drop(q[1..], (s: Stamp<T>) => s.id == id);
      }
    }
  }

  // -- Every step ---------------------------------------------------------------------------------

  lemma PushFrame<L>(stack: seq<Frame<L>>, f: Frame<L>)
    ensures Below(stack + [f]) == stack && Top(stack + [f]) == f
  {
  }

  /** The queue side of the invariant. */
  ghost predicate QueueInv<H, L, T>(m: Machine<H, L, T>) {
    KeyOrdered(m.queue) && From(m.queue, m.now) && Partition(m)
  }

  /** The stack side, whoever has control. */
  ghost predicate StackInv<L>(stack: seq<Frame<L>>, horizon: Option<int>, base: Option<int>) {
    Alternates(stack) && Remembered(stack, base) && horizon == Innermost(stack, base)
  }

  lemma PushKeeps<H, L, T>(m: Machine<H, L, T>, time: int, prio: int, tag: T)
    requires QueueInv(m) && m.now <= time
    ensures QueueInv(Push(m, time, prio, tag))
  {
    forall id | id in LiveIds(m.queue) + m.cancelled + m.fired
      ensures id < m.nextId
    {
      InUpTo(m.nextId, id);
    }
    InUpTo(m.nextId, m.nextId);
    InsertKeyed(m.queue, Entry(time, prio, Stamp(m.nextId, tag)));
  }

  lemma FireKeeps<H, L, T>(p: Host<H, L, T>, m: Machine<H, L, T>, base: Option<int>)
    requires QueueInv(m) && m.queue != [] && StackInv(m.stack, m.horizon, base)
    requires m.stack != [] && (Top(m.stack).StepCall? || (Top(m.stack).RunLoop? && Top(m.stack).busy))
    ensures Inv(Fire(p, m), base)
  {
    var e := m.queue[0];
    PushFrame(m.stack, Callback(p.begin(e.what.tag)));
    assert LiveIds(m.queue) == {e.what.id} + LiveIds(m.queue[1..]);
  }

  lemma SimCallKeeps<H, L, T>(p: Host<H, L, T>, m: Machine<H, L, T>, c: Call<T>, base: Option<int>)
    requires QueueInv(m) && StackInv(m.stack, m.horizon, base) && m.stack != [] && Top(m.stack).Callback?
    requires c.Schedule? || c.At? || c.Cancel? || c.Advance?
    ensures Inv(Perform(p, m, c), base)
  {
    match c
    case Schedule(delay, prio, tag) => if 0 <= delay { PushKeeps(m, m.now + delay, prio, tag); }
    case At(time, prio, tag) => if m.now <= time { PushKeeps(m, time, prio, tag); }
    case Cancel(id) =>
      DropKeyed(m.queue, id);
      if id !in LiveIds(m.queue) {
        assert LiveIds(m.queue) - {id} == LiveIds(m.queue);
      }
    case Advance(time) =>
  }

  /** Replacing the top frame by one of the same kind changes nothing below. */
  lemma SwapTop<L>(stack: seq<Frame<L>>, f: Frame<L>, horizon: Option<int>, base: Option<int>)
    requires StackInv(stack, horizon, base) && stack != []
    requires if Top(stack).Callback? then f.Callback?
             else Top(stack).RunLoop? && f.RunLoop? && f.until == Top(stack).until && f.previous == Top(stack).previous
    ensures StackInv(Below(stack) + [f], horizon, base)
  {
    PushFrame(Below(stack), f);
  }

  lemma PerformKeeps<H, L, T>(p: Host<H, L, T>, m: Machine<H, L, T>, c: Call<T>, base: Option<int>)
    requires QueueInv(m) && StackInv(m.stack, m.horizon, base) && m.stack != [] && Top(m.stack).Callback?
    ensures Inv(Perform(p, m, c), base)
  {
    match c
    case Step =>
      PushFrame(m.stack, Frame<L>.StepCall);
      if m.queue != [] {
        FireKeeps(p, m.(stack := m.stack + [StepCall]), base);
      }
    case Run(until, max) => PushFrame(m.stack, Frame<L>.RunLoop(until, m.horizon, max, m.processed, false));
    case Return =>
    case Raise =>
    case _ => SimCallKeeps(p, m, c, base);
  }

  lemma LeaveKeeps<H, L, T>(m: Machine<H, L, T>, reply: Reply, base: Option<int>)
    requires Inv(m, base) && m.stack != [] && Top(m.stack).RunLoop?
    ensures Inv(Leave(m, reply), base)
    ensures Leave(m, reply).horizon == Top(m.stack).previous == Innermost(Below(m.stack), base)
  {
  }

  lemma LoopKeeps<H, L, T>(p: Host<H, L, T>, m: Machine<H, L, T>, base: Option<int>)
    requires Inv(m, base) && m.stack != [] && Top(m.stack).RunLoop?
    ensures Inv(Loop(p, m), base)
  {
    var f := Top(m.stack);
    if f.busy {
      SwapTop(m.stack, f.(busy := false), m.horizon, base);
      PushFrame(Below(m.stack), f.(busy := false));
    } else if f.max.Some? && f.max.value <= m.processed - f.start {
      LeaveKeeps(m, Ran(m.processed - f.start), base);
    } else if m.queue == [] || (f.until.Some? && f.until.value < m.queue[0].time) {
      LeaveKeeps(m, Ran(m.processed - f.start), base);
    } else {
      SwapTop(m.stack, f.(busy := true), m.horizon, base);
      PushFrame(Below(m.stack), f.(busy := true));
      FireKeeps(p, m.(stack := Below(m.stack) + [f.(busy := true)]), base);
    }
  }

  lemma NextKeeps<H, L, T>(p: Host<H, L, T>, m: Machine<H, L, T>, base: Option<int>)
    requires Inv(m, base) && !Over(m)
    ensures Inv(Next(p, m), base)
  {
    match m.ctl
    case Tell(reply) =>
      var (h, l, c) := p.next(m.host, Top(m.stack).local, reply);
      SwapTop(m.stack, Callback(l), m.horizon, base);
      PushFrame(Below(m.stack), Callback(l));
      PerformKeeps(p, m.(host := h, stack := Below(m.stack) + [Callback(l)]), c, base);
    case Resume => if !Top(m.stack).StepCall? { LoopKeeps(p, m, base); }
    case Unwind => if !Top(m.stack).StepCall? { LeaveKeeps(m.(lost := m.lost + 1), Failed, base); }
  }

  function Steps<H, L, T>(p: Host<H, L, T>, m: Machine<H, L, T>, n: nat): Machine<H, L, T>
    decreases n
  {
    if n == 0 || Over(m) || !InControl(m) then m else Steps(p, Next(p, m), n - 1)
  }

  /** In every reachable state, at any nesting depth and after any exception: the horizon is that of the
      innermost active `run`, the queue is in key order and not in the past, and every id is live,
      cancelled or fired, exactly one of them. */
  lemma {:induction false} StepsKeep<H, L, T>(p: Host<H, L, T>, m: Machine<H, L, T>, n: nat, base: Option<int>)
    requires Inv(m, base)
    ensures Inv(Steps(p, m, n), base)
    decreases n
  {
    if n > 0 && !Over(m) {
      NextKeeps(p, m, base);
      StepsKeep(p, Next(p, m), n - 1, base);
    }
  }

  function Boot<H, L, T>(host: H, main: L): Machine<H, L, T> {
    Machine(0, [], 0, 0, None, [Callback(main)], Tell(Start), host, {}, {}, [], 0)
  }

  lemma BootIsSound<H, L, T>(p: Host<H, L, T>, host: H, main: L)
    ensures Inv(Boot<H, L, T>(host, main), None)
  {
    var stack := [Callback(main)];
    assert Below(stack) == [] && Top(stack) == Callback(main);
    assert Innermost(stack, None) == Innermost<L>([], None) == None;
    assert Remembered<L>([], None) && Remembered(stack, None);
    assert Alternates(stack);
    assert UpTo(0) == {};
  }

  /** A program that has ended, however its callbacks nested or raised, leaves no horizon behind. */
  lemma EndRestoresHorizon<H, L, T>(p: Host<H, L, T>, host: H, main: L, n: nat)
    ensures var m := Steps(p, Boot(host, main), n);
            && Inv(m, None)
            && (Over(m) ==> m.horizon == None)
  {
    var m0: Machine<H, L, T> := Boot(host, main);
    BootIsSound(p, host, main);
    StepsKeep(p, m0, n, None);
  }

  /** The event that fires next is the least live one by time, priority and id. */
  lemma {:induction false} HeadIsLeast<T>(q: Queue<T>, i: nat)
    requires KeyOrdered(q) && 1 <= i < |q|
    ensures KeyLess(q[0], q[i])
  {
    if i > 1 {
      HeadIsLeast(q[1..], i - 1);
    }
  }

  lemma {:induction false} LiveCount<T>(q: Queue<T>)
    requires KeyOrdered(q)
    ensures |LiveIds(q)| == |q|
  {
    if q != [] {
      LiveCount(q[1..]);
    }
  }

  lemma {:induction false} UpToCount(n: nat)
    ensures |UpTo(n)| == n
  {
    if n > 0 {
      UpToCount(n - 1);
      InUpTo(n - 1, n - 1);
    }
  }

  /** Events scheduled = live + cancelled in time + fired. */
  lemma EventsBalance<H, L, T>(m: Machine<H, L, T>, base: Option<int>)
    requires Inv(m, base)
    ensures m.nextId == |m.queue| + |m.cancelled| + |m.fired|
  {
    LiveCount(m.queue);
    UpToCount(m.nextId);
    assert |LiveIds(m.queue) + m.cancelled + m.fired| == |LiveIds(m.queue)| + |m.cancelled| + |m.fired|;
  }
}

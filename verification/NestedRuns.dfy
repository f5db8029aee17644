/**
 What a `run` call answers, at any nesting depth: where it stops, what it fires, and what it counts.
 */
module NestedRuns {
  import opened Prelude
  import Kernel
  import opened Nesting

  // -- Events fired, finished, lost and under way --------------------------------------

  /** The calls on the stack that have taken an event whose callback is not accounted for yet. */
  ghost function UnderWay<L>(stack: seq<Frame<L>>): nat
    decreases |stack|
  {
    if stack == [] then 0
    else UnderWay(Below(stack)) + Bit(HasEvent(Top(stack)))
  }

  predicate HasEvent<L>(f: Frame<L>) {
    f.StepCall? || (f.RunLoop? && f.busy)
  }

  /** Every event taken to fire was processed, raised, or is under way; an exception arrives at the call that took
      the event. */
  ghost predicate Accounted<H, L, T>(m: Machine<H, L, T>) {
    && |m.shots| == m.processed + m.lost + UnderWay(m.stack)
    && (m.ctl.Unwind? && m.stack != [] ==> HasEvent(Top(m.stack)))
  }

  lemma UnderWayPush<L>(stack: seq<Frame<L>>, f: Frame<L>)
    ensures UnderWay(stack + [f]) == UnderWay(stack) + Bit(HasEvent(f))
  {
    PushFrame(stack, f);
  }

  lemma PerformAccounts<H, L, T>(p: Host<H, L, T>, m: Machine<H, L, T>, c: Call<T>)
    requires Accounted(m) && m.stack != [] && Top(m.stack).Callback? && Alternates(m.stack)
    ensures Accounted(Perform(p, m, c))
  {
    if c.Step? && m.queue != [] {
      UnderWayPush(m.stack, Frame<L>.StepCall);
      UnderWayPush(m.stack + [StepCall], Callback(p.begin(m.queue[0].what.tag)));
    } else if c.Run? {
      UnderWayPush(m.stack, RunLoop(c.until, m.horizon, c.max, m.processed, false));
    }
  }

  lemma LoopAccounts<H, L, T>(p: Host<H, L, T>, m: Machine<H, L, T>)
    requires Accounted(m) && m.stack != [] && Top(m.stack).RunLoop? && m.ctl.Resume?
    ensures Accounted(Loop(p, m))
  {
    var f, below := Top(m.stack), Below(m.stack);
    UnderWayPush(below, f.(busy := !f.busy));
    if !f.busy && m.queue != [] {
      UnderWayPush(below + [f.(busy := true)], Callback(p.begin(m.queue[0].what.tag)));
    }
  }

  lemma NextAccounts<H, L, T>(p: Host<H, L, T>, m: Machine<H, L, T>, base: Option<int>)
    requires Inv(m, base) && !Over(m) && Accounted(m)
    ensures Accounted(Next(p, m))
  {
    match m.ctl
    case Tell(reply) =>
      var (h, l, c) := p.next(m.host, Top(m.stack).local, reply);
      UnderWayPush(Below(m.stack), Callback(l));
      SwapTop(m.stack, Callback(l), m.horizon, base);
      PushFrame(Below(m.stack), Callback(l));
      PerformAccounts(p, m.(host := h, stack := Below(m.stack) + [Callback(l)]), c);
    case Resume => if !Top(m.stack).StepCall? { LoopAccounts(p, m); }
    case Unwind =>
  }

  /** In every reachable state every event taken to fire was processed, raised, or is under way. */
  lemma {:induction false} StepsAccount<H, L, T>(p: Host<H, L, T>, m: Machine<H, L, T>, n: nat, base: Option<int>)
    requires Inv(m, base) && Accounted(m)
    ensures Accounted(Steps(p, m, n))
    decreases n
  {
    if n > 0 && !Over(m) {
      NextKeeps(p, m, base);
      NextAccounts(p, m, base);
      StepsAccount(p, Next(p, m), n - 1, base);
    }
  }

  lemma {:induction false} StepsLast<H, L, T>(p: Host<H, L, T>, m: Machine<H, L, T>, n: nat, base: Option<int>)
    requires Inv(m, base) && !Over(Steps(p, m, n))
    ensures Inv(Steps(p, m, n), base) && Steps(p, m, n + 1) == Next(p, Steps(p, m, n))
    decreases n
  {
    if n > 0 && !Over(m) {
      NextKeeps(p, m, base);
      StepsLast(p, Next(p, m), n - 1, base);
    } else {
      assert Steps(p, m, 1) == Steps(p, Next(p, m), 0);
    }
  }

  // -- While a `run` is active ----------------------------------------------------------------

  predicate Due(time: int, until: Option<int>) {
    until.None? || time <= until.value
  }

  /** An event is due, and fewer than `max` were processed since the call began. */
  predicate Allowed(s: Shot, until: Option<int>, max: Option<int>, start: int) {
    Due(s.time, until) && (max.None? || s.before - start < max.value)
  }

  /** What was fired since `from`: nothing by the frames below `d`, and only allowed events by frame `d` itself. */
  ghost predicate FiredSince(
    from: seq<Shot>, shots: seq<Shot>, d: nat, until: Option<int>, max: Option<int>, start: int) {
    && |from| <= |shots| && shots[..|from|] == from
    && forall i :: |from| <= i < |shots| ==>
         d <= shots[i].frame && (shots[i].frame == d ==> Allowed(shots[i], until, max, start))
  }

  /** The frame above `low` is the loop of a `run` that began when `start` events were processed. */
  ghost predicate Running<L>(
    low: seq<Frame<L>>, until: Option<int>, max: Option<int>, start: int, stack: seq<Frame<L>>) {
    var d := |low|;
    && d < |stack| && stack[..d] == low
    && stack[d].RunLoop? && stack[d].until == until && stack[d].max == max && stack[d].start == start
  }

  /** The queue has nothing more for this `run`. */
  ghost predicate Exhausted<T>(q: Kernel.Queue<T>, until: Option<int>, max: Option<int>, count: int) {
    q == [] || (until.Some? && until.value < q[0].time) || (max.Some? && max.value <= count)
  }

  /** Working above the loop's frame leaves it alone. */
  lemma StaysRunning<L>(
    low: seq<Frame<L>>, until: Option<int>, max: Option<int>, start: int, stack: seq<Frame<L>>, stack': seq<Frame<L>>)
    requires Running(low, until, max, start, stack) && |low| < |stack'|
    requires |stack| - 1 <= |stack'| && stack'[..|stack| - 1] == stack[..|stack| - 1]
    requires |stack| == |low| + 1 ==>
               && stack'[|low|].RunLoop? && stack'[|low|].until == until && stack'[|low|].max == max
               && stack'[|low|].start == start
    ensures Running(low, until, max, start, stack')
  {
    var d := |low|;
    assert stack'[..d] == stack'[..|stack| - 1][..d] == stack[..|stack| - 1][..d] == stack[..d];
    if |stack| > d + 1 {
      assert stack'[d] == stack'[..|stack| - 1][d] == stack[d];
    }
  }

  lemma PopStaysRunning<L>(
    low: seq<Frame<L>>, until: Option<int>, max: Option<int>, start: int, stack: seq<Frame<L>>)
    requires Running(low, until, max, start, stack) && |stack| > |low| + 1
    ensures Running(low, until, max, start, Below(stack))
  {
  }

  lemma PushStaysRunning<L>(
    low: seq<Frame<L>>, until: Option<int>, max: Option<int>, start: int, stack: seq<Frame<L>>, f: Frame<L>)
    requires Running(low, until, max, start, stack)
    ensures Running(low, until, max, start, stack + [f])
  {
  }

  lemma OneMoreShot(
    from: seq<Shot>, shots: seq<Shot>, d: nat, until: Option<int>, max: Option<int>, start: int, s: Shot)
    requires FiredSince(from, shots, d, until, max, start)
    requires d <= s.frame && (s.frame == d ==> Allowed(s, until, max, start))
    ensures FiredSince(from, shots + [s], d, until, max, start)
  {
    assert (shots + [s])[..|from|] == shots[..|from|];
  }

  /** One call of a callback above the loop. */
  lemma PerformAbove<H, L, T>(
    p: Host<H, L, T>, m: Machine<H, L, T>, c: Call<T>, low: seq<Frame<L>>, until: Option<int>, max: Option<int>,
    start: int, from: seq<Shot>)
    requires Running(low, until, max, start, m.stack) && |m.stack| > |low| + 1
    requires FiredSince(from, m.shots, |low|, until, max, start)
    ensures Running(low, until, max, start, Perform(p, m, c).stack)
    ensures FiredSince(from, Perform(p, m, c).shots, |low|, until, max, start)
  {
    if c.Return? || c.Raise? {
      PopStaysRunning(low, until, max, start, m.stack);
    } else if c.Run? {
      PushStaysRunning(low, until, max, start, m.stack, RunLoop(c.until, m.horizon, c.max, m.processed, false));
    } else if c.Step? && m.queue != [] {
      var stack := m.stack + [StepCall];
      PushStaysRunning(low, until, max, start, m.stack, Frame<L>.StepCall);
      PushStaysRunning(low, until, max, start, stack, Callback(p.begin(m.queue[0].what.tag)));
      OneMoreShot(from, m.shots, |low|, until, max, start, Shot(m.queue[0].time, |stack| - 1, m.processed));
    }
  }

  /** One round of a loop, this one or one above it; only this one can come to its own end. */
  lemma LoopAtOrAbove<H, L, T>(
    p: Host<H, L, T>, m: Machine<H, L, T>, low: seq<Frame<L>>, until: Option<int>, max: Option<int>, start: int,
    from: seq<Shot>)
    requires Running(low, until, max, start, m.stack) && Top(m.stack).RunLoop?
    requires FiredSince(from, m.shots, |low|, until, max, start)
    ensures var r := Loop(p, m);
            && FiredSince(from, r.shots, |low|, until, max, start)
            && (Running(low, until, max, start, r.stack) ||
                (r.stack == low && r.ctl == Tell(Ran(r.processed - start))
                 && Exhausted(r.queue, until, max, r.processed - start)))
  {
    var f, below := Top(m.stack), Below(m.stack);
    if f.busy {
      StaysRunning(low, until, max, start, m.stack, below + [f.(busy := false)]);
    } else if Loop(p, m).stack == below {
      if |below| > |low| {
        PopStaysRunning(low, until, max, start, m.stack);
      }
    } else {
      var stack := below + [f.(busy := true)];
      StaysRunning(low, until, max, start, m.stack, stack);
      PushStaysRunning(low, until, max, start, stack, Callback(p.begin(m.queue[0].what.tag)));
      OneMoreShot(from, m.shots, |low|, until, max, start, Shot(m.queue[0].time, |stack| - 1, m.processed));
    }
  }

  /** One step of the machine while the `run` is active: it goes on, or it raises, or it answers. */
  lemma NextWhileRunning<H, L, T>(
    p: Host<H, L, T>, m: Machine<H, L, T>, base: Option<int>, low: seq<Frame<L>>, until: Option<int>,
    max: Option<int>, start: int, from: seq<Shot>)
    requires Inv(m, base)
    requires Running(low, until, max, start, m.stack) && FiredSince(from, m.shots, |low|, until, max, start)
    ensures var r := Next(p, m);
            && FiredSince(from, r.shots, |low|, until, max, start)
            && (Running(low, until, max, start, r.stack) ||
                (r.stack == low &&
                 (r.ctl == Tell(Failed) ||
                  (r.ctl == Tell(Ran(r.processed - start))
                   && Exhausted(r.queue, until, max, r.processed - start)))))
  {
    match m.ctl
    case Tell(reply) =>
      var (h, l, c) := p.next(m.host, Top(m.stack).local, reply);
      var stack := Below(m.stack) + [Callback(l)];
      StaysRunning(low, until, max, start, m.stack, stack);
      PerformAbove(p, m.(host := h, stack := stack), c, low, until, max, start, from);
    case Resume =>
      if Top(m.stack).StepCall? {
        PopStaysRunning(low, until, max, start, m.stack);
      } else {
        LoopAtOrAbove(p, m, low, until, max, start, from);
      }
    case Unwind =>
      if |m.stack| > |low| + 1 {
        PopStaysRunning(low, until, max, start, m.stack);
      }
  }

  // -- Main result ----------------------------------------------------------------------------

  /** The caller's frames once it has made its next call. */
  function Calling<H, L, T>(p: Host<H, L, T>, m: Machine<H, L, T>): seq<Frame<L>>
    requires m.stack != [] && Top(m.stack).Callback? && m.ctl.Tell?
  {
    Below(m.stack) + [Callback(p.next(m.host, Top(m.stack).local, m.ctl.reply).1)]
  }

  /** The top callback of `m` calls `run(until, max)`, and step `n` is the first that is back in it. */
  ghost predicate CallsRun<H, L, T>(
    p: Host<H, L, T>, m: Machine<H, L, T>, until: Option<int>, max: Option<int>, n: nat) {
    && m.stack != [] && Top(m.stack).Callback? && m.ctl.Tell?
    && p.next(m.host, Top(m.stack).local, m.ctl.reply).2 == Call.Run(until, max)
    && 1 <= n && |Steps(p, m, n).stack| == |m.stack|
    && forall i: nat :: 1 <= i < n ==> |m.stack| < |Steps(p, m, i).stack|
  }

  lemma {:induction false} StepsWhileRunning<H, L, T>(
    p: Host<H, L, T>, m: Machine<H, L, T>, base: Option<int>, until: Option<int>, max: Option<int>, n: nat, i: nat)
    requires Inv(m, base) && CallsRun(p, m, until, max, n) && 1 <= i < n
    ensures var x := Steps(p, m, i);
            && Inv(x, base) && Running(Calling(p, m), until, max, m.processed, x.stack)
            && FiredSince(m.shots, x.shots, |m.stack|, until, max, m.processed)
    decreases i
  {
    StepsKeep(p, m, i, base);
    if i == 1 {
      RunBegins(p, m, until, max);
      assert Steps(p, m, 1) == Steps(p, Next(p, m), 0) == Next(p, m);
    } else {
      StepsWhileRunning(p, m, base, until, max, n, i - 1);
      StepsLast(p, m, i - 1, base);
      NextWhileRunning(p, Steps(p, m, i - 1), base, Calling(p, m), until, max, m.processed, m.shots);
    }
  }

  lemma RunBegins<H, L, T>(p: Host<H, L, T>, m: Machine<H, L, T>, until: Option<int>, max: Option<int>)
    requires m.stack != [] && Top(m.stack).Callback? && m.ctl.Tell?
    requires p.next(m.host, Top(m.stack).local, m.ctl.reply).2 == Call.Run(until, max)
    ensures var r := Next(p, m);
            && Running(Calling(p, m), until, max, m.processed, r.stack)
            && FiredSince(m.shots, r.shots, |m.stack|, until, max, m.processed)
  {
    assert Next(p, m).stack == Calling(p, m) + [RunLoop(until, m.horizon, max, m.processed, false)];
  }

  /** The step that answers. */
  lemma RunStops<H, L, T>(
    p: Host<H, L, T>, m: Machine<H, L, T>, base: Option<int>, until: Option<int>, max: Option<int>, n: nat,
    count: int)
    requires Inv(m, base) && CallsRun(p, m, until, max, n) && Steps(p, m, n).ctl == Tell(Ran(count))
    ensures var end := Steps(p, m, n);
            && FiredSince(m.shots, end.shots, |m.stack|, until, max, m.processed)
            && end.stack == Calling(p, m) && count == end.processed - m.processed
            && Exhausted(end.queue, until, max, count)
  {
    assert n > 1 by {
      assert |Steps(p, m, 1).stack| == |Steps(p, Next(p, m), 0).stack|;
    }
    StepsWhileRunning(p, m, base, until, max, n, n - 1);
    StepsLast(p, m, n - 1, base);
    NextWhileRunning(p, Steps(p, m, n - 1), base, Calling(p, m), until, max, m.processed, m.shots);
  }

  /** A call of `run(until, max)` that answers, with whatever its callbacks did in between, nested runs, steps and
      caught exceptions included.  Nothing that is due is left, or `max` is reached; the events that this call took
      from the queue itself were due, each while fewer than `max` were processed, and nothing below it fired any; the
      answer is the number of events fired during the call at any depth, without those whose callback raised; and the
      caller's horizon is back. */
  lemma RunAnswers<H, L, T>(
    p: Host<H, L, T>, m: Machine<H, L, T>, base: Option<int>, until: Option<int>, max: Option<int>, n: nat,
    count: int)
    requires Inv(m, base) && Accounted(m) && CallsRun(p, m, until, max, n)
    requires Steps(p, m, n).ctl == Tell(Ran(count))
    ensures var end, d := Steps(p, m, n), |m.stack|;
            && (end.queue == [] || (until.Some? && until.value < end.queue[0].time)
                || (max.Some? && max.value <= count))
            && |m.shots| <= |end.shots| && end.shots[..|m.shots|] == m.shots
            && (forall i :: |m.shots| <= i < |end.shots| ==>
                  d <= end.shots[i].frame
                  && (end.shots[i].frame == d ==>
                        && (until.None? || end.shots[i].time <= until.value)
                        && (max.None? || end.shots[i].before - m.processed < max.value)))
            && count == (|end.shots| - |m.shots|) - (end.lost - m.lost)
            && end.horizon == m.horizon
  {
    RunStops(p, m, base, until, max, n, count);
    StepsKeep(p, m, n, base);
    StepsAccount(p, m, n, base);
    UnderWayPush(Below(m.stack), Callback(p.next(m.host, Top(m.stack).local, m.ctl.reply).1));
    PushFrame(Below(m.stack), Callback(p.next(m.host, Top(m.stack).local, m.ctl.reply).1));
  }

  /** A call of `step` takes the event at the head of the queue, and only when there is one. */
  lemma StepTakesHead<H, L, T>(p: Host<H, L, T>, m: Machine<H, L, T>)
    requires m.stack != [] && Top(m.stack).Callback? && m.ctl.Tell?
    requires p.next(m.host, Top(m.stack).local, m.ctl.reply).2 == Call.Step
    ensures var r := Next(p, m);
            if m.queue == [] then r.ctl == Tell(Stepped(false)) && r.shots == m.shots && |r.stack| == |m.stack|
            else
              && r.shots == m.shots + [Shot(m.queue[0].time, |m.stack|, m.processed)] && r.queue == m.queue[1..]
              && r.now == m.queue[0].time && |r.stack| == |m.stack| + 2
              && Top(r.stack) == Callback(p.begin(m.queue[0].what.tag)) && r.ctl == Tell(Start)
  {
  }

  /** A callback that returns ends its event, which then counts: a `step` answers that it took one, a `run` goes on. */
  lemma ReturnCounts<H, L, T>(p: Host<H, L, T>, m: Machine<H, L, T>, base: Option<int>)
    requires Inv(m, base) && |m.stack| >= 2 && Top(m.stack).Callback?
    requires p.next(m.host, Top(m.stack).local, m.ctl.reply).2 == Call.Return
    ensures var r, f := Steps(p, m, 2), m.stack[|m.stack| - 2];
            && r.processed == m.processed + 1 && r.lost == m.lost && r.horizon == m.horizon && r.now == m.now
            && if f.StepCall? then r.stack == m.stack[..|m.stack| - 2] && r.ctl == Tell(Stepped(true))
               else r.ctl == Resume && r.stack == m.stack[..|m.stack| - 2] + [f.(busy := false)]
  {
    TwoSteps(p, m, base);
  }

  /** An exception that leaves a callback reaches the caller of the `step` or `run` that fired it, which does not
      count the event; the caller's horizon is back. */
  lemma RaiseReachesCaller<H, L, T>(p: Host<H, L, T>, m: Machine<H, L, T>, base: Option<int>)
    requires Inv(m, base) && |m.stack| >= 2 && Top(m.stack).Callback?
    requires p.next(m.host, Top(m.stack).local, m.ctl.reply).2 == Call.Raise
    ensures var r, f := Steps(p, m, 2), m.stack[|m.stack| - 2];
            && r.processed == m.processed && r.lost == m.lost + 1 && r.now == m.now
            && r.stack == m.stack[..|m.stack| - 2] && r.ctl == Tell(Failed)
            && r.horizon == if f.StepCall? then m.horizon else f.previous
  {
    TwoSteps(p, m, base);
  }

  lemma TwoSteps<H, L, T>(p: Host<H, L, T>, m: Machine<H, L, T>, base: Option<int>)
    requires Inv(m, base) && |m.stack| >= 2 && Top(m.stack).Callback?
    requires var c := p.next(m.host, Top(m.stack).local, m.ctl.reply).2; c.Return? || c.Raise?
    ensures var m1 := Next(p, m);
            && m1.stack == Below(m.stack) && !Over(m1) && InControl(m1)
            && Steps(p, m, 2) == Next(p, m1)
  {
    var (h, l, c) := p.next(m.host, Top(m.stack).local, m.ctl.reply);
    PushFrame(Below(m.stack), Callback(l));
    NextKeeps(p, m, base);
    assert Steps(p, Next(p, m), 1) == Steps(p, Next(p, Next(p, m)), 0);
  }

  /** A new program has nothing to account for. */
  lemma BootIsAccounted<H, L, T>(host: H, main: L)
    ensures Accounted(Boot<H, L, T>(host, main))
  {
    UnderWayPush([], Callback(main));
    assert [] + [Callback(main)] == [Callback(main)];
  }
}

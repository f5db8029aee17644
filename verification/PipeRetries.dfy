/**
 When a stalled stage tries again: one cycle after the refusal, and every cycle until the stalled items are taken.
 */
module PipeRetries {
  import opened Prelude
  import opened Agenda
  import opened Pipes

  /** The times of the retries to come, in order. */
  ghost function Retries<T>(q: seq<Entry<Tag<T>>>): seq<int> {
    if q == [] then [] else (if q[0].what.Retry? then [q[0].time] else []) + Retries(q[1..])
  }

  lemma {:induction false} RetriesCount<T>(q: seq<Entry<Tag<T>>>)
    ensures |Retries(q)| == Whats(q)[Tag.Retry]
  {
    if q != [] {
      RetriesCount(q[1..]);
    }
  }

  /** One retry to come exactly when something is stalled. */
  lemma OneWhenStalled<S, T>(sh: Shape, st: Stage<S, T>)
    requires Inv(sh, st)
    ensures RetryWhenStalled(st) && st.pipe.inFlight <= sh.slots
  {
    RetriesCount(st.agenda);
  }

  ghost predicate RetryWhenStalled<S, T>(st: Stage<S, T>) {
    |Retries(st.agenda)| == Bit(st.pipe.stalled != []) && (st.pipe.retry <==> st.pipe.stalled != [])
  }

  lemma {:induction false} ArrivalAddsNone<T>(q: seq<Entry<Tag<T>>>, e: Entry<Tag<T>>)
    requires e.what.Arrive?
    ensures Retries(Insert(q, e)) == Retries(q)
  {
    if q != [] && NotAfter(q[0], e) {
      ArrivalAddsNone(q[1..], e);
      assert Insert(q, e)[1..] == Insert(q[1..], e);
    } else {
      assert ([e] + q)[1..] == q;
    }
  }

  lemma {:induction false} FirstRetry<T>(q: seq<Entry<Tag<T>>>, e: Entry<Tag<T>>)
    requires e.what.Retry? && Retries(q) == []
    ensures Retries(Insert(q, e)) == [e.time]
  {
    if q != [] && NotAfter(q[0], e) {
      FirstRetry(q[1..], e);
      assert Insert(q, e)[1..] == Insert(q[1..], e);
    } else {
      assert ([e] + q)[1..] == q;
    }
  }

  lemma {:induction false} EnteringAddsNone<S, T>(sh: Shape, st: Stage<S, T>, entered: seq<T>)
    ensures var r := Enter(sh, st, entered);
            Retries(r.agenda) == Retries(st.agenda) && r.pipe == st.pipe && r.now == st.now
    decreases |entered|
  {
    if entered != [] {
      var e := Entry(Due(sh, st.now), 0, Tag.Arrive(entered[0]));
      ArrivalAddsNone(st.agenda, e);
      EnteringAddsNone(
        sh, st.(agenda := Insert(st.agenda, e), puts := st.puts + [Stamp(st.now, entered[0])]), entered[1..]);
    }
  }

  /** The end of an event. */
  lemma FinishRetries<S, T>(sh: Shape, st: Stage<S, T>, entered: seq<T>, again: bool)
    requires again ==> Retries(st.agenda) == []
    ensures var r := Again(sh, Enter(sh, st, entered), again);
            && (again ==> Retries(r.agenda) == [st.now + sh.period])
            && (!again ==> Retries(r.agenda) == Retries(st.agenda))
            && r.pipe == st.pipe && r.now == st.now
  {
    EnteringAddsNone(sh, st, entered);
    AgainRetries(sh, Enter(sh, st, entered), again);
  }

  lemma AgainRetries<S, T>(sh: Shape, st: Stage<S, T>, again: bool)
    requires again ==> Retries(st.agenda) == []
    ensures var r := Again(sh, st, again);
            && (again ==> Retries(r.agenda) == [st.now + sh.period])
            && (!again ==> Retries(r.agenda) == Retries(st.agenda))
            && r.pipe == st.pipe && r.now == st.now
  {
    if again {
      FirstRetry(st.agenda, Entry(st.now + sh.period, 0, Tag<T>.Retry));
    }
  }

  lemma ArrivalRetries<S, T>(sh: Shape, f: Consumer<S, T>, st: Stage<S, T>, item: T)
    requires RetryWhenStalled(st)
    ensures var r := Arrived(sh, f, st, item);
            && r.now == st.now
            && Retries(r.agenda) == if r.pipe.stalled == [] then []
                                    else if st.pipe.stalled == [] then [st.now + sh.period]
                                    else Retries(st.agenda)
  {
    var o := Deliver(sh, f, st.pipe, st.s, item);
    FinishRetries(sh, Tried(st, o, item), o.entered, o.again);
  }

  lemma DrainingRetries<S, T>(sh: Shape, f: Consumer<S, T>, st: Stage<S, T>)
    requires Retries(st.agenda) == [] && st.pipe.inFlight <= sh.slots
    ensures var r := Retried(sh, f, st);
            r.now == st.now && Retries(r.agenda) == if r.pipe.stalled == [] then [] else [st.now + sh.period]
  {
    var o := Drain(sh, f, st.pipe.(retry := false), st.s);
    DrainEffect(sh, f, st.pipe.(retry := false), st.s);
    FinishRetries(sh, Drained(st, o), o.entered, o.again);
  }

  predicate FiresRetry<S, T>(st: Stage<S, T>, m: Move<S, T>) {
    m.Fire? && st.agenda != [] && st.agenda[0].what.Retry?
  }

  /** A stage that stalls, or that tried again and is still stalled, tries again one cycle later; meanwhile the retry
      stays where it is; a stage that is not stalled has none. */
  lemma RetriesEveryCycle<S, T>(sh: Shape, f: Consumer<S, T>, st: Stage<S, T>, m: Move<S, T>)
    requires sh.Valid() && Inv(sh, st) && Enabled(st, m)
    ensures var r := Step(sh, f, st, m);
            Retries(r.agenda) == if r.pipe.stalled == [] then []
                                 else if st.pipe.stalled == [] || FiresRetry(st, m) then [r.now + sh.period]
                                 else Retries(st.agenda)
  {
    OneWhenStalled(sh, st);
    StepRetries(sh, f, st, m);
  }

  lemma StepRetries<S, T>(sh: Shape, f: Consumer<S, T>, st: Stage<S, T>, m: Move<S, T>)
    requires RetryWhenStalled(st) && st.pipe.inFlight <= sh.slots && Enabled(st, m)
    ensures var r := Step(sh, f, st, m);
            Retries(r.agenda) == if r.pipe.stalled == [] then []
                                 else if st.pipe.stalled == [] || FiresRetry(st, m) then [r.now + sh.period]
                                 else Retries(st.agenda)
  {
    if m.Put? {
      PutRetries(sh, st, m.item);
    } else if m.Fire? {
      if st.agenda[0].what.Arrive? {
        FireArrivalRetries(sh, f, st);
      } else {
        FireRetryRetries(sh, f, st);
      }
    }
  }

  lemma PutRetries<S, T>(sh: Shape, st: Stage<S, T>, item: T)
    ensures var r := PutItem(sh, st, item);
            Retries(r.agenda) == Retries(st.agenda) && r.pipe.stalled == st.pipe.stalled && r.now == st.now
  {
    var st1 := st.(pipe := st.pipe.(inFlight := st.pipe.inFlight + 1));
    EnteringAddsNone(sh, st1, [item]);
  }

  lemma FireArrivalRetries<S, T>(sh: Shape, f: Consumer<S, T>, st: Stage<S, T>)
    requires RetryWhenStalled(st) && st.agenda != [] && st.agenda[0].what.Arrive?
    ensures var r := FireHead(sh, f, st);
            Retries(r.agenda) == if r.pipe.stalled == [] then []
                                 else if st.pipe.stalled == [] then [r.now + sh.period]
                                 else Retries(st.agenda)
  {
    var st1 := st.(now := st.agenda[0].time, agenda := st.agenda[1..]);
    NoneAtHead(st.agenda);
    ArrivalRetries(sh, f, st1, st.agenda[0].what.item);
  }

  lemma NoneAtHead<T>(q: seq<Entry<Tag<T>>>)
    requires q != [] && q[0].what.Arrive?
    ensures Retries(q[1..]) == Retries(q)
  {
    assert [] + Retries(q[1..]) == Retries(q[1..]);
  }

  lemma FireRetryRetries<S, T>(sh: Shape, f: Consumer<S, T>, st: Stage<S, T>)
    requires RetryWhenStalled(st) && st.agenda != [] && st.agenda[0].what.Retry? && st.pipe.inFlight <= sh.slots
    ensures var r := FireHead(sh, f, st);
            Retries(r.agenda) == if r.pipe.stalled == [] then [] else [r.now + sh.period]
  {
    var st1 := st.(now := st.agenda[0].time, agenda := st.agenda[1..]);
    assert Retries(st.agenda) == [st1.now] + Retries(st1.agenda);
    DrainingRetries(sh, f, st1);
  }

  /** Over whole runs: a stalled stage tries again within a cycle. */
  lemma {:induction false} StalledTriesSoon<S, T>(
    sh: Shape, f: Consumer<S, T>, st: Stage<S, T>, ms: seq<Move<S, T>>, end: Stage<S, T>)
    requires sh.Valid() && Inv(sh, st) && Reaches(sh, f, st, ms, end)
    requires Soon(sh, st)
    ensures Soon(sh, end)
    decreases ms
  {
    if ms != [] {
      StepKeeps(sh, f, st, ms[0]);
      StepKeepsSoon(sh, f, st, ms[0]);
      StalledTriesSoon(sh, f, Step(sh, f, st, ms[0]), ms[1..], end);
    }
  }

  /** A stalled stage has one retry to come, at most one cycle from now; another stage has none. */
  ghost predicate Soon<S, T>(sh: Shape, st: Stage<S, T>) {
    if st.pipe.stalled == [] then Retries(st.agenda) == []
    else |Retries(st.agenda)| == 1 && st.now <= Retries(st.agenda)[0] <= st.now + sh.period
  }

  lemma StepKeepsSoon<S, T>(sh: Shape, f: Consumer<S, T>, st: Stage<S, T>, m: Move<S, T>)
    requires sh.Valid() && Inv(sh, st) && Enabled(st, m) && Soon(sh, st)
    ensures Soon(sh, Step(sh, f, st, m))
  {
    var r := Step(sh, f, st, m);
    StepKeeps(sh, f, st, m);
    RetriesEveryCycle(sh, f, st, m);
    RetriesFrom(r.agenda, r.now);
    TimePasses(sh, f, st, m);
  }

  lemma TimePasses<S, T>(sh: Shape, f: Consumer<S, T>, st: Stage<S, T>, m: Move<S, T>)
    requires sh.Valid() && Inv(sh, st) && Enabled(st, m)
    ensures st.now <= Step(sh, f, st, m).now
  {
    match m
    case Env(now, s) =>
    case Put(item) => PutRetries(sh, st, item);
    case Fire =>
      var st1 := st.(now := st.agenda[0].time, agenda := st.agenda[1..]);
      if st.agenda[0].what.Arrive? {
        var item := st.agenda[0].what.item;
        var o := Deliver(sh, f, st1.pipe, st1.s, item);
        EnteringAddsNone(sh, Tried(st1, o, item), o.entered);
      } else {
        var o := Drain(sh, f, st1.pipe.(retry := false), st1.s);
        EnteringAddsNone(sh, Drained(st1, o), o.entered);
      }
  }

  lemma {:induction false} RetriesFrom<T>(q: seq<Entry<Tag<T>>>, now: int)
    requires Sorted(q) && From(q, now)
    ensures forall i :: 0 <= i < |Retries(q)| ==> now <= Retries(q)[i]
  {
    if q != [] {
      RetriesFrom(q[1..], now);
    }
  }
}

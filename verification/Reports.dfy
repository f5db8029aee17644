/**
 What completion callbacks are told and when, and how the idle clock backs off.

 A read's callback gets the times that the engine handed back with it, a write's callback the cycle of its
 acceptance twice.  Completions are due at once, at the completion priority; the clock chains have priority 0.
 */
module Reports {
  import opened Prelude
  import opened Agenda
  import opened Engine
  import opened Device
  import opened Chains
  import opened World
  import opened Delivery
  import ClockLag
  import Coalescing

  // -- What callbacks are told ---------------------------------------------------------

  /** What one callback is told about the requests of one kind and core. */
  ghost function Infos<C>(ns: seq<Note<C>>, k: Key<C>): multiset<Info> {
    if ns == [] then multiset{}
    else
      var i := ns[0].info;
      (if ns[0].user == Some(k.cb) && i.kind == k.kind && i.core == k.core then multiset{i} else multiset{})
      + Infos(ns[1..], k)
  }

  /** The reads that the engine has handed back for one callback and core, with their times. */
  ghost function Handed<C>(s: seq<Served<C>>, k: Key<C>): multiset<Info> {
    if s == [] then multiset{}
    else
      (if s[0].closure == Record(k.core, Some(k.cb))
       then multiset{Info(s[0].addr, READ, s[0].arrive, s[0].depart, k.core)} else multiset{})
      + Handed(s[1..], k)
  }

  /** The accepted writes of one callback and core: they arrive and depart in the cycle of their acceptance. */
  ghost function Written<C>(a: seq<Accepted<C>>, k: Key<C>): multiset<Info> {
    if a == [] then multiset{}
    else
      var x := a[|a| - 1];
      Written(a[..|a| - 1], k)
      + (if x.kind == WRITE && x.user == Some(k.cb) && x.core == k.core
         then multiset{Info(x.addr, WRITE, x.at, x.at, k.core)} else multiset{})
  }

  ghost function Due<C>(s: seq<Served<C>>, a: seq<Accepted<C>>, k: Key<C>): multiset<Info> {
    if k.kind == READ then Handed(s, k) else Written(a, k)
  }

  /** The recorded completions are those of the reads handed back and of the accepted writes, times included. */
  ghost predicate Exact<E, C(!new), U>(d: Dev<E, C, U>) {
    forall k :: Infos(d.recorded, k) == Due(d.served, d.accepted, k)
  }

  lemma {:induction false} InfosAppend<C>(a: seq<Note<C>>, b: seq<Note<C>>, k: Key<C>)
    ensures Infos(a + b, k) == Infos(a, k) + Infos(b, k)
  {
    if a == [] {
      assert a + b == b;
    } else {
      assert (a + b)[1..] == a[1..] + b;
      InfosAppend(a[1..], b, k);
    }
  }

  /** Notes without a callback tell nobody. */
  lemma {:induction false} InfosWithCallback<C>(ns: seq<Note<C>>, k: Key<C>)
    ensures Infos(WithCallback(ns), k) == Infos(ns, k)
  {
    if ns != [] {
      InfosWithCallback(ns[1..], k);
      var rest := WithCallback(ns[1..]);
      if ns[0].user.Some? {
        assert ([ns[0]] + rest)[1..] == rest;
      } else {
        assert [] + rest == rest;
      }
    }
  }

  lemma {:induction false} HandedAppend<C>(a: seq<Served<C>>, b: seq<Served<C>>, k: Key<C>)
    ensures Handed(a + b, k) == Handed(a, k) + Handed(b, k)
  {
    if a == [] {
      assert a + b == b;
    } else {
      assert (a + b)[1..] == a[1..] + b;
      HandedAppend(a[1..], b, k);
    }
  }

  /** Only reads that record are handed back. */
  ghost predicate Plain<C>(s: seq<Served<C>>) {
    forall i :: 0 <= i < |s| ==> s[i].kind == READ && !s[i].closure.Counted?
  }

  lemma {:induction false} TicksArePlain<E(!new), C(!new)>(g: Engine<E, C>, flight: Flight<E, C>, e: E, n: nat)
    requires Honest(g, flight) && NoDrive(flight, e)
    ensures Plain(TickN(g, e, n).1)
    decreases n
  {
    if n > 0 {
      var (e1, s) := g.tick(e);
      forall u: Option<C>
        ensures flight(e1, Counted(u)) == multiset{} && ServedUnder(s, Counted(u)) == multiset{}
      {
        assert flight(e, Counted(u)) == flight(e1, Counted(u)) + ServedUnder(s, Counted(u));
      }
      forall i | 0 <= i < |s|
        ensures s[i].kind == READ && !s[i].closure.Counted?
      {
        ServedMember(s, i);
      }
      TicksArePlain(g, flight, e1, n - 1);
    }
  }

  /** What is recorded of reads handed back. */
  lemma {:induction false} RecordedAreHanded<C>(s: seq<Served<C>>, k: Key<C>)
    requires Plain(s)
    ensures Infos(Recorded(s), k) == if k.kind == READ then Handed(s, k) else multiset{}
  {
    if s != [] {
      assert forall i :: 0 <= i < |s[1..]| ==> s[1..][i] == s[i + 1];
      RecordedAreHanded(s[1..], k);
      var rest := Recorded(s[1..]);
      if s[0].closure.NoOp? {
        assert Recorded(s) == [] + rest == rest;
      } else {
        assert Recorded(s) == Noted(s[0]) + rest && |Noted(s[0])| == 1;
        assert Recorded(s)[0] == Noted(s[0])[0] && Recorded(s)[1..] == rest;
      }
    }
  }

  lemma GatherIsExact<E, C(!new), U>(d: Dev<E, C, U>, s: seq<Served<C>>, r: Dev<E, C, U>)
    requires Exact(d) && Plain(s) && r.recorded == d.recorded + Recorded(s) && r.served == d.served + s
    requires r.accepted == d.accepted
    ensures Exact(r)
  {
    forall k
      ensures Infos(r.recorded, k) == Due(r.served, r.accepted, k)
    {
      InfosAppend(d.recorded, Recorded(s), k);
      HandedAppend(d.served, s, k);
      RecordedAreHanded(s, k);
    }
  }

  lemma {:induction false} DeliverKeepsHistories<E, C, U>(cfg: Config, d: Dev<E, C, U>)
    ensures var r := Deliver(cfg, d);
            r == d.(agenda := r.agenda, posted := r.posted, completed := [])
    decreases |d.completed|
  {
    if d.completed != [] {
      var n := d.completed[0];
      var d1 := d.(completed := d.completed[1..]);
      DeliverKeepsHistories(cfg, if n.user.None? then d1 else Post(cfg, d1, n.user.value, n.info));
    }
  }

  lemma TickIsExact<E(!new), C(!new), U>(
    cfg: Config, g: Engine<E, C>, flight: Flight<E, C>, d: Dev<E, C, U>, max: nat)
    requires Honest(g, flight) && NoDrive(flight, d.mem) && Exact(d) && 1 <= max
    ensures Exact(TickBody(cfg, g, d, max))
  {
    var b := UntilProgress(g, d.mem, max);
    UntilProgressIsFirst(g, d.mem, max);
    TicksArePlain(g, flight, d.mem, b.cycles);
    DeliverKeepsHistories(cfg, Advance(cfg, d, b));
    GatherIsExact(d, TickN(g, d.mem, b.cycles).1, TickBody(cfg, g, d, max));
  }

  lemma IdleIsExact<E(!new), C(!new), U>(cfg: Config, g: Engine<E, C>, flight: Flight<E, C>, d: Dev<E, C, U>)
    requires Honest(g, flight) && NoDrive(flight, d.mem) && Exact(d)
    ensures Exact(IdleBody(cfg, g, d))
  {
    TicksArePlain(g, flight, d.mem, d.idleBatch);
    GatherIsExact(d, TickN(g, d.mem, d.idleBatch).1, IdleBody(cfg, g, d));
  }

  // -- Requests ---------------------------------------------------------------------------

  lemma WrittenOne<C>(a: seq<Accepted<C>>, x: Accepted<C>, k: Key<C>)
    ensures Written(a + [x], k) ==
            Written(a, k) + (if x.kind == WRITE && x.user == Some(k.cb) && x.core == k.core
                             then multiset{Info(x.addr, WRITE, x.at, x.at, k.core)} else multiset{})
  {
    assert (a + [x])[..|a|] == a;
  }

  /** Accepted writes leave their notes, and reads none. */
  lemma {:induction false} SendAllWrites<E, C, U>(
    g: Engine<E, C>, d: Dev<E, C, U>, addrs: seq<int>, kind: Kind, core: int, cb: Option<C>, k: Key<C>)
    ensures var (r, oks) := SendAll(g, d, addrs, kind, core, cb);
            && r == d.(mem := r.mem, accepted := r.accepted)
            && Written(r.accepted, k) == Written(d.accepted, k) +
               (if kind == WRITE then Infos(WriteNotes(addrs, oks, d.clk, core, cb), k.(kind := WRITE)) else multiset{})
    decreases addrs
  {
    if addrs != [] {
      var (d1, ok) := Send(g, d, addrs[0], kind, core, cb);
      SendAllWrites(g, d1, addrs[1..], kind, core, cb, k);
      var (r, oks) := SendAll(g, d1, addrs[1..], kind, core, cb);
      assert ([ok] + oks)[1..] == oks;
      var rest := WriteNotes(addrs[1..], oks, d.clk, core, cb);
      if ok {
        WrittenOne(d.accepted, Accepted(addrs[0], kind, core, cb, d.clk), k);
        var one := [WriteNote(addrs[0], d.clk, core, cb)];
        assert WriteNotes(addrs, [ok] + oks, d.clk, core, cb) == one + rest;
        assert (one + rest)[1..] == rest;
      } else {
        assert WriteNotes(addrs, [ok] + oks, d.clk, core, cb) == [] + rest == rest;
      }
    }
  }

  lemma {:induction false} WriteNotesAreWrites<C>(
    addrs: seq<int>, oks: seq<bool>, clk: int, core: int, cb: Option<C>, k: Key<C>)
    requires |addrs| == |oks| && k.kind == READ
    ensures Infos(WriteNotes(addrs, oks, clk, core, cb), k) == multiset{}
  {
    if addrs != [] {
      WriteNotesAreWrites(addrs[1..], oks[1..], clk, core, cb, k);
      var rest := WriteNotes(addrs[1..], oks[1..], clk, core, cb);
      if oks[0] {
        assert ([WriteNote(addrs[0], clk, core, cb)] + rest)[1..] == rest;
      } else {
        assert [] + rest == rest;
      }
    }
  }

  lemma StartTickingKeepsHistories<E, C, U>(cfg: Config, d: Dev<E, C, U>)
    ensures var r := StartTicking(cfg, d);
            r.recorded == d.recorded && r.served == d.served && r.accepted == d.accepted && r.naps == d.naps
  {
  }

  lemma ReadsAreExact<E, C(!new), U>(
    cfg: Config, g: Engine<E, C>, d: Dev<E, C, U>, addrs: seq<int>, core: int, cb: Option<C>)
    requires Exact(d)
    ensures Exact(Reads(cfg, g, d, addrs, core, cb).0)
  {
    if CoreOk(cfg, core) {
      var (d1, oks) := SendAll(g, d, addrs, READ, core, cb);
      forall k
        ensures Infos(d1.recorded, k) == Due(d1.served, d1.accepted, k)
      {
        SendAllWrites(g, d, addrs, READ, core, cb, k);
      }
      StartTickingKeepsHistories(cfg, d1);
    }
  }

  lemma WritesAreExact<E, C(!new), U>(
    cfg: Config, g: Engine<E, C>, d: Dev<E, C, U>, addrs: seq<int>, core: int, cb: Option<C>)
    requires Exact(d)
    ensures Exact(Writes(cfg, g, d, addrs, core, cb).0)
  {
    if CoreOk(cfg, core) {
      var (d1, oks) := SendAll(g, d, addrs, WRITE, core, cb);
      var notes := WriteNotes(addrs, oks, d1.clk, core, cb);
      var d2 := Gather(d1, notes);
      forall k
        ensures Infos(d2.recorded, k) == Due(d2.served, d2.accepted, k)
      {
        SendAllWrites(g, d, addrs, WRITE, core, cb, k);
        InfosAppend(d.recorded, notes, k);
        if k.kind == READ {
          WriteNotesAreWrites(addrs, oks, d1.clk, core, cb, k);
        } else {
          assert k == k.(kind := WRITE);
        }
      }
      DeliverKeepsHistories(cfg, d2);
      StartTickingKeepsHistories(cfg, Deliver(cfg, d2));
    }
  }

  lemma ActDramIsExact<E, C(!new), U, V>(cfg: Config, g: Engine<E, C>, d: Dev<E, C, U>, m: DramCall<C>)
    requires Exact(d) && d.completed == []
    ensures Exact(ActDram<E, C, U, V>(cfg, g, d, m).0)
  {
    match m
    case DoRead(addr, core, cb) =>
      ReadIsReads(cfg, g, d, addr, core, cb);
      ReadsAreExact(cfg, g, d, [addr], core, cb);
    case DoWrite(addr, core, cb) =>
      WriteIsWrites(cfg, g, d, addr, core, cb);
      WritesAreExact(cfg, g, d, [addr], core, cb);
    case DoReads(addrs, core, cb) => ReadsAreExact(cfg, g, d, addrs, core, cb);
    case DoWrites(addrs, core, cb) => WritesAreExact(cfg, g, d, addrs, core, cb);
  }

  lemma SameHistories<E, C(!new), U>(d: Dev<E, C, U>, r: Dev<E, C, U>)
    requires Exact(d) && r.recorded == d.recorded && r.served == d.served && r.accepted == d.accepted
    ensures Exact(r)
  {
  }

  lemma ActIsExact<E, C(!new), V, H>(cfg: Config, g: Engine<E, C>, w: World<E, C, V, H>, a: Action<C, V>)
    requires Exact(w.dev) && w.dev.completed == []
    ensures Exact(Act(cfg, g, w, a).dev)
  {
    if a.OnDram? {
      ActDramIsExact<E, C, Named<V>, V>(cfg, g, w.dev, a.m);
    } else {
      SameHistories(w.dev, Act(cfg, g, w, a).dev);
    }
  }

  lemma FireIsExact<E(!new), C(!new), V, H>(
    mode: Mode, cfg: Config, g: Engine<E, C>, flight: Flight<E, C>, w: World<E, C, V, H>, h: Horizon)
    requires cfg.Valid() && Honest(g, flight) && NoDrive(flight, w.dev.mem) && Exact(w.dev) && w.dev.agenda != []
    ensures Exact(Fire(mode, cfg, g, w, h).dev)
  {
    var d := Pop(w.dev);
    SameHistories(w.dev, d);
    match w.dev.agenda[0].what {
      case Tick => TickIsExact(cfg, g, flight, d, BurstBound(mode, cfg, d, h));
      case IdleTick => IdleIsExact(cfg, g, flight, d);
      case Call(_, _) =>
      case User(_) =>
    }
  }

  lemma StepIsExact<E(!new), C(!new), V, H>(
    mode: Mode, cfg: Config, g: Engine<E, C>, flight: Flight<E, C>, host: Host<H, C, V>, w: World<E, C, V, H>,
    h: Horizon)
    requires cfg.Valid() && Honest(g, flight) && NoDrive(flight, w.dev.mem) && Exact(w.dev)
    requires w.dev.completed == [] && !Halted(w, h)
    ensures Exact(Step(mode, cfg, g, host, w, h).dev)
  {
    if w.ctl.Some? {
      var (host', a) := host(w.host, w.ctl.value);
      ActIsExact(cfg, g, w.(host := host'), a);
    } else {
      FireIsExact(mode, cfg, g, flight, w, h);
    }
  }

  // -- Priorities -----------------------------------------------------------------------------

  /** Events of the clock chains have priority 0. */
  ghost predicate Ranked<E, C, U>(d: Dev<E, C, U>) {
    forall e :: e in d.agenda && (e.what.Tick? || e.what.IdleTick?) ==> e.prio == 0
  }

  lemma AtIsRanked<E, C, U>(d: Dev<E, C, U>, time: int, prio: int, tag: Tag<C, U>)
    requires Ranked(d) && (tag.Tick? || tag.IdleTick? ==> prio == 0)
    ensures Ranked(At(d, time, prio, tag))
  {
    InsertMembers(d.agenda, Entry(time, prio, tag));
  }

  lemma DropIsRanked<E, C, U>(d: Dev<E, C, U>, dead: Tag<C, U> -> bool)
    requires Ranked(d)
    ensures Ranked(d.(agenda := Drop(d.agenda, dead)))
  {
    DropMembers(d.agenda, dead);
  }

  lemma {:induction false} DeliverIsRanked<E, C, U>(cfg: Config, d: Dev<E, C, U>)
    requires Ranked(d)
    ensures Ranked(Deliver(cfg, d))
    decreases |d.completed|
  {
    if d.completed != [] {
      var n := d.completed[0];
      var d1 := d.(completed := d.completed[1..]);
      if n.user.Some? {
        AtIsRanked(d1, d1.now, cfg.priority, Tag.Call(n.user.value, n.info));
        DeliverIsRanked(cfg, Post(cfg, d1, n.user.value, n.info));
      } else {
        DeliverIsRanked(cfg, d1);
      }
    }
  }

  lemma StartTickingIsRanked<E, C, U>(cfg: Config, d: Dev<E, C, U>)
    requires Ranked(d)
    ensures Ranked(StartTicking(cfg, d))
  {
    DropIsRanked(d, IsIdle);
    var d1 := if d.idleTicking then d.(idleTicking := false, agenda := Drop(d.agenda, IsIdle)) else d;
    AtIsRanked(d1.(ticking := true), d.now + 1 * cfg.period, 0, Tag.Tick);
  }

  lemma GoOnIsRanked<E, C, U>(cfg: Config, g: Engine<E, C>, d: Dev<E, C, U>)
    requires Ranked(d)
    ensures Ranked(GoOn(cfg, g, d))
  {
    AtIsRanked(d, d.now + 1 * cfg.period, 0, Tag.Tick);
    AtIsRanked(d.(ticking := false, idleTicking := true, idleBatch := cfg.idleBase),
               d.now + cfg.idleBase * cfg.period, 0, Tag<C, U>.IdleTick);
  }

  lemma TickIsRanked<E, C, U>(cfg: Config, g: Engine<E, C>, d: Dev<E, C, U>, max: nat)
    requires Ranked(d) && 1 <= max
    ensures Ranked(TickBody(cfg, g, d, max))
  {
    var d1 := Advance(cfg, d, UntilProgress(g, d.mem, max));
    DeliverIsRanked(cfg, d1);
    GoOnIsRanked(cfg, g, Deliver(cfg, d1));
  }

  lemma IdleIsRanked<E, C, U>(cfg: Config, g: Engine<E, C>, d: Dev<E, C, U>, r: Dev<E, C, U>)
    requires Ranked(d) && r == IdleBody(cfg, g, d)
    ensures Ranked(r)
  {
    var (e, s) := TickN(g, d.mem, d.idleBatch);
    var d1 := Gather(d.(mem := e, clk := d.clk + d.idleBatch, served := d.served + s, naps := d.naps + 1), Recorded(s));
    if g.pending(e) > 0 {
      StartTickingIsRanked(cfg, d1.(idleTicking := false, idleBatch := cfg.idleBase));
    } else {
      var next: nat := Min(d.idleBatch * 2, cfg.MaxIdle());
      AtIsRanked(d1.(idleBatch := next), d1.now + next * cfg.period, 0, Tag<C, U>.IdleTick);
    }
  }

  lemma SendAllIsRanked<E, C, U>(
    g: Engine<E, C>, d: Dev<E, C, U>, addrs: seq<int>, kind: Kind, core: int, cb: Option<C>)
    requires Ranked(d)
    ensures Ranked(SendAll(g, d, addrs, kind, core, cb).0)
  {
    SendAllTold(g, d, addrs, kind, core, cb);
  }

  lemma ActDramIsRanked<E, C, U, V>(cfg: Config, g: Engine<E, C>, d: Dev<E, C, U>, m: DramCall<C>)
    requires Ranked(d) && d.completed == []
    ensures Ranked(ActDram<E, C, U, V>(cfg, g, d, m).0)
  {
    match m
    case DoRead(addr, core, cb) =>
      ReadIsReads(cfg, g, d, addr, core, cb);
      ReadsAreRanked(cfg, g, d, [addr], core, cb);
    case DoWrite(addr, core, cb) =>
      WriteIsWrites(cfg, g, d, addr, core, cb);
      WritesAreRanked(cfg, g, d, [addr], core, cb);
    case DoReads(addrs, core, cb) => ReadsAreRanked(cfg, g, d, addrs, core, cb);
    case DoWrites(addrs, core, cb) => WritesAreRanked(cfg, g, d, addrs, core, cb);
  }

  lemma ReadsAreRanked<E, C, U>(
    cfg: Config, g: Engine<E, C>, d: Dev<E, C, U>, addrs: seq<int>, core: int, cb: Option<C>)
    requires Ranked(d)
    ensures Ranked(Reads(cfg, g, d, addrs, core, cb).0)
  {
    SendAllIsRanked(g, d, addrs, READ, core, cb);
    StartTickingIsRanked(cfg, SendAll(g, d, addrs, READ, core, cb).0);
  }

  lemma WritesAreRanked<E, C, U>(
    cfg: Config, g: Engine<E, C>, d: Dev<E, C, U>, addrs: seq<int>, core: int, cb: Option<C>)
    requires Ranked(d)
    ensures Ranked(Writes(cfg, g, d, addrs, core, cb).0)
  {
    SendAllIsRanked(g, d, addrs, WRITE, core, cb);
    var (d1, oks) := SendAll(g, d, addrs, WRITE, core, cb);
    var d2 := Gather(d1, WriteNotes(addrs, oks, d1.clk, core, cb));
    DeliverIsRanked(cfg, d2);
    StartTickingIsRanked(cfg, Deliver(cfg, d2));
  }

  lemma StepIsRanked<E, C, V, H>(
    mode: Mode, cfg: Config, g: Engine<E, C>, host: Host<H, C, V>, w: World<E, C, V, H>, h: Horizon)
    requires cfg.Valid() && Ranked(w.dev) && w.dev.completed == [] && !Halted(w, h)
    ensures Ranked(Step(mode, cfg, g, host, w, h).dev)
  {
    if w.ctl.Some? {
      var (host', a) := host(w.host, w.ctl.value);
      ActIsRanked(cfg, g, w.(host := host'), a);
    } else {
      var d := Pop(w.dev);
      match w.dev.agenda[0].what {
        case Tick => TickIsRanked(cfg, g, d, BurstBound(mode, cfg, d, h));
        case IdleTick => IdleIsRanked(cfg, g, d, IdleBody(cfg, g, d));
        case Call(_, _) =>
        case User(_) =>
      }
    }
  }

  lemma ActIsRanked<E, C, V, H>(cfg: Config, g: Engine<E, C>, w: World<E, C, V, H>, a: Action<C, V>)
    requires Ranked(w.dev) && w.dev.completed == []
    ensures Ranked(Act(cfg, g, w, a).dev)
  {
    if a.OnDram? {
      ActDramIsRanked<E, C, Named<V>, V>(cfg, g, w.dev, a.m);
    } else if a.OnSim? {
      match a.s {
        case Schedule(delay, prio, v) => AtIsRanked(w.dev, w.dev.now + delay, prio, Tag.User(Named(w.handles, v)));
        case ScheduleAt(time, prio, v) => AtIsRanked(w.dev, time, prio, Tag.User(Named(w.handles, v)));
        case Cancel(handle) => DropIsRanked(w.dev, (t: Tag<C, Named<V>>) => Names(t, handle));
      }
    }
  }

  // -- The back-off -----------------------------------------------------------------------------

  function Pow2(k: nat): nat {
    if k == 0 then 1 else 2 * Pow2(k - 1)
  }

  /** How many cycles the idle event after `k` others in a row stands for. */
  function BackOff(base: nat, k: nat): nat {
    if Pow2(k) < 16 then Pow2(k) * base else 16 * base
  }

  /** The pending idle event stands for a number of cycles that depends only on how many idle events fired since the
      component was last busy. */
  ghost predicate Rested<E, C, U>(cfg: Config, d: Dev<E, C, U>) {
    d.idleTicking ==> d.idleBatch == BackOff(cfg.idleBase, d.naps)
  }

  lemma BackOffDoubles(base: nat, k: nat)
    ensures BackOff(base, k + 1) == if BackOff(base, k) * 2 <= 16 * base then BackOff(base, k) * 2 else 16 * base
  {
    if Pow2(k) < 8 {
      assert Pow2(k) * base * 2 == (2 * Pow2(k)) * base;
      assert (2 * Pow2(k)) * base <= 16 * base;
    } else if Pow2(k) < 16 {
      assert Pow2(k) * base * 2 == (2 * Pow2(k)) * base >= 16 * base;
      assert k < 4 by {
        PowGrows(4, k);
      }
      assert Pow2(k) == 8;
    }
  }

  lemma {:induction false} PowGrows(a: nat, k: nat)
    ensures a <= k ==> Pow2(a) <= Pow2(k)
    decreases k
  {
    if a < k {
      PowGrows(a, k - 1);
    }
  }

  /** A request can only end an idle stretch; it does not touch the back-off. */
  ghost predicate SameRest<E, C, U>(d: Dev<E, C, U>, r: Dev<E, C, U>) {
    r.naps == d.naps && r.idleBatch == d.idleBatch && (r.idleTicking ==> d.idleTicking)
  }

  lemma SendAllSameRest<E, C, U>(
    cfg: Config, g: Engine<E, C>, d: Dev<E, C, U>, addrs: seq<int>, kind: Kind, core: int, cb: Option<C>)
    ensures SameRest(d, Reads(cfg, g, d, addrs, core, cb).0)
    ensures SameRest(d, Writes(cfg, g, d, addrs, core, cb).0)
  {
    SendAllTold(g, d, addrs, READ, core, cb);
    SendAllTold(g, d, addrs, WRITE, core, cb);
    var (d1, oks) := SendAll(g, d, addrs, WRITE, core, cb);
    DeliverKeepsHistories(cfg, Gather(d1, WriteNotes(addrs, oks, d1.clk, core, cb)));
  }

  lemma ActDramSameRest<E, C, U, V>(cfg: Config, g: Engine<E, C>, d: Dev<E, C, U>, m: DramCall<C>)
    requires d.completed == []
    ensures SameRest(d, ActDram<E, C, U, V>(cfg, g, d, m).0)
  {
    match m
    case DoRead(addr, core, cb) =>
      ReadIsReads(cfg, g, d, addr, core, cb);
      SendAllSameRest(cfg, g, d, [addr], READ, core, cb);
    case DoWrite(addr, core, cb) =>
      WriteIsWrites(cfg, g, d, addr, core, cb);
      SendAllSameRest(cfg, g, d, [addr], WRITE, core, cb);
    case DoReads(addrs, core, cb) => SendAllSameRest(cfg, g, d, addrs, READ, core, cb);
    case DoWrites(addrs, core, cb) => SendAllSameRest(cfg, g, d, addrs, WRITE, core, cb);
  }

  lemma TickIsRested<E, C, U>(cfg: Config, g: Engine<E, C>, d: Dev<E, C, U>, max: nat)
    requires 1 <= max && !d.idleTicking
    ensures Rested(cfg, TickBody(cfg, g, d, max))
  {
    DeliverKeepsHistories(cfg, Advance(cfg, d, UntilProgress(g, d.mem, max)));
  }

  lemma IdleIsRested<E(!new), C(!new), U>(cfg: Config, g: Engine<E, C>, d0: Dev<E, C, U>)
    requires cfg.Valid() && Prompt(g) && ChainInv(cfg, g, d0) && Rested(cfg, d0)
    requires d0.agenda != [] && d0.agenda[0].what == Tag.IdleTick
    ensures Rested(cfg, IdleBody(cfg, g, Pop(d0)))
  {
    var d := IdleBodyIs(cfg, g, d0);
    BackOffDoubles(cfg.idleBase, d0.naps);
  }

  lemma StepIsRested<E(!new), C(!new), V, H>(
    mode: Mode, cfg: Config, g: Engine<E, C>, host: Host<H, C, V>, w: World<E, C, V, H>, h: Horizon)
    requires cfg.Valid() && Prompt(g) && ChainInv(cfg, g, w.dev) && Rested(cfg, w.dev) && !Halted(w, h)
    ensures Rested(cfg, Step(mode, cfg, g, host, w, h).dev)
  {
    if w.ctl.Some? {
      var (host', a) := host(w.host, w.ctl.value);
      if a.OnDram? {
        ActDramSameRest<E, C, Named<V>, V>(cfg, g, w.dev, a.m);
      }
    } else {
      var d := Pop(w.dev);
      match w.dev.agenda[0].what {
        case Tick =>
          WhatsMember(w.dev.agenda, 0);
          TickIsRested(cfg, g, d, BurstBound(mode, cfg, d, h));
        case IdleTick => IdleIsRested(cfg, g, w.dev);
        case Call(_, _) =>
        case User(_) =>
      }
    }
  }

  lemma TickRests<E, C, U>(cfg: Config, g: Engine<E, C>, d0: Dev<E, C, U>, b: Burst<E, C>, r: Dev<E, C, U>)
    requires cfg.Valid() && cfg.idleRefresh && ChainInv(cfg, g, d0) && ClockLag.Synced(cfg, d0)
    requires d0.agenda != [] && d0.agenda[0].what == Tag.Tick && 1 <= b.cycles
    requires From(Pop(d0).agenda, Pop(d0).now + (b.cycles - 1) * cfg.period)
    requires r == Settle(cfg, g, Pop(d0), b) && ChainInv(cfg, g, r) && !r.ticking
    ensures ClockLag.TimeOf(r.agenda, Tag.IdleTick) == r.now + cfg.idleBase * cfg.period && r.idleBatch == cfg.idleBase
  {
    ClockLag.BurstKeepsLag(cfg, g, d0, b);
    WhatsMember(d0.agenda, 0);
    DeliverKeepsHistories(cfg, Advance(cfg, Pop(d0), b));
    ClockLag.SpanAdds(cfg, r.clk, r.idleBatch);
  }

  /** A step that ends a busy stretch with idle refresh leaves exactly one idle event, `idleBase` cycles from now. */
  lemma RestStarts<E(!new), C(!new), V, H>(
    mode: Mode, cfg: Config, g: Engine<E, C>, host: Host<H, C, V>, w: World<E, C, V, H>, h: Horizon,
    d: Dev<E, C, Named<V>>)
    requires cfg.Valid() && Prompt(g) && ChainInv(cfg, g, w.dev) && ClockLag.Synced(cfg, w.dev)
    requires cfg.idleRefresh && w.dev.ticking && !Halted(w, h)
    requires d == Step(mode, cfg, g, host, w, h).dev && !d.ticking
    ensures Whats(d.agenda)[Tag.IdleTick] == 1 && Whats(d.agenda)[Tag.Tick] == 0
    ensures ClockLag.TimeOf(d.agenda, Tag.IdleTick) == d.now + cfg.idleBase * cfg.period && d.idleBatch == cfg.idleBase
  {
    Coalescing.StepKeeps(mode, cfg, g, host, w, h);
    OnlyTicksRest(mode, cfg, g, host, w, h);
    var max := BurstBound(mode, cfg, Pop(w.dev), h);
    var b := UntilProgress(g, w.dev.mem, max);
    PopFrame(w.dev);
    assert b.cycles > 1 ==> FreeCycle(cfg.period, Pop(w.dev).now, NextTime(Pop(w.dev).agenda), h, b.cycles - 1);
    TickRests(cfg, g, w.dev, b, d);
  }

  /** Only a busy event can end a busy stretch. */
  lemma OnlyTicksRest<E(!new), C(!new), V, H>(
    mode: Mode, cfg: Config, g: Engine<E, C>, host: Host<H, C, V>, w: World<E, C, V, H>, h: Horizon)
    requires cfg.Valid() && Prompt(g) && ChainInv(cfg, g, w.dev) && w.dev.ticking && !Halted(w, h)
    requires !Step(mode, cfg, g, host, w, h).dev.ticking
    ensures w.ctl.None? && w.dev.agenda[0].what == Tag.Tick
  {
    if w.ctl.Some? {
      var (host', a) := host(w.host, w.ctl.value);
      StaysBusy(cfg, g, w.(host := host'), a);
    } else {
      WhatsMember(w.dev.agenda, 0);
    }
  }

  /** A call of the host does not end a busy stretch. */
  lemma StaysBusy<E(!new), C(!new), V, H>(cfg: Config, g: Engine<E, C>, w: World<E, C, V, H>, a: Action<C, V>)
    requires cfg.Valid() && Prompt(g) && ChainInv(cfg, g, w.dev) && w.dev.ticking
    ensures Act(cfg, g, w, a).dev.ticking
  {
    if a.OnDram? {
      match a.m {
        case DoRead(addr, core, cb) =>
          SendAllTold(g, w.dev, [addr], READ, core, cb);
          ReadIsReads(cfg, g, w.dev, addr, core, cb);
        case DoWrite(addr, core, cb) =>
          WriteIsWrites(cfg, g, w.dev, addr, core, cb);
          WritesStayBusy(cfg, g, w.dev, [addr], core, cb);
        case DoReads(addrs, core, cb) => SendAllTold(g, w.dev, addrs, READ, core, cb);
        case DoWrites(addrs, core, cb) => WritesStayBusy(cfg, g, w.dev, addrs, core, cb);
      }
    }
  }

  lemma WritesStayBusy<E, C, U>(
    cfg: Config, g: Engine<E, C>, d: Dev<E, C, U>, addrs: seq<int>, core: int, cb: Option<C>)
    requires d.ticking
    ensures Writes(cfg, g, d, addrs, core, cb).0.ticking
  {
    SendAllTold(g, d, addrs, WRITE, core, cb);
    var (d1, oks) := SendAll(g, d, addrs, WRITE, core, cb);
    DeliverKeepsHistories(cfg, Gather(d1, WriteNotes(addrs, oks, d1.clk, core, cb)));
  }

  /** The idle events in a row: each adds one, a busy event starts again from none, nothing else counts. */
  lemma NapsCount<E(!new), C(!new), V, H>(
    mode: Mode, cfg: Config, g: Engine<E, C>, host: Host<H, C, V>, w: World<E, C, V, H>, h: Horizon)
    requires cfg.Valid() && Prompt(g) && ChainInv(cfg, g, w.dev) && !Halted(w, h)
    ensures var d := Step(mode, cfg, g, host, w, h).dev;
            d.naps == if w.ctl.Some? then w.dev.naps
                      else match w.dev.agenda[0].what {
                        case Tick => 0
                        case IdleTick => w.dev.naps + 1
                        case Call(_, _) => w.dev.naps
                        case User(_) => w.dev.naps
                      }
  {
    if w.ctl.Some? {
      var (host', a) := host(w.host, w.ctl.value);
      if a.OnDram? {
        ActDramSameRest<E, C, Named<V>, V>(cfg, g, w.dev, a.m);
      }
    } else if w.dev.agenda[0].what.IdleTick? {
      var d := IdleBodyIs(cfg, g, w.dev);
    }
  }

  /** The idle event that fires after `k` others in a row runs min(2^k * idleBase, 16 * idleBase) engine cycles. */
  lemma IdleEventRuns<E(!new), C(!new), V, H>(
    mode: Mode, cfg: Config, g: Engine<E, C>, host: Host<H, C, V>, w: World<E, C, V, H>, h: Horizon)
    requires cfg.Valid() && Prompt(g) && ChainInv(cfg, g, w.dev) && Rested(cfg, w.dev) && !Halted(w, h)
    requires w.ctl.None? && w.dev.agenda[0].what.IdleTick?
    ensures var d, k := Step(mode, cfg, g, host, w, h).dev, w.dev.naps;
            var cycles := if Pow2(k) < 16 then Pow2(k) * cfg.idleBase else 16 * cfg.idleBase;
            d.mem == TickN(g, w.dev.mem, cycles).0 && d.clk == w.dev.clk + cycles
  {
    WhatsMember(w.dev.agenda, 0);
    var d := IdleBodyIs(cfg, g, w.dev);
  }
}

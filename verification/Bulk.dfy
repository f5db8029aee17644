/**
 Bulk requests to the DRAM component do what single requests would do, one after the other.
 */
module Bulk {
  import opened Prelude
  import opened Agenda
  import opened Engine
  import opened Device

  /** One `read` after the other, with their accept flags. */
  function OneByOneReads<E, C, U>(
    cfg: Config, g: Engine<E, C>, d: Dev<E, C, U>, addrs: seq<int>, core: int, cb: Option<C>)
    : (Dev<E, C, U>, seq<bool>)
    decreases addrs
  {
    if addrs == [] then (d, [])
    else
      var (d1, r) := Read(cfg, g, d, addrs[0], core, cb);
      var (d2, oks) := OneByOneReads(cfg, g, d1, addrs[1..], core, cb);
      (d2, [r == Ok(true)] + oks)
  }

  function OneByOneWrites<E, C, U>(
    cfg: Config, g: Engine<E, C>, d: Dev<E, C, U>, addrs: seq<int>, core: int, cb: Option<C>)
    : (Dev<E, C, U>, seq<bool>)
    decreases addrs
  {
    if addrs == [] then (d, [])
    else
      var (d1, r) := Write(cfg, g, d, addrs[0], core, cb);
      var (d2, oks) := OneByOneWrites(cfg, g, d1, addrs[1..], core, cb);
      (d2, [r == Ok(true)] + oks)
  }

  // -- What commutes ---------------------------------------------------------------------

  lemma {:induction false} InsertCommutes<X>(q: seq<Entry<X>>, a: Entry<X>, b: Entry<X>)
    requires a.time < b.time
    ensures Insert(Insert(q, a), b) == Insert(Insert(q, b), a)
  {
    if q != [] && NotAfter(q[0], a) {
      InsertCommutes(q[1..], a, b);
      assert Insert(q, a)[1..] == Insert(q[1..], a) && Insert(q, b)[1..] == Insert(q[1..], b);
    } else {
      assert ([a] + q)[1..] == q;
      if q != [] && NotAfter(q[0], b) {
        assert Insert(q, b)[0] == q[0];
      }
    }
  }

  lemma {:induction false} DropInsert<X>(q: seq<Entry<X>>, e: Entry<X>, dead: X -> bool)
    requires Sorted(q) && !dead(e.what)
    ensures Drop(Insert(q, e), dead) == Insert(Drop(q, dead), e)
  {
    if q != [] && NotAfter(q[0], e) {
      DropInsert(q[1..], e, dead);
      assert Insert(q, e)[1..] == Insert(q[1..], e);
    } else {
      assert ([e] + q)[1..] == q;
      AllAfter(q, e, dead);
    }
  }

  /** What is left of a list that lies behind `e`. */
  lemma {:induction false} AllAfter<X>(q: seq<Entry<X>>, e: Entry<X>, dead: X -> bool)
    requires Sorted(q) && (q == [] || !NotAfter(q[0], e))
    ensures Insert(Drop(q, dead), e) == [e] + Drop(q, dead)
  {
    if q != [] && dead(q[0].what) {
      assert q[1..] != [] ==> NotAfter(q[0], q[1..][0]);
      AllAfter(q[1..], e, dead);
    }
  }

  lemma PostCommutes<E, C, U>(cfg: Config, d: Dev<E, C, U>, cb: C, info: Info)
    requires 0 < cfg.period && Sorted(d.agenda)
    ensures Post(cfg, StartTicking(cfg, d), cb, info) == StartTicking(cfg, Post(cfg, d, cb, info))
  {
    if !d.ticking {
      var a := Entry(d.now, cfg.priority, Tag<C, U>.Call(cb, info));
      var b := Entry(d.now + 1 * cfg.period, 0, Tag<C, U>.Tick);
      DropInsert(d.agenda, a, IsIdle);
      InsertCommutes(if d.idleTicking then Drop(d.agenda, IsIdle) else d.agenda, a, b);
    }
  }

  /** Completions gathered and delivered at once. */
  function Tell<E, C, U>(cfg: Config, d: Dev<E, C, U>, ns: seq<Note<C>>): Dev<E, C, U> {
    Deliver(cfg, Gather(d, ns))
  }

  lemma TellOne<E, C, U>(cfg: Config, d: Dev<E, C, U>, n: Note<C>)
    requires d.completed == []
    ensures var d1 := d.(recorded := d.recorded + [n]);
            Tell(cfg, d, [n]) == if n.user.None? then d1 else Post(cfg, d1, n.user.value, n.info)
  {
    var whole := Gather(d, [n]);
    assert whole.completed == [n] && [n][1..] == [];
    var d1 := whole.(completed := []);
    assert d1 == d.(recorded := d.recorded + [n]);
    assert Deliver(cfg, whole) == Deliver(cfg, if n.user.None? then d1 else Post(cfg, d1, n.user.value, n.info));
  }

  /** The first of several. */
  lemma TellFirst<E, C, U>(cfg: Config, d: Dev<E, C, U>, n: Note<C>, rest: seq<Note<C>>)
    requires d.completed == []
    ensures Tell(cfg, d, [n] + rest) == Tell(cfg, Tell(cfg, d, [n]), rest)
    ensures Tell(cfg, d, [n]).completed == []
  {
    TellOne(cfg, d, n);
    TellOne(cfg, d, n);
    var whole := Gather(d, [n] + rest);
    assert whole.completed == [n] + rest && whole.completed[1..] == rest && d.completed + rest == rest;
    var d1 := whole.(completed := rest);
    var next := if n.user.None? then d1 else Post(cfg, d1, n.user.value, n.info);
    assert Deliver(cfg, whole) == Deliver(cfg, next);
    Assoc(d.recorded, [n], rest);
    assert Gather(Tell(cfg, d, [n]), rest) == next;
  }

  lemma TellNone<E, C, U>(cfg: Config, d: Dev<E, C, U>)
    requires d.completed == []
    ensures Tell(cfg, d, []) == Gather(d, []) == d
  {
    assert d.completed + [] == [] && d.recorded + [] == d.recorded;
  }

  lemma TellOneCommutes<E, C, U>(cfg: Config, d: Dev<E, C, U>, n: Note<C>)
    requires 0 < cfg.period && Sorted(d.agenda) && d.completed == []
    ensures Tell(cfg, StartTicking(cfg, d), [n]) == StartTicking(cfg, Tell(cfg, d, [n]))
    ensures Sorted(Tell(cfg, d, [n]).agenda)
  {
    TellOne(cfg, d, n);
    TellOne(cfg, StartTicking(cfg, d), n);
    var d1 := d.(recorded := d.recorded + [n]);
    if n.user.Some? {
      PostCommutes(cfg, d1, n.user.value, n.info);
      InsertSorted(d.agenda, Entry(d.now, cfg.priority, Tag<C, U>.Call(n.user.value, n.info)));
    }
  }

  lemma {:induction false} TellCommutes<E, C, U>(cfg: Config, d: Dev<E, C, U>, ns: seq<Note<C>>)
    requires 0 < cfg.period && Sorted(d.agenda) && d.completed == []
    ensures Tell(cfg, StartTicking(cfg, d), ns) == StartTicking(cfg, Tell(cfg, d, ns))
    decreases ns
  {
    var t := StartTicking(cfg, d);
    if ns == [] {
      TellNone(cfg, d);
      TellNone(cfg, t);
    } else {
      assert ns == [ns[0]] + ns[1..];
      TellFirst(cfg, d, ns[0], ns[1..]);
      TellFirst(cfg, t, ns[0], ns[1..]);
      TellOneCommutes(cfg, d, ns[0]);
      TellCommutes(cfg, Tell(cfg, d, [ns[0]]), ns[1..]);
    }
  }

  lemma TickingTwice<E, C, U>(cfg: Config, d: Dev<E, C, U>)
    ensures StartTicking(cfg, StartTicking(cfg, d)) == StartTicking(cfg, d)
  {
  }

  /** Handing requests to the engine does not touch clocks and events. */
  lemma {:induction false} SendAllCommutes<E, C, U>(
    g: Engine<E, C>, d: Dev<E, C, U>, r: Dev<E, C, U>, addrs: seq<int>, kind: Kind, core: int, cb: Option<C>)
    requires d.mem == r.mem && d.accepted == r.accepted && d.clk == r.clk
    ensures var (d1, oks) := SendAll(g, d, addrs, kind, core, cb);
            && d1 == d.(mem := d1.mem, accepted := d1.accepted)
            && SendAll(g, r, addrs, kind, core, cb) == (r.(mem := d1.mem, accepted := d1.accepted), oks)
    decreases addrs
  {
    if addrs != [] {
      var (d1, ok) := Send(g, d, addrs[0], kind, core, cb);
      SendAllCommutes(g, d1, Send(g, r, addrs[0], kind, core, cb).0, addrs[1..], kind, core, cb);
    }
  }

  /** Starting the clock looks at clocks and events only. */
  lemma StartTickingIgnores<E, C, U>(cfg: Config, d: Dev<E, C, U>, e: E, a: seq<Accepted<C>>)
    ensures StartTicking(cfg, d.(mem := e, accepted := a)) == StartTicking(cfg, d).(mem := e, accepted := a)
  {
  }

  lemma TellOneIgnores<E, C, U>(cfg: Config, d: Dev<E, C, U>, e: E, a: seq<Accepted<C>>, n: Note<C>)
    requires d.completed == []
    ensures Tell(cfg, d.(mem := e, accepted := a), [n]) == Tell(cfg, d, [n]).(mem := e, accepted := a)
  {
    TellOne(cfg, d, n);
    TellOne(cfg, d.(mem := e, accepted := a), n);
  }

  // -- Reads -----------------------------------------------------------------------------

  /** `reads` is as many `read`s, with the same flags, the same engine and the same clock. */
  lemma {:induction false} ReadsAreReads<E, C, U>(
    cfg: Config, g: Engine<E, C>, d: Dev<E, C, U>, addrs: seq<int>, core: int, cb: Option<C>)
    requires 0 <= core < cfg.cores
    ensures var (r, oks) := OneByOneReads(cfg, g, d, addrs, core, cb);
            Reads(cfg, g, d, addrs, core, cb) == (r, Ok(oks))
    decreases addrs
  {
    if addrs != [] {
      var (d1, ok) := Send(g, d, addrs[0], READ, core, cb);
      var x := if ok then StartTicking(cfg, d1) else d1;
      ReadsAreReads(cfg, g, x, addrs[1..], core, cb);
      var (y, oks) := SendAll(g, d1, addrs[1..], READ, core, cb);
      SendAllCommutes(g, d1, x, addrs[1..], READ, core, cb);
      if ok {
        StartTickingIgnores(cfg, d1, y.mem, y.accepted);
        TickingTwice(cfg, y);
      }
      assert true in [ok] + oks <==> ok || true in oks;
    }
  }

  // -- Writes ----------------------------------------------------------------------------

  lemma {:induction false} NoneAccepted<C>(addrs: seq<int>, oks: seq<bool>, clk: int, core: int, cb: Option<C>)
    requires |addrs| == |oks| && true !in oks
    ensures WriteNotes(addrs, oks, clk, core, cb) == []
    decreases addrs
  {
    if addrs != [] {
      assert oks[0] in oks;
      NoneAccepted(addrs[1..], oks[1..], clk, core, cb);
    }
  }

  /** `writes` once the engine has answered. */
  function Settled<E, C, U>(
    cfg: Config, d: Dev<E, C, U>, addrs: seq<int>, oks: seq<bool>, core: int, cb: Option<C>): Dev<E, C, U>
    requires |addrs| == |oks|
  {
    if true in oks then StartTicking(cfg, Tell(cfg, d, WriteNotes(addrs, oks, d.clk, core, cb))) else d
  }

  lemma WritesIsSettled<E, C, U>(
    cfg: Config, g: Engine<E, C>, d: Dev<E, C, U>, addrs: seq<int>, core: int, cb: Option<C>)
    requires 0 <= core < cfg.cores && d.completed == []
    ensures var (d1, oks) := SendAll(g, d, addrs, WRITE, core, cb);
            Writes(cfg, g, d, addrs, core, cb) == (Settled(cfg, d1, addrs, oks, core, cb), Ok(oks))
  {
    var (d1, oks) := SendAll(g, d, addrs, WRITE, core, cb);
    SendAllCommutes(g, d, d, addrs, WRITE, core, cb);
    if true !in oks {
      NoneAccepted(addrs, oks, d1.clk, core, cb);
      TellNone(cfg, d1);
    }
  }

  /** The first write accepted and told before the others are sent, or together with them. */
  lemma FirstOrTogether<E, C, U>(
    cfg: Config, y: Dev<E, C, U>, addr: int, rest: seq<int>, oks: seq<bool>, core: int, cb: Option<C>)
    requires 0 < cfg.period && Sorted(y.agenda) && y.completed == [] && |rest| == |oks|
    ensures var n := WriteNote(addr, y.clk, core, cb);
            Settled(cfg, StartTicking(cfg, Tell(cfg, y, [n])), rest, oks, core, cb) ==
            Settled(cfg, y, [addr] + rest, [true] + oks, core, cb)
  {
    var n, ns := WriteNote(addr, y.clk, core, cb), WriteNotes(rest, oks, y.clk, core, cb);
    var one := Tell(cfg, y, [n]);
    assert WriteNotes([addr] + rest, [true] + oks, y.clk, core, cb) == [n] + ns by {
      assert ([addr] + rest)[1..] == rest && ([true] + oks)[1..] == oks;
    }
    TellFirst(cfg, y, n, ns);
    TellOneCommutes(cfg, y, n);
    TellOneKeepsClk(cfg, y, n);
    assert ([true] + oks)[0] in [true] + oks;
    if true in oks {
      TellCommutes(cfg, one, ns);
      TickingTwice(cfg, Tell(cfg, one, ns));
    } else {
      NoneAccepted(rest, oks, y.clk, core, cb);
      TellNone(cfg, one);
    }
  }

  lemma TellOneKeepsClk<E, C, U>(cfg: Config, d: Dev<E, C, U>, n: Note<C>)
    requires d.completed == []
    ensures var r := StartTicking(cfg, Tell(cfg, d, [n]));
            r.clk == d.clk && r.mem == d.mem && r.accepted == d.accepted && r.completed == []
  {
    TellOne(cfg, d, n);
  }

  lemma TickingKeepsOrder<E, C, U>(cfg: Config, d: Dev<E, C, U>)
    requires Sorted(d.agenda)
    ensures Sorted(StartTicking(cfg, d).agenda)
  {
    DropSorted(d.agenda, IsIdle);
    InsertSorted(if d.idleTicking then Drop(d.agenda, IsIdle) else d.agenda,
      Entry(d.now + 1 * cfg.period, 0, Tag<C, U>.Tick));
  }

  /** A first write that is accepted. */
  lemma AcceptedFirst<E, C, U>(
    cfg: Config, g: Engine<E, C>, d: Dev<E, C, U>, addrs: seq<int>, core: int, cb: Option<C>) returns (x: Dev<E, C, U>)
    requires 0 <= core < cfg.cores && 0 < cfg.period && Sorted(d.agenda) && d.completed == []
    requires addrs != [] && Send(g, d, addrs[0], WRITE, core, cb).1
    ensures Write(cfg, g, d, addrs[0], core, cb) == (x, Ok(true)) && Sorted(x.agenda) && x.completed == []
    ensures var (r, oks) := SendAll(g, x, addrs[1..], WRITE, core, cb);
            Writes(cfg, g, d, addrs, core, cb) == (Settled(cfg, r, addrs[1..], oks, core, cb), Ok([true] + oks))
  {
    var d1 := Send(g, d, addrs[0], WRITE, core, cb).0;
    var n := WriteNote(addrs[0], d1.clk, core, cb);
    x := StartTicking(cfg, Tell(cfg, d1, [n]));
    TellOneCommutes(cfg, d1, n);
    TickingKeepsOrder(cfg, Tell(cfg, d1, [n]));
    TellOneKeepsClk(cfg, d1, n);
    var (y, oks) := SendAll(g, d1, addrs[1..], WRITE, core, cb);
    SendAllCommutes(g, d1, x, addrs[1..], WRITE, core, cb);
    TellOneIgnores(cfg, d1, y.mem, y.accepted, n);
    StartTickingIgnores(cfg, Tell(cfg, d1, [n]), y.mem, y.accepted);
    FirstOrTogether(cfg, y, addrs[0], addrs[1..], oks, core, cb);
    assert [addrs[0]] + addrs[1..] == addrs;
    WritesIsSettled(cfg, g, d, addrs, core, cb);
  }

  /** `writes` is as many `write`s, with the same flags, the same completions in the same order, and the same clock. */
  lemma {:induction false} WritesAreWrites<E, C, U>(
    cfg: Config, g: Engine<E, C>, d: Dev<E, C, U>, addrs: seq<int>, core: int, cb: Option<C>)
    requires 0 <= core < cfg.cores && 0 < cfg.period && Sorted(d.agenda) && d.completed == []
    ensures var (r, oks) := OneByOneWrites(cfg, g, d, addrs, core, cb);
            Writes(cfg, g, d, addrs, core, cb) == (r, Ok(oks))
    decreases addrs
  {
    WritesIsSettled(cfg, g, d, addrs, core, cb);
    if addrs != [] {
      var (d1, ok) := Send(g, d, addrs[0], WRITE, core, cb);
      if ok {
        var x := AcceptedFirst(cfg, g, d, addrs, core, cb);
        WritesAreWrites(cfg, g, x, addrs[1..], core, cb);
        WritesIsSettled(cfg, g, x, addrs[1..], core, cb);
      } else {
        RefusedFirst(cfg, g, d, addrs, core, cb);
        WritesAreWrites(cfg, g, d1, addrs[1..], core, cb);
        WritesIsSettled(cfg, g, d1, addrs[1..], core, cb);
      }
    }
  }

  /** A first write that is refused. */
  lemma RefusedFirst<E, C, U>(
    cfg: Config, g: Engine<E, C>, d: Dev<E, C, U>, addrs: seq<int>, core: int, cb: Option<C>)
    requires 0 <= core < cfg.cores && d.completed == []
    requires addrs != [] && !Send(g, d, addrs[0], WRITE, core, cb).1
    ensures var d1 := Send(g, d, addrs[0], WRITE, core, cb).0;
            var (r, oks) := SendAll(g, d1, addrs[1..], WRITE, core, cb);
            Writes(cfg, g, d, addrs, core, cb) == (Settled(cfg, r, addrs[1..], oks, core, cb), Ok([false] + oks))
  {
    WritesIsSettled(cfg, g, d, addrs, core, cb);
    var (r, oks) := SendAll(g, Send(g, d, addrs[0], WRITE, core, cb).0, addrs[1..], WRITE, core, cb);
    assert SendAll(g, d, addrs, WRITE, core, cb) == (r, [false] + oks);
    LaterOnly(cfg, r, addrs, oks, core, cb);
  }

  lemma LaterOnly<E, C, U>(
    cfg: Config, d: Dev<E, C, U>, addrs: seq<int>, oks: seq<bool>, core: int, cb: Option<C>)
    requires |addrs| == 1 + |oks|
    ensures Settled(cfg, d, addrs, [false] + oks, core, cb) == Settled(cfg, d, addrs[1..], oks, core, cb)
  {
    var all, later := [false] + oks, WriteNotes(addrs[1..], oks, d.clk, core, cb);
    assert all[1..] == oks && !all[0];
    assert true in all <==> true in oks;
    assert WriteNotes(addrs, all, d.clk, core, cb) == [] + later == later;
  }
}

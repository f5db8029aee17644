/**
 Completions: every accepted request reaches its own callback exactly once, and callbacks start in
 the order in which the engine recorded the completions.
 */
module Delivery {
  import opened Prelude
  import opened Agenda
  import opened Engine
  import opened Device
  import opened Chains
  import opened World
  import opened Coalescing

  /** The completion callbacks waiting in the agenda, in firing order. */
  function Calls<C, U>(q: seq<Entry<Tag<C, U>>>): seq<Note<C>> {
    if q == [] then []
    else (match q[0].what case Call(cb, info) => [Note(info, Some(cb))] case _ => []) + Calls(q[1..])
  }

  /** The completion callbacks that have started, in order. */
  function Fired<C, V>(trace: seq<Firing<C, V>>): seq<Note<C>> {
    if trace == [] then []
    else
      var last := |trace| - 1;
      Fired(trace[..last]) +
      (match trace[last].stim case Completion(cb, info) => [Note(info, Some(cb))] case _ => [])
  }

  /** The notes that name a callback; the others are dropped on delivery. */
  function WithCallback<C>(ns: seq<Note<C>>): seq<Note<C>> {
    if ns == [] then []
    else (if ns[0].user.Some? then [ns[0]] else []) + WithCallback(ns[1..])
  }

  /** One callback, as seen by one kind of request of one core. */
  datatype Key<+C> = Key(kind: Kind, core: int, cb: C)

  ghost function Addrs<C>(ns: seq<Note<C>>, k: Key<C>): multiset<int> {
    if ns == [] then multiset{}
    else (if ns[0].user == Some(k.cb) && ns[0].info.kind == k.kind && ns[0].info.core == k.core
          then multiset{ns[0].info.addr} else multiset{})
         + Addrs(ns[1..], k)
  }

  ghost function Taken<C>(a: seq<Accepted<C>>, k: Key<C>): multiset<int> {
    if a == [] then multiset{}
    else
      var last := |a| - 1;
      Taken(a[..last], k) +
      (if a[last].user == Some(k.cb) && a[last].kind == k.kind && a[last].core == k.core
       then multiset{a[last].addr} else multiset{})
  }

  ghost function InEngine<E, C>(flight: Flight<E, C>, e: E, k: Key<C>): multiset<int> {
    if k.kind == READ then flight(e, Record(k.core, Some(k.cb))) else multiset{}
  }

  // -- The invariant -----------------------------------------------------------------

  /** Waiting completions are due now, at the completion priority. */
  ghost predicate Due<C, U>(cfg: Config, q: seq<Entry<Tag<C, U>>>, now: int) {
    forall e :: e in q && e.what.Call? ==> e.time <= now && e.prio == cfg.priority
  }

  /** Accepted equals in the engine, recorded, or handed over; per callback, kind and core. */
  ghost predicate Books<E, C(!new), U>(flight: Flight<E, C>, d: Dev<E, C, U>) {
    forall k :: Taken(d.accepted, k) == InEngine(flight, d.mem, k) + Addrs(d.completed, k) + Addrs(d.posted, k)
  }

  ghost predicate Ledger<E, C(!new), U>(cfg: Config, flight: Flight<E, C>, d: Dev<E, C, U>, fired: seq<Note<C>>) {
    && Due(cfg, d.agenda, d.now)
    && NoDrive(flight, d.mem)
    && d.posted == fired + Calls(d.agenda)
    && Books(flight, d)
  }

  // -- The agenda side ------------------------------------------------------------------

  lemma {:induction false} NoCallsAfter<C, U>(q: seq<Entry<Tag<C, U>>>, e: Entry<Tag<C, U>>)
    requires Sorted(q) && (q == [] || !NotAfter(q[0], e))
    requires forall x :: x in q && x.what.Call? ==> NotAfter(x, e)
    ensures Calls(q) == []
  {
    if q != [] {
      assert q[0] in q;
      assert q[1..] != [] ==> NotAfter(q[0], q[1]) && q[1..][0] == q[1];
      NoCallsAfter(q[1..], e);
    }
  }

  /** A newly delivered completion goes behind every waiting one. */
  lemma {:induction false} CallGoesLast<C, U>(q: seq<Entry<Tag<C, U>>>, e: Entry<Tag<C, U>>)
    requires Sorted(q) && e.what.Call?
    requires forall x :: x in q && x.what.Call? ==> NotAfter(x, e)
    ensures Calls(Insert(q, e)) == Calls(q) + [Note(e.what.info, Some(e.what.cb))]
  {
    if q != [] && NotAfter(q[0], e) {
      CallGoesLast(q[1..], e);
      assert Insert(q, e)[1..] == Insert(q[1..], e);
    } else {
      NoCallsAfter(q, e);
      assert ([e] + q)[1..] == q;
    }
  }

  lemma {:induction false} OtherKeepsCalls<C, U>(q: seq<Entry<Tag<C, U>>>, e: Entry<Tag<C, U>>)
    requires !e.what.Call?
    ensures Calls(Insert(q, e)) == Calls(q)
  {
    if q != [] && NotAfter(q[0], e) {
      OtherKeepsCalls(q[1..], e);
      assert Insert(q, e)[1..] == Insert(q[1..], e);
    } else {
      assert ([e] + q)[1..] == q;
    }
  }

  lemma {:induction false} DropKeepsCalls<C, U>(q: seq<Entry<Tag<C, U>>>, dead: Tag<C, U> -> bool)
    requires forall t: Tag<C, U> :: t.Call? ==> !dead(t)
    ensures Calls(Drop(q, dead)) == Calls(q)
    ensures forall e :: e in Drop(q, dead) ==> e in q
  {
    if q != [] {
      DropKeepsCalls(q[1..], dead);
      if !dead(q[0].what) {
        assert Drop(q, dead)[1..] == Drop(q[1..], dead);
      }
    }
  }

  lemma AtKeepsLedger<E, C(!new), U>(
    cfg: Config, flight: Flight<E, C>, d: Dev<E, C, U>, fired: seq<Note<C>>, time: int, prio: int, tag: Tag<C, U>)
    requires Ledger(cfg, flight, d, fired) && !tag.Call?
    ensures Ledger(cfg, flight, At(d, time, prio, tag), fired)
  {
    var r := At(d, time, prio, tag);
    OtherKeepsCalls(d.agenda, Entry(time, prio, tag));
    assert Due(cfg, r.agenda, d.now) by {
      InsertMembers(d.agenda, Entry(time, prio, tag));
    }
    BooksMoved(flight, d, r);
  }

  /** The agenda is not in the books. */
  lemma BooksMoved<E, C(!new), U>(flight: Flight<E, C>, d: Dev<E, C, U>, r: Dev<E, C, U>)
    requires Books(flight, d) && r == d.(agenda := r.agenda)
    ensures Books(flight, r)
  {
  }

  lemma CancelKeepsLedger<E, C(!new), U>(
    cfg: Config, flight: Flight<E, C>, d: Dev<E, C, U>, fired: seq<Note<C>>, dead: Tag<C, U> -> bool)
    requires Ledger(cfg, flight, d, fired) && forall t: Tag<C, U> :: t.Call? ==> !dead(t)
    ensures Ledger(cfg, flight, d.(agenda := Drop(d.agenda, dead)), fired)
  {
    DropKeepsCalls(d.agenda, dead);
  }

  lemma StartKeepsLedger<E, C(!new), U>(cfg: Config, flight: Flight<E, C>, d: Dev<E, C, U>, fired: seq<Note<C>>)
    requires Ledger(cfg, flight, d, fired)
    ensures Ledger(cfg, flight, StartTicking(cfg, d), fired)
  {
    if !d.ticking {
      if d.idleTicking {
        CancelKeepsLedger(cfg, flight, d, fired, IsIdle);
      }
      var d1 := if d.idleTicking then d.(idleTicking := false, agenda := Drop(d.agenda, IsIdle)) else d;
      AtKeepsLedger(cfg, flight, d1.(ticking := true), fired, d.now + 1 * cfg.period, 0, Tag.Tick);
    }
  }

  /** Firing the head moves its callback, if it is one, from the agenda to the fired ones. */
  lemma PopKeepsLedger<E, C(!new), U>(cfg: Config, flight: Flight<E, C>, d: Dev<E, C, U>, fired: seq<Note<C>>)
    requires Ordered(d) && d.agenda != [] && Ledger(cfg, flight, d, fired)
    ensures var now := match d.agenda[0].what case Call(cb, info) => [Note(info, Some(cb))] case _ => [];
            Ledger(cfg, flight, Pop(d), fired + now)
  {
  }

  // -- The engine side --------------------------------------------------------------------

  lemma {:induction false} AddrsAppend<C>(a: seq<Note<C>>, b: seq<Note<C>>, k: Key<C>)
    ensures Addrs(a + b, k) == Addrs(a, k) + Addrs(b, k)
  {
    if a == [] {
      assert a + b == b;
    } else {
      assert (a + b)[1..] == a[1..] + b;
      AddrsAppend(a[1..], b, k);
    }
  }

  /** Delivery moves every named note to the agenda, in order, and the books stay balanced. */
  lemma {:induction false} DeliverKeepsLedger<E, C(!new), U>(
    cfg: Config, flight: Flight<E, C>, d: Dev<E, C, U>, fired: seq<Note<C>>)
    requires Ordered(d) && Ledger(cfg, flight, d, fired)
    ensures Ledger(cfg, flight, Deliver(cfg, d), fired)
    ensures Deliver(cfg, d).posted == d.posted + WithCallback(d.completed)
    decreases |d.completed|
  {
    if d.completed != [] {
      var n := d.completed[0];
      var d1 := d.(completed := d.completed[1..]);
      if n.user.None? {
        forall k
          ensures Addrs(d.completed, k) == Addrs(d1.completed, k)
        {
        }
        DeliverKeepsLedger(cfg, flight, d1, fired);
      } else {
        PostKeepsLedger(cfg, flight, d, fired);
        AtFrame(d1, d.now, cfg.priority, Tag.Call(n.user.value, n.info));
        DeliverKeepsLedger(cfg, flight, Post(cfg, d1, n.user.value, n.info), fired);
      }
    }
  }

  lemma PostKeepsBooks<E, C(!new), U>(flight: Flight<E, C>, d: Dev<E, C, U>)
    requires Books(flight, d) && d.completed != []
    ensures Books(flight, d.(completed := d.completed[1..], posted := d.posted + [d.completed[0]]))
  {
    var n, rest := d.completed[0], d.completed[1..];
    forall k
      ensures Taken(d.accepted, k) == InEngine(flight, d.mem, k) + Addrs(rest, k) + Addrs(d.posted + [n], k)
    {
      AddrsAppend(d.posted, [n], k);
      Regroup(InEngine(flight, d.mem, k), Addrs([n], k), Addrs(rest, k), Addrs(d.posted, k));
    }
  }

  lemma Regroup(a: multiset<int>, x: multiset<int>, b: multiset<int>, c: multiset<int>)
    ensures a + (x + b) + c == a + b + (c + x)
  {
  }

  lemma PostKeepsLedger<E, C(!new), U>(cfg: Config, flight: Flight<E, C>, d: Dev<E, C, U>, fired: seq<Note<C>>)
    requires Ordered(d) && Ledger(cfg, flight, d, fired)
    requires d.completed != [] && d.completed[0].user.Some?
    ensures var n := d.completed[0];
            Ledger(cfg, flight, Post(cfg, d.(completed := d.completed[1..]), n.user.value, n.info), fired)
  {
    var n := d.completed[0];
    var e := Entry(d.now, cfg.priority, Tag<C, U>.Call(n.user.value, n.info));
    PostKeepsBooks(flight, d);
    var d1 := d.(completed := d.completed[1..], posted := d.posted + [n]);
    assert Books(flight, d1.(agenda := Insert(d.agenda, e)));
    CallGoesLast(d.agenda, e);
    InsertMembers(d.agenda, e);
  }

  /** Without drive requests, the notes for a callback are what the engine served under its closure. */
  lemma {:induction false} NotesAreServed<C>(s: seq<Served<C>>, k: Key<C>)
    requires forall i :: 0 <= i < |s| ==> s[i].kind == READ && !s[i].closure.Counted?
    ensures Addrs(Recorded(s), k) == if k.kind == READ then ServedUnder(s, Record(k.core, Some(k.cb))) else multiset{}
  {
    if s != [] {
      NotesAreServed(s[1..], k);
      var r := Recorded(s);
      if s[0].closure.NoOp? {
        assert r == Recorded(s[1..]);
      } else {
        assert r[1..] == Recorded(s[1..]);
      }
    }
  }

  lemma TickKeepsBooks<E(!new), C(!new), U>(g: Engine<E, C>, flight: Flight<E, C>, d: Dev<E, C, U>)
    requires Honest(g, flight) && NoDrive(flight, d.mem) && Books(flight, d)
    ensures var (e, s) := g.tick(d.mem);
            && NoDrive(flight, e)
            && Books(flight, d.(mem := e, completed := d.completed + Recorded(s)))
  {
    var (e, s) := g.tick(d.mem);
    forall u: Option<C>
      ensures flight(e, Counted(u)) == multiset{} && ServedUnder(s, Counted(u)) == multiset{}
    {
      assert flight(d.mem, Counted(u)) == flight(e, Counted(u)) + ServedUnder(s, Counted(u));
    }
    forall i | 0 <= i < |s|
      ensures s[i].kind == READ && !s[i].closure.Counted?
    {
      ServedMember(s, i);
    }
    forall k
      ensures InEngine(flight, d.mem, k) + Addrs(d.completed, k)
              == InEngine(flight, e, k) + Addrs(d.completed + Recorded(s), k)
    {
      NotesAreServed(s, k);
      AddrsAppend(d.completed, Recorded(s), k);
    }
  }

  lemma {:induction false} BurstKeepsBooks<E(!new), C(!new), U>(
    g: Engine<E, C>, flight: Flight<E, C>, d: Dev<E, C, U>, max: nat)
    requires Honest(g, flight) && NoDrive(flight, d.mem) && Books(flight, d) && 1 <= max
    ensures var b := UntilProgress(g, d.mem, max);
            && NoDrive(flight, b.mem)
            && Books(flight, d.(mem := b.mem, completed := d.completed + b.notes))
    decreases max
  {
    TickKeepsBooks(g, flight, d);
    var (e, s) := g.tick(d.mem);
    if !Progress(g, e, s) && max != 1 {
      assert d.completed + [] == d.completed;
      BurstKeepsBooks(g, flight, d.(mem := e), max - 1);
    }
  }

  // -- Requests -------------------------------------------------------------------------------

  /** The note that an accepted write leaves at once; a read leaves none. */
  function AtOnce<C>(kind: Kind, addr: int, ok: bool, clk: int, core: int, cb: Option<C>): seq<Note<C>> {
    if kind == WRITE && ok then [WriteNote(addr, clk, core, cb)] else []
  }

  lemma SendKeepsBooks<E(!new), C(!new), U>(
    g: Engine<E, C>, flight: Flight<E, C>, d: Dev<E, C, U>, addr: int, kind: Kind, core: int, cb: Option<C>, clk: int)
    requires Honest(g, flight) && NoDrive(flight, d.mem) && Books(flight, d)
    ensures var (r, ok) := Send(g, d, addr, kind, core, cb);
            && NoDrive(flight, r.mem)
            && Books(flight, r.(completed := d.completed + AtOnce(kind, addr, ok, clk, core, cb)))
  {
    var req := Request(addr, kind, core, ClosureFor(kind, core, cb));
    var (e, ok) := g.send(d.mem, req);
    forall u: Option<C>
      ensures flight(e, Counted(u)) == multiset{}
    {
      assert flight(e, Counted(u)) == flight(d.mem, Counted(u));
    }
    var notes := AtOnce(kind, addr, ok, clk, core, cb);
    var a := if ok then d.accepted + [Accepted(addr, kind, core, cb, d.clk)] else d.accepted;
    forall k
      ensures Taken(a, k) == InEngine(flight, e, k) + Addrs(d.completed + notes, k) + Addrs(d.posted, k)
    {
      var x := if ok && cb == Some(k.cb) && kind == k.kind && core == k.core then multiset{addr} else multiset{};
      TakenOne(d.accepted, addr, kind, core, cb, d.clk, ok, k);
      AddrsAppend(d.completed, notes, k);
      SendForKey(g, flight, d, addr, kind, core, cb, clk, k);
      Rebalance(InEngine(flight, d.mem, k), Addrs(d.completed, k), Addrs(d.posted, k), x,
        InEngine(flight, e, k), Addrs(notes, k));
    }
  }

  lemma TakenOne<C>(a: seq<Accepted<C>>, addr: int, kind: Kind, core: int, cb: Option<C>, at: int, ok: bool, k: Key<C>)
    ensures Taken(if ok then a + [Accepted(addr, kind, core, cb, at)] else a, k) ==
            Taken(a, k) + (if ok && cb == Some(k.cb) && kind == k.kind && core == k.core then multiset{addr}
              else multiset{})
  {
    assert (a + [Accepted(addr, kind, core, cb, at)])[..|a|] == a;
  }

  lemma Rebalance(
    f: multiset<int>, c: multiset<int>, p: multiset<int>, x: multiset<int>, f': multiset<int>, n: multiset<int>)
    requires f' + n == f + x
    ensures (f + c + p) + x == f' + (c + n) + p
  {
    forall i
      ensures ((f + c + p) + x)[i] == (f' + (c + n) + p)[i]
    {
      assert (f' + n)[i] == (f + x)[i];
    }
  }

  /** For one callback: an accepted request shows up either in the engine or as a note. */
  lemma SendForKey<E(!new), C(!new), U>(
    g: Engine<E, C>, flight: Flight<E, C>, d: Dev<E, C, U>, addr: int, kind: Kind, core: int, cb: Option<C>,
    clk: int, k: Key<C>)
    requires Honest(g, flight)
    ensures var (e, ok) := g.send(d.mem, Request(addr, kind, core, ClosureFor(kind, core, cb)));
            InEngine(flight, e, k) + Addrs(AtOnce(kind, addr, ok, clk, core, cb), k) ==
            InEngine(flight, d.mem, k) +
            (if ok && cb == Some(k.cb) && kind == k.kind && core == k.core then multiset{addr} else multiset{})
  {
  }

  /** The notes of a bulk request: one per accepted write. */
  function BulkNotes<C>(kind: Kind, addrs: seq<int>, oks: seq<bool>, clk: int, core: int, cb: Option<C>): seq<Note<C>>
    requires |addrs| == |oks|
  {
    if kind == WRITE then WriteNotes(addrs, oks, clk, core, cb) else []
  }

  lemma {:induction false} SendAllKeepsBooks<E(!new), C(!new), U>(
    g: Engine<E, C>, flight: Flight<E, C>, d: Dev<E, C, U>, addrs: seq<int>, kind: Kind, core: int, cb: Option<C>,
    clk: int, pre: seq<Note<C>>)
    requires Honest(g, flight) && NoDrive(flight, d.mem) && Books(flight, d.(completed := pre))
    ensures var (r, oks) := SendAll(g, d, addrs, kind, core, cb);
            && NoDrive(flight, r.mem)
            && Books(flight, r.(completed := pre + BulkNotes(kind, addrs, oks, clk, core, cb)))
    decreases addrs
  {
    if addrs == [] {
      assert pre + [] == pre;
    } else {
      SendKeepsBooks(g, flight, d.(completed := pre), addrs[0], kind, core, cb, clk);
      var (d1, ok) := Send(g, d, addrs[0], kind, core, cb);
      var one := AtOnce(kind, addrs[0], ok, clk, core, cb);
      SendAllKeepsBooks(g, flight, d1, addrs[1..], kind, core, cb, clk, pre + one);
      var (r, oks) := SendAll(g, d1, addrs[1..], kind, core, cb);
      BulkNotesStep(kind, addrs, ok, oks, clk, core, cb, pre);
    }
  }

  lemma BulkNotesStep<C>(
    kind: Kind, addrs: seq<int>, ok: bool, oks: seq<bool>, clk: int, core: int, cb: Option<C>, pre: seq<Note<C>>)
    requires |addrs| == 1 + |oks|
    ensures pre + BulkNotes(kind, addrs, [ok] + oks, clk, core, cb)
            == (pre + AtOnce(kind, addrs[0], ok, clk, core, cb)) + BulkNotes(kind, addrs[1..], oks, clk, core, cb)
  {
    assert ([ok] + oks)[1..] == oks;
  }

  lemma ReadsKeepLedger<E(!new), C(!new), U>(
    cfg: Config, g: Engine<E, C>, flight: Flight<E, C>, d: Dev<E, C, U>, fired: seq<Note<C>>, addrs: seq<int>,
    core: int, cb: Option<C>)
    requires Honest(g, flight) && Ledger(cfg, flight, d, fired)
    ensures Ledger(cfg, flight, Reads(cfg, g, d, addrs, core, cb).0, fired)
  {
    if CoreOk(cfg, core) {
      SendAllFrame(g, d, addrs, READ, core, cb);
      SendAllKeepsBooks(g, flight, d, addrs, READ, core, cb, d.clk, d.completed);
      var (d1, oks) := SendAll(g, d, addrs, READ, core, cb);
      assert d1.completed + [] == d1.completed;
      StartKeepsLedger(cfg, flight, d1, fired);
    }
  }

  lemma WritesKeepLedger<E(!new), C(!new), U>(
    cfg: Config, g: Engine<E, C>, flight: Flight<E, C>, d: Dev<E, C, U>, fired: seq<Note<C>>, addrs: seq<int>,
    core: int, cb: Option<C>)
    requires Honest(g, flight) && Ordered(d) && Ledger(cfg, flight, d, fired)
    ensures Ledger(cfg, flight, Writes(cfg, g, d, addrs, core, cb).0, fired)
  {
    if CoreOk(cfg, core) {
      SendAllFrame(g, d, addrs, WRITE, core, cb);
      SendAllKeepsBooks(g, flight, d, addrs, WRITE, core, cb, d.clk, d.completed);
      var (d1, oks) := SendAll(g, d, addrs, WRITE, core, cb);
      var d2 := Gather(d1, WriteNotes(addrs, oks, d1.clk, core, cb));
      DeliverKeepsLedger(cfg, flight, d2, fired);
      StartKeepsLedger(cfg, flight, Deliver(cfg, d2), fired);
    }
  }

  lemma ActDramKeepsLedger<E(!new), C(!new), U, V>(
    cfg: Config, g: Engine<E, C>, flight: Flight<E, C>, d: Dev<E, C, U>, fired: seq<Note<C>>, m: DramCall<C>)
    requires cfg.Valid() && Honest(g, flight) && ChainInv(cfg, g, d) && Ledger(cfg, flight, d, fired)
    ensures Ledger(cfg, flight, ActDram<E, C, U, V>(cfg, g, d, m).0, fired)
  {
    match m
    case DoRead(addr, core, cb) =>
      ReadIsReads(cfg, g, d, addr, core, cb);
      ReadsKeepLedger(cfg, g, flight, d, fired, [addr], core, cb);
    case DoWrite(addr, core, cb) =>
      WriteIsWrites(cfg, g, d, addr, core, cb);
      WritesKeepLedger(cfg, g, flight, d, fired, [addr], core, cb);
    case DoReads(addrs, core, cb) => ReadsKeepLedger(cfg, g, flight, d, fired, addrs, core, cb);
    case DoWrites(addrs, core, cb) => WritesKeepLedger(cfg, g, flight, d, fired, addrs, core, cb);
  }

  lemma ActSimKeepsLedger<E, C(!new), V, H>(
    cfg: Config, flight: Flight<E, C>, w: World<E, C, V, H>, fired: seq<Note<C>>, s: SimCall<V>)
    requires Ledger(cfg, flight, w.dev, fired)
    ensures Ledger(cfg, flight, ActSim(w, s).dev, fired)
  {
    match s
    case Schedule(delay, prio, v) =>
      AtKeepsLedger(cfg, flight, w.dev, fired, w.dev.now + delay, prio, User(Named(w.handles, v)));
    case ScheduleAt(time, prio, v) =>
      AtKeepsLedger(cfg, flight, w.dev, fired, time, prio, User(Named(w.handles, v)));
    case Cancel(handle) =>
      CancelKeepsLedger(cfg, flight, w.dev, fired, (t: Tag<C, Named<V>>) => Names(t, handle));
  }

  // -- Events -------------------------------------------------------------------------------------

  lemma TickKeepsLedger<E(!new), C(!new), U>(
    cfg: Config, g: Engine<E, C>, flight: Flight<E, C>, d0: Dev<E, C, U>, fired: seq<Note<C>>, max: nat, h: Horizon)
    requires cfg.Valid() && Honest(g, flight) && ChainInv(cfg, g, d0) && Ledger(cfg, flight, d0, fired)
    requires d0.agenda != [] && d0.agenda[0].what == Tag.Tick && 1 <= max
    requires forall k :: 1 <= k < max ==> FreeCycle(cfg.period, Pop(d0).now, NextTime(Pop(d0).agenda), h, k)
    ensures Ledger(cfg, flight, TickBody(cfg, g, Pop(d0), max), fired)
  {
    PopFrame(d0);
    PopKeepsLedger(cfg, flight, d0, fired);
    assert fired + [] == fired;
    var b := UntilProgress(g, d0.mem, max);
    assert b.cycles > 1 ==> FreeCycle(cfg.period, Pop(d0).now, NextTime(Pop(d0).agenda), h, b.cycles - 1);
    AdvanceKeepsLedger(cfg, g, flight, Pop(d0), fired, max);
    DeliverKeepsLedger(cfg, flight, Advance(cfg, Pop(d0), b), fired);
    RescheduleKeepsLedger(cfg, g, flight, Deliver(cfg, Advance(cfg, Pop(d0), b)), fired);
  }

  lemma AdvanceKeepsLedger<E(!new), C(!new), U>(
    cfg: Config, g: Engine<E, C>, flight: Flight<E, C>, d: Dev<E, C, U>, fired: seq<Note<C>>, max: nat)
    requires cfg.Valid() && Honest(g, flight) && Ordered(d) && Ledger(cfg, flight, d, fired) && 1 <= max
    requires From(d.agenda, d.now + (UntilProgress(g, d.mem, max).cycles - 1) * cfg.period)
    ensures var d1 := Advance(cfg, d, UntilProgress(g, d.mem, max)); Ordered(d1) && Ledger(cfg, flight, d1, fired)
  {
    var b := UntilProgress(g, d.mem, max);
    BurstKeepsBooks(g, flight, d, max);
    Monotone(cfg.period, 0, b.cycles - 1);
    assert Books(flight, Advance(cfg, d, b));
  }

  lemma RescheduleKeepsLedger<E(!new), C(!new), U>(
    cfg: Config, g: Engine<E, C>, flight: Flight<E, C>, d: Dev<E, C, U>, fired: seq<Note<C>>)
    requires Ledger(cfg, flight, d, fired)
    ensures Ledger(cfg, flight,
              if g.pending(d.mem) > 0 then AfterCycles(cfg, d, 1, Tag.Tick)
              else if cfg.idleRefresh then StartIdleTicking(cfg, d.(ticking := false)) else d.(ticking := false), fired)
  {
    AfterCyclesKeepsLedger(cfg, flight, d, fired, 1, Tag.Tick);
    AfterCyclesKeepsLedger(cfg, flight, d.(ticking := false, idleTicking := true, idleBatch := cfg.idleBase), fired,
      cfg.idleBase, Tag<C, U>.IdleTick);
  }

  lemma AfterCyclesKeepsLedger<E, C(!new), U>(
    cfg: Config, flight: Flight<E, C>, d: Dev<E, C, U>, fired: seq<Note<C>>, cycles: int, tag: Tag<C, U>)
    requires Ledger(cfg, flight, d, fired) && !tag.Call?
    ensures Ledger(cfg, flight, AfterCycles(cfg, d, cycles, tag), fired)
  {
    AtKeepsLedger(cfg, flight, d, fired, d.now + cycles * cfg.period, 0, tag);
  }

  /** Where no read is, none appears by ticking. */
  lemma {:induction false} NothingAppears<E(!new), C(!new)>(
    g: Engine<E, C>, flight: Flight<E, C>, e: E, n: nat, k: Closure<C>)
    requires TickServesReads(g, flight) && flight(e, k) == multiset{}
    ensures flight(TickN(g, e, n).0, k) == multiset{}
    decreases n
  {
    if n > 0 {
      assert flight(e, k) == flight(g.tick(e).0, k) + ServedUnder(g.tick(e).1, k);
      NothingAppears(g, flight, g.tick(e).0, n - 1, k);
    }
  }

  lemma IdledKeepsLedger<E(!new), C(!new), U>(
    cfg: Config, g: Engine<E, C>, flight: Flight<E, C>, d0: Dev<E, C, U>, fired: seq<Note<C>>)
    requires FlightIsPending(g, flight) && TickServesReads(g, flight) && Ordered(d0) && Ledger(cfg, flight, d0, fired)
    requires d0.agenda != [] && !d0.agenda[0].what.Call? && g.pending(d0.mem) == 0
    ensures Ledger(cfg, flight, Idled(g, Pop(d0)), fired)
  {
    PopKeepsLedger(cfg, flight, d0, fired);
    assert fired + [] == fired;
    var d := Idled(g, Pop(d0));
    forall c: Closure<C>
      ensures flight(d.mem, c) == flight(d0.mem, c) == multiset{}
    {
      NothingAppears(g, flight, d0.mem, d0.idleBatch, c);
    }
    assert forall k: Key<C> :: InEngine(flight, d.mem, k) == InEngine(flight, d0.mem, k);
  }

  lemma IdleKeepsLedger<E(!new), C(!new), U>(
    cfg: Config, g: Engine<E, C>, flight: Flight<E, C>, d0: Dev<E, C, U>, fired: seq<Note<C>>)
    requires cfg.Valid() && Honest(g, flight) && ChainInv(cfg, g, d0) && Ledger(cfg, flight, d0, fired)
    requires d0.agenda != [] && d0.agenda[0].what == Tag.IdleTick
    ensures Ledger(cfg, flight, IdleBody(cfg, g, Pop(d0)), fired)
  {
    var d := IdleBodyIs(cfg, g, d0);
    IdledKeepsLedger(cfg, g, flight, d0, fired);
    if g.pending(d.mem) > 0 {
      var d1 := d.(idleTicking := false, idleBatch := cfg.idleBase, ticking := true);
      AfterCyclesKeepsLedger(cfg, flight, d1, fired, 1, Tag.Tick);
    } else {
      var next: nat := Min(d.idleBatch * 2, cfg.MaxIdle());
      AfterCyclesKeepsLedger(cfg, flight, d.(idleBatch := next), fired, next, Tag.IdleTick);
    }
  }

  lemma HostKeepsLedger<E(!new), C(!new), V, H>(
    cfg: Config, g: Engine<E, C>, flight: Flight<E, C>, w: World<E, C, V, H>, a: Action<C, V>)
    requires cfg.Valid() && Honest(g, flight) && ChainInv(cfg, g, w.dev)
    requires Ledger(cfg, flight, w.dev, Fired(w.trace))
    ensures var w1 := Act(cfg, g, w, a); Ledger(cfg, flight, w1.dev, Fired(w1.trace))
  {
    if a.OnSim? {
      ActSimKeepsLedger(cfg, flight, w, Fired(w.trace), a.s);
    } else if a.OnDram? {
      ActDramKeepsLedger<E, C, Named<V>, V>(cfg, g, flight, w.dev, Fired(w.trace), a.m);
    }
  }

  lemma FireKeepsLedger<E(!new), C(!new), V, H>(
    mode: Mode, cfg: Config, g: Engine<E, C>, flight: Flight<E, C>, w: World<E, C, V, H>, h: Horizon)
    requires cfg.Valid() && Honest(g, flight) && ChainInv(cfg, g, w.dev) && w.dev.agenda != []
    requires Ledger(cfg, flight, w.dev, Fired(w.trace))
    ensures var w1 := Fire(mode, cfg, g, w, h); Ledger(cfg, flight, w1.dev, Fired(w1.trace))
  {
    var d := Pop(w.dev);
    match w.dev.agenda[0].what {
      case Tick => TickKeepsLedger(cfg, g, flight, w.dev, Fired(w.trace), BurstBound(mode, cfg, d, h), h);
      case IdleTick => IdleKeepsLedger(cfg, g, flight, w.dev, Fired(w.trace));
      case Call(_, _) => PopKeepsLedger(cfg, flight, w.dev, Fired(w.trace));
      case User(_) => PopKeepsLedger(cfg, flight, w.dev, Fired(w.trace));
    }
  }

  lemma StepKeepsLedger<E(!new), C(!new), V, H>(
    mode: Mode, cfg: Config, g: Engine<E, C>, flight: Flight<E, C>, host: Host<H, C, V>, w: World<E, C, V, H>,
    h: Horizon)
    requires cfg.Valid() && Honest(g, flight) && ChainInv(cfg, g, w.dev) && !Halted(w, h)
    requires Ledger(cfg, flight, w.dev, Fired(w.trace))
    ensures var w1 := Step(mode, cfg, g, host, w, h); Ledger(cfg, flight, w1.dev, Fired(w1.trace))
  {
    if w.ctl.Some? {
      var (host', a) := host(w.host, w.ctl.value);
      HostKeepsLedger(cfg, g, flight, w.(host := host'), a);
    } else {
      FireKeepsLedger(mode, cfg, g, flight, w, h);
    }
  }

  // -- Record order ------------------------------------------------------------------------

  /** Completions are handed over in the order in which they were recorded, those without callback left out. */
  ghost predicate Told<E, C, U>(d: Dev<E, C, U>) {
    WithCallback(d.recorded) == d.posted + WithCallback(d.completed)
  }

  lemma {:induction false} WithCallbackAppend<C>(a: seq<Note<C>>, b: seq<Note<C>>)
    ensures WithCallback(a + b) == WithCallback(a) + WithCallback(b)
  {
    if a == [] {
      assert a + b == b;
    } else {
      assert (a + b)[1..] == a[1..] + b;
      WithCallbackAppend(a[1..], b);
    }
  }

  lemma GatherTold<E, C, U>(d: Dev<E, C, U>, notes: seq<Note<C>>)
    requires Told(d)
    ensures Told(Gather(d, notes))
  {
    WithCallbackAppend(d.recorded, notes);
    WithCallbackAppend(d.completed, notes);
  }

  lemma {:induction false} DeliverTold<E, C, U>(cfg: Config, d: Dev<E, C, U>)
    requires Told(d)
    ensures Told(Deliver(cfg, d)) && Deliver(cfg, d).completed == []
    decreases |d.completed|
  {
    if d.completed != [] {
      var n := d.completed[0];
      var d1 := d.(completed := d.completed[1..]);
      if n.user.Some? {
        var d2 := Post(cfg, d1, n.user.value, n.info);
        assert d.posted + ([n] + WithCallback(d1.completed)) == (d.posted + [n]) + WithCallback(d1.completed);
        DeliverTold(cfg, d2);
      } else {
        assert WithCallback(d.completed) == WithCallback(d1.completed);
        DeliverTold(cfg, d1);
      }
    } else {
      assert d.posted + WithCallback(d.completed) == d.posted;
    }
  }

  /** Requests neither record nor hand over; only a write's acceptance does. */
  lemma {:induction false} SendAllTold<E, C, U>(
    g: Engine<E, C>, d: Dev<E, C, U>, addrs: seq<int>, kind: Kind, core: int, cb: Option<C>)
    ensures var r := SendAll(g, d, addrs, kind, core, cb).0; r == d.(mem := r.mem, accepted := r.accepted)
    decreases addrs
  {
    if addrs != [] {
      SendAllTold(g, Send(g, d, addrs[0], kind, core, cb).0, addrs[1..], kind, core, cb);
    }
  }

  lemma ActDramTold<E, C, U, V>(cfg: Config, g: Engine<E, C>, d: Dev<E, C, U>, m: DramCall<C>)
    requires Told(d) && d.completed == []
    ensures Told(ActDram<E, C, U, V>(cfg, g, d, m).0)
  {
    match m
    case DoRead(addr, core, cb) =>
    case DoWrite(addr, core, cb) => WriteIsWrites(cfg, g, d, addr, core, cb); WritesTold(cfg, g, d, [addr], core, cb);
    case DoReads(addrs, core, cb) => SendAllTold(g, d, addrs, READ, core, cb);
    case DoWrites(addrs, core, cb) => WritesTold(cfg, g, d, addrs, core, cb);
  }

  lemma WritesTold<E, C, U>(cfg: Config, g: Engine<E, C>, d: Dev<E, C, U>, addrs: seq<int>, core: int, cb: Option<C>)
    requires Told(d)
    ensures Told(Writes(cfg, g, d, addrs, core, cb).0)
  {
    if CoreOk(cfg, core) {
      SendAllTold(g, d, addrs, WRITE, core, cb);
      var (d1, oks) := SendAll(g, d, addrs, WRITE, core, cb);
      var d2 := Gather(d1, WriteNotes(addrs, oks, d1.clk, core, cb));
      GatherTold(d1, WriteNotes(addrs, oks, d1.clk, core, cb));
      DeliverTold(cfg, d2);
    }
  }

  lemma TickTold<E, C, U>(cfg: Config, g: Engine<E, C>, d: Dev<E, C, U>, max: nat)
    requires Told(d) && 1 <= max
    ensures Told(TickBody(cfg, g, d, max))
  {
    var b := UntilProgress(g, d.mem, max);
    GatherTold(d, b.notes);
    DeliverTold(cfg, Advance(cfg, d, b));
  }

  lemma IdleTold<E, C, U>(cfg: Config, g: Engine<E, C>, d: Dev<E, C, U>)
    requires Told(d)
    ensures Told(IdleBody(cfg, g, d))
  {
    GatherTold(d, Recorded(TickN(g, d.mem, d.idleBatch).1));
  }

  lemma StepKeepsTold<E(!new), C(!new), V, H>(
    mode: Mode, cfg: Config, g: Engine<E, C>, host: Host<H, C, V>, w: World<E, C, V, H>, h: Horizon)
    requires cfg.Valid() && w.dev.completed == [] && Told(w.dev) && !Halted(w, h)
    ensures Told(Step(mode, cfg, g, host, w, h).dev)
  {
    if w.ctl.Some? {
      var (host', a) := host(w.host, w.ctl.value);
      if a.OnDram? {
        ActDramTold<E, C, Named<V>, V>(cfg, g, w.dev, a.m);
      }
    } else {
      var d := Pop(w.dev);
      match w.dev.agenda[0].what {
        case Tick => TickTold(cfg, g, d, BurstBound(mode, cfg, d, h));
        case IdleTick => IdleTold(cfg, g, d);
        case Call(_, _) =>
        case User(_) =>
      }
    }
  }

  // -- Along every run --------------------------------------------------------------------

  /** The chains, the ledger and the record order, guarded by `Inside`. */
  ghost predicate InOrder<E, C(!new), V, H>(cfg: Config, g: Engine<E, C>, flight: Flight<E, C>, w: World<E, C, V, H>) {
    forall u :: Inside(Layer.Lists, u) ==>
      ChainInv(cfg, g, w.dev) && Ledger(cfg, flight, w.dev, Fired(w.trace)) && Told(w.dev)
  }

  lemma StepKeepsOrder<E(!new), C(!new), V, H>(
    mode: Mode, cfg: Config, g: Engine<E, C>, flight: Flight<E, C>, host: Host<H, C, V>, w: World<E, C, V, H>,
    h: Horizon)
    requires cfg.Valid() && Honest(g, flight) && InOrder(cfg, g, flight, w) && !Halted(w, h)
    ensures InOrder(cfg, g, flight, Step(mode, cfg, g, host, w, h))
  {
    assert Inside(Layer.Lists, true);
    StepKeepsLedger(mode, cfg, g, flight, host, w, h);
    StepKeeps(mode, cfg, g, host, w, h);
    StepKeepsTold(mode, cfg, g, host, w, h);
  }
}

/**
 The copy engine never loses, doubles or strands a line.

 The invariant counts every line wherever it is, ties both pipe occupancies to their live events,
 keeps a compute slot reserved for every read, and says for each blocked stage which live event will
 wake it.  With no live event left, all of it together means the copy is complete.
 */
module CopyInvariant {
  import opened Prelude
  import opened Agenda
  import opened Engine
  import opened Device
  import opened Chains
  import opened CopyEngine
  import P = Pipes
  import Delivery

  /** The live events that matter, by kind. */
  datatype Bag = Bag(
    issueArrivals: multiset<int>,
    issueRetries: nat,
    computeArrivals: multiset<Line>,
    computeRetries: nat,
    loads: multiset<int>,
    stores: nat,
    fills: nat)

  const NO_EVENTS := Bag(multiset{}, 0, multiset{}, 0, multiset{}, 0, 0)

  type CopyTag = Tag<Callback, Job>
  type CopyAgenda = seq<Entry<CopyTag>>

  /** One more event. */
  ghost function Plus(b: Bag, t: CopyTag): Bag {
    match t
    case Tick => b
    case IdleTick => b
    case Call(Load, info) => b.(loads := b.loads + multiset{info.addr})
    case Call(Store, _) => b.(stores := b.stores + 1)
    case User(IssueArrive(addr)) => b.(issueArrivals := b.issueArrivals + multiset{addr})
    case User(IssueRetry) => b.(issueRetries := b.issueRetries + 1)
    case User(ComputeArrive(line)) => b.(computeArrivals := b.computeArrivals + multiset{line})
    case User(ComputeRetry) => b.(computeRetries := b.computeRetries + 1)
    case User(Fill) => b.(fills := b.fills + 1)
  }

  ghost function BagOf(q: CopyAgenda): Bag {
    if q == [] then NO_EVENTS else Plus(BagOf(q[1..]), q[0].what)
  }

  lemma Regroup<X>(m: multiset<X>, x: multiset<X>, y: multiset<X>)
    ensures m + x + y == m + (x + y)
  {
  }

  lemma Swap<X>(m: multiset<X>, x: multiset<X>, y: multiset<X>)
    ensures m + x + y == m + y + x
  {
  }

  /** What one event adds to each multiset. */
  ghost function IssueLine(t: CopyTag): multiset<int> {
    if t.User? && t.u.IssueArrive? then multiset{t.u.addr} else multiset{}
  }

  ghost function ComputeLine(t: CopyTag): multiset<Line> {
    if t.User? && t.u.ComputeArrive? then multiset{t.u.line} else multiset{}
  }

  ghost function LoadAddr(t: CopyTag): multiset<int> {
    if t.Call? && t.cb.Load? then multiset{t.info.addr} else multiset{}
  }

  lemma PlusSets(b: Bag, t: CopyTag)
    ensures Plus(b, t).issueArrivals == b.issueArrivals + IssueLine(t)
    ensures Plus(b, t).computeArrivals == b.computeArrivals + ComputeLine(t)
    ensures Plus(b, t).loads == b.loads + LoadAddr(t)
  {
    PlusIssueLine(b, t);
    PlusComputeLine(b, t);
    PlusLoadAddr(b, t);
  }

  lemma PlusIssueLine(b: Bag, t: CopyTag)
    ensures Plus(b, t).issueArrivals == b.issueArrivals + IssueLine(t)
  {
    if !(t.User? && t.u.IssueArrive?) {
      PlusNothing(b.issueArrivals);
      assert Plus(b, t).issueArrivals == b.issueArrivals;
    }
  }

  lemma PlusComputeLine(b: Bag, t: CopyTag)
    ensures Plus(b, t).computeArrivals == b.computeArrivals + ComputeLine(t)
  {
    if !(t.User? && t.u.ComputeArrive?) {
      PlusNothing(b.computeArrivals);
      assert Plus(b, t).computeArrivals == b.computeArrivals;
    }
  }

  lemma PlusLoadAddr(b: Bag, t: CopyTag)
    ensures Plus(b, t).loads == b.loads + LoadAddr(t)
  {
    if !(t.Call? && t.cb.Load?) {
      PlusNothing(b.loads);
      assert Plus(b, t).loads == b.loads;
    }
  }

  lemma PlusNothing<X>(m: multiset<X>)
    ensures m + multiset{} == m
  {
  }

  lemma PlusCounts(b: Bag, t: CopyTag)
    ensures Plus(b, t).issueRetries == b.issueRetries + Bit(t == User(IssueRetry))
    ensures Plus(b, t).computeRetries == b.computeRetries + Bit(t == User(ComputeRetry))
    ensures Plus(b, t).stores == b.stores + Bit(t.Call? && t.cb.Store?)
    ensures Plus(b, t).fills == b.fills + Bit(t == User(Fill))
  {
  }

  lemma PlusCommutes(b: Bag, s: CopyTag, t: CopyTag, bs: Bag, bt: Bag)
    requires bs == Plus(b, s) && bt == Plus(b, t)
    ensures Plus(bs, t) == Plus(bt, s)
  {
    var bst, bts := Plus(bs, t), Plus(bt, s);
    assert bst.issueRetries == bts.issueRetries && bst.computeRetries == bts.computeRetries
        && bst.stores == bts.stores && bst.fills == bts.fills by {
      PlusCounts(b, s); PlusCounts(b, t); PlusCounts(bs, t); PlusCounts(bt, s);
    }
    assert bst.issueArrivals == bts.issueArrivals && bst.computeArrivals == bts.computeArrivals && bst.loads ==
      bts.loads by {
      PlusSets(b, s); PlusSets(b, t); PlusSets(bs, t); PlusSets(bt, s);
      Swap(b.issueArrivals, IssueLine(s), IssueLine(t));
      Swap(b.computeArrivals, ComputeLine(s), ComputeLine(t));
      Swap(b.loads, LoadAddr(s), LoadAddr(t));
    }
  }

  lemma {:induction false} BagInsert(q: CopyAgenda, e: Entry<CopyTag>)
    ensures BagOf(Insert(q, e)) == Plus(BagOf(q), e.what)
  {
    if q != [] && NotAfter(q[0], e) {
      BagInsert(q[1..], e);
      assert Insert(q, e)[1..] == Insert(q[1..], e);
      var b := BagOf(q[1..]);
      PlusCommutes(b, e.what, q[0].what, Plus(b, e.what), Plus(b, q[0].what));
    } else {
      assert ([e] + q)[1..] == q;
    }
  }

  // -- The DRAM, as the engine sees it ----------------------------------------------------

  const LOAD_CLOSURE: Closure<Callback> := Record(0, Some(Load))

  /** The DRAM carries this engine's reads and nothing else, and its idle clock is off. */
  ghost predicate DevOk<E>(cfg: Config, g: CopyEng<E>, flight: Flight<E, Callback>, d: CopyDev<E>) {
    && ChainInv(cfg, g, d)
    && !cfg.idleRefresh && CoreOk(cfg, 0)
    && OnlyLoads(flight, d.mem)
  }

  ghost predicate OnlyLoads<E>(flight: Flight<E, Callback>, e: E) {
    forall c: Closure<Callback> :: c != LOAD_CLOSURE ==> flight(e, c) == multiset{}
  }

  ghost function InFlight<E>(flight: Flight<E, Callback>, d: CopyDev<E>): multiset<int> {
    flight(d.mem, LOAD_CLOSURE)
  }

  /** The destinations accepted as writes so far. */
  ghost function Stored<E>(d: CopyDev<E>): multiset<int> {
    Delivery.Taken(d.accepted, Delivery.Key(WRITE, 0, Store))
  }

  lemma AtEffect<E>(cfg: Config, g: CopyEng<E>, flight: Flight<E, Callback>, k: Copy<E>, delay: int, job: Job)
    requires DevOk(cfg, g, flight, k.dev) && 0 <= delay
    ensures var d := After(k, delay, job).dev;
            && DevOk(cfg, g, flight, d)
            && BagOf(d.agenda) == Plus(BagOf(k.dev.agenda), User(job))
  {
    DevAt(cfg, g, flight, k.dev, k.dev.now + delay, job);
    AtBag(k.dev, k.dev.now + delay, job);
  }

  lemma DevAt<E>(cfg: Config, g: CopyEng<E>, flight: Flight<E, Callback>, d: CopyDev<E>, time: int, job: Job)
    requires DevOk(cfg, g, flight, d) && d.now <= time
    ensures DevOk(cfg, g, flight, At(d, time, 0, User(job)))
  {
    OtherKeeps(cfg, g, d, time, 0, Tag.User(job));
  }

  lemma AtBag<E>(d: CopyDev<E>, time: int, job: Job)
    ensures BagOf(At(d, time, 0, User(job)).agenda) == Plus(BagOf(d.agenda), User(job))
  {
    BagInsert(d.agenda, Entry(time, 0, Tag.User(job)));
  }

  lemma StartTickingBag<E>(cfg: Config, d: CopyDev<E>)
    requires !d.idleTicking
    ensures BagOf(StartTicking(cfg, d).agenda) == BagOf(d.agenda)
  {
    if !d.ticking {
      BagInsert(d.agenda, Entry(d.now + 1 * cfg.period, 0, Tag.Tick));
    }
  }

  lemma ReadEffect<E(!new)>(cfg: Config, g: CopyEng<E>, flight: Flight<E, Callback>, d: CopyDev<E>, addr: int)
    requires GoodEngine(cfg, g, flight) && DevOk(cfg, g, flight, d)
    ensures var (r, res) := Device.Read(cfg, g, d, addr, 0, Some(Load));
            && DevOk(cfg, g, flight, r)
            && BagOf(r.agenda) == BagOf(d.agenda) && Stored(r) == Stored(d) && r.now == d.now
            && res.Ok?
            && (res.value ==> InFlight(flight, r) == InFlight(flight, d) + multiset{addr})
            && (!res.value ==> InFlight(flight, r) == InFlight(flight, d) != multiset{})
  {
    assert Inside(Layer.Lists, true);
    ReadKeeps(cfg, g, d, addr, 0, Some(Load));
    var (d1, ok) := Send(g, d, addr, READ, 0, Some(Load));
    StartTickingBag(cfg, d1);
    Delivery.TakenOne(d.accepted, addr, READ, 0, Some(Load), d.clk, ok, Delivery.Key(WRITE, 0, Store));
    var req := Request(addr, READ, 0, LOAD_CLOSURE);
    forall c: Closure<Callback> | c != LOAD_CLOSURE
      ensures flight(d1.mem, c) == multiset{}
    {
      assert flight(g.send(d.mem, req).0, c) == flight(d.mem, c);
    }
    if !ok {
      assert req.kind == READ && !g.send(d.mem, req).1;
    }
  }

  /** The completion of an accepted write. */
  lemma WriteBag<E>(cfg: Config, d: CopyDev<E>, note: Note<Callback>)
    requires d.completed == [] && !d.idleTicking && note.user == Some(Store)
    ensures var r := StartTicking(cfg, Deliver(cfg, Gather(d, [note])));
            && BagOf(r.agenda) == BagOf(d.agenda).(stores := BagOf(d.agenda).stores + 1)
            && r.now == d.now && r.mem == d.mem && r.accepted == d.accepted
  {
    var d2 := Gather(d, [note]);
    assert d2.completed == [note];
    var d3 := Post(cfg, d2.(completed := []), Store, note.info);
    assert Deliver(cfg, d2) == d3;
    BagInsert(d2.agenda, Entry(d2.now, cfg.priority, Tag.Call(Store, note.info)));
    StartTickingBag(cfg, d3);
  }

  /** A write changes nothing that the reads in flight are counted by. */
  lemma WriteFlight<E(!new)>(g: CopyEng<E>, flight: Flight<E, Callback>, e: E, addr: int)
    requires Honest(g, flight)
    ensures forall c :: flight(g.send(e, Request(addr, WRITE, 0, NoOp)).0, c) == flight(e, c)
  {
    var req := Request(addr, WRITE, 0, Closure<Callback>.NoOp);
    forall c: Closure<Callback>
      ensures flight(g.send(e, req).0, c) == flight(e, c)
    {
      assert flight(e, c) + multiset{} == flight(e, c);
    }
  }

  lemma WriteStores<E>(g: CopyEng<E>, d: CopyDev<E>, addr: int)
    ensures var (d1, ok) := Send(g, d, addr, WRITE, 0, Some(Store));
            if ok then Stored(d1) == Stored(d) + multiset{addr} else Stored(d1) == Stored(d)
  {
    var ok := Send(g, d, addr, WRITE, 0, Some(Store)).1;
    Delivery.TakenOne(d.accepted, addr, WRITE, 0, Some(Store), d.clk, ok, Delivery.Key(WRITE, 0, Store));
  }

  /** The DRAM stays as it must be. */
  lemma WriteKeepsDev<E(!new)>(
    cfg: Config, g: CopyEng<E>, flight: Flight<E, Callback>, d: CopyDev<E>, addr: int)
    requires GoodEngine(cfg, g, flight) && DevOk(cfg, g, flight, d)
    ensures var (r, res) := Device.Write(cfg, g, d, addr, 0, Some(Store));
            DevOk(cfg, g, flight, r) && InFlight(flight, r) == InFlight(flight, d) && res.Ok?
  {
    assert Honest(g, flight) by {
      assert Inside(Layer.Lists, true);
    }
    WriteKeeps(cfg, g, d, addr, 0, Some(Store));
    WriteFlight(g, flight, d.mem, addr);
    var (d1, ok) := Send(g, d, addr, WRITE, 0, Some(Store));
    if ok {
      WriteBag(cfg, d1, WriteNote(addr, d1.clk, 0, Some(Store)));
    }
  }

  lemma WriteEffect<E(!new)>(cfg: Config, g: CopyEng<E>, flight: Flight<E, Callback>, d: CopyDev<E>, addr: int)
    requires GoodEngine(cfg, g, flight) && DevOk(cfg, g, flight, d)
    ensures var (r, res) := Device.Write(cfg, g, d, addr, 0, Some(Store));
            && DevOk(cfg, g, flight, r)
            && r.now == d.now && InFlight(flight, r) == InFlight(flight, d)
            && res.Ok?
            && (res.value ==> BagOf(r.agenda) == BagOf(d.agenda).(stores := BagOf(d.agenda).stores + 1)
                              && Stored(r) == Stored(d) + multiset{addr})
            && (!res.value ==> BagOf(r.agenda) == BagOf(d.agenda) && Stored(r) == Stored(d))
  {
    WriteKeepsDev(cfg, g, flight, d, addr);
    WriteStores(g, d, addr);
    var (d1, ok) := Send(g, d, addr, WRITE, 0, Some(Store));
    if ok {
      WriteBag(cfg, d1, WriteNote(addr, d1.clk, 0, Some(Store)));
    }
  }

  ghost function NoteAddrs(ns: seq<Note<Callback>>): multiset<int> {
    if ns == [] then multiset{} else multiset{ns[0].info.addr} + NoteAddrs(ns[1..])
  }

  ghost predicate AllLoads(ns: seq<Note<Callback>>) {
    ns == [] || (ns[0].user == Some(Load) && AllLoads(ns[1..]))
  }

  lemma {:induction false} RecordedLoads(s: seq<Served<Callback>>)
    requires forall i :: 0 <= i < |s| ==> s[i].closure == LOAD_CLOSURE
    ensures AllLoads(Recorded(s)) && NoteAddrs(Recorded(s)) == ServedUnder(s, LOAD_CLOSURE)
  {
    if s != [] {
      assert s[0].closure == LOAD_CLOSURE;
      RecordedLoads(s[1..]);
      assert Recorded(s)[1..] == Recorded(s[1..]);
    }
  }

  lemma CycleEffect<E(!new)>(g: CopyEng<E>, flight: Flight<E, Callback>, e: E)
    requires Honest(g, flight) && OnlyLoads(flight, e)
    ensures var (e', s) := g.tick(e);
            && OnlyLoads(flight, e') && AllLoads(Recorded(s))
            && flight(e, LOAD_CLOSURE) == flight(e', LOAD_CLOSURE) + NoteAddrs(Recorded(s))
  {
    var (e', s) := g.tick(e);
    forall c: Closure<Callback> | c != LOAD_CLOSURE
      ensures flight(e', c) == multiset{} && ServedUnder(s, c) == multiset{}
    {
      assert flight(e, c) == flight(e', c) + ServedUnder(s, c);
    }
    forall i | 0 <= i < |s|
      ensures s[i].closure == LOAD_CLOSURE
    {
      ServedMember(s, i);
    }
    RecordedLoads(s);
  }

  lemma {:induction false} BurstEffect<E(!new)>(g: CopyEng<E>, flight: Flight<E, Callback>, e: E, max: nat)
    requires Honest(g, flight) && OnlyLoads(flight, e) && 1 <= max
    ensures var b := UntilProgress(g, e, max);
            && OnlyLoads(flight, b.mem) && AllLoads(b.notes)
            && flight(e, LOAD_CLOSURE) == flight(b.mem, LOAD_CLOSURE) + NoteAddrs(b.notes)
    decreases max
  {
    CycleEffect(g, flight, e);
    var (e', s) := g.tick(e);
    if !Progress(g, e', s) && max != 1 {
      BurstEffect(g, flight, e', max - 1);
    }
  }

  lemma {:induction false} DeliverEffect<E>(cfg: Config, d: CopyDev<E>)
    requires AllLoads(d.completed)
    ensures var r := Deliver(cfg, d);
            && BagOf(r.agenda) == BagOf(d.agenda).(loads := BagOf(d.agenda).loads + NoteAddrs(d.completed))
            && r.accepted == d.accepted && r.mem == d.mem
    decreases |d.completed|
  {
    var b := BagOf(d.agenda);
    if d.completed == [] {
      PlusNothing(b.loads);
    } else {
      var n := d.completed[0];
      var d1 := Post(cfg, d.(completed := d.completed[1..]), Load, n.info);
      BagInsert(d.agenda, Entry(d.now, cfg.priority, Tag.Call(Load, n.info)));
      DeliverEffect(cfg, d1);
      Regroup(b.loads, multiset{n.info.addr}, NoteAddrs(d.completed[1..]));
    }
  }

  /** A tick moves the served reads from the engine to live load events. */
  lemma TickEffect<E(!new)>(
    cfg: Config, g: CopyEng<E>, flight: Flight<E, Callback>, d0: CopyDev<E>) returns (served: multiset<int>)
    requires GoodEngine(cfg, g, flight) && DevOk(cfg, g, flight, d0)
    requires d0.agenda != [] && d0.agenda[0].what == Tag.Tick
    ensures var d := Pop(d0);
            var r := TickBody(cfg, g, d, MaxBurst(cfg.period, d.now, NextTime(d.agenda), None));
            && DevOk(cfg, g, flight, r)
            && BagOf(r.agenda) == BagOf(d0.agenda).(loads := BagOf(d0.agenda).loads + served)
            && InFlight(flight, d0) == InFlight(flight, r) + served
            && Stored(r) == Stored(d0)
  {
    assert Inside(Layer.Lists, true);
    var d := Pop(d0);
    var max := MaxBurst(cfg.period, d.now, NextTime(d.agenda), None);
    TickKeeps(cfg, g, d0, max, None);
    BurstEffect(g, flight, d.mem, max);
    var b := UntilProgress(g, d.mem, max);
    served := NoteAddrs(b.notes);
    SettleEffect(cfg, g, d, b);
  }

  /** One more tick event, or none, makes no difference to the bag. */
  lemma NextTickBag<E>(cfg: Config, d: CopyDev<E>, busy: bool)
    ensures BagOf((if busy then AfterCycles(cfg, d, 1, Tag.Tick) else d.(ticking := false)).agenda) == BagOf(d.agenda)
  {
    BagInsert(d.agenda, Entry(d.now + 1 * cfg.period, 0, Tag.Tick));
  }

  lemma SettleEffect<E(!new)>(cfg: Config, g: CopyEng<E>, d: CopyDev<E>, b: Burst<E, Callback>)
    requires d.completed == [] && AllLoads(b.notes) && !cfg.idleRefresh
    ensures var r := Settle(cfg, g, d, b);
            && BagOf(r.agenda) == BagOf(d.agenda).(loads := BagOf(d.agenda).loads + NoteAddrs(b.notes))
            && r.mem == b.mem && r.accepted == d.accepted
  {
    var d1 := Advance(cfg, d, b);
    assert d1.completed == b.notes && d1.agenda == d.agenda;
    DeliverEffect(cfg, d1);
    var d2 := Deliver(cfg, d1);
    NextTickBag(cfg, d2, g.pending(d2.mem) > 0);
  }

  // -- The invariant ------------------------------------------------------------------

  /** What a running handler holds: slots it still counts for, and lines it has in hand. */
  datatype Hand = Hand(issueSlack: nat, issue: multiset<int>, computeSlack: nat, compute: multiset<Line>,
    load: multiset<int>)

  const EMPTY := Hand(0, multiset{}, 0, multiset{}, multiset{})

  /** Occupancies and counters are what the live events, the queues and the DRAM say; every read
      in flight has a compute slot reserved, so no completion is ever held back. */
  ghost predicate Counts<E>(p: Params, flight: Flight<E, Callback>, k: Copy<E>, h: Hand) {
    var b := BagOf(k.dev.agenda);
    && k.issue.inFlight == |b.issueArrivals| + |k.issue.stalled| + h.issueSlack <= p.issueSlots
    && k.compute.inFlight == |b.computeArrivals| + |k.compute.stalled| + h.computeSlack
    && k.loading == |InFlight(flight, k.dev)| + |b.loads|
    && k.loading + k.compute.inFlight <= p.computeSlots
    && k.held == [] && k.computeStalls == 0
    && k.writes + b.stores == |Stored(k.dev)|
    && |k.queue| <= p.queueDepth
    && 0 <= k.produced && (k.produced <= p.lines || k.produced == 0)
  }

  /** The source addresses of the first `n` lines. */
  predicate Produced(n: int, a: int) {
    var off := a - SRC_BASE;
    0 <= off && off % CACHELINE == 0 && off / CACHELINE < n
  }

  /** How often line `a` is anywhere in the engine, in the DRAM, or stored. */
  ghost function Places<E>(flight: Flight<E, Callback>, k: Copy<E>, h: Hand, a: int): nat {
    var b := BagOf(k.dev.agenda);
    b.issueArrivals[a] + multiset(k.issue.stalled)[a] + h.issue[a] + multiset(k.queue)[a]
    + InFlight(flight, k.dev)[a] + b.loads[a] + h.load[a]
    + b.computeArrivals[LineOf(a)] + multiset(k.compute.stalled)[LineOf(a)] + h.compute[LineOf(a)]
    + Stored(k.dev)[Dst(a)]
  }

  /** Every produced line is in exactly one place, and nothing else is anywhere. */
  ghost predicate Conserved<E>(flight: Flight<E, Callback>, k: Copy<E>, h: Hand) {
    forall a :: Places(flight, k, h, a) == Bit(Produced(k.produced, a))
  }

  /** Every line still to be stored goes where its source says. */
  ghost predicate Aimed<E>(k: Copy<E>, h: Hand) {
    AllAimed(BagOf(k.dev.agenda).computeArrivals) && AllAimed(multiset(k.compute.stalled)) && AllAimed(h.compute)
  }

  ghost predicate AllAimed(m: multiset<Line>) {
    forall l :: l in m ==> l == LineOf(l.src)
  }

  ghost predicate Sound<E>(cfg: Config, g: CopyEng<E>, p: Params, flight: Flight<E, Callback>, k: Copy<E>, h: Hand) {
    forall u :: Inside(Layer.Objects, u) ==>
      DevOk(cfg, g, flight, k.dev) && Counts(p, flight, k, h) && Conserved(flight, k, h) && Aimed(k, h)
  }

  /** One retry event per pipe with stalled items, none otherwise. */
  ghost predicate Retries<E>(k: Copy<E>) {
    var b := BagOf(k.dev.agenda);
    && (k.issue.retry <==> k.issue.stalled != []) && b.issueRetries == Bit(k.issue.retry)
    && (k.compute.retry <==> k.compute.stalled != []) && b.computeRetries == Bit(k.compute.retry)
  }

  /** A waiting read will be looked at again: by a load, by a stored line, or by an item still to store. */
  ghost predicate ReadWake<E>(k: Copy<E>) {
    k.queue != [] ==> k.loading + k.compute.inFlight + BagOf(k.dev.agenda).stores > 0
  }

  /** An unfinished stream will be continued: by a fill, or by an item whose acceptance schedules one. */
  ghost predicate FillWake<E>(p: Params, k: Copy<E>) {
    k.produced < p.lines ==> k.issue.inFlight + BagOf(k.dev.agenda).fills > 0
  }

  ghost predicate Inv<E>(cfg: Config, g: CopyEng<E>, p: Params, flight: Flight<E, Callback>, k: Copy<E>) {
    forall u :: Inside(Layer.Objects, u) ==>
      Sound(cfg, g, p, flight, k, EMPTY) && Retries(k) && ReadWake(k) && FillWake(p, k)
  }

  /** Nothing that the invariant counts differs between `k` and `r`. */
  ghost predicate SameCounts<E>(flight: Flight<E, Callback>, k: Copy<E>, r: Copy<E>) {
    var b, b' := BagOf(k.dev.agenda), BagOf(r.dev.agenda);
    && r == k.(dev := r.dev, issueStalls := r.issueStalls, storeStalls := r.storeStalls,
               issue := k.issue.(retry := r.issue.retry), compute := k.compute.(retry := r.compute.retry))
    && b' == b.(fills := b'.fills, issueRetries := b'.issueRetries, computeRetries := b'.computeRetries)
    && InFlight(flight, r.dev) == InFlight(flight, k.dev) && Stored(r.dev) == Stored(k.dev)
  }

  lemma SameSound<E>(
    cfg: Config, g: CopyEng<E>, p: Params, flight: Flight<E, Callback>, k: Copy<E>, r: Copy<E>, h: Hand)
    requires Sound(cfg, g, p, flight, k, h) && DevOk(cfg, g, flight, r.dev) && SameCounts(flight, k, r)
    ensures Sound(cfg, g, p, flight, r, h)
  {
    forall a
      ensures Places(flight, r, h, a) == Places(flight, k, h, a)
    {
    }
  }

  // -- Reads ---------------------------------------------------------------------------

  lemma QueueHead(q: seq<int>, a: int)
    requires q != []
    ensures multiset(q)[a] == multiset(q[1..])[a] + Bit(q[0] == a)
  {
    assert q == [q[0]] + q[1..];
  }

  /** From the queue into the DRAM. */
  lemma ReadPlaces<E>(flight: Flight<E, Callback>, k: Copy<E>, h: Hand, r: Copy<E>)
    requires k.queue != [] && r == k.(dev := r.dev, queue := k.queue[1..], loading := r.loading)
    requires BagOf(r.dev.agenda) == BagOf(k.dev.agenda) && Stored(r.dev) == Stored(k.dev)
    requires InFlight(flight, r.dev) == InFlight(flight, k.dev) + multiset{k.queue[0]}
    ensures forall a :: Places(flight, r, h, a) == Places(flight, k, h, a)
  {
    forall a
      ensures Places(flight, r, h, a) == Places(flight, k, h, a)
    {
      QueueHead(k.queue, a);
    }
  }

  lemma SoundDev<E>(cfg: Config, g: CopyEng<E>, p: Params, flight: Flight<E, Callback>, k: Copy<E>, h: Hand)
    requires Sound(cfg, g, p, flight, k, h)
    ensures DevOk(cfg, g, flight, k.dev)
  {
    assert Inside(Layer.Objects, true);
  }

  lemma ReadAccepted<E>(
    cfg: Config, g: CopyEng<E>, p: Params, flight: Flight<E, Callback>, k: Copy<E>, h: Hand, d: CopyDev<E>)
    requires Sound(cfg, g, p, flight, k, h) && k.queue != [] && Reserved(k) < p.computeSlots && DevOk(cfg, g, flight, d)
    requires BagOf(d.agenda) == BagOf(k.dev.agenda) && Stored(d) == Stored(k.dev)
    requires InFlight(flight, d) == InFlight(flight, k.dev) + multiset{k.queue[0]}
    ensures Sound(cfg, g, p, flight, k.(dev := d, queue := k.queue[1..], loading := k.loading + 1), h)
  {
    assert Inside(Layer.Objects, true);
    ReadPlaces(flight, k, h, k.(dev := d, queue := k.queue[1..], loading := k.loading + 1));
  }

  lemma ReadRefused<E>(
    cfg: Config, g: CopyEng<E>, p: Params, flight: Flight<E, Callback>, k: Copy<E>, h: Hand, d: CopyDev<E>)
    requires Sound(cfg, g, p, flight, k, h) && DevOk(cfg, g, flight, d)
    requires BagOf(d.agenda) == BagOf(k.dev.agenda) && Stored(d) == Stored(k.dev)
    requires InFlight(flight, d) == InFlight(flight, k.dev) != multiset{}
    ensures Sound(cfg, g, p, flight, k.(dev := d), h) && k.loading > 0
  {
    SameSound(cfg, g, p, flight, k, k.(dev := d), h);
    assert Inside(Layer.Objects, true);
    assert |InFlight(flight, d)| > 0;
  }

  /** A read that is accepted moves the head of the queue into the DRAM. */
  lemma OneRead<E(!new)>(cfg: Config, g: CopyEng<E>, p: Params, flight: Flight<E, Callback>, k: Copy<E>, h: Hand)
    requires GoodEngine(cfg, g, flight) && Sound(cfg, g, p, flight, k, h)
    requires k.queue != [] && Reserved(k) < p.computeSlots
    ensures var (d, ok) := Device.Read(cfg, g, k.dev, k.queue[0], 0, Some(Load));
            && ok.Ok? && BagOf(d.agenda) == BagOf(k.dev.agenda)
            && (ok.value ==> Sound(cfg, g, p, flight, k.(dev := d, queue := k.queue[1..], loading := k.loading + 1), h))
            && (!ok.value ==> Sound(cfg, g, p, flight, k.(dev := d), h) && k.loading > 0)
  {
    SoundDev(cfg, g, p, flight, k, h);
    ReadEffect(cfg, g, flight, k.dev, k.queue[0]);
    var (d, ok) := Device.Read(cfg, g, k.dev, k.queue[0], 0, Some(Load));
    if ok.value {
      ReadAccepted(cfg, g, p, flight, k, h, d);
    } else {
      ReadRefused(cfg, g, p, flight, k, h, d);
    }
  }

  lemma NothingToRead<E>(cfg: Config, g: CopyEng<E>, p: Params, flight: Flight<E, Callback>, k: Copy<E>, h: Hand)
    requires p.Valid() && Sound(cfg, g, p, flight, k, h)
    requires k.queue == [] || k.loading >= p.maxOutstanding || Reserved(k) >= p.computeSlots
    ensures ReadWake(k)
  {
    assert Inside(Layer.Objects, true);
    assert Inside(Layer.Lists, true);
  }

  /** The pump keeps everything, touches nothing but the DRAM, the queue and the read count, and leaves
      a waiting queue only when something in flight will pump again. */
  lemma {:induction false} IssueReadsKeeps<E(!new)>(
    cfg: Config, g: CopyEng<E>, p: Params, flight: Flight<E, Callback>, k: Copy<E>, h: Hand)
    requires GoodEngine(cfg, g, flight) && p.Valid() && Sound(cfg, g, p, flight, k, h)
    requires 0 <= k.compute.inFlight
    ensures var r := IssueReads(cfg, g, p, k);
            && Sound(cfg, g, p, flight, r, h)
            && r == k.(dev := r.dev, queue := r.queue, loading := r.loading)
            && BagOf(r.dev.agenda) == BagOf(k.dev.agenda)
            && ReadWake(r)
    decreases |k.queue|
  {
    if k.queue != [] && k.loading < p.maxOutstanding && Reserved(k) < p.computeSlots {
      OneRead(cfg, g, p, flight, k, h);
      var (d, ok) := Device.Read(cfg, g, k.dev, k.queue[0], 0, Some(Load));
      if ok == Ok(true) {
        var k1 := k.(dev := d, queue := k.queue[1..], loading := k.loading + 1);
        IssueReadsKeeps(cfg, g, p, flight, k1, h);
        assert IssueReads(cfg, g, p, k) == IssueReads(cfg, g, p, k1);
      } else {
        assert IssueReads(cfg, g, p, k) == k.(dev := d);
      }
    } else {
      assert IssueReads(cfg, g, p, k) == k;
      NothingToRead(cfg, g, p, flight, k, h);
    }
  }

  lemma PumpKeeps<E(!new)>(cfg: Config, g: CopyEng<E>, p: Params, flight: Flight<E, Callback>, k: Copy<E>, h: Hand)
    requires GoodEngine(cfg, g, flight) && p.Valid() && Sound(cfg, g, p, flight, k, h)
    ensures var r := PumpReads(cfg, g, p, k);
            && Sound(cfg, g, p, flight, r, h)
            && r == k.(dev := r.dev, queue := r.queue, loading := r.loading)
            && BagOf(r.dev.agenda) == BagOf(k.dev.agenda)
            && ReadWake(r)
  {
    assert Inside(Layer.Objects, true);
    assert DrainHeld(p, k) == k;
    IssueReadsKeeps(cfg, g, p, flight, k, h);
  }

  // -- The issue pipe ---------------------------------------------------------------------

  lemma Enqueue<E(!new)>(
    cfg: Config, g: CopyEng<E>, p: Params, flight: Flight<E, Callback>, k: Copy<E>, h: Hand, addr: int)
    returns (k1: Copy<E>, h1: Hand)
    requires Sound(cfg, g, p, flight, k, h) && addr in h.issue && |k.queue| < p.queueDepth
    ensures var q := k.queue + [addr];
            k1 == k.(queue := q, highWater := if |q| > k.highWater then |q| else k.highWater)
    ensures h1 == h.(issue := h.issue - multiset{addr})
    ensures Sound(cfg, g, p, flight, k1, h1)
  {
    var q := k.queue + [addr];
    k1 := k.(queue := q, highWater := if |q| > k.highWater then |q| else k.highWater);
    h1 := h.(issue := h.issue - multiset{addr});
    forall a
      ensures Places(flight, k1, h1, a) == Places(flight, k, h, a)
    {
    }
  }

  lemma OnIssueKeeps<E(!new)>(
    cfg: Config, g: CopyEng<E>, p: Params, flight: Flight<E, Callback>, k: Copy<E>, h: Hand, addr: int)
    requires GoodEngine(cfg, g, flight) && p.Valid() && Sound(cfg, g, p, flight, k, h)
    requires addr in h.issue
    ensures var (r, ok) := OnIssue(cfg, g, p, k, addr);
            && (!ok ==> r == k.(issueStalls := k.issueStalls + 1))
            && (ok ==> Sound(cfg, g, p, flight, r, h.(issue := h.issue - multiset{addr}))
                       && r == k.(dev := r.dev, queue := r.queue, loading := r.loading, highWater := r.highWater)
                       && BagOf(r.dev.agenda) == BagOf(k.dev.agenda).(fills := BagOf(k.dev.agenda).fills + 1)
                       && ReadWake(r))
  {
    if |k.queue| < p.queueDepth {
      var k1, h1 := Enqueue(cfg, g, p, flight, k, h, addr);
      PumpKeeps(cfg, g, p, flight, k1, h1);
      var k2 := PumpReads(cfg, g, p, k1);
      FillLater(cfg, g, p, flight, k2, h1);
      assert OnIssue(cfg, g, p, k, addr) == (After(k2, 0, Fill), true);
    }
  }

  lemma FillLater<E(!new)>(cfg: Config, g: CopyEng<E>, p: Params, flight: Flight<E, Callback>, k: Copy<E>, h: Hand)
    requires GoodEngine(cfg, g, flight) && Sound(cfg, g, p, flight, k, h) && ReadWake(k)
    ensures var r := After(k, 0, Fill);
            && Sound(cfg, g, p, flight, r, h) && ReadWake(r)
            && BagOf(r.dev.agenda) == BagOf(k.dev.agenda).(fills := BagOf(k.dev.agenda).fills + 1)
  {
    assert Inside(Layer.Objects, true);
    AtEffect(cfg, g, flight, k, 0, Fill);
    SameSound(cfg, g, p, flight, k, After(k, 0, Fill), h);
  }

  lemma {:induction false} IssueReadsIgnoresPipe<E>(
    cfg: Config, g: CopyEng<E>, p: Params, k: Copy<E>, pipe: P.Pipe<int>)
    ensures IssueReads(cfg, g, p, k.(issue := pipe)) == IssueReads(cfg, g, p, k).(issue := pipe)
    decreases |k.queue|
  {
    if k.queue != [] && k.loading < p.maxOutstanding && Reserved(k) < p.computeSlots {
      var (d, ok) := Device.Read(cfg, g, k.dev, k.queue[0], 0, Some(Load));
      if ok == Ok(true) {
        IssueReadsIgnoresPipe(cfg, g, p, k.(dev := d, queue := k.queue[1..], loading := k.loading + 1), pipe);
      }
    }
  }

  lemma {:induction false} DrainHeldIgnoresPipe<E>(p: Params, k: Copy<E>, pipe: P.Pipe<int>)
    ensures DrainHeld(p, k.(issue := pipe)) == DrainHeld(p, k).(issue := pipe)
    decreases |k.held|
  {
    if k.held != [] {
      var (k1, ok) := PutCompute(p, k, k.held[0]);
      if ok {
        DrainHeldIgnoresPipe(p, k1.(held := k.held[1..]), pipe);
      }
    }
  }

  /** The consumer of the issue pipe neither reads nor changes that pipe. */
  lemma OnIssueIgnoresPipe<E>(cfg: Config, g: CopyEng<E>, p: Params, k: Copy<E>, addr: int, pipe: P.Pipe<int>)
    ensures OnIssue(cfg, g, p, k.(issue := pipe), addr) ==
            (OnIssue(cfg, g, p, k, addr).0.(issue := pipe), OnIssue(cfg, g, p, k, addr).1)
  {
    var q := k.queue + [addr];
    var k1 := k.(queue := q, highWater := if |q| > k.highWater then |q| else k.highWater);
    DrainHeldIgnoresPipe(p, k1, pipe);
    IssueReadsIgnoresPipe(cfg, g, p, DrainHeld(p, k1), pipe);
  }

  /** What an item accepted by the issue queue changes, beyond the queue itself. */
  ghost predicate Issued<E>(k: Copy<E>, r: Copy<E>) {
    && r.compute == k.compute && r.produced == k.produced
    && BagOf(r.dev.agenda) == BagOf(k.dev.agenda).(fills := BagOf(r.dev.agenda).fills)
    && BagOf(k.dev.agenda).fills <= BagOf(r.dev.agenda).fills
  }

  lemma SlackPlaces<E>(flight: Flight<E, Callback>, k: Copy<E>, h: Hand, r: Copy<E>, h': Hand)
    requires r == k.(issue := k.issue.(inFlight := r.issue.inFlight)) && h == h'.(issueSlack := h.issueSlack)
    ensures forall a :: Places(flight, r, h', a) == Places(flight, k, h, a)
  {
  }

  /** One more item leaves the issue pipe for the queue. */
  lemma SlackSound<E>(
    cfg: Config, g: CopyEng<E>, p: Params, flight: Flight<E, Callback>, k: Copy<E>, h: Hand, r: Copy<E>)
    requires Sound(cfg, g, p, flight, k, h.(issueSlack := h.issueSlack + 1))
    requires r == k.(issue := k.issue.(inFlight := k.issue.inFlight - 1))
    ensures Sound(cfg, g, p, flight, r, h) && r.held == []
  {
    assert Inside(Layer.Objects, true);
    SlackPlaces(flight, k, h.(issueSlack := h.issueSlack + 1), r, h);
  }

  lemma AcceptIssue<E(!new)>(
    cfg: Config, g: CopyEng<E>, p: Params, flight: Flight<E, Callback>, k: Copy<E>, h: Hand, addr: int)
    requires GoodEngine(cfg, g, flight) && p.Valid()
    requires Sound(cfg, g, p, flight, k, h.(issueSlack := h.issueSlack + 1, issue := h.issue + multiset{addr}))
    requires OnIssue(cfg, g, p, k, addr).1
    ensures var r := OnIssue(cfg, g, p, k, addr).0;
            var r1 := r.(issue := k.issue.(inFlight := k.issue.inFlight - 1));
            && Sound(cfg, g, p, flight, r1, h) && ReadWake(r1) && Issued(k, r1)
            && BagOf(r1.dev.agenda).fills > 0 && r.issue == k.issue && r1.held == []
  {
    var h1 := h.(issueSlack := h.issueSlack + 1, issue := h.issue + multiset{addr});
    OnIssueKeeps(cfg, g, p, flight, k, h1, addr);
    assert h1.issue - multiset{addr} == h.issue;
    var r := OnIssue(cfg, g, p, k, addr).0;
    SlackSound(cfg, g, p, flight, r, h, r.(issue := k.issue.(inFlight := k.issue.inFlight - 1)));
  }

  /** Between two items of an issue-pipe event. */
  ghost predicate IssueOk<E>(
    cfg: Config, g: CopyEng<E>, p: Params, flight: Flight<E, Callback>, k: Copy<E>, r: Copy<E>) {
    && Sound(cfg, g, p, flight, r, EMPTY) && ReadWake(r) && Issued(k, r)
    && r.issue.inFlight + BagOf(r.dev.agenda).fills > 0
  }

  /** Rounds add up; the middle states may differ in their issue pipe. */
  lemma IssueOkTrans<E>(
    cfg: Config, g: CopyEng<E>, p: Params, flight: Flight<E, Callback>, k: Copy<E>, m: Copy<E>, m1: Copy<E>, r: Copy<E>)
    requires Issued(k, m) && m == m1.(issue := m.issue) && IssueOk(cfg, g, p, flight, m1, r)
    ensures IssueOk(cfg, g, p, flight, k, r)
  {
  }

  /** First delivery of an item. */
  lemma DeliverIssueKeeps<E(!new)>(
    cfg: Config, g: CopyEng<E>, p: Params, flight: Flight<E, Callback>, k: Copy<E>, addr: int)
    returns (o: P.Outcome<Copy<E>, int>)
    requires GoodEngine(cfg, g, flight) && p.Valid()
    requires Sound(cfg, g, p, flight, k, Hand(1, multiset{addr}, 0, multiset{}, multiset{})) && ReadWake(k)
    ensures o == P.Deliver(p.IssueShape(), IssueConsumer(cfg, g, p), k.issue, k, addr)
    ensures IssueOk(cfg, g, p, flight, k, o.s.(issue := o.pipe))
    ensures o.pipe.stalled == k.issue.stalled + (if o.again || o.pipe.inFlight == k.issue.inFlight then [addr] else [])
    ensures if o.pipe.inFlight == k.issue.inFlight then o.pipe.retry && o.again == !k.issue.retry
            else o.pipe.retry == k.issue.retry && !o.again
  {
    assert Inside(Layer.Objects, true);
    o := P.Deliver(p.IssueShape(), IssueConsumer(cfg, g, p), k.issue, k, addr);
    var (k1, ok) := OnIssue(cfg, g, p, k, addr);
    if ok {
      assert EMPTY.issue + multiset{addr} == multiset{addr};
      AcceptIssue(cfg, g, p, flight, k, EMPTY, addr);
      assert o == P.Outcome(k.issue.(inFlight := k.issue.inFlight - 1), k1, [], false);
    } else {
      var pipe := k.issue.(stalled := k.issue.stalled + [addr], retry := true);
      assert o == P.Outcome(pipe, k1, [], !k.issue.retry);
      OnIssueKeeps(cfg, g, p, flight, k, Hand(1, multiset{addr}, 0, multiset{}, multiset{}), addr);
      StallIssue(cfg, g, p, flight, k, addr, k1.(issue := pipe));
    }
  }

  /** From the delivery into the stalled queue. */
  lemma StallPlaces<E>(flight: Flight<E, Callback>, k: Copy<E>, addr: int, r: Copy<E>)
    requires r == k.(issueStalls := r.issueStalls,
             issue := k.issue.(stalled := k.issue.stalled + [addr], retry := true))
    ensures forall a ::
              Places(flight, r, EMPTY, a) ==
              Places(flight, k, Hand(1, multiset{addr}, 0, multiset{}, multiset{}), a)
  {
  }

  lemma StallIssue<E(!new)>(
    cfg: Config, g: CopyEng<E>, p: Params, flight: Flight<E, Callback>, k: Copy<E>, addr: int, r: Copy<E>)
    requires Sound(cfg, g, p, flight, k, Hand(1, multiset{addr}, 0, multiset{}, multiset{}))
    requires r == k.(issueStalls := r.issueStalls,
             issue := k.issue.(stalled := k.issue.stalled + [addr], retry := true))
    requires ReadWake(k)
    ensures IssueOk(cfg, g, p, flight, k, r)
  {
    StallPlaces(flight, k, addr, r);
    assert Inside(Layer.Objects, true);
    assert k.issue.inFlight > 0;
  }

  /** Taking the head of the stalled queue in hand. */
  lemma TakeIssue<E(!new)>(
    cfg: Config, g: CopyEng<E>, p: Params, flight: Flight<E, Callback>, k: Copy<E>) returns (k1: Copy<E>)
    requires Sound(cfg, g, p, flight, k, EMPTY) && k.issue.stalled != []
    ensures k1 == k.(issue := k.issue.(stalled := k.issue.stalled[1..]))
    ensures var addr := k.issue.stalled[0];
            Sound(cfg, g, p, flight, k1,
              EMPTY.(issueSlack := EMPTY.issueSlack + 1, issue := EMPTY.issue + multiset{addr}))
  {
    var addr := k.issue.stalled[0];
    k1 := k.(issue := k.issue.(stalled := k.issue.stalled[1..]));
    var h := EMPTY.(issueSlack := EMPTY.issueSlack + 1, issue := EMPTY.issue + multiset{addr});
    forall a
      ensures Places(flight, k1, h, a) == Places(flight, k, EMPTY, a)
    {
      QueueHead(k.issue.stalled, a);
    }
  }

  /** Changing only the issue pipe on the way in changes only it on the way out. */
  lemma SameIssue<E>(
    cfg: Config, g: CopyEng<E>, p: Params, flight: Flight<E, Callback>, k: Copy<E>, k1: Copy<E>, r1: Copy<E>)
    requires k1 == k.(issue := k1.issue) && Issued(k1, r1) && ReadWake(r1) && Sound(cfg, g, p, flight, r1, EMPTY)
    requires BagOf(r1.dev.agenda).fills > 0
    ensures IssueOk(cfg, g, p, flight, k, r1)
  {
    StalledOccupies(cfg, g, p, flight, r1);
  }

  /** One accepted item of the retry loop. */
  lemma DrainOne<E(!new)>(
    cfg: Config, g: CopyEng<E>, p: Params, flight: Flight<E, Callback>, pipe: P.Pipe<int>, k: Copy<E>, r: Copy<E>)
    returns (next: P.Pipe<int>)
    requires GoodEngine(cfg, g, flight) && p.Valid()
    requires Sound(cfg, g, p, flight, k.(issue := pipe), EMPTY) && pipe.stalled != []
    requires (r, true) == OnIssue(cfg, g, p, k, pipe.stalled[0])
    ensures next == pipe.(stalled := pipe.stalled[1..], inFlight := pipe.inFlight - 1)
    ensures IssueOk(cfg, g, p, flight, k, r.(issue := next)) && ReadWake(r) && BagOf(r.dev.agenda).fills > 0
  {
    var addr := pipe.stalled[0];
    var k1 := TakeIssue(cfg, g, p, flight, k.(issue := pipe));
    OnIssueIgnoresPipe(cfg, g, p, k, addr, k1.issue);
    next := pipe.(stalled := pipe.stalled[1..], inFlight := pipe.inFlight - 1);
    var r1 := r.(issue := next);
    Accepted(cfg, g, p, flight, k1, addr, r1);
    SameIssue(cfg, g, p, flight, k, k1, r1);
  }

  lemma Accepted<E(!new)>(
    cfg: Config, g: CopyEng<E>, p: Params, flight: Flight<E, Callback>, k1: Copy<E>, addr: int, r1: Copy<E>)
    requires GoodEngine(cfg, g, flight) && p.Valid()
    requires Sound(cfg, g, p, flight, k1,
               EMPTY.(issueSlack := EMPTY.issueSlack + 1, issue := EMPTY.issue + multiset{addr}))
    requires OnIssue(cfg, g, p, k1, addr).1
    requires r1 == OnIssue(cfg, g, p, k1, addr).0.(issue := k1.issue.(inFlight := k1.issue.inFlight - 1))
    ensures Sound(cfg, g, p, flight, r1, EMPTY) && ReadWake(r1) && Issued(k1, r1) && BagOf(r1.dev.agenda).fills > 0
  {
    AcceptIssue(cfg, g, p, flight, k1, EMPTY, addr);
  }

  /** The retry loop stops at an item the queue refuses. */
  lemma DrainStops<E(!new)>(
    cfg: Config, g: CopyEng<E>, p: Params, flight: Flight<E, Callback>, pipe: P.Pipe<int>, k: Copy<E>)
    requires Sound(cfg, g, p, flight, k.(issue := pipe), EMPTY) && ReadWake(k) && pipe.stalled != []
    requires pipe.inFlight + BagOf(k.dev.agenda).fills > 0
    requires !OnIssue(cfg, g, p, k, pipe.stalled[0]).1
    ensures IssueOk(cfg, g, p, flight, k, OnIssue(cfg, g, p, k, pipe.stalled[0]).0.(issue := pipe.(retry := true)))
  {
    var r := OnIssue(cfg, g, p, k, pipe.stalled[0]).0;
    SameButFlag(cfg, g, p, flight, k.(issue := pipe), r.(issue := pipe.(retry := true)));
  }

  /** The retry loop of the issue pipe; `k` is the consumer's state, `pipe` the pipe's own. */
  lemma {:induction false} DrainIssueKeeps<E(!new)>(
    cfg: Config, g: CopyEng<E>, p: Params, flight: Flight<E, Callback>, pipe: P.Pipe<int>, k: Copy<E>)
    returns (o: P.Outcome<Copy<E>, int>)
    requires GoodEngine(cfg, g, flight) && p.Valid()
    requires Sound(cfg, g, p, flight, k.(issue := pipe), EMPTY) && ReadWake(k) && !pipe.retry
    requires pipe.inFlight + BagOf(k.dev.agenda).fills > 0
    ensures o == P.Drain(p.IssueShape(), IssueConsumer(cfg, g, p), pipe, k)
    ensures IssueOk(cfg, g, p, flight, k, o.s.(issue := o.pipe))
    ensures (o.pipe.retry <==> o.pipe.stalled != []) && o.again == o.pipe.retry
    decreases |pipe.stalled|
  {
    var f := IssueConsumer(cfg, g, p);
    if pipe.stalled == [] {
      o := P.Outcome(pipe, k, [], false);
    } else {
      var addr := pipe.stalled[0];
      var (r0, ok) := OnIssue(cfg, g, p, k, addr);
      P.DrainRound(p.IssueShape(), f, pipe, k, r0, ok);
      if ok {
        var next := DrainOne(cfg, g, p, flight, pipe, k, r0);
        o := DrainIssueKeeps(cfg, g, p, flight, next, r0);
        IssueOkTrans(cfg, g, p, flight, k, r0.(issue := next), r0, o.s.(issue := o.pipe));
      } else {
        DrainStops(cfg, g, p, flight, pipe, k);
        o := P.Outcome(pipe.(retry := true), r0, [], true);
      }
    }
  }

  lemma SameButFlag<E(!new)>(cfg: Config, g: CopyEng<E>, p: Params, flight: Flight<E, Callback>, k: Copy<E>, r: Copy<E>)
    requires Sound(cfg, g, p, flight, k, EMPTY)
    requires r == k.(issueStalls := r.issueStalls, storeStalls := r.storeStalls,
                     issue := k.issue.(retry := r.issue.retry), compute := k.compute.(retry := r.compute.retry))
    ensures Sound(cfg, g, p, flight, r, EMPTY)
  {
    assert Inside(Layer.Objects, true);
    SameSound(cfg, g, p, flight, k, r, EMPTY);
  }

  // -- Filling the issue pipe ------------------------------------------------------------

  lemma NextLine(n: int, a: int)
    requires 0 <= n
    ensures Bit(Produced(n + 1, a)) == Bit(Produced(n, a)) + Bit(a == SRC_BASE + n * CACHELINE)
  {
  }

  /** What filling changes: the issue pipe, its live arrivals, and the stream position. */
  ghost predicate Filled<E>(k: Copy<E>, r: Copy<E>) {
    && BagOf(r.dev.agenda) == BagOf(k.dev.agenda).(issueArrivals := BagOf(r.dev.agenda).issueArrivals)
    && r == k.(dev := r.dev, produced := r.produced, issue := k.issue.(inFlight := r.issue.inFlight))
  }

  lemma FilledTrans<E>(k: Copy<E>, m: Copy<E>, r: Copy<E>)
    requires Filled(k, m) && Filled(m, r)
    ensures Filled(k, r)
  {
  }

  lemma FillOne<E(!new)>(
    cfg: Config, g: CopyEng<E>, p: Params, flight: Flight<E, Callback>, k: Copy<E>) returns (r: Copy<E>)
    requires GoodEngine(cfg, g, flight) && p.Valid() && Sound(cfg, g, p, flight, k, EMPTY)
    requires k.produced < p.lines && k.issue.inFlight < p.issueSlots
    ensures var addr := SRC_BASE + k.produced * CACHELINE;
            var k1 := k.(issue := k.issue.(inFlight := k.issue.inFlight + 1), produced := k.produced + 1);
            r == After(k1, p.issueLatency * HOST_PERIOD, IssueArrive(addr))
    ensures Sound(cfg, g, p, flight, r, EMPTY) && Filled(k, r)
  {
    assert Inside(Layer.Objects, true);
    var addr := SRC_BASE + k.produced * CACHELINE;
    var k1 := k.(issue := k.issue.(inFlight := k.issue.inFlight + 1), produced := k.produced + 1);
    AtEffect(cfg, g, flight, k1, p.issueLatency * HOST_PERIOD, IssueArrive(addr));
    r := After(k1, p.issueLatency * HOST_PERIOD, IssueArrive(addr));
    forall a
      ensures Places(flight, r, EMPTY, a) == Bit(Produced(r.produced, a))
    {
      NextLine(k.produced, a);
      assert Places(flight, r, EMPTY, a) == Places(flight, k, EMPTY, a) + Bit(a == addr);
    }
  }

  lemma FillRound<E>(p: Params, k: Copy<E>, m: Copy<E>)
    requires k.produced < p.lines && k.issue.inFlight < p.issueSlots
    requires var addr := SRC_BASE + k.produced * CACHELINE;
             var k1 := k.(issue := k.issue.(inFlight := k.issue.inFlight + 1), produced := k.produced + 1);
             m == After(k1, p.issueLatency * HOST_PERIOD, IssueArrive(addr))
    ensures FillIssue(p, k) == FillIssue(p, m)
  {
  }

  /** A fill goes on until the stream is done or the pipe is full, so an unfinished stream leaves the pipe occupied. */
  lemma {:induction false} FillKeeps<E(!new)>(
    cfg: Config, g: CopyEng<E>, p: Params, flight: Flight<E, Callback>, k: Copy<E>) returns (r: Copy<E>)
    requires GoodEngine(cfg, g, flight) && p.Valid() && Sound(cfg, g, p, flight, k, EMPTY)
    ensures r == FillIssue(p, k)
    ensures Sound(cfg, g, p, flight, r, EMPTY) && Filled(k, r) && FillWake(p, r)
    decreases p.lines - k.produced
  {
    if k.produced < p.lines && k.issue.inFlight < p.issueSlots {
      var m := FillOne(cfg, g, p, flight, k);
      FillRound(p, k, m);
      r := FillKeeps(cfg, g, p, flight, m);
      FilledTrans(k, m, r);
    } else {
      r := k;
    }
  }

  // -- Taking an event off the agenda -----------------------------------------------------

  /** What the handler of an event has in hand. */
  ghost function HandOf(t: CopyTag): Hand {
    match t
    case User(IssueArrive(addr)) => Hand(1, multiset{addr}, 0, multiset{}, multiset{})
    case User(ComputeArrive(line)) => Hand(0, multiset{}, 1, multiset{line}, multiset{})
    case Call(Load, info) => Hand(0, multiset{}, 0, multiset{}, multiset{info.addr})
    case _ => EMPTY
  }

  lemma PopDev<E>(cfg: Config, g: CopyEng<E>, flight: Flight<E, Callback>, d: CopyDev<E>)
    requires DevOk(cfg, g, flight, d) && d.agenda != [] && !d.agenda[0].what.Tick?
    ensures DevOk(cfg, g, flight, Pop(d)) && BagOf(d.agenda) == Plus(BagOf(Pop(d).agenda), d.agenda[0].what)
    ensures !d.agenda[0].what.IdleTick?
  {
    PopFrame(d);
    WhatsMember(d.agenda, 0);
  }

  /** The handler starts with the event's line in hand and its counter adjusted. */
  lemma PopSound<E>(
    cfg: Config, g: CopyEng<E>, p: Params, flight: Flight<E, Callback>, k: Copy<E>) returns (k1: Copy<E>)
    requires Sound(cfg, g, p, flight, k, EMPTY) && k.dev.agenda != [] && !k.dev.agenda[0].what.Tick?
    ensures var t := k.dev.agenda[0].what;
            k1 == k.(dev := Pop(k.dev), loading := k.loading - Bit(t.Call? && t.cb.Load?),
                     writes := k.writes + Bit(t.Call? && t.cb.Store?))
    ensures BagOf(k.dev.agenda) == Plus(BagOf(k1.dev.agenda), k.dev.agenda[0].what)
    ensures Sound(cfg, g, p, flight, k1, HandOf(k.dev.agenda[0].what))
  {
    assert Inside(Layer.Objects, true);
    PopDev(cfg, g, flight, k.dev);
    var t := k.dev.agenda[0].what;
    k1 := k.(dev := Pop(k.dev), loading := k.loading - Bit(t.Call? && t.cb.Load?),
             writes := k.writes + Bit(t.Call? && t.cb.Store?));
    PopPlaces(cfg, g, p, flight, k, k1);
    PopCounts(cfg, g, p, flight, k, k1);
    assert DevOk(cfg, g, flight, k1.dev) && Counts(p, flight, k1, HandOf(t));
    assert Conserved(flight, k1, HandOf(t)) && Aimed(k1, HandOf(t));
  }

  lemma PopPlaces<E>(cfg: Config, g: CopyEng<E>, p: Params, flight: Flight<E, Callback>, k: Copy<E>, k1: Copy<E>)
    requires Conserved(flight, k, EMPTY) && Aimed(k, EMPTY) && k.dev.agenda != []
    requires k1 == k.(dev := Pop(k.dev), loading := k1.loading, writes := k1.writes)
    requires BagOf(k.dev.agenda) == Plus(BagOf(k1.dev.agenda), k.dev.agenda[0].what)
    ensures Conserved(flight, k1, HandOf(k.dev.agenda[0].what))
    ensures Aimed(k1, HandOf(k.dev.agenda[0].what))
  {
    var t := k.dev.agenda[0].what;
    PlusSets(BagOf(k1.dev.agenda), t);
    forall a
      ensures Places(flight, k1, HandOf(t), a) == Places(flight, k, EMPTY, a)
    {
    }
    assert AllAimed(BagOf(k1.dev.agenda).computeArrivals + ComputeLine(t));
    if t.User? && t.u.ComputeArrive? {
      assert t.u.line in BagOf(k.dev.agenda).computeArrivals;
    }
    forall l | l in BagOf(k1.dev.agenda).computeArrivals
      ensures l == LineOf(l.src)
    {
      assert l in BagOf(k1.dev.agenda).computeArrivals + ComputeLine(t);
    }
  }

  lemma PopCounts<E>(cfg: Config, g: CopyEng<E>, p: Params, flight: Flight<E, Callback>, k: Copy<E>, k1: Copy<E>)
    requires Counts(p, flight, k, EMPTY) && k.dev.agenda != []
    requires var t := k.dev.agenda[0].what;
             k1 == k.(dev := Pop(k.dev), loading := k.loading - Bit(t.Call? && t.cb.Load?),
                      writes := k.writes + Bit(t.Call? && t.cb.Store?))
    requires BagOf(k.dev.agenda) == Plus(BagOf(k1.dev.agenda), k.dev.agenda[0].what)
    ensures Counts(p, flight, k1, HandOf(k.dev.agenda[0].what))
  {
  }

  // -- The events --------------------------------------------------------------------------

  /** What an event handler must find and leave. */
  ghost predicate Handles<E>(cfg: Config, g: CopyEng<E>, p: Params, flight: Flight<E, Callback>, k: Copy<E>) {
    Inv(cfg, g, p, flight, k) && k.dev.agenda != []
  }

  /** Taking an event: its line is in hand, and the wake-up conditions it does not carry still hold. */
  lemma PopInv<E>(cfg: Config, g: CopyEng<E>, p: Params, flight: Flight<E, Callback>, k: Copy<E>) returns (k1: Copy<E>)
    requires Handles(cfg, g, p, flight, k) && !k.dev.agenda[0].what.Tick?
    ensures var t := k.dev.agenda[0].what;
            k1 == k.(dev := Pop(k.dev), loading := k.loading - Bit(t.Call? && t.cb.Load?),
                     writes := k.writes + Bit(t.Call? && t.cb.Store?))
    ensures Sound(cfg, g, p, flight, k1, HandOf(k.dev.agenda[0].what))
    ensures var t := k.dev.agenda[0].what;
            && (t != User(IssueRetry) && t != User(ComputeRetry) ==> Retries(k1))
            && (t != User(Fill) ==> FillWake(p, k1))
            && (!t.Call? ==> ReadWake(k1))
            && (t.Call? && t.cb.Load? ==> k1.loading + 1 + k1.compute.inFlight <= p.computeSlots)
  {
    assert Inside(Layer.Objects, true);
    k1 := PopSound(cfg, g, p, flight, k);
    PlusCounts(BagOf(k1.dev.agenda), k.dev.agenda[0].what);
  }

  lemma ScheduleIssueRetry<E(!new)>(
    cfg: Config, g: CopyEng<E>, p: Params, flight: Flight<E, Callback>, k: Copy<E>, o: P.Outcome<Copy<E>, int>)
    requires GoodEngine(cfg, g, flight)
    requires IssueOk(cfg, g, p, flight, k, o.s.(issue := o.pipe))
    requires o.pipe.retry <==> o.pipe.stalled != []
    requires BagOf(k.dev.agenda).issueRetries + Bit(o.again) == Bit(o.pipe.retry)
    requires (k.compute.retry <==> k.compute.stalled != [])
    requires BagOf(k.dev.agenda).computeRetries == Bit(k.compute.retry)
    ensures Inv(cfg, g, p, flight, IssueDone(o))
  {
    assert Inside(Layer.Objects, true);
    var r := o.s.(issue := o.pipe);
    if o.again {
      AtEffect(cfg, g, flight, r, HOST_PERIOD, IssueRetry);
      SameSound(cfg, g, p, flight, r, After(r, HOST_PERIOD, IssueRetry), EMPTY);
    }
  }

  lemma IssueArriveKeeps<E(!new)>(
    cfg: Config, g: CopyEng<E>, p: Params, flight: Flight<E, Callback>, k: Copy<E>, addr: int, r: Copy<E>)
    requires GoodEngine(cfg, g, flight) && p.Valid()
    requires Sound(cfg, g, p, flight, k, HandOf(User(IssueArrive(addr)))) && Retries(k) && ReadWake(k)
    requires r == OnJob(cfg, g, p, k, IssueArrive(addr))
    ensures Inv(cfg, g, p, flight, r)
  {
    var o := DeliverIssueKeeps(cfg, g, p, flight, k, addr);
    assert r == IssueDone(o);
    ScheduleIssueRetry(cfg, g, p, flight, k, o);
  }

  /** Taking a retry event: its pipe has stalled items, and no retry event of it is left. */
  lemma PopIssueRetry<E>(cfg: Config, g: CopyEng<E>, p: Params, flight: Flight<E, Callback>, k: Copy<E>, k1: Copy<E>)
    requires Handles(cfg, g, p, flight, k) && k.dev.agenda[0].what == User(IssueRetry) && k1 == k.(dev := Pop(k.dev))
    ensures Sound(cfg, g, p, flight, k1, EMPTY) && ReadWake(k1) && k1.issue.inFlight > 0
    ensures BagOf(k1.dev.agenda).issueRetries == 0
    ensures (k1.compute.retry <==> k1.compute.stalled != [])
    ensures BagOf(k1.dev.agenda).computeRetries == Bit(k1.compute.retry)
  {
    assert Inside(Layer.Objects, true);
    var k2 := PopSound(cfg, g, p, flight, k);
    assert k2 == k1;
    assert k1.issue.retry && k1.issue.stalled != [];
    StalledOccupies(cfg, g, p, flight, k1);
  }

  lemma StalledOccupies<E>(cfg: Config, g: CopyEng<E>, p: Params, flight: Flight<E, Callback>, k: Copy<E>)
    requires Sound(cfg, g, p, flight, k, EMPTY)
    ensures |k.issue.stalled| <= k.issue.inFlight && |k.compute.stalled| <= k.compute.inFlight
  {
    assert Inside(Layer.Objects, true);
  }

  lemma IssueRetryKeeps<E(!new)>(
    cfg: Config, g: CopyEng<E>, p: Params, flight: Flight<E, Callback>, k: Copy<E>, r: Copy<E>)
    requires GoodEngine(cfg, g, flight) && p.Valid() && Handles(cfg, g, p, flight, k)
    requires k.dev.agenda[0].what == User(IssueRetry)
    requires r == OnJob(cfg, g, p, k.(dev := Pop(k.dev)), IssueRetry)
    ensures Inv(cfg, g, p, flight, r)
  {
    var k1 := k.(dev := Pop(k.dev));
    PopIssueRetry(cfg, g, p, flight, k, k1);
    var pipe := k1.issue.(retry := false);
    SameButFlag(cfg, g, p, flight, k1, k1.(issue := pipe));
    var o := DrainIssueKeeps(cfg, g, p, flight, pipe, k1);
    assert r == IssueDone(o);
    ScheduleIssueRetry(cfg, g, p, flight, k1, o);
  }

  lemma PopJob<E>(
    cfg: Config, g: CopyEng<E>, p: Params, flight: Flight<E, Callback>, k: Copy<E>, job: Job, k1: Copy<E>)
    requires Handles(cfg, g, p, flight, k) && k1 == k.(dev := Pop(k.dev)) && k.dev.agenda[0].what == User(job)
    ensures Sound(cfg, g, p, flight, k1, HandOf(User(job))) && ReadWake(k1)
    ensures job != IssueRetry && job != ComputeRetry ==> Retries(k1)
    ensures job != Fill ==> FillWake(p, k1)
  {
    var k2 := PopInv(cfg, g, p, flight, k);
    assert !k.dev.agenda[0].what.Call?;
    assert k2 == k1;
  }

  lemma FillEventKeeps<E(!new)>(cfg: Config, g: CopyEng<E>, p: Params, flight: Flight<E, Callback>, k: Copy<E>)
    requires GoodEngine(cfg, g, flight) && p.Valid() && Handles(cfg, g, p, flight, k)
    requires k.dev.agenda[0].what == User(Fill)
    ensures Inv(cfg, g, p, flight, OnJob(cfg, g, p, k.(dev := Pop(k.dev)), Fill))
  {
    var k1 := k.(dev := Pop(k.dev));
    PopJob(cfg, g, p, flight, k, Fill, k1);
    var r := FillKeeps(cfg, g, p, flight, k1);
    InvFrom(cfg, g, p, flight, r);
  }

  /** With a free slot and nothing held, a completed load goes straight into the compute pipe. */
  lemma LoadIs<E>(cfg: Config, g: CopyEng<E>, p: Params, k: Copy<E>, k1: Copy<E>, addr: int) returns (k3: Copy<E>)
    requires k1 == k.(loading := k.loading - 1) && k1.held == [] && k1.compute.inFlight < p.computeSlots
    ensures var k2 := k1.(compute := k1.compute.(inFlight := k1.compute.inFlight + 1));
            k3 == After(k2, p.computeLatency * HOST_PERIOD, ComputeArrive(LineOf(addr)))
    ensures OnLoad(cfg, g, p, k, addr) == PumpReads(cfg, g, p, k3)
  {
    var k2 := k1.(compute := k1.compute.(inFlight := k1.compute.inFlight + 1));
    k3 := After(k2, p.computeLatency * HOST_PERIOD, ComputeArrive(LineOf(addr)));
    assert DrainHeld(p, k1) == k1;
  }

  /** A completed load always finds a free compute slot: nothing is ever held back. */
  lemma LoadKeeps<E(!new)>(
    cfg: Config, g: CopyEng<E>, p: Params, flight: Flight<E, Callback>, k: Copy<E>, k1: Copy<E>, info: Info)
    requires GoodEngine(cfg, g, flight) && p.Valid()
    requires Sound(cfg, g, p, flight, k1, HandOf(Call(Load, info))) && Retries(k1) && FillWake(p, k1)
    requires k1 == k.(loading := k.loading - 1) && k1.loading + 1 + k1.compute.inFlight <= p.computeSlots
    ensures Inv(cfg, g, p, flight, OnLoad(cfg, g, p, k, info.addr))
  {
    assert Inside(Layer.Objects, true);
    var k3 := LoadIs(cfg, g, p, k, k1, info.addr);
    LoadEnters(cfg, g, p, flight, k1, info.addr, k3);
    PumpEnds(cfg, g, p, flight, k3, PumpReads(cfg, g, p, k3));
  }

  lemma PumpEnds<E(!new)>(cfg: Config, g: CopyEng<E>, p: Params, flight: Flight<E, Callback>, k: Copy<E>, r: Copy<E>)
    requires GoodEngine(cfg, g, flight) && p.Valid()
    requires Sound(cfg, g, p, flight, k, EMPTY) && Retries(k) && FillWake(p, k) && r == PumpReads(cfg, g, p, k)
    ensures Inv(cfg, g, p, flight, r)
  {
    PumpKeeps(cfg, g, p, flight, k, EMPTY);
  }

  /** From the DRAM, by way of the callback, into the compute pipe. */
  lemma LoadPlaces<E>(flight: Flight<E, Callback>, k: Copy<E>, addr: int, r: Copy<E>)
    requires r == k.(dev := r.dev, compute := k.compute.(inFlight := r.compute.inFlight))
    requires BagOf(r.dev.agenda) == Plus(BagOf(k.dev.agenda), User(ComputeArrive(LineOf(addr))))
    requires InFlight(flight, r.dev) == InFlight(flight, k.dev) && Stored(r.dev) == Stored(k.dev)
    ensures forall a ::
              Places(flight, r, EMPTY, a) ==
              Places(flight, k, Hand(0, multiset{}, 0, multiset{}, multiset{addr}), a)
  {
  }

  lemma LoadLands<E>(
    cfg: Config, g: CopyEng<E>, p: Params, flight: Flight<E, Callback>, k: Copy<E>, addr: int, r: Copy<E>)
    requires Sound(cfg, g, p, flight, k, Hand(0, multiset{}, 0, multiset{}, multiset{addr}))
    requires DevOk(cfg, g, flight, r.dev)
    requires k.loading + 1 + k.compute.inFlight <= p.computeSlots
    requires r == k.(dev := r.dev, compute := k.compute.(inFlight := k.compute.inFlight + 1))
    requires BagOf(r.dev.agenda) == Plus(BagOf(k.dev.agenda), User(ComputeArrive(LineOf(addr))))
    requires InFlight(flight, r.dev) == InFlight(flight, k.dev) && Stored(r.dev) == Stored(k.dev)
    ensures Sound(cfg, g, p, flight, r, EMPTY)
  {
    assert Inside(Layer.Objects, true);
    LoadPlaces(flight, k, addr, r);
    assert Conserved(flight, r, EMPTY) && Aimed(r, EMPTY);
  }

  lemma LoadEnters<E(!new)>(
    cfg: Config, g: CopyEng<E>, p: Params, flight: Flight<E, Callback>, k1: Copy<E>, addr: int, k3: Copy<E>)
    requires GoodEngine(cfg, g, flight) && p.Valid()
    requires Sound(cfg, g, p, flight, k1, Hand(0, multiset{}, 0, multiset{}, multiset{addr}))
    requires k1.loading + 1 + k1.compute.inFlight <= p.computeSlots
    requires var k2 := k1.(compute := k1.compute.(inFlight := k1.compute.inFlight + 1));
             k3 == After(k2, p.computeLatency * HOST_PERIOD, ComputeArrive(LineOf(addr)))
    ensures Sound(cfg, g, p, flight, k3, EMPTY)
    ensures Retries(k1) ==> Retries(k3)
    ensures FillWake(p, k1) ==> FillWake(p, k3)
  {
    var k2 := k1.(compute := k1.compute.(inFlight := k1.compute.inFlight + 1));
    SoundDev(cfg, g, p, flight, k1, Hand(0, multiset{}, 0, multiset{}, multiset{addr}));
    AtEffect(cfg, g, flight, k2, p.computeLatency * HOST_PERIOD, ComputeArrive(LineOf(addr)));
    LoadLands(cfg, g, p, flight, k1, addr, k3);
  }

  // -- The compute pipe -------------------------------------------------------------------

  /** What storing changes: the DRAM, its acceptance events, and the compute pipe. */
  ghost predicate Stepped<E>(k: Copy<E>, r: Copy<E>) {
    && r.issue == k.issue && r.produced == k.produced
    && BagOf(r.dev.agenda) == BagOf(k.dev.agenda).(stores := BagOf(r.dev.agenda).stores)
  }

  ghost predicate StoreOk<E>(
    cfg: Config, g: CopyEng<E>, p: Params, flight: Flight<E, Callback>, k: Copy<E>, r: Copy<E>) {
    Sound(cfg, g, p, flight, r, EMPTY) && ReadWake(r) && Stepped(k, r)
  }

  lemma StoreOkTrans<E>(
    cfg: Config, g: CopyEng<E>, p: Params, flight: Flight<E, Callback>, k: Copy<E>, m: Copy<E>, m1: Copy<E>, r: Copy<E>)
    requires Stepped(k, m) && m == m1.(compute := m.compute) && StoreOk(cfg, g, p, flight, m1, r)
    ensures StoreOk(cfg, g, p, flight, k, r)
  {
  }

  ghost function InHand(line: Line): Hand {
    Hand(0, multiset{}, 1, multiset{line}, multiset{})
  }

  lemma StoredPlaces<E>(flight: Flight<E, Callback>, k: Copy<E>, line: Line, r: Copy<E>)
    requires Conserved(flight, k, InHand(line)) && Aimed(k, InHand(line))
    requires r == k.(dev := r.dev, compute := k.compute.(inFlight := r.compute.inFlight))
    requires BagOf(r.dev.agenda) == BagOf(k.dev.agenda).(stores := BagOf(r.dev.agenda).stores)
    requires InFlight(flight, r.dev) == InFlight(flight, k.dev) && Stored(r.dev) == Stored(k.dev) + multiset{line.dst}
    ensures Conserved(flight, r, EMPTY) && Aimed(r, EMPTY)
  {
    assert line in InHand(line).compute && line == LineOf(line.src);
    forall a
      ensures Places(flight, r, EMPTY, a) == Places(flight, k, InHand(line), a)
    {
    }
  }

  lemma AcceptStore<E(!new)>(
    cfg: Config, g: CopyEng<E>, p: Params, flight: Flight<E, Callback>, k: Copy<E>, line: Line) returns (r: Copy<E>)
    requires GoodEngine(cfg, g, flight) && Sound(cfg, g, p, flight, k, InHand(line))
    requires TryStore(cfg, g, k, line).1
    ensures r == TryStore(cfg, g, k, line).0.(compute := k.compute.(inFlight := k.compute.inFlight - 1))
    ensures StoreOk(cfg, g, p, flight, k, r)
  {
    assert Inside(Layer.Objects, true);
    WriteEffect(cfg, g, flight, k.dev, line.dst);
    r := TryStore(cfg, g, k, line).0.(compute := k.compute.(inFlight := k.compute.inFlight - 1));
    StoredPlaces(flight, k, line, r);
  }

  lemma RefuseStore<E(!new)>(
    cfg: Config, g: CopyEng<E>, p: Params, flight: Flight<E, Callback>, k: Copy<E>, h: Hand, line: Line)
    requires GoodEngine(cfg, g, flight) && Sound(cfg, g, p, flight, k, h)
    requires !TryStore(cfg, g, k, line).1
    ensures var r := TryStore(cfg, g, k, line).0;
            && r == k.(dev := r.dev, storeStalls := r.storeStalls)
            && Sound(cfg, g, p, flight, r, h) && BagOf(r.dev.agenda) == BagOf(k.dev.agenda)
  {
    assert Inside(Layer.Objects, true);
    WriteEffect(cfg, g, flight, k.dev, line.dst);
    SameSound(cfg, g, p, flight, k, TryStore(cfg, g, k, line).0, h);
  }

  lemma StallStore<E>(
    cfg: Config, g: CopyEng<E>, p: Params, flight: Flight<E, Callback>, k: Copy<E>, line: Line, r: Copy<E>)
    requires Sound(cfg, g, p, flight, k, InHand(line)) && ReadWake(k)
    requires r == k.(compute := k.compute.(stalled := k.compute.stalled + [line], retry := true))
    ensures StoreOk(cfg, g, p, flight, k, r)
  {
    assert line in InHand(line).compute;
    forall a
      ensures Places(flight, r, EMPTY, a) == Places(flight, k, InHand(line), a)
    {
    }
  }

  lemma DeliverComputeKeeps<E(!new)>(
    cfg: Config, g: CopyEng<E>, p: Params, flight: Flight<E, Callback>, k: Copy<E>, line: Line)
    returns (o: P.Outcome<Copy<E>, Line>)
    requires GoodEngine(cfg, g, flight) && Sound(cfg, g, p, flight, k, InHand(line)) && ReadWake(k)
    ensures o == P.Deliver(p.ComputeShape(), ComputeConsumer(cfg, g), k.compute, k, line)
    ensures StoreOk(cfg, g, p, flight, k, o.s.(compute := o.pipe))
    ensures o.pipe.stalled == k.compute.stalled + (if o.pipe.inFlight == k.compute.inFlight then [line] else [])
    ensures if o.pipe.inFlight == k.compute.inFlight then o.pipe.retry && o.again == !k.compute.retry
            else o.pipe.retry == k.compute.retry && !o.again
  {
    o := P.Deliver(p.ComputeShape(), ComputeConsumer(cfg, g), k.compute, k, line);
    var (k1, ok) := TryStore(cfg, g, k, line);
    if ok {
      var r := AcceptStore(cfg, g, p, flight, k, line);
      assert o == P.Outcome(k.compute.(inFlight := k.compute.inFlight - 1), k1, [], false);
    } else {
      var pipe := k.compute.(stalled := k.compute.stalled + [line], retry := true);
      assert o == P.Outcome(pipe, k1, [], !k.compute.retry);
      RefuseStore(cfg, g, p, flight, k, InHand(line), line);
      StallStore(cfg, g, p, flight, k1, line, k1.(compute := pipe));
    }
  }

  lemma LineHead(q: seq<Line>, l: Line)
    requires q != []
    ensures multiset(q)[l] == multiset(q[1..])[l] + Bit(q[0] == l)
  {
    assert q == [q[0]] + q[1..];
  }

  /** From the stalled queue into the retry loop. */
  lemma TakePlaces<E>(flight: Flight<E, Callback>, k: Copy<E>, r: Copy<E>)
    requires k.compute.stalled != [] && r == k.(compute := k.compute.(stalled := k.compute.stalled[1..]))
    ensures forall a :: Places(flight, r, InHand(k.compute.stalled[0]), a) == Places(flight, k, EMPTY, a)
  {
    forall a
      ensures Places(flight, r, InHand(k.compute.stalled[0]), a) == Places(flight, k, EMPTY, a)
    {
      LineHead(k.compute.stalled, LineOf(a));
    }
  }

  lemma TakeCompute<E>(
    cfg: Config, g: CopyEng<E>, p: Params, flight: Flight<E, Callback>, k: Copy<E>) returns (k1: Copy<E>)
    requires Sound(cfg, g, p, flight, k, EMPTY) && k.compute.stalled != []
    ensures k1 == k.(compute := k.compute.(stalled := k.compute.stalled[1..]))
    ensures Sound(cfg, g, p, flight, k1, InHand(k.compute.stalled[0]))
  {
    assert Inside(Layer.Objects, true);
    var line := k.compute.stalled[0];
    k1 := k.(compute := k.compute.(stalled := k.compute.stalled[1..]));
    TakePlaces(flight, k, k1);
    assert AllAimed(multiset(k1.compute.stalled)) && AllAimed(InHand(line).compute) by {
      assert k.compute.stalled == [line] + k1.compute.stalled;
    }
  }

  lemma DrainStore<E(!new)>(
    cfg: Config, g: CopyEng<E>, p: Params, flight: Flight<E, Callback>, pipe: P.Pipe<Line>, k: Copy<E>)
    returns (next: P.Pipe<Line>, r: Copy<E>)
    requires GoodEngine(cfg, g, flight) && pipe.stalled != []
    requires Sound(cfg, g, p, flight, k.(compute := pipe), EMPTY)
    requires TryStore(cfg, g, k, pipe.stalled[0]).1
    ensures next == pipe.(stalled := pipe.stalled[1..], inFlight := pipe.inFlight - 1)
    ensures r == TryStore(cfg, g, k, pipe.stalled[0]).0
    ensures StoreOk(cfg, g, p, flight, k, r.(compute := next))
  {
    var line := pipe.stalled[0];
    var k1 := TakeCompute(cfg, g, p, flight, k.(compute := pipe));
    next := pipe.(stalled := pipe.stalled[1..], inFlight := pipe.inFlight - 1);
    r := TryStore(cfg, g, k, line).0;
    var r1 := AcceptStore(cfg, g, p, flight, k1, line);
    assert r1 == r.(compute := next);
  }

  lemma DrainStoreStops<E(!new)>(
    cfg: Config, g: CopyEng<E>, p: Params, flight: Flight<E, Callback>, pipe: P.Pipe<Line>, k: Copy<E>)
    requires GoodEngine(cfg, g, flight) && pipe.stalled != []
    requires Sound(cfg, g, p, flight, k.(compute := pipe), EMPTY) && ReadWake(k.(compute := pipe))
    requires !TryStore(cfg, g, k, pipe.stalled[0]).1
    ensures StoreOk(cfg, g, p, flight, k, TryStore(cfg, g, k, pipe.stalled[0]).0.(compute := pipe.(retry := true)))
  {
    var kp := k.(compute := pipe);
    RefuseStore(cfg, g, p, flight, kp, EMPTY, pipe.stalled[0]);
    var r := TryStore(cfg, g, k, pipe.stalled[0]).0;
    assert TryStore(cfg, g, kp, pipe.stalled[0]).0 == r.(compute := pipe);
    SameButFlag(cfg, g, p, flight, r.(compute := pipe), r.(compute := pipe.(retry := true)));
  }

  lemma {:induction false} DrainComputeKeeps<E(!new)>(
    cfg: Config, g: CopyEng<E>, p: Params, flight: Flight<E, Callback>, pipe: P.Pipe<Line>, k: Copy<E>)
    returns (o: P.Outcome<Copy<E>, Line>)
    requires GoodEngine(cfg, g, flight)
    requires Sound(cfg, g, p, flight, k.(compute := pipe), EMPTY) && ReadWake(k.(compute := pipe)) && !pipe.retry
    ensures o == P.Drain(p.ComputeShape(), ComputeConsumer(cfg, g), pipe, k)
    ensures StoreOk(cfg, g, p, flight, k, o.s.(compute := o.pipe))
    ensures (o.pipe.retry <==> o.pipe.stalled != []) && o.again == o.pipe.retry
    decreases |pipe.stalled|
  {
    var f := ComputeConsumer(cfg, g);
    if pipe.stalled == [] {
      o := P.Outcome(pipe, k, [], false);
    } else {
      var line := pipe.stalled[0];
      var (r0, ok) := TryStore(cfg, g, k, line);
      P.DrainRound(p.ComputeShape(), f, pipe, k, r0, ok);
      if ok {
        var next, r := DrainStore(cfg, g, p, flight, pipe, k);
        o := DrainComputeKeeps(cfg, g, p, flight, next, r);
        StoreOkTrans(cfg, g, p, flight, k, r.(compute := next), r, o.s.(compute := o.pipe));
      } else {
        DrainStoreStops(cfg, g, p, flight, pipe, k);
        o := P.Outcome(pipe.(retry := true), r0, [], true);
      }
    }
  }

  lemma ScheduleComputeRetry<E(!new)>(
    cfg: Config, g: CopyEng<E>, p: Params, flight: Flight<E, Callback>, k: Copy<E>, o: P.Outcome<Copy<E>, Line>)
    requires GoodEngine(cfg, g, flight)
    requires StoreOk(cfg, g, p, flight, k, o.s.(compute := o.pipe)) && FillWake(p, k)
    requires o.pipe.retry <==> o.pipe.stalled != []
    requires BagOf(k.dev.agenda).computeRetries + Bit(o.again) == Bit(o.pipe.retry)
    requires (k.issue.retry <==> k.issue.stalled != []) && BagOf(k.dev.agenda).issueRetries == Bit(k.issue.retry)
    ensures Inv(cfg, g, p, flight, ComputeDone(o))
  {
    assert Inside(Layer.Objects, true);
    var r := o.s.(compute := o.pipe);
    if o.again {
      AtEffect(cfg, g, flight, r, HOST_PERIOD, ComputeRetry);
      SameSound(cfg, g, p, flight, r, After(r, HOST_PERIOD, ComputeRetry), EMPTY);
    }
  }

  lemma ComputeArriveKeeps<E(!new)>(
    cfg: Config, g: CopyEng<E>, p: Params, flight: Flight<E, Callback>, k: Copy<E>, line: Line, r: Copy<E>)
    requires GoodEngine(cfg, g, flight)
    requires Sound(cfg, g, p, flight, k, InHand(line)) && Retries(k) && ReadWake(k) && FillWake(p, k)
    requires r == OnJob(cfg, g, p, k, ComputeArrive(line))
    ensures Inv(cfg, g, p, flight, r)
  {
    var o := DeliverComputeKeeps(cfg, g, p, flight, k, line);
    assert r == ComputeDone(o);
    ScheduleComputeRetry(cfg, g, p, flight, k, o);
  }

  lemma PopComputeRetry<E>(cfg: Config, g: CopyEng<E>, p: Params, flight: Flight<E, Callback>, k: Copy<E>, k1: Copy<E>)
    requires Handles(cfg, g, p, flight, k) && k.dev.agenda[0].what == User(ComputeRetry) && k1 == k.(dev := Pop(k.dev))
    ensures Sound(cfg, g, p, flight, k1, EMPTY) && ReadWake(k1) && FillWake(p, k1)
    ensures BagOf(k1.dev.agenda).computeRetries == 0
    ensures (k1.issue.retry <==> k1.issue.stalled != []) && BagOf(k1.dev.agenda).issueRetries == Bit(k1.issue.retry)
  {
    assert Inside(Layer.Objects, true);
    var k2 := PopSound(cfg, g, p, flight, k);
    assert k2 == k1;
  }

  lemma ComputeRetryKeeps<E(!new)>(
    cfg: Config, g: CopyEng<E>, p: Params, flight: Flight<E, Callback>, k: Copy<E>, r: Copy<E>)
    requires GoodEngine(cfg, g, flight) && Handles(cfg, g, p, flight, k)
    requires k.dev.agenda[0].what == User(ComputeRetry)
    requires r == OnJob(cfg, g, p, k.(dev := Pop(k.dev)), ComputeRetry)
    ensures Inv(cfg, g, p, flight, r)
  {
    var k1 := k.(dev := Pop(k.dev));
    PopComputeRetry(cfg, g, p, flight, k, k1);
    var pipe := k1.compute.(retry := false);
    SameButFlag(cfg, g, p, flight, k1, k1.(compute := pipe));
    var o := DrainComputeKeeps(cfg, g, p, flight, pipe, k1);
    assert r == ComputeDone(o);
    ScheduleComputeRetry(cfg, g, p, flight, k1, o);
  }

  // -- Every step -------------------------------------------------------------------------

  lemma TickPlaces<E>(flight: Flight<E, Callback>, k: Copy<E>, r: Copy<E>, served: multiset<int>)
    requires r == k.(dev := r.dev) && Stored(r.dev) == Stored(k.dev)
    requires BagOf(r.dev.agenda) == BagOf(k.dev.agenda).(loads := BagOf(k.dev.agenda).loads + served)
    requires InFlight(flight, k.dev) == InFlight(flight, r.dev) + served
    ensures forall a :: Places(flight, r, EMPTY, a) == Places(flight, k, EMPTY, a)
  {
  }

  lemma TickSound<E>(
    cfg: Config, g: CopyEng<E>, p: Params, flight: Flight<E, Callback>, k: Copy<E>, r: Copy<E>, served: multiset<int>)
    requires Sound(cfg, g, p, flight, k, EMPTY) && DevOk(cfg, g, flight, r.dev)
    requires r == k.(dev := r.dev) && Stored(r.dev) == Stored(k.dev)
    requires BagOf(r.dev.agenda) == BagOf(k.dev.agenda).(loads := BagOf(k.dev.agenda).loads + served)
    requires InFlight(flight, k.dev) == InFlight(flight, r.dev) + served
    ensures Sound(cfg, g, p, flight, r, EMPTY)
  {
    TickPlaces(flight, k, r, served);
    assert Inside(Layer.Objects, true);
  }

  lemma InvParts<E>(cfg: Config, g: CopyEng<E>, p: Params, flight: Flight<E, Callback>, k: Copy<E>)
    requires Inv(cfg, g, p, flight, k)
    ensures Sound(cfg, g, p, flight, k, EMPTY) && Retries(k) && ReadWake(k) && FillWake(p, k)
  {
    assert Inside(Layer.Objects, true);
  }

  lemma InvFrom<E>(cfg: Config, g: CopyEng<E>, p: Params, flight: Flight<E, Callback>, k: Copy<E>)
    requires Sound(cfg, g, p, flight, k, EMPTY) && Retries(k) && ReadWake(k) && FillWake(p, k)
    ensures Inv(cfg, g, p, flight, k)
  {
  }

  lemma TickKeepsInv<E(!new)>(
    cfg: Config, g: CopyEng<E>, p: Params, flight: Flight<E, Callback>, k: Copy<E>, r: Copy<E>)
    requires GoodEngine(cfg, g, flight) && Handles(cfg, g, p, flight, k) && k.dev.agenda[0].what == Tag.Tick
    requires var d := Pop(k.dev);
             r == k.(dev := TickBody(cfg, g, d, MaxBurst(cfg.period, d.now, NextTime(d.agenda), None)))
    ensures Inv(cfg, g, p, flight, r)
  {
    InvParts(cfg, g, p, flight, k);
    SoundDev(cfg, g, p, flight, k, EMPTY);
    var served := TickEffect(cfg, g, flight, k.dev);
    TickSound(cfg, g, p, flight, k, r, served);
    InvFrom(cfg, g, p, flight, r);
  }

  /** The idle clock is off. */
  lemma NeverIdle<E>(cfg: Config, g: CopyEng<E>, p: Params, flight: Flight<E, Callback>, k: Copy<E>)
    requires Handles(cfg, g, p, flight, k)
    ensures !k.dev.agenda[0].what.IdleTick?
  {
    assert Inside(Layer.Objects, true);
    WhatsMember(k.dev.agenda, 0);
  }

  lemma StepKeepsInv<E(!new)>(
    cfg: Config, g: CopyEng<E>, p: Params, flight: Flight<E, Callback>, k: Copy<E>, r: Copy<E>)
    requires GoodEngine(cfg, g, flight) && p.Valid() && Handles(cfg, g, p, flight, k)
    requires r == Step(cfg, g, p, k)
    ensures Inv(cfg, g, p, flight, r)
  {
    var t := k.dev.agenda[0].what;
    NeverIdle(cfg, g, p, flight, k);
    if t.Tick? {
      TickKeepsInv(cfg, g, p, flight, k, r);
    } else if t == User(IssueRetry) {
      IssueRetryKeeps(cfg, g, p, flight, k, r);
    } else if t == User(ComputeRetry) {
      ComputeRetryKeeps(cfg, g, p, flight, k, r);
    } else if t == User(Fill) {
      FillEventKeeps(cfg, g, p, flight, k);
    } else if t.Call? {
      CallKeepsInv(cfg, g, p, flight, k, r);
    } else {
      ArriveKeepsInv(cfg, g, p, flight, k, t.u, r);
    }
  }

  lemma CallKeepsInv<E(!new)>(
    cfg: Config, g: CopyEng<E>, p: Params, flight: Flight<E, Callback>, k: Copy<E>, r: Copy<E>)
    requires GoodEngine(cfg, g, flight) && p.Valid() && Handles(cfg, g, p, flight, k)
    requires k.dev.agenda[0].what.Call? && r == Step(cfg, g, p, k)
    ensures Inv(cfg, g, p, flight, r)
  {
    var t := k.dev.agenda[0].what;
    var k1 := PopInv(cfg, g, p, flight, k);
    if t.cb.Load? {
      assert r == OnLoad(cfg, g, p, k.(dev := Pop(k.dev)), t.info.addr);
      LoadKeeps(cfg, g, p, flight, k.(dev := Pop(k.dev)), k1, t.info);
    } else {
      assert r == PumpReads(cfg, g, p, k1);
      PumpEnds(cfg, g, p, flight, k1, r);
    }
  }

  lemma ArriveKeepsInv<E(!new)>(
    cfg: Config, g: CopyEng<E>, p: Params, flight: Flight<E, Callback>, k: Copy<E>, job: Job, r: Copy<E>)
    requires GoodEngine(cfg, g, flight) && p.Valid() && Handles(cfg, g, p, flight, k)
    requires k.dev.agenda[0].what == User(job) && (job.IssueArrive? || job.ComputeArrive?)
    requires r == OnJob(cfg, g, p, k.(dev := Pop(k.dev)), job)
    ensures Inv(cfg, g, p, flight, r)
  {
    var k1 := k.(dev := Pop(k.dev));
    PopJob(cfg, g, p, flight, k, job, k1);
    if job.IssueArrive? {
      assert job == IssueArrive(job.addr);
      IssueArriveKeeps(cfg, g, p, flight, k1, job.addr, r);
    } else {
      assert job == ComputeArrive(job.line);
      ComputeArriveKeeps(cfg, g, p, flight, k1, job.line, r);
    }
  }

  lemma {:induction false} RunKeepsInv<E(!new)>(
    cfg: Config, g: CopyEng<E>, p: Params, flight: Flight<E, Callback>, k: Copy<E>, n: nat, end: Copy<E>)
    requires GoodEngine(cfg, g, flight) && p.Valid() && Inv(cfg, g, p, flight, k)
    requires end == Run(cfg, g, p, k, n)
    ensures Inv(cfg, g, p, flight, end)
    decreases n
  {
    if n > 0 && k.dev.agenda != [] {
      var k1 := Step(cfg, g, p, k);
      StepKeepsInv(cfg, g, p, flight, k, k1);
      RunKeepsInv(cfg, g, p, flight, k1, n - 1, end);
    }
  }

  lemma InvChains<E>(cfg: Config, g: CopyEng<E>, p: Params, flight: Flight<E, Callback>, k: Copy<E>)
    requires Inv(cfg, g, p, flight, k)
    ensures ChainInv(cfg, g, k.dev)
  {
    assert Inside(Layer.Objects, true);
  }

  /** `run` starts on a DRAM that has served all it accepted, no store of this copy among it. */
  ghost predicate Ready<E(!new)>(cfg: Config, g: CopyEng<E>, p: Params, flight: Flight<E, Callback>, d: CopyDev<E>) {
    GoodEngine(cfg, g, flight) && p.Valid() && Quiet(cfg, g, d) && CoreOk(cfg, 0) && Stored(d) == multiset{}
  }

  lemma StartIsSound<E(!new)>(cfg: Config, g: CopyEng<E>, p: Params, flight: Flight<E, Callback>, d: CopyDev<E>)
    requires Ready(cfg, g, p, flight, d)
    ensures Inv(cfg, g, p, flight, Start(p, d))
  {
    assert Inside(Layer.Lists, true);
    var k := Fresh(d);
    assert !d.ticking && g.pending(d.mem) == 0;
    assert forall c :: flight(d.mem, c) == multiset{};
    forall a
      ensures Places(flight, k, EMPTY, a) == 0
    {
    }
    var r := FillKeeps(cfg, g, p, flight, k);
  }

  // -- Main results -------------------------------------------------------------------------

  /** The addresses of `n` lines from `base` on. */
  ghost function Lines(base: int, n: nat): (m: multiset<int>)
    ensures |m| == n
  {
    multiset(seq(n, (i: nat) => base + i * 64))
  }

  lemma {:induction false} LineIn(base: int, n: nat, a: int)
    ensures Lines(base, n)[base + a] == Bit(Produced(n, a))
  {
    if n > 0 {
      LineIn(base, n - 1, a);
      var all, first := seq(n, (i: nat) => base + i * 64), seq(n - 1, (i: nat) => base + i * 64);
      assert all == first + [base + (n - 1) * 64];
      NextLine(n - 1, a);
    }
  }

  /** No deadlock and no loss: whenever no event is left, the copy is complete. */
  lemma QuietMeansDone<E(!new)>(cfg: Config, g: CopyEng<E>, p: Params, flight: Flight<E, Callback>, k: Copy<E>)
    requires GoodEngine(cfg, g, flight) && p.Valid() && Inv(cfg, g, p, flight, k) && k.dev.agenda == []
    ensures k.produced == if 0 <= p.lines then p.lines else 0
    ensures k.writes == k.produced
    ensures Stored(k.dev) == Lines(0x10_0000, k.produced)
    ensures k.queue == [] && k.held == [] && k.loading == 0 && k.computeStalls == 0
    ensures k.issue == P.Pipe(0, [], false) && k.compute == P.Pipe(0, [], false)
    ensures g.pending(k.dev.mem) == 0
  {
    assert Inside(Layer.Objects, true);
    assert Inside(Layer.Lists, true);
    assert !k.dev.ticking;
    assert InFlight(flight, k.dev) == multiset{};
    forall x
      ensures Stored(k.dev)[x] == Lines(0x10_0000, k.produced)[x]
    {
      var a := x - 0x10_0000;
      assert x == Dst(a) && Places(flight, k, EMPTY, a) == Bit(Produced(k.produced, a));
      LineIn(0x10_0000, k.produced, a);
    }
    assert Stored(k.dev) == Lines(0x10_0000, k.produced);
  }

  /** The compute-slot reservation, in every reachable state: no completion is ever held back. */
  lemma ReservationHolds<E(!new)>(
    cfg: Config, g: CopyEng<E>, p: Params, flight: Flight<E, Callback>, d: CopyDev<E>, n: nat)
    requires Ready(cfg, g, p, flight, d)
    ensures var k := Run(cfg, g, p, Start(p, d), n);
            Reserved(k) <= p.computeSlots && k.held == [] && k.computeStalls == 0 && k.issue.inFlight <= p.issueSlots
            && |k.queue| <= p.queueDepth
  {
    assert Inside(Layer.Objects, true);
    StartIsSound(cfg, g, p, flight, d);
    RunKeepsInv(cfg, g, p, flight, Start(p, d), n, Run(cfg, g, p, Start(p, d), n));
  }
}

/**
 A drive told again from what it asked of the engine: when it sends and ticks, where every request is, and what
 callbacks are told.
 */
module DriveReplay {
  import opened Prelude
  import opened Engine
  import opened Drive

  /** What a list of sends and ticks brings about: the engine, the accepted addresses, what was handed back, the
      number of ticks, and whether the last operation was a refused send. */
  datatype Tape<+E, +C> = Tape(mem: E, sent: seq<int>, served: seq<Served<C>>, cycles: nat, refused: bool)
  {
    /** The requests of the drive not yet answered, with every answered drive request counted. */
    function InFlight(): int {
      |sent| - Bumps(served)
    }
  }

  /** The first addresses of the stream. */
  ghost function First<C>(j: Job<C>, n: nat): (s: seq<int>)
    ensures |s| == n && forall i :: 0 <= i < n ==> s[i] == j.addr(i)
  {
    seq(n, (i: nat) => j.addr(i))
  }

  ghost function Play<E, C>(g: Engine<E, C>, cb: Option<C>, e: E, ops: seq<Op>): Tape<E, C> {
    if ops == [] then Tape(e, [], [], 0, false)
    else
      var t := Play(g, cb, e, ops[..|ops| - 1]);
      match ops[|ops| - 1]
      case Send(addr) =>
        var (e1, ok) := g.send(t.mem, Request(addr, READ, 0, Counted(cb)));
        Tape(e1, t.sent + (if ok then [addr] else []), t.served, t.cycles, !ok)
      case Tick =>
        var (e1, served) := g.tick(t.mem);
        Tape(e1, t.sent, t.served + served, t.cycles + 1, false)
  }

  lemma PlayOne<E, C>(g: Engine<E, C>, cb: Option<C>, e: E, ops: seq<Op>, op: Op)
    ensures var t, r := Play(g, cb, e, ops), Play(g, cb, e, ops + [op]);
            match op
            case Send(addr) =>
              var (e1, ok) := g.send(t.mem, Request(addr, READ, 0, Counted(cb)));
              r == Tape(e1, t.sent + (if ok then [addr] else []), t.served, t.cycles, !ok)
            case Tick =>
              r == Tape(g.tick(t.mem).0, t.sent, t.served + g.tick(t.mem).1, t.cycles + 1, false)
  {
    assert (ops + [op])[..|ops|] == ops;
  }

  // -- When a drive sends and ticks ---------------------------------------------------------

  /** Requests go out in order, in the first cycle of a batch, while there is room and none was refused.  Otherwise
      the engine ticks: in the first cycle of a batch only when nothing more can be sent, and after the last request
      only while some are not answered. */
  ghost predicate Proper<E, C>(j: Job<C>, t: Tape<E, C>, op: Op)
    requires j.Valid()
  {
    && t.cycles < j.budget
    && match op
       case Send(addr) =>
         && |t.sent| < j.total && addr == j.addr(|t.sent|)
         && t.cycles % j.batch == 0 && t.InFlight() < j.depth && !t.refused
       case Tick =>
         if |t.sent| < j.total then t.cycles % j.batch == 0 ==> t.refused || t.InFlight() >= j.depth
         else t.InFlight() > 0
  }

  ghost predicate Scheduled<E, C>(g: Engine<E, C>, j: Job<C>, e: E, ops: seq<Op>)
    requires j.Valid()
  {
    forall p :: 0 <= p < |ops| ==> Proper(j, Play(g, j.cb, e, ops[..p]), ops[p])
  }

  lemma ScheduledOne<E, C>(g: Engine<E, C>, j: Job<C>, e: E, ops: seq<Op>, op: Op)
    requires j.Valid() && Scheduled(g, j, e, ops) && Proper(j, Play(g, j.cb, e, ops), op)
    ensures Scheduled(g, j, e, ops + [op])
  {
    var all := ops + [op];
    forall p | 0 <= p < |all|
      ensures Proper(j, Play(g, j.cb, e, all[..p]), all[p])
    {
      if p < |ops| {
        assert all[..p] == ops[..p] && all[p] == ops[p];
      } else {
        assert all[..p] == ops;
      }
    }
  }

  /** The loop's variables are what its operations bring about. */
  ghost predicate Replayed<E, C>(g: Engine<E, C>, j: Job<C>, e: E, notes: seq<Note<C>>, s: State<E, C>)
    requires j.Valid()
  {
    forall u :: Inside(Layer.Runs, u) ==>
      var t := Play(g, j.cb, e, s.ops);
      && s.mem == t.mem && s.notes == notes + Recorded(t.served) && s.count == Bumps(t.served)
      && s.cycles == t.cycles && s.issued == |t.sent|
      && (forall i :: 0 <= i < |t.sent| ==> t.sent[i] == j.addr(i))
      && Scheduled(g, j, e, s.ops)
  }

  ghost predicate Refused<E, C>(g: Engine<E, C>, j: Job<C>, e: E, ops: seq<Op>) {
    Play(g, j.cb, e, ops).refused
  }

  lemma {:induction false} BumpsAppend<C>(a: seq<Served<C>>, b: seq<Served<C>>)
    ensures Bumps(a + b) == Bumps(a) + Bumps(b)
  {
    if a == [] {
      assert a + b == b;
    } else {
      assert (a + b)[1..] == a[1..] + b;
      BumpsAppend(a[1..], b);
    }
  }

  lemma CycleReplays<E, C>(g: Engine<E, C>, j: Job<C>, e: E, notes: seq<Note<C>>, s: State<E, C>)
    requires j.Valid() && Replayed(g, j, e, notes, s) && s.cycles < j.budget
    requires if s.issued < j.total
             then s.cycles % j.batch == 0 ==> s.issued - s.count >= j.depth || Refused(g, j, e, s.ops)
             else s.issued > s.count
    ensures Replayed(g, j, e, notes, Cycle(g, s)) && !Refused(g, j, e, Cycle(g, s).ops)
  {
    assert Inside(Layer.Runs, true);
    var t := Play(g, j.cb, e, s.ops);
    var served := g.tick(s.mem).1;
    PlayOne(g, j.cb, e, s.ops, Tick);
    ScheduledOne(g, j, e, s.ops, Tick);
    BumpsAppend(t.served, served);
    RecordedAppend(t.served, served);
    Assoc(notes, Recorded(t.served), Recorded(served));
  }

  lemma SendReplays<E, C>(g: Engine<E, C>, j: Job<C>, e: E, notes: seq<Note<C>>, s: State<E, C>)
    requires j.Valid() && Replayed(g, j, e, notes, s) && !Refused(g, j, e, s.ops)
    requires s.issued < j.total && s.issued - s.count < j.depth && s.cycles < j.budget && s.cycles % j.batch == 0
    ensures var r := SendNext(g, j, s);
            Replayed(g, j, e, notes, r) && (Refused(g, j, e, r.ops) <==> r.issued == s.issued)
  {
    assert Inside(Layer.Runs, true);
    PlayOne(g, j.cb, e, s.ops, Send(j.addr(s.issued)));
    ScheduledOne(g, j, e, s.ops, Send(j.addr(s.issued)));
  }

  lemma {:induction false} FillReplays<E, C>(g: Engine<E, C>, j: Job<C>, e: E, notes: seq<Note<C>>, s: State<E, C>)
    requires j.Valid() && Replayed(g, j, e, notes, s) && !Refused(g, j, e, s.ops)
    requires s.cycles < j.budget && s.cycles % j.batch == 0
    ensures var r := Fill(g, j, s);
            && Replayed(g, j, e, notes, r)
            && (r.issued < j.total ==> r.issued - r.count >= j.depth || Refused(g, j, e, r.ops))
            && (Refused(g, j, e, r.ops) ==> r.issued < j.total)
    decreases j.total - s.issued
  {
    if s.issued < j.total && s.issued - s.count < j.depth {
      SendReplays(g, j, e, notes, s);
      if SendNext(g, j, s).issued > s.issued {
        FillReplays(g, j, e, notes, SendNext(g, j, s));
      }
    }
  }

  /** `left` more cycles make the batch full. */
  ghost predicate Phase(batch: int, cycles: int, left: int) {
    1 <= batch && 0 <= cycles && 0 <= left <= batch && cycles % batch == if left == 0 then 0 else batch - left
  }

  lemma PhaseStep(batch: int, cycles: int, left: int)
    requires Phase(batch, cycles, left) && 0 < left
    ensures Phase(batch, cycles + 1, left - 1)
  {
    var q, r := cycles / batch, cycles % batch;
    assert cycles + 1 == q * batch + (r + 1);
    if r + 1 == batch {
      assert cycles + 1 == (q + 1) * batch;
      Remainder(batch, q + 1, 0);
    } else {
      Remainder(batch, q, r + 1);
    }
  }

  lemma Remainder(batch: int, q: int, r: int)
    requires 0 <= r < batch
    ensures (q * batch + r) % batch == r
  {
    var n := q * batch + r;
    var q', r' := n / batch, n % batch;
    assert (q - q') * batch == r' - r;
    TimesAtLeast(q - q', batch);
    TimesAtLeast(q' - q, batch);
  }

  lemma TimesAtLeast(a: int, b: int)
    requires 0 <= b
    ensures 1 <= a ==> b <= a * b
  {
    if 1 <= a {
      assert 0 <= (a - 1) * b;
    }
  }

  lemma {:induction false} BatchReplays<E, C>(
    g: Engine<E, C>, j: Job<C>, e: E, notes: seq<Note<C>>, s: State<E, C>, left: int)
    requires j.Valid() && Replayed(g, j, e, notes, s) && Phase(j.batch, s.cycles, left)
    requires left == j.batch && s.issued < j.total ==> s.issued - s.count >= j.depth || Refused(g, j, e, s.ops)
    requires left < j.batch || s.issued >= j.total ==> !Refused(g, j, e, s.ops)
    ensures var r := Batch(g, j, s, left);
            && Replayed(g, j, e, notes, r)
            && (r.issued < j.total && r.cycles < j.budget ==> r.cycles % j.batch == 0 && !Refused(g, j, e, r.ops))
    decreases left
  {
    if 0 < left && s.issued < j.total && s.cycles < j.budget {
      CycleReplays(g, j, e, notes, s);
      PhaseStep(j.batch, s.cycles, left);
      BatchReplays(g, j, e, notes, Cycle(g, s), left - 1);
    }
  }

  lemma {:induction false} IssueReplays<E, C>(g: Engine<E, C>, j: Job<C>, e: E, notes: seq<Note<C>>, s: State<E, C>)
    requires j.Valid() && Replayed(g, j, e, notes, s) && 0 <= s.cycles
    requires s.issued < j.total && s.cycles < j.budget ==> s.cycles % j.batch == 0 && !Refused(g, j, e, s.ops)
    ensures var r := Issue(g, j, s); Replayed(g, j, e, notes, r)
    decreases if s.issued < j.total && s.cycles < j.budget then j.budget - s.cycles else 0
  {
    if s.issued < j.total && s.cycles < j.budget {
      FillReplays(g, j, e, notes, s);
      BatchReplays(g, j, e, notes, Fill(g, j, s), j.batch);
      IssueReplays(g, j, e, notes, Batch(g, j, Fill(g, j, s), j.batch));
    }
  }

  lemma {:induction false} DrainReplays<E, C>(g: Engine<E, C>, j: Job<C>, e: E, notes: seq<Note<C>>, s: State<E, C>)
    requires j.Valid() && Replayed(g, j, e, notes, s) && (s.issued >= j.total || s.cycles >= j.budget)
    ensures var r := Drain(g, j, s); Replayed(g, j, e, notes, r)
    decreases j.budget - s.cycles
  {
    if s.issued - s.count > 0 && s.cycles < j.budget {
      CycleReplays(g, j, e, notes, s);
      DrainReplays(g, j, e, notes, Cycle(g, s));
    }
  }

  lemma {:induction false} IssueFinishes<E, C>(g: Engine<E, C>, j: Job<C>, s: State<E, C>)
    requires j.Valid()
    ensures var r := Issue(g, j, s); r.issued >= j.total || r.cycles >= j.budget
    decreases if s.issued < j.total && s.cycles < j.budget then j.budget - s.cycles else 0
  {
    if s.issued < j.total && s.cycles < j.budget {
      IssueFinishes(g, j, Batch(g, j, Fill(g, j, s), j.batch));
    }
  }

  /** A drive is a properly scheduled list of sends and ticks: the engine it leaves is the one they lead to, its cycle
      count is the number of ticks, its issued count the number of accepted sends, and these are the first addresses
      of the stream. */
  lemma DriveIsScheduled<E, C>(g: Engine<E, C>, j: Job<C>, e: E, notes: seq<Note<C>>)
    requires j.Valid()
    ensures var r := Driven(g, j, Begin(e, notes));
            var t := Play(g, j.cb, e, r.ops);
            && Scheduled(g, j, e, r.ops)
            && r.mem == t.mem && r.cycles == t.cycles && r.issued == |t.sent|
            && t.sent == First(j, |t.sent|)
            && r.count == Bumps(t.served) && r.notes == notes + Recorded(t.served)
  {
    var s0 := Begin(e, notes);
    assert Replayed(g, j, e, notes, s0) by {
      assert notes + [] == notes;
    }
    IssueReplays(g, j, e, notes, s0);
    IssueFinishes(g, j, s0);
    DrainReplays(g, j, e, notes, Issue(g, j, s0));
    assert Inside(Layer.Runs, true);
  }

  // -- Where every request is -----------------------------------------------------------------

  /** Under every closure, what was in the engine or has been sent is still there or has been handed back. */
  lemma {:induction false} PlayConserves<E(!new), C(!new)>(
    g: Engine<E, C>, flight: Flight<E, C>, cb: Option<C>, e: E, ops: seq<Op>, k: Closure<C>)
    requires RefusedKeepsFlight(g, flight) && SendAddsTheRead(g, flight) && TickServesReads(g, flight)
    ensures Conserved(flight, cb, flight(e, k), Play(g, cb, e, ops), k)
    decreases ops
  {
    if ops != [] {
      var before, op := ops[..|ops| - 1], ops[|ops| - 1];
      PlayConserves(g, flight, cb, e, before, k);
      var t := Play(g, cb, e, before);
      if op.Tick? {
        TickConserves(g, flight, cb, flight(e, k), t, k);
      } else {
        SendConserves(g, flight, cb, flight(e, k), t, op.addr, k);
      }
    }
  }

  /** Of the addresses `was` on entry and the accepted ones. */
  ghost predicate Conserved<E, C>(
    flight: Flight<E, C>, cb: Option<C>, was: multiset<int>, t: Tape<E, C>, k: Closure<C>)
  {
    was + (if k == Counted(cb) then multiset(t.sent) else multiset{}) == flight(t.mem, k) + ServedUnder(t.served, k)
  }

  lemma TickConserves<E(!new), C(!new)>(
    g: Engine<E, C>, flight: Flight<E, C>, cb: Option<C>, was: multiset<int>, t: Tape<E, C>, k: Closure<C>)
    requires TickServesReads(g, flight) && Conserved(flight, cb, was, t, k)
    ensures var (e1, served) := g.tick(t.mem);
            Conserved(flight, cb, was, Tape(e1, t.sent, t.served + served, t.cycles + 1, false), k)
  {
    var (e1, served) := g.tick(t.mem);
    ServedAppend(t.served, served, k);
    assert flight(t.mem, k) == flight(e1, k) + ServedUnder(served, k);
  }

  lemma SendConserves<E(!new), C(!new)>(
    g: Engine<E, C>, flight: Flight<E, C>, cb: Option<C>, was: multiset<int>, t: Tape<E, C>, addr: int, k: Closure<C>)
    requires RefusedKeepsFlight(g, flight) && SendAddsTheRead(g, flight) && Conserved(flight, cb, was, t, k)
    ensures var (e1, ok) := g.send(t.mem, Request(addr, READ, 0, Counted(cb)));
            Conserved(flight, cb, was, Tape(e1, t.sent + (if ok then [addr] else []), t.served, t.cycles, !ok), k)
  {
    var r := Request(addr, READ, 0, Counted(cb));
    var (e1, ok) := g.send(t.mem, r);
    if ok {
      assert flight(e1, k) == flight(t.mem, k) + (if r.closure == k then multiset{addr} else multiset{});
      assert multiset(t.sent + [addr]) == multiset(t.sent) + multiset{addr};
    } else {
      assert flight(e1, k) == flight(t.mem, k);
    }
  }

  lemma {:induction false} ServedAppend<C>(a: seq<Served<C>>, b: seq<Served<C>>, k: Closure<C>)
    ensures ServedUnder(a + b, k) == ServedUnder(a, k) + ServedUnder(b, k)
  {
    if a == [] {
      assert a + b == b;
    } else {
      assert (a + b)[1..] == a[1..] + b;
      ServedAppend(a[1..], b, k);
    }
  }

  // -- What callbacks are told ------------------------------------------------------------------

  /** What is recorded for a callback, in order. */
  ghost function Told<C>(ns: seq<Note<C>>, u: Option<C>): seq<Info> {
    if ns == [] then [] else (if ns[0].user == u then [ns[0].info] else []) + Told(ns[1..], u)
  }

  /** What the engine has handed back for a callback, in order: requests of drives that name it, with their core as
      the engine gives it, and reads sent for it, under the core they were sent for. */
  ghost function Answers<C>(s: seq<Served<C>>, u: Option<C>): seq<Info> {
    if s == [] then [] else Answer(s[0], u) + Answers(s[1..], u)
  }

  ghost function Answer<C>(r: Served<C>, u: Option<C>): seq<Info> {
    var k := r.closure;
    if k.Counted? && k.user == u && u != None then [Info(r.addr, r.kind, r.arrive, r.depart, r.core)]
    else if k.Record? && k.user == u then [Info(r.addr, r.kind, r.arrive, r.depart, k.core)]
    else []
  }

  lemma {:induction false} ToldAppend<C>(a: seq<Note<C>>, b: seq<Note<C>>, u: Option<C>)
    ensures Told(a + b, u) == Told(a, u) + Told(b, u)
  {
    if a == [] {
      assert a + b == b;
    } else {
      assert (a + b)[1..] == a[1..] + b;
      ToldAppend(a[1..], b, u);
      Assoc(if a[0].user == u then [a[0].info] else [], Told(a[1..], u), Told(b, u));
    }
  }

  lemma {:induction false} RecordedAreAnswers<C>(s: seq<Served<C>>, u: Option<C>)
    ensures Told(Recorded(s), u) == Answers(s, u)
  {
    if s != [] {
      RecordedAreAnswers(s[1..], u);
      ToldAppend(Noted(s[0]), Recorded(s[1..]), u);
      if Noted(s[0]) != [] {
        assert Noted(s[0])[1..] == [];
      }
    }
  }

  ghost function Addresses(infos: seq<Info>): multiset<int> {
    if infos == [] then multiset{} else multiset{infos[0].addr} + Addresses(infos[1..])
  }

  /** What has been handed back for a callback without a drive. */
  ghost function Aside<C>(s: seq<Served<C>>, u: Option<C>): multiset<int> {
    if s == [] then multiset{}
    else
      (if s[0].closure.Record? && s[0].closure.user == u then multiset{s[0].addr} else multiset{}) + Aside(s[1..], u)
  }

  lemma {:induction false} AnswersAre<C>(s: seq<Served<C>>, c: C)
    ensures Addresses(Answers(s, Some(c))) == ServedUnder(s, Counted(Some(c))) + Aside(s, Some(c))
  {
    if s != [] {
      AnswersAre(s[1..], c);
      AddressesAppend(Answer(s[0], Some(c)), Answers(s[1..], Some(c)));
      AnswerIs(s[0], c);
    }
  }

  lemma AnswerIs<C>(r: Served<C>, c: C)
    ensures Addresses(Answer(r, Some(c))) ==
            (if r.closure == Counted(Some(c)) then multiset{r.addr} else multiset{}) +
            (if r.closure.Record? && r.closure.user == Some(c) then multiset{r.addr} else multiset{})
  {
    var one := Answer(r, Some(c));
    if one != [] {
      assert one[1..] == [];
    }
  }

  lemma {:induction false} AddressesAppend(a: seq<Info>, b: seq<Info>)
    ensures Addresses(a + b) == Addresses(a) + Addresses(b)
  {
    if a == [] {
      assert a + b == b;
    } else {
      assert (a + b)[1..] == a[1..] + b;
      AddressesAppend(a[1..], b);
    }
  }

  lemma {:induction false} NoneAside<C>(s: seq<Served<C>>, u: Option<C>)
    requires forall core :: ServedUnder(s, Record(core, u)) == multiset{}
    ensures Aside(s, u) == multiset{}
  {
    if s != [] {
      ServedMember(s, 0);
      forall core
        ensures ServedUnder(s[1..], Record(core, u)) == multiset{}
      {
        assert ServedUnder(s, Record(core, u)) == multiset{};
      }
      NoneAside(s[1..], u);
    }
  }

  // -- The conclusions ----------------------------------------------------------------------------

  /** Callbacks are told exactly what the engine hands back for them, times included and in order.  Every drive
      request is accounted for: accepted ones and those found in the engine are still there or handed back. */
  lemma DriveTells<E(!new), C(!new)>(
    g: Engine<E, C>, flight: Flight<E, C>, j: Job<C>, e: E, notes: seq<Note<C>>, u: Option<C>, k: Closure<C>)
    requires j.Valid() && Honest(g, flight)
    ensures var r := Driven(g, j, Begin(e, notes));
            var t := Play(g, j.cb, e, r.ops);
            && Told(r.notes, u) == Told(notes, u) + Answers(t.served, u)
            && flight(e, k) + (if k == Counted(j.cb) then multiset(t.sent) else multiset{}) ==
               flight(r.mem, k) + ServedUnder(t.served, k)
  {
    DriveIsScheduled(g, j, e, notes);
    var r := Driven(g, j, Begin(e, notes));
    var t := Play(g, j.cb, e, r.ops);
    ToldAppend(notes, Recorded(t.served), u);
    RecordedAreAnswers(t.served, u);
    PlayConserves(g, flight, j.cb, e, r.ops, k);
  }

  /** The callback of a drive is told once for each accepted address and for each request that an earlier drive with
      the same callback has left behind, less those still in the engine.  With nothing left over and the budget not
      used up, that is once for each address of the stream. */
  lemma ToldOncePerAddress<E(!new), C(!new)>(
    g: Engine<E, C>, flight: Flight<E, C>, j: Job<C>, e: E, notes: seq<Note<C>>, c: C) returns (news: seq<Info>)
    requires j.Valid() && Honest(g, flight) && j.cb == Some(c)
    requires forall core :: flight(e, Record(core, Some(c))) == multiset{}
    ensures var r := Driven(g, j, Begin(e, notes));
            && Told(r.notes, Some(c)) == Told(notes, Some(c)) + news
            && 0 <= r.issued
            && Addresses(news) + flight(r.mem, Counted(j.cb)) ==
               multiset(First(j, r.issued)) + flight(e, Counted(j.cb))
            && (NoDrive(flight, e) && r.cycles < j.budget ==>
                  Addresses(news) == multiset(First(j, if j.total < 0 then 0 else j.total)))
  {
    var r := Driven(g, j, Begin(e, notes));
    var t := Play(g, j.cb, e, r.ops);
    news := Answers(t.served, Some(c));
    DriveIsScheduled(g, j, e, notes);
    DriveTells(g, flight, j, e, notes, Some(c), Counted(j.cb));
    NothingAside(g, flight, j, e, notes, c);
    Balance(t, c, flight(e, Counted(j.cb)), flight(r.mem, Counted(j.cb)));
    EndsWithNone(g, j, flight, e, notes);
  }

  lemma Balance<E, C>(t: Tape<E, C>, c: C, was: multiset<int>, now: multiset<int>)
    requires was + multiset(t.sent) == now + ServedUnder(t.served, Counted(Some(c)))
    requires Aside(t.served, Some(c)) == multiset{}
    ensures Addresses(Answers(t.served, Some(c))) + now == multiset(t.sent) + was
    ensures was == now == multiset{} ==> Addresses(Answers(t.served, Some(c))) == multiset(t.sent)
  {
    AnswersAre(t.served, c);
    var told := Addresses(Answers(t.served, Some(c)));
    SameSums(was, multiset(t.sent), now, ServedUnder(t.served, Counted(Some(c))), told);
  }

  lemma SameSums(was: multiset<int>, sent: multiset<int>, now: multiset<int>, k: multiset<int>, told: multiset<int>)
    requires was + sent == now + k && told == k + multiset{}
    ensures told + now == sent + was
    ensures was == now == multiset{} ==> told == sent
  {
    forall x
      ensures told[x] + now[x] == sent[x] + was[x]
    {
      assert (was + sent)[x] == (now + k)[x] && told[x] == (k + multiset{})[x];
    }
  }

  lemma NothingAside<E(!new), C(!new)>(
    g: Engine<E, C>, flight: Flight<E, C>, j: Job<C>, e: E, notes: seq<Note<C>>, c: C)
    requires j.Valid() && Honest(g, flight)
    requires forall core :: flight(e, Record(core, Some(c))) == multiset{}
    ensures Aside(Play(g, j.cb, e, Driven(g, j, Begin(e, notes)).ops).served, Some(c)) == multiset{}
  {
    var t := Play(g, j.cb, e, Driven(g, j, Begin(e, notes)).ops);
    forall core
      ensures ServedUnder(t.served, Record(core, Some(c))) == multiset{}
    {
      NoneServed(g, flight, j, e, notes, Record(core, Some(c)));
    }
    NoneAside(t.served, Some(c));
  }

  lemma EndsWithNone<E(!new), C(!new)>(
    g: Engine<E, C>, j: Job<C>, flight: Flight<E, C>, e: E, notes: seq<Note<C>>)
    requires j.Valid() && Honest(g, flight)
    ensures var r := Driven(g, j, Begin(e, notes));
            NoDrive(flight, e) && r.cycles < j.budget ==>
              r.issued == (if j.total < 0 then 0 else j.total) && flight(r.mem, Counted(j.cb)) == multiset{}
  {
    if NoDrive(flight, e) {
      var us, none := [j.cb], [j.cb][1..];
      assert us[1..] == none && InDrive(flight, e, none) == 0;
      DriveEnds(g, j, flight, e, notes, us, 0);
    }
  }

  /** A drive without a callback records nothing of its own: with no other recording request in the engine, nothing. */
  lemma SilentWithoutCallback<E(!new), C(!new)>(
    g: Engine<E, C>, flight: Flight<E, C>, j: Job<C>, e: E, notes: seq<Note<C>>)
    requires j.Valid() && Honest(g, flight) && j.cb == None
    requires forall k :: k != NoOp && k != Counted(None) ==> flight(e, k) == multiset{}
    ensures Driven(g, j, Begin(e, notes)).notes == notes
  {
    DriveIsScheduled(g, j, e, notes);
    var t := Play(g, j.cb, e, Driven(g, j, Begin(e, notes)).ops);
    forall k | k != NoOp && k != Counted(None)
      ensures ServedUnder(t.served, k) == multiset{}
    {
      NoneServed(g, flight, j, e, notes, k);
    }
    NothingRecorded(t.served);
  }

  /** A closure with no request in the engine and none in the drive. */
  lemma NoneServed<E(!new), C(!new)>(
    g: Engine<E, C>, flight: Flight<E, C>, j: Job<C>, e: E, notes: seq<Note<C>>, k: Closure<C>)
    requires j.Valid() && Honest(g, flight) && k != Counted(j.cb) && flight(e, k) == multiset{}
    ensures ServedUnder(Play(g, j.cb, e, Driven(g, j, Begin(e, notes)).ops).served, k) == multiset{}
  {
    DriveTells(g, flight, j, e, notes, None, k);
    NoPart(flight(Driven(g, j, Begin(e, notes)).mem, k),
           ServedUnder(Play(g, j.cb, e, Driven(g, j, Begin(e, notes)).ops).served, k));
  }

  lemma NoPart(a: multiset<int>, b: multiset<int>)
    requires a + b == multiset{}
    ensures b == multiset{}
  {
    forall x
      ensures b[x] == 0
    {
      assert (a + b)[x] == 0;
    }
  }

  lemma {:induction false} NothingRecorded<C(!new)>(s: seq<Served<C>>)
    requires forall k :: k != NoOp && k != Counted(None) ==> ServedUnder(s, k) == multiset{}
    ensures Recorded(s) == []
  {
    if s != [] {
      ServedMember(s, 0);
      forall k | k != NoOp && k != Counted(None)
        ensures ServedUnder(s[1..], k) == multiset{}
      {
        assert ServedUnder(s, k) == multiset{};
      }
      NothingRecorded(s[1..]);
    }
  }
}

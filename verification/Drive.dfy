/**
 The drive loop of the C++ layer as a function, and what its window and its budget guarantee.
 */
module Drive {
  import opened Prelude
  import opened Engine

  /** `addr(i)` is the address of the i-th request. */
  datatype Job<!C> = Job(total: int, depth: int, batch: int, budget: int, cb: Option<C>, addr: int -> int)
  {
    predicate Valid() {
      1 <= depth && 1 <= batch
    }
  }

  /** What a drive asks of the engine. */
  datatype Op = Send(addr: int) | Tick

  /** The loop's variables; `ops` is the history of what was asked of the engine. */
  datatype State<+E, +C> = State(mem: E, notes: seq<Note<C>>, count: int, cycles: int, issued: int, ops: seq<Op>)

  function Cycle<E, C>(g: Engine<E, C>, s: State<E, C>): State<E, C> {
    var (e, served) := g.tick(s.mem);
    State(e, s.notes + Recorded(served), s.count + Bumps(served), s.cycles + 1, s.issued, s.ops + [Tick])
  }

  function DriveRequest<C>(j: Job<C>, i: int): Request<C> {
    Request(j.addr(i), READ, 0, Counted(j.cb))
  }

  /** The next request goes to the engine, which takes it or refuses it. */
  function SendNext<E, C>(g: Engine<E, C>, j: Job<C>, s: State<E, C>): State<E, C> {
    var (e, ok) := g.send(s.mem, DriveRequest(j, s.issued));
    s.(mem := e, issued := s.issued + Bit(ok), ops := s.ops + [Send(j.addr(s.issued))])
  }

  /** Fill the window until it is full, the stream ends or the engine refuses. */
  function Fill<E, C>(g: Engine<E, C>, j: Job<C>, s: State<E, C>): (r: State<E, C>)
    ensures r.cycles == s.cycles && r.count == s.count && s.issued <= r.issued
    decreases j.total - s.issued
  {
    if s.issued < j.total && s.issued - s.count < j.depth then
      var r := SendNext(g, j, s);
      if r.issued == s.issued then r else Fill(g, j, r)
    else s
  }

  /** At most `left` cycles without sending, while there is something left to send. */
  function Batch<E, C>(g: Engine<E, C>, j: Job<C>, s: State<E, C>, left: int): (r: State<E, C>)
    ensures r.issued == s.issued && s.cycles <= r.cycles
    ensures 0 < left && s.issued < j.total && s.cycles < j.budget ==> s.cycles < r.cycles
    decreases left
  {
    if 0 < left && s.issued < j.total && s.cycles < j.budget then Batch(g, j, Cycle(g, s), left - 1) else s
  }

  /** Either the last request goes out, or at least one cycle of the budget is used. */
  function Issue<E, C>(g: Engine<E, C>, j: Job<C>, s: State<E, C>): State<E, C>
    requires j.Valid()
    decreases if s.issued < j.total && s.cycles < j.budget then j.budget - s.cycles else 0
  {
    if s.issued < j.total && s.cycles < j.budget then Issue(g, j, Batch(g, j, Fill(g, j, s), j.batch)) else s
  }

  function Drain<E, C>(g: Engine<E, C>, j: Job<C>, s: State<E, C>): State<E, C>
    decreases j.budget - s.cycles
  {
    if s.issued - s.count > 0 && s.cycles < j.budget then Drain(g, j, Cycle(g, s)) else s
  }

  function Driven<E, C>(g: Engine<E, C>, j: Job<C>, s: State<E, C>): State<E, C>
    requires j.Valid()
  {
    Drain(g, j, Issue(g, j, s))
  }

  // -- What holds throughout ------------------------------------------------------------

  /** How many requests of drives, this one's or earlier ones', are in the engine; `us` lists their callbacks. */
  ghost function InDrive<E, C>(flight: Flight<E, C>, e: E, us: seq<Option<C>>): nat {
    if us == [] then 0 else |flight(e, Counted(us[0]))| + InDrive(flight, e, us[1..])
  }

  /** `us` lists every callback of a drive that has requests in the engine, once each. */
  ghost predicate Lists<E, C(!new)>(flight: Flight<E, C>, e: E, us: seq<Option<C>>) {
    && (forall u: Option<C> :: u !in us ==> flight(e, Counted(u)) == multiset{})
    && (forall i, k :: 0 <= i < k < |us| ==> us[i] != us[k])
  }

  /** The drive requests in the engine are the `left` ones found there and the issued ones, less the completions. */
  ghost predicate Window<E, C(!new)>(j: Job<C>, flight: Flight<E, C>, us: seq<Option<C>>, left: nat, s: State<E, C>) {
    && Lists(flight, s.mem, us) && j.cb in us
    && InDrive(flight, s.mem, us) == left + s.issued - s.count && s.issued - s.count <= j.depth
    && 0 <= s.cycles && (s.cycles <= j.budget || s.cycles == 0)
    && 0 <= s.issued && (s.issued <= j.total || s.issued == 0)
  }

  ghost function ServedIn<C>(s: seq<Served<C>>, us: seq<Option<C>>): nat {
    if us == [] then 0 else |ServedUnder(s, Counted(us[0]))| + ServedIn(s, us[1..])
  }

  lemma {:induction false} ServedNext<C>(s: seq<Served<C>>, us: seq<Option<C>>)
    requires s != [] && forall i, k :: 0 <= i < k < |us| ==> us[i] != us[k]
    ensures ServedIn(s, us) == ServedIn(s[1..], us) + Bit(s[0].closure.Counted? && s[0].closure.user in us)
    decreases us
  {
    if us != [] {
      ServedNext(s, us[1..]);
      assert s[0].closure == Counted(us[0]) <==> s[0].closure.Counted? && s[0].closure.user == us[0];
    }
  }

  lemma {:induction false} BumpsAreServed<C>(s: seq<Served<C>>, us: seq<Option<C>>)
    requires forall i, k :: 0 <= i < k < |us| ==> us[i] != us[k]
    requires forall i :: 0 <= i < |s| && s[i].closure.Counted? ==> s[i].closure.user in us
    ensures Bumps(s) == ServedIn(s, us)
    decreases s
  {
    if s == [] {
      NoneServed<C>(us);
    } else {
      ServedNext(s, us);
      assert forall i :: 0 <= i < |s[1..]| ==> s[1..][i] == s[i + 1];
      BumpsAreServed(s[1..], us);
    }
  }

  lemma {:induction false} NoneServed<C>(us: seq<Option<C>>)
    ensures ServedIn<C>([], us) == 0
  {
    if us != [] {
      NoneServed(us[1..]);
    }
  }

  lemma {:induction false} TickCounts<E(!new), C(!new)>(
    g: Engine<E, C>, flight: Flight<E, C>, e: E, us: seq<Option<C>>)
    requires TickServesReads(g, flight)
    ensures InDrive(flight, e, us) == InDrive(flight, g.tick(e).0, us) + ServedIn(g.tick(e).1, us)
    decreases us
  {
    if us != [] {
      TickCounts(g, flight, e, us[1..]);
      var k := Counted(us[0]);
      assert flight(e, k) == flight(g.tick(e).0, k) + ServedUnder(g.tick(e).1, k);
    }
  }

  lemma CycleKeepsWindow<E(!new), C(!new)>(
    g: Engine<E, C>, j: Job<C>, flight: Flight<E, C>, us: seq<Option<C>>, left: nat, s: State<E, C>)
    requires Honest(g, flight) && Window(j, flight, us, left, s) && s.cycles < j.budget
    ensures Window(j, flight, us, left, Cycle(g, s))
  {
    var (e, served) := g.tick(s.mem);
    forall u: Option<C> | u !in us
      ensures flight(e, Counted(u)) == multiset{} && ServedUnder(served, Counted(u)) == multiset{}
    {
      assert flight(s.mem, Counted(u)) == flight(e, Counted(u)) + ServedUnder(served, Counted(u));
    }
    forall i | 0 <= i < |served| && served[i].closure.Counted?
      ensures served[i].closure.user in us
    {
      ServedMember(served, i);
      assert served[i].closure == Counted(served[i].closure.user);
    }
    BumpsAreServed(served, us);
    TickCounts(g, flight, s.mem, us);
  }

  /** An accepted request of the drive counts once. */
  lemma {:induction false} SendCounts<E, C>(
    flight: Flight<E, C>, e: E, e': E, addr: int, cb: Option<C>, us: seq<Option<C>>)
    requires forall i, k :: 0 <= i < k < |us| ==> us[i] != us[k]
    requires forall u :: u in us ==>
               flight(e', Counted(u)) == flight(e, Counted(u)) + (if u == cb then multiset{addr} else multiset{})
    ensures InDrive(flight, e', us) == InDrive(flight, e, us) + Bit(cb in us)
    decreases us
  {
    if us != [] {
      SendCounts(flight, e, e', addr, cb, us[1..]);
    }
  }

  lemma {:induction false} RefusalCounts<E, C>(flight: Flight<E, C>, e: E, e': E, us: seq<Option<C>>)
    requires forall u :: u in us ==> flight(e', Counted(u)) == flight(e, Counted(u))
    ensures InDrive(flight, e', us) == InDrive(flight, e, us)
    decreases us
  {
    if us != [] {
      RefusalCounts(flight, e, e', us[1..]);
    }
  }

  lemma SendKeepsWindow<E(!new), C(!new)>(
    g: Engine<E, C>, j: Job<C>, flight: Flight<E, C>, us: seq<Option<C>>, left: nat, s: State<E, C>)
    requires Honest(g, flight) && Window(j, flight, us, left, s)
    requires s.issued < j.total && s.issued - s.count < j.depth
    ensures Window(j, flight, us, left, SendNext(g, j, s))
  {
    var (e, ok) := g.send(s.mem, DriveRequest(j, s.issued));
    forall u: Option<C>
      ensures flight(e, Counted(u)) == flight(s.mem, Counted(u)) +
              (if ok && u == j.cb then multiset{j.addr(s.issued)} else multiset{})
    {
      assert Counted(u) == Counted(j.cb) <==> u == j.cb;
    }
    if ok {
      SendCounts(flight, s.mem, e, j.addr(s.issued), j.cb, us);
    } else {
      RefusalCounts(flight, s.mem, e, us);
    }
  }

  lemma {:induction false} FillKeepsWindow<E(!new), C(!new)>(
    g: Engine<E, C>, j: Job<C>, flight: Flight<E, C>, us: seq<Option<C>>, left: nat, s: State<E, C>)
    requires Honest(g, flight) && Window(j, flight, us, left, s)
    ensures Window(j, flight, us, left, Fill(g, j, s))
    decreases j.total - s.issued
  {
    if s.issued < j.total && s.issued - s.count < j.depth {
      SendKeepsWindow(g, j, flight, us, left, s);
      if SendNext(g, j, s).issued > s.issued {
        FillKeepsWindow(g, j, flight, us, left, SendNext(g, j, s));
      }
    }
  }

  lemma {:induction false} BatchKeepsWindow<E(!new), C(!new)>(
    g: Engine<E, C>, j: Job<C>, flight: Flight<E, C>, us: seq<Option<C>>, left: nat, s: State<E, C>, n: int)
    requires Honest(g, flight) && Window(j, flight, us, left, s)
    ensures Window(j, flight, us, left, Batch(g, j, s, n))
    decreases n
  {
    if 0 < n && s.issued < j.total && s.cycles < j.budget {
      CycleKeepsWindow(g, j, flight, us, left, s);
      BatchKeepsWindow(g, j, flight, us, left, Cycle(g, s), n - 1);
    }
  }

  lemma {:induction false} IssueKeepsWindow<E(!new), C(!new)>(
    g: Engine<E, C>, j: Job<C>, flight: Flight<E, C>, us: seq<Option<C>>, left: nat, s: State<E, C>)
    requires j.Valid() && Honest(g, flight) && Window(j, flight, us, left, s)
    ensures var r := Issue(g, j, s);
            Window(j, flight, us, left, r) && (r.issued >= j.total || r.cycles >= j.budget)
    decreases if s.issued < j.total && s.cycles < j.budget then j.budget - s.cycles else 0
  {
    if s.issued < j.total && s.cycles < j.budget {
      FillKeepsWindow(g, j, flight, us, left, s);
      BatchKeepsWindow(g, j, flight, us, left, Fill(g, j, s), j.batch);
      IssueKeepsWindow(g, j, flight, us, left, Batch(g, j, Fill(g, j, s), j.batch));
    }
  }

  lemma {:induction false} DrainKeepsWindow<E(!new), C(!new)>(
    g: Engine<E, C>, j: Job<C>, flight: Flight<E, C>, us: seq<Option<C>>, left: nat, s: State<E, C>)
    requires Honest(g, flight) && Window(j, flight, us, left, s)
    ensures var r := Drain(g, j, s);
            Window(j, flight, us, left, r) && r.issued == s.issued && (r.issued <= r.count || r.cycles >= j.budget)
    decreases j.budget - s.cycles
  {
    if s.issued - s.count > 0 && s.cycles < j.budget {
      CycleKeepsWindow(g, j, flight, us, left, s);
      DrainKeepsWindow(g, j, flight, us, left, Cycle(g, s));
    }
  }

  function Begin<E, C>(e: E, notes: seq<Note<C>>): State<E, C> {
    State(e, notes, 0, 0, 0, [])
  }

  /** The drive ends with everything issued and as many completions, or with its cycle budget used up; the window is
      never exceeded.  Completions of the `left` requests that
      an earlier drive has left in the engine count as well, so up to `left` requests may be in the engine at the
      end, and none when none were left. */
  lemma DriveEnds<E(!new), C(!new)>(
    g: Engine<E, C>, j: Job<C>, flight: Flight<E, C>, e: E, notes: seq<Note<C>>, us: seq<Option<C>>, left: nat)
    requires j.Valid() && Honest(g, flight)
    requires Lists(flight, e, us) && j.cb in us && left == InDrive(flight, e, us)
    ensures var r := Driven(g, j, Begin(e, notes));
            && InDrive(flight, r.mem, us) == left + r.issued - r.count && r.issued - r.count <= j.depth
            && r.cycles <= (if j.budget < 0 then 0 else j.budget)
            && 0 <= r.issued
            && ((r.issued == (if j.total < 0 then 0 else j.total) && InDrive(flight, r.mem, us) <= left
                 && (left == 0 ==> r.count == r.issued && NoDrive(flight, r.mem)))
                || r.cycles >= j.budget)
  {
    var s0 := Begin(e, notes);
    assert Window(j, flight, us, left, s0);
    IssueKeepsWindow(g, j, flight, us, left, s0);
    DrainKeepsWindow(g, j, flight, us, left, Issue(g, j, s0));
    var r := Driven(g, j, s0);
    if InDrive(flight, r.mem, us) == 0 {
      NoneInDrive(flight, r.mem, us);
    }
  }

  lemma {:induction false} NoneInDrive<E, C>(flight: Flight<E, C>, e: E, us: seq<Option<C>>)
    requires InDrive(flight, e, us) == 0
    ensures forall u :: u in us ==> flight(e, Counted(u)) == multiset{}
    decreases us
  {
    if us != [] {
      NoneInDrive(flight, e, us[1..]);
      assert |flight(e, Counted(us[0]))| == 0;
    }
  }

  // -- Ranges ------------------------------------------------------------------------------

  /** Only the addresses of the stream matter. */
  lemma {:induction false} FillSameAddrs<E, C>(g: Engine<E, C>, j: Job<C>, j': Job<C>, s: State<E, C>)
    requires j' == j.(addr := j'.addr) && 0 <= s.issued && forall i :: 0 <= i < j.total ==> j.addr(i) == j'.addr(i)
    ensures Fill(g, j, s) == Fill(g, j', s)
    decreases j.total - s.issued
  {
    if s.issued < j.total && s.issued - s.count < j.depth {
      assert SendNext(g, j', s) == SendNext(g, j, s);
      if SendNext(g, j, s).issued > s.issued {
        FillSameAddrs(g, j, j', SendNext(g, j, s));
      }
    }
  }

  lemma {:induction false} BatchSameAddrs<E, C>(g: Engine<E, C>, j: Job<C>, j': Job<C>, s: State<E, C>, left: int)
    requires j' == j.(addr := j'.addr)
    ensures Batch(g, j, s, left) == Batch(g, j', s, left)
    decreases left
  {
    if 0 < left && s.issued < j.total && s.cycles < j.budget {
      BatchSameAddrs(g, j, j', Cycle(g, s), left - 1);
    }
  }

  lemma {:induction false} DrainSameJob<E, C>(g: Engine<E, C>, j: Job<C>, j': Job<C>, s: State<E, C>)
    requires j'.budget == j.budget
    ensures Drain(g, j, s) == Drain(g, j', s)
    decreases j.budget - s.cycles
  {
    if s.issued - s.count > 0 && s.cycles < j.budget {
      DrainSameJob(g, j, j', Cycle(g, s));
    }
  }

  lemma {:induction false} IssueSameAddrs<E, C>(g: Engine<E, C>, j: Job<C>, j': Job<C>, s: State<E, C>)
    requires j.Valid() && j' == j.(addr := j'.addr) && 0 <= s.issued
    requires forall i :: 0 <= i < j.total ==> j.addr(i) == j'.addr(i)
    ensures Issue(g, j, s) == Issue(g, j', s)
    decreases if s.issued < j.total && s.cycles < j.budget then j.budget - s.cycles else 0
  {
    if s.issued < j.total && s.cycles < j.budget {
      FillSameAddrs(g, j, j', s);
      BatchSameAddrs(g, j, j', Fill(g, j, s), j.batch);
      IssueSameAddrs(g, j, j', Batch(g, j, Fill(g, j, s), j.batch));
    }
  }

  function ListAddr(addrs: seq<int>): int -> int {
    i => if 0 <= i < |addrs| then addrs[i] else 0
  }

  function RangeAddr(start: int, stride: int): int -> int {
    i => start + i * stride
  }

  /** `drive_range` is `drive` on the addresses start, start + stride, ... */
  lemma DriveRangeIsDrive<E, C>(g: Engine<E, C>, j: Job<C>, start: int, stride: int, addrs: seq<int>, s: State<E, C>)
    requires j.Valid() && 0 <= s.issued && j.addr == RangeAddr(start, stride)
    requires |addrs| == (if j.total < 0 then 0 else j.total)
    requires forall i :: 0 <= i < |addrs| ==> addrs[i] == start + i * stride
    ensures Driven(g, j, s) == Driven(g, j.(addr := ListAddr(addrs)), s)
  {
    var j' := j.(addr := ListAddr(addrs));
    assert forall i :: 0 <= i < j.total ==> j.addr(i) == j'.addr(i);
    IssueSameAddrs(g, j, j', s);
    DrainSameJob(g, j, j', Issue(g, j, s));
  }

  /** A negative total is a total of nothing. */
  lemma NoneIsNegative<E, C>(g: Engine<E, C>, j: Job<C>, total: nat, s: State<E, C>)
    requires j.Valid() && 0 <= s.issued && total == if j.total < 0 then 0 else j.total
    ensures Driven(g, j, s) == Driven(g, j.(total := total), s)
  {
    if j.total < 0 {
      DrainSameJob(g, j, j.(total := total), s);
    } else {
      assert j.(total := total) == j;
    }
  }
}

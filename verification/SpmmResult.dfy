/**
 The accelerator computes A times B, whatever the completion order and whatever the refusals.
 */
module SpmmResult {
  import opened Prelude
  import opened Agenda
  import opened Engine
  import opened Device
  import opened Chains
  import opened Spmm

  // -- Sums ---------------------------------------------------------------------------

  lemma {:induction false} SumAppend(b: Dense, xs: seq<Job>, ys: seq<Job>, i: int, c: int)
    ensures Sum(b, xs + ys, i, c) == Sum(b, xs, i, c) + Sum(b, ys, i, c)
  {
    if xs == [] {
      assert xs + ys == ys;
    } else {
      SumAppend(b, xs[1..], ys, i, c);
      assert (xs + ys)[1..] == xs[1..] + ys;
    }
  }

  /** Taking one job out of the middle takes its term out of the sum. */
  lemma SumWithout(b: Dense, ys: seq<Job>, p: nat, i: int, c: int)
    requires p < |ys|
    ensures Sum(b, ys, i, c) == Term(b, ys[p], i, c) + Sum(b, ys[..p] + ys[p + 1..], i, c)
  {
    var tail := [ys[p]] + ys[p + 1..];
    assert ys == ys[..p] + tail && tail[1..] == ys[p + 1..];
    SumAppend(b, ys[..p], tail, i, c);
    SumAppend(b, ys[..p], ys[p + 1..], i, c);
  }

  lemma Without(xs: seq<Job>, ys: seq<Job>) returns (p: nat)
    requires xs != [] && multiset(xs) == multiset(ys)
    ensures p < |ys| && ys[p] == xs[0] && multiset(xs[1..]) == multiset(ys[..p] + ys[p + 1..])
  {
    assert xs[0] in multiset(xs);
    assert xs[0] in ys;
    p :| 0 <= p < |ys| && ys[p] == xs[0];
    assert ys == ys[..p] + [ys[p]] + ys[p + 1..];
    assert xs == [xs[0]] + xs[1..];
    assert multiset(ys) == multiset(ys[..p]) + multiset{ys[p]} + multiset(ys[p + 1..]);
    assert multiset(ys[..p] + ys[p + 1..]) == multiset(ys) - multiset{xs[0]};
    assert multiset(xs[1..]) == multiset(xs) - multiset{xs[0]};
  }

  /** The sum depends on which jobs finished, not on their order. */
  lemma {:induction false} SumIgnoresOrder(b: Dense, xs: seq<Job>, ys: seq<Job>, i: int, c: int)
    requires multiset(xs) == multiset(ys)
    ensures Sum(b, xs, i, c) == Sum(b, ys, i, c)
    decreases |xs|
  {
    if xs == [] {
      assert |ys| == |multiset(ys)| == |multiset(xs)| == 0;
    } else {
      var p := Without(xs, ys);
      SumWithout(b, ys, p, i, c);
      SumIgnoresOrder(b, xs[1..], ys[..p] + ys[p + 1..], i, c);
    }
  }

  /** Element (j, c) of B. */
  function At(b: Dense, j: int, c: int): real {
    var at := j * b.k + c;
    if 0 <= at < |b.image| then b.image[at] else 0.0
  }

  lemma RowsFit(n: int, k: int, j: int)
    requires 0 <= j < n && 0 <= k
    ensures 0 <= j * k && j * k + k <= n * k
    ensures j == n - 1 ==> j * k + k == n * k
    ensures j < n - 1 ==> j * k + 2 * k <= n * k
  {
    Monotone(k, 0, j);
    Monotone(k, j + 1, n);
    assert (j + 1) * k == j * k + k;
    if j < n - 1 {
      Monotone(k, j + 2, n);
      assert (j + 2) * k == j * k + 2 * k;
    }
  }

  lemma InImage(b: Dense, j: int, c: int)
    requires b.Valid() && 0 <= j < b.n && 0 <= c < b.k
    ensures 0 <= j * b.k + c < |b.image|
  {
    RowsFit(b.n, b.k, j);
  }

  /** The blocks of one nonzero cover each column exactly once. */
  lemma {:induction false} BlockSum(b: Dense, i: int, j: int, v: real, t: int, i': int, c: int)
    requires 0 <= t && t % BLOCK == 0 && c < b.k
    ensures Sum(b, BlockJobs(b.k, i, j, v, t), i', c) ==
            if i' == i && t <= c && 0 <= j * b.k + c < |b.image| then v * At(b, j, c) else 0.0
    decreases b.k - t
  {
    if t < b.k {
      BlockSum(b, i, j, v, t + BLOCK, i', c);
    }
  }

  lemma NonzeroSum(a: Csr, b: Dense, i: int, x: int, i': int, c: int)
    requires 0 <= x < |a.cols| == |a.vals| && 0 <= c < b.k
    ensures Sum(b, BlockJobs(b.k, i, a.cols[x], a.vals[x], 0), i', c) == if i' == i then Nonzero(a, b, c, x) else 0.0
  {
    BlockSum(b, i, a.cols[x], a.vals[x], 0, i', c);
  }

  lemma {:induction false} RowSum(a: Csr, b: Dense, i: int, x: int, end: int, i': int, c: int)
    requires 0 <= x && end <= |a.cols| == |a.vals| && 0 <= c < b.k
    ensures Sum(b, RowJobs(a, b.k, i, x, end), i', c) == if i' == i then RowDot(a, b, c, x, end) else 0.0
    decreases end - x
  {
    if x < end {
      NonzeroSum(a, b, i, x, i', c);
      RowSum(a, b, i, x + 1, end, i', c);
      SumAppend(b, BlockJobs(b.k, i, a.cols[x], a.vals[x], 0), RowJobs(a, b.k, i, x + 1, end), i', c);
    }
  }

  lemma {:induction false} JobsSum(a: Csr, b: Dense, from: int, i: int, c: int)
    requires WellFormed(a, b) && 0 <= from <= RowCount(a) && 0 <= i < RowCount(a) && 0 <= c < b.k
    ensures Sum(b, JobsFrom(a, b, from), i, c) == if from <= i then RowDot(a, b, c, a.rows[i], a.rows[i + 1]) else 0.0
    decreases RowCount(a) - from
  {
    if from < RowCount(a) {
      RowSum(a, b, from, a.rows[from], a.rows[from + 1], i, c);
      JobsSum(a, b, from + 1, i, c);
      SumAppend(b, RowJobs(a, b.k, from, a.rows[from], a.rows[from + 1]), JobsFrom(a, b, from + 1), i, c);
    }
  }

  /** One more nonzero contributes to the textbook sum through its own column only. */
  lemma {:induction false} ProductStep(a: Csr, b: Dense, c: int, x: int, end: int, j: int)
    requires 0 <= x < end <= |a.cols| == |a.vals| && 0 <= a.cols[x] < b.n
    ensures Product(a, b, c, x, end, j) ==
            (if j <= a.cols[x] then a.vals[x] * At(b, a.cols[x], c) else 0.0) + Product(a, b, c, x + 1, end, j)
    decreases b.n - j
  {
    if j < b.n {
      ProductStep(a, b, c, x, end, j + 1);
      var rest := Coefficient(a, j, x + 1, end);
      if a.cols[x] == j {
        assert (a.vals[x] + rest) * At(b, j, c) == a.vals[x] * At(b, j, c) + rest * At(b, j, c);
      } else {
        assert 0.0 + rest == rest;
      }
    }
  }

  lemma {:induction false} NoProduct(a: Csr, b: Dense, c: int, x: int, end: int, j: int)
    requires 0 <= x && end <= x && end <= |a.cols| == |a.vals|
    ensures Product(a, b, c, x, end, j) == 0.0
    decreases b.n - j
  {
    if j < b.n {
      NoProduct(a, b, c, x, end, j + 1);
      assert 0.0 * At(b, j, c) == 0.0;
    }
  }

  /** Summing over the stored nonzeros is summing over all columns of A. */
  lemma {:induction false} RowDotIsProduct(a: Csr, b: Dense, c: int, x: int, end: int)
    requires 0 <= x && end <= |a.cols| == |a.vals|
    requires forall y :: 0 <= y < |a.cols| ==> 0 <= a.cols[y] < b.n
    ensures RowDot(a, b, c, x, end) == Product(a, b, c, x, end, 0)
    decreases end - x
  {
    if end <= x {
      NoProduct(a, b, c, x, end, 0);
    } else {
      RowDotIsProduct(a, b, c, x + 1, end);
      ProductStep(a, b, c, x, end, 0);
      if !(0 <= a.cols[x] * b.k + c < |b.image|) {
        assert a.vals[x] * At(b, a.cols[x], c) == 0.0;
      }
    }
  }

  /** Element (i, c) of A times B. */
  ghost function MatMul(a: Csr, b: Dense, i: int, c: int): real
    requires WellFormed(a, b) && 0 <= i < RowCount(a)
  {
    Product(a, b, c, a.rows[i], a.rows[i + 1], 0)
  }

  // -- Which blocks numpy accepts -----------------------------------------------------------

  /** A job as the request list makes it. */
  ghost predicate Proper(b: Dense, m: int, job: Job) {
    0 <= job.i < m && 0 <= job.j < b.n && 0 <= job.t < b.k && job.t % BLOCK == 0
  }

  /** The block read from B is as long as the block of the accumulator. */
  predicate BlockFits(b: Dense, job: Job) {
    job.t + BLOCK <= b.k || job.j == b.n - 1
  }

  lemma FitsWhenAgree(b: Dense, m: int, job: Job)
    requires b.Valid() && Proper(b, m, job)
    ensures SlicesAgree(b, job.j * b.k + job.t, job.t) <==> BlockFits(b, job)
  {
    RowsFit(b.n, b.k, job.j);
    SliceLengths(b, job.j * b.k + job.t, job.t, job.j * b.k, job.j == b.n - 1);
  }

  lemma SliceLengths(b: Dense, off: int, t: int, row: int, last: bool)
    requires 0 <= row && 0 <= t < b.k && off == row + t
    requires if last then row + b.k == |b.image| else row + 2 * b.k <= |b.image|
    ensures SlicesAgree(b, off, t) <==> t + BLOCK <= b.k || last
  {
  }

  /** Every nonzero has only full blocks, or is in the last column. */
  ghost predicate AllFit(a: Csr, b: Dense)
    requires WellFormed(a, b)
  {
    forall job :: job in JobsFrom(a, b, 0) ==> BlockFits(b, job)
  }

  lemma {:induction false} BlockMembers(b: Dense, i: int, j: int, v: real, t: int, job: Job)
    requires 0 <= t && t % BLOCK == 0
    ensures job in BlockJobs(b.k, i, j, v, t) <==>
            job == Job(i, j, job.t, v) && t <= job.t < b.k && job.t % BLOCK == 0
    decreases b.k - t
  {
    if t < b.k {
      BlockMembers(b, i, j, v, t + BLOCK, job);
    }
  }

  lemma {:induction false} RowMembers(a: Csr, b: Dense, i: int, x: int, end: int, job: Job)
    requires 0 <= x && end <= |a.cols| == |a.vals|
    ensures job in RowJobs(a, b.k, i, x, end) <==>
            job.i == i && 0 <= job.t < b.k && job.t % BLOCK == 0 &&
            exists y :: x <= y < end && job.j == a.cols[y] && job.v == a.vals[y]
    decreases end - x
  {
    if x < end {
      BlockMembers(b, i, a.cols[x], a.vals[x], 0, job);
      RowMembers(a, b, i, x + 1, end, job);
    }
  }

  lemma {:induction false} JobsAreProper(a: Csr, b: Dense, from: int, job: Job)
    requires WellFormed(a, b) && 0 <= from <= RowCount(a) && job in JobsFrom(a, b, from)
    ensures Proper(b, RowCount(a), job)
    decreases RowCount(a) - from
  {
    RowMembers(a, b, from, a.rows[from], a.rows[from + 1], job);
    if job !in RowJobs(a, b.k, from, a.rows[from], a.rows[from + 1]) {
      JobsAreProper(a, b, from + 1, job);
    }
  }

  lemma {:induction false} JobsHaveRow(a: Csr, b: Dense, from: int, i: int, job: Job)
    requires WellFormed(a, b) && 0 <= from <= i < RowCount(a) && job in RowJobs(a, b.k, i, a.rows[i], a.rows[i + 1])
    ensures job in JobsFrom(a, b, from)
    decreases i - from
  {
    assert JobsFrom(a, b, from) == RowJobs(a, b.k, from, a.rows[from], a.rows[from + 1]) + JobsFrom(a, b, from + 1);
    if from < i {
      JobsHaveRow(a, b, from + 1, i, job);
    }
  }

  /** What a caller can check: the width is a multiple of 16, or all nonzeros are in the last column. */
  ghost predicate Aligned(a: Csr, b: Dense)
    requires WellFormed(a, b)
  {
    b.k % BLOCK == 0 ||
    forall i, x {:trigger a.rows[i], a.cols[x]} :: 0 <= i < RowCount(a) && a.rows[i] <= x < a.rows[i + 1] ==>
      a.cols[x] == b.n - 1
  }

  lemma AlignedIffAllFit(a: Csr, b: Dense)
    requires WellFormed(a, b) && b.Valid()
    ensures AllFit(a, b) <==> Aligned(a, b)
  {
    if Aligned(a, b) {
      forall job | job in JobsFrom(a, b, 0)
        ensures BlockFits(b, job)
      {
        JobsAreProper(a, b, 0, job);
        if b.k % BLOCK != 0 {
          LastColumn(a, b, 0, job);
        }
      }
    } else {
      var i, x :| 0 <= i < RowCount(a) && a.rows[i] <= x < a.rows[i + 1] && a.cols[x] != b.n - 1;
      ShortBlock(a, b, i, x);
    }
  }

  /** A row of B that is not the last, and not a whole number of blocks wide, has a block that does not fit. */
  lemma ShortBlock(a: Csr, b: Dense, i: int, x: int)
    requires WellFormed(a, b) && b.Valid() && b.k % BLOCK != 0
    requires 0 <= i < RowCount(a) && a.rows[i] <= x < a.rows[i + 1] && a.cols[x] != b.n - 1
    ensures !AllFit(a, b)
  {
    var job := Job(i, a.cols[x], b.k - b.k % BLOCK, a.vals[x]);
    RowMembers(a, b, i, a.rows[i], a.rows[i + 1], job);
    JobsHaveRow(a, b, 0, i, job);
    assert !BlockFits(b, job);
  }

  lemma {:induction false} LastColumn(a: Csr, b: Dense, from: int, job: Job)
    requires WellFormed(a, b) && 0 <= from <= RowCount(a) && job in JobsFrom(a, b, from)
    requires forall i, x {:trigger a.rows[i], a.cols[x]} ::
               0 <= i < RowCount(a) && a.rows[i] <= x < a.rows[i + 1] ==> a.cols[x] == b.n - 1
    ensures job.j == b.n - 1
    decreases RowCount(a) - from
  {
    RowMembers(a, b, from, a.rows[from], a.rows[from + 1], job);
    if job in RowJobs(a, b.k, from, a.rows[from], a.rows[from + 1]) {
      var y :| a.rows[from] <= y < a.rows[from + 1] && job.j == a.cols[y] && job.v == a.vals[y];
    } else {
      LastColumn(a, b, from + 1, job);
    }
  }

  // -- Jobs in the DRAM and in live events ----------------------------------------------------

  ghost function Copies(a: int, n: nat): multiset<int> {
    multiset{}[a := n]
  }

  lemma CopiesAdd(a: int, x: nat, y: nat)
    ensures Copies(a, x) + Copies(a, y) == Copies(a, x + y)
    ensures Copies(a, 1) == multiset{a} && Copies(a, 0) == multiset{}
  {
  }

  /** The reads that the jobs in `m` stand for, under each closure. */
  ghost function Expected(b: Dense, m: multiset<Job>, c: Closure<Job>): multiset<int> {
    if c.Record? && c.core == 0 && c.user.Some? then Copies(AddrOf(b, c.user.value), m[c.user.value]) else multiset{}
  }

  ghost predicate Carries<E>(b: Dense, flight: Flight<E, Job>, e: E, m: multiset<Job>) {
    forall c: Closure<Job> :: flight(e, c) == Expected(b, m, c)
  }

  ghost function CallBag(q: seq<Entry<Tag<Job, ()>>>): multiset<Job> {
    if q == [] then multiset{}
    else (if q[0].what.Call? then multiset{q[0].what.cb} else multiset{}) + CallBag(q[1..])
  }

  /** Every live completion carries the address of its own job. */
  ghost predicate OwnAddr(b: Dense, q: seq<Entry<Tag<Job, ()>>>) {
    q == [] || ((q[0].what.Call? ==> q[0].what.info.addr == AddrOf(b, q[0].what.cb)) && OwnAddr(b, q[1..]))
  }

  ghost function NoteJobs(ns: seq<Note<Job>>): multiset<Job> {
    if ns == [] then multiset{}
    else (if ns[0].user.Some? then multiset{ns[0].user.value} else multiset{}) + NoteJobs(ns[1..])
  }

  ghost predicate OwnNotes(b: Dense, ns: seq<Note<Job>>) {
    ns == [] ||
    (ns[0].user.Some? && ns[0].info.addr == AddrOf(b, ns[0].user.value) && OwnNotes(b, ns[1..]))
  }

  ghost predicate DevOk<E>(cfg: Config, g: SpEng<E>, b: Dense, flight: Flight<E, Job>, d: SpDev<E>, m: multiset<Job>) {
    && ChainInv(cfg, g, d) && !cfg.idleRefresh && CoreOk(cfg, 0)
    && Carries(b, flight, d.mem, m) && OwnAddr(b, d.agenda)
  }

  lemma {:induction false} InsertCalls(b: Dense, q: seq<Entry<Tag<Job, ()>>>, e: Entry<Tag<Job, ()>>)
    requires OwnAddr(b, q) && (e.what.Call? ==> e.what.info.addr == AddrOf(b, e.what.cb))
    ensures OwnAddr(b, Insert(q, e))
    ensures CallBag(Insert(q, e)) == CallBag(q) + (if e.what.Call? then multiset{e.what.cb} else multiset{})
  {
    if q != [] && NotAfter(q[0], e) {
      InsertCalls(b, q[1..], e);
      assert Insert(q, e)[1..] == Insert(q[1..], e);
    } else {
      assert ([e] + q)[1..] == q;
    }
  }

  lemma StartTickingCalls<E>(cfg: Config, b: Dense, d: SpDev<E>)
    requires !d.idleTicking && OwnAddr(b, d.agenda)
    ensures OwnAddr(b, StartTicking(cfg, d).agenda) && CallBag(StartTicking(cfg, d).agenda) == CallBag(d.agenda)
  {
    if !d.ticking {
      InsertCalls(b, d.agenda, Entry(d.now + 1 * cfg.period, 0, Tag.Tick));
    }
  }

  /** A read either enters the DRAM or is refused, and it is refused only while some job is there. */
  lemma ReadEffect<E(!new)>(
    cfg: Config, g: SpEng<E>, b: Dense, flight: Flight<E, Job>, d: SpDev<E>, m: multiset<Job>, job: Job)
    requires GoodEngine(cfg, g, flight) && DevOk(cfg, g, b, flight, d, m)
    ensures var (r, res) := Device.Read(cfg, g, d, AddrOf(b, job), 0, Some(job));
            && res.Ok? && CallBag(r.agenda) == CallBag(d.agenda)
            && (res.value ==> DevOk(cfg, g, b, flight, r, m + multiset{job}))
            && (!res.value ==> DevOk(cfg, g, b, flight, r, m) && m != multiset{})
  {
    assert Inside(Layer.Lists, true);
    ReadKeeps(cfg, g, d, AddrOf(b, job), 0, Some(job));
    var (d1, ok) := Send(g, d, AddrOf(b, job), READ, 0, Some(job));
    StartTickingCalls(cfg, b, d1);
    var req := Request(AddrOf(b, job), READ, 0, Record(0, Some(job)));
    if ok {
      SentCarries(g, b, flight, d.mem, m, job);
    } else {
      assert Carries(b, flight, d1.mem, m);
      assert req.kind == READ && !g.send(d.mem, req).1;
      var c :| flight(d.mem, c) != multiset{};
      assert Expected(b, m, c) != multiset{};
      assert m[c.user.value] > 0;
    }
  }

  lemma SentCarries<E(!new)>(g: SpEng<E>, b: Dense, flight: Flight<E, Job>, e: E, m: multiset<Job>, job: Job)
    requires Honest(g, flight) && Carries(b, flight, e, m)
    requires g.send(e, Request(AddrOf(b, job), READ, 0, Record(0, Some(job)))).1
    ensures Carries(b, flight, g.send(e, Request(AddrOf(b, job), READ, 0, Record(0, Some(job)))).0, m + multiset{job})
  {
    var req := Request(AddrOf(b, job), READ, 0, Record(0, Some(job)));
    var e' := g.send(e, req).0;
    var had, one := m[job], AddrOf(b, job);
    forall c: Closure<Job>
      ensures flight(e', c) == Expected(b, m + multiset{job}, c)
    {
      assert flight(e, c) == Expected(b, m, c);
      if c == req.closure {
        CopiesAdd(one, had, 1);
        assert Copies(one, 1) == multiset{one};
      } else {
        NothingAdded(b, m, job, c);
      }
    }
  }

  lemma NothingAdded(b: Dense, m: multiset<Job>, job: Job, c: Closure<Job>)
    requires c != Record(0, Some(job))
    ensures Expected(b, m + multiset{job}, c) == Expected(b, m, c)
  {
  }

  /** A served read of one of these jobs. */
  ghost predicate OwnRead(b: Dense, r: Served<Job>) {
    r.closure.Record? && r.closure.core == 0 && r.closure.user.Some? && r.addr == AddrOf(b, r.closure.user.value)
  }

  ghost predicate OwnReads(b: Dense, s: seq<Served<Job>>) {
    s == [] || (OwnRead(b, s[0]) && OwnReads(b, s[1..]))
  }

  lemma {:induction false} OwnReadsFrom(b: Dense, s: seq<Served<Job>>)
    requires forall i :: 0 <= i < |s| ==> OwnRead(b, s[i])
    ensures OwnReads(b, s)
  {
    if s != [] {
      assert OwnRead(b, s[0]);
      OwnReadsFrom(b, s[1..]);
    }
  }

  lemma {:induction false} ServedOwn(b: Dense, s: seq<Served<Job>>)
    requires OwnReads(b, s)
    ensures OwnNotes(b, Recorded(s))
  {
    if s != [] {
      ServedOwn(b, s[1..]);
      assert Recorded(s)[1..] == Recorded(s[1..]);
    }
  }

  lemma {:induction false} ServedJobs(b: Dense, s: seq<Served<Job>>, k: Job)
    requires OwnReads(b, s)
    ensures ServedUnder(s, Record(0, Some(k))) == Copies(AddrOf(b, k), NoteJobs(Recorded(s))[k])
  {
    if s == [] {
      CopiesAdd(AddrOf(b, k), 0, 0);
    } else {
      ServedJobs(b, s[1..], k);
      assert Recorded(s)[1..] == Recorded(s[1..]);
      var job := s[0].closure.user.value;
      CopiesAdd(AddrOf(b, k), if job == k then 1 else 0, NoteJobs(Recorded(s[1..]))[k]);
      assert s[0].closure == Record(0, Some(k)) <==> job == k;
    }
  }

  lemma ServedAreOwn<E(!new)>(g: SpEng<E>, b: Dense, flight: Flight<E, Job>, e: E, m: multiset<Job>)
    requires Honest(g, flight) && Carries(b, flight, e, m)
    ensures OwnReads(b, g.tick(e).1)
  {
    var (e', s) := g.tick(e);
    forall i | 0 <= i < |s|
      ensures OwnRead(b, s[i])
    {
      ServedMember(s, i);
      assert flight(e, s[i].closure) == flight(e', s[i].closure) + ServedUnder(s, s[i].closure);
      assert s[i].addr in Expected(b, m, s[i].closure);
    }
    OwnReadsFrom(b, s);
  }

  lemma LessCopies(a: int, x: nat, y: nat, rest: multiset<int>)
    requires Copies(a, x) == rest + Copies(a, y)
    ensures y <= x && rest == Copies(a, x - y)
  {
    assert Copies(a, x)[a] == (rest + Copies(a, y))[a];
    forall i
      ensures rest[i] == Copies(a, x - y)[i]
    {
      assert Copies(a, x)[i] == (rest + Copies(a, y))[i];
    }
  }

  /** What one tick leaves under one job's closure, and under any other closure. */
  lemma CycleForJob<E(!new)>(g: SpEng<E>, b: Dense, flight: Flight<E, Job>, e: E, m: multiset<Job>, k: Job)
    requires Honest(g, flight) && Carries(b, flight, e, m)
    ensures var (e', s) := g.tick(e); var served := NoteJobs(Recorded(s));
            served[k] <= m[k] && flight(e', Record(0, Some(k))) == Copies(AddrOf(b, k), m[k] - served[k])
  {
    var (e', s) := g.tick(e);
    ServedAreOwn(g, b, flight, e, m);
    ServedJobs(b, s, k);
    var c := Record(0, Some(k));
    assert flight(e, c) == flight(e', c) + ServedUnder(s, c);
    assert flight(e, c) == Expected(b, m, c);
    LessCopies(AddrOf(b, k), m[k], NoteJobs(Recorded(s))[k], flight(e', c));
  }

  lemma CycleForOther<E(!new)>(g: SpEng<E>, b: Dense, flight: Flight<E, Job>, e: E, m: multiset<Job>, c: Closure<Job>)
    requires Honest(g, flight) && Carries(b, flight, e, m)
    requires !(c.Record? && c.core == 0 && c.user.Some?)
    ensures flight(g.tick(e).0, c) == multiset{}
  {
    assert flight(e, c) == flight(g.tick(e).0, c) + ServedUnder(g.tick(e).1, c);
    assert flight(e, c) == Expected(b, m, c);
  }

  /** What one tick leaves under any closure: the jobs it did not serve. */
  lemma CycleLeaves<E(!new)>(
    g: SpEng<E>, b: Dense, flight: Flight<E, Job>, e: E, m: multiset<Job>, m': multiset<Job>, c: Closure<Job>)
    requires Honest(g, flight) && Carries(b, flight, e, m) && m' == m - NoteJobs(Recorded(g.tick(e).1))
    ensures flight(g.tick(e).0, c) == Expected(b, m', c)
  {
    if c.Record? && c.core == 0 && c.user.Some? {
      CycleForJob(g, b, flight, e, m, c.user.value);
      assert c == Record(0, Some(c.user.value));
    } else {
      CycleForOther(g, b, flight, e, m, c);
    }
  }

  lemma CycleEffect<E(!new)>(
    g: SpEng<E>, b: Dense, flight: Flight<E, Job>, e: E, m: multiset<Job>) returns (m': multiset<Job>)
    requires Honest(g, flight) && Carries(b, flight, e, m)
    ensures var (e', s) := g.tick(e);
            Carries(b, flight, e', m') && OwnNotes(b, Recorded(s)) && m == m' + NoteJobs(Recorded(s))
  {
    ServedAreOwn(g, b, flight, e, m);
    ServedOwn(b, g.tick(e).1);
    var served := NoteJobs(Recorded(g.tick(e).1));
    forall k: Job
      ensures served[k] <= m[k]
    {
      CycleForJob(g, b, flight, e, m, k);
    }
    m' := m - served;
    TakenAway(m, served);
    forall c: Closure<Job>
      ensures flight(g.tick(e).0, c) == Expected(b, m', c)
    {
      CycleLeaves(g, b, flight, e, m, m', c);
    }
  }

  lemma TakenAway<X>(m: multiset<X>, part: multiset<X>)
    requires forall x :: part[x] <= m[x]
    ensures m == (m - part) + part
  {
  }

  lemma {:induction false} BurstEffect<E(!new)>(
    g: SpEng<E>, b: Dense, flight: Flight<E, Job>, e: E, m: multiset<Job>, max: nat)
    returns (m': multiset<Job>)
    requires Honest(g, flight) && Carries(b, flight, e, m) && 1 <= max
    ensures var r := UntilProgress(g, e, max);
            Carries(b, flight, r.mem, m') && OwnNotes(b, r.notes) && m == m' + NoteJobs(r.notes)
    decreases max
  {
    m' := CycleEffect(g, b, flight, e, m);
    var (e', s) := g.tick(e);
    if !Progress(g, e', s) && max != 1 {
      assert m == m';
      m' := BurstEffect(g, b, flight, e', m, max - 1);
    }
  }

  lemma {:induction false} DeliverEffect<E>(cfg: Config, b: Dense, d: SpDev<E>)
    requires OwnAddr(b, d.agenda) && OwnNotes(b, d.completed)
    ensures var r := Deliver(cfg, d);
            OwnAddr(b, r.agenda) && CallBag(r.agenda) == CallBag(d.agenda) + NoteJobs(d.completed) && r.mem == d.mem
    decreases |d.completed|
  {
    if d.completed != [] {
      var n := d.completed[0];
      var d1 := Post(cfg, d.(completed := d.completed[1..]), n.user.value, n.info);
      InsertCalls(b, d.agenda, Entry(d.now, cfg.priority, Tag.Call(n.user.value, n.info)));
      DeliverEffect(cfg, b, d1);
      assert (CallBag(d.agenda) + multiset{n.user.value}) + NoteJobs(d.completed[1..]) == CallBag(d.agenda) +
        NoteJobs(d.completed);
    }
  }

  lemma RescheduleCalls<E>(cfg: Config, b: Dense, d: SpDev<E>)
    requires OwnAddr(b, d.agenda)
    ensures var r := AfterCycles(cfg, d, 1, Tag.Tick); OwnAddr(b, r.agenda) && CallBag(r.agenda) == CallBag(d.agenda)
  {
    var e := Entry(d.now + 1 * cfg.period, 0, Tag.Tick);
    InsertCalls(b, d.agenda, e);
    assert AfterCycles(cfg, d, 1, Tag.Tick).agenda == Insert(d.agenda, e);
  }

  lemma SettleEffect<E(!new)>(cfg: Config, g: SpEng<E>, b: Dense, d: SpDev<E>, r: Burst<E, Job>, s: SpDev<E>)
    requires d.completed == [] && OwnNotes(b, r.notes) && OwnAddr(b, d.agenda) && !cfg.idleRefresh
    requires s == Settle(cfg, g, d, r)
    ensures OwnAddr(b, s.agenda) && CallBag(s.agenda) == CallBag(d.agenda) + NoteJobs(r.notes) && s.mem == r.mem
  {
    assert d.completed + r.notes == r.notes;
    DeliverEffect(cfg, b, Advance(cfg, d, r));
    RescheduleCalls(cfg, b, Deliver(cfg, Advance(cfg, d, r)));
  }

  /** A tick moves served jobs from the DRAM to live completion events. */
  lemma TickEffect<E(!new)>(
    cfg: Config, g: SpEng<E>, b: Dense, flight: Flight<E, Job>, d0: SpDev<E>, m: multiset<Job>)
    returns (m': multiset<Job>)
    requires GoodEngine(cfg, g, flight) && DevOk(cfg, g, b, flight, d0, m)
    requires d0.agenda != [] && d0.agenda[0].what == Tag.Tick
    ensures var d := Pop(d0);
            var r := TickBody(cfg, g, d, MaxBurst(cfg.period, d.now, NextTime(d.agenda), None));
            DevOk(cfg, g, b, flight, r, m') && m' + CallBag(r.agenda) == m + CallBag(d0.agenda)
  {
    assert Inside(Layer.Lists, true);
    var d := Pop(d0);
    var max := MaxBurst(cfg.period, d.now, NextTime(d.agenda), None);
    TickKeeps(cfg, g, d0, max, None);
    m' := BurstEffect(g, b, flight, d.mem, m, max);
    var r := UntilProgress(g, d.mem, max);
    SettleEffect(cfg, g, b, d, r, Settle(cfg, g, d, r));
  }

  // -- The invariant -------------------------------------------------------------------------

  /** Every request is pending, in the DRAM, in a live completion, or finished; the window holds. */
  ghost predicate Window<E>(a: Csr, b: Dense, s: Accel<E>, m: multiset<Job>)
    requires WellFormed(a, b)
  {
    && s.issued + s.pending == JobsFrom(a, b, 0)
    && multiset(s.issued) == m + CallBag(s.dev.agenda) + multiset(s.finished)
    && s.inflight == |m| + |CallBag(s.dev.agenda)| <= MAX_INFLIGHT
  }

  /** The accumulator holds exactly the finished jobs. */
  ghost predicate Accumulated<E>(a: Csr, b: Dense, s: Accel<E>) {
    && |s.acc| == RowCount(a)
    && (forall i :: 0 <= i < |s.acc| ==> |s.acc[i]| == b.k)
    && (forall i, c :: 0 <= i < |s.acc| && 0 <= c < |s.acc[i]| ==> s.acc[i][c] == Sum(b, s.finished, i, c))
    && (forall job :: job in s.finished ==> BlockFits(b, job))
  }

  ghost predicate Inv<E>(
    cfg: Config, g: SpEng<E>, a: Csr, b: Dense, flight: Flight<E, Job>, s: Accel<E>, m: multiset<Job>) {
    && WellFormed(a, b) && b.Valid() && !s.raised
    && forall u :: Inside(Layer.Sums, u) ==>
         && DevOk(cfg, g, b, flight, s.dev, m) && Window(a, b, s, m) && Accumulated(a, b, s)
         && (s.pending != [] ==> s.inflight > 0)
  }

  lemma InvChains<E>(cfg: Config, g: SpEng<E>, a: Csr, b: Dense, flight: Flight<E, Job>, s: Accel<E>, m: multiset<Job>)
    requires Inv(cfg, g, a, b, flight, s, m)
    ensures ChainInv(cfg, g, s.dev)
  {
    assert Inside(Layer.Sums, true);
  }

  lemma WindowGrows<E>(a: Csr, b: Dense, s: Accel<E>, m: multiset<Job>, d: SpDev<E>) returns (s1: Accel<E>)
    requires WellFormed(a, b) && Window(a, b, s, m) && s.inflight < MAX_INFLIGHT && s.pending != []
    requires CallBag(d.agenda) == CallBag(s.dev.agenda)
    ensures s1 == s.(dev := d, pending := s.pending[1..], inflight := s.inflight + 1, issued := s.issued +
            [s.pending[0]])
    ensures Window(a, b, s1, m + multiset{s.pending[0]})
  {
    s1 := s.(dev := d, pending := s.pending[1..], inflight := s.inflight + 1, issued := s.issued + [s.pending[0]]);
    assert s1.issued + s1.pending == s.issued + s.pending;
    assert multiset(s1.issued) == multiset(s.issued) + multiset{s.pending[0]};
  }

  lemma IssueRound<E>(cfg: Config, g: SpEng<E>, b: Dense, s: Accel<E>)
    requires s.inflight < MAX_INFLIGHT && s.pending != []
    ensures var job := s.pending[0];
            var (d, ok) := Device.Read(cfg, g, s.dev, AddrOf(b, job), 0, Some(job));
            Issue(cfg, g, b, s) ==
              if ok == Ok(true) then
                Issue(cfg, g, b, s.(dev := d, pending := s.pending[1..], inflight := s.inflight + 1,
                  issued := s.issued + [job]))
              else s.(dev := d)
  {
  }

  /** The issue loop keeps the window and leaves requests waiting only while some are in flight. */
  lemma {:induction false} IssueKeeps<E(!new)>(
    cfg: Config, g: SpEng<E>, a: Csr, b: Dense, flight: Flight<E, Job>, s: Accel<E>, m: multiset<Job>)
    returns (r: Accel<E>, m': multiset<Job>)
    requires GoodEngine(cfg, g, flight) && WellFormed(a, b)
    requires DevOk(cfg, g, b, flight, s.dev, m) && Window(a, b, s, m)
    ensures r == Issue(cfg, g, b, s)
    ensures DevOk(cfg, g, b, flight, r.dev, m') && Window(a, b, r, m')
    ensures r.acc == s.acc && r.finished == s.finished && r.raised == s.raised
    ensures r.pending != [] ==> r.inflight > 0
    decreases |s.pending|
  {
    r, m' := s, m;
    if s.inflight < MAX_INFLIGHT && s.pending != [] {
      var job := s.pending[0];
      IssueRound(cfg, g, b, s);
      ReadEffect(cfg, g, b, flight, s.dev, m, job);
      var (d, ok) := Device.Read(cfg, g, s.dev, AddrOf(b, job), 0, Some(job));
      if ok == Ok(true) {
        var s1 := WindowGrows(a, b, s, m, d);
        r, m' := IssueKeeps(cfg, g, a, b, flight, s1, m + multiset{job});
      } else {
        assert |m| > 0;
        r := s.(dev := d);
      }
    }
  }

  /** The block added is the finished job's term, in every element. */
  lemma AddedBlock(b: Dense, row: seq<real>, job: Job, i: int, c: int, blk: seq<real>)
    requires b.Valid() && 0 <= job.j < b.n && 0 <= job.t < b.k
    requires BlockFits(b, job) && |row| == b.k && 0 <= c < b.k && i == job.i
    requires SlicesAgree(b, job.j * b.k + job.t, job.t)
    requires blk == BlockAt(b, job.j * b.k + job.t)
    ensures AddBlock(row, job.t, job.v, blk)[c] == row[c] + Term(b, job, i, c)
  {
    InImage(b, job.j, job.t);
    InImage(b, job.j, c);
  }

  // -- The events -----------------------------------------------------------------------------

  lemma PopCall<E>(cfg: Config, g: SpEng<E>, a: Csr, b: Dense, flight: Flight<E, Job>, s: Accel<E>, m: multiset<Job>)
    requires Inv(cfg, g, a, b, flight, s, m) && s.dev.agenda != [] && s.dev.agenda[0].what.Call?
    ensures var job := s.dev.agenda[0].what.cb;
            && s.dev.agenda[0].what.info.addr == AddrOf(b, job) && job in JobsFrom(a, b, 0)
            && DevOk(cfg, g, b, flight, Pop(s.dev), m)
            && CallBag(s.dev.agenda) == multiset{job} + CallBag(Pop(s.dev).agenda)
  {
    assert Inside(Layer.Sums, true);
    var job := s.dev.agenda[0].what.cb;
    PopFrame(s.dev);
    assert job in CallBag(s.dev.agenda);
    assert job in multiset(s.issued);
    assert job in s.issued;
    assert job in s.issued + s.pending;
  }

  lemma OffsetOfAddr(b: Dense, job: Job)
    ensures OffsetOf(AddrOf(b, job)) == job.j * b.k + job.t
  {
  }

  /** A finished job: its own block of B goes into its own block of the accumulator. */
  lemma FinishKeeps<E>(b: Dense, a: Csr, s: Accel<E>, job: Job, acc: seq<seq<real>>, blk: seq<real>)
    requires WellFormed(a, b) && b.Valid() && Accumulated(a, b, s) && Proper(b, RowCount(a), job) && BlockFits(b, job)
    requires SlicesAgree(b, job.j * b.k + job.t, job.t)
    requires blk == BlockAt(b, job.j * b.k + job.t)
    requires acc == s.acc[job.i := AddBlock(s.acc[job.i], job.t, job.v, blk)]
    ensures Accumulated(a, b, s.(acc := acc, finished := s.finished + [job]))
  {
    forall i, c | 0 <= i < |acc| && 0 <= c < |acc[i]|
      ensures acc[i][c] == Sum(b, s.finished + [job], i, c)
    {
      SumAppend(b, s.finished, [job], i, c);
      assert Sum(b, [job], i, c) == Term(b, job, i, c);
      if i == job.i {
        AddedBlock(b, s.acc[i], job, i, c, blk);
      }
    }
  }

  /** Handling a completion, spelled out for a job of the request list. */
  lemma CompleteIs<E>(
    cfg: Config, g: SpEng<E>, a: Csr, b: Dense, s: Accel<E>, job: Job, m: int) returns (acc: seq<seq<real>>)
    requires b.Valid() && Proper(b, m, job) && |s.acc| == m
    ensures OnComplete(cfg, g, b, s, AddrOf(b, job), job) ==
            if !BlockFits(b, job) then s.(inflight := s.inflight - 1, raised := true)
            else Issue(cfg, g, b, s.(inflight := s.inflight - 1, acc := acc, finished := s.finished + [job]))
    ensures BlockFits(b, job) && WellFormed(a, b) && m == RowCount(a) && Accumulated(a, b, s) ==>
            Accumulated(a, b, s.(acc := acc, finished := s.finished + [job]))
  {
    OffsetOfAddr(b, job);
    InImage(b, job.j, job.t);
    FitsWhenAgree(b, m, job);
    var blk := BlockAt(b, job.j * b.k + job.t);
    acc := s.acc[job.i := AddBlock(s.acc[job.i], job.t, job.v, blk)];
    if BlockFits(b, job) && WellFormed(a, b) && m == RowCount(a) && Accumulated(a, b, s) {
      FinishKeeps(b, a, s, job, acc, blk);
    }
  }

  /** A completion either adds its block and goes on issuing, or is refused because its block does not fit. */
  lemma CompleteKeeps<E(!new)>(
    cfg: Config, g: SpEng<E>, a: Csr, b: Dense, flight: Flight<E, Job>, s: Accel<E>, m: multiset<Job>, r: Accel<E>)
    returns (m': multiset<Job>)
    requires GoodEngine(cfg, g, flight) && Inv(cfg, g, a, b, flight, s, m)
    requires s.dev.agenda != [] && s.dev.agenda[0].what.Call?
    requires r == OnComplete(cfg, g, b, s.(dev := Pop(s.dev)), s.dev.agenda[0].what.info.addr, s.dev.agenda[0].what.cb)
    ensures r.raised ==> !AllFit(a, b)
    ensures !r.raised ==> Inv(cfg, g, a, b, flight, r, m')
  {
    assert Inside(Layer.Sums, true);
    var job := s.dev.agenda[0].what.cb;
    PopCall(cfg, g, a, b, flight, s, m);
    var s1 := s.(dev := Pop(s.dev));
    SameAccumulated(a, b, s, s1);
    var s2 := Taken(cfg, g, a, b, s1, job);
    m' := m;
    if BlockFits(b, job) {
      m' := GoOn(cfg, g, a, b, flight, s, m, job, s2, r);
    }
  }

  /** The state in which a fitting completion goes on to issue. */
  lemma Taken<E(!new)>(cfg: Config, g: SpEng<E>, a: Csr, b: Dense, s1: Accel<E>, job: Job) returns (s2: Accel<E>)
    requires WellFormed(a, b) && b.Valid() && Accumulated(a, b, s1) && job in JobsFrom(a, b, 0)
    ensures var r := OnComplete(cfg, g, b, s1, AddrOf(b, job), job);
            if BlockFits(b, job) then r == Issue(cfg, g, b, s2) else r.raised && !AllFit(a, b)
    ensures s2 == s1.(inflight := s1.inflight - 1, acc := s2.acc, finished := s1.finished + [job])
    ensures BlockFits(b, job) ==> Accumulated(a, b, s1.(acc := s2.acc, finished := s2.finished))
  {
    JobsAreProper(a, b, 0, job);
    var acc := CompleteIs(cfg, g, a, b, s1, job, RowCount(a));
    s2 := s1.(inflight := s1.inflight - 1, acc := acc, finished := s1.finished + [job]);
  }

  lemma GoOn<E(!new)>(
    cfg: Config, g: SpEng<E>, a: Csr, b: Dense, flight: Flight<E, Job>, s: Accel<E>, m: multiset<Job>, job: Job,
    s2: Accel<E>, r: Accel<E>)
    returns (m': multiset<Job>)
    requires GoodEngine(cfg, g, flight) && WellFormed(a, b) && b.Valid() && Window(a, b, s, m) && !s.raised
    requires s2 == s.(dev := s2.dev, inflight := s.inflight - 1, acc := s2.acc, finished := s.finished + [job])
    requires CallBag(s.dev.agenda) == multiset{job} + CallBag(s2.dev.agenda)
    requires DevOk(cfg, g, b, flight, s2.dev, m)
    requires Accumulated(a, b, s.(dev := s2.dev, acc := s2.acc, finished := s2.finished))
    requires r == Issue(cfg, g, b, s2)
    ensures !r.raised && Inv(cfg, g, a, b, flight, r, m')
  {
    WindowAfter(a, b, s, m, s2, job);
    var r2;
    r2, m' := IssueKeeps(cfg, g, a, b, flight, s2, m);
    SameAccumulated(a, b, s.(dev := s2.dev, acc := s2.acc, finished := s2.finished), r);
  }

  lemma SameAccumulated<E>(a: Csr, b: Dense, s: Accel<E>, r: Accel<E>)
    requires Accumulated(a, b, s) && r.acc == s.acc && r.finished == s.finished
    ensures Accumulated(a, b, r)
  {
  }

  lemma WindowAfter<E>(a: Csr, b: Dense, s: Accel<E>, m: multiset<Job>, s2: Accel<E>, job: Job)
    requires WellFormed(a, b) && Window(a, b, s, m)
    requires s2 == s.(dev := s2.dev, inflight := s.inflight - 1, acc := s2.acc, finished := s.finished + [job])
    requires CallBag(s.dev.agenda) == multiset{job} + CallBag(s2.dev.agenda)
    ensures Window(a, b, s2, m)
  {
  }

  lemma TickKeepsInv<E(!new)>(
    cfg: Config, g: SpEng<E>, a: Csr, b: Dense, flight: Flight<E, Job>, s: Accel<E>, m: multiset<Job>, r: Accel<E>)
    returns (m': multiset<Job>)
    requires GoodEngine(cfg, g, flight) && Inv(cfg, g, a, b, flight, s, m)
    requires s.dev.agenda != [] && s.dev.agenda[0].what == Tag.Tick
    requires var d := Pop(s.dev);
             r == s.(dev := TickBody(cfg, g, d, MaxBurst(cfg.period, d.now, NextTime(d.agenda), None)))
    ensures Inv(cfg, g, a, b, flight, r, m')
  {
    assert Inside(Layer.Sums, true);
    m' := TickEffect(cfg, g, b, flight, s.dev, m);
    assert |m'| + |CallBag(r.dev.agenda)| == |m' + CallBag(r.dev.agenda)| == |m + CallBag(s.dev.agenda)|;
    SameAccumulated(a, b, s, r);
  }

  lemma UserKeepsInv<E(!new)>(
    cfg: Config, g: SpEng<E>, a: Csr, b: Dense, flight: Flight<E, Job>, s: Accel<E>, m: multiset<Job>)
    requires Inv(cfg, g, a, b, flight, s, m) && s.dev.agenda != [] && s.dev.agenda[0].what.User?
    ensures Inv(cfg, g, a, b, flight, s.(dev := Pop(s.dev)), m)
  {
    assert Inside(Layer.Sums, true);
    PopFrame(s.dev);
    assert CallBag(Pop(s.dev).agenda) == CallBag(s.dev.agenda);
    SameAccumulated(a, b, s, s.(dev := Pop(s.dev)));
  }

  lemma StepKeeps<E(!new)>(
    cfg: Config, g: SpEng<E>, a: Csr, b: Dense, flight: Flight<E, Job>, s: Accel<E>, m: multiset<Job>, r: Accel<E>)
    returns (m': multiset<Job>)
    requires GoodEngine(cfg, g, flight) && Inv(cfg, g, a, b, flight, s, m) && s.dev.agenda != []
    requires r == Step(cfg, g, b, s)
    ensures r.raised ==> !AllFit(a, b)
    ensures !r.raised ==> Inv(cfg, g, a, b, flight, r, m')
  {
    assert Inside(Layer.Sums, true);
    var t := s.dev.agenda[0].what;
    WhatsMember(s.dev.agenda, 0);
    if t.Tick? {
      m' := TickKeepsInv(cfg, g, a, b, flight, s, m, r);
    } else if t.Call? {
      m' := CompleteKeeps(cfg, g, a, b, flight, s, m, r);
    } else {
      UserKeepsInv(cfg, g, a, b, flight, s, m);
      m' := m;
    }
  }

  lemma {:induction false} RunKeeps<E(!new)>(
    cfg: Config, g: SpEng<E>, a: Csr, b: Dense, flight: Flight<E, Job>, s: Accel<E>, m: multiset<Job>, n: nat,
    end: Accel<E>)
    returns (m': multiset<Job>)
    requires GoodEngine(cfg, g, flight) && Inv(cfg, g, a, b, flight, s, m) && end == Run(cfg, g, b, s, n)
    ensures end.raised ==> !AllFit(a, b)
    ensures !end.raised ==> Inv(cfg, g, a, b, flight, end, m')
    decreases n
  {
    m' := m;
    if n > 0 && s.dev.agenda != [] {
      var s1 := Step(cfg, g, b, s);
      var m1 := StepKeeps(cfg, g, a, b, flight, s, m, s1);
      if s1.raised {
        assert end == s1;
      } else {
        m' := RunKeeps(cfg, g, a, b, flight, s1, m1, n - 1, end);
      }
    }
  }

  lemma StartKeeps<E(!new)>(
    cfg: Config, g: SpEng<E>, a: Csr, b: Dense, flight: Flight<E, Job>, d: SpDev<E>) returns (m: multiset<Job>)
    requires GoodEngine(cfg, g, flight) && WellFormed(a, b) && b.Valid() && Quiet(cfg, g, d) && CoreOk(cfg, 0)
    ensures Inv(cfg, g, a, b, flight, Start(cfg, g, a, b, d), m)
  {
    assert Inside(Layer.Lists, true);
    assert !d.ticking && g.pending(d.mem) == 0;
    var s := Accel(d, JobsFrom(a, b, 0), 0, Zeros(RowCount(a), b.k), false, [], []);
    assert forall c: Closure<Job> :: flight(d.mem, c) == multiset{} == Expected(b, multiset{}, c);
    assert s.issued + s.pending == JobsFrom(a, b, 0);
    var r;
    r, m := IssueKeeps(cfg, g, a, b, flight, s, multiset{});
    SameAccumulated(a, b, s, r);
  }

  // -- Main results ----------------------------------------------------------------------------

  /** At quiescence every request was issued and has finished, so the accumulator is the product. */
  lemma QuietMeansProduct<E(!new)>(
    cfg: Config, g: SpEng<E>, a: Csr, b: Dense, flight: Flight<E, Job>, s: Accel<E>, m: multiset<Job>)
    requires GoodEngine(cfg, g, flight) && Inv(cfg, g, a, b, flight, s, m) && s.dev.agenda == []
    ensures s.pending == [] && s.inflight == 0
    ensures AllFit(a, b)
    ensures |s.acc| == RowCount(a) && forall i :: 0 <= i < RowCount(a) ==> |s.acc[i]| == b.k
    ensures forall i, c :: 0 <= i < RowCount(a) && 0 <= c < b.k ==> s.acc[i][c] == MatMul(a, b, i, c)
  {
    assert Inside(Layer.Sums, true);
    NothingLeft(cfg, g, b, flight, s, m);
    assert s.issued == s.issued + [] == JobsFrom(a, b, 0);
    assert multiset(s.issued) == multiset(s.finished);
    forall job | job in JobsFrom(a, b, 0)
      ensures BlockFits(b, job)
    {
      assert job in multiset(s.finished);
    }
    forall i, c | 0 <= i < RowCount(a) && 0 <= c < b.k
      ensures s.acc[i][c] == MatMul(a, b, i, c)
    {
      SumIgnoresOrder(b, s.finished, s.issued, i, c);
      JobsSum(a, b, 0, i, c);
      RowDotIsProduct(a, b, c, a.rows[i], a.rows[i + 1]);
    }
  }

  lemma WindowHolds<E>(
    cfg: Config, g: SpEng<E>, a: Csr, b: Dense, flight: Flight<E, Job>, s: Accel<E>, m: multiset<Job>)
    requires Inv(cfg, g, a, b, flight, s, m)
    ensures 0 <= s.inflight <= 16
  {
    assert Inside(Layer.Sums, true);
  }

  lemma NothingLeft<E(!new)>(cfg: Config, g: SpEng<E>, b: Dense, flight: Flight<E, Job>, s: Accel<E>, m: multiset<Job>)
    requires GoodEngine(cfg, g, flight) && DevOk(cfg, g, b, flight, s.dev, m) && s.dev.agenda == []
    ensures m == multiset{}
  {
    assert Inside(Layer.Lists, true);
    assert !s.dev.ticking;
    forall job
      ensures m[job] == 0
    {
      var c := Record(0, Some(job));
      assert flight(s.dev.mem, c) == Expected(b, m, c);
      assert Copies(AddrOf(b, job), m[job])[AddrOf(b, job)] == m[job];
    }
  }

  /** In every reachable state at most 16 reads are in flight, and when no event is left the result is
      A times B; an exception is possible only when some block of B does not fit. */
  lemma SpmmIsProduct<E(!new)>(
    cfg: Config, g: SpEng<E>, a: Csr, b: Dense, flight: Flight<E, Job>, d: SpDev<E>, n: nat)
    requires GoodEngine(cfg, g, flight) && WellFormed(a, b) && b.Valid() && Quiet(cfg, g, d) && CoreOk(cfg, 0)
    ensures var s := Run(cfg, g, b, Start(cfg, g, a, b, d), n);
            && (s.raised ==> !Aligned(a, b))
            && (!s.raised ==> 0 <= s.inflight <= 16)
            && (!s.raised && s.dev.agenda == [] ==>
                  && Aligned(a, b) && s.pending == [] && s.inflight == 0 && |s.acc| == RowCount(a)
                  && forall i, c :: 0 <= i < RowCount(a) && 0 <= c < b.k ==>
                    c < |s.acc[i]| && s.acc[i][c] == MatMul(a, b, i, c))
  {
    assert Inside(Layer.Sums, true);
    AlignedIffAllFit(a, b);
    var s0 := Start(cfg, g, a, b, d);
    var m0 := StartKeeps(cfg, g, a, b, flight, d);
    var s := Run(cfg, g, b, s0, n);
    var m := RunKeeps(cfg, g, a, b, flight, s0, m0, n, s);
    if !s.raised && s.dev.agenda == [] {
      QuietMeansProduct(cfg, g, a, b, flight, s, m);
    }
  }
}

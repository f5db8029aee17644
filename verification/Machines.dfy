/**
 Machines that step until they stop: what it takes for a fast machine to end where a slow one ends, and for a run
 to be cut in two.
 */
module Machines {

  datatype Machine<!S> = Machine(stop: S -> bool, step: S -> S)

  /** At most `n` steps. */
  function Iterate<S>(m: Machine<S>, s: S, n: nat): S
    decreases n
  {
    if n == 0 || m.stop(s) then s else Iterate(m, m.step(s), n - 1)
  }

  lemma {:induction false} IterateSplit<S>(m: Machine<S>, s: S, a: nat, b: nat)
    ensures Iterate(m, s, a + b) == Iterate(m, Iterate(m, s, a), b)
    decreases a
  {
    if a > 0 && !m.stop(s) {
      IterateSplit(m, m.step(s), a - 1, b);
    }
  }

  lemma IterateOnce<S>(m: Machine<S>, s: S, s1: S, n: nat)
    requires !m.stop(s) && m.step(s) == s1
    ensures Iterate(m, s, n + 1) == Iterate(m, s1, n)
  {
  }

  /** A machine that has stopped stays where it is, whatever budget is left. */
  lemma IterateStays<S>(m: Machine<S>, s: S, a: nat, b: nat)
    requires a <= b && m.stop(Iterate(m, s, a))
    ensures Iterate(m, s, b) == Iterate(m, s, a)
  {
    IterateSplit(m, s, a, b - a);
  }

  ghost predicate Ends<S>(m: Machine<S>, s: S) {
    exists n: nat :: m.stop(Iterate(m, s, n))
  }

  /** The state in which the machine stops. */
  ghost function EndOf<S>(m: Machine<S>, s: S): S
    requires Ends(m, s)
  {
    var n: nat :| m.stop(Iterate(m, s, n));
    Iterate(m, s, n)
  }

  lemma EndOfIs<S>(m: Machine<S>, s: S, n: nat)
    requires m.stop(Iterate(m, s, n))
    ensures Ends(m, s) && EndOf(m, s) == Iterate(m, s, n)
  {
    var k: nat :| m.stop(Iterate(m, s, k)) && EndOf(m, s) == Iterate(m, s, k);
    if k <= n {
      IterateStays(m, s, k, n);
    } else {
      IterateStays(m, s, n, k);
    }
  }

  // -- One fast step for several slow ones ---------------------------------------------

  /** Both machines stop on the same states, and every step of the fast one is one or more steps of the slow one. */
  ghost predicate Refines<S(!new)>(inv: S -> bool, fast: Machine<S>, slow: Machine<S>) {
    && (forall s :: fast.stop(s) == slow.stop(s))
    && forall s :: inv(s) && !fast.stop(s) ==> inv(fast.step(s)) && Skips(slow, s, fast.step(s))
  }

  ghost predicate Skips<S>(slow: Machine<S>, s: S, s': S) {
    exists n: nat :: 1 <= n && Iterate(slow, s, n) == s'
  }

  /** Every state the fast machine passes through is one the slow machine passes through. */
  lemma {:induction false} FastIsReached<S(!new)>(
    inv: S -> bool, fast: Machine<S>, slow: Machine<S>, s: S, n: nat) returns (m: nat)
    requires Refines(inv, fast, slow) && inv(s)
    ensures n <= m && Iterate(fast, s, n) == Iterate(slow, s, m) && inv(Iterate(fast, s, n))
    decreases n
  {
    if n == 0 || fast.stop(s) {
      m := n;
    } else {
      assert Skips(slow, s, fast.step(s));
      var k: nat :| 1 <= k && Iterate(slow, s, k) == fast.step(s);
      m := FastIsReached(inv, fast, slow, fast.step(s), n - 1);
      IterateSplit(slow, s, k, m);
      m := k + m;
    }
  }

  /** When the slow machine stops, the fast one stops within the same budget, in the same state. */
  lemma {:induction false} FastKeepsUp<S(!new)>(inv: S -> bool, fast: Machine<S>, slow: Machine<S>, s: S, m: nat)
    requires Refines(inv, fast, slow) && inv(s) && slow.stop(Iterate(slow, s, m))
    ensures Iterate(fast, s, m) == Iterate(slow, s, m)
    decreases m
  {
    if !fast.stop(s) {
      var s' := fast.step(s);
      assert Skips(slow, s, s');
      var k: nat :| 1 <= k && Iterate(slow, s, k) == s';
      if k <= m {
        IterateSplit(slow, s, k, m - k);
        IterateStays(slow, s', m - k, m - 1);
      } else {
        IterateStays(slow, s, m, k);
      }
      FastKeepsUp(inv, fast, slow, s', m - 1);
    }
  }

  /** The two machines end on the same starts, and in the same states. */
  lemma RefinementPreservesEnds<S(!new)>(inv: S -> bool, fast: Machine<S>, slow: Machine<S>, s: S)
    requires Refines(inv, fast, slow) && inv(s)
    ensures Ends(fast, s) <==> Ends(slow, s)
    ensures Ends(fast, s) ==> EndOf(fast, s) == EndOf(slow, s) && inv(EndOf(fast, s))
  {
    if Ends(slow, s) {
      var m: nat :| slow.stop(Iterate(slow, s, m));
      FastKeepsUp(inv, fast, slow, s, m);
      EndOfIs(slow, s, m);
      EndOfIs(fast, s, m);
      var _ := FastIsReached(inv, fast, slow, s, m);
    } else if Ends(fast, s) {
      var n: nat :| fast.stop(Iterate(fast, s, n));
      var m := FastIsReached(inv, fast, slow, s, n);
    }
  }

  // -- A run cut in two -------------------------------------------------------------------

  /** `short` does what `long` does, and stops no later. */
  ghost predicate Shortens<S(!new)>(short: Machine<S>, long: Machine<S>) {
    && (forall s :: long.stop(s) ==> short.stop(s))
    && forall s :: !short.stop(s) ==> short.step(s) == long.step(s)
  }

  lemma {:induction false} ShortIsPrefix<S(!new)>(short: Machine<S>, long: Machine<S>, s: S, m: nat) returns (n: nat)
    requires Shortens(short, long)
    ensures n <= m && Iterate(short, s, m) == Iterate(long, s, n)
    decreases m
  {
    if m == 0 || short.stop(s) {
      n := 0;
    } else {
      n := ShortIsPrefix(short, long, short.step(s), m - 1);
      n := n + 1;
    }
  }

  /** The longer run passes through the state where the shorter one stops. */
  lemma {:induction false} LongPassesThrough<S(!new)>(short: Machine<S>, long: Machine<S>, s: S, n: nat)
    returns (m: nat)
    requires Shortens(short, long) && long.stop(Iterate(long, s, n))
    ensures m <= n && short.stop(Iterate(short, s, m))
    ensures Iterate(long, Iterate(short, s, m), n - m) == Iterate(long, s, n)
    decreases n
  {
    if short.stop(s) {
      m := 0;
    } else {
      m := LongPassesThrough(short, long, short.step(s), n - 1);
      m := m + 1;
    }
  }

  lemma RunsCompose<S(!new)>(short: Machine<S>, long: Machine<S>, s: S)
    requires Shortens(short, long)
    ensures Ends(long, s) <==> Ends(short, s) && Ends(long, EndOf(short, s))
    ensures Ends(long, s) ==> EndOf(long, EndOf(short, s)) == EndOf(long, s)
  {
    if Ends(long, s) {
      var n: nat :| long.stop(Iterate(long, s, n));
      var m := LongPassesThrough(short, long, s, n);
      EndOfIs(long, s, n);
      EndOfIs(short, s, m);
      EndOfIs(long, Iterate(short, s, m), n - m);
    } else if Ends(short, s) {
      var m: nat :| short.stop(Iterate(short, s, m));
      EndOfIs(short, s, m);
      var mid := Iterate(short, s, m);
      if Ends(long, mid) {
        var k: nat :| long.stop(Iterate(long, mid, k));
        var m' := ShortIsPrefix(short, long, s, m);
        IterateSplit(long, s, m', k);
      }
    }
  }

  /** A fast machine whose slow counterparts are cut in two may be cut in two. */
  lemma RefinedRunsCompose<S(!new)>(
    inv: S -> bool, fastA: Machine<S>, slowA: Machine<S>, fastB: Machine<S>, slowB: Machine<S>, s: S)
    requires Refines(inv, fastA, slowA) && Refines(inv, fastB, slowB) && Shortens(slowA, slowB) && inv(s)
    ensures Ends(fastB, s) <==> Ends(fastA, s) && Ends(fastB, EndOf(fastA, s))
    ensures Ends(fastB, s) ==> EndOf(fastB, EndOf(fastA, s)) == EndOf(fastB, s)
  {
    RunsCompose(slowA, slowB, s);
    RefinementPreservesEnds(inv, fastA, slowA, s);
    RefinementPreservesEnds(inv, fastB, slowB, s);
    if Ends(fastA, s) {
      RefinementPreservesEnds(inv, fastB, slowB, EndOf(fastA, s));
    }
  }

  // -- Scripts: something else, a run, something else, a run, ... ------------------------------

  ghost predicate ScriptEnds<S, T>(open: S -> S, run: T -> Machine<S>, s: S, script: seq<T>)
    decreases script
  {
    script == [] ||
    (Ends(run(script[0]), open(s)) && ScriptEnds(open, run, EndOf(run(script[0]), open(s)), script[1..]))
  }

  ghost function ScriptEndOf<S, T>(open: S -> S, run: T -> Machine<S>, s: S, script: seq<T>): S
    requires ScriptEnds(open, run, s, script)
    decreases script
  {
    if script == [] then s else ScriptEndOf(open, run, EndOf(run(script[0]), open(s)), script[1..])
  }

  ghost predicate AllRefine<S(!new), T(!new)>(inv: S -> bool, fast: T -> Machine<S>, slow: T -> Machine<S>) {
    forall t :: Refines(inv, fast(t), slow(t))
  }

  lemma {:induction false} RefinementPreservesScripts<S(!new), T(!new)>(
    inv: S -> bool, open: S -> S, fast: T -> Machine<S>, slow: T -> Machine<S>, s: S, script: seq<T>)
    requires AllRefine(inv, fast, slow) && inv(s) && forall s :: inv(s) ==> inv(open(s))
    ensures ScriptEnds(open, fast, s, script) <==> ScriptEnds(open, slow, s, script)
    ensures ScriptEnds(open, fast, s, script) ==>
              ScriptEndOf(open, fast, s, script) == ScriptEndOf(open, slow, s, script)
    decreases script
  {
    if script != [] {
      var t := script[0];
      RefinementPreservesEnds(inv, fast(t), slow(t), open(s));
      if Ends(fast(t), open(s)) {
        RefinementPreservesScripts(inv, open, fast, slow, EndOf(fast(t), open(s)), script[1..]);
      }
    }
  }
}

/** The result types shared by the whole model. */
module Prelude {

  datatype Option<+T> = None | Some(value: T)

  /** A method that raises in Python returns `Raised` here. */
  datatype Result<+T> = Ok(value: T) | Raised

  function Bit(b: bool): nat {
    if b then 1 else 0
  }

  lemma Assoc<T>(a: seq<T>, b: seq<T>, c: seq<T>)
    ensures (a + b) + c == a + (b + c)
  {
  }

  /** What a large invariant is about: lists and engines, the objects built on each other, the sums of the SpMM
      accelerator, whole runs. */
  datatype Layer = Lists | Objects | Sums | Runs

  /** A guard for large invariants.  A predicate that reads `forall u :: Inside(Lists, u) ==> P` says no more than
      `P`, but the verifier looks at `P` only where a proof mentions `Inside(Lists, true)`. */
  predicate Inside(layer: Layer, u: bool) {
    true
  }
}

/** A marker for folded predicates.  `forall x :: Look(x) ==> P` means P, but the verifier unfolds P only where some
    Look(...) is mentioned, which keeps large invariants out of proofs that only pass them on. */
module Folding {
  predicate Look(x: int) {
    true
  }
}

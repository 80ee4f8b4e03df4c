/** A way to keep the definition of a predicate folded: `forall k: nat :: Unsealed(p, k) ==> P` is P, but the verifier takes
    it apart only where Unsealed is mentioned for the same p. */
module Seals {
  datatype Fold =
    | Entries | Queues | Pumps | Tables | Threads | Runtimes
    | Moving | Calming | Operating | Exiting | Accepting | Freeing | Heaps

  ghost predicate Unsealed(fold: Fold, k: nat) { true }
}

/** Facts about sequences that the proofs use at many places, stated once
    for an element type of their own so that the solver proves them without
    the surrounding context. */
module Seqs {
  /** A non-empty sequence is its front followed by its last element. */
  lemma Snoc<T>(xs: seq<T>)
    requires xs != []
    ensures xs[..|xs| - 1] + [xs[|xs| - 1]] == xs
  {
  }

  /** The first `n + 1` elements are the head, then `n` elements of the tail. */
  lemma ConsPrefix<T>(xs: seq<T>, n: nat)
    requires n < |xs|
    ensures xs[..n + 1] == [xs[0]] + xs[1..][..n]
  {
  }
}

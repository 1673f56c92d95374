/** Counting occurrences into a dictionary, as both the detector's summary
    (`counts[k] = counts.get(k, 0) + 1`) and the remediation report's
    `events_by_type` do. */
module Tally {

  /** `h.get(x, 0)`. */
  function Get<T>(h: map<T, nat>, x: T): nat {
    if x in h then h[x] else 0
  }

  /** One step of the counting loop. */
  function Increment<T>(h: map<T, nat>, x: T): map<T, nat> {
    h[x := Get(h, x) + 1]
  }

  /** The dictionary the counting loop leaves after visiting `xs` in order. */
  function Histogram<T>(xs: seq<T>): map<T, nat>
    decreases |xs|
  {
    if xs == [] then map[] else Increment(Histogram(xs[..|xs| - 1]), xs[|xs| - 1])
  }

  /** The histogram holds exactly the values that occur, each with its number
      of occurrences. */
  lemma {:induction false} HistogramCounts<T>(xs: seq<T>)
    ensures forall x :: x in Histogram(xs) <==> x in xs
    ensures forall x :: Get(Histogram(xs), x) == multiset(xs)[x]
  {
    if xs != [] {
      var init, last := xs[..|xs| - 1], xs[|xs| - 1];
      HistogramCounts(init);
      assert xs == init + [last];
      assert multiset(xs) == multiset(init) + multiset{last};
      forall x ensures x in Histogram(xs) <==> x in xs {
        assert x in xs <==> x in init || x == last;
      }
    }
  }

  /** The loop itself. */
  method Count<T>(xs: seq<T>) returns (h: map<T, nat>)
    ensures h == Histogram(xs)
    ensures forall x :: x in h <==> x in xs
    ensures forall x :: Get(h, x) == multiset(xs)[x]
  {
    h := map[];
    for i := 0 to |xs|
      invariant h == Histogram(xs[..i])
    {
      assert xs[..i + 1][..i] == xs[..i];
      h := Increment(h, xs[i]);
    }
    assert xs[..|xs|] == xs;
    HistogramCounts(xs);
  }
}

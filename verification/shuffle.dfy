/** The copying Fisher-Yates shuffle, driven by a stream of swap indices. */
module Shuffling {
  import opened Sequences

  /** The random source, as the swap indices it produces in call order: the
      k-th draw is used at loop index i = n - 1 - k and lies in 0..i, which
      is what flooring `rng() * (i + 1)` yields for `rng()` in [0, 1).
      Draws beyond the n - 1 the loop consumes are never read. */
  ghost predicate ValidDraws(draws: seq<int>, n: nat) {
    DrawsFit(draws, n - 1)
  }

  /** Enough draws for the loop to run from index i down to 1, each in range. */
  ghost predicate DrawsFit(draws: seq<int>, i: int) {
    && |draws| >= i
    && forall k :: 0 <= k < i ==> 0 <= draws[k] <= i - k
  }

  lemma DrawsFitTail(draws: seq<int>, i: int)
    requires i > 0 && DrawsFit(draws, i)
    ensures 0 <= draws[0] <= i
    ensures DrawsFit(draws[1..], i - 1)
  {
    assert forall k :: 0 <= k < i - 1 ==> draws[1..][k] == draws[k + 1];
  }

  /** The loop of the shuffle from index i down to 1 on the working copy a. */
  function FisherYates<T>(a: seq<T>, i: int, draws: seq<int>): (r: seq<T>)
    requires i < |a| && DrawsFit(draws, i)
    ensures |r| == |a|
    decreases i
  {
    if i <= 0 then a
    else
      DrawsFitTail(draws, i);
      FisherYates(Swap(a, i, draws[0]), i - 1, draws[1..])
  }

  /** A new sequence holding a permutation of `items`. */
  function Shuffle<T>(items: seq<T>, draws: seq<int>): (r: seq<T>)
    requires ValidDraws(draws, |items|)
    ensures |r| == |items|
    ensures multiset(r) == multiset(items)
    ensures |items| <= 1 ==> r == items
  {
    FisherYatesPermutes(items, |items| - 1, draws);
    FisherYates(items, |items| - 1, draws)
  }

  /** The loop only exchanges elements. */
  lemma {:induction false} FisherYatesPermutes<T>(a: seq<T>, i: int, draws: seq<int>)
    requires i < |a| && DrawsFit(draws, i)
    ensures multiset(FisherYates(a, i, draws)) == multiset(a)
    decreases i
  {
    if i > 0 {
      FisherYatesStep(a, i, draws);
      SwapPermutes(a, i, draws[0]);
      FisherYatesPermutes(Swap(a, i, draws[0]), i - 1, draws[1..]);
    }
  }

  /** Streams that agree on their first i draws agree on the first i - 1 draws of their tails. */
  lemma AgreeingTails(d1: seq<int>, d2: seq<int>, i: int)
    requires 0 < i <= |d1| && i <= |d2| && d1[..i] == d2[..i]
    ensures d1[0] == d2[0]
    ensures d1[1..][..i - 1] == d2[1..][..i - 1]
  {
    assert d1[0] == d1[..i][0] && d2[0] == d2[..i][0];
    assert d1[1..][..i - 1] == d1[..i][1..];
    assert d2[1..][..i - 1] == d2[..i][1..];
  }

  /** One step of the loop, unfolded. */
  lemma FisherYatesStep<T>(a: seq<T>, i: int, draws: seq<int>)
    requires 0 < i < |a| && DrawsFit(draws, i)
    ensures 0 <= draws[0] <= i && DrawsFit(draws[1..], i - 1)
    ensures FisherYates(a, i, draws) == FisherYates(Swap(a, i, draws[0]), i - 1, draws[1..])
  {
    DrawsFitTail(draws, i);
  }

  /** Only the first n - 1 draws matter: streams that agree on them shuffle alike. */
  lemma {:induction false} FisherYatesReadsLeadingDraws<T>(a: seq<T>, i: int, d1: seq<int>, d2: seq<int>)
    requires i < |a| && DrawsFit(d1, i) && DrawsFit(d2, i)
    requires i <= 0 || d1[..i] == d2[..i]
    ensures FisherYates(a, i, d1) == FisherYates(a, i, d2)
    decreases i
  {
    if i > 0 {
      FisherYatesStep(a, i, d1);
      FisherYatesStep(a, i, d2);
      AgreeingTails(d1, d2, i);
      var b := Swap(a, i, d1[0]);
      FisherYatesReadsLeadingDraws(b, i - 1, d1[1..], d2[1..]);
    }
  }

  lemma ShuffleIsDeterministic<T>(items: seq<T>, d1: seq<int>, d2: seq<int>)
    requires ValidDraws(d1, |items|) && |d2| >= |items| - 1
    requires forall k :: 0 <= k < |items| - 1 ==> d1[k] == d2[k]
    ensures ValidDraws(d2, |items|)
    ensures Shuffle(items, d1) == Shuffle(items, d2)
  {
    var i := |items| - 1;
    if i > 0 {
      assert d1[..i] == d2[..i];
    }
    FisherYatesReadsLeadingDraws(items, i, d1, d2);
  }

  /** Once the loop has passed index i, position i is final: the last position
      receives the element picked by the first draw. */
  lemma FisherYatesFixesTop<T>(a: seq<T>, i: int, draws: seq<int>)
    requires 0 < i < |a| && DrawsFit(draws, i)
    ensures 0 <= draws[0] <= i
    ensures FisherYates(a, i, draws)[i] == a[draws[0]]
  {
    DrawsFitTail(draws, i);
    var b := Swap(a, i, draws[0]);
    FisherYatesKeepsAbove(b, i - 1, draws[1..], i);
    FisherYatesStep(a, i, draws);
  }

  /** Positions above the loop index are never touched again. */
  lemma {:induction false} FisherYatesKeepsAbove<T>(a: seq<T>, i: int, draws: seq<int>, p: int)
    requires i < |a| && DrawsFit(draws, i)
    requires 0 <= p < |a| && i < p
    ensures FisherYates(a, i, draws)[p] == a[p]
    decreases i
  {
    if i > 0 {
      FisherYatesStep(a, i, draws);
      var b := Swap(a, i, draws[0]);
      FisherYatesKeepsAbove(b, i - 1, draws[1..], p);
      assert b[p] == a[p];
      assert FisherYates(a, i, draws)[p] == FisherYates(b, i - 1, draws[1..])[p];
    } else {
      assert FisherYates(a, i, draws) == a;
    }
  }

  lemma ShuffleLastIsFirstDraw<T>(items: seq<T>, draws: seq<int>)
    requires |items| >= 2 && ValidDraws(draws, |items|)
    ensures Shuffle(items, draws)[|items| - 1] == items[draws[0]]
  {
    FisherYatesFixesTop(items, |items| - 1, draws);
  }
}

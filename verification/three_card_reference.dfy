/** A sort-free reference description of the three-card categories, and the
    proof that the classifier agrees with it on every hand. */
module ThreeCardReference {
  import opened Errors
  import opened PokerTypes
  import opened Sequences
  import opened HandEvaluation

  function Min3(x: int, y: int, z: int): int {
    if x <= y && x <= z then x else if y <= z then y else z
  }

  function Max3(x: int, y: int, z: int): int {
    if x >= y && x >= z then x else if y >= z then y else z
  }

  /** Three different ranks spanning exactly two steps, e.g. 7-8-9. */
  predicate Consecutive(x: int, y: int, z: int) {
    Distinct([x, y, z]) && Max3(x, y, z) - Min3(x, y, z) == 2
  }

  /** A three-card straight: consecutive ranks, or exactly the ranks Ace, Two, Three. */
  predicate IsRun(x: int, y: int, z: int) {
    Consecutive(x, y, z) || {x, y, z} == {Two, Three, Ace}
  }

  predicate Suited(h: seq<Card>)
    requires |h| == 3
  {
    h[0].suit == h[1].suit && h[1].suit == h[2].suit
  }

  /** The category of a hand, stated over the unordered ranks and the suits. */
  function ReferenceCategory(h: seq<Card>): ThreeCardHandRank
    requires |h| == 3
  {
    var x, y, z := h[0].rank, h[1].rank, h[2].rank;
    if Suited(h) && {x, y, z} == {Queen, King, Ace} then MiniRoyal
    else if Suited(h) && IsRun(x, y, z) then ThreeCardHandRank.StraightFlush
    else if x == y && y == z then ThreeCardHandRank.ThreeOfAKind
    else if IsRun(x, y, z) then ThreeCardHandRank.Straight
    else if Suited(h) then ThreeCardHandRank.Flush
    else if x == y || y == z || x == z then Pair
    else HighCard
  }

  /** The head of an ascending sequence is at most any of its values. */
  lemma SortedHeadIsMin(s: seq<int>, x: int)
    requires Sorted(s) && x in multiset(s)
    ensures |s| > 0 && s[0] <= x
  {
    var k :| 0 <= k < |s| && s[k] == x;
  }

  /** Removing the head of a sequence removes one copy of it from the multiset. */
  lemma TailMultiset(s: seq<int>)
    requires |s| > 0
    ensures multiset(s[1..]) == multiset(s) - multiset{s[0]}
  {
    assert s == [s[0]] + s[1..];
  }

  /** Dropping the head of an ascending sequence leaves it ascending. */
  lemma SortedTail(s: seq<int>)
    requires |s| > 0 && Sorted(s)
    ensures Sorted(s[1..])
  {
    forall i, j | 0 <= i < j < |s| - 1 ensures s[1..][i] <= s[1..][j] {
      assert s[1..][i] == s[i + 1] && s[1..][j] == s[j + 1];
    }
  }

  /** Ascending sequences with the same values share their head, and their tails hold the same values. */
  lemma SortedSameHead(s: seq<int>, t: seq<int>)
    requires |s| > 0 && Sorted(s) && Sorted(t)
    requires multiset(s) == multiset(t)
    ensures |t| > 0 && s[0] == t[0]
    ensures multiset(s[1..]) == multiset(t[1..])
  {
    SortedHeadIsMin(t, s[0]);
    SortedHeadIsMin(s, t[0]);
    TailMultiset(s);
    TailMultiset(t);
  }

  lemma HeadAndTail(s: seq<int>, t: seq<int>)
    requires |s| > 0 && |t| > 0 && s[0] == t[0] && s[1..] == t[1..]
    ensures s == t
  {
    assert s == [s[0]] + s[1..];
    assert t == [t[0]] + t[1..];
  }

  /** Two ascending sequences holding the same values are the same sequence. */
  lemma {:induction false} SortedUnique(s: seq<int>, t: seq<int>)
    requires Sorted(s) && Sorted(t)
    requires multiset(s) == multiset(t)
    ensures s == t
    decreases |s|
  {
    if |s| == 0 {
      assert |multiset(t)| == 0;
    } else {
      SortedSameHead(s, t);
      SortedTail(s);
      SortedTail(t);
      SortedUnique(s[1..], t[1..]);
      HeadAndTail(s, t);
    }
  }

  /** Three values in ascending order, by comparisons. */
  function Sort3(x: int, y: int, z: int): (s: seq<int>)
    ensures |s| == 3 && s[0] <= s[1] <= s[2]
  {
    if x <= y then
      if y <= z then [x, y, z] else if x <= z then [x, z, y] else [z, x, y]
    else
      if x <= z then [y, x, z] else if y <= z then [y, z, x] else [z, y, x]
  }

  lemma SwapLast(a: int, b: int, c: int)
    ensures multiset([a, b, c]) == multiset([a, c, b])
  {
  }

  lemma SwapFirst(a: int, b: int, c: int)
    ensures multiset([a, b, c]) == multiset([b, a, c])
  {
  }

  lemma Sort3IsPermutation(x: int, y: int, z: int)
    ensures multiset(Sort3(x, y, z)) == multiset([x, y, z])
  {
    var m := multiset([x, y, z]);
    if x <= y {
      if y <= z {
      } else if x <= z {
        SwapLast(x, y, z);
      } else {
        SwapLast(x, y, z);
        SwapFirst(x, z, y);
        assert multiset([z, x, y]) == m;
      }
    } else {
      if x <= z {
        SwapFirst(x, y, z);
      } else if y <= z {
        SwapFirst(x, y, z);
        SwapLast(y, x, z);
        assert multiset([y, z, x]) == m;
      } else {
        SwapFirst(x, y, z);
        SwapLast(y, x, z);
        SwapFirst(y, z, x);
        assert multiset([z, y, x]) == m;
      }
    }
  }

  lemma AscendingTripleSorted(s: seq<int>)
    requires |s| == 3 && s[0] <= s[1] <= s[2]
    ensures Sorted(s)
  {
  }

  lemma SortRanksOfThree(h: seq<Card>)
    requires |h| == 3
    ensures SortRanksAscending(h) == Sort3(h[0].rank, h[1].rank, h[2].rank)
  {
    var x: int, y: int, z: int := h[0].rank, h[1].rank, h[2].rank;
    var values := RankValues(h);
    assert values == [x, y, z];
    var sorted := SortRanksAscending(h);
    assert multiset(sorted) == multiset(values);
    Sort3IsPermutation(x, y, z);
    var expected := Sort3(x, y, z);
    AscendingTripleSorted(expected);
    SortedUnique(sorted, expected);
  }

  /** What the sorted triple says about the unordered ranks. */
  lemma Sort3Facts(x: int, y: int, z: int)
    ensures var s := Sort3(x, y, z);
      && {x, y, z} == {s[0], s[1], s[2]}
      && Min3(x, y, z) == s[0] && Max3(x, y, z) == s[2]
      && (Distinct([x, y, z]) <==> s[0] < s[1] < s[2])
      && (x == y && y == z <==> s[0] == s[2])
      && (x == y || y == z || x == z <==> s[0] == s[1] || s[1] == s[2])
  {
    DistinctTriple(x, y, z);
  }

  /** For an ascending triple, equality of its set with a strictly ascending
      triple's set is equality position by position. */
  lemma AscendingSetEquality(s0: int, s1: int, s2: int, a: int, b: int, c: int)
    requires s0 <= s1 <= s2 && a < b < c
    ensures {s0, s1, s2} == {a, b, c} <==> s0 == a && s1 == b && s2 == c
  {
    if {s0, s1, s2} == {a, b, c} {
      assert a in {s0, s1, s2} && b in {s0, s1, s2} && c in {s0, s1, s2};
      assert s0 in {a, b, c} && s1 in {a, b, c} && s2 in {a, b, c};
    }
  }

  lemma FlushIffSuited(h: seq<Card>)
    requires |h| == 3
    ensures IsFlush(h) <==> Suited(h)
  {
  }

  lemma MiniRoyalIff(h: seq<Card>)
    requires |h| == 3
    ensures IsMiniRoyal(h) <==> Suited(h) && {h[0].rank, h[1].rank, h[2].rank} == {Queen, King, Ace}
  {
    var x: int, y: int, z: int := h[0].rank, h[1].rank, h[2].rank;
    SortRanksOfThree(h);
    Sort3Facts(x, y, z);
    var s := Sort3(x, y, z);
    AscendingSetEquality(s[0], s[1], s[2], Queen, King, Ace);
    FlushIffSuited(h);
  }

  lemma StraightIffRun(h: seq<Card>)
    requires |h| == 3
    ensures IsStraightThreeCard(h) <==> IsRun(h[0].rank, h[1].rank, h[2].rank)
  {
    var x: int, y: int, z: int := h[0].rank, h[1].rank, h[2].rank;
    SortRanksOfThree(h);
    Sort3Facts(x, y, z);
    var s := Sort3(x, y, z);
    AscendingSetEquality(s[0], s[1], s[2], Two, Three, Ace);
  }

  lemma PairIffRepeat(h: seq<Card>)
    requires |h| == 3
    ensures IsPair(h) <==> h[0].rank == h[1].rank || h[1].rank == h[2].rank || h[0].rank == h[2].rank
  {
    var x: int, y: int, z: int := h[0].rank, h[1].rank, h[2].rank;
    SortRanksOfThree(h);
    Sort3Facts(x, y, z);
  }

  /** The classifier and the reference agree on every three-card hand. */
  lemma EvaluateMatchesReference(h: seq<Card>)
    requires |h| == 3
    ensures EvaluateThreeCardHand(h) == Ok(ReferenceCategory(h))
  {
    FlushIffSuited(h);
    MiniRoyalIff(h);
    StraightIffRun(h);
    PairIffRepeat(h);
  }

  function RankSet(h: seq<Card>): set<int>
    requires |h| == 3
  {
    {h[0].rank, h[1].rank, h[2].rank}
  }

  /** How many different values a triple holds. */
  lemma TripleSetSize(x: int, y: int, z: int)
    ensures x == y && y == z ==> |{x, y, z}| == 1
    ensures Distinct([x, y, z]) ==> |{x, y, z}| == 3
    ensures !(x == y && y == z) && !Distinct([x, y, z]) ==> |{x, y, z}| == 2
  {
    DistinctTriple(x, y, z);
    if x == y && y == z {
      assert {x, y, z} == {x};
    } else if x == y {
      assert {x, y, z} == {x} + {z};
    } else if y == z || x == z {
      assert {x, y, z} == {x} + {y};
    }
  }

  /** Min3 and Max3 depend only on the set of values. */
  lemma ExtremesOfSet(x: int, y: int, z: int, a: int, b: int, c: int)
    requires {x, y, z} == {a, b, c}
    ensures Min3(x, y, z) == Min3(a, b, c) && Max3(x, y, z) == Max3(a, b, c)
  {
    assert Min3(x, y, z) in {a, b, c} && Min3(a, b, c) in {x, y, z};
    assert Max3(x, y, z) in {a, b, c} && Max3(a, b, c) in {x, y, z};
  }

  /** Every card of p is one of h's cards. */
  lemma SameCardsMembers(h: seq<Card>, p: seq<Card>)
    requires multiset(p) == multiset(h)
    ensures forall i :: 0 <= i < |p| ==> p[i] in h
  {
    forall i | 0 <= i < |p| ensures p[i] in h {
      assert p[i] in multiset(h);
    }
  }

  lemma SameCardsRankSubset(h: seq<Card>, p: seq<Card>)
    requires |h| == 3 && |p| == 3
    requires forall i :: 0 <= i < |p| ==> p[i] in h
    ensures RankSet(p) <= RankSet(h)
    ensures Suited(h) ==> Suited(p)
  {
    forall i | 0 <= i < 3 ensures p[i].rank in RankSet(h) && (Suited(h) ==> p[i].suit == h[0].suit) {
      var k :| 0 <= k < 3 && h[k] == p[i];
    }
  }

  /** Hands holding the same cards have the same suit pattern and rank set. */
  lemma SameCardsSameShape(h: seq<Card>, p: seq<Card>)
    requires |h| == 3 && |p| == 3
    requires multiset(p) == multiset(h)
    ensures RankSet(p) == RankSet(h)
    ensures Suited(p) <==> Suited(h)
  {
    SameCardsMembers(h, p);
    SameCardsMembers(p, h);
    SameCardsRankSubset(h, p);
    SameCardsRankSubset(p, h);
  }

  lemma ReferenceDependsOnShape(h: seq<Card>, p: seq<Card>)
    requires |h| == 3 && |p| == 3
    requires RankSet(p) == RankSet(h)
    requires Suited(p) <==> Suited(h)
    ensures ReferenceCategory(p) == ReferenceCategory(h)
  {
    var x: int, y: int, z: int := h[0].rank, h[1].rank, h[2].rank;
    var a: int, b: int, c: int := p[0].rank, p[1].rank, p[2].rank;
    TripleSetSize(x, y, z);
    TripleSetSize(a, b, c);
    ExtremesOfSet(x, y, z, a, b, c);
    assert (x == y && y == z) <==> (a == b && b == c);
    assert Distinct([x, y, z]) <==> Distinct([a, b, c]);
    assert IsRun(x, y, z) <==> IsRun(a, b, c);
  }

  /** The category does not depend on the order of the three cards. */
  lemma ClassificationIgnoresOrder(h: seq<Card>, p: seq<Card>)
    requires |h| == 3 && |p| == 3
    requires multiset(p) == multiset(h)
    ensures EvaluateThreeCardHand(p) == EvaluateThreeCardHand(h)
  {
    SameCardsSameShape(h, p);
    ReferenceDependsOnShape(h, p);
    EvaluateMatchesReference(h);
    EvaluateMatchesReference(p);
  }

  /** Suited Queen-King-Ace is a Mini Royal (and so never a straight flush). */
  lemma SuitedQueenKingAceIsMiniRoyal(h: seq<Card>)
    requires |h| == 3 && Suited(h) && RankSet(h) == {Queen, King, Ace}
    ensures EvaluateThreeCardHand(h) == Ok(MiniRoyal)
  {
    EvaluateMatchesReference(h);
  }

  lemma StraightFlushIff(h: seq<Card>)
    requires |h| == 3
    ensures EvaluateThreeCardHand(h) == Ok(ThreeCardHandRank.StraightFlush) <==>
      Suited(h) && IsRun(h[0].rank, h[1].rank, h[2].rank) && RankSet(h) != {Queen, King, Ace}
  {
    EvaluateMatchesReference(h);
  }

  lemma ThreeOfAKindIff(h: seq<Card>)
    requires |h| == 3
    ensures EvaluateThreeCardHand(h) == Ok(ThreeCardHandRank.ThreeOfAKind) <==>
      h[0].rank == h[1].rank == h[2].rank
  {
    EvaluateMatchesReference(h);
  }

  lemma HighCardIff(h: seq<Card>)
    requires |h| == 3
    ensures EvaluateThreeCardHand(h) == Ok(HighCard) <==>
      Distinct([h[0].rank, h[1].rank, h[2].rank]) && !IsRun(h[0].rank, h[1].rank, h[2].rank) && !Suited(h)
  {
    DistinctTriple(h[0].rank, h[1].rank, h[2].rank);
    EvaluateMatchesReference(h);
  }

  lemma StraightIff(h: seq<Card>)
    requires |h| == 3
    ensures EvaluateThreeCardHand(h) == Ok(ThreeCardHandRank.Straight) <==>
      IsRun(h[0].rank, h[1].rank, h[2].rank) && !Suited(h)
  {
    EvaluateMatchesReference(h);
  }

  lemma FlushIff(h: seq<Card>)
    requires |h| == 3
    ensures EvaluateThreeCardHand(h) == Ok(ThreeCardHandRank.Flush) <==>
      Suited(h) && !IsRun(h[0].rank, h[1].rank, h[2].rank) && !(h[0].rank == h[1].rank == h[2].rank)
  {
    EvaluateMatchesReference(h);
  }

  /** Pair means exactly one repeated rank, in a hand that is not all one suit. */
  lemma PairIff(h: seq<Card>)
    requires |h| == 3
    ensures EvaluateThreeCardHand(h) == Ok(Pair) <==>
      && !Suited(h)
      && !(h[0].rank == h[1].rank == h[2].rank)
      && (h[0].rank == h[1].rank || h[1].rank == h[2].rank || h[0].rank == h[2].rank)
  {
    DistinctTriple(h[0].rank, h[1].rank, h[2].rank);
    EvaluateMatchesReference(h);
  }

  /** Hands of the three-card test file, classified as the tests expect. */
  lemma TopCategoryExamples()
    ensures EvaluateThreeCardHand([Card(Ace, Hearts), Card(King, Hearts), Card(Queen, Hearts)]) == Ok(MiniRoyal)
    ensures EvaluateThreeCardHand([Card(Seven, Clubs), Card(Eight, Clubs), Card(Nine, Clubs)])
      == Ok(ThreeCardHandRank.StraightFlush)
    ensures EvaluateThreeCardHand([Card(Ace, Spades), Card(Two, Spades), Card(Three, Spades)])
      == Ok(ThreeCardHandRank.StraightFlush)
    ensures EvaluateThreeCardHand([Card(Five, Clubs), Card(Five, Diamonds), Card(Five, Spades)])
      == Ok(ThreeCardHandRank.ThreeOfAKind)
  {
    EvaluateMatchesReference([Card(Ace, Hearts), Card(King, Hearts), Card(Queen, Hearts)]);
    EvaluateMatchesReference([Card(Seven, Clubs), Card(Eight, Clubs), Card(Nine, Clubs)]);
    EvaluateMatchesReference([Card(Ace, Spades), Card(Two, Spades), Card(Three, Spades)]);
    EvaluateMatchesReference([Card(Five, Clubs), Card(Five, Diamonds), Card(Five, Spades)]);
  }

  lemma StraightExamples()
    ensures EvaluateThreeCardHand([Card(Four, Clubs), Card(Five, Diamonds), Card(Six, Hearts)])
      == Ok(ThreeCardHandRank.Straight)
    ensures EvaluateThreeCardHand([Card(Ace, Clubs), Card(Two, Diamonds), Card(Three, Hearts)])
      == Ok(ThreeCardHandRank.Straight)
    ensures EvaluateThreeCardHand([Card(Queen, Clubs), Card(Ace, Diamonds), Card(King, Hearts)])
      == Ok(ThreeCardHandRank.Straight)
  {
    EvaluateMatchesReference([Card(Four, Clubs), Card(Five, Diamonds), Card(Six, Hearts)]);
    DistinctTriple(Four, Five, Six);
    EvaluateMatchesReference([Card(Ace, Clubs), Card(Two, Diamonds), Card(Three, Hearts)]);
    EvaluateMatchesReference([Card(Queen, Clubs), Card(Ace, Diamonds), Card(King, Hearts)]);
    DistinctTriple(Queen, Ace, King);
  }

  lemma LowCategoryExamples()
    ensures EvaluateThreeCardHand([Card(Two, Spades), Card(Five, Spades), Card(Nine, Spades)])
      == Ok(ThreeCardHandRank.Flush)
    ensures EvaluateThreeCardHand([Card(Nine, Clubs), Card(Nine, Hearts), Card(Four, Spades)]) == Ok(Pair)
    ensures EvaluateThreeCardHand([Card(Two, Clubs), Card(Five, Diamonds), Card(Nine, Hearts)]) == Ok(HighCard)
    ensures EvaluateThreeCardHand([Card(Ace, Clubs)]) == Err(WrongHandSize)
    ensures EvaluateThreeCardHand([Card(Ace, Clubs), Card(King, Clubs), Card(Queen, Clubs), Card(Jack, Clubs)])
      == Err(WrongHandSize)
  {
    EvaluateMatchesReference([Card(Two, Spades), Card(Five, Spades), Card(Nine, Spades)]);
    EvaluateMatchesReference([Card(Nine, Clubs), Card(Nine, Hearts), Card(Four, Spades)]);
    EvaluateMatchesReference([Card(Two, Clubs), Card(Five, Diamonds), Card(Nine, Hearts)]);
  }
}

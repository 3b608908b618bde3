/** Three-card classification and the five-card evaluator as shipped. */
module HandEvaluation {
  import opened Errors
  import opened PokerTypes
  import opened Sequences

  /** Insert x into an ascending sequence, keeping it ascending. */
  function Insert(x: int, s: seq<int>): (r: seq<int>)
    requires Sorted(s)
    ensures |r| == |s| + 1
    ensures Sorted(r)
    ensures multiset(r) == multiset(s) + multiset{x}
  {
    if |s| == 0 then [x]
    else if x <= s[0] then [x] + s
    else
      var tail := Insert(x, s[1..]);
      assert s == [s[0]] + s[1..];
      InsertAboveHead(x, s, tail);
      [s[0]] + tail
  }

  /** Every element of the insertion into the tail is at least the head. */
  lemma InsertAboveHead(x: int, s: seq<int>, tail: seq<int>)
    requires Sorted(s) && |s| > 0 && x > s[0]
    requires multiset(tail) == multiset(s[1..]) + multiset{x}
    ensures forall k :: 0 <= k < |tail| ==> s[0] <= tail[k]
  {
    forall k | 0 <= k < |tail| ensures s[0] <= tail[k] {
      assert tail[k] in multiset(tail);
      if tail[k] != x {
        assert tail[k] in multiset(s[1..]);
        var m :| 0 <= m < |s[1..]| && s[1..][m] == tail[k];
        assert s[m + 1] == tail[k];
      }
    }
  }

  /** Numeric ascending sort (the comparator `a - b`). */
  function SortAscending(xs: seq<int>): (r: seq<int>)
    ensures |r| == |xs|
    ensures Sorted(r)
    ensures multiset(r) == multiset(xs)
  {
    if |xs| == 0 then []
    else
      assert xs == [xs[0]] + xs[1..];
      Insert(xs[0], SortAscending(xs[1..]))
  }

  function RankValues(cards: seq<Card>): (ranks: seq<int>)
    ensures |ranks| == |cards|
    ensures forall i :: 0 <= i < |cards| ==> ranks[i] == cards[i].rank
  {
    seq(|cards|, i requires 0 <= i < |cards| => cards[i].rank)
  }

  function SortRanksAscending(cards: seq<Card>): (ranks: seq<int>)
    ensures |ranks| == |cards|
    ensures Sorted(ranks)
    ensures multiset(ranks) == multiset(RankValues(cards))
  {
    SortAscending(RankValues(cards))
  }

  /** Every card has the suit of the first one (vacuously true when empty). */
  predicate IsFlush(cards: seq<Card>) {
    forall i :: 0 <= i < |cards| ==> cards[i].suit == cards[0].suit
  }

  predicate IsThreeOfAKind(cards: seq<Card>)
    requires |cards| == 3
  {
    cards[0].rank == cards[1].rank && cards[1].rank == cards[2].rank
  }

  /** On the sorted ranks, a repeat is two neighbours being equal. */
  predicate IsPair(cards: seq<Card>)
    requires |cards| == 3
  {
    var ranks := SortRanksAscending(cards);
    ranks[0] == ranks[1] || ranks[1] == ranks[2]
  }

  /** A suited Queen-King-Ace. */
  predicate IsMiniRoyal(cards: seq<Card>) {
    if !IsFlush(cards) then false
    else
      var ranks := SortRanksAscending(cards);
      |ranks| == 3 && ranks[0] == Queen && ranks[1] == King && ranks[2] == Ace
  }

  /** Three distinct consecutive ranks, or the wrap cases A-2-3 and Q-K-A. */
  predicate IsStraightThreeCard(cards: seq<Card>)
    requires |cards| == 3
  {
    var ranks := SortRanksAscending(cards);
    var r0, r1, r2 := ranks[0], ranks[1], ranks[2];
    if r0 == r1 || r1 == r2 then false
    else if r0 + 1 == r1 && r1 + 1 == r2 then true
    else if r0 == Two && r1 == Three && r2 == Ace then true
    else if r0 == Queen && r1 == King && r2 == Ace then true
    else false
  }

  /** Classify a three-card hand; first matching category wins. */
  function EvaluateThreeCardHand(cards: seq<Card>): (r: Result<ThreeCardHandRank>)
    ensures r.Err? <==> |cards| != 3
    ensures r.Err? ==> r.error == WrongHandSize
  {
    if |cards| != 3 then Err(WrongHandSize)
    else
      var flush := IsFlush(cards);
      var straight := IsStraightThreeCard(cards);
      if IsMiniRoyal(cards) then Ok(MiniRoyal)
      else if flush && straight then Ok(ThreeCardHandRank.StraightFlush)
      else if IsThreeOfAKind(cards) then Ok(ThreeCardHandRank.ThreeOfAKind)
      else if straight then Ok(ThreeCardHandRank.Straight)
      else if flush then Ok(ThreeCardHandRank.Flush)
      else if IsPair(cards) then Ok(Pair)
      else Ok(HighCard)
  }

  /** The shipped five-card evaluator is a placeholder that always fails,
      whatever it is given (it does not even check the hand size). */
  function EvaluateFiveCardHand(cards: seq<Card>): (r: Result<FiveCardHandPayoutRank>)
    ensures r == Err(FiveCardNotImplemented)
  {
    Err(FiveCardNotImplemented)
  }
}

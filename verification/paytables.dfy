/** The Grand Sierra pay tables: ordered lists of category and to-one multiple.
    A category missing from a table loses (multiple 0). */
module Paytables {
  import opened PokerTypes

  /** 1st/2nd/3rd Shot table ("Pay Table 2"); HighCard is omitted. */
  const GrandSierraShotPaytable: seq<PaytableEntry<ThreeCardHandRank>> := [
    PaytableEntry(MiniRoyal, 50),
    PaytableEntry(ThreeCardHandRank.StraightFlush, 30),
    PaytableEntry(ThreeCardHandRank.ThreeOfAKind, 20),
    PaytableEntry(ThreeCardHandRank.Straight, 4),
    PaytableEntry(ThreeCardHandRank.Flush, 2),
    PaytableEntry(Pair, 1)
  ]

  /** 5 Shot table ("Pay Table 1"); AllOther is omitted. */
  const GrandSierraFiveShotPaytable: seq<PaytableEntry<FiveCardHandPayoutRank>> := [
    PaytableEntry(RoyalFlush, 500),
    PaytableEntry(FiveCardHandPayoutRank.StraightFlush, 200),
    PaytableEntry(FourOfAKind, 50),
    PaytableEntry(FullHouse, 40),
    PaytableEntry(FiveCardHandPayoutRank.Flush, 30),
    PaytableEntry(FiveCardHandPayoutRank.Straight, 20),
    PaytableEntry(FiveCardHandPayoutRank.ThreeOfAKind, 10),
    PaytableEntry(TwoPair, 2),
    PaytableEntry(PairTensOrBetter, 1)
  ]

  /** Each category is listed at most once. */
  ghost predicate CategoriesUnique<R>(table: seq<PaytableEntry<R>>) {
    forall i, j :: 0 <= i < j < |table| ==> table[i].hand != table[j].hand
  }

  ghost predicate PayoutsNonNegative<R>(table: seq<PaytableEntry<R>>) {
    forall i :: 0 <= i < |table| ==> table[i].payout >= 0
  }

  /** Better hands are listed first and pay strictly more. */
  ghost predicate PayoutsStrictlyDecreasing<R>(table: seq<PaytableEntry<R>>) {
    forall i, j :: 0 <= i < j < |table| ==> table[i].payout > table[j].payout
  }

  ghost predicate Lists<R>(table: seq<PaytableEntry<R>>, hand: R) {
    exists i :: 0 <= i < |table| && table[i].hand == hand
  }

  lemma ShotPaytableCategoriesUnique()
    ensures CategoriesUnique(GrandSierraShotPaytable)
    ensures !Lists(GrandSierraShotPaytable, HighCard)
  {
  }

  lemma ShotPaytablePayouts()
    ensures PayoutsNonNegative(GrandSierraShotPaytable)
    ensures PayoutsStrictlyDecreasing(GrandSierraShotPaytable)
  {
  }

  lemma FiveShotPaytableCategoriesUnique()
    ensures CategoriesUnique(GrandSierraFiveShotPaytable)
    ensures !Lists(GrandSierraFiveShotPaytable, AllOther)
  {
  }

  lemma FiveShotPaytablePayouts()
    ensures PayoutsNonNegative(GrandSierraFiveShotPaytable)
    ensures PayoutsStrictlyDecreasing(GrandSierraFiveShotPaytable)
  {
  }
}

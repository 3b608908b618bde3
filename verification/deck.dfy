/** Building the 52-card deck in its fixed order. */
module Deck {
  import opened PokerTypes
  import opened Sequences

  /** The cards of one suit, one per rank in `AllRanks` order (the inner loop). */
  function SuitRow(suit: Suit): (row: seq<Card>)
    ensures |row| == 13
    ensures forall k :: 0 <= k < 13 ==> row[k] == Card(AllRanks[k], suit)
  {
    seq(13, k requires 0 <= k < 13 => Card(AllRanks[k], suit))
  }

  /** The outer loop: one row per suit, concatenated in the order given. */
  function SuitRows(suits: seq<Suit>): (cards: seq<Card>)
    ensures |cards| == 13 * |suits|
    ensures forall s, k :: 0 <= s < |suits| && 0 <= k < 13 ==>
      cards[13 * s + k] == Card(AllRanks[k], suits[s])
  {
    if |suits| == 0 then []
    else
      var rest := SuitRows(suits[1..]);
      SuitRow(suits[0]) + rest
  }

  /** A fresh deck: suit-major (Clubs, Diamonds, Hearts, Spades), ranks ascending. */
  function CreateDeck(): (deck: seq<Card>)
    ensures |deck| == 52
    ensures forall s, k :: 0 <= s < 4 && 0 <= k < 13 ==>
      deck[13 * s + k] == Card(AllRanks[k], AllSuits[s])
  {
    SuitRows(AllSuits)
  }

  /** The layout in terms of card values: Card(r, suit) sits at 13 * (suit index) + (r - 2). */
  lemma DeckLayout(r: Rank, suit: Suit)
    ensures 13 * SuitIndex(suit) + (r - 2) < 52
    ensures CreateDeck()[13 * SuitIndex(suit) + (r - 2)] == Card(r, suit)
  {
    RanksAreTwoThroughAce();
  }

  /** Position i holds the rank i % 13 of the suit i / 13. */
  lemma DeckIndex(i: int)
    requires 0 <= i < 52
    ensures CreateDeck()[i] == Card(AllRanks[i % 13], AllSuits[i / 13])
  {
    var s, k := i / 13, i % 13;
    assert i == 13 * s + k;
  }

  /** The position of a card is determined by its value. */
  lemma DeckPosition(i: int)
    requires 0 <= i < 52
    ensures i == 13 * SuitIndex(CreateDeck()[i].suit) + (CreateDeck()[i].rank - 2)
  {
    DeckIndex(i);
    RanksAreTwoThroughAce();
    FourDistinctSuits();
    var s := i / 13;
    assert SuitIndex(AllSuits[s]) == s;
  }

  /** No card of the deck occurs twice. */
  lemma DeckCardsDistinct()
    ensures Distinct(CreateDeck())
  {
    var deck := CreateDeck();
    forall i, j | 0 <= i < j < 52 ensures deck[i] != deck[j] {
      DeckPosition(i);
      DeckPosition(j);
    }
  }

  /** Every rank-suit pair occurs in the deck exactly once. */
  lemma DeckHasEveryCardOnce()
    ensures forall c: Card :: multiset(CreateDeck())[c] == 1
  {
    var deck := CreateDeck();
    DeckCardsDistinct();
    DistinctCountsAtMostOne(deck);
    forall c: Card ensures multiset(deck)[c] == 1 {
      DeckLayout(c.rank, c.suit);
      assert c in deck;
    }
  }
}

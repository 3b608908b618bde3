/** Cards and the two hand-category enumerations. */
module PokerTypes {

  datatype Suit = Clubs | Diamonds | Hearts | Spades

  /** The string value each suit carries in the enumeration. */
  function SuitCode(s: Suit): string {
    match s
    case Clubs => "C"
    case Diamonds => "D"
    case Hearts => "H"
    case Spades => "S"
  }

  /** Ranks are numbered from Two = 2 upwards; the Ace is high (14). */
  type Rank = r: int | 2 <= r <= 14 witness 2

  const Two: Rank := 2
  const Three: Rank := 3
  const Four: Rank := 4
  const Five: Rank := 5
  const Six: Rank := 6
  const Seven: Rank := 7
  const Eight: Rank := 8
  const Nine: Rank := 9
  const Ten: Rank := 10
  const Jack: Rank := 11
  const Queen: Rank := 12
  const King: Rank := 13
  const Ace: Rank := 14

  /** The suits and ranks in declaration order, as the deck builder lists them. */
  const AllSuits: seq<Suit> := [Clubs, Diamonds, Hearts, Spades]
  const AllRanks: seq<Rank> :=
    [Two, Three, Four, Five, Six, Seven, Eight, Nine, Ten, Jack, Queen, King, Ace]

  /** Position of a suit in `AllSuits`. */
  function SuitIndex(s: Suit): (k: nat)
    ensures k < |AllSuits| && AllSuits[k] == s
  {
    match s
    case Clubs => 0
    case Diamonds => 1
    case Hearts => 2
    case Spades => 3
  }

  /** Each rank value sits at index value - 2: Two..Ace auto-increment from 2. */
  lemma RanksAreTwoThroughAce()
    ensures |AllRanks| == 13
    ensures forall k :: 0 <= k < |AllRanks| ==> AllRanks[k] == k + 2
    ensures Ten == 10 && Jack == 11 && Queen == 12 && King == 13 && Ace == 14
    ensures forall r: Rank :: r in AllRanks
  {
    forall r: Rank ensures r in AllRanks {
      assert AllRanks[r - 2] == r;
    }
  }

  /** Exactly four suits, pairwise distinct, with pairwise distinct codes. */
  lemma FourDistinctSuits()
    ensures |AllSuits| == 4
    ensures forall s: Suit :: s in AllSuits
    ensures forall i, j :: 0 <= i < j < |AllSuits| ==> AllSuits[i] != AllSuits[j]
    ensures forall s, t: Suit :: SuitCode(s) == SuitCode(t) ==> s == t
  {
    forall s: Suit ensures s in AllSuits {
      assert AllSuits[SuitIndex(s)] == s;
    }
  }

  /** A card is a plain value; two cards are equal exactly when rank and suit are. */
  datatype Card = Card(rank: Rank, suit: Suit)

  lemma CardEqualityIsComponentwise(c: Card, d: Card)
    ensures c == d <==> c.rank == d.rank && c.suit == d.suit
  {
  }

  /** Three-card categories, listed from best to worst. HighCard is also the
      "all other" loss category of the Shot table. */
  datatype ThreeCardHandRank =
    | MiniRoyal
    | StraightFlush
    | ThreeOfAKind
    | Straight
    | Flush
    | Pair
    | HighCard

  function ThreeCardTag(r: ThreeCardHandRank): string {
    match r
    case MiniRoyal => "MINI_ROYAL"
    case StraightFlush => "STRAIGHT_FLUSH"
    case ThreeOfAKind => "THREE_OF_A_KIND"
    case Straight => "STRAIGHT"
    case Flush => "FLUSH"
    case Pair => "PAIR"
    case HighCard => "HIGH_CARD"
  }

  const AllThreeCardHandRanks: seq<ThreeCardHandRank> :=
    [MiniRoyal, ThreeCardHandRank.StraightFlush, ThreeCardHandRank.ThreeOfAKind,
     ThreeCardHandRank.Straight, ThreeCardHandRank.Flush, Pair, HighCard]

  lemma SevenThreeCardCategories()
    ensures |AllThreeCardHandRanks| == 7
    ensures forall r: ThreeCardHandRank :: r in AllThreeCardHandRanks
    ensures forall i, j :: 0 <= i < j < 7 ==> AllThreeCardHandRanks[i] != AllThreeCardHandRanks[j]
    ensures forall r, s: ThreeCardHandRank :: ThreeCardTag(r) == ThreeCardTag(s) ==> r == s
  {
    forall r: ThreeCardHandRank ensures r in AllThreeCardHandRanks {
      match r
      case MiniRoyal => assert AllThreeCardHandRanks[0] == r;
      case StraightFlush => assert AllThreeCardHandRanks[1] == r;
      case ThreeOfAKind => assert AllThreeCardHandRanks[2] == r;
      case Straight => assert AllThreeCardHandRanks[3] == r;
      case Flush => assert AllThreeCardHandRanks[4] == r;
      case Pair => assert AllThreeCardHandRanks[5] == r;
      case HighCard => assert AllThreeCardHandRanks[6] == r;
    }
  }

  /** Five-card payout categories, listed from best to worst; AllOther loses. */
  datatype FiveCardHandPayoutRank =
    | RoyalFlush
    | StraightFlush
    | FourOfAKind
    | FullHouse
    | Flush
    | Straight
    | ThreeOfAKind
    | TwoPair
    | PairTensOrBetter
    | AllOther

  function FiveCardTag(r: FiveCardHandPayoutRank): string {
    match r
    case RoyalFlush => "ROYAL_FLUSH"
    case StraightFlush => "STRAIGHT_FLUSH"
    case FourOfAKind => "FOUR_OF_A_KIND"
    case FullHouse => "FULL_HOUSE"
    case Flush => "FLUSH"
    case Straight => "STRAIGHT"
    case ThreeOfAKind => "THREE_OF_A_KIND"
    case TwoPair => "TWO_PAIR"
    case PairTensOrBetter => "PAIR_TENS_OR_BETTER"
    case AllOther => "ALL_OTHER"
  }

  const AllFiveCardHandPayoutRanks: seq<FiveCardHandPayoutRank> :=
    [RoyalFlush, FiveCardHandPayoutRank.StraightFlush, FourOfAKind, FullHouse,
     FiveCardHandPayoutRank.Flush, FiveCardHandPayoutRank.Straight,
     FiveCardHandPayoutRank.ThreeOfAKind, TwoPair, PairTensOrBetter, AllOther]

  lemma TenFiveCardCategories()
    ensures |AllFiveCardHandPayoutRanks| == 10
    ensures forall r: FiveCardHandPayoutRank :: r in AllFiveCardHandPayoutRanks
    ensures forall i, j :: 0 <= i < j < 10 ==> AllFiveCardHandPayoutRanks[i] != AllFiveCardHandPayoutRanks[j]
    ensures forall r, s: FiveCardHandPayoutRank :: FiveCardTag(r) == FiveCardTag(s) ==> r == s
  {
    forall r: FiveCardHandPayoutRank ensures r in AllFiveCardHandPayoutRanks {
      match r
      case RoyalFlush => assert AllFiveCardHandPayoutRanks[0] == r;
      case StraightFlush => assert AllFiveCardHandPayoutRanks[1] == r;
      case FourOfAKind => assert AllFiveCardHandPayoutRanks[2] == r;
      case FullHouse => assert AllFiveCardHandPayoutRanks[3] == r;
      case Flush => assert AllFiveCardHandPayoutRanks[4] == r;
      case Straight => assert AllFiveCardHandPayoutRanks[5] == r;
      case ThreeOfAKind => assert AllFiveCardHandPayoutRanks[6] == r;
      case TwoPair => assert AllFiveCardHandPayoutRanks[7] == r;
      case PairTensOrBetter => assert AllFiveCardHandPayoutRanks[8] == r;
      case AllOther => assert AllFiveCardHandPayoutRanks[9] == r;
    }
  }

  /** A hand category paired with its to-one payout multiple. */
  datatype PaytableEntry<R> = PaytableEntry(hand: R, payout: int)
}

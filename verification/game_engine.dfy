/** Dealing, settlement of the four wagers, and the two entry points. */
module GameEngine {
  import opened Errors
  import opened PokerTypes
  import opened Sequences
  import opened Deck
  import opened Shuffling
  import opened HandEvaluation
  import opened Paytables

  datatype Decision = Raise | Fold

  datatype GameConfig = GameConfig(
    shotPaytable: seq<PaytableEntry<ThreeCardHandRank>>,
    fiveShotPaytable: seq<PaytableEntry<FiveCardHandPayoutRank>>)

  const GrandSierraConfig: GameConfig :=
    GameConfig(GrandSierraShotPaytable, GrandSierraFiveShotPaytable)

  datatype DealtRoundCards = DealtRoundCards(
    holeCards: (Card, Card),
    communityCards: (Card, Card, Card))

  datatype ShotResult = ShotResult(
    hand: seq<Card>,
    evaluation: ThreeCardHandRank,
    wager: int,
    payoutMultiplier: int,
    winnings: int)

  datatype FiveShotResult = FiveShotResult(
    hand: seq<Card>,
    evaluation: FiveCardHandPayoutRank,
    wager: int,
    payoutMultiplier: int,
    winnings: int)

  /** `fiveShot` is nullable in the result type; `None` stands for null. */
  datatype RoundResult = RoundResult(
    decision: Decision,
    holeCards: (Card, Card),
    communityCards: (Card, Card, Card),
    firstShot: ShotResult,
    secondShot: ShotResult,
    thirdShot: ShotResult,
    fiveShot: Option<FiveShotResult>,
    totalBet: int,
    totalWinnings: int,
    totalNet: int)

  /** Already validated settlement inputs, with defaults filled in. */
  datatype RoundComputeOptions = RoundComputeOptions(
    firstShotBet: int,
    fiveShotBet: int,
    decision: Decision,
    config: GameConfig)

  /** Inputs of `resolveRoundFromCards`; `None` is an omitted field. */
  datatype ResolveRoundOptions = ResolveRoundOptions(
    firstShotBet: int,
    fiveShotBet: Option<int>,
    decision: Decision,
    config: Option<GameConfig>)

  /** Inputs of `playRound`. The random source is the stream of swap indices
      it would produce (see `ValidDraws`); it is read only when no pre-dealt
      cards are given. */
  datatype RoundOptions = RoundOptions(
    firstShotBet: int,
    fiveShotBet: Option<int>,
    decision: Decision,
    config: Option<GameConfig>,
    draws: seq<int>,
    preDealt: Option<DealtRoundCards>)

  /** A five-card classifier; the shipped one is `EvaluateFiveCardHand`. */
  type FiveCardEvaluator = seq<Card> -> Result<FiveCardHandPayoutRank>

  /** First-match lookup of a category's multiple; 0 when it is not listed. */
  function PayoutMultiplier<R(==)>(rank: R, table: seq<PaytableEntry<R>>): (m: int)
    ensures (forall i :: 0 <= i < |table| ==> table[i].hand != rank) ==> m == 0
    ensures forall i :: (0 <= i < |table| && table[i].hand == rank &&
      forall j :: 0 <= j < i ==> table[j].hand != rank) ==> m == table[i].payout
    ensures CategoriesUnique(table) ==>
      forall i :: 0 <= i < |table| && table[i].hand == rank ==> m == table[i].payout
    ensures PayoutsNonNegative(table) ==> m >= 0
  {
    if |table| == 0 then 0
    else if table[0].hand == rank then table[0].payout
    else
      var m := PayoutMultiplier(rank, table[1..]);
      assert forall i :: 1 <= i < |table| ==> table[i] == table[1..][i - 1];
      m
  }

  function AllCards(cards: DealtRoundCards): seq<Card> {
    [cards.holeCards.0, cards.holeCards.1,
     cards.communityCards.0, cards.communityCards.1, cards.communityCards.2]
  }

  /** The first five cards of a shuffled fresh deck: two hole cards, then
      three community cards. */
  function DealRound(draws: seq<int>): (cards: DealtRoundCards)
    requires ValidDraws(draws, 52)
    ensures AllCards(cards) == Shuffle(CreateDeck(), draws)[..5]
    ensures Distinct(AllCards(cards))
  {
    var deck := Shuffle(CreateDeck(), draws);
    ShuffledDeckDistinct(draws);
    var cards := DealtRoundCards((deck[0], deck[1]), (deck[2], deck[3], deck[4]));
    assert AllCards(cards) == deck[..5];
    cards
  }

  /** A shuffled deck still holds 52 different cards. */
  lemma ShuffledDeckDistinct(draws: seq<int>)
    requires ValidDraws(draws, 52)
    ensures Distinct(Shuffle(CreateDeck(), draws))
  {
    var deck := Shuffle(CreateDeck(), draws);
    DeckHasEveryCardOnce();
    assert forall c :: multiset(deck)[c] == multiset(CreateDeck())[c];
    CountsAtMostOneDistinct(deck);
  }

  /** Shot k is the two hole cards plus the k-th community card. */
  function ShotHand(cards: DealtRoundCards, k: nat): (hand: seq<Card>)
    requires 1 <= k <= 3
    ensures |hand| == 3
  {
    var community :=
      if k == 1 then cards.communityCards.0
      else if k == 2 then cards.communityCards.1
      else cards.communityCards.2;
    [cards.holeCards.0, cards.holeCards.1, community]
  }

  /** The 5 Shot hand: both hole cards, then the three community cards. */
  function FiveShotHand(cards: DealtRoundCards): seq<Card> {
    AllCards(cards)
  }

  function ThreeCardCategory(hand: seq<Card>): ThreeCardHandRank
    requires |hand| == 3
  {
    EvaluateThreeCardHand(hand).value
  }

  /** A settled wager: winnings are the to-one profit wager * multiplier. */
  function SettleShot(hand: seq<Card>, wager: int, multiplier: int): ShotResult
    requires |hand| == 3
  {
    ShotResult(hand, ThreeCardCategory(hand), wager, multiplier, wager * multiplier)
  }

  /** Settlement once the 5 Shot hand's category is known. On a fold the 1st
      Shot is forfeited (multiple forced to 0) and the 2nd and 3rd Shots are
      not placed; the 5 Shot is settled either way. */
  function SettleRound(cards: DealtRoundCards, options: RoundComputeOptions,
                       fiveRank: FiveCardHandPayoutRank): (r: RoundResult)
    ensures r.decision == options.decision
    ensures r.fiveShot.Some? && r.fiveShot.value.evaluation == fiveRank
    ensures r.totalBet == (if options.decision == Raise then 3 else 1) * options.firstShotBet
                          + options.fiveShotBet
    ensures r.totalNet == r.totalWinnings - r.totalBet
  {
    var b := options.firstShotBet;
    var table := options.config.shotPaytable;
    var raised := options.decision == Raise;
    var first := SettleShot(ShotHand(cards, 1), b,
      if raised then PayoutMultiplier(ThreeCardCategory(ShotHand(cards, 1)), table) else 0);
    var second := SettleShot(ShotHand(cards, 2), if raised then b else 0,
      PayoutMultiplier(ThreeCardCategory(ShotHand(cards, 2)), table));
    var third := SettleShot(ShotHand(cards, 3), if raised then b else 0,
      PayoutMultiplier(ThreeCardCategory(ShotHand(cards, 3)), table));
    var fiveMultiplier := PayoutMultiplier(fiveRank, options.config.fiveShotPaytable);
    var five := FiveShotResult(FiveShotHand(cards), fiveRank, options.fiveShotBet,
      fiveMultiplier, options.fiveShotBet * fiveMultiplier);
    var totalBet := first.wager + second.wager + third.wager + five.wager;
    var totalWinnings := first.winnings + second.winnings + third.winnings + five.winnings;
    RoundResult(options.decision, cards.holeCards, cards.communityCards,
      first, second, third, Some(five), totalBet, totalWinnings, totalWinnings - totalBet)
  }

  /** Evaluate the 5 Shot hand with `evalFive` and settle; its failure is the round's. */
  function ComputeRoundFromCards(cards: DealtRoundCards, options: RoundComputeOptions,
                                 evalFive: FiveCardEvaluator): (r: Result<RoundResult>)
    ensures forall k :: 1 <= k <= 3 ==> EvaluateThreeCardHand(ShotHand(cards, k)).Ok?
    ensures r.Err? <==> evalFive(FiveShotHand(cards)).Err?
    ensures r.Err? ==> r.error == evalFive(FiveShotHand(cards)).error
    ensures r.Ok? ==>
      && r.value.holeCards == cards.holeCards && r.value.communityCards == cards.communityCards
      && r.value.decision == options.decision
      && r.value.fiveShot.Some? && r.value.fiveShot.value.evaluation == evalFive(FiveShotHand(cards)).value
      && r.value.totalBet == (if options.decision == Raise then 3 else 1) * options.firstShotBet
                             + options.fiveShotBet
  {
    match evalFive(FiveShotHand(cards))
    case Err(e) => Err(e)
    case Ok(fiveRank) => Ok(SettleRound(cards, options, fiveRank))
  }

  /** The wager checks both entry points make, in their order. */
  function WagerError(firstShotBet: int, fiveShotBet: int): (e: Option<EngineError>)
    ensures e == None <==> firstShotBet > 0 && fiveShotBet >= 0
    ensures e != None ==> e == Some(if firstShotBet <= 0 then InvalidFirstShotBet else InvalidFiveShotBet)
  {
    if firstShotBet <= 0 then Some(InvalidFirstShotBet)
    else if fiveShotBet < 0 then Some(InvalidFiveShotBet)
    else None
  }

  function ResolveRoundFromCardsUsing(evalFive: FiveCardEvaluator, cards: DealtRoundCards,
                                      options: ResolveRoundOptions): (r: Result<RoundResult>)
    ensures r.Err? <==>
      options.firstShotBet <= 0 || Coalesce(options.fiveShotBet, 0) < 0
      || evalFive(FiveShotHand(cards)).Err?
    ensures r.Ok? ==> r.value.holeCards == cards.holeCards && r.value.communityCards == cards.communityCards
    ensures r.Ok? ==> r.value.decision == options.decision
  {
    var fiveShotBet := Coalesce(options.fiveShotBet, 0);
    var config := Coalesce(options.config, GrandSierraConfig);
    match WagerError(options.firstShotBet, fiveShotBet)
    case Some(e) => Err(e)
    case None =>
      ComputeRoundFromCards(cards,
        RoundComputeOptions(options.firstShotBet, fiveShotBet, options.decision, config), evalFive)
  }

  function PlayRoundUsing(evalFive: FiveCardEvaluator, options: RoundOptions): (r: Result<RoundResult>)
    requires options.preDealt.Some? || ValidDraws(options.draws, 52)
    ensures var cards := if options.preDealt.Some? then options.preDealt.value else DealRound(options.draws);
      && (r.Err? <==>
            options.firstShotBet <= 0 || Coalesce(options.fiveShotBet, 0) < 0
            || evalFive(FiveShotHand(cards)).Err?)
      && (r.Ok? ==> r.value.holeCards == cards.holeCards && r.value.communityCards == cards.communityCards)
    ensures options.preDealt.None? && r.Ok? ==>
      Distinct(AllCards(DealtRoundCards(r.value.holeCards, r.value.communityCards)))
  {
    var fiveShotBet := Coalesce(options.fiveShotBet, 0);
    var config := Coalesce(options.config, GrandSierraConfig);
    match WagerError(options.firstShotBet, fiveShotBet)
    case Some(e) => Err(e)
    case None =>
      var cards := if options.preDealt.Some? then options.preDealt.value else DealRound(options.draws);
      ComputeRoundFromCards(cards,
        RoundComputeOptions(options.firstShotBet, fiveShotBet, options.decision, config), evalFive)
  }

  /** The error a shipped round ends in: a wager error if the wagers are
      invalid, otherwise the five-card evaluator's failure. */
  function ShippedOutcome(firstShotBet: int, fiveShotBet: int): EngineError {
    if firstShotBet <= 0 then InvalidFirstShotBet
    else if fiveShotBet < 0 then InvalidFiveShotBet
    else FiveCardNotImplemented
  }

  /** `resolveRoundFromCards` as shipped: no call returns a result. */
  function ResolveRoundFromCards(cards: DealtRoundCards, options: ResolveRoundOptions): (r: Result<RoundResult>)
    ensures r == Err(ShippedOutcome(options.firstShotBet, Coalesce(options.fiveShotBet, 0)))
  {
    ResolveRoundFromCardsUsing(EvaluateFiveCardHand, cards, options)
  }

  /** `playRound` as shipped: no call returns a result. */
  function PlayRound(options: RoundOptions): (r: Result<RoundResult>)
    requires options.preDealt.Some? || ValidDraws(options.draws, 52)
    ensures r == Err(ShippedOutcome(options.firstShotBet, Coalesce(options.fiveShotBet, 0)))
  {
    PlayRoundUsing(EvaluateFiveCardHand, options)
  }
}

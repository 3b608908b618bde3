/** Properties of pay table lookup and of round settlement. */
module GameEngineProofs {
  import opened Errors
  import opened PokerTypes
  import opened Sequences
  import opened Deck
  import opened Shuffling
  import opened HandEvaluation
  import opened Paytables
  import opened GameEngine
  import ThreeCardReference

  /** In a table listing each category once, the lookup of the i-th category is its multiple. */
  lemma MultiplierAtEntry<R>(table: seq<PaytableEntry<R>>, i: int)
    requires CategoriesUnique(table) && 0 <= i < |table|
    ensures PayoutMultiplier(table[i].hand, table) == table[i].payout
  {
  }

  /** A category the table does not list pays nothing. */
  lemma MultiplierUnlisted<R>(table: seq<PaytableEntry<R>>, hand: R)
    requires !Lists(table, hand)
    ensures PayoutMultiplier(hand, table) == 0
  {
  }

  /** The Shot table's multiples; HighCard is not listed and pays 0. */
  lemma ShotPaytableMultipliers()
    ensures PayoutMultiplier(MiniRoyal, GrandSierraShotPaytable) == 50
    ensures PayoutMultiplier(ThreeCardHandRank.StraightFlush, GrandSierraShotPaytable) == 30
    ensures PayoutMultiplier(ThreeCardHandRank.ThreeOfAKind, GrandSierraShotPaytable) == 20
    ensures PayoutMultiplier(ThreeCardHandRank.Straight, GrandSierraShotPaytable) == 4
    ensures PayoutMultiplier(ThreeCardHandRank.Flush, GrandSierraShotPaytable) == 2
    ensures PayoutMultiplier(Pair, GrandSierraShotPaytable) == 1
    ensures PayoutMultiplier(HighCard, GrandSierraShotPaytable) == 0
  {
    ShotPaytableCategoriesUnique();
    var t := GrandSierraShotPaytable;
    MultiplierAtEntry(t, 0);
    MultiplierAtEntry(t, 1);
    MultiplierAtEntry(t, 2);
    MultiplierAtEntry(t, 3);
    MultiplierAtEntry(t, 4);
    MultiplierAtEntry(t, 5);
    MultiplierUnlisted(t, HighCard);
  }

  /** The 5 Shot table's multiples; AllOther is not listed and pays 0. */
  lemma FiveShotPaytableMultipliers()
    ensures PayoutMultiplier(RoyalFlush, GrandSierraFiveShotPaytable) == 500
    ensures PayoutMultiplier(FiveCardHandPayoutRank.StraightFlush, GrandSierraFiveShotPaytable) == 200
    ensures PayoutMultiplier(FourOfAKind, GrandSierraFiveShotPaytable) == 50
    ensures PayoutMultiplier(FullHouse, GrandSierraFiveShotPaytable) == 40
    ensures PayoutMultiplier(FiveCardHandPayoutRank.Flush, GrandSierraFiveShotPaytable) == 30
    ensures PayoutMultiplier(FiveCardHandPayoutRank.Straight, GrandSierraFiveShotPaytable) == 20
    ensures PayoutMultiplier(FiveCardHandPayoutRank.ThreeOfAKind, GrandSierraFiveShotPaytable) == 10
    ensures PayoutMultiplier(TwoPair, GrandSierraFiveShotPaytable) == 2
    ensures PayoutMultiplier(PairTensOrBetter, GrandSierraFiveShotPaytable) == 1
    ensures PayoutMultiplier(AllOther, GrandSierraFiveShotPaytable) == 0
  {
    FiveShotPaytableCategoriesUnique();
    var t := GrandSierraFiveShotPaytable;
    MultiplierAtEntry(t, 0);
    MultiplierAtEntry(t, 1);
    MultiplierAtEntry(t, 2);
    MultiplierAtEntry(t, 3);
    MultiplierAtEntry(t, 4);
    MultiplierAtEntry(t, 5);
    MultiplierAtEntry(t, 6);
    MultiplierAtEntry(t, 7);
    MultiplierAtEntry(t, 8);
    MultiplierUnlisted(t, AllOther);
  }

  /** With the Grand Sierra tables every lookup is defined and non-negative. */
  lemma GrandSierraMultipliersNonNegative(r3: ThreeCardHandRank, r5: FiveCardHandPayoutRank)
    ensures PayoutMultiplier(r3, GrandSierraConfig.shotPaytable) >= 0
    ensures PayoutMultiplier(r5, GrandSierraConfig.fiveShotPaytable) >= 0
  {
    ShotPaytablePayouts();
    FiveShotPaytablePayouts();
  }

  /** The Shot table's multiple for shot k's category. */
  function TableMultiplier(cards: DealtRoundCards, config: GameConfig, k: nat): int
    requires 1 <= k <= 3
  {
    PayoutMultiplier(ThreeCardCategory(ShotHand(cards, k)), config.shotPaytable)
  }

  /** The three Shot hands and the 5 Shot hand are built from the dealt cards
      in order, and each Shot reports its hand's classification. */
  lemma SettlementHands(cards: DealtRoundCards, o: RoundComputeOptions, fiveRank: FiveCardHandPayoutRank)
    ensures var r := SettleRound(cards, o, fiveRank);
      var (h1, h2) := cards.holeCards;
      var (c1, c2, c3) := cards.communityCards;
      && r.firstShot.hand == [h1, h2, c1]
      && r.secondShot.hand == [h1, h2, c2]
      && r.thirdShot.hand == [h1, h2, c3]
      && r.fiveShot.Some? && r.fiveShot.value.hand == [h1, h2, c1, c2, c3]
      && EvaluateThreeCardHand(r.firstShot.hand) == Ok(r.firstShot.evaluation)
      && EvaluateThreeCardHand(r.secondShot.hand) == Ok(r.secondShot.evaluation)
      && EvaluateThreeCardHand(r.thirdShot.hand) == Ok(r.thirdShot.evaluation)
      && r.fiveShot.value.evaluation == fiveRank
      && r.holeCards == cards.holeCards && r.communityCards == cards.communityCards
  {
  }

  /** On a raise every Shot carries the 1st Shot bet and is paid at its table multiple. */
  lemma RaiseSettlement(cards: DealtRoundCards, o: RoundComputeOptions, fiveRank: FiveCardHandPayoutRank)
    requires o.decision == Raise
    ensures var r := SettleRound(cards, o, fiveRank);
      var b := o.firstShotBet;
      && r.firstShot.wager == b && r.secondShot.wager == b && r.thirdShot.wager == b
      && r.firstShot.payoutMultiplier == TableMultiplier(cards, o.config, 1)
      && r.secondShot.payoutMultiplier == TableMultiplier(cards, o.config, 2)
      && r.thirdShot.payoutMultiplier == TableMultiplier(cards, o.config, 3)
      && r.firstShot.winnings == b * TableMultiplier(cards, o.config, 1)
      && r.secondShot.winnings == b * TableMultiplier(cards, o.config, 2)
      && r.thirdShot.winnings == b * TableMultiplier(cards, o.config, 3)
      && r.totalBet == 3 * b + o.fiveShotBet
  {
  }

  /** On a fold the 1st Shot is lost whatever its category, and the 2nd and
      3rd Shots carry no wager and win nothing, though their table multiples
      are still reported. */
  lemma FoldSettlement(cards: DealtRoundCards, o: RoundComputeOptions, fiveRank: FiveCardHandPayoutRank)
    requires o.decision == Fold
    ensures var r := SettleRound(cards, o, fiveRank);
      && r.firstShot.wager == o.firstShotBet
      && r.firstShot.payoutMultiplier == 0 && r.firstShot.winnings == 0
      && r.secondShot.wager == 0 && r.secondShot.winnings == 0
      && r.thirdShot.wager == 0 && r.thirdShot.winnings == 0
      && r.secondShot.payoutMultiplier == TableMultiplier(cards, o.config, 2)
      && r.thirdShot.payoutMultiplier == TableMultiplier(cards, o.config, 3)
      && r.totalBet == o.firstShotBet + o.fiveShotBet
      && r.totalWinnings == r.fiveShot.value.winnings
  {
  }

  /** The 5 Shot is a side bet: the decision does not change it, and it is never null. */
  lemma FiveShotIgnoresDecision(cards: DealtRoundCards, o: RoundComputeOptions, fiveRank: FiveCardHandPayoutRank)
    ensures var raised := SettleRound(cards, o.(decision := Raise), fiveRank);
      var folded := SettleRound(cards, o.(decision := Fold), fiveRank);
      && raised.fiveShot.Some?
      && raised.fiveShot == folded.fiveShot
      && raised.fiveShot.value.wager == o.fiveShotBet
      && raised.fiveShot.value.payoutMultiplier == PayoutMultiplier(fiveRank, o.config.fiveShotPaytable)
      && raised.fiveShot.value.winnings == o.fiveShotBet * PayoutMultiplier(fiveRank, o.config.fiveShotPaytable)
  {
  }

  /** The totals add up the four wagers and the four winnings; net is their difference. */
  lemma SettlementTotals(cards: DealtRoundCards, o: RoundComputeOptions, fiveRank: FiveCardHandPayoutRank)
    ensures var r := SettleRound(cards, o, fiveRank);
      && r.totalBet == r.firstShot.wager + r.secondShot.wager + r.thirdShot.wager + r.fiveShot.value.wager
      && r.totalWinnings == r.firstShot.winnings + r.secondShot.winnings + r.thirdShot.winnings
                            + r.fiveShot.value.winnings
      && r.totalNet == r.totalWinnings - r.totalBet
      && r.firstShot.winnings == r.firstShot.wager * r.firstShot.payoutMultiplier
      && r.secondShot.winnings == r.secondShot.wager * r.secondShot.payoutMultiplier
      && r.thirdShot.winnings == r.thirdShot.wager * r.thirdShot.payoutMultiplier
      && r.fiveShot.value.winnings == r.fiveShot.value.wager * r.fiveShot.value.payoutMultiplier
  {
  }

  /** Raising instead of folding changes the net by b times the three table
      multiples, less the two extra wagers. */
  lemma RaiseVersusFold(cards: DealtRoundCards, o: RoundComputeOptions, fiveRank: FiveCardHandPayoutRank)
    ensures var b := o.firstShotBet;
      SettleRound(cards, o.(decision := Raise), fiveRank).totalNet
        - SettleRound(cards, o.(decision := Fold), fiveRank).totalNet
      == b * (TableMultiplier(cards, o.config, 1) + TableMultiplier(cards, o.config, 2)
              + TableMultiplier(cards, o.config, 3)) - 2 * b
  {
    var b := o.firstShotBet;
    var m1, m2, m3 := TableMultiplier(cards, o.config, 1), TableMultiplier(cards, o.config, 2),
      TableMultiplier(cards, o.config, 3);
    var raised := SettleRound(cards, o.(decision := Raise), fiveRank);
    var folded := SettleRound(cards, o.(decision := Fold), fiveRank);
    RaiseSettlement(cards, o.(decision := Raise), fiveRank);
    FoldSettlement(cards, o.(decision := Fold), fiveRank);
    FiveShotIgnoresDecision(cards, o, fiveRank);
    SettlementTotals(cards, o.(decision := Raise), fiveRank);
    SettlementTotals(cards, o.(decision := Fold), fiveRank);
    var w5 := raised.fiveShot.value.winnings;
    var f := o.fiveShotBet;
    assert raised.totalNet == (b * m1 + b * m2 + b * m3 + w5) - (3 * b + f);
    assert folded.totalNet == w5 - (b + f);
    Distribute(b, m1, m2, m3);
  }

  /** Kept apart so that the solver meets the product outside the settlement's context. */
  lemma Distribute(b: int, m1: int, m2: int, m3: int)
    ensures b * (m1 + m2 + m3) == b * m1 + b * m2 + b * m3
  {
  }

  /** With valid wagers and non-negative tables nothing is negative, so a
      round never loses more than was bet. */
  lemma SettlementNonNegative(cards: DealtRoundCards, o: RoundComputeOptions, fiveRank: FiveCardHandPayoutRank)
    requires o.firstShotBet > 0 && o.fiveShotBet >= 0
    requires PayoutsNonNegative(o.config.shotPaytable) && PayoutsNonNegative(o.config.fiveShotPaytable)
    ensures var r := SettleRound(cards, o, fiveRank);
      && r.firstShot.wager >= 0 && r.secondShot.wager >= 0 && r.thirdShot.wager >= 0
      && r.fiveShot.value.wager >= 0
      && r.firstShot.payoutMultiplier >= 0 && r.secondShot.payoutMultiplier >= 0
      && r.thirdShot.payoutMultiplier >= 0 && r.fiveShot.value.payoutMultiplier >= 0
      && r.firstShot.winnings >= 0 && r.secondShot.winnings >= 0 && r.thirdShot.winnings >= 0
      && r.fiveShot.value.winnings >= 0
      && r.totalBet > 0 && r.totalWinnings >= 0 && r.totalNet >= -r.totalBet
  {
    var r := SettleRound(cards, o, fiveRank);
    SettlementTotals(cards, o, fiveRank);
    ProductNonNegative(r.firstShot.wager, r.firstShot.payoutMultiplier);
    ProductNonNegative(r.secondShot.wager, r.secondShot.payoutMultiplier);
    ProductNonNegative(r.thirdShot.wager, r.thirdShot.payoutMultiplier);
    ProductNonNegative(r.fiveShot.value.wager, r.fiveShot.value.payoutMultiplier);
  }

  /** Kept apart so that the solver meets the product outside the settlement's context. */
  lemma ProductNonNegative(a: int, b: int)
    requires a >= 0 && b >= 0
    ensures a * b >= 0
  {
  }

  function ResolveOptionsOf(o: RoundOptions): ResolveRoundOptions {
    ResolveRoundOptions(o.firstShotBet, o.fiveShotBet, o.decision, o.config)
  }

  /** Invalid wagers are rejected before any card is dealt or evaluated: the
      outcome is the same for every five-card evaluator, random stream and
      pre-dealt hand, and the 1st Shot check comes first. */
  lemma WagersCheckedFirst(ev: FiveCardEvaluator, cards: DealtRoundCards, o: RoundOptions)
    requires o.preDealt.Some? || ValidDraws(o.draws, 52)
    ensures o.firstShotBet <= 0 ==>
      && PlayRoundUsing(ev, o) == Err(InvalidFirstShotBet)
      && ResolveRoundFromCardsUsing(ev, cards, ResolveOptionsOf(o)) == Err(InvalidFirstShotBet)
    ensures o.firstShotBet > 0 && Coalesce(o.fiveShotBet, 0) < 0 ==>
      && PlayRoundUsing(ev, o) == Err(InvalidFiveShotBet)
      && ResolveRoundFromCardsUsing(ev, cards, ResolveOptionsOf(o)) == Err(InvalidFiveShotBet)
  {
  }

  /** With valid wagers the round is the settlement at the evaluator's
      category, or the evaluator's failure. */
  lemma ValidWagersSettle(ev: FiveCardEvaluator, cards: DealtRoundCards, o: ResolveRoundOptions)
    requires o.firstShotBet > 0 && Coalesce(o.fiveShotBet, 0) >= 0
    ensures var computeOptions := RoundComputeOptions(o.firstShotBet, Coalesce(o.fiveShotBet, 0), o.decision,
                                                      Coalesce(o.config, GrandSierraConfig));
      var r := ResolveRoundFromCardsUsing(ev, cards, o);
      match ev(FiveShotHand(cards))
      case Ok(rank) => r == Ok(SettleRound(cards, computeOptions, rank))
      case Err(e) => r == Err(e)
  {
  }

  /** An omitted 5 Shot bet is a bet of 0, and an omitted configuration is Grand Sierra. */
  lemma OmittedOptionsDefault(ev: FiveCardEvaluator, cards: DealtRoundCards, o: ResolveRoundOptions)
    ensures ResolveRoundFromCardsUsing(ev, cards, o.(fiveShotBet := None))
         == ResolveRoundFromCardsUsing(ev, cards, o.(fiveShotBet := Some(0)))
    ensures ResolveRoundFromCardsUsing(ev, cards, o.(config := None))
         == ResolveRoundFromCardsUsing(ev, cards, o.(config := Some(GrandSierraConfig)))
  {
  }

  /** `playRound` is `resolveRoundFromCards` on the pre-dealt cards when given,
      and on a fresh deal from the random stream otherwise. */
  lemma PlayRoundDealsThenResolves(ev: FiveCardEvaluator, o: RoundOptions)
    requires o.preDealt.Some? || ValidDraws(o.draws, 52)
    ensures o.preDealt.Some? ==>
      PlayRoundUsing(ev, o) == ResolveRoundFromCardsUsing(ev, o.preDealt.value, ResolveOptionsOf(o))
    ensures o.preDealt.None? ==>
      PlayRoundUsing(ev, o) == ResolveRoundFromCardsUsing(ev, DealRound(o.draws), ResolveOptionsOf(o))
  {
  }

  /** The cards of the engine test file: A-K of hearts in the hole, Q-J-10 of hearts on the board. */
  const HeartsRoyal: DealtRoundCards :=
    DealtRoundCards((Card(Ace, Hearts), Card(King, Hearts)),
                    (Card(Queen, Hearts), Card(Jack, Hearts), Card(Ten, Hearts)))

  /** Stands in for the missing five-card evaluator on the one hand the test
      uses, reporting what the test expects (a royal flush). */
  function RoyalFlushForHeartsRoyal(hand: seq<Card>): Result<FiveCardHandPayoutRank> {
    if hand == FiveShotHand(HeartsRoyal) then Ok(RoyalFlush) else Err(FiveCardNotImplemented)
  }

  lemma HeartsRoyalShotCategories()
    ensures ThreeCardCategory(ShotHand(HeartsRoyal, 1)) == MiniRoyal
    ensures ThreeCardCategory(ShotHand(HeartsRoyal, 2)) == ThreeCardHandRank.Flush
    ensures ThreeCardCategory(ShotHand(HeartsRoyal, 3)) == ThreeCardHandRank.Flush
  {
    HeartsRoyalShot(1);
    HeartsRoyalShot(2);
    HeartsRoyalShot(3);
  }

  lemma HeartsRoyalShot(k: int)
    requires 1 <= k <= 3
    ensures ThreeCardCategory(ShotHand(HeartsRoyal, k)) == ThreeCardReference.ReferenceCategory(ShotHand(HeartsRoyal, k))
  {
    ThreeCardReference.EvaluateMatchesReference(ShotHand(HeartsRoyal, k));
  }

  /** The raise scenario of the engine tests: bets 10 and 5 give totals 35 bet,
      3040 won, 3005 net once the 5 Shot hand is known to be a royal flush;
      the shipped engine instead fails on the same input. */
  lemma RaiseScenario()
    ensures var o := RoundOptions(10, Some(5), Raise, None, [], Some(HeartsRoyal));
      var r := PlayRoundUsing(RoyalFlushForHeartsRoyal, o);
      && r.Ok?
      && r.value.firstShot.wager == 10 && r.value.firstShot.payoutMultiplier == 50
      && r.value.firstShot.winnings == 500
      && r.value.secondShot.wager == 10 && r.value.secondShot.payoutMultiplier == 2
      && r.value.secondShot.winnings == 20
      && r.value.thirdShot.wager == 10 && r.value.thirdShot.payoutMultiplier == 2
      && r.value.thirdShot.winnings == 20
      && r.value.fiveShot == Some(FiveShotResult(FiveShotHand(HeartsRoyal), RoyalFlush, 5, 500, 2500))
      && r.value.totalBet == 35 && r.value.totalWinnings == 3040 && r.value.totalNet == 3005
      && PlayRound(o) == Err(FiveCardNotImplemented)
  {
    var o := RoundOptions(10, Some(5), Raise, None, [], Some(HeartsRoyal));
    var co := RoundComputeOptions(10, 5, Raise, GrandSierraConfig);
    HeartsRoyalSettles(o, co);
    RaiseSettlement(HeartsRoyal, co, RoyalFlush);
    FiveShotIgnoresDecision(HeartsRoyal, co, RoyalFlush);
    SettlementTotals(HeartsRoyal, co, RoyalFlush);
    HeartsRoyalMultipliers();
  }

  lemma HeartsRoyalMultipliers()
    ensures TableMultiplier(HeartsRoyal, GrandSierraConfig, 1) == 50
    ensures TableMultiplier(HeartsRoyal, GrandSierraConfig, 2) == 2
    ensures TableMultiplier(HeartsRoyal, GrandSierraConfig, 3) == 2
    ensures PayoutMultiplier(RoyalFlush, GrandSierraConfig.fiveShotPaytable) == 500
  {
    HeartsRoyalShotCategories();
    ShotPaytableMultipliers();
    FiveShotPaytableMultipliers();
  }

  /** Both entry points reduce to the settlement at a royal flush on these cards. */
  lemma HeartsRoyalSettles(o: RoundOptions, co: RoundComputeOptions)
    requires o.preDealt == Some(HeartsRoyal) && o.config == None
    requires o.firstShotBet > 0 && o.fiveShotBet.Some? && o.fiveShotBet.value >= 0
    requires co == RoundComputeOptions(o.firstShotBet, o.fiveShotBet.value, o.decision, GrandSierraConfig)
    ensures PlayRoundUsing(RoyalFlushForHeartsRoyal, o) == Ok(SettleRound(HeartsRoyal, co, RoyalFlush))
    ensures PlayRound(o) == Err(FiveCardNotImplemented)
  {
    PlayRoundDealsThenResolves(RoyalFlushForHeartsRoyal, o);
    ValidWagersSettle(RoyalFlushForHeartsRoyal, HeartsRoyal, ResolveOptionsOf(o));
  }

  /** The fold scenario of the engine tests: the Mini Royal 1st Shot is not
      paid, the 5 Shot still is; totals 15 bet, 2500 won, 2485 net. */
  lemma FoldScenario()
    ensures var o := RoundOptions(10, Some(5), Fold, None, [], Some(HeartsRoyal));
      var r := PlayRoundUsing(RoyalFlushForHeartsRoyal, o);
      && r.Ok?
      && r.value.firstShot.evaluation == MiniRoyal
      && r.value.firstShot.wager == 10 && r.value.firstShot.payoutMultiplier == 0
      && r.value.firstShot.winnings == 0
      && r.value.secondShot.wager == 0 && r.value.thirdShot.wager == 0
      && r.value.fiveShot == Some(FiveShotResult(FiveShotHand(HeartsRoyal), RoyalFlush, 5, 500, 2500))
      && r.value.totalBet == 15 && r.value.totalWinnings == 2500 && r.value.totalNet == 2485
      && PlayRound(o) == Err(FiveCardNotImplemented)
  {
    var o := RoundOptions(10, Some(5), Fold, None, [], Some(HeartsRoyal));
    var co := RoundComputeOptions(10, 5, Fold, GrandSierraConfig);
    HeartsRoyalSettles(o, co);
    FoldSettlement(HeartsRoyal, co, RoyalFlush);
    FiveShotIgnoresDecision(HeartsRoyal, co, RoyalFlush);
    SettlementTotals(HeartsRoyal, co, RoyalFlush);
    SettlementHands(HeartsRoyal, co, RoyalFlush);
    HeartsRoyalShotCategories();
    HeartsRoyalMultipliers();
  }

  /** The cards of the no-5-Shot test: three fives among the first three cards. */
  const TripFives: DealtRoundCards :=
    DealtRoundCards((Card(Five, Clubs), Card(Five, Diamonds)),
                    (Card(Five, Hearts), Card(Two, Spades), Card(Three, Clubs)))

  lemma TripFivesFirstShot()
    ensures ThreeCardCategory(ShotHand(TripFives, 1)) == ThreeCardHandRank.ThreeOfAKind
    ensures TableMultiplier(TripFives, GrandSierraConfig, 1) == 20
  {
    ThreeCardReference.EvaluateMatchesReference(ShotHand(TripFives, 1));
    ShotPaytableMultipliers();
  }

  /** The entry point reduces to the settlement at the given five-card category. */
  lemma TripFivesSettles(fiveRank: FiveCardHandPayoutRank, o: RoundOptions, co: RoundComputeOptions)
    requires o == RoundOptions(5, Some(0), Raise, None, [], Some(TripFives))
    requires co == RoundComputeOptions(5, 0, Raise, GrandSierraConfig)
    ensures PlayRoundUsing(_ => Ok(fiveRank), o) == Ok(SettleRound(TripFives, co, fiveRank))
  {
    var ev: FiveCardEvaluator := _ => Ok(fiveRank);
    PlayRoundDealsThenResolves(ev, o);
    ValidWagersSettle(ev, TripFives, ResolveOptionsOf(o));
  }

  /** The no-5-Shot scenario: trip fives pay on the 1st Shot, the 5 Shot
      wager is 0 and wins 0 whatever the five-card category. */
  lemma NoFiveShotScenario(fiveRank: FiveCardHandPayoutRank)
    ensures var o := RoundOptions(5, Some(0), Raise, None, [], Some(TripFives));
      var r := PlayRoundUsing(_ => Ok(fiveRank), o);
      && r.Ok?
      && r.value.firstShot.evaluation == ThreeCardHandRank.ThreeOfAKind
      && r.value.firstShot.payoutMultiplier == 20
      && r.value.fiveShot.Some? && r.value.fiveShot.value.wager == 0
      && r.value.fiveShot.value.winnings == 0
      && r.value.totalBet == 15
  {
    var o := RoundOptions(5, Some(0), Raise, None, [], Some(TripFives));
    var co := RoundComputeOptions(5, 0, Raise, GrandSierraConfig);
    TripFivesSettles(fiveRank, o, co);
    RaiseSettlement(TripFives, co, fiveRank);
    FiveShotIgnoresDecision(TripFives, co, fiveRank);
    SettlementTotals(TripFives, co, fiveRank);
    TripFivesFirstShot();
  }

  /** The cards of the rejection test: A-K of spades in the hole, Q-J-10 of spades on the board. */
  const SpadesRoyal: DealtRoundCards :=
    DealtRoundCards((Card(Ace, Spades), Card(King, Spades)),
                    (Card(Queen, Spades), Card(Jack, Spades), Card(Ten, Spades)))

  /** The rejection scenarios of the engine tests, whatever the five-card evaluator. */
  lemma InvalidWagerScenarios(ev: FiveCardEvaluator)
    ensures PlayRoundUsing(ev, RoundOptions(0, Some(0), Raise, None, [], Some(SpadesRoyal)))
      == Err(InvalidFirstShotBet)
    ensures PlayRoundUsing(ev, RoundOptions(5, Some(-1), Raise, None, [], Some(SpadesRoyal)))
      == Err(InvalidFiveShotBet)
  {
  }
}

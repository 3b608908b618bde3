# 3 Shot Poker round engine — a Dafny model

This project models the round-resolution engine of a "3 Shot Poker" simulator.

- **Cards.** Ranks run from 2 to 14 and there are four suits.
- **Deck.** A fresh deck holds 52 cards in a fixed order. A copying Fisher–Yates shuffle permutes it.
- **Dealing.** A round deals two hole cards and three community cards.
- **Shot hands.** The three "Shot" hands are the two hole cards plus one community card each. A classifier sorts each into seven categories, including the suited Queen-King-Ace "Mini Royal" and the A-2-3 / Q-K-A straights.
- **5 Shot hand.** The 5 Shot side bet uses all five cards.
- **Paying out.** Each wager is paid at its category's to-one multiple in an ordered pay table. The Grand Sierra tables are modelled. First match wins, and a category that is not listed pays 0.
- **Fold and raise.** On a fold, the 1st Shot is forfeited and the 2nd and 3rd Shots are never placed. The 5 Shot is settled either way.

The model is functional. The rules for the random source, errors and the five-card evaluator are:

- **Random source.** It is the stream of swap indices it would produce, in call order. The k-th draw is used at loop index `i = n - 1 - k` and lies in `0..i`.
- **Errors.** Every thrown error is a variant of `Errors.EngineError`, returned through `Result`.
- **Five-card evaluator.** The shipped one is a placeholder that fails on every input. The five-card test file, `__tests__/handEvaluation.fiveCard.test.ts`, describes a classifier, but the code has none, and this model follows the code.
  - Settlement takes the five-card category, or an evaluator, as a parameter. That way all settlement arithmetic is stated and proved.
  - The shipped entry points, `GameEngine.ResolveRoundFromCards` and `GameEngine.PlayRound`, compose with the placeholder. They are proved to end in a wager error or in `FiveCardNotImplemented`, for every input.

The modules are:

- `Errors`
- `PokerTypes`
- `Sequences`: the swap and distinctness helpers
- `Deck`
- `Shuffling`
- `HandEvaluation`
- `Paytables`
- `GameEngine`
- two proof modules:
  - `ThreeCardReference` has an independent, order-free definition of the three-card categories, and proves that the classifier equals it.
  - `GameEngineProofs` has the settlement laws and the engine test scenarios.

## Model

| member | source | states |
|---|---|---|
| PokerTypes.RanksAreTwoThroughAce | src/lib/pokerTypes.ts:10-24 | The ranks auto-increment from Two = 2. The k-th rank is k + 2, Ten..Ace are 10..14, and every rank value is listed once. |
| PokerTypes.FourDistinctSuits | src/lib/pokerTypes.ts:3-8 | There are exactly four suits. Every suit is listed, the suits are pairwise different, and so are their letter codes. |
| PokerTypes.SuitIndex | src/lib/pokerTypes.ts:3-8 | Gives each suit's position in the declaration order Clubs, Diamonds, Hearts, Spades. |
| PokerTypes.CardEqualityIsComponentwise | src/lib/pokerTypes.ts:26-29 | Two cards are equal exactly when their ranks and their suits are. |
| PokerTypes.SevenThreeCardCategories | src/lib/pokerTypes.ts:32-40 | There are exactly seven three-card categories, all different, with different string tags. |
| PokerTypes.TenFiveCardCategories | src/lib/pokerTypes.ts:43-54 | There are exactly ten five-card payout categories, all different, with different string tags. |
| Deck.SuitRow | src/lib/deck.ts:27-29 | The inner loop gives 13 cards of one suit, the k-th having the k-th rank in ascending order. |
| Deck.SuitRows | src/lib/deck.ts:26-30 | The outer loop puts the k-th rank of the s-th suit at position 13·s + k. |
| Deck.CreateDeck | src/lib/deck.ts:6-33 | The deck has 52 cards, suit-major (C, D, H, S) and rank-ascending within a suit. |
| Deck.DeckLayout | src/lib/deck.ts:9-30 | `Card(r, suit)` is at position 13·(suit index) + (r − 2). |
| Deck.DeckIndex | src/lib/deck.ts:26-30 | Position i holds rank i mod 13 (from Two) of suit i div 13. |
| Deck.DeckPosition | src/lib/deck.ts:26-30 | A card's position in the deck is determined by the card's value. |
| Deck.DeckCardsDistinct | src/lib/deck.ts:26-30 | No card of the deck occurs twice. |
| Deck.DeckHasEveryCardOnce | __tests__/deck.test.ts:14-44 | Every rank-suit pair occurs in the deck exactly once. |
| Sequences.Swap | src/lib/deck.ts:45 | The destructuring swap exchanges positions i and j, keeps the length, and leaves every other position alone. |
| Sequences.SwapPermutes | src/lib/deck.ts:45 | A swap keeps the same elements with the same multiplicities. |
| Shuffling.FisherYates | src/lib/deck.ts:43-46 | The loop from index i down to 1 keeps the length of the working copy. |
| Shuffling.FisherYatesPermutes | src/lib/deck.ts:43-46 | The loop only exchanges elements, so the result is a permutation of the input. |
| Shuffling.Shuffle | src/lib/deck.ts:39-49 | The result is a permutation of the items (same length, same multiset). For one item or none the loop does not run and the items come back as they were. |
| Shuffling.FisherYatesReadsLeadingDraws | src/lib/deck.ts:43-46 | From index i the loop reads only the first i draws. Two streams that agree on those give the same result. |
| Shuffling.ShuffleIsDeterministic | src/lib/deck.ts:39-49 | The same swap indices always give the same shuffle. Only the first n − 1 draws matter, and any stream agreeing on them is valid. |
| Shuffling.FisherYatesKeepsAbove | src/lib/deck.ts:43-46 | Once the loop has passed a position, that position is never written again. |
| Shuffling.FisherYatesFixesTop | src/lib/deck.ts:43-46 | Position i ends up holding the element that the first draw picked. |
| Shuffling.ShuffleLastIsFirstDraw | src/lib/deck.ts:43-45 | The last position of the shuffle holds `items[draws[0]]`. |
| HandEvaluation.Insert | src/lib/handEvaluation.ts:11-16 | Inserting into an ascending sequence keeps it ascending, adds one element, and adds exactly that value to the multiset. |
| HandEvaluation.SortAscending | src/lib/handEvaluation.ts:11-16 | The numeric sort returns an ascending permutation of its input. |
| HandEvaluation.RankValues | src/lib/handEvaluation.ts:11-13 | The rank of each card, in card order. |
| HandEvaluation.SortRanksAscending | src/lib/handEvaluation.ts:11-16 | The ranks of the cards as an ascending permutation. |
| HandEvaluation.IsFlush | src/lib/handEvaluation.ts:18-20 | Every card has the first card's suit. On three cards this is all three suits equal, as `ThreeCardReference.FlushIffSuited` proves. |
| HandEvaluation.IsThreeOfAKind | src/lib/handEvaluation.ts:22-25 | The three ranks are equal. `ThreeCardReference.ThreeOfAKindIff` proves the classifier reports ThreeOfAKind exactly then. |
| HandEvaluation.IsPair | src/lib/handEvaluation.ts:27-30 | Two sorted neighbours are equal. `ThreeCardReference.PairIffRepeat` proves this is some two of the three ranks being equal. |
| HandEvaluation.IsMiniRoyal | src/lib/handEvaluation.ts:33-43 | A suited hand whose sorted ranks are Q, K, A. `ThreeCardReference.MiniRoyalIff` proves this is a suited hand with rank set {Q, K, A}. |
| HandEvaluation.IsStraightThreeCard | src/lib/handEvaluation.ts:46-63 | Distinct sorted ranks that step by one, or are A-2-3 or Q-K-A. `ThreeCardReference.StraightIffRun` proves this is distinct consecutive ranks or exactly {2, 3, 14}. |
| HandEvaluation.EvaluateThreeCardHand | src/lib/handEvaluation.ts:65-68 | The classifier fails, with `WrongHandSize`, exactly when the hand does not have three cards. |
| HandEvaluation.EvaluateFiveCardHand | src/lib/handEvaluation.ts:100-103 | The shipped five-card evaluator fails on every input, whatever its size. |
| ThreeCardReference.SortedUnique | src/lib/handEvaluation.ts:11-16 | Two ascending sequences with the same multiset are equal, so the sorted ranks depend only on which ranks the hand holds. |
| ThreeCardReference.Sort3IsPermutation | src/lib/handEvaluation.ts:11-16 | Sorting three values by comparisons gives a permutation of them. |
| ThreeCardReference.SortRanksOfThree | src/lib/handEvaluation.ts:11-16 | For three cards, the sorted ranks equal the three ranks sorted by comparisons. |
| ThreeCardReference.FlushIffSuited | src/lib/handEvaluation.ts:18-20 | On three cards, `isFlush` holds exactly when all three suits are equal. |
| ThreeCardReference.PairIffRepeat | src/lib/handEvaluation.ts:27-30 | Comparing sorted neighbours finds a repeat exactly when some two of the three ranks are equal. |
| ThreeCardReference.MiniRoyalIff | src/lib/handEvaluation.ts:33-43 | `isMiniRoyal` holds exactly when the hand is suited and its rank set is {Q, K, A}. |
| ThreeCardReference.StraightIffRun | src/lib/handEvaluation.ts:46-63 | `isStraightThreeCard` holds exactly when the ranks are distinct and either consecutive or exactly {2, 3, 14}. Q-K-A is included as consecutive. |
| ThreeCardReference.EvaluateMatchesReference | src/lib/handEvaluation.ts:65-98 | On every three-card hand the classifier returns the order-free reference category. The reference checks, in order: suited {Q,K,A}; suited run; three equal ranks; run; suited; repeated rank; otherwise high card. |
| ThreeCardReference.SameCardsSameShape | src/lib/handEvaluation.ts:11-30 | Two hands holding the same cards have the same rank set and the same suitedness. |
| ThreeCardReference.ClassificationIgnoresOrder | src/lib/handEvaluation.ts:11-98 | Reordering the three cards never changes the category. |
| ThreeCardReference.SuitedQueenKingAceIsMiniRoyal | src/lib/handEvaluation.ts:73-75 | A suited Q-K-A, in any order, is a Mini Royal and never a straight flush. |
| ThreeCardReference.StraightFlushIff | src/lib/handEvaluation.ts:77-79 | The result is StraightFlush exactly when the hand is a suited run other than {Q, K, A}. This includes suited A-2-3 and 7-8-9. |
| ThreeCardReference.ThreeOfAKindIff | src/lib/handEvaluation.ts:81-83 | The result is ThreeOfAKind exactly when all three ranks are equal. |
| ThreeCardReference.StraightIff | src/lib/handEvaluation.ts:85-87 | The result is Straight exactly when the ranks form a run and the hand is not suited. |
| ThreeCardReference.FlushIff | src/lib/handEvaluation.ts:89-91 | The result is Flush exactly when the hand is suited, not a run, and not three of a kind. |
| ThreeCardReference.PairIff | src/lib/handEvaluation.ts:93-95 | The result is Pair exactly when two ranks repeat but not all three, and the hand is not suited. |
| ThreeCardReference.HighCardIff | src/lib/handEvaluation.ts:97 | The result is HighCard exactly when the ranks are distinct, not a run, and not all one suit. |
| ThreeCardReference.TopCategoryExamples | __tests__/handEvaluation.threeCard.test.ts:9-25 | A♥K♥Q♥ is a Mini Royal, 7♣8♣9♣ is a straight flush, and 5♣5♦5♠ is three of a kind. A♠2♠3♠ is an added example, not from the test file: the wrap-around run in one suit is a straight flush under the rule at src/lib/handEvaluation.ts:77-79. |
| ThreeCardReference.StraightExamples | __tests__/handEvaluation.threeCard.test.ts:27-43 | 4-5-6, A-2-3 and Q-A-K, each of mixed suits, are straights. |
| ThreeCardReference.LowCategoryExamples | __tests__/handEvaluation.threeCard.test.ts:45-74 | The test hands classify as flush, pair and high card. Hands of one and of four cards fail with `WrongHandSize`. |
| Paytables.ShotPaytableCategoriesUnique | src/lib/paytables.ts:12-20 | The Shot table lists each category at most once and does not list HighCard. |
| Paytables.ShotPaytablePayouts | src/lib/paytables.ts:12-20 | The Shot table's multiples are non-negative and strictly decrease down the list. |
| Paytables.FiveShotPaytableCategoriesUnique | src/lib/paytables.ts:22-31 | The 5 Shot table lists each category at most once and does not list AllOther. |
| Paytables.FiveShotPaytablePayouts | src/lib/paytables.ts:22-31 | The 5 Shot table's multiples are non-negative and strictly decrease down the list. |
| GameEngine.PayoutMultiplier | src/lib/gameEngine.ts:77-91 | The first-match lookup for both tables. It returns 0 for an unlisted category and the first matching entry's multiple otherwise. In a table with unique categories, that is any matching entry's multiple. A table of non-negative multiples gives a non-negative result. |
| GameEngineProofs.MultiplierAtEntry | src/lib/gameEngine.ts:77-91 | In a table listing each category once, looking up the i-th entry's category returns the i-th multiple. |
| GameEngineProofs.MultiplierUnlisted | src/lib/gameEngine.ts:77-91 | A category the table does not list is looked up as 0. |
| GameEngineProofs.ShotPaytableMultipliers | __tests__/paytables.test.ts:19-38 | The Shot table pays MiniRoyal 50, StraightFlush 30, ThreeOfAKind 20, Straight 4, Flush 2, Pair 1 and HighCard 0. |
| GameEngineProofs.FiveShotPaytableMultipliers | __tests__/paytables.test.ts:40-102 | The 5 Shot table pays 500, 200, 50, 40, 30, 20, 10, 2 and 1 from RoyalFlush down to PairTensOrBetter, and AllOther 0. |
| GameEngineProofs.GrandSierraMultipliersNonNegative | src/lib/paytables.ts:12-31 | With the Grand Sierra tables, every lookup is non-negative. |
| GameEngine.DealRound | src/lib/gameEngine.ts:93-100 | The dealt cards are the first five of the shuffled fresh deck: two hole cards, then three community cards. They are pairwise distinct. |
| GameEngine.ShuffledDeckDistinct | src/lib/gameEngine.ts:94 | A shuffled fresh deck still holds 52 different cards. |
| GameEngine.SettleRound | src/lib/gameEngine.ts:109-214 | Settlement once the 5 Shot category is known. The decision is echoed and the 5 Shot result is always present with the given category. The total bet is 3b + f on a raise and b + f on a fold, and the net is winnings minus bet. The per-Shot laws are `GameEngineProofs.SettlementHands`, `RaiseSettlement`, `FoldSettlement`, `FiveShotIgnoresDecision` and `SettlementTotals`. |
| GameEngine.ComputeRoundFromCards | src/lib/gameEngine.ts:109-214 | None of the three Shot classifications can fail, so the only failure is the five-card evaluation of [h1, h2, c1, c2, c3]. The round fails exactly when that evaluation does, and with its error. A result echoes the dealt cards and the decision, carries a 5 Shot result with the evaluated category, and has total bet 3b + f on a raise and b + f on a fold. |
| GameEngine.WagerError | src/lib/gameEngine.ts:230-235 | The wagers are accepted exactly when the 1st Shot bet is positive and the 5 Shot bet is not negative. The 1st Shot error takes precedence. |
| GameEngine.ResolveRoundFromCardsUsing | src/lib/gameEngine.ts:223-243 | The call fails exactly when the 1st Shot bet is not positive, the 5 Shot bet (0 when omitted) is negative, or the five-card evaluation fails. A result echoes the given cards and decision. |
| GameEngine.PlayRoundUsing | src/lib/gameEngine.ts:245-270 | The call fails exactly when a wager is invalid or the five-card evaluation of the round's cards fails. The round's cards are the pre-dealt ones when given and a fresh deal from the stream otherwise. A result echoes those cards, and a freshly dealt round never repeats a card. |
| GameEngine.ResolveRoundFromCards | src/lib/gameEngine.ts:223-243 | As shipped, every call fails: with the wager error when a wager is invalid, otherwise with the five-card evaluator's failure. |
| GameEngine.PlayRound | src/lib/gameEngine.ts:245-270 | As shipped, every call fails: with the wager error when a wager is invalid, otherwise with the five-card evaluator's failure. |
| GameEngineProofs.SettlementHands | src/lib/gameEngine.ts:117-182 | Shot k is [h1, h2, c_k] and the 5 Shot hand is [h1, h2, c1, c2, c3]. Each Shot reports its hand's classification, the 5 Shot reports the given category, and the dealt cards are echoed. |
| GameEngineProofs.RaiseSettlement | src/lib/gameEngine.ts:129-148 | On a raise, all three Shots carry the 1st Shot bet b. Each is paid b times its category's table multiple, and the total bet is 3b plus the 5 Shot bet. |
| GameEngineProofs.FoldSettlement | src/lib/gameEngine.ts:128-148 | On a fold, the 1st Shot keeps its wager but has multiple 0 and wins 0, whatever its category. The 2nd and 3rd Shots have wager 0 and win 0 but still report their table multiple. The total bet is b plus the 5 Shot bet. |
| GameEngineProofs.FiveShotIgnoresDecision | src/lib/gameEngine.ts:174-195 | The 5 Shot result is never null. Its wager, multiple and winnings are the same on a raise and on a fold. |
| GameEngineProofs.SettlementTotals | src/lib/gameEngine.ts:197-200 | The total bet is the sum of the four wagers and the total winnings the sum of the four winnings. The net is their difference, and each winnings is wager times multiple. |
| GameEngineProofs.RaiseVersusFold | src/lib/gameEngine.ts:128-200 | Raising instead of folding changes the net by b·(m1 + m2 + m3) − 2b. |
| GameEngineProofs.SettlementNonNegative | src/lib/gameEngine.ts:128-200 | With valid wagers and non-negative tables, every wager, multiple and winnings is non-negative, and a round never loses more than was bet. |
| GameEngineProofs.WagersCheckedFirst | src/lib/gameEngine.ts:227-262 | An invalid wager is rejected before any dealing or evaluation, by both entry points, whatever the evaluator, valid stream or pre-dealt cards. The 1st Shot check comes first. |
| GameEngineProofs.ValidWagersSettle | src/lib/gameEngine.ts:223-243 | With valid wagers, the round is the settlement at the evaluator's category, or the evaluator's failure. |
| GameEngineProofs.OmittedOptionsDefault | src/lib/gameEngine.ts:227-228 | An omitted 5 Shot bet acts as 0, and an omitted configuration acts as Grand Sierra. |
| GameEngineProofs.PlayRoundDealsThenResolves | src/lib/gameEngine.ts:262-269 | `playRound` settles the pre-dealt cards unchanged when they are given, and a fresh deal from the stream otherwise. |
| GameEngineProofs.HeartsRoyalShotCategories | __tests__/gameEngine.test.ts:10-13 | On A♥K♥ / Q♥J♥10♥, the 1st Shot is a Mini Royal and the 2nd and 3rd Shots are flushes. |
| GameEngineProofs.HeartsRoyalMultipliers | __tests__/gameEngine.test.ts:33-51 | Those Shots pay 50, 2 and 2, and a royal flush pays 500 on the 5 Shot table. |
| GameEngineProofs.HeartsRoyalSettles | __tests__/gameEngine.test.ts:24-29 | On those cards, with a royal-flush evaluator, `playRound` returns the settlement. The shipped engine returns the five-card failure. |
| GameEngineProofs.RaiseScenario | __tests__/gameEngine.test.ts:9-56 | Raise test: the Shots win 500, 20 and 20 and the 5 Shot wins 2500; 35 bet, 3040 won, 3005 net. The shipped engine fails on the same input. |
| GameEngineProofs.FoldScenario | __tests__/gameEngine.test.ts:58-96 | Fold test: the Mini Royal 1st Shot pays nothing and the 2nd and 3rd wagers are 0. The 5 Shot still wins 2500; 15 bet, 2500 won, 2485 net. |
| GameEngineProofs.TripFivesFirstShot | __tests__/gameEngine.test.ts:116-117 | 5♣5♦5♥ is three of a kind and pays 20 on the Shot table. |
| GameEngineProofs.TripFivesSettles | __tests__/gameEngine.test.ts:109-114 | On the trip-fives cards, `playRound` returns the settlement at the evaluator's category. |
| GameEngineProofs.NoFiveShotScenario | __tests__/gameEngine.test.ts:98-126 | With a 5 Shot bet of 0, the 1st Shot pays 20 and the 5 Shot has wager 0 and wins 0, whatever its category. The total bet is 15. |
| GameEngineProofs.InvalidWagerScenarios | __tests__/gameEngine.test.ts:128-158 | A 1st Shot bet of 0 is rejected as `InvalidFirstShotBet`. A 5 Shot bet of −1 is rejected as `InvalidFiveShotBet`. |

## Left out

- The UI and build files (`src/components`, `app`, `next.config.mjs`) are not part of this model. They only render, and no game flow is implemented there.
- The random source is `Math.random`, by default, or a caller's `rng`. The conversion `floor(rng() * (i + 1))` and the test's LCG generator are not modelled: floating point and mutable state have no role in the model. The stream of resulting swap indices is the input. `Shuffling.ValidDraws` states the range each index must have.
- A real five-card classifier is left out because the code does not implement one. The five-card test file describes behaviour of a classifier that does not exist. The engine's `...Using` variants take the evaluator as a parameter. The scenario lemmas use two stand-ins. `GameEngineProofs.RoyalFlushForHeartsRoyal` answers RoyalFlush for the hearts test hand only and fails on every other hand. The constant evaluator in `TripFivesSettles` and `NoFiveShotScenario` answers a given category for every hand, and those lemmas hold for every category.
- JavaScript numbers are modelled as unbounded `int`. Fractional, NaN, infinite or overflowing wagers are not modelled.
- The error messages are not modelled. Each thrown error is an `EngineError` variant.
- The engine does not check `preDealt` cards for duplicates or for a well-formed deal. The model does not either: any five cards are settled as given.
- Copying versus mutation is not modelled. Dafny sequences are values, so the shuffle cannot alter its input. The statement that the input is left unchanged therefore holds by construction and has no lemma.
- `getThreeCardPayoutMultiplier` and `getFiveCardPayoutMultiplier` have the same body. Both are the single generic `GameEngine.PayoutMultiplier`.
- HandEvaluation.IsThreeOfAKind, HandEvaluation.IsPair and HandEvaluation.IsStraightThreeCard require three cards. The source calls them only after the hand-size check, and on other lengths its destructuring would compare `undefined` values, which the model does not represent.
- Shuffling.ShuffleIsDeterministic: it relates two explicit index streams. It does not model a stateful `rng` that returns the same numbers when re-run.

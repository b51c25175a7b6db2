# Walk-forward backtest and reversible migrations

This project models the parts of the MMA modelling repository in which a wrong step is silent
and lasting, and proves what those parts promise:

* the **betting and outcome metrics** of a backtest: the flat-stake and quarter-Kelly curves, the
  losing run, grouped market scores, the event-block bootstrap;
* the **walk-forward run**: which cards a scorer may train on, which quote prices a selection, which
  attempt each bout gets, and the rows and slices built from the attempts;
* three **data migrations**: the import of legacy UFCStats identities and its removal, the collapse of
  result revisions, and the provenance links and publication proxies of result versions;
* the **evidence writer**, with a crash or an error possible before every effect on the file system.

Loops and in-place updates of the source are methods with loops; each is proved equal to a plain
function of its inputs (a product over cards, a filter, a table with exactly these rows removed), and
the results below are lemmas about those functions or postconditions of those methods. Tables are
sequences of rows in insertion order, dictionaries that are iterated keep their first-occurrence
order. Probabilities, prices and bankrolls are reals. The scorer, settlement, valuation, hashing,
serialization, the random draws and the random identifiers enter as arbitrary functions.

Some files only hold shared vocabulary (`Prelude`, `Grouping`, `Bets`, `Slices`, `Distributions`,
`Gates`, `LegacyTables`, `ResultTables`); the others follow the source, one concern each. `QuoteFacts`,
`PricedRows`, `GroupFacts`, `RunFacts`, `Training`, `LegacyText` and `LegacyContents` tell results by the
columns of the rows involved, without the functions that compute them.

## What turned out not to hold as promised

Each of these comes with the input on which it fails and the exact condition under which it holds.

* The running-peak drawdown is read as the deepest fall of the bankroll. On a path that never goes below
  zero it is (`Drawdown.NonNegativePathReads`); a won long shot followed by two hundred losses on the next
  card is misread (`KellyReading.RiseThenRuinIsMisread`). Whatever the results, the reading is right if and
  only if no card after the first one with a stake puts more than the whole bankroll at risk
  (`KellyReading.AlwaysReadsIffCovered`). The bankroll itself stays positive under losses exactly when
  every card risks less than all of it (`KellyExposure.AllLossesPositiveIff`): at one percent per bet, with
  at most 99 bets on a card (`KellyLaws.HundredLossesRuin`).
* The bootstrap always asks for returns, and for CLV and closing-EV samples as soon as any priced bet has the
  figure. But a replicate yields a return only if it holds a qualifying bet that has settled, and a closing
  figure only if it holds a qualifying bet with the figure besides (`BootstrapReach.AcceptableIff`,
  `BootstrapReach.ClvFillableIff`, `BootstrapReach.ClosingEvFillableIff`). On other bets the whole attempt
  budget is spent and no sample is kept (`BootstrapReach.UnfillableFiguresExhaustTheCap`, with bets in
  `BootstrapReach.UnfillableBets`).
* Rows built from a run do not always reconcile: an *unavailable* market may carry any family text
  through grading, and the reconciliation check then raises. `RunRows.RunReconcilesIff` gives the exact
  condition, `RunRows.UnknownUnavailableFamilyFailsTheCheck` an input.
* The joined quote can depend on the order of the candidates, even with distinct quote ids: when every match
  is later than the cutoff the first one is handed back (`QuoteOrder.LateQuotesFollowTheirOrder`), and when ids
  repeat the first newest one is chosen (`QuoteOrder.SharedIdsMakeOrderMatter`).
  `QuoteOrder.SameJoinInAnyOrderIff` says exactly when the order does not matter.
* The UFCStats removal decides which fighters to delete by their remaining links, bouts and
  participations, as its docstring says, but foreign keys also count aliases, profile and stat
  observations and result versions of other origin. `LegacyImport.Database.Downgrade` fails exactly
  when such a row remains; `LegacyRoundTrip.SourcelessAliasBlocksDowngrade` gives a database.
* The import fails on a fighter whose nickname equals the name, because the alias key repeats
  (`LegacyRoundTrip.NicknameEqualToNameBlocksUpgrade`); `LegacyUpgrade.CanUpgrade` is the exact success
  condition of `LegacyImport.Database.Upgrade`.
* Clearing and restoring publication proxies is not always the identity: a row without a tier comes back as
  `silver` (`Proxies.EmptyTierIsNotRestored`), and attributes that are not a JSON object are replaced by a
  marker (`Proxies.UnreadableAttributesAreLost`, `Proxies.ListAttributesAreNotRestored`).
  `Proxies.RoundTripIff` says exactly which tables come back with their contents.

## Model

| member | source | states |
|---|---|---|
| `Bets.StakeIsCappedAndPositiveOnlyOnEdge` | src/mma_model/value/kelly.py:28-101 | A stake lies between 0 and 1% of the bankroll, and is positive exactly when the void-aware expected profit of the bet is |
| `Bets.StakeIsQuarterKelly` | src/mma_model/value/kelly.py:28-101 | The rule answers exactly for odds above 1, a possible win and room for a loss; without an edge it stakes nothing, otherwise the void-aware edge over 4 (odds - 1) (1 - void mass), up to 1% |
| `Bets.CardOfABet` | src/mma_model/backtest/metrics.py:109-113 | A bet belongs to the card of its occurrence id, or of its event when that is missing or empty |
| `KellyPath.Group` | src/mma_model/backtest/metrics.py:781-788 | The grouping loop lists the blocks in first-occurrence order and gives each block exactly its bets, in order |
| `KellyPath.CardPnl` | src/mma_model/backtest/metrics.py:789-806 | Staking every bet of a card from the card's starting bankroll moves it by the card's summed return; the stake rule's error surfaces exactly when some settled bet cannot be staked |
| `KellyPath.CompoundCards` | src/mma_model/backtest/metrics.py:789-814 | The card loop's bankroll, peak and drawdown are those of compounding the card returns in order, and it stops at the first card with a bet that cannot be staked |
| `KellyPath.KellyBankrollPath` | src/mma_model/backtest/metrics.py:769-814 | The dict-and-order loop computes the compounded product of card returns and its running-peak drawdown, and fails exactly when some settled bet cannot be staked |
| `KellyLaws.PathShape` | src/mma_model/backtest/metrics.py:781-814 | The path has one point per distinct card after the start, each point obtained from the previous one by that card's own return |
| `KellyLaws.PathIgnoresInterleaving` | src/mma_model/backtest/metrics.py:781-814 | Any permutation of the bets that keeps the order in which cards first appear leaves the path unchanged |
| `Drawdown.DrawdownIsWorstPair` | src/mma_model/backtest/metrics.py:807-813 | The one-pass running-peak drawdown is the maximum over all pairs of an earlier and a later point, wherever no earlier point gives a deeper fall than the running peak |
| `Drawdown.RelativeBelowOneIffPositive` | src/mma_model/backtest/metrics.py:807-813 | A relative drawdown from a positive start is below 1 exactly when the path is positive |
| `Drawdown.NonNegativePathReads` | src/mma_model/backtest/metrics.py:807-813 | On a path that never goes below zero, and on one that leaves its start only for ruin, the reported drawdown is the deepest fall from a positive point |
| `KellyReading.AlwaysReadsIffCovered` | src/mma_model/backtest/metrics.py:769-814 | For a rule that does not look at results, the reported drawdown is the deepest fall under every settlement of the bets if and only if no card after the first one with a stake risks more than the whole bankroll |
| `KellyReading.ProductionRuleIsSound` | src/mma_model/backtest/metrics.py:759-766 | The production stake rule does not look at results, is never negative and stakes only at odds above 1 |
| `KellyReading.RiseThenRuinIsMisread` | src/mma_model/backtest/metrics.py:769-814 | Bets under the production rule whose path is 1, 2, -2: a drawdown of 2 is reported where the fall from the start is 3 |
| `KellyExposure.ExposureBelowOneStaysPositive` | src/mma_model/backtest/metrics.py:769-814 | With non-negative stakes that sum to less than 1 on each card and prices above 1, the bankroll stays positive and the drawdown is the worst pair and lies in [0, 1) |
| `KellyExposure.AllLossesPositiveIff` | src/mma_model/backtest/metrics.py:769-814 | If every bet loses, the bankroll stays positive if and only if each card put less than the whole bankroll at risk |
| `KellyLaws.SmallCardsStayPositive` | src/mma_model/backtest/metrics.py:759-814 | Under the production stake rule fewer than 100 settled bets per card keep the bankroll positive and the drawdown a worst pair in [0, 1) |
| `KellyLaws.HundredLossesRuin` | src/mma_model/backtest/metrics.py:791-814 | One hundred capped losses on one card take the whole bankroll: the bound of 100 is sharp |
| `KellyLaws.CapIsReached` | src/mma_model/value/kelly.py:51-84 | The production rule does stake the full cap on a clear favourite |
| `FlatMetrics.FlatEquityPath` | src/mma_model/backtest/metrics.py:738-756 | The loop computes the cumulative-profit curve and its absolute drawdown including the flat start, and fails exactly on a settled bet with invalid odds |
| `FlatMetrics.FlatDrawdownIsWorstPair` | src/mma_model/backtest/metrics.py:738-756 | The flat drawdown is the maximum of E[i] - E[j] over 0 <= i <= j with E[0] = 0 |
| `FlatMetrics.LongestLosingRun` | src/mma_model/backtest/metrics.py:718-735 | The run counter returns the longest losing run of the recursive reading, unresolved bets skipped |
| `FlatMetrics.LosingRunIsLongestSegment` | src/mma_model/backtest/metrics.py:718-735 | That number is the length of the longest all-loss segment after deleting unresolved bets |
| `FlatMetrics.LosingRunOfConcatenation` | src/mma_model/backtest/metrics.py:718-735 | Joining two histories gives at least the longer run and at most the sum |
| `BettingTotals.BettingMetrics` | src/mma_model/backtest/metrics.py:817-973 | Every reported total with its numerator and denominator, and exactly when the computation fails |
| `BettingTotals.TotalsByColumns` | src/mma_model/backtest/metrics.py:817-973 | ROI, mean CLV and mean closing EV are sums over the bets' own columns: only candidates, no unresolved bet, no closing figure under a proxy time |
| `BettingTotals.CountsByColumns` | src/mma_model/backtest/metrics.py:817-973 | The reported counts are the numbers of candidates, of resolved candidates and of candidates with proxy times, over the right denominators |
| `BettingTotals.RoiIsFinalEquity` | src/mma_model/backtest/metrics.py:817-973 | The numerator of the flat ROI is the last point of the flat equity curve of the qualifying bets |
| `BettingTotals.TotalsIgnoreInterleaving` | src/mma_model/backtest/metrics.py:817-973 | Reordering bets while keeping the order of cards leaves every reported total unchanged but the longest losing run |
| `BettingTotals.LosingRunFollowsTheOrder` | src/mma_model/backtest/metrics.py:718-735 | The losing run does depend on the order: with any win and loss of one card, the win between two losses makes it one, after them two |
| `Resample.EventBlocks` | src/mma_model/backtest/metrics.py:989-993 | The block dictionary holds, for each event and no other, exactly its bets in order |
| `Resample.BlocksPartitionBets` | src/mma_model/backtest/metrics.py:989-993 | Counted over the distinct events, every bet occurs in the blocks exactly as often as in the input |
| `Resample.TagsAreInjective` | src/mma_model/backtest/metrics.py:1007-1008 | The occurrence tag is never empty and determines the event id and the draw index, even when event ids contain `#` |
| `Resample.ResampleEventBlocks` | src/mma_model/backtest/metrics.py:996-1011 | For any drawn ids the replicate is the drawn blocks, tagged, one after the other |
| `Resample.DrawIsOneCard` | src/mma_model/backtest/metrics.py:996-1011 | Each draw is its own card: the bets under its tag are its whole block in order, repeated draws included (for every injective tagging, the one above among them) |
| `Resample.ReplicateCompoundsDrawnCards` | src/mma_model/backtest/metrics.py:996-1011 | The final bankroll of a replicate is the product of the growth of the drawn cards, counted as often as drawn (for every injective tagging) |
| `Resample.ProductionRuleIsOccurrenceBlind` | src/mma_model/backtest/metrics.py:759-766 | The production stake rule does not look at occurrence tags, as the result above asks of a rule |
| `Bootstrap.BootstrapBetting` | src/mma_model/backtest/metrics.py:1027-1142 | The loop ends within its cap at the first attempt that fills every fillable metric; samples and counts are those of the attempts made; it succeeds on computable bets |
| `Bootstrap.ReportAddsUp` | src/mma_model/backtest/metrics.py:1045-1107 | Every sample list holds exactly min(accepted, requested) values, those of CLV and closing EV counted over the attempts that bear them, and a metric is flagged insufficient only when the whole cap was spent |
| `BootstrapReach.AcceptableIff` | src/mma_model/backtest/metrics.py:1073-1089 | Some draw is accepted, and so yields a return, a drawdown and a losing run, if and only if some qualifying bet has settled |
| `BootstrapReach.ClvFillableIff` | src/mma_model/backtest/metrics.py:1057-1100 | Some draw yields a CLV sample if and only if some qualifying bet has an exact CLV and some qualifying bet has settled |
| `BootstrapReach.ClosingEvFillableIff` | src/mma_model/backtest/metrics.py:1057-1100 | Some draw yields a closing-EV sample if and only if some qualifying bet has an exact closing EV and some qualifying bet has settled |
| `BootstrapReach.UnfillableFiguresExhaustTheCap` | src/mma_model/backtest/metrics.py:1057-1107 | When the loop waits for a figure no draw can yield, be it the return, CLV or closing EV, all 50 attempts per replicate are spent and no sample of it is kept, whatever is drawn |
| `BootstrapReach.UnfillableBets` | src/mma_model/backtest/metrics.py:1057-1062 | Two lists of bets on which the guards ask for samples that cannot come |
| `Distributions.BrierRange` | src/mma_model/backtest/metrics.py:468-474 | The multiclass Brier score of a proper distribution lies in [0, 2] |
| `MarketScores.ScoredMassIsOneIffCoherent` | src/mma_model/backtest/metrics.py:498-527 | After moneyline completion, draw conditioning and the exact-round remainder the scored mass is 1 exactly when the quotes and the draw mass fit together |
| `MarketScores.ReportedBrierInRange` | src/mma_model/backtest/metrics.py:477-527 | Every Brier score reported for a coherent group lies in [0, 2] |
| `GroupFacts.GroupedTogether` | src/mma_model/backtest/metrics.py:453-461 | Rows are scored together exactly when card, bout, family and line are the same |
| `GroupFacts.GroupsAreLabelled` | src/mma_model/backtest/metrics.py:477-527 | A group is unresolved, void, pushed, refused for several winners or scored, by conditions on its rows, in the order of the source |
| `GroupFacts.LogLossOfTheWinner` | src/mma_model/backtest/metrics.py:464-527 | The log loss is that of the last probability quoted for the winning outcome, over the chance of no draw where a draw returns the stakes |
| `GroupFacts.BrierOfTheRows` | src/mma_model/backtest/metrics.py:468-527 | With one row per outcome the Brier score sums the squared misses of the quoted outcomes, the other fighter of a one-sided moneyline and the rounds not quoted |
| `MarketGroups.GroupedMarketScores` | src/mma_model/backtest/metrics.py:530-545 | Each distinct key is scored once, in first-occurrence order; scores and exclusion counts are those of the groups, and the error names a group with several winners |
| `MarketGroups.GroupsPartition` | src/mma_model/backtest/metrics.py:530-545 | Scored groups plus excluded groups equal the number of keys |
| `MarketGroups.FamilyScoresAgree` | src/mma_model/backtest/metrics.py:548-604 | Scoring all rows and keeping one family gives the same sequence as scoring that family's rows alone |
| `MarketGroups.FamilyOutcomeMetrics` | src/mma_model/backtest/metrics.py:548-604 | Per family, scores from the overall pass and exclusions from the family's own pass add up to the family's keys; the means are over those scores, and single rows are counted by settlement |
| `Quotes.PricedIffLatestIsSound` | src/mma_model/backtest/engine.py:678-727 | A selection is priced exactly when its newest quote by the cutoff is sound, none by the cutoff is ambiguous and the latest time shows one price; that quote is the price and is never later than the cutoff |
| `QuoteFacts.PricedIffLatestCanBeTaken` | src/mma_model/backtest/engine.py:678-727 | By the columns: a selection is priced exactly when the latest of its quotes in time, by time and id, is undisputed, available, eligible, not replaced and in none of six lifecycles; that quote is the price, with the number of later ones |
| `QuoteFacts.ReasonsMean` | src/mma_model/backtest/engine.py:687-727 | Each of the seven refusal reasons is given exactly where it applies, and the refused or late quote is handed back |
| `Quotes.NoLookAhead` | src/mma_model/backtest/engine.py:678-727 | With a match by the cutoff, quotes after it affect nothing but the count of ignored ones |
| `Quotes.PastAloneDecides` | src/mma_model/backtest/engine.py:678-727 | Deleting everything observed after the cutoff beforehand changes nothing but that count |
| `QuoteOrder.SameJoinInAnyOrderIff` | src/mma_model/backtest/engine.py:678-727 | The join is the same in every order of the candidates if and only if nothing matches, or nothing is on offer and all matches are one quote, or the offer is ambiguous, shows two prices at its latest time, or has one newest quote |
| `QuoteOrder.DistinctIdsOnOfferSuffice` | src/mma_model/backtest/engine.py:715-715 | Distinct quote ids settle the order whenever anything is on offer |
| `QuoteOrder.LateQuotesFollowTheirOrder` | src/mma_model/backtest/engine.py:699-706 | Two late quotes with distinct ids of which the first is handed back |
| `QuoteOrder.SharedIdsMakeOrderMatter` | src/mma_model/backtest/engine.py:715-715 | Two sound quotes with one id that are told apart only by position |
| `Splits.GroupCards` | src/mma_model/modeling/splits.py:333-373 | Grouping succeeds exactly on groupable cards and returns them sorted by cutoff and event id |
| `Splits.CardGroupsAs` | src/mma_model/modeling/splits.py:333-373 | A card is grouped exactly when it has distinct bouts and a start in a season from 2017 to 2025; the cutoff is an hour before the start and the season decides the role |
| `Splits.ScheduleInOrder` | src/mma_model/modeling/splits.py:333-373 | Cards come by cutoff and, at one cutoff, by the text order of their ids, told character by character |
| `Splits.ScheduleIsWellGrouped` | src/mma_model/modeling/splits.py:333-373 | A schedule has distinct events, distinct bouts per event, and season and role fixed by the start |
| `Folds.BuildOuterPlan` | src/mma_model/modeling/splits.py:466-558 | The outer plan is one fold per open card in order, each of them the training fold of its card; its two leakage checks can never fire |
| `Folds.FoldsTrainOnThePast` | src/mma_model/modeling/splits.py:387-415 | Every fold, that of an unsealed card included, trains on the open cards that started before the cutoff and no others, listed once each in schedule order, up to the last start among them |
| `Folds.OneTrainingFold` | src/mma_model/modeling/splits.py:387-415 | That leaves no choice: a tested card has one such fold |
| `Folds.LookupFindsOuterFold` | src/mma_model/backtest/engine.py:1926-1935 | Looking a fold up by event finds the card's own fold for open cards and none for holdout cards |
| `Folds.GateMeansNoHoldout` | src/mma_model/backtest/gates.py:109-138 | The gate passes exactly when no training id names a holdout card |
| `Folds.HoldoutGateMeans` | src/mma_model/backtest/gates.py:109-138 | For any arguments the gate refuses exactly an id that is held out or of a locked season; no locked seasons means 2025 |
| `Folds.CutoffGateMeans` | src/mma_model/backtest/gates.py:82-95 | The cutoff gate refuses exactly a training card that had not started before the cutoff |
| `Folds.EngineFoldsPassTheGates` | src/mma_model/backtest/engine.py:1942-1983 | Every fold of a run, the in-engine holdout fold included, passes the holdout, strict-cutoff and same-card gates |
| `Folds.FoldDependsOnThePast` | src/mma_model/modeling/splits.py:387-415 | Two schedules with the same cards before a cutoff give the same fold |
| `Grading.GradeBout` | src/mma_model/backtest/engine.py:1372-1548 | The grading loop yields the attempt of the specification, first failing market included; the final clean-row assertion never fires |
| `PricedRows.PricedRowIff` | src/mma_model/backtest/engine.py:1446-1508 | A market is priced exactly when it is on offer and known, some quote prices it, and settling and valuing succeed; price, probability, settlement, closing figures and void mass of the row are those of quote, market and figures |
| `PricedRows.BoutFailsIff` | src/mma_model/backtest/engine.py:1446-1508 | Grading a bout fails exactly when a market with an outcome is unknown, or the quote that prices it cannot be settled or valued |
| `PricedRows.PricedRowsFollowMarkets` | src/mma_model/backtest/engine.py:1446-1508 | The k-th priced row of a bout is that of its k-th priced market |
| `PricedRows.UnpricedRowMeans` | src/mma_model/backtest/engine.py:1280-1297 | An unpriced market keeps its columns and no betting figure; a quote that was found shows its price and evidence, a refused one is marked |
| `PricedRows.OutcomesSpelledOut` | src/mma_model/backtest/engine.py:1446-1465 | The outcomes grading accepts, by fighter, way to win and round |
| `RunFacts.AttemptReports` | src/mma_model/backtest/engine.py:1372-1445 | A bout is unavailable where the score says so, else abstained where it says so, else predicted by its first prediction, else missing its model |
| `Grading.PredictedBoutRows` | src/mma_model/backtest/engine.py:1446-1548 | A predicted bout has as many priced plus threshold rows as markets; other bouts have none, with a reason; threshold rows carry no betting figure |
| `Grading.RowsNeverLookAhead` | src/mma_model/backtest/engine.py:1446-1508 | No priced row rests on a quote observed after the card's cutoff |
| `WalkForward.RunWalkForward` | src/mma_model/backtest/engine.py:1871-2012 | The run completes exactly when the cards can be grouped, counted, scored and graded; its attempts are those of the specification and the attempt-count check never fires |
| `WalkForward.EachBoutAttemptedOnce` | src/mma_model/backtest/engine.py:1934-2012 | A completed run lists the (event, bout) pairs of the schedule exactly once, in order |
| `WalkForward.NoHoldoutInTraining` | src/mma_model/backtest/engine.py:1934-1999 | For every scorer and every completed run no scored card was given, or reported, a holdout card in training, and its fold lies strictly before the cutoff |
| `Training.AttemptsComeFromThePast` | src/mma_model/backtest/engine.py:1934-2008 | Each attempt of a completed run is locked, or graded from an answer of one estimator, free of holdout cards, to the training fold of its card |
| `WalkForward.UnsealedRunIgnoresHoldoutScores` | src/mma_model/backtest/engine.py:1936-1939 | Without access to the holdout the run never depends on what the scorer says about a holdout card |
| `WalkForward.SealingKeepsOpenCards` | src/mma_model/backtest/engine.py:1934-2008 | With and without access to the holdout a run agrees on every attempt at an open card, in order |
| `Causality.FutureCardsDoNotChangeThePast` | src/mma_model/backtest/engine.py:1934-2008 | Against a completed run, another schedule with the same cards before a time gets through them exactly when no reported training id names one of its own holdout cards, and then makes the same attempts at them |
| `Causality.RunsNeverLookAhead` | src/mma_model/backtest/engine.py:1446-1508 | In a completed run every attempt is at a bout of a card of the run, and its priced rows rest on quotes seen by the cutoff of that card |
| `Causality.LaterQuotesPriceNothing` | src/mma_model/backtest/engine.py:1446-1548 | When each bout of an open card has the same quotes by the cutoff of its own card, whatever is quoted later or for other bouts, a run makes the same priced rows, statuses, reasons and failures, for scorers that answer alike and a valuation that does not look at the count of later quotes |
| `Causality.LaterQuotesReachNoScore` | src/mma_model/backtest/walk_forward_scorer.py:134-209 | The same holds when the scorer is handed the changed quotes too and looks at their prices and flags by the cutoff |
| `Sight.ObservedPrices` | src/mma_model/backtest/walk_forward_scorer.py:490-521 | Joining each selection once, at its first quote, gives exactly the price map of the bouts at the cutoff |
| `Sight.ShownIffPriced` | src/mma_model/backtest/walk_forward_scorer.py:490-521 | A scorer is shown a price for a selection exactly when the newest quote by the cutoff is sound, and it is the price of that quote |
| `Sight.ShownAtTheLatest` | src/mma_model/backtest/walk_forward_scorer.py:490-521 | The same by the columns of the quotes |
| `Sight.FlagsMean` | src/mma_model/backtest/walk_forward_scorer.py:523-539 | A flag is up exactly when a quote of the bout seen by the cutoff carries it |
| `Sight.ViewIsOfThePast` | src/mma_model/backtest/walk_forward_scorer.py:490-539 | Quotes seen later or for other bouts change no price and no flag that a scorer is shown |
| `Precomputed.CompletionIsNeutral` | src/mma_model/backtest/engine.py:412-428 | Marking the bouts a stored score leaves out does not change the attempt of any bout of the card |
| `Precomputed.EveryBoutAnswered` | src/mma_model/backtest/engine.py:386-428 | Every bout of a replayed card has a prediction or a stated reason |
| `Precomputed.ReplayMeans` | src/mma_model/backtest/engine.py:386-428 | A stored score is refused exactly when it admits holdout training or predicts another event; otherwise its predictions and reasons stand |
| `Precomputed.ReplayPassesTheGates` | src/mma_model/backtest/engine.py:386-428 | A run over stored scores never fails a training gate, whatever training ids they claim |
| `AttemptRows.AttemptsToRows` | src/mma_model/backtest/engine.py:1576-1728 | The nested loops build one attempt row per attempt, one bet per priced row and one market row per offered market, and stop at the first failure |
| `RunFacts.FlatRowsFollowAttempts` | src/mma_model/backtest/engine.py:1604-1728 | Each attempt has one flat row with its status and counts, and its priced rows become consecutive bets with their columns |
| `RunFacts.MarketRowsFollowMarkets` | src/mma_model/backtest/engine.py:1664-1690 | The market rows of an attempt are those of its markets on offer, in order, as settled |
| `RunFacts.BetsOfARun` | src/mma_model/backtest/engine.py:1691-1728 | Every bet of a completed run is at the price of the quote that was the latest in time for a market of a bout of one of its cards |
| `AttemptRows.GradedFamily` | src/mma_model/backtest/engine.py:1466-1475 | A threshold row keeps its market's family although it takes over the columns of the rejected quote |
| `AttemptRows.RowsReconcileIff` | src/mma_model/backtest/metrics.py:1393-1478 | Rows of graded and sealed attempts pass the check exactly when every market not on offer names a known family |
| `Slices.SlicesAddUp` | src/mma_model/backtest/metrics.py:1393-1478 | Summing over distinct slice keys weighs exactly the members whose key is listed, each once |
| `Slices.OwnSlicesCoverEverything` | src/mma_model/backtest/metrics.py:1407-1431 | Slicing by the keys that occur loses nothing |
| `Breakdowns.ReconcilesIff` | src/mma_model/backtest/metrics.py:1393-1478 | For any rows, bets and market rows the ten-part check passes exactly when variants and market-row families are known, the known threshold families account for the threshold rows and the priced rows for the bets |
| `Breakdowns.SlicesSpelledOut` | src/mma_model/backtest/metrics.py:1393-1478 | The fixed slices are the two series variants and the six market families |
| `Breakdowns.ListedAccountIff` | src/mma_model/backtest/metrics.py:1429-1438 | Where rows list one family per threshold row, the families account for them exactly when all of them are known |
| `RunRows.SelectionCountsConserve` | src/mma_model/backtest/metrics.py:281-388 | Statuses partition the attempts, reason counts cover exactly the unpredicted ones, and priced plus threshold-only equals predicted exactly when every prediction yields a row |
| `RunFacts.CountsAreOfAttempts` | src/mma_model/backtest/metrics.py:281-388 | The counts are the numbers of attempts with each status, with prices, without prices and with candidates |
| `RunFacts.ReasonsAreOfAttempts` | src/mma_model/backtest/metrics.py:281-388 | Each listed reason is counted over the attempts that give it |
| `RunRows.RunSelectionConserves` | src/mma_model/backtest/engine.py:2013-2033 | The selection counts of every completed run conserve, and account for every bout of the schedule |
| `RunRows.RunReconcilesIff` | src/mma_model/backtest/engine.py:2013-2018 | A completed run's rows reconcile exactly when each market not on offer names a known family |
| `RunRows.RunRowsBuiltIff` | src/mma_model/backtest/engine.py:1664-1685 | Building the rows of a completed run fails exactly when settling some market on offer does |
| `RunRows.UnknownUnavailableFamilyFailsTheCheck` | src/mma_model/backtest/metrics.py:1429-1438 | An attempt that grades and flattens without error and fails the check |
| `LegacyImport.Database.ImportFighters` | migrations/versions/0003_import_legacy_ufcstats_ids.py:37-102 | The fighter loop adds exactly the rows of the fighters not yet linked, builds the id dictionary, and fails exactly on a clash of alias or link keys |
| `LegacyImport.Database.ImportFights` | migrations/versions/0003_import_legacy_ufcstats_ids.py:155-277 | The fight loop adds the rows of the new fights that resolve and lists exactly the others |
| `LegacyImport.Database.Upgrade` | migrations/versions/0003_import_legacy_ufcstats_ids.py:33-286 | The import succeeds exactly when every row not yet linked can be imported and leaves exactly the closed-form tables; with unresolved fights it names them and has imported everything else; rows that were there never change |
| `LegacyUpgrade.FightResolvesIff` | migrations/versions/0003_import_legacy_ufcstats_ids.py:173-196 | A fight resolves exactly when its event and fighters are known, the fighters are two people and a stated winner is one of them |
| `LegacyContents.ImportedFighter` | migrations/versions/0003_import_legacy_ufcstats_ids.py:49-63 | A new fighter is shown under one id, by a row with its name |
| `LegacyContents.ImportedAliases` | migrations/versions/0003_import_legacy_ufcstats_ids.py:77-102 | Its name and its non-empty nickname are its aliases, and there are no others |
| `LegacyContents.ImportedEvent` | migrations/versions/0003_import_legacy_ufcstats_ids.py:120-142 | A new event is a UFC event with the name, date and place of its row, completed once it has a date |
| `LegacyContents.ImportedBout` | migrations/versions/0003_import_legacy_ufcstats_ids.py:198-220 | An imported fight is exactly one bout, of the canonical event, between the canonical fighters, over three rounds in its weight class, completed once it has a winner or a method |
| `LegacyContents.ImportedLink` | migrations/versions/0003_import_legacy_ufcstats_ids.py:221-230 | It has exactly one link, to its legacy id |
| `LegacyContents.ImportedCorners` | migrations/versions/0003_import_legacy_ufcstats_ids.py:231-244 | Its participants are exactly its two fighters, each in the corner the legacy row gives |
| `LegacyContents.ImportedResult` | migrations/versions/0003_import_legacy_ufcstats_ids.py:245-277 | Its result versions are one per kind and name the canonical winner; they read win with a winner, else draw where the method says draw, else no contest where it says n, dashes and c, else nothing |
| `LegacyContents.BothVersionsImported` | migrations/versions/0003_import_legacy_ufcstats_ids.py:252-277 | The night version and the current version both exist and differ only in their kind |
| `LegacyUpgrade.SecondUpgradeChangesNothing` | migrations/versions/0003_import_legacy_ufcstats_ids.py:33-286 | A second import, at any time and with any identifiers, succeeds and changes nothing |
| `LegacyUpgrade.UpgradeKeepsReferences` | migrations/versions/0003_import_legacy_ufcstats_ids.py:33-277 | The import leaves every foreign key sound, fighters of a bout distinct and winners participants |
| `LegacyImport.Database.RemoveBouts` | migrations/versions/0003_import_legacy_ufcstats_ids.py:314-343 | The id-by-id deletes remove exactly the bouts linked to UFCStats alone, with their versions, participants and stat rows |
| `LegacyImport.Database.RemoveFighters` | migrations/versions/0003_import_legacy_ufcstats_ids.py:373-425 | UFCStats facts go, then exactly the fighters without other links, bouts or participations; it fails exactly when such a fighter is still named |
| `LegacyImport.Database.Downgrade` | migrations/versions/0003_import_legacy_ufcstats_ids.py:299-425 | From a sound database the removal succeeds exactly under CanDowngrade and leaves exactly the closed-form tables; otherwise it stops at a fighter that is still named, with only such rows gone as a full removal deletes |
| `LegacyDowngrade.BoutRowsLeft` | migrations/versions/0003_import_legacy_ufcstats_ids.py:314-343 | By the columns: links to UFCStats go, and with each bout it alone links go the bout, its versions, participants and stats, and nothing else |
| `LegacyDowngrade.EventRowsLeft` | migrations/versions/0003_import_legacy_ufcstats_ids.py:346-369 | An event goes exactly when UFCStats alone links it and no bout is left at it |
| `LegacyDowngrade.FactsLeft` | migrations/versions/0003_import_legacy_ufcstats_ids.py:378-394 | Of fighter links, aliases, profiles and stats exactly those of UFCStats go |
| `LegacyDowngrade.FighterRowsLeft` | migrations/versions/0003_import_legacy_ufcstats_ids.py:395-425 | A fighter goes exactly when UFCStats alone links it and no bout or participant names it |
| `LegacyDowngrade.StillNamedMeans` | migrations/versions/0003_import_legacy_ufcstats_ids.py:395-425 | What makes the delete of a fighter fail: an alias, a profile or stat row, or a result version that names it |
| `LegacyDowngrade.DowngradeKeepsReferences` | migrations/versions/0003_import_legacy_ufcstats_ids.py:314-425 | From a sound database no surviving row points at a deleted one |
| `LegacyDowngrade.SharedBoutsSurvive` | migrations/versions/0003_import_legacy_ufcstats_ids.py:314-343 | A bout goes exactly when UFCStats alone links it; any other keeps its participants, versions, other links, event and fighters |
| `LegacyRoundTrip.DowngradeUndoesUpgrade` | migrations/versions/0003_import_legacy_ufcstats_ids.py:33-425 | On every sound database without UFCStats rows, import and removal are the identity on all canonical tables |
| `LegacyRoundTrip.SourcelessAliasBlocksDowngrade` | migrations/versions/0003_import_legacy_ufcstats_ids.py:385-425 | A sound database on which the removal must fail |
| `LegacyRoundTrip.NicknameEqualToNameBlocksUpgrade` | migrations/versions/0003_import_legacy_ufcstats_ids.py:77-102 | A legacy fighter that cannot be imported, even into empty tables |
| `Provenance.LinkedIffMutuallyUnique` | migrations/versions/0010_result_version_provenance.py:112-143 | A version is linked to an observation exactly when each is the only one with their key, unknown exactly when no candidate has the key; a link exists exactly on linked rows |
| `Provenance.BackfillLinksThePaired` | migrations/versions/0010_result_version_provenance.py:80-152 | By the columns: a version is linked exactly to the observation, of kind bout_result or none, with which it alone agrees on bout, kind, both times and result text; unknown means none agrees |
| `Provenance.LinksAreInjective` | migrations/versions/0010_result_version_provenance.py:139-143 | No observation is linked to two versions |
| `Provenance.RowOrderDoesNotMatter` | migrations/versions/0010_result_version_provenance.py:112-152 | The same rows read in any order get the same assignments |
| `Provenance.BackfillMeetsConstraints` | migrations/versions/0010_result_version_provenance.py:266-279 | The table after the backfill meets the unique, check and foreign-key constraints |
| `ResultMigrations.ResultDatabase.DemoteContested` | migrations/versions/0010_result_version_provenance.py:139-143 | The second pass over the claim dictionary leaves every version with its final assignment |
| `ResultMigrations.ResultDatabase.BackfillProvenance` | migrations/versions/0010_result_version_provenance.py:80-152 | The two passes and the update write exactly that assignment into each version |
| `Revisions.LaneIsHighestRevision` | migrations/versions/0010_result_version_provenance.py:157-171 | The scan in revision order ends with the result of the highest revision, for every bout that has a row of the kind and no other |
| `Proxies.ClearedIff` | migrations/versions/0010_result_version_provenance.py:181-202 | An observation is cleared exactly when it is a current, unmarked publication proxy reversed by its own state or by the highest revisions of its bout |
| `Proxies.ClearedColumns` | migrations/versions/0010_result_version_provenance.py:204-214 | A cleared row has no proxy time, quality unknown and tier bronze, and stashes its proxy time, quality and non-empty tier under the three audit keys |
| `Proxies.ClearedKeepsTheRest` | migrations/versions/0010_result_version_provenance.py:204-214 | Every other column and every other attribute stays |
| `Proxies.UnknownLanesNeverReverse` | migrations/versions/0010_result_version_provenance.py:197-200 | A bout without both lanes is never reversed by them |
| `Proxies.ClearingTwice` | migrations/versions/0010_result_version_provenance.py:192-214 | Clearing a table twice is clearing it once; with other versions the second pass leaves the cleared rows alone and clears the others as it would have |
| `Proxies.RestoreUndoesClearIff` | migrations/versions/0010_result_version_provenance.py:155-240 | A cleared row gets proxy and quality back always, and all its contents back exactly when it had a tier, an empty or object-valued attributes column and none of the audit keys |
| `Proxies.RestoredColumns` | migrations/versions/0010_result_version_provenance.py:216-240 | A marked row gets proxy time, quality and tier from the stash, read as a text column stores JSON, or the two defaults; an unmarked row stays |
| `Proxies.RoundTripIff` | migrations/versions/0010_result_version_provenance.py:155-240 | Clearing and restoring a table keeps the contents of every row, unreadable attribute text included, exactly when that holds of each cleared row and no other row carries the mark |
| `Proxies.EmptyTierIsNotRestored` | migrations/versions/0010_result_version_provenance.py:204-225 | A row without a tier that comes back with one |
| `Proxies.UnreadableAttributesAreLost` | migrations/versions/0010_result_version_provenance.py:63-70 | Rows that differ only in attributes that are no object are the same after clearing and restoring; text that is no JSON never returns to the column |
| `Proxies.ListAttributesAreNotRestored` | migrations/versions/0010_result_version_provenance.py:197-240 | A row cleared by its lanes, with a tier and a list for attributes, whose contents are not restored |
| `ResultMigrations.ResultDatabase.ClearInvalidReversalProxies` | migrations/versions/0010_result_version_provenance.py:155-214 | The lane loop and the row loop clear exactly the invalid rows of the table |
| `ResultMigrations.ResultDatabase.RestoreClearedProxies` | migrations/versions/0010_result_version_provenance.py:216-240 | Unmarked rows stay as they are; a marked row gets the stashed proxy, quality and tier or the defaults, loses exactly the audit keys, and changes in nothing else |
| `Revisions.CollapseKeepsTheHighest` | migrations/versions/0005_provenance_revisions.py:156-176 | After the collapse each bout and kind that had rows has exactly one, its highest revision |
| `Revisions.CollapseKeepsLanes` | migrations/versions/0005_provenance_revisions.py:156-176 | The collapse does not change what the later lane scan reads for any bout |
| `Revisions.CollapseRestoresTheOldKey` | migrations/versions/0005_provenance_revisions.py:156-187 | After any collapse the unique key on bout and kind can be put back |
| `Revisions.CollapseIsIdentityIff` | migrations/versions/0005_provenance_revisions.py:121-177 | The collapse deletes nothing exactly when the rows already met that key |
| `ResultMigrations.ResultDatabase.CollapseRevisions` | migrations/versions/0005_provenance_revisions.py:156-176 | The group-by-group deletes below each maximum leave exactly the unbeaten rows |
| `Evidence.AttachVerifiesAndIsIdempotent` | src/mma_model/backtest/report.py:38-66 | An attached payload verifies, and attaching again changes nothing, for every hash function |
| `Evidence.VerifiesIffAttached` | src/mma_model/backtest/report.py:51-66 | A payload whose hash entry is text verifies exactly when attaching leaves it alone |
| `Evidence.OneHashOneBody` | src/mma_model/backtest/report.py:47-66 | Two payloads that verify with one stored hash have bodies of one digest |
| `Evidence.VerifiesByText` | src/mma_model/backtest/report.py:59-66 | A payload with a text for a hash verifies exactly when that text is the hash of the rest |
| `Evidence.VerifiesByValue` | src/mma_model/backtest/report.py:59-66 | Any other hash value reads as what it shows, a missing one or one that counts as false as the empty text |
| `EvidenceFiles.Store.GuardExisting` | src/mma_model/backtest/report.py:166-174 | The guard refuses exactly a file that holds other bytes |
| `EvidenceFiles.Store.AtomicWrite` | src/mma_model/backtest/report.py:146-163 | Stopped before any effect, the write leaves the target untouched and at most a prefix in the temporary file (none after an error); otherwise the target holds the whole blob and no temporary file remains |
| `EvidenceFiles.Store.WriteEvidenceFiles` | src/mma_model/backtest/report.py:177-203 | The files after a run stopped anywhere; it succeeds exactly when not refused, not stopped and the written JSON reads back and verifies; it reports an overwrite exactly when refused |
| `EvidenceRuns.FinalFilesNeverChange` | src/mma_model/backtest/report.py:146-203 | Over any sequence of runs with crashes and errors a final file never changes once it exists |
| `EvidenceRuns.FinalFilesAreWhole` | src/mma_model/backtest/report.py:146-203 | A final file that appears is the whole blob of one of the runs |
| `EvidenceRuns.RerunCompletes` | src/mma_model/backtest/report.py:177-203 | After any runs of any evidence, stopped anywhere, a run that is let finish leaves both its files whole, provided that the runs which landed in its directory write the same blobs |
| `EvidenceRuns.FurtherRunsDoNothing` | src/mma_model/backtest/report.py:142-196 | Once both files of a run are in place they stay whole through any runs of any evidence, and the run made again is accepted without an effect |
| `EvidenceRuns.FinishedDirectoryIsFrozen` | src/mma_model/backtest/report.py:142-196 | Runs into a finished directory, of whatever evidence, change no file at all |
| `EvidenceRuns.SharedDirectoryIsRefused` | src/mma_model/backtest/report.py:142-174 | Different evidence that lands in a finished directory is refused and changes nothing |
| `EvidenceRuns.SharedDirectoryIff` | src/mma_model/backtest/report.py:142-143 | Runs with one output directory share a run directory exactly when their digests agree in the first 16 characters |

## Left out

- Floating-point rounding: figures are reals; sums and products are exact.
- The logarithm in log loss is an arbitrary function; numpy quantiles and the interval ends computed from the samples are not modelled.
- The random generator: draws are an arbitrary sequence of event ids.
- SHA-256 and canonical JSON: hashing and serialization are arbitrary functions, and nothing is claimed about collisions.
- Settlement (`markets/settlement.py`) and valuation (`value/thresholds.py`): parameters of grading that may fail.
- Quote eligibility and lifecycle derivation (`backtest/quotes.py`): a quote's fields are inputs.
- Contract, data and configuration hash gates, plan verification and code-commit lookup: they only compare given values.
- `outcome_metrics`, skill and calibration blocks and `bootstrap_outcome_intervals`: they call statistics that live elsewhere.
- `breakdowns` as a report, universe filters, availability counters per market family and metric definitions: they rearrange figures that are modelled.
- Stateful scorers: a scorer is a function of the card, its fold and the prices and flags it reads off the quotes; what it keeps from card to card is not modelled.
- Text keys of selections: the price map of a scorer is keyed by the selection itself, so two selections never share a key.
- Detail texts, quote hashes and source-quality notes of an attempt carry no decision and are dropped.
- Market derivation (`markets/derive.py`): the coherence it should establish is a hypothesis of the score lemmas.
- SQLAlchemy and Alembic mechanics, schema changes, indexes and transactions: only rows, keys and the effect of inserts, updates and deletes are modelled; surrogate row numbers are dropped, so rows are told apart by their contents.
- Date parsing in the result migrations: times are already instants, and text that does not parse is outside the model.
- LegacyImport.Database.Upgrade: after a repeated alias or link key it says that earlier rows are untouched but not which new rows were already inserted; whether they persist is up to the surrounding transaction.
- AttemptRows.AttemptsToRows: outcome observations and the per-row lists of available and unavailable families are not built; no check of the run looks at them.
- LegacyUpgrade.SecondUpgradeChangesNothing: identifiers of the first import are assumed new and non-empty, as random version 4 UUIDs are.
- EvidenceFiles.Store.AtomicWrite: durability of `fsync` and renames across a power failure is taken for granted, and one writer runs at a time.
- EvidenceFiles.Store.WriteEvidenceFiles: the temporary names are assumed unused, which `mkstemp` guarantees.
- Command line, web interface, deployment checks, secret scanning and the spike scripts.

# Investment advisor core, in Dafny

This project models the core of a small single-page investment advisor. The app has four parts:

- **Risk questionnaire.** It has five questions: age, income, horizon, risk tolerance, and a multiple-choice list of financial goals. The answers give a 0–100 risk score. The score then picks one of four equity/debt/government allocations.
- **Recommendation screen.** It filters the fixed catalog of twelve mutual funds and bonds by that score and ranks them. It shows the top three equities and the top two debt and government instruments. Each card has an "Invest Now" button that buys one unit.
- **Simulated ledger.** It starts with ₹1,00,000 of cash. It executes buys and sells at weighted-average cost, keeps a transaction log and re-marks prices.
- **Display pages.** The Simulator, Profile and Home pages show totals computed from the ledger: portfolio value, invested value, profit and loss, and a guarded percentage. They also provide a case-insensitive search, risk-band labels and "first k holdings" slices.

Modules, one per source file:

| module | file | models |
|---|---|---|
| `Wrappers` | wrappers.dfy | `Option`, and the JavaScript `filter`, `reverse` and `slice(0, k)` as sequence functions |
| `MockData` | mock_data.dfy | the `Investment` record and the twelve-entry `investments` catalog (`src/data/mockData.ts`) |
| `PortfolioContext` | portfolio_context.dfy | the ledger (`src/contexts/PortfolioContext.tsx`): the specification `ApplyTrade` on snapshots, and the class `Portfolio`, whose methods update `cash`, `holdings` and `transactions` in place and are proved against it |
| `Totals` | totals.dfy | the `reduce` totals and the guarded percentage that the Simulator, Profile and Home pages share (each page repeats the same formulas) |
| `RiskQuiz` | risk_quiz.dfy | the option tables, the accumulating `calculateRiskScore` as a method with its reference function `RiskScore`, `getAllocation`, `handleAnswer`, `canProceed`, and the class `QuizSession` for the question index |
| `Recommendations` | recommendations.dfy | the `filter → sort → slice` chains, with JavaScript's stable sort modelled as an insertion sort, and the "Invest Now" order |
| `RecommendationFixtures` | recommendation_fixtures.dfy | the recommendation lists computed on the real catalog, for every score band |
| `Simulator` | simulator.dfy | search, selection, the trade handler with its alerts, the `parseInt(...) \|\| 1` quantity input, and the newest-first history |
| `Profile` | profile.dfy | the risk label and colour bands, and the five-row holdings breakdown with its "and N more" count |
| `Home` | home.dfy | the three quick stats, the three most recent holdings, and the per-holding gain badge |

Numbers:

- JavaScript numbers are modelled as exact `real`s, and `Math.round(x)` as `⌊x + 0.5⌋`.
- Quantities are `real` in the ledger, because the ledger accepts whatever number it is given. The Simulator's parsed quantity is an `int` converted on the way in.

## Model

| member | source | states |
|---|---|---|
| Wrappers.Filter | src/pages/RiskQuiz.tsx:98 | the result keeps every occurrence of each element that satisfies the predicate and drops every other; `Wrappers.FilterAppend` states that the input order is kept |
| Wrappers.Reverse | src/pages/Simulator.tsx:296 | the copy has the same length, and its k-th entry is the input's (n−1−k)-th |
| Wrappers.FilterAppend | src/pages/RiskQuiz.tsx:98 | filtering a concatenation is the concatenation of the filtered parts, so the kept elements stay in input order |
| Wrappers.ReverseAppend | src/pages/Simulator.tsx:296 | reversing a log after one append puts the new entry first, ahead of the old reversed log |
| Wrappers.Take | src/pages/Profile.tsx:228 | `slice(0, k)` is the prefix of length min(k, n) |
| MockData.SymbolsDistinct | src/data/mockData.ts:14-164 | the catalog has 12 entries with pairwise distinct symbols |
| MockData.CatalogLayout | src/data/mockData.ts:15-163 | entries 0–4 are equity, 5–8 are debt and 9–11 are government |
| MockData.NoLowRiskEquity | src/data/mockData.ts:15-76 | no equity in the catalog is low-risk |
| MockData.FiguresPositive | src/data/mockData.ts:14-164 | every price, three-year return, volatility and expense ratio is positive |
| PortfolioContext.FindHolding | src/contexts/PortfolioContext.tsx:84 | `find` by symbol: the first index holding that symbol; `None` exactly when no holding has it |
| PortfolioContext.FindIndex | src/contexts/PortfolioContext.tsx:103 | the loop's index is below the length exactly when `find` succeeds, and then it is the same index |
| PortfolioContext.WithoutSymbolKeeps | src/contexts/PortfolioContext.tsx:112 | the filter keeps exactly the holdings with another symbol |
| PortfolioContext.RemoveDistinct | src/contexts/PortfolioContext.tsx:111-113 | when symbols are distinct, filtering out the sold symbol removes just that position and keeps the order of the others |
| PortfolioContext.WithoutAbsent | src/contexts/PortfolioContext.tsx:112 | filtering out a symbol that no holding has leaves the list unchanged |
| PortfolioContext.Portfolio.constructor | src/contexts/PortfolioContext.tsx:36-40 | the ledger starts with cash 100000, no holdings and no transactions |
| PortfolioContext.Portfolio.ExecuteTrade | src/contexts/PortfolioContext.tsx:65-130 | returns true exactly when `ApplyTrade` succeeds; the new cash, holdings and log are its result; on false nothing changes; distinct symbols are preserved |
| PortfolioContext.Portfolio.BuyInPlace | src/contexts/PortfolioContext.tsx:81-100 | debits the trade value, merges into or appends the holding, and leaves the log alone |
| PortfolioContext.Portfolio.SellInPlace | src/contexts/PortfolioContext.tsx:103-113 | succeeds exactly when the symbol is held with at least the quantity; then credits the value and reduces or removes the holding; otherwise changes nothing |
| PortfolioContext.Portfolio.UpdatePrices | src/contexts/PortfolioContext.tsx:132-140 | the holdings become the re-marked list; cash and transactions are unchanged |
| PortfolioContext.ApplyBuy | src/contexts/PortfolioContext.tsx:73-100 | the buy branch: refused when cash < q × p, else cash debited, the holding merged or appended, one record logged; its properties are `BuyNeedsFunds`, `BuyDebitsAndLogs`, `BuyMergesHolding` and `BuyAppendsNewHolding` |
| PortfolioContext.ApplySell | src/contexts/PortfolioContext.tsx:101-125 | the sell branch: refused without a covering holding, else cash credited, the holding reduced or removed, one record logged; its properties are `SellNeedsShares`, `SellLeavesSold` and `SellReducesHolding` |
| PortfolioContext.ApplyTrade | src/contexts/PortfolioContext.tsx:65-130 | `executeTrade` on ledger values, `None` for `false`; its invariants are `TradePreservesDistinct` and `TradePreservesWellFormed`, and `Portfolio.ExecuteTrade` is proved against it |
| PortfolioContext.Repriced | src/contexts/PortfolioContext.tsx:132-137 | the `map` of `updatePrices` keeps the number of holdings; `RepricedKeepsAllButPrice`, `RepricedIdempotent` and `RepricedWellFormed` state the rest |
| PortfolioContext.FindDistinct | src/contexts/PortfolioContext.tsx:84 | with distinct symbols, looking up a holding's own symbol finds that holding |
| PortfolioContext.BuyNeedsFunds | src/contexts/PortfolioContext.tsx:73-77 | a buy is refused exactly when cash < quantity × price |
| PortfolioContext.BuyDebitsAndLogs | src/contexts/PortfolioContext.tsx:75-125 | an affordable buy lowers cash by exactly quantity × price and appends one buy record with the order's symbol, quantity and price |
| PortfolioContext.MergeCostBasis | src/contexts/PortfolioContext.tsx:86-88 | the weighted-average merge raises quantity × avgPrice by exactly q × p |
| PortfolioContext.BuyMergesHolding | src/contexts/PortfolioContext.tsx:84-90 | buying a held symbol sets quantity to old + q, the average to the weighted mean and the current price to p; it keeps name and type and touches no other holding |
| PortfolioContext.BuyAppendsNewHolding | src/contexts/PortfolioContext.tsx:91-100 | buying an unheld symbol appends one holding at the end, with avgPrice = currentPrice = p |
| PortfolioContext.SellNeedsShares | src/contexts/PortfolioContext.tsx:103-106 | a sell is refused exactly when no holding of that symbol has at least the quantity |
| PortfolioContext.SellLeavesSold | src/contexts/PortfolioContext.tsx:108-125 | a covered sell credits q × p, leaves the sold holdings and appends one record |
| PortfolioContext.SellReducesHolding | src/contexts/PortfolioContext.tsx:108-113 | a covered sell removes the holding when it reaches zero and keeps the others in order; otherwise it lowers the quantity in place and keeps the average price |
| PortfolioContext.BuyPreservesDistinct | src/contexts/PortfolioContext.tsx:84-100 | a buy never creates a second holding for a symbol |
| PortfolioContext.SellPreservesDistinct | src/contexts/PortfolioContext.tsx:103-113 | a sell keeps the holding symbols distinct |
| PortfolioContext.TradePreservesDistinct | src/contexts/PortfolioContext.tsx:65-130 | every trade keeps the holding symbols distinct |
| PortfolioContext.BuyPreservesWellFormed | src/contexts/PortfolioContext.tsx:75-100 | with positive quantity and price, a buy keeps cash ≥ 0, symbols distinct and every holding's quantity and prices positive |
| PortfolioContext.SellPreservesWellFormed | src/contexts/PortfolioContext.tsx:103-113 | the same invariant across a sell: a holding that reaches zero is removed, so no zero-quantity holding remains |
| PortfolioContext.TradePreservesWellFormed | src/contexts/PortfolioContext.tsx:65-130 | the same invariant across any trade with positive quantity and price |
| PortfolioContext.RepricedKeepsAllButPrice | src/contexts/PortfolioContext.tsx:134-137 | re-marking keeps the length, order and every field except currentPrice, which becomes the mapped price when present and non-zero and stays the old price otherwise |
| PortfolioContext.RepricedIdempotent | src/contexts/PortfolioContext.tsx:132-140 | applying the same price map twice equals applying it once |
| PortfolioContext.RepricedWellFormed | src/contexts/PortfolioContext.tsx:134-137 | re-marking with non-negative prices keeps the ledger invariant |
| PortfolioContext.WorkedExample | src/contexts/PortfolioContext.tsx:65-130 | buy 10 at 100, buy 5 at 120, then sell 15 at 130: cash is 99000, then 98400 with an average of 1600/15, then 100350 with no holdings and three records |
| Totals.TotalPortfolioValue | src/pages/Simulator.tsx:13-16 | the `reduce` seeded with cash; `TotalIsCashPlusInvested` states it is cash plus the invested value, and the trade lemmas below how it moves |
| Totals.TotalInvestmentValue | src/pages/Simulator.tsx:18-21 | the `reduce` seeded with 0; `FoldIsSum` and `TotalIsCashPlusInvested` state it is the sum of quantity × currentPrice |
| Totals.TotalGainLoss | src/pages/Simulator.tsx:23-26 | the P&L `reduce`; `GainIsValueMinusCost` and `GainLossIsInvestedMinusCost` state it is invested value minus cost basis |
| Totals.ChangePercent | src/pages/Home.tsx:32 | the guarded percentage; `ChangePercentTone` and `ChangePercentBelowHundred` state its sign and bound |
| Totals.HoldingPercent | src/pages/Profile.tsx:241 | the percentage is defined exactly when avgPrice ≠ 0, and then percent × avgPrice = (currentPrice − avgPrice) × 100 |
| Totals.FoldIsSum | src/pages/Simulator.tsx:13-21 | a left `reduce` seeded with `start` equals start plus the sum |
| Totals.ValueMinusCost | src/pages/Simulator.tsx:24 | a holding's gain is its market value minus its cost basis |
| Totals.TotalIsCashPlusInvested | src/pages/Simulator.tsx:13-21 | the invested value is the sum of quantity × currentPrice, and the total is cash plus that |
| Totals.GainIsValueMinusCost | src/pages/Simulator.tsx:23-26 | summed over holdings, P&L is market value minus cost basis |
| Totals.GainLossIsInvestedMinusCost | src/pages/Simulator.tsx:23-26 | the P&L fold equals the invested value minus the total cost basis |
| Totals.BuyConservesCashPlusCost | src/contexts/PortfolioContext.tsx:81-100 | a buy moves money from cash into cost basis: cash + Σ cost basis is unchanged |
| Totals.SellRealisesGain | src/contexts/PortfolioContext.tsx:108-113 | a sell raises cash + Σ cost basis by exactly q × (price − avgPrice), the realised gain |
| Totals.SellRevaluesAtMark | src/pages/Simulator.tsx:13-16 | after a sell, the total portfolio value changes by q × (sale price − previous mark) |
| Totals.BuyRevaluesAtMark | src/pages/Simulator.tsx:13-16 | a buy of a new symbol leaves the total value unchanged; a buy into a held symbol re-marks the old units at the new price and changes the total by exactly that |
| Totals.ChangePercentTone | src/pages/Home.tsx:32 | with invested value > 0 the percentage has the sign of the P&L; otherwise it is 0, so there is never a division by zero |
| Totals.ChangePercentBelowHundred | src/pages/Home.tsx:32 | with positive holdings, the invested value is positive and the percentage is below 100 |
| Totals.ToneFollowsPercent | src/pages/Profile.tsx:238-241 | with a positive average price, the percentage exists and its colour is green exactly when it is ≥ 0 |
| RiskQuiz.Round | src/pages/RiskQuiz.tsx:156 | `Math.round` returns the integer within half a unit below and strictly less than half a unit above (ties go up) |
| RiskQuiz.FindWeight | src/pages/RiskQuiz.tsx:112 | `options.find`: a weight exactly when the value is offered, and then it is that option's weight |
| RiskQuiz.FindGoalWeight | src/pages/RiskQuiz.tsx:149 | the goal lookup is `None` exactly when no goal option has the tag |
| RiskQuiz.GoalWeight | src/pages/RiskQuiz.tsx:149 | `?.weight \|\| 0`: an unknown tag weighs 0, and a known one weighs between 0.2 and 0.9 |
| RiskQuiz.RiskScore | src/pages/RiskQuiz.tsx:106-157 | the reference score: Round of the weighted total when something counts, else 0; `CalculateRiskScore` is proved equal to it and `CompleteScoreRange` bounds it |
| RiskQuiz.CalculateRiskScore | src/pages/RiskQuiz.tsx:106-157 | the accumulating loop returns the rounded weighted total of the counted categories, and 0 when none counted |
| RiskQuiz.GoalWeightSumBounds | src/pages/RiskQuiz.tsx:148-151 | n known goals sum to between 0.2n and 0.9n |
| RiskQuiz.GoalMeanBounds | src/pages/RiskQuiz.tsx:151 | the mean weight of known goals lies in [0.2, 0.9] |
| RiskQuiz.TableWeights | src/pages/RiskQuiz.tsx:14-84 | each option table's weights lie in its stated band, and no option value is 0 |
| RiskQuiz.TablesDistinct | src/pages/RiskQuiz.tsx:14-84 | option values are distinct within each table |
| RiskQuiz.CompleteScoreRange | src/pages/RiskQuiz.tsx:106-156 | with a valid option in every category and known goals, the score lies in 15..97 |
| RiskQuiz.SelectContributionAt | src/pages/RiskQuiz.tsx:111-117 | answering option k adds weight_k × category weight |
| RiskQuiz.SingleGoalContribution | src/pages/RiskQuiz.tsx:147-154 | a single goal contributes its weight × 10 |
| RiskQuiz.ScoreMinimum | src/pages/RiskQuiz.tsx:106-156 | the most cautious answers score 15 |
| RiskQuiz.ScoreMaximum | src/pages/RiskQuiz.tsx:106-156 | the boldest answers score 97 |
| RiskQuiz.UnansweredScoresZero | src/pages/RiskQuiz.tsx:156 | when no category counts, the score is 0 |
| RiskQuiz.PartialAnswersNotRenormalised | src/pages/RiskQuiz.tsx:156 | the total is never divided by the counted weight: answering only age 35 scores 23, not 90 |
| RiskQuiz.UnknownGoalDilutes | src/pages/RiskQuiz.tsx:148-151 | an unknown goal tag adds nothing to the sum but still counts in the divisor of the mean |
| RiskQuiz.GetAllocation | src/pages/RiskQuiz.tsx:159-169 | every allocation has three positive parts that sum to 100 |
| RiskQuiz.AllocationMonotone | src/pages/RiskQuiz.tsx:159-169 | a higher score never lowers equity and never raises debt or government |
| RiskQuiz.AllocationExamples | src/pages/RiskQuiz.tsx:159-169 | the band edges 30, 50 and 70 are inclusive upper bounds |
| RiskQuiz.ToggleGoal | src/pages/RiskQuiz.tsx:97-99 | the goal is present afterwards exactly when it was absent before; other goals are unaffected; no duplicates arise |
| RiskQuiz.ToggleTwiceRestores | src/pages/RiskQuiz.tsx:97-99 | toggling an absent goal twice restores the list |
| RiskQuiz.ToggleTwiceReorders | src/pages/RiskQuiz.tsx:97-99 | toggling a present goal twice moves it to the end; on a duplicate-free list the multiset of goals is unchanged |
| RiskQuiz.FilterOutCount | src/pages/RiskQuiz.tsx:98 | removing a goal zeroes its count and keeps every other count |
| RiskQuiz.HandleAnswer | src/pages/RiskQuiz.tsx:94-104 | a select answer sets its field and nothing else; a goal answer replaces the list (or [] when unset) by `ToggleGoal` of it, so the tag flips and every other goal is kept, and leaves the other fields |
| RiskQuiz.AnswerEnablesProceed | src/pages/RiskQuiz.tsx:94-104 | answering the current single-choice question always enables Next; on the goals question, picking a tag not yet chosen enables it, and deselecting the only chosen tag disables it |
| RiskQuiz.ProceedEverywhereAnswersAll | src/pages/RiskQuiz.tsx:171-177 | if every question lets the user proceed, all five answers are present |
| RiskQuiz.QuizSession.constructor | src/pages/RiskQuiz.tsx:89-92 | the quiz starts at question 0 with an empty goal list |
| RiskQuiz.QuizSession.Answer | src/pages/RiskQuiz.tsx:94-104 | records the answer to the current question without moving |
| RiskQuiz.QuizSession.Next | src/pages/RiskQuiz.tsx:179-200 | advances the index up to the last question; on the last question it yields the profile with the computed score, its allocation and 0 or [] for missing answers |
| RiskQuiz.QuizSession.Previous | src/pages/RiskQuiz.tsx:202-206 | steps back, never below 0; the index stays within 0..4 |
| Recommendations.Eligible | src/pages/Recommendations.tsx:20-24 | the risk gate of the equity filter; `GateMonotone` and `GateBands` state its bands |
| Recommendations.GateMonotone | src/pages/Recommendations.tsx:20-24 | a higher score never closes the gate on an instrument a lower score admitted |
| Recommendations.GateBands | src/pages/Recommendations.tsx:20-24 | up to 30 only low-risk passes, up to 50 no high-risk passes, above 50 everything passes |
| Recommendations.SortBy | src/pages/Recommendations.tsx:25-28 | the stable sort by a comparator key, as an insertion sort; `SortByPermutes`, `SortBySorted` and `SortStable` state that it is a stable sorting permutation |
| Recommendations.SortByPermutes | src/pages/Recommendations.tsx:25-28 | sorting is a permutation |
| Recommendations.SortBySorted | src/pages/Recommendations.tsx:25-28 | the sorted list is ordered by the comparator's key |
| Recommendations.SortStable | src/pages/Recommendations.tsx:25-28 | entries with equal keys keep their catalog order |
| Recommendations.TopK | src/pages/Recommendations.tsx:25-29 | `sort(...).slice(0, n)`; `TopKSelects` states its length, order, origin and stability |
| Recommendations.TopKSelects | src/pages/Recommendations.tsx:25-29 | the first k of the sorted list: exactly min(k, n) entries, sorted, a sub-multiset, stable per key, and no left-out entry ranks strictly ahead |
| Recommendations.OfKindKeeps | src/pages/Recommendations.tsx:19 | the type filter keeps exactly the catalog entries of that type |
| Recommendations.GatedKeeps | src/pages/Recommendations.tsx:20-24 | the risk filter keeps exactly the entries the gate admits |
| Recommendations.EquityCandidatesKeep | src/pages/Recommendations.tsx:18-24 | the equity candidates are the admitted catalog equities, without new repeats |
| Recommendations.Picks | src/pages/Recommendations.tsx:25-29 | a selection has exactly min(k, number of candidates) entries, drawn from the candidates, sorted, stable, distinct when they are, and no omitted candidate ranks ahead |
| Recommendations.EquityRecs | src/pages/Recommendations.tsx:18-29 | min(3, number of admitted equities) catalog equities, each admitted by the gate, ordered by volatility up to a score of 40 and by return above, distinct when the catalog is |
| Recommendations.BondRecs | src/pages/Recommendations.tsx:31-39 | min(2, number of that type) catalog instruments of the given type, by descending return, distinct when the catalog is |
| Recommendations.Recommend | src/pages/Recommendations.tsx:12-42 | no profile gives three empty lists; otherwise at most 3/2/2 entries of the right type from the catalog, equities admitted by the gate, ordered by volatility up to 40 and by return above 40, bonds by return, all distinct when the catalog is |
| Recommendations.RecommendUnfolds | src/pages/Recommendations.tsx:18-39 | each list is the first k of a stable sort of the filtered catalog |
| Recommendations.EquityIsStableTopK | src/pages/Recommendations.tsx:18-29 | the equity list is stable and no omitted eligible equity ranks ahead of a chosen one |
| Recommendations.DebtIsStableTopK | src/pages/Recommendations.tsx:31-34 | the same for the debt list |
| Recommendations.GovernmentIsStableTopK | src/pages/Recommendations.tsx:36-39 | the same for the government list |
| Recommendations.InvestNowEffect | src/pages/Recommendations.tsx:192-204 | the click succeeds exactly when cash covers one unit; it then debits that price and logs one buy of 1 |
| RecommendationFixtures.CatalogHasShape | src/data/mockData.ts:14-164 | the catalog's types, risk levels, returns and volatilities as the recommendation ranking needs them |
| RecommendationFixtures.DebtOrder | src/pages/Recommendations.tsx:33 | the four debt returns 6.8, 7.2, 8.5 and 7.8 sort to 8.5, 7.8, 7.2, 6.8 |
| RecommendationFixtures.GovernmentOrder | src/pages/Recommendations.tsx:38 | the government returns 6.2, 5.9 and 6.0 sort to 6.2, 6.0, 5.9 |
| RecommendationFixtures.ModerateByVolatility | src/pages/Recommendations.tsx:26 | the three medium-risk equities sorted by volatility |
| RecommendationFixtures.ModerateByReturn | src/pages/Recommendations.tsx:27 | the three medium-risk equities sorted by return |
| RecommendationFixtures.AllEquityByReturn | src/pages/Recommendations.tsx:27 | all five equities sorted by return |
| RecommendationFixtures.CautiousGate | src/pages/Recommendations.tsx:21 | up to score 30, no equity that is not low-risk passes |
| RecommendationFixtures.ModerateGate | src/pages/Recommendations.tsx:22 | from 31 to 50, the medium-risk equities pass and the high-risk ones do not |
| RecommendationFixtures.DebtPicksOf | src/pages/Recommendations.tsx:31-34 | for any score, the debt picks are entries 7 and 8 |
| RecommendationFixtures.GovernmentPicksOf | src/pages/Recommendations.tsx:36-39 | for any score, the government picks are entries 9 and 11 |
| RecommendationFixtures.EquityPicksOf | src/pages/Recommendations.tsx:18-29 | the equity picks for each band of the score |
| RecommendationFixtures.CatalogBondPicks | src/pages/Recommendations.tsx:31-39 | on the real catalog: AXISCREDIT and UTILTDURATION, then GILT10Y and ICICIGILT |
| RecommendationFixtures.CatalogEquityPicks | src/pages/Recommendations.tsx:18-29 | on the real catalog: none up to 30; three medium-risk funds by volatility up to 40 and by return up to 50; SBISMALLCAP, MOTILALMIDCAP and ICICIPRU above 50 |
| Simulator.Lower | src/pages/Simulator.tsx:29 | lower-casing keeps the length and maps each character |
| Simulator.IncludesOccurs | src/pages/Simulator.tsx:29 | `includes` holds exactly when the term occurs at some position |
| Simulator.IncludesEmpty | src/pages/Simulator.tsx:29 | every string includes the empty term |
| Simulator.Search | src/pages/Simulator.tsx:28-31 | the case-insensitive search filter; `SearchKeeps`, `SearchEmptyKeepsAll`, `SearchAppend` and `SearchIgnoresCase` state what it keeps and in what order |
| Simulator.SearchKeeps | src/pages/Simulator.tsx:28-31 | the search keeps exactly the instruments whose lower-cased name or symbol contains the lower-cased term |
| Simulator.SearchEmptyKeepsAll | src/pages/Simulator.tsx:28-31 | an empty term keeps the whole catalog, in order |
| Simulator.SearchAppend | src/pages/Simulator.tsx:28-31 | the search distributes over concatenation, so catalog order is kept |
| Simulator.SearchIgnoresCase | src/pages/Simulator.tsx:28-31 | lower-casing the term first changes nothing |
| Simulator.SelectedInvestment | src/pages/Simulator.tsx:33 | `find` by symbol: `None` exactly when no entry has it; otherwise an entry with that symbol, which `SelectFirst` pins to the first one |
| Simulator.SelectFirst | src/pages/Simulator.tsx:33 | `find` returns the entry at the first position whose symbol matches |
| Simulator.SelectFinds | src/pages/Simulator.tsx:33 | with distinct symbols, selecting an entry's symbol finds that entry |
| Simulator.CatalogSelection | src/pages/Simulator.tsx:33 | on the real catalog each symbol selects its own entry, and the empty selection selects nothing |
| Simulator.HandleTrade | src/pages/Simulator.tsx:35-53 | the trade handler on ledger values; `HandleTradeOutcome`, `BuyAlert` and `SellAlert` state its outcome and alerts |
| Simulator.HandleTradeOutcome | src/pages/Simulator.tsx:35-53 | no selection does nothing; otherwise it places the selected instrument's order; success resets the quantity to 1 and reports the units and name; failure leaves the ledger and quantity |
| Simulator.BuyAlert | src/pages/Simulator.tsx:51 | "insufficient funds" appears exactly when cash < quantity × price |
| Simulator.SellAlert | src/pages/Simulator.tsx:51 | "insufficient shares" appears exactly when no holding of the symbol covers the quantity |
| Simulator.ParseInt | src/pages/Simulator.tsx:249 | `parseInt` on the input text; `ParseNumeral` states it reads back every decimal numeral |
| Simulator.QuantityInput | src/pages/Simulator.tsx:249 | `parseInt(...) \|\| 1` is never 0 |
| Simulator.ParseNumeral | src/pages/Simulator.tsx:249 | `parseInt` reads back a decimal numeral, with or without a minus sign, up to the first non-digit |
| Simulator.QuantityOfNumeral | src/pages/Simulator.tsx:249 | "0" and the empty input become 1; any other numeral is its value |
| Simulator.History | src/pages/Simulator.tsx:296 | the reversed copy of the log; `HistoryIsReversedLog` and `HistoryNewestFirst` state its order |
| Simulator.HistoryNewestFirst | src/pages/Simulator.tsx:296 | after a successful trade, the history shows the new record first, then the old history |
| Simulator.TradeLogs | src/contexts/PortfolioContext.tsx:116-125 | every successful trade appends exactly its own record to the log |
| Simulator.HistoryIsReversedLog | src/pages/Simulator.tsx:296 | the history is the log reversed, entry for entry, and is empty exactly when the log is |
| Profile.RiskLevelText | src/pages/Profile.tsx:46-51 | the four label bands; `LabelMonotone` and `LabelsFollowAllocation` state their order and edges |
| Profile.RiskLevelColor | src/pages/Profile.tsx:53-58 | the four colour bands; `LabelAndColorAgree` and `SameLabelSameColor` tie them to the labels |
| Profile.LabelAndColorAgree | src/pages/Profile.tsx:46-58 | the colour is always the colour of the label |
| Profile.SameLabelSameColor | src/pages/Profile.tsx:46-58 | two scores share a label exactly when they share a colour |
| Profile.LabelMonotone | src/pages/Profile.tsx:46-51 | a higher score never gets a more cautious label |
| Profile.LabelsFollowAllocation | src/pages/Profile.tsx:46-51 | two scores share a label exactly when they share an allocation, so the bands match the allocation bands |
| Profile.HoldingsBreakdown | src/pages/Profile.tsx:226-250 | the empty message, or five rows and the overflow count; `BreakdownAccountsForAll` states its shape |
| Profile.BreakdownAccountsForAll | src/pages/Profile.tsx:226-248 | the breakdown is empty exactly when there are no holdings; otherwise it shows the first min(5, n) in order, and "N more" appears exactly when there are more than 5, with shown + N = total |
| Home.QuickStats | src/pages/Home.tsx:27-50 | the three stat cards; `QuickStatsAgree` states how their figures relate |
| Home.QuickStatsAgree | src/pages/Home.tsx:27-50 | portfolio value = cash + invested; both changes are invested minus cost; the percentage has the change's sign, or is 0 with nothing invested |
| Home.RecentHoldings | src/pages/Home.tsx:191-204 | the "Your Holdings" card; `RecentHoldingsShape` states when it appears and what it lists |
| Home.RecentHoldingsShape | src/pages/Home.tsx:192-204 | the card appears exactly when holdings exist and lists the first min(3, n) in order |
| Home.GainBadge | src/pages/Home.tsx:205-221 | a row's gain colour and sign; `BadgeAgreesWithProfile` relates it to the Profile colour |
| Home.BadgeAgreesWithProfile | src/pages/Home.tsx:220-221 | for a positive quantity, Home's gain colour equals the Profile page's price colour, and '+' appears exactly on green |
| Home.RecentGainsPartOfTotal | src/pages/Home.tsx:204-205 | the gains of the shown holdings plus those of the rest equal the total P&L |

## Left out

- Persistence is not modelled. This covers the `localStorage` load and save of the portfolio (src/contexts/PortfolioContext.tsx:46-63 and the `savePortfolio` calls), and all of `UserContext` and `AuthContext`. It is I/O.
- `Date.now()` and `new Date()` are replaced by a parameter `now: int`. The model uses it both as the transaction id (a string in the source) and as the timestamp. Ids are not claimed unique.
- React plumbing is not modelled: `useState`, `useMemo`, providers, navigation and `alert`. Alerts become the `Simulator.Alert` value.
- The shallow copy `{ ...portfolio }` mutates the holding objects of the previous React state. The model keeps one ledger object and does not model that aliasing.
- `PortfolioContext.TradeDefined`: a buy that passes the funds check and brings an existing holding to quantity 0 divides by zero in the source, giving NaN or Infinity. The model excludes that case by precondition. It is reachable only with a negative quantity.
- Quantities and prices are exact reals. IEEE-754 rounding, NaN and Infinity are not modelled. This includes `Math.round` at a float boundary, and the `||` of `updatePrices` treating NaN like 0.
- Strings and CSS classes are replaced by enumerations: `Profile.RiskColor` for the badge classes, `Totals.GainTone` for green or red, and `Profile.RiskLabel` for the labels.
- Formatting is not modelled: `toLocaleString('en-IN')`, `toFixed`, the explanation texts, and the goal label capitalisation (src/pages/Profile.tsx:189).
- The catalog's `description` field (src/data/mockData.ts:10) is display text and is left out of `MockData.Investment`.
- The trade summary line (src/pages/Simulator.tsx:259) is display-only and not modelled.
- Simulator.Lower: it lower-cases ASCII letters only. JavaScript's Unicode case mapping is not modelled, and the catalog is ASCII.
- Simulator.ParseInt: it reads an optional sign and decimal digits after leading white space. The `0x` prefix and other radix rules of `parseInt` are not modelled, because the input field is `type="number"`.
- RiskQuiz.QuizSession.Next: it does not check `CanProceed`. In the source that check only disables the button; it is stated separately by `RiskQuiz.AnswerEnablesProceed` and `RiskQuiz.ProceedEverywhereAnswersAll`.
- Recommendations.Recommend: it takes the catalog as a parameter. On the actual catalog it is stated by `RecommendationFixtures`.
- The profile editing form on the Profile page (`handleSave`/`handleCancel`, src/pages/Profile.tsx:32-44) is not modelled. It only resets the form fields and leaves edit mode; no ledger or profile data changes.
- `MarketSnapshot.tsx`, `marketIndices`, `newsHeadlines`, `chartData` and `topStocks` are not modelled. They are display data.
- `App.tsx` and the layout components are not modelled. They handle routing and layout only.

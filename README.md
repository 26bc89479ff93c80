# Options-trading assistant: a verified model of its decision rules

This project models the rule-based core of an options-trading assistant for
Indian index and stock options (NSE/NFO). The model covers:

- the scoring engine that turns an option chain into BUY/SELL signals and
  adapts its weights from trade outcomes;
- the risk gate that allows or refuses a signal;
- the paper-trading account;
- the analytics of the trade journal;
- the option-chain utilities (max pain, weekly expiries, the symbol list);
- the option, date and text helpers;
- the gate in front of a live broker order;
- the Upstox instrument-key, interval and login-URL construction;
- the exit-signal rule of the dashboard.

Prices and quantities are `real`s. The wall clock and the generated ids are
parameters (`now: DateTime`, `ids: nat -> string`). A Python dictionary
with optional keys becomes a datatype with `Option` fields, and its
`dict.get(key, default)` becomes `GetOr(default)`.

Modules, one per source file, plus shared helpers:

- `Common`, `Text`, `Calendar`, `Sorting`, `Stats`: `Option`, ASCII
  upper-casing and substring search, Python ordinal day numbers and
  weekdays, a stable insertion sort, sums, means and the profit factor.
- `SignalScoring`: the seven scorers, the weighted confidence (with its
  `_score`-stripping key lookup), `determine_action`, the reasoning text,
  the trading-hours gate, the analysis keyed by option type and strike, and
  the pure specification of `generate_signals`.
- `SignalLearning`: `learn_from_outcome`, `optimize_weights`,
  `get_accuracy`, `get_learning_progress` and `get_signals_with_filters`, as
  functions.
- `SignalEngine`: the signal engine as a class. Its fields are the
  threshold, the signal history, the learning data and the weights. Its
  methods loop as the source does and are proved equal to the functions
  above.
- `Risk`: the seven checks, `validate_trade`, position sizing, the stop and
  target levels, the position list and the alerts. The `RiskManager` class
  holds the list and updates it in place.
- `PaperTrade`: the account as a `Ledger` value with pure transition
  functions. The `PaperTradingEngine` class's methods are proved equal to
  those functions. Its invariant is balance conservation.
- `Journal`: the largest streak (a loop), the maximum drawdown and the trade
  analysis.
- `Market`: max pain (nested loops), the mock expiry dates (a loop) and the
  available symbols.
- `Helpers`: the pure helpers, with the monthly expiry as a loop.
- `LiveTrade`: the enable/disable state machine and the ordered rejection
  chain before `place_order`. The broker is a value with an
  `is_authenticated` predicate. The risk manager's verdict and the broker's
  reply are inputs.
- `Upstox`: the instrument key, the candle-interval mapping and the login
  URL.
- `ExitRule`: the additive exit confidence over five conditions and the
  dashboard loop that collects exit signals.

Where the code and its design documentation differ, the model
follows the code. The differences:

- The initial weights give a confidence of at most 0.68
  (`SignalScoring.InitialConfidenceRange`). This is because `oi_score` looks
  up the weight `oi`, which does not exist. A signal needing a confidence
  above 0.7 for a moderate BUY therefore never gets one under the initial
  weights (`SignalScoring.InitialBuyIsStrong`).
- A CE delta is scored on its signed value and a PE delta on its absolute
  value.
- `optimize_weights` divides the kept `oi_change` weight by the same total
  as the others (core/signals.py:610-611). The kept weight is therefore
  old/total, not the raw old value. The other six then sum to 1.
- Opening a paper position does not update `portfolio_value`. Closing one
  does.
- An automatic paper exit closes the first open position with the flagged
  symbol, strike and type. That is not necessarily the flagged position
  (`PaperTrade.AutoExitClosesFirstMatch`).
- In the exit panel, the quote is a numpy scalar, so a position with an
  entry price of 0 does not raise: its percentage is +inf for a positive
  quote, −inf for a negative one and NaN for a zero one. The panel goes on.
  An infinite gain always flags a profit-target exit
  (`ExitRule.ZeroEntryExits`).
- For NFO, a symbol containing "FUT" and one that contains nothing
  recognised both map to `NFO_FUT`.
- "RELIANCE" contains "CE", so it maps to `NFO_OPT`.

## Model

| member | source | states |
|---|---|---|
| SignalScoring.DeltaScore | core/signals.py:116-138 | the delta score is one of 0.9, 0.7, 0.5, 0.2 |
| SignalScoring.DeltaScoreShape | core/signals.py:116-138 | a CE score is non-decreasing in the signed delta and is 0.2 for any delta ≤ 0; a PE score depends only on abs(delta) and equals the CE score of that absolute value |
| SignalScoring.OiScore | core/signals.py:140-154 | the OI score is one of 0.9, 0.7, 0.5, 0.3, and is 0.3 whenever total open interest is 0 |
| SignalScoring.VolumeScore | core/signals.py:156-170 | the volume score is one of 0.9, 0.7, 0.5, 0.3, and is 0.3 whenever open interest is 0 |
| SignalScoring.VolumeScoreMonotone | core/signals.py:156-170 | with positive open interest, more volume never lowers the volume score |
| SignalScoring.MomentumScore | core/signals.py:172-195 | the momentum score is one of 0.8, 0.6, 0.4, 0.2 |
| SignalScoring.IvScore | core/signals.py:197-206 | the IV score is one of 0.3, 0.7, 0.5, 0.2 |
| SignalScoring.SpreadScore | core/signals.py:208-222 | the spread score is one of 0.1, 0.9, 0.7, 0.5, 0.2, and it is 0.1 exactly when ask ≤ bid or ltp is 0 |
| SignalScoring.SpreadScoreMonotone | core/signals.py:208-222 | for valid quotes at the same ltp, a wider spread never gets a higher score |
| SignalScoring.LiquidityScore | core/signals.py:224-235 | the liquidity score is one of 0.1, 0.8, 0.5, 0.2, and it is 0.8 exactly when both bid and ask are positive |
| SignalScoring.RowScores | core/signals.py:91-99 | every score of an analysed row lies in [0, 1] |
| SignalScoring.ScoreKeys | core/signals.py:91-99 | there are seven `_score` keys per row |
| SignalScoring.LookupScore | core/signals.py:101-103 | a key has a score exactly when it is one of the seven score keys |
| SignalScoring.LookupScoreKeys | core/signals.py:101-103 | each of the seven keys looks up its own score |
| SignalScoring.RemoveAllSuffix | core/signals.py:102 | removing every "_score" from a name followed by "_score" gives back the name |
| SignalScoring.ScoreKeyNames | core/signals.py:102 | stripping "_score" from the seven keys gives delta, oi, volume, momentum, iv, spread, liquidity |
| SignalScoring.KeyFacts | core/signals.py:101-103 | per key: the stripped name and the looked-up score |
| SignalScoring.ConfidenceFormula | core/signals.py:101-103 | confidence equals the sum over the seven scores of score × weight of the stripped name, with 0 for a missing weight |
| SignalScoring.ConfidenceAsContributions | core/signals.py:101-103 | the key-by-key sum equals the sum of the seven contributions |
| SignalScoring.ContributionsAsProducts | core/signals.py:101-103 | the seven contributions are the score × weight products |
| SignalScoring.ConfidenceOverTail | core/signals.py:101-103 | the sum over any tail of the key list equals the sum of that tail's contributions |
| SignalScoring.ContributionAt | core/signals.py:101-103 | each key contributes its score times the weight of its stripped name |
| SignalScoring.OiIsNoWeightName | core/signals.py:26-34 | "oi" is not one of the weight names |
| SignalScoring.ConfidenceIgnoresOi | core/signals.py:26-103 | for weights keyed by the seven weight names, changing the OI score never changes the confidence |
| SignalScoring.InitialConfidenceRange | core/signals.py:26-103 | under the initial weights the confidence of any row lies in [0.16, 0.68] |
| SignalScoring.StrongCallExample | core/signals.py:116-361 | a deep in-the-money call with strong readings scores 0.68 under the initial weights and is a BUY |
| SignalScoring.DetermineAction | core/signals.py:332-361 | BUY iff the strong-buy condition holds or (moderate-buy and confidence > 0.7); SELL iff not BUY, an exit condition holds and confidence > 0.5; otherwise HOLD |
| SignalScoring.ActionOnScoredRows | core/signals.py:332-361 | on scored rows the exit condition is delta < 0.3 or momentum < 0.3, a SELL has a 0.2 delta or momentum, and a strong buy has top delta and momentum with OI ≥ 0.7 |
| SignalScoring.InitialBuyIsStrong | core/signals.py:332-361 | under the initial weights every BUY comes from the strong-buy condition |
| SignalScoring.Reasons | core/signals.py:237-277 | at most six remarks; the strong-delta remark appears iff delta > 0.7 and the weak-delta remark iff delta < 0.3 |
| SignalScoring.Join | core/signals.py:277 | joining a single remark gives that remark |
| SignalScoring.Reasoning | core/signals.py:277 | with no remarks the text is "Mixed signals across parameters"; otherwise it is the remarks joined by "; " |
| SignalScoring.UnreachableRemarks | core/signals.py:237-277 | the remarks for limited OI, low volume and optimal IV never appear for a scored row |
| SignalScoring.TradingTimeIsRegularSession | core/signals.py:363-371 | the trading-time gate lies inside the helpers' regular session, and it is strictly narrower: 15:30:00.000001 is refused by the gate but still regular |
| SignalScoring.EntryFor | core/signals.py:91-107 | an analysis entry records the row's type, strike and row |
| SignalScoring.KeyIndex | core/signals.py:107 | finds the entry with the same type and strike, or -1 when there is none |
| SignalScoring.Upsert | core/signals.py:107 | writing one key adds at most one entry |
| SignalScoring.UpsertDistinct | core/signals.py:107 | writing into a map with distinct keys keeps its keys distinct |
| SignalScoring.UpsertContents | core/signals.py:107 | after a write the new entry is present, and the other entries are exactly the old ones under other keys |
| SignalScoring.Entries | core/signals.py:75-107 | one entry per chain row |
| SignalScoring.FoldDistinct | core/signals.py:107 | the keyed analysis has distinct keys and no more entries than rows |
| SignalScoring.FoldLastWins | core/signals.py:107 | each kept entry comes from a row that no later row with the same key overwrites |
| SignalScoring.FoldCovers | core/signals.py:107 | every row's key appears in the keyed analysis |
| SignalScoring.AnalyzeDistinct | core/signals.py:75-114 | `analyze_market_parameters` gives one entry per distinct type and strike |
| SignalScoring.AnalyzeLastRowWins | core/signals.py:75-114 | among duplicate rows, the last one with a given type and strike wins |
| SignalScoring.AnalyzeCoversRows | core/signals.py:75-114 | every row's type and strike is present in the analysis |
| SignalScoring.Emitted | core/signals.py:296-319 | no more signals than analysis entries |
| SignalScoring.EmittedProperties | core/signals.py:296-319 | one signal per entry at or above the threshold whose action is not HOLD; each carries that entry's confidence × 100, strike, type and price, plus the symbol, time and underlying |
| SignalScoring.LastN | core/signals.py:325-327 | keeps the last min(n, length) elements |
| SignalScoring.GenerateSignalsOutput | core/signals.py:279-330 | an empty chain or a time outside trading hours gives []; otherwise the output is a permutation of the emitted signals, sorted non-increasing by confidence, ties in analysis order, none HOLD, all at or above the threshold |
| SignalScoring.GenerateSignalsHistory | core/signals.py:283-327 | the history is unchanged when nothing is generated; otherwise it is the last ≤ 1000 elements of the old history followed by the emitted signals |
| SignalLearning.FindSignal | core/signals.py:427 | finds the first signal with the given id, or None iff no signal has it |
| SignalLearning.LearnProperties | core/signals.py:425-447 | an unknown id changes nothing; a known id appends exactly one record with that id, outcome and pnl, keeps the weights unless the new length is a multiple of 30, and a repeated call appends a second identical record |
| SignalLearning.PerformanceOf | core/signals.py:579-589 | at most one score/pnl pair per record |
| SignalLearning.PerformanceShape | core/signals.py:579-589 | `oi_change` never collects data, because records carry `oi_score`; every score name collects one pair per record |
| SignalLearning.DataShape | core/signals.py:579-597 | over non-empty recent data only `oi_change` is empty, and every other parameter has one entry per record |
| SignalLearning.RawWeight | core/signals.py:599-606 | with high-score records the new raw weight lies in [0.05, 0.35]; without them it is the previous weight |
| SignalLearning.RawWeightsUpTo | core/signals.py:590-608 | every processed weight name receives a new weight |
| SignalLearning.RawWeightsLookup | core/signals.py:590-608 | the raw weight map has exactly the weight names as keys, each mapped to its new raw weight |
| SignalLearning.WeightNamesDistinct | core/signals.py:26-34 | the seven weight names are distinct |
| SignalLearning.OiChangeKept | core/signals.py:595-597 | `oi_change` keeps its previous raw weight |
| SignalLearning.TotalIsSixRaw | core/signals.py:590-608 | the total is the sum of the six raw weights other than `oi_change` |
| SignalLearning.TotalIsDataWeightSum | core/signals.py:590-608 | the total equals the sum of the raw map over the six names with data |
| SignalLearning.Normalize | core/signals.py:610-611 | dividing by the total keeps the keys and divides every weight, including `oi_change` |
| SignalLearning.NormalizeSum | core/signals.py:610-611 | after division the six weights with data sum to 1 |
| SignalLearning.OptimizedWeights | core/signals.py:563-616 | the result still has all seven weight names, and with fewer than 50 records the weights are unchanged |
| SignalLearning.OptimizedWeightsSum | core/signals.py:563-616 | the six weights with data sum to 1; `oi_change` becomes its old weight divided by the total, so with positive weights all seven sum to more than 1 |
| SignalLearning.OptimizedParameterWeight | core/signals.py:579-611 | each other parameter's new weight is its clamped raw weight over the last ≤ 100 records, divided by the total |
| SignalLearning.OptimizeReadsLast100 | core/signals.py:579 | records older than the last 100 do not affect the new weights |
| SignalLearning.RawWeightsPositive | core/signals.py:599-606 | positive previous weights give positive raw weights |
| SignalLearning.OptimizeKeepsPositive | core/signals.py:563-616 | optimisation keeps every weight positive and its total positive |
| SignalLearning.CountCorrect | core/signals.py:634-639 | correct predictions never exceed the records |
| SignalLearning.CountHigh | core/signals.py:641-642 | high-confidence predictions never exceed the records |
| SignalLearning.CountHighCorrect | core/signals.py:641-644 | high-confidence correct predictions are bounded by both counts |
| SignalLearning.AccuracyRange | core/signals.py:618-653 | accuracy lies in [0, 95]; with at least 10 records the window of the last 100 has at least 10; with at most five high-confidence ones accuracy lies in [5, 92] |
| SignalLearning.ProgressFromShape | core/signals.py:671-681 | from position i, one accuracy per step of 5, each the accuracy of the 20 records before it and within [0, 100] |
| SignalLearning.LearningProgressShape | core/signals.py:665-683 | (n − 20 + 4) / 5 points for n > 20 records, otherwise none; point k is the windowed accuracy ending at 20 + 5k |
| SignalLearning.Where | core/signals.py:391-402 | a filter keeps exactly the matching elements and never adds any |
| SignalLearning.BySymbol | core/signals.py:394-395 | an empty symbol keeps all; otherwise it keeps exactly the signals for that symbol |
| SignalLearning.ByAction | core/signals.py:397-398 | an empty action keeps all; otherwise it keeps exactly the signals with that action |
| SignalLearning.ByConfidence | core/signals.py:400-401 | a zero minimum keeps all; otherwise it keeps exactly the signals whose confidence / 100 reaches it |
| SignalLearning.Matching | core/signals.py:391-402 | the three filters keep exactly the signals matching all of them |
| SignalLearning.SignalsWithFiltersProperties | core/signals.py:391-404 | at most 50 signals, newest first, all from the history and matching; when at most 50 match, they are all returned |
| SignalEngine.Engine.constructor | core/signals.py:13-34 | threshold 0.6, empty history and learning data, the initial weights |
| SignalEngine.Engine.AnalyzeMarketParameters | core/signals.py:75-114 | the loop computes the keyed analysis, with distinct keys |
| SignalEngine.EmitSignals | core/signals.py:296-319 | the loop emits one signal per qualifying non-HOLD entry, in analysis order |
| SignalEngine.FoldStep | core/signals.py:107 | one more row is one more keyed write |
| SignalEngine.EmittedStep | core/signals.py:296-319 | one more entry appends one signal when it qualifies, and nothing otherwise |
| SignalEngine.KeepRecent | core/signals.py:325-328 | the kept history is exactly the last 1000 signals (all of them when there are fewer) |
| SignalEngine.Engine.GenerateSignals | core/signals.py:279-330 | the returned signals and the new history are those of the `generate_signals` specification |
| SignalEngine.Engine.LearnFromOutcome | core/signals.py:425-447 | the new learning data and weights are those of `learn_from_outcome` |
| SignalEngine.Performance | core/signals.py:569-589 | the loop collects each parameter's score/pnl pairs |
| SignalEngine.NewWeight | core/signals.py:594-608 | the loop's average gives the clamped raw weight |
| SignalEngine.NewWeights | core/signals.py:591-608 | the loop builds the raw weight map and the total |
| SignalEngine.NormalizeWeights | core/signals.py:610-611 | the loop divides every weight by the total |
| SignalEngine.Engine.OptimizeWeights | core/signals.py:563-616 | the new weights are the optimised weights of the learning data |
| SignalEngine.CountOutcomes | core/signals.py:628-644 | the counting loop yields exactly the numbers of right predictions, of high-confidence records and of right high-confidence predictions defined over the records |
| SignalEngine.Engine.GetAccuracy | core/signals.py:618-653 | the loop's counts give the accuracy estimate: 68 below 10 records, otherwise the weighted share of correct predictions among the last 100, at most 95 (or 92 when there are at most five high-confidence records) |
| SignalEngine.Engine.GetLearningProgress | core/signals.py:665-683 | the loop gives one windowed accuracy per step of 5 records, each in [0, 100] |
| Risk.TradeAllowedIffNoFailure | core/risk.py:36-60 | disabled means allowed; enabled means allowed iff the list of failed checks is empty, and that list holds exactly the checks that do not pass |
| Risk.FailedAmong | core/risk.py:319-326 | the failed list holds exactly the given checks that do not pass |
| Risk.TimeOkWindow | core/risk.py:62-87 | the time check passes iff 09:20 ≤ hh:mm ≤ 15:15 on a weekday, and then the engine's trading-hours gate holds too |
| Risk.CountSymbol | core/risk.py:89-105 | the same-symbol count is at most the number of positions |
| Risk.PositionLimitsCount | core/risk.py:89-105 | ten tracked positions block every trade; an unseen symbol with fewer than ten positions passes |
| Risk.UntouchedPortfolio | core/risk.py:107-123 | over positions as `add_position` creates them the portfolio adds nothing, so the risk check reduces to price × quantity ≤ 5000 |
| Risk.DailyLossSymmetric | core/risk.py:125-127 | the daily check passes iff −15000 < daily P&L < 15000, so a large profit fails like a loss |
| Risk.SpreadBand | core/risk.py:145-157 | ltp 0 or ask ≤ bid fails; otherwise it passes iff the spread is at most 5 % of ltp |
| Risk.VolatilityBand | core/risk.py:159-171 | passes iff 5 ≤ iv ≤ 50, with a missing iv read as 20 (which passes) |
| Risk.EngineSignalsRejected | core/risk.py:129-157 | a signal from the engine has no volume, open interest, bid or ask, so its liquidity and spread checks fail and the trade is refused |
| Risk.PositionSize | core/risk.py:173-192 | 0 lots without capital; with capital at least 1 lot, and exactly 1 when the price per lot is not positive |
| Risk.PositionSizeFitsBudget | core/risk.py:173-192 | the size is the floor of the risk budget over the price per lot, floored at 1: n lots fit the budget unless n is 1, and n + 1 lots would exceed it |
| Risk.LevelsBracketEntry | core/risk.py:194-206 | the stop is 0.9 × entry and the target 1.2 × entry for either option type, bracketing a positive entry |
| Risk.NewPosition | core/risk.py:208-231 | a new position is open, priced at entry, with zero unrealised P&L and no current value or delta |
| Risk.NewPositionQuiet | core/risk.py:208-274 | a freshly added position with a positive entry raises no alert |
| Risk.WithoutId | core/risk.py:233-236 | removal never lengthens the list |
| Risk.WithoutIdMembers | core/risk.py:233-236 | after removal, a position remains iff it was there and has a different id |
| Risk.WithoutIdDistributes | core/risk.py:233-236 | removal works piecewise over concatenation, so the order of the rest is kept |
| Risk.WithoutIdUnchanged | core/risk.py:233-236 | removing an absent id changes nothing, and removal is idempotent |
| Risk.WithoutIdKeepsUntouched | core/risk.py:233-236 | removal keeps positions free of current value and delta |
| Risk.RepriceAll | core/risk.py:238-249 | repricing keeps the length and works position by position |
| Risk.RepriceProperties | core/risk.py:238-249 | a position without an update is unchanged; one with an update gets the new price and unrealised = (new − entry) × quantity, with every other field kept; repricing twice equals repricing once |
| Risk.RepriceKeepsUntouched | core/risk.py:238-249 | repricing keeps positions free of current value and delta |
| Risk.AlertsOf | core/risk.py:251-274 | at most one alert per position |
| Risk.AlertsSound | core/risk.py:251-274 | every alert belongs to a tracked position; a stop-loss alert has current ≤ stop; a take-profit alert has current above the stop and ≥ target |
| Risk.AlertsComplete | core/risk.py:251-274 | every position at or past its stop or target has its alert in the list, and there are exactly as many alerts as such positions |
| Risk.SummaryAfterAdd | core/risk.py:276-297 | adding a position raises the count by one and the investment by entry × quantity, and leaves unrealised P&L and delta unchanged |
| Risk.DailyUtilizationMatchesCheck | core/risk.py:276-297 | the reported daily utilisation is below 100 % iff the daily check passes |
| Risk.RiskManager.constructor | core/risk.py:8-35 | enabled, no daily P&L, no positions |
| Risk.RiskManager.ValidateTrade | core/risk.py:36-60 | returns the verdict and the failed checks; an empty list means the trade is allowed |
| Risk.RiskManager.AddPosition | core/risk.py:208-231 | appends exactly the new position |
| Risk.RiskManager.RemovePosition | core/risk.py:233-236 | the list becomes the old list without that id |
| Risk.RiskManager.UpdatePositionPrices | core/risk.py:238-249 | the loop reprices every position as specified |
| Risk.RiskManager.CheckStopLossTakeProfit | core/risk.py:251-274 | the loop returns one alert per position at its stop or target, stop first |
| PaperTrade.NewPaperPosition | core/paper_trade.py:118-140 | a new position is open, costs price × quantity × lot size, and has its stop at 0.9 × entry and its target at 1.2 × entry |
| PaperTrade.OpenProperties | core/paper_trade.py:96-160 | fails iff the cost exceeds the balance or a paper trade meets the daily limit, with the balance reason first, and a failure changes nothing; success debits the cost, appends the position and one OPEN record, counts only paper trades, and leaves the P&L and `portfolio_value` fields unchanged |
| PaperTrade.OpenConserves | core/paper_trade.py:96-160 | opening preserves balance + open cost = start + total P&L |
| PaperTrade.OpenCostReplace | core/paper_trade.py:185-202 | replacing one position changes the open cost by exactly that position's change |
| PaperTrade.OpenCostPointwise | core/paper_trade.py:223-248 | lists whose positions have equal open costs have equal totals |
| PaperTrade.FirstOpenMatch | core/paper_trade.py:169-177 | finds the first open position with that symbol, strike and type, or None iff there is none |
| PaperTrade.PnlIsPriceMove | core/paper_trade.py:185-190 | exit value minus cost is (exit − entry) × quantity × lot size |
| PaperTrade.CloseProperties | core/paper_trade.py:162-221 | fails and changes nothing iff no open position matches; otherwise only the first match is closed at the given price (default: current), with pnl = (exit − entry) × qty × lot added to daily and total P&L, the exit value credited, `portfolio_value` = balance + open value, and one CLOSE record appended |
| PaperTrade.CloseAtConserves | core/paper_trade.py:185-208 | closing an open position preserves the conservation invariant |
| PaperTrade.CloseConserves | core/paper_trade.py:162-221 | `close_position` preserves the conservation invariant |
| PaperTrade.ExecuteProperties | core/paper_trade.py:74-94 | an action other than BUY or SELL fails with nothing changed; only BUY opens and only SELL closes; every failure changes nothing, and conservation is preserved |
| PaperTrade.RepriceProperties | core/paper_trade.py:223-248 | only open positions with an update change, and only in price and unrealised P&L (new − entry) × qty × lot; the open cost is unchanged |
| PaperTrade.UpdatePricesConserve | core/paper_trade.py:223-248 | updating prices, including the automatic exits it triggers, preserves conservation and the daily trade count |
| PaperTrade.ExitFlags | core/paper_trade.py:250-276 | at most one flag per position |
| PaperTrade.ExitFlagsExactly | core/paper_trade.py:250-276 | the flags are exactly those of the positions that raise one |
| PaperTrade.FlagReasons | core/paper_trade.py:250-276 | a position is flagged iff it is open and at or beyond its stop or target; a target flag has current above the stop |
| PaperTrade.AutoExitsConserve | core/paper_trade.py:250-297 | the automatic closes preserve conservation and the daily trade count |
| PaperTrade.AutoExitClosesFirstMatch | core/paper_trade.py:278-297 | with two open positions of the same contract where only the second hits its stop, the first is the one that is closed, at the second's stop price |
| PaperTrade.ResetOn | core/paper_trade.py:422-425 | only the daily trade count and daily P&L are reset, to 0 |
| PaperTrade.DailyPnlAppend | core/paper_trade.py:322-332 | appending a trade line adds its pnl to today's P&L exactly when it is a CLOSE stamped today |
| PaperTrade.DailyPnlOfOtherDays | core/paper_trade.py:322-332 | lines stamped on other days contribute nothing to today's P&L |
| PaperTrade.OpenKeepsDailyAgreement | core/paper_trade.py:322-332 | when `daily_pnl` equals what `get_daily_pnl` reports, an open on the same day keeps them equal |
| PaperTrade.CloseKeepsDailyAgreement | core/paper_trade.py:162-221 | a close on the same day adds its pnl to both `daily_pnl` and `get_daily_pnl`, so equal figures stay equal |
| PaperTrade.ExecuteKeepsDailyAgreement | core/paper_trade.py:74-94 | executing a signal on the same day keeps `daily_pnl` equal to `get_daily_pnl` |
| PaperTrade.AutoExitsKeepDailyAgreement | core/paper_trade.py:250-297 | the automatic closes on the same day keep `daily_pnl` equal to `get_daily_pnl` |
| PaperTrade.UpdatePricesKeepDailyAgreement | core/paper_trade.py:223-248 | a price update on the same day, with its automatic exits, keeps `daily_pnl` equal to `get_daily_pnl` |
| PaperTrade.ResetSeparatesDailyFigures | core/paper_trade.py:422-425 | after a reset, `daily_pnl` is 0 while `get_daily_pnl` still reports the day's closes, so the figures differ whenever those are non-zero |
| PaperTrade.RealizedPnls | core/paper_trade.py:347-360 | at most one realised P&L per position |
| PaperTrade.PerformanceCounts | core/paper_trade.py:347-382 | total = closed positions; wins + losses ≤ total; win rate in [0, 100]; profit factor infinite iff there are trades and none lost |
| PaperTrade.AverageWinBounds | core/paper_trade.py:347-382 | with wins, 0 < average win ≤ largest win |
| PaperTrade.AverageLossBounds | core/paper_trade.py:347-382 | with losses, the largest loss ≤ −average loss < 0 |
| PaperTrade.PaperTradingEngine.constructor | core/paper_trade.py:10-24 | a balance of 100000, no positions or history, zero P&L and trade count |
| PaperTrade.PaperTradingEngine.RecordTrade | core/paper_trade.py:299-317 | appends exactly one record |
| PaperTrade.PaperTradingEngine.OpenPosition | core/paper_trade.py:96-160 | result and new account are those of the open transition, with conservation kept |
| PaperTrade.PaperTradingEngine.ClosePosition | core/paper_trade.py:162-221 | result and new account are those of the close transition, with conservation kept |
| PaperTrade.PaperTradingEngine.ExecuteTrade | core/paper_trade.py:74-94 | result and new account are those of the dispatch, with conservation kept |
| PaperTrade.PaperTradingEngine.AutoClosePosition | core/paper_trade.py:278-297 | closes the first match of the flagged contract at the flagged price, with conservation kept |
| PaperTrade.PaperTradingEngine.CheckAutoExits | core/paper_trade.py:250-276 | the loop applies one automatic close per flag, with conservation kept |
| PaperTrade.RepriceLoop | core/paper_trade.py:225-237 | the loop leaves each position repriced by its key, when the key has an update and the position is open, and leaves every other position unchanged |
| PaperTrade.RepriceKeepsCost | core/paper_trade.py:223-237 | repricing never changes the cash tied up in the open positions |
| PaperTrade.PaperTradingEngine.UpdatePositionPrices | core/paper_trade.py:223-248 | reprices, recomputes `portfolio_value`, then runs the automatic exits, with conservation kept |
| PaperTrade.PaperTradingEngine.ResetDailyCounters | core/paper_trade.py:422-425 | only the daily counters are reset |
| Journal.Pnls | core/journal.py:403-406 | one P&L per trade |
| Journal.Qualifying | core/journal.py:403-406 | one win/loss flag per trade |
| Journal.TrailingRunIsLongestSuffix | core/journal.py:409-421 | the current streak is the longest run of qualifying trades ending at the last one |
| Journal.LongestRunIsLongest | core/journal.py:409-423 | the result bounds every run of qualifying trades and is attained by one |
| Journal.LongestRunZero | core/journal.py:396-423 | the result is 0 iff no trade qualifies |
| Journal.LargestStreak | core/journal.py:396-423 | the loop returns the longest run of qualifying trades in entry-time order |
| Journal.LargestStreakBounds | core/journal.py:396-423 | the streak is at most the number of trades, and 0 iff none qualifies |
| Journal.RunningMaxIsMax | core/journal.py:264 | the running maximum bounds every earlier cumulative P&L and equals one of them |
| Journal.DeepestDrawdownIsDeepestFall | core/journal.py:260-270 | the drawdown is the deepest fall from an earlier-or-equal cumulative P&L, and is attained |
| Journal.MaxDrawdownProperties | core/journal.py:251-274 | the drawdown is ≤ 0 (0 without history), and it equals the most negative cumulative change between two points in entry-time order |
| Journal.SingleTradeNoDrawdown | core/journal.py:260-270 | the running max starts at the first cumulative value, so one trade has no drawdown even at a loss |
| Journal.ClosedTrades | core/journal.py:356 | keeps only closed trades |
| Journal.TradeAnalysisCounts | core/journal.py:348-382 | no analysis iff there are no closed trades; winning + losing + breakeven = total; win rate in [0, 100]; profit factor infinite iff nothing lost |
| Journal.TradeAnalysisAverages | core/journal.py:366-372 | worst ≤ average ≤ best, and average loser ≤ 0 ≤ average winner |
| Journal.TradeAnalysisStreaks | core/journal.py:373-376 | both streaks are at most the number of trades, and the drawdown is ≤ 0 |
| Stats.SignsPartition | core/journal.py:362-365 | positives, negatives and zeros partition the P&Ls |
| Stats.MeanBounds | core/journal.py:366-372 | a mean lies between the minimum and the maximum |
| Stats.ProfitFactorInfinite | core/journal.py:380-382 | the profit factor is infinite iff there is no loss, and otherwise non-negative |
| Sorting.SortDescStable | core/signals.py:330 | sorting by a key keeps, for each key value, the original order |
| Sorting.TopNProperties | core/signals.py:404 | at most n elements, non-increasing, all from the input, and all of them when there are at most n |
| Market.StrikeColumn | core/market.py:514 | the strike column lists each row's strike in order |
| Market.Unique | core/market.py:514 | the unique strikes are exactly the strikes of the chain, without repetition |
| Market.PainWithoutInterest | core/market.py:516-527 | with no open interest, every strike's pain is 0 |
| Market.PainNonNegative | core/market.py:516-527 | with non-negative open interest, call and put pain are non-negative |
| Market.StrikePain | core/market.py:516-527 | the nested loops compute the CE pain (strikes below) plus the PE pain (strikes above) |
| Market.MaxPain | core/market.py:509-535 | 0 for an empty chain; otherwise a strike of the chain whose pain is ≤ that of every chain strike, and the earliest such in first-appearance order |
| Market.MaxPainDetermined | core/market.py:529-531 | least pain together with earliest appearance determines the strike uniquely |
| Market.EarlierStrikeInChain | core/market.py:514 | every unique strike occurs in some row |
| Market.ExpiryDates | core/market.py:311-330 | not in mock mode: []; in mock mode: four Thursdays, the first the next expiry (1 to 7 days ahead), each 7 days after the one before |
| Market.WeekdayAfterWeeks | core/market.py:318-325 | adding whole weeks keeps the weekday |
| Market.StrLessTotal | core/market.py:489 | string order is total |
| Market.StrLessTransitive | core/market.py:489 | string order is transitive |
| Market.StrLessIrreflexive | core/market.py:489 | string order is irreflexive |
| Market.InsertUnique | core/market.py:489 | inserting adds only that symbol |
| Market.SortedSet | core/market.py:489 | `sorted(set(...))` keeps exactly the symbols of the list |
| Market.InsertUniqueIncreasing | core/market.py:489 | inserting into a strictly increasing list keeps it strictly increasing |
| Market.SortedSetIncreasing | core/market.py:489 | `sorted(set(...))` is strictly increasing |
| Market.IncreasingIsDistinct | core/market.py:489 | strictly increasing means duplicate-free |
| Market.AvailableSymbolsProperties | core/market.py:420-496 | "indices" gives the index list; the stocks are sorted, duplicate-free and exactly the listed names; any other type gives indices followed by stocks |
| Helpers.OptionMoneyness | utils/helpers.py:66-81 | a call is ITM iff U > K; a put, iff U < K; a non-ITM option is ATM iff abs(U − K) < 50 |
| Helpers.ValueAtExpiry | utils/helpers.py:139-144 | the value is ≥ 0 and is either 0 or U − K for a call (K − U for a put), bounding it |
| Helpers.InTheMoneyIffValuable | utils/helpers.py:66-144 | ITM iff the value at expiry is positive |
| Helpers.BreakevenRepaysPremium | utils/helpers.py:83-144 | at the breakeven price the value at expiry equals the premium |
| Helpers.ParityAtExpiry | utils/helpers.py:139-144 | call value − put value = U − K |
| Helpers.ValidStrikePrice | utils/helpers.py:130-137 | valid iff both prices are positive and the strike is within 50 %–150 % of the underlying |
| Helpers.TradingSession | utils/helpers.py:232-249 | on t = hour × 100 + minute: pre-market for 900 ≤ t < 915, regular for 915 ≤ t ≤ 1530, after-market for 1530 < t ≤ 1600, closed otherwise |
| Helpers.NextExpiry | utils/helpers.py:146-157 | the first Thursday strictly after the date, at most 7 days later |
| Helpers.MonthlyExpiry | utils/helpers.py:159-171 | the loop returns a valid date in that month which is a Thursday, with no later Thursday in the month |
| Helpers.SliceTo | utils/helpers.py:207 | Python slicing within range is the prefix |
| Helpers.StripLeading | utils/helpers.py:203 | removes exactly the leading whitespace |
| Helpers.StripTrailing | utils/helpers.py:203 | removes exactly the trailing whitespace |
| Helpers.TidyCons | utils/helpers.py:201 | a single space before a non-space keeps a text free of whitespace runs |
| Helpers.CollapseTidyResult | utils/helpers.py:201 | collapsing leaves only single spaces, is empty iff the input is, and keeps a non-space first character |
| Helpers.CollapseLast | utils/helpers.py:201 | collapsing keeps a non-space last character |
| Helpers.CollapseNonSpace | utils/helpers.py:201 | collapsing removes only whitespace |
| Helpers.StripLeadingNonSpace | utils/helpers.py:203 | stripping removes only whitespace |
| Helpers.StripTrailingNonSpace | utils/helpers.py:203 | stripping removes only whitespace |
| Helpers.CollapseTidy | utils/helpers.py:201 | collapsing an already tidy text leaves it unchanged |
| Helpers.StripNormalEnds | utils/helpers.py:203 | stripped text starts and ends with a non-space |
| Helpers.CollapseNormalized | utils/helpers.py:201-203 | collapsing a stripped text gives normalised text |
| Helpers.TruncatedNormalized | utils/helpers.py:205-207 | a prefix of normalised text followed by "..." is normalised |
| Helpers.CleanTextNormalized | utils/helpers.py:197-209 | for max length ≥ 3 the output has no leading, trailing or repeated whitespace and is at most max length long |
| Helpers.CleanTextKeepsContent | utils/helpers.py:197-209 | when the collapsed text fits, only whitespace is changed |
| Helpers.CleanTextTruncates | utils/helpers.py:205-207 | when it does not fit, the output is exactly max length long, ends in "...", and starts with the collapsed text |
| Helpers.CleanTextIdempotent | utils/helpers.py:197-209 | cleaning twice equals cleaning once |
| Helpers.SafeDivide | utils/helpers.py:211-218 | the default for a zero denominator; otherwise the quotient (r × d = n) |
| Helpers.RiskRewardRatio | utils/helpers.py:364-372 | non-negative; 0 when entry is 0 or stop = entry; otherwise r × abs(entry − stop) = abs(target − entry) |
| Helpers.SignalStrength | utils/helpers.py:351-362 | Very Strong iff confidence ≥ 85, Very Weak iff < 55 |
| Helpers.SignalStrengthMonotone | utils/helpers.py:351-362 | higher confidence never gives a weaker label |
| Helpers.LotSize | utils/helpers.py:285-299 | the lot size is positive, and 15 for BANKNIFTY in any case |
| Helpers.LotSizeIgnoresCase | utils/helpers.py:285-299 | the lot size does not depend on letter case |
| Helpers.UpperIdempotent | utils/helpers.py:296 | upper-casing twice equals upper-casing once |
| Helpers.ValidOptionData | utils/helpers.py:337-349 | valid iff strike, ltp and type are present, ltp ≥ 0 and strike > 0 |
| LiveTrade.EnableProperties | core/live_trade.py:21-33 | succeeds iff a broker is present and authenticated; failure changes nothing; success leaves trading enabled; broker and history are kept |
| LiveTrade.DisableProperties | core/live_trade.py:35-40 | always succeeds and only clears the enabled flag |
| LiveTrade.ExecuteRejectionOrder | core/live_trade.py:42-80 | rejects first when disabled, then when unauthenticated, then when the risk manager refuses; an order is sent iff none applies; the order is the signal's market order; a rejection changes nothing |
| LiveTrade.ExecuteHistory | core/live_trade.py:80-118 | executed iff an order was sent and the broker placed it; then exactly one record with type "live", status "executed", the broker's order id and the broker name is appended; otherwise the history is unchanged and a broker failure is returned as the broker's reply |
| LiveTrade.OrderForProperties | core/live_trade.py:68-77 | the order's action is the upper-cased action, the quantity defaults to 1, and the order is MARKET, MIS, NFO |
| LiveTrade.CloseOrder | core/live_trade.py:148-159 | SELL iff the held quantity is positive (BUY otherwise); the quantity is its absolute value; product and exchange default to MIS and NFO |
| LiveTrade.CloseProperties | core/live_trade.py:132-176 | rejected when disabled or unauthenticated, in that order; the closing order is sent iff neither applies; closed iff it is sent and placed |
| LiveTrade.CloseOrderExamples | core/live_trade.py:148-159 | a long position closes with SELL, a short one of 3 closes with quantity 3, and one without a quantity closes with BUY |
| LiveTrade.LiveTradingEngine.constructor | core/live_trade.py:11-15 | the given broker, no history, disabled |
| LiveTrade.LiveTradingEngine.SetBroker | core/live_trade.py:17-19 | only the broker changes |
| LiveTrade.LiveTradingEngine.EnableLiveTrading | core/live_trade.py:21-33 | follows the enable transition |
| LiveTrade.LiveTradingEngine.DisableLiveTrading | core/live_trade.py:35-40 | follows the disable transition |
| LiveTrade.LiveTradingEngine.ExecuteLiveTrade | core/live_trade.py:42-118 | result, order sent and new state are those of the rejection chain |
| LiveTrade.LiveTradingEngine.ClosePosition | core/live_trade.py:132-176 | result and order sent are those of the close specification |
| LiveTrade.LiveTradingEngine.IsEnabled | core/live_trade.py:211-213 | enabled, a broker present, and that broker authenticated with a non-empty token |
| Upstox.InstrumentKeyRoundTrip | core/brokers/upstox.py:181-215 | the key is never empty, and for an exchange without a bar the text after the bar is the upper-cased symbol |
| Upstox.AfterBarOfPrefix | core/brokers/upstox.py:194-215 | the text after the first bar of a prefix, a bar and a rest is rest when prefix has no bar |
| Upstox.UpperKeepsBar | core/brokers/upstox.py:194-195 | upper-casing introduces no bar |
| Upstox.SegmentCases | core/brokers/upstox.py:197-215 | NSE gives NSE_INDEX iff an index, else NSE_EQ; NFO gives NFO_OPT iff the symbol contains CE or PE, else NFO_FUT; BSE gives BSE_EQ; any other E gives E_EQ (after upper-casing) |
| Upstox.RelianceIsKeyedAsOption | core/brokers/upstox.py:203-209 | "reliance" on "nfo" is keyed NFO_OPT, a bar, then RELIANCE |
| Upstox.UpstoxInterval | core/brokers/upstox.py:139-151 | '1h' is refused; the five known codes are translated; anything else becomes "day" |
| Upstox.HistoricalUrl | core/brokers/upstox.py:139-156 | a candle URL exists iff the interval is not '1h' |
| Upstox.IntervalExamples | core/brokers/upstox.py:139-151 | 30m → 30minute, 1M → month, 1m → 1minute, and unlisted 5m → day |
| Upstox.AuthenticateProperties | core/brokers/upstox.py:21-51 | fails iff the key is missing or empty; otherwise the URL is the dialog address, the key, the redirect parameter and the redirect URI (default http://127.0.0.1:8000), each read back from its slice |
| ExitRule.PnlPercent | app.py:719-721 | the percentage is finite exactly when the entry price is not 0; with a zero entry it reaches the target iff the quote is positive and the stop iff it is negative (IEEE ±inf, NaN for 0/0) |
| ExitRule.ZeroEntryExits | app.py:719-755 | a zero entry with a positive quote always flags a profit-target exit, with a negative quote a stop exit, and with a zero quote it is flagged iff high theta comes with low IV or low volume |
| ExitRule.PercentThresholds | app.py:721-735 | for a positive entry, the target triggers iff ltp ≥ 1.2 × entry and the stop iff ltp ≤ 0.9 × entry |
| ExitRule.ConfidencePrefix | app.py:727-753 | each appended reason adds its weight |
| ExitRule.AppendIf | app.py:727-753 | appending a reason when its condition holds adds its weight, and nothing otherwise |
| ExitRule.ConfidenceOfReasons | app.py:727-753 | confidence = 0.4 [≥ 20 %] + 0.5 [≤ −10 %] + 0.2 [abs(theta) > 5] + 0.15 [iv < 15] + 0.1 [volume < 100] |
| ExitRule.ReasonsInSteps | app.py:727-753 | the five conditional appends give the reason list |
| ExitRule.TargetAndStopExclusive | app.py:728-735 | target and stop never both apply |
| ExitRule.ConfidenceBounds | app.py:727-753 | confidence lies in [0, 0.95] |
| ExitRule.EmitsIffConfident | app.py:755 | an exit is emitted iff the confidence is at least 0.3 (every such case has a reason) |
| ExitRule.PriceTriggerExits | app.py:728-755 | a target or stop alone always emits |
| ExitRule.NoPriceTriggerExits | app.py:737-755 | without a price trigger, an exit is emitted iff high theta together with low IV or low volume; no lone reason suffices |
| ExitRule.ExitForProperties | app.py:718-768 | for every entry price, including 0, flagged iff confidence ≥ 0.3, with confidence × 100 in [30, 95], the non-empty reasons, the percentage, and the position's id and symbol |
| ExitRule.EvaluateExit | app.py:718-768 | the per-position steps compute the specified decision |
| ExitRule.ScoreExit | app.py:723-753 | the five checks produce the reason list and its summed confidence |
| ExitRule.CurrentPositions | core/paper_trade.py:335-345 | keeps exactly the open positions |
| ExitRule.MatchingRow | app.py:713-719 | the first quote with the position's strike and type, or None iff there is none |
| ExitRule.ExitSignalsSound | app.py:702-768 | at most one signal per position, each in [30, 95] with reasons and belonging to an open position, and every position whose quote flags it has its signal in the list |
| ExitRule.ExitSignalsComplete | app.py:702-768 | every open position with a quote whose decision is Flagged contributes its signal, whatever its entry price |
| ExitRule.ExitSignals | app.py:700-768 | the loop over open positions computes the specified exit signals |

## Left out

- Streamlit and Plotly rendering, session state, and the display of the exit panel are not modelled.
- scikit-learn training and prediction are not modelled: `train_model` is treated as a no-op before `optimize_weights`.
- Pattern capture, `add_signal_indicators` and the mock-data generators are left out, because they are random or placeholder code.
- Black-Scholes greeks, the HTTP broker clients (including Upstox's requests), openalgo and authentication modules, the broker factory and report generation are left out as numerics or network I/O.
- JSON and SQLite persistence is left out. The constructors start from the defaults and never load saved state. The SQL of the journal, including its 365-day window, is replaced by a list of trades.
- Console messages, result-message strings and logging are left out; `log_validation` is modelled only as the list of failed checks.
- IEEE floating point is replaced by exact reals, so rounding at an exact threshold is not modelled. The exit panel's division by a zero entry price is the exception: it is modelled with its infinities and NaN (`ExitRule.Percent`).
- Dates are day numbers and `DateTime` values rather than strings. `strftime`/`isoformat` formatting is left out.
- `now` is a single parameter per call. The source reads the clock several times.
- `Text.Upper` upper-cases ASCII letters only. Python's `str.upper` is not modelled beyond ASCII.
- Position dictionaries are values. Aliasing between a list entry and a dict held elsewhere, and in-place mutation of a shared dict, are not modelled.
- Python's number-to-string formatting of the analysis keys and of the position keys (`f"{symbol}_{type}_{strike}"` in `update_positions` of both the paper account and the risk manager) is modelled as a tuple (`Risk.PositionKey`). Python formats an int strike and a float strike differently (`22000` against `22000.0`), so the source can miss a price update that the tuple model applies.
- pandas `sort_values` is not stable by default. The model sorts stably by entry time.
- Keys the source subscripts are assumed present, and the paths where a missing key raises `KeyError` are left out. These are: `symbol`, `strike`, `type`, `action`, `confidence` and `reasoning` of a paper signal; `symbol`, `strike`, `type` and `action` of a live signal; `symbol` of a signal checked by the risk manager; `strike`, `type`, `ltp` and `delta` of a scored chain row; `strike`, `type` and `oi` of the max-pain chain; `strike`, `type` and `ltp` of an exit-panel chain row, and `symbol`, `strike`, `type` and `entry_price` of its position. Keys read with `.get` (such as a signal's `price`, `quantity` and `lot_size`, or a chain row's `oi_change`, `iv`, `bid`, `ask`, `theta` and `volume`) are `Option` fields or defaults, as in the source. The `entry_price` of a risk trade is read with `.get` and is assumed to be given, because a missing one leaves `None` in later arithmetic.
- The exception handlers in `execute_live_trade` and `close_position` are left out, because those keys are always present. A broker whose `place_order` raises (the `Error executing live trade` reply) is not modelled: the broker's reply is an input value.
- `SignalScoring.MomentumScore`: requires a non-zero underlying price. The source divides by it, and a zero price produces a float infinity or an error that is not modelled. The same requirement carries over to its callers `SignalScoring.RowScores`, `SignalScoring.EntryFor`, `SignalScoring.InitialConfidenceRange`, `SignalScoring.ActionOnScoredRows`, `SignalScoring.InitialBuyIsStrong`, `SignalScoring.UnreachableRemarks` and `SignalScoring.AnalyzeLastRowWins`. `SignalScoring.Entries`, `SignalScoring.Analyze`, `SignalScoring.AnalyzeDistinct`, `SignalScoring.AnalyzeCoversRows`, `SignalScoring.GenerateSignalsSpec`, `SignalScoring.GenerateSignalsOutput`, `SignalScoring.GenerateSignalsHistory`, `SignalEngine.Engine.AnalyzeMarketParameters` and `SignalEngine.Engine.GenerateSignals` require it only for a non-empty chain, since an empty chain is answered before any division.
- `SignalEngine.Engine.OptimizeWeights`: requires the weight map to hold all seven names (`Valid`), which the constructor establishes and every update keeps.
- `Helpers.MonthlyExpiry`: requires a month from 1 to 12 before December 9999, where the source's `datetime(year + 1, 1, 1)` would overflow. The source also accepts month 0, where `datetime(year, 1, 1)` minus a day gives the last Thursday of the previous December; that case is not modelled.
- The Sharpe ratio of `get_trade_analysis` is left out, because it needs a square root.
- `get_current_signals`, `get_recent_signals` and `get_average_confidence` are not modelled: they are display queries over the history by clock window or average.
- `RiskManager.update_settings`, `get_settings` and `get_risk_metrics` are not modelled: they copy settings or report fields already covered by the summary.
- `auto_paper_trade_top_movers` is not modelled: it drives the signal engine over live market data. `get_portfolio_value` (paper) is a plain field read. The paper `get_daily_pnl` is modelled as `PaperTrade.DailyPnlOf`, with today's date as a parameter.
- `get_signals_with_filters` defaults to `min_confidence=0.6`. The model takes every filter as a parameter, with 0 or the empty string meaning no filter, so a caller relying on the default passes 0.6.
- `max_daily_trades` is the constant 5, because no modelled operation changes it.
- The live engine's broker calls (`get_live_positions`, `get_account_funds`, `get_trade_history`, `load_trade_history`, `place_order`) are broker I/O. Their replies are inputs: `reply` and `riskApproved`.
- The live engine's `positions` field is left out, because nothing reads or writes it.
- The exit panel's option-chain fetch is the function parameter `chainFor`.
- Market data, prices, charts and fundamentals in `core/market.py` are network or mock data, and are left out.

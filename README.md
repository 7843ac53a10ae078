# A verified model of the stock scanner core

This project models, in Dafny, the core of a Korean equity scanner. Its data flow:

- **Indicators.** The scanner reads daily OHLCV bars for KOSPI and KOSDAQ tickers and derives indicator columns: moving averages, ATR, MA slope, crosses, box ranges, Fibonacci levels, volume and accumulation tests, and MA convergence.
- **Strategies.** Five strategies run over the indicators, each with its own gates and scoring: pullback, box breakout, bottom escape, golden cross and convergence.
- **Grading.** The server's intersection analysis merges the signals of one ticker. It grades each ticker S, A, B+ or B and sorts by grade, then by confidence.
- **Risk.** The risk manager reads the market phase from the two indices, checks stop losses and sizes positions. Targets come from the strategies and `calc_target_price` in the indicators.
- **Scan.** `run_scan` ties these stages together for the whole market.
- **Data collector.** It caches names and bars, and turns KIS API replies into frames and quotes.
- **Holding monitors.** Two monitors keep watch over holdings: the file-backed watchlist with its chat commands, and the Supabase holdings table with trailing stops and MA20 breaks.
- **Agent.** The agent schedules scans, reports and bear-market warnings over the trading day.
- **Telegram bot.** It answers commands and inline buttons, and sends KIS buy orders.
- **Other modules.** The report serialisers and the configuration loader complete the core.

There is one Dafny module per source file, plus `Common`, which holds the shared helpers:

- `Option`;
- Python's `round` (half to even) and `int()` truncation;
- an association-list dictionary;
- a stable sort.

**How the source is modelled:**

- Code that updates objects in place becomes classes with `modifies` clauses: the indicator frame, the watchlist manager and bot, the holdings store, the agent and the trading bot.
- Loops become methods, each proved against a specification function.
- Pure code becomes functions with lemmas about them.
- Prices and ratios are `real`.
- A pandas NaN is `None`.
- Every network reply, clock reading and quote the source fetches becomes a parameter of the operation that uses it.

**Edge behaviour of the source, each stated as a lemma:**

- The pullback strategy reads a `기관합계` column from `get_institution_holding`. That table has the columns `외인순매수`, `기관순매수` and `외인보유비중` (data_collector.py:368-372), so the holding bonus applies only to a table that carries the column (`Strategies.PullbackWithoutInstitution`).
- Regrading a signal appends the same reason again (`Server.RegradingRepeatsReason`).
- Cache freshness uses `timedelta.seconds`, the part of the age below one day (`DataCollector.FreshMeaning`).
- Text commands are dispatched by prefix.
- A bare `/삭제` is parsed as a watch entry with a bad price (`Watchlist.BareRemoveIsEntry`).
- A buy button pressed without a quote registers the holding at price 0 (`TradingBot.BoughtRow`).
- A callback whose data is JSON but not an object raises out of the poll batch. The offset is already past it, so the updates after it are fetched again and it is not (`TradingBot.PolledFirstRaise`).

The box breakout is under "## Findings".

## Model

| member | source | states |
|---|---|---|
| Config.NewKisConfig | config.py:21-34 | the base URL is the paper host exactly when the account is a paper account, and otherwise the live host; the key and account number fall back to their placeholders when unset |
| Config.Lower | config.py:45 | `lower()` maps each ASCII capital to its small letter and keeps every other character |
| Config.NewTelegramConfig | config.py:40-45 | Telegram is enabled exactly when TELEGRAM_ENABLED, lower-cased, is "true" ("false" when unset) |
| Config.TelegramEnabledMeans | config.py:45 | unset gives off, "TRUE" and "True" give on, "1" gives off |
| Config.NewSupabaseConfig | config.py:51-61 | Supabase is enabled exactly when both URL and key are non-empty, which needs both to be set; the table is "my_holdings" |
| Common.RoundHalfEven | watchlist.py:128 | Python `round(x)`: the nearest integer, and an even one on a tie |
| Common.RoundTo | watchlist.py:181-186 | Python `round(x, d)` is within half a unit of the d-th decimal of x |
| Common.Trunc | watchlist.py:606 | Python `int(x)` truncates toward zero |
| Common.LookupPut | watchlist.py:88 | after `d[k] = v`, k finds v and every other key finds what it found before |
| Common.SortByProperties | server.py:163-168 | the sort is ordered by its key, a permutation of its input, and as long |
| Common.SortByStable | server.py:163-168 | the sort is stable: the items of one key keep their input order |
| Common.NatToStringRoundTrip | telegram_bot.py:61 | `str(n)` spells the digits of n |
| Common.GroupedNatValue | watchlist.py:525 | `f"{n:,}"` with the commas dropped is a digit string of value n |
| Common.Split | watchlist.py:569 | `split(sep)` gives at least one part and no part contains the separator |
| Common.SplitJoin | watchlist.py:569 | joining the parts of `split(sep)` with the separator gives back the text, so the parts are exactly the pieces between separators |
| Indicators.Sma | indicators.py:22-24 | the rolling mean has one entry per row and is defined exactly from row `period`-1 on |
| Indicators.SmaWindow | indicators.py:22-24 | a defined rolling value is the mean of the last `period` closes and lies between their minimum and maximum |
| Indicators.Atr | indicators.py:63-74 | the ATR column has one entry per row |
| Indicators.AtrAtLeast | indicators.py:63-74 | from row `period`-1 on the ATR is defined and at least any lower bound of the daily high-low ranges in its window (the true range also takes the gaps to the previous close) |
| Indicators.Frame.constructor | indicators.py:32 | a frame starts with its rows and no MA column |
| Indicators.AddAllMa | indicators.py:32-40 | `MA{p}` is added in place exactly for the listed periods the frame has at least `p` rows for, each equal to the rolling mean of the closes; other columns are unchanged |
| Indicators.MaSlopeDegree | indicators.py:85-90 | a series shorter than `lookback`+1 gives slope 0.0 |
| Indicators.SlopeNonNegative | indicators.py:85-90 | a positive base that has not fallen gives a non-negative percentage slope |
| Indicators.SlopeNegative | indicators.py:85-90 | a positive base that fell by at least one part in a million gives a negative slope even after rounding to 4 places |
| Indicators.DetectCross | indicators.py:96-114 | fewer than two points give neither cross; golden and dead are never both true; golden needs short below long on the previous row and dead the mirror |
| Indicators.FibonacciLevels | indicators.py:120-135 | the loop builds exactly the retracement table `round(high - diff*level)` per level |
| Indicators.FibonacciExtension | indicators.py:138-150 | the loop builds exactly the extension table `round(low + diff*level)` per level |
| Indicators.FibTableLookup | indicators.py:132-135 | every listed level maps to its price and no other key is in the table |
| Indicators.FibTableDistinct | indicators.py:132-135 | with distinct levels the table lists each level once, in the given order |
| Indicators.FibMonotone | indicators.py:120-150 | for high >= low, retracement prices fall and extension prices rise as the level grows |
| Indicators.FibEndpoints | indicators.py:120-150 | retracement level 0 is the swing high and level 1 the swing low; extension level 1 is the swing high |
| Indicators.CollectMaValues | indicators.py:171-174 | the loop keeps exactly the periods whose column exists with a defined last value |
| Indicators.SpreadAt | indicators.py:197-206 | one pass of the divergence loop yields Python's max/min spread of that row's defined MA values |
| Indicators.RecentSpreads | indicators.py:195-207 | the three spreads are today's, yesterday's and the day before's |
| Indicators.MaConvergence | indicators.py:156-217 | the method returns exactly the specification result `ConvergenceOf` |
| Indicators.GateMeansAllPresent | indicators.py:176 | the `len(ma_values) < len(periods)` gate passes exactly when every listed period is present once |
| Indicators.PresentCount | indicators.py:171-176 | the present periods never outnumber the listed ones and match them in number exactly when all are present |
| Indicators.ConvergenceMissing | indicators.py:176-177 | a missing or undefined MA gives "not converged, no spread, not aligned, not diverging", and only then |
| Indicators.ConvergedSpread | indicators.py:179-186 | converged holds exactly when every MA is present and (max-min)/min, or 999 for a non-positive minimum, is within the threshold |
| Indicators.SpreadBand | indicators.py:179-186 | within the threshold the smallest MA is positive and every MA lies within threshold times it |
| Indicators.AlignedOrdered | indicators.py:188-191 | alignment means every shorter MA is at least every longer one, not only its neighbour |
| Indicators.DivergingNeedsHistory | indicators.py:195-209 | divergence is reported only with at least five rows and every MA present |
| Indicators.RefWindowIn | indicators.py:231 | the `tail(lookback+5).head(lookback)` window holds `lookback` rows of the frame |
| Indicators.BullishMeans | indicators.py:232-233 | the bullish filter keeps exactly the bars with close above open |
| Indicators.ArgMaxRangeIsMax | indicators.py:236-238 | `idxmax` picks a bar of largest range, the first one among equals |
| Indicators.CandidatesMeaning | indicators.py:232-235 | the candidates are the bullish bars of the window, or the whole window when none is bullish |
| Indicators.ReferenceCandleChoice | indicators.py:231-238 | the reference bar is in the window, is bullish when any bar is, and has the largest range among the candidates |
| Indicators.ReferenceCenter | indicators.py:240-246 | for bars with low <= high the centre lies between the reference bar's low and high |
| Indicators.DetectAccumulationCandle | indicators.py:253-286 | the loop returns exactly the specification list `AccumulationCandles` |
| Indicators.AccumulationSound | indicators.py:271-285 | every reported candle is a qualifying row of the window, reported with its own close and volume |
| Indicators.AccumulationComplete | indicators.py:271-285 | every qualifying row of the window is reported |
| Indicators.AccumulationOrdered | indicators.py:271-285 | candles come out in increasing row order |
| Indicators.AccumulationFound | indicators.py:264-286 | some candle is found exactly when some bar of the last `lookback` qualifies against the window's mean volume |
| Indicators.BoxBreakoutUnreachable | indicators.py:304-317 | when the last close is at most its own high the breakout flag is false |
| Indicators.PriorBoxBreakout | indicators.py:304-317 | with the box taken over the bars before the last one, a breakout is exactly a last close above each of their highs, and the box spans their highs and lows |
| Indicators.BoxBounds | indicators.py:304-310 | every bar of the window lies between the box bottom and top |
| Indicators.NearTopMeans | indicators.py:309-310 | for a positive close, near-top means the top exceeds the close by at most `tolerance` times the close |
| Indicators.DetectVolumeCliff | indicators.py:324-359 | fewer than `lookback` rows give only `volume_cliff: False`; otherwise a ratio is reported, the price is falling exactly when there are 3 rows and the last close is below the close two rows back, and exhaustion is exactly a cliff with a falling price |
| Indicators.CliffMeans | indicators.py:337-352 | a cliff holds exactly when the last three volumes do not rise and the last volume is at most threshold times the window's average volume (a ratio of 1.0 when that average is not positive) |
| Indicators.Band | indicators.py:378-384 | the band holds exactly the bins whose centre lies in (price, price*(1+pct)] |
| Indicators.CheckResistanceWall | indicators.py:366-400 | wall exactly when the band's summed share exceeds 0.15; a wall needs some bin in the band; a non-empty profile with an empty band reports ratio 0 |
| Indicators.CalcStopLoss | indicators.py:406-420 | the stop is entry - atr*multiplier rounded to the nearest integer and not above the entry for a non-negative ATR term |
| Indicators.AboveMeans | indicators.py:460 | the filter keeps exactly the prices strictly above the close and adds none |
| Indicators.SortedFront | indicators.py:460-465 | the first two entries of the ascending sort are the smallest and next smallest prices |
| Indicators.UpsideTargetsOfPrices | indicators.py:440-460 | the candidate targets are the sorted extension prices of the default levels over the last 60 rows that exceed the close |
| Indicators.TargetsAreNextExtensions | indicators.py:426-466 | with 20 rows or more, target 1 is the smallest extension price above the close (absent when none is) and target 2 the next one, not below target 1 |
| Strategies.StrategyValueInjective | strategies.py:23-28 | the enum values of the five strategies are pairwise distinct, so the value identifies the strategy |
| Strategies.PlanStopBelowEntry | strategies.py:143-151 | for a non-negative ATR and multiplier the stop price is not above the first entry |
| Strategies.Finish | strategies.py:138-157 | the shared tail of every evaluator computes exactly `Scored`: confidence, trigger, prices and verdict |
| Strategies.ScoredCoherent | strategies.py:138-157 | confidence equals the score (clamped at 100), triggered exactly at the strategy's threshold, "매수 승인" exactly when triggered and the evaluator's own approval rule holds, prices and risk-reward set only when triggered; identity fields and reasons are kept |
| Strategies.InitialCoherent | strategies.py:35-52 | the default signal is untriggered with confidence 0 and verdict 관망 |
| Strategies.RiskRewardSign | strategies.py:153-156 | the risk-reward divides by max(entry-stop, 1), so it is never undefined; it is non-negative when target 1 is at least the entry |
| Strategies.AtrOrDefaultNonNegative | strategies.py:143 | the ATR, or 2% of a non-negative price when it is undefined, is non-negative for bars with high >= low |
| Strategies.CheckPullback | strategies.py:64-163 | the evaluator returns exactly the specification signal `PullbackEval` |
| Strategies.PullbackDecision | strategies.py:79-163 | without the history or support gate the default signal comes back; otherwise confidence = 40 + 35 (volume cliff or exhaustion) + 25 (institution hold) with the listed reasons, triggered exactly when one bonus applies and approved exactly when the volume bonus applies |
| Strategies.PullbackWithoutInstitution | strategies.py:116-136 | with no institution column, as the collector never supplies one, a triggered pullback is always approved and confidence is 0, 40 or 75 |
| Strategies.PullbackEntries | strategies.py:142-151 | entry 1 is the rounded reference centre and entry 2 the rounded 98% of it, not above entry 1 for a non-negative centre; the stop is not above entry 1 |
| Strategies.PullbackInputsFacts | strategies.py:80-104 | the reference candle exists exactly with enough rows and its centre lies in its range; ATR is non-negative; exhaustion implies a cliff |
| Strategies.CheckBottomEscape | strategies.py:168-276 | the evaluator returns exactly the specification signal `BottomEscapeEval` |
| Strategies.ScoreBottomEscape | strategies.py:218-270 | once the MA gate has passed, the wall and accumulation reasons, the score and the plan are exactly `BottomEscapeScored` |
| Strategies.BottomEscapeDecision | strategies.py:183-270 | without the MA breakout gate the default signal; otherwise confidence = 40 + (30 without a wall, else 10) + 30 for accumulation, triggered exactly without a wall or with accumulation, approved exactly without a wall |
| Strategies.BottomEscapeEntries | strategies.py:255-266 | a triggered signal had at least 30 rows, a close above MA20 and entries at round(MA20) and round(0.98*MA20) |
| Strategies.RecentCross | strategies.py:312-320 | the loop finds a golden cross exactly when one completes on one of the last three rows |
| Strategies.GoldenWithin3Means | strategies.py:310-320 | `detect_cross` (indicators.py:96-114) on the last two rows is the cross at offset 1; the three-row window is the disjunction of the three offsets |
| Strategies.CheckGoldenCross | strategies.py:281-396 | the evaluator returns exactly the specification outcome `GoldenCrossEval`, including the exception an empty RSI series raises |
| Strategies.ScoreGoldenCross | strategies.py:332-396 | the scoring tail returns exactly `GoldenCrossScored` |
| Strategies.GoldenCrossDecision | strategies.py:296-390 | raises exactly when the gate passes with an empty RSI series; otherwise default signal without the gate, else confidence = 40 + (25 or 5 for the slope) + (35 RSI cross-up, 20 above and rising, else 0), triggered exactly when the slope or the RSI helps, approved exactly when both do |
| Strategies.GoldenCrossEntries | strategies.py:374-384 | a triggered signal enters at the rounded price and the rounded long MA, with the stop not above entry 1 |
| Strategies.CheckBreakout | strategies.py:401-515 | the evaluator returns exactly the specification signal `BreakoutEval` |
| Strategies.ScoreBreakout | strategies.py:476-507 | the scoring tail returns exactly `BreakoutScored` |
| Strategies.BreakoutScoring | strategies.py:416-507 | default signal without the box gate; otherwise the confidence is the 35/15 + 25 + 20 + 20 score, triggered at 55, approved exactly on a breakout with 70; entry, targets and stop come from the box plan |
| Strategies.ConfirmationRule | strategies.py:476-489 | a breakout triggers with one confirmation and scores 70 with two; a near-top box needs two confirmations to trigger |
| Strategies.BreakoutDecision | strategies.py:476-507 | the same rule stated over the evaluator: a near-top box is never approved |
| Strategies.BoxPlanOrder | strategies.py:493-502 | the box plan enters at the rounded box top, its stop is at least the box bottom, and for top >= bottom its targets are ordered above the entry |
| Strategies.BreakoutPlanOrder | strategies.py:491-505 | the stop is at least the box bottom and entry 1 <= target 1 <= target 2 for a box with top >= bottom |
| Strategies.BreakoutNeverApproved | strategies.py:401-507 | because the box breakout flag (indicators.py:317) is unreachable, a breakout signal built from well-formed bars is never approved |
| Strategies.PriorBreakoutApproved | strategies.py:401-507 | with the box over the bars before the last one, a breakout signal over at least 30 bars is approved exactly when the last close clears every high of the box window and the score reaches 70 |
| Strategies.CheckConvergence | strategies.py:520-618 | the evaluator returns exactly the specification signal `AlignmentEval` |
| Strategies.ScoreAlignment | strategies.py:567-612 | the scoring tail returns exactly `AlignmentScored` |
| Strategies.AlignmentDecision | strategies.py:535-612 | default signal without the gate; otherwise confidence = (30 converged or 15 near) + 25 aligned + 30 diverging + the index bonus, triggered at 55, approved exactly when aligned and diverging; the stop is at least round(0.97*MA120) |
| Strategies.AlignedDivergingApproved | strategies.py:567-612 | past the gate, aligned and diverging MAs always give a triggered, approved signal |
| Strategies.DefaultStrategyConfigValid | config.py:78-122 | the default strategy parameters satisfy the evaluators' preconditions |
| Strategies.EvaluateFacts | strategies.py:623-640 | only the golden-cross evaluator can raise; every returned signal is coherent, carries its ticker, name and strategy, and is triggered exactly at its threshold |
| Strategies.RunEvaluator | strategies.py:630-638 | one engine step returns exactly `Evaluate` of that strategy |
| Strategies.OutcomesAt | strategies.py:626-633 | the engine runs the five evaluators in the fixed order pullback, bottom escape, golden cross, breakout, convergence |
| Strategies.FiredMeaning | strategies.py:634-638 | a signal is collected exactly when an evaluator returned it triggered; raised evaluators are skipped |
| Strategies.FiredInEngineOrder | strategies.py:626-640 | collected signals keep the engine order |
| Strategies.ScanAllStrategies | strategies.py:623-640 | the loop returns exactly the triggered signals of the outcomes, in order |
| Strategies.ScanFacts | strategies.py:623-640 | every returned signal is triggered, coherent and above its threshold, and strategies appear in engine order |
| Strategies.BestIndexIsFirstMax | strategies.py:642-647 | the chosen index has the highest confidence and every earlier one a strictly lower one |
| Strategies.GetBestSignal | strategies.py:642-647 | the best signal is `BestSignal` of the scan |
| Strategies.BestSignalMeaning | strategies.py:642-647 | None exactly when nothing triggered; otherwise a triggered signal of maximal confidence |
| Server.AnalyzeIntersections | server.py:54-170 | the method returns exactly the specification list `Intersections` under the given market condition, or the analysed one when none is given |
| Server.GroupSignals | server.py:69-71 | the grouping loop builds exactly the insertion-ordered `GroupBy` dictionary |
| Server.GroupStages | server.py:75-116 | the per-ticker filters computed step by step are exactly `StagesOf` |
| Server.GradeGroup | server.py:118-161 | the per-signal loop enriches every signal of the group with the group's stages |
| Server.GradeTable | server.py:82-155 | S exactly for three or more strategies with confirmed supply and an allowing market; A for exactly two; B+ for two or more without both; B for a single strategy |
| Server.StagesForSingleStrategy | server.py:82-111 | a single-strategy ticker never reads the supply data and keeps the "분석 중" default and phase UNKNOWN |
| Server.PhaseRecorded | server.py:100-111 | the phase is recorded only when stages 1 and 2 pass and a condition exists; stage 3 passes exactly after stages 1 and 2 when a condition allows or is absent; stage 2 passes exactly after stage 1 with a buy count of 2 or more |
| Server.EnrichFacts | server.py:118-159 | S and A signals get "매수 승인", others keep their verdict; confidence is unchanged with original_confidence equal to it and bonus 0; the grade and pattern count are recorded |
| Server.AccelerationReason | server.py:121-126 | an acceleration label that is non-empty and not "수급 완만" is put first in the reasons, ahead of the old ones; otherwise the reasons are unchanged |
| Server.PendingLabelReported | server.py:87-126 | the "분석 중" default label is prepended for tickers that fail stage 1 or whose supply read failed |
| Server.RegradingRepeatsReason | server.py:124-126 | grading the same signal twice prepends the acceleration reason twice |
| Server.GroupOfTicker | server.py:69-71 | a ticker's group holds only signals of that ticker, taken from the input |
| Server.GroupByGroups | server.py:69-71 | every dictionary entry is the ordered group of its ticker and every ticker of the input is a key |
| Server.GroupByMultiset | server.py:69-75 | the groups together hold every input signal exactly once |
| Server.PassIsMap | server.py:75-161 | the enriched list is the concatenated groups, each signal enriched with its ticker's stages |
| Server.IntersectionsPermutation | server.py:69-170 | the output is a permutation of the enriched input, so its length equals the input's |
| Server.IntersectionsOrder | server.py:163-168 | the output is ordered by grade S, A, B+, B and then by confidence descending, and the sort is stable |
| Server.IntersectionsRecords | server.py:118-161 | every output record is an input signal enriched with its own ticker's stages |
| Server.SameTickerSameGrade | server.py:116-155 | all signals of one ticker get the same grade |
| Server.StagesReadSupplyOnOverlap | server.py:90-95 | the stages depend on the supply data only when the ticker passed stage 1 |
| Server.SupplyOnlyForOverlaps | server.py:90-95 | the whole result depends on the supply data only of tickers with two or more strategies |
| RiskManager.AnalyzeMarketCondition | risk_manager.py:61-125 | the method builds exactly the specification condition `MarketConditionOf` from the two index histories |
| RiskManager.MarketPhaseRule | risk_manager.py:67-123 | an index flag is set exactly when the index has 5 or more closes and the last close is strictly above its 5-day mean; both flags off give BEAR with the bear weight and only the bear strategy; both on give BULL with weight 1.0 and all five strategies; mixed gives NEUTRAL with 0.7; one reason per index read plus the phase reason |
| RiskManager.MarketPhaseValues | risk_manager.py:104-123 | the phase is one of BULL, BEAR, NEUTRAL, and BEAR exactly when both flags are off and the single bear strategy is allowed |
| RiskManager.CheckStopLoss | risk_manager.py:130-180 | the method returns exactly the specification report `StopLossOf` |
| RiskManager.StopLossDecision | risk_manager.py:141-178 | an empty history returns the blank untriggered report; otherwise triggered exactly at or below the stop or below a present non-zero MA20, "즉시 매도" exactly at or below the stop, "종가 매도 추천" exactly for the MA20 break above the stop, "보유 유지" exactly when untriggered; the loss is round((current-entry)/entry*100, 2) |
| RiskManager.LossPctSign | risk_manager.py:162 | the loss percentage is non-negative at or above the entry and negative a hundredth of a percent below it |
| RiskManager.GenerateStopLossReport | risk_manager.py:182-192 | one report per position, in input order, each the stop-loss check of that position |
| RiskManager.RecommendedQty | risk_manager.py:217-218 | for a non-negative capital, room and cap and a positive price the quantity is non-negative and costs at most the single-position cap and at most the remaining room |
| RiskManager.QtyCost | risk_manager.py:218 | truncating min(a, b) / max(price, 1) gives a quantity whose cost is at most a and at most b |
| RiskManager.PositionSizeBounds | risk_manager.py:209-228 | the invested ratio is 0 without capital; the remaining room is never negative; 매수가능 exactly when room is left and fewer positions than the maximum are held |
| Scanner.Universe | scanner.py:100-107 | the scanned list is never empty: an empty filtered universe is replaced by the five manual tickers |
| Scanner.PercentBounds | scanner.py:127-131 | the per-ticker progress 20 + int(idx/total*75) lies in [20, 95], never decreases and is 95 at the last ticker |
| Scanner.TrailShape | scanner.py:84-211 | the progress values of one run are 5, 15, one value per ticker in [20, 95], then 100, and never decrease |
| Scanner.ScanTicker | scanner.py:136-150 | the per-ticker pass over the strategy map keeps exactly `Kept`: the triggered signals of the allowed strategies, in map order |
| Scanner.KeptMeaning | scanner.py:136-150 | a signal is kept exactly when an allowed strategy's evaluator returned it triggered; raised evaluators are skipped |
| Scanner.CollectedHas | scanner.py:128-150 | the collected list holds exactly the signals kept for some ticker |
| Scanner.CollectedMeaning | scanner.py:115-150 | a signal is collected exactly when some ticker and some allowed strategy returned it triggered |
| Scanner.KeptIgnoresDisallowed | scanner.py:137-139 | an evaluator whose key is not allowed is never run: changing it changes nothing |
| Scanner.CollectedIgnoresDisallowed | scanner.py:115-139 | the same for the whole scan |
| Scanner.EngineCheckCoherent | scanner.py:118-124 | the engine's evaluators return coherent signals for the ticker asked |
| Scanner.CollectedFacts | scanner.py:141-150 | every collected signal is triggered and, from the engine, coherent and for a scanned ticker |
| Scanner.ByConfidenceOrder | scanner.py:159 | the sort is a permutation, by confidence descending, stable among equal confidences |
| Scanner.ReportSignals | scanner.py:165-176 | every signal becomes a record in order; with Telegram on, exactly the approved signals are sent |
| Scanner.ApprovedPlusWatch | scanner.py:182-183 | every coherent signal is approved or on watch, so the two counts add up to the total |
| Scanner.CountStrategies | scanner.py:185-188 | the counting loop builds exactly the `Breakdown` dictionary |
| Scanner.BreakdownCounts | scanner.py:185-188 | the counts sum to the number of signals, each key counts the signals of that strategy value, and a key is present exactly when it counts one |
| Scanner.BreakdownDistinct | scanner.py:185-188 | the dictionary has no repeated key |
| Scanner.SummaryOfCounts | scanner.py:190-198 | total_scanned is the ticker count, approved + watch = total_signals, and the breakdown sums to total_signals |
| Scanner.SortedCoherent | scanner.py:159 | sorting keeps every signal coherent |
| Scanner.FinishScan | scanner.py:159-198 | the tail of the scan builds the result records and summary and sends the approved signals |
| Scanner.SummaryCounts | scanner.py:127-198 | over a whole scan, total_scanned is the size of the universe and the counts agree with the signal list |
| Scanner.RecordsAsWrittenFail | scanner.py:165-172 | as written (report_generator.py:148), reporting fails exactly when there is a signal to report |
| Scanner.CollectedNonEmpty | scanner.py:141-150 | some signal is collected exactly when some allowed evaluator triggered for some ticker |
| Scanner.ScanAsWrittenRaises | scanner.py:165-172 | as written (report_generator.py:148), `run_scan` raises exactly when some allowed evaluator triggered for some scanned ticker |
| Scanner.QuantScanner.constructor | scanner.py:40-49 | a new scanner is idle, with no results and no market condition |
| Scanner.QuantScanner.RunScan | scanner.py:51-213 | the results are `ResultsOf` the inputs, the approved signals are sent when Telegram is on, `scan_results` holds the new records, the condition is stored, and progress ends at 100 after the 5, 15, per-ticker, 100 trail |
| Scanner.QuantScanner.BeginScan | scanner.py:84-96 | progress goes 5 then 15 and the condition is stored |
| Scanner.QuantScanner.ScanTickers | scanner.py:126-153 | the loop collects exactly `Collected` and records one progress value per ticker |
| Scanner.QuantScanner.EndScan | scanner.py:208-211 | `scan_results` is replaced by the new records and progress is 100 |
| Scanner.QuantScanner.GetLatestResults | scanner.py:239-241 | returns the last run's records |
| DataCollector.DeltaSeconds | data_collector.py:153 | `timedelta.seconds` lies in [0, 86400) and differs from the elapsed time by whole days |
| DataCollector.FreshMeaning | data_collector.py:151-154 | for the cache tests (also data_collector.py:273-275 and 575-578), within a day an entry is fresh exactly when under 600 seconds old; whole days do not change freshness; an entry stamped in the future is stale unless it is within 600 seconds of a whole day ahead |
| DataCollector.ServedWithinTtl | data_collector.py:269-288 | for the bar and index caches (also data_collector.py:572-617), a cache miss serves and stores the fetched value, a read within 600 seconds serves the same value without refetching, and other keys are untouched |
| DataCollector.KisAuth.constructor | data_collector.py:58-60 | a new authenticator holds no token and no expiry |
| DataCollector.KisAuth.GetToken | data_collector.py:62-82 | a usable cached token is returned unchanged; otherwise a successful reply is returned and stored with expiry now + 23 hours, and a failed one returns "" and keeps the old fields |
| DataCollector.TokenReuseWindow | data_collector.py:63-77 | a token issued at time t is reused exactly before t + 23 hours |
| DataCollector.Tagged | data_collector.py:169-171 | every row of a market's answer is tagged with that market, nothing else changes |
| DataCollector.FirstDayMeaning | data_collector.py:157-177 | the chosen day is the first of today back to 6 days ago on which either market returned rows; no day is chosen only when all seven are empty |
| DataCollector.WithNamesKeys | data_collector.py:210-211 | after the refresh every ticker of the rows has a name and no other key is added |
| DataCollector.WithNamesKeeps | data_collector.py:210-211 | a cached name of a ticker absent from the rows is kept |
| DataCollector.WithNamesLastWins | data_collector.py:210-211 | a ticker's name is the one on its last row |
| DataCollector.Where | data_collector.py:248-258 | a row filter keeps exactly the rows that satisfy it |
| DataCollector.Head | data_collector.py:252 | `head(n)` is a prefix of the rows: the first min(n, len) rows for n >= 0, and all but the last -n rows for a negative n |
| DataCollector.WhereKeepsOrder | data_collector.py:251-258 | filtering after the turnover sort keeps the descending order |
| DataCollector.SortedByTurnover | data_collector.py:251 | the turnover sort is a permutation in descending turnover |
| DataCollector.FilteredSound | data_collector.py:238-264 | every result row is an input row; with a positive cap every row meets it; with ETF exclusion no fund name is left; with a positive rank the result is the first `t` rows of the capped rows sorted by descending turnover (a permutation of them), less the funds, so at most `t` rows in descending turnover |
| DataCollector.FilteredWithoutRank | data_collector.py:244-258 | without a positive rank a row is kept exactly when it meets the cap (if positive) and is not a fund (if excluded) |
| DataCollector.NameAfterRefresh | data_collector.py:210-211 | after a market-cap refresh (names read at data_collector.py:622-625) a ticker's name is its last row's name |
| DataCollector.UnknownTickerNamedByItself | data_collector.py:622-640 | with no cached name and no table entry the ticker names itself, so the lookup never fails |
| DataCollector.IndexFrameFacts | data_collector.py:611-614 | the index frame keeps at most `days` rows, sorted by date, taken from the answer |
| DataCollector.LoadNames | data_collector.py:110-116 | loading the names raises `NameError` exactly when `os` is not bound; otherwise the cache holds exactly the names of a readable names file, and none without one |
| DataCollector.LoadNamesAsWrittenRaises | data_collector.py:112 | with the module's imports as written, `os` is unbound and loading the names raises whatever the file holds |
| DataCollector.LoadNamesCorrected | data_collector.py:110-116 | with `os` imported, loading never raises and gives the stored names, or an empty cache without a readable file |
| DataCollector.Collector.constructor | data_collector.py:104-108 | a new collector, built as with `os` imported, has empty caches and the names that loading the names file gives |
| DataCollector.Collector.ClearCache | data_collector.py:125-128 | the data caches are emptied and the name cache is kept |
| DataCollector.Collector.GetMarketCapData | data_collector.py:148-215 | a fresh cached table is served unchanged unless forced; otherwise the table of the first day with rows (or the simulated one) is served, cached with the current time, and its names go to the name cache |
| DataCollector.Collector.RememberNames | data_collector.py:210-213 | the name cache gains the rows' names and nothing else changes |
| DataCollector.Collector.FilterStocks | data_collector.py:238-264 | the result is the filter applied to the served market-cap table |
| DataCollector.Collector.GetOhlcv | data_collector.py:269-288 | the frame is served through the cache; the KIS frame, or the simulated one when it is empty, is cached only when it has every required column |
| DataCollector.Collector.GetMarketIndex | data_collector.py:572-617 | the index frame is served through the cache, the simulated one replacing an empty answer |
| DataCollector.GetSupplyDemand | data_collector.py:382-456 | the method builds exactly the specification record `SupplyDemandOf` |
| DataCollector.SupplyCountFacts | data_collector.py:409-427 | buy_count counts the three flags, so it is at most 3; each flag is set exactly when its net buying is positive |
| DataCollector.AccelerationLabelFacts | data_collector.py:446-451 | the label is never empty; it is "수급 완만" exactly when no factor exceeds 2.0, and otherwise starts with the first flow that does |
| DataCollector.SupplyLabelFacts | data_collector.py:432-451 | a zero traded volume raises inside the try, leaving factors 1.0 and an empty label; otherwise the label is built from the three factors |
| DataCollector.OrderbookRatioFacts | data_collector.py:503-510 | the ratio is ask / max(bid, 1) rounded to two places, non-negative for a non-negative ask |
| DataCollector.EdgeFacts | data_collector.py:549 | the bin edges run from the lowest low to the highest high in equal steps |
| DataCollector.GetVolumeProfile | data_collector.py:543-567 | the binning loop builds exactly the specification profile `VolumeProfileOf` |
| DataCollector.SharesFacts | data_collector.py:564-566 | each bin's share is its volume over max(total, 1), and the shares sum to at most 1 |
| DataCollector.VolumeProfileFacts | data_collector.py:543-567 | an empty history gives an empty profile; otherwise there are `bins` bins whose shares sum to at most 1 |
| Report.SafeSerializeShape | report_generator.py:190-211 | dict keys are kept in order and lists keep their length; numpy scalars and arrays become the plain values; isoformat-capable objects become their isoformat text and anything else its `str` |
| Report.SafeSerializeNative | report_generator.py:190-211 | the result holds only JSON-native values |
| Report.SafeSerializeIdentity | report_generator.py:206-207 | a value that is already native comes back unchanged |
| Report.SafeSerializeIdempotent | report_generator.py:190-211 | serialising twice is serialising once |
| Report.FirstUndeclared | report_generator.py:135-153 | the first attribute read that the class does not declare, and none exactly when every read is declared |
| Report.SignalToDictAsWritten | report_generator.py:133-153 | as written, against the attributes declared at strategies.py:35-52, the dict build raises AttributeError exactly when some attribute it reads is not declared, naming that attribute |
| Report.SignalToDictAlwaysRaises | report_generator.py:148 | as written, since strategies.py:35-52 declares no `market_cap`, every call raises AttributeError for `market_cap` |
| Report.FirstUndeclaredAfter | report_generator.py:136-148 | the reported attribute is the first undeclared one in read order |
| Report.StrategyOfValue | strategies.py:23-28 | the value found maps back to the same enum text |
| Report.SignalToDictRoundTrip | report_generator.py:133-153 | the corrected dict gives the signal back; details are safely serialised, market_cap is absent, the timestamp is the current time and the strategy is its enum value |
| Report.ConditionToDictRoundTrip | report_generator.py:156-170 | the dict copies all 11 fields: it and its inverse are mutual inverses |
| Report.SignalConsoleLayout | report_generator.py:25-54 | reasons are numbered from 1 in order after the five header lines; the penultimate line shows the approval mark and verdict; the text opens with the divider |
| Report.ApprovalMarkRule | report_generator.py:51 | the mark is ✅ exactly for the verdict "매수 승인" |
| Report.PhaseEmojiRule | report_generator.py:59-62 | 🟢, 🔴 and 🟡 exactly for BULL, BEAR and NEUTRAL, ⚪ for any other phase |
| Report.MarketConsoleLayout | report_generator.py:57-76 | the phase line, one line per reason in order, and the allowed strategies joined by ", " |
| Report.FilteredConditionConsole | report_generator.py:57-76 | a condition from the market filter (risk_manager.py:104-123) never shows ⚪, and in a bear market lists only the bear strategy |
| Report.StripEnd | report_generator.py:127 | trailing whitespace is removed and nothing else |
| Report.StripStart | report_generator.py:127 | leading whitespace is removed and nothing else |
| Report.StripKeepsFirst | report_generator.py:127 | stripping keeps a leading non-space character |
| Report.StopLossTelegramRule | report_generator.py:113-127 | the message starts with 🚨 exactly when triggered and ✅ otherwise, and is the framed text without its surrounding newlines |
| Watchlist.Analyzed | watchlist.py:123-160 | the stop analysis changes only the item's stop-loss price and its recorded 20-day MA |
| Watchlist.StopLossRule | watchlist.py:126-160 | the stop is never under the rounded 3% stop; on 20 bars or more it is the rounded highest of the ATR stop, 2% under the last 20-day MA and the 3% stop, and that MA is recorded; on a shorter or missing chart it is exactly the rounded 3% stop and the MA is left as it was |
| Watchlist.ChartStopAtLeast | watchlist.py:133-157 | the most conservative stop, whatever ATR or MA is missing, is never under the 3% stop |
| Watchlist.LastWindows | watchlist.py:127-147 | on 20 bars or more the last 14-day ATR is defined and the last 20-day MA is the mean of the last 20 closes |
| Watchlist.CheckItem | watchlist.py:171-257 | the per-item body of check_all, built field by field, is the specification `Step` |
| Watchlist.AssessStatus | watchlist.py:190-245 | the status branch, built statement by statement, is the specification `Assess` |
| Watchlist.SkippedUnchanged | watchlist.py:173-180 | an item with no quote or a price that is not positive is left unchanged and gives no result |
| Watchlist.StatusPrecedence | watchlist.py:182-245 | a priced item records price, P&L % and P&L amount; the status is "손절도달" at a 3% loss, else "손절임박" within 1% of the stop, else under the 20-day MA "경고" (old status kept on a chart under 20 bars, no result when the chart read raises), else "경고" at a 1% loss, else "정상" |
| Watchlist.AlertRule | watchlist.py:247-257 | an alert is raised exactly when the item enters a danger status it was not in; the latch, once set, stays set; the reported dict shows the latch as it was before |
| Watchlist.StepKeepsIdentity | watchlist.py:171-257 | a check never changes ticker, name, buy price, quantity, date added or stop |
| Watchlist.NoRepeatedAlert | watchlist.py:247-250 | a second check that lands in the same status raises no alert again |
| Watchlist.CheckResultsCount | watchlist.py:165-263 | check_all reports at most one result per item, and one for every item exactly when every item was priced and assessed |
| Watchlist.AlertsAreDangerChanges | watchlist.py:247-257 | every alert check_all reports is an item in a danger status |
| Watchlist.CheckedItemsFacts | watchlist.py:168-257 | check_all keeps every key in place, every item's ticker and buy price, and clears no alert latch |
| Watchlist.LookupWithout | watchlist.py:93-101 | after `del items[k]`, k is absent and every other ticker finds what it found before |
| Watchlist.KeyedWithout | watchlist.py:93-101 | deleting an entry keeps one entry per ticker, each under its own ticker, and adds no entry |
| Watchlist.KeyedPut | watchlist.py:71-91 | storing an item under its own ticker keeps one entry per ticker |
| Watchlist.WatchlistManager.constructor | watchlist.py:62-66 | a new manager has an empty list |
| Watchlist.WatchlistManager.Add | watchlist.py:71-91 | the stored item is the analysed new item, named from the collector when no name is given, and it replaces any entry under its ticker |
| Watchlist.WatchlistManager.Remove | watchlist.py:93-101 | true exactly when the ticker was listed, and then only its entry goes; otherwise nothing changes |
| Watchlist.WatchlistManager.UpdatePrice | watchlist.py:103-110 | an unlisted ticker gives None and changes nothing; a listed item gets the new buy price and a fresh stop analysis and is returned |
| Watchlist.WatchlistManager.CheckAll | watchlist.py:165-263 | the loop leaves every item checked in dict order and returns the results of `CheckResults` |
| Watchlist.Erase | watchlist.py:575 | `replace(c, "")` leaves no c |
| Watchlist.Parts | watchlist.py:569 | one stripped field per '/'-separated piece |
| Watchlist.ParseAddMeaning | watchlist.py:567-602 | a registration names a digit ticker as given, or a known name with its own ticker, at the price the second field spells; a bad format means the text has no '/' |
| Watchlist.PlannedMeaning | watchlist.py:573-600 | registration as above; a bad price repeats the second field and it is no number; an unknown name is neither digits nor a known name |
| Watchlist.ParseNumberDigits | watchlist.py:575 | a digit string read as a float gives its value |
| Watchlist.PriceOfGrouped | watchlist.py:575 | a price written with thousands commas, with or without the won sign, reads back as its value |
| Watchlist.PriceOfDigits | watchlist.py:575 | a price that is a digit string once its commas are dropped reads as the value of those digits |
| Watchlist.WonSuffixDropped | watchlist.py:575 | a trailing won sign does not change the price read |
| Watchlist.ParseAddRoundTrip | watchlist.py:567-602 | "first / n원" with n written with commas registers digits as a ticker or a known name with its ticker at price n, and otherwise reports the unknown name |
| Watchlist.WordsOne | watchlist.py:536 | `split()` of one word is that word |
| Watchlist.WordsTwo | watchlist.py:548 | `split()` of two words joined by a space is the two words |
| Watchlist.SplitAbsent | watchlist.py:569 | a text without the separator splits into itself |
| Watchlist.SplitAround | watchlist.py:569 | a text with exactly one separator splits into the parts before and after it |
| Watchlist.SlashFirstSpaceWord | watchlist.py:552 | `replace(" ", " / ", 1)` on "a b" with a space-free a gives "a / b" |
| Watchlist.RouteSpaced | watchlist.py:547-552 | "name price" with the price written with commas is routed to the entry parser as "name / price" |
| Watchlist.RouteNamePrice | watchlist.py:547-552 | "name price" with a numeric last word is routed to the entry parser as "name / price" |
| Watchlist.RoutePlain | watchlist.py:547-564 | a text without a slash is an entry when it has two words or more and its last word is a number, and otherwise gets the usage help |
| Watchlist.NoCommand | watchlist.py:516-535 | a text that does not begin with a slash is none of the list, report or remove commands |
| Watchlist.BareRemoveIsEntry | watchlist.py:535-545 | "/삭제" without a ticker is no removal: it falls through to the entry parser, which reports "삭제" as a bad price |
| Watchlist.ParseNumberRejects | watchlist.py:575-577 | a word starting with neither a sign nor a digit and without a point is not a number |
| Watchlist.HandledChanges | watchlist.py:511-564 | a routed message changes the list only through a daily report's check, the removal of a listed ticker or a registration |
| Watchlist.HandledRegister | watchlist.py:567-609 | a registration stores the item under its ticker at the parsed price and replies with it; every other parse leaves the list as it was |
| Watchlist.WatchBot.constructor | watchlist.py:464-467 | the bot answers on the given watchlist |
| Watchlist.WatchBot.HandleAdd | watchlist.py:567-609 | the registration reply and the new list are those of `HandledAdd`, and the list keeps one entry per ticker |
| Watchlist.WatchBot.HandleMessage | watchlist.py:511-564 | the reply and the new list are those of `Handled` on the message as `Route` dispatches it, and the list keeps one entry per ticker |
| Watchlist.WatchBot.Dispatch | watchlist.py:515-564 | each branch of `_handle_message` gives the reply and the new list of `Handled` for its command, and the list keeps one entry per ticker |
| Holdings.NewRowFacts | supabase_client.py:80-97 | a new holding starts at its buy price as current and highest price, status "정상", no profit or loss, and a stop within half a won of 97% of the buy price |
| Holdings.PriceFor | supabase_client.py:193-208 | a holding is checked only at a positive quote and with a positive buy price |
| Holdings.ShareCount | supabase_client.py:212 | `int(quantity) or 1`: never zero, and the quantity itself whenever it is not zero |
| Holdings.SkipRule | supabase_client.py:193-208 | a holding is skipped exactly when it has no ticker, no positive buy price, no quote or no positive quote, and then the table is unchanged and no alert is raised |
| Holdings.HighestNeverDecreases | supabase_client.py:215-221 | the new highest price is the larger of the stored highest and the price, so it never goes down; the drop from it is in [0, 100) |
| Holdings.DropBounds | supabase_client.py:221 | the drop from a highest price at or above a positive price is in [0, 100) percent |
| Holdings.StatusPrecedence | supabase_client.py:243-260 | "손절도달" iff the P&L % is at or under the stop-loss setting; "익절도달" iff above it with a trailing hit (drop at least the trailing % while in profit); "경고" iff neither and the MA broke or the loss is 1% or more; "정상" otherwise; no reason exactly on a "정상" without profit |
| Holdings.MaToday | supabase_client.py:224-234 | with a chart of at least the stop period, the MA read is the mean of the last period closes |
| Holdings.MaBreakRule | supabase_client.py:224-241 | the MA break holds iff the chart has more bars than the period, yesterday's close was above yesterday's MA and the price is under today's |
| Holdings.AlertRule | supabase_client.py:273-284 | a checked holding raises an alert iff it enters an alert status it was not in; the alert carries that status, the ticker and the first reason, which is not empty |
| Holdings.ReasonNonEmpty | supabase_client.py:244-260 | every reason text is non-empty |
| Holdings.NoRepeatedAlert | supabase_client.py:262-284 | checking the written-back row again at the same price gives the same status and no alert |
| Holdings.AlertsOf | supabase_client.py:185-289 | at most one alert per holding |
| Holdings.AlertsMeaning | supabase_client.py:273-284 | every alert of a check comes from a holding of the snapshot and is in an alert status, and every holding that raises an alert is reported |
| Holdings.AlertStatus | supabase_client.py:274 | an alert's status is an alert status |
| Holdings.RefreshedShape | supabase_client.py:185-289 | a check keeps the table's length and tickers and rewrites only rows whose ticker is in the snapshot |
| Holdings.FailedWriteKeepsRow | supabase_client.py:262-271 | a row whose ticker's write-back fails is the same after the check |
| Holdings.FailedWriteRepeats | supabase_client.py:262-284 | a holding whose write-back fails keeps its old row and status, yet its alert is reported, and the next check over the resulting table reports the same alert again |
| Holdings.Dropped | supabase_client.py:115-131 | after a delete, the table holds exactly the former rows of other tickers |
| Holdings.MergedMeaning | supabase_client.py:154-172 | after an upsert the table holds exactly the new row and the old rows of the other tickers |
| Holdings.HoldingStore.constructor | supabase_client.py:49-66 | the store starts with the given configuration and table |
| Holdings.HoldingStore.GetAll | supabase_client.py:49-65 | the table when the store is enabled and the request succeeds, otherwise nothing |
| Holdings.HoldingStore.AddHolding | supabase_client.py:68-112 | when enabled and the request succeeds, the initial record is appended and returned; otherwise None and the table is unchanged |
| Holdings.HoldingStore.RemoveHolding | supabase_client.py:115-131 | true exactly when enabled and the request succeeds, and then every row of the ticker is gone |
| Holdings.HoldingStore.UpdateHolding | supabase_client.py:134-151 | true exactly when enabled and the request succeeds, and then every row of the ticker is patched and stamped |
| Holdings.HoldingStore.UpsertHolding | supabase_client.py:154-172 | true exactly when enabled and the request succeeds, and then the stamped row replaces the rows of its ticker or is appended |
| Holdings.HoldingStore.Assess | supabase_client.py:210-260 | the if/elif chain computes the specification `Evaluate` |
| Holdings.HoldingStore.CheckAndUpdateAll | supabase_client.py:178-289 | the alerts are those of the snapshot read at the start, in order, whether or not their write-backs succeed; the table is that snapshot with each checked holding whose write-back succeeds patched; nothing when disabled or the read fails |
| Agent.WindowsDisjoint | main.py:191-204 | market hours (08:55-15:40) and pre-market (08:00-08:54) never overlap, and a weekend is neither |
| Agent.OncePerWindow | main.py:173-185 | within one report window the daily report goes out once when the latch was clear, and not at all when it was set |
| Agent.AlreadySent | main.py:178-183 | with the latch set, no report goes out for the rest of the window |
| Agent.LatchRearms | main.py:184-185 | a check outside the window clears the latch, so the next window sends again |
| Agent.BearWarningRule | main.py:51-68 | the condition is present exactly when the index read succeeds; the bear warning goes out exactly when neither index closed above its five-day mean, and then only the bear strategy is allowed |
| Agent.WithGrade | main.py:92-95 | the signals of a grade are exactly the signals that carry that grade |
| Agent.RouteScanMeaning | main.py:74-137 | on a non-empty scan, the top alerts are the S signals followed by the A signals, each in grading order (exactly the S and A signals, no S after an A); when there are none, the digest shows the first min(5, total) B+ signals in grading order and counts them all; otherwise nothing is sent |
| Agent.SOrderedBeforeA | main.py:103 | `s_grade + a_grade` puts no S signal after an A signal |
| Agent.TickRules | main.py:258-294 | each iteration takes the market, pre-market or off-hours branch by the clock; it checks the holdings when the check interval has passed (1800 s off hours, never pre-market), analyses the market when the scan interval has passed outside off hours, and sends the report at most once per window; only market-hours runs are counted |
| Agent.RanUntilShutdown | main.py:258-294 | the loop runs one iteration per moment up to and including the first shutdown signal, and none after it |
| Agent.RanCounts | main.py:264-276 | the scan and check counters count exactly the market-hours iterations that scanned or checked |
| Agent.RanStopped | main.py:258 | once the loop has stopped, later moments change nothing |
| Agent.QuantAgent.constructor | main.py:213-218 | a new agent is running with both counters at zero |
| Agent.QuantAgent.HandleShutdown | main.py:220-222 | the shutdown handler stops the loop |
| Agent.QuantAgent.CheckDailyReport | main.py:173-185 | the report is sent and the latch set exactly as the specification `Latch` says |
| Agent.QuantAgent.RunMoment | main.py:259-288 | one pass of the loop body restarts the timers and bumps the counters and the report latch exactly as the specification `Tick` says for the moment's window |
| Agent.QuantAgent.Start | main.py:224-302 | the loop's actions, running flag, counters and latch are those of the specification `Ran` from timers at zero; an agent already stopped does nothing |
| TradingBot.ParseIntRoundTrip | telegram_bot.py:61-62 | `int(str(n))` gives back n for every integer n |
| TradingBot.ParseDigits | telegram_bot.py:61 | a digit string read by `int` gives its value |
| TradingBot.ParseNegative | telegram_bot.py:61 | a minus sign before digits reads as the negated value |
| TradingBot.OrderBodyRule | telegram_bot.py:43-63 | a paper account posts the "V" transaction id and a live one the "T" id; a market order has division "01" and price "0", a limit order "00" and its price; the product is the ticker; quantity and price texts read back as the same numbers |
| TradingBot.AccountFields | telegram_bot.py:51-58 | an account number "prefix-suffix" gives the two fields; one without a dash is all prefix with product code "01" |
| TradingBot.OrderResultRule | telegram_bot.py:65-89 | the order succeeds exactly when a reply came back with rt_cd "0", and then the order number comes from the reply's output ("" without one); a refusal carries the broker's message or "주문 실패"; an exception carries its own text |
| TradingBot.AlertButtonsRule | telegram_bot.py:255-279 | one button per row; the buy button is there exactly when the market is not bearish, comes first and orders the alert's ticker and quantity; the detail button is always last |
| TradingBot.ButtonRoundTrip | telegram_bot.py:262-279 | a button's callback data decodes back to the action it was made for |
| TradingBot.CalledRule | telegram_bot.py:284-369 | data that is not JSON is answered "잘못된 요청" and changes nothing; only a buy orders, once, at market for its own ticker and quantity; a holding is added exactly when that order succeeded and the insert succeeds, and it is that ticker at that quantity |
| TradingBot.BuyButtonOrders | telegram_bot.py:255-328 | pressing an alert's buy button sends a market order for the alert's ticker and quantity |
| TradingBot.DispatchMeaning | telegram_bot.py:372-389 | each command is chosen exactly when its own test on the stripped text holds (the six tests exclude each other), and add and delete receive the stripped text |
| TradingBot.AddArgsShape | telegram_bot.py:422-434 | `/add` gives the usage text exactly when it has fewer than four words; otherwise the ticker, name and price are the second, third and fourth words, and the quantity is 0 when no fifth word is given |
| TradingBot.AddCommandRoundTrip | telegram_bot.py:372-434 | "/add ticker name price qty" is dispatched to `/add` and read back as exactly those arguments |
| TradingBot.WordsJoin | telegram_bot.py:428 | `split()` of words joined by single spaces gives the words back |
| TradingBot.HoldingLine | telegram_bot.py:413-418 | a holding's line starts green for a non-negative P&L and red otherwise |
| TradingBot.HoldingLines | telegram_bot.py:412-418 | one line per holding, in table order |
| TradingBot.AnsweredChanges | telegram_bot.py:372-451 | only `/add` and `/del` change the holdings: `/add` appends exactly the record of its arguments, `/del` drops exactly the rows of its ticker; a text that is no command gets no reply |
| TradingBot.PerformedChanges | telegram_bot.py:391-451 | the same, per command |
| TradingBot.PolledClean | telegram_bot.py:488-509 | a batch in which nothing raises handles every update and leaves the offset one past the last |
| TradingBot.PolledFirstRaise | telegram_bot.py:490-513 | the first update that raises ends the batch with the offset one past it, so it is never fetched again |
| TradingBot.ForeignIgnored | telegram_bot.py:499-507 | messages from another chat, empty messages and other updates change nothing and send nothing |
| TradingBot.PolledHalted | telegram_bot.py:488-513 | once a batch has halted, later updates change nothing |
| TradingBot.TradingTelegramBot.constructor | telegram_bot.py:102-110 | a new bot is not running and polls from offset 0 |
| TradingBot.TradingTelegramBot.StartPolling | telegram_bot.py:467-476 | only an enabled bot starts running |
| TradingBot.TradingTelegramBot.StopPolling | telegram_bot.py:478-479 | stopping clears the running flag |
| TradingBot.TradingTelegramBot.CmdAdd | telegram_bot.py:422-441 | the reply and the new table are those of `AddAnswered` on the parsed words |
| TradingBot.ReadAddArgs | telegram_bot.py:428-435 | the word reading of `_cmd_add` gives `ParseAddArgs`: the usage below four words, the `float` or `int` error of a bad price or quantity, else the ticker, name, price and quantity (0 when absent) |
| TradingBot.TradingTelegramBot.AddRead | telegram_bot.py:436-441 | registering the read words gives the reply and the new table of `AddAnswered` |
| TradingBot.TradingTelegramBot.CmdDel | telegram_bot.py:443-451 | the reply and the new table are those of `DelAnswered` |
| TradingBot.TradingTelegramBot.HandleMessage | telegram_bot.py:372-389 | the reply and the new table are those of `Answered` |
| TradingBot.TradingTelegramBot.Perform | telegram_bot.py:374-465 | each command's `_cmd_*` gives the reply and table of `Performed` |
| TradingBot.TradingTelegramBot.BuyCallback | telegram_bot.py:299-346 | the messages sent and the new table are those of `Bought` |
| TradingBot.TradingTelegramBot.HandleCallback | telegram_bot.py:284-369 | the messages sent and the new table are those of `Called` |
| TradingBot.TradingTelegramBot.PollBatch | telegram_bot.py:481-513 | one batch of updates leaves the table, offset and messages of the specification `Polled` |

## Left out

- Network I/O to KRX, KIS, Supabase and Telegram becomes parameters: quotes, charts, KIS replies and an `ok` flag per request. The holdings check takes one flag for its read of the table and one outcome per ticker for its write-backs (`Holdings.Env.written`). Retries, timeouts and HTTP headers (`get_headers`, `_headers`, `_base_url`) are not modelled.
- Clocks become parameters: `datetime.now`, time stamps and the agent's moments.
- Threads, sleeps and signal handlers are not modelled. This covers the watchlist monitor thread (`start_monitoring`, `stop_monitoring`, `_monitor_loop`, watchlist.py:358-409) and the watchlist bot's `start`, `stop` and `_poll_loop` (watchlist.py:469-509).
- The trading bot's polling loop is modelled one batch of updates at a time (`TradingBot.TradingTelegramBot.PollBatch`).
- `Agent.QuantAgent.Start` runs over a finite sequence of moments, not an endless loop.
- File persistence is not modelled: watchlist.json (`_save`, `_load`), ticker_names.json (`_save_names`; what `_load_names` finds is a parameter, `DataCollector.NamesFile`) and the scan result files (`_save_results`, scanner.py:215). State lives in class fields.
- The simulated data generators (data_collector.py:645-737) are parameters, not pseudo-random functions of the ticker's hash.
- Logging, printing and exception messages are not modelled.
- A Python exception inside `handle_message` and the polling loops is not modelled, except where a lemma states it (`TradingBot.PolledFirstRaise`).
- `ema`, `rsi` and `ma_slope` (indicators.py:27-80) are not modelled. The RSI series is a parameter of the strategies that read it.
- Message and report texts are not modelled:
  - `format_signal_telegram` and `TelegramSender` (report_generator.py:82, 220-245);
  - `generate_daily_report` and `generate_alert_message` (watchlist.py:268-356);
  - `generate_daily_summary` and `format_alert_message` (supabase_client.py:295-364);
  - the body of `send_a_grade_alert`, the detail text of a callback and the `_cmd_report` text;
  - `send_message`, `send_with_buttons`, `answer_callback` and `edit_message` (telegram_bot.py:116-186).

  The model records which message is sent and the values it carries; it leaves out the wording.
- `stop_loss_to_dict` (report_generator.py:173) and the watchlist's `to_dict` and `from_dict` are not modelled. They are plain field copies.
- `check_holdings` (main.py:143-165): the agent records when a check runs, and the check itself is `Holdings.HoldingStore.CheckAndUpdateAll`. Sending each alert text is left out.
- Collector reads that only pass a reply through are not modelled:
  - `get_ticker_details` (data_collector.py:217);
  - `_fetch_ohlcv_kis` (290);
  - `get_investor_data` (354) and `get_institution_holding` (378);
  - `get_current_price` (461) and `get_program_trading` (516);
  - the first `get_stock_name` (130), which the second definition shadows.

  Their parsed results are parameters.
- Floating point is not modelled. Prices are exact reals, so binary rounding artefacts and numpy's infinities are absent. Python's `round` is modelled exactly as round-half-to-even on the real value.
- pandas and JSON are modelled as sequences of records: `rename`, `to_numeric`, `dropna` and column dtypes become explicit fields and `Option`s.
- Config.Lower: ASCII only, where Python's `lower` is Unicode.
- Common.IsDigits: ASCII digits only, where Python's `isdigit` also accepts other Unicode digits.
- Watchlist.ParseNumber: accepts surrounding spaces, an optional sign and digits with at most one point. Python's `float` also accepts exponents, underscores, `inf` and `nan`; those inputs are treated as malformed.
- TradingBot.ParseInt: accepts surrounding spaces, an optional sign and ASCII digits. Python's `int` also accepts underscores and other Unicode digits; those inputs are treated as malformed.
- TradingBot.HandleCallback: callback fields of an unexpected JSON type are treated as an ignored callback.
- Watchlist.WatchlistManager: items are values that the methods reassign. The aliasing of a `WatchItem` object shared between the list and a caller is not modelled.
- Holdings.HoldingStore.UpsertHolding: the upsert conflict key is taken to be the ticker, as the table's unique column.
- Holdings.HoldingStore.CheckAndUpdateAll: a null `buy_price` is not modelled, since `Holdings.Row` has no null buy price. In the source, `float(None)` at supabase_client.py:194 runs outside the `try` and raises out of the whole check, so no alert of that check is returned.
- Holdings.HoldingStore.CheckAndUpdateAll: a null `quantity` is not modelled; the model's quantity is an integer, so an absent one counts as one share. In the source, `int(None)` at supabase_client.py:212 raises inside the `try`, and that holding is skipped without a write-back or an alert.
- Holdings.Row: an absent column and a null column are both `None`.
  - In `check_and_update_all` a null `highest_price` or `trailing_stop_pct` is read as its default, where Python's `float(None)` raises and the holding is skipped.
  - A null name shows as the ticker in alerts. `_cmd_list` would print `None` for it, and raise on an absent name.
- Indicators.AddAllMa: a moving-average period of 0 is excluded. pandas rejects a zero window.
- Indicators.MaConvergence: when a moving average is missing, the source's result has no `is_aligned` key. The model reads that as not aligned.
- RiskManager.LossPct: an entry price of 0 gives `None`, where numpy gives a non-finite value.
- Scanner.QuantScanner.RunScan: the market condition is a parameter. scanner.py analyses it twice (lines 75 and 87) on the same data.

## Findings

| source | as written | input that shows it | evidently intended | confidence | as-written member | corrected member |
|---|---|---|---|---|---|---|
| report_generator.py:148 | `signal_to_dict` reads `signal.market_cap`, but the `Signal` dataclass (strategies.py:35-52) has no such field, so every call raises `AttributeError`, and `run_scan` raises as soon as one signal triggers | any triggered signal | serialise the signal with `market_cap` absent (null) | not executed | Report.SignalToDictAlwaysRaises | Report.SignalToDictRoundTrip |
| data_collector.py:112 | `_load_names` calls `os.path.exists`, but the module never imports `os` (lines 8-18); `__init__` calls `_load_names` (line 108) and the module builds `collector = DataCollector()` on import (line 743), so importing the collector raises `NameError` | importing data_collector, with or without a names file | `import os`, so the stored names are loaded, or none without a readable file | not executed | DataCollector.LoadNamesAsWrittenRaises | DataCollector.LoadNamesCorrected |
| indicators.py:304-317 | `detect_box_range` takes the box top over a window that ends with the last bar, then tests the last close against it; a close never exceeds its own bar's high, so `돌파여부` is never true and `check_breakout` (strategies.py:425-429) never approves | any history whose last close is at or below the last high, for example a last bar with close 100 and high 101 | the box over the `lookback` bars before the last one, so a close above all of their highs is a breakout | not executed | Indicators.BoxBreakoutUnreachable | Indicators.PriorBoxBreakout |

The strategy and scan models keep the box as written, since that is what the scanner computes; `Strategies.PriorBreakoutApproved` states what `check_breakout` decides with the corrected box (`Strategies.BreakoutInputsPrior`). The collector's constructor is the corrected one, with `os` imported.

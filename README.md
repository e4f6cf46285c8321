# Trade analyzer, modelled in Dafny

This project models the analytics core of a trade-journal analyzer. The analyzer reads a broker's trade export, one row per fill. Each row has:

- a trade time;
- a symbol;
- a signed quantity (positive buys, negative sells);
- a trade price;
- a realized FIFO P/L, which is already net of commissions;
- a commission, which brokers report as a negative number.

The model covers five parts of the analyzer:

- **`analyze_trades`** sorts the ledger by time and computes everything else from it:
  - whole-ledger money totals;
  - a daily equity curve with its drawdowns;
  - statistics of the closed trades (rows with non-zero realized P/L);
  - win and loss streaks;
  - a table per symbol, one per weekday and one per month;
  - a fear index and a letter grade per trade;
  - rule-based insights;
  - the top five winners and losers.
- **`calculate_avg_cost`** replays one symbol's fills through a first-in first-out queue of lots and returns the weighted average cost of the shares still held.
- **`analyze_current_holdings`** builds one position per symbol and keeps the open ones. It values them with a quote service, then reports each holding's share of the portfolio and a per-sector allocation.
- **`filter_trades_by_date`** is an inclusive time-range filter.
- **`filter_trades_by_symbol`** is a symbol allow-set filter.

Modelling choices:

- Money is `real` and times are `int` seconds. A calendar day is the time divided by 86400.
- The weekday and the month of a row are fields of the row. The analyzer derives them from the timestamp.
- Pandas' NaN results are modelled as `Option`. Profit factor is `Finite(x)` or `Infinity`.
- The quote service is a function argument: symbol to optional answer. A missing live price, a missing profile and a failed request are all expressible.
- Where `analyze_trades` and `analyze_current_holdings` compute in expressions, the model uses functions. The avg-cost engine, its sell loop, the position loop and the sector-summary loop are methods. They are proved equal to the specification functions, and the properties are proved about those functions.

Where the analyzer's documented intent and its code differ, the model follows the code:

- The profit factor is 0 both without closed trades and with closed trades but no win (0 over the gross loss). It is infinite only when there are wins and no loss.
- The date filter compares full timestamps. An end bound given as a date is midnight, so it drops the later trades of that day, although the range is documented as inclusive of the end date.
- On an empty ledger the maximum drawdown is NaN (`None` here): the minimum of an empty series.

## Model

| member | source | states |
|---|---|---|
| Ledger.SortByTime | analyzer.py:29 | the sorted ledger is in non-decreasing time order and is a permutation of the input |
| Ledger.SortByTimeOfSorted | analyzer.py:29 | sorting a ledger already in time order changes nothing (the sort is stable) |
| Ledger.SortByTimeSums | analyzer.py:29 | any column total is the same before and after sorting |
| Ledger.Closed | analyzer.py:82 | every closed trade has non-zero realized P/L |
| Ledger.ClosedPnl | analyzer.py:82 | the closed trades carry all of the ledger's realized P/L |
| ClosedStats.GlobalFinancials | analyzer.py:38-44 | definition of the whole-ledger totals, commission share and average commission; its properties are the FinancialsGuards and FinancialsIgnoreOrder rows |
| ClosedStats.ClosedSummary | analyzer.py:84-120 | definition of the closed-trade statistics; its properties are the CountsPartition through NoClosedTradesDefaults rows |
| ClosedStats.FinancialsGuards | analyzer.py:38-44 | commission share is non-negative and 0 exactly when no P/L or no fee; average commission times row count is the total fees; an empty ledger has 0 fees and average |
| ClosedStats.FinancialsIgnoreOrder | analyzer.py:29-44 | the whole-ledger totals do not depend on row order |
| ClosedStats.CountsPartition | analyzer.py:84-93 | wins and losses partition the closed trades, break-even closed trades never exist, and there are no more closed trades than rows |
| ClosedStats.WinRateBounds | analyzer.py:95-118 | win rate is in [0, 100]; it is 100 exactly when there are closed trades and no loss, and 0 exactly when there is no win |
| ClosedStats.WinAverages | analyzer.py:97-100 | with wins, 0 < average win <= largest win; without, both are 0 |
| ClosedStats.LossAverages | analyzer.py:98-101 | with losses, largest loss <= average loss < 0; without, both are 0 |
| ClosedStats.LossMean | analyzer.py:98-101 | the mean of non-empty negative losses lies between their minimum and 0 |
| ClosedStats.ProfitFactorCases | analyzer.py:104-120 | infinite exactly when there are closed trades and no loss; with losses it is gross profit over absolute gross loss; 0 without closed trades or without wins |
| ClosedStats.ProfitFactorBreakEven | analyzer.py:104-106 | with closed trades, profit factor is below 1 exactly when the ledger's net P/L is negative |
| ClosedStats.ProfitFactorSign | analyzer.py:104-106 | with closed trades, profit factor is below 1 exactly when the closed P/L sums negative |
| ClosedStats.RiskRewardRatio | analyzer.py:109 | risk/reward is non-negative; with wins and losses it is positive and times the absolute average loss gives the average win; without losses it is 0 |
| ClosedStats.RiskRewardOfSigns | analyzer.py:109 | the same facts for any closed set whose averages have the signs of wins and losses |
| ClosedStats.ExpectancyIsMeanPnl | analyzer.py:112 | with closed trades, expectancy is the ledger's net P/L divided by the number of closed trades |
| ClosedStats.ExpectancyIsMean | analyzer.py:112 | with closed trades, expectancy is the mean closed P/L |
| ClosedStats.ExpectancyOfSplit | analyzer.py:112 | expectancy is (sum of wins + sum of losses) over the closed count |
| ClosedStats.AveragesAreMeans | analyzer.py:97-98 | each average is its group's sum over its size, and 0 with a zero sum when the group is empty |
| ClosedStats.NoClosedTradesDefaults | analyzer.py:114-120 | a ledger without realized P/L gets the all-zero summary with profit factor 0 |
| ClosedStats.NegatedSum | analyzer.py:268 | the total of the negated P/L is minus the total P/L |
| ClosedStats.ExampleSplit | analyzer.py:82-89 | for a three-trade ledger (+100, -50, +30): all are closed, two win and one loses |
| ClosedStats.ExampleCounts | analyzer.py:84-95 | for that ledger the counts are 3/2/1 and the win rate is 200/3 |
| ClosedStats.ExampleAverages | analyzer.py:97-101 | average win 65, largest win 100, average and largest loss -50 |
| ClosedStats.ExampleProfitFactorAndExpectancy | analyzer.py:104-112 | profit factor 130/50 = 2.6 and expectancy 80/3 |
| Equity.Drawdowns | analyzer.py:57-75 | definition of the drawdown statistics of the daily series; its properties are the RunningMax through DurationIsLongestUnderwaterRun rows |
| Equity.DailyNet | analyzer.py:51 | at most one point per row; a non-empty ledger gives a first point on the first row's day |
| Equity.DailyNetTotal | analyzer.py:51 | the daily totals sum to the ledger's P/L |
| Equity.DailyNetIncreasing | analyzer.py:51 | on a time-sorted ledger the days of the series strictly increase |
| Equity.DailyNetCovers | analyzer.py:51 | every row's day has a point |
| Equity.DailyNetSums | analyzer.py:51 | each point's net is the P/L summed over all rows of its day |
| Equity.DailyNetIsGroupBy | analyzer.py:51 | the series is the group-by-date sum: strictly increasing days, every row's day present, each point the sum over its day |
| Equity.EquityCurve | analyzer.py:55 | one value per day, each the cumulative sum of the daily P/L up to it |
| Equity.RunningMax | analyzer.py:58 | one value per day, at least every earlier equity value and equal to one of them |
| Equity.RunningMaxLast | analyzer.py:58 | extending the running maximum by max(previous peak, new value) keeps both properties |
| Equity.Drawdown | analyzer.py:59 | every drawdown is <= 0, and it is 0 exactly on a day that is a new equity high |
| Equity.Underwater | analyzer.py:71 | the underwater flag of a day is exactly "drawdown < 0" |
| Equity.EquityEndsAtTotal | analyzer.py:51-55 | the last equity value is the ledger's net P/L |
| Equity.MaxDrawdownIsDeepest | analyzer.py:60 | max drawdown is absent exactly for an empty series; otherwise it is <= 0, no drawdown is deeper, and some day attains it |
| Equity.DrawdownPctNotPositive | analyzer.py:64-66 | the drawdown percentage is never positive |
| Equity.DrawdownPctNeedsProfit | analyzer.py:64-66 | if equity never rises above 0, the drawdown percentage stays 0 |
| Equity.DurationIsLongestUnderwaterRun | analyzer.py:69-75 | drawdown duration is the longest run of consecutive underwater days, at most the number of days, and 0 exactly when no day is underwater |
| Runs.LongestRunIsLongest | analyzer.py:73-74 | the longest run is attained by some window of equal flags, and no such window is longer |
| Runs.LongestRunZero | analyzer.py:74-75 | the longest run is 0 exactly when the value never occurs |
| Streaks.MaxWinStreak | analyzer.py:125-138 | definition of the longest winning streak (0 without one); its properties are the MaxStreakIsLongestRun, MaxStreakAtMostCount and StreaksOfClosedTrades rows |
| Streaks.MaxLossStreak | analyzer.py:125-138 | definition of the longest losing streak (0 without one); its properties are the same rows as MaxWinStreak |
| Streaks.StreaksOf | analyzer.py:131-132 | at most one streak per trade, the first streak starting with the first trade's flag |
| Streaks.StreaksAlternate | analyzer.py:131 | streaks are non-empty and consecutive streaks alternate between win and loss |
| Streaks.StreaksExpand | analyzer.py:131-132 | expanding the streaks gives back the flag sequence |
| Streaks.StreakSizesSum | analyzer.py:132 | the streak sizes add up to the number of trades |
| Streaks.MaxStreakIsLongestRun | analyzer.py:134-138 | the maximal streak of a value is the longest run of consecutive trades with that value |
| Streaks.MaxStreakAtMostCount | analyzer.py:134-138 | no streak is longer than the number of trades with that value |
| Streaks.CountWinFlags | analyzer.py:129 | on closed trades, the win flags count the wins and the other flags count the losses |
| Streaks.StreaksOfClosedTrades | analyzer.py:128-138 | the closed trades' streaks cover them all; the longest win (loss) streak is at most the number of wins (losses) |
| Streaks.ExampleStreaks | analyzer.py:131-138 | win, loss, win gives three streaks of 1 and maximal streaks of 1 |
| Symbols.StatsFor | analyzer.py:145-182 | definition of one symbol's row of symbol_stats; its properties are the SymbolTotals, SymbolWinRate, SymbolAverage, BestAndWorst and ExampleSymbol rows |
| Symbols.SymbolStats | analyzer.py:145-184 | the table is sorted by net P/L, largest first, and is a permutation of the per-symbol rows |
| Symbols.OneRowPerSymbol | analyzer.py:146 | every symbol of the ledger has a row, none has two, and each row's symbol has fills |
| Symbols.SymbolTotals | analyzer.py:145-178 | the table's net P/L, fees and open quantities add up to the ledger's, and its trade counts to the number of closed trades |
| Symbols.SymbolWinRate | analyzer.py:155-166 | for every ledger (with or without closed trades), wins plus losses is the symbol's closed count; win rate is in [0, 100], 0 without closed trades and 100 exactly when no closed trade lost |
| Symbols.SymbolAverage | analyzer.py:182 | average P/L times closed count is the net P/L, and both are 0 without closed trades |
| Symbols.BestAndWorst | analyzer.py:169-174 | literal 0 without any closed trade in the ledger; otherwise present exactly when the symbol has closed trades, the extremes of its closed P/L |
| Symbols.ExampleSymbol | analyzer.py:145-182 | a buy then a +50 sell: net 50, fees -2, one trade, one win, 100% win rate, best 50, average 50, no open position |
| Buckets.TradingDays | analyzer.py:189-199 | definition of the weekdays the closed trades fall on, in calendar order; its properties are the TradingDaysFacts and DowInCalendarOrder rows |
| Buckets.DowPerformance | analyzer.py:193-199 | definition of dow_performance; its properties are the DowInCalendarOrder, DowPresence, DowRow and DowTotals rows |
| Buckets.MonthlyPerformance | analyzer.py:202-207 | definition of monthly_performance; its properties are the MonthsAscend, MonthPresence, MonthRowSums and MonthlyTotals rows |
| Buckets.TradingDaysFacts | analyzer.py:189-199 | the trading weekdays are in calendar order without repeats, and are exactly the weekdays of the closed trades |
| Buckets.DowInCalendarOrder | analyzer.py:198-199 | the weekday table runs Monday to Sunday |
| Buckets.DowPresence | analyzer.py:193-199 | a weekday has a row exactly when some closed trade falls on it |
| Buckets.DowRow | analyzer.py:193-197 | each weekday row's count is its trades' number (> 0), its sum their P/L, and its mean times its count the sum |
| Buckets.DowTotals | analyzer.py:193-197 | the weekday sums add up to the closed P/L and the counts to the closed count |
| Buckets.MonthsAscend | analyzer.py:202-206 | monthly rows are in strictly increasing month order |
| Buckets.MonthPresence | analyzer.py:202-206 | a month has a row exactly when some closed trade falls in it |
| Buckets.MonthRowSums | analyzer.py:202-206 | each month row's count and sum are those of its trades |
| Buckets.MonthlyTotals | analyzer.py:202-206 | the monthly sums add up to the closed P/L and the counts to the closed count |
| Grading.FearIndex | analyzer.py:212-217 | definition of the fear index; its properties are the FearIndexBounds and SmallWinsShare rows |
| Grading.GradeTrade | analyzer.py:220-229 | definition of grade_trade; its properties are the FeeCost, GradeIsThresholdsCleared, GradeMonotone, GradeSign and GradeExamples rows |
| Grading.GradeDistribution | analyzer.py:231-234 | definition of the grade value_counts; its properties are the GradeDistributionKeys and GradeDistributionTotal rows |
| Grading.FearIndexBounds | analyzer.py:212-217 | the fear index is in [0, 100); it is 0 without wins, and positive exactly when some win made less than 30% of the average win |
| Grading.SmallWinsShare | analyzer.py:213-215 | with one win at or above the threshold, the small-win share is below 100 and positive exactly when some win is below the threshold |
| Grading.FeeCost | analyzer.py:222 | the fee unit is positive, and it is the absolute fee when there is one |
| Grading.GradeIsThresholdsCleared | analyzer.py:220-229 | a trade's rank is the number of thresholds (-1, 0, 1, 3, 5 fee units) its net clears |
| Grading.GradeMonotone | analyzer.py:220-229 | at the same fee, a larger P/L never gets a lower grade |
| Grading.GradeSign | analyzer.py:220-229 | C or better exactly when P/L plus fee is positive; F exactly when it is at most minus one fee unit |
| Grading.GradeExamples | analyzer.py:220-229 | +100 with fee -10 grades A+, +5 with fee -10 D, +0.04 without fee A, -20 with fee -10 F |
| Grading.GradeDistributionKeys | analyzer.py:234 | a grade is in the distribution exactly when some closed trade got it, and maps to that (positive) number of trades |
| Grading.GradeDistributionTotal | analyzer.py:234 | the distribution's counts add up to the number of closed trades |
| Insights.InsightsOf | analyzer.py:239-262 | definition of the insight rules, in order; its properties are the WinRateInsights through QuietInsights rows |
| Insights.Message | analyzer.py:241-262 | definition of each insight's text; its properties are the Messages and StreakMessage rows |
| Insights.FirstMaxIndex | analyzer.py:261 | the best day holds the largest sum and every earlier row a strictly smaller one |
| Insights.WinRateInsights | analyzer.py:241-242 | "low win rate" exactly when below 40, "high win rate" exactly when above 70 |
| Insights.RiskRewardInsights | analyzer.py:244-246 | each risk/reward insight exactly when average win > 0, average loss < 0 and its threshold holds |
| Insights.ProfitFactorInsights | analyzer.py:248-249 | "unprofitable" exactly when a finite profit factor is below 1; "strong" exactly when it is above 2 or infinite |
| Insights.FearAndCommissionInsights | analyzer.py:251-253 | the fear insight exactly when fear > 50; the commission insight exactly when commission share > 30 |
| Insights.InsightValues | analyzer.py:255-258 | a losing-streak insight exactly at the longest loss streak when >= 5; exactly one expectancy insight, carrying the expectancy, positive or negative by its sign |
| Insights.BestDayInsight | analyzer.py:260-262 | a best-day insight exactly when the weekday table is non-empty, naming its first maximal row |
| Insights.BestDayIsFirstMax | analyzer.py:260-262 | the best day named has the largest sum and every earlier row a smaller one |
| Insights.InsightCount | analyzer.py:239-262 | one to eight insights; with a weekday table the best day is last and the expectancy insight just before it |
| Insights.QuietInsights | analyzer.py:239-262 | all-zero statistics and no trading day give exactly "low win rate", "unprofitable" and "negative expectancy 0" |
| Insights.NatToString | analyzer.py:255 | the rendering of a count is a non-empty string of decimal digits |
| Insights.NatToStringRoundTrip | analyzer.py:255 | reading the rendering back gives the count |
| Insights.Messages | analyzer.py:241-262 | one message per insight, in order |
| Insights.StreakMessage | analyzer.py:255 | the losing-streak message carries the streak length between its fixed prefix and suffix |
| Sorting.SortDesc | analyzer.py:184 | the result is sorted largest first and is a permutation of the input |
| Sorting.Top | analyzer.py:267-268 | min(n, size) elements, sorted largest first, taken from the input |
| Sorting.TopTakesLargest | analyzer.py:267-268 | no element left out, counting each copy, exceeds one taken, so a duplicate left behind cannot outrank a taken row |
| Analysis.AnalyzeTrades | analyzer.py:5-269 | definition of the whole analyze_trades report over the time-sorted ledger; its properties are the Analysis rows below and the rows of the parts it combines |
| Analysis.ProcessedTrades | analyzer.py:29-82 | the processed trades are in time order and are exactly the ledger's closed trades |
| Analysis.GradeColumn | analyzer.py:231-233 | the trade count is the number of processed trades, each graded by its own P/L and commission |
| Analysis.TopWinners | analyzer.py:267 | up to five closed trades, best first, all from the closed trades, and no closed trade left out (counting copies) better than one taken |
| Analysis.TopLosers | analyzer.py:268 | up to five closed trades, worst first, likewise |
| Analysis.InsightsOfReport | analyzer.py:239-262 | the report's insights are the rules applied to the report's own statistics |
| Analysis.ReportWinInsights | analyzer.py:241-246 | the win-rate and risk/reward insights follow the report's win rate, averages and ratio, both directions |
| Analysis.ReportProfitInsights | analyzer.py:248-249 | the profit-factor insights follow the report's profit factor |
| Analysis.ReportHabitInsights | analyzer.py:251-253 | the fear and commission insights follow the report's fear index and commission share |
| Analysis.ReportStreakInsight | analyzer.py:255 | a losing-streak insight is reported exactly for the report's longest loss streak when it is >= 5 |
| Analysis.NoRealizedPnlStats | analyzer.py:114-120 | without realized P/L: the all-zero summary, commission share 0, fear 0, no loss streak, no processed trade, no weekday row |
| Analysis.NoRealizedPnlSorted | analyzer.py:29-38 | sorting a ledger without realized P/L keeps every row's P/L at 0, and the total is 0 |
| Analysis.NoRealizedPnl | analyzer.py:239-262 | without realized P/L there are exactly three insights: low win rate, unprofitable, negative expectancy 0 |
| Analysis.NoRealizedPnlTables | analyzer.py:267-268 | without realized P/L, top winners, top losers, grade distribution and monthly table are empty |
| Analysis.NoClosedTrades | analyzer.py:82 | a ledger without realized P/L has no closed trade |
| Lots.Consume | analyzer.py:347-359 | definition of a sale from the oldest lots; its properties are the ConsumePositive, ConsumeShares, OversellEmpties and ConsumeKeepsNewest rows, and SellOldestFirst computes it |
| Lots.Step | analyzer.py:337-359 | definition of one fill applied to the lots; ApplyFill computes it and ZeroFillIsNoOp is a property |
| Lots.Replay | analyzer.py:332-359 | definition of the lots left after the fills in order; its properties are the ReplayPositive and ReplayShares rows |
| Lots.WeightedCost | analyzer.py:361-368 | definition of total cost over total shares, 0 without lots; its properties are the WeightedCostBetween, WeightedCostWithin and CostBounds rows |
| Lots.AvgCost | analyzer.py:330-368 | definition of calculate_avg_cost; CalculateAvgCost computes it and AvgCostExample is a worked case |
| Lots.SellOldestFirst | analyzer.py:348-359 | the sell loop removes the sold shares from the oldest lots, as the specification function prescribes |
| Lots.ApplyFill | analyzer.py:341-359 | one fill: a buy appends a lot priced with its commission per share, anything else sells oldest first |
| Lots.CalculateAvgCost | analyzer.py:330-368 | the engine returns the weighted cost of the lots left after replaying the time-sorted fills |
| Lots.ConsumePositive | analyzer.py:351-359 | selling never leaves an empty or negative lot |
| Lots.ReplayPositive | analyzer.py:337-359 | every lot left after a replay holds a positive quantity |
| Lots.ConsumeShares | analyzer.py:351-359 | a sale reduces the shares held by the quantity sold, down to 0 |
| Lots.OversellEmpties | analyzer.py:351-359 | selling at least everything held leaves no lot |
| Lots.ConsumeKeepsNewest | analyzer.py:351-359 | a sale drops the k oldest lots, which hold no more than the quantity sold; the next lot keeps its price and a positive quantity reduced by exactly what is still to sell; every later lot is untouched; nothing is left only when every lot was dropped |
| Lots.ZeroFillIsNoOp | analyzer.py:347-351 | a zero-quantity fill changes no lot |
| Lots.ReplayShares | analyzer.py:337-359 | shares held are at least the fills' net quantity, and equal to it when no sale oversells |
| Lots.WeightedCostBetween | analyzer.py:362-368 | with lots left, the average cost is between the cheapest and the dearest lot price |
| Lots.WeightedCostWithin | analyzer.py:362-368 | prices within [lo, hi] give an average cost within [lo, hi] |
| Lots.CostBounds | analyzer.py:365-366 | total cost lies between lo and hi times total shares when every lot price does |
| Lots.AvgCostExample | analyzer.py:341-368 | buying 10 at 1 with fee 5 gives a lot at 1.5; then buying 10 at 2 and selling 15 leaves 5 at 2, average 2 |
| Holdings.PositionOf | analyzer.py:372-381 | definition of one position_data entry; its properties are the PositionFor, PositionOfFills and PositionContents rows |
| Holdings.Positions | analyzer.py:371-383 | definition of position_summary; PositionSummary computes it, and PositionsDistinct and PositionTotals are properties |
| Holdings.FetchHolding | analyzer.py:401-464 | definition of fetch_ticker_data on the service's answer; its properties are the Valuation, PriceAndSectorFallbacks and WholeFailureIsPartialFailure rows |
| Holdings.ReportOf | analyzer.py:385-528 | definition of the analyze_current_holdings result for the positions; AnalyzeCurrentHoldings computes it, and the ReportHoldings, ReportTotal, NoOpenPositions, ReportSectors and ReportSummary rows are properties |
| Holdings.OpenReport | analyzer.py:396-528 | definition of the report once there are open positions; its properties are the OpenHoldings and OpenTotal rows |
| Holdings.SectorTable | analyzer.py:505-512 | definition of sector_allocation; its properties are the SectorRowIsOwn through SectorTableTotals rows |
| Holdings.SummaryOf | analyzer.py:514-521 | definition of sector_summary; BuildSummary computes it and SummaryContents is a property |
| Holdings.PositionSummary | analyzer.py:371-383 | the position loop returns one position per distinct symbol, as the specification function prescribes |
| Holdings.PositionFor | analyzer.py:373-381 | one symbol's net quantity, average cost, last price and time |
| Holdings.PositionOfFills | analyzer.py:373-381 | a position has its fills' total quantity, their average cost and the last fill's price and time |
| Holdings.PositionContents | analyzer.py:371-381 | every position's symbol has fills and the position carries their totals |
| Holdings.PositionsDistinct | analyzer.py:372 | no symbol has two positions |
| Holdings.PositionTotals | analyzer.py:377 | the positions' quantities add up to the ledger's net quantity |
| Holdings.Valuation | analyzer.py:427-430 | cost basis is quantity times cost, market value is cost basis plus unrealized P/L, and the percentage is relative to a positive cost basis, otherwise 0, positive exactly when the price is above cost |
| Holdings.PriceAndSectorFallbacks | analyzer.py:412-424 | the live price when quoted, else the last fill's price; an unknown sector and industry without a profile; the profile's sector when it has one |
| Holdings.WholeFailureIsPartialFailure | analyzer.py:446-464 | a failed request values a holding as a quote without price and profile does |
| Holdings.BuildSummary | analyzer.py:514-521 | the summary loop builds the sector-summary map, as the specification function prescribes |
| Holdings.AnalyzeCurrentHoldings | analyzer.py:318-528 | the method returns the report of the ledger's positions |
| Holdings.OpenHoldings | analyzer.py:466-503 | one holding per open position, largest market value first, each the position valued with its quote and given its share |
| Holdings.ReportHoldings | analyzer.py:385-503 | holdings count and contents match the open positions, sorted by market value; every holding is long and its share is its value over the total |
| Holdings.SharedHolding | analyzer.py:500 | giving a holding its share keeps its quantity and sets its share of the total |
| Holdings.OpenTotal | analyzer.py:497-500 | the total is the holdings' market values summed, and a non-zero total makes the shares add up to 100 |
| Holdings.ReportTotal | analyzer.py:497-500 | the same facts for the whole report |
| Holdings.NoOpenPositions | analyzer.py:385-394 | no holding exactly when no position is open, and then the empty report |
| Holdings.SectorRowIsOwn | analyzer.py:506-511 | each sector row is the aggregate of its own sector, which is a held sector |
| Holdings.SectorRows | analyzer.py:506-511 | a sector row's value is its holdings' market value, its count their number (> 0), and its share the value over the total |
| Holdings.SectorIsHeld | analyzer.py:506-509 | every sector row's sector is held |
| Holdings.HeldSectorIsListed | analyzer.py:506-509 | every held sector has a row |
| Holdings.SectorCoverage | analyzer.py:506-509 | a sector has a row exactly when some holding is in it |
| Holdings.SectorTableDistinct | analyzer.py:506 | no sector has two rows |
| Holdings.SectorTableTotals | analyzer.py:506-512 | the table is sorted by value; its values and counts add up to the holdings' value and number; its shares to value over total times 100 |
| Holdings.ReportSectors | analyzer.py:505-512 | the report's sectors are sorted, distinct, add up to the total value and the number of holdings, and their shares to 100 |
| Holdings.SummaryContents | analyzer.py:514-521 | the summary has a key exactly for each sector row; with distinct sectors, each maps to its row's value, share and count |
| Holdings.ReportSummary | analyzer.py:514-521 | the report's summary has exactly its sectors as keys, each mapped to its row's entry |
| Filters.FilterByDate | analyzer.py:531-537 | the result keeps exactly the rows within the bounds, in order |
| Filters.FilterByDateIsRange | analyzer.py:533-536 | the start filter then the end filter is one range filter |
| Filters.FilterByDateContents | analyzer.py:531-537 | a row is kept as often as it occurs when its time is within the bounds, and never otherwise |
| Filters.FilterByDateOrder | analyzer.py:531-537 | filtering a concatenation is concatenating the filtered parts |
| Filters.FilterByDateUnbounded | analyzer.py:533-536 | without bounds nothing is dropped |
| Filters.FilterBySymbol | analyzer.py:539-542 | an empty selection keeps the ledger; otherwise a row is kept as often as it occurs exactly when its symbol is selected |
| Filters.FilterBySymbolOrder | analyzer.py:539-542 | filtering a concatenation is concatenating the filtered parts |
| Filters.WhereKeepsSorted | analyzer.py:531-542 | filtering a time-sorted ledger keeps it time-sorted |

## Left out

- The web front end and file upload are not part of this model.
- Reading the export is not modelled either: column-name trimming, `to_numeric` coercion with missing values as 0, and timestamp parsing. Rows arrive typed.
- Weekday names and month periods are row fields, not derived from the timestamp. Month labels as strings are not modelled.
- `.round(2)` is not modelled, nor its effect on which day `idxmax` picks on ties after rounding. Neither is the `:.2f` money formatting: it is the `money` argument of `Insights.Message`.
- Lookups run on a thread pool and results arrive in completion order. This order is not modelled: holdings keep position order until they are sorted by market value, and that sort fixes the reported order up to ties. Ledgers with ties in market value may appear in the analyzer in other orders.
- The quote service is the `market` argument. Network access, the ticker library and its progress message are left out.
- pandas' sorts are not stable. The model sorts stably, which is one of the orders pandas may return for equal keys (times, net P/L, market values, sector values).
- All groupings, including `groupby`, list their keys in order of first appearance. pandas orders keys lexicographically, but no contract here depends on that order. The sector table and symbol table are re-sorted by value, and the monthly table is re-sorted ascending.
- A portfolio whose market values sum to 0 has undefined shares (inf or NaN in pandas). These are `None` here.
- After a successful fetch the holdings table can never be empty, so the `len(holdings_df) == 0` branch returns the same empty report as the no-open-position branch. It is not modelled separately.
- `filter_trades_by_date` also converts the caller's `TradeDate` column in place. That side effect is left out.
- Filters.FilterBySymbol: a selection given as a list is modelled as a set, so duplicates and order in it have no effect, as with `isin`.
- The processed table's extra columns `IsWin`, `DayOfWeek` and `Month` are not separate fields. They are the win flags, the row's weekday and month.
- Grading.GradeTrade follows the code as written: the commission is added to a P/L that is already net of it.

# NIFTY options trading: a verified model of the decision rules

This project models the decision logic of a Zerodha Kite based NIFTY options
trading system in Dafny and proves properties about it. The model covers:

- **The order executor.** This covers:
  - the risk gate: a daily loss limit of ₹20,000, at most 3 trades a day and at most 4 open positions;
  - position sizing;
  - order placement into the `trades` table;
  - the end-of-day auto square-off of the `positions` table;
  - the watchdog's 15:29–15:30 window.
- **The NIFTY strategy engine.** This covers RSI, EMA and MACD, the ATM-call and iron-condor scorers, and the signal validator.
- **The technical-indicator scripts.** This covers:
  - the five-indicator composite signal;
  - EMA crossover;
  - the Supertrend loop;
  - volume-profile position;
  - the Greeks-based strategy evaluation;
  - the backtest's position loop.
- **The Kite service.** This covers the retry wrapper, the ATM strike, the strike grid, option symbols, the options-chain loop and the cached-token choice.
- **The moving-average crossover strategy.**
- **The setup checker.** This covers market hours, the MCP status and the critical-service exit code.
- **The login script.** This covers the placeholder-token replacement and the start-up branch.

The executor is a class with two tables held as sequences, `trades` and `positions`. They are kept separate, as in the source:

- `place_order` writes only `trades`.
- The open-position count and the square-off read and write only `positions`.

Each state-changing method is proved equal to a pure specification function (`Place`, `SquareOffRows`, `SquaredOffSymbols`, `ExitOrders`). The lemmas are about those functions.

Modelling conventions:

- Prices are exact `real`s.
- Python's `int()` truncation and `round()` (ties to even) are written out in `PyNum`, and the slice `s[-k:]` in `AlgoStrategy`.
- The composite's weights are integer percentages, so its total and confidence are carried multiplied by 100.
- Time of day is counted in microseconds for the watchdog and market hours, which compare full `datetime` values. The signal validator, which parses `%H:%M:%S`, counts whole seconds.
- Broker, database, cache, messaging and TA-Lib results are parameters:
  - a broker reply;
  - a set of position ids whose exit order raises;
  - whether the notification went out;
  - a quote function;
  - the indicator readings.

Files, one module each: `wrappers.dfy`, `pynum.dfy`, `clock.dfy`,
`strikes.dfy`, `order_executor.dfy`, `nifty_strategy.dfy`,
`indicators.dfy`, `kite_service.dfy`, `algo_strategy.dfy`,
`test_connection.dfy`, `main_script.dfy`.

## Model

| member | source | states |
|---|---|---|
| PyNum.Trunc | order_executor.py:174-177 | `int(x)` truncates toward zero: the result is within one of x, on x's side of zero |
| PyNum.RoundHalfEven | nifty_strategy.py:144 | `round(x)` is within 0.5 of x, and an exact half goes to the even integer |
| PyNum.SumConstant | algo_strategy.py:56-57 | a list of n copies of c sums to n·c |
| Strikes.AtmStrike | kite_service.py:180 | `int(round(price/100)*100)` is a multiple of 100 within 50 points of the price; on a tie its hundreds count is even |
| OrderExecutor.AggregatesAppend | order_executor.py:89-105 | appending a trade row adds its pnl to the daily P&L only if it was entered today by the account and has an exit time, and adds 1 to the trade count only if it was entered today by the account |
| OrderExecutor.CheckRisk | order_executor.py:121-134 | allowed iff daily_pnl > -20000 and trade_count < 3 and open_positions < 4; the circuit breaker is hit iff daily_pnl <= -20000; the three remaining counters are 20000+pnl, 3-count and 4-open; allowed implies no circuit breaker and at least one trade and one slot left |
| OrderExecutor.PositionSize | order_executor.py:164-188 | at most 1 lot; exactly 1 iff the win-rate query failed, entry equals stop (division by zero) or 2% of the balance covers four times the points at risk; never negative for a non-negative balance; the win rate does not affect it |
| OrderExecutor.SizingStep | order_executor.py:168-177 | the two truncations reach 1 exactly when risk ≥ 4·points at risk |
| OrderExecutor.Place | order_executor.py:190-256 | a denied risk check (for "ACCOUNT_ID", today) returns TradingNotAllowed carrying the circuit-breaker flag, and leaves the table unchanged. A broker raise, and a live reply that is a bare id string (whose `.get('order_id')` raises), leave the table unchanged. Otherwise exactly one OPEN row is appended, with pnl 0 and no exit time. The row carries the request's symbol, quantity, price, stop-loss and target, and the entry time now. Its order id is the paper id stamped with now in paper trading, and the broker's reply id in live trading. The receipt is returned iff the notification succeeds, and holds the row's order id, the request's symbol and the request's price. |
| OrderExecutor.BareIdReplyLeavesLiveOrderUnrecorded | order_executor.py:203-217 | when the risk check passes in live trading and the broker accepts the order but replies with a bare id string, no row is inserted and the call fails: the broker holds an order the table does not |
| OrderExecutor.UnattributedRowIsNotCounted | order_executor.py:90-105 | as written, placing an order leaves the account's daily P&L and trade count unchanged |
| OrderExecutor.UnattributedSessionExceedsDailyLimit | order_executor.py:196-233 | as written, four paper orders on an empty day all insert a row, beyond the 3-trades limit |
| OrderExecutor.AttributedRowIsCounted | order_executor.py:224-233 | with the row attributed to the checked account, every inserted row adds one to the trade count and leaves the daily P&L unchanged |
| OrderExecutor.AttributedSessionRespectsDailyLimit | order_executor.py:57 | with attributed rows, any day's sequence of orders inserts at most 3 - trade_count rows |
| OrderExecutor.ExitOrderFor | order_executor.py:276-286 | the exit order is for the same symbol, SELL iff quantity > 0, for \|quantity\| |
| OrderExecutor.SquareOffRows | order_executor.py:288-293 | a squared-off row equals the original row with only its status set to CLOSED and its exit time set to now, so quantity and every other column are kept; every other row, including non-OPEN rows, other accounts' rows and rows whose exit raised, is unchanged |
| OrderExecutor.SquareOffOpenCount | order_executor.py:273-311 | open count after + number squared off = open count before: a row stays open only if its exit raised |
| OrderExecutor.PaperSquareOffClosesAll | order_executor.py:274-298 | in paper trading every OPEN row of the account is closed, and the count equals the previous open count |
| OrderExecutor.PaperClosesEveryOpenRow | order_executor.py:274-293 | in paper trading no OPEN row of the account is left |
| OrderExecutor.SquareOffSparesOtherAccounts | order_executor.py:264-268 | other accounts' open counts are unchanged |
| OrderExecutor.SquareOffIdempotent | order_executor.py:264-298 | a second square-off with the same broker behaviour closes nothing and changes no row |
| OrderExecutor.ExitOrdersMatchClosedSymbols | order_executor.py:276-296 | live, exactly one exit order is sent per squared-off symbol, in the same order |
| OrderExecutor.PollingHitsWindow | order_executor.py:319-329 | polls at a fixed period of at most 60 s + 1 µs, the width of the inclusive 15:29:00–15:30:00 window, started no later than 15:29:00, land in the window at least once |
| OrderExecutor.WatchdogCanMissWindow | order_executor.py:319-329 | as written, with a period of 60 s plus at least 2 µs of work per iteration, polls started at 15:28:59.999999 never land in the window |
| OrderExecutor.CorrectedWatchdogHitsWindow | order_executor.py:319-329 | with a 30 s sleep, and work that may differ on every iteration but never exceeds 30 s, each poll following the previous one by the sleep plus that poll's work, polls starting no later than 15:29:00 always land in the window |
| OrderExecutor.Executor.constructor | order_executor.py:76-81 | the executor starts with the given tables and trading mode |
| OrderExecutor.Executor.CheckRiskLimits | order_executor.py:83-139 | the verdict on the aggregates of the two tables: P&L and count from `trades`, OPEN count from `positions` |
| OrderExecutor.Executor.PlaceOrder | order_executor.py:190-256 | the new `trades` and the result are those of `Place` with an unattributed row, so the appended row holds the request's symbol, quantity, price, stop-loss and target and the paper or broker order id, and the receipt echoes the symbol and price; `positions` is untouched |
| OrderExecutor.Executor.PlaceOrderAttributed | order_executor.py:224-233 | as `PlaceOrder` (the row's columns, order id and receipt as `Place` fixes them), with the row attributed to the checked account; the trade count rises by one exactly when a row was inserted |
| OrderExecutor.Executor.PlaceAs | order_executor.py:190-256 | the risk check, broker branch, insert and notification steps yield exactly `Place` for the given row account: the same result and the same `trades`, with the row's every column and the receipt fixed by `Place`'s contract; `positions` is untouched |
| OrderExecutor.Executor.AutoSquareOffPositions | order_executor.py:258-315 | the following hold: <br>• `positions` becomes `SquareOffRows`, and `trades` is untouched; <br>• the exit orders are `ExitOrders`; <br>• the report holds the squared-off symbols in table order and their count; <br>• a notification is sent only when at least one symbol was squared off; <br>• if that notification raises, the call fails after the updates |
| NiftyStrategy.GainsLossesTelescope | nifty_strategy.py:58-63 | rises minus falls equal the net move across the window; both are non-negative; there are no rises iff prices never go up, and no falls iff they never go down |
| NiftyStrategy.RsiArithmetic | nifty_strategy.py:68-69 | with positive losses, 100 - 100/(1+rs) lies in [0,100) and is above 50 iff gains exceed losses |
| NiftyStrategy.RsiOfWindowFacts | nifty_strategy.py:58-71 | over a full window of period+1 prices the RSI lies in [0,100], is above 50 iff the window ends higher than it began and below 50 iff it ends lower, and is 100 iff the window rises at least once and never falls |
| NiftyStrategy.CalculateRsi | nifty_strategy.py:53-71 | the result is 50 with fewer than period+1 prices. Otherwise it lies in [0,100], is above or below 50 exactly as the window ends above or below its start, and is 100 iff the window has gains and no losses. |
| NiftyStrategy.EmaWithinBounds | nifty_strategy.py:100-104 | for period ≥ 1 the EMA lies between any lower and upper bound of the prices |
| NiftyStrategy.CalculateEma | nifty_strategy.py:93-106 | the loop computes the EMA: 0 for no prices, the price for one, the left fold with multiplier 2/(period+1) otherwise |
| NiftyStrategy.MacdSeries | nifty_strategy.py:82-86 | one MACD value per price, and the last is the current MACD line |
| NiftyStrategy.CalculateMacd | nifty_strategy.py:73-91 | (0,0,0) with fewer than 26 prices; otherwise the MACD line is EMA12 - EMA26 and the signal is EMA9 of the per-prefix MACD values; the histogram is always line - signal |
| NiftyStrategy.FlatPricesHaveZeroMacd | nifty_strategy.py:78-89 | a flat history has every MACD value and the signal line equal to zero |
| NiftyStrategy.AtmCallScore | nifty_strategy.py:116-140 | the score lies in [-15, 85] and reaches 70 iff the trend is up with ≥ 5 prices, MACD is above its signal, and the RSI is oversold or neutral with a positive MACD |
| NiftyStrategy.GenerateAtmCallSignal | nifty_strategy.py:142-159 | the following hold: <br>• a signal is returned iff score ≥ min_signal_score, and never for a threshold above 85; <br>• the entry is 1.01·price; <br>• the stop is atm-200 and the target atm+300, where atm is the nearest 100 |
| NiftyStrategy.IronCondorScore | nifty_strategy.py:168-176 | 50 iff 30 < iv < 70, 30 iff iv ≥ 70, -20 iff iv ≤ 30 |
| NiftyStrategy.GenerateIronCondorSignal | nifty_strategy.py:161-194 | a signal is returned iff the score reaches the threshold, so never for any threshold above 50 (the default is 70). Its entry is the price, and its stop and target are the ATM strike. |
| NiftyStrategy.ValidateSignal | nifty_strategy.py:196-220 | accepted iff now ≥ 09:45:00, now is not strictly between 15:00:00 and 16:00:00, and, for an ATM call only, target > entry |
| NiftyStrategy.AtmCallTargetClearsEntryBelow25000 | nifty_strategy.py:144-147 | below 25000 every generated ATM-call signal has target > entry |
| NiftyStrategy.AtmCallRejectedFrom35000 | nifty_strategy.py:214-217 | from 35000 on, every generated ATM-call signal fails its own validator |
| Indicators.EmaCrossover | scripts/indicators.py:72-90 | BUY iff fast > slow now but not before; SELL iff the reverse; NEUTRAL iff the relation is unchanged |
| Indicators.SupertrendAt | scripts/indicators.py:55-64 | bars before `period` are never written. From `period` on, the direction is -1 iff close ≤ upper band (the line is then the upper band), and 1 otherwise |
| Indicators.SupertrendLineSide | scripts/indicators.py:49-64 | with a non-negative ATR and multiplier, an uptrend's close is above the line and a downtrend's is at or below it |
| Indicators.SupertrendSeries | scripts/indicators.py:55-64 | the in-place loop over the two all-NaN series yields `SupertrendAt` at every bar |
| Indicators.CalculateSupertrend | scripts/indicators.py:46-70 | the last bar's value and direction; BUY iff the direction is 1 (so SELL when history is too short); an empty series raises |
| Indicators.PositionInProfile | scripts/indicators.py:109-116 | ABOVE_VALUE iff price > vah, BELOW_VALUE iff price ≤ vah and price < val, IN_VALUE iff val ≤ price ≤ vah |
| Indicators.WeightedTotalBounded | scripts/indicators.py:173 | the weighted sum is bounded by the weighted maximal magnitudes |
| Indicators.FiveIndicatorsMax | scripts/indicators.py:121-127 | those magnitudes weigh 85.5 in total |
| Indicators.RsiSignal | scripts/indicators.py:129-136 | +100 iff rsi < 30, -100 iff rsi > 70, 0 iff in between |
| Indicators.MacdSignal | scripts/indicators.py:138-145 | +80 iff histogram > 0 and macd > signal, -80 iff both are reversed, 0 otherwise |
| Indicators.BollingerSignal | scripts/indicators.py:147-154 | +70 iff position < 0.2, -70 iff > 0.8, 0 iff in between |
| Indicators.SupertrendSignal | scripts/indicators.py:156-161 | +90 iff the direction is 1, otherwise -90; never 0 |
| Indicators.EmaSignal | scripts/indicators.py:163-170 | +85 for BUY, -85 for SELL, 0 for NEUTRAL |
| Indicators.GenerateCompositeSignal | scripts/indicators.py:118-193 | the following hold: <br>• five entries in the order rsi, macd, bollinger, supertrend, ema; <br>• \|total\| ≤ 85.5; <br>• BUY iff total ≥ 50 and SELL iff total ≤ -50; <br>• BUY/SELL confidence is \|total\|, since the cap of 100 never binds; <br>• NEUTRAL confidence is 100 - \|total\|, in (50, 100] |
| Indicators.Verdict | scripts/indicators.py:175-184 | BUY iff total ≥ 50, SELL iff total ≤ -50; BUY/SELL confidence is min(\|total\|, 100); NEUTRAL confidence is 100 - \|total\|, in (50, 100] |
| Indicators.EvaluateStrategy | scripts/indicators.py:233-271 | the following hold: <br>• max score is always 100; <br>• EXECUTE iff score ≥ 70; <br>• an iron condor is EXECUTE iff \|Σdelta\| < 0.05, Σtheta > 50 and there is at least one leg and their mean IV exceeds 18; <br>• a short strangle scores at most 40 and is always WAIT; <br>• other types score 0 with no analysis |
| Indicators.TotalPnlAppend | scripts/indicators.py:306 | capital accumulates each closed trade's P&L |
| Indicators.PnlBeforeAll | scripts/indicators.py:306 | once every trade exits before bar e, the P&L realised before e is the total P&L |
| Indicators.PnlBeforeExtend | scripts/indicators.py:302-314 | trades appended at bar e or later do not change the P&L realised before e |
| Indicators.ClosePositions | scripts/indicators.py:299-314 | every open position, in order, becomes one closed trade at the bar's close with pnl = size·(exit - entry)/entry, appended after the existing trades; capital grows by exactly their P&L |
| Indicators.OpenStep | scripts/indicators.py:285-294 | a BUY bar with confidence > 70 appends one position at that bar's close, sized min(2% of the current capital, 100000), so the recorded entries gain this bar as the latest opening bar; every recorded trade and open position stays as recorded |
| Indicators.CloseStep | scripts/indicators.py:296-314 | a SELL bar closes every open position at its close, each at its first SELL after entry, and empties the open list; the trades' entries then cover every opening bar so far, and the earlier trades stay as recorded |
| Indicators.QuietStep | scripts/indicators.py:285-296 | a bar that neither opens nor closes (no qualifying BUY, and no SELL with open positions) adds no opening bar and keeps every trade and open position as recorded |
| Indicators.BacktestPositions | scripts/indicators.py:274-314 | the following hold: <br>• the entry bars of the trades, then of the open positions, are exactly the bars from 100 on with a BUY of confidence > 70, in order; <br>• each position was opened at its bar's close with size min(2% of the capital then, 100000), the capital then being the initial capital plus the P&L of the trades closed before it; <br>• every trade is its position closed at the first SELL bar after its entry, at that bar's close, with pnl = size·(exit - entry)/entry; <br>• no open position has a SELL bar after its entry; <br>• capital is the initial capital plus the closed trades' P&L |
| KiteService.RetryOnFailure | kite_service.py:86-102 | the following hold: <br>• at most `max_retries` calls, and every call before the last one raised; <br>• the first success is returned; <br>• all `max_retries` failing re-raises the last exception; <br>• sleeps = calls - 1; <br>• with `max_retries` ≤ 0 nothing is called and None is returned |
| KiteService.RangeShape | kite_service.py:184 | `range(a, b, s)` is a, a+s, … up to the first value not below b, and is empty iff a ≥ b |
| KiteService.StrikeGridShape | kite_service.py:184 | for d a non-negative multiple of 100 the grid is atm-d … atm+d ascending in steps of 100, with 2d/100+1 entries including atm |
| KiteService.NegativeDistanceEmptyGrid | kite_service.py:184 | a distance of -50 or less requests no strike |
| KiteService.NatToString | kite_service.py:185-186 | `str(n)` is a non-empty string of digits |
| KiteService.NatToStringSpells | kite_service.py:185-186 | the decimal digits of `str(n)` spell n, and the leading digit is 0 iff n is 0 |
| KiteService.IntToStringSpells | kite_service.py:185-186 | `str(n)` starts with a minus sign iff n < 0, and the rest are the digits of \|n\| with no leading zero |
| KiteService.OptionSymbol | kite_service.py:185-186 | the symbol starts with "NFO:NIFTY", has C for a call or P for a put right after the date tag, and is as long as the prefix, the tag, that letter and `str(strike)` together |
| KiteService.OptionSymbolLayout | kite_service.py:185-186 | the symbol is exactly "NFO:NIFTY", then the date tag, then C for a call or P for a put, then `str(strike)` |
| KiteService.CallPutDifferOnlyInRight | kite_service.py:185-186 | a strike's call and put symbols are the same length and differ only in C against P |
| KiteService.FetchStrike | kite_service.py:188-197 | one strike's outcome: its two entries when both quotes answer, nothing when either raises |
| KiteService.FetchStrikes | kite_service.py:184-197 | the loop's dictionary is the chain built from the strikes in grid order |
| KiteService.ChainOfKeys | kite_service.py:184-197 | a key is in the chain iff it is a grid strike whose two quotes answered, and its entry is that strike's pair |
| KiteService.GetNiftyOptionsChain | kite_service.py:169-210 | the following hold: <br>• the ATM strike is `AtmStrike(price)`; <br>• every key is a grid strike; <br>• a grid strike is present iff both its quotes answered, and then holds the two entries (empty when the reply lacks the symbol) |
| KiteService.GetValidToken | kite_service.py:137-145 | a non-empty cached token is returned without generating; a missing or empty one is replaced by the generation's outcome |
| AlgoStrategy.SuffixSlice | algo_strategy.py:56-57 | `s[-k:]` is a suffix of s: the last k elements for k > 0, all of s for k = 0 |
| AlgoStrategy.MovingAverageCrossover | algo_strategy.py:34-73 | the following hold: <br>• None when there are fewer closes than `long_window`, and an error (also None) for a zero window; <br>• otherwise one order of quantity 1, BUY iff the short MA > the long MA; <br>• the MAs are the means of the last `short_window` and `long_window` closes |
| AlgoStrategy.EqualWindowsSell | algo_strategy.py:62-67 | equal windows always give SELL |
| AlgoStrategy.FlatClosesSell | algo_strategy.py:55-67 | a flat history gives SELL (equal averages are not a BUY) |
| AlgoStrategy.FlatAverage | algo_strategy.py:56-57 | a flat history's window mean is the price |
| ConnectionTest.CheckMarketHours | test_connection.py:165-189 | closed for weekday ≥ 5 whatever the time; on weekdays open iff 09:15:00 ≤ now ≤ 15:30:00, both inclusive |
| ConnectionTest.MarketHoursMatchExecutor | test_connection.py:174-183 | on weekdays the checker's market hours equal the executor's session 09:15–15:30 |
| ConnectionTest.SquareOffWindowInsideMarketHours | order_executor.py:323 | the square-off window lies inside weekday market hours |
| ConnectionTest.McpResponding | test_connection.py:139-163 | responding iff the status is 200, 401 or 403; a raised request is not responding |
| ConnectionTest.Summarize | test_connection.py:212-219 | all_passed iff every critical service (n8n, PostgreSQL, Redis) in the results passed |
| ConnectionTest.RunConnectionTests | test_connection.py:191-236 | the exit code is 0 iff n8n, PostgreSQL and Redis passed, and 1 otherwise; Kite, MCP and market hours never affect it |
| MainScript.CountZeroIffAbsent | main.py:45 | the scan replaces nothing iff the placeholder line occurs nowhere |
| MainScript.NoOccurrenceUnchanged | main.py:45 | without an occurrence, `replace` returns the text unchanged |
| MainScript.ReplaceLength | main.py:45 | the length changes by k·(len(new) - len(old)) for k replaced occurrences |
| MainScript.ReplaceBySelf | main.py:45 | replacing a pattern by itself gives back the text |
| MainScript.ReplaceFirstOccurrence | main.py:45 | when the pattern's first occurrence starts right after a, `replace` yields a, the replacement, then the replaced remainder |
| MainScript.NoOccurrenceUnchangedFor | main.py:42-45 | a config without the placeholder line is written back unchanged |
| MainScript.UpdateConfigAccessToken | main.py:36-48 | the text written back is unchanged when the placeholder is absent, and changes length by the token's length difference per replaced line |
| MainScript.PlaceholderFirstAfterFreeText | main.py:42-45 | in free text followed by the placeholder line, the first occurrence is the one right after the free text |
| MainScript.FirstPlaceholderReplaced | main.py:36-48 | a config whose first placeholder line follows free text a is written back as a, the token's line, then the rest updated the same way |
| MainScript.StartupPath | main.py:102-111 | the authentication path is taken iff ACCESS_TOKEN equals 'your_access_token_here' |

## Left out

- Floating point. Prices, P&L and indicator values are exact reals: rounding error, `inf` and NaN arithmetic are not modelled. The only NaN modelled is "never written", for the Supertrend series.
- NaN averages. The mean IV of an empty Greeks dictionary is NaN, and is modelled as failing the IV check.
- I/O and foreign calls. The following are parameters or are left out:
  - the database cursors and commits;
  - KiteConnect calls;
  - Redis;
  - Telegram;
  - FastAPI endpoints and uvicorn;
  - HTTP probes;
  - the config file read and write;
  - `webbrowser`/`input`.
- The wall clock. `datetime.now()` is a parameter.
- `generate_token` (kite_service.py:104-135) and `authenticate` (main.py:6-34): these are broker login I/O. `GetValidToken` takes the generation's outcome as a parameter.
- The retry decorator at kite_service.py:104. It is applied without `self` and would fail at class definition. `RetryOnFailure` models the wrapper's intended semantics.
- TA-Lib, pandas and `np.polyfit`. Their outputs are inputs:
  - RSI/MACD/Bollinger/ATR/EMA series;
  - the volume-profile quantiles (`pd.cut`/`groupby`);
  - the five-bar slope.
- Black–Scholes Greeks (kite_service.py:216-256, scripts/indicators.py:201-231). These are transcendental numerics.
- Backtest statistics: Sharpe, drawdown, win rate and averages.
- The backtest's per-bar decisions. They are inputs, not recomputed from the 100-bar slices.
- The `asyncio` event loop itself. The watchdog lemmas describe the polls only, as times of day.
- OrderExecutor.PollingHitsWindow: polls are modelled with a constant period (sleep plus a fixed amount of work). Work that varies from one iteration to the next is not modelled.
- `simple_momentum_strategy` and `run_automated_trading` (algo_strategy.py:7-99). Their choices are random.
- The instrument lookup at algo_strategy.py:44. `MovingAverageCrossover` takes the closes directly.
- The `win_rate` query in `calculate_position_size`. Only whether it succeeded is modelled (`historyAvailable`), because its value is never used.
- Column types. The `trades` row keeps the columns the INSERT writes and does not store side or order type. Position rows carry only the columns the square-off reads.
- OrderExecutor.Executor.PlaceOrder: the caller's 403 re-wrapped as a 500 is modelled as a single `Err` value. The HTTP status codes themselves are not modelled.
- NiftyStrategy.CalculateRsi: requires period ≥ 1. With period 0 a non-empty list leaves one price in the window, no deltas, and numpy's mean of the empty array gives NaN. A negative period passes the length guard and computes an RSI over `prices[|period|-1:]`, or NaN when that slice holds fewer than two prices. Neither case is modelled; every caller uses the default period 14.
- NiftyStrategy.CalculateEma: requires period ≠ -1 when there are two or more prices. That case raises `ZeroDivisionError` in `2 / (period + 1)` and is not modelled; the callers pass 12, 26 and 9.
- NiftyStrategy.ValidateSignal: `now` is whole seconds. The source's `strptime(str(now), "%H:%M:%S")` raises whenever the clock carries microseconds, and that raise is not modelled.
- Indicators.BacktestPositions: requires every close to be non-zero. numpy's division by a zero entry price gives `inf`, which is not modelled.
- Indicators.SupertrendSeries: the bands are computed per bar from the supplied high, low and ATR series. The pandas index is not modelled.
- KiteService.GetNiftyOptionsChain: the NIFTY quote and today's date tag are parameters. The outer `try` that turns their failure into HTTP 500 is not modelled, and neither is the 30-second cache write.
- AlgoStrategy.MovingAverageCrossover: the order id returned by the broker is not modelled; the outcome names the order's side and quantity.

## Findings

| source | as written | input that shows it | evidently intended | confidence | as-written member | corrected member |
|---|---|---|---|---|---|---|
| order_executor.py:224-233 | The `trades` INSERT omits `account_id`, but `check_risk_limits("ACCOUNT_ID")` counts only rows with `account_id = 'ACCOUNT_ID'` (order_executor.py:90-105). Orders placed through `place_order` therefore never count toward the 3-trades-a-day limit. They add no `positions` row either, so they never count toward the open-position limit. | Four paper orders on a day with empty tables: each passes the risk check and each inserts a row, so 4 > 3 trades. | The inserted row carries the account the check reads, so at most 3 − trade_count orders go through per day. | not executed; depends on the `trades` table's schema (a column default), which is not part of this model | OrderExecutor.UnattributedSessionExceedsDailyLimit | OrderExecutor.AttributedSessionRespectsDailyLimit |
| order_executor.py:319-329 | The watchdog sleeps 60 s after each check, so consecutive checks are 60 s plus the time the check and any square-off took apart. The inclusive window 15:29:00–15:30:00 is only 60 s + 1 µs wide. | A check at 15:28:59.999999, with at least 2 µs of work in each iteration: the next check falls after 15:30:00, so that day's square-off never runs. | Every trading day has at least one check inside the window, so positions are always squared off. | not executed; needs a check to land within the loop's own overhead before 15:29:00 | OrderExecutor.WatchdogCanMissWindow | OrderExecutor.CorrectedWatchdogHitsWindow |

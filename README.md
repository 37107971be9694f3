# Sentiment stock strategy: a Dafny model of its decision logic

This project models the decision core of `SentimentStockStrategy`, a trading
strategy that reads news headlines for a list of ticker symbols, scores them
with a sentiment oracle, keeps a short per-symbol history of the readings,
and turns readings into buy and sell orders placed through a broker.

The model has seven modules:

- `Domain` holds the values: observations (a probability and a label
  `positive`/`negative`/`neutral`), positions, orders, signals and the
  strategy parameters with their defaults (threshold 0.6, position size 0.1,
  maximum position size 0.25, stop loss 0.02, take profit 0.05, sentiment
  window 5, price-history window 30).
- `History` covers the bounded FIFO history kept by `get_sentiment`. It
  defines the reading that call returns and the histories it leaves behind.
- `Aggregation` covers `get_aggregated_sentiment`. The weights follow
  `np.linspace(0.5, 1.0, n)`, the weighted probabilities are averaged with
  `np.mean`, and the majority label is picked the way Python's `max` does it.
- `Sizing` covers `calculate_position_size`, with the risk manager as an
  uninterpreted function parameter.
- `Signals` covers the two decision rules (`get_signal` and the order rule
  inside `analyze_symbol`) and the position re-check of `execute_trade`.
- `Liquidation` covers the orders of the emergency close.
- `Strategy` holds the class `SentimentStrategy`. Its sentiment and price
  histories are map fields, and its methods reassign them
  (`GetSentiment`, `AnalyzeSymbol`, `BeforeMarketOpens`). Its loops are
  written as loops: the aggregation loop, the loop that builds
  `current_positions`, and the liquidation loop. Each method is proved
  against the functions of the modules above.

Everything the strategy reads from outside is a parameter:

- the last price (`Option<real>`, None when it could not be read);
- the broker's position list, or its position per symbol;
- the account's portfolio value and buying power (None when the read failed);
- the news headlines (None when fetching them failed);
- the sentiment oracle (a function from headlines to an observation).

Every order the strategy would submit is a returned `Order` value. Money,
prices and probabilities are exact `real`s.

Behaviour of the code that a reader might not expect, as the model states it:

- `analyze_symbol` decides on the reading `get_sentiment` has just returned;
  nothing in the file calls `get_aggregated_sentiment`.
- Aggregation divides the weighted sum by the number of readings, not by the
  total weight, so a history of identical probabilities `c` aggregates to
  `0.75 * c` (or to `0.5 * c` for a single reading); see `UniformHistory`.
- Portfolio 100000, probability 0.75 and the default parameters give
  `100000 * 0.1 * min(0.75 / 0.6, 1.5)` = 12,500, which is 250 shares at 50;
  see `SizingExample`.
- Nothing in the strategy file ever appends to `price_history`. Because
  `Sizing.PositionSize` returns None for fewer than two samples, sizing always
  defers in the code as written.

## Model

| member | source | states |
|---|---|---|
| Domain.DefaultConfig | strategies/sentiment_stock_strategy.py:34-40 | the defaults are threshold 0.6, position size 0.1, maximum position size 0.25, stop loss 0.02, take profit 0.05, sentiment window 5 and price-history window 30; a new position starts below the cap, and the take-profit distance exceeds the stop-loss distance |
| History.PushBounded | strategies/sentiment_stock_strategy.py:71-73 | the new history is a suffix of old + [new]; it is one longer exactly when that fits the window, otherwise only the oldest entry is dropped; a history within the window stays within it |
| History.PushAllKeepsNewest | strategies/sentiment_stock_strategy.py:71-73 | after any number of appends, a history that started within the window holds exactly the newest `sentiment_window` readings of everything seen, oldest first |
| History.Reading | strategies/sentiment_stock_strategy.py:61-80 | no news, a failed fetch, or a symbol without a history (the append raises after the oracle call and the error is caught) gives (0, neutral); otherwise the oracle's reading for the headlines |
| History.HistoryAfter | strategies/sentiment_stock_strategy.py:61-73 | the no-news path leaves every history unchanged; otherwise only the symbol's history changes, by one bounded push; the set of symbols is unchanged |
| Aggregation.Weight | strategies/sentiment_stock_strategy.py:90 | every linspace weight lies in [0.5, 1.0] |
| Aggregation.WeightRamp | strategies/sentiment_stock_strategy.py:90 | for n >= 2 the weights run from exactly 0.5 to exactly 1.0 in equal steps of 0.5/(n-1) |
| Aggregation.WeightIncreasing | strategies/sentiment_stock_strategy.py:89-90 | a more recent reading has a strictly larger weight |
| Aggregation.WeightedMean | strategies/sentiment_stock_strategy.py:94-98 | np.mean of the weighted probabilities of a non-empty history: the mean times the number of readings is the weighted sum (the source returns before `np.mean` for an empty history; the value 0 there only makes the function total) |
| Aggregation.CountItems | strategies/sentiment_stock_strategy.py:92-96 | the count dictionary's items in insertion order (positive, negative, neutral), each holding its label's count, the counts adding up to the number of readings |
| Aggregation.DominantLabel | strategies/sentiment_stock_strategy.py:92-99 | the label chosen for a non-empty history occurs in it at least once |
| Aggregation.Aggregate | strategies/sentiment_stock_strategy.py:84-85 | an empty history aggregates to (0, neutral) |
| Aggregation.WeightedMeanBounds | strategies/sentiment_stock_strategy.py:94-98 | with all probabilities in [0,1], the aggregated probability is in [0,1], at most the plain mean and at least half of it |
| Aggregation.UniformHistory | strategies/sentiment_stock_strategy.py:90-98 | a history of identical probabilities c aggregates to 0.5c for one reading and 0.75c for two or more |
| Aggregation.TwoReadingExample | strategies/sentiment_stock_strategy.py:90-101 | probabilities 0.2 then 0.8 (both positive) aggregate to (0.45, positive) |
| Aggregation.FirstMaxIndex | strategies/sentiment_stock_strategy.py:99 | Python's max keeps the first maximum: the chosen item's count is at least every count and strictly above every earlier one |
| Aggregation.DominantHasMaxCount | strategies/sentiment_stock_strategy.py:92-99 | the dominant label of a non-empty history has a count at least that of every label |
| Aggregation.DominantTieBreak | strategies/sentiment_stock_strategy.py:92-99 | ties between counts go to positive, then negative, then neutral |
| Sizing.CurrentPositionsContents | strategies/sentiment_stock_strategy.py:110-118 | current_positions has exactly the listed symbols that hold a position, each with its market value and price history |
| Sizing.CurrentPositions | strategies/sentiment_stock_strategy.py:110-118 | every entry of current_positions is for a symbol with a position and holds its market value and its price history |
| Sizing.Multiplier | strategies/sentiment_stock_strategy.py:124 | the sentiment multiplier is at most 1.5, equals prob/threshold below that cap, and is non-negative for a positive threshold and a non-negative probability |
| Sizing.DesiredSize | strategies/sentiment_stock_strategy.py:121-125 | the desired size is exactly the base size (portfolio_value * position_size) at the threshold probability, and 1.5 times the base size once prob/threshold reaches 1.5 |
| Sizing.PositionSize | strategies/sentiment_stock_strategy.py:121-142 | None exactly when the account read fails, the threshold is zero (the division raises) or there are fewer than 2 price samples; otherwise the size is at most portfolio_value * max_position_size, at most the risk-adjusted size, and equal to one of the two |
| Sizing.DesiredWithinCap | strategies/sentiment_stock_strategy.py:121-125 | the sentiment multiplier is at most 1.5, so the desired size is at most 1.5 times the base size |
| Sizing.DesiredMonotone | strategies/sentiment_stock_strategy.py:121-125 | with a positive threshold and a non-negative base, the desired size does not decrease as the probability grows |
| Sizing.PositionSizeMonotone | strategies/sentiment_stock_strategy.py:121-138 | when the risk adjustment is monotone, the final size does not decrease as the probability grows |
| Sizing.SizingExample | strategies/sentiment_stock_strategy.py:121-138 | portfolio 100000, defaults, probability 0.75 and a pass-through risk manager give 12500 (250 shares at 50) |
| Signals.GetSignal | strategies/sentiment_stock_strategy.py:151-187 | no signal without a non-zero price; buy exactly when score > threshold and the held size is 0, with size portfolio_value*position_size/price and the stop-loss and take-profit prices; sell exactly when score < -threshold and the held size is positive, for the held size |
| Signals.HeldQuantity | strategies/sentiment_stock_strategy.py:157 | the held size is the position's quantity, and 0 when there is no position |
| Signals.SignalRespectsPosition | strategies/sentiment_stock_strategy.py:168-187 | get_signal never buys while holding and never sells while flat; with a price and neither guard true, there is no signal |
| Signals.FirstMatch | strategies/sentiment_stock_strategy.py:294 | the index found is that of the first position for the symbol, or the list's length when there is none |
| Signals.FindPosition | strategies/sentiment_stock_strategy.py:230 | the position found is the first position for the symbol in the list; none is found exactly when no position is for the symbol |
| Signals.ExecuteTrade | strategies/sentiment_stock_strategy.py:289-318 | an order is placed exactly when there is a signal and a buy finds the symbol flat or a sell finds it held; the order has the signal's side and size |
| Signals.SignalThenExecute | strategies/sentiment_stock_strategy.py:296-318 | when execute_trade sees the position get_signal saw, every sell signal is carried out, and a buy signal is carried out exactly when there is no position record |
| Signals.BuyBudget | strategies/sentiment_stock_strategy.py:248 | the budget is at most buying_power * position_size and at most 95% of the buying power, equals one of the two, and is exactly 95% for a non-negative buying power when position_size is at least 0.95 |
| Signals.BuyBudgetBounds | strategies/sentiment_stock_strategy.py:248-251 | a positive buy budget needs positive buying power and a positive position_size, and it is at most 95% of the buying power |
| Signals.AnalyzeDecision | strategies/sentiment_stock_strategy.py:244-281 | buy exactly when the label is positive, prob > threshold, there is no position, the budget is positive and the price is non-zero, with quantity*price equal to min(bp*position_size, 0.95*bp); sell exactly when the label is negative, prob > threshold and a position exists, for its full quantity |
| Signals.AnalyzeBuyWithinBuyingPower | strategies/sentiment_stock_strategy.py:248-253 | a buy from analyze_symbol spends at most 95% of a positive buying power |
| Liquidation.LiquidationOrders | strategies/sentiment_stock_strategy.py:380-389 | at most one order per listed symbol, and every order is a sell of a symbol with a position, for that position's full quantity |
| Liquidation.LiquidationAppend | strategies/sentiment_stock_strategy.py:380-389 | handling one more symbol appends its sell after all earlier orders, so orders follow symbol order |
| Liquidation.LiquidationSellsHeld | strategies/sentiment_stock_strategy.py:380-389 | one order per listed symbol with a position; every order is a sell of such a symbol for its full held quantity |
| Liquidation.LiquidationCovers | strategies/sentiment_stock_strategy.py:380-389 | a flat symbol gets no order, and every listed symbol with a position gets its full-quantity sell |
| Liquidation.LiquidationOnePerSymbol | strategies/sentiment_stock_strategy.py:380-389 | when no symbol is listed twice, no two liquidation orders are for the same symbol |
| Strategy.SentimentStrategy.constructor | strategies/sentiment_stock_strategy.py:22-40 | every symbol starts with empty sentiment and price histories, and the invariant holds |
| Strategy.SentimentStrategy.GetSentiment | strategies/sentiment_stock_strategy.py:49-80 | returns the reading of `History.Reading` and leaves the histories of `History.HistoryAfter`; keeps every history within the window |
| Strategy.SentimentStrategy.GetAggregatedSentiment | strategies/sentiment_stock_strategy.py:82-101 | the accumulation loop computes exactly `Aggregation.Aggregate` of the symbol's history |
| Strategy.SentimentStrategy.CalculatePositionSize | strategies/sentiment_stock_strategy.py:103-142 | the loop builds current_positions as `Sizing.CurrentPositions`, and the result is `Sizing.PositionSize` for the symbol's price history |
| Strategy.SentimentStrategy.AnalyzeSymbol | strategies/sentiment_stock_strategy.py:212-284 | a missing price gives no order and no history change; otherwise the sentiment history is updated, and a failed broker read gives no order; if not, the order is `Signals.AnalyzeDecision` on the fresh reading and the symbol's first position |
| Strategy.SentimentStrategy.BeforeMarketOpens | strategies/sentiment_stock_strategy.py:344-354 | every listed symbol's sentiment and price histories become empty; other entries and the key sets are unchanged; the invariant holds |
| Strategy.SentimentStrategy.BeforeStarting | strategies/sentiment_stock_strategy.py:356-373 | fails with NoSymbols exactly when the symbol list is empty, and succeeds exactly when there are symbols and the broker is reachable |
| Strategy.SentimentStrategy.OnAbruptClosing | strategies/sentiment_stock_strategy.py:375-406 | the loop emits exactly `Liquidation.LiquidationOrders`: a full-quantity market sell per held symbol, in symbol order (on_bot_crash runs the same loop) |

## Left out

- Network I/O is left out: the REST client, `api.get_news`, the date window, and all broker and API calls. Their results are parameters, and orders are returned values.
- The internals of `analyze_sentiment` and `RiskManager` are foreign code and are not shown. The oracle and `adjust_position_size` are function parameters. `RiskManager.initialize` and `update_market_conditions` are left out, and so is the risk configuration they use.
- The `random.uniform` placeholder score of `get_signal` is nondeterministic, so the score is a parameter.
- `on_trading_iteration` is not modelled as a working loop. It awaits the synchronous `get_sentiment`, whose result is a tuple, so it fails before any trade. It also appends the same reading to the history a second time. For the same reason `last_trade_dict` is not modelled.
- `async`/`await` and the time-of-check/time-of-use gap between signal and execution are left out. They are concurrency concerns.
- Logging and floating-point rounding are left out. Values are exact reals.
- Strategy.SentimentStrategy.OnAbruptClosing: does not model a failing order submission. In the code, such a failure ends the loop: it propagates from on_abrupt_closing and is caught after the loop in on_bot_crash.
- Strategy.SentimentStrategy.AnalyzeSymbol: does not model an oracle that returns no probability. That is the check at lines 223-225, which the modelled oracle never triggers.
- Signals.ExecuteTrade: a failed position read in `get_positions` returns an empty list (lines 193-199). The caller passes that empty list, so the symbol is treated as flat.
- The sentiment window is a natural number. A negative `sentiment_window` parameter, which would drop an entry on every append, is not modelled.
- The order type field is not modelled. Every order the strategy builds is a market order.
- Strategy.SentimentStrategy.BeforeStarting: the broker's reachability is one boolean input. `before_starting` calls `self.broker.get_account()` without `await` (line 369) and reads `account.cash` (line 370), but `analyze_symbol` awaits the same method (line 231). Read as text, one of the two always fails. If the method is asynchronous, `before_starting` re-raises at line 373. If it is synchronous, the broker read in `analyze_symbol` always raises and is caught at line 239, so `analyze_symbol` never places an order. The model's independent `brokerReachable` and `broker` inputs let both calls succeed.
- Strategy.SentimentStrategy.GetAggregatedSentiment: requires the symbol to have a history. For an untracked symbol, the lookup at line 84 raises an uncaught `KeyError`; that error path is not modelled.

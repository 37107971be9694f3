/**
 * The decision rules: get_signal (score against a symmetric threshold),
 * the order rule inside analyze_symbol (label plus threshold, with the 95%
 * buying-power cap) and the position re-check of execute_trade.
 */
module Signals {
  import opened Domain

  /** `position.quantity if position else 0`: a missing position counts as nothing held. */
  function HeldQuantity(position: Option<Position>): (q: real)
    ensures position.None? ==> q == 0.0
    ensures position.Some? ==> q == position.value.quantity
  {
    if position.Some? then position.value.quantity else 0.0
  }

  /**
   * get_signal. `price` is the last price (None when it could not be read),
   * `position` the broker's position for the symbol and `score` the sentiment
   * score, all supplied by the caller.
   */
  function GetSignal(score: real, price: Option<real>, position: Option<Position>,
                     portfolioValue: real, config: Config): (r: Option<Signal>)
    // a missing or zero price gives no signal
    ensures price.None? || price.value == 0.0 ==> r.None?
    // buy exactly when the score clears the threshold and nothing is held
    ensures (r.Some? && r.value.side == Buy) <==>
              price.Some? && price.value != 0.0 && score > config.sentimentThreshold && HeldQuantity(position) == 0.0
    // sell exactly when the score is below minus the threshold and something is held
    ensures (r.Some? && r.value.side == Sell) <==>
              price.Some? && price.value != 0.0 && score < -config.sentimentThreshold && HeldQuantity(position) > 0.0
    ensures r.Some? ==> price.Some? && r.value.price == price.value
    ensures r.Some? && r.value.side == Buy ==>
              && price.Some?
              && r.value.size == portfolioValue * config.positionSize / price.value
              && r.value.stopLoss == Some(price.value * (1.0 - config.stopLossPct))
              && r.value.takeProfit == Some(price.value * (1.0 + config.takeProfitPct))
    ensures r.Some? && r.value.side == Sell ==>
              r.value.size == HeldQuantity(position) && r.value.stopLoss.None? && r.value.takeProfit.None?
  {
    if price.None? || price.value == 0.0 then None
    else
      var held := HeldQuantity(position);
      if score > config.sentimentThreshold && held == 0.0 then
        Some(Signal(Buy, portfolioValue * config.positionSize / price.value, price.value,
                    Some(price.value * (1.0 - config.stopLossPct)),
                    Some(price.value * (1.0 + config.takeProfitPct))))
      else if score < -config.sentimentThreshold && held > 0.0 then
        Some(Signal(Sell, held, price.value, None, None))
      else None
  }

  /** get_signal never buys into an open position and never sells from a flat one. */
  lemma SignalRespectsPosition(score: real, price: Option<real>, position: Option<Position>,
                               portfolioValue: real, config: Config)
    ensures var r := GetSignal(score, price, position, portfolioValue, config);
            && (r.Some? && r.value.side == Buy ==> HeldQuantity(position) == 0.0)
            && (r.Some? && r.value.side == Sell ==> position.Some? && position.value.quantity > 0.0)
            && (r.None? && price.Some? && price.value != 0.0 ==>
                  !(score > config.sentimentThreshold && HeldQuantity(position) == 0.0) &&
                  !(score < -config.sentimentThreshold && HeldQuantity(position) > 0.0))
  {
  }

  /**
   * The index of the first position for `symbol`, as
   * `next((p for p in positions if p.symbol == symbol), None)` finds it;
   * |positions| when there is none.
   */
  function FirstMatch(positions: seq<Position>, symbol: string): (j: nat)
    ensures j <= |positions|
    ensures forall i :: 0 <= i < j ==> positions[i].symbol != symbol
    ensures j < |positions| ==> positions[j].symbol == symbol
  {
    if positions == [] then 0
    else if positions[0].symbol == symbol then 0
    else 1 + FirstMatch(positions[1..], symbol)
  }

  /** The position for `symbol` in a broker position list, if any. */
  function FindPosition(positions: seq<Position>, symbol: string): (r: Option<Position>)
    ensures r.None? <==> forall p :: p in positions ==> p.symbol != symbol
    ensures r.Some? ==> r.value in positions && r.value.symbol == symbol
    // it is the first position for the symbol, as `next` returns it
    ensures r.Some? ==> exists j :: 0 <= j < |positions| && positions[j] == r.value &&
                                    forall i :: 0 <= i < j ==> positions[i].symbol != symbol
  {
    var j := FirstMatch(positions, symbol);
    if j < |positions| then Some(positions[j]) else None
  }

  /**
   * execute_trade: re-reads the positions and submits the signal's order only
   * when a buy still finds the symbol flat or a sell still finds it held.
   */
  function ExecuteTrade(symbol: string, signal: Option<Signal>, positions: seq<Position>): (r: Option<Order>)
    ensures r.Some? ==> signal.Some? && r.value == Order(symbol, signal.value.size, signal.value.side)
    ensures r.Some? <==> signal.Some? && (signal.value.side == Buy <==> FindPosition(positions, symbol).None?)
    ensures r.Some? && r.value.side == Buy ==> forall p :: p in positions ==> p.symbol != symbol
    ensures r.Some? && r.value.side == Sell ==> exists p :: p in positions && p.symbol == symbol
  {
    if signal.None? then None
    else
      var current := FindPosition(positions, symbol);
      match signal.value.side
      case Buy => if current.None? then Some(Order(symbol, signal.value.size, Buy)) else None
      case Sell => if current.Some? then Some(Order(symbol, signal.value.size, Sell)) else None
  }

  /**
   * When execute_trade sees the same position get_signal saw, every sell
   * signal is carried out, and a buy signal is carried out exactly when there
   * is no position record at all (a record with quantity 0 lets get_signal
   * buy but makes execute_trade skip).
   */
  lemma SignalThenExecute(symbol: string, score: real, price: Option<real>, positions: seq<Position>,
                          portfolioValue: real, config: Config)
    ensures var position := FindPosition(positions, symbol);
            var signal := GetSignal(score, price, position, portfolioValue, config);
            var order := ExecuteTrade(symbol, signal, positions);
            && (signal.Some? && signal.value.side == Sell ==> order.Some?)
            && (signal.Some? && signal.value.side == Buy ==> (order.Some? <==> position.None?))
            && (order.Some? ==> signal.Some? && order.value.quantity == signal.value.size)
  {
  }

  /**
   * min(buying_power * position_size, buying_power * 0.95): the position-size
   * share of the buying power, but never more than 95% of it.
   */
  function BuyBudget(buyingPower: real, positionSize: real): (b: real)
    ensures b <= buyingPower * positionSize && b <= buyingPower * 0.95
    ensures b == buyingPower * positionSize || b == buyingPower * 0.95
    ensures buyingPower >= 0.0 && positionSize >= 0.95 ==> b == buyingPower * 0.95
  {
    Min(buyingPower * positionSize, buyingPower * 0.95)
  }

  /** A positive budget needs positive buying power and is at most 95% of it. */
  lemma BuyBudgetBounds(buyingPower: real, positionSize: real)
    requires BuyBudget(buyingPower, positionSize) > 0.0
    ensures buyingPower > 0.0 && positionSize > 0.0
    ensures BuyBudget(buyingPower, positionSize) <= 0.95 * buyingPower
    ensures BuyBudget(buyingPower, positionSize) <= buyingPower * positionSize
  {
  }

  /**
   * The order rule of analyze_symbol for one reading. A zero price makes the
   * quantity division raise, which is caught: no order.
   */
  function AnalyzeDecision(symbol: string, reading: Observation, config: Config, price: real,
                           current: Option<Position>, buyingPower: real): (r: Option<Order>)
    ensures r.Some? ==> r.value.symbol == symbol
    ensures (r.Some? && r.value.side == Buy) <==>
              && reading.sentiment == Positive && reading.probability > config.sentimentThreshold
              && current.None? && BuyBudget(buyingPower, config.positionSize) > 0.0 && price != 0.0
    ensures r.Some? && r.value.side == Buy ==>
              r.value.quantity * price == BuyBudget(buyingPower, config.positionSize)
    ensures (r.Some? && r.value.side == Sell) <==>
              reading.sentiment == Negative && reading.probability > config.sentimentThreshold && current.Some?
    ensures r.Some? && r.value.side == Sell ==> r.value.quantity == current.value.quantity
  {
    if reading.sentiment == Positive && reading.probability > config.sentimentThreshold then
      if current.None? then
        var budget := BuyBudget(buyingPower, config.positionSize);
        if budget <= 0.0 || price == 0.0 then None
        else Some(Order(symbol, budget / price, Buy))
      else None
    else if reading.sentiment == Negative && reading.probability > config.sentimentThreshold && current.Some? then
      Some(Order(symbol, current.value.quantity, Sell))
    else None
  }

  /** A buy from analyze_symbol spends at most 95% of the buying power, which is positive. */
  lemma AnalyzeBuyWithinBuyingPower(symbol: string, reading: Observation, config: Config, price: real,
                                    current: Option<Position>, buyingPower: real)
    requires var r := AnalyzeDecision(symbol, reading, config, price, current, buyingPower);
             r.Some? && r.value.side == Buy
    ensures var r := AnalyzeDecision(symbol, reading, config, price, current, buyingPower);
            && buyingPower > 0.0
            && r.value.quantity * price <= 0.95 * buyingPower
            && r.value.quantity * price <= buyingPower * config.positionSize
  {
    BuyBudgetBounds(buyingPower, config.positionSize);
  }
}

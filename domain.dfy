/** Value types shared by every part of the sentiment strategy model. */
module Domain {

  datatype Option<+T> = None | Some(value: T)

  /** The three labels the sentiment oracle can report. */
  datatype Label = Positive | Negative | Neutral

  /** One (probability, label) pair, as produced by the oracle or by aggregation. */
  datatype Observation = Observation(probability: real, sentiment: Label)

  /** The neutral reading returned when there is nothing to analyse. */
  const NoSentiment := Observation(0.0, Neutral)

  /** A broker position: symbol, held quantity and market value. */
  datatype Position = Position(symbol: string, quantity: real, marketValue: real)

  datatype Side = Buy | Sell

  /** A market order handed to the broker (every order of the strategy is a market order). */
  datatype Order = Order(symbol: string, quantity: real, side: Side)

  /** A trading signal; the stop-loss and take-profit levels are advisory. */
  datatype Signal = Signal(side: Side, size: real, price: real,
                           stopLoss: Option<real>, takeProfit: Option<real>)

  /** The strategy's tunable parameters. */
  datatype Config = Config(
    sentimentThreshold: real,
    positionSize: real,
    maxPositionSize: real,
    stopLossPct: real,
    takeProfitPct: real,
    sentimentWindow: nat,
    priceHistoryWindow: nat)

  /**
   * The parameter values used when a parameter is not given. A new position
   * starts below the per-position cap, and the take-profit distance is wider
   * than the stop-loss distance.
   */
  function DefaultConfig(): (c: Config)
    ensures c.sentimentThreshold == 0.6 && c.positionSize == 0.1 && c.maxPositionSize == 0.25
    ensures c.stopLossPct == 0.02 && c.takeProfitPct == 0.05
    ensures c.sentimentWindow == 5 && c.priceHistoryWindow == 30
    ensures 0.0 < c.positionSize < c.maxPositionSize < 1.0
    ensures 0.0 < c.stopLossPct < c.takeProfitPct < 1.0
  {
    Config(0.6, 0.1, 0.25, 0.02, 0.05, 5, 30)
  }

  /** Python's built-in min on two numbers: the first argument unless the second is smaller. */
  function Min(a: real, b: real): (m: real)
    ensures m <= a && m <= b
    ensures m == a || m == b
  {
    if b < a then b else a
  }
}

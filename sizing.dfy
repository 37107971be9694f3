/**
 * calculate_position_size: a notional trade size from the portfolio value, the
 * sentiment probability and the configured fractions, passed through the risk
 * manager and capped at `portfolio_value * max_position_size`.
 */
module Sizing {
  import opened Domain

  /** What calculate_position_size hands the risk manager for each held symbol. */
  datatype PositionRisk = PositionRisk(value: real, priceHistory: seq<real>)

  /**
   * RiskManager.adjust_position_size(symbol, desired_size, price_history,
   * current_positions); its body is not part of this model.
   */
  type RiskAdjuster = (string, real, seq<real>, map<string, PositionRisk>) -> real

  /**
   * The risk manager's adjusted size for a desired size. It adds no meaning of
   * its own: naming the application lets CalculatePositionSize and
   * PositionSize share one term, which keeps that method's proof stable.
   */
  function Adjusted(adjust: RiskAdjuster, symbol: string, desired: real, priceHistory: seq<real>,
                    current: map<string, PositionRisk>): real
  {
    adjust(symbol, desired, priceHistory, current)
  }

  /** price_history.get(symbol, []) */
  function HistoryOf(priceHistory: map<string, seq<real>>, s: string): seq<real>
  {
    if s in priceHistory then priceHistory[s] else []
  }

  /**
   * The current_positions dictionary built over the symbols in order: only
   * symbols with a position, each with its market value and price history.
   */
  function CurrentPositions(symbols: seq<string>, held: map<string, Position>,
                            priceHistory: map<string, seq<real>>): (cp: map<string, PositionRisk>)
    ensures forall s :: s in cp ==> s in held && cp[s] == PositionRisk(held[s].marketValue, HistoryOf(priceHistory, s))
  {
    if symbols == [] then map[]
    else
      var rest := CurrentPositions(symbols[..|symbols| - 1], held, priceHistory);
      var s := symbols[|symbols| - 1];
      if s in held then rest[s := PositionRisk(held[s].marketValue, HistoryOf(priceHistory, s))]
      else rest
  }

  /** current_positions has exactly the symbols with a position, each with its value and prices. */
  lemma {:induction false} CurrentPositionsContents(symbols: seq<string>, held: map<string, Position>,
                                                    priceHistory: map<string, seq<real>>)
    ensures var cp := CurrentPositions(symbols, held, priceHistory);
            && (forall s :: s in cp <==> s in symbols && s in held)
            && (forall s :: s in cp ==> cp[s] == PositionRisk(held[s].marketValue, HistoryOf(priceHistory, s)))
  {
    if symbols != [] {
      var init := symbols[..|symbols| - 1];
      CurrentPositionsContents(init, held, priceHistory);
      assert symbols == init + [symbols[|symbols| - 1]];
      forall s ensures s in symbols <==> s in init || s == symbols[|symbols| - 1] {
      }
    }
  }

  /** min(sentiment_prob / sentiment_threshold, 1.5): the probability relative to the threshold, capped at 1.5. */
  function Multiplier(prob: real, threshold: real): (m: real)
    requires threshold != 0.0
    ensures m <= 1.5
    ensures prob / threshold <= 1.5 ==> m == prob / threshold
    ensures threshold > 0.0 && prob >= 0.0 ==> m >= 0.0
  {
    Min(prob / threshold, 1.5)
  }

  /**
   * base_size * sentiment_multiplier, with base_size = portfolio_value * position_size:
   * exactly the base size at the threshold probability, and 1.5 times it from
   * 1.5 times the threshold on.
   */
  function DesiredSize(portfolioValue: real, config: Config, prob: real): (d: real)
    requires config.sentimentThreshold != 0.0
    ensures prob == config.sentimentThreshold ==> d == portfolioValue * config.positionSize
    ensures prob / config.sentimentThreshold >= 1.5 ==> d == 1.5 * (portfolioValue * config.positionSize)
  {
    portfolioValue * config.positionSize * Multiplier(prob, config.sentimentThreshold)
  }

  /**
   * calculate_position_size. None when the account could not be read, when
   * the threshold is zero (the division raises and is caught), or when the
   * symbol has fewer than two price samples.
   */
  function PositionSize(symbol: string, prob: real, config: Config, portfolioValue: Option<real>,
                        priceHistory: seq<real>, current: map<string, PositionRisk>,
                        adjust: RiskAdjuster): (r: Option<real>)
    ensures r.None? <==> portfolioValue.None? || config.sentimentThreshold == 0.0 || |priceHistory| < 2
    ensures r.Some? ==> r.value <= portfolioValue.value * config.maxPositionSize
    ensures r.Some? ==>
              var adjusted := Adjusted(adjust, symbol, DesiredSize(portfolioValue.value, config, prob), priceHistory, current);
              r.value <= adjusted && (r.value == adjusted || r.value == portfolioValue.value * config.maxPositionSize)
  {
    if portfolioValue.None? || config.sentimentThreshold == 0.0 then None
    else
      var pv := portfolioValue.value;
      var desired := DesiredSize(pv, config, prob);
      if |priceHistory| < 2 then None
      else Some(Min(Adjusted(adjust, symbol, desired, priceHistory, current), pv * config.maxPositionSize))
  }

  lemma ScaleLe(a: real, x: real, y: real)
    requires a >= 0.0 && x <= y
    ensures a * x <= a * y
  {
    assert a * y - a * x == a * (y - x);
  }

  lemma MinMonotone(a: real, b: real, c: real)
    requires a <= b
    ensures Min(a, c) <= Min(b, c)
  {
  }

  /** The sentiment multiplier never amplifies the base size by more than 1.5. */
  lemma DesiredWithinCap(portfolioValue: real, config: Config, prob: real)
    requires config.sentimentThreshold != 0.0
    requires portfolioValue * config.positionSize >= 0.0
    ensures Multiplier(prob, config.sentimentThreshold) <= 1.5
    ensures DesiredSize(portfolioValue, config, prob) <= 1.5 * (portfolioValue * config.positionSize)
  {
    ScaleLe(portfolioValue * config.positionSize, Multiplier(prob, config.sentimentThreshold), 1.5);
  }

  /** With a positive threshold and a non-negative base, the desired size grows with the probability. */
  lemma DesiredMonotone(portfolioValue: real, config: Config, p1: real, p2: real)
    requires config.sentimentThreshold > 0.0
    requires portfolioValue * config.positionSize >= 0.0
    requires p1 <= p2
    ensures DesiredSize(portfolioValue, config, p1) <= DesiredSize(portfolioValue, config, p2)
  {
    var t := config.sentimentThreshold;
    var b := portfolioValue * config.positionSize;
    var m1, m2 := Multiplier(p1, t), Multiplier(p2, t);
    assert p1 / t <= p2 / t by {
      assert p2 / t - p1 / t == (p2 - p1) / t;
    }
    assert m1 == Min(p1 / t, 1.5) && m2 == Min(p2 / t, 1.5);
    MinMonotone(p1 / t, p2 / t, 1.5);
    calc {
      DesiredSize(portfolioValue, config, p1);
    ==
      b * m1;
    <= { ScaleLe(b, m1, m2); }
      b * m2;
    ==
      DesiredSize(portfolioValue, config, p2);
    }
  }

  /** When the risk adjustment is monotone, so is the final size. */
  lemma PositionSizeMonotone(symbol: string, config: Config, portfolioValue: Option<real>,
                             priceHistory: seq<real>, current: map<string, PositionRisk>,
                             adjust: RiskAdjuster, p1: real, p2: real)
    requires config.sentimentThreshold > 0.0 && portfolioValue.Some?
    requires portfolioValue.value * config.positionSize >= 0.0
    requires |priceHistory| >= 2 && p1 <= p2
    requires forall d1, d2 :: d1 <= d2 ==> adjust(symbol, d1, priceHistory, current) <= adjust(symbol, d2, priceHistory, current)
    ensures PositionSize(symbol, p1, config, portfolioValue, priceHistory, current, adjust).value
         <= PositionSize(symbol, p2, config, portfolioValue, priceHistory, current, adjust).value
  {
    DesiredMonotone(portfolioValue.value, config, p1, p2);
  }

  /**
   * The worked example: portfolio 100000, default parameters, probability 0.75
   * and a pass-through risk manager give 10000 * 1.25 = 12500, below the
   * 25000 cap, which at a price of 50 is 250 shares.
   */
  lemma SizingExample(symbol: string, priceHistory: seq<real>, current: map<string, PositionRisk>)
    requires |priceHistory| >= 2
    ensures var passThrough: RiskAdjuster := (s, d, ph, cp) => d;
            var r := PositionSize(symbol, 0.75, DefaultConfig(), Some(100000.0), priceHistory, current, passThrough);
            r == Some(12500.0) && r.value / 50.0 == 250.0
  {
    var c := DefaultConfig();
    assert c.sentimentThreshold == 0.6 && c.positionSize == 0.1;
    assert Multiplier(0.75, c.sentimentThreshold) == 1.25;
    assert 100000.0 * c.positionSize == 10000.0;
    assert DesiredSize(100000.0, c, 0.75) == 12500.0;
  }
}

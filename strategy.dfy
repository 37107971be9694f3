/**
 * SentimentStockStrategy as a class. The per-symbol sentiment and price
 * histories are map fields that the methods reassign; broker reads (prices,
 * positions, account values, news) and the sentiment oracle are parameters,
 * and every order the strategy would submit is returned as a value.
 */
module Strategy {
  import opened Domain
  import opened History
  import opened Aggregation
  import opened Sizing
  import opened Signals
  import opened Liquidation

  /** What analyze_symbol reads from the broker: the open positions and the buying power. */
  datatype BrokerSnapshot = BrokerSnapshot(positions: seq<Position>, buyingPower: real)

  /** The fatal conditions of before_starting. */
  datatype StartupError = NoSymbols | BrokerUnreachable

  /** Sum of a list of numbers, from the back. */
  function Sum(s: seq<real>): real
  {
    if s == [] then 0.0 else Sum(s[..|s| - 1]) + s[|s| - 1]
  }

  lemma SumAppend(s: seq<real>, x: real)
    ensures Sum(s + [x]) == Sum(s) + x
  {
    assert (s + [x])[..|s|] == s;
  }

  class SentimentStrategy {
    const symbols: seq<string>
    const config: Config
    var sentimentHistory: map<string, seq<Observation>>
    var priceHistory: map<string, seq<real>>

    /** Every traded symbol has both histories, and no sentiment history exceeds the window. */
    ghost predicate Valid()
      reads this
    {
      && (forall s :: s in symbols ==> s in sentimentHistory && s in priceHistory)
      && (forall s :: s in sentimentHistory ==> |sentimentHistory[s]| <= config.sentimentWindow)
    }

    /** initialize: an empty sentiment and price history for every symbol. */
    constructor (symbols: seq<string>, config: Config)
      ensures Valid()
      ensures this.symbols == symbols && this.config == config
      ensures sentimentHistory == map s | s in symbols :: []
      ensures priceHistory == map s | s in symbols :: []
    {
      this.symbols := symbols;
      this.config := config;
      sentimentHistory := map s | s in symbols :: [];
      priceHistory := map s | s in symbols :: [];
    }

    /**
     * get_sentiment. `news` holds the headlines of the trailing three days,
     * or None when fetching them failed; `oracle` is the sentiment analyser.
     */
    method GetSentiment(symbol: string, news: Option<seq<string>>, oracle: seq<string> -> Observation)
      returns (reading: Observation)
      requires Valid()
      modifies this
      ensures Valid()
      ensures reading == Reading(old(sentimentHistory), symbol, news, oracle)
      ensures sentimentHistory == HistoryAfter(old(sentimentHistory), symbol, news, oracle, config.sentimentWindow)
      ensures priceHistory == old(priceHistory)
    {
      if news.None? || news.value == [] {
        return NoSentiment;
      }
      var observed := oracle(news.value);
      if symbol !in sentimentHistory {
        return NoSentiment;
      }
      var h := sentimentHistory[symbol] + [observed];
      if |h| > config.sentimentWindow {
        h := h[1..];
      }
      assert h == PushBounded(sentimentHistory[symbol], observed, config.sentimentWindow);
      sentimentHistory := sentimentHistory[symbol := h];
      reading := observed;
    }

    /** get_aggregated_sentiment; the symbol must have a history (otherwise the lookup raises). */
    method GetAggregatedSentiment(symbol: string) returns (r: Observation)
      requires symbol in sentimentHistory
      ensures r == Aggregate(sentimentHistory[symbol])
      ensures sentimentHistory[symbol] == [] ==> r == NoSentiment
    {
      var h := sentimentHistory[symbol];
      if h == [] {
        return NoSentiment;
      }
      var weighted: seq<real> := [];
      var counts := map[Positive := 0, Negative := 0, Neutral := 0];
      var i := 0;
      assert forall l: Label :: l in counts && counts[l] == 0 by {
        forall l: Label ensures l in counts && counts[l] == 0 {
          match l
          case Positive =>
          case Negative =>
          case Neutral =>
        }
      }
      while i < |h|
        invariant 0 <= i <= |h|
        invariant |weighted| == i
        invariant Sum(weighted) == WeightedSum(h, i)
        invariant forall l: Label :: l in counts && counts[l] == Count(h, i, l)
      {
        var w := h[i].probability * Weight(i, |h|);
        SumAppend(weighted, w);
        weighted := weighted + [w];
        counts := counts[h[i].sentiment := counts[h[i].sentiment] + 1];
        i := i + 1;
      }
      var mean := Sum(weighted) / (|h| as real);
      var items := [(Positive, counts[Positive]), (Negative, counts[Negative]), (Neutral, counts[Neutral])];
      assert items == CountItems(h);
      assert mean == WeightedMean(h);
      r := Observation(mean, items[FirstMaxIndex(items)].0);
    }

    /**
     * calculate_position_size. `portfolioValue` is the account's value (None
     * when the account read failed), `held` the broker's position for each
     * symbol that has one, and `adjust` the risk manager.
     */
    method CalculatePositionSize(symbol: string, prob: real, portfolioValue: Option<real>,
                                 held: map<string, Position>, adjust: RiskAdjuster)
      returns (r: Option<real>)
      ensures r == PositionSize(symbol, prob, config, portfolioValue, HistoryOf(priceHistory, symbol),
                                CurrentPositions(symbols, held, priceHistory), adjust)
    {
      if portfolioValue.None? {
        return None;
      }
      var pv := portfolioValue.value;
      var current: map<string, PositionRisk> := map[];
      for i := 0 to |symbols|
        invariant current == CurrentPositions(symbols[..i], held, priceHistory)
      {
        var s := symbols[i];
        assert symbols[..i + 1][..i] == symbols[..i];
        if s in held {
          current := current[s := PositionRisk(held[s].marketValue, HistoryOf(priceHistory, s))];
        }
      }
      assert symbols[..|symbols|] == symbols;
      var baseSize := pv * config.positionSize;
      if config.sentimentThreshold == 0.0 {
        return None;
      }
      var multiplier := Min(prob / config.sentimentThreshold, 1.5);
      var desired := baseSize * multiplier;
      var prices := HistoryOf(priceHistory, symbol);
      if |prices| < 2 {
        return None;
      }
      var adjusted := Adjusted(adjust, symbol, desired, prices, current);
      assert desired == DesiredSize(pv, config, prob);
      assert current == CurrentPositions(symbols, held, priceHistory);
      r := Some(Min(adjusted, pv * config.maxPositionSize));
    }

    /**
     * analyze_symbol. A missing price ends the analysis before the sentiment
     * is read; a failed broker read (`broker` is None) ends it after.
     */
    method AnalyzeSymbol(symbol: string, price: Option<real>, news: Option<seq<string>>,
                         oracle: seq<string> -> Observation, broker: Option<BrokerSnapshot>)
      returns (order: Option<Order>)
      requires Valid()
      modifies this
      ensures Valid()
      ensures price.None? ==> order.None? && sentimentHistory == old(sentimentHistory)
      ensures price.Some? ==>
                sentimentHistory == HistoryAfter(old(sentimentHistory), symbol, news, oracle, config.sentimentWindow)
      ensures order == if price.None? || broker.None? then None
                       else AnalyzeDecision(symbol, Reading(old(sentimentHistory), symbol, news, oracle), config,
                                            price.value, FindPosition(broker.value.positions, symbol),
                                            broker.value.buyingPower)
      ensures priceHistory == old(priceHistory)
    {
      if price.None? {
        return None;
      }
      var reading := GetSentiment(symbol, news, oracle);
      if broker.None? {
        return None;
      }
      var current := FindPosition(broker.value.positions, symbol);
      order := AnalyzeDecision(symbol, reading, config, price.value, current, broker.value.buyingPower);
    }

    /** before_market_opens: every symbol's sentiment and price history is emptied. */
    method BeforeMarketOpens()
      requires Valid()
      modifies this
      ensures Valid()
      ensures forall s :: s in symbols ==> sentimentHistory[s] == [] && priceHistory[s] == []
      ensures sentimentHistory.Keys == old(sentimentHistory).Keys
      ensures priceHistory.Keys == old(priceHistory).Keys
      ensures forall s :: s in old(sentimentHistory) && s !in symbols ==> sentimentHistory[s] == old(sentimentHistory)[s]
      ensures forall s :: s in old(priceHistory) && s !in symbols ==> priceHistory[s] == old(priceHistory)[s]
    {
      for i := 0 to |symbols|
        invariant Valid()
        invariant sentimentHistory.Keys == old(sentimentHistory).Keys
        invariant priceHistory.Keys == old(priceHistory).Keys
        invariant forall k :: 0 <= k < i ==> sentimentHistory[symbols[k]] == [] && priceHistory[symbols[k]] == []
        invariant forall s :: s in old(sentimentHistory) && s !in symbols[..i] ==>
                    sentimentHistory[s] == old(sentimentHistory)[s]
        invariant forall s :: s in old(priceHistory) && s !in symbols[..i] ==>
                    priceHistory[s] == old(priceHistory)[s]
      {
        var s := symbols[i];
        assert symbols[..i + 1] == symbols[..i] + [s];
        sentimentHistory := sentimentHistory[s := []];
        priceHistory := priceHistory[s := []];
      }
      assert symbols[..|symbols|] == symbols;
      forall s | s in symbols
        ensures sentimentHistory[s] == [] && priceHistory[s] == []
      {
        var k :| 0 <= k < |symbols| && symbols[k] == s;
      }
    }

    /** before_starting: no symbols is fatal, and so is a broker that cannot be reached. */
    function BeforeStarting(brokerReachable: bool): (r: Option<StartupError>)
      ensures r == Some(NoSymbols) <==> symbols == []
      ensures r.None? <==> symbols != [] && brokerReachable
    {
      if symbols == [] then Some(NoSymbols)
      else if !brokerReachable then Some(BrokerUnreachable)
      else None
    }

    /**
     * on_abrupt_closing (and on_bot_crash, which runs the same loop): `held`
     * is the broker's position for each symbol that has one.
     */
    method OnAbruptClosing(held: map<string, Position>) returns (orders: seq<Order>)
      ensures orders == LiquidationOrders(symbols, held)
    {
      orders := [];
      for i := 0 to |symbols|
        invariant orders == LiquidationOrders(symbols[..i], held)
      {
        var s := symbols[i];
        LiquidationAppend(symbols[..i], s, held);
        assert symbols[..i + 1] == symbols[..i] + [s];
        if s in held {
          orders := orders + [Order(s, held[s].quantity, Sell)];
        }
      }
      assert symbols[..|symbols|] == symbols;
    }
  }
}

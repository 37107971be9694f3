/**
 * The orders of the emergency liquidation run by on_abrupt_closing and
 * on_bot_crash: walking the symbols in order, one full-quantity market sell
 * for every symbol the broker reports a position for.
 */
module Liquidation {
  import opened Domain

  /**
   * The liquidation orders for `symbols`, given the broker's positions by
   * symbol: at most one per symbol, each a sell of a held position's full quantity.
   */
  function LiquidationOrders(symbols: seq<string>, held: map<string, Position>): (orders: seq<Order>)
    ensures |orders| <= |symbols|
    ensures forall o :: o in orders ==> o.side == Sell && o.symbol in held && o.quantity == held[o.symbol].quantity
  {
    if symbols == [] then []
    else SellAll(symbols[0], held) + LiquidationOrders(symbols[1..], held)
  }

  /** The sell for one symbol: its whole quantity, or nothing when it is flat. */
  function SellAll(s: string, held: map<string, Position>): (r: seq<Order>)
    ensures s in held ==> r == [Order(s, held[s].quantity, Sell)]
    ensures s !in held ==> r == []
  {
    if s in held then [Order(s, held[s].quantity, Sell)] else []
  }

  /** Number of entries of `symbols` that hold a position. */
  function HeldCount(symbols: seq<string>, held: map<string, Position>): nat
  {
    if symbols == [] then 0 else (if symbols[0] in held then 1 else 0) + HeldCount(symbols[1..], held)
  }

  /** Handling one more symbol appends its sell after all earlier ones: the orders follow symbol order. */
  lemma {:induction false} LiquidationAppend(symbols: seq<string>, s: string, held: map<string, Position>)
    ensures LiquidationOrders(symbols + [s], held) == LiquidationOrders(symbols, held) + SellAll(s, held)
  {
    if symbols == [] {
      assert [s][1..] == [];
    } else {
      assert (symbols + [s])[1..] == symbols[1..] + [s];
      LiquidationAppend(symbols[1..], s, held);
    }
  }

  /**
   * Every liquidation order is a market sell of a listed symbol that holds a
   * position, for that position's full quantity; there is one order per
   * listed symbol with a position.
   */
  lemma {:induction false} LiquidationSellsHeld(symbols: seq<string>, held: map<string, Position>)
    ensures var orders := LiquidationOrders(symbols, held);
            && |orders| == HeldCount(symbols, held)
            && forall k :: 0 <= k < |orders| ==>
                 && orders[k].side == Sell
                 && orders[k].symbol in symbols
                 && orders[k].symbol in held
                 && orders[k].quantity == held[orders[k].symbol].quantity
  {
    if symbols != [] {
      LiquidationSellsHeld(symbols[1..], held);
      var orders := LiquidationOrders(symbols, held);
      var head := SellAll(symbols[0], held);
      var tail := LiquidationOrders(symbols[1..], held);
      forall k | 0 <= k < |orders|
        ensures orders[k].symbol in symbols
      {
        if k >= |head| {
          assert orders[k] == tail[k - |head|];
          assert tail[k - |head|].symbol in symbols[1..];
        }
      }
    }
  }

  /** A symbol without a position gets no order; every listed symbol with one gets its full sell. */
  lemma {:induction false} LiquidationCovers(symbols: seq<string>, held: map<string, Position>, s: string)
    ensures s !in held ==> forall o :: o in LiquidationOrders(symbols, held) ==> o.symbol != s
    ensures s in held && s in symbols ==> Order(s, held[s].quantity, Sell) in LiquidationOrders(symbols, held)
  {
    if symbols != [] {
      LiquidationCovers(symbols[1..], held, s);
      if s in held && s in symbols && s != symbols[0] {
        assert s in symbols[1..];
      }
    }
  }

  /** With no symbol listed twice, no two liquidation orders are for the same symbol. */
  lemma {:induction false} LiquidationOnePerSymbol(symbols: seq<string>, held: map<string, Position>)
    requires forall i, j :: 0 <= i < j < |symbols| ==> symbols[i] != symbols[j]
    ensures var orders := LiquidationOrders(symbols, held);
            forall i, j :: 0 <= i < j < |orders| ==> orders[i].symbol != orders[j].symbol
  {
    if symbols != [] {
      var rest := symbols[1..];
      LiquidationOnePerSymbol(rest, held);
      LiquidationCovers(rest, held, symbols[0]);
      LiquidationSellsHeld(rest, held);
      var orders := LiquidationOrders(symbols, held);
      var tail := LiquidationOrders(rest, held);
      if symbols[0] in held {
        assert symbols[0] !in rest;
        forall i, j | 0 <= i < j < |orders|
          ensures orders[i].symbol != orders[j].symbol
        {
          if i == 0 {
            assert orders[j] == tail[j - 1];
            assert tail[j - 1].symbol in rest;
          } else {
            assert orders[i] == tail[i - 1] && orders[j] == tail[j - 1];
          }
        }
      }
    }
  }
}

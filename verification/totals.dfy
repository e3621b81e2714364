/**
 * The portfolio figures that src/pages/Simulator.tsx, src/pages/Profile.tsx and src/pages/Home.tsx
 * each compute from the ledger with the same three `reduce` folds (total value, invested value,
 * profit and loss), together with the per-holding figures the pages show next to each holding.
 *
 * The folds are written once, as the left fold `reduce` is, over any per-holding figure; the
 * right-recursive sum beside it is the reference definition the lemmas connect it to.
 */
module Totals {
  import opened Wrappers
  import opened PortfolioContext

  /** `holding.quantity * holding.currentPrice`. */
  function MarketValue(h: Holding): real {
    h.quantity * h.currentPrice
  }

  /** `(holding.currentPrice - holding.avgPrice) * holding.quantity`. */
  function Gain(h: Holding): real {
    (h.currentPrice - h.avgPrice) * h.quantity
  }

  /** `hs.reduce((total, h) => total + f(h), start)`. */
  function Fold(f: Holding -> real, start: real, hs: seq<Holding>): real
    decreases hs
  {
    if hs == [] then start else Fold(f, start + f(hs[0]), hs[1..])
  }

  /** The sum of `f` over the holdings. */
  function Sum(f: Holding -> real, hs: seq<Holding>): real {
    if hs == [] then 0.0 else f(hs[0]) + Sum(f, hs[1..])
  }

  /** `totalPortfolioValue`: the market-value fold seeded with the cash balance. */
  function TotalPortfolioValue(s: Snapshot): real {
    Fold(MarketValue, s.cash, s.holdings)
  }

  /** `totalInvestmentValue`: the same fold seeded with 0. */
  function TotalInvestmentValue(s: Snapshot): real {
    Fold(MarketValue, 0.0, s.holdings)
  }

  /** `totalGainLoss`. */
  function TotalGainLoss(s: Snapshot): real {
    Fold(Gain, 0.0, s.holdings)
  }

  /**
   * The per-holding percentage `(currentPrice - avgPrice) / avgPrice * 100`. The pages do not
   * guard the division; at an average price of 0 the browser shows a non-finite number, which
   * is `None` here.
   */
  function HoldingPercent(h: Holding): (r: Option<real>)
    ensures r.Some? <==> h.avgPrice != 0.0
    ensures r.Some? ==> r.value * h.avgPrice == (h.currentPrice - h.avgPrice) * 100.0
  {
    if h.avgPrice == 0.0 then None else Some((h.currentPrice - h.avgPrice) / h.avgPrice * 100.0)
  }

  /** The two text colours of a gain or loss figure. */
  datatype GainTone = Green | Red

  /** `x >= 0 ? 'text-green-600' : 'text-red-600'`, the colour of every signed figure. */
  function ToneOf(x: real): GainTone {
    if x >= 0.0 then Green else Red
  }

  /** The colour of a holding's percentage: the sign of `currentPrice - avgPrice`. */
  function PriceTone(h: Holding): GainTone {
    ToneOf(h.currentPrice - h.avgPrice)
  }

  /**
   * `changePercent`: profit and loss as a percentage of the invested (market) value, and 0 when
   * nothing is invested, so the division is never by zero.
   */
  function ChangePercent(s: Snapshot): real {
    var invested := TotalInvestmentValue(s);
    if invested > 0.0 then TotalGainLoss(s) / invested * 100.0 else 0.0
  }

  // ---------------------------------------------------------------------------------------------
  // Folds and sums

  lemma {:induction false} FoldIsSum(f: Holding -> real, start: real, hs: seq<Holding>)
    ensures Fold(f, start, hs) == start + Sum(f, hs)
    decreases hs
  {
    if hs != [] {
      FoldIsSum(f, start + f(hs[0]), hs[1..]);
    }
  }

  /** A sum splits over a concatenation. */
  lemma {:induction false} SumConcat(f: Holding -> real, a: seq<Holding>, b: seq<Holding>)
    ensures Sum(f, a + b) == Sum(f, a) + Sum(f, b)
  {
    if a == [] {
      assert a + b == b;
    } else {
      assert (a + b)[0] == a[0];
      assert (a + b)[1..] == a[1..] + b;
      SumConcat(f, a[1..], b);
    }
  }

  /** Appending one holding adds its figure. */
  lemma SumAppend(f: Holding -> real, hs: seq<Holding>, h: Holding)
    ensures Sum(f, hs + [h]) == Sum(f, hs) + f(h)
  {
    SumConcat(f, hs, [h]);
    assert Sum(f, [h]) == f(h) + Sum(f, []);
  }

  /** Replacing one holding changes a sum by that holding's difference. */
  lemma {:induction false} SumUpdate(f: Holding -> real, hs: seq<Holding>, i: nat, h: Holding)
    requires i < |hs|
    ensures Sum(f, hs[i := h]) == Sum(f, hs) - f(hs[i]) + f(h)
  {
    if i > 0 {
      assert hs[i := h][1..] == hs[1..][i - 1 := h];
      SumUpdate(f, hs[1..], i - 1, h);
    }
  }

  /** Removing one holding takes exactly its figure out of a sum. */
  lemma {:induction false} SumRemove(f: Holding -> real, hs: seq<Holding>, i: nat)
    requires i < |hs|
    ensures Sum(f, hs[..i] + hs[i + 1..]) == Sum(f, hs) - f(hs[i])
  {
    if i == 0 {
      assert hs[..i] + hs[i + 1..] == hs[1..];
    } else {
      var rest := hs[1..][..i - 1] + hs[1..][i..];
      assert hs[..i] + hs[i + 1..] == [hs[0]] + rest;
      SumRemove(f, hs[1..], i - 1);
    }
  }

  /**
   * The holdings after a sell differ from those before in the one holding sold from: it is
   * dropped when every unit goes, and otherwise carries `q` units fewer.
   */
  lemma SumSold(f: Holding -> real, hs: seq<Holding>, i: nat, q: real)
    requires DistinctSymbols(hs)
    requires i < |hs|
    ensures Sum(f, SoldHoldings(hs, i, q)) == Sum(f, hs) - f(hs[i])
      + (if hs[i].quantity == q then 0.0 else f(hs[i].(quantity := hs[i].quantity - q)))
  {
    var reduced := hs[i := hs[i].(quantity := hs[i].quantity - q)];
    if hs[i].quantity == q {
      DistinctUpdate(hs, i, reduced[i]);
      RemoveDistinct(reduced, i);
      assert reduced[..i] + reduced[i + 1..] == hs[..i] + hs[i + 1..];
      SumRemove(f, hs, i);
    } else {
      SumUpdate(f, hs, i, reduced[i]);
    }
  }

  /**
   * Selling `q` units of the holding at `i` for `q × p` in cash moves cash plus a per-holding
   * figure by `q × (p − mark)` when selling lowers that holding's figure by `q × mark`.
   */
  lemma SoldExchange(f: Holding -> real, hs: seq<Holding>, i: nat, q: real, mark: real,
                     p: real, cash0: real, cash1: real, hs1: seq<Holding>)
    requires DistinctSymbols(hs)
    requires i < |hs|
    requires LowersBy(f, hs[i], q, mark)
    requires cash1 == cash0 + q * p && hs1 == SoldHoldings(hs, i, q)
    ensures cash1 + Sum(f, hs1) == cash0 + Sum(f, hs) + q * (p - mark)
  {
    SumSold(f, hs, i, q);
    Exchange(cash0, cash1, Sum(f, hs), Sum(f, hs1), q, p, mark);
  }

  // ---------------------------------------------------------------------------------------------
  // The figures of one holding

  lemma ValueMinusCost(h: Holding)
    ensures Gain(h) == MarketValue(h) - CostBasis(h)
  {
  }

  /**
   * Selling `q` of the units of `h` lowers the figure `f` of that position by `q × mark`: the
   * reduced holding's figure, or 0 once the holding is removed.
   */
  predicate LowersBy(f: Holding -> real, h: Holding, q: real, mark: real) {
    (if h.quantity == q then 0.0 else f(h.(quantity := h.quantity - q))) == f(h) - q * mark
  }

  /** Selling `q` units takes `q` units at the mark out of the position's market value. */
  lemma SoldMarketValue(h: Holding, q: real)
    ensures LowersBy(MarketValue, h, q, h.currentPrice)
  {
  }

  /** Selling `q` units takes `q` units at the average price out of the position's cost basis. */
  lemma SoldCostBasis(h: Holding, q: real)
    ensures LowersBy(CostBasis, h, q, h.avgPrice)
  {
  }

  /** Trading `q` units marked at `mark` for `q × p` in cash moves cash plus their figure by `q × (p − mark)`. */
  lemma Exchange(cash0: real, cash1: real, figure0: real, figure1: real, q: real, p: real, mark: real)
    requires cash1 == cash0 + q * p
    requires figure1 == figure0 - q * mark
    ensures cash1 + figure1 == cash0 + figure0 + q * (p - mark)
  {
  }

  /** Merging a buy at price `p` re-marks the old units at `p` and adds the new units at `p`. */
  lemma MergedValue(h: Holding, q: real, p: real)
    requires h.quantity + q != 0.0
    ensures MarketValue(MergeBuy(h, q, p)) == MarketValue(h) + h.quantity * (p - h.currentPrice) + q * p
  {
  }

  // ---------------------------------------------------------------------------------------------
  // The page totals

  /** Total value is the cash balance plus the invested value, and both are sums over the holdings. */
  lemma TotalIsCashPlusInvested(s: Snapshot)
    ensures TotalInvestmentValue(s) == Sum(MarketValue, s.holdings)
    ensures TotalPortfolioValue(s) == s.cash + TotalInvestmentValue(s)
  {
    FoldIsSum(MarketValue, s.cash, s.holdings);
    FoldIsSum(MarketValue, 0.0, s.holdings);
  }

  lemma {:induction false} GainIsValueMinusCost(hs: seq<Holding>)
    ensures Sum(Gain, hs) == Sum(MarketValue, hs) - Sum(CostBasis, hs)
  {
    if hs != [] {
      ValueMinusCost(hs[0]);
      GainIsValueMinusCost(hs[1..]);
    }
  }

  /** Profit and loss is what the holdings are worth at their marks minus what was paid for them. */
  lemma GainLossIsInvestedMinusCost(s: Snapshot)
    ensures TotalGainLoss(s) == Sum(Gain, s.holdings)
    ensures TotalGainLoss(s) == TotalInvestmentValue(s) - Sum(CostBasis, s.holdings)
  {
    FoldIsSum(Gain, 0.0, s.holdings);
    FoldIsSum(MarketValue, 0.0, s.holdings);
    GainIsValueMinusCost(s.holdings);
  }

  // ---------------------------------------------------------------------------------------------
  // The figures across one trade

  /**
   * A buy moves money from cash into cost basis: cash plus what was paid for the holdings is
   * unchanged, whether the buy merges into a holding or opens a new one.
   */
  lemma BuyConservesCashPlusCost(s: Snapshot, o: Order, now: int)
    requires DistinctSymbols(s.holdings)
    requires TradeDefined(s, o)
    requires o.side == Buy
    ensures ApplyTrade(s, o, now).Some? ==>
      var r := ApplyTrade(s, o, now).value;
      r.cash + Sum(CostBasis, r.holdings) == s.cash + Sum(CostBasis, s.holdings)
  {
    if ApplyTrade(s, o, now).Some? {
      var r := ApplyTrade(s, o, now).value;
      match FindHolding(s.holdings, o.symbol)
      case Some(i) =>
        BuyMergesHolding(s, o, now, i);
        SumUpdate(CostBasis, s.holdings, i, r.holdings[i]);
        assert r.holdings == s.holdings[i := r.holdings[i]];
      case None =>
        BuyAppendsNewHolding(s, o, now);
        SumAppend(CostBasis, s.holdings, NewHolding(o));
    }
  }

  /**
   * A sell realises its gain: cash plus cost basis grows by `quantity × (price − avgPrice)` of
   * the holding sold from.
   */
  lemma SellRealisesGain(s: Snapshot, o: Order, now: int, i: nat)
    requires DistinctSymbols(s.holdings)
    requires o.side == Sell
    requires i < |s.holdings| && s.holdings[i].symbol == o.symbol
    requires s.holdings[i].quantity >= o.quantity
    ensures TradeDefined(s, o) && ApplyTrade(s, o, now).Some?
    ensures var r := ApplyTrade(s, o, now).value;
      r.cash + Sum(CostBasis, r.holdings)
      == s.cash + Sum(CostBasis, s.holdings) + o.quantity * (o.price - s.holdings[i].avgPrice)
  {
    SoldCostBasis(s.holdings[i], o.quantity);
    SellExchanges(s, o, now, i, CostBasis, s.holdings[i].avgPrice);
  }

  /**
   * A sell exchanges units at their mark for cash at the trade price: total portfolio value moves
   * by `quantity × (price − currentPrice)`, and not at all when the sell is at the mark.
   */
  lemma SellRevaluesAtMark(s: Snapshot, o: Order, now: int, i: nat)
    requires DistinctSymbols(s.holdings)
    requires o.side == Sell
    requires i < |s.holdings| && s.holdings[i].symbol == o.symbol
    requires s.holdings[i].quantity >= o.quantity
    ensures TradeDefined(s, o) && ApplyTrade(s, o, now).Some?
    ensures TotalPortfolioValue(ApplyTrade(s, o, now).value)
         == TotalPortfolioValue(s) + o.quantity * (o.price - s.holdings[i].currentPrice)
  {
    SellMovesValue(s, o, now, i);
    var r := ApplyTrade(s, o, now).value;
    FoldMoves(MarketValue, s.cash, s.holdings, r.cash, r.holdings,
              o.quantity * (o.price - s.holdings[i].currentPrice));
  }

  /** Cash plus market value moves by the sale price minus the mark of the units sold. */
  lemma SellMovesValue(s: Snapshot, o: Order, now: int, i: nat)
    requires DistinctSymbols(s.holdings)
    requires o.side == Sell
    requires i < |s.holdings| && s.holdings[i].symbol == o.symbol
    requires s.holdings[i].quantity >= o.quantity
    ensures TradeDefined(s, o) && ApplyTrade(s, o, now).Some?
    ensures var r := ApplyTrade(s, o, now).value;
      r.cash + Sum(MarketValue, r.holdings)
      == s.cash + Sum(MarketValue, s.holdings) + o.quantity * (o.price - s.holdings[i].currentPrice)
  {
    SoldMarketValue(s.holdings[i], o.quantity);
    SellExchanges(s, o, now, i, MarketValue, s.holdings[i].currentPrice);
  }

  /** A fold seeded with the cash balance moves with cash plus the sum over the holdings. */
  lemma FoldMoves(f: Holding -> real, c0: real, hs0: seq<Holding>, c1: real, hs1: seq<Holding>, delta: real)
    requires c1 + Sum(f, hs1) == c0 + Sum(f, hs0) + delta
    ensures Fold(f, c1, hs1) == Fold(f, c0, hs0) + delta
  {
    FoldIsSum(f, c0, hs0);
    FoldIsSum(f, c1, hs1);
  }

  /**
   * A covered sell of `q` units at price `p` moves cash plus a per-holding figure by
   * `q × (p − mark)` when selling lowers that holding's figure by `q × mark`.
   */
  lemma SellExchanges(s: Snapshot, o: Order, now: int, i: nat, f: Holding -> real, mark: real)
    requires DistinctSymbols(s.holdings)
    requires o.side == Sell
    requires i < |s.holdings| && s.holdings[i].symbol == o.symbol
    requires s.holdings[i].quantity >= o.quantity
    requires LowersBy(f, s.holdings[i], o.quantity, mark)
    ensures TradeDefined(s, o) && ApplyTrade(s, o, now).Some?
    ensures var r := ApplyTrade(s, o, now).value;
      r.cash + Sum(f, r.holdings) == s.cash + Sum(f, s.holdings) + o.quantity * (o.price - mark)
  {
    SellLeavesSold(s, o, now, i);
    var r := ApplyTrade(s, o, now).value;
    SoldExchange(f, s.holdings, i, o.quantity, mark, o.price, s.cash, r.cash, r.holdings);
  }

  /**
   * A buy of a symbol already held re-marks the existing units at the trade price, so total
   * portfolio value moves by `held × (price − currentPrice)`; a buy of a symbol not yet held
   * leaves the total as it was.
   */
  lemma BuyRevaluesAtMark(s: Snapshot, o: Order, now: int)
    requires TradeDefined(s, o)
    requires o.side == Buy && s.cash >= o.quantity * o.price
    ensures ApplyTrade(s, o, now).Some?
    ensures var r := ApplyTrade(s, o, now).value;
      match FindHolding(s.holdings, o.symbol)
      case None => TotalPortfolioValue(r) == TotalPortfolioValue(s)
      case Some(i) =>
        TotalPortfolioValue(r)
        == TotalPortfolioValue(s) + s.holdings[i].quantity * (o.price - s.holdings[i].currentPrice)
  {
    var r := ApplyTrade(s, o, now).value;
    assert r.cash == s.cash - o.quantity * o.price && r.holdings == BoughtHoldings(s.holdings, o);
    TotalIsCashPlusInvested(s);
    TotalIsCashPlusInvested(r);
    match FindHolding(s.holdings, o.symbol)
    case None => BoughtNewValue(s.holdings, o);
    case Some(i) =>
      BoughtMergedValue(s.holdings, o, i);
      MergedValue(s.holdings[i], o.quantity, o.price);
  }

  /** A buy of a new symbol adds the bought units at the trade price. */
  lemma BoughtNewValue(hs: seq<Holding>, o: Order)
    requires FindHolding(hs, o.symbol).None?
    ensures BuyDefined(hs, o)
    ensures Sum(MarketValue, BoughtHoldings(hs, o)) == Sum(MarketValue, hs) + o.quantity * o.price
  {
    assert BoughtHoldings(hs, o) == hs + [NewHolding(o)];
    SumAppend(MarketValue, hs, NewHolding(o));
  }

  /** A buy into the holding at `i` replaces that holding's market value by the merged one. */
  lemma BoughtMergedValue(hs: seq<Holding>, o: Order, i: nat)
    requires BuyDefined(hs, o)
    requires FindHolding(hs, o.symbol) == Some(i)
    ensures Sum(MarketValue, BoughtHoldings(hs, o))
         == Sum(MarketValue, hs) - MarketValue(hs[i]) + MarketValue(MergeBuy(hs[i], o.quantity, o.price))
  {
    assert BoughtHoldings(hs, o) == hs[i := MergeBuy(hs[i], o.quantity, o.price)];
    SumUpdate(MarketValue, hs, i, MergeBuy(hs[i], o.quantity, o.price));
  }

  /** A sum of positive figures over at least one holding is positive. */
  lemma {:induction false} SumPositive(f: Holding -> real, hs: seq<Holding>)
    requires |hs| > 0
    requires forall k :: 0 <= k < |hs| ==> f(hs[k]) > 0.0
    ensures Sum(f, hs) > 0.0
  {
    if |hs| > 1 {
      SumPositive(f, hs[1..]);
    }
  }

  /**
   * The percentage shares the profit and loss figure's colour whenever something is invested,
   * and is 0 otherwise.
   */
  lemma ChangePercentTone(s: Snapshot)
    ensures TotalInvestmentValue(s) > 0.0 ==> ToneOf(ChangePercent(s)) == ToneOf(TotalGainLoss(s))
    ensures TotalInvestmentValue(s) <= 0.0 ==> ChangePercent(s) == 0.0
  {
    var invested, gain := TotalInvestmentValue(s), TotalGainLoss(s);
    if invested > 0.0 {
      if gain >= 0.0 {
        assert gain / invested >= 0.0;
      } else {
        assert gain / invested < 0.0;
      }
    }
  }

  /**
   * Because the percentage is taken on market value rather than on cost, it stays below 100 for
   * any non-empty ledger of positive quantities and prices, however far prices rise.
   */
  lemma ChangePercentBelowHundred(s: Snapshot)
    requires |s.holdings| > 0
    requires forall k :: 0 <= k < |s.holdings| ==> PositiveHolding(s.holdings[k])
    ensures TotalInvestmentValue(s) > 0.0
    ensures ChangePercent(s) < 100.0
  {
    forall k | 0 <= k < |s.holdings|
      ensures MarketValue(s.holdings[k]) > 0.0 && CostBasis(s.holdings[k]) > 0.0
    {
      var h := s.holdings[k];
      assert h.quantity > 0.0 && h.currentPrice > 0.0 && h.avgPrice > 0.0;
    }
    SumPositive(MarketValue, s.holdings);
    SumPositive(CostBasis, s.holdings);
    TotalIsCashPlusInvested(s);
    GainLossIsInvestedMinusCost(s);
    var invested, gain := TotalInvestmentValue(s), TotalGainLoss(s);
    assert gain < invested;
    assert gain / invested < 1.0;
  }

  /** The colour of a holding's percentage follows the percentage's sign when the average is positive. */
  lemma ToneFollowsPercent(h: Holding)
    requires h.avgPrice > 0.0
    ensures HoldingPercent(h).Some?
    ensures PriceTone(h) == Green <==> HoldingPercent(h).value >= 0.0
  {
    var d := h.currentPrice - h.avgPrice;
    assert HoldingPercent(h).value == d / h.avgPrice * 100.0;
    if d >= 0.0 {
      assert d / h.avgPrice >= 0.0;
    } else {
      assert d / h.avgPrice < 0.0;
    }
  }
}

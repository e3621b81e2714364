/**
 * The dashboard, src/pages/Home.tsx: the three quick statistics with their change figures, and
 * the "Your Holdings" card with the first three holdings and each one's gain badge.
 */
module Home {
  import opened Wrappers
  import opened PortfolioContext
  import opened Totals

  /** A quick statistic; the cash card carries no change figures. */
  datatype Stat = Stat(value: real, change: Option<real>, changePercent: Option<real>)

  /** `quickStats`: portfolio value, available cash and total investments, in that order. */
  function QuickStats(s: Snapshot): seq<Stat> {
    [ Stat(TotalPortfolioValue(s), Some(TotalGainLoss(s)), Some(ChangePercent(s))),
      Stat(s.cash, None, None),
      Stat(TotalInvestmentValue(s), Some(TotalGainLoss(s)), Some(ChangePercent(s))) ]
  }

  /**
   * The statistics add up: portfolio value is available cash plus total investments, both
   * change figures are the profit and loss, and the percentage is coloured as the figure is
   * whenever something is invested.
   */
  lemma QuickStatsAgree(s: Snapshot)
    ensures var st := QuickStats(s);
      && |st| == 3
      && st[0].value == st[1].value + st[2].value
      && st[0].change == st[2].change == Some(TotalInvestmentValue(s) - Sum(CostBasis, s.holdings))
      && st[0].changePercent == st[2].changePercent
      && (st[2].value > 0.0 ==> ToneOf(st[2].changePercent.value) == ToneOf(st[2].change.value))
      && (st[2].value <= 0.0 ==> st[2].changePercent == Some(0.0))
  {
    TotalIsCashPlusInvested(s);
    GainLossIsInvestedMinusCost(s);
    ChangePercentTone(s);
  }

  /** The "Your Holdings" card: absent with no holdings, else `holdings.slice(0, 3)`. */
  function RecentHoldings(hs: seq<Holding>): Option<seq<Holding>> {
    if |hs| > 0 then Some(Take(hs, 3)) else None
  }

  /** The card appears exactly when something is held and shows the oldest holdings, at most three. */
  lemma RecentHoldingsShape(hs: seq<Holding>)
    ensures RecentHoldings(hs).Some? <==> |hs| > 0
    ensures RecentHoldings(hs).Some? ==>
      var shown := RecentHoldings(hs).value;
      |shown| == (if |hs| < 3 then |hs| else 3) && shown == hs[..|shown|]
  {
  }

  /** A row's gain badge: its colour and whether a '+' precedes the amount. */
  datatype Badge = Badge(tone: GainTone, plus: bool)

  /** `gainLoss >= 0 ? 'text-green-600' : 'text-red-600'` and `gainLoss >= 0 ? '+' : ''`. */
  function GainBadge(h: Holding): Badge {
    var gain := Gain(h);
    Badge(ToneOf(gain), gain >= 0.0)
  }

  /**
   * The badge here is coloured by the gain, the profile page's percentage by the price
   * difference; for a holding of positive quantity the two always agree, and a '+' shows exactly
   * when the badge is green.
   */
  lemma BadgeAgreesWithProfile(h: Holding)
    requires h.quantity > 0.0
    ensures GainBadge(h).tone == PriceTone(h)
    ensures GainBadge(h).plus <==> GainBadge(h).tone == Green
  {
    var d := h.currentPrice - h.avgPrice;
    if d >= 0.0 {
      assert d * h.quantity >= 0.0;
    } else {
      assert d * h.quantity < 0.0;
    }
  }

  /** The gains on the card and those of the holdings not shown make up the total profit and loss. */
  lemma RecentGainsPartOfTotal(s: Snapshot)
    requires |s.holdings| > 0
    ensures var shown := RecentHoldings(s.holdings).value;
      Sum(Gain, shown) + Sum(Gain, s.holdings[|shown|..]) == TotalGainLoss(s)
  {
    var shown := RecentHoldings(s.holdings).value;
    assert s.holdings == shown + s.holdings[|shown|..];
    SumConcat(Gain, shown, s.holdings[|shown|..]);
    GainLossIsInvestedMinusCost(s);
  }
}

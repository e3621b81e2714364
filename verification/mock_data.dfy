/**
 * The static instrument catalog (`investments` in src/data/mockData.ts).
 * Returns, volatilities, expense ratios and prices are exact decimals, written as `real` literals.
 */
module MockData {

  datatype AssetClass = Equity | Debt | Government
  datatype RiskLevel = Low | Medium | High

  /** An instrument of the catalog; `kind` is the source's `type` field. */
  datatype Investment = Investment(
    symbol: string,
    name: string,
    kind: AssetClass,
    threeYearReturn: real,
    volatility: real,
    expenseRatio: real,
    currentPrice: real,
    riskLevel: RiskLevel,
    minInvestment: int)

  const Investments: seq<Investment> := [
    // Equity instruments
    Investment("NIFTY50ETF", "Nifty 50 ETF", Equity, 12.5, 16.2, 0.5, 185.50, Medium, 1000),
    Investment("ICICIPRU", "ICICI Prudential Bluechip Fund", Equity, 14.8, 18.5, 1.05, 62.30, Medium, 5000),
    Investment("HDFCTOP100", "HDFC Top 100 Fund", Equity, 13.2, 17.8, 1.25, 745.20, Medium, 5000),
    Investment("MOTILALMIDCAP", "Motilal Oswal Midcap Fund", Equity, 18.6, 24.3, 1.8, 89.15, High, 5000),
    Investment("SBISMALLCAP", "SBI Small Cap Fund", Equity, 22.4, 28.7, 1.95, 156.80, High, 5000),
    // Debt instruments
    Investment("ICICISHTERM", "ICICI Short Term Fund", Debt, 6.8, 2.1, 0.65, 28.45, Low, 5000),
    Investment("HDFCCORP", "HDFC Corporate Bond Fund", Debt, 7.2, 2.8, 0.45, 22.15, Low, 5000),
    Investment("AXISCREDIT", "Axis Credit Risk Fund", Debt, 8.5, 4.2, 1.15, 19.85, Medium, 5000),
    Investment("UTILTDURATION", "UTI Medium Duration Fund", Debt, 7.8, 3.5, 0.85, 25.60, Low, 5000),
    // Government securities
    Investment("GILT10Y", "10-Year Government Bond", Government, 6.2, 3.8, 0.25, 102.50, Low, 10000),
    Investment("SBIGILTSEC", "SBI Magnum Gilt Fund", Government, 5.9, 4.1, 0.55, 48.25, Low, 5000),
    Investment("ICICIGILT", "ICICI Gilt Fund", Government, 6.0, 3.9, 0.6, 18.90, Low, 5000)
  ]

  /** No two catalog entries share a symbol, so a symbol identifies an instrument. */
  lemma SymbolsDistinct()
    ensures |Investments| == 12
    ensures forall i, j :: 0 <= i < j < |Investments| ==> Investments[i].symbol != Investments[j].symbol
  {
  }

  /** Five equity, then four debt, then three government instruments. */
  lemma CatalogLayout()
    ensures |Investments| == 12
    ensures forall i :: 0 <= i < 5 ==> Investments[i].kind == Equity
    ensures forall i :: 5 <= i < 9 ==> Investments[i].kind == Debt
    ensures forall i :: 9 <= i < 12 ==> Investments[i].kind == Government
  {
  }

  /** No equity is low-risk. */
  lemma NoLowRiskEquity()
    ensures forall inv :: inv in Investments && inv.kind == Equity ==> inv.riskLevel != Low
  {
  }

  /** Every price, return, volatility and expense ratio is positive. */
  lemma FiguresPositive()
    ensures forall inv :: inv in Investments ==>
      inv.currentPrice > 0.0 && inv.threeYearReturn > 0.0 && inv.volatility > 0.0 && inv.expenseRatio > 0.0
  {
  }
}

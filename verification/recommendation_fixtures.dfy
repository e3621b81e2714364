/**
 * The recommendation lists the page shows for the catalog of src/data/mockData.ts. Each list is
 * derived from the catalog's figures (kinds, risk levels, returns, volatilities by position)
 * through block lemmas about the filters and the insertion sort.
 */
module RecommendationFixtures {
  import opened Wrappers
  import opened MockData
  import opened Recommendations

  // ---------------------------------------------------------------------------------------------
  // Filters over blocks of a catalog

  lemma {:induction false} OfKindAppend(xs: seq<Investment>, ys: seq<Investment>, kind: AssetClass)
    ensures OfKind(xs + ys, kind) == OfKind(xs, kind) + OfKind(ys, kind)
  {
    if xs == [] {
      assert xs + ys == ys;
    } else {
      var head := if xs[0].kind == kind then [xs[0]] else [];
      assert (xs + ys)[0] == xs[0];
      assert (xs + ys)[1..] == xs[1..] + ys;
      OfKindAppend(xs[1..], ys, kind);
      calc {
        OfKind(xs + ys, kind);
        head + OfKind(xs[1..] + ys, kind);
        head + (OfKind(xs[1..], kind) + OfKind(ys, kind));
        (head + OfKind(xs[1..], kind)) + OfKind(ys, kind);
      }
    }
  }

  lemma {:induction false} OfKindAll(xs: seq<Investment>, kind: AssetClass)
    requires forall k :: 0 <= k < |xs| ==> xs[k].kind == kind
    ensures OfKind(xs, kind) == xs
  {
    if xs != [] {
      OfKindAll(xs[1..], kind);
    }
  }

  lemma {:induction false} OfKindNone(xs: seq<Investment>, kind: AssetClass)
    requires forall k :: 0 <= k < |xs| ==> xs[k].kind != kind
    ensures OfKind(xs, kind) == []
  {
    if xs != [] {
      OfKindNone(xs[1..], kind);
    }
  }

  /** In a catalog laid out in blocks, the filter for a kind is that kind's block. */
  lemma KindBlock(before: seq<Investment>, block: seq<Investment>, after: seq<Investment>, kind: AssetClass)
    requires forall k :: 0 <= k < |before| ==> before[k].kind != kind
    requires forall k :: 0 <= k < |block| ==> block[k].kind == kind
    requires forall k :: 0 <= k < |after| ==> after[k].kind != kind
    ensures OfKind(before + block + after, kind) == block
  {
    OfKindNone(before, kind);
    OfKindAll(block, kind);
    OfKindNone(after, kind);
    OfKindAppend(before, block, kind);
    OfKindAppend(before + block, after, kind);
    assert [] + block + [] == block;
  }

  lemma {:induction false} GatedAppend(xs: seq<Investment>, ys: seq<Investment>, score: int)
    ensures Gated(xs + ys, score) == Gated(xs, score) + Gated(ys, score)
  {
    if xs == [] {
      assert xs + ys == ys;
    } else {
      var head := if Eligible(score, xs[0]) then [xs[0]] else [];
      assert (xs + ys)[0] == xs[0];
      assert (xs + ys)[1..] == xs[1..] + ys;
      GatedAppend(xs[1..], ys, score);
      calc {
        Gated(xs + ys, score);
        head + Gated(xs[1..] + ys, score);
        head + (Gated(xs[1..], score) + Gated(ys, score));
        (head + Gated(xs[1..], score)) + Gated(ys, score);
      }
    }
  }

  lemma {:induction false} GatedAll(xs: seq<Investment>, score: int)
    requires forall k :: 0 <= k < |xs| ==> Eligible(score, xs[k])
    ensures Gated(xs, score) == xs
  {
    if xs != [] {
      GatedAll(xs[1..], score);
    }
  }

  lemma {:induction false} GatedNone(xs: seq<Investment>, score: int)
    requires forall k :: 0 <= k < |xs| ==> !Eligible(score, xs[k])
    ensures Gated(xs, score) == []
  {
    if xs != [] {
      GatedNone(xs[1..], score);
    }
  }

  // ---------------------------------------------------------------------------------------------
  // The catalog's figures by position

  /** The layout and the figures of the catalog that the lists depend on. */
  predicate CatalogShape(c: seq<Investment>) {
    && |c| == 12
    && c[0].kind == Equity && c[1].kind == Equity && c[2].kind == Equity
    && c[3].kind == Equity && c[4].kind == Equity
    && c[5].kind == Debt && c[6].kind == Debt && c[7].kind == Debt && c[8].kind == Debt
    && c[9].kind == Government && c[10].kind == Government && c[11].kind == Government
    && c[0].riskLevel == Medium && c[1].riskLevel == Medium && c[2].riskLevel == Medium
    && c[3].riskLevel == High && c[4].riskLevel == High
    && c[0].threeYearReturn == 12.5 && c[1].threeYearReturn == 14.8 && c[2].threeYearReturn == 13.2
    && c[3].threeYearReturn == 18.6 && c[4].threeYearReturn == 22.4
    && c[0].volatility == 16.2 && c[1].volatility == 18.5 && c[2].volatility == 17.8
    && c[5].threeYearReturn == 6.8 && c[6].threeYearReturn == 7.2
    && c[7].threeYearReturn == 8.5 && c[8].threeYearReturn == 7.8
    && c[9].threeYearReturn == 6.2 && c[10].threeYearReturn == 5.9 && c[11].threeYearReturn == 6.0
  }

  lemma CatalogHasShape()
    ensures CatalogShape(Investments)
  {
  }

  lemma DebtBlock(c: seq<Investment>)
    requires CatalogShape(c)
    ensures OfKind(c, Debt) == [c[5], c[6], c[7], c[8]]
  {
    var block := [c[5], c[6], c[7], c[8]];
    assert c == c[..5] + block + c[9..];
    KindBlock(c[..5], block, c[9..], Debt);
  }

  lemma GovernmentBlock(c: seq<Investment>)
    requires CatalogShape(c)
    ensures OfKind(c, Government) == [c[9], c[10], c[11]]
  {
    var block := [c[9], c[10], c[11]];
    assert c == c[..9] + block + [];
    KindBlock(c[..9], block, [], Government);
  }

  lemma EquityBlock(c: seq<Investment>)
    requires CatalogShape(c)
    ensures OfKind(c, Equity) == [c[0], c[1], c[2], c[3], c[4]]
  {
    var block := [c[0], c[1], c[2], c[3], c[4]];
    assert c == [] + block + c[5..];
    KindBlock([], block, c[5..], Equity);
  }

  // ---------------------------------------------------------------------------------------------
  // The stable sort on the catalog's blocks, one insertion at a time

  lemma InsertHere(k: SortKey, x: Investment, xs: seq<Investment>)
    requires xs == [] || Key(k, x) <= Key(k, xs[0])
    ensures Insert(k, x, xs) == [x] + xs
  {
  }

  lemma InsertPast(k: SortKey, x: Investment, y: Investment, ys: seq<Investment>, rest: seq<Investment>)
    requires Key(k, y) < Key(k, x)
    requires Insert(k, x, ys) == rest
    ensures Insert(k, x, [y] + ys) == [y] + rest
  {
    assert ([y] + ys)[1..] == ys;
  }

  lemma SortStep(k: SortKey, x: Investment, xs: seq<Investment>, sorted: seq<Investment>, r: seq<Investment>)
    requires SortBy(k, xs) == sorted && Insert(k, x, sorted) == r
    ensures SortBy(k, [x] + xs) == r
  {
    assert ([x] + xs)[1..] == xs;
  }

  /** Debt returns 6.8, 7.2, 8.5, 7.8 sort to the third, fourth, second, first. */
  lemma DebtOrder(a: Investment, b: Investment, c: Investment, e: Investment)
    requires a.threeYearReturn == 6.8 && b.threeYearReturn == 7.2
    requires c.threeYearReturn == 8.5 && e.threeYearReturn == 7.8
    ensures SortBy(DescReturn, [a, b, c, e]) == [c, e, b, a]
    ensures TopK(DescReturn, [a, b, c, e], 2) == [c, e]
  {
    var k := DescReturn;
    InsertHere(k, e, []);
    SortStep(k, e, [], [], [e]);
    InsertHere(k, c, [e]);
    SortStep(k, c, [e], [e], [c, e]);
    InsertHere(k, b, []);
    InsertPast(k, b, e, [], [b]);
    InsertPast(k, b, c, [e], [e, b]);
    SortStep(k, b, [c, e], [c, e], [c, e, b]);
    InsertHere(k, a, []);
    InsertPast(k, a, b, [], [a]);
    InsertPast(k, a, e, [b], [b, a]);
    InsertPast(k, a, c, [e, b], [e, b, a]);
    SortStep(k, a, [b, c, e], [c, e, b], [c, e, b, a]);
    assert [c, e, b, a][..2] == [c, e];
  }

  /** Government returns 6.2, 5.9, 6.0 sort to the first, third, second. */
  lemma GovernmentOrder(a: Investment, b: Investment, c: Investment)
    requires a.threeYearReturn == 6.2 && b.threeYearReturn == 5.9 && c.threeYearReturn == 6.0
    ensures SortBy(DescReturn, [a, b, c]) == [a, c, b]
    ensures TopK(DescReturn, [a, b, c], 2) == [a, c]
  {
    var k := DescReturn;
    InsertHere(k, c, []);
    SortStep(k, c, [], [], [c]);
    InsertHere(k, b, []);
    InsertPast(k, b, c, [], [b]);
    SortStep(k, b, [c], [c], [c, b]);
    InsertHere(k, a, [c, b]);
    SortStep(k, a, [b, c], [c, b], [a, c, b]);
    assert [a, c, b][..2] == [a, c];
  }

  /** Returns 12.5, 14.8, 13.2 sort to the second, third, first. */
  lemma ModerateByReturn(a: Investment, b: Investment, c: Investment)
    requires a.threeYearReturn == 12.5 && b.threeYearReturn == 14.8 && c.threeYearReturn == 13.2
    ensures SortBy(DescReturn, [a, b, c]) == [b, c, a]
    ensures TopK(DescReturn, [a, b, c], 3) == [b, c, a]
  {
    var k := DescReturn;
    InsertHere(k, c, []);
    SortStep(k, c, [], [], [c]);
    InsertHere(k, b, [c]);
    SortStep(k, b, [c], [c], [b, c]);
    InsertHere(k, a, []);
    InsertPast(k, a, c, [], [a]);
    InsertPast(k, a, b, [c], [c, a]);
    SortStep(k, a, [b, c], [b, c], [b, c, a]);
  }

  /** Volatilities 16.2, 18.5, 17.8 sort to the first, third, second. */
  lemma ModerateByVolatility(a: Investment, b: Investment, c: Investment)
    requires a.volatility == 16.2 && b.volatility == 18.5 && c.volatility == 17.8
    ensures SortBy(AscVolatility, [a, b, c]) == [a, c, b]
    ensures TopK(AscVolatility, [a, b, c], 3) == [a, c, b]
  {
    var k := AscVolatility;
    InsertHere(k, c, []);
    SortStep(k, c, [], [], [c]);
    InsertHere(k, b, []);
    InsertPast(k, b, c, [], [b]);
    SortStep(k, b, [c], [c], [c, b]);
    InsertHere(k, a, [c, b]);
    SortStep(k, a, [b, c], [c, b], [a, c, b]);
    assert [a, c, b][..2] == [a, c];
  }

  /** Returns 12.5, 14.8, 13.2, 18.6, 22.4 sort to the fifth, fourth, second, third, first. */
  lemma AllEquityByReturn(a: Investment, b: Investment, c: Investment, d: Investment, e: Investment)
    requires a.threeYearReturn == 12.5 && b.threeYearReturn == 14.8 && c.threeYearReturn == 13.2
    requires d.threeYearReturn == 18.6 && e.threeYearReturn == 22.4
    ensures SortBy(DescReturn, [a, b, c, d, e]) == [e, d, b, c, a]
    ensures TopK(DescReturn, [a, b, c, d, e], 3) == [e, d, b]
  {
    var k := DescReturn;
    InsertHere(k, e, []);
    SortStep(k, e, [], [], [e]);
    InsertHere(k, d, []);
    InsertPast(k, d, e, [], [d]);
    SortStep(k, d, [e], [e], [e, d]);
    InsertHere(k, c, []);
    InsertPast(k, c, d, [], [c]);
    InsertPast(k, c, e, [d], [d, c]);
    SortStep(k, c, [d, e], [e, d], [e, d, c]);
    InsertHere(k, b, [c]);
    InsertPast(k, b, d, [c], [b, c]);
    InsertPast(k, b, e, [d, c], [d, b, c]);
    SortStep(k, b, [c, d, e], [e, d, c], [e, d, b, c]);
    InsertHere(k, a, []);
    InsertPast(k, a, c, [], [a]);
    InsertPast(k, a, b, [c], [c, a]);
    InsertPast(k, a, d, [b, c], [b, c, a]);
    InsertPast(k, a, e, [d, b, c], [d, b, c, a]);
    SortStep(k, a, [b, c, d, e], [e, d, b, c], [e, d, b, c, a]);
    assert [e, d, b, c, a][..3] == [e, d, b];
  }

  // ---------------------------------------------------------------------------------------------
  // The lists for a catalog of that shape

  lemma DebtPicksOf(c: seq<Investment>, score: int)
    requires CatalogShape(c)
    ensures Recommend(c, Some(score)).debt == [c[7], c[8]]
  {
    RecommendUnfolds(c, score);
    DebtBlock(c);
    DebtOrder(c[5], c[6], c[7], c[8]);
  }

  lemma GovernmentPicksOf(c: seq<Investment>, score: int)
    requires CatalogShape(c)
    ensures Recommend(c, Some(score)).government == [c[9], c[11]]
  {
    RecommendUnfolds(c, score);
    GovernmentBlock(c);
    GovernmentOrder(c[9], c[10], c[11]);
  }

  /** The gate up to 30 admits only low-risk entries, so it rejects five entries that are not. */
  lemma CautiousGate(a: Investment, b: Investment, c: Investment, d: Investment, e: Investment, score: int)
    requires a.riskLevel != Low && b.riskLevel != Low && c.riskLevel != Low
    requires d.riskLevel != Low && e.riskLevel != Low
    requires score <= 30
    ensures Gated([a, b, c, d, e], score) == []
  {
    GatedNone([a, b, c, d, e], score);
  }

  /** The gate for 31..50 admits the three medium-risk equities and rejects the two high-risk ones. */
  lemma ModerateGate(a: Investment, b: Investment, c: Investment, d: Investment, e: Investment, score: int)
    requires a.riskLevel == Medium && b.riskLevel == Medium && c.riskLevel == Medium
    requires d.riskLevel == High && e.riskLevel == High
    requires 30 < score <= 50
    ensures Gated([a, b, c, d, e], score) == [a, b, c]
  {
    assert [a, b, c, d, e] == [a, b, c] + [d, e];
    GatedAppend([a, b, c], [d, e], score);
    GatedAll([a, b, c], score);
    GatedNone([d, e], score);
    assert [a, b, c] + [] == [a, b, c];
  }

  lemma EquityPicksOf(c: seq<Investment>, score: int)
    requires CatalogShape(c)
    ensures score <= 30 ==> Recommend(c, Some(score)).equity == []
    ensures 30 < score <= 40 ==> Recommend(c, Some(score)).equity == [c[0], c[2], c[1]]
    ensures 40 < score <= 50 ==> Recommend(c, Some(score)).equity == [c[1], c[2], c[0]]
    ensures 50 < score ==> Recommend(c, Some(score)).equity == [c[4], c[3], c[1]]
  {
    var block := [c[0], c[1], c[2], c[3], c[4]];
    RecommendUnfolds(c, score);
    assert EquityCandidates(c, score) == Gated(block, score) by {
      EquityBlock(c);
    }
    if score <= 30 {
      CautiousGate(c[0], c[1], c[2], c[3], c[4], score);
    } else if score <= 40 {
      ModerateGate(c[0], c[1], c[2], c[3], c[4], score);
      ModerateByVolatility(c[0], c[1], c[2]);
    } else if score <= 50 {
      ModerateGate(c[0], c[1], c[2], c[3], c[4], score);
      ModerateByReturn(c[0], c[1], c[2]);
    } else {
      GatedAll(block, score);
      AllEquityByReturn(c[0], c[1], c[2], c[3], c[4]);
    }
  }

  // ---------------------------------------------------------------------------------------------
  // The catalog itself

  /**
   * For any risk profile the debt picks are AXISCREDIT (8.5) and UTILTDURATION (7.8), and the
   * government picks GILT10Y (6.2) and ICICIGILT (6.0), the entries at 7, 8, 9 and 11.
   */
  lemma CatalogBondPicks(score: int)
    ensures var c := Investments;
      [c[7], c[8]] == Recommend(c, Some(score)).debt && [c[9], c[11]] == Recommend(c, Some(score)).government
  {
    CatalogHasShape();
    DebtPicksOf(Investments, score);
    GovernmentPicksOf(Investments, score);
  }

  /**
   * The equity picks for the catalog: none up to 30 (no equity is low risk); by volatility up to
   * 40 (NIFTY50ETF, HDFCTOP100, ICICIPRU) and by return up to 50 (ICICIPRU, HDFCTOP100,
   * NIFTY50ETF) among the three medium-risk funds; by return among all five above
   * (SBISMALLCAP, MOTILALMIDCAP, ICICIPRU).
   */
  lemma CatalogEquityPicks(score: int)
    ensures var c := Investments;
      && (score <= 30 ==> [] == Recommend(c, Some(score)).equity)
      && (30 < score <= 40 ==> [c[0], c[2], c[1]] == Recommend(c, Some(score)).equity)
      && (40 < score <= 50 ==> [c[1], c[2], c[0]] == Recommend(c, Some(score)).equity)
      && (50 < score ==> [c[4], c[3], c[1]] == Recommend(c, Some(score)).equity)
  {
    CatalogHasShape();
    EquityPicksOf(Investments, score);
  }
}

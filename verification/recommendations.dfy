/**
 * The recommendation lists of src/pages/Recommendations.tsx: a risk gate on equities, a stable
 * sort whose key depends on the score, the first three (equity) or two (debt, government)
 * entries of each sorted list, and the buy order issued by an "Invest Now" button.
 */
module Recommendations {
  import opened Wrappers
  import opened MockData
  import PortfolioContext

  // ---------------------------------------------------------------------------------------------
  // The risk gate

  /** The equity gate: only low risk up to 30, low or medium up to 50, everything above. */
  predicate Eligible(score: int, inv: Investment) {
    if score <= 30 then inv.riskLevel == Low
    else if score <= 50 then inv.riskLevel == Low || inv.riskLevel == Medium
    else true
  }

  /** A higher score never closes the gate on an instrument it let through. */
  lemma GateMonotone(s1: int, s2: int, inv: Investment)
    requires s1 <= s2 && Eligible(s1, inv)
    ensures Eligible(s2, inv)
  {
  }

  /** The gate never admits a high-risk instrument up to 50 and admits everything above 50. */
  lemma GateBands(score: int, inv: Investment)
    ensures score <= 50 && inv.riskLevel == High ==> !Eligible(score, inv)
    ensures score <= 30 && inv.riskLevel == Medium ==> !Eligible(score, inv)
    ensures score > 30 && inv.riskLevel != High ==> Eligible(score, inv)
    ensures score > 50 ==> Eligible(score, inv)
  {
  }

  // ---------------------------------------------------------------------------------------------
  // The stable sort

  /** The two comparators of the page. */
  datatype SortKey = AscVolatility | DescReturn

  /**
   * The comparator as an ascending key: `a.volatility - b.volatility` sorts by volatility,
   * `b.threeYearReturn - a.threeYearReturn` by the negated return.
   */
  function Key(k: SortKey, inv: Investment): real {
    match k
    case AscVolatility => inv.volatility
    case DescReturn => -inv.threeYearReturn
  }

  /** The equity comparator: lowest volatility first up to 40, highest return first above. */
  function EquityKey(score: int): SortKey {
    if score <= 40 then AscVolatility else DescReturn
  }

  predicate Sorted(k: SortKey, xs: seq<Investment>) {
    forall i, j :: 0 <= i < j < |xs| ==> Key(k, xs[i]) <= Key(k, xs[j])
  }

  /** Places `x` just before the first entry whose key is not below its own. */
  function Insert(k: SortKey, x: Investment, xs: seq<Investment>): seq<Investment> {
    if xs == [] then [x]
    else if Key(k, x) <= Key(k, xs[0]) then [x] + xs
    else [xs[0]] + Insert(k, x, xs[1..])
  }

  /**
   * `sort(comparator)`: JavaScript's sort is stable, modelled as an insertion sort that puts
   * every entry ahead of the later entries with the same key.
   */
  function SortBy(k: SortKey, xs: seq<Investment>): seq<Investment> {
    if xs == [] then [] else Insert(k, xs[0], SortBy(k, xs[1..]))
  }

  lemma {:induction false} InsertPermutes(k: SortKey, x: Investment, xs: seq<Investment>)
    ensures multiset(Insert(k, x, xs)) == multiset(xs) + multiset{x}
  {
    if xs != [] && Key(k, xs[0]) < Key(k, x) {
      InsertPermutes(k, x, xs[1..]);
      assert xs == [xs[0]] + xs[1..];
    }
  }

  /** Inserting into a sorted list keeps it sorted. */
  lemma {:induction false} InsertSorted(k: SortKey, x: Investment, xs: seq<Investment>)
    requires Sorted(k, xs)
    ensures Sorted(k, Insert(k, x, xs))
  {
    if xs != [] && Key(k, xs[0]) < Key(k, x) {
      var rest := Insert(k, x, xs[1..]);
      InsertSorted(k, x, xs[1..]);
      InsertPermutes(k, x, xs[1..]);
      forall y | y in rest
        ensures Key(k, xs[0]) <= Key(k, y)
      {
        assert y in multiset(rest);
        if y != x {
          assert y in multiset(xs[1..]);
        }
      }
    }
  }

  /** The sort rearranges its input: same entries, same multiplicities. */
  lemma {:induction false} SortByPermutes(k: SortKey, xs: seq<Investment>)
    ensures multiset(SortBy(k, xs)) == multiset(xs)
    ensures |SortBy(k, xs)| == |xs|
  {
    if xs != [] {
      var rest := SortBy(k, xs[1..]);
      assert multiset(SortBy(k, xs)) == multiset(xs) by {
        assert multiset(xs) == multiset(xs[1..]) + multiset{xs[0]} by {
          assert xs == [xs[0]] + xs[1..];
        }
        SortByPermutes(k, xs[1..]);
        InsertPermutes(k, xs[0], rest);
      }
      assert |SortBy(k, xs)| == |multiset(SortBy(k, xs))|;
    }
  }

  /** The sort's output is ascending by the key. */
  lemma {:induction false} SortBySorted(k: SortKey, xs: seq<Investment>)
    ensures Sorted(k, SortBy(k, xs))
  {
    if xs != [] {
      SortBySorted(k, xs[1..]);
      InsertSorted(k, xs[0], SortBy(k, xs[1..]));
    }
  }

  /** The entries of `xs` whose key is `v`, in their order in `xs`. */
  function WithKey(k: SortKey, xs: seq<Investment>, v: real): seq<Investment> {
    if xs == [] then [] else (if Key(k, xs[0]) == v then [xs[0]] else []) + WithKey(k, xs[1..], v)
  }

  lemma {:induction false} WithKeyAppend(k: SortKey, xs: seq<Investment>, ys: seq<Investment>, v: real)
    ensures WithKey(k, xs + ys, v) == WithKey(k, xs, v) + WithKey(k, ys, v)
  {
    if xs == [] {
      assert xs + ys == ys;
    } else {
      var head := if Key(k, xs[0]) == v then [xs[0]] else [];
      assert (xs + ys)[0] == xs[0];
      assert (xs + ys)[1..] == xs[1..] + ys;
      WithKeyAppend(k, xs[1..], ys, v);
      calc {
        WithKey(k, xs + ys, v);
        head + WithKey(k, xs[1..] + ys, v);
        head + (WithKey(k, xs[1..], v) + WithKey(k, ys, v));
        (head + WithKey(k, xs[1..], v)) + WithKey(k, ys, v);
      }
    }
  }

  /** Inserting `x` puts it ahead of every entry of equal key. */
  lemma {:induction false} InsertWithKey(k: SortKey, x: Investment, xs: seq<Investment>, v: real)
    ensures WithKey(k, Insert(k, x, xs), v) == (if Key(k, x) == v then [x] else []) + WithKey(k, xs, v)
  {
    if xs == [] {
    } else if Key(k, x) <= Key(k, xs[0]) {
      assert ([x] + xs)[1..] == xs;
    } else {
      InsertWithKey(k, x, xs[1..], v);
      assert ([xs[0]] + Insert(k, x, xs[1..]))[1..] == Insert(k, x, xs[1..]);
    }
  }

  /** Stability: among entries of equal key, the sorted list keeps the original order. */
  lemma {:induction false} SortStable(k: SortKey, xs: seq<Investment>, v: real)
    ensures WithKey(k, SortBy(k, xs), v) == WithKey(k, xs, v)
  {
    if xs != [] {
      SortStable(k, xs[1..], v);
      InsertWithKey(k, xs[0], SortBy(k, xs[1..]), v);
    }
  }

  /** `sort(comparator).slice(0, n)`: the first `n` entries of the stable sort. */
  function TopK(k: SortKey, xs: seq<Investment>, n: nat): seq<Investment> {
    Take(SortBy(k, xs), n)
  }

  /** The selection is sorted, drawn from `xs`, stable per key, and no left-out entry ranks ahead. */
  lemma TopKSelects(k: SortKey, xs: seq<Investment>, n: nat)
    ensures |TopK(k, xs, n)| == if |xs| < n then |xs| else n
    ensures Sorted(k, TopK(k, xs, n))
    ensures multiset(TopK(k, xs, n)) <= multiset(xs)
    ensures forall v :: WithKey(k, TopK(k, xs, n), v) <= WithKey(k, xs, v)
    ensures forall x, y :: x in TopK(k, xs, n) && y in xs && y !in TopK(k, xs, n) ==> Key(k, x) <= Key(k, y)
  {
    var s := SortBy(k, xs);
    var r := TopK(k, xs, n);
    SortByPermutes(k, xs);
    SortBySorted(k, xs);
    assert |s| == |multiset(s)| == |multiset(xs)| == |xs|;
    assert s == r + s[|r|..];
    assert multiset(s) == multiset(r) + multiset(s[|r|..]);
    forall v
      ensures WithKey(k, r, v) <= WithKey(k, xs, v)
    {
      WithKeyAppend(k, r, s[|r|..], v);
      SortStable(k, xs, v);
    }
    PrefixRanksAhead(k, s, |r|, xs);
  }

  /** In a sorted permutation of `xs`, every entry of a prefix ranks no later than any entry of `xs` outside it. */
  lemma PrefixRanksAhead(k: SortKey, s: seq<Investment>, m: nat, xs: seq<Investment>)
    requires m <= |s|
    requires Sorted(k, s)
    requires multiset(s) == multiset(xs)
    ensures forall x, y :: x in s[..m] && y in xs && y !in s[..m] ==> Key(k, x) <= Key(k, y)
  {
    forall x, y | x in s[..m] && y in xs && y !in s[..m]
      ensures Key(k, x) <= Key(k, y)
    {
      assert y in multiset(s);
      var i :| 0 <= i < m && s[..m][i] == x;
      var j :| 0 <= j < |s| && s[j] == y;
      assert j >= m;
    }
  }

  // ---------------------------------------------------------------------------------------------
  // Distinct entries

  predicate Distinct(xs: seq<Investment>) {
    forall i, j :: 0 <= i < j < |xs| ==> xs[i] != xs[j]
  }

  lemma {:induction false} DistinctCounts(xs: seq<Investment>)
    requires Distinct(xs)
    ensures forall x :: multiset(xs)[x] <= 1
  {
    if xs != [] {
      assert xs == [xs[0]] + xs[1..];
      DistinctCounts(xs[1..]);
      assert xs[0] !in xs[1..];
    }
  }

  /** A sub-multiset of a list without repeats has no repeats either. */
  lemma SubDistinct(r: seq<Investment>, xs: seq<Investment>)
    requires multiset(r) <= multiset(xs)
    ensures Distinct(xs) ==> Distinct(r)
  {
    if Distinct(xs) {
      DistinctCounts(xs);
      forall i, j | 0 <= i < j < |r|
        ensures r[i] != r[j]
      {
        EqualEntriesCount(r, i, j);
      }
    }
  }

  /** Two equal entries at different positions count twice. */
  lemma EqualEntriesCount(r: seq<Investment>, i: nat, j: nat)
    requires i < j < |r|
    ensures r[i] == r[j] ==> multiset(r)[r[i]] >= 2
  {
    assert r == r[..j] + r[j..];
    assert multiset(r) == multiset(r[..j]) + multiset(r[j..]);
    assert r[i] in r[..j] && r[j] in r[j..];
  }

  // ---------------------------------------------------------------------------------------------
  // The three lists

  datatype RecommendationLists = RecommendationLists(
    equity: seq<Investment>,
    debt: seq<Investment>,
    government: seq<Investment>)

  /** `filter(inv => inv.type === kind)`. */
  function OfKind(catalog: seq<Investment>, kind: AssetClass): seq<Investment> {
    if catalog == [] then []
    else (if catalog[0].kind == kind then [catalog[0]] else []) + OfKind(catalog[1..], kind)
  }

  /** `filter(inv => <gate for score>)`. */
  function Gated(xs: seq<Investment>, score: int): seq<Investment> {
    if xs == [] then []
    else (if Eligible(score, xs[0]) then [xs[0]] else []) + Gated(xs[1..], score)
  }

  /** The kind filter keeps exactly the entries of that kind, each as often as before. */
  lemma {:induction false} OfKindKeeps(catalog: seq<Investment>, kind: AssetClass)
    ensures forall x :: x in OfKind(catalog, kind) <==> x in catalog && x.kind == kind
    ensures multiset(OfKind(catalog, kind)) <= multiset(catalog)
  {
    if catalog != [] {
      OfKindKeeps(catalog[1..], kind);
      assert catalog == [catalog[0]] + catalog[1..];
    }
  }

  /** The gate keeps exactly the entries it admits, each as often as before. */
  lemma {:induction false} GatedKeeps(xs: seq<Investment>, score: int)
    ensures forall x :: x in Gated(xs, score) <==> x in xs && Eligible(score, x)
    ensures multiset(Gated(xs, score)) <= multiset(xs)
  {
    if xs != [] {
      GatedKeeps(xs[1..], score);
      assert xs == [xs[0]] + xs[1..];
    }
  }

  /** The equities that pass the gate for `score`, in catalog order. */
  function EquityCandidates(catalog: seq<Investment>, score: int): seq<Investment> {
    Gated(OfKind(catalog, Equity), score)
  }

  /** The equity candidates are the catalog's equities the gate admits, without new repeats. */
  lemma EquityCandidatesKeep(catalog: seq<Investment>, score: int)
    ensures forall x :: x in EquityCandidates(catalog, score) <==> x in catalog && x.kind == Equity && Eligible(score, x)
    ensures multiset(EquityCandidates(catalog, score)) <= multiset(catalog)
  {
    OfKindKeeps(catalog, Equity);
    GatedKeeps(OfKind(catalog, Equity), score);
  }

  /** The selected list: `filter` already applied, then `sort(comparator).slice(0, n)`. */
  function Picks(k: SortKey, candidates: seq<Investment>, n: nat): (r: seq<Investment>)
    ensures |r| == if |candidates| < n then |candidates| else n
    ensures forall x :: x in r ==> x in candidates
    ensures Sorted(k, r)
    ensures Distinct(candidates) ==> Distinct(r)
    ensures forall v :: WithKey(k, r, v) <= WithKey(k, candidates, v)
    ensures forall x, y :: x in r && y in candidates && y !in r ==> Key(k, x) <= Key(k, y)
  {
    TopKSelects(k, candidates, n);
    var r := TopK(k, candidates, n);
    assert forall x :: x in r ==> x in multiset(candidates);
    SubDistinct(r, candidates);
    r
  }

  /** `equityRecs`: the gated equities, sorted for the score, at most three. */
  function EquityRecs(catalog: seq<Investment>, score: int): (r: seq<Investment>)
    ensures var n := |EquityCandidates(catalog, score)|; |r| == if n < 3 then n else 3
    ensures forall x :: x in r ==> x in catalog && x.kind == Equity && Eligible(score, x)
    ensures score <= 40 ==> forall i, j :: 0 <= i < j < |r| ==> r[i].volatility <= r[j].volatility
    ensures score > 40 ==> forall i, j :: 0 <= i < j < |r| ==> r[i].threeYearReturn >= r[j].threeYearReturn
    ensures Distinct(catalog) ==> Distinct(r)
  {
    EquityCandidatesKeep(catalog, score);
    SubDistinct(EquityCandidates(catalog, score), catalog);
    Picks(EquityKey(score), EquityCandidates(catalog, score), 3)
  }

  /** `debtRecs` and `govRecs`: the instruments of one type by descending return, at most two. */
  function BondRecs(catalog: seq<Investment>, kind: AssetClass): (r: seq<Investment>)
    ensures var n := |OfKind(catalog, kind)|; |r| == if n < 2 then n else 2
    ensures forall x :: x in r ==> x in catalog && x.kind == kind
    ensures forall i, j :: 0 <= i < j < |r| ==> r[i].threeYearReturn >= r[j].threeYearReturn
    ensures Distinct(catalog) ==> Distinct(r)
  {
    OfKindKeeps(catalog, kind);
    SubDistinct(OfKind(catalog, kind), catalog);
    Picks(DescReturn, OfKind(catalog, kind), 2)
  }

  /**
   * The `recommendations` memo: empty without a risk profile; otherwise the top three gated
   * equities (lowest volatility first up to a score of 40, highest return first above) and the
   * top two debt and government instruments by return.
   */
  function Recommend(catalog: seq<Investment>, profileScore: Option<int>): (r: RecommendationLists)
    ensures profileScore.None? ==> r == RecommendationLists([], [], [])
    ensures |r.equity| <= 3 && |r.debt| <= 2 && |r.government| <= 2
    ensures forall x :: x in r.equity ==> x in catalog && x.kind == Equity
    ensures forall x :: x in r.debt ==> x in catalog && x.kind == Debt
    ensures forall x :: x in r.government ==> x in catalog && x.kind == Government
    ensures profileScore.Some? ==> forall x :: x in r.equity ==> Eligible(profileScore.value, x)
    ensures profileScore.Some? && profileScore.value <= 40 ==>
      forall i, j :: 0 <= i < j < |r.equity| ==> r.equity[i].volatility <= r.equity[j].volatility
    ensures profileScore.Some? && profileScore.value > 40 ==>
      forall i, j :: 0 <= i < j < |r.equity| ==> r.equity[i].threeYearReturn >= r.equity[j].threeYearReturn
    ensures forall i, j :: 0 <= i < j < |r.debt| ==> r.debt[i].threeYearReturn >= r.debt[j].threeYearReturn
    ensures forall i, j :: 0 <= i < j < |r.government| ==>
      r.government[i].threeYearReturn >= r.government[j].threeYearReturn
    ensures Distinct(catalog) ==> Distinct(r.equity) && Distinct(r.debt) && Distinct(r.government)
  {
    if profileScore.None? then RecommendationLists([], [], [])
    else
      var score := profileScore.value;
      RecommendationLists(EquityRecs(catalog, score), BondRecs(catalog, Debt), BondRecs(catalog, Government))
  }

  /** The three lists, spelled out as the sorted and truncated candidate lists. */
  lemma RecommendUnfolds(catalog: seq<Investment>, score: int)
    ensures Recommend(catalog, Some(score)).equity == TopK(EquityKey(score), EquityCandidates(catalog, score), 3)
    ensures Recommend(catalog, Some(score)).debt == TopK(DescReturn, OfKind(catalog, Debt), 2)
    ensures Recommend(catalog, Some(score)).government == TopK(DescReturn, OfKind(catalog, Government), 2)
  {
  }

  /**
   * Each list is the first entries of a stable sort of its candidates: equal keys keep catalog
   * order, and no candidate left out ranks strictly ahead of one chosen.
   */
  lemma EquityIsStableTopK(catalog: seq<Investment>, score: int)
    ensures var r, k := Recommend(catalog, Some(score)).equity, EquityKey(score);
      && (forall v :: WithKey(k, r, v) <= WithKey(k, EquityCandidates(catalog, score), v))
      && (forall x, y :: x in r && y in EquityCandidates(catalog, score) && y !in r ==> Key(k, x) <= Key(k, y))
  {
    assert Recommend(catalog, Some(score)).equity == Picks(EquityKey(score), EquityCandidates(catalog, score), 3);
  }

  lemma DebtIsStableTopK(catalog: seq<Investment>, score: int)
    ensures var r := Recommend(catalog, Some(score)).debt;
      forall v :: WithKey(DescReturn, r, v) <= WithKey(DescReturn, OfKind(catalog, Debt), v)
    ensures var r := Recommend(catalog, Some(score)).debt;
      forall x, y :: x in r && y in OfKind(catalog, Debt) && y !in r ==> Key(DescReturn, x) <= Key(DescReturn, y)
  {
    assert Recommend(catalog, Some(score)).debt == Picks(DescReturn, OfKind(catalog, Debt), 2);
  }

  lemma GovernmentIsStableTopK(catalog: seq<Investment>, score: int)
    ensures var r := Recommend(catalog, Some(score)).government;
      forall v :: WithKey(DescReturn, r, v) <= WithKey(DescReturn, OfKind(catalog, Government), v)
    ensures var r := Recommend(catalog, Some(score)).government;
      forall x, y :: x in r && y in OfKind(catalog, Government) && y !in r ==> Key(DescReturn, x) <= Key(DescReturn, y)
  {
    assert Recommend(catalog, Some(score)).government == Picks(DescReturn, OfKind(catalog, Government), 2);
  }

  // ---------------------------------------------------------------------------------------------
  // Invest Now

  /** The order every "Invest Now" button issues: buy one unit at the current price. */
  function InvestNow(inv: Investment): (o: PortfolioContext.Order)
    ensures o.symbol == inv.symbol && o.name == inv.name && o.kind == inv.kind
    ensures o.side == PortfolioContext.Buy && o.quantity == 1.0 && o.price == inv.currentPrice
  {
    PortfolioContext.Order(inv.symbol, PortfolioContext.Buy, 1.0, inv.currentPrice, inv.name, inv.kind)
  }

  /**
   * Investing succeeds exactly when the cash covers one unit; it then debits the current price
   * and logs one buy of quantity 1.
   */
  lemma InvestNowEffect(s: PortfolioContext.Snapshot, inv: Investment, now: int)
    requires PortfolioContext.TradeDefined(s, InvestNow(inv))
    ensures PortfolioContext.ApplyTrade(s, InvestNow(inv), now).Some? <==> s.cash >= inv.currentPrice
    ensures PortfolioContext.ApplyTrade(s, InvestNow(inv), now).Some? ==>
      && PortfolioContext.ApplyTrade(s, InvestNow(inv), now).value.cash == s.cash - inv.currentPrice
      && PortfolioContext.ApplyTrade(s, InvestNow(inv), now).value.transactions == s.transactions +
           [PortfolioContext.Transaction(now, inv.symbol, PortfolioContext.Buy, 1.0, inv.currentPrice, now)]
  {
    PortfolioContext.BuyNeedsFunds(s, InvestNow(inv), now);
    if s.cash >= inv.currentPrice {
      PortfolioContext.BuyDebitsAndLogs(s, InvestNow(inv), now);
    }
  }
}

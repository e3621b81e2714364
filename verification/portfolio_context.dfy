/**
 * The portfolio ledger of src/contexts/PortfolioContext.tsx: a cash balance, a list of holdings
 * kept at weighted-average cost, and an append-only transaction log.
 *
 * `ApplyTrade` is the specification of one `executeTrade` call on a snapshot of the ledger;
 * the class `Portfolio` performs the same steps in place and is proved to agree with it.
 */
module PortfolioContext {
  import opened Wrappers
  import opened MockData

  datatype Side = Buy | Sell

  datatype Holding = Holding(
    symbol: string,
    name: string,
    kind: AssetClass,
    quantity: real,
    avgPrice: real,
    currentPrice: real)

  /** `id` and `timestamp` both come from the clock reading of the call. */
  datatype Transaction = Transaction(
    id: int,
    symbol: string,
    side: Side,
    quantity: real,
    price: real,
    timestamp: int)

  datatype Snapshot = Snapshot(cash: real, holdings: seq<Holding>, transactions: seq<Transaction>)

  /** The six arguments of `executeTrade`. */
  datatype Order = Order(symbol: string, side: Side, quantity: real, price: real, name: string, kind: AssetClass)

  const StartingCash: real := 100000.0

  function InitialPortfolio(): Snapshot {
    Snapshot(StartingCash, [], [])
  }

  /** Holding symbols are pairwise distinct. */
  ghost predicate DistinctSymbols(hs: seq<Holding>) {
    forall i, j :: 0 <= i < j < |hs| ==> hs[i].symbol != hs[j].symbol
  }

  /** Quantity held times average price: what was paid for the position. */
  function CostBasis(h: Holding): real {
    h.quantity * h.avgPrice
  }

  /** `holdings.find(h => h.symbol === symbol)`, as the index of the first match. */
  function FindHolding(hs: seq<Holding>, symbol: string): (r: Option<nat>)
    ensures r.Some? ==> r.value < |hs| && hs[r.value].symbol == symbol
    ensures r.Some? ==> forall j :: 0 <= j < r.value ==> hs[j].symbol != symbol
    ensures r.None? <==> forall j :: 0 <= j < |hs| ==> hs[j].symbol != symbol
  {
    if hs == [] then None
    else if hs[0].symbol == symbol then Some(0)
    else match FindHolding(hs[1..], symbol)
      case None => None
      case Some(k) => Some(k + 1)
  }

  /** `holdings.filter(h => h.symbol !== symbol)`. */
  function WithoutSymbol(hs: seq<Holding>, symbol: string): (r: seq<Holding>)
    ensures |r| <= |hs|
  {
    if hs == [] then []
    else if hs[0].symbol == symbol then WithoutSymbol(hs[1..], symbol)
    else [hs[0]] + WithoutSymbol(hs[1..], symbol)
  }

  /** The log entry a successful trade appends. */
  function Record(o: Order, now: int): Transaction {
    Transaction(now, o.symbol, o.side, o.quantity, o.price, now)
  }

  /** Merging a buy of `q` at price `p` into an existing holding (weighted-average cost). */
  function MergeBuy(h: Holding, q: real, p: real): Holding
    requires h.quantity + q != 0.0
  {
    var totalShares := h.quantity + q;
    var totalValue := h.quantity * h.avgPrice + q * p;
    h.(avgPrice := totalValue / totalShares, quantity := totalShares, currentPrice := p)
  }

  /** The holding a buy of a symbol not yet held creates. */
  function NewHolding(o: Order): Holding {
    Holding(o.symbol, o.name, o.kind, o.quantity, o.price, o.price)
  }

  /** A buy has a value in exact arithmetic unless it brings an existing holding to quantity 0. */
  predicate BuyDefined(hs: seq<Holding>, o: Order) {
    var found := FindHolding(hs, o.symbol);
    found.Some? ==> hs[found.value].quantity + o.quantity != 0.0
  }

  /**
   * Every trade has a value in exact arithmetic except a buy that passes the funds check and
   * brings an existing holding to quantity 0 (only a negative quantity can do that): there the
   * source divides by zero.
   */
  predicate TradeDefined(s: Snapshot, o: Order) {
    o.side == Buy && s.cash >= o.quantity * o.price ==> BuyDefined(s.holdings, o)
  }

  /** The holdings after a buy: merged into the existing position, or appended as a new one. */
  function BoughtHoldings(hs: seq<Holding>, o: Order): seq<Holding>
    requires BuyDefined(hs, o)
  {
    match FindHolding(hs, o.symbol)
    case Some(i) => hs[i := MergeBuy(hs[i], o.quantity, o.price)]
    case None => hs + [NewHolding(o)]
  }

  /** The holdings after selling `q` of the holding at `i`: reduced, and filtered out at zero. */
  function SoldHoldings(hs: seq<Holding>, i: nat, q: real): seq<Holding>
    requires i < |hs|
  {
    var reduced := hs[i := hs[i].(quantity := hs[i].quantity - q)];
    if reduced[i].quantity == 0.0 then WithoutSymbol(reduced, hs[i].symbol) else reduced
  }

  function ApplyBuy(s: Snapshot, o: Order, now: int): Option<Snapshot>
    requires TradeDefined(s, o)
    requires o.side == Buy
  {
    var total := o.quantity * o.price;
    if s.cash < total then None
    else Some(Snapshot(s.cash - total, BoughtHoldings(s.holdings, o), s.transactions + [Record(o, now)]))
  }

  function ApplySell(s: Snapshot, o: Order, now: int): Option<Snapshot> {
    match FindHolding(s.holdings, o.symbol)
    case None => None
    case Some(i) =>
      if s.holdings[i].quantity < o.quantity then None
      else Some(Snapshot(s.cash + o.quantity * o.price, SoldHoldings(s.holdings, i, o.quantity),
                         s.transactions + [Record(o, now)]))
  }

  /** `executeTrade`: `None` is the source's `false` (nothing changes); `Some` is the new ledger. */
  function ApplyTrade(s: Snapshot, o: Order, now: int): Option<Snapshot>
    requires TradeDefined(s, o)
  {
    if o.side == Buy then ApplyBuy(s, o, now) else ApplySell(s, o, now)
  }

  /** `prices[holding.symbol] || holding.currentPrice`: an absent or zero entry keeps the old mark. */
  function MarkPrice(prices: map<string, real>, h: Holding): real {
    if h.symbol in prices && prices[h.symbol] != 0.0 then prices[h.symbol] else h.currentPrice
  }

  /** The `holdings.map(...)` of `updatePrices`. */
  function Repriced(hs: seq<Holding>, prices: map<string, real>): (r: seq<Holding>)
    ensures |r| == |hs|
  {
    if hs == [] then [] else [hs[0].(currentPrice := MarkPrice(prices, hs[0]))] + Repriced(hs[1..], prices)
  }

  /**
   * `array.find` written as the loop it is: the index of the first holding with `symbol`,
   * or `|hs|` when there is none.
   */
  method FindIndex(hs: seq<Holding>, symbol: string) returns (i: nat)
    ensures i <= |hs|
    ensures i < |hs| <==> FindHolding(hs, symbol).Some?
    ensures i < |hs| ==> FindHolding(hs, symbol) == Some(i)
  {
    i := 0;
    while i < |hs| && hs[i].symbol != symbol
      invariant i <= |hs|
      invariant forall j :: 0 <= j < i ==> hs[j].symbol != symbol
    {
      i := i + 1;
    }
    if i < |hs| {
      match FindHolding(hs, symbol)
      case None =>
      case Some(k) =>
        assert !(k < i) && !(i < k);
    }
  }

  class Portfolio {
    var cash: real
    var holdings: seq<Holding>
    var transactions: seq<Transaction>

    function State(): Snapshot
      reads this
    {
      Snapshot(cash, holdings, transactions)
    }

    /** The ledger's invariant: at most one holding per symbol. */
    ghost predicate Valid()
      reads this
    {
      DistinctSymbols(holdings)
    }

    /** `initialPortfolio`: cash 100000, no holdings, no transactions. */
    constructor ()
      ensures Valid()
      ensures State() == InitialPortfolio()
      ensures cash == 100000.0 && holdings == [] && transactions == []
    {
      cash := StartingCash;
      holdings := [];
      transactions := [];
    }

    /** `executeTrade`: applies the order in place and reports whether it went through. */
    method ExecuteTrade(o: Order, now: int) returns (ok: bool)
      requires Valid()
      requires TradeDefined(State(), o)
      modifies this
      ensures Valid()
      ensures ok == ApplyTrade(old(State()), o, now).Some?
      ensures ok ==> State() == ApplyTrade(old(State()), o, now).value
      ensures !ok ==> State() == old(State())
    {
      ghost var before := State();
      TradePreservesDistinct(before, o, now);
      var totalValue := o.quantity * o.price;
      if o.side == Buy && cash < totalValue {
        assert ApplyBuy(before, o, now).None?;
        return false;
      }
      if o.side == Buy {
        BuyInPlace(o, totalValue);
        transactions := transactions + [Record(o, now)];
        assert State() == ApplyBuy(before, o, now).value;
      } else {
        ok := SellInPlace(o, totalValue);
        if !ok {
          assert ApplySell(before, o, now).None?;
          return;
        }
        transactions := transactions + [Record(o, now)];
        assert State() == ApplySell(before, o, now).value;
      }
      ok := true;
    }

    /** The buy branch of `executeTrade`, after the funds check. */
    method BuyInPlace(o: Order, totalValue: real)
      requires o.side == Buy && totalValue == o.quantity * o.price && cash >= totalValue
      requires BuyDefined(holdings, o)
      modifies this
      ensures cash == old(cash) - totalValue
      ensures holdings == BoughtHoldings(old(holdings), o)
      ensures transactions == old(transactions)
    {
      cash := cash - totalValue;
      var i := FindIndex(holdings, o.symbol);
      if i < |holdings| {
        var existing := holdings[i];
        var totalShares := existing.quantity + o.quantity;
        var cost := existing.quantity * existing.avgPrice + o.quantity * o.price;
        existing := existing.(avgPrice := cost / totalShares);
        existing := existing.(quantity := totalShares);
        existing := existing.(currentPrice := o.price);
        assert existing == MergeBuy(holdings[i], o.quantity, o.price);
        holdings := holdings[i := existing];
      } else {
        holdings := holdings + [NewHolding(o)];
      }
    }

    /** The sell branch of `executeTrade`: refuses without any change, or credits and reduces. */
    method SellInPlace(o: Order, totalValue: real) returns (ok: bool)
      requires o.side == Sell && totalValue == o.quantity * o.price
      modifies this
      ensures var found := FindHolding(old(holdings), o.symbol);
        ok == (found.Some? && old(holdings)[found.value].quantity >= o.quantity)
      ensures !ok ==> cash == old(cash) && holdings == old(holdings)
      ensures ok ==> cash == old(cash) + totalValue
      ensures ok ==> holdings == SoldHoldings(old(holdings), FindHolding(old(holdings), o.symbol).value, o.quantity)
      ensures transactions == old(transactions)
    {
      var i := FindIndex(holdings, o.symbol);
      if i == |holdings| || holdings[i].quantity < o.quantity {
        return false;
      }
      cash := cash + totalValue;
      var symbol := holdings[i].symbol;
      holdings := holdings[i := holdings[i].(quantity := holdings[i].quantity - o.quantity)];
      if holdings[i].quantity == 0.0 {
        holdings := WithoutSymbol(holdings, symbol);
      }
      ok := true;
    }

    /** `updatePrices`: re-marks every holding; nothing else changes. */
    method UpdatePrices(prices: map<string, real>)
      requires Valid()
      modifies this
      ensures Valid()
      ensures holdings == Repriced(old(holdings), prices)
      ensures cash == old(cash) && transactions == old(transactions)
    {
      RepricedKeepsAllButPrice(holdings, prices);
      holdings := Repriced(holdings, prices);
    }
  }

  // ---------------------------------------------------------------------------------------------
  // Properties of a trade

  /** With distinct symbols, `find` by a holding's symbol lands on that holding. */
  lemma FindDistinct(hs: seq<Holding>, i: nat)
    requires DistinctSymbols(hs)
    requires i < |hs|
    ensures FindHolding(hs, hs[i].symbol) == Some(i)
  {
  }

  /** A buy that costs more than the cash balance is refused. */
  lemma BuyNeedsFunds(s: Snapshot, o: Order, now: int)
    requires TradeDefined(s, o)
    requires o.side == Buy
    ensures ApplyTrade(s, o, now).None? <==> s.cash < o.quantity * o.price
  {
  }

  /** A successful buy debits exactly `quantity × price` and logs one matching `buy`. */
  lemma BuyDebitsAndLogs(s: Snapshot, o: Order, now: int)
    requires TradeDefined(s, o)
    requires o.side == Buy && s.cash >= o.quantity * o.price
    ensures ApplyTrade(s, o, now).Some?
    ensures ApplyTrade(s, o, now).value.cash == s.cash - o.quantity * o.price
    ensures ApplyTrade(s, o, now).value.transactions
         == s.transactions + [Transaction(now, o.symbol, Buy, o.quantity, o.price, now)]
  {
  }

  /** The weighted-average update keeps `quantity × avgPrice` equal to the total paid. */
  lemma MergeCostBasis(h: Holding, q: real, p: real)
    requires h.quantity + q != 0.0
    ensures CostBasis(MergeBuy(h, q, p)) == CostBasis(h) + q * p
  {
    var n := (h.quantity + q);
    var v := h.quantity * h.avgPrice + q * p;
    assert n * (v / n) == v;
  }

  /**
   * Buying into an existing holding: quantity adds up, the average is the weighted mean,
   * the mark becomes the trade price, name and type stay, the cost basis grows by exactly
   * `quantity × price`, and no other holding moves.
   */
  lemma BuyMergesHolding(s: Snapshot, o: Order, now: int, i: nat)
    requires DistinctSymbols(s.holdings)
    requires i < |s.holdings| && s.holdings[i].symbol == o.symbol
    requires TradeDefined(s, o)
    requires o.side == Buy && s.cash >= o.quantity * o.price
    ensures ApplyTrade(s, o, now).Some?
    ensures var h, r := s.holdings[i], ApplyTrade(s, o, now).value;
      && |r.holdings| == |s.holdings|
      && r.holdings[i].quantity == h.quantity + o.quantity
      && r.holdings[i].avgPrice
         == (h.quantity * h.avgPrice + o.quantity * o.price) / (h.quantity + o.quantity)
      && r.holdings[i].currentPrice == o.price
      && r.holdings[i].symbol == h.symbol && r.holdings[i].name == h.name && r.holdings[i].kind == h.kind
      && CostBasis(r.holdings[i]) == CostBasis(h) + o.quantity * o.price
      && (forall j :: 0 <= j < |s.holdings| && j != i ==> r.holdings[j] == s.holdings[j])
  {
    FindDistinct(s.holdings, i);
    MergeCostBasis(s.holdings[i], o.quantity, o.price);
  }

  /** Buying a symbol not yet held appends a holding at the end, marked and averaged at the trade price. */
  lemma BuyAppendsNewHolding(s: Snapshot, o: Order, now: int)
    requires forall j :: 0 <= j < |s.holdings| ==> s.holdings[j].symbol != o.symbol
    requires o.side == Buy && s.cash >= o.quantity * o.price
    ensures TradeDefined(s, o) && ApplyTrade(s, o, now).Some?
    ensures ApplyTrade(s, o, now).value.holdings
         == s.holdings + [Holding(o.symbol, o.name, o.kind, o.quantity, o.price, o.price)]
  {
  }

  /** A sell is refused exactly when no holding of the symbol has at least `quantity` units. */
  lemma SellNeedsShares(s: Snapshot, o: Order, now: int)
    requires DistinctSymbols(s.holdings)
    requires o.side == Sell
    ensures TradeDefined(s, o)
    ensures ApplyTrade(s, o, now).None? <==>
      forall j :: 0 <= j < |s.holdings| && s.holdings[j].symbol == o.symbol ==> s.holdings[j].quantity < o.quantity
  {
    var found := FindHolding(s.holdings, o.symbol);
    if found.Some? {
      FindDistinct(s.holdings, found.value);
    }
  }

  /** A sell covered by the holding at `i` credits `quantity × price`, leaves `SoldHoldings` and logs the sell. */
  lemma SellLeavesSold(s: Snapshot, o: Order, now: int, i: nat)
    requires DistinctSymbols(s.holdings)
    requires o.side == Sell
    requires i < |s.holdings| && s.holdings[i].symbol == o.symbol
    requires s.holdings[i].quantity >= o.quantity
    ensures TradeDefined(s, o) && ApplyTrade(s, o, now).Some?
    ensures ApplyTrade(s, o, now).value.cash == s.cash + o.quantity * o.price
    ensures ApplyTrade(s, o, now).value.holdings == SoldHoldings(s.holdings, i, o.quantity)
    ensures ApplyTrade(s, o, now).value.transactions == s.transactions + [Record(o, now)]
  {
    FindDistinct(s.holdings, i);
  }

  /** With distinct symbols, filtering a symbol out removes exactly the one holding carrying it. */
  lemma {:induction false} RemoveDistinct(hs: seq<Holding>, i: nat)
    requires DistinctSymbols(hs)
    requires i < |hs|
    ensures WithoutSymbol(hs, hs[i].symbol) == hs[..i] + hs[i + 1..]
  {
    if i == 0 {
      WithoutAbsent(hs[1..], hs[0].symbol);
    } else {
      RemoveDistinct(hs[1..], i - 1);
      assert hs[1..][i - 1].symbol == hs[i].symbol;
      assert hs[1..][..i - 1] + hs[1..][i..] == hs[1..i] + hs[i + 1..];
      assert hs[..i] == [hs[0]] + hs[1..i];
    }
  }

  /** Filtering out a symbol keeps exactly the holdings that carry another symbol. */
  lemma {:induction false} WithoutSymbolKeeps(hs: seq<Holding>, symbol: string)
    ensures forall h :: h in WithoutSymbol(hs, symbol) <==> h in hs && h.symbol != symbol
  {
    if hs != [] {
      WithoutSymbolKeeps(hs[1..], symbol);
      assert hs == [hs[0]] + hs[1..];
    }
  }

  /** Filtering out a symbol no holding carries changes nothing. */
  lemma {:induction false} WithoutAbsent(hs: seq<Holding>, symbol: string)
    requires forall k :: 0 <= k < |hs| ==> hs[k].symbol != symbol
    ensures WithoutSymbol(hs, symbol) == hs
  {
    if hs != [] {
      WithoutAbsent(hs[1..], symbol);
    }
  }

  /**
   * A successful sell credits `quantity × price` and logs one `sell`. The holding loses
   * `quantity` at unchanged average cost; it disappears exactly when nothing is left, and the
   * other holdings keep their order.
   */
  lemma SellReducesHolding(s: Snapshot, o: Order, now: int, i: nat)
    requires DistinctSymbols(s.holdings)
    requires o.side == Sell
    requires i < |s.holdings| && s.holdings[i].symbol == o.symbol
    requires s.holdings[i].quantity >= o.quantity
    ensures TradeDefined(s, o) && ApplyTrade(s, o, now).Some?
    ensures var h, r := s.holdings[i], ApplyTrade(s, o, now).value;
      && r.cash == s.cash + o.quantity * o.price
      && r.transactions == s.transactions + [Transaction(now, o.symbol, Sell, o.quantity, o.price, now)]
      && (h.quantity == o.quantity ==> r.holdings == s.holdings[..i] + s.holdings[i + 1..])
      && (h.quantity != o.quantity ==>
            && r.holdings == s.holdings[i := h.(quantity := h.quantity - o.quantity)]
            && r.holdings[i].avgPrice == h.avgPrice)
  {
    FindDistinct(s.holdings, i);
    var h := s.holdings[i];
    var reduced := s.holdings[i := h.(quantity := h.quantity - o.quantity)];
    if h.quantity == o.quantity {
      DistinctUpdate(s.holdings, i, h.(quantity := 0.0));
      RemoveDistinct(reduced, i);
      assert reduced[..i] == s.holdings[..i];
      assert reduced[i + 1..] == s.holdings[i + 1..];
    }
  }

  /** Replacing a holding by one with the same symbol keeps symbols distinct. */
  lemma DistinctUpdate(hs: seq<Holding>, i: nat, h: Holding)
    requires DistinctSymbols(hs)
    requires i < |hs| && h.symbol == hs[i].symbol
    ensures DistinctSymbols(hs[i := h])
  {
    var r := hs[i := h];
    forall a, b | 0 <= a < b < |r| ensures r[a].symbol != r[b].symbol {
      assert r[a].symbol == hs[a].symbol && r[b].symbol == hs[b].symbol;
    }
  }

  /** Removing one element keeps symbols distinct. */
  lemma DistinctRemove(hs: seq<Holding>, i: nat)
    requires DistinctSymbols(hs)
    requires i < |hs|
    ensures DistinctSymbols(hs[..i] + hs[i + 1..])
  {
    var r := hs[..i] + hs[i + 1..];
    forall a, b | 0 <= a < b < |r| ensures r[a].symbol != r[b].symbol {
      var a' := if a < i then a else a + 1;
      var b' := if b < i then b else b + 1;
      assert r[a] == hs[a'] && r[b] == hs[b'];
    }
  }

  lemma BuyPreservesDistinct(s: Snapshot, o: Order, now: int)
    requires TradeDefined(s, o)
    requires DistinctSymbols(s.holdings)
    requires o.side == Buy
    ensures ApplyTrade(s, o, now).Some? ==> DistinctSymbols(ApplyTrade(s, o, now).value.holdings)
  {
    var found := FindHolding(s.holdings, o.symbol);
    if found.Some? && s.cash >= o.quantity * o.price {
      DistinctUpdate(s.holdings, found.value, MergeBuy(s.holdings[found.value], o.quantity, o.price));
    }
  }

  lemma SellPreservesDistinct(s: Snapshot, o: Order, now: int)
    requires DistinctSymbols(s.holdings)
    requires o.side == Sell
    ensures TradeDefined(s, o)
    ensures ApplyTrade(s, o, now).Some? ==> DistinctSymbols(ApplyTrade(s, o, now).value.holdings)
  {
    var found := FindHolding(s.holdings, o.symbol);
    if found.Some? && s.holdings[found.value].quantity >= o.quantity {
      var i := found.value;
      SellReducesHolding(s, o, now, i);
      if s.holdings[i].quantity == o.quantity {
        DistinctRemove(s.holdings, i);
      } else {
        DistinctUpdate(s.holdings, i, s.holdings[i].(quantity := s.holdings[i].quantity - o.quantity));
      }
    }
  }

  /** Every trade keeps at most one holding per symbol. */
  lemma TradePreservesDistinct(s: Snapshot, o: Order, now: int)
    requires TradeDefined(s, o)
    requires DistinctSymbols(s.holdings)
    ensures ApplyTrade(s, o, now).Some? ==> DistinctSymbols(ApplyTrade(s, o, now).value.holdings)
  {
    if o.side == Buy {
      BuyPreservesDistinct(s, o, now);
    } else {
      SellPreservesDistinct(s, o, now);
    }
  }

  predicate PositiveHolding(h: Holding) {
    h.quantity > 0.0 && h.avgPrice > 0.0 && h.currentPrice > 0.0
  }

  /** The ledger's well-formedness under positive quantities and prices. */
  ghost predicate WellFormed(s: Snapshot) {
    && s.cash >= 0.0
    && DistinctSymbols(s.holdings)
    && forall k :: 0 <= k < |s.holdings| ==> PositiveHolding(s.holdings[k])
  }

  lemma BuyPreservesWellFormed(s: Snapshot, o: Order, now: int)
    requires WellFormed(s)
    requires o.side == Buy && o.quantity > 0.0 && o.price > 0.0
    ensures TradeDefined(s, o)
    ensures ApplyTrade(s, o, now).Some? ==> WellFormed(ApplyTrade(s, o, now).value)
  {
    BuyPreservesDistinct(s, o, now);
    var found := FindHolding(s.holdings, o.symbol);
    if found.Some? && s.cash >= o.quantity * o.price {
      var h := s.holdings[found.value];
      assert PositiveHolding(h);
      var v := h.quantity * h.avgPrice + o.quantity * o.price;
      assert h.quantity * h.avgPrice > 0.0;
      assert o.quantity * o.price > 0.0;
      assert v / (h.quantity + o.quantity) > 0.0;
    }
  }

  lemma SellPreservesWellFormed(s: Snapshot, o: Order, now: int)
    requires WellFormed(s)
    requires o.side == Sell && o.quantity > 0.0 && o.price > 0.0
    ensures TradeDefined(s, o)
    ensures ApplyTrade(s, o, now).Some? ==> WellFormed(ApplyTrade(s, o, now).value)
  {
    SellPreservesDistinct(s, o, now);
    assert o.quantity * o.price > 0.0;
    var found := FindHolding(s.holdings, o.symbol);
    if found.Some? && s.holdings[found.value].quantity >= o.quantity {
      var i := found.value;
      SellReducesHolding(s, o, now, i);
      var hs := ApplyTrade(s, o, now).value.holdings;
      if s.holdings[i].quantity == o.quantity {
        forall k | 0 <= k < |hs| ensures PositiveHolding(hs[k]) {
          assert hs[k] == s.holdings[if k < i then k else k + 1];
        }
      }
    }
  }

  /**
   * When every order carries a positive quantity and price, cash never goes negative and every
   * holding keeps a positive quantity and positive prices.
   */
  lemma TradePreservesWellFormed(s: Snapshot, o: Order, now: int)
    requires WellFormed(s)
    requires o.quantity > 0.0 && o.price > 0.0
    ensures TradeDefined(s, o)
    ensures ApplyTrade(s, o, now).Some? ==> WellFormed(ApplyTrade(s, o, now).value)
  {
    if o.side == Buy {
      BuyPreservesWellFormed(s, o, now);
    } else {
      SellPreservesWellFormed(s, o, now);
    }
  }

  // ---------------------------------------------------------------------------------------------
  // Properties of a price update

  /**
   * `updatePrices` changes only marks: each holding takes its mapped non-zero price, otherwise
   * keeps its own; symbol, name, type, quantity and average cost stay, in the same order.
   */
  lemma {:induction false} RepricedKeepsAllButPrice(hs: seq<Holding>, prices: map<string, real>)
    ensures |Repriced(hs, prices)| == |hs|
    ensures forall k :: 0 <= k < |hs| ==>
      Repriced(hs, prices)[k] == hs[k].(currentPrice := MarkPrice(prices, hs[k]))
    ensures DistinctSymbols(hs) ==> DistinctSymbols(Repriced(hs, prices))
  {
    if hs != [] {
      RepricedKeepsAllButPrice(hs[1..], prices);
      var r := Repriced(hs, prices);
      forall k | 0 <= k < |hs| ensures r[k] == hs[k].(currentPrice := MarkPrice(prices, hs[k])) {
        if k > 0 {
          assert r[k] == Repriced(hs[1..], prices)[k - 1];
        }
      }
    }
  }

  /** Applying the same price map twice is the same as applying it once. */
  lemma {:induction false} RepricedIdempotent(hs: seq<Holding>, prices: map<string, real>)
    ensures Repriced(Repriced(hs, prices), prices) == Repriced(hs, prices)
  {
    if hs != [] {
      RepricedIdempotent(hs[1..], prices);
    }
  }

  /** A price update keeps the ledger well-formed when the feed sends no negative prices. */
  lemma RepricedWellFormed(s: Snapshot, prices: map<string, real>)
    requires WellFormed(s)
    requires forall sym :: sym in prices ==> prices[sym] >= 0.0
    ensures WellFormed(s.(holdings := Repriced(s.holdings, prices)))
  {
    RepricedKeepsAllButPrice(s.holdings, prices);
  }

  /** The example run: buy 10 at 100, buy 5 at 120, then sell all 15 at 130. */
  lemma WorkedExample(t1: int, t2: int, t3: int)
    ensures var s0 := InitialPortfolio();
      var o1 := Order("X", Buy, 10.0, 100.0, "X Fund", Equity);
      var o2 := Order("X", Buy, 5.0, 120.0, "X Fund", Equity);
      var o3 := Order("X", Sell, 15.0, 130.0, "X Fund", Equity);
      && TradeDefined(s0, o1)
      && ApplyTrade(s0, o1, t1).Some?
      && var s1 := ApplyTrade(s0, o1, t1).value;
      && s1.cash == 99000.0 && s1.holdings == [Holding("X", "X Fund", Equity, 10.0, 100.0, 100.0)]
      && TradeDefined(s1, o2)
      && ApplyTrade(s1, o2, t2).Some?
      && var s2 := ApplyTrade(s1, o2, t2).value;
      && s2.cash == 98400.0 && s2.holdings == [Holding("X", "X Fund", Equity, 15.0, 1600.0 / 15.0, 120.0)]
      && TradeDefined(s2, o3)
      && ApplyTrade(s2, o3, t3).Some?
      && var s3 := ApplyTrade(s2, o3, t3).value;
      && s3.cash == 100350.0 && s3.holdings == [] && |s3.transactions| == 3
  {
  }
}

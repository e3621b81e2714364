/**
 * The trading page, src/pages/Simulator.tsx: the catalog search, the lookup of the selected
 * instrument, the dispatch of a buy or sell to the ledger with the alert it raises, the parsing
 * of the quantity field, and the newest-first transaction history. The page's three totals are
 * the ones in module Totals.
 */
module Simulator {
  import opened Wrappers
  import opened MockData
  import opened PortfolioContext

  // ---------------------------------------------------------------------------------------------
  // Search

  /** `toLowerCase` on one character, for the ASCII letters. */
  function LowerChar(c: char): char {
    if 'A' <= c <= 'Z' then (c as int + 32) as char else c
  }

  /** `toLowerCase` on a string, character by character. */
  function Lower(s: string): (r: string)
    ensures |r| == |s|
    ensures forall k :: 0 <= k < |s| ==> r[k] == LowerChar(s[k])
  {
    if s == [] then [] else [LowerChar(s[0])] + Lower(s[1..])
  }

  /** `s.includes(t)`: checks each starting position in turn. */
  function Includes(s: string, t: string): bool
    decreases |s|
  {
    if |t| > |s| then false
    else if s[..|t|] == t then true
    else Includes(s[1..], t)
  }

  /** Whether `t` occurs in `s` at position `i`. */
  predicate OccursAt(s: string, t: string, i: int) {
    0 <= i && i + |t| <= |s| && s[i..i + |t|] == t
  }

  /** The search predicate: the lowercased name or symbol contains the lowercased term. */
  predicate Matches(inv: Investment, term: string) {
    Includes(Lower(inv.name), Lower(term)) || Includes(Lower(inv.symbol), Lower(term))
  }

  /** `filteredInvestments`: the instruments matching the term, in catalog order. */
  function Search(catalog: seq<Investment>, term: string): seq<Investment> {
    if catalog == [] then []
    else (if Matches(catalog[0], term) then [catalog[0]] else []) + Search(catalog[1..], term)
  }

  /** `includes` finds `t` exactly when `t` occurs at some position of `s`. */
  lemma {:induction false} IncludesOccurs(s: string, t: string)
    ensures Includes(s, t) <==> exists i :: OccursAt(s, t, i)
    decreases |s|
  {
    if |t| > |s| {
    } else if s[..|t|] == t {
      assert OccursAt(s, t, 0);
    } else {
      IncludesOccurs(s[1..], t);
      if exists i :: OccursAt(s[1..], t, i) {
        var i :| OccursAt(s[1..], t, i);
        assert s[1..][i..i + |t|] == s[i + 1..i + 1 + |t|];
        assert OccursAt(s, t, i + 1);
      }
      if exists i :: OccursAt(s, t, i) {
        var i :| OccursAt(s, t, i);
        assert i != 0;
        assert s[1..][i - 1..i - 1 + |t|] == s[i..i + |t|];
        assert OccursAt(s[1..], t, i - 1);
      }
    }
  }

  /** Every string includes the empty string. */
  lemma IncludesEmpty(s: string)
    ensures Includes(s, "")
  {
    assert s[..0] == "";
  }

  /** Lower-casing twice is lower-casing once. */
  lemma LowerIdempotent(s: string)
    ensures Lower(Lower(s)) == Lower(s)
  {
    assert forall k :: 0 <= k < |s| ==> LowerChar(LowerChar(s[k])) == LowerChar(s[k]);
  }

  /** The search keeps an instrument exactly when its name or symbol matches. */
  lemma {:induction false} SearchKeeps(catalog: seq<Investment>, term: string)
    ensures forall inv :: inv in Search(catalog, term) <==> inv in catalog && Matches(inv, term)
    ensures |Search(catalog, term)| <= |catalog|
  {
    if catalog != [] {
      SearchKeeps(catalog[1..], term);
      assert catalog == [catalog[0]] + catalog[1..];
    }
  }

  /** An empty term keeps the whole catalog, in order. */
  lemma {:induction false} SearchEmptyKeepsAll(catalog: seq<Investment>)
    ensures Search(catalog, "") == catalog
  {
    if catalog != [] {
      IncludesEmpty(Lower(catalog[0].name));
      SearchEmptyKeepsAll(catalog[1..]);
      assert catalog == [catalog[0]] + catalog[1..];
    }
  }

  /** Searching a catalog in two parts gives the two parts' results in order. */
  lemma {:induction false} SearchAppend(a: seq<Investment>, b: seq<Investment>, term: string)
    ensures Search(a + b, term) == Search(a, term) + Search(b, term)
  {
    if a == [] {
      assert a + b == b;
    } else {
      var head := if Matches(a[0], term) then [a[0]] else [];
      assert (a + b)[0] == a[0];
      assert (a + b)[1..] == a[1..] + b;
      SearchAppend(a[1..], b, term);
      calc {
        Search(a + b, term);
        head + Search(a[1..] + b, term);
        head + (Search(a[1..], term) + Search(b, term));
        (head + Search(a[1..], term)) + Search(b, term);
      }
    }
  }

  /** The search ignores the case of the term. */
  lemma {:induction false} SearchIgnoresCase(catalog: seq<Investment>, term: string)
    ensures Search(catalog, Lower(term)) == Search(catalog, term)
  {
    LowerIdempotent(term);
    if catalog != [] {
      SearchIgnoresCase(catalog[1..], term);
    }
  }

  // ---------------------------------------------------------------------------------------------
  // The selected instrument

  /** `investments.find(inv => inv.symbol === selectedInvestment)`. */
  function SelectedInvestment(catalog: seq<Investment>, symbol: string): (r: Option<Investment>)
    ensures r.None? <==> forall k :: 0 <= k < |catalog| ==> catalog[k].symbol != symbol
    ensures r.Some? ==> r.value in catalog && r.value.symbol == symbol
  {
    if catalog == [] then None
    else if catalog[0].symbol == symbol then Some(catalog[0])
    else
      var r := SelectedInvestment(catalog[1..], symbol);
      assert forall k :: 0 < k < |catalog| ==> catalog[k] == catalog[1..][k - 1];
      r
  }

  /** `find` returns the entry at the first position carrying the symbol. */
  lemma {:induction false} SelectFirst(catalog: seq<Investment>, symbol: string, k: nat)
    requires k < |catalog| && catalog[k].symbol == symbol
    requires forall j :: 0 <= j < k ==> catalog[j].symbol != symbol
    ensures SelectedInvestment(catalog, symbol) == Some(catalog[k])
  {
    if k > 0 {
      SelectFirst(catalog[1..], symbol, k - 1);
    }
  }

  /** In a catalog of distinct symbols, selecting an entry's symbol finds that entry. */
  lemma {:induction false} SelectFinds(catalog: seq<Investment>, k: nat)
    requires k < |catalog|
    requires forall i, j :: 0 <= i < j < |catalog| ==> catalog[i].symbol != catalog[j].symbol
    ensures SelectedInvestment(catalog, catalog[k].symbol) == Some(catalog[k])
  {
    if k > 0 {
      SelectFinds(catalog[1..], k - 1);
    }
  }

  /** Each catalog instrument is found by its own symbol; the empty choice finds nothing. */
  lemma CatalogSelection(k: nat)
    requires k < |Investments|
    ensures SelectedInvestment(Investments, Investments[k].symbol) == Some(Investments[k])
    ensures SelectedInvestment(Investments, "").None?
  {
    SymbolsDistinct();
    SelectFinds(Investments, k);
  }

  // ---------------------------------------------------------------------------------------------
  // Trading

  /** The order `handleTrade` passes to `executeTrade` for the selected instrument. */
  function TradeOrder(inv: Investment, side: Side, quantity: int): Order {
    Order(inv.symbol, side, quantity as real, inv.currentPrice, inv.name, inv.kind)
  }

  /** The four messages `handleTrade` raises. */
  datatype Alert =
    | Purchased(units: int, name: string)
    | SoldUnits(units: int, name: string)
    | InsufficientFunds
    | InsufficientShares

  /** The ledger, the quantity field and the alert after a click on Buy or Sell. */
  datatype TradeOutcome = TradeOutcome(ledger: Snapshot, quantity: int, alert: Option<Alert>)

  /** Whether the order for the current selection, if any, stays within `executeTrade`'s arithmetic. */
  predicate TradeReady(s: Snapshot, catalog: seq<Investment>, selected: string, side: Side, quantity: int) {
    var inv := SelectedInvestment(catalog, selected);
    inv.Some? ==> TradeDefined(s, TradeOrder(inv.value, side, quantity))
  }

  /**
   * `handleTrade`: nothing happens without a selection; otherwise the order goes to the ledger
   * and the alert reports the outcome. A successful trade resets the quantity field to 1.
   */
  function HandleTrade(s: Snapshot, catalog: seq<Investment>, selected: string, side: Side, quantity: int,
                       now: int): TradeOutcome
    requires TradeReady(s, catalog, selected, side, quantity)
  {
    match SelectedInvestment(catalog, selected)
    case None => TradeOutcome(s, quantity, None)
    case Some(inv) =>
      match ApplyTrade(s, TradeOrder(inv, side, quantity), now)
      case Some(r) =>
        TradeOutcome(r, 1, Some(if side == Buy then Purchased(quantity, inv.name) else SoldUnits(quantity, inv.name)))
      case None =>
        TradeOutcome(s, quantity, Some(if side == Buy then InsufficientFunds else InsufficientShares))
  }

  /** A successful trade's alert. */
  predicate Succeeded(out: TradeOutcome) {
    out.alert.Some? && (out.alert.value.Purchased? || out.alert.value.SoldUnits?)
  }

  /**
   * What a click does: with no selection nothing changes and nothing is shown; with one, the
   * ledger becomes `executeTrade`'s result on success and stays as it was on failure, the
   * quantity field goes back to 1 exactly on success, and the alert names the units and the
   * instrument.
   */
  lemma HandleTradeOutcome(s: Snapshot, catalog: seq<Investment>, selected: string, side: Side, quantity: int,
                           now: int)
    requires TradeReady(s, catalog, selected, side, quantity)
    ensures var out, inv := HandleTrade(s, catalog, selected, side, quantity, now), SelectedInvestment(catalog, selected);
      && (inv.None? ==> out == TradeOutcome(s, quantity, None))
      && (inv.Some? ==> out.alert.Some?)
      && (Succeeded(out) <==> inv.Some? && ApplyTrade(s, TradeOrder(inv.value, side, quantity), now).Some?)
      && (Succeeded(out) ==> out.ledger == ApplyTrade(s, TradeOrder(inv.value, side, quantity), now).value)
      && (!Succeeded(out) ==> out.ledger == s && out.quantity == quantity)
      && (Succeeded(out) ==> out.quantity == 1)
      && (Succeeded(out) ==> out.alert.value.units == quantity && out.alert.value.name == inv.value.name)
  {
  }

  /** A buy is refused with "Insufficient funds!" exactly when it costs more than the cash balance. */
  lemma BuyAlert(s: Snapshot, catalog: seq<Investment>, selected: string, quantity: int, now: int)
    requires TradeReady(s, catalog, selected, Buy, quantity)
    requires SelectedInvestment(catalog, selected).Some?
    ensures var inv := SelectedInvestment(catalog, selected).value;
      HandleTrade(s, catalog, selected, Buy, quantity, now).alert == Some(InsufficientFunds)
      <==> s.cash < quantity as real * inv.currentPrice
  {
    var inv := SelectedInvestment(catalog, selected).value;
    BuyNeedsFunds(s, TradeOrder(inv, Buy, quantity), now);
  }

  /**
   * A sell is refused with "Insufficient shares to sell!" exactly when no holding of the symbol
   * has that many units.
   */
  lemma SellAlert(s: Snapshot, catalog: seq<Investment>, selected: string, quantity: int, now: int)
    requires DistinctSymbols(s.holdings)
    requires SelectedInvestment(catalog, selected).Some?
    ensures TradeReady(s, catalog, selected, Sell, quantity)
    ensures var inv := SelectedInvestment(catalog, selected).value;
      HandleTrade(s, catalog, selected, Sell, quantity, now).alert == Some(InsufficientShares)
      <==> forall j :: 0 <= j < |s.holdings| && s.holdings[j].symbol == inv.symbol
             ==> s.holdings[j].quantity < quantity as real
  {
    var inv := SelectedInvestment(catalog, selected).value;
    SellNeedsShares(s, TradeOrder(inv, Sell, quantity), now);
  }

  // ---------------------------------------------------------------------------------------------
  // The quantity field: `parseInt(e.target.value) || 1`

  predicate IsDigit(c: char) {
    '0' <= c <= '9'
  }

  predicate IsSpace(c: char) {
    c == ' ' || c == '\t' || c == '\n' || c == '\r'
  }

  /** The input with its leading white space removed. */
  function TrimStart(s: string): string {
    if s != [] && IsSpace(s[0]) then TrimStart(s[1..]) else s
  }

  /** The number of digits at the front of `s`. */
  function DigitRun(s: string): (n: nat)
    ensures n <= |s|
  {
    if s != [] && IsDigit(s[0]) then 1 + DigitRun(s[1..]) else 0
  }

  /** The value of a string of decimal digits, read left to right. */
  function DigitsValue(ds: string): nat
    requires forall k :: 0 <= k < |ds| ==> IsDigit(ds[k])
  {
    if ds == [] then 0
    else
      var last := ds[|ds| - 1];
      assert IsDigit(last);
      10 * DigitsValue(ds[..|ds| - 1]) + (last as int - '0' as int)
  }

  lemma {:induction false} DigitRunDigits(s: string)
    ensures forall k :: 0 <= k < DigitRun(s) ==> IsDigit(s[k])
  {
    if s != [] && IsDigit(s[0]) {
      DigitRunDigits(s[1..]);
      assert forall k :: 0 < k < DigitRun(s) ==> s[k] == s[1..][k - 1];
    }
  }

  /**
   * `parseInt` in base 10: leading white space, an optional sign, then as many digits as follow;
   * `None` is `NaN`, when no digit follows.
   */
  function ParseInt(s: string): Option<int> {
    var t := TrimStart(s);
    var negative := t != [] && t[0] == '-';
    var body := if t != [] && (t[0] == '-' || t[0] == '+') then t[1..] else t;
    var n := DigitRun(body);
    DigitRunDigits(body);
    var value: int := DigitsValue(body[..n]);
    if n == 0 then None
    else if negative then Some(-value)
    else Some(value)
  }

  /** `parseInt(value) || 1`: `NaN` and 0 (falsy) become 1; every other value, negative ones too, passes. */
  function QuantityInput(s: string): (q: int)
    ensures q != 0
  {
    match ParseInt(s)
    case None => 1
    case Some(n) => if n == 0 then 1 else n
  }

  function DigitChar(d: nat): char
    requires d < 10
  {
    ('0' as int + d) as char
  }

  /** The decimal numeral of `n`, as the number field holds it. */
  function Numeral(n: nat): (r: string)
    ensures |r| > 0 && forall k :: 0 <= k < |r| ==> IsDigit(r[k])
  {
    if n < 10 then [DigitChar(n)] else Numeral(n / 10) + [DigitChar(n % 10)]
  }

  lemma {:induction false} NumeralValue(n: nat)
    ensures DigitsValue(Numeral(n)) == n
  {
    if n >= 10 {
      NumeralValue(n / 10);
      var r := Numeral(n);
      assert r[..|r| - 1] == Numeral(n / 10);
    } else {
      assert Numeral(n)[..0] == [];
    }
  }

  /** A run of digits followed by a non-digit (or nothing) is read to its end. */
  lemma {:induction false} DigitRunOf(ds: string, rest: string)
    requires forall k :: 0 <= k < |ds| ==> IsDigit(ds[k])
    requires rest == [] || !IsDigit(rest[0])
    ensures DigitRun(ds + rest) == |ds|
  {
    if ds != [] {
      assert (ds + rest)[0] == ds[0];
      assert (ds + rest)[1..] == ds[1..] + rest;
      DigitRunOf(ds[1..], rest);
    } else {
      assert ds + rest == rest;
    }
  }

  /**
   * `parseInt` reads back a numeral, with or without a minus sign, and stops at the first
   * non-digit: "12.5" and "3e2" read as 12 and 3.
   */
  lemma ParseNumeral(n: nat, rest: string)
    requires rest == [] || !IsDigit(rest[0])
    ensures ParseInt(Numeral(n) + rest) == Some(n)
    ensures ParseInt("-" + Numeral(n) + rest) == Some(-(n as int))
  {
    var ds := Numeral(n);
    NumeralValue(n);
    DigitRunOf(ds, rest);
    assert (ds + rest)[..|ds|] == ds;
    assert TrimStart(ds + rest) == ds + rest by {
      assert (ds + rest)[0] == ds[0];
    }
    var m := "-" + ds + rest;
    assert m[1..] == ds + rest;
  }

  /** A typed positive whole number is the quantity; a typed 0 or a field without digits gives 1. */
  lemma QuantityOfNumeral(n: nat)
    ensures QuantityInput(Numeral(n)) == if n == 0 then 1 else n
    ensures QuantityInput("") == 1
  {
    ParseNumeral(n, "");
    assert Numeral(n) + "" == Numeral(n);
  }

  // ---------------------------------------------------------------------------------------------
  // History

  /** `[...portfolio.transactions].reverse()`: newest first, without reordering the log itself. */
  function History(s: Snapshot): seq<Transaction> {
    Reverse(s.transactions)
  }

  /** After a successful trade the history starts with that trade, followed by the earlier history. */
  lemma HistoryNewestFirst(s: Snapshot, catalog: seq<Investment>, selected: string, side: Side, quantity: int,
                           now: int)
    requires TradeReady(s, catalog, selected, side, quantity)
    requires Succeeded(HandleTrade(s, catalog, selected, side, quantity, now))
    ensures var inv := SelectedInvestment(catalog, selected).value;
      History(HandleTrade(s, catalog, selected, side, quantity, now).ledger)
      == [Record(TradeOrder(inv, side, quantity), now)] + History(s)
  {
    var inv := SelectedInvestment(catalog, selected).value;
    var o := TradeOrder(inv, side, quantity);
    TradeLogs(s, o, now);
    ReverseAppend(s.transactions, Record(o, now));
  }

  /** A trade that goes through appends exactly its own record to the log. */
  lemma TradeLogs(s: Snapshot, o: Order, now: int)
    requires TradeDefined(s, o)
    requires ApplyTrade(s, o, now).Some?
    ensures ApplyTrade(s, o, now).value.transactions == s.transactions + [Record(o, now)]
  {
  }

  /** The history lists every transaction of the log, each once, the last one first. */
  lemma HistoryIsReversedLog(s: Snapshot)
    ensures |History(s)| == |s.transactions|
    ensures forall k :: 0 <= k < |s.transactions| ==> History(s)[k] == s.transactions[|s.transactions| - 1 - k]
    ensures History(s) == [] <==> s.transactions == []
  {
  }
}

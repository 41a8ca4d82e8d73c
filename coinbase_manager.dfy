/** The Coinbase portfolio manager: the account list the exchange returns,
    turned into a balance per currency and cached for a minute; the value of
    the portfolio at given prices, with the share of each crypto position;
    the value of one position; and the order replies made up when no
    credentials are configured. The exchange is an oracle: the reply to the
    accounts request, or the exception raised getting it. */
module CoinbaseManager {
  import opened Common

  /** One currency's account: total, free and reserved quantity. */
  datatype Balance = Balance(balance: real, available: real, hold: real)

  /** The balance per currency, in the order the accounts came. */
  type Portfolio = Dict<Balance>

  /** A crypto holding in the valuation. */
  datatype Position = Position(quantity: real, valueUsd: real, percentage: real)

  /** `calculate_portfolio_value`'s record. */
  datatype Valuation = Valuation(totalValueUsd: real, cryptoValueUsd: real, usdBalance: real,
                                 positions: Dict<Position>)

  /** `get_position_value`'s record; `currentPrice` is absent for a
      currency the portfolio does not hold. */
  datatype PositionInfo = PositionInfo(quantity: real, valueUsd: real, available: real, hold: real,
                                       currentPrice: Option<real>)

  /** The reply to `GET /accounts`: its status and its body decoded as
      JSON, or `None` when the body is not JSON. */
  datatype AccountsReply = AccountsReply(status: int, body: Option<Json>)

  const CacheDuration: real := 60.0

  /** `_get_mock_portfolio`. */
  const MockPortfolio: Portfolio := [
    ("USD", Balance(10000.0, 10000.0, 0.0)),
    ("BTC", Balance(0.1, 0.1, 0.0)),
    ("ETH", Balance(1.5, 1.5, 0.0))
  ]

  // ---------------------------------------------------------------------
  // Accounts to balances (`get_portfolio_balance`, lines 96-105)
  // ---------------------------------------------------------------------

  /** `account[key]` read as a float: a missing key is a KeyError and a
      value `float` cannot read (null, list, object, bad text) raises. */
  function NumberAt(fields: Dict<Json>, key: string): (r: Result<real>)
    ensures Get(fields, key).None? ==> r == Err("KeyError")
    ensures r.Ok? ==> Get(fields, key).Some? && FloatOf(Get(fields, key).value) == Some(r.value)
  {
    match Get(fields, key)
    case None => Err("KeyError")
    case Some(v) =>
      match FloatOf(v)
      case Some(x) => Ok(x)
      case None => Err(if v.JStr? then "ValueError" else "TypeError")
  }

  /** One account as a currency and its balance. The currency is looked up
      first, the three numbers are read next, and only then is the currency
      used as a key: a list or object cannot be one (TypeError). Balances
      are keyed by text, so a currency that is null, a number or a boolean
      is a TypeError here too. */
  function ParseAccount(account: Json): (r: Result<(string, Balance)>)
    ensures !account.JObj? ==> r == Err("TypeError")
    ensures account.JObj? && Get(account.fields, "currency").None? ==> r == Err("KeyError")
    ensures account.JObj? && Get(account.fields, "currency").Some? && NumberAt(account.fields, "balance").Err? ==>
              r == Err(NumberAt(account.fields, "balance").error)
    ensures r.Ok? ==> account.JObj? && Get(account.fields, "currency") == Some(JStr(r.value.0))
    ensures r.Ok? ==> NumberAt(account.fields, "balance") == Ok(r.value.1.balance)
                      && NumberAt(account.fields, "available") == Ok(r.value.1.available)
                      && NumberAt(account.fields, "hold") == Ok(r.value.1.hold)
  {
    if !account.JObj? then Err("TypeError")
    else
      var currency := Get(account.fields, "currency");
      var balance := NumberAt(account.fields, "balance");
      var available := NumberAt(account.fields, "available");
      var hold := NumberAt(account.fields, "hold");
      if currency.None? then Err("KeyError")
      else if balance.Err? then Err(balance.error)
      else if available.Err? then Err(available.error)
      else if hold.Err? then Err(hold.error)
      else if !currency.value.JStr? then Err("TypeError")
      else Ok((currency.value.s, Balance(balance.value, available.value, hold.value)))
  }

  /** Each account's entry, in order. */
  function AccountEntries(accounts: seq<Json>): (rs: seq<Result<(string, Balance)>>)
    ensures |rs| == |accounts| && forall i :: 0 <= i < |accounts| ==> rs[i] == ParseAccount(accounts[i])
  {
    seq(|accounts|, i requires 0 <= i < |accounts| => ParseAccount(accounts[i]))
  }

  /** `portfolio[currency] = ...` for each entry in turn. */
  function Assign(entries: seq<(string, Balance)>): (p: Portfolio) {
    if entries == [] then []
    else
      var last := entries[|entries| - 1];
      Put(Assign(entries[..|entries| - 1]), last.0, last.1)
  }

  /** The currencies named by the entries. */
  function Currencies(entries: seq<(string, Balance)>): set<string> {
    set i | 0 <= i < |entries| :: entries[i].0
  }

  lemma CurrenciesExtend(entries: seq<(string, Balance)>)
    requires entries != []
    ensures Currencies(entries) == Currencies(entries[..|entries| - 1]) + {entries[|entries| - 1].0}
  {
    var front := entries[..|entries| - 1];
    forall c | c in Currencies(entries) ensures c in Currencies(front) + {entries[|entries| - 1].0} {
      var i :| 0 <= i < |entries| && entries[i].0 == c;
      if i < |front| {
        assert front[i].0 == c;
      }
    }
    forall c | c in Currencies(front) ensures c in Currencies(entries) {
      var i :| 0 <= i < |front| && front[i].0 == c;
      assert entries[i].0 == c;
    }
  }

  /** The balances hold exactly the currencies of the accounts. */
  lemma {:induction false} AssignKeys(entries: seq<(string, Balance)>)
    ensures KeySet(Assign(entries)) == Currencies(entries)
  {
    if entries != [] {
      AssignKeys(entries[..|entries| - 1]);
      CurrenciesExtend(entries);
    }
  }

  /** The balance of the last entry for `currency`: the one that survives
      the assignments. */
  function LastFor(entries: seq<(string, Balance)>, currency: string): (r: Option<Balance>)
    ensures r.Some? ==> exists i :: 0 <= i < |entries| && entries[i] == (currency, r.value)
  {
    if entries == [] then None
    else if entries[|entries| - 1].0 == currency then Some(entries[|entries| - 1].1)
    else LastFor(entries[..|entries| - 1], currency)
  }

  /** Assignment keeps one entry per currency, and a later account for the
      same currency overwrites the earlier one. */
  lemma {:induction false} AssignLastWins(entries: seq<(string, Balance)>, currency: string)
    ensures DistinctKeys(Assign(entries))
    ensures Get(Assign(entries), currency) == LastFor(entries, currency)
  {
    if entries != [] {
      var front := entries[..|entries| - 1];
      var last := entries[|entries| - 1];
      AssignLastWins(front, currency);
      PutDistinct(Assign(front), last.0, last.1);
    }
  }

  /** The accounts-to-balances loop: the balances, or the exception the
      first malformed account raises. */
  function Balances(accounts: seq<Json>): (r: Result<Portfolio>)
    ensures r.Ok? <==> forall i :: 0 <= i < |accounts| ==> ParseAccount(accounts[i]).Ok?
  {
    match AllOk(AccountEntries(accounts))
    case Err(e) => Err(e)
    case Ok(entries) => Ok(Assign(entries))
  }

  /** Iterating the decoded body: a list gives its items; an empty object
      or string gives nothing to iterate; any other body makes the loop
      raise a TypeError (keys and characters cannot be subscripted by
      `'currency'`, and scalars cannot be iterated). */
  function AccountList(body: Json): (r: Result<seq<Json>>)
    ensures body.JArr? ==> r == Ok(body.items)
    ensures r.Ok? && !body.JArr? ==> r == Ok([])
  {
    match body
    case JArr(items) => Ok(items)
    case JObj(fields) => if fields == [] then Ok([]) else Err("TypeError")
    case JStr(s) => if s == [] then Ok([]) else Err("TypeError")
    case _ => Err("TypeError")
  }

  /** One more entry is one more assignment. */
  lemma AssignExtend(entries: seq<(string, Balance)>, entry: (string, Balance))
    ensures Assign(entries + [entry]) == Put(Assign(entries), entry.0, entry.1)
  {
    assert (entries + [entry])[..|entries|] == entries;
  }

  /** A malformed account after well-formed ones ends the loop with its
      error. */
  lemma BalancesStop(accounts: seq<Json>, i: nat)
    requires i < |accounts| && AllOk(AccountEntries(accounts)[..i]).Ok? && ParseAccount(accounts[i]).Err?
    ensures Balances(accounts) == Err(ParseAccount(accounts[i]).error)
  {
    AllOkStops(AccountEntries(accounts), i);
  }

  /** Well-formed accounts throughout: the balances are their assignment. */
  lemma BalancesComplete(accounts: seq<Json>, entries: seq<(string, Balance)>)
    requires AllOk(AccountEntries(accounts)[..|accounts|]) == Ok(entries)
    ensures Balances(accounts) == Ok(Assign(entries))
  {
    WholePrefix(AccountEntries(accounts));
  }

  /** The balances the accounts loop builds, one pass over the accounts. */
  method ParseAccounts(accounts: seq<Json>) returns (r: Result<Portfolio>)
    ensures r == Balances(accounts)
  {
    ghost var rs := AccountEntries(accounts);
    ghost var entries: seq<(string, Balance)> := [];
    var portfolio: Portfolio := [];
    var i := 0;
    while i < |accounts|
      invariant i <= |accounts|
      invariant AllOk(rs[..i]) == Ok(entries)
      invariant portfolio == Assign(entries)
    {
      var entry := ParseAccount(accounts[i]);
      if entry.Err? {
        BalancesStop(accounts, i);
        return Err(entry.error);
      }
      AllOkExtend(rs, i);
      AssignExtend(entries, entry.value);
      entries := entries + [entry.value];
      portfolio := Put(portfolio, entry.value.0, entry.value.1);
      i := i + 1;
    }
    BalancesComplete(accounts, entries);
    r := Ok(portfolio);
  }

  // ---------------------------------------------------------------------
  // Valuation (`calculate_portfolio_value`)
  // ---------------------------------------------------------------------

  /** `current_prices.get(currency, 0.0)`. */
  function PriceOf(prices: Dict<real>, currency: string): (p: real)
    ensures currency !in KeySet(prices) ==> p == 0.0
    ensures currency in KeySet(prices) ==> Get(prices, currency) == Some(p)
  {
    Get(prices, currency).GetOr(0.0)
  }

  /** `quantity * current_price`. */
  function Worth(quantity: real, price: real): real {
    quantity * price
  }

  /** What one balance adds to the total: dollars count as themselves, any
      other currency at its price (zero when unpriced). */
  function EntryValue(entry: (string, Balance), prices: Dict<real>): real {
    if entry.0 == "USD" then entry.1.balance else Worth(entry.1.balance, PriceOf(prices, entry.0))
  }

  function TotalValue(p: Portfolio, prices: Dict<real>): real {
    if p == [] then 0.0 else TotalValue(p[..|p| - 1], prices) + EntryValue(p[|p| - 1], prices)
  }

  function CryptoValue(p: Portfolio, prices: Dict<real>): real {
    if p == [] then 0.0
    else CryptoValue(p[..|p| - 1], prices) + (if p[|p| - 1].0 == "USD" then 0.0 else EntryValue(p[|p| - 1], prices))
  }

  /** The dollar balance: the last `USD` entry's, or 0 without one. */
  function UsdBalance(p: Portfolio): real {
    if p == [] then 0.0
    else if p[|p| - 1].0 == "USD" then p[|p| - 1].1.balance
    else UsdBalance(p[..|p| - 1])
  }

  /** The crypto positions before percentages: each non-dollar currency
      with a positive quantity, valued at its price. */
  function Positions(p: Portfolio, prices: Dict<real>): (ps: Dict<Position>) {
    if p == [] then []
    else
      var ps := Positions(p[..|p| - 1], prices);
      var c := p[|p| - 1].0;
      var b := p[|p| - 1].1;
      if c != "USD" && b.balance > 0.0 then Put(ps, c, Position(b.balance, EntryValue(p[|p| - 1], prices), 0.0)) else ps
  }

  /** The positions are exactly the non-dollar currencies held in a
      positive quantity. */
  lemma {:induction false} PositionKeys(p: Portfolio, prices: Dict<real>)
    ensures KeySet(Positions(p, prices)) == set i | 0 <= i < |p| && p[i].0 != "USD" && p[i].1.balance > 0.0 :: p[i].0
  {
    if p != [] {
      var front := p[..|p| - 1];
      PositionKeys(front, prices);
      forall c ensures c in KeySet(Positions(p, prices))
                       <==> (exists i :: 0 <= i < |p| && p[i].0 != "USD" && p[i].1.balance > 0.0 && p[i].0 == c) {
        if c in KeySet(Positions(front, prices)) {
          var i :| 0 <= i < |front| && front[i].0 != "USD" && front[i].1.balance > 0.0 && front[i].0 == c;
          assert p[i] == front[i];
        }
        if exists i :: 0 <= i < |p| && p[i].0 != "USD" && p[i].1.balance > 0.0 && p[i].0 == c {
          var i :| 0 <= i < |p| && p[i].0 != "USD" && p[i].1.balance > 0.0 && p[i].0 == c;
          if i < |front| {
            assert front[i] == p[i];
          }
        }
      }
    }
  }

  /** Every position's share of `total`, in percent. */
  function WithPercentages(ps: Dict<Position>, total: real): (qs: Dict<Position>)
    requires total != 0.0
    ensures |qs| == |ps|
    ensures forall i :: 0 <= i < |ps| ==>
              qs[i].0 == ps[i].0 && qs[i].1 == ps[i].1.(percentage := ps[i].1.valueUsd / total * 100.0)
  {
    seq(|ps|, i requires 0 <= i < |ps| => (ps[i].0, ps[i].1.(percentage := ps[i].1.valueUsd / total * 100.0)))
  }

  /** `calculate_portfolio_value`: totals over the balances, then the
      percentages when the total is positive. */
  function Valuate(p: Portfolio, prices: Dict<real>): (v: Valuation)
    ensures |v.positions| == |Positions(p, prices)|
    ensures forall j :: 0 <= j < |v.positions| ==> v.positions[j].0 == Positions(p, prices)[j].0
  {
    var total := TotalValue(p, prices);
    var ps := Positions(p, prices);
    var positions := if total > 0.0 then WithPercentages(ps, total) else ps;
    assert forall i :: 0 <= i < |ps| ==> positions[i].0 == ps[i].0;
    Valuation(total, CryptoValue(p, prices), UsdBalance(p), positions)
  }

  /** `calculate_portfolio_value` as the source runs it: one pass adding up
      and collecting positions, a second pass filling in percentages. */
  method CalculatePortfolioValue(portfolio: Portfolio, prices: Dict<real>) returns (v: Valuation)
    ensures v == Valuate(portfolio, prices)
  {
    var total, crypto, usd := 0.0, 0.0, 0.0;
    var positions: Dict<Position> := [];
    var i := 0;
    while i < |portfolio|
      invariant i <= |portfolio|
      invariant total == TotalValue(portfolio[..i], prices)
      invariant crypto == CryptoValue(portfolio[..i], prices)
      invariant usd == UsdBalance(portfolio[..i])
      invariant positions == Positions(portfolio[..i], prices)
    {
      var (currency, info) := portfolio[i];
      var quantity := info.balance;
      assert portfolio[..i + 1][..i] == portfolio[..i];
      if currency == "USD" {
        usd := quantity;
        total := total + quantity;
      } else {
        var price := PriceOf(prices, currency);
        var value := Worth(quantity, price);
        crypto := crypto + value;
        total := total + value;
        if quantity > 0.0 {
          positions := Put(positions, currency, Position(quantity, value, 0.0));
        }
      }
      i := i + 1;
    }
    assert portfolio[..i] == portfolio;
    if total > 0.0 {
      ghost var before := positions;
      var j := 0;
      while j < |positions|
        invariant j <= |positions| == |before|
        invariant positions[..j] == WithPercentages(before[..j], total)
        invariant positions[j..] == before[j..]
      {
        var (currency, position) := positions[j];
        assert positions[j] == before[j];
        positions := positions[j := (currency, position.(percentage := position.valueUsd / total * 100.0))];
        assert before[..j + 1] == before[..j] + [before[j]];
        j := j + 1;
      }
      assert before[..j] == before;
    }
    v := Valuation(total, crypto, usd, positions);
  }

  /** A currency without a dollar entry among the balances leaves the
      dollar balance at 0 and the total equal to the crypto value. */
  lemma {:induction false} NoDollars(p: Portfolio, prices: Dict<real>)
    requires forall i :: 0 <= i < |p| ==> p[i].0 != "USD"
    ensures UsdBalance(p) == 0.0 && TotalValue(p, prices) == CryptoValue(p, prices)
  {
    if p != [] {
      NoDollars(p[..|p| - 1], prices);
    }
  }

  /** The total is the dollar balance plus the crypto value, for balances
      keyed once per currency as a dict keeps them. */
  lemma {:induction false} TotalIsDollarsPlusCrypto(p: Portfolio, prices: Dict<real>)
    requires DistinctKeys(p)
    ensures TotalValue(p, prices) == UsdBalance(p) + CryptoValue(p, prices)
  {
    if p != [] {
      var front := p[..|p| - 1];
      assert DistinctKeys(front);
      if p[|p| - 1].0 == "USD" {
        NoDollars(front, prices);
      } else {
        TotalIsDollarsPlusCrypto(front, prices);
      }
    }
  }

  /** Each position of a held, non-dollar currency records its quantity and
      its value at the given price (`EntryValue`: quantity times price). */
  lemma {:induction false} PositionOf(p: Portfolio, prices: Dict<real>, i: nat)
    requires DistinctKeys(p) && i < |p| && p[i].0 != "USD" && p[i].1.balance > 0.0
    ensures Get(Positions(p, prices), p[i].0) == Some(Position(p[i].1.balance, EntryValue(p[i], prices), 0.0))
  {
    var front := p[..|p| - 1];
    var last := p[|p| - 1];
    var ps := Positions(front, prices);
    var v := Position(last.1.balance, EntryValue(last, prices), 0.0);
    var stored := last.0 != "USD" && last.1.balance > 0.0;
    assert Positions(p, prices) == if stored then Put(ps, last.0, v) else ps;
    if i < |p| - 1 {
      assert DistinctKeys(front) && front[i] == p[i];
      PositionOf(front, prices, i);
      assert p[i].0 != last.0;
      if stored {
        assert Get(Put(ps, last.0, v), p[i].0) == Get(ps, p[i].0);
      }
    } else {
      assert last == p[i] && stored;
      assert Get(Put(ps, last.0, v), last.0) == Some(v);
    }
  }

  /** With a positive total, every position's percentage is its value over
      the total, times 100; otherwise every percentage stays 0. */
  lemma PercentageOf(p: Portfolio, prices: Dict<real>, j: nat)
    requires j < |Valuate(p, prices).positions|
    ensures var v := Valuate(p, prices);
            var ps := Positions(p, prices);
            && v.positions[j].0 == ps[j].0
            && v.positions[j].1.valueUsd == ps[j].1.valueUsd
            && (v.totalValueUsd > 0.0 ==> v.positions[j].1.percentage == ps[j].1.valueUsd / v.totalValueUsd * 100.0)
            && (v.totalValueUsd <= 0.0 ==> v.positions[j].1.percentage == 0.0)
  {
    PositionsUnpriced(p, prices, j);
  }

  /** Positions are stored with a zero percentage. */
  lemma {:induction false} PositionsUnpriced(p: Portfolio, prices: Dict<real>, j: nat)
    requires j < |Positions(p, prices)|
    ensures Positions(p, prices)[j].1.percentage == 0.0
  {
    var front := p[..|p| - 1];
    var (c, b) := p[|p| - 1];
    var ps := Positions(front, prices);
    if c != "USD" && b.balance > 0.0 {
      var r := Put(ps, c, Position(b.balance, EntryValue((c, b), prices), 0.0));
      if c in KeySet(ps) {
        KeySetIndexOf(ps, c);
        var k := IndexOf(ps, c);
        PutAt(ps, c, Position(b.balance, EntryValue((c, b), prices), 0.0), k);
        if j != k {
          PositionsUnpriced(front, prices, j);
        }
      } else if j < |ps| {
        PositionsUnpriced(front, prices, j);
      }
    } else {
      PositionsUnpriced(front, prices, j);
    }
  }

  /** Where `Put` stores the entry of a key already present. */
  lemma PutAt<V>(d: Dict<V>, k: string, v: V, i: nat)
    requires i == IndexOf(d, k) && i < |d|
    ensures Put(d, k, v) == d[i := (k, v)]
  {
  }

  /** The prices of the module's demonstration run. */
  const DemoPrices: Dict<real> := [("BTC", 45000.0), ("ETH", 3000.0)]

  lemma DemoPricesRead()
    ensures PriceOf(DemoPrices, "BTC") == 45000.0 && PriceOf(DemoPrices, "ETH") == 3000.0
  {
    assert Get(DemoPrices, "BTC") == Some(45000.0);
    assert Get(DemoPrices, "ETH") == Some(3000.0);
  }

  /** The demonstration balances at the demonstration prices: 10000
      dollars, 4500 in BTC and 4500 in ETH. */
  lemma DemoTotals()
    ensures TotalValue(MockPortfolio, DemoPrices) == 19000.0
    ensures CryptoValue(MockPortfolio, DemoPrices) == 9000.0
    ensures UsdBalance(MockPortfolio) == 10000.0
  {
    DemoPricesRead();
    var p := MockPortfolio;
    var p1, p2 := p[..1], p[..2];
    assert p1 == [p[0]] && p2 == [p[0], p[1]] && p2[..1] == p1 && p1[..0] == [] && p[..|p| - 1] == p2;
    assert EntryValue(p[0], DemoPrices) == 10000.0;
    assert EntryValue(p[1], DemoPrices) == 4500.0;
    assert EntryValue(p[2], DemoPrices) == 4500.0;
    assert TotalValue(p1, DemoPrices) == 10000.0 && CryptoValue(p1, DemoPrices) == 0.0;
    assert TotalValue(p2, DemoPrices) == 14500.0 && CryptoValue(p2, DemoPrices) == 4500.0;
  }

  /** The demonstration positions: BTC then ETH, 4500 each. */
  lemma DemoPositions()
    ensures Positions(MockPortfolio, DemoPrices)
            == [("BTC", Position(0.1, 4500.0, 0.0)), ("ETH", Position(1.5, 4500.0, 0.0))]
  {
    DemoPricesRead();
    var p := MockPortfolio;
    var p1, p2 := p[..1], p[..2];
    assert p1 == [p[0]] && p2 == [p[0], p[1]] && p2[..1] == p1 && p1[..0] == [] && p[..|p| - 1] == p2;
    assert EntryValue(p[1], DemoPrices) == 4500.0;
    assert EntryValue(p[2], DemoPrices) == 4500.0;
    assert Positions(p1, DemoPrices) == [];
    var btc := Position(0.1, 4500.0, 0.0);
    var eth := Position(1.5, 4500.0, 0.0);
    var ps2 := [("BTC", btc)];
    assert Positions(p2, DemoPrices) == Put([], "BTC", btc);
    assert Put([], "BTC", btc) == ps2;
    assert "ETH" !in KeySet(ps2);
    assert Positions(p, DemoPrices) == Put(ps2, "ETH", eth);
  }

  /** `calculate_portfolio_value` on the demonstration balances and prices:
      a total of 19000, with each crypto position 4500/19000 of it. */
  lemma DemoValuation()
    ensures var v := Valuate(MockPortfolio, DemoPrices);
            && v.totalValueUsd == 19000.0 && v.cryptoValueUsd == 9000.0 && v.usdBalance == 10000.0
            && v.positions == [("BTC", Position(0.1, 4500.0, 4500.0 / 19000.0 * 100.0)),
                               ("ETH", Position(1.5, 4500.0, 4500.0 / 19000.0 * 100.0))]
  {
    DemoTotals();
    DemoPositions();
  }

  // ---------------------------------------------------------------------
  // One position (`get_position_value`)
  // ---------------------------------------------------------------------

  /** `get_position_value` on the balances: a zero record without a price
      for a currency not held; otherwise the account's quantities and their
      value at the given price (zero when unpriced). */
  function PositionValue(p: Portfolio, symbol: string, prices: Dict<real>): (r: PositionInfo)
    ensures symbol !in KeySet(p) ==> r == PositionInfo(0.0, 0.0, 0.0, 0.0, None)
    ensures symbol in KeySet(p) ==>
              && Get(p, symbol) == Some(Balance(r.quantity, r.available, r.hold))
              && r.currentPrice == Some(PriceOf(prices, symbol))
              && r.valueUsd == Worth(r.quantity, r.currentPrice.value)
  {
    match Get(p, symbol)
    case None => PositionInfo(0.0, 0.0, 0.0, 0.0, None)
    case Some(b) =>
      var price := PriceOf(prices, symbol);
      PositionInfo(b.balance, Worth(b.balance, price), b.available, b.hold, Some(price))
  }

  /** The value `get_position_value` reports for a held crypto currency is
      the value of its position in the portfolio valuation. */
  lemma PositionValueAgrees(p: Portfolio, prices: Dict<real>, i: nat)
    requires DistinctKeys(p) && i < |p| && p[i].0 != "USD" && p[i].1.balance > 0.0
    ensures Get(Positions(p, prices), p[i].0).Some?
    ensures PositionValue(p, p[i].0, prices).valueUsd == Get(Positions(p, prices), p[i].0).value.valueUsd
  {
    PositionOf(p, prices, i);
    IndexOfUnique(p, p[i].0, i);
    KeySetIndexOf(p, p[i].0);
  }

  // ---------------------------------------------------------------------
  // Order replies made up without credentials (`_mock_order_response`)
  // ---------------------------------------------------------------------

  /** `int(x)`: truncation toward zero. */
  function Truncate(x: real): (n: int)
    ensures x >= 0.0 ==> n == x.Floor
    ensures x < 0.0 ==> n == -((-x).Floor)
  {
    if x >= 0.0 then x.Floor else -((-x).Floor)
  }

  /** `str(n)` of an integer. */
  function IntToString(n: int): string {
    if n < 0 then "-" + NatToString(-n) else NatToString(n)
  }

  /** `_mock_order_response`: an accepted order carries an id made from the
      clock and echoes the product, side and size; a failed one carries a
      message and `success = False`, and no id. The size is kept as a number
      (its decimal text is not modelled). */
  function MockOrderResponse(symbol: string, side: string, size: real, success: bool, now: real): (r: Json)
    ensures r.JObj?
    ensures success <==> Get(r.fields, "id").Some?
    ensures success ==> Get(r.fields, "product_id") == Some(JStr(symbol))
                        && Get(r.fields, "side") == Some(JStr(side))
                        && Get(r.fields, "size") == Some(JNum(size))
                        && Get(r.fields, "status") == Some(JStr("pending"))
                        && Get(r.fields, "type") == Some(JStr("market"))
    ensures success ==> Truthy(Get(r.fields, "id").value)
    ensures !success ==> Get(r.fields, "success") == Some(JBool(false))
  {
    if success then
      var id := "mock-order-" + IntToString(Truncate(now));
      PlacedOrderRead(id, symbol, side, size);
      JObj(PlacedOrder(id, symbol, side, size))
    else
      var fields := [("message", JStr("Mock order failed")), ("success", JBool(false))];
      IndexOfUnique(fields, "id", 2);
      IndexOfUnique(fields, "success", 1);
      JObj(fields)
  }

  /** The fields of a placed mock order, in the source's order. */
  function PlacedOrder(id: string, symbol: string, side: string, size: real): Dict<Json> {
    [("id", JStr(id)), ("product_id", JStr(symbol)), ("side", JStr(side)), ("size", JNum(size)),
     ("status", JStr("pending")), ("type", JStr("market"))]
  }

  lemma PlacedOrderRead(id: string, symbol: string, side: string, size: real)
    ensures var fields := PlacedOrder(id, symbol, side, size);
      && Get(fields, "id") == Some(JStr(id))
      && Get(fields, "product_id") == Some(JStr(symbol))
      && Get(fields, "side") == Some(JStr(side))
      && Get(fields, "size") == Some(JNum(size))
      && Get(fields, "status") == Some(JStr("pending"))
      && Get(fields, "type") == Some(JStr("market"))
  {
    var fields := PlacedOrder(id, symbol, side, size);
    IndexOfUnique(fields, "id", 0);
    IndexOfUnique(fields, "product_id", 1);
    IndexOfUnique(fields, "side", 2);
    IndexOfUnique(fields, "size", 3);
    IndexOfUnique(fields, "status", 4);
    IndexOfUnique(fields, "type", 5);
  }

  // ---------------------------------------------------------------------
  // The manager and its one-minute cache
  // ---------------------------------------------------------------------

  /** The balances `get_portfolio_balance` fetches when the cache is stale:
      the parsed accounts of a successful request (`Some`), or `None` when
      the source falls back to the demonstration balances — no credentials,
      a request that raised, a status other than 200, a body that is not
      JSON or not an account list, or a malformed account. */
  function Fetched(hasCredentials: bool, reply: Result<AccountsReply>): (r: Option<Portfolio>)
    ensures r.Some? ==> hasCredentials && reply.Ok? && reply.value.status == 200 && reply.value.body.Some?
    ensures r.Some? ==> DistinctKeys(r.value)
  {
    if !hasCredentials || reply.Err? || reply.value.status != 200 || reply.value.body.None? then None
    else
      match AccountList(reply.value.body.value)
      case Err(_) => None
      case Ok(accounts) =>
        match Balances(accounts)
        case Err(_) => None
        case Ok(p) =>
          var entries := AllOk(AccountEntries(accounts)).value;
          AssignLastWins(entries, "");
          Some(p)
  }

  class CoinbasePortfolioManager {
    /** All of key, secret and passphrase are configured. */
    const hasCredentials: bool
    const cacheDuration: real
    var portfolioCache: Portfolio
    var lastCacheTime: real

    constructor(hasCredentials: bool)
      ensures this.hasCredentials == hasCredentials && cacheDuration == CacheDuration
      ensures portfolioCache == [] && lastCacheTime == 0.0
    {
      this.hasCredentials := hasCredentials;
      cacheDuration := CacheDuration;
      portfolioCache := [];
      lastCacheTime := 0.0;
    }

    /** `_is_cache_valid`: the last store is younger than the cache
        duration. */
    predicate IsCacheValid(now: real)
      reads this
    {
      now - lastCacheTime < cacheDuration
    }

    /** `_update_cache`: both fields are set. */
    method UpdateCache(portfolio: Portfolio, now: real)
      modifies this
      ensures portfolioCache == portfolio && lastCacheTime == now
      ensures IsCacheValid(now) <==> cacheDuration > 0.0
    {
      portfolioCache := portfolio;
      lastCacheTime := now;
    }

    /** `get_portfolio_balance`: a fresh cache is served as it is; otherwise
        fetched balances are cached and returned, and the demonstration
        balances are returned without touching the cache. */
    method GetPortfolioBalance(reply: Result<AccountsReply>, now: real) returns (portfolio: Portfolio)
      modifies this
      ensures old(IsCacheValid(now)) ==> portfolio == old(portfolioCache) && unchanged(this)
      ensures !old(IsCacheValid(now)) && Fetched(hasCredentials, reply).Some? ==>
                portfolio == Fetched(hasCredentials, reply).value
                && portfolioCache == portfolio && lastCacheTime == now
      ensures !old(IsCacheValid(now)) && Fetched(hasCredentials, reply).None? ==>
                portfolio == MockPortfolio && unchanged(this)
    {
      if IsCacheValid(now) {
        return portfolioCache;
      }
      if !hasCredentials || reply.Err? || reply.value.status != 200 || reply.value.body.None? {
        return MockPortfolio;
      }
      var accounts := AccountList(reply.value.body.value);
      if accounts.Err? {
        return MockPortfolio;
      }
      var parsed := ParseAccounts(accounts.value);
      if parsed.Err? {
        return MockPortfolio;
      }
      UpdateCache(parsed.value, now);
      portfolio := parsed.value;
    }
  }
}

/** The two-exchange price guard: fetch a spot price from Binance and from
    Coinbase and accept their average only when the two agree within a
    relative tolerance read from the environment. HTTP is a parameter: a
    function from URL to the decoded body, or to the exception the request
    raised (a network error or a non-success status). */
module PriceGuard {
  import opened Common

  /** The tolerance used when the environment gives none or an unreadable one. */
  const RelTolDefault: real := 0.005

  /** `_rel_tol`: the variable's text as a float, or the default when it is
      unset or does not parse. */
  function RelTol(env: Option<string>): (t: real)
    ensures env.None? ==> t == RelTolDefault
    ensures env.Some? && ParseDecimal(Strip(env.value)).Some? ==> t == ParseDecimal(Strip(env.value)).value
    ensures env.Some? && ParseDecimal(Strip(env.value)).None? ==> t == RelTolDefault
  {
    match env
    case None => RelTolDefault
    case Some(text) =>
      match FloatOf(JStr(text))
      case Some(v) => v
      case None => RelTolDefault
  }

  /** `_binance_symbol`: the upper-cased symbol quoted in USDT. */
  function BinanceSymbol(symbol: string): (r: string)
    ensures |r| == |symbol| + 4
    ensures r[..|symbol|] == Upper(symbol) && r[|symbol|..] == "USDT"
  {
    Upper(symbol) + "USDT"
  }

  /** `_coinbase_product`: the upper-cased symbol against USD. */
  function CoinbaseProduct(symbol: string): (r: string)
    ensures |r| == |symbol| + 4
    ensures r[..|symbol|] == Upper(symbol) && r[|symbol|..] == "-USD"
  {
    Upper(symbol) + "-USD"
  }

  /** The exchange names ignore the case of the symbol they are given. */
  lemma ExchangeNamesIgnoreCase(symbol: string)
    ensures BinanceSymbol(Upper(symbol)) == BinanceSymbol(symbol)
    ensures CoinbaseProduct(Upper(symbol)) == CoinbaseProduct(symbol)
  {
    UpperIdempotent(symbol);
  }

  /** Two symbols name the same Binance pair exactly when they name the same
      Coinbase product: both are their upper-cased forms. */
  lemma ExchangeNamesAgree(a: string, b: string)
    ensures BinanceSymbol(a) == BinanceSymbol(b) <==> Upper(a) == Upper(b)
    ensures CoinbaseProduct(a) == CoinbaseProduct(b) <==> Upper(a) == Upper(b)
  {
    if BinanceSymbol(a) == BinanceSymbol(b) {
      assert Upper(a) == BinanceSymbol(a)[..|a|];
    }
    if CoinbaseProduct(a) == CoinbaseProduct(b) {
      assert Upper(a) == CoinbaseProduct(a)[..|a|];
    }
  }

  function BinanceUrl(symbol: string): string {
    "https://api.binance.com/api/v3/ticker/price?symbol=" + BinanceSymbol(symbol)
  }

  function CoinbaseUrl(symbol: string): string {
    "https://api.exchange.coinbase.com/products/" + CoinbaseProduct(symbol) + "/ticker"
  }

  /** The body's `price` read as a float: a missing or null price is a
      ValueError, a body that is not an object has no `get`, and a price that
      `float` cannot read raises as `float` does. */
  function ParsePricePayload(data: Json): (r: Result<real>)
    ensures data.JObj? && Field(data.fields, "price").None? ==> r == Err("ValueError")
    ensures !data.JObj? ==> r == Err("AttributeError")
    ensures r.Ok? <==> data.JObj? && Field(data.fields, "price").Some?
                       && FloatOf(Field(data.fields, "price").value).Some?
    ensures r.Ok? ==> r.value == FloatOf(Field(data.fields, "price").value).value
  {
    match data
    case JObj(fields) =>
      (match Field(fields, "price")
       case None => Err("ValueError")
       case Some(price) =>
         match FloatOf(price)
         case Some(v) => Ok(v)
         case None => Err(if price.JStr? then "ValueError" else "TypeError"))
    case _ => Err("AttributeError")
  }

  /** A numeric or textual price is read; a missing or null one is a
      ValueError, a list a TypeError. */
  lemma PayloadExamples()
    ensures ParsePricePayload(JObj([("symbol", JStr("BTCUSDT")), ("price", JNum(45000.0))])) == Ok(45000.0)
    ensures ParsePricePayload(JObj([("price", JNull)])) == Err("ValueError")
    ensures ParsePricePayload(JObj([("price", JArr([]))])) == Err("TypeError")
    ensures ParsePricePayload(JArr([])) == Err("AttributeError")
  {
    assert Get([("symbol", JStr("BTCUSDT")), ("price", JNum(45000.0))], "price") == Some(JNum(45000.0));
    assert Get([("price", JNull)], "price") == Some(JNull);
    assert Get([("price", JArr([]))], "price") == Some(JArr([]));
  }

  /** The price one endpoint reports, or the exception raised getting it. */
  function Quote(http: string -> Result<Json>, url: string): Result<real> {
    match http(url)
    case Err(e) => Err(e)
    case Ok(data) => ParsePricePayload(data)
  }

  function PriceFromBinance(symbol: string, http: string -> Result<Json>): Result<real> {
    Quote(http, BinanceUrl(symbol))
  }

  function PriceFromCoinbase(symbol: string, http: string -> Result<Json>): Result<real> {
    Quote(http, CoinbaseUrl(symbol))
  }

  /** Whether two quotes pass the guard: a non-zero average and a divergence
      relative to that average of at most `tol`. */
  predicate Agree(p1: real, p2: real, tol: real) {
    var avg := (p1 + p2) / 2.0;
    avg != 0.0 && Abs(p1 - p2) / avg <= tol
  }

  /** Both quotes arrived and they agree. */
  predicate QuotesAgree(q1: Result<real>, q2: Result<real>, tol: real) {
    q1.Ok? && q2.Ok? && Agree(q1.value, q2.value, tol)
  }

  /** The decision `verify_prices` takes on the two quote outcomes: the
      first failure in asking order is reported; otherwise a zero average or
      a divergence beyond `tol` is a ValueError, and agreeing quotes are
      returned with their average. */
  function CheckQuotes(q1: Result<real>, q2: Result<real>, tol: real): (r: Result<(real, real, real)>)
    ensures q1.Err? ==> r == Err(q1.error)
    ensures q1.Ok? && q2.Err? ==> r == Err(q2.error)
    ensures q1.Ok? && q2.Ok? && !Agree(q1.value, q2.value, tol) ==> r == Err("ValueError")
    ensures r.Ok? <==> QuotesAgree(q1, q2, tol)
    ensures r.Ok? ==> r.value.0 == q1.value && r.value.1 == q2.value && r.value.2 + r.value.2 == q1.value + q2.value
  {
    if q1.Err? then Err(q1.error)
    else if q2.Err? then Err(q2.error)
    else
      var avg := (q1.value + q2.value) / 2.0;
      if avg == 0.0 then Err("ValueError")
      else if Abs(q1.value - q2.value) / avg > tol then Err("ValueError")
      else Ok((q1.value, q2.value, avg))
  }

  /** `verify_prices`: Binance is asked first, then Coinbase, and the quotes
      are checked against the tolerance the environment gives. */
  function VerifyPrices(symbol: string, http: string -> Result<Json>, env: Option<string>)
    : (r: Result<(real, real, real)>)
    ensures http(BinanceUrl(symbol)).Err? ==> r == Err(http(BinanceUrl(symbol)).error)
    ensures r.Ok? ==> http(BinanceUrl(symbol)).Ok? && http(CoinbaseUrl(symbol)).Ok?
    ensures r.Ok? <==> QuotesAgree(PriceFromBinance(symbol, http), PriceFromCoinbase(symbol, http), RelTol(env))
  {
    CheckQuotes(PriceFromBinance(symbol, http), PriceFromCoinbase(symbol, http), RelTol(env))
  }

  /** The guard does not care which exchange quoted which price. */
  lemma AgreeSymmetric(p1: real, p2: real, tol: real)
    ensures Agree(p1, p2, tol) <==> Agree(p2, p1, tol)
  {
    var avg := (p1 + p2) / 2.0;
    assert (p2 + p1) / 2.0 == avg;
    assert Abs(p2 - p1) == Abs(p1 - p2);
  }

  /** For a positive average, agreeing quotes differ by at most `tol` times
      the average, and each lies within `tol / 2` of it. */
  lemma AgreeBoundsSpread(p1: real, p2: real, tol: real)
    requires (p1 + p2) / 2.0 > 0.0 && Agree(p1, p2, tol)
    ensures Abs(p1 - p2) <= tol * ((p1 + p2) / 2.0)
    ensures Abs(p1 - (p1 + p2) / 2.0) <= tol / 2.0 * ((p1 + p2) / 2.0)
    ensures Abs(p2 - (p1 + p2) / 2.0) <= tol / 2.0 * ((p1 + p2) / 2.0)
  {
    var avg := (p1 + p2) / 2.0;
    var q := Abs(p1 - p2) / avg;
    MulMonotone(q, tol, avg);
    assert q * avg == Abs(p1 - p2);
    assert Abs(p1 - avg) == Abs(p1 - p2) / 2.0;
    assert Abs(p2 - avg) == Abs(p1 - p2) / 2.0;
    assert tol / 2.0 * avg == (tol * avg) / 2.0;
  }

  /** Conversely, quotes within `tol` of each other, relative to a positive
      average, pass. */
  lemma CloseQuotesAgree(p1: real, p2: real, tol: real)
    requires (p1 + p2) / 2.0 > 0.0 && Abs(p1 - p2) <= tol * ((p1 + p2) / 2.0)
    ensures Agree(p1, p2, tol)
  {
    var avg := (p1 + p2) / 2.0;
    DivMonotone(Abs(p1 - p2), tol * avg, avg);
    assert tol * avg / avg == tol;
  }

  /** A quote and its own copy always pass, unless both are zero. */
  lemma IdenticalQuotesAgree(p: real, tol: real)
    requires p != 0.0 && tol >= 0.0
    ensures Agree(p, p, tol)
  {
  }

  /** The guard rejects only a zero average, not a negative one, and a
      negative average makes the relative divergence negative: any two
      negative quotes pass, however far apart. */
  lemma NegativeQuotesAgree(p1: real, p2: real, tol: real)
    requires p1 < 0.0 && p2 < 0.0 && tol >= 0.0
    ensures Agree(p1, p2, tol)
  {
    var avg := (p1 + p2) / 2.0;
    assert avg < 0.0;
    NonPositiveQuotient(Abs(p1 - p2), avg);
  }

  lemma NonPositiveQuotient(x: real, d: real)
    requires x >= 0.0 && d < 0.0
    ensures x / d <= 0.0
  {
  }

  /** With the default tolerance, 100 and 100.4 pass (0.4 / 100.2 < 0.5%)
      and 100 and 101 do not. */
  lemma DefaultToleranceExamples()
    ensures Agree(100.0, 100.4, RelTol(None))
    ensures !Agree(100.0, 101.0, RelTol(None))
  {
  }
}

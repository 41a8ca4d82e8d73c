/** The trading system's orchestration: the per-symbol report built from the
    risk sizing, the stop/target levels and the advisor's recommendation;
    the three gates that make a report actionable; the execution dispatch
    on the advisor's action; and the analysis cycle's pass over the symbols
    that have a verified price. Placing an order is the exchange's call,
    passed in as a function from the order to the JSON it answers. */
module TradingSystem {
  import opened Common
  import RiskManager
  import CoinbaseManager
  import TradingAdvisor

  /** The trading configuration the orchestrator reads: the smallest trade
      worth placing and the per-trade risk budget (a fraction). */
  datatype Settings = Settings(minTradeAmount: real, riskPerTrade: real)

  /** The confidence, in percent, below which no advice is followed. */
  const MinConfidence: real := 60.0

  /** The demonstration stop: 5% under the current price. */
  const StopFactor: real := 0.95

  // ---------------------------------------------------------------------
  // `_is_actionable`
  // ---------------------------------------------------------------------

  /** A report is actionable when the sized position is worth at least the
      minimum trade, the advisor is at least 60% confident, and the loss at
      the stop stays within the per-trade budget (in percent). */
  function IsActionable(advice: TradingAdvisor.Recommendation, sizing: RiskManager.Sizing, settings: Settings): (ok: bool)
    ensures sizing.positionValueUsd < settings.minTradeAmount ==> !ok
    ensures advice.confidence < MinConfidence ==> !ok
    ensures sizing.maxLossPercentage > settings.riskPerTrade * 100.0 ==> !ok
    ensures ok <==> sizing.positionValueUsd >= settings.minTradeAmount && advice.confidence >= MinConfidence
                    && sizing.maxLossPercentage <= settings.riskPerTrade * 100.0
  {
    if sizing.positionValueUsd < settings.minTradeAmount then false
    else if advice.confidence < MinConfidence then false
    else if sizing.maxLossPercentage > settings.riskPerTrade * 100.0 then false
    else true
  }

  /** The advisor's safe fallback is never acted upon. */
  lemma FallbackNeverActionable(symbol: string, sizing: RiskManager.Sizing, settings: Settings)
    ensures !IsActionable(TradingAdvisor.MockRecommendation(symbol), sizing, settings)
  {
  }

  /** A rejected sizing (the all-zero record) is never actionable while the
      minimum trade is positive. */
  lemma ZeroSizingNeverActionable(advice: TradingAdvisor.Recommendation, settings: Settings)
    requires settings.minTradeAmount > 0.0
    ensures !IsActionable(advice, RiskManager.ZeroPosition(), settings)
  {
  }

  /** Raising the advisor's confidence never withdraws actionability. */
  lemma ActionableMonotoneInConfidence(advice: TradingAdvisor.Recommendation, more: real,
                                       sizing: RiskManager.Sizing, settings: Settings)
    requires more >= advice.confidence
    requires IsActionable(advice, sizing, settings)
    ensures IsActionable(advice.(confidence := more), sizing, settings)
  {
  }

  // ---------------------------------------------------------------------
  // `_generate_recommendation`
  // ---------------------------------------------------------------------

  /** What the orchestrator reports for one symbol: everything the
      execution step reads, or the exception building it raised. */
  datatype SymbolReport =
    | Report(symbol: string, currentPrice: real, positionInfo: CoinbaseManager.PositionInfo,
             riskMetrics: RiskManager.Sizing, levels: RiskManager.Levels,
             advice: TradingAdvisor.Recommendation, actionable: bool)
    | ReportError(symbol: string, error: string)

  /** One symbol's report: sized with the stop 5% under the price and the
      sentiment's confidence, bracketed by the buy-side levels without ATR,
      and gated by `IsActionable`. The position, the portfolio's total value
      and the advisor's answer are computed by their own modules. */
  function GenerateRecommendation(symbol: string, price: real, position: CoinbaseManager.PositionInfo,
                                  portfolioValue: real, sentimentConfidence: real, sizingMethod: string,
                                  cfg: RiskManager.RiskConfig, advice: TradingAdvisor.Recommendation,
                                  settings: Settings): (r: SymbolReport)
    ensures r.symbol == symbol
    ensures r.Report? <==>
              RiskManager.CalculatePositionSize(cfg, portfolioValue, price, price * StopFactor, sentimentConfidence, sizingMethod).Ok?
              && RiskManager.StopLossTakeProfit(price, "buy", None).Ok?
    ensures r.Report? ==>
              && r.currentPrice == price && r.positionInfo == position && r.advice == advice
              && r.riskMetrics == RiskManager.CalculatePositionSize(cfg, portfolioValue, price, price * StopFactor,
                                                                   sentimentConfidence, sizingMethod).value
              && r.levels == RiskManager.StopLossTakeProfit(price, "buy", None).value
              && r.actionable == IsActionable(advice, r.riskMetrics, settings)
  {
    match RiskManager.CalculatePositionSize(cfg, portfolioValue, price, price * StopFactor, sentimentConfidence, sizingMethod)
    case Err(e) => ReportError(symbol, e)
    case Ok(sizing) =>
      match RiskManager.StopLossTakeProfit(price, "buy", None)
      case Err(e) => ReportError(symbol, e)
      case Ok(levels) => Report(symbol, price, position, sizing, levels, advice, IsActionable(advice, sizing, settings))
  }

  /** A positive price and a non-zero portfolio value always yield a full
      report, whatever the sizing method, with the stop under and the
      target over the price. */
  lemma PricedSymbolReported(symbol: string, price: real, position: CoinbaseManager.PositionInfo,
                             portfolioValue: real, sentimentConfidence: real, sizingMethod: string,
                             cfg: RiskManager.RiskConfig, advice: TradingAdvisor.Recommendation, settings: Settings)
    requires price > 0.0 && portfolioValue != 0.0
    ensures var r := GenerateRecommendation(symbol, price, position, portfolioValue, sentimentConfidence,
                                            sizingMethod, cfg, advice, settings);
            r.Report? && r.levels.stopLoss < price < r.levels.takeProfit
  {
    RiskManager.LevelsBracketEntry(price, "buy", None);
    assert price * StopFactor > 0.0;
  }

  // ---------------------------------------------------------------------
  // `execute_recommendation`
  // ---------------------------------------------------------------------

  datatype Side = BuySide | SellSide {
    function Name(): string {
      match this
      case BuySide => "buy"
      case SellSide => "sell"
    }
  }

  /** The arguments of `place_market_order`. */
  datatype Order = Order(pair: string, side: Side, size: real)

  /** The dictionary `execute_recommendation` returns. */
  datatype Execution =
    | NoAction(symbol: string)
    | Held(symbol: string)
    | Placed(symbol: string, order: Order, orderResult: Json, executed: bool)
    | NoSell(symbol: string)
    | Errored(symbol: string, error: string)
  {
    function Status(): string {
      match this
      case NoAction(_) => "skipped"
      case Held(_) => "success"
      case Placed(_, _, _, executed) => if executed then "executed" else "failed"
      case NoSell(_) => "skipped"
      case Errored(_, _) => "error"
    }
  }

  /** `f"{symbol}-USD"`. */
  function TradingPair(symbol: string): string {
    symbol + "-USD"
  }

  /** Places `order` and reads the answer: executed when it carries a
      truthy `id`; an answer that is not an object has no `get`. */
  function Placing(symbol: string, order: Order, place: Order -> Json): (r: Execution)
    ensures r.Placed? || r == Errored(symbol, "AttributeError")
    ensures r.Placed? ==> r.symbol == symbol && r.order == order && r.orderResult == place(order)
    ensures r.Placed? ==> place(order).JObj?
                          && (r.executed <==> Get(place(order).fields, "id").Some? && Truthy(Get(place(order).fields, "id").value))
  {
    var answer := place(order);
    if answer.JObj? then
      var id := Get(answer.fields, "id");
      Placed(symbol, order, answer, id.Some? && Truthy(id.value))
    else Errored(symbol, "AttributeError")
  }

  /** `execute_recommendation`, reading the advisor's `action`: a report
      without advice fails on the missing key; otherwise non-actionable
      reports are skipped, HOLD succeeds without an order, BUY orders the
      sized position, and SELL orders the smaller of the holding and the
      sized position, or is skipped when nothing is held. */
  function ExecuteRecommendation(report: SymbolReport, place: Order -> Json): (r: Execution)
    ensures r.symbol == report.symbol
    ensures report.ReportError? ==> r == Errored(report.symbol, "KeyError")
    ensures report.Report? && !report.actionable ==> r == NoAction(report.symbol)
    ensures report.Report? && report.actionable && report.advice.action.Hold? ==> r == Held(report.symbol)
    ensures r.Placed? ==> report.Report? && report.actionable && r.order.pair == TradingPair(report.symbol)
    ensures r.Placed? && r.order.side.BuySide? ==>
              report.advice.action.Buy? && r.order.size == report.riskMetrics.positionSize
    ensures r.Placed? && r.order.side.SellSide? ==>
              && report.advice.action.Sell? && report.positionInfo.available > 0.0
              && r.order.size == Min(report.positionInfo.available, report.riskMetrics.positionSize)
    ensures r.NoSell? <==>
              report.Report? && report.actionable && report.advice.action.Sell? && report.positionInfo.available <= 0.0
  {
    match report
    case ReportError(symbol, _) => Errored(symbol, "KeyError")
    case Report(symbol, _, position, sizing, _, advice, actionable) =>
      if !actionable then NoAction(symbol)
      else
        match advice.action
        case Hold => Held(symbol)
        case Buy => Placing(symbol, Order(TradingPair(symbol), BuySide, sizing.positionSize), place)
        case Sell =>
          if position.available > 0.0 then
            Placing(symbol, Order(TradingPair(symbol), SellSide, Min(position.available, sizing.positionSize)), place)
          else NoSell(symbol)
  }

  /** A sell never asks for more than is available nor more than the sized
      position. */
  lemma SellWithinHolding(report: SymbolReport, place: Order -> Json)
    requires ExecuteRecommendation(report, place).Placed?
    requires ExecuteRecommendation(report, place).order.side.SellSide?
    ensures 0.0 < report.positionInfo.available
    ensures ExecuteRecommendation(report, place).order.size <= report.positionInfo.available
    ensures ExecuteRecommendation(report, place).order.size <= report.riskMetrics.positionSize
  {
  }

  /** When the advisor fell back to its safe HOLD (no endpoint configured),
      the report built for it never leads to an order. */
  lemma FallbackNeverTrades(symbol: string, price: real, position: CoinbaseManager.PositionInfo,
                            portfolioValue: real, sentimentConfidence: real, sizingMethod: string,
                            cfg: RiskManager.RiskConfig, reply: Result<Json>, dumps: Json -> string,
                            settings: Settings, place: Order -> Json)
    ensures var advice := TradingAdvisor.TradingRecommendation(None, reply, symbol, dumps);
            var report := GenerateRecommendation(symbol, price, position, portfolioValue, sentimentConfidence,
                                                 sizingMethod, cfg, advice, settings);
            !ExecuteRecommendation(report, place).Placed?
  {
    var advice := TradingAdvisor.TradingRecommendation(None, reply, symbol, dumps);
    assert advice == TradingAdvisor.MockRecommendation(symbol);
    var report := GenerateRecommendation(symbol, price, position, portfolioValue, sentimentConfidence,
                                         sizingMethod, cfg, advice, settings);
    if report.Report? {
      FallbackNeverActionable(symbol, report.riskMetrics, settings);
    }
  }

  /** `execute_recommendation` as written: it reads the key
      `recommendation` of the advisor's answer before anything else, and
      follows the branches on that value; `None` is the implicit `None`
      returned for an action matching no branch. */
  function ExecuteAsWritten(report: SymbolReport, place: Order -> Json): (r: Option<Execution>)
    ensures r.Some? ==> r.value.symbol == report.symbol
  {
    match report
    case ReportError(symbol, _) => Some(Errored(symbol, "KeyError"))
    case Report(symbol, _, position, sizing, _, advice, actionable) =>
      match Get(TradingAdvisor.RecordFields(advice), "recommendation")
      case None => Some(Errored(symbol, "KeyError"))
      case Some(action) =>
        if !actionable then Some(NoAction(symbol))
        else if action == JStr("HOLD") then Some(Held(symbol))
        else if action == JStr("BUY") then
          Some(Placing(symbol, Order(TradingPair(symbol), BuySide, sizing.positionSize), place))
        else if action == JStr("SELL") then
          if position.available > 0.0 then
            Some(Placing(symbol, Order(TradingPair(symbol), SellSide, Min(position.available, sizing.positionSize)), place))
          else Some(NoSell(symbol))
        else None
  }

  /** As written, every report ends in the error branch: the advisor's
      answer has no `recommendation` key, so not even HOLD or a skip is
      ever reported, and no order is ever placed. */
  lemma AsWrittenAlwaysErrors(report: SymbolReport, place: Order -> Json)
    ensures ExecuteAsWritten(report, place) == Some(Errored(report.symbol, "KeyError"))
  {
    if report.Report? {
      IndexOfUnique(TradingAdvisor.RecordFields(report.advice), "recommendation", 4);
    }
  }

  /** Reading `action` instead, an actionable BUY reaches the exchange. */
  lemma CorrectedBuyReachesExchange(report: SymbolReport, place: Order -> Json)
    requires report.Report? && report.actionable && report.advice.action.Buy?
    requires place(Order(TradingPair(report.symbol), BuySide, report.riskMetrics.positionSize)).JObj?
    ensures ExecuteRecommendation(report, place).Placed?
    ensures ExecuteAsWritten(report, place).value.Errored?
  {
    AsWrittenAlwaysErrors(report, place);
  }

  // ---------------------------------------------------------------------
  // `run_analysis_cycle`
  // ---------------------------------------------------------------------

  /** The outcome of one analysis cycle: no verified price at all, an
      exception from the price step, or the verified prices with one report
      per priced symbol. */
  datatype Cycle =
    | NoPriceData
    | CycleFailed(error: string)
    | Completed(prices: Dict<real>, recommendations: Dict<SymbolReport>)

  /** The reports for the symbols, in order, skipping those without a
      verified price; `generate` builds one symbol's report from its
      price. */
  function Recommendations(symbols: seq<string>, prices: Dict<real>, generate: (string, real) -> SymbolReport)
    : (recs: Dict<SymbolReport>)
  {
    if symbols == [] then []
    else
      var front := Recommendations(symbols[..|symbols| - 1], prices, generate);
      var symbol := symbols[|symbols| - 1];
      match Get(prices, symbol)
      case None => front
      case Some(price) => Put(front, symbol, generate(symbol, price))
  }

  /** The symbols among `symbols` that have a verified price. */
  function Priced(symbols: seq<string>, prices: Dict<real>): set<string> {
    if symbols == [] then {}
    else
      var symbol := symbols[|symbols| - 1];
      Priced(symbols[..|symbols| - 1], prices) + (if symbol in KeySet(prices) then {symbol} else {})
  }

  lemma {:induction false} PricedIff(symbols: seq<string>, prices: Dict<real>, symbol: string)
    ensures symbol in Priced(symbols, prices) <==> symbol in symbols && symbol in KeySet(prices)
  {
    if symbols != [] {
      var front := symbols[..|symbols| - 1];
      PricedIff(front, prices, symbol);
      assert symbols == front + [symbols[|symbols| - 1]];
    }
  }

  /** Exactly the priced symbols get a report, each at most once, and each
      report is built from that symbol's verified price. */
  lemma {:induction false} RecommendationsFor(symbols: seq<string>, prices: Dict<real>,
                                             generate: (string, real) -> SymbolReport)
    ensures KeySet(Recommendations(symbols, prices, generate)) == Priced(symbols, prices)
    ensures DistinctKeys(Recommendations(symbols, prices, generate))
    ensures forall s :: s in Priced(symbols, prices) ==>
              (Get(prices, s).Some? &&
               Get(Recommendations(symbols, prices, generate), s) == Some(generate(s, Get(prices, s).value)))
  {
    if symbols != [] {
      var front := symbols[..|symbols| - 1];
      RecommendationsFor(front, prices, generate);
      var symbol := symbols[|symbols| - 1];
      var before := Recommendations(front, prices, generate);
      if Get(prices, symbol).Some? {
        PutDistinct(before, symbol, generate(symbol, Get(prices, symbol).value));
      }
    }
  }

  /** `run_analysis_cycle`, for the symbols asked (all supported ones when
      none are) and the outcome of fetching and verifying their prices. */
  function AnalysisCycle(symbols: seq<string>, supported: seq<string>, verified: Result<Dict<real>>,
                         generate: (string, real) -> SymbolReport): (c: Cycle)
    ensures verified.Err? ==> c == CycleFailed(verified.error)
    ensures verified == Ok([]) ==> c == NoPriceData
    ensures c.Completed? ==> verified.Ok? && verified.value != [] && c.prices == verified.value
  {
    var asked := if symbols == [] then supported else symbols;
    match verified
    case Err(e) => CycleFailed(e)
    case Ok(prices) =>
      if prices == [] then NoPriceData
      else Completed(prices, Recommendations(asked, prices, generate))
  }

  /** The cycle's reports are for exactly the asked symbols that have a
      verified price, each from that price. */
  lemma CycleReportsPricedSymbols(symbols: seq<string>, supported: seq<string>, prices: Dict<real>,
                                  generate: (string, real) -> SymbolReport, symbol: string)
    requires prices != []
    ensures var c := AnalysisCycle(symbols, supported, Ok(prices), generate);
            var asked := if symbols == [] then supported else symbols;
            && c.Completed?
            && (symbol in KeySet(c.recommendations) <==> symbol in asked && symbol in KeySet(prices))
            && (symbol in KeySet(c.recommendations) ==>
                  Get(c.recommendations, symbol) == Some(generate(symbol, Get(prices, symbol).value)))
  {
    var asked := if symbols == [] then supported else symbols;
    RecommendationsFor(asked, prices, generate);
    PricedIff(asked, prices, symbol);
  }

  /** The cycle's loop over the symbols. */
  method RunAnalysisCycle(symbols: seq<string>, supported: seq<string>, verified: Result<Dict<real>>,
                          generate: (string, real) -> SymbolReport) returns (c: Cycle)
    ensures c == AnalysisCycle(symbols, supported, verified, generate)
  {
    var asked := if symbols == [] then supported else symbols;
    if verified.Err? {
      return CycleFailed(verified.error);
    }
    var prices := verified.value;
    if prices == [] {
      return NoPriceData;
    }
    var recommendations: Dict<SymbolReport> := [];
    var i := 0;
    while i < |asked|
      invariant i <= |asked|
      invariant recommendations == Recommendations(asked[..i], prices, generate)
    {
      assert asked[..i + 1][..i] == asked[..i];
      var symbol := asked[i];
      var price := Get(prices, symbol);
      if price.Some? {
        recommendations := Put(recommendations, symbol, generate(symbol, price.value));
      }
      i := i + 1;
    }
    assert asked[..|asked|] == asked;
    return Completed(prices, recommendations);
  }
}

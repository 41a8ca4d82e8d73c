/** Position sizing, stop/target levels and portfolio risk assessment of the
    trading system's RiskManager. The manager's three settings are fixed at
    construction and never updated, so they travel as a value. Prices,
    percentages and fractions are reals; a ZeroDivisionError the source does
    not guard against is an `Err`. */
module RiskManager {
  import opened Common

  /** `max_position_size`, `risk_per_trade`, `max_drawdown` as fractions. */
  datatype RiskConfig = RiskConfig(maxPositionSize: real, riskPerTrade: real, maxDrawdown: real)

  /** The constructor's defaults: 10% per position, 2% risk per trade, 15% drawdown. */
  const DefaultConfig: RiskConfig := RiskConfig(0.1, 0.02, 0.15)

  const ZeroDivisionError: string := "ZeroDivisionError"

  /** The dictionary `calculate_position_size` returns. */
  datatype Sizing = Sizing(
    positionSize: real,
    positionValueUsd: real,
    portfolioPercentage: real,
    maxLossUsd: real,
    maxLossPercentage: real,
    riskPerShare: real,
    entryPrice: real,
    stopLossPrice: real,
    confidenceAdjusted: real,
    methodUsed: string)

  /** The all-zero record returned for rejected inputs. */
  function ZeroPosition(): Sizing {
    Sizing(0.0, 0.0, 0.0, 0.0, 0.0, 0.0, 0.0, 0.0, 0.0, "none")
  }

  predicate KnownMethod(sizingMethod: string) {
    sizingMethod == "fixed_risk" || sizingMethod == "kelly" || sizingMethod == "volatility"
  }

  // ---------------------------------------------------------------------
  // Arithmetic facts the sizing proofs rest on

  lemma DivZeroIff(x: real, d: real)
    requires d > 0.0
    ensures x / d == 0.0 <==> x == 0.0
  {
  }

  // ---------------------------------------------------------------------
  // The three sizing methods

  /** Fixed risk: losing `riskPerShare` on every unit of the position loses
      exactly `portfolio_value * risk_per_trade * confidence`. */
  function FixedRiskSize(cfg: RiskConfig, portfolioValue: real, riskPerShare: real, confidence: real): (size: real)
    ensures riskPerShare > 0.0 ==> size * riskPerShare == portfolioValue * cfg.riskPerTrade * confidence
    ensures riskPerShare <= 0.0 ==> size == 0.0
  {
    var riskAmount := portfolioValue * cfg.riskPerTrade * confidence;
    if riskPerShare > 0.0 then riskAmount / riskPerShare else 0.0
  }

  /** The confidence read as a win probability, clamped into [0.1, 0.9]. */
  function WinProbability(confidence: real): (p: real)
    ensures 0.1 <= p <= 0.9
    ensures 0.1 <= confidence <= 0.9 ==> p == confidence
    ensures confidence < 0.1 ==> p == 0.1
    ensures confidence > 0.9 ==> p == 0.9
  {
    Min(Max(confidence, 0.1), 0.9)
  }

  /** The reward:risk ratio the Kelly formula assumes. */
  const KellyOdds: real := 2.0

  /** The Kelly fraction `(b p - q) / b`, clamped to `[0, max_position_size]`
      and then capped by `risk_per_trade / risk_percentage`. At 2:1 odds the
      unclamped fraction is the edge `(3 p - 1) / 2`: it is taken as it is
      when it lies within both caps, no edge gives nothing beyond the risk
      cap, an edge over `max_position_size` gives the smaller cap, and an
      edge within `max_position_size` but over the risk cap gives the risk
      cap. */
  function KellyFraction(cfg: RiskConfig, riskPercentage: real, confidence: real): (f: real)
    requires riskPercentage != 0.0
    ensures f <= Max(0.0, cfg.maxPositionSize)
    ensures f <= cfg.riskPerTrade / riskPercentage
    ensures riskPercentage > 0.0 && cfg.riskPerTrade >= 0.0 ==> f >= 0.0
    ensures var edge := (3.0 * WinProbability(confidence) - 1.0) / 2.0;
            0.0 <= edge <= cfg.maxPositionSize && edge <= cfg.riskPerTrade / riskPercentage ==> f == edge
    ensures var edge := (3.0 * WinProbability(confidence) - 1.0) / 2.0;
            edge <= 0.0 ==> f == Min(0.0, cfg.riskPerTrade / riskPercentage)
    ensures var edge := (3.0 * WinProbability(confidence) - 1.0) / 2.0;
            0.0 <= cfg.maxPositionSize <= edge ==> f == Min(cfg.maxPositionSize, cfg.riskPerTrade / riskPercentage)
    ensures var edge := (3.0 * WinProbability(confidence) - 1.0) / 2.0;
            0.0 <= edge <= cfg.maxPositionSize && cfg.riskPerTrade / riskPercentage <= edge ==>
              f == cfg.riskPerTrade / riskPercentage
  {
    var p := WinProbability(confidence);
    var q := 1.0 - p;
    var b := KellyOdds;
    var kelly := (b * p - q) / b;
    var clamped := Max(0.0, Min(kelly, cfg.maxPositionSize));
    Min(clamped, cfg.riskPerTrade / riskPercentage)
  }

  /** Without an edge (a win probability of at most one in three at 2:1
      odds) the Kelly fraction is zero, whatever the caps. */
  lemma KellyNoEdgeNoBet(cfg: RiskConfig, riskPercentage: real, confidence: real)
    requires riskPercentage > 0.0 && cfg.riskPerTrade >= 0.0
    requires confidence <= 1.0 / 3.0
    ensures KellyFraction(cfg, riskPercentage, confidence) == 0.0
  {
    var p := WinProbability(confidence);
    assert (KellyOdds * p - (1.0 - p)) / KellyOdds <= 0.0;
  }

  /** Kelly sizing: `portfolio_value * fraction / entry_price`; a stop equal
      to the entry makes `risk_percentage` zero and the division raise. */
  function KellySize(cfg: RiskConfig, portfolioValue: real, entryPrice: real, riskPercentage: real, confidence: real): (r: Result<real>)
    requires entryPrice > 0.0
    ensures r.Err? <==> riskPercentage == 0.0
    ensures r.Ok? ==> r.value * entryPrice == portfolioValue * KellyFraction(cfg, riskPercentage, confidence)
  {
    if riskPercentage == 0.0 then Err(ZeroDivisionError)
    else
      var positionValue := portfolioValue * KellyFraction(cfg, riskPercentage, confidence);
      Ok(positionValue / entryPrice)
  }

  /** The daily volatility the volatility method assumes. */
  const BaseVolatility: real := 0.05

  /** `base_volatility / max(risk_percentage, 0.01)`: positive, at most 5, and
      inversely proportional to the stop distance once that is 1% or more. */
  function VolatilityFactor(riskPercentage: real): (f: real)
    ensures 0.0 < f <= 5.0
    ensures riskPercentage >= 0.01 ==> f * riskPercentage == BaseVolatility
    ensures riskPercentage < 0.01 ==> f == 5.0
  {
    BaseVolatility / Max(riskPercentage, 0.01)
  }

  /** Volatility sizing. When the stop is at least 1% away, the loss at the
      stop is `portfolio_value * risk_per_trade * confidence * 0.05`. */
  function VolatilitySize(cfg: RiskConfig, portfolioValue: real, entryPrice: real, riskPercentage: real, confidence: real): (size: real)
    requires entryPrice > 0.0
    ensures size * entryPrice == portfolioValue * cfg.riskPerTrade * (VolatilityFactor(riskPercentage) * confidence)
    ensures riskPercentage >= 0.01 ==>
      size * (entryPrice * riskPercentage) == portfolioValue * cfg.riskPerTrade * confidence * BaseVolatility
  {
    var adjustedFactor := VolatilityFactor(riskPercentage) * confidence;
    var targetRisk := portfolioValue * cfg.riskPerTrade;
    var positionValue := targetRisk * adjustedFactor;
    var size := positionValue / entryPrice;
    assert size * entryPrice == positionValue;
    assert riskPercentage >= 0.01 ==>
      size * (entryPrice * riskPercentage) == positionValue * riskPercentage;
    size
  }

  /** The size the selected method asks for, before the hard cap. */
  function MethodSize(cfg: RiskConfig, portfolioValue: real, entryPrice: real, stopLossPrice: real,
                      confidence: real, sizingMethod: string): (r: Result<real>)
    requires entryPrice > 0.0 && KnownMethod(sizingMethod)
    ensures r.Err? <==> sizingMethod == "kelly" && entryPrice == stopLossPrice
  {
    var riskPerShare := Abs(entryPrice - stopLossPrice);
    var riskPercentage := riskPerShare / entryPrice;
    DivZeroIff(riskPerShare, entryPrice);
    if sizingMethod == "fixed_risk" then Ok(FixedRiskSize(cfg, portfolioValue, riskPerShare, confidence))
    else if sizingMethod == "kelly" then KellySize(cfg, portfolioValue, entryPrice, riskPercentage, confidence)
    else Ok(VolatilitySize(cfg, portfolioValue, entryPrice, riskPercentage, confidence))
  }

  /** The most units the hard cap allows: `portfolio_value * max_position_size / entry_price`. */
  function MaxShares(cfg: RiskConfig, portfolioValue: real, entryPrice: real): real
    requires entryPrice > 0.0
  {
    portfolioValue * cfg.maxPositionSize / entryPrice
  }

  /** `calculate_position_size`. Non-positive prices and unknown methods give
      the zero record; the method's size is capped at `MaxShares`; the loss
      figures follow from the capped size. The source never checks the
      portfolio value, so a zero portfolio value raises at the percentage. */
  function CalculatePositionSize(cfg: RiskConfig, portfolioValue: real, entryPrice: real,
                                 stopLossPrice: real, confidence: real, sizingMethod: string): (r: Result<Sizing>)
    ensures entryPrice <= 0.0 || stopLossPrice <= 0.0 || !KnownMethod(sizingMethod) ==> r == Ok(ZeroPosition())
    ensures r.Err? <==>
      entryPrice > 0.0 && stopLossPrice > 0.0 && KnownMethod(sizingMethod) &&
      (portfolioValue == 0.0 || (sizingMethod == "kelly" && entryPrice == stopLossPrice))
    ensures r.Ok? && entryPrice > 0.0 && stopLossPrice > 0.0 && KnownMethod(sizingMethod) ==>
      var s := r.value;
      && MethodSize(cfg, portfolioValue, entryPrice, stopLossPrice, confidence, sizingMethod).Ok?
      && s.positionSize == Min(MethodSize(cfg, portfolioValue, entryPrice, stopLossPrice, confidence, sizingMethod).value,
                               MaxShares(cfg, portfolioValue, entryPrice))
      && s.positionSize <= MaxShares(cfg, portfolioValue, entryPrice)
      && SizingConsistent(s, portfolioValue)
      && s.entryPrice == entryPrice && s.stopLossPrice == stopLossPrice
      && s.riskPerShare == Abs(entryPrice - stopLossPrice)
      && s.confidenceAdjusted == confidence && s.methodUsed == sizingMethod
  {
    if entryPrice <= 0.0 || stopLossPrice <= 0.0 || !KnownMethod(sizingMethod) then Ok(ZeroPosition())
    else
      var riskPerShare := Abs(entryPrice - stopLossPrice);
      match MethodSize(cfg, portfolioValue, entryPrice, stopLossPrice, confidence, sizingMethod)
      case Err(e) => Err(e)
      case Ok(raw) =>
        var maxShares := MaxShares(cfg, portfolioValue, entryPrice);
        var positionSize := Min(raw, maxShares);
        if portfolioValue == 0.0 then Err(ZeroDivisionError)
        else Ok(SizingFor(positionSize, portfolioValue, entryPrice, stopLossPrice, confidence, sizingMethod))
  }

  /** How the figures of a sizing record hang together: the value is size
      times entry, the loss is size times the per-unit risk, and both are
      also given as percentages of the portfolio. */
  predicate SizingConsistent(s: Sizing, portfolioValue: real)
    requires portfolioValue != 0.0
  {
    && s.positionValueUsd == s.positionSize * s.entryPrice
    && s.maxLossUsd == s.positionSize * s.riskPerShare
    && s.portfolioPercentage == s.positionValueUsd / portfolioValue * 100.0
    && s.maxLossPercentage == s.maxLossUsd / portfolioValue * 100.0
  }

  /** The record built from a final size. */
  function SizingFor(positionSize: real, portfolioValue: real, entryPrice: real, stopLossPrice: real,
                     confidence: real, sizingMethod: string): (s: Sizing)
    requires portfolioValue != 0.0
    ensures SizingConsistent(s, portfolioValue)
    ensures s.positionSize == positionSize && s.entryPrice == entryPrice && s.stopLossPrice == stopLossPrice
    ensures s.riskPerShare == Abs(entryPrice - stopLossPrice)
    ensures s.confidenceAdjusted == confidence && s.methodUsed == sizingMethod
  {
    var riskPerShare := Abs(entryPrice - stopLossPrice);
    var positionValue := positionSize * entryPrice;
    var maxLoss := positionSize * riskPerShare;
    Sizing(positionSize, positionValue, positionValue / portfolioValue * 100.0,
           maxLoss, maxLoss / portfolioValue * 100.0, riskPerShare,
           entryPrice, stopLossPrice, confidence, sizingMethod)
  }

  /** For valid prices, a known method and a non-zero portfolio, the result
      is the record for the method's size capped at `MaxShares`. */
  lemma CappedSizing(cfg: RiskConfig, portfolioValue: real, entryPrice: real,
                     stopLossPrice: real, confidence: real, sizingMethod: string)
    requires portfolioValue != 0.0 && entryPrice > 0.0 && stopLossPrice > 0.0 && KnownMethod(sizingMethod)
    requires MethodSize(cfg, portfolioValue, entryPrice, stopLossPrice, confidence, sizingMethod).Ok?
    ensures CalculatePositionSize(cfg, portfolioValue, entryPrice, stopLossPrice, confidence, sizingMethod)
      == Ok(SizingFor(Min(MethodSize(cfg, portfolioValue, entryPrice, stopLossPrice, confidence, sizingMethod).value,
                          MaxShares(cfg, portfolioValue, entryPrice)),
                      portfolioValue, entryPrice, stopLossPrice, confidence, sizingMethod))
  {
  }

  /** A size within `cap / price` units is worth at most `cap`. */
  lemma CapValue(size: real, cap: real, price: real)
    requires price > 0.0 && size <= cap / price
    ensures size * price <= cap
  {
    MulMonotone(size, cap / price, price);
    assert price * (cap / price) == cap;
  }

  /** Under the same assumptions each sizing method asks for a
      non-negative size. */
  lemma MethodSizeNonNegative(cfg: RiskConfig, portfolioValue: real, entryPrice: real,
                              stopLossPrice: real, confidence: real, sizingMethod: string)
    requires portfolioValue >= 0.0 && entryPrice > 0.0
    requires !(sizingMethod == "kelly" && entryPrice == stopLossPrice)
    requires cfg.riskPerTrade >= 0.0 && confidence >= 0.0
    requires KnownMethod(sizingMethod)
    ensures MethodSize(cfg, portfolioValue, entryPrice, stopLossPrice, confidence, sizingMethod).Ok?
    ensures MethodSize(cfg, portfolioValue, entryPrice, stopLossPrice, confidence, sizingMethod).value >= 0.0
  {
    var rps := Abs(entryPrice - stopLossPrice);
    var rp := rps / entryPrice;
    DivNonNegative(rps, entryPrice);
    if sizingMethod == "fixed_risk" {
      FixedRiskNonNegative(cfg, portfolioValue, rps, confidence);
    } else if sizingMethod == "kelly" {
      DivZeroIff(rps, entryPrice);
      KellyNonNegative(cfg, portfolioValue, entryPrice, rp, confidence);
    } else {
      VolatilityNonNegative(cfg, portfolioValue, entryPrice, rp, confidence);
    }
  }

  lemma FixedRiskNonNegative(cfg: RiskConfig, portfolioValue: real, riskPerShare: real, confidence: real)
    requires portfolioValue >= 0.0 && cfg.riskPerTrade >= 0.0 && confidence >= 0.0
    ensures FixedRiskSize(cfg, portfolioValue, riskPerShare, confidence) >= 0.0
  {
    var pr := portfolioValue * cfg.riskPerTrade;
    MulMonotone(0.0, cfg.riskPerTrade, portfolioValue);
    MulMonotone(0.0, pr, confidence);
    if riskPerShare > 0.0 {
      DivNonNegative(pr * confidence, riskPerShare);
    }
  }

  lemma KellyNonNegative(cfg: RiskConfig, portfolioValue: real, entryPrice: real, riskPercentage: real, confidence: real)
    requires portfolioValue >= 0.0 && entryPrice > 0.0 && riskPercentage > 0.0 && cfg.riskPerTrade >= 0.0
    ensures KellySize(cfg, portfolioValue, entryPrice, riskPercentage, confidence).Ok?
    ensures KellySize(cfg, portfolioValue, entryPrice, riskPercentage, confidence).value >= 0.0
  {
    var f := KellyFraction(cfg, riskPercentage, confidence);
    MulMonotone(0.0, f, portfolioValue);
    DivNonNegative(portfolioValue * f, entryPrice);
  }

  lemma VolatilityNonNegative(cfg: RiskConfig, portfolioValue: real, entryPrice: real, riskPercentage: real, confidence: real)
    requires portfolioValue >= 0.0 && entryPrice > 0.0 && cfg.riskPerTrade >= 0.0 && confidence >= 0.0
    ensures VolatilitySize(cfg, portfolioValue, entryPrice, riskPercentage, confidence) >= 0.0
  {
    var size := VolatilitySize(cfg, portfolioValue, entryPrice, riskPercentage, confidence);
    var pr := portfolioValue * cfg.riskPerTrade;
    var a := VolatilityFactor(riskPercentage) * confidence;
    MulMonotone(0.0, cfg.riskPerTrade, portfolioValue);
    MulMonotone(0.0, VolatilityFactor(riskPercentage), confidence);
    MulMonotone(0.0, a, pr);
    assert size * entryPrice >= 0.0;
    SignOfFactor(size, entryPrice);
  }

  lemma SignOfFactor(x: real, d: real)
    requires d > 0.0 && x * d >= 0.0
    ensures x >= 0.0
  {
    if x < 0.0 {
      MulMonotone(x, 0.0, d);
    }
  }

  /** With a positive portfolio, non-negative settings and confidence, and,
      for Kelly, a stop distinct from the entry, every method yields a non-negative size
      that commits at most `max_position_size` of the portfolio, and a
      non-negative loss at the stop. */
  lemma SizingBounds(cfg: RiskConfig, portfolioValue: real, entryPrice: real,
                     stopLossPrice: real, confidence: real, sizingMethod: string)
    requires portfolioValue > 0.0 && entryPrice > 0.0 && stopLossPrice > 0.0
    requires !(sizingMethod == "kelly" && entryPrice == stopLossPrice)
    requires cfg.maxPositionSize >= 0.0 && cfg.riskPerTrade >= 0.0 && confidence >= 0.0
    requires KnownMethod(sizingMethod)
    ensures CalculatePositionSize(cfg, portfolioValue, entryPrice, stopLossPrice, confidence, sizingMethod).Ok?
    ensures var s := CalculatePositionSize(cfg, portfolioValue, entryPrice, stopLossPrice, confidence, sizingMethod).value;
      && s.positionSize >= 0.0
      && 0.0 <= s.positionValueUsd <= portfolioValue * cfg.maxPositionSize
      && 0.0 <= s.portfolioPercentage <= cfg.maxPositionSize * 100.0
      && s.maxLossUsd >= 0.0
  {
    MethodSizeNonNegative(cfg, portfolioValue, entryPrice, stopLossPrice, confidence, sizingMethod);
    CappedSizing(cfg, portfolioValue, entryPrice, stopLossPrice, confidence, sizingMethod);
    CappedSizingBounds(cfg, MethodSize(cfg, portfolioValue, entryPrice, stopLossPrice, confidence, sizingMethod).value,
                       portfolioValue, entryPrice, stopLossPrice, confidence, sizingMethod);
  }

  /** The bounds of `SizingBounds` for any non-negative requested size. */
  lemma CappedSizingBounds(cfg: RiskConfig, raw: real, portfolioValue: real, entryPrice: real,
                           stopLossPrice: real, confidence: real, sizingMethod: string)
    requires raw >= 0.0 && portfolioValue > 0.0 && entryPrice > 0.0 && cfg.maxPositionSize >= 0.0
    ensures var s := SizingFor(Min(raw, MaxShares(cfg, portfolioValue, entryPrice)),
                               portfolioValue, entryPrice, stopLossPrice, confidence, sizingMethod);
      && s.positionSize >= 0.0
      && 0.0 <= s.positionValueUsd <= portfolioValue * cfg.maxPositionSize
      && 0.0 <= s.portfolioPercentage <= cfg.maxPositionSize * 100.0
      && s.maxLossUsd >= 0.0
  {
    var cap := MaxShares(cfg, portfolioValue, entryPrice);
    var budget := portfolioValue * cfg.maxPositionSize;
    MulMonotone(0.0, cfg.maxPositionSize, portfolioValue);
    DivNonNegative(budget, entryPrice);
    var size := Min(raw, cap);
    var s := SizingFor(size, portfolioValue, entryPrice, stopLossPrice, confidence, sizingMethod);
    assert 0.0 <= size <= cap;
    assert cap == budget / entryPrice;
    CapValue(size, budget, entryPrice);
    MulMonotone(0.0, size, entryPrice);
    MulMonotone(0.0, size, s.riskPerShare);
    PercentageBound(s.positionValueUsd, budget, portfolioValue, cfg.maxPositionSize);
  }

  /** A value between 0 and `pv * m` is between 0 and `100 m` percent of `pv`. */
  lemma PercentageBound(value: real, budget: real, portfolioValue: real, m: real)
    requires portfolioValue > 0.0 && budget == portfolioValue * m && 0.0 <= value <= budget
    ensures 0.0 <= value / portfolioValue * 100.0 <= m * 100.0
  {
    DivNonNegative(value, portfolioValue);
    DivMonotone(value, budget, portfolioValue);
    CancelFactor(m, portfolioValue);
    assert budget / portfolioValue == m;
  }

  /** With every input positive and a stop distinct from the entry, the
      fixed-risk and volatility methods always take a position, as the unit
      tests expect of the default fixed-risk sizing of a 10000 portfolio at
      entry 45000 and stop 43000. */
  lemma SizingPositive(cfg: RiskConfig, portfolioValue: real, entryPrice: real,
                       stopLossPrice: real, confidence: real, sizingMethod: string)
    requires portfolioValue > 0.0 && entryPrice > 0.0 && stopLossPrice > 0.0 && entryPrice != stopLossPrice
    requires cfg.maxPositionSize > 0.0 && cfg.riskPerTrade > 0.0 && confidence > 0.0
    requires sizingMethod == "fixed_risk" || sizingMethod == "volatility"
    ensures CalculatePositionSize(cfg, portfolioValue, entryPrice, stopLossPrice, confidence, sizingMethod).Ok?
    ensures CalculatePositionSize(cfg, portfolioValue, entryPrice, stopLossPrice, confidence, sizingMethod).value.positionSize > 0.0
  {
    MethodSizePositive(cfg, portfolioValue, entryPrice, stopLossPrice, confidence, sizingMethod);
    PositiveProduct(portfolioValue, cfg.maxPositionSize);
    PositiveQuotient(portfolioValue * cfg.maxPositionSize, entryPrice);
    CappedSizing(cfg, portfolioValue, entryPrice, stopLossPrice, confidence, sizingMethod);
  }

  /** The fixed-risk and volatility methods ask for a positive size when
      every input is positive. */
  lemma MethodSizePositive(cfg: RiskConfig, portfolioValue: real, entryPrice: real,
                           stopLossPrice: real, confidence: real, sizingMethod: string)
    requires portfolioValue > 0.0 && entryPrice > 0.0 && entryPrice != stopLossPrice
    requires cfg.riskPerTrade > 0.0 && confidence > 0.0
    requires sizingMethod == "fixed_risk" || sizingMethod == "volatility"
    ensures MethodSize(cfg, portfolioValue, entryPrice, stopLossPrice, confidence, sizingMethod).Ok?
    ensures MethodSize(cfg, portfolioValue, entryPrice, stopLossPrice, confidence, sizingMethod).value > 0.0
  {
    var rps := Abs(entryPrice - stopLossPrice);
    var pr := portfolioValue * cfg.riskPerTrade;
    PositiveProduct(portfolioValue, cfg.riskPerTrade);
    PositiveProduct(pr, confidence);
    var size := MethodSize(cfg, portfolioValue, entryPrice, stopLossPrice, confidence, sizingMethod).value;
    if sizingMethod == "fixed_risk" {
      assert size == FixedRiskSize(cfg, portfolioValue, rps, confidence);
      PositiveFactor(size, rps);
    } else {
      var rp := rps / entryPrice;
      assert size == VolatilitySize(cfg, portfolioValue, entryPrice, rp, confidence);
      PositiveProduct(VolatilityFactor(rp), confidence);
      PositiveProduct(pr, VolatilityFactor(rp) * confidence);
      PositiveFactor(size, entryPrice);
    }
  }

  lemma PositiveFactor(x: real, d: real)
    requires d > 0.0 && x * d > 0.0
    ensures x > 0.0
  {
    if x <= 0.0 {
      MulMonotone(x, 0.0, d);
    }
  }

  // ---------------------------------------------------------------------
  // Stop-loss and take-profit levels

  datatype Levels = Levels(stopLoss: real, takeProfit: real, stopDistance: real,
                           profitDistance: real, riskRewardRatio: real)

  /** `side.lower() == 'buy'`. */
  predicate IsBuy(side: string) {
    Lower(side) == "buy"
  }

  /** `if atr and atr > 0`: an ATR that is present and positive. */
  predicate PositiveAtr(atr: Option<real>) {
    atr.Some? && atr.value > 0.0
  }

  /** `calculate_stop_loss_take_profit`. The distances are 2 and 4 ATR, or 5%
      and 10% of the entry; the levels sit below/above the entry for a buy
      and mirrored otherwise; the ratio of the distances is always 2. Without
      a positive ATR a zero entry makes both distances zero and the ratio's
      division raise. */
  function StopLossTakeProfit(entryPrice: real, side: string, atr: Option<real>): (r: Result<Levels>)
    ensures r.Err? <==> !PositiveAtr(atr) && entryPrice == 0.0
    ensures r.Ok? && PositiveAtr(atr) ==>
      r.value.stopDistance == 2.0 * atr.value && r.value.profitDistance == 4.0 * atr.value
    ensures r.Ok? && !PositiveAtr(atr) ==>
      r.value.stopDistance == 0.05 * entryPrice && r.value.profitDistance == 0.10 * entryPrice
    ensures r.Ok? ==> r.value.riskRewardRatio == 2.0
    ensures r.Ok? && IsBuy(side) ==>
      r.value.stopLoss == entryPrice - r.value.stopDistance && r.value.takeProfit == entryPrice + r.value.profitDistance
    ensures r.Ok? && !IsBuy(side) ==>
      r.value.stopLoss == entryPrice + r.value.stopDistance && r.value.takeProfit == entryPrice - r.value.profitDistance
  {
    var stopDistance := if PositiveAtr(atr) then atr.value * 2.0 else entryPrice * 0.05;
    var profitDistance := if PositiveAtr(atr) then atr.value * 4.0 else entryPrice * 0.10;
    if stopDistance == 0.0 then Err(ZeroDivisionError)
    else
      var stopLoss := if IsBuy(side) then entryPrice - stopDistance else entryPrice + stopDistance;
      var takeProfit := if IsBuy(side) then entryPrice + profitDistance else entryPrice - profitDistance;
      assert profitDistance == 2.0 * stopDistance;
      CancelFactor(2.0, stopDistance);
      Ok(Levels(stopLoss, takeProfit, stopDistance, profitDistance, profitDistance / stopDistance))
  }

  /** For a positive entry or a positive ATR the levels exist, a buy has its
      stop below and its target above the entry, and any other side the
      reverse. */
  lemma LevelsBracketEntry(entryPrice: real, side: string, atr: Option<real>)
    requires entryPrice > 0.0 || PositiveAtr(atr)
    ensures var r := StopLossTakeProfit(entryPrice, side, atr);
      && r.Ok?
      && (IsBuy(side) ==> r.value.stopLoss < entryPrice < r.value.takeProfit)
      && (!IsBuy(side) ==> r.value.takeProfit < entryPrice < r.value.stopLoss)
  {
  }

  /** Side matching ignores case. */
  lemma BuyIgnoresCase()
    ensures IsBuy("buy") && IsBuy("BUY") && IsBuy("Buy") && !IsBuy("sell")
  {
    assert Lower("BUY") == "buy";
    assert Lower("Buy") == "buy";
    assert Lower("sell") != "buy";
  }

  /** Entry 100, long, no ATR: stop 95, target 110, reward:risk 2. */
  lemma DefaultLevelsExample()
    ensures StopLossTakeProfit(100.0, "buy", None) == Ok(Levels(95.0, 110.0, 5.0, 10.0, 2.0))
  {
    assert Lower("buy") == "buy";
  }

  // ---------------------------------------------------------------------
  // Portfolio risk assessment

  datatype RiskLevel = Low | Medium | High | VeryHigh {
    function Name(): string {
      match this
      case Low => "Low"
      case Medium => "Medium"
      case High => "High"
      case VeryHigh => "Very High"
    }
    function Rank(): nat {
      match this
      case Low => 0
      case Medium => 1
      case High => 2
      case VeryHigh => 3
    }
  }

  /** The advice `_get_risk_recommendations` can give; the limit message
      carries the limit it prints. */
  datatype Recommendation =
    | ReduceExposure
    | PositionExceedsLimit(limitPct: real)
    | Diversify
    | WithinLimits
  {
    function Rank(): nat {
      match this
      case ReduceExposure => 0
      case PositionExceedsLimit(_) => 1
      case Diversify => 2
      case WithinLimits => 3
    }
  }

  datatype Assessment = Assessment(
    totalCryptoExposure: real,
    maxSinglePosition: real,
    concentrationIndex: real,
    adjustedRisk: real,
    riskLevel: RiskLevel,
    withinLimits: bool,
    recommendations: seq<Recommendation>)

  /** The percentages the assessment looks at: every position except the
      `USD` entry, in order, a missing `percentage` counting as 0. */
  function CryptoPercentages(positions: Dict<Option<real>>): (ps: seq<real>)
    ensures |ps| <= |positions|
  {
    if positions == [] then []
    else
      var last := positions[|positions| - 1];
      CryptoPercentages(positions[..|positions| - 1]) +
        (if last.0 == "USD" then [] else [last.1.GetOr(0.0)])
  }

  function SumSquares(s: seq<real>): real {
    if s == [] then 0.0 else SumSquares(s[..|s| - 1]) + s[|s| - 1] * s[|s| - 1]
  }

  /** The running maximum the loop keeps, starting from 0. */
  function MaxFromZero(s: seq<real>): real {
    if s == [] then 0.0 else Max(MaxFromZero(s[..|s| - 1]), s[|s| - 1])
  }

  /** The largest single position is the largest percentage when one is
      positive and 0 otherwise. */
  lemma {:induction false} MaxFromZeroIsMaximum(s: seq<real>)
    ensures MaxFromZero(s) >= 0.0
    ensures forall i :: 0 <= i < |s| ==> s[i] <= MaxFromZero(s)
    ensures MaxFromZero(s) == 0.0 || exists i :: 0 <= i < |s| && s[i] == MaxFromZero(s)
  {
    if s != [] {
      var front := s[..|s| - 1];
      MaxFromZeroIsMaximum(front);
      forall i | 0 <= i < |s| - 1 ensures s[i] <= MaxFromZero(s) {
        assert s[i] == front[i];
      }
      if MaxFromZero(s) != 0.0 && MaxFromZero(s) != s[|s| - 1] {
        var i :| 0 <= i < |front| && front[i] == MaxFromZero(front);
        assert s[i] == MaxFromZero(s);
      }
    }
  }

  /** A Herfindahl index of non-negative shares is non-negative. */
  lemma {:induction false} SumSquaresNonNegative(s: seq<real>)
    ensures SumSquares(s) >= 0.0
  {
    if s != [] {
      SumSquaresNonNegative(s[..|s| - 1]);
      var x := s[|s| - 1];
      if x < 0.0 { MulMonotone(0.0, -x, -x); } else { MulMonotone(0.0, x, x); }
    }
  }

  /** The risk bands on the adjusted exposure: strictly above 80, 60 and 40. */
  function RiskLevelFor(adjustedRisk: real): (level: RiskLevel)
    ensures level == VeryHigh <==> adjustedRisk > 80.0
    ensures level == High <==> 60.0 < adjustedRisk <= 80.0
    ensures level == Medium <==> 40.0 < adjustedRisk <= 60.0
    ensures level == Low <==> adjustedRisk <= 40.0
  {
    if adjustedRisk > 80.0 then VeryHigh
    else if adjustedRisk > 60.0 then High
    else if adjustedRisk > 40.0 then Medium
    else Low
  }

  /** More exposure never lowers the risk level. */
  lemma RiskLevelMonotone(a: real, b: real)
    requires a <= b
    ensures RiskLevelFor(a).Rank() <= RiskLevelFor(b).Rank()
  {
  }

  /** The crypto exposure scaled by `1 + 0.7 (n - 1) / n` when a correlation
      matrix is supplied and more than one position is held. */
  function CorrelationAdjusted(exposure: real, positionCount: nat, hasCorrelations: bool): real {
    if hasCorrelations && positionCount > 1 then
      exposure * (1.0 + 0.7 * (positionCount - 1) as real / positionCount as real)
    else exposure
  }

  /** What the recommendation list promises: it is never empty; each warning
      appears exactly when its threshold is exceeded; the all-clear message
      appears exactly when none is, and then alone; and the warnings keep the
      fixed order exposure, position size, concentration. */
  predicate RecommendationsFor(cfg: RiskConfig, exposure: real, maxPosition: real, concentration: real,
                               recs: seq<Recommendation>)
  {
    var limit := cfg.maxPositionSize * 100.0;
    && |recs| >= 1
    && (ReduceExposure in recs <==> exposure > 80.0)
    && (PositionExceedsLimit(limit) in recs <==> maxPosition > limit)
    && (Diversify in recs <==> concentration > 0.3)
    && (WithinLimits in recs <==> !(exposure > 80.0) && !(maxPosition > limit) && !(concentration > 0.3))
    && (WithinLimits in recs ==> recs == [WithinLimits])
    && (forall r :: r in recs && r.PositionExceedsLimit? ==> r.limitPct == limit)
    && (forall i, j :: 0 <= i < j < |recs| ==> recs[i].Rank() < recs[j].Rank())
  }

  /** `_get_risk_recommendations`, appending advice in a fixed order. */
  method RiskRecommendations(cfg: RiskConfig, exposure: real, maxPosition: real, concentration: real)
    returns (recs: seq<Recommendation>)
    ensures RecommendationsFor(cfg, exposure, maxPosition, concentration, recs)
  {
    recs := [];
    if exposure > 80.0 {
      recs := recs + [ReduceExposure];
    }
    if maxPosition > cfg.maxPositionSize * 100.0 {
      recs := recs + [PositionExceedsLimit(cfg.maxPositionSize * 100.0)];
    }
    if concentration > 0.3 {
      recs := recs + [Diversify];
    }
    if |recs| == 0 {
      recs := recs + [WithinLimits];
    }
  }

  /** `assess_portfolio_risk`: one pass over the positions accumulating the
      exposure, the largest position and the list of percentages, then the
      concentration index, the correlation adjustment, the band, the limit
      check and the advice. */
  method AssessPortfolioRisk(cfg: RiskConfig, positions: Dict<Option<real>>, hasCorrelations: bool)
    returns (a: Assessment)
    ensures var ps := CryptoPercentages(positions);
      && a.totalCryptoExposure == Sum(ps)
      && a.maxSinglePosition == MaxFromZero(ps)
      && a.concentrationIndex == SumSquares(ps) / 100.0
      && a.adjustedRisk == CorrelationAdjusted(Sum(ps), |ps|, hasCorrelations)
    ensures a.riskLevel == RiskLevelFor(a.adjustedRisk)
    ensures a.withinLimits <==> a.maxSinglePosition <= cfg.maxPositionSize * 100.0 && a.totalCryptoExposure <= 90.0
    ensures RecommendationsFor(cfg, a.totalCryptoExposure, a.maxSinglePosition, a.concentrationIndex, a.recommendations)
  {
    var cryptoExposure := 0.0;
    var maxSinglePosition := 0.0;
    var positionSizes: seq<real> := [];
    var i := 0;
    while i < |positions|
      invariant 0 <= i <= |positions|
      invariant positionSizes == CryptoPercentages(positions[..i])
      invariant cryptoExposure == Sum(positionSizes)
      invariant maxSinglePosition == MaxFromZero(positionSizes)
    {
      assert positions[..i + 1][..i] == positions[..i];
      var (symbol, position) := positions[i];
      if symbol != "USD" {
        var percentage := position.GetOr(0.0);
        positionSizes := positionSizes + [percentage];
        assert positionSizes[..|positionSizes| - 1] == CryptoPercentages(positions[..i]);
        cryptoExposure := cryptoExposure + percentage;
        maxSinglePosition := Max(maxSinglePosition, percentage);
      }
      i := i + 1;
    }
    assert positions[..|positions|] == positions;
    var concentrationIndex := if |positionSizes| > 0 then SumSquares(positionSizes) / 100.0 else 0.0;
    var adjustedRisk := CorrelationAdjusted(cryptoExposure, |positionSizes|, hasCorrelations);
    var recs := RiskRecommendations(cfg, cryptoExposure, maxSinglePosition, concentrationIndex);
    a := Assessment(cryptoExposure, maxSinglePosition, concentrationIndex, adjustedRisk,
                    RiskLevelFor(adjustedRisk),
                    maxSinglePosition <= cfg.maxPositionSize * 100.0 && cryptoExposure <= 90.0,
                    recs);
  }

  /** The module's example: {BTC 30, ETH 25, ADA 10} is 65% exposure, a
      largest position of 30%, concentration 16.25 and band High. */
  lemma AssessmentExample()
    ensures var ps := CryptoPercentages([("BTC", Some(30.0)), ("ETH", Some(25.0)), ("ADA", Some(10.0))]);
      && ps == [30.0, 25.0, 10.0]
      && Sum(ps) == 65.0
      && MaxFromZero(ps) == 30.0
      && SumSquares(ps) / 100.0 == 16.25
      && RiskLevelFor(CorrelationAdjusted(Sum(ps), |ps|, false)) == High
  {
    var d := [("BTC", Some(30.0)), ("ETH", Some(25.0)), ("ADA", Some(10.0))];
    assert d[..2] == [("BTC", Some(30.0)), ("ETH", Some(25.0))];
    assert d[..2][..1] == [("BTC", Some(30.0))];
    assert d[..2][..1][..0] == [];
    var ps := [30.0, 25.0, 10.0];
    assert CryptoPercentages(d) == ps;
    assert ps[..2] == [30.0, 25.0] && ps[..2][..1] == [30.0] && ps[..2][..1][..0] == [];
    assert Sum([30.0]) == 30.0 && Sum([30.0, 25.0]) == 55.0;
    assert MaxFromZero([30.0]) == 30.0 && MaxFromZero([30.0, 25.0]) == 30.0;
    assert SumSquares([30.0]) == 900.0 && SumSquares([30.0, 25.0]) == 1525.0;
  }

  /** The cash entry never contributes to exposure. */
  lemma {:induction false} UsdIgnored(positions: Dict<Option<real>>, cash: Option<real>)
    ensures CryptoPercentages(positions + [("USD", cash)]) == CryptoPercentages(positions)
  {
    assert (positions + [("USD", cash)])[..|positions|] == positions;
  }
}

/**
 * monitor-trader's `SimpleRiskManager`: order sizing, the order check and
 * the stop-loss and take-profit levels, all read from a fixed
 * `TradingConfig`.
 */
module Risk {
  import opened MonitorCore
  import opened TraderTypes

  datatype SimpleRiskManager = SimpleRiskManager(config: TradingConfig) {

    /** The share of the portfolio the configuration allows to risk. */
    function RiskAmount(portfolioValue: real): real {
      portfolioValue * (config.riskPercentage / 100.0)
    }

    /**
     * `calculate_position_size`: the size whose loss at the stop equals the
     * risk amount, capped so its notional stays within the position limit;
     * 0 when the stop distance is not positive.
     */
    function PositionSize(signal: TradingSignal, portfolioValue: real): (size: real)
      ensures var distance := signal.price * (config.stopLossPercentage / 100.0);
        distance <= 0.0 ==> size == 0.0
      ensures var distance := signal.price * (config.stopLossPercentage / 100.0);
        distance > 0.0 ==>
          size <= RiskAmount(portfolioValue) / distance &&
          size <= config.maxPositionSize / signal.price &&
          (size == RiskAmount(portfolioValue) / distance || size == config.maxPositionSize / signal.price)
    {
      var riskAmount := RiskAmount(portfolioValue);
      var distance := signal.price * (config.stopLossPercentage / 100.0);
      if distance > 0.0 then
        var size := riskAmount / distance;
        var cap := config.maxPositionSize / signal.price;
        if size <= cap then size else cap
      else 0.0
    }

    /** The notional of the order `validate_order` sizes for the signal. */
    function Notional(signal: TradingSignal, portfolioValue: real): real {
      signal.price * PositionSize(signal, portfolioValue)
    }

    /**
     * `validate_order`: the sized order's notional may exceed neither the
     * position limit nor the risk amount.
     */
    predicate ValidateOrder(signal: TradingSignal, portfolioValue: real) {
      var notional := Notional(signal, portfolioValue);
      !(notional > config.maxPositionSize) && !(notional > RiskAmount(portfolioValue))
    }

    /** `get_stop_loss`: the stop percentage below (Long) or above (Short) the entry. */
    function StopLoss(entryPrice: real, side: PositionSide): real {
      match side
      case Long => entryPrice * (1.0 - config.stopLossPercentage / 100.0)
      case Short => entryPrice * (1.0 + config.stopLossPercentage / 100.0)
    }

    /** `get_take_profit`: the target percentage above (Long) or below (Short) the entry. */
    function TakeProfit(entryPrice: real, side: PositionSide): real {
      match side
      case Long => entryPrice * (1.0 + config.takeProfitPercentage / 100.0)
      case Short => entryPrice * (1.0 - config.takeProfitPercentage / 100.0)
    }
  }

  /**
   * For a positive price the sized order never exceeds the position limit
   * (when that limit is not negative), so only the risk check can reject it.
   */
  lemma SizedOrderWithinLimit(risk: SimpleRiskManager, signal: TradingSignal, portfolioValue: real)
    requires signal.price > 0.0 && risk.config.maxPositionSize >= 0.0
    ensures risk.Notional(signal, portfolioValue) <= risk.config.maxPositionSize
    ensures risk.ValidateOrder(signal, portfolioValue) <==>
      risk.Notional(signal, portfolioValue) <= risk.RiskAmount(portfolioValue)
  {
    var size := risk.PositionSize(signal, portfolioValue);
    var distance := signal.price * (risk.config.stopLossPercentage / 100.0);
    if distance > 0.0 {
      var cap := risk.config.maxPositionSize / signal.price;
      assert signal.price * cap == risk.config.maxPositionSize;
      assert signal.price * size <= signal.price * cap;
    }
  }

  /**
   * With a positive stop distance, the loss the sized order takes at the
   * stop is at most the risk amount.
   */
  lemma SizedLossWithinRisk(risk: SimpleRiskManager, signal: TradingSignal, portfolioValue: real)
    requires signal.price * (risk.config.stopLossPercentage / 100.0) > 0.0
    ensures var distance := signal.price * (risk.config.stopLossPercentage / 100.0);
      risk.PositionSize(signal, portfolioValue) * distance <= risk.RiskAmount(portfolioValue)
  {
    var distance := signal.price * (risk.config.stopLossPercentage / 100.0);
    var size := risk.PositionSize(signal, portfolioValue);
    var full := risk.RiskAmount(portfolioValue) / distance;
    assert full * distance == risk.RiskAmount(portfolioValue);
    assert size * distance <= full * distance;
  }

  /** A stop percentage in (0, 100) puts a long stop below a positive entry and a short stop above it. */
  lemma StopsOnTheLosingSide(risk: SimpleRiskManager, entryPrice: real)
    requires 0.0 < risk.config.stopLossPercentage < 100.0 && entryPrice > 0.0
    ensures 0.0 < risk.StopLoss(entryPrice, Long) < entryPrice < risk.StopLoss(entryPrice, Short)
  {
    var f := risk.config.stopLossPercentage / 100.0;
    assert 0.0 < f < 1.0;
    assert entryPrice * (1.0 - f) == entryPrice - entryPrice * f;
    assert entryPrice * (1.0 + f) == entryPrice + entryPrice * f;
    assert 0.0 < entryPrice * f < entryPrice;
  }

  /** A target percentage in (0, 100) puts a long target above a positive entry and a short target below it. */
  lemma TargetsOnTheWinningSide(risk: SimpleRiskManager, entryPrice: real)
    requires 0.0 < risk.config.takeProfitPercentage < 100.0 && entryPrice > 0.0
    ensures 0.0 < risk.TakeProfit(entryPrice, Short) < entryPrice < risk.TakeProfit(entryPrice, Long)
  {
    var f := risk.config.takeProfitPercentage / 100.0;
    assert 0.0 < f < 1.0;
    assert entryPrice * (1.0 - f) == entryPrice - entryPrice * f;
    assert entryPrice * (1.0 + f) == entryPrice + entryPrice * f;
    assert 0.0 < entryPrice * f < entryPrice;
  }

  /** The long and short levels lie symmetrically about the entry. */
  lemma LevelsSymmetric(risk: SimpleRiskManager, entryPrice: real)
    ensures risk.StopLoss(entryPrice, Long) + risk.StopLoss(entryPrice, Short) == 2.0 * entryPrice
    ensures risk.TakeProfit(entryPrice, Long) + risk.TakeProfit(entryPrice, Short) == 2.0 * entryPrice
  {
    var s := risk.config.stopLossPercentage / 100.0;
    var t := risk.config.takeProfitPercentage / 100.0;
    assert entryPrice * (1.0 - s) + entryPrice * (1.0 + s) == 2.0 * entryPrice;
    assert entryPrice * (1.0 + t) + entryPrice * (1.0 - t) == 2.0 * entryPrice;
  }
}

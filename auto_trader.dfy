/**
 * monitor-trader's `AutoTrader`: turns anomalies into orders, keeps one
 * open position per "exchange:symbol" key, closes positions at their stop
 * or target, and counts the closed trades.
 *
 * The execution client is not modelled: each call that would place an
 * order returns the request it sends, and takes the client's answer as a
 * parameter (`Placed`, `NoOrder` or `Failed` for `Ok(Some)`, `Ok(None)`
 * and `Err`). Ids and the clock are parameters. The ghost sequence
 * `ClosedPnls` records the PnL of every counted close, and the object
 * invariant ties the statistics to it.
 */
module AutoTrading {
  import opened Numerics
  import opened MonitorCore
  import opened AnomalyWindow
  import opened TraderTypes
  import opened Risk
  import opened Strategy

  datatype OrderKind = Buy | Sell

  /** A market order request; time in force is unset and orders are never post-only. */
  datatype OrderRequest = OrderRequest(
    instrument: string,
    exchange: string,
    kind: OrderKind,
    quantity: real,
    price: Option<real>,
    reduceOnly: bool)

  /** The execution client's answer to an order request. */
  datatype ExecutionOutcome = Placed(quantity: real) | NoOrder | Failed(message: string)

  /** The result of `execute_signal`: the outcome, the order sent, the new positions map. */
  datatype Execution = Execution(result: Result<()>, sent: Option<OrderRequest>, positions: map<string, Position>)

  /** How many of the PnLs are wins (strictly positive). */
  function WinCount(pnls: seq<real>): (n: nat)
    ensures n <= |pnls|
  {
    if pnls == [] then 0
    else WinCount(pnls[..|pnls| - 1]) + (if pnls[|pnls| - 1] > 0.0 then 1 else 0)
  }

  function WinRate(winning: nat, total: nat): real {
    if total > 0 then winning as real / total as real else 0.0
  }

  /**
   * The statistics describe exactly the closed trades `pnls`; the ratios
   * `update_stats` never sets stay at zero.
   */
  ghost predicate Describes(stats: TradingStats, pnls: seq<real>) {
    stats.totalTrades == |pnls| &&
    stats.winningTrades == WinCount(pnls) &&
    stats.losingTrades == |pnls| - WinCount(pnls) &&
    stats.totalPnl == Sum(pnls) &&
    stats.winRate == WinRate(stats.winningTrades, stats.totalTrades) &&
    stats.averageWin == 0.0 && stats.averageLoss == 0.0 && stats.profitFactor == 0.0 &&
    stats.maxDrawdown == 0.0 && stats.sharpeRatio == 0.0
  }

  /** Every closed trade is either winning or losing, and the win rate is their ratio, within [0, 1]. */
  lemma StatsConsistent(stats: TradingStats, pnls: seq<real>)
    requires Describes(stats, pnls)
    ensures stats.winningTrades + stats.losingTrades == stats.totalTrades
    ensures stats.totalTrades > 0 ==> stats.winRate == stats.winningTrades as real / stats.totalTrades as real
    ensures 0.0 <= stats.winRate <= 1.0
  {
    if stats.totalTrades > 0 {
      var w, t := stats.winningTrades as real, stats.totalTrades as real;
      assert w <= t;
      assert w / t <= 1.0 by {
        assert w / t * t == w;
      }
    }
  }

  /** The statistics with one more closed trade of `pnl`, as `update_stats` leaves them. */
  lemma RecordedTrade(stats: TradingStats, pnls: seq<real>, pnl: real)
    requires Describes(stats, pnls)
    ensures var winning := stats.winningTrades + (if pnl > 0.0 then 1 else 0);
      var losing := stats.losingTrades + (if pnl > 0.0 then 0 else 1);
      Describes(stats.(totalTrades := stats.totalTrades + 1, totalPnl := stats.totalPnl + pnl,
                       winningTrades := winning, losingTrades := losing,
                       winRate := WinRate(winning, stats.totalTrades + 1)),
                pnls + [pnl])
  {
    assert (pnls + [pnl])[..|pnls|] == pnls;
  }

  /** The key positions are stored under. */
  function PositionKey(signal: TradingSignal): string {
    MarketKey(signal.exchange, signal.symbol)
  }

  /** The position `create_position` opens for a filled order of `quantity`. */
  function NewPosition(risk: SimpleRiskManager, signal: TradingSignal, side: PositionSide, quantity: real,
                       positionId: Uuid, now: Timestamp): (p: Position)
    ensures p.symbol == signal.symbol && p.exchange == signal.exchange && p.side == side
    ensures p.quantity == quantity && p.entryPrice == signal.price && p.currentPrice == signal.price
    ensures p.unrealizedPnl == 0.0 && p.realizedPnl == 0.0
    ensures p.stopLoss == Some(risk.StopLoss(signal.price, side)) && p.takeProfit == Some(risk.TakeProfit(signal.price, side))
    ensures p.id == positionId && p.openedAt == now && p.closedAt == None
  {
    Position(positionId, signal.symbol, signal.exchange, side, quantity, signal.price, signal.price, 0.0, 0.0,
             Some(risk.StopLoss(signal.price, side)), Some(risk.TakeProfit(signal.price, side)), now, None)
  }

  /** The order that closes `p`: the opposite side, the same quantity, reduce-only, at market. */
  function CloseRequest(p: Position): (o: OrderRequest)
    ensures o.kind == (if p.side == Long then OrderKind.Sell else OrderKind.Buy)
    ensures o.quantity == p.quantity && o.reduceOnly && o.price == None
    ensures o.instrument == p.symbol && o.exchange == p.exchange
  {
    OrderRequest(p.symbol, p.exchange, if p.side == Long then OrderKind.Sell else OrderKind.Buy, p.quantity, None, true)
  }

  /**
   * `execute_signal`: the risk check, then the order for a Buy (opening a
   * long) or a Sell (opening a short), then the position if the client
   * filled the order.
   */
  function Execute(risk: SimpleRiskManager, portfolioValue: real, positions: map<string, Position>,
                   signal: TradingSignal, positionId: Uuid, now: Timestamp, outcome: ExecutionOutcome): (e: Execution)
    ensures !risk.ValidateOrder(signal, portfolioValue) || signal.signalType == Hold ==>
      e == Execution(Ok(()), None, positions)
    ensures risk.ValidateOrder(signal, portfolioValue) && signal.signalType != Hold ==>
      e.sent.Some? && !e.sent.value.reduceOnly &&
      e.sent.value.quantity == risk.PositionSize(signal, portfolioValue) &&
      e.sent.value.price == Some(signal.price) &&
      e.sent.value.instrument == signal.symbol && e.sent.value.exchange == signal.exchange &&
      e.sent.value.kind == (if signal.signalType == SignalType.Buy then OrderKind.Buy else OrderKind.Sell)
    ensures e.sent.Some? && outcome.Placed? ==>
      e.result == Ok(()) &&
      e.positions == positions[PositionKey(signal) := NewPosition(risk, signal,
        if signal.signalType == SignalType.Buy then Long else Short, outcome.quantity, positionId, now)]
    ensures e.sent.Some? && outcome.NoOrder? ==> e.result == Ok(()) && e.positions == positions
    ensures e.sent.Some? && outcome.Failed? ==>
      e.result == Err(Other("Order execution failed: " + outcome.message)) && e.positions == positions
  {
    if !risk.ValidateOrder(signal, portfolioValue) then Execution(Ok(()), None, positions)
    else
      var quantity := risk.PositionSize(signal, portfolioValue);
      match signal.signalType
      case Hold => Execution(Ok(()), None, positions)
      case _ =>
        var side := if signal.signalType == SignalType.Buy then Long else Short;
        var kind := if signal.signalType == SignalType.Buy then OrderKind.Buy else OrderKind.Sell;
        var request := OrderRequest(signal.symbol, signal.exchange, kind, quantity, Some(signal.price), false);
        match outcome
        case Placed(filled) =>
          Execution(Ok(()), Some(request), positions[PositionKey(signal) := NewPosition(risk, signal, side, filled, positionId, now)])
        case NoOrder => Execution(Ok(()), Some(request), positions)
        case Failed(message) => Execution(Err(Other("Order execution failed: " + message)), Some(request), positions)
  }

  /**
   * A freshly opened position sits at its entry price with stop and target
   * strictly on either side, so neither exit triggers at once.
   */
  lemma NewPositionQuiet(risk: SimpleRiskManager, signal: TradingSignal, side: PositionSide, quantity: real,
                         positionId: Uuid, now: Timestamp)
    requires 0.0 < risk.config.stopLossPercentage < 100.0 && 0.0 < risk.config.takeProfitPercentage < 100.0
    requires signal.price > 0.0
    ensures var p := NewPosition(risk, signal, side, quantity, positionId, now);
      !ShouldStopLoss(p) && !ShouldTakeProfit(p)
  {
    StopsOnTheLosingSide(risk, signal.price);
    TargetsOnTheWinningSide(risk, signal.price);
  }

  class AutoTrader {
    var config: TradingConfig
    var strategy: AnomalyBasedStrategy
    const risk: SimpleRiskManager
    var positions: map<string, Position>
    var stats: TradingStats
    const portfolioValue: real
    ghost var ClosedPnls: seq<real>

    /**
     * The statistics describe the closed trades, and every position is
     * stored under its own market's key.
     */
    ghost predicate Valid()
      reads this
    {
      Describes(stats, ClosedPnls) &&
      forall k :: k in positions ==> k == MarketKey(positions[k].exchange, positions[k].symbol)
    }

    constructor (config: TradingConfig, strategy: AnomalyBasedStrategy, risk: SimpleRiskManager, initialPortfolio: real)
      ensures Valid()
      ensures this.config == config && this.strategy == strategy && this.risk == risk
      ensures portfolioValue == initialPortfolio && positions == map[] && stats == DefaultStats()
    {
      this.config := config;
      this.strategy := strategy;
      this.risk := risk;
      portfolioValue := initialPortfolio;
      positions := map[];
      stats := DefaultStats();
      ClosedPnls := [];
    }

    /**
     * `process_anomaly`: nothing while auto-trading is off; otherwise the
     * strategy's signal, if any, is executed. Opening never touches the
     * statistics.
     */
    method ProcessAnomaly(a: AnomalyDetection, signalId: Uuid, positionId: Uuid, now: Timestamp, outcome: ExecutionOutcome)
      returns (r: Result<()>, sent: Option<OrderRequest>)
      requires Valid()
      modifies this
      ensures Valid()
      ensures config == old(config) && strategy == old(strategy) && stats == old(stats)
      ensures !config.autoTradingEnabled ==> r == Ok(()) && sent == None && positions == old(positions)
      ensures config.autoTradingEnabled && strategy.Analyze(a, signalId).None? ==>
        r == Ok(()) && sent == None && positions == old(positions)
      ensures config.autoTradingEnabled && strategy.Analyze(a, signalId).Some? ==>
        Execution(r, sent, positions) ==
        Execute(risk, portfolioValue, old(positions), strategy.Analyze(a, signalId).value, positionId, now, outcome)
    {
      if !config.autoTradingEnabled {
        return Ok(()), None;
      }
      var signal := strategy.Analyze(a, signalId);
      r, sent := Ok(()), None;
      if signal.Some? {
        r, sent := ExecuteSignal(signal.value, positionId, now, outcome);
      }
    }

    method ExecuteSignal(signal: TradingSignal, positionId: Uuid, now: Timestamp, outcome: ExecutionOutcome)
      returns (r: Result<()>, sent: Option<OrderRequest>)
      requires Valid()
      modifies this
      ensures Valid()
      ensures config == old(config) && strategy == old(strategy) && stats == old(stats)
      ensures Execution(r, sent, positions) == Execute(risk, portfolioValue, old(positions), signal, positionId, now, outcome)
    {
      if !risk.ValidateOrder(signal, portfolioValue) {
        return Ok(()), None;
      }
      var quantity := risk.PositionSize(signal, portfolioValue);
      var side, kind;
      match signal.signalType {
        case Buy => side, kind := Long, OrderKind.Buy;
        case Sell => side, kind := Short, OrderKind.Sell;
        case Hold => return Ok(()), None;
      }
      var request := OrderRequest(signal.symbol, signal.exchange, kind, quantity, Some(signal.price), false);
      sent := Some(request);
      match outcome {
        case Placed(filled) =>
          CreatePosition(filled, signal, side, positionId, now);
          r := Ok(());
        case NoOrder =>
          r := Ok(());
        case Failed(message) =>
          r := Err(Other("Order execution failed: " + message));
      }
    }

    /** `create_position`: stores the new position under the signal's key, replacing any other. */
    method CreatePosition(filled: real, signal: TradingSignal, side: PositionSide, positionId: Uuid, now: Timestamp)
      requires Valid()
      modifies this
      ensures Valid()
      ensures config == old(config) && strategy == old(strategy) && stats == old(stats)
      ensures positions == old(positions)[PositionKey(signal) := NewPosition(risk, signal, side, filled, positionId, now)]
    {
      var position := NewPosition(risk, signal, side, filled, positionId, now);
      positions := positions[MarketKey(signal.exchange, signal.symbol) := position];
    }

    /**
     * `update_positions`: marks the market's position to `price`, then
     * closes it if it reached its stop (checked first) or its target.
     */
    method UpdatePositions(symbol: string, exchange: string, price: real, outcome: ExecutionOutcome)
      returns (r: Result<()>, sent: Option<OrderRequest>)
      requires Valid()
      modifies this
      ensures Valid()
      ensures config == old(config) && strategy == old(strategy)
      ensures MarketKey(exchange, symbol) !in old(positions) ==>
        r == Ok(()) && sent == None && positions == old(positions) && stats == old(stats)
      ensures var key := MarketKey(exchange, symbol);
        key in old(positions) && !ShouldStopLoss(UpdatePrice(old(positions)[key], price)) &&
        !ShouldTakeProfit(UpdatePrice(old(positions)[key], price)) ==>
          r == Ok(()) && sent == None && stats == old(stats) &&
          positions == old(positions)[key := UpdatePrice(old(positions)[key], price)]
      ensures var key := MarketKey(exchange, symbol);
        key in old(positions) && (ShouldStopLoss(UpdatePrice(old(positions)[key], price)) ||
                                  ShouldTakeProfit(UpdatePrice(old(positions)[key], price))) ==>
          Closed(old(positions)[key := UpdatePrice(old(positions)[key], price)], key, old(stats), old(ClosedPnls), outcome,
                 r, sent, positions, stats, ClosedPnls)
    {
      var key := MarketKey(exchange, symbol);
      r, sent := Ok(()), None;
      if key in positions {
        var position := UpdatePrice(positions[key], price);
        positions := positions[key := position];
        if ShouldStopLoss(position) {
          r, sent := ClosePosition(key, outcome);
        } else if ShouldTakeProfit(position) {
          r, sent := ClosePosition(key, outcome);
        }
      }
    }

    /**
     * `close_position`: takes the position out and sends its closing order.
     * A fill counts the trade; no order drops the position uncounted; an
     * error puts the identical position back.
     */
    method ClosePosition(key: string, outcome: ExecutionOutcome) returns (r: Result<()>, sent: Option<OrderRequest>)
      requires Valid()
      modifies this
      ensures Valid()
      ensures config == old(config) && strategy == old(strategy)
      ensures key !in old(positions) ==>
        r == Ok(()) && sent == None && positions == old(positions) && stats == old(stats)
      ensures key in old(positions) ==>
        Closed(old(positions), key, old(stats), old(ClosedPnls), outcome, r, sent, positions, stats, ClosedPnls)
    {
      r, sent := Ok(()), None;
      if key in positions {
        var position := positions[key];
        positions := positions - {key};
        sent := Some(CloseRequest(position));
        match outcome {
          case Placed(_) =>
            UpdateStats(position.unrealizedPnl);
          case NoOrder =>
          case Failed(message) =>
            positions := positions[key := position];
            r := Err(Other("Position close failed: " + message));
        }
      }
    }

    /** `update_stats`: one more trade, counted as a win exactly when its PnL is positive. */
    method UpdateStats(pnl: real)
      requires Valid()
      modifies this
      ensures Valid()
      ensures config == old(config) && strategy == old(strategy) && positions == old(positions)
      ensures ClosedPnls == old(ClosedPnls) + [pnl]
      ensures stats.totalTrades == old(stats.totalTrades) + 1 && stats.totalPnl == old(stats.totalPnl) + pnl
      ensures stats.winningTrades == old(stats.winningTrades) + (if pnl > 0.0 then 1 else 0)
      ensures stats.losingTrades == old(stats.losingTrades) + (if pnl > 0.0 then 0 else 1)
    {
      RecordedTrade(stats, ClosedPnls, pnl);
      stats := stats.(totalTrades := stats.totalTrades + 1, totalPnl := stats.totalPnl + pnl);
      if pnl > 0.0 {
        stats := stats.(winningTrades := stats.winningTrades + 1);
      } else {
        stats := stats.(losingTrades := stats.losingTrades + 1);
      }
      stats := stats.(winRate := if stats.totalTrades > 0 then stats.winningTrades as real / stats.totalTrades as real else 0.0);
      ClosedPnls := ClosedPnls + [pnl];
    }

    /** `update_config`: the trader's and the strategy's configurations are both replaced. */
    method UpdateConfig(config: TradingConfig)
      modifies this
      ensures this.config == config && strategy == old(strategy).UpdateConfig(config)
      ensures positions == old(positions) && stats == old(stats) && ClosedPnls == old(ClosedPnls)
    {
      this.config := config;
      strategy := strategy.UpdateConfig(config);
    }
  }

  /**
   * What closing the position at `key` of `before` did: the closing order
   * was sent, and the client's answer decided the rest.
   */
  ghost predicate Closed(before: map<string, Position>, key: string, statsBefore: TradingStats, pnlsBefore: seq<real>,
                         outcome: ExecutionOutcome, r: Result<()>, sent: Option<OrderRequest>,
                         after: map<string, Position>, statsAfter: TradingStats, pnlsAfter: seq<real>)
    requires key in before
  {
    sent == Some(CloseRequest(before[key])) &&
    match outcome
    case Placed(_) =>
      r == Ok(()) && after == before - {key} && pnlsAfter == pnlsBefore + [before[key].unrealizedPnl] &&
      statsAfter.totalTrades == statsBefore.totalTrades + 1
    case NoOrder =>
      r == Ok(()) && after == before - {key} && statsAfter == statsBefore && pnlsAfter == pnlsBefore
    case Failed(message) =>
      r == Err(Other("Position close failed: " + message)) && after == before &&
      statsAfter == statsBefore && pnlsAfter == pnlsBefore
  }
}

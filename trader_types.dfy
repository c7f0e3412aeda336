/**
 * monitor-trader's records: trading signals, positions and the running
 * trade statistics, with a position's price update and its exit triggers.
 *
 * A `Position` is a value: the trader keeps it in its positions map and
 * `update_price` is modelled as the copy with the two updated fields.
 */
module TraderTypes {
  import opened MonitorCore

  datatype SignalType = Buy | Sell | Hold

  datatype SignalStrength = Weak | Medium | Strong

  /** A signal; `reason` is free text and is not modelled. */
  datatype TradingSignal = TradingSignal(
    id: Uuid,
    timestamp: Timestamp,
    symbol: string,
    exchange: string,
    signalType: SignalType,
    strength: SignalStrength,
    price: real,
    anomalyId: Option<Uuid>)

  datatype PositionSide = Long | Short

  datatype Position = Position(
    id: Uuid,
    symbol: string,
    exchange: string,
    side: PositionSide,
    quantity: real,
    entryPrice: real,
    currentPrice: real,
    unrealizedPnl: real,
    realizedPnl: real,
    stopLoss: Option<real>,
    takeProfit: Option<real>,
    openedAt: Timestamp,
    closedAt: Option<Timestamp>)

  datatype TradingStats = TradingStats(
    totalTrades: nat,
    winningTrades: nat,
    losingTrades: nat,
    winRate: real,
    totalPnl: real,
    averageWin: real,
    averageLoss: real,
    profitFactor: real,
    maxDrawdown: real,
    sharpeRatio: real)

  /** `TradingStats::default`: every counter and ratio is zero. */
  function DefaultStats(): (s: TradingStats)
    ensures s.totalTrades == 0 && s.winningTrades == 0 && s.losingTrades == 0
    ensures s.winRate == 0.0 && s.totalPnl == 0.0 && s.averageWin == 0.0 && s.averageLoss == 0.0
    ensures s.profitFactor == 0.0 && s.maxDrawdown == 0.0 && s.sharpeRatio == 0.0
  {
    TradingStats(0, 0, 0, 0.0, 0.0, 0.0, 0.0, 0.0, 0.0, 0.0)
  }

  /** The profit or loss of `quantity` held on `side` from `entry` to `price`. */
  function Pnl(side: PositionSide, entry: real, price: real, quantity: real): real {
    match side
    case Long => (price - entry) * quantity
    case Short => (entry - price) * quantity
  }

  /**
   * `Position::update_price`: the current price and the unrealized PnL
   * change, nothing else does.
   */
  function UpdatePrice(p: Position, price: real): (q: Position)
    ensures q.currentPrice == price
    ensures q.unrealizedPnl == Pnl(p.side, p.entryPrice, price, p.quantity)
    ensures q.(currentPrice := p.currentPrice, unrealizedPnl := p.unrealizedPnl) == p
  {
    p.(currentPrice := price, unrealizedPnl := Pnl(p.side, p.entryPrice, price, p.quantity))
  }

  /** `should_stop_loss`: the price has reached the stop on the losing side. */
  predicate ShouldStopLoss(p: Position) {
    match p.stopLoss
    case None => false
    case Some(stop) =>
      match p.side
      case Long => p.currentPrice <= stop
      case Short => p.currentPrice >= stop
  }

  /** `should_take_profit`: the price has reached the target on the winning side. */
  predicate ShouldTakeProfit(p: Position) {
    match p.takeProfit
    case None => false
    case Some(target) =>
      match p.side
      case Long => p.currentPrice >= target
      case Short => p.currentPrice <= target
  }

  /** A position is flat at its entry price, and the two sides' PnL are opposite. */
  lemma PnlAtEntryAndSides(entry: real, price: real, quantity: real)
    ensures Pnl(Long, entry, entry, quantity) == 0.0 && Pnl(Short, entry, entry, quantity) == 0.0
    ensures Pnl(Long, entry, price, quantity) == -Pnl(Short, entry, price, quantity)
  {
    assert (price - entry) * quantity == -((entry - price) * quantity);
  }

  /** A long position of positive size gains exactly when the price rises above entry. */
  lemma LongPnlSign(entry: real, price: real, quantity: real)
    requires quantity > 0.0
    ensures Pnl(Long, entry, price, quantity) > 0.0 <==> price > entry
  {
    assert Pnl(Long, entry, price, quantity) == (price - entry) * quantity;
    if price > entry {
      assert (price - entry) * quantity > 0.0;
    } else {
      assert (entry - price) * quantity >= 0.0;
      assert (price - entry) * quantity == -((entry - price) * quantity);
    }
  }

  /**
   * Whether a position stops out or takes profit depends only on its side,
   * its levels and the current price: a position without a stop never
   * stops out, and one without a target never takes profit.
   */
  lemma TriggersAfterUpdate(p: Position, price: real)
    ensures var q := UpdatePrice(p, price);
      (ShouldStopLoss(q) <==>
        (p.stopLoss.Some? && if p.side == Long then price <= p.stopLoss.value else price >= p.stopLoss.value)) &&
      (ShouldTakeProfit(q) <==>
        (p.takeProfit.Some? && if p.side == Long then price >= p.takeProfit.value else price <= p.takeProfit.value))
  {
  }
}

/**
 * The first demo monitor (barter-data's `monitor_demo` example): one
 * `SymbolMonitor` per symbol keeps a window of recent trades, running
 * totals and the list of price moves, and flags a trade whose price moved
 * more than a threshold or whose volume is a multiple of the recent
 * average.
 *
 * The alert text is a list of the rules that fired, in the order their
 * lines appear; the wording and the number formatting are not modelled.
 * The trade's time is a parameter.
 */
module DemoMonitor {
  import opened Numerics
  import opened MonitorCore

  datatype DemoConfig = DemoConfig(
    priceChangeThreshold: real,
    volumeAnomalyMultiplier: real,
    windowSize: nat,
    reportIntervalSecs: nat)

  /** The example's defaults: 2%, three times the average, 100 trades, 10 s reports. */
  function DefaultDemoConfig(): (c: DemoConfig)
    ensures c.priceChangeThreshold == 2.0 && c.volumeAnomalyMultiplier == 3.0
    ensures c.windowSize == 100 && c.reportIntervalSecs == 10
  {
    DemoConfig(2.0, 3.0, 100, 10)
  }

  datatype DataPoint = DataPoint(
    timestamp: Timestamp,
    price: real,
    volume: real,
    exchange: string,
    symbol: string,
    marketType: string)

  /** A line of the alert: the price move (percent, from, to) or the volume and the average it beat. */
  datatype DemoAlert =
    | PriceAlert(exchange: string, changePct: real, from: real, to: real)
    | VolumeAlert(exchange: string, volume: real, average: real)

  /** The fields of a `SymbolMonitor`. */
  datatype MonitorState = MonitorState(
    symbol: string,
    dataPoints: seq<DataPoint>,
    lastPrice: real,
    totalVolume: real,
    tradeCount: nat,
    priceChanges: seq<real>,
    anomaliesDetected: nat)

  /** `SymbolMonitor::new`: nothing seen yet. */
  function Initial(symbol: string): (s: MonitorState)
    ensures s.symbol == symbol && s.dataPoints == [] && s.priceChanges == []
    ensures s.lastPrice == 0.0 && s.totalVolume == 0.0 && s.tradeCount == 0 && s.anomaliesDetected == 0
  {
    MonitorState(symbol, [], 0.0, 0.0, 0, [], 0)
  }

  /** The size of a price move from `last` to `price`, in percent of `last`. */
  function ChangePct(last: real, price: real): (pct: real)
    requires last > 0.0
    ensures pct >= 0.0
    ensures pct == 0.0 <==> price == last
  {
    Abs((price - last) / last * 100.0)
  }

  function Volumes(points: seq<DataPoint>): (r: seq<real>)
    ensures |r| == |points|
    ensures forall i :: 0 <= i < |points| ==> r[i] == points[i].volume
  {
    seq(|points|, i requires 0 <= i < |points| => points[i].volume)
  }

  /** The mean volume of the ten latest stored trades (the incoming one is not stored yet). */
  function RecentAverage(points: seq<DataPoint>): real
    requires |points| >= 10
  {
    Sum(Volumes(points[|points| - 10..])) / 10.0
  }

  /**
   * The window after storing `point`: the oldest trade is dropped first when
   * the window already holds `windowSize` trades (dropping from an empty
   * window does nothing).
   */
  function Slide<T>(points: seq<T>, point: T, windowSize: nat): seq<T> {
    if |points| >= windowSize && |points| > 0 then points[1..] + [point] else points + [point]
  }

  /** The price rule's line, if it fires. */
  function PriceAlertOf(s: MonitorState, point: DataPoint, config: DemoConfig): seq<DemoAlert> {
    if s.lastPrice > 0.0 && ChangePct(s.lastPrice, point.price) > config.priceChangeThreshold
    then [PriceAlert(point.exchange, ChangePct(s.lastPrice, point.price), s.lastPrice, point.price)]
    else []
  }

  /** The volume rule's line, if it fires. */
  function VolumeAlertOf(s: MonitorState, point: DataPoint, config: DemoConfig): seq<DemoAlert> {
    if |s.dataPoints| >= 10 && point.volume > RecentAverage(s.dataPoints) * config.volumeAnomalyMultiplier
    then [VolumeAlert(point.exchange, point.volume, RecentAverage(s.dataPoints))]
    else []
  }

  /** `add_data_point` on values: the new fields and the alert lines. */
  function Step(s: MonitorState, point: DataPoint, config: DemoConfig): (MonitorState, seq<DemoAlert>) {
    var alerts := PriceAlertOf(s, point, config) + VolumeAlertOf(s, point, config);
    var changes := if s.lastPrice > 0.0 then s.priceChanges + [ChangePct(s.lastPrice, point.price)] else s.priceChanges;
    (s.(dataPoints := Slide(s.dataPoints, point, config.windowSize),
        lastPrice := point.price,
        totalVolume := s.totalVolume + point.volume,
        tradeCount := s.tradeCount + 1,
        priceChanges := changes,
        anomaliesDetected := s.anomaliesDetected + |alerts|),
     alerts)
  }

  /**
   * The two rules: the price line is there exactly when a previous price
   * exists and the move beats the threshold; the volume line exactly when
   * ten trades are stored and the volume beats the multiple of their
   * average; the price line comes first, and the anomaly counter rises by
   * the number of lines.
   */
  lemma StepAlerts(s: MonitorState, point: DataPoint, config: DemoConfig)
    ensures var (t, alerts) := Step(s, point, config);
      |alerts| <= 2 &&
      t.anomaliesDetected == s.anomaliesDetected + |alerts| &&
      ((|alerts| > 0 && alerts[0].PriceAlert?) <==>
        (s.lastPrice > 0.0 && ChangePct(s.lastPrice, point.price) > config.priceChangeThreshold)) &&
      ((|alerts| > 0 && alerts[|alerts| - 1].VolumeAlert?) <==>
        (|s.dataPoints| >= 10 && point.volume > RecentAverage(s.dataPoints) * config.volumeAnomalyMultiplier))
  {
  }

  /**
   * Every trade sets the last price, adds its volume, counts once, and
   * records a price move exactly when there was a previous price.
   */
  lemma StepBookkeeping(s: MonitorState, point: DataPoint, config: DemoConfig)
    ensures var t := Step(s, point, config).0;
      t.symbol == s.symbol && t.lastPrice == point.price &&
      t.totalVolume == s.totalVolume + point.volume && t.tradeCount == s.tradeCount + 1 &&
      (s.lastPrice > 0.0 ==> t.priceChanges == s.priceChanges + [ChangePct(s.lastPrice, point.price)]) &&
      (s.lastPrice <= 0.0 ==> t.priceChanges == s.priceChanges)
  {
  }

  /**
   * The window ends with the new trade and, for a window size of at least
   * one, never outgrows it: a full window loses exactly its oldest trade.
   */
  lemma SlideBounded<T>(points: seq<T>, point: T, windowSize: nat)
    requires windowSize >= 1 && |points| <= windowSize
    ensures var r := Slide(points, point, windowSize);
      |r| <= windowSize && r[|r| - 1] == point &&
      (|points| == windowSize ==> r == points[1..] + [point]) &&
      (|points| < windowSize ==> r == points + [point])
  {
  }

  /** The state every run keeps: a bounded window and at most two anomalies per trade. */
  predicate Bounded(s: MonitorState, config: DemoConfig) {
    |s.dataPoints| <= (if config.windowSize == 0 then 1 else config.windowSize) &&
    s.anomaliesDetected <= 2 * s.tradeCount
  }

  lemma StepKeepsBounded(s: MonitorState, point: DataPoint, config: DemoConfig)
    requires Bounded(s, config)
    ensures Bounded(Step(s, point, config).0, config)
  {
    StepAlerts(s, point, config);
  }

  /** The mean of the recorded price moves, 0 without any. */
  function MeanChange(changes: seq<real>): real {
    if changes == [] then 0.0 else Sum(changes) / |changes| as real
  }

  /** The population standard deviation of the price moves, 0 with at most one of them. */
  function Volatility(changes: seq<real>): (v: real)
    ensures v >= 0.0
    ensures |changes| <= 1 ==> v == 0.0
  {
    if |changes| > 1 then Sqrt(Sum(Deviations(changes, MeanChange(changes))) / |changes| as real)
    else 0.0
  }

  /** Price moves that are all the same size have no volatility. */
  lemma SteadyMovesHaveNoVolatility(changes: seq<real>, c: real)
    requires forall i :: 0 <= i < |changes| ==> changes[i] == c
    ensures Volatility(changes) == 0.0
  {
    if |changes| > 1 {
      var n := |changes| as real;
      SumLowerBound(changes, c);
      SumUpperBound(changes, c);
      assert Sum(changes) == c * n;
      assert MeanChange(changes) == c;
      var d := Deviations(changes, c);
      forall i | 0 <= i < |d|
        ensures d[i] == 0.0
      {
        assert d[i] == Square(changes[i] - c);
      }
      SumLowerBound(d, 0.0);
      SumUpperBound(d, 0.0);
    }
  }

  /** What `get_statistics` reports; the text layout is not modelled. */
  datatype Report = Report(
    symbol: string,
    lastPrice: real,
    totalVolume: real,
    tradeCount: nat,
    volatility: real,
    anomaliesDetected: nat)

  class SymbolMonitor {
    const symbol: string
    var dataPoints: seq<DataPoint>
    var lastPrice: real
    var totalVolume: real
    var tradeCount: nat
    var priceChanges: seq<real>
    var anomaliesDetected: nat

    function State(): MonitorState
      reads this
    {
      MonitorState(symbol, dataPoints, lastPrice, totalVolume, tradeCount, priceChanges, anomaliesDetected)
    }

    constructor (symbol: string)
      ensures State() == Initial(symbol)
    {
      this.symbol := symbol;
      dataPoints := [];
      lastPrice := 0.0;
      totalVolume := 0.0;
      tradeCount := 0;
      priceChanges := [];
      anomaliesDetected := 0;
    }

    /** `add_data_point`: the rules are checked against the state before the trade is stored. */
    method AddDataPoint(point: DataPoint, config: DemoConfig) returns (alerts: seq<DemoAlert>)
      modifies this
      ensures (State(), alerts) == Step(old(State()), point, config)
    {
      ghost var s := State();
      alerts := [];
      if lastPrice > 0.0 {
        var pct := Abs((point.price - lastPrice) / lastPrice * 100.0);
        if pct > config.priceChangeThreshold {
          alerts := [PriceAlert(point.exchange, pct, lastPrice, point.price)];
          anomaliesDetected := anomaliesDetected + 1;
        }
        priceChanges := priceChanges + [pct];
      }
      assert alerts == PriceAlertOf(s, point, config);
      if |dataPoints| >= 10 {
        var average := RecentAverage(dataPoints);
        if point.volume > average * config.volumeAnomalyMultiplier {
          alerts := alerts + [VolumeAlert(point.exchange, point.volume, average)];
          anomaliesDetected := anomaliesDetected + 1;
        }
      }
      assert alerts == PriceAlertOf(s, point, config) + VolumeAlertOf(s, point, config);
      assert anomaliesDetected == s.anomaliesDetected + |alerts|;
      lastPrice := point.price;
      totalVolume := totalVolume + point.volume;
      tradeCount := tradeCount + 1;
      if |dataPoints| >= config.windowSize && |dataPoints| > 0 {
        dataPoints := dataPoints[1..];
      }
      dataPoints := dataPoints + [point];
    }

    /** `get_statistics`: the totals, and the volatility of the recorded price moves. */
    function GetStatistics(): (r: Report)
      reads this
      ensures r.volatility == Volatility(priceChanges)
      ensures |priceChanges| <= 1 ==> r.volatility == 0.0
      ensures r.tradeCount == tradeCount && r.anomaliesDetected == anomaliesDetected
    {
      Report(symbol, lastPrice, totalVolume, tradeCount, Volatility(priceChanges), anomaliesDetected)
    }
  }

  /** The example's `MonitoringSystem`: one monitor per symbol and a count of all trades. */
  class MonitoringSystem {
    const config: DemoConfig
    var monitors: map<string, SymbolMonitor>
    var totalEvents: nat

    /** Different symbols never share a monitor object. */
    ghost predicate Valid()
      reads this
    {
      forall a, b :: a in monitors && b in monitors && a != b ==> monitors[a] != monitors[b]
    }

    constructor (config: DemoConfig)
      ensures Valid() && this.config == config && monitors == map[] && totalEvents == 0
    {
      this.config := config;
      monitors := map[];
      totalEvents := 0;
    }

    /**
     * `process_trade`: the trade goes to the monitor of its symbol, created
     * on first use, whatever exchange it came from; the other monitors are
     * untouched.
     */
    method ProcessTrade(exchange: string, symbol: string, marketType: string, price: real, volume: real,
                        now: Timestamp)
      requires Valid()
      modifies this, monitors.Values
      ensures Valid()
      ensures monitors.Keys == old(monitors.Keys) + {symbol}
      ensures symbol in old(monitors) ==> monitors[symbol] == old(monitors[symbol])
      ensures symbol !in old(monitors) ==> fresh(monitors[symbol])
      ensures monitors[symbol].State() ==
        Step(if symbol in old(monitors) then old(monitors[symbol].State()) else Initial(symbol),
             DataPoint(now, price, volume, exchange, symbol, marketType), config).0
      ensures forall k :: k in old(monitors) && k != symbol ==>
        monitors[k] == old(monitors[k]) && monitors[k].State() == old(monitors[k].State())
      ensures totalEvents == old(totalEvents) + 1
    {
      var point := DataPoint(now, price, volume, exchange, symbol, marketType);
      var monitor: SymbolMonitor;
      if symbol in monitors {
        monitor := monitors[symbol];
      } else {
        monitor := new SymbolMonitor(symbol);
        monitors := monitors[symbol := monitor];
      }
      var alerts := monitor.AddDataPoint(point, config);
      totalEvents := totalEvents + 1;
    }
  }

  /** The same symbol traded on two exchanges feeds one monitor, which counts both trades. */
  method SymbolSharedAcrossExchanges(system: MonitoringSystem, symbol: string, price: real, volume: real,
                                     now: Timestamp)
    requires system.Valid()
    modifies system, system.monitors.Values
    ensures symbol in system.monitors
    ensures system.monitors[symbol].tradeCount ==
      (if symbol in old(system.monitors) then old(system.monitors[symbol].tradeCount) else 0) + 2
    ensures system.monitors[symbol].lastPrice == price
  {
    system.ProcessTrade("binance", symbol, "spot", price, volume, now);
    system.ProcessTrade("okx", symbol, "spot", price, volume, now);
  }
}

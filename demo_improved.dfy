/**
 * The improved demo monitor (barter-data's `monitor_demo_improved`
 * example): the monitor waits for enough samples, keeps quiet for two
 * seconds after an alert, and compares each trade with statistics of the
 * recent price moves and volumes, with thresholds that adapt to them.
 *
 * `Instant`s are milliseconds on a monotonic clock supplied by the
 * caller; the alert text is the list of rules that fired, in line order.
 */
module ImprovedDemo {
  import opened Numerics
  import opened MonitorCore
  import DemoMonitor

  type Instant = int

  /** The quiet period after an alert, in milliseconds. */
  const Cooldown: int := 2000

  datatype ImprovedConfig = ImprovedConfig(
    priceChangeThreshold: real,
    volumeMultiplierBase: real,
    volumeMultiplierMax: real,
    windowSize: nat,
    reportIntervalSecs: nat,
    minSamples: nat,
    dynamicThreshold: bool)

  /** The example's defaults. */
  function DefaultImprovedConfig(): (c: ImprovedConfig)
    ensures c.priceChangeThreshold == 3.0 && c.volumeMultiplierBase == 5.0 && c.volumeMultiplierMax == 20.0
    ensures c.windowSize == 200 && c.reportIntervalSecs == 10 && c.minSamples == 20 && c.dynamicThreshold
  {
    ImprovedConfig(3.0, 5.0, 20.0, 200, 10, 20, true)
  }

  // ---------------------------------------------------------------------
  // Statistics::calculate

  datatype Statistics = Statistics(mean: real, stdDev: real, min: real, max: real, percentile95: real)

  predicate SortedAsc(xs: seq<real>) {
    forall i, j :: 0 <= i < j < |xs| ==> xs[i] <= xs[j]
  }

  /** Places `x` before the first larger value. */
  function Insert(x: real, sorted: seq<real>): (r: seq<real>)
    ensures multiset(r) == multiset(sorted) + multiset{x}
    ensures |r| == |sorted| + 1
  {
    if sorted == [] || x <= sorted[0] then [x] + sorted
    else
      assert sorted == [sorted[0]] + sorted[1..];
      [sorted[0]] + Insert(x, sorted[1..])
  }

  /** `sort_by(partial_cmp)` on values that are never NaN: ascending order. */
  function SortAsc(xs: seq<real>): (r: seq<real>)
    ensures multiset(r) == multiset(xs)
    ensures |r| == |xs|
  {
    if xs == [] then []
    else
      assert xs == [xs[0]] + xs[1..];
      Insert(xs[0], SortAsc(xs[1..]))
  }

  lemma {:induction false} InsertKeepsOrder(x: real, sorted: seq<real>)
    requires SortedAsc(sorted)
    ensures SortedAsc(Insert(x, sorted))
  {
    if !(sorted == [] || x <= sorted[0]) {
      var tail := sorted[1..];
      InsertKeepsOrder(x, tail);
      AllAbove(sorted[0], x, tail);
      assert Insert(x, sorted) == [sorted[0]] + Insert(x, tail);
    }
  }

  /** Inserting a value no smaller than `lo` among values no smaller than `lo`. */
  lemma AllAbove(lo: real, x: real, tail: seq<real>)
    requires lo <= x && forall j :: 0 <= j < |tail| ==> lo <= tail[j]
    ensures forall i :: 0 <= i < |Insert(x, tail)| ==> lo <= Insert(x, tail)[i]
  {
    var r := Insert(x, tail);
    forall i | 0 <= i < |r|
      ensures lo <= r[i]
    {
      assert r[i] in multiset(r);
      assert r[i] in tail || r[i] == x;
    }
  }

  lemma {:induction false} SortAscOrders(xs: seq<real>)
    ensures SortedAsc(SortAsc(xs))
  {
    if xs != [] {
      SortAscOrders(xs[1..]);
      InsertKeepsOrder(xs[0], SortAsc(xs[1..]));
    }
  }

  /** The index `(n as f64 * 0.95) as usize`, taken as the exact floor of 0.95·n. */
  function P95Index(n: nat): (k: nat)
    requires n >= 1
    ensures k < n
  {
    (95 * n) / 100
  }

  /** The percentile index is the last one exactly for lists of at most 20 values. */
  lemma P95IsLastUpTo20(n: nat)
    requires n >= 1
    ensures P95Index(n) == n - 1 <==> n <= 20
  {
  }

  /** Up to 20 values, the reported 95th percentile is the maximum. */
  lemma SmallSamplePercentileIsMax(values: seq<real>)
    requires 1 <= |values| <= 20
    ensures Calculate(values).value.percentile95 == Calculate(values).value.max
  {
    P95IsLastUpTo20(|values|);
  }

  /**
   * `Statistics::calculate`: nothing for no values; otherwise the mean, the
   * population standard deviation, and the smallest, largest and 95th
   * percentile values of the sorted copy.
   */
  function Calculate(values: seq<real>): (r: Option<Statistics>)
    ensures r.None? <==> values == []
  {
    if values == [] then None
    else
      var n := |values|;
      var mean := Sum(values) / n as real;
      var sorted := SortAsc(values);
      Some(Statistics(mean, Sqrt(Sum(Deviations(values, mean)) / n as real),
                      sorted[0], sorted[n - 1], sorted[P95Index(n)]))
  }

  /**
   * On values: the minimum and maximum are values and bound all of them,
   * the mean and the 95th percentile lie between them, and the standard
   * deviation is not negative.
   */
  lemma CalculateBounds(values: seq<real>)
    requires values != []
    ensures var s := Calculate(values).value;
      s.min in values && s.max in values && s.percentile95 in values &&
      (forall i :: 0 <= i < |values| ==> s.min <= values[i] <= s.max) &&
      s.min <= s.mean <= s.max &&
      s.min <= s.percentile95 <= s.max &&
      s.stdDev >= 0.0
  {
    var n := |values|;
    var sorted := SortAsc(values);
    SortAscOrders(values);
    OrderStatistics(values, sorted);
    MeanWithin(values, sorted[0], sorted[n - 1]);
  }

  /** Values between two bounds have their mean between them too. */
  lemma MeanWithin(values: seq<real>, lo: real, hi: real)
    requires values != []
    requires forall i :: 0 <= i < |values| ==> lo <= values[i] <= hi
    ensures lo <= Sum(values) / |values| as real <= hi
  {
    SumLowerBound(values, lo);
    SumUpperBound(values, hi);
    MeanBetween(Sum(values), |values| as real, lo, hi);
  }

  /** A sorted permutation starts with the least value and ends with the greatest. */
  lemma OrderStatistics(values: seq<real>, sorted: seq<real>)
    requires values != [] && SortedAsc(sorted) && multiset(sorted) == multiset(values)
    ensures |sorted| == |values|
    ensures forall i :: 0 <= i < |values| ==> sorted[0] <= values[i] <= sorted[|sorted| - 1]
    ensures forall k :: 0 <= k < |sorted| ==> sorted[0] <= sorted[k] <= sorted[|sorted| - 1] && sorted[k] in values
  {
    assert |sorted| == |multiset(sorted)| == |multiset(values)| == |values|;
    var n := |values|;
    forall i | 0 <= i < n
      ensures sorted[0] <= values[i] <= sorted[n - 1]
    {
      assert values[i] in multiset(values);
      assert values[i] in sorted;
    }
    forall k | 0 <= k < n
      ensures sorted[k] in values
    {
      assert sorted[k] in multiset(sorted);
      assert sorted[k] in multiset(values);
    }
  }

  /** A total between `lo·n` and `hi·n` has its mean between `lo` and `hi`. */
  lemma MeanBetween(total: real, n: real, lo: real, hi: real)
    requires n > 0.0 && lo * n <= total <= hi * n
    ensures lo <= total / n <= hi
  {
    var m := total / n;
    assert m * n == total;
  }

  // ---------------------------------------------------------------------
  // SymbolMonitor

  /** A line of the alert. */
  datatype ImprovedAlert =
    | PriceAlert(exchange: string, changePct: real, from: real, to: real, threshold: real)
    | VolumeAlert(exchange: string, volume: real, mean: real)

  /** The fields of the improved `SymbolMonitor`. */
  datatype MonitorState = MonitorState(
    symbol: string,
    dataPoints: seq<DemoMonitor.DataPoint>,
    lastPrice: real,
    totalVolume: real,
    tradeCount: nat,
    priceChanges: seq<real>,
    volumeHistory: seq<real>,
    anomaliesDetected: nat,
    falsePositives: nat,
    lastAlertTime: Option<Instant>,
    dynamicVolumeThreshold: real)

  /** `SymbolMonitor::new`: empty histories and the base volume multiplier. */
  function Initial(symbol: string, config: ImprovedConfig): (s: MonitorState)
    ensures s.symbol == symbol && s.dataPoints == [] && s.priceChanges == [] && s.volumeHistory == []
    ensures s.lastPrice == 0.0 && s.totalVolume == 0.0 && s.tradeCount == 0
    ensures s.anomaliesDetected == 0 && s.falsePositives == 0 && s.lastAlertTime == None
    ensures s.dynamicVolumeThreshold == config.volumeMultiplierBase
  {
    MonitorState(symbol, [], 0.0, 0.0, 0, [], [], 0, 0, None, config.volumeMultiplierBase)
  }

  /** The first part of every call: count the trade and store it in both windows. */
  function Record(s: MonitorState, point: DemoMonitor.DataPoint, config: ImprovedConfig): MonitorState {
    s.(tradeCount := s.tradeCount + 1,
       totalVolume := s.totalVolume + point.volume,
       dataPoints := DemoMonitor.Slide(s.dataPoints, point, config.windowSize),
       volumeHistory := DemoMonitor.Slide(s.volumeHistory, point.volume, config.windowSize))
  }

  /** Less than two seconds since the last alert. */
  predicate CoolingDown(s: MonitorState, now: Instant) {
    s.lastAlertTime.Some? && now - s.lastAlertTime.value < Cooldown
  }

  /** The price-move threshold: mean plus two deviations, never below the configured one. */
  function PriceThreshold(stats: Statistics, config: ImprovedConfig): (t: real)
    ensures t >= config.priceChangeThreshold
    ensures config.dynamicThreshold ==> t >= stats.mean + 2.0 * stats.stdDev
    ensures !config.dynamicThreshold ==> t == config.priceChangeThreshold
  {
    if config.dynamicThreshold then Max(stats.mean + 2.0 * stats.stdDev, config.priceChangeThreshold)
    else config.priceChangeThreshold
  }

  /**
   * The spread term `(std_dev / mean).min(2.0)`: a zero mean gives NaN or
   * +inf there, and `min` turns both into 2.
   */
  function Spread(stats: Statistics): (r: real)
    ensures r <= 2.0
  {
    if stats.mean == 0.0 then 2.0 else Min(stats.stdDev / stats.mean, 2.0)
  }

  /** The adapted volume multiplier, capped at the configured maximum. */
  function VolumeMultiplier(stats: Statistics, config: ImprovedConfig): (m: real)
    ensures m <= config.volumeMultiplierMax
  {
    Min(config.volumeMultiplierBase * (1.5 + Spread(stats)), config.volumeMultiplierMax)
  }

  /** The price rule, given the price move and the statistics of the recorded moves. */
  function PriceVerdict(s: MonitorState, pct: real, point: DemoMonitor.DataPoint, config: ImprovedConfig,
                        now: Instant, stats: Statistics): (r: (MonitorState, seq<ImprovedAlert>))
    ensures |r.1| <= 1 && r.0.anomaliesDetected == s.anomaliesDetected + |r.1|
    ensures r.0.symbol == s.symbol && r.0.dataPoints == s.dataPoints && r.0.lastPrice == s.lastPrice
    ensures r.0.totalVolume == s.totalVolume && r.0.tradeCount == s.tradeCount
    ensures r.0.priceChanges == s.priceChanges && r.0.volumeHistory == s.volumeHistory
    ensures r.0.dynamicVolumeThreshold == s.dynamicVolumeThreshold
  {
    var threshold := PriceThreshold(stats, config);
    if pct > threshold && pct > stats.percentile95 then
      (s.(anomaliesDetected := s.anomaliesDetected + 1, lastAlertTime := Some(now)),
       [PriceAlert(point.exchange, pct, s.lastPrice, point.price, threshold)])
    else (s, [])
  }

  /** The price check: with a previous price, record the move, then judge it. */
  function PriceCheck(s: MonitorState, point: DemoMonitor.DataPoint, config: ImprovedConfig, now: Instant)
    : (r: (MonitorState, seq<ImprovedAlert>))
    ensures |r.1| <= 1 && r.0.anomaliesDetected == s.anomaliesDetected + |r.1|
    ensures r.0.symbol == s.symbol && r.0.dataPoints == s.dataPoints && r.0.lastPrice == s.lastPrice
    ensures r.0.totalVolume == s.totalVolume && r.0.tradeCount == s.tradeCount
    ensures r.0.volumeHistory == s.volumeHistory && r.0.dynamicVolumeThreshold == s.dynamicVolumeThreshold
    ensures s.lastPrice > 0.0 ==>
      r.0.priceChanges == DemoMonitor.Slide(s.priceChanges, DemoMonitor.ChangePct(s.lastPrice, point.price), config.windowSize)
    ensures s.lastPrice <= 0.0 ==> r == (s, [])
  {
    if s.lastPrice > 0.0 then
      var pct := DemoMonitor.ChangePct(s.lastPrice, point.price);
      var changes := DemoMonitor.Slide(s.priceChanges, pct, config.windowSize);
      PriceVerdict(s.(priceChanges := changes), pct, point, config, now, Calculate(changes).value)
    else (s, [])
  }

  /** The volume check, given the statistics of the volume window (which holds the new trade). */
  function VolumeCheck(s: MonitorState, point: DemoMonitor.DataPoint, config: ImprovedConfig, now: Instant,
                       stats: Option<Statistics>): (r: (MonitorState, seq<ImprovedAlert>))
    ensures |r.1| <= 1 && r.0.anomaliesDetected == s.anomaliesDetected + |r.1|
    ensures r.0.symbol == s.symbol && r.0.dataPoints == s.dataPoints && r.0.lastPrice == s.lastPrice
    ensures r.0.totalVolume == s.totalVolume && r.0.tradeCount == s.tradeCount
    ensures r.0.priceChanges == s.priceChanges && r.0.volumeHistory == s.volumeHistory
    ensures r.0.dynamicVolumeThreshold ==
      if stats.Some? && config.dynamicThreshold then VolumeMultiplier(stats.value, config) else s.dynamicVolumeThreshold
  {
    match stats
    case None => (s, [])
    case Some(stats) =>
      var multiplier := if config.dynamicThreshold then VolumeMultiplier(stats, config) else s.dynamicVolumeThreshold;
      var t := s.(dynamicVolumeThreshold := multiplier);
      if point.volume > stats.mean * multiplier && point.volume > stats.percentile95 * 1.5 then
        (t.(anomaliesDetected := s.anomaliesDetected + 1, lastAlertTime := Some(now)),
         [VolumeAlert(point.exchange, point.volume, stats.mean)])
      else (t, [])
  }

  /** Warm-up: fewer stored trades than `min_samples`. */
  predicate WarmingUp(r: MonitorState, config: ImprovedConfig) {
    |r.dataPoints| < config.minSamples
  }

  /** `add_data_point` on values. */
  function Step(s: MonitorState, point: DemoMonitor.DataPoint, config: ImprovedConfig, now: Instant)
    : (MonitorState, seq<ImprovedAlert>)
  {
    var r := Record(s, point, config);
    if WarmingUp(r, config) || CoolingDown(r, now) then (r.(lastPrice := point.price), [])
    else
      var p := PriceCheck(r, point, config, now);
      var v := VolumeCheck(p.0, point, config, now, Calculate(p.0.volumeHistory));
      (v.0.(lastPrice := point.price), p.1 + v.1)
  }

  /**
   * Every call counts the trade, adds its volume, stores it in both windows
   * and sets the last price, before any early return.
   */
  lemma StepRecords(s: MonitorState, point: DemoMonitor.DataPoint, config: ImprovedConfig, now: Instant)
    ensures var t := Step(s, point, config, now).0;
      t.tradeCount == s.tradeCount + 1 && t.totalVolume == s.totalVolume + point.volume &&
      t.dataPoints == DemoMonitor.Slide(s.dataPoints, point, config.windowSize) &&
      t.volumeHistory == DemoMonitor.Slide(s.volumeHistory, point.volume, config.windowSize) &&
      t.lastPrice == point.price && t.symbol == s.symbol
  {
  }

  /**
   * While warming up or cooling down nothing fires, and apart from the
   * recording only the last price changes.
   */
  lemma QuietWhileWarmingOrCooling(s: MonitorState, point: DemoMonitor.DataPoint, config: ImprovedConfig,
                                   now: Instant)
    requires WarmingUp(Record(s, point, config), config) || CoolingDown(s, now)
    ensures Step(s, point, config, now) == (Record(s, point, config).(lastPrice := point.price), [])
  {
  }

  /**
   * A price line needs a previous price and a move above both the
   * (adapted) threshold and the 95th percentile of the recorded moves; the
   * threshold is never below the configured one.
   */
  lemma PriceRule(s: MonitorState, point: DemoMonitor.DataPoint, config: ImprovedConfig, now: Instant)
    ensures var alerts := Step(s, point, config, now).1;
      var r := Record(s, point, config);
      (|alerts| > 0 && alerts[0].PriceAlert?) ==>
        !WarmingUp(r, config) && !CoolingDown(s, now) && r.lastPrice > 0.0 &&
        var pct := DemoMonitor.ChangePct(r.lastPrice, point.price);
        var stats := Calculate(DemoMonitor.Slide(r.priceChanges, pct, config.windowSize)).value;
        alerts[0].threshold == PriceThreshold(stats, config) &&
        pct == alerts[0].changePct &&
        pct > alerts[0].threshold >= config.priceChangeThreshold &&
        pct > stats.percentile95
  {
  }

  /**
   * The volume rule: a line exactly when there are statistics and the
   * volume beats both the mean times the multiplier in force (adapted
   * first, and then capped, when dynamic thresholds are on) and one and a
   * half times the 95th percentile.
   */
  lemma VolumeRule(s: MonitorState, point: DemoMonitor.DataPoint, config: ImprovedConfig, now: Instant,
                   stats: Option<Statistics>)
    ensures var (t, alerts) := VolumeCheck(s, point, config, now, stats);
      (|alerts| == 1 <==>
        stats.Some? &&
        point.volume > stats.value.mean * t.dynamicVolumeThreshold &&
        point.volume > stats.value.percentile95 * 1.5) &&
      (|alerts| == 1 ==> alerts[0] == VolumeAlert(point.exchange, point.volume, stats.value.mean) &&
                         t.lastAlertTime == Some(now)) &&
      (|alerts| == 0 ==> t.lastAlertTime == s.lastAlertTime) &&
      (config.dynamicThreshold && stats.Some? ==> t.dynamicVolumeThreshold <= config.volumeMultiplierMax)
  {
  }

  /** The moves window after a trade at `price`, when there is a previous price. */
  function MovesAfter(s: MonitorState, price: real, config: ImprovedConfig): seq<real>
    requires s.lastPrice > 0.0
  {
    DemoMonitor.Slide(s.priceChanges, DemoMonitor.ChangePct(s.lastPrice, price), config.windowSize)
  }

  /** The price check is silent when the moves window, which ends with the new move, holds at most 20 moves. */
  lemma SmallWindowPriceCheckQuiet(r: MonitorState, point: DemoMonitor.DataPoint, config: ImprovedConfig, now: Instant)
    requires r.lastPrice > 0.0 ==> |MovesAfter(r, point.price, config)| <= 20
    ensures PriceCheck(r, point, config, now).1 == []
  {
    if r.lastPrice > 0.0 {
      var moves := MovesAfter(r, point.price, config);
      SmallSamplePercentileIsMax(moves);
      CalculateBounds(moves);
      assert moves[|moves| - 1] == DemoMonitor.ChangePct(r.lastPrice, point.price);
    }
  }

  /** The volume check is silent when the window holds at most 20 volumes, the newest being this non-negative one. */
  lemma SmallWindowVolumeCheckQuiet(t: MonitorState, point: DemoMonitor.DataPoint, config: ImprovedConfig, now: Instant,
                                    volumes: seq<real>)
    requires point.volume >= 0.0
    requires 1 <= |volumes| <= 20 && volumes[|volumes| - 1] == point.volume
    ensures VolumeCheck(t, point, config, now, Calculate(volumes)).1 == []
  {
    SmallWindowVolumeAlertBeatsMaximum(t, point, config, now, volumes);
    CalculateBounds(volumes);
  }

  /** A step's lines are the price check's lines followed by the volume check's. */
  lemma StepLines(s: MonitorState, point: DemoMonitor.DataPoint, config: ImprovedConfig, now: Instant)
    ensures var r := Record(s, point, config);
      var p := PriceCheck(r, point, config, now);
      var v := VolumeCheck(p.0, point, config, now, Calculate(r.volumeHistory));
      (forall a :: a in p.1 ==> a.PriceAlert?) && (forall a :: a in v.1 ==> a.VolumeAlert?) &&
      Step(s, point, config, now).1 == if WarmingUp(r, config) || CoolingDown(r, now) then [] else p.1 + v.1
  {
    var r := Record(s, point, config);
    PriceCheckLines(r, point, config, now);
    VolumeCheckLines(PriceCheck(r, point, config, now).0, point, config, now, Calculate(r.volumeHistory));
  }

  lemma PriceCheckLines(r: MonitorState, point: DemoMonitor.DataPoint, config: ImprovedConfig, now: Instant)
    ensures forall a :: a in PriceCheck(r, point, config, now).1 ==> a.PriceAlert?
  {
  }

  lemma VolumeCheckLines(t: MonitorState, point: DemoMonitor.DataPoint, config: ImprovedConfig, now: Instant,
                         stats: Option<Statistics>)
    ensures forall a :: a in VolumeCheck(t, point, config, now, stats).1 ==> a.VolumeAlert?
  {
  }

  /**
   * A price line needs more than 20 recorded moves: the window of moves
   * ends with the new move, and up to 20 values the 95th percentile is
   * their maximum, which the new move cannot beat. Moves are recorded only
   * after warm-up, so the price rule stays silent for the first 20 moves
   * judged.
   */
  lemma NoPriceAlertWithin20Moves(s: MonitorState, point: DemoMonitor.DataPoint, config: ImprovedConfig, now: Instant)
    ensures forall a :: a in Step(s, point, config, now).1 && a.PriceAlert? ==>
      s.lastPrice > 0.0 && |MovesAfter(s, point.price, config)| > 20
  {
    StepLines(s, point, config, now);
    var r := Record(s, point, config);
    if s.lastPrice > 0.0 ==> |MovesAfter(s, point.price, config)| <= 20 {
      SmallWindowPriceCheckQuiet(r, point, config, now);
    }
  }

  /** The volume check's lines in a full step, which reads the volume window holding the new trade. */
  function VolumeLines(s: MonitorState, point: DemoMonitor.DataPoint, config: ImprovedConfig, now: Instant)
    : seq<ImprovedAlert>
  {
    var r := Record(s, point, config);
    VolumeCheck(PriceCheck(r, point, config, now).0, point, config, now, Calculate(r.volumeHistory)).1
  }

  lemma StepVolumeLines(s: MonitorState, point: DemoMonitor.DataPoint, config: ImprovedConfig, now: Instant)
    ensures forall a :: a in Step(s, point, config, now).1 && a.VolumeAlert? ==> a in VolumeLines(s, point, config, now)
  {
    StepLines(s, point, config, now);
  }

  lemma QuietVolumeLines(s: MonitorState, point: DemoMonitor.DataPoint, config: ImprovedConfig, now: Instant)
    requires point.volume >= 0.0
    requires |Record(s, point, config).volumeHistory| <= 20
    ensures VolumeLines(s, point, config, now) == []
  {
    var r := Record(s, point, config);
    var volumes := r.volumeHistory;
    assert 1 <= |volumes| && volumes[|volumes| - 1] == point.volume;
    SmallWindowVolumeCheckQuiet(PriceCheck(r, point, config, now).0, point, config, now, volumes);
  }

  /**
   * A volume line needs more than 20 volumes in the window: the window
   * holds the new volume, so a volume of zero or more cannot exceed one
   * and a half times the window's maximum.
   */
  lemma NoVolumeAlertWithin20Volumes(s: MonitorState, point: DemoMonitor.DataPoint, config: ImprovedConfig, now: Instant)
    requires point.volume >= 0.0
    ensures forall a :: a in Step(s, point, config, now).1 && a.VolumeAlert? ==>
      |Record(s, point, config).volumeHistory| > 20
  {
    StepVolumeLines(s, point, config, now);
    if |Record(s, point, config).volumeHistory| <= 20 {
      QuietVolumeLines(s, point, config, now);
    }
  }

  /** With both windows at most 20 long, a trade of non-negative volume raises nothing. */
  lemma QuietWhileWindowsSmall(s: MonitorState, point: DemoMonitor.DataPoint, config: ImprovedConfig, now: Instant)
    requires point.volume >= 0.0
    requires s.lastPrice > 0.0 ==> |MovesAfter(s, point.price, config)| <= 20
    requires |Record(s, point, config).volumeHistory| <= 20
    ensures Step(s, point, config, now).1 == []
  {
    var r := Record(s, point, config);
    StepLines(s, point, config, now);
    assert r.lastPrice == s.lastPrice && r.priceChanges == s.priceChanges;
    SmallWindowPriceCheckQuiet(r, point, config, now);
    QuietVolumeLines(s, point, config, now);
  }

  /** With at most 20 recorded volumes, a volume line needs more than one and a half times the largest. */
  lemma SmallWindowVolumeAlertBeatsMaximum(s: MonitorState, point: DemoMonitor.DataPoint, config: ImprovedConfig, now: Instant,
                                           volumes: seq<real>)
    requires 1 <= |volumes| <= 20
    ensures var alerts := VolumeCheck(s, point, config, now, Calculate(volumes)).1;
      |alerts| == 1 ==> point.volume > Calculate(volumes).value.max * 1.5
  {
    VolumeRule(s, point, config, now, Calculate(volumes));
    SmallSamplePercentileIsMax(volumes);
  }

  /** In a full step the volume rule reads the volume window that already holds the new trade. */
  lemma StepVolumeWindow(s: MonitorState, point: DemoMonitor.DataPoint, config: ImprovedConfig, now: Instant)
    ensures var r := Record(s, point, config);
      !(WarmingUp(r, config) || CoolingDown(r, now)) ==>
        var p := PriceCheck(r, point, config, now);
        Step(s, point, config, now).1 == p.1 + VolumeCheck(p.0, point, config, now, Calculate(r.volumeHistory)).1 &&
        r.volumeHistory[|r.volumeHistory| - 1] == point.volume
  {
  }

  /** What every run keeps: bounded windows, at most two anomalies per trade, a capped multiplier. */
  predicate Bounded(s: MonitorState, config: ImprovedConfig) {
    var cap := if config.windowSize == 0 then 1 else config.windowSize;
    |s.dataPoints| <= cap && |s.volumeHistory| <= cap && |s.priceChanges| <= cap &&
    s.anomaliesDetected <= 2 * s.tradeCount &&
    s.dynamicVolumeThreshold <= config.volumeMultiplierMax
  }

  lemma InitialBounded(symbol: string, config: ImprovedConfig)
    requires config.volumeMultiplierBase <= config.volumeMultiplierMax
    ensures Bounded(Initial(symbol, config), config)
  {
  }

  lemma StepKeepsBounded(s: MonitorState, point: DemoMonitor.DataPoint, config: ImprovedConfig, now: Instant)
    requires Bounded(s, config)
    ensures Bounded(Step(s, point, config, now).0, config)
  {
    var r := Record(s, point, config);
    var cap := if config.windowSize == 0 then 1 else config.windowSize;
    DemoMonitor.SlideBounded(s.dataPoints, point, cap);
    DemoMonitor.SlideBounded(s.volumeHistory, point.volume, cap);
    assert Bounded(r, config) && r.anomaliesDetected + 2 <= 2 * r.tradeCount;
    if !(WarmingUp(r, config) || CoolingDown(r, now)) {
      var p := PriceCheck(r, point, config, now);
      ChecksKeepBounded(r, point, config, now, Calculate(p.0.volumeHistory));
    }
  }

  /** The two checks add at most two anomalies and keep every window within its cap. */
  lemma ChecksKeepBounded(r: MonitorState, point: DemoMonitor.DataPoint, config: ImprovedConfig, now: Instant,
                          stats: Option<Statistics>)
    requires Bounded(r, config) && r.anomaliesDetected + 2 <= 2 * r.tradeCount
    ensures var p := PriceCheck(r, point, config, now);
      Bounded(VolumeCheck(p.0, point, config, now, stats).0.(lastPrice := point.price), config)
  {
    var cap := if config.windowSize == 0 then 1 else config.windowSize;
    if r.lastPrice > 0.0 {
      DemoMonitor.SlideBounded(r.priceChanges, DemoMonitor.ChangePct(r.lastPrice, point.price), cap);
    }
  }

  /** What `get_statistics` reports; the text layout is not modelled. */
  datatype Report = Report(
    symbol: string,
    lastPrice: real,
    averageVolume: real,
    totalVolume: real,
    tradeCount: nat,
    priceVolatility: real,
    anomaliesDetected: nat,
    detectionRate: real)

  /** Anomalies per hundred trades, 0 before the first trade. */
  function DetectionRate(anomalies: nat, trades: nat): (rate: real)
    ensures trades == 0 ==> rate == 0.0
    ensures rate >= 0.0
    ensures anomalies <= 2 * trades ==> rate <= 200.0
  {
    if trades > 0 then
      RatioBound(anomalies, trades);
      anomalies as real / trades as real * 100.0
    else 0.0
  }

  lemma RatioBound(anomalies: nat, trades: nat)
    requires trades > 0
    ensures anomalies as real / trades as real >= 0.0
    ensures anomalies <= 2 * trades ==> anomalies as real / trades as real <= 2.0
  {
    var ratio := anomalies as real / trades as real;
    assert ratio * trades as real == anomalies as real;
    if ratio > 2.0 {
      assert ratio * trades as real > 2.0 * trades as real;
    }
  }

  class SymbolMonitor {
    const symbol: string
    var dataPoints: seq<DemoMonitor.DataPoint>
    var lastPrice: real
    var totalVolume: real
    var tradeCount: nat
    var priceChanges: seq<real>
    var volumeHistory: seq<real>
    var anomaliesDetected: nat
    var falsePositives: nat
    var lastAlertTime: Option<Instant>
    var dynamicVolumeThreshold: real

    function State(): MonitorState
      reads this
    {
      MonitorState(symbol, dataPoints, lastPrice, totalVolume, tradeCount, priceChanges, volumeHistory,
                   anomaliesDetected, falsePositives, lastAlertTime, dynamicVolumeThreshold)
    }

    constructor (symbol: string, config: ImprovedConfig)
      ensures State() == Initial(symbol, config)
    {
      this.symbol := symbol;
      dataPoints := [];
      lastPrice := 0.0;
      totalVolume := 0.0;
      tradeCount := 0;
      priceChanges := [];
      volumeHistory := [];
      anomaliesDetected := 0;
      falsePositives := 0;
      lastAlertTime := None;
      dynamicVolumeThreshold := config.volumeMultiplierBase;
    }

    /** `add_data_point`. */
    method AddDataPoint(point: DemoMonitor.DataPoint, config: ImprovedConfig, now: Instant)
      returns (alerts: seq<ImprovedAlert>)
      modifies this
      ensures (State(), alerts) == Step(old(State()), point, config, now)
    {
      RecordTrade(point, config);
      ghost var r := State();
      if |dataPoints| < config.minSamples {
        lastPrice := point.price;
        return [];
      }
      if lastAlertTime.Some? && now - lastAlertTime.value < Cooldown {
        lastPrice := point.price;
        return [];
      }
      alerts := CheckPrice(point, config, now);
      ghost var p := (State(), alerts);
      assert p == PriceCheck(r, point, config, now);
      var volumeStats := Calculate(volumeHistory);
      var volumeAlerts := CheckVolume(point, config, now, volumeStats);
      assert (State(), volumeAlerts) == VolumeCheck(p.0, point, config, now, Calculate(p.0.volumeHistory));
      alerts := alerts + volumeAlerts;
      lastPrice := point.price;
    }

    /** The bookkeeping every call does first: count, volume and both windows. */
    method RecordTrade(point: DemoMonitor.DataPoint, config: ImprovedConfig)
      modifies this
      ensures State() == Record(old(State()), point, config)
    {
      tradeCount := tradeCount + 1;
      totalVolume := totalVolume + point.volume;
      if |dataPoints| >= config.windowSize && |dataPoints| > 0 {
        dataPoints := dataPoints[1..];
      }
      dataPoints := dataPoints + [point];
      if |volumeHistory| >= config.windowSize && |volumeHistory| > 0 {
        volumeHistory := volumeHistory[1..];
      }
      volumeHistory := volumeHistory + [point.volume];
    }

    /** The price check: the move is recorded, then judged against the recorded moves. */
    method CheckPrice(point: DemoMonitor.DataPoint, config: ImprovedConfig, now: Instant)
      returns (alerts: seq<ImprovedAlert>)
      modifies this
      ensures (State(), alerts) == PriceCheck(old(State()), point, config, now)
    {
      alerts := [];
      if lastPrice > 0.0 {
        var pct := DemoMonitor.ChangePct(lastPrice, point.price);
        if |priceChanges| >= config.windowSize && |priceChanges| > 0 {
          priceChanges := priceChanges[1..];
        }
        priceChanges := priceChanges + [pct];
        var priceStats := Calculate(priceChanges);
        alerts := JudgePrice(pct, point, config, now, priceStats.value);
      }
    }

    /** The price rule on the recorded moves' statistics. */
    method JudgePrice(pct: real, point: DemoMonitor.DataPoint, config: ImprovedConfig, now: Instant,
                      stats: Statistics)
      returns (alerts: seq<ImprovedAlert>)
      modifies this
      ensures (State(), alerts) == PriceVerdict(old(State()), pct, point, config, now, stats)
    {
      alerts := [];
      var threshold := PriceThreshold(stats, config);
      if pct > threshold && pct > stats.percentile95 {
        alerts := [PriceAlert(point.exchange, pct, lastPrice, point.price, threshold)];
        anomaliesDetected := anomaliesDetected + 1;
        lastAlertTime := Some(now);
      }
    }

    /** The volume check, with the multiplier adapted first when dynamic thresholds are on. */
    method CheckVolume(point: DemoMonitor.DataPoint, config: ImprovedConfig, now: Instant,
                       stats: Option<Statistics>)
      returns (alerts: seq<ImprovedAlert>)
      modifies this
      ensures (State(), alerts) == VolumeCheck(old(State()), point, config, now, stats)
    {
      alerts := [];
      if stats.Some? {
        if config.dynamicThreshold {
          dynamicVolumeThreshold := VolumeMultiplier(stats.value, config);
        }
        var volumeThreshold := stats.value.mean * dynamicVolumeThreshold;
        if point.volume > volumeThreshold && point.volume > stats.value.percentile95 * 1.5 {
          alerts := [VolumeAlert(point.exchange, point.volume, stats.value.mean)];
          anomaliesDetected := anomaliesDetected + 1;
          lastAlertTime := Some(now);
        }
      }
    }

    /**
     * `get_statistics`: the counters as they stand, the deviation of the
     * recorded moves, the mean of the volume window and the detection rate.
     */
    function GetStatistics(): (r: Report)
      reads this
      ensures r.symbol == symbol && r.lastPrice == lastPrice && r.totalVolume == totalVolume
      ensures r.tradeCount == tradeCount && r.anomaliesDetected == anomaliesDetected
      ensures priceChanges == [] ==> r.priceVolatility == 0.0
      ensures priceChanges != [] ==> r.priceVolatility == Calculate(priceChanges).value.stdDev
      ensures volumeHistory == [] ==> r.averageVolume == 0.0
      ensures volumeHistory != [] ==> r.averageVolume == Sum(volumeHistory) / |volumeHistory| as real
      ensures volumeHistory != [] ==> r.averageVolume == Calculate(volumeHistory).value.mean
      ensures r.detectionRate == DetectionRate(anomaliesDetected, tradeCount)
    {
      var volatility := match Calculate(priceChanges) case Some(s) => s.stdDev case None => 0.0;
      var averageVolume := if volumeHistory != [] then Sum(volumeHistory) / |volumeHistory| as real else 0.0;
      Report(symbol, lastPrice, averageVolume, totalVolume, tradeCount, volatility, anomaliesDetected,
             DetectionRate(anomaliesDetected, tradeCount))
    }
  }

  // ---------------------------------------------------------------------
  // MonitoringSystem

  /** `contains` on strings. */
  predicate Contains(s: string, part: string)
    decreases |s|
  {
    (|part| <= |s| && s[..|part|] == part) || (|s| > 0 && Contains(s[1..], part))
  }

  lemma {:induction false} ShortNeverContains(s: string, part: string)
    requires |s| < |part|
    ensures !Contains(s, part)
  {
    if |s| > 0 {
      ShortNeverContains(s[1..], part);
    }
  }

  /** The stream errors the example treats as noise. */
  predicate KnownNoise(message: string) {
    Contains(message, "pong") || Contains(message, "ping") || Contains(message, "subscription_id")
  }

  class MonitoringSystem {
    const config: ImprovedConfig
    var monitors: map<string, SymbolMonitor>
    var totalEvents: nat
    var errorCount: nat
    var filteredErrors: nat

    /** Different symbols never share a monitor object. */
    ghost predicate Valid()
      reads this
    {
      forall a, b :: a in monitors && b in monitors && a != b ==> monitors[a] != monitors[b]
    }

    constructor (config: ImprovedConfig)
      ensures Valid() && this.config == config && monitors == map[]
      ensures totalEvents == 0 && errorCount == 0 && filteredErrors == 0
    {
      this.config := config;
      monitors := map[];
      totalEvents := 0;
      errorCount := 0;
      filteredErrors := 0;
    }

    /**
     * `process_trade`: the trade goes to the monitor of its symbol, created
     * on first use, whatever exchange it came from; the other monitors are
     * untouched.
     */
    method ProcessTrade(exchange: string, symbol: string, marketType: string, price: real, volume: real,
                        time: Timestamp, now: Instant)
      requires Valid()
      modifies this, monitors.Values
      ensures Valid()
      ensures monitors.Keys == old(monitors.Keys) + {symbol}
      ensures symbol in old(monitors) ==> monitors[symbol] == old(monitors[symbol])
      ensures symbol !in old(monitors) ==> fresh(monitors[symbol])
      ensures monitors[symbol].State() ==
        Step(if symbol in old(monitors) then old(monitors[symbol].State()) else Initial(symbol, config),
             DemoMonitor.DataPoint(time, price, volume, exchange, symbol, marketType), config, now).0
      ensures forall k :: k in old(monitors) && k != symbol ==>
        monitors[k] == old(monitors[k]) && monitors[k].State() == old(monitors[k].State())
      ensures totalEvents == old(totalEvents) + 1
      ensures errorCount == old(errorCount) && filteredErrors == old(filteredErrors)
    {
      var point := DemoMonitor.DataPoint(time, price, volume, exchange, symbol, marketType);
      var monitor: SymbolMonitor;
      if symbol in monitors {
        monitor := monitors[symbol];
      } else {
        monitor := new SymbolMonitor(symbol, config);
        monitors := monitors[symbol := monitor];
      }
      var alerts := monitor.AddDataPoint(point, config, now);
      totalEvents := totalEvents + 1;
    }

    /** `handle_error`: exactly one of the two counters rises, the noise one for known noise. */
    method HandleError(message: string)
      modifies this
      ensures KnownNoise(message) ==> filteredErrors == old(filteredErrors) + 1 && errorCount == old(errorCount)
      ensures !KnownNoise(message) ==> errorCount == old(errorCount) + 1 && filteredErrors == old(filteredErrors)
      ensures monitors == old(monitors) && totalEvents == old(totalEvents)
    {
      if KnownNoise(message) {
        filteredErrors := filteredErrors + 1;
      } else {
        errorCount := errorCount + 1;
      }
    }
  }

  /** The match is case-sensitive: a "Ping" is not noise, a "pong" is. */
  lemma NoiseIsCaseSensitive()
    ensures KnownNoise("pong timeout")
    ensures !KnownNoise("Ping")
  {
    ShortNeverContains("ing", "ping");
    ShortNeverContains("ing", "pong");
    ShortNeverContains("Ping", "subscription_id");
    assert "pong timeout"[..4] == "pong";
    assert "Ping"[1..] == "ing";
    assert "Ping"[..4][0] != "ping"[0] && "Ping"[..4][0] != "pong"[0];
  }
}

/**
 * monitor-anomaly's `MarketAnalyzer`: four pattern rules over a market's
 * recent prices and volumes.
 *
 * The analyzer keeps the price and volume histories (oldest first, at most
 * 1000 each) and feeds every sample to its `MetricsCalculator` under the
 * keys "price" and "volume". Each rule is a function of the histories; the
 * f64 quotients whose divisor the source does not check are `Float`s, so a
 * zero divisor behaves as in IEEE 754 (an infinity passes a `>` test, NaN
 * fails every test). The record ids and the clock are parameters.
 */
module MarketAnalysis {
  import opened Numerics
  import opened MonitorCore
  import opened AnomalyWindow
  import opened MarketMetrics

  const MaxHistorySize: nat := 1000

  /** The window size the analyzer gives the calculator. */
  const MetricsWindowSize: nat := 60

  /** The ids the four rules would give their records, in rule order. */
  datatype RuleIds = RuleIds(volume: Uuid, manipulation: Uuid, flashCrash: Uuid, pumpDump: Uuid)

  /**
   * The clock reading each rule takes when it builds its record, in rule
   * order; each rule reads the clock itself, apart from the reading that
   * stamps the sample fed to the calculator.
   */
  datatype RuleTimes = RuleTimes(volume: Timestamp, manipulation: Timestamp, flashCrash: Timestamp, pumpDump: Timestamp)

  // ---------------------------------------------------------------------
  // History

  /** `push_back`, then `pop_front` when the history grew past `max`. */
  function Remember(h: seq<real>, x: real, max: nat): (r: seq<real>)
    ensures |h| <= max ==> |r| <= max
  {
    var grown := h + [x];
    if |grown| > max then grown[1..] else grown
  }

  /**
   * A bounded history keeps exactly the latest `min(|h| + 1, max)` values,
   * ending with the new one.
   */
  lemma RememberKeepsLatest(h: seq<real>, x: real, max: nat)
    requires |h| <= max && max >= 1
    ensures var r := Remember(h, x, max);
      |r| == Min2(|h| + 1, max) &&
      r == (h + [x])[|h| + 1 - |r|..] &&
      r[|r| - 1] == x
  {
  }

  /** The latest `k` values, newest first: `iter().rev().take(k)`. */
  function Latest(h: seq<real>, k: nat): (r: seq<real>)
    requires k <= |h|
    ensures |r| == k
    ensures forall i :: 0 <= i < k ==> r[i] == h[|h| - 1 - i]
  {
    seq(k, i requires 0 <= i < k => h[|h| - 1 - i])
  }

  /** The largest of non-empty values (`fold` with `f64::max`). */
  function MaxOf(xs: seq<real>): (m: real)
    requires xs != []
    ensures forall i :: 0 <= i < |xs| ==> xs[i] <= m
    ensures exists i :: 0 <= i < |xs| && xs[i] == m
  {
    if |xs| == 1 then xs[0]
    else
      var rest := MaxOf(xs[..|xs| - 1]);
      var m := Max(rest, xs[|xs| - 1]);
      assert forall i :: 0 <= i < |xs| - 1 ==> xs[i] == xs[..|xs| - 1][i];
      m
  }

  /** The smallest of non-empty values (`fold` with `f64::min`). */
  function MinOf(xs: seq<real>): (m: real)
    requires xs != []
    ensures forall i :: 0 <= i < |xs| ==> m <= xs[i]
    ensures exists i :: 0 <= i < |xs| && xs[i] == m
  {
    if |xs| == 1 then xs[0]
    else
      var rest := MinOf(xs[..|xs| - 1]);
      var m := Min(rest, xs[|xs| - 1]);
      assert forall i :: 0 <= i < |xs| - 1 ==> xs[i] == xs[..|xs| - 1][i];
      m
  }

  /**
   * The position `max_by` reports: a greatest value, and of several equal
   * greatest values the last one.
   */
  function LastMaxIndex(xs: seq<real>): (r: nat)
    requires xs != []
    ensures r < |xs|
    ensures forall j :: 0 <= j < |xs| ==> xs[j] <= xs[r]
    ensures forall j :: r < j < |xs| ==> xs[j] < xs[r]
  {
    if |xs| == 1 then 0
    else
      var k := LastMaxIndex(xs[..|xs| - 1]);
      assert forall j :: 0 <= j < |xs| - 1 ==> xs[j] == xs[..|xs| - 1][j];
      if xs[|xs| - 1] >= xs[k] then |xs| - 1 else k
  }

  // ---------------------------------------------------------------------
  // The four rules

  /** `check_unusual_volume`: the latest volume against the history's average. */
  function UnusualVolume(volumes: seq<real>, symbol: string, exchange: string, id: Uuid, now: Timestamp): (r: Option<AnomalyDetection>)
    ensures |volumes| < 30 ==> r == None
    ensures r.Some? ==> r.value.anomalyType == UnusualActivity && r.value.severity in {High, AnomalySeverity.Critical}
    ensures r.Some? ==> r.value.id == id && r.value.timestamp == now && r.value.symbol == symbol && r.value.exchange == exchange
  {
    if |volumes| < 30 then None
    else
      var current := volumes[|volumes| - 1];
      var avg := MeanOf(volumes);
      var ratio := Div(current, avg);
      if ratio.Greater(5.0) then
        Some(AnomalyDetection(id, now, symbol, exchange, UnusualActivity,
          if ratio.Greater(10.0) then AnomalySeverity.Critical else High,
          AnomalyMetrics(current, avg, current - avg, None, Some(ratio.Minus(1.0).Scale(100.0)), Some(avg), None)))
      else None
  }

  /** The average of the latest 10 volumes; fewer than 10 are still divided by 10. */
  function RecentVolume(volumes: seq<real>): real {
    Sum(volumes[|volumes| - Min2(10, |volumes|)..]) / 10.0
  }

  /** `check_price_manipulation`: a large 10-step price move on below-half volume. */
  function PriceManipulation(prices: seq<real>, volumes: seq<real>, symbol: string, exchange: string, id: Uuid, now: Timestamp): (r: Option<AnomalyDetection>)
    ensures |prices| < 10 ==> r == None
    ensures r.Some? ==> r.value.anomalyType == UnusualActivity && r.value.severity == High
    ensures r.Some? ==> r.value.id == id && r.value.timestamp == now && r.value.symbol == symbol && r.value.exchange == exchange
  {
    // With no volumes the historical average is 0/0 = NaN and the comparison is false.
    if |prices| < 10 || |volumes| == 0 then None
    else
      var recent := Latest(prices, 10);
      var change := Div(recent[0] - recent[9], recent[9]).Scale(100.0);
      var recentVolume := RecentVolume(volumes);
      var historical := MeanOf(volumes);
      if change.Abs().Greater(3.0) && recentVolume < historical * 0.5 then
        Some(AnomalyDetection(id, now, symbol, exchange, UnusualActivity, High,
          AnomalyMetrics(recent[0], recent[9], recent[0] - recent[9], None, Some(change), Some(historical), None)))
      else None
  }

  /** `check_flash_crash`: a wide range over the last five prices, ending well below their top. */
  function FlashCrash(prices: seq<real>, symbol: string, exchange: string, id: Uuid, now: Timestamp): (r: Option<AnomalyDetection>)
    ensures |prices| < 5 ==> r == None
    ensures r.Some? ==> r.value.anomalyType == PriceSpike && r.value.severity == AnomalySeverity.Critical
    ensures r.Some? ==> r.value.id == id && r.value.timestamp == now && r.value.symbol == symbol && r.value.exchange == exchange
  {
    if |prices| < 5 then None
    else
      var recent := Latest(prices, 5);
      var top, bottom, current := MaxOf(recent), MinOf(recent), recent[0];
      var drop := Div(top - bottom, top).Scale(100.0);
      if drop.Greater(10.0) && current < top * 0.9 then
        Some(AnomalyDetection(id, now, symbol, exchange, PriceSpike, AnomalySeverity.Critical,
          AnomalyMetrics(current, top, current - top, None, Some(drop.Negate()), None, None)))
      else None
  }

  /** `check_pump_dump`: a peak inside the last 20 prices, well above where they started and ended. */
  function PumpDump(prices: seq<real>, volumes: seq<real>, symbol: string, exchange: string, id: Uuid, now: Timestamp): (r: Option<AnomalyDetection>)
    ensures |prices| < 20 || |volumes| < 20 ==> r == None
    ensures r.Some? ==> r.value.anomalyType == UnusualActivity && r.value.severity == AnomalySeverity.Critical
    ensures r.Some? ==> r.value.id == id && r.value.timestamp == now && r.value.symbol == symbol && r.value.exchange == exchange
  {
    if |prices| < 20 || |volumes| < 20 then None
    else
      var recent := Latest(prices, 20);
      var peakIdx := LastMaxIndex(recent);
      var peak := recent[peakIdx];
      if 5 < peakIdx < 15 then
        var before, after := recent[19], recent[0];
        var pump := Div(peak - before, before).Scale(100.0);
        var dump := Div(peak - after, peak).Scale(100.0);
        if pump.Greater(20.0) && dump.Greater(15.0) then
          Some(AnomalyDetection(id, now, symbol, exchange, UnusualActivity, AnomalySeverity.Critical,
            AnomalyMetrics(after, before, after - before, None, Some(pump), None, None)))
        else None
      else None
  }

  function Found(o: Option<AnomalyDetection>): (r: seq<AnomalyDetection>)
    ensures |r| <= 1
  {
    if o.Some? then [o.value] else []
  }

  /** The records of the four rules, in rule order. */
  function Collect(v: Option<AnomalyDetection>, m: Option<AnomalyDetection>, f: Option<AnomalyDetection>, p: Option<AnomalyDetection>): (r: seq<AnomalyDetection>)
    ensures |r| <= 4
  {
    Found(v) + Found(m) + Found(f) + Found(p)
  }

  /** The records `analyze_market_data` returns for the updated histories, in rule order. */
  function Analysis(prices: seq<real>, volumes: seq<real>, symbol: string, exchange: string, times: RuleTimes, ids: RuleIds): (r: seq<AnomalyDetection>)
    ensures |r| <= 4
  {
    Collect(UnusualVolume(volumes, symbol, exchange, ids.volume, times.volume),
            PriceManipulation(prices, volumes, symbol, exchange, ids.manipulation, times.manipulation),
            FlashCrash(prices, symbol, exchange, ids.flashCrash, times.flashCrash),
            PumpDump(prices, volumes, symbol, exchange, ids.pumpDump, times.pumpDump))
  }

  // ---------------------------------------------------------------------
  // What the rules mean

  /** A constant run of volumes gives the average back, so its ratio is 1 (or 0/0). */
  lemma FlatSum(xs: seq<real>, c: real)
    requires forall i :: 0 <= i < |xs| ==> xs[i] == c
    ensures Sum(xs) == c * |xs| as real
  {
    SumLowerBound(xs, c);
    SumUpperBound(xs, c);
  }

  /** Comparing a quotient by a positive divisor is comparing the dividend with the scaled bound. */
  lemma QuotientAbove(x: real, d: real, k: real)
    requires d > 0.0
    ensures x / d > k <==> x > k * d
  {
    var q := x / d;
    assert x == q * d;
    if q > k {
      assert (q - k) * d > 0.0;
    } else {
      assert (k - q) * d >= 0.0;
    }
  }

  /**
   * With a positive average, the volume rule fires exactly when the latest
   * volume is more than 5 times the average, and is Critical exactly when it
   * is more than 10 times.
   */
  lemma UnusualVolumeRule(volumes: seq<real>, symbol: string, exchange: string, id: Uuid, now: Timestamp)
    requires |volumes| >= 30 && Sum(volumes) > 0.0
    ensures var avg, current := MeanOf(volumes), volumes[|volumes| - 1];
      var r := UnusualVolume(volumes, symbol, exchange, id, now);
      (r.Some? <==> current > 5.0 * avg) &&
      (r.Some? ==> (r.value.severity == AnomalySeverity.Critical <==> current > 10.0 * avg)) &&
      (r.Some? ==> r.value.metrics.expectedValue == avg && r.value.metrics.currentValue == current)
  {
    var n := |volumes| as real;
    var avg, current := MeanOf(volumes), volumes[|volumes| - 1];
    QuotientAbove(Sum(volumes), n, 0.0);
    QuotientAbove(current, avg, 5.0);
    QuotientAbove(current, avg, 10.0);
  }

  /** Steady volume is never unusual. */
  lemma SteadyVolumeNeverUnusual(volumes: seq<real>, c: real, symbol: string, exchange: string, id: Uuid, now: Timestamp)
    requires forall i :: 0 <= i < |volumes| ==> volumes[i] == c
    ensures UnusualVolume(volumes, symbol, exchange, id, now) == None
  {
    if |volumes| >= 30 {
      FlatSum(volumes, c);
      var n := |volumes| as real;
      assert MeanOf(volumes) == c;
      assert volumes[|volumes| - 1] == c;
      if c != 0.0 {
        assert c / c == 1.0;
      }
    }
  }

  /**
   * For positive prices, the manipulation rule fires exactly when the price
   * moved by more than 3% over the last 10 samples while the average of the
   * last 10 volumes is below half the historical average.
   */
  lemma PriceManipulationRule(prices: seq<real>, volumes: seq<real>, symbol: string, exchange: string, id: Uuid, now: Timestamp)
    requires |prices| >= 10 && |volumes| >= 10
    requires forall i :: 0 <= i < |prices| ==> prices[i] > 0.0
    ensures var p0, p9 := prices[|prices| - 1], prices[|prices| - 10];
      (PriceManipulation(prices, volumes, symbol, exchange, id, now).Some? <==>
        Abs(p0 - p9) > 0.03 * p9 && RecentVolume(volumes) < MeanOf(volumes) * 0.5)
  {
    var p0, p9 := prices[|prices| - 1], prices[|prices| - 10];
    var recent := Latest(prices, 10);
    assert recent[0] == p0 && recent[9] == p9;
    MoveAbove(p0, p9, 3.0);
  }

  /** A percentage move from a positive base exceeds `pct` exactly when the absolute move exceeds that share of the base. */
  lemma MoveAbove(now: real, base: real, pct: real)
    requires base > 0.0
    ensures Div(now - base, base).Scale(100.0).Abs().Greater(pct) <==> Abs(now - base) > pct / 100.0 * base
  {
    var q := (now - base) / base;
    assert Abs(q * 100.0) == Abs(q) * 100.0;
    assert Abs(q) == Abs(now - base) / base;
    QuotientAbove(Abs(now - base), base, pct / 100.0);
  }

  /** A price that is back where it was 10 samples ago is never flagged as manipulated. */
  lemma UnmovedPriceNeverManipulated(prices: seq<real>, volumes: seq<real>, symbol: string, exchange: string, id: Uuid, now: Timestamp)
    requires |prices| >= 10 && prices[|prices| - 1] == prices[|prices| - 10]
    ensures PriceManipulation(prices, volumes, symbol, exchange, id, now) == None
  {
  }

  /**
   * For positive prices, a flash crash is reported exactly when the lowest of
   * the last five prices and the latest one are both below 90% of their highest.
   */
  lemma FlashCrashRule(prices: seq<real>, symbol: string, exchange: string, id: Uuid, now: Timestamp)
    requires |prices| >= 5
    requires forall i :: 0 <= i < |prices| ==> prices[i] > 0.0
    ensures var recent := Latest(prices, 5);
      (FlashCrash(prices, symbol, exchange, id, now).Some? <==>
        MinOf(recent) < 0.9 * MaxOf(recent) && prices[|prices| - 1] < 0.9 * MaxOf(recent))
  {
    var recent := Latest(prices, 5);
    var top, bottom := MaxOf(recent), MinOf(recent);
    assert top >= recent[0] > 0.0;
    QuotientAbove(top - bottom, top, 0.1);
  }

  /** A market at its high over the last five prices never reports a flash crash. */
  lemma NoFlashCrashAtTheHigh(prices: seq<real>, symbol: string, exchange: string, id: Uuid, now: Timestamp)
    requires |prices| >= 5 && prices[|prices| - 1] >= 0.0
    requires forall i :: |prices| - 5 <= i < |prices| ==> prices[i] <= prices[|prices| - 1]
    ensures FlashCrash(prices, symbol, exchange, id, now) == None
  {
    if |prices| >= 5 {
      var recent := Latest(prices, 5);
      var top := MaxOf(recent);
      var k :| 0 <= k < 5 && recent[k] == top;
      assert recent[k] == prices[|prices| - 1 - k];
    }
  }

  /**
   * The peak the pump-dump rule uses is the greatest of the last 20 prices,
   * and every older one of them is strictly lower: of several equal highs,
   * the oldest is taken.
   */
  lemma PeakIsOldestHigh(prices: seq<real>)
    requires |prices| >= 20
    ensures var recent := Latest(prices, 20);
      var idx := LastMaxIndex(recent);
      var at := |prices| - 1 - idx;
      prices[at] == recent[idx] &&
      (forall j :: |prices| - 20 <= j < |prices| ==> prices[j] <= prices[at]) &&
      (forall j :: |prices| - 20 <= j < at ==> prices[j] < prices[at])
  {
    var recent := Latest(prices, 20);
    var idx := LastMaxIndex(recent);
    var at := |prices| - 1 - idx;
    forall j | |prices| - 20 <= j < |prices|
      ensures prices[j] <= prices[at]
      ensures j < at ==> prices[j] < prices[at]
    {
      assert prices[j] == recent[|prices| - 1 - j];
    }
  }

  /**
   * For positive prices, a pump-dump is reported exactly when the peak lies
   * at the 7th to 15th newest price (index 6 to 14, newest = 0), stands more than 20%
   * above the oldest of the 20, and the newest is more than 15% below it.
   */
  lemma PumpDumpRule(prices: seq<real>, volumes: seq<real>, symbol: string, exchange: string, id: Uuid, now: Timestamp)
    requires |prices| >= 20 && |volumes| >= 20
    requires forall i :: 0 <= i < |prices| ==> prices[i] > 0.0
    ensures var recent := Latest(prices, 20);
      var idx := LastMaxIndex(recent);
      var peak, before, after := recent[idx], recent[19], recent[0];
      (PumpDump(prices, volumes, symbol, exchange, id, now).Some? <==>
        5 < idx < 15 && peak > 1.2 * before && after < 0.85 * peak)
  {
    var recent := Latest(prices, 20);
    var idx := LastMaxIndex(recent);
    var peak, before, after := recent[idx], recent[19], recent[0];
    assert before > 0.0 && peak > 0.0;
    QuotientAbove(peak - before, before, 0.2);
    QuotientAbove(peak - after, peak, 0.15);
  }

  /** A market whose newest price tops the previous 19 never reports a pump-dump. */
  lemma NoPumpDumpAtANewHigh(prices: seq<real>, volumes: seq<real>, symbol: string, exchange: string, id: Uuid, now: Timestamp)
    requires |prices| >= 20
    requires forall j :: |prices| - 20 <= j < |prices| - 1 ==> prices[j] < prices[|prices| - 1]
    ensures PumpDump(prices, volumes, symbol, exchange, id, now) == None
  {
  }

  /** `analyze_market_data` reports nothing until 5 prices and 30 volumes are known. */
  lemma AnalysisWarmUp(prices: seq<real>, volumes: seq<real>, symbol: string, exchange: string, times: RuleTimes, ids: RuleIds)
    requires |prices| < 5 && |volumes| < 30
    ensures Analysis(prices, volumes, symbol, exchange, times, ids) == []
  {
  }

  /** A record of `o` has the fields `o` promises. */
  predicate Stamped(o: Option<AnomalyDetection>, symbol: string, exchange: string, now: Timestamp, id: Uuid) {
    o.Some? ==> o.value.symbol == symbol && o.value.exchange == exchange && o.value.timestamp == now && o.value.id == id
  }

  /** `a` carries the id of one of the four rules together with that rule's own clock reading. */
  predicate FromRule(a: AnomalyDetection, times: RuleTimes, ids: RuleIds) {
    (a.id == ids.volume && a.timestamp == times.volume) ||
    (a.id == ids.manipulation && a.timestamp == times.manipulation) ||
    (a.id == ids.flashCrash && a.timestamp == times.flashCrash) ||
    (a.id == ids.pumpDump && a.timestamp == times.pumpDump)
  }

  predicate DistinctIds(ids: RuleIds) {
    ids.volume != ids.manipulation && ids.volume != ids.flashCrash && ids.volume != ids.pumpDump &&
    ids.manipulation != ids.flashCrash && ids.manipulation != ids.pumpDump &&
    ids.flashCrash != ids.pumpDump
  }

  /** Collected records keep their rule's stamp, and distinct rule ids stay distinct. */
  lemma CollectStamped(v: Option<AnomalyDetection>, m: Option<AnomalyDetection>, f: Option<AnomalyDetection>, p: Option<AnomalyDetection>,
                       symbol: string, exchange: string, times: RuleTimes, ids: RuleIds)
    requires Stamped(v, symbol, exchange, times.volume, ids.volume) && Stamped(m, symbol, exchange, times.manipulation, ids.manipulation)
    requires Stamped(f, symbol, exchange, times.flashCrash, ids.flashCrash) && Stamped(p, symbol, exchange, times.pumpDump, ids.pumpDump)
    ensures var r := Collect(v, m, f, p);
      forall a :: a in r ==> a.symbol == symbol && a.exchange == exchange && FromRule(a, times, ids)
    ensures var r := Collect(v, m, f, p);
      DistinctIds(ids) ==> forall i, j :: 0 <= i < j < |r| ==> r[i].id != r[j].id
  {
    var r := Collect(v, m, f, p);
    var tags := Tags(Found(v), ids.volume) + Tags(Found(m), ids.manipulation) + Tags(Found(f), ids.flashCrash) + Tags(Found(p), ids.pumpDump);
    assert forall i :: 0 <= i < |r| ==> r[i].id == tags[i];
  }

  /** The ids of a rule's records: all equal to the rule's id. */
  function Tags(rs: seq<AnomalyDetection>, id: Uuid): (t: seq<Uuid>)
    ensures |t| == |rs|
  {
    seq(|rs|, _ => id)
  }

  /**
   * Every record carries the market, and the id of the rule that made it
   * together with the clock reading that rule took; with a fresh id per
   * rule, no two records share an id.
   */
  lemma AnalysisRecordsStamped(prices: seq<real>, volumes: seq<real>, symbol: string, exchange: string, times: RuleTimes, ids: RuleIds)
    ensures forall a :: a in Analysis(prices, volumes, symbol, exchange, times, ids) ==>
      a.symbol == symbol && a.exchange == exchange && FromRule(a, times, ids)
    ensures var r := Analysis(prices, volumes, symbol, exchange, times, ids);
      DistinctIds(ids) ==> forall i, j :: 0 <= i < j < |r| ==> r[i].id != r[j].id
  {
    CollectStamped(UnusualVolume(volumes, symbol, exchange, ids.volume, times.volume),
                   PriceManipulation(prices, volumes, symbol, exchange, ids.manipulation, times.manipulation),
                   FlashCrash(prices, symbol, exchange, ids.flashCrash, times.flashCrash),
                   PumpDump(prices, volumes, symbol, exchange, ids.pumpDump, times.pumpDump),
                   symbol, exchange, times, ids);
  }

  // ---------------------------------------------------------------------
  // The analyzer

  class MarketAnalyzer {
    const symbol: string
    const exchange: string
    const metrics: MetricsCalculator
    var priceHistory: seq<real>
    var volumeHistory: seq<real>
    ghost var Repr: set<object>

    /** Both histories grow and shrink together and stay within the bound. */
    ghost predicate Valid()
      reads this, Repr
    {
      this !in Repr && metrics in Repr && metrics.Repr <= Repr &&
      metrics.Valid() &&
      |priceHistory| == |volumeHistory| <= MaxHistorySize
    }

    constructor (symbol: string, exchange: string)
      ensures Valid() && fresh(Repr)
      ensures this.symbol == symbol && this.exchange == exchange
      ensures priceHistory == [] && volumeHistory == [] && metrics.Model == map[]
    {
      this.symbol := symbol;
      this.exchange := exchange;
      var m := new MetricsCalculator();
      metrics := m;
      priceHistory := [];
      volumeHistory := [];
      Repr := {m} + m.Repr;
    }

    /** `update_history`. */
    method UpdateHistory(price: real, volume: real)
      requires Valid()
      modifies this
      ensures Valid() && Repr == old(Repr)
      ensures priceHistory == Remember(old(priceHistory), price, MaxHistorySize)
      ensures volumeHistory == Remember(old(volumeHistory), volume, MaxHistorySize)
    {
      priceHistory := priceHistory + [price];
      if |priceHistory| > MaxHistorySize {
        priceHistory := priceHistory[1..];
      }
      volumeHistory := volumeHistory + [volume];
      if |volumeHistory| > MaxHistorySize {
        volumeHistory := volumeHistory[1..];
      }
    }

    /**
     * `analyze_market_data`: records the sample, feeds the calculator, then
     * runs the four rules over the updated histories. `now` is the clock
     * reading that stamps the sample; each rule stamps its record with its
     * own reading from `times`.
     */
    method AnalyzeMarketData(price: real, volume: real, now: Timestamp, times: RuleTimes, ids: RuleIds) returns (found: seq<AnomalyDetection>)
      requires Valid()
      modifies this, Repr
      ensures Valid() && fresh(Repr - old(Repr))
      ensures priceHistory == Remember(old(priceHistory), price, MaxHistorySize)
      ensures volumeHistory == Remember(old(volumeHistory), volume, MaxHistorySize)
      ensures metrics.Model == AfterAdd(AfterAdd(old(metrics.Model), "price", TimeSeriesData(now, price), MetricsWindowSize),
                                        "volume", TimeSeriesData(now, volume), MetricsWindowSize)
      ensures found == Analysis(priceHistory, volumeHistory, symbol, exchange, times, ids)
    {
      UpdateHistory(price, volume);
      FeedMetrics(price, volume, now);
      found := RunRules(times, ids);
    }

    /** Hands the sample to the calculator under "price" and "volume". */
    method FeedMetrics(price: real, volume: real, now: Timestamp)
      requires Valid()
      modifies this, Repr
      ensures Valid() && fresh(Repr - old(Repr))
      ensures priceHistory == old(priceHistory) && volumeHistory == old(volumeHistory)
      ensures metrics.Model == AfterAdd(AfterAdd(old(metrics.Model), "price", TimeSeriesData(now, price), MetricsWindowSize),
                                        "volume", TimeSeriesData(now, volume), MetricsWindowSize)
    {
      Feed("price", TimeSeriesData(now, price));
      Feed("volume", TimeSeriesData(now, volume));
    }

    method Feed(key: string, point: TimeSeriesData)
      requires Valid()
      modifies this, Repr
      ensures Valid() && fresh(Repr - old(Repr))
      ensures priceHistory == old(priceHistory) && volumeHistory == old(volumeHistory)
      ensures metrics.Model == AfterAdd(old(metrics.Model), key, point, MetricsWindowSize)
    {
      metrics.AddData(key, point, MetricsWindowSize);
      Repr := Repr + metrics.Repr;
    }

    /** The four rules over the current histories, each record appended as its rule fires. */
    method RunRules(times: RuleTimes, ids: RuleIds) returns (found: seq<AnomalyDetection>)
      ensures found == Analysis(priceHistory, volumeHistory, symbol, exchange, times, ids)
    {
      found := [];
      var v := UnusualVolume(volumeHistory, symbol, exchange, ids.volume, times.volume);
      if v.Some? {
        found := found + [v.value];
      }
      assert found == Found(v);
      var m := PriceManipulation(priceHistory, volumeHistory, symbol, exchange, ids.manipulation, times.manipulation);
      if m.Some? {
        found := found + [m.value];
      }
      assert found == Found(v) + Found(m);
      var f := FlashCrash(priceHistory, symbol, exchange, ids.flashCrash, times.flashCrash);
      if f.Some? {
        found := found + [f.value];
      }
      assert found == Found(v) + Found(m) + Found(f);
      var p := PumpDump(priceHistory, volumeHistory, symbol, exchange, ids.pumpDump, times.pumpDump);
      if p.Some? {
        found := found + [p.value];
      }
      assert found == Collect(v, m, f, p);
    }
  }
}

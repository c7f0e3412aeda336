/**
 * monitor-anomaly's detectors.
 *
 * A volume or price detector owns one rolling window and, for prices, the
 * last price seen. `Detect` pushes the new sample into the window first and
 * only then reads the window's statistics, so the current value is part of
 * its own baseline. The composite runs its detectors in insertion order and
 * keeps the records they emit; the manager keeps one composite of
 * [volume, price] per `"exchange:symbol"` key, created on first use.
 *
 * Each object is specified by a value: `DetectorState` is what a detector
 * holds, `Next` is its state after one sample and `Verdict` the record it
 * emits for it. The methods are proved against these functions and the
 * properties are lemmas about the functions.
 */
module AnomalyDetectors {
  import opened Numerics
  import opened MonitorCore
  import opened AnomalyWindow

  // ---------------------------------------------------------------------
  // Severity bands

  /** The volume detector's bands on |z|. */
  function VolumeSeverity(absZ: real): AnomalySeverity {
    if absZ >= 5.0 then AnomalySeverity.Critical
    else if absZ >= 4.0 then High
    else if absZ >= 3.0 then Medium
    else Low
  }

  /** The price detector's bands: either the move or |z| can lift the band. */
  function PriceSeverity(absPct: real, absZ: real): AnomalySeverity {
    if absPct >= 10.0 || absZ >= 5.0 then AnomalySeverity.Critical
    else if absPct >= 7.0 || absZ >= 4.0 then High
    else if absPct >= 5.0 || absZ >= 3.0 then Medium
    else Low
  }

  /** A larger |z| never gives a lower volume severity. */
  lemma VolumeSeverityMonotone(z1: real, z2: real)
    requires z1 <= z2
    ensures VolumeSeverity(z1).Rank() <= VolumeSeverity(z2).Rank()
  {
  }

  /** A larger move or a larger |z| never gives a lower price severity. */
  lemma PriceSeverityMonotone(p1: real, z1: real, p2: real, z2: real)
    requires p1 <= p2 && z1 <= z2
    ensures PriceSeverity(p1, z1).Rank() <= PriceSeverity(p2, z2).Rank()
  {
  }

  // ---------------------------------------------------------------------
  // What a detector holds and what one sample does to it

  datatype DetectorState =
    | VolumeState(volumeConfig: VolumeAnomalyConfig, symbol: string, exchange: string, data: seq<TimeSeriesData>)
    | PriceState(priceConfig: PriceAnomalyConfig, symbol: string, exchange: string, data: seq<TimeSeriesData>,
                 lastPrice: Option<real>)
  {
    function WindowSize(): nat {
      if VolumeState? then volumeConfig.windowSize else priceConfig.windowSize
    }

    function MinSamples(): nat {
      if VolumeState? then volumeConfig.minSamples else priceConfig.minSamples
    }
  }

  /** The state after `detect`: the sample is pushed, and a price detector remembers the price. */
  function Next(s: DetectorState, point: TimeSeriesData): (t: DetectorState)
    ensures t.data == Pushed(s.data, s.WindowSize(), point)
    ensures t.VolumeState? == s.VolumeState? && t.symbol == s.symbol && t.exchange == s.exchange
    ensures t.PriceState? ==> t.priceConfig == s.priceConfig && t.lastPrice == Some(point.value)
    ensures t.VolumeState? ==> t.volumeConfig == s.volumeConfig
  {
    match s
    case VolumeState(cfg, sym, ex, data) => VolumeState(cfg, sym, ex, Pushed(data, cfg.windowSize, point))
    case PriceState(cfg, sym, ex, data, _) =>
      PriceState(cfg, sym, ex, Pushed(data, cfg.windowSize, point), Some(point.value))
  }

  /** The state after `reset`: an empty window and, for prices, no last price. */
  function ResetState(s: DetectorState): (t: DetectorState)
    ensures t.data == [] && t.VolumeState? == s.VolumeState?
    ensures t.symbol == s.symbol && t.exchange == s.exchange
    ensures t.VolumeState? ==> t.volumeConfig == s.volumeConfig
    ensures t.PriceState? ==> t.priceConfig == s.priceConfig && t.lastPrice == None
  {
    match s
    case VolumeState(cfg, sym, ex, _) => VolumeState(cfg, sym, ex, [])
    case PriceState(cfg, sym, ex, _, _) => PriceState(cfg, sym, ex, [], None)
  }

  /** The volume detector's percentage change from the window mean; 0 when the mean is not positive. */
  function PercentFromMean(value: real, mean: real): real {
    if mean > 0.0 then ((value - mean) / mean) * 100.0 else 0.0
  }

  /** The price detector's percentage change from the last price; 0 without a positive last price. */
  function PercentFromLast(value: real, last: Option<real>): real {
    if last.Some? && last.value > 0.0 then ((value - last.value) / last.value) * 100.0 else 0.0
  }

  /** The volume rule, over the window contents that already hold `point`. */
  function VolumeVerdict(cfg: VolumeAnomalyConfig, symbol: string, exchange: string,
                         contents: seq<TimeSeriesData>, point: TimeSeriesData, id: Uuid): (r: Option<AnomalyDetection>)
    ensures |contents| < cfg.minSamples ==> r == None
    ensures r.Some? ==>
              r.value.anomalyType == VolumeSpike && r.value.id == id && r.value.timestamp == point.timestamp
              && r.value.symbol == symbol && r.value.exchange == exchange
  {
    if |contents| < cfg.minSamples then None
    else
      var xs := Values(contents);
      var mean := MeanOf(xs);
      var z := ZScoreOf(xs, point.value);
      var pct := PercentFromMean(point.value, mean);
      if Abs(z) >= cfg.zScoreThreshold && Abs(pct) >= cfg.minPercentageChange then
        Some(AnomalyDetection(id, point.timestamp, symbol, exchange, VolumeSpike, VolumeSeverity(Abs(z)),
          AnomalyMetrics(point.value, mean, point.value - mean, Some(z), Some(Finite(pct)),
                         Some(mean), Some(StdDevOf(xs)))))
      else None
  }

  /** The price rule, over the window contents that already hold `point` and the price seen before it. */
  function PriceVerdict(cfg: PriceAnomalyConfig, symbol: string, exchange: string,
                        contents: seq<TimeSeriesData>, last: Option<real>, point: TimeSeriesData, id: Uuid): (r: Option<AnomalyDetection>)
    ensures |contents| < cfg.minSamples ==> r == None
    ensures r.Some? ==>
              r.value.anomalyType == PriceSpike && r.value.id == id && r.value.timestamp == point.timestamp
              && r.value.symbol == symbol && r.value.exchange == exchange
  {
    if |contents| < cfg.minSamples then None
    else
      var xs := Values(contents);
      var mean := MeanOf(xs);
      var z := ZScoreOf(xs, point.value);
      var pct := PercentFromLast(point.value, last);
      if Abs(pct) >= cfg.percentageThreshold || Abs(z) >= cfg.zScoreThreshold then
        Some(AnomalyDetection(id, point.timestamp, symbol, exchange, PriceSpike, PriceSeverity(Abs(pct), Abs(z)),
          AnomalyMetrics(point.value, mean, point.value - mean, Some(z), Some(Finite(pct)),
                         Some(mean), Some(StdDevOf(xs)))))
      else None
  }

  /** The record `detect` returns for `point` from state `s` (the state before the call). */
  function Verdict(s: DetectorState, point: TimeSeriesData, id: Uuid): Option<AnomalyDetection> {
    match s
    case VolumeState(cfg, sym, ex, data) =>
      VolumeVerdict(cfg, sym, ex, Pushed(data, cfg.windowSize, point), point, id)
    case PriceState(cfg, sym, ex, data, last) =>
      PriceVerdict(cfg, sym, ex, Pushed(data, cfg.windowSize, point), last, point, id)
  }

  // ---------------------------------------------------------------------
  // Properties of the rules

  /**
   * A volume record is emitted exactly when the window is warm, |z| reaches
   * its threshold and the change from the mean reaches its threshold; the
   * record's expected value is the mean of a window that already holds the
   * current sample.
   */
  lemma VolumeRule(cfg: VolumeAnomalyConfig, symbol: string, exchange: string,
                   contents: seq<TimeSeriesData>, point: TimeSeriesData, id: Uuid)
    ensures var r := VolumeVerdict(cfg, symbol, exchange, contents, point, id);
      var xs := Values(contents);
      (r.Some? <==> |contents| >= cfg.minSamples
                    && Abs(ZScoreOf(xs, point.value)) >= cfg.zScoreThreshold
                    && Abs(PercentFromMean(point.value, MeanOf(xs))) >= cfg.minPercentageChange) &&
      (r.Some? ==> r.value.metrics.expectedValue == MeanOf(xs)
                   && r.value.metrics.deviation == point.value - MeanOf(xs)
                   && r.value.metrics.currentValue == point.value
                   && r.value.severity == VolumeSeverity(Abs(ZScoreOf(xs, point.value))))
  {
  }

  /** A price record is emitted exactly when the window is warm and either the move or |z| reaches its threshold. */
  lemma PriceRule(cfg: PriceAnomalyConfig, symbol: string, exchange: string,
                  contents: seq<TimeSeriesData>, last: Option<real>, point: TimeSeriesData, id: Uuid)
    ensures var r := PriceVerdict(cfg, symbol, exchange, contents, last, point, id);
      var xs := Values(contents);
      var pct := PercentFromLast(point.value, last);
      (r.Some? <==> |contents| >= cfg.minSamples
                    && (Abs(pct) >= cfg.percentageThreshold || Abs(ZScoreOf(xs, point.value)) >= cfg.zScoreThreshold)) &&
      (r.Some? ==> r.value.metrics.expectedValue == MeanOf(xs)
                   && r.value.severity == PriceSeverity(Abs(pct), Abs(ZScoreOf(xs, point.value))))
  {
  }

  /** With the default thresholds (z 3.0 for volume; 5% or z 3.0 for prices) no emitted record is Low. */
  lemma DefaultsNeverLow(s: DetectorState, point: TimeSeriesData, id: Uuid)
    requires s.VolumeState? ==> s.volumeConfig == DefaultVolumeAnomalyConfig()
    requires s.PriceState? ==> s.priceConfig == DefaultPriceAnomalyConfig()
    ensures Verdict(s, point, id).Some? ==> Verdict(s, point, id).value.severity.Rank() >= 1
  {
  }

  /**
   * A detector whose `min_samples` is larger than its window can hold never
   * emits anything: the window never reaches the warm-up length.
   */
  lemma NeverWarmWhenMinSamplesExceedCapacity(s: DetectorState, point: TimeSeriesData, id: Uuid)
    requires |s.data| <= Capacity(s.WindowSize())
    requires s.MinSamples() > Capacity(s.WindowSize())
    ensures Verdict(s, point, id) == None
  {
    PushedShape(s.data, s.WindowSize(), point);
  }

  /** The values of a window in which every sample has value c. */
  lemma FlatValues(contents: seq<TimeSeriesData>, c: real)
    requires contents != []
    requires forall i :: 0 <= i < |contents| ==> contents[i].value == c
    ensures MeanOf(Values(contents)) == c
    ensures StdDevOf(Values(contents)) == 0.0
  {
    var xs := Values(contents);
    var n := |xs| as real;
    SumLowerBound(xs, c);
    SumUpperBound(xs, c);
    assert Sum(xs) == c * n;
    assert MeanOf(xs) == c;
    FlatSquares(xs, c);
    assert VarianceOf(xs) == Square(c) - c * c;
  }

  lemma {:induction false} FlatSquares(xs: seq<real>, c: real)
    requires forall i :: 0 <= i < |xs| ==> xs[i] == c
    ensures SumSquares(xs) == |xs| as real * Square(c)
  {
    if xs != [] {
      FlatSquares(xs[..|xs| - 1], c);
    }
  }

  /**
   * A flat series raises nothing: when every sample in the window, the new
   * one included, has the same value (and a price detector last saw that
   * value too, or nothing), z and the percentage change are both 0, so
   * positive thresholds are never reached.
   */
  lemma FlatSeriesNeverFires(s: DetectorState, point: TimeSeriesData, id: Uuid)
    requires forall i :: 0 <= i < |s.data| ==> s.data[i].value == point.value
    requires s.VolumeState? ==> s.volumeConfig.zScoreThreshold > 0.0
    requires s.PriceState? ==> s.priceConfig.zScoreThreshold > 0.0 && s.priceConfig.percentageThreshold > 0.0
    requires s.PriceState? ==> s.lastPrice == None || s.lastPrice == Some(point.value)
    ensures Verdict(s, point, id) == None
  {
    var contents := Pushed(s.data, s.WindowSize(), point);
    assert forall i :: 0 <= i < |contents| ==> contents[i].value == point.value;
    FlatValues(contents, point.value);
    assert ZScoreOf(Values(contents), point.value) == 0.0;
  }

  // ---------------------------------------------------------------------
  // The detector objects

  class VolumeAnomalyDetector {
    const config: VolumeAnomalyConfig
    const symbol: string
    const exchange: string
    const window: TimeSeriesWindow

    ghost predicate Valid()
      reads window
    {
      window.Valid() && window.maxSize == config.windowSize
    }

    ghost function State(): DetectorState
      reads window
    {
      VolumeState(config, symbol, exchange, window.data)
    }

    constructor (config: VolumeAnomalyConfig, symbol: string, exchange: string)
      ensures Valid() && fresh(window)
      ensures State() == VolumeState(config, symbol, exchange, [])
    {
      this.config := config;
      this.symbol := symbol;
      this.exchange := exchange;
      window := new TimeSeriesWindow(config.windowSize);
    }

    method Detect(point: TimeSeriesData, id: Uuid) returns (r: Option<AnomalyDetection>)
      requires Valid()
      modifies window
      ensures Valid()
      ensures State() == Next(old(State()), point)
      ensures r == Verdict(old(State()), point, id)
    {
      window.Push(point);
      if window.Len() < config.minSamples {
        return None;
      }
      var mean := window.Mean();
      var stdDev := window.StdDev();
      var z := window.ZScore(point.value);
      var pct := if mean > 0.0 then ((point.value - mean) / mean) * 100.0 else 0.0;
      if Abs(z) >= config.zScoreThreshold && Abs(pct) >= config.minPercentageChange {
        var severity := if Abs(z) >= 5.0 then AnomalySeverity.Critical
          else if Abs(z) >= 4.0 then High
          else if Abs(z) >= 3.0 then Medium
          else Low;
        r := Some(AnomalyDetection(id, point.timestamp, symbol, exchange, VolumeSpike, severity,
          AnomalyMetrics(point.value, mean, point.value - mean, Some(z), Some(Finite(pct)),
                         Some(mean), Some(stdDev))));
      } else {
        r := None;
      }
    }

    method Reset()
      requires Valid()
      modifies window
      ensures Valid()
      ensures State() == ResetState(old(State()))
    {
      window.Clear();
    }
  }

  class PriceAnomalyDetector {
    const config: PriceAnomalyConfig
    const symbol: string
    const exchange: string
    const window: TimeSeriesWindow
    var lastPrice: Option<real>

    ghost predicate Valid()
      reads window
    {
      window.Valid() && window.maxSize == config.windowSize
    }

    ghost function State(): DetectorState
      reads this, window
    {
      PriceState(config, symbol, exchange, window.data, lastPrice)
    }

    constructor (config: PriceAnomalyConfig, symbol: string, exchange: string)
      ensures Valid() && fresh(window)
      ensures State() == PriceState(config, symbol, exchange, [], None)
    {
      this.config := config;
      this.symbol := symbol;
      this.exchange := exchange;
      window := new TimeSeriesWindow(config.windowSize);
      lastPrice := None;
    }

    method Detect(point: TimeSeriesData, id: Uuid) returns (r: Option<AnomalyDetection>)
      requires Valid()
      modifies this, window
      ensures Valid()
      ensures State() == Next(old(State()), point)
      ensures r == Verdict(old(State()), point, id)
    {
      var currentPrice := point.value;
      window.Push(point);
      if window.Len() < config.minSamples {
        lastPrice := Some(currentPrice);
        return None;
      }
      var mean := window.Mean();
      var stdDev := window.StdDev();
      var z := window.ZScore(currentPrice);
      var pct := if lastPrice.Some? && lastPrice.value > 0.0
        then ((currentPrice - lastPrice.value) / lastPrice.value) * 100.0
        else 0.0;
      lastPrice := Some(currentPrice);
      if Abs(pct) >= config.percentageThreshold || Abs(z) >= config.zScoreThreshold {
        var severity := if Abs(pct) >= 10.0 || Abs(z) >= 5.0 then AnomalySeverity.Critical
          else if Abs(pct) >= 7.0 || Abs(z) >= 4.0 then High
          else if Abs(pct) >= 5.0 || Abs(z) >= 3.0 then Medium
          else Low;
        r := Some(AnomalyDetection(id, point.timestamp, symbol, exchange, PriceSpike, severity,
          AnomalyMetrics(currentPrice, mean, currentPrice - mean, Some(z), Some(Finite(pct)),
                         Some(mean), Some(stdDev))));
      } else {
        r := None;
      }
    }

    method Reset()
      requires Valid()
      modifies this, window
      ensures Valid()
      ensures State() == ResetState(old(State()))
    {
      window.Clear();
      lastPrice := None;
    }
  }

  /** A boxed `dyn AnomalyDetector`: one of the two detector kinds. */
  datatype AnomalyDetector = VolumeDetector(volume: VolumeAnomalyDetector) | PriceDetector(price: PriceAnomalyDetector)
  {
    /** The objects the detector owns. */
    function Footprint(): set<object> {
      match this
      case VolumeDetector(v) => {v, v.window}
      case PriceDetector(p) => {p, p.window}
    }

    ghost predicate Valid()
      reads Footprint()
    {
      match this
      case VolumeDetector(v) => v.Valid()
      case PriceDetector(p) => p.Valid()
    }

    ghost function State(): DetectorState
      reads Footprint()
    {
      match this
      case VolumeDetector(v) => v.State()
      case PriceDetector(p) => p.State()
    }

    method Detect(point: TimeSeriesData, id: Uuid) returns (r: Option<AnomalyDetection>)
      requires Valid()
      modifies Footprint()
      ensures Valid()
      ensures State() == Next(old(State()), point)
      ensures r == Verdict(old(State()), point, id)
    {
      match this
      case VolumeDetector(v) => r := v.Detect(point, id);
      case PriceDetector(p) => r := p.Detect(point, id);
    }

    method Reset()
      requires Valid()
      modifies Footprint()
      ensures Valid()
      ensures State() == ResetState(old(State()))
    {
      match this
      case VolumeDetector(v) => v.Reset();
      case PriceDetector(p) => p.Reset();
    }
  }

  // ---------------------------------------------------------------------
  // The composite

  /** The records `detect_all` collects: the `Some` results in detector order. */
  function Detections(ss: seq<DetectorState>, point: TimeSeriesData, ids: seq<Uuid>): (found: seq<AnomalyDetection>)
    requires |ids| == |ss|
    ensures |found| <= |ss|
  {
    if ss == [] then []
    else
      var n := |ss| - 1;
      Detections(ss[..n], point, ids[..n]) + (match Verdict(ss[n], point, ids[n]) case Some(a) => [a] case None => [])
  }

  /** Every detector takes the sample. */
  function StepStates(ss: seq<DetectorState>, point: TimeSeriesData): (ts: seq<DetectorState>)
    ensures |ts| == |ss|
    ensures forall i :: 0 <= i < |ss| ==> ts[i] == Next(ss[i], point)
  {
    seq(|ss|, i requires 0 <= i < |ss| => Next(ss[i], point))
  }

  function ResetStates(ss: seq<DetectorState>): (ts: seq<DetectorState>)
    ensures |ts| == |ss|
    ensures forall i :: 0 <= i < |ss| ==> ts[i] == ResetState(ss[i])
  {
    seq(|ss|, i requires 0 <= i < |ss| => ResetState(ss[i]))
  }

  /**
   * `detect_all` returns one record per detector that reports, in detector
   * order: the i-th record comes from a detector no earlier than the i-th.
   * Every collected record is the verdict of some detector.
   */
  lemma {:induction false} DetectionsFromVerdicts(ss: seq<DetectorState>, point: TimeSeriesData, ids: seq<Uuid>)
    requires |ids| == |ss|
    ensures forall a :: a in Detections(ss, point, ids) ==>
      exists i :: 0 <= i < |ss| && Verdict(ss[i], point, ids[i]) == Some(a)
    ensures (forall i :: 0 <= i < |ss| ==> Verdict(ss[i], point, ids[i]) == None) <==> Detections(ss, point, ids) == []
  {
    if ss != [] {
      var n := |ss| - 1;
      DetectionsFromVerdicts(ss[..n], point, ids[..n]);
      forall a | a in Detections(ss, point, ids)
        ensures exists i :: 0 <= i < |ss| && Verdict(ss[i], point, ids[i]) == Some(a)
      {
        if a in Detections(ss[..n], point, ids[..n]) {
          var i :| 0 <= i < n && Verdict(ss[..n][i], point, ids[..n][i]) == Some(a);
          assert Verdict(ss[i], point, ids[i]) == Some(a);
        } else {
          assert Verdict(ss[n], point, ids[n]) == Some(a);
        }
      }
      if Detections(ss, point, ids) == [] {
        forall i | 0 <= i < |ss| ensures Verdict(ss[i], point, ids[i]) == None {
          if i < n {
            assert ss[..n][i] == ss[i] && ids[..n][i] == ids[i];
          }
        }
      }
      if forall i :: 0 <= i < |ss| ==> Verdict(ss[i], point, ids[i]) == None {
        forall i | 0 <= i < n ensures Verdict(ss[..n][i], point, ids[..n][i]) == None {
          assert ss[..n][i] == ss[i] && ids[..n][i] == ids[i];
        }
      }
    }
  }

  /** Every detector's objects lie in `r`. */
  predicate Owns(ds: seq<AnomalyDetector>, r: set<object>) {
    forall i :: 0 <= i < |ds| ==> ds[i].Footprint() <= r
  }

  /** No two detectors share an object. */
  predicate Disjoint(ds: seq<AnomalyDetector>) {
    forall i, j :: 0 <= i < j < |ds| ==> ds[i].Footprint() !! ds[j].Footprint()
  }

  ghost function StatesOf(ds: seq<AnomalyDetector>, r: set<object>): (ss: seq<DetectorState>)
    requires Owns(ds, r)
    reads r
    ensures |ss| == |ds|
    ensures forall i :: 0 <= i < |ds| ==> ss[i] == ds[i].State()
  {
    if ds == [] then []
    else
      var n := |ds| - 1;
      StatesOf(ds[..n], r) + [ds[n].State()]
  }

  class CompositeAnomalyDetector {
    var detectors: seq<AnomalyDetector>
    ghost var Repr: set<object>

    ghost predicate Valid()
      reads this, Repr
    {
      Owns(detectors, Repr) && this !in Repr && Disjoint(detectors) &&
      (forall i :: 0 <= i < |detectors| ==> detectors[i].Valid())
    }

    ghost function States(): seq<DetectorState>
      reads this, Repr
      requires Valid()
    {
      StatesOf(detectors, Repr)
    }

    constructor ()
      ensures Valid() && detectors == [] && Repr == {}
    {
      detectors := [];
      Repr := {};
    }

    /** `add_detector`: the composite takes ownership of `d` and runs it last. */
    method AddDetector(d: AnomalyDetector)
      requires Valid() && d.Valid()
      requires d.Footprint() !! Repr && this !in d.Footprint()
      modifies this
      ensures Valid()
      ensures detectors == old(detectors) + [d]
      ensures Repr == old(Repr) + d.Footprint()
      ensures States() == old(States()) + [d.State()]
    {
      detectors := detectors + [d];
      Repr := Repr + d.Footprint();
    }

    /**
     * `detect_all`: every detector takes the sample exactly once, in
     * insertion order, and the records they emit are collected in that
     * order. `ids` holds the id each detector would give its record.
     */
    method DetectAll(point: TimeSeriesData, ids: seq<Uuid>) returns (found: seq<AnomalyDetection>)
      requires Valid()
      requires |ids| == |detectors|
      modifies Repr
      ensures Valid() && detectors == old(detectors) && Repr == old(Repr)
      ensures States() == StepStates(old(States()), point)
      ensures found == Detections(old(States()), point, ids)
    {
      found := DetectEach(detectors, Repr, point, ids);
    }

    /** `reset_all`: every detector is reset. */
    method ResetAll()
      requires Valid()
      modifies Repr
      ensures Valid() && detectors == old(detectors) && Repr == old(Repr)
      ensures States() == ResetStates(old(States()))
    {
      ResetEach(detectors, Repr);
    }
  }

  /** The loop of `detect_all`, over detectors that share no object. */
  method DetectEach(ds: seq<AnomalyDetector>, ghost r: set<object>, point: TimeSeriesData, ids: seq<Uuid>) returns (found: seq<AnomalyDetection>)
    requires Disjoint(ds) && |ids| == |ds|
    requires forall j :: 0 <= j < |ds| ==> ds[j].Valid()
    requires Owns(ds, r)
    modifies r
    ensures forall j :: 0 <= j < |ds| ==> ds[j].Valid()
    ensures StatesOf(ds, r) == StepStates(old(StatesOf(ds, r)), point)
    ensures found == Detections(old(StatesOf(ds, r)), point, ids)
  {
    ghost var before := StatesOf(ds, r);
    found := [];
    var i := 0;
    while i < |ds|
      invariant 0 <= i <= |ds|
      invariant forall j :: 0 <= j < |ds| ==> ds[j].Valid()
      invariant forall j :: 0 <= j < i ==> ds[j].State() == Next(before[j], point)
      invariant forall j :: i <= j < |ds| ==> ds[j].State() == before[j]
      invariant found == Detections(before[..i], point, ids[..i])
    {
      var r := DetectOne(ds, i, point, ids[i]);
      DetectionsPrefix(before, point, ids, i);
      found := found + (match r case Some(a) => [a] case None => []);
      i := i + 1;
    }
    assert before[..i] == before && ids[..i] == ids;
  }

  /** Detector i takes the sample; the others keep their state. */
  method DetectOne(ds: seq<AnomalyDetector>, i: nat, point: TimeSeriesData, id: Uuid) returns (r: Option<AnomalyDetection>)
    requires Disjoint(ds) && i < |ds|
    requires forall j :: 0 <= j < |ds| ==> ds[j].Valid()
    modifies ds[i].Footprint()
    ensures forall j :: 0 <= j < |ds| ==> ds[j].Valid()
    ensures ds[i].State() == Next(old(ds[i].State()), point)
    ensures r == Verdict(old(ds[i].State()), point, id)
    ensures forall j :: 0 <= j < |ds| && j != i ==> ds[j].State() == old(ds[j].State())
  {
    r := ds[i].Detect(point, id);
    forall j | 0 <= j < |ds| && j != i
      ensures ds[j].State() == old(ds[j].State()) && ds[j].Valid()
    {
      assert ds[i].Footprint() !! ds[j].Footprint();
      Untouched(ds[j]);
    }
  }

  /** One more detector's verdict extends the collected records. */
  lemma DetectionsPrefix(ss: seq<DetectorState>, point: TimeSeriesData, ids: seq<Uuid>, i: nat)
    requires |ids| == |ss| && i < |ss|
    ensures Detections(ss[..i + 1], point, ids[..i + 1]) ==
      Detections(ss[..i], point, ids[..i]) + (match Verdict(ss[i], point, ids[i]) case Some(a) => [a] case None => [])
  {
    assert ss[..i + 1][..i] == ss[..i] && ids[..i + 1][..i] == ids[..i];
  }

  /** The loop of `reset_all`. */
  method ResetEach(ds: seq<AnomalyDetector>, ghost r: set<object>)
    requires Disjoint(ds)
    requires forall j :: 0 <= j < |ds| ==> ds[j].Valid()
    requires Owns(ds, r)
    modifies r
    ensures forall j :: 0 <= j < |ds| ==> ds[j].Valid()
    ensures StatesOf(ds, r) == ResetStates(old(StatesOf(ds, r)))
  {
    ghost var before := StatesOf(ds, r);
    var i := 0;
    while i < |ds|
      invariant 0 <= i <= |ds|
      invariant forall j :: 0 <= j < |ds| ==> ds[j].Valid()
      invariant forall j :: 0 <= j < i ==> ds[j].State() == ResetState(before[j])
      invariant forall j :: i <= j < |ds| ==> ds[j].State() == before[j]
    {
      var d := ds[i];
      label L:
      d.Reset();
      forall j | 0 <= j < |ds| && j != i
        ensures ds[j].State() == old@L(ds[j].State()) && ds[j].Valid()
      {
        assert ds[i].Footprint() !! ds[j].Footprint();
        Untouched@L(ds[j]);
      }
      i := i + 1;
    }
  }

  /** A detector none of whose objects changed keeps its state and its validity. */
  twostate lemma Untouched(d: AnomalyDetector)
    requires unchanged(d.Footprint())
    ensures d.State() == old(d.State())
    ensures old(d.Valid()) ==> d.Valid()
  {
  }

  // ---------------------------------------------------------------------
  // The manager

  /** The composite `process_data` creates for a new key: a volume then a price detector, both empty. */
  function InitialStates(volumeConfig: VolumeAnomalyConfig, priceConfig: PriceAnomalyConfig,
                         symbol: string, exchange: string): (ss: seq<DetectorState>)
    ensures |ss| == 2 && ss[0].VolumeState? && ss[1].PriceState?
    ensures forall i :: 0 <= i < 2 ==> ss[i].data == [] && ss[i].symbol == symbol && ss[i].exchange == exchange
  {
    [VolumeState(volumeConfig, symbol, exchange, []), PriceState(priceConfig, symbol, exchange, [], None)]
  }

  /**
   * The composite kept under `key`: a volume detector and a price detector
   * with the manager's configs, both for one market whose key is `key`.
   */
  predicate Shaped(ss: seq<DetectorState>, key: string, volumeConfig: VolumeAnomalyConfig, priceConfig: PriceAnomalyConfig) {
    |ss| == 2 && ss[0].VolumeState? && ss[1].PriceState? &&
    ss[0].volumeConfig == volumeConfig && ss[1].priceConfig == priceConfig &&
    ss[1].symbol == ss[0].symbol && ss[1].exchange == ss[0].exchange &&
    MarketKey(ss[0].exchange, ss[0].symbol) == key
  }

  /**
   * The manager's table. `AnomalyDetectorManager`'s map owns its
   * composites by value (nothing else refers to them), so the model keeps, per key, the
   * states of the composite's detectors, updated with the functions the
   * composite's methods are proved against.
   */
  class AnomalyDetectorManager {
    var detectors: map<string, seq<DetectorState>>
    const volumeConfig: VolumeAnomalyConfig
    const priceConfig: PriceAnomalyConfig

    /** Every stored composite is a volume and a price detector for one market with that key. */
    ghost predicate Valid()
      reads this
    {
      forall k :: k in detectors ==> Shaped(detectors[k], k, volumeConfig, priceConfig)
    }

    constructor (volumeConfig: VolumeAnomalyConfig, priceConfig: PriceAnomalyConfig)
      ensures Valid() && detectors == map[]
      ensures this.volumeConfig == volumeConfig && this.priceConfig == priceConfig
    {
      this.volumeConfig := volumeConfig;
      this.priceConfig := priceConfig;
      detectors := map[];
    }

    /**
     * `process_data`: the composite for `"exchange:symbol"` is created on
     * first use, then takes the sample; no other key changes.
     * `volumeId` and `priceId` are the ids the two detectors give their records.
     */
    method ProcessData(symbol: string, exchange: string, point: TimeSeriesData, volumeId: Uuid, priceId: Uuid)
      returns (found: seq<AnomalyDetection>)
      requires Valid()
      modifies this
      ensures Valid()
      ensures detectors == ProcessStep(old(detectors), volumeConfig, priceConfig, symbol, exchange, point)
      ensures found == Detections(Current(old(detectors), volumeConfig, priceConfig, symbol, exchange), point,
                                  [volumeId, priceId])
    {
      var key := MarketKey(exchange, symbol);
      var composite := if key in detectors then detectors[key]
                       else InitialStates(volumeConfig, priceConfig, symbol, exchange);
      found := Detections(composite, point, [volumeId, priceId]);
      detectors := detectors[key := StepStates(composite, point)];
      ShapedAfterStep(composite, key, volumeConfig, priceConfig, point);
    }

    /** `reset`: only the detectors under `"exchange:symbol"` are reset, if there are any. */
    method Reset(symbol: string, exchange: string)
      requires Valid()
      modifies this
      ensures Valid()
      ensures var key := MarketKey(exchange, symbol);
        detectors == if key in old(detectors) then old(detectors)[key := ResetStates(old(detectors)[key])]
                     else old(detectors)
    {
      var key := MarketKey(exchange, symbol);
      if key in detectors {
        ShapedAfterReset(detectors[key], key, volumeConfig, priceConfig);
        detectors := detectors[key := ResetStates(detectors[key])];
      }
    }

    /** `reset_all`: every key's detectors are reset; the keys stay. */
    method ResetAll()
      requires Valid()
      modifies this
      ensures Valid()
      ensures detectors == map k | k in old(detectors) :: ResetStates(old(detectors)[k])
    {
      var keys := detectors.Keys;
      while keys != {}
        invariant Valid() && keys <= detectors.Keys && detectors.Keys == old(detectors).Keys
        invariant forall k :: k in detectors ==>
          detectors[k] == if k in keys then old(detectors)[k] else ResetStates(old(detectors)[k])
        decreases keys
      {
        var k :| k in keys;
        ShapedAfterReset(detectors[k], k, volumeConfig, priceConfig);
        detectors := detectors[k := ResetStates(detectors[k])];
        keys := keys - {k};
      }
    }
  }

  /** The composite `process_data` runs for a market: the stored one, or a new empty one. */
  function Current(m: map<string, seq<DetectorState>>, volumeConfig: VolumeAnomalyConfig, priceConfig: PriceAnomalyConfig,
                   symbol: string, exchange: string): (ss: seq<DetectorState>)
    ensures MarketKey(exchange, symbol) !in m ==> ss == InitialStates(volumeConfig, priceConfig, symbol, exchange)
    ensures MarketKey(exchange, symbol) in m ==> ss == m[MarketKey(exchange, symbol)]
  {
    var key := MarketKey(exchange, symbol);
    if key in m then m[key] else InitialStates(volumeConfig, priceConfig, symbol, exchange)
  }

  /** The per-key states after `process_data`: only the market's key changes, and it is present afterwards. */
  function ProcessStep(m: map<string, seq<DetectorState>>, volumeConfig: VolumeAnomalyConfig, priceConfig: PriceAnomalyConfig,
                       symbol: string, exchange: string, point: TimeSeriesData): (m': map<string, seq<DetectorState>>)
    ensures m'.Keys == m.Keys + {MarketKey(exchange, symbol)}
    ensures forall k :: k in m && k != MarketKey(exchange, symbol) ==> m'[k] == m[k]
  {
    m[MarketKey(exchange, symbol) := StepStates(Current(m, volumeConfig, priceConfig, symbol, exchange), point)]
  }

  lemma ShapedAfterStep(ss: seq<DetectorState>, key: string, volumeConfig: VolumeAnomalyConfig,
                        priceConfig: PriceAnomalyConfig, point: TimeSeriesData)
    requires Shaped(ss, key, volumeConfig, priceConfig)
    ensures Shaped(StepStates(ss, point), key, volumeConfig, priceConfig)
  {
  }

  lemma ShapedAfterReset(ss: seq<DetectorState>, key: string, volumeConfig: VolumeAnomalyConfig,
                         priceConfig: PriceAnomalyConfig)
    requires Shaped(ss, key, volumeConfig, priceConfig)
    ensures Shaped(ResetStates(ss), key, volumeConfig, priceConfig)
  {
  }

  /**
   * Every record `process_data` returns names a market with the caller's
   * key: the detectors stored under a key were created for a market with
   * that key.
   */
  lemma RecordsCarryTheKey(m: map<string, seq<DetectorState>>, volumeConfig: VolumeAnomalyConfig,
                           priceConfig: PriceAnomalyConfig, symbol: string, exchange: string,
                           point: TimeSeriesData, volumeId: Uuid, priceId: Uuid)
    requires forall k :: k in m ==> Shaped(m[k], k, volumeConfig, priceConfig)
    ensures var ss := Current(m, volumeConfig, priceConfig, symbol, exchange);
      |ss| == 2 &&
      forall a :: a in Detections(ss, point, [volumeId, priceId]) ==>
        MarketKey(a.exchange, a.symbol) == MarketKey(exchange, symbol)
  {
    var ss := Current(m, volumeConfig, priceConfig, symbol, exchange);
    DetectionsFromVerdicts(ss, point, [volumeId, priceId]);
  }

  /**
   * The key does not tell markets apart when a name contains ':': exchange
   * "a:b" with symbol "c" and exchange "a" with symbol "b:c" share the key
   * "a:b:c", so `process_data` runs both through one composite and labels
   * the second market's records with the first market's names.
   */
  lemma MarketKeyNotInjective()
    ensures MarketKey("a:b", "c") == MarketKey("a", "b:c")
    ensures ("a:b", "c") != ("a", "b:c")
  {
    assert MarketKey("a:b", "c") == "a:b:c";
    assert MarketKey("a", "b:c") == "a:b:c";
  }

  /**
   * A key's first sample creates its detectors and is reported only by a
   * detector that needs at most one sample: with the default warm-up of 30,
   * the first `process_data` for a market returns nothing.
   */
  lemma FirstSampleWarmsUp(volumeConfig: VolumeAnomalyConfig, priceConfig: PriceAnomalyConfig,
                           symbol: string, exchange: string, point: TimeSeriesData, ids: seq<Uuid>)
    requires |ids| == 2
    requires volumeConfig.minSamples > 1 && priceConfig.minSamples > 1
    ensures Detections(InitialStates(volumeConfig, priceConfig, symbol, exchange), point, ids) == []
  {
    var ss := InitialStates(volumeConfig, priceConfig, symbol, exchange);
    forall i | 0 <= i < 2 ensures Verdict(ss[i], point, ids[i]) == None {
      assert |Pushed(ss[i].data, ss[i].WindowSize(), point)| == 1;
    }
    DetectionsFromVerdicts(ss, point, ids);
  }
}

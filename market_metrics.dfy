/**
 * monitor-anomaly's indicator calculator and volume profile.
 *
 * `MetricsCalculator` keeps one rolling window per key, created on the
 * key's first sample. The indicators read a key's window: SMA, volatility
 * and Bollinger bands come from the window's running statistics; EMA and
 * RSI are loops over the window's samples, proved against the functions
 * `EmaOf` and `RsiOf`. `VolumeProfileOf` specifies `VolumeProfile::calculate`:
 * trades are bucketed by their price in cents, the levels are sorted by
 * descending volume, and the value area grows from the point of control.
 */
module MarketMetrics {
  import opened Numerics
  import opened MonitorCore
  import opened AnomalyWindow

  // ---------------------------------------------------------------------
  // EMA

  /** The EMA fold over non-empty samples: seeded with the oldest sample. */
  function EmaFold(xs: seq<real>, alpha: real): real
    requires xs != []
  {
    if |xs| == 1 then xs[0]
    else alpha * xs[|xs| - 1] + (1.0 - alpha) * EmaFold(xs[..|xs| - 1], alpha)
  }

  function EmaOf(xs: seq<real>, alpha: real): (r: Option<real>)
    ensures r.None? <==> xs == []
    ensures |xs| == 1 ==> r == Some(xs[0])
  {
    if xs == [] then None else Some(EmaFold(xs, alpha))
  }

  /** A convex combination stays between the bounds. */
  lemma ConvexStep(x: real, e: real, alpha: real, lo: real, hi: real)
    requires 0.0 <= alpha <= 1.0
    requires lo <= x <= hi && lo <= e <= hi
    ensures lo <= alpha * x + (1.0 - alpha) * e <= hi
  {
    assert alpha * x + (1.0 - alpha) * e - lo == alpha * (x - lo) + (1.0 - alpha) * (e - lo);
    assert hi - (alpha * x + (1.0 - alpha) * e) == alpha * (hi - x) + (1.0 - alpha) * (hi - e);
    assert alpha * (x - lo) >= 0.0 && (1.0 - alpha) * (e - lo) >= 0.0;
    assert alpha * (hi - x) >= 0.0 && (1.0 - alpha) * (hi - e) >= 0.0;
  }

  /** For a smoothing factor in [0, 1], the EMA lies within the range of the samples. */
  lemma {:induction false} EmaWithinRange(xs: seq<real>, alpha: real, lo: real, hi: real)
    requires xs != [] && 0.0 <= alpha <= 1.0
    requires forall i :: 0 <= i < |xs| ==> lo <= xs[i] <= hi
    ensures lo <= EmaFold(xs, alpha) <= hi
  {
    if |xs| > 1 {
      EmaWithinRange(xs[..|xs| - 1], alpha, lo, hi);
      ConvexStep(xs[|xs| - 1], EmaFold(xs[..|xs| - 1], alpha), alpha, lo, hi);
    }
  }

  // ---------------------------------------------------------------------
  // RSI

  /** The upward moves among the first `p` changes. */
  function Gains(xs: seq<real>, p: nat): (g: real)
    requires p < |xs|
    ensures g >= 0.0
  {
    if p == 0 then 0.0
    else
      var change := xs[p] - xs[p - 1];
      Gains(xs, p - 1) + (if change > 0.0 then change else 0.0)
  }

  /** The size of the downward moves among the first `p` changes. */
  function Losses(xs: seq<real>, p: nat): (l: real)
    requires p < |xs|
    ensures l >= 0.0
  {
    if p == 0 then 0.0
    else
      var change := xs[p] - xs[p - 1];
      Losses(xs, p - 1) + (if change > 0.0 then 0.0 else -change)
  }

  /**
   * `calculate_rsi` over the window's samples (oldest first). With period 0
   * the averages are 0/0, so the f64 result is NaN.
   */
  function RsiOf(xs: seq<real>, period: nat): (r: Option<Float>)
    ensures r.None? <==> |xs| < period + 1
  {
    if |xs| < period + 1 then None
    else if period == 0 then Some(NaN)
    else
      var avgGain := Gains(xs, period) / period as real;
      var avgLoss := Losses(xs, period) / period as real;
      if avgLoss == 0.0 then Some(Finite(100.0))
      else Some(Finite(100.0 - 100.0 / (1.0 + avgGain / avgLoss)))
  }

  /** For a period of at least 1 the RSI is a finite value in [0, 100], and 100 when nothing fell. */
  lemma RsiRange(xs: seq<real>, period: nat)
    requires period >= 1 && |xs| >= period + 1
    ensures RsiOf(xs, period).Some? && RsiOf(xs, period).value.Finite?
    ensures 0.0 <= RsiOf(xs, period).value.value <= 100.0
    ensures Losses(xs, period) == 0.0 ==> RsiOf(xs, period) == Some(Finite(100.0))
  {
    var n := period as real;
    var avgGain := Gains(xs, period) / n;
    var avgLoss := Losses(xs, period) / n;
    assert avgGain >= 0.0 && avgLoss >= 0.0;
    if avgLoss != 0.0 {
      var rs := avgGain / avgLoss;
      assert rs >= 0.0;
      assert 100.0 / (1.0 + rs) <= 100.0 by {
        assert 100.0 <= 100.0 * (1.0 + rs);
      }
      assert 100.0 / (1.0 + rs) > 0.0;
    }
  }

  lemma {:induction false} MovesReadPrefix(xs: seq<real>, p: nat, k: nat)
    requires p <= k < |xs|
    ensures Gains(xs, p) == Gains(xs[..k + 1], p)
    ensures Losses(xs, p) == Losses(xs[..k + 1], p)
  {
    if p > 0 {
      MovesReadPrefix(xs, p - 1, k);
    }
  }

  /** The RSI reads only the oldest `period + 1` samples of the window. */
  lemma RsiReadsOldest(xs: seq<real>, period: nat)
    requires |xs| >= period + 1
    ensures RsiOf(xs, period) == RsiOf(xs[..period + 1], period)
  {
    MovesReadPrefix(xs, period, period);
  }

  /**
   * The samples [1, 2, 0] with period 1: the RSI as written sees only the
   * rise from 1 to 2 and reports 100, although the latest move is a fall.
   */
  lemma RsiIgnoresLatestMove()
    ensures RsiOf([1.0, 2.0, 0.0], 1) == Some(Finite(100.0))
    ensures RsiOfLatest([1.0, 2.0, 0.0], 1) == Some(Finite(0.0))
  {
    assert [1.0, 2.0, 0.0][1..] == [2.0, 0.0];
    assert Losses([1.0, 2.0, 0.0], 1) == 0.0;
    assert Gains([2.0, 0.0], 1) == 0.0;
    assert Losses([2.0, 0.0], 1) == 2.0;
  }

  /** The RSI over the latest `period + 1` samples. */
  function RsiOfLatest(xs: seq<real>, period: nat): (r: Option<Float>)
    ensures r.None? <==> |xs| < period + 1
  {
    if |xs| < period + 1 then None else RsiOf(xs[|xs| - (period + 1)..], period)
  }

  /** Two windows that end with the same `period + 1` samples have the same corrected RSI. */
  lemma RsiOfLatestReadsNewest(xs: seq<real>, ys: seq<real>, period: nat)
    requires |xs| >= period + 1 && |ys| >= period + 1
    requires xs[|xs| - (period + 1)..] == ys[|ys| - (period + 1)..]
    ensures RsiOfLatest(xs, period) == RsiOfLatest(ys, period)
    ensures period >= 1 ==> RsiOfLatest(xs, period).value.Finite? && 0.0 <= RsiOfLatest(xs, period).value.value <= 100.0
  {
    if period >= 1 {
      RsiRange(xs[|xs| - (period + 1)..], period);
    }
  }

  // ---------------------------------------------------------------------
  // Trend and Bollinger bands

  datatype TrendDirection = Up | Down | Sideways

  /** `detect_trend` over the samples: compares the first and last of the final three. */
  function TrendOf(xs: seq<real>): (r: Option<TrendDirection>)
    ensures r.None? <==> |xs| < 3
  {
    if |xs| < 3 then None
    else
      var first := xs[|xs| - 3];
      var last := xs[|xs| - 1];
      if last > first * 1.01 then Some(Up)
      else if last < first * 0.99 then Some(Down)
      else Some(Sideways)
  }

  /**
   * The trend is Up exactly when the last sample is more than 1% above the
   * third-to-last one, Down exactly when it is more than 1% below (for a
   * positive reference), and depends on no other sample.
   */
  lemma TrendBands(xs: seq<real>)
    requires |xs| >= 3 && xs[|xs| - 3] > 0.0
    ensures var first, last := xs[|xs| - 3], xs[|xs| - 1];
      (TrendOf(xs) == Some(Up) <==> last > first * 1.01) &&
      (TrendOf(xs) == Some(Down) <==> last < first * 0.99) &&
      (TrendOf(xs) == Some(Sideways) <==> first * 0.99 <= last <= first * 1.01)
    ensures forall ys: seq<real> :: |ys| >= 3 && ys[|ys| - 3] == xs[|xs| - 3] && ys[|ys| - 1] == xs[|xs| - 1] ==>
      TrendOf(ys) == TrendOf(xs)
  {
  }

  datatype Bands = Bands(lower: real, middle: real, upper: real)

  /** Bands two standard deviations either side of the mean. */
  function BandsAround(mean: real, stdDev: real): (b: Bands)
    requires stdDev >= 0.0
    ensures b.lower <= b.middle <= b.upper
    ensures b.upper - b.middle == b.middle - b.lower == 2.0 * stdDev
  {
    Bands(mean - 2.0 * stdDev, mean, mean + 2.0 * stdDev)
  }

  // ---------------------------------------------------------------------
  // The calculator

  /** What one key's window holds. */
  datatype WindowState = WindowState(maxSize: nat, data: seq<TimeSeriesData>)

  /** The windows after `add_data`: created with `windowSize` on first use, then the sample is pushed. */
  function AfterAdd(m: map<string, WindowState>, key: string, point: TimeSeriesData, windowSize: nat): (m': map<string, WindowState>)
    ensures m'.Keys == m.Keys + {key}
    ensures forall k :: k in m && k != key ==> m'[k] == m[k]
    ensures key in m ==> m'[key].maxSize == m[key].maxSize
    ensures key !in m ==> m'[key] == WindowState(windowSize, [point])
  {
    var w := if key in m then m[key] else WindowState(windowSize, []);
    m[key := WindowState(w.maxSize, Pushed(w.data, w.maxSize, point))]
  }

  /** The windows once the key's window exists. */
  function Created(m: map<string, WindowState>, key: string, windowSize: nat): (m': map<string, WindowState>)
    ensures key in m'
  {
    if key in m then m else m[key := WindowState(windowSize, [])]
  }

  lemma AfterAddInTwoSteps(m: map<string, WindowState>, key: string, point: TimeSeriesData, windowSize: nat)
    ensures var c := Created(m, key, windowSize);
      AfterAdd(m, key, point, windowSize) == c[key := WindowState(c[key].maxSize, Pushed(c[key].data, c[key].maxSize, point))]
  {
  }

  /** A key's window size is fixed by its first sample: later sizes are ignored. */
  lemma WindowSizeFixedOnFirstUse(m: map<string, WindowState>, key: string, p1: TimeSeriesData, s1: nat,
                                  p2: TimeSeriesData, s2: nat)
    requires key !in m
    ensures AfterAdd(AfterAdd(m, key, p1, s1), key, p2, s2)[key].maxSize == s1
  {
  }

  /** The EMA loop of `calculate_ema` over a window's samples. */
  method EmaOver(data: seq<TimeSeriesData>, alpha: real) returns (r: Option<real>)
    ensures r == EmaOf(Values(data), alpha)
  {
    if data == [] {
      return None;
    }
    ghost var xs := Values(data);
    var ema := data[0].value;
    var i := 1;
    while i < |data|
      invariant 1 <= i <= |data|
      invariant ema == EmaFold(xs[..i], alpha)
    {
      assert xs[..i + 1][..i] == xs[..i];
      ema := alpha * data[i].value + (1.0 - alpha) * ema;
      i := i + 1;
    }
    assert xs[..i] == xs;
    r := Some(ema);
  }

  /** The gain and loss loop of `calculate_rsi` over a window's samples. */
  method RsiOver(data: seq<TimeSeriesData>, period: nat) returns (r: Option<Float>)
    ensures r == RsiOf(Values(data), period)
  {
    if |data| < period + 1 {
      return None;
    }
    ghost var xs := Values(data);
    var gains := 0.0;
    var losses := 0.0;
    var i := 1;
    while i <= period
      invariant 1 <= i <= period + 1
      invariant gains == Gains(xs, i - 1) && losses == Losses(xs, i - 1)
    {
      var change := data[i].value - data[i - 1].value;
      if change > 0.0 {
        gains := gains + change;
      } else {
        losses := losses - change;
      }
      i := i + 1;
    }
    if period == 0 {
      return Some(NaN);
    }
    var avgGain := gains / period as real;
    var avgLoss := losses / period as real;
    if avgLoss == 0.0 {
      return Some(Finite(100.0));
    }
    var rs := avgGain / avgLoss;
    r := Some(Finite(100.0 - 100.0 / (1.0 + rs)));
  }

  /** A window that a step left alone keeps its contents and its invariant. */
  twostate lemma WindowUntouched(w: TimeSeriesWindow)
    requires old(w.Valid()) && unchanged(w)
    ensures w.Valid() && w.data == old(w.data)
  {
  }

  class MetricsCalculator {
    var windows: map<string, TimeSeriesWindow>
    /** What each key's window holds. */
    ghost var Model: map<string, WindowState>
    ghost var Repr: set<object>

    ghost predicate Valid()
      reads this, Repr
    {
      this !in Repr &&
      Model.Keys == windows.Keys &&
      (forall k :: k in windows ==> windows[k] in Repr && windows[k].Valid() &&
                                    Model[k] == WindowState(windows[k].maxSize, windows[k].data)) &&
      (forall k1, k2 :: k1 in windows && k2 in windows && k1 != k2 ==> windows[k1] != windows[k2])
    }

    constructor ()
      ensures Valid() && Model == map[] && fresh(Repr)
    {
      windows := map[];
      Model := map[];
      Repr := {};
    }

    /** `add_data`: creates the key's window with `windowSize` on first use, then pushes the sample. */
    method AddData(key: string, point: TimeSeriesData, windowSize: nat)
      requires Valid()
      modifies this, Repr
      ensures Valid() && fresh(Repr - old(Repr))
      ensures Model == AfterAdd(old(Model), key, point, windowSize)
    {
      if key !in windows {
        AddWindow(key, windowSize);
      }
      assert Model == Created(old(Model), key, windowSize);
      PushSample(key, point);
      AfterAddInTwoSteps(old(Model), key, point, windowSize);
    }

    method AddWindow(key: string, windowSize: nat)
      requires Valid() && key !in Model
      modifies this
      ensures Valid() && fresh(Repr - old(Repr))
      ensures Model == old(Model)[key := WindowState(windowSize, [])]
    {
      var w := new TimeSeriesWindow(windowSize);
      windows := windows[key := w];
      Model := Model[key := WindowState(windowSize, [])];
      Repr := Repr + {w};
    }

    method PushSample(key: string, point: TimeSeriesData)
      requires Valid() && key in Model
      modifies this, Repr
      ensures Valid() && Repr == old(Repr)
      ensures Model == old(Model)[key := WindowState(old(Model)[key].maxSize,
                Pushed(old(Model)[key].data, old(Model)[key].maxSize, point))]
    {
      var w := windows[key];
      w.Push(point);
      Model := Model[key := WindowState(w.maxSize, w.data)];
      forall k | k in windows && k != key
        ensures windows[k].Valid() && Model[k] == WindowState(windows[k].maxSize, windows[k].data)
      {
        WindowUntouched(windows[k]);
      }
    }

    /** `calculate_sma`: the window mean, or None for an unknown key. */
    function Sma(key: string): (r: Option<real>)
      reads this, Repr
      requires Valid()
      ensures r.None? <==> key !in Model
      ensures r.Some? ==> r.value == MeanOf(Values(Model[key].data))
    {
      if key in windows then Some(windows[key].Mean()) else None
    }

    /** `calculate_volatility`: the window's standard deviation, or None for an unknown key. */
    function Volatility(key: string): (r: Option<real>)
      reads this, Repr
      requires Valid()
      ensures r.None? <==> key !in Model
      ensures r.Some? ==> r.value == StdDevOf(Values(Model[key].data)) && r.value >= 0.0
    {
      if key in windows then Some(windows[key].StdDev()) else None
    }

    /** `calculate_bollinger_bands`: mean and mean ± 2σ, or None for an unknown key. */
    function Bollinger(key: string): (r: Option<Bands>)
      reads this, Repr
      requires Valid()
      ensures r.None? <==> key !in Model
      ensures r.Some? ==> r.value.lower <= r.value.middle <= r.value.upper
      ensures r.Some? ==> r.value.middle == MeanOf(Values(Model[key].data))
      ensures r.Some? ==> r.value.upper - r.value.middle == r.value.middle - r.value.lower
                          == 2.0 * StdDevOf(Values(Model[key].data))
    {
      if key in windows then Some(BandsAround(windows[key].Mean(), windows[key].StdDev())) else None
    }

    /** `detect_trend` on a key's window. */
    function Trend(key: string): (r: Option<TrendDirection>)
      reads this, Repr
      requires Valid()
      ensures key !in Model ==> r.None?
      ensures key in Model ==> r == TrendOf(Values(Model[key].data))
    {
      if key in windows then TrendOf(Values(windows[key].data)) else None
    }

    /** `calculate_ema`: the fold seeded with the oldest sample. */
    method Ema(key: string, alpha: real) returns (r: Option<real>)
      requires Valid()
      ensures key !in Model ==> r.None?
      ensures key in Model ==> r == EmaOf(Values(Model[key].data), alpha)
    {
      if key !in windows {
        return None;
      }
      var data := windows[key].data;
      assert Model[key].data == data;
      r := EmaOver(data, alpha);
    }

    /** `calculate_rsi` over the first `period` changes of a key's window. */
    method Rsi(key: string, period: nat) returns (r: Option<Float>)
      requires Valid()
      ensures key !in Model ==> r.None?
      ensures key in Model ==> r == RsiOf(Values(Model[key].data), period)
    {
      if key !in windows {
        return None;
      }
      var data := windows[key].data;
      assert Model[key].data == data;
      r := RsiOver(data, period);
    }

    /**
     * `calculate_macd`: the 12- and 26-period EMAs' difference, a signal line
     * at a fifth of it and the histogram between them.
     */
    method Macd(key: string) returns (r: Option<(real, real, real)>)
      requires Valid()
      ensures r.None? <==> key !in Model || Model[key].data == []
      ensures r.Some? ==>
                var xs := Values(Model[key].data);
                var macd := EmaFold(xs, 2.0 / 13.0) - EmaFold(xs, 2.0 / 27.0);
                r.value == (macd, macd * 0.2, macd - macd * 0.2)
    {
      var ema12 := Ema(key, 2.0 / 13.0);
      if ema12.None? {
        return None;
      }
      var ema26 := Ema(key, 2.0 / 27.0);
      if ema26.None? {
        return None;
      }
      var macd := ema12.value - ema26.value;
      var signal := macd * 0.2;
      r := Some((macd, signal, macd - signal));
    }
  }

  /** The histogram is four times the signal line, and both have the sign of the MACD line. */
  lemma MacdShape(macd: real)
    ensures macd - macd * 0.2 == 4.0 * (macd * 0.2)
    ensures macd > 0.0 ==> macd * 0.2 > 0.0 && macd - macd * 0.2 > 0.0
  {
  }

  // ---------------------------------------------------------------------
  // Volume profile

  datatype PriceLevel = PriceLevel(price: real, volume: real)

  datatype VolumeProfile = VolumeProfile(levels: seq<PriceLevel>, poc: real, vah: real, val: real)

  /** `x as i64` for an f64: truncation toward zero (the saturation at the i64 bounds is not modelled). */
  function Trunc(x: real): (n: int)
    ensures x >= 0.0 ==> n == x.Floor
    ensures n as real <= x < n as real + 1.0 || n as real - 1.0 < x <= n as real
  {
    if x >= 0.0 then x.Floor else -((-x).Floor)
  }

  /** A trade's bucket: its price in whole cents. */
  function Bucket(price: real): int {
    Trunc(price * 100.0)
  }

  /** The position of `bucket` among the accumulated buckets, if present. */
  function Find(buckets: seq<(int, real)>, bucket: int): (r: Option<nat>)
    ensures r.Some? ==> r.value < |buckets| && buckets[r.value].0 == bucket
    ensures r.None? ==> forall i :: 0 <= i < |buckets| ==> buckets[i].0 != bucket
  {
    if buckets == [] then None
    else if buckets[|buckets| - 1].0 == bucket then Some(|buckets| - 1)
    else Find(buckets[..|buckets| - 1], bucket)
  }

  /** `*entry(bucket).or_insert(0.0) += volume`, with buckets kept in order of first appearance. */
  function AddToBucket(buckets: seq<(int, real)>, bucket: int, volume: real): (r: seq<(int, real)>)
  {
    match Find(buckets, bucket)
    case Some(i) => buckets[i := (bucket, buckets[i].1 + volume)]
    case None => buckets + [(bucket, 0.0 + volume)]
  }

  /** The per-bucket volumes of the trades. */
  function Buckets(trades: seq<(real, real)>): seq<(int, real)> {
    if trades == [] then []
    else
      var n := |trades| - 1;
      AddToBucket(Buckets(trades[..n]), Bucket(trades[n].0), trades[n].1)
  }

  function BucketVolumes(buckets: seq<(int, real)>): real {
    if buckets == [] then 0.0 else BucketVolumes(buckets[..|buckets| - 1]) + buckets[|buckets| - 1].1
  }

  function TradeVolumes(trades: seq<(real, real)>): real {
    if trades == [] then 0.0 else TradeVolumes(trades[..|trades| - 1]) + trades[|trades| - 1].1
  }

  predicate DistinctBuckets(buckets: seq<(int, real)>) {
    forall i, j :: 0 <= i < j < |buckets| ==> buckets[i].0 != buckets[j].0
  }

  lemma {:induction false} BucketVolumesUpdate(buckets: seq<(int, real)>, i: nat, b: int, v: real)
    requires i < |buckets|
    ensures BucketVolumes(buckets[i := (b, v)]) == BucketVolumes(buckets) - buckets[i].1 + v
  {
    var n := |buckets| - 1;
    if i < n {
      assert buckets[i := (b, v)][..n] == buckets[..n][i := (b, v)];
      BucketVolumesUpdate(buckets[..n], i, b, v);
    } else {
      assert buckets[i := (b, v)][..n] == buckets[..n];
    }
  }

  /** Adding a trade to its bucket adds its volume. */
  lemma AddToBucketVolume(buckets: seq<(int, real)>, b: int, v: real)
    ensures BucketVolumes(AddToBucket(buckets, b, v)) == BucketVolumes(buckets) + v
  {
    match Find(buckets, b)
    case Some(i) =>
      BucketVolumesUpdate(buckets, i, b, buckets[i].1 + v);
    case None =>
      assert (buckets + [(b, 0.0 + v)])[..|buckets|] == buckets;
  }

  /** Adding a trade to its bucket keeps one entry per bucket. */
  lemma AddToBucketDistinct(buckets: seq<(int, real)>, b: int, v: real)
    requires DistinctBuckets(buckets)
    ensures DistinctBuckets(AddToBucket(buckets, b, v))
  {
  }

  /** Bucketing loses no volume. */
  lemma {:induction false} BucketsKeepVolume(trades: seq<(real, real)>)
    ensures BucketVolumes(Buckets(trades)) == TradeVolumes(trades)
  {
    if trades != [] {
      var n := |trades| - 1;
      BucketsKeepVolume(trades[..n]);
      AddToBucketVolume(Buckets(trades[..n]), Bucket(trades[n].0), trades[n].1);
    }
  }

  /** Bucketing gives each bucket one entry, and some entry as soon as there is a trade. */
  lemma {:induction false} BucketsDistinct(trades: seq<(real, real)>)
    ensures DistinctBuckets(Buckets(trades))
    ensures trades != [] ==> Buckets(trades) != []
  {
    if trades != [] {
      var n := |trades| - 1;
      BucketsDistinct(trades[..n]);
      AddToBucketDistinct(Buckets(trades[..n]), Bucket(trades[n].0), trades[n].1);
    }
  }

  /** The trades whose price falls in cent bucket `b`, in their order. */
  function InBucket(trades: seq<(real, real)>, b: int): (r: seq<(real, real)>)
    ensures |r| <= |trades|
  {
    if trades == [] then []
    else
      var n := |trades| - 1;
      InBucket(trades[..n], b) + (if Bucket(trades[n].0) == b then [trades[n]] else [])
  }

  /** The volume accumulated for bucket `b`, if it has an entry. */
  function Entry(buckets: seq<(int, real)>, b: int): Option<real> {
    match Find(buckets, b)
    case Some(i) => Some(buckets[i].1)
    case None => None
  }

  /** A bucket has trades exactly when one of the trades falls in it. */
  lemma {:induction false} InBucketEmpty(trades: seq<(real, real)>, b: int)
    ensures InBucket(trades, b) == [] <==> forall j :: 0 <= j < |trades| ==> Bucket(trades[j].0) != b
  {
    if trades != [] {
      var n := |trades| - 1;
      InBucketEmpty(trades[..n], b);
      assert forall j :: 0 <= j < n ==> trades[..n][j] == trades[j];
    }
  }

  /** `Find` only looks at the keys. */
  lemma {:induction false} FindSameKeys(buckets: seq<(int, real)>, other: seq<(int, real)>, b: int)
    requires |buckets| == |other|
    requires forall i :: 0 <= i < |buckets| ==> buckets[i].0 == other[i].0
    ensures Find(buckets, b) == Find(other, b)
  {
    if buckets != [] {
      var n := |buckets| - 1;
      FindSameKeys(buckets[..n], other[..n], b);
    }
  }

  /** Adding volume to bucket `x` raises `x`'s entry (from 0 when new) and leaves every other entry alone. */
  lemma AddToBucketEntry(buckets: seq<(int, real)>, x: int, v: real, b: int)
    ensures Entry(AddToBucket(buckets, x, v), b) ==
      if b == x then Some((match Entry(buckets, b) case Some(w) => w case None => 0.0) + v)
      else Entry(buckets, b)
  {
    match Find(buckets, x)
    case Some(i) =>
      var updated := buckets[i := (x, buckets[i].1 + v)];
      FindSameKeys(buckets, updated, b);
    case None =>
      var grown := buckets + [(x, 0.0 + v)];
      assert grown[..|buckets|] == buckets;
  }

  /**
   * Bucketing groups the trades by cent bucket: `b` has an entry exactly
   * when some trade falls in it, and the entry holds the summed volume of
   * exactly those trades.
   */
  lemma {:induction false} BucketsGroupTrades(trades: seq<(real, real)>, b: int)
    ensures Entry(Buckets(trades), b) ==
      if InBucket(trades, b) == [] then None else Some(TradeVolumes(InBucket(trades, b)))
  {
    if trades != [] {
      var n := |trades| - 1;
      var front := trades[..n];
      BucketsGroupTrades(front, b);
      AddToBucketEntry(Buckets(front), Bucket(trades[n].0), trades[n].1, b);
      if Bucket(trades[n].0) == b {
        var group := InBucket(front, b);
        assert InBucket(trades, b) == group + [trades[n]];
        assert (group + [trades[n]])[..|group|] == group;
        assert TradeVolumes(group + [trades[n]]) == TradeVolumes(group) + trades[n].1;
        assert Buckets(trades) == AddToBucket(Buckets(front), b, trades[n].1);
        if group == [] {
          assert Entry(Buckets(front), b) == None;
          assert TradeVolumes(group) == 0.0;
        } else {
          assert Entry(Buckets(front), b) == Some(TradeVolumes(group));
        }
      } else {
        assert InBucket(trades, b) == InBucket(front, b);
        assert Buckets(trades) == AddToBucket(Buckets(front), Bucket(trades[n].0), trades[n].1);
      }
    }
  }

  /**
   * Every bucket entry is a bucket some trade falls in, holding the volume
   * of exactly those trades; every trade's bucket has an entry.
   */
  lemma BucketEntries(trades: seq<(real, real)>)
    ensures var buckets := Buckets(trades);
      forall i :: 0 <= i < |buckets| ==>
        InBucket(trades, buckets[i].0) != [] && buckets[i].1 == TradeVolumes(InBucket(trades, buckets[i].0))
    ensures forall j :: 0 <= j < |trades| ==> Find(Buckets(trades), Bucket(trades[j].0)).Some?
  {
    var buckets := Buckets(trades);
    BucketsDistinct(trades);
    forall i | 0 <= i < |buckets|
      ensures InBucket(trades, buckets[i].0) != [] && buckets[i].1 == TradeVolumes(InBucket(trades, buckets[i].0))
    {
      BucketsGroupTrades(trades, buckets[i].0);
    }
    forall j | 0 <= j < |trades|
      ensures Find(buckets, Bucket(trades[j].0)).Some?
    {
      BucketsGroupTrades(trades, Bucket(trades[j].0));
      InBucketEmpty(trades, Bucket(trades[j].0));
    }
  }

  function ToLevels(buckets: seq<(int, real)>): (levels: seq<PriceLevel>)
    ensures |levels| == |buckets|
    ensures forall i :: 0 <= i < |buckets| ==>
      levels[i] == PriceLevel(buckets[i].0 as real / 100.0, buckets[i].1)
  {
    seq(|buckets|, i requires 0 <= i < |buckets| => PriceLevel(buckets[i].0 as real / 100.0, buckets[i].1))
  }

  function LevelVolumes(levels: seq<PriceLevel>): real {
    if levels == [] then 0.0 else LevelVolumes(levels[..|levels| - 1]) + levels[|levels| - 1].volume
  }

  lemma {:induction false} LevelVolumesOfBuckets(buckets: seq<(int, real)>)
    ensures LevelVolumes(ToLevels(buckets)) == BucketVolumes(buckets)
  {
    if buckets != [] {
      var n := |buckets| - 1;
      assert ToLevels(buckets)[..n] == ToLevels(buckets[..n]);
      LevelVolumesOfBuckets(buckets[..n]);
    }
  }

  lemma {:induction false} LevelVolumesCons(x: PriceLevel, t: seq<PriceLevel>)
    ensures LevelVolumes([x] + t) == x.volume + LevelVolumes(t)
  {
    if t != [] {
      var n := |t| - 1;
      assert ([x] + t)[..|t|] == [x] + t[..n];
      LevelVolumesCons(x, t[..n]);
    } else {
      assert ([x] + t)[..0] == [];
    }
  }

  /** Levels by descending volume. */
  predicate SortedByVolume(levels: seq<PriceLevel>) {
    forall i, j :: 0 <= i < j < |levels| ==> levels[i].volume >= levels[j].volume
  }

  /** Places `x` before the first level whose volume it reaches, keeping equal levels in their order. */
  function InsertByVolume(x: PriceLevel, sorted: seq<PriceLevel>): (r: seq<PriceLevel>)
    ensures multiset(r) == multiset(sorted) + multiset{x}
    ensures |r| == |sorted| + 1
  {
    if sorted == [] || x.volume >= sorted[0].volume then [x] + sorted
    else
      assert sorted == [sorted[0]] + sorted[1..];
      [sorted[0]] + InsertByVolume(x, sorted[1..])
  }

  /** `sort_by` with descending volume: a stable insertion sort. */
  function SortByVolume(levels: seq<PriceLevel>): (r: seq<PriceLevel>)
    ensures multiset(r) == multiset(levels)
    ensures |r| == |levels|
  {
    if levels == [] then []
    else
      assert levels == [levels[0]] + levels[1..];
      InsertByVolume(levels[0], SortByVolume(levels[1..]))
  }

  /** Every level's volume is at most `v`. */
  predicate VolumesAtMost(levels: seq<PriceLevel>, v: real) {
    forall i :: 0 <= i < |levels| ==> levels[i].volume <= v
  }

  lemma {:induction false} InsertKeepsBound(x: PriceLevel, sorted: seq<PriceLevel>, v: real)
    requires VolumesAtMost(sorted, v) && x.volume <= v
    ensures VolumesAtMost(InsertByVolume(x, sorted), v)
  {
    if !(sorted == [] || x.volume >= sorted[0].volume) {
      InsertKeepsBound(x, sorted[1..], v);
    }
  }

  lemma {:induction false} InsertKeepsOrder(x: PriceLevel, sorted: seq<PriceLevel>)
    requires SortedByVolume(sorted)
    ensures SortedByVolume(InsertByVolume(x, sorted))
  {
    if !(sorted == [] || x.volume >= sorted[0].volume) {
      var head, tail := sorted[0], sorted[1..];
      InsertKeepsOrder(x, tail);
      InsertKeepsBound(x, tail, head.volume);
    }
  }

  lemma {:induction false} InsertAddsVolume(x: PriceLevel, sorted: seq<PriceLevel>)
    ensures LevelVolumes(InsertByVolume(x, sorted)) == x.volume + LevelVolumes(sorted)
  {
    if sorted == [] || x.volume >= sorted[0].volume {
      LevelVolumesCons(x, sorted);
    } else {
      var head, tail := sorted[0], sorted[1..];
      assert sorted == [head] + tail;
      InsertAddsVolume(x, tail);
      LevelVolumesCons(head, InsertByVolume(x, tail));
      LevelVolumesCons(head, tail);
    }
  }

  /** The sort orders the levels by descending volume and keeps their total volume. */
  lemma {:induction false} SortOrders(levels: seq<PriceLevel>)
    ensures SortedByVolume(SortByVolume(levels))
    ensures LevelVolumes(SortByVolume(levels)) == LevelVolumes(levels)
  {
    if levels != [] {
      SortOrders(levels[1..]);
      InsertKeepsOrder(levels[0], SortByVolume(levels[1..]));
      InsertAddsVolume(levels[0], SortByVolume(levels[1..]));
      LevelVolumesCons(levels[0], levels[1..]);
      assert [levels[0]] + levels[1..] == levels;
    }
  }

  /** The accumulated volume and the value-area bounds after the first `k` levels. */
  function ValueArea(levels: seq<PriceLevel>, k: nat, target: real, poc: real): (r: (real, real, real))
    requires k <= |levels|
    ensures r.2 <= poc <= r.1
  {
    if k == 0 then (0.0, poc, poc)
    else
      var prev := ValueArea(levels, k - 1, target, poc);
      var acc := prev.0 + levels[k - 1].volume;
      if acc <= target then (acc, Max(prev.1, levels[k - 1].price), Min(prev.2, levels[k - 1].price))
      else (acc, prev.1, prev.2)
  }

  /** The price levels of the trades, by descending volume. */
  function SortedLevels(trades: seq<(real, real)>): (levels: seq<PriceLevel>)
    ensures trades != [] ==> levels != []
  {
    BucketsDistinct(trades);
    SortByVolume(ToLevels(Buckets(trades)))
  }

  /** The point of control and the value area of sorted, non-empty levels. */
  function ProfileOf(levels: seq<PriceLevel>): (p: VolumeProfile)
    requires levels != []
    ensures p.levels == levels && p.poc == levels[0].price
    ensures p.val <= p.poc <= p.vah
  {
    var poc := levels[0].price;
    var area := ValueArea(levels, |levels|, LevelVolumes(levels) * 0.7, poc);
    VolumeProfile(levels, poc, area.1, area.2)
  }

  /** `VolumeProfile::calculate`. */
  function VolumeProfileOf(trades: seq<(real, real)>): (r: Option<VolumeProfile>)
    ensures r.None? <==> trades == []
  {
    if trades == [] then None else Some(ProfileOf(SortedLevels(trades)))
  }

  /** The level of cent bucket `b`: price `b / 100`, volume of the trades in it. */
  function BucketLevel(trades: seq<(real, real)>, b: int): PriceLevel {
    PriceLevel(b as real / 100.0, TradeVolumes(InBucket(trades, b)))
  }

  /** `level` is the level of a bucket some trade falls in. */
  ghost predicate LevelOfTrades(trades: seq<(real, real)>, level: PriceLevel) {
    exists b :: InBucket(trades, b) != [] && level == BucketLevel(trades, b)
  }

  /**
   * The sorted levels are the trades grouped by cent bucket: each level is
   * the level of a bucket some trade falls in, and each trade's bucket is
   * among the levels with the volume of all trades in it.
   */
  lemma SortedLevelsGroupTrades(trades: seq<(real, real)>)
    ensures forall level :: level in SortedLevels(trades) ==> LevelOfTrades(trades, level)
    ensures forall j :: 0 <= j < |trades| ==> BucketLevel(trades, Bucket(trades[j].0)) in SortedLevels(trades)
  {
    var unsorted := ToLevels(Buckets(trades));
    var levels := SortedLevels(trades);
    assert multiset(levels) == multiset(unsorted);
    forall level | level in levels
      ensures LevelOfTrades(trades, level)
    {
      assert level in multiset(unsorted);
      var i :| 0 <= i < |unsorted| && unsorted[i] == level;
      LevelOfEntry(trades, i);
    }
    forall j | 0 <= j < |trades|
      ensures BucketLevel(trades, Bucket(trades[j].0)) in levels
    {
      BucketEntries(trades);
      var i := Find(Buckets(trades), Bucket(trades[j].0)).value;
      LevelOfEntry(trades, i);
      assert unsorted[i] in multiset(levels);
    }
  }

  /** The `i`-th unsorted level is the level of its bucket, which some trade falls in. */
  lemma LevelOfEntry(trades: seq<(real, real)>, i: nat)
    requires i < |Buckets(trades)|
    ensures var b := Buckets(trades)[i].0;
      InBucket(trades, b) != [] && ToLevels(Buckets(trades))[i] == BucketLevel(trades, b)
  {
    BucketEntries(trades);
  }

  /**
   * The profile's levels are the trades grouped by cent bucket (each level
   * holds exactly the volume of the trades whose price truncates to its
   * cents, and every trade's bucket is a level), sorted by descending
   * volume, with the trades' total volume; the point of control is the
   * price of a level of greatest volume, and the value area brackets it.
   */
  lemma VolumeProfileProperties(trades: seq<(real, real)>)
    requires trades != []
    ensures var p := VolumeProfileOf(trades).value;
      SortedByVolume(p.levels) &&
      LevelVolumes(p.levels) == TradeVolumes(trades) &&
      multiset(p.levels) == multiset(ToLevels(Buckets(trades))) &&
      (forall level :: level in p.levels ==> LevelOfTrades(trades, level)) &&
      (forall j :: 0 <= j < |trades| ==> BucketLevel(trades, Bucket(trades[j].0)) in p.levels) &&
      (forall i :: 0 <= i < |p.levels| ==> p.levels[0].volume >= p.levels[i].volume) &&
      p.poc == p.levels[0].price &&
      p.val <= p.poc <= p.vah
  {
    var buckets := Buckets(trades);
    BucketsKeepVolume(trades);
    BucketsDistinct(trades);
    SortOrders(ToLevels(buckets));
    LevelVolumesOfBuckets(buckets);
    SortedLevelsGroupTrades(trades);
  }

  /** The bucketing loop of `VolumeProfile::calculate`. */
  method BucketTrades(trades: seq<(real, real)>) returns (buckets: seq<(int, real)>)
    ensures buckets == Buckets(trades)
  {
    buckets := [];
    var i := 0;
    while i < |trades|
      invariant 0 <= i <= |trades|
      invariant buckets == Buckets(trades[..i])
    {
      assert trades[..i + 1][..i] == trades[..i];
      var bucket := Bucket(trades[i].0);
      buckets := AddToBucket(buckets, bucket, trades[i].1);
      i := i + 1;
    }
    assert trades[..i] == trades;
  }

  /** The total volume of the levels, summed from the first. */
  method TotalVolume(levels: seq<PriceLevel>) returns (total: real)
    ensures total == LevelVolumes(levels)
  {
    total := 0.0;
    var j := 0;
    while j < |levels|
      invariant 0 <= j <= |levels|
      invariant total == LevelVolumes(levels[..j])
    {
      assert levels[..j + 1][..j] == levels[..j];
      total := total + levels[j].volume;
      j := j + 1;
    }
    assert levels[..j] == levels;
  }

  /** The value-area loop: widens the bounds while the running volume stays within the target. */
  method ValueAreaOver(levels: seq<PriceLevel>, target: real, poc: real) returns (vah: real, val: real)
    ensures (vah, val) == (ValueArea(levels, |levels|, target, poc).1, ValueArea(levels, |levels|, target, poc).2)
  {
    var accumulated := 0.0;
    vah := poc;
    val := poc;
    var k := 0;
    while k < |levels|
      invariant 0 <= k <= |levels|
      invariant (accumulated, vah, val) == ValueArea(levels, k, target, poc)
    {
      accumulated := accumulated + levels[k].volume;
      if accumulated <= target {
        vah := Max(vah, levels[k].price);
        val := Min(val, levels[k].price);
      }
      k := k + 1;
    }
  }

  /** The point of control and value area of `VolumeProfile::calculate`, with its loops. */
  method ProfileFromLevels(levels: seq<PriceLevel>) returns (p: VolumeProfile)
    requires levels != []
    ensures p == ProfileOf(levels)
  {
    var poc := levels[0].price;
    var total := TotalVolume(levels);
    var vah, val := ValueAreaOver(levels, total * 0.7, poc);
    p := VolumeProfile(levels, poc, vah, val);
  }

  /** `VolumeProfile::calculate`. */
  method CalculateVolumeProfile(trades: seq<(real, real)>) returns (r: Option<VolumeProfile>)
    ensures r == VolumeProfileOf(trades)
  {
    if trades == [] {
      return None;
    }
    var buckets := BucketTrades(trades);
    var levels := SortByVolume(ToLevels(buckets));
    assert levels == SortedLevels(trades);
    var p := ProfileFromLevels(levels);
    r := Some(p);
  }
}

/**
 * monitor-anomaly's shared types and its rolling window.
 *
 * `TimeSeriesWindow` is a bounded FIFO of samples that keeps a running sum
 * and sum of squares, updated in place by `Push`. The statistics are read
 * from those running aggregates; the object invariant `Valid` says they
 * always equal the sums over the current contents, so every statistic the
 * window reports equals its batch recomputation over the contents
 * (`MeanOf`, `StdDevOf`, `ZScoreOf`).
 */
module AnomalyWindow {
  import opened Numerics
  import opened MonitorCore

  datatype AnomalySeverity = Low | Medium | High | Critical {
    /** The declaration order of the enum, used to compare severities. */
    function Rank(): nat {
      match this
      case Low => 0
      case Medium => 1
      case High => 2
      case Critical => 3
    }
  }

  datatype AnomalyMetrics = AnomalyMetrics(
    currentValue: real,
    expectedValue: real,
    deviation: real,
    zScore: Option<real>,
    percentageChange: Option<Float>,
    historicalAvg: Option<real>,
    historicalStd: Option<real>)

  /** An emitted record; `description` is free text and is not modelled. */
  datatype AnomalyDetection = AnomalyDetection(
    id: Uuid,
    timestamp: Timestamp,
    symbol: string,
    exchange: string,
    anomalyType: AnomalyType,
    severity: AnomalySeverity,
    metrics: AnomalyMetrics)

  datatype TimeSeriesData = TimeSeriesData(timestamp: Timestamp, value: real)

  datatype VolumeAnomalyConfig = VolumeAnomalyConfig(
    zScoreThreshold: real,
    minPercentageChange: real,
    windowSize: nat,
    minSamples: nat)

  datatype PriceAnomalyConfig = PriceAnomalyConfig(
    percentageThreshold: real,
    zScoreThreshold: real,
    windowSize: nat,
    minSamples: nat)

  function DefaultVolumeAnomalyConfig(): VolumeAnomalyConfig {
    VolumeAnomalyConfig(3.0, 200.0, 60, 30)
  }

  function DefaultPriceAnomalyConfig(): PriceAnomalyConfig {
    PriceAnomalyConfig(5.0, 3.0, 60, 30)
  }

  // ---------------------------------------------------------------------
  // The window's contents and the statistics recomputed from them

  function Values(data: seq<TimeSeriesData>): (vs: seq<real>)
    ensures |vs| == |data|
    ensures forall i :: 0 <= i < |data| ==> vs[i] == data[i].value
  {
    seq(|data|, i requires 0 <= i < |data| => data[i].value)
  }

  /** The most samples a window of `maxSize` holds: `push` keeps one even when `maxSize` is 0. */
  function Capacity(maxSize: nat): nat {
    if maxSize == 0 then 1 else maxSize
  }

  /** The contents after `push`: drop the front when full, then append. */
  function Pushed(data: seq<TimeSeriesData>, maxSize: nat, point: TimeSeriesData): seq<TimeSeriesData> {
    (if |data| >= maxSize && data != [] then data[1..] else data) + [point]
  }

  function MeanOf(xs: seq<real>): real {
    if xs == [] then 0.0 else Sum(xs) / |xs| as real
  }

  /** The population variance, `sum_squared / n - mean^2`, as the window computes it. */
  function VarianceOf(xs: seq<real>): real {
    if xs == [] then 0.0 else SumSquares(xs) / |xs| as real - MeanOf(xs) * MeanOf(xs)
  }

  /** The standard deviation; 0 below two samples, and a negative variance is clamped to 0. */
  function StdDevOf(xs: seq<real>): real {
    if |xs| < 2 then 0.0 else Sqrt(Max(VarianceOf(xs), 0.0))
  }

  function ZScoreOf(xs: seq<real>, value: real): real {
    var sd := StdDevOf(xs);
    if sd == 0.0 then 0.0 else (value - MeanOf(xs)) / sd
  }

  // ---------------------------------------------------------------------
  // Facts about the contents and the statistics

  lemma ValuesAppend(a: seq<TimeSeriesData>, b: seq<TimeSeriesData>)
    ensures Values(a + b) == Values(a) + Values(b)
  {
  }

  lemma ValuesDropFront(a: seq<TimeSeriesData>)
    requires a != []
    ensures Values(a) == [a[0].value] + Values(a[1..])
  {
  }

  /**
   * With `maxSize >= 1` and a window that is not over capacity, `push` grows
   * the window by one until it is full; when full it drops exactly the
   * oldest sample. The new point is always last.
   */
  lemma PushedShape(data: seq<TimeSeriesData>, maxSize: nat, point: TimeSeriesData)
    requires |data| <= Capacity(maxSize)
    ensures |Pushed(data, maxSize, point)| == if |data| < Capacity(maxSize) then |data| + 1 else |data|
    ensures |Pushed(data, maxSize, point)| <= Capacity(maxSize)
    ensures Pushed(data, maxSize, point)[|Pushed(data, maxSize, point)| - 1] == point
    ensures |data| >= maxSize && data != [] ==> Pushed(data, maxSize, point) == data[1..] + [point]
    ensures |data| < maxSize ==> Pushed(data, maxSize, point) == data + [point]
  {
  }

  /** The contents after pushing `points` one after the other. */
  function PushAll(data: seq<TimeSeriesData>, maxSize: nat, points: seq<TimeSeriesData>): seq<TimeSeriesData>
    decreases |points|
  {
    if points == [] then data
    else PushAll(Pushed(data, maxSize, points[0]), maxSize, points[1..])
  }

  /**
   * A window of `d` samples that receives `k` more holds
   * `min(d + k, Capacity)` samples: the latest ones, oldest first.
   */
  lemma {:induction false} PushAllKeepsLatest(data: seq<TimeSeriesData>, maxSize: nat, points: seq<TimeSeriesData>)
    requires |data| <= Capacity(maxSize)
    ensures var w := PushAll(data, maxSize, points);
      |w| == Min2(|data| + |points|, Capacity(maxSize)) &&
      w == (data + points)[|data| + |points| - |w|..]
    decreases |points|
  {
    if points == [] {
      assert data + points == data;
    } else {
      var next := Pushed(data, maxSize, points[0]);
      PushedShape(data, maxSize, points[0]);
      PushAllKeepsLatest(next, maxSize, points[1..]);
      var w := PushAll(next, maxSize, points[1..]);
      if |data| >= maxSize && data != [] {
        assert next == data[1..] + [points[0]];
        assert next + points[1..] == (data + points)[1..];
      } else {
        assert next == data + [points[0]];
        assert next + points[1..] == data + points;
      }
    }
  }

  function Min2(a: nat, b: nat): nat {
    if a <= b then a else b
  }

  lemma StdDevNonNegative(xs: seq<real>)
    ensures StdDevOf(xs) >= 0.0
  {
  }

  /** `q - 2 m s + n m^2`: the sum of squared distances from `m` of `n` values with sum `s` and sum of squares `q`. */
  function Expansion(q: real, s: real, n: real, m: real): real {
    q - 2.0 * m * s + n * m * m
  }

  /** The squared distances from `m` add up to `sum_squared - 2 m sum + n m^2`. */
  lemma {:induction false} DeviationsExpand(xs: seq<real>, m: real)
    ensures Sum(Deviations(xs, m)) == Expansion(SumSquares(xs), Sum(xs), |xs| as real, m)
  {
    if xs == [] {
      assert Deviations(xs, m) == [];
    } else {
      var front := xs[..|xs| - 1];
      DeviationsLast(xs, m);
      DeviationsExpand(front, m);
      ExpandStep(Sum(Deviations(front, m)), SumSquares(front), Sum(front), |front| as real, xs[|xs| - 1], m,
                 Sum(Deviations(xs, m)), SumSquares(xs), Sum(xs), |xs| as real);
    }
  }

  lemma DeviationsLast(xs: seq<real>, m: real)
    requires xs != []
    ensures Sum(Deviations(xs, m)) == Sum(Deviations(xs[..|xs| - 1], m)) + Square(xs[|xs| - 1] - m)
  {
    assert Deviations(xs, m)[..|xs| - 1] == Deviations(xs[..|xs| - 1], m);
  }

  /** One more value `x` keeps the expansion: the arithmetic step of `DeviationsExpand`. */
  lemma ExpandStep(d: real, q: real, s: real, c: real, x: real, m: real, d': real, q': real, s': real, c': real)
    requires d == Expansion(q, s, c, m)
    requires d' == d + Square(x - m) && q' == q + Square(x) && s' == s + x && c' == c + 1.0
    ensures d' == Expansion(q', s', c', m)
  {
  }

  /** With `m = s / n`, the expansion over `n` is `q / n - m^2`. */
  lemma MeanSquaredStep(d: real, q: real, s: real, n: real, m: real)
    requires n > 0.0 && m == s / n
    requires d == Expansion(q, s, n, m)
    ensures d / n == q / n - m * m
  {
  }

  /**
   * In exact arithmetic the running-sum variance is the mean squared
   * distance from the mean, so it is never negative.
   */
  lemma VarianceIsMeanSquaredDeviation(xs: seq<real>)
    requires xs != []
    ensures VarianceOf(xs) == Sum(Deviations(xs, MeanOf(xs))) / |xs| as real
    ensures VarianceOf(xs) >= 0.0
  {
    var n, q, total := |xs| as real, SumSquares(xs), Sum(xs);
    var m := MeanOf(xs);
    var d := Sum(Deviations(xs, m));
    assert m == total / n;
    assert VarianceOf(xs) == q / n - m * m;
    DeviationsExpand(xs, m);
    MeanSquaredStep(d, q, total, n, m);
    DeviationsNonNegative(xs, m);
    QuotientNonNegative(d, n);
  }

  lemma DeviationsNonNegative(xs: seq<real>, m: real)
    ensures Sum(Deviations(xs, m)) >= 0.0
  {
    var d := Deviations(xs, m);
    forall i | 0 <= i < |d|
      ensures 0.0 <= d[i]
    {
      SquareNonNegative(xs[i] - m);
    }
    SumLowerBound(d, 0.0);
  }

  /**
   * From two samples on, the deviation is the root of the mean squared
   * distance from the mean: the clamp to 0 never changes it.
   */
  lemma StdDevIsRootMeanSquaredDeviation(xs: seq<real>)
    requires |xs| >= 2
    ensures StdDevOf(xs) == Sqrt(Sum(Deviations(xs, MeanOf(xs))) / |xs| as real)
  {
    VarianceIsMeanSquaredDeviation(xs);
  }

  lemma SquareNonNegative(x: real)
    ensures Square(x) >= 0.0
  {
  }

  lemma QuotientNonNegative(a: real, n: real)
    requires a >= 0.0 && n > 0.0
    ensures a / n >= 0.0
  {
  }

  /** With the spread fixed, the z-score is strictly increasing in the value. */
  lemma ZScoreStrictlyIncreasing(xs: seq<real>, v1: real, v2: real)
    requires StdDevOf(xs) != 0.0
    requires v1 < v2
    ensures ZScoreOf(xs, v1) < ZScoreOf(xs, v2)
  {
    var sd, m := StdDevOf(xs), MeanOf(xs);
    assert sd > 0.0;
    assert (v1 - m) / sd < (v2 - m) / sd by {
      assert (v2 - m) / sd - (v1 - m) / sd == (v2 - v1) / sd;
    }
  }

  // ---------------------------------------------------------------------
  // The window itself

  lemma DropFrontSums(data: seq<TimeSeriesData>)
    requires data != []
    ensures Sum(Values(data[1..])) == Sum(Values(data)) - data[0].value
    ensures SumSquares(Values(data[1..])) == SumSquares(Values(data)) - Square(data[0].value)
  {
    ValuesDropFront(data);
    SumCons(data[0].value, Values(data[1..]));
  }

  lemma AppendSums(data: seq<TimeSeriesData>, point: TimeSeriesData)
    ensures Sum(Values(data + [point])) == Sum(Values(data)) + point.value
    ensures SumSquares(Values(data + [point])) == SumSquares(Values(data)) + Square(point.value)
  {
    ValuesAppend(data, [point]);
    SumAppend(Values(data), [point.value]);
    assert Values([point]) == [point.value];
    assert [point.value][..0] == [];
  }

  /** How `push` changes the sums and the length of the contents. */
  lemma PushedSums(data: seq<TimeSeriesData>, maxSize: nat, point: TimeSeriesData)
    requires |data| <= Capacity(maxSize)
    ensures |Pushed(data, maxSize, point)| <= Capacity(maxSize)
    ensures |data| >= maxSize && data != [] ==>
      Pushed(data, maxSize, point) == data[1..] + [point] &&
      Sum(Values(data[1..] + [point])) == Sum(Values(data)) - data[0].value + point.value &&
      SumSquares(Values(data[1..] + [point])) == SumSquares(Values(data)) - Square(data[0].value) + Square(point.value)
    ensures !(|data| >= maxSize && data != []) ==>
      Pushed(data, maxSize, point) == data + [point] &&
      Sum(Values(data + [point])) == Sum(Values(data)) + point.value &&
      SumSquares(Values(data + [point])) == SumSquares(Values(data)) + Square(point.value)
  {
    if |data| >= maxSize && data != [] {
      DropFrontSums(data);
      AppendSums(data[1..], point);
    } else {
      AppendSums(data, point);
    }
  }

  class TimeSeriesWindow {
    var data: seq<TimeSeriesData>
    const maxSize: nat
    var sum: real
    var sumSquared: real

    /** The running aggregates equal the sums over the contents, and the contents fit. */
    ghost predicate Valid()
      reads this
    {
      sum == Sum(Values(data)) &&
      sumSquared == SumSquares(Values(data)) &&
      |data| <= Capacity(maxSize)
    }

    constructor (maxSize: nat)
      ensures Valid()
      ensures this.maxSize == maxSize && data == []
    {
      this.maxSize := maxSize;
      data := [];
      sum := 0.0;
      sumSquared := 0.0;
    }

    method Push(point: TimeSeriesData)
      requires Valid()
      modifies this
      ensures Valid()
      ensures data == Pushed(old(data), maxSize, point)
    {
      PushedSums(data, maxSize, point);
      if |data| >= maxSize && data != [] {
        var oldest := data[0];
        data := data[1..];
        sum := sum - oldest.value;
        sumSquared := sumSquared - Square(oldest.value);
      }
      sum := sum + point.value;
      sumSquared := sumSquared + Square(point.value);
      data := data + [point];
    }

    /**
     * Empties the window, keeping its capacity: the state of a window just
     * built by `new(max_size)`.
     */
    method Clear()
      modifies this
      ensures Valid()
      ensures data == []
    {
      data := [];
      sum := 0.0;
      sumSquared := 0.0;
    }

    /** The mean from the running sum equals the mean of the contents. */
    function Mean(): (r: real)
      reads this
      requires Valid()
      ensures r == MeanOf(Values(data))
    {
      if data == [] then 0.0 else sum / |data| as real
    }

    /** The standard deviation from the running sums equals the batch one over the contents. */
    function StdDev(): (r: real)
      reads this
      requires Valid()
      ensures r == StdDevOf(Values(data))
      ensures r >= 0.0
    {
      if |data| < 2 then 0.0
      else
        var mean := Mean();
        var variance := (sumSquared / |data| as real) - (mean * mean);
        Sqrt(Max(variance, 0.0))
    }

    function ZScore(value: real): (r: real)
      reads this
      requires Valid()
      ensures r == ZScoreOf(Values(data), value)
      ensures StdDev() == 0.0 ==> r == 0.0
    {
      var sd := StdDev();
      if sd == 0.0 then 0.0 else (value - Mean()) / sd
    }

    function Len(): (n: nat)
      reads this
      requires Valid()
      ensures n <= Capacity(maxSize)
    {
      |data|
    }

    predicate IsEmpty()
      reads this
    {
      data == []
    }
  }
}

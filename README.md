# crypto-monitor analytics and decision core, in Dafny

This project models the decision logic of the crypto-monitor system and the two
monitor examples shipped with barter-data, and proves what each part promises.

- **Anomaly detection** (`monitor-anomaly`):
  - the bounded time-series window with running sums;
  - the volume and price detectors, the composite detector and the per-market detector manager;
  - the four pattern rules of the market analyser;
  - the metrics calculator (SMA, EMA, Bollinger bands, RSI, MACD, volatility, trend) and the volume profile.
- **Trading** (`monitor-trader`):
  - positions, their PnL and exit triggers;
  - the risk manager's checks and price levels;
  - the anomaly-based strategy;
  - the auto trader's positions map and statistics.
- **Glue that decides something:**
  - the engine's topic routing and its one-shot receiver and task handle;
  - the event builder;
  - configuration validation and reload;
  - the notification mapping and layout, and the channel manager;
  - the API's client and subscription tables, and the WebSocket message handling and broadcasts.
- **The barter-data monitor demos:** the per-symbol monitors, the statistics of the improved demo, and the per-symbol lookup.

Every f64 is a Dafny `real` with exact arithmetic. Counters are `nat`.

The square root is abstract. `Numerics.sqrt` is some function that is non-negative, zero at zero and monotone, and the model uses nothing else about it.

Divisions the source leaves unguarded give an explicit IEEE result (`Numerics.Float`: a finite value, an infinity or NaN).

Clocks, uuids, the execution client's answers, deserialisation results and each channel's answer to a send are parameters of the operations that use them.

Code that updates state in place is modelled as classes. The window, the detectors, the composite, the metrics calculator, the analyser, the auto trader, the config manager, the engine, the notification manager, the API state and the demo monitors are classes with `modifies` clauses. Their methods are proved against specification functions on values, for example `State() == Step(old(State()), ...)`, and the promised properties are lemmas about those functions.

## Model

| member | source | states |
|---|---|---|
| AnomalyWindow.PushedShape | crypto-monitor/docker-build-context/monitor-anomaly/src/lib.rs:65-76 | `push` grows a window that is not full by one; a full window drops exactly its oldest sample; the new point is always last and the window never exceeds its capacity |
| AnomalyWindow.PushAllKeepsLatest | crypto-monitor/docker-build-context/monitor-anomaly/src/lib.rs:65-76 | after k pushes a window of d samples holds min(d + k, capacity) samples, and they are the latest ones in arrival order |
| AnomalyWindow.PushedSums | crypto-monitor/docker-build-context/monitor-anomaly/src/lib.rs:65-76 | subtracting the dropped sample and adding the new one keeps `sum` and `sum_squared` equal to the sums over the new contents |
| AnomalyWindow.StdDevNonNegative | crypto-monitor/docker-build-context/monitor-anomaly/src/lib.rs:86-94 | the standard deviation is never negative, because a negative variance is clamped to 0 |
| AnomalyWindow.DeviationsExpand | crypto-monitor/docker-build-context/monitor-anomaly/src/lib.rs:86-94 | the squared distances of n values from m add up to `sum_squared - 2 m sum + n m^2` |
| AnomalyWindow.VarianceIsMeanSquaredDeviation | crypto-monitor/docker-build-context/monitor-anomaly/src/lib.rs:86-94 | the variance `sum_squared / n - mean^2` equals the mean squared distance from the mean, so it is never negative in exact arithmetic |
| AnomalyWindow.StdDevIsRootMeanSquaredDeviation | crypto-monitor/docker-build-context/monitor-anomaly/src/lib.rs:86-94 | from two samples on the deviation is the root of the mean squared distance from the mean; the clamp to 0 never changes it in exact arithmetic |
| AnomalyWindow.ZScoreStrictlyIncreasing | crypto-monitor/docker-build-context/monitor-anomaly/src/lib.rs:96-103 | with a non-zero spread the z-score is strictly increasing in the value |
| AnomalyWindow.TimeSeriesWindow.constructor | crypto-monitor/docker-build-context/monitor-anomaly/src/lib.rs:56-63 | `new` gives an empty window with the given `max_size` whose running sums are consistent |
| AnomalyWindow.TimeSeriesWindow.Push | crypto-monitor/docker-build-context/monitor-anomaly/src/lib.rs:65-76 | the contents become the pushed sequence and the running `sum`/`sum_squared` remain the sums over the contents |
| AnomalyWindow.TimeSeriesWindow.Clear | crypto-monitor/docker-build-context/monitor-anomaly/src/detector.rs:94-96 | a reset window is empty, with consistent sums and its capacity kept |
| AnomalyWindow.TimeSeriesWindow.Mean | crypto-monitor/docker-build-context/monitor-anomaly/src/lib.rs:78-84 | the mean read from the running sum equals the mean of the contents (0 when empty) |
| AnomalyWindow.TimeSeriesWindow.StdDev | crypto-monitor/docker-build-context/monitor-anomaly/src/lib.rs:86-94 | the deviation read from the running sums equals the deviation of the contents, the root of the clamped `sum_squared / n - mean^2` (0 below two samples), and is not negative |
| AnomalyWindow.TimeSeriesWindow.ZScore | crypto-monitor/docker-build-context/monitor-anomaly/src/lib.rs:96-103 | the z-score equals the batch z-score of the contents, and is 0 when the deviation is 0 |
| AnomalyWindow.TimeSeriesWindow.Len | crypto-monitor/docker-build-context/monitor-anomaly/src/lib.rs:105-107 | the length never exceeds the capacity (one sample even for `max_size` 0) |
| AnomalyDetectors.VolumeSeverityMonotone | crypto-monitor/docker-build-context/monitor-anomaly/src/detector.rs:51-56 | a larger \|z\| never gives a lower volume severity band |
| AnomalyDetectors.PriceSeverityMonotone | crypto-monitor/docker-build-context/monitor-anomaly/src/detector.rs:149-154 | a larger move or a larger \|z\| never gives a lower price severity band |
| AnomalyDetectors.Next | crypto-monitor/docker-build-context/monitor-anomaly/src/detector.rs:31-32 | after `detect` the window holds the pushed sample, the kind, market and config are kept, and a price detector remembers the new price |
| AnomalyDetectors.ResetState | crypto-monitor/docker-build-context/monitor-anomaly/src/detector.rs:94-96 | after `reset` the window is empty, the kind, market and config are kept, and a price detector has no last price |
| AnomalyDetectors.VolumeVerdict | crypto-monitor/docker-build-context/monitor-anomaly/src/detector.rs:34-36 | nothing while the window has fewer than `min_samples` samples; a record is a volume spike for the detector's market with the caller's id and the sample's timestamp |
| AnomalyDetectors.PriceVerdict | crypto-monitor/docker-build-context/monitor-anomaly/src/detector.rs:125-128 | nothing while the window has fewer than `min_samples` samples; a record is a price spike for the detector's market with the caller's id and the sample's timestamp |
| AnomalyDetectors.VolumeRule | crypto-monitor/docker-build-context/monitor-anomaly/src/detector.rs:38-92 | a volume record is emitted exactly when the window is warm, \|z\| reaches its threshold and the change from the mean reaches its threshold; its expected value, deviation and severity come from the window that already holds the sample |
| AnomalyDetectors.PriceRule | crypto-monitor/docker-build-context/monitor-anomaly/src/detector.rs:130-188 | a price record is emitted exactly when the window is warm and either the move from the last price or \|z\| reaches its threshold; its severity follows the combined bands |
| AnomalyDetectors.DefaultsNeverLow | crypto-monitor/docker-build-context/monitor-anomaly/src/lib.rs:127-155 | with the default configs (z 3.0; 5% or z 3.0) no emitted record has severity Low |
| AnomalyDetectors.NeverWarmWhenMinSamplesExceedCapacity | crypto-monitor/docker-build-context/monitor-anomaly/src/detector.rs:32-36 | a detector whose `min_samples` exceeds what its window can hold never emits anything |
| AnomalyDetectors.FlatValues | crypto-monitor/docker-build-context/monitor-anomaly/src/lib.rs:78-94 | a window of equal values has that value as its mean and a deviation of 0 |
| AnomalyDetectors.FlatSeriesNeverFires | crypto-monitor/docker-build-context/monitor-anomaly/src/detector.rs:31-188 | a flat series (the new sample equal to every stored one and to the last price) raises nothing under positive thresholds |
| AnomalyDetectors.VolumeAnomalyDetector.constructor | crypto-monitor/docker-build-context/monitor-anomaly/src/detector.rs:20-27 | a new volume detector has an empty window with the config's size |
| AnomalyDetectors.VolumeAnomalyDetector.Detect | crypto-monitor/docker-build-context/monitor-anomaly/src/detector.rs:31-92 | the sample is pushed before the statistics are read; the new state is `Next` of the old one and the result is its `Verdict` |
| AnomalyDetectors.VolumeAnomalyDetector.Reset | crypto-monitor/docker-build-context/monitor-anomaly/src/detector.rs:94-96 | the state becomes `ResetState` of the old one |
| AnomalyDetectors.PriceAnomalyDetector.constructor | crypto-monitor/docker-build-context/monitor-anomaly/src/detector.rs:108-116 | a new price detector has an empty window and no last price |
| AnomalyDetectors.PriceAnomalyDetector.Detect | crypto-monitor/docker-build-context/monitor-anomaly/src/detector.rs:120-189 | the sample is pushed and the last price replaced; the new state is `Next` of the old one and the result is its `Verdict` (computed from the previous last price) |
| AnomalyDetectors.PriceAnomalyDetector.Reset | crypto-monitor/docker-build-context/monitor-anomaly/src/detector.rs:191-194 | the window is emptied and the last price forgotten |
| AnomalyDetectors.AnomalyDetector.Detect | crypto-monitor/docker-build-context/monitor-anomaly/src/lib.rs:114-117 | dispatch to the boxed detector keeps its contract: next state and verdict |
| AnomalyDetectors.AnomalyDetector.Reset | crypto-monitor/docker-build-context/monitor-anomaly/src/lib.rs:114-117 | dispatch to the boxed detector resets it |
| AnomalyDetectors.Detections | crypto-monitor/docker-build-context/monitor-anomaly/src/detector.rs:212-217 | `detect_all` collects at most one record per detector |
| AnomalyDetectors.StepStates | crypto-monitor/docker-build-context/monitor-anomaly/src/detector.rs:212-217 | every detector of a composite takes the sample |
| AnomalyDetectors.ResetStates | crypto-monitor/docker-build-context/monitor-anomaly/src/detector.rs:219-223 | every detector of a composite is reset |
| AnomalyDetectors.DetectionsFromVerdicts | crypto-monitor/docker-build-context/monitor-anomaly/src/detector.rs:212-217 | every collected record is some detector's verdict, and nothing is collected exactly when no detector reports |
| AnomalyDetectors.DetectionsPrefix | crypto-monitor/docker-build-context/monitor-anomaly/src/detector.rs:212-217 | running one more detector appends its verdict (if any) to the records collected so far, so records come in detector order |
| AnomalyDetectors.CompositeAnomalyDetector.constructor | crypto-monitor/docker-build-context/monitor-anomaly/src/detector.rs:202-206 | a new composite has no detectors |
| AnomalyDetectors.CompositeAnomalyDetector.AddDetector | crypto-monitor/docker-build-context/monitor-anomaly/src/detector.rs:208-210 | the new detector runs last; the others keep their states |
| AnomalyDetectors.CompositeAnomalyDetector.DetectAll | crypto-monitor/docker-build-context/monitor-anomaly/src/detector.rs:212-217 | every detector takes the sample once, in order, and the result is the `Some` verdicts in detector order |
| AnomalyDetectors.CompositeAnomalyDetector.ResetAll | crypto-monitor/docker-build-context/monitor-anomaly/src/detector.rs:219-223 | every detector is reset and none is added or removed |
| AnomalyDetectors.DetectEach | crypto-monitor/docker-build-context/monitor-anomaly/src/detector.rs:213-216 | the `iter_mut().filter_map` loop: each detector in turn takes the sample and its verdict is collected |
| AnomalyDetectors.DetectOne | crypto-monitor/docker-build-context/monitor-anomaly/src/detector.rs:215 | one detector takes the sample; detectors sharing nothing with it keep their states |
| AnomalyDetectors.ResetEach | crypto-monitor/docker-build-context/monitor-anomaly/src/detector.rs:220-222 | the `reset_all` loop resets every detector |
| AnomalyDetectors.InitialStates | crypto-monitor/docker-build-context/monitor-anomaly/src/detector.rs:282-298 | a new key gets a volume detector then a price detector, both empty, for the caller's market |
| AnomalyDetectors.AnomalyDetectorManager.constructor | crypto-monitor/docker-build-context/monitor-anomaly/src/detector.rs:233-242 | a new manager has no keys and keeps the two configs |
| AnomalyDetectors.AnomalyDetectorManager.ProcessData | crypto-monitor/docker-build-context/monitor-anomaly/src/detector.rs:272-301 | the composite for `"exchange:symbol"` is created on first use and takes the sample; no other key changes; the result is that composite's records |
| AnomalyDetectors.AnomalyDetectorManager.Reset | crypto-monitor/docker-build-context/monitor-anomaly/src/detector.rs:303-309 | only the key's detectors are reset, and only if the key exists |
| AnomalyDetectors.AnomalyDetectorManager.ResetAll | crypto-monitor/docker-build-context/monitor-anomaly/src/detector.rs:311-316 | every key's detectors are reset and the keys stay |
| AnomalyDetectors.Current | crypto-monitor/docker-build-context/monitor-anomaly/src/detector.rs:282-298 | the composite used is the stored one, or a new empty one for an unknown key |
| AnomalyDetectors.ProcessStep | crypto-monitor/docker-build-context/monitor-anomaly/src/detector.rs:278-300 | afterwards the key is present and every other key is unchanged |
| AnomalyDetectors.ShapedAfterStep | crypto-monitor/docker-build-context/monitor-anomaly/src/detector.rs:282-300 | a stored composite stays a volume and a price detector for its market after a sample |
| AnomalyDetectors.ShapedAfterReset | crypto-monitor/docker-build-context/monitor-anomaly/src/detector.rs:303-316 | a stored composite stays a volume and a price detector for its market after a reset |
| AnomalyDetectors.RecordsCarryTheKey | crypto-monitor/docker-build-context/monitor-anomaly/src/detector.rs:278-300 | every record returned for a key names a market whose key is that key |
| AnomalyDetectors.MarketKeyNotInjective | crypto-monitor/docker-build-context/monitor-anomaly/src/detector.rs:278 | the key `exchange:symbol` does not separate markets whose names contain ':' |
| AnomalyDetectors.FirstSampleWarmsUp | crypto-monitor/docker-build-context/monitor-anomaly/src/detector.rs:282-300 | with warm-ups above one sample the first `process_data` for a market returns nothing |
| MarketMetrics.EmaOf | crypto-monitor/monitor-anomaly/src/metrics.rs:27-39 | no EMA for an empty window; a single sample is its own EMA |
| MarketMetrics.EmaWithinRange | crypto-monitor/monitor-anomaly/src/metrics.rs:33-36 | with a smoothing factor in [0, 1] the EMA stays within the range of the samples |
| MarketMetrics.Gains | crypto-monitor/monitor-anomaly/src/metrics.rs:57-67 | the summed rises are never negative |
| MarketMetrics.Losses | crypto-monitor/monitor-anomaly/src/metrics.rs:57-67 | the summed falls (as positive amounts) are never negative |
| MarketMetrics.RsiOf | crypto-monitor/monitor-anomaly/src/metrics.rs:51-79 | no RSI exactly when the window has fewer than `period + 1` samples |
| MarketMetrics.RsiRange | crypto-monitor/monitor-anomaly/src/metrics.rs:69-77 | for a period of at least 1 the RSI is a finite value in [0, 100], and exactly 100 when nothing fell |
| MarketMetrics.RsiReadsOldest | crypto-monitor/monitor-anomaly/src/metrics.rs:60-67 | the RSI depends only on the oldest `period + 1` samples of the window |
| MarketMetrics.RsiIgnoresLatestMove | crypto-monitor/monitor-anomaly/src/metrics.rs:60-67 | on the samples [1, 2, 0] with period 1 the RSI as written is 100 although the latest move is a fall; over the latest samples it is 0 |
| MarketMetrics.RsiOfLatest | crypto-monitor/monitor-anomaly/src/metrics.rs:51-79 | the corrected RSI: none exactly when fewer than `period + 1` samples |
| MarketMetrics.RsiOfLatestReadsNewest | crypto-monitor/monitor-anomaly/src/metrics.rs:51-79 | the corrected RSI depends only on the newest `period + 1` samples and lies in [0, 100] for a period of at least 1 |
| MarketMetrics.TrendOf | crypto-monitor/monitor-anomaly/src/metrics.rs:94-112 | no trend below three samples |
| MarketMetrics.TrendBands | crypto-monitor/monitor-anomaly/src/metrics.rs:100-110 | Up exactly when the last sample is more than 1% above the third-to-last, Down exactly when more than 1% below, Sideways otherwise; no other sample matters |
| MarketMetrics.BandsAround | crypto-monitor/monitor-anomaly/src/metrics.rs:41-49 | the bands are ordered lower <= middle <= upper and sit 2σ either side of the middle |
| MarketMetrics.AfterAdd | crypto-monitor/monitor-anomaly/src/metrics.rs:17-21 | `add_data` adds the key if missing, leaves every other key alone, keeps an existing window's size and creates a new window holding just the sample |
| MarketMetrics.Created | crypto-monitor/monitor-anomaly/src/metrics.rs:18-19 | after the entry step the key is present |
| MarketMetrics.AfterAddInTwoSteps | crypto-monitor/monitor-anomaly/src/metrics.rs:17-21 | `add_data` is creating the entry and then pushing into it |
| MarketMetrics.WindowSizeFixedOnFirstUse | crypto-monitor/monitor-anomaly/src/metrics.rs:18-19 | a key's window size is fixed by its first sample; sizes passed later are ignored |
| MarketMetrics.EmaOver | crypto-monitor/monitor-anomaly/src/metrics.rs:33-37 | the EMA loop computes `EmaOf` of the window's values |
| MarketMetrics.RsiOver | crypto-monitor/monitor-anomaly/src/metrics.rs:53-77 | the gain/loss loop computes `RsiOf` of the window's values |
| MarketMetrics.MetricsCalculator.constructor | crypto-monitor/monitor-anomaly/src/metrics.rs:11-15 | a new calculator has no windows |
| MarketMetrics.MetricsCalculator.AddData | crypto-monitor/monitor-anomaly/src/metrics.rs:17-21 | the windows become `AfterAdd` of the old ones |
| MarketMetrics.MetricsCalculator.AddWindow | crypto-monitor/monitor-anomaly/src/metrics.rs:18-19 | a missing key gets an empty window of the given size |
| MarketMetrics.MetricsCalculator.PushSample | crypto-monitor/monitor-anomaly/src/metrics.rs:20 | the key's window receives the sample by `push`; the other keys are unchanged |
| MarketMetrics.MetricsCalculator.Sma | crypto-monitor/monitor-anomaly/src/metrics.rs:23-25 | none exactly for an unknown key; otherwise the mean of the key's samples |
| MarketMetrics.MetricsCalculator.Volatility | crypto-monitor/monitor-anomaly/src/metrics.rs:90-92 | none exactly for an unknown key; otherwise the non-negative standard deviation of the key's samples |
| MarketMetrics.MetricsCalculator.Bollinger | crypto-monitor/monitor-anomaly/src/metrics.rs:41-49 | none exactly for an unknown key; otherwise ordered bands symmetric about the mean of the key's samples |
| MarketMetrics.MetricsCalculator.Trend | crypto-monitor/monitor-anomaly/src/metrics.rs:94-112 | none for an unknown key; otherwise `TrendOf` the key's samples |
| MarketMetrics.MetricsCalculator.Ema | crypto-monitor/monitor-anomaly/src/metrics.rs:27-39 | none for an unknown key; otherwise `EmaOf` the key's samples |
| MarketMetrics.MetricsCalculator.Rsi | crypto-monitor/monitor-anomaly/src/metrics.rs:51-79 | none for an unknown key; otherwise `RsiOf` the key's samples |
| MarketMetrics.MetricsCalculator.Macd | crypto-monitor/monitor-anomaly/src/metrics.rs:81-88 | none exactly for an unknown key or an empty window; otherwise the 12/26 EMA difference, a signal line at a fifth of it and the histogram |
| MarketMetrics.MacdShape | crypto-monitor/monitor-anomaly/src/metrics.rs:84-86 | the histogram is four times the signal, and both share the sign of a positive MACD |
| MarketMetrics.Trunc | crypto-monitor/monitor-anomaly/src/metrics.rs:145 | `as i64` truncates toward zero |
| MarketMetrics.Bucket | crypto-monitor/monitor-anomaly/src/metrics.rs:145 | a trade's bucket is its price times 100 truncated toward zero (`Trunc`); `BucketsGroupTrades` states how trades are grouped by it |
| MarketMetrics.Find | crypto-monitor/monitor-anomaly/src/metrics.rs:146 | the bucket's position if present, and no position holds it otherwise |
| MarketMetrics.AddToBucket | crypto-monitor/monitor-anomaly/src/metrics.rs:146 | `entry(bucket).or_insert(0.0) += volume` on the buckets in order of first appearance; `AddToBucketEntry`, `AddToBucketVolume` and `AddToBucketDistinct` state what it does |
| MarketMetrics.Buckets | crypto-monitor/monitor-anomaly/src/metrics.rs:144-147 | the loop over the trades folded with `AddToBucket`; `BucketsGroupTrades`, `BucketsKeepVolume` and `BucketsDistinct` state its promise |
| MarketMetrics.InBucket | crypto-monitor/monitor-anomaly/src/metrics.rs:144-147 | the trades whose price truncates to the given cents, in order; `InBucketEmpty` says it is empty exactly when no trade falls in the bucket |
| MarketMetrics.InBucketEmpty | crypto-monitor/monitor-anomaly/src/metrics.rs:144-147 | a bucket has no trades exactly when no trade's price truncates to it |
| MarketMetrics.AddToBucketEntry | crypto-monitor/monitor-anomaly/src/metrics.rs:146 | adding a volume to a bucket raises that bucket's entry (from 0 when new) by the volume and leaves every other bucket's entry as it was |
| MarketMetrics.BucketsGroupTrades | crypto-monitor/monitor-anomaly/src/metrics.rs:144-147 | a bucket has an entry exactly when some trade's price truncates to it, and the entry is the summed volume of exactly those trades |
| MarketMetrics.BucketEntries | crypto-monitor/monitor-anomaly/src/metrics.rs:144-147 | every entry is a bucket some trade falls in, holding the volume of exactly those trades, and every trade's bucket has an entry |
| MarketMetrics.AddToBucketVolume | crypto-monitor/monitor-anomaly/src/metrics.rs:146 | adding a trade to its bucket adds exactly its volume to the total |
| MarketMetrics.AddToBucketDistinct | crypto-monitor/monitor-anomaly/src/metrics.rs:146 | adding a trade keeps one entry per bucket |
| MarketMetrics.BucketsKeepVolume | crypto-monitor/monitor-anomaly/src/metrics.rs:144-147 | bucketing loses no volume |
| MarketMetrics.BucketsDistinct | crypto-monitor/monitor-anomaly/src/metrics.rs:142-147 | each bucket appears once, and there is a bucket as soon as there is a trade |
| MarketMetrics.ToLevels | crypto-monitor/monitor-anomaly/src/metrics.rs:149-155 | each bucket becomes a level at its cents price divided by 100 with its volume |
| MarketMetrics.LevelVolumesOfBuckets | crypto-monitor/monitor-anomaly/src/metrics.rs:149-155 | turning buckets into levels keeps the total volume |
| MarketMetrics.InsertByVolume | crypto-monitor/monitor-anomaly/src/metrics.rs:157 | insertion keeps the multiset of levels and adds one |
| MarketMetrics.SortByVolume | crypto-monitor/monitor-anomaly/src/metrics.rs:157 | the sort is a permutation of the levels |
| MarketMetrics.InsertKeepsOrder | crypto-monitor/monitor-anomaly/src/metrics.rs:157 | insertion keeps the levels sorted by descending volume |
| MarketMetrics.SortOrders | crypto-monitor/monitor-anomaly/src/metrics.rs:157 | the sort orders the levels by descending volume and keeps their total volume |
| MarketMetrics.ValueArea | crypto-monitor/monitor-anomaly/src/metrics.rs:167-177 | the value-area bounds always bracket the point of control |
| MarketMetrics.SortedLevels | crypto-monitor/monitor-anomaly/src/metrics.rs:142-157 | trades give at least one level |
| MarketMetrics.ProfileOf | crypto-monitor/monitor-anomaly/src/metrics.rs:163-184 | the point of control is the first level's price and the value area brackets it |
| MarketMetrics.VolumeProfileOf | crypto-monitor/monitor-anomaly/src/metrics.rs:136-161 | none exactly for no trades |
| MarketMetrics.LevelOfEntry | crypto-monitor/monitor-anomaly/src/metrics.rs:149-155 | each unsorted level is the level of its bucket: price cents/100 and the volume of the trades in that bucket |
| MarketMetrics.SortedLevelsGroupTrades | crypto-monitor/monitor-anomaly/src/metrics.rs:142-157 | every sorted level is the level of a bucket some trade falls in, and every trade's bucket is a level with the volume of all trades in it |
| MarketMetrics.VolumeProfileProperties | crypto-monitor/monitor-anomaly/src/metrics.rs:136-185 | the levels are the trades grouped by truncated cents: each level is at cents/100 and holds exactly the volume of the trades in that bucket, and every trade's bucket is a level; they are sorted by descending volume, are a permutation of the cent buckets and hold the trades' total volume; the point of control is the price of a level of greatest volume; val <= poc <= vah |
| MarketMetrics.BucketTrades | crypto-monitor/monitor-anomaly/src/metrics.rs:144-147 | the bucketing loop computes `Buckets` |
| MarketMetrics.TotalVolume | crypto-monitor/monitor-anomaly/src/metrics.rs:164 | the summing loop computes the levels' total volume |
| MarketMetrics.ValueAreaOver | crypto-monitor/monitor-anomaly/src/metrics.rs:167-177 | the value-area loop computes `ValueArea` over all levels |
| MarketMetrics.ProfileFromLevels | crypto-monitor/monitor-anomaly/src/metrics.rs:163-184 | the point of control and value area of `ProfileOf` |
| MarketMetrics.CalculateVolumeProfile | crypto-monitor/monitor-anomaly/src/metrics.rs:136-185 | the method computes `VolumeProfileOf` |
| MarketAnalysis.Remember | crypto-monitor/docker-build-context/monitor-anomaly/src/analyzer.rs:74-84 | a history within the bound stays within it after one more value |
| MarketAnalysis.RememberKeepsLatest | crypto-monitor/docker-build-context/monitor-anomaly/src/analyzer.rs:74-84 | a bounded history keeps exactly the latest min(n + 1, max) values, ending with the new one |
| MarketAnalysis.Latest | crypto-monitor/docker-build-context/monitor-anomaly/src/analyzer.rs:138-143 | `iter().rev().take(k)` gives k values, newest first |
| MarketAnalysis.MaxOf | crypto-monitor/docker-build-context/monitor-anomaly/src/analyzer.rs:199 | the fold with `f64::max` gives a value of the sequence that bounds all others |
| MarketAnalysis.MinOf | crypto-monitor/docker-build-context/monitor-anomaly/src/analyzer.rs:200 | the fold with `f64::min` gives a value of the sequence below all others |
| MarketAnalysis.LastMaxIndex | crypto-monitor/docker-build-context/monitor-anomaly/src/analyzer.rs:257-262 | `max_by` reports a greatest value and, among equal greatest values, the last one |
| MarketAnalysis.UnusualVolume | crypto-monitor/docker-build-context/monitor-anomaly/src/analyzer.rs:86-130 | nothing below 30 volumes; a record is UnusualActivity, High or Critical, stamped with the market, time and rule id |
| MarketAnalysis.PriceManipulation | crypto-monitor/docker-build-context/monitor-anomaly/src/analyzer.rs:132-185 | nothing below 10 prices; a record is UnusualActivity with severity High, stamped with the market, time and rule id |
| MarketAnalysis.FlashCrash | crypto-monitor/docker-build-context/monitor-anomaly/src/analyzer.rs:187-234 | nothing below 5 prices; a record is a Critical PriceSpike, stamped with the market, time and rule id |
| MarketAnalysis.PumpDump | crypto-monitor/docker-build-context/monitor-anomaly/src/analyzer.rs:236-301 | nothing below 20 prices or 20 volumes; a record is Critical UnusualActivity, stamped with the market, time and rule id |
| MarketAnalysis.Found | crypto-monitor/docker-build-context/monitor-anomaly/src/analyzer.rs:55-69 | a rule adds at most one record |
| MarketAnalysis.Collect | crypto-monitor/docker-build-context/monitor-anomaly/src/analyzer.rs:55-71 | the four rules give at most four records |
| MarketAnalysis.Analysis | crypto-monitor/docker-build-context/monitor-anomaly/src/analyzer.rs:31-72 | `analyze_market_data` returns at most four records |
| MarketAnalysis.FlatSum | crypto-monitor/docker-build-context/monitor-anomaly/src/analyzer.rs:92-93 | a constant run sums to the constant times its length |
| MarketAnalysis.UnusualVolumeRule | crypto-monitor/docker-build-context/monitor-anomaly/src/analyzer.rs:91-115 | with a positive average the rule fires exactly when the latest volume is more than 5 times the average, and is Critical exactly above 10 times |
| MarketAnalysis.SteadyVolumeNeverUnusual | crypto-monitor/docker-build-context/monitor-anomaly/src/analyzer.rs:91-97 | a constant volume history is never unusual |
| MarketAnalysis.PriceManipulationRule | crypto-monitor/docker-build-context/monitor-anomaly/src/analyzer.rs:145-156 | for positive prices the rule fires exactly when the 10-sample move exceeds 3% while the average of the last 10 volumes is below half the historical average |
| MarketAnalysis.UnmovedPriceNeverManipulated | crypto-monitor/docker-build-context/monitor-anomaly/src/analyzer.rs:145-156 | a price back where it was 10 samples ago is never flagged |
| MarketAnalysis.FlashCrashRule | crypto-monitor/docker-build-context/monitor-anomaly/src/analyzer.rs:199-205 | for positive prices a flash crash is reported exactly when the lowest of the last five and the latest are both below 90% of their highest |
| MarketAnalysis.NoFlashCrashAtTheHigh | crypto-monitor/docker-build-context/monitor-anomaly/src/analyzer.rs:201-205 | a market at the high of its last five prices never reports a flash crash |
| MarketAnalysis.PeakIsOldestHigh | crypto-monitor/docker-build-context/monitor-anomaly/src/analyzer.rs:242-262 | the pump-dump peak is the greatest of the last 20 prices and every older one of them is strictly lower |
| MarketAnalysis.PumpDumpRule | crypto-monitor/docker-build-context/monitor-anomaly/src/analyzer.rs:257-271 | for positive prices a pump-dump is reported exactly when the peak is at the 7th to 15th newest price (index 6 to 14, newest = 0), more than 20% above the oldest of the 20, and the newest is more than 15% below it |
| MarketAnalysis.NoPumpDumpAtANewHigh | crypto-monitor/docker-build-context/monitor-anomaly/src/analyzer.rs:265 | a newest price above the previous 19 never reports a pump-dump |
| MarketAnalysis.AnalysisWarmUp | crypto-monitor/docker-build-context/monitor-anomaly/src/analyzer.rs:86-89 | nothing is reported until 5 prices and 30 volumes are known |
| MarketAnalysis.CollectStamped | crypto-monitor/docker-build-context/monitor-anomaly/src/analyzer.rs:55-71 | collected records keep their market, and each carries its rule's id together with that rule's own clock reading; distinct rule ids give distinct record ids |
| MarketAnalysis.Tags | crypto-monitor/docker-build-context/monitor-anomaly/src/analyzer.rs:55-71 | one id per record |
| MarketAnalysis.AnalysisRecordsStamped | crypto-monitor/docker-build-context/monitor-anomaly/src/analyzer.rs:31-72 | every record carries the market, and the id of the rule that made it paired with the clock reading that rule took (`RuleTimes`, one reading per rule as each rule calls `Utc::now()` itself); with distinct rule ids no two records share an id |
| MarketAnalysis.MarketAnalyzer.constructor | crypto-monitor/docker-build-context/monitor-anomaly/src/analyzer.rs:20-29 | a new analyzer has empty histories, an empty calculator and the given market |
| MarketAnalysis.MarketAnalyzer.UpdateHistory | crypto-monitor/docker-build-context/monitor-anomaly/src/analyzer.rs:74-84 | each history becomes `Remember` of the old one with the new value |
| MarketAnalysis.MarketAnalyzer.AnalyzeMarketData | crypto-monitor/docker-build-context/monitor-anomaly/src/analyzer.rs:31-72 | the histories are updated, the calculator gets the sample under "price" and "volume" with window 60, stamped with the sample's own clock reading `now`, and the result is `Analysis` of the updated histories with each rule's record stamped by that rule's own reading in `times` |
| MarketAnalysis.MarketAnalyzer.FeedMetrics | crypto-monitor/docker-build-context/monitor-anomaly/src/analyzer.rs:42-52 | the calculator gets the sample under "price" then "volume"; the histories are unchanged |
| MarketAnalysis.MarketAnalyzer.Feed | crypto-monitor/docker-build-context/monitor-anomaly/src/analyzer.rs:43-47 | one `add_data` with window 60 |
| MarketAnalysis.MarketAnalyzer.RunRules | crypto-monitor/docker-build-context/monitor-anomaly/src/analyzer.rs:54-71 | the four rules run in order, each with its own id and clock reading, and the records are collected in that order |
| TraderTypes.DefaultStats | crypto-monitor/docker-build-context/monitor-trader/src/lib.rs:112-127 | every counter and ratio of the default statistics is zero |
| TraderTypes.Pnl | crypto-monitor/docker-build-context/monitor-trader/src/lib.rs:69-72 | (price − entry) × quantity for a long, (entry − price) × quantity for a short; `PnlAtEntryAndSides` and `LongPnlSign` state its promise |
| TraderTypes.ShouldStopLoss | crypto-monitor/docker-build-context/monitor-trader/src/lib.rs:75-84 | false without a stop; otherwise the price is at or below a long stop, or at or above a short one; `TriggersAfterUpdate` states it after a price update |
| TraderTypes.ShouldTakeProfit | crypto-monitor/docker-build-context/monitor-trader/src/lib.rs:86-95 | false without a target; otherwise the price is at or above a long target, or at or below a short one; `TriggersAfterUpdate` states it after a price update |
| TraderTypes.UpdatePrice | crypto-monitor/docker-build-context/monitor-trader/src/lib.rs:67-73 | the current price becomes the new price, the unrealized PnL is the side's PnL from entry, and no other field changes |
| TraderTypes.PnlAtEntryAndSides | crypto-monitor/docker-build-context/monitor-trader/src/lib.rs:69-72 | a position is flat at its entry price, and the long and short PnL are opposite |
| TraderTypes.LongPnlSign | crypto-monitor/docker-build-context/monitor-trader/src/lib.rs:70 | a long position of positive size gains exactly when the price is above entry |
| TraderTypes.TriggersAfterUpdate | crypto-monitor/docker-build-context/monitor-trader/src/lib.rs:75-95 | after a price update a position stops out exactly when it has a stop and the price reached it on the losing side, and takes profit exactly when it has a target reached on the winning side |
| Risk.SimpleRiskManager.RiskAmount | crypto-monitor/monitor-trader/src/risk.rs:24 | the risk percentage of the portfolio value, the amount both `validate_order` and `calculate_position_size` use; `SizedLossWithinRisk` bounds the sized loss by it |
| Risk.SimpleRiskManager.ValidateOrder | crypto-monitor/monitor-trader/src/risk.rs:15-30 | the sized order is accepted exactly when its notional exceeds neither the position limit nor the risk amount; `SizedOrderWithinLimit` shows only the risk check can reject it |
| Risk.SimpleRiskManager.StopLoss | crypto-monitor/monitor-trader/src/risk.rs:44-53 | the stop percentage below a long entry or above a short one; `StopsOnTheLosingSide` and `LevelsSymmetric` state its promise |
| Risk.SimpleRiskManager.TakeProfit | crypto-monitor/monitor-trader/src/risk.rs:55-64 | the target percentage above a long entry or below a short one; `TargetsOnTheWinningSide` and `LevelsSymmetric` state its promise |
| Risk.SimpleRiskManager.PositionSize | crypto-monitor/monitor-trader/src/risk.rs:32-42 | 0 when the stop distance is not positive; otherwise the lesser of the size whose loss at the stop is the risk amount and the size at the position limit |
| Risk.SizedOrderWithinLimit | crypto-monitor/monitor-trader/src/risk.rs:15-30 | for a positive price the sized order never exceeds the position limit, so `validate_order` accepts exactly when its notional is within the risk amount |
| Risk.SizedLossWithinRisk | crypto-monitor/monitor-trader/src/risk.rs:32-42 | with a positive stop distance the sized order loses at most the risk amount at the stop |
| Risk.StopsOnTheLosingSide | crypto-monitor/monitor-trader/src/risk.rs:44-53 | a stop percentage in (0, 100) puts a long stop below a positive entry and a short stop above it |
| Risk.TargetsOnTheWinningSide | crypto-monitor/monitor-trader/src/risk.rs:55-64 | a target percentage in (0, 100) puts a long target above a positive entry and a short target below it |
| Risk.LevelsSymmetric | crypto-monitor/monitor-trader/src/risk.rs:44-64 | the long and short levels lie symmetrically about the entry |
| Strategy.Decision | crypto-monitor/docker-build-context/monitor-trader/src/strategy.rs:22-50 | a decision is never Hold |
| Strategy.AnomalyBasedStrategy.Analyze | crypto-monitor/docker-build-context/monitor-trader/src/strategy.rs:16-63 | nothing while auto-trading is off; otherwise a signal exactly when the anomaly maps to a decision, carrying that side and strength, the anomaly's time, market and current value, and the anomaly's id |
| Strategy.AnomalyBasedStrategy.UpdateConfig | crypto-monitor/docker-build-context/monitor-trader/src/strategy.rs:65-67 | the whole configuration is replaced |
| Strategy.VolumeSpikeSignals | crypto-monitor/docker-build-context/monitor-trader/src/strategy.rs:23-34 | a Critical volume spike buys strongly, a High one buys at medium strength, Medium and Low give nothing |
| Strategy.PriceSpikeSignals | crypto-monitor/docker-build-context/monitor-trader/src/strategy.rs:35-48 | a price fall of more than 5% buys, a rise of more than 10% sells, anything in between gives nothing |
| Strategy.OnlySpikesSignal | crypto-monitor/docker-build-context/monitor-trader/src/strategy.rs:49 | only volume and price spikes ever lead to a signal |
| AutoTrading.WinCount | crypto-monitor/docker-build-context/monitor-trader/src/executor.rs:211-215 | the winning trades are at most all trades |
| AutoTrading.StatsConsistent | crypto-monitor/docker-build-context/monitor-trader/src/executor.rs:206-222 | every counted trade is either winning or losing, and the win rate is winning/total, within [0, 1] |
| AutoTrading.RecordedTrade | crypto-monitor/docker-build-context/monitor-trader/src/executor.rs:206-222 | one `update_stats` turns statistics of the closed trades into statistics of those trades plus the new one |
| AutoTrading.NewPosition | crypto-monitor/docker-build-context/monitor-trader/src/executor.rs:119-136 | the new position has the signal's market and price as entry and current price, the filled quantity, zero PnL, the risk manager's stop and target, and is open |
| AutoTrading.CloseRequest | crypto-monitor/docker-build-context/monitor-trader/src/executor.rs:169-184 | the closing order is the opposite side, the same quantity, reduce-only, at market |
| AutoTrading.Execute | crypto-monitor/docker-build-context/monitor-trader/src/executor.rs:63-111 | nothing is sent when the risk check fails or the signal is Hold; otherwise a market order of the sized quantity at the signal's price on the signal's side; a fill stores the new position under the market key, no order changes nothing, an error returns "Order execution failed: …" |
| AutoTrading.NewPositionQuiet | crypto-monitor/docker-build-context/monitor-trader/src/executor.rs:119-136 | with stop and target percentages in (0, 100) and a positive price a new position triggers neither exit at once |
| AutoTrading.AutoTrader.constructor | crypto-monitor/docker-build-context/monitor-trader/src/executor.rs:26-42 | a new trader has no positions and default statistics |
| AutoTrading.AutoTrader.ProcessAnomaly | crypto-monitor/docker-build-context/monitor-trader/src/executor.rs:44-61 | nothing while auto-trading is off or the strategy gives no signal; otherwise the signal is executed as `Execute` says; the statistics are untouched |
| AutoTrading.AutoTrader.ExecuteSignal | crypto-monitor/docker-build-context/monitor-trader/src/executor.rs:63-111 | the positions, result and sent order are those of `Execute` |
| AutoTrading.AutoTrader.CreatePosition | crypto-monitor/docker-build-context/monitor-trader/src/executor.rs:113-144 | the new position is stored under "exchange:symbol", replacing any other |
| AutoTrading.AutoTrader.UpdatePositions | crypto-monitor/docker-build-context/monitor-trader/src/executor.rs:146-165 | an unknown market changes nothing; otherwise the position is marked to the price and closed when its stop (checked first) or its target is reached |
| AutoTrading.AutoTrader.ClosePosition | crypto-monitor/docker-build-context/monitor-trader/src/executor.rs:167-204 | the closing order is sent; a fill removes the position and counts its PnL, no order removes it uncounted, an error puts it back and returns "Position close failed: …" |
| AutoTrading.AutoTrader.UpdateStats | crypto-monitor/docker-build-context/monitor-trader/src/executor.rs:206-222 | one more trade, its PnL added, counted as a win exactly when the PnL is positive; the statistics keep describing the closed trades |
| AutoTrading.AutoTrader.UpdateConfig | crypto-monitor/docker-build-context/monitor-trader/src/executor.rs:232-235 | the trader's and the strategy's configurations are both replaced; positions and statistics are unchanged |
| ConfigManagement.ValidateConfig | crypto-monitor/monitor-config/src/lib.rs:71-95 | Ok exactly when there are exchanges, a database URL and a Fluvio endpoint; otherwise the first failing check's configuration error, in that order |
| ConfigManagement.ConfigManager.constructor | crypto-monitor/monitor-config/src/lib.rs:30-33 | the manager keeps its sources and the configuration they deserialise to |
| ConfigManagement.ConfigManager.SetConfig | crypto-monitor/monitor-config/src/lib.rs:58-60 | a change through `get_config_mut` replaces the configuration |
| ConfigManagement.ConfigManager.Reload | crypto-monitor/monitor-config/src/lib.rs:62-69 | a successful deserialisation replaces the configuration; on failure the error is returned as a configuration error and the configuration is unchanged |
| ConfigManagement.ConfigManager.Validate | crypto-monitor/monitor-config/src/lib.rs:71-95 | the result is `ValidateConfig` of the current configuration, and nothing changes |
| ConfigManagement.FromSource | crypto-monitor/monitor-config/src/lib.rs:17-52 | a deserialisation error is returned as a configuration error; otherwise a manager holding the deserialised configuration |
| ConfigManagement.ReloadRestores | crypto-monitor/monitor-config/src/lib.rs:58-69 | edits through `get_config_mut` are discarded by `reload`, which restores the configuration the sources give |
| ConfigManagement.DefaultRuntimeConfig | crypto-monitor/monitor-config/src/lib.rs:118-128 | every flag is off and there is no time window |
| Events.EventBuilder.WithSource | crypto-monitor/monitor-core/src/event.rs:25-28 | sets the source and leaves every other field as it was |
| Events.EventBuilder.WithType | crypto-monitor/monitor-core/src/event.rs:30-33 | sets the event type and leaves every other field as it was |
| Events.EventBuilder.WithData | crypto-monitor/monitor-core/src/event.rs:35-38 | sets the payload and leaves every other field as it was |
| Events.EventBuilder.Build | crypto-monitor/monitor-core/src/event.rs:40-48 | an event exactly when both source and type are set; it carries the builder's id and timestamp, and a missing payload becomes Null |
| Events.NewBuilder | crypto-monitor/monitor-core/src/event.rs:15-23 | a fresh builder has the given id and time and nothing else set |
| Events.BuildAll | crypto-monitor/monitor-core/src/event.rs:15-48 | setting source, type and payload in any order builds the event they describe; without a payload it is built with Null |
| Events.BuildNeedsSourceAndType | crypto-monitor/monitor-core/src/event.rs:40-48 | without a source, or without a type, nothing is built whatever else is set |
| Events.SettersCommute | crypto-monitor/monitor-core/src/event.rs:25-38 | the setters touch disjoint fields, so their order does not matter |
| Engine.Topics | crypto-monitor/docker-build-context/monitor-core/src/engine.rs:79-86 | the six topics created under the prefix, in order: market trades, order book, candles, anomalies, alerts, trades; `RoutedTopicCreated` states that routing only targets them |
| Engine.TopicSuffix | crypto-monitor/docker-build-context/monitor-core/src/engine.rs:200-223 | an event is dropped exactly when it is a system event or market data other than trades, order books and candles |
| Engine.TopicFor | crypto-monitor/docker-build-context/monitor-core/src/engine.rs:200-223 | a topic exactly when the event type is routed |
| Engine.RoutedTopicCreated | crypto-monitor/docker-build-context/monitor-core/src/engine.rs:79-86 | every topic an event is routed to is one of the six topics created at start-up |
| Engine.Route | crypto-monitor/docker-build-context/monitor-core/src/engine.rs:200-223 | which of the six topics a routed event type feeds (below 6); `TopicsSeparateRoutes` states that types share a topic exactly when they share a route |
| Engine.TopicsSeparateRoutes | crypto-monitor/docker-build-context/monitor-core/src/engine.rs:79-86 | the routed topic is the created topic for the event's route, and two event types share a topic exactly when they share a route, whatever the prefix |
| Engine.Dispatch | crypto-monitor/docker-build-context/monitor-core/src/engine.rs:194-239 | a record is sent exactly when the event is routed, its topic has a producer and it serialises; the record is the event on that topic |
| Engine.WrapMarketEvent | crypto-monitor/docker-build-context/monitor-core/src/engine.rs:163-169 | a market event becomes a trade market-data event from the exchange, with the fresh id, the receive time and the payload |
| Engine.ProcessExchangeStreams | crypto-monitor/docker-build-context/monitor-core/src/engine.rs:153-175 | every market event is wrapped and forwarded, one for one and in the order received |
| Engine.MonitorEngine.constructor | crypto-monitor/docker-build-context/monitor-core/src/engine.rs:33-47 | a new engine has no producers and no task and still holds the event receiver |
| Engine.MonitorEngine.RegisterProducers | crypto-monitor/docker-build-context/monitor-core/src/engine.rs:76-116 | a producer is registered for each of the six topics and nothing else changes |
| Engine.MonitorEngine.StartEventProcessing | crypto-monitor/docker-build-context/monitor-core/src/engine.rs:177-192 | the first call takes the receiver and stores the engine's task; once the receiver is gone it returns "Event receiver already taken" and changes nothing |
| Engine.MonitorEngine.Stop | crypto-monitor/docker-build-context/monitor-core/src/engine.rs:65-74 | takes and aborts the engine's task handle if there is one, and always succeeds |
| Engine.MonitorEngine.ProcessEvent | crypto-monitor/docker-build-context/monitor-core/src/engine.rs:194-239 | whatever is sent goes to a topic with a producer and is the event itself |
| Engine.StartStopTwice | crypto-monitor/docker-build-context/monitor-core/src/engine.rs:177-192 | the receiver can be taken only once, and stopping twice aborts the engine's task once |
| Notifier.AlertFor | crypto-monitor/monitor-notifier/src/lib.rs:25-29 | Critical anomalies give critical alerts, High ones warnings, and every milder severity an information alert, each in both directions |
| Notifier.AlertForMonotone | crypto-monitor/monitor-notifier/src/lib.rs:25-29 | a more severe anomaly never gives a milder alert |
| Notifier.TypeName | crypto-monitor/monitor-notifier/src/lib.rs:35-39 | the `Debug` name of the anomaly type, which opens the notification title; `FromAnomaly` states the title |
| Notifier.FromAnomaly | crypto-monitor/monitor-notifier/src/lib.rs:24-43 | the alert level follows the severity; the time, message and payload are the anomaly's; the title reads "<type> detected on <exchange>/<symbol>" |
| Notifier.Emoji | crypto-monitor/monitor-notifier/src/lib.rs:113-117 | the leading symbol of each alert level; `EmojiDistinct` states that the levels can be told apart by it |
| Notifier.FormatMessage | crypto-monitor/monitor-notifier/src/lib.rs:112-126 | the symbol, the bold title, the message and the italic time separated by blank lines; `FormatLayout` states where each part lies |
| Notifier.EmojiDistinct | crypto-monitor/monitor-notifier/src/lib.rs:113-117 | different alert levels open the text with different symbols |
| Notifier.FormatLayout | crypto-monitor/monitor-notifier/src/lib.rs:112-126 | the text opens with the level's symbol and holds the title and the message verbatim at fixed offsets, and it ends with the closing underscore of the time |
| NotificationManagement.Enabled | crypto-monitor/docker-build-context/monitor-notifier/src/manager.rs:58-65 | keeps exactly the enabled channels and drops the rest |
| NotificationManagement.FirstEnabled | crypto-monitor/docker-build-context/monitor-notifier/src/manager.rs:47-50 | the position of the first channel that has the name and is enabled; none exactly when no channel both has the name and is enabled |
| NotificationManagement.NotificationManager.constructor | crypto-monitor/docker-build-context/monitor-notifier/src/manager.rs:12-16 | a new manager has no channels |
| NotificationManagement.NotificationManager.AddChannel | crypto-monitor/docker-build-context/monitor-notifier/src/manager.rs:18-23 | the channel is registered after all earlier ones |
| NotificationManagement.NotificationManager.SendAll | crypto-monitor/docker-build-context/monitor-notifier/src/manager.rs:25-38 | every enabled channel is tried once, in registration order, whatever earlier ones answered, and the call always succeeds |
| NotificationManagement.NotificationManager.SendToChannel | crypto-monitor/docker-build-context/monitor-notifier/src/manager.rs:40-56 | the answer of the first enabled channel with the name; "Channel <name> not found or disabled" when there is none |
| NotificationManagement.NotificationManager.GetEnabledChannels | crypto-monitor/docker-build-context/monitor-notifier/src/manager.rs:58-65 | the names of the enabled channels, in registration order |
| NotificationManagement.FirstIsFirst | crypto-monitor/docker-build-context/monitor-notifier/src/manager.rs:47-50 | the first match a front-to-back scan finds is the one FirstEnabled names |
| NotificationManagement.AddThenEnabled | crypto-monitor/docker-build-context/monitor-notifier/src/manager.rs:18-23 | a newly added channel appears after the earlier enabled ones exactly when it is enabled |
| ApiState.Recipients | crypto-monitor/monitor-api/src/state.rs:64-72 | a client is reached exactly when it has subscriptions, is registered and one of its subscriptions passes the filter |
| ApiState.WithoutChannel | crypto-monitor/monitor-api/src/state.rs:56 | keeps exactly the subscriptions to other channels |
| ApiState.WithoutChannelIdempotent | crypto-monitor/monitor-api/src/state.rs:54-58 | removing a channel's subscriptions twice is removing them once |
| ApiState.WithoutAbsentChannel | crypto-monitor/monitor-api/src/state.rs:54-58 | removing a channel the client never subscribed to leaves its list as it was |
| ApiState.AppState.constructor | crypto-monitor/monitor-api/src/state.rs:18-25 | a new state has no clients and no subscriptions |
| ApiState.AppState.AddWebsocketClient | crypto-monitor/monitor-api/src/state.rs:27-33 | the client's queue is registered, replacing an earlier one; subscriptions are untouched |
| ApiState.AppState.RemoveWebsocketClient | crypto-monitor/monitor-api/src/state.rs:35-38 | the client's queue and all its subscriptions are removed |
| ApiState.AppState.GetWebsocketClient | crypto-monitor/monitor-api/src/state.rs:40-45 | the client's queue exactly when it is registered |
| ApiState.AppState.AddSubscription | crypto-monitor/monitor-api/src/state.rs:47-52 | the subscription goes last in the client's list, which starts empty if the client had none; clients are untouched |
| ApiState.AppState.RemoveSubscription | crypto-monitor/monitor-api/src/state.rs:54-58 | every subscription of the client to that channel is dropped and the rest stay in order; an unknown client changes nothing |
| ApiState.AppState.BroadcastToSubscribers | crypto-monitor/monitor-api/src/state.rs:60-74 | the message is sent once to each client that Recipients names and to no one else, however many of its subscriptions pass |
| WebSocket.HandleClientMessage | crypto-monitor/docker-build-context/monitor-api/src/websocket.rs:106-133 | Subscribe appends and Unsubscribe removes the decoded subscription for the sender; a Heartbeat is echoed with the time to the sender's queue exactly when the sender is registered; other types and undecodable data change nothing; the client table never changes |
| WebSocket.BroadcastMarketEvent | crypto-monitor/docker-build-context/monitor-api/src/websocket.rs:135-146 | the market event goes once to every registered client with at least one subscription |
| WebSocket.BroadcastAnomalyEvent | crypto-monitor/docker-build-context/monitor-api/src/websocket.rs:148-157 | the anomaly goes once to every registered client with an "anomalies" or "all" subscription, and to no one else |
| WebSocket.BroadcastAlert | crypto-monitor/docker-build-context/monitor-api/src/websocket.rs:159-168 | the alert goes once to every registered client with an "alerts" or "all" subscription, and to no one else |
| WebSocket.RecipientsMonotone | crypto-monitor/docker-build-context/monitor-api/src/websocket.rs:141-167 | a filter that passes more subscriptions reaches at least the same clients |
| WebSocket.BroadcastAudiences | crypto-monitor/docker-build-context/monitor-api/src/websocket.rs:135-168 | anomaly and alert broadcasts reach a subset of the market broadcast's clients |
| WebSocket.AlertsOnlyClientMissesAnomalies | crypto-monitor/docker-build-context/monitor-api/src/websocket.rs:154-167 | a client subscribed only to "alerts" never receives an anomaly, and receives every alert once it is registered and has a subscription |
| WebSocket.UnsubscribeRemovesChannel | crypto-monitor/docker-build-context/monitor-api/src/websocket.rs:108-118 | unsubscribing after subscribing to a channel leaves no subscription to it, and the list is as if the subscription had never been added |
| DemoMonitor.DefaultDemoConfig | barter-data/examples/monitor_demo.rs:40-49 | a 2% price threshold, three times the average volume, a 100-trade window and 10-second reports |
| DemoMonitor.Initial | barter-data/examples/monitor_demo.rs:75-85 | a new monitor has no trades, no price moves, a zero last price and zero totals |
| DemoMonitor.ChangePct | barter-data/examples/monitor_demo.rs:92 | the size of a move is never negative and is zero exactly when the price did not change |
| DemoMonitor.Step | barter-data/examples/monitor_demo.rs:87-137 | `add_data_point` on values: the new state and the alert lines; `StepAlerts`, `StepBookkeeping` and `StepKeepsBounded` state its promise |
| DemoMonitor.StepAlerts | barter-data/examples/monitor_demo.rs:87-123 | at most two alert lines; the price line comes first and is there exactly when a previous price exists and the move beats the threshold; the volume line is last and is there exactly when ten trades are stored and the volume beats the multiple of their average; the anomaly count rises by the number of lines |
| DemoMonitor.StepBookkeeping | barter-data/examples/monitor_demo.rs:91-128 | every trade sets the last price, adds its volume and counts once, and a price move is recorded exactly when there was a previous price |
| DemoMonitor.SlideBounded | barter-data/examples/monitor_demo.rs:130-134 | the window ends with the new trade and never outgrows its size; a full window loses exactly its oldest trade |
| DemoMonitor.StepKeepsBounded | barter-data/examples/monitor_demo.rs:87-137 | every trade keeps the window within its size and the anomaly count at most two per trade |
| DemoMonitor.Volatility | barter-data/examples/monitor_demo.rs:146-154 | the volatility is never negative and is zero with at most one recorded move |
| DemoMonitor.SteadyMovesHaveNoVolatility | barter-data/examples/monitor_demo.rs:140-154 | moves that are all the same size have zero volatility |
| DemoMonitor.SymbolMonitor.constructor | barter-data/examples/monitor_demo.rs:75-85 | the monitor starts in the initial state for its symbol |
| DemoMonitor.SymbolMonitor.AddDataPoint | barter-data/examples/monitor_demo.rs:87-137 | the new fields and the alert lines are those of the step function, so every lemma about it holds of the monitor |
| DemoMonitor.SymbolMonitor.GetStatistics | barter-data/examples/monitor_demo.rs:139-160 | reports the totals and the volatility of the recorded price moves, zero with at most one move |
| DemoMonitor.MonitoringSystem.constructor | barter-data/examples/monitor_demo.rs:172-179 | no monitors and no events yet |
| DemoMonitor.MonitoringSystem.ProcessTrade | barter-data/examples/monitor_demo.rs:181-200 | the trade goes to its symbol's monitor, created on first use whatever the exchange; other monitors are untouched and the event count rises by one |
| DemoMonitor.SymbolSharedAcrossExchanges | barter-data/examples/monitor_demo.rs:192 | the same symbol traded on two exchanges feeds one monitor, which counts both trades |
| ImprovedDemo.DefaultImprovedConfig | barter-data/examples/monitor_demo_improved.rs:46-58 | a 3% price threshold, a volume multiplier from 5 up to 20, a 200-trade window, 10-second reports, 20 samples before detecting, and dynamic thresholds on |
| ImprovedDemo.SortAsc | barter-data/examples/monitor_demo_improved.rs:93-94 | the sorted copy is a permutation of the values |
| ImprovedDemo.SortAscOrders | barter-data/examples/monitor_demo_improved.rs:93-94 | the sorted copy is in ascending order |
| ImprovedDemo.InsertKeepsOrder | barter-data/examples/monitor_demo_improved.rs:93-94 | inserting a value into an ascending list keeps it ascending |
| ImprovedDemo.P95Index | barter-data/examples/monitor_demo_improved.rs:98 | the 95th-percentile index is always inside the list |
| ImprovedDemo.P95IsLastUpTo20 | barter-data/examples/monitor_demo_improved.rs:98 | the percentile index is the last index exactly when the list holds at most 20 values |
| ImprovedDemo.SmallSamplePercentileIsMax | barter-data/examples/monitor_demo_improved.rs:98 | for 1 to 20 values the reported 95th percentile equals the maximum |
| ImprovedDemo.Calculate | barter-data/examples/monitor_demo_improved.rs:82-107 | statistics exactly when there are values |
| ImprovedDemo.CalculateBounds | barter-data/examples/monitor_demo_improved.rs:82-107 | the minimum, maximum and 95th percentile are among the values; the minimum and maximum bound every value; the mean and the percentile lie between them; the standard deviation is not negative |
| ImprovedDemo.OrderStatistics | barter-data/examples/monitor_demo_improved.rs:96-97 | the first and last entries of a sorted permutation are the least and greatest values, and every entry is one of the values |
| ImprovedDemo.Initial | barter-data/examples/monitor_demo_improved.rs:127-141 | a new monitor has empty windows and histories, zero totals, no alert yet and the base volume multiplier |
| ImprovedDemo.PriceThreshold | barter-data/examples/monitor_demo_improved.rs:188-192 | the price threshold is never below the configured one; with dynamic thresholds it is at least the mean plus two standard deviations, otherwise it is the configured one |
| ImprovedDemo.Spread | barter-data/examples/monitor_demo_improved.rs:211 | the spread term never exceeds 2, including for a zero mean |
| ImprovedDemo.VolumeMultiplier | barter-data/examples/monitor_demo_improved.rs:209-214 | the adapted multiplier never exceeds the configured maximum |
| ImprovedDemo.PriceVerdict | barter-data/examples/monitor_demo_improved.rs:194-202 | at most one price line, counted as one anomaly; the windows, totals and volume multiplier are untouched |
| ImprovedDemo.PriceCheck | barter-data/examples/monitor_demo_improved.rs:176-204 | with a previous price the move is recorded in the sliding window of moves; without one nothing happens; at most one line, counted as an anomaly, and nothing else changes |
| ImprovedDemo.VolumeCheck | barter-data/examples/monitor_demo_improved.rs:207-234 | at most one volume line, counted as an anomaly; the multiplier is re-adapted exactly when there are statistics and dynamic thresholds are on; nothing else changes |
| ImprovedDemo.Step | barter-data/examples/monitor_demo_improved.rs:146-236 | `add_data_point` on values: record the trade, return nothing while warming up or cooling down, else the price check then the volume check; `StepRecords`, `QuietWhileWarmingOrCooling`, `PriceRule`, `VolumeRule` and `StepKeepsBounded` state its promise |
| ImprovedDemo.StepRecords | barter-data/examples/monitor_demo_improved.rs:146-236 | every call counts the trade, adds its volume, stores it in both windows and sets the last price, whichever way it returns |
| ImprovedDemo.QuietWhileWarmingOrCooling | barter-data/examples/monitor_demo_improved.rs:161-173 | with fewer stored trades than the minimum, or within two seconds of the last alert, nothing fires and only the recording and the last price change |
| ImprovedDemo.PriceRule | barter-data/examples/monitor_demo_improved.rs:176-204 | a price line needs detection to be on and a previous price, and the move must beat both the adapted threshold (never below the configured one) and the 95th percentile of the recorded moves |
| ImprovedDemo.VolumeRule | barter-data/examples/monitor_demo_improved.rs:207-234 | a volume line exactly when there are statistics and the volume beats both the mean times the multiplier in force and 1.5 times the 95th percentile; an alert sets the alert time, no alert leaves it; the adapted multiplier is capped |
| ImprovedDemo.SmallWindowPriceCheckQuiet | barter-data/examples/monitor_demo_improved.rs:176-204 | the price check is silent when the moves window, which ends with the new move, holds at most 20 moves |
| ImprovedDemo.SmallWindowVolumeCheckQuiet | barter-data/examples/monitor_demo_improved.rs:207-234 | the volume check is silent when the window holds at most 20 volumes ending with this non-negative volume |
| ImprovedDemo.StepLines | barter-data/examples/monitor_demo_improved.rs:146-236 | a step's lines are the price check's price lines followed by the volume check's volume lines, and none while warming up or cooling down |
| ImprovedDemo.NoPriceAlertWithin20Moves | barter-data/examples/monitor_demo_improved.rs:176-204 | a price line needs a previous price and more than 20 recorded moves, so with the defaults the price rule is silent for the first 20 moves judged after warm-up |
| ImprovedDemo.VolumeLines | barter-data/examples/monitor_demo_improved.rs:207-234 | the volume check's lines in a full step; `QuietVolumeLines` states that they are empty while the window of non-negative volumes holds at most 20 |
| ImprovedDemo.StepVolumeLines | barter-data/examples/monitor_demo_improved.rs:146-236 | every volume line of a step comes from the volume check |
| ImprovedDemo.QuietVolumeLines | barter-data/examples/monitor_demo_improved.rs:207-234 | with at most 20 volumes in the window, the newest being non-negative, the volume check gives no line |
| ImprovedDemo.NoVolumeAlertWithin20Volumes | barter-data/examples/monitor_demo_improved.rs:207-234 | a volume line of a non-negative volume needs more than 20 volumes in the window |
| ImprovedDemo.QuietWhileWindowsSmall | barter-data/examples/monitor_demo_improved.rs:146-236 | with at most 20 moves and 20 volumes, a trade of non-negative volume raises nothing |
| ImprovedDemo.SmallWindowVolumeAlertBeatsMaximum | barter-data/examples/monitor_demo_improved.rs:207-234 | with 1 to 20 recorded volumes, a volume line needs a volume above 1.5 times the largest of them |
| ImprovedDemo.StepVolumeWindow | barter-data/examples/monitor_demo_improved.rs:156-207 | the volume rule reads the volume window that already holds the new trade |
| ImprovedDemo.InitialBounded | barter-data/examples/monitor_demo_improved.rs:127-141 | a new monitor keeps its windows within bounds and its multiplier within the maximum, when the base does not exceed the maximum |
| ImprovedDemo.StepKeepsBounded | barter-data/examples/monitor_demo_improved.rs:143-238 | every trade keeps the three windows within the window size, at most two anomalies per trade and the multiplier within the maximum |
| ImprovedDemo.ChecksKeepBounded | barter-data/examples/monitor_demo_improved.rs:176-234 | the two checks together add at most two anomalies and keep every window within its size |
| ImprovedDemo.DetectionRate | barter-data/examples/monitor_demo_improved.rs:256-260 | the rate is zero before the first trade, never negative, and at most 200 per hundred trades while anomalies are at most two per trade |
| ImprovedDemo.SymbolMonitor.constructor | barter-data/examples/monitor_demo_improved.rs:127-141 | the monitor starts in the initial state |
| ImprovedDemo.SymbolMonitor.AddDataPoint | barter-data/examples/monitor_demo_improved.rs:143-238 | the new fields and the alert lines are those of the step function, so every lemma about it holds of the monitor |
| ImprovedDemo.SymbolMonitor.RecordTrade | barter-data/examples/monitor_demo_improved.rs:146-159 | counts the trade, adds its volume and slides both windows |
| ImprovedDemo.SymbolMonitor.CheckPrice | barter-data/examples/monitor_demo_improved.rs:176-204 | performs the price check of the step function |
| ImprovedDemo.SymbolMonitor.JudgePrice | barter-data/examples/monitor_demo_improved.rs:185-202 | performs the price verdict of the step function |
| ImprovedDemo.SymbolMonitor.CheckVolume | barter-data/examples/monitor_demo_improved.rs:207-234 | performs the volume check of the step function |
| ImprovedDemo.SymbolMonitor.GetStatistics | barter-data/examples/monitor_demo_improved.rs:240-267 | the symbol, last price, total volume, trade count and anomaly count as they stand; the volatility is the standard deviation of the recorded moves, zero without any; the average volume is the mean of the volume window (the `Calculate` mean), zero without volumes; the detection rate is as DetectionRate states |
| ImprovedDemo.MonitoringSystem.constructor | barter-data/examples/monitor_demo_improved.rs:281-290 | no monitors and all counters zero |
| ImprovedDemo.MonitoringSystem.ProcessTrade | barter-data/examples/monitor_demo_improved.rs:292-312 | the trade goes to its symbol's monitor, created on first use whatever the exchange; other monitors are untouched and the event count rises by one |
| ImprovedDemo.MonitoringSystem.HandleError | barter-data/examples/monitor_demo_improved.rs:314-325 | exactly one counter rises: the filtered one for a message containing "pong", "ping" or "subscription_id", the error count otherwise |
| ImprovedDemo.KnownNoise | barter-data/examples/monitor_demo_improved.rs:316 | a message is noise when it contains "pong", "ping" or "subscription_id"; `NoiseIsCaseSensitive` and `MonitoringSystem.HandleError` state its use |
| ImprovedDemo.NoiseIsCaseSensitive | barter-data/examples/monitor_demo_improved.rs:316 | the noise match is case-sensitive: "pong timeout" is noise and "Ping" is not |

## Left out

- Network and storage I/O is not modelled: Fluvio connections, topic creation and sends; Postgres; the HTTP server; the outbound Telegram, WeChat, e-mail and SMS channels. Where a decision depends on their answer, the answer is a parameter.
- Concurrency is not modelled. Locks, `DashMap`, `Arc<Mutex>`, spawned tasks and abort handles become one sequential call at a time. In particular, `update_positions` holds a map guard while `close_position` removes the same key, which would block in the real code. The sequential model does not reproduce that.
- Floating point is modelled as exact real arithmetic. Rounding, signed zero and summation order are not modelled. NaN and infinities appear only where a division by zero is not guarded (`Numerics.Float`). The flash-crash rule's folds from `f64::MIN` and `f64::MAX` are taken as the maximum and minimum of the (non-empty) prices.
- The square root is abstract (non-negative, zero at zero, monotone). Every contract that involves a standard deviation holds for any such function; none depends on its exact values.
- ImprovedDemo.P95Index: the index `(n as f64 * 0.95) as usize` is taken as the exact floor of 95·n/100. The f64 product can round differently for some n.
- MarketMetrics: the `as i64` cast of a price in cents truncates toward zero. Its saturation at the i64 bounds is not modelled.
- Iteration order of `HashMap` in `VolumeProfile::calculate` is modelled as the order of first appearance. The levels' sort is stable over that order.
- Clocks (`Utc::now`, `Instant`), `Uuid::new_v4` and the time formatting in messages are parameters.
- Free text is not modelled: anomaly descriptions, signal reasons, log lines, the demos' alert wording and number formatting, and the reports' text layout.
- `AnomalyDetectorManager::get_or_create_detector` (detector.rs:244-270) clones a type that cannot be cloned and is not modelled.
- AnomalyDetectors.AnomalyDetectorManager keeps each market's composite as the states of its two detectors, updated by the functions the composite's methods are proved against, rather than as composite objects on the heap.
- AnomalyDetectors.AnomalyDetector is a union of the two detector classes in place of a boxed trait object. Other implementations of the trait are not modelled.
- A `Position` is a value in the trader's map; `update_price` returns the updated copy.
- `get_positions`, `get_stats` and the other plain getters of the auto trader are not modelled.
- Engine.MonitorEngine.RegisterProducers: every topic is assumed to be created (or to exist already) and to get a producer. The failure paths of topic creation are not modelled.
- The engine's `start_market_data_collection`, `build_exchange_streams` (which returns no streams) and `get_event_sender` are not modelled.
- Reading the configuration file and the environment, and `save_to_file`, are not modelled. Deserialisation is a parameter of the source.
- NotificationManagement.NotificationManager.AddChannel: `add_channel` pushes from a spawned task, so the channel appears later. The model appends it at once.
- WebSocket: decoding a message's data as a `Subscription` is a parameter. The socket read and write tasks (websocket.rs:47-104) are not modelled.
- The `main` functions, the exchange stream set-up and `generate_report`'s printing in both demos are not modelled.

## Findings

| source | as written | input that shows it | evidently intended | confidence | as-written member | corrected member |
|---|---|---|---|---|---|---|
| crypto-monitor/monitor-anomaly/src/metrics.rs:60-67 | the RSI sums the moves between the window's oldest `period + 1` samples | samples [1, 2, 0] with period 1 give 100, although the latest move is a fall (the corrected RSI is 0) | the RSI of the latest `period + 1` samples | not executed | MarketMetrics.RsiIgnoresLatestMove | MarketMetrics.RsiOfLatestReadsNewest |

`MarketMetrics.MetricsCalculator.Rsi` models `calculate_rsi` as written (`RsiOf`). `MarketMetrics.RsiOfLatest` is the corrected definition; nothing else in the model depends on the RSI.

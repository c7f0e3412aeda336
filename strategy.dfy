/**
 * monitor-trader's `AnomalyBasedStrategy`: which anomalies become trading
 * signals. The signal's id is a parameter.
 */
module Strategy {
  import opened Numerics
  import opened MonitorCore
  import opened AnomalyWindow
  import opened TraderTypes

  /** The (side, strength) an anomaly maps to, if any. */
  function Decision(a: AnomalyDetection): (r: Option<(SignalType, SignalStrength)>)
    ensures r.Some? ==> r.value.0 != Hold
  {
    match a.anomalyType
    case VolumeSpike =>
      (match a.severity
       case Critical => Some((Buy, Strong))
       case High => Some((Buy, SignalStrength.Medium))
       case _ => None)
    case PriceSpike =>
      (match a.metrics.percentageChange
       case Some(pct) =>
         if pct.Less(-5.0) then Some((Buy, SignalStrength.Medium))
         else if pct.Greater(10.0) then Some((Sell, SignalStrength.Medium))
         else None
       case None => None)
    case _ => None
  }

  datatype AnomalyBasedStrategy = AnomalyBasedStrategy(config: TradingConfig) {

    /**
     * `analyze`: nothing while auto-trading is off; otherwise the decision for
     * the anomaly, as a signal at the anomaly's current value that points back
     * to the anomaly.
     */
    function Analyze(a: AnomalyDetection, signalId: Uuid): (r: Option<TradingSignal>)
      ensures !config.autoTradingEnabled ==> r == None
      ensures config.autoTradingEnabled ==> (r.Some? <==> Decision(a).Some?)
      ensures r.Some? ==>
        r.value.signalType == Decision(a).value.0 && r.value.strength == Decision(a).value.1 &&
        r.value.signalType != Hold
      ensures r.Some? ==>
        r.value.id == signalId && r.value.timestamp == a.timestamp &&
        r.value.symbol == a.symbol && r.value.exchange == a.exchange &&
        r.value.price == a.metrics.currentValue && r.value.anomalyId == Some(a.id)
    {
      if !config.autoTradingEnabled then None
      else
        match Decision(a)
        case None => None
        case Some((signalType, strength)) =>
          Some(TradingSignal(signalId, a.timestamp, a.symbol, a.exchange, signalType, strength,
                             a.metrics.currentValue, Some(a.id)))
    }

    /** `update_config`: the whole configuration is replaced. */
    function UpdateConfig(config: TradingConfig): (s: AnomalyBasedStrategy)
      ensures s.config == config
    {
      this.(config := config)
    }
  }

  /**
   * Volume spikes: Critical buys strongly, High buys at medium strength,
   * Medium and Low give nothing.
   */
  lemma VolumeSpikeSignals(a: AnomalyDetection)
    requires a.anomalyType == VolumeSpike
    ensures a.severity == AnomalySeverity.Critical ==> Decision(a) == Some((Buy, Strong))
    ensures a.severity == High ==> Decision(a) == Some((Buy, SignalStrength.Medium))
    ensures a.severity.Rank() < High.Rank() ==> Decision(a) == None
  {
  }

  /**
   * Price spikes: a fall of more than 5% buys, a rise of more than 10% sells,
   * anything in between (or no percentage) gives nothing.
   */
  lemma PriceSpikeSignals(a: AnomalyDetection, pct: real)
    requires a.anomalyType == PriceSpike && a.metrics.percentageChange == Some(Finite(pct))
    ensures pct < -5.0 ==> Decision(a) == Some((Buy, SignalStrength.Medium))
    ensures pct > 10.0 ==> Decision(a) == Some((Sell, SignalStrength.Medium))
    ensures -5.0 <= pct <= 10.0 ==> Decision(a) == None
  {
  }

  /** Only volume and price spikes ever lead to a signal. */
  lemma OnlySpikesSignal(a: AnomalyDetection)
    requires a.anomalyType != VolumeSpike && a.anomalyType != PriceSpike
    ensures Decision(a) == None
  {
  }
}

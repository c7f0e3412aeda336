/**
 * The plain types of monitor-core: events, their classification, the
 * configuration records and the error type. They carry no behaviour.
 * Uuids and timestamps are opaque numbers supplied by the caller; a
 * `serde_json::Value` is the small `Json` datatype below.
 */
module MonitorCore {

  datatype Option<T> = None | Some(value: T)

  type Uuid = nat
  type Timestamp = int

  datatype Json =
    | Null
    | Bool(b: bool)
    | Number(n: real)
    | Text(s: string)
    | Array(items: seq<Json>)
    | Object(fields: map<string, Json>)

  datatype MonitorError =
    | Fluvio(msg: string)
    | Barter(msg: string)
    | Database(msg: string)
    | Serialization(msg: string)
    | Configuration(msg: string)
    | Stream(msg: string)
    | Other(msg: string)

  datatype Result<T> = Ok(value: T) | Err(error: MonitorError)

  datatype EventSource = Exchange(name: string) | Monitor | Anomaly | Trading | User

  datatype MarketDataType = Trade | OrderBook | Candle | Volume | Liquidation

  datatype AnomalyType = VolumeSpike | PriceSpike | DepthImbalance | LargeOrder | UnusualActivity

  datatype TradeEventType = OrderPlaced | OrderFilled | OrderCancelled | PositionOpened | PositionClosed

  datatype AlertType = Info | Warning | Critical

  datatype SystemEventType = Started | Stopped | Connected | Disconnected | Error

  datatype EventType =
    | MarketData(dataType: MarketDataType)
    | Anomaly(anomalyType: AnomalyType)
    | Trade(tradeType: TradeEventType)
    | Alert(alertType: AlertType)
    | System(systemType: SystemEventType)

  datatype MonitorEvent = MonitorEvent(
    id: Uuid,
    timestamp: Timestamp,
    source: EventSource,
    eventType: EventType,
    data: Json)

  datatype ExchangeConfig = ExchangeConfig(
    name: string,
    enabled: bool,
    symbols: seq<string>,
    subscriptions: seq<string>)

  datatype FluvioConfig = FluvioConfig(
    endpoint: string,
    topicPrefix: string,
    partitions: nat,
    replicationFactor: nat)

  datatype DatabaseConfig = DatabaseConfig(url: string, maxConnections: nat, minConnections: nat)

  datatype AnomalyConfig = AnomalyConfig(
    volumeThresholdMultiplier: real,
    priceChangePercentage: real,
    lookbackWindowMinutes: nat,
    minSamples: nat)

  datatype AlertConfig = AlertConfig(
    telegramEnabled: bool,
    wechatEnabled: bool,
    emailEnabled: bool,
    smsEnabled: bool)

  datatype TradingConfig = TradingConfig(
    autoTradingEnabled: bool,
    maxPositionSize: real,
    riskPercentage: real,
    stopLossPercentage: real,
    takeProfitPercentage: real)

  datatype MonitoringConfig = MonitoringConfig(
    anomalyDetection: AnomalyConfig,
    alerting: AlertConfig,
    trading: TradingConfig)

  datatype MonitorConfig = MonitorConfig(
    exchanges: seq<ExchangeConfig>,
    fluvio: FluvioConfig,
    database: DatabaseConfig,
    monitoring: MonitoringConfig)

  /** The per-market key `format!("{}:{}", exchange, symbol)` used by the detectors and the trader. */
  function MarketKey(exchange: string, symbol: string): string {
    exchange + ":" + symbol
  }
}

/**
 * monitor-notifier's `Notification`: how an anomaly becomes an alert, and
 * the text layout every channel sends. The new id, the anomaly's
 * free-text description, its JSON form and the formatted time are
 * parameters.
 */
module Notifier {
  import opened MonitorCore
  import opened AnomalyWindow

  datatype Notification = Notification(
    id: Uuid,
    timestamp: Timestamp,
    alertType: AlertType,
    title: string,
    message: string,
    data: Option<Json>)

  /** The alert level for a severity: Critical stays Critical, High warns, the rest inform. */
  function AlertFor(severity: AnomalySeverity): (a: AlertType)
    ensures a == AlertType.Critical <==> severity == AnomalySeverity.Critical
    ensures a == Warning <==> severity == High
    ensures a == Info <==> severity.Rank() < High.Rank()
  {
    match severity
    case Critical => AlertType.Critical
    case High => Warning
    case _ => Info
  }

  /** The order of alert levels. */
  function AlertRank(a: AlertType): nat {
    match a
    case Info => 0
    case Warning => 1
    case Critical => 2
  }

  /** A more severe anomaly never gives a milder alert. */
  lemma AlertForMonotone(s: AnomalySeverity, t: AnomalySeverity)
    requires s.Rank() <= t.Rank()
    ensures AlertRank(AlertFor(s)) <= AlertRank(AlertFor(t))
  {
  }

  /** The `Debug` name of an anomaly type. */
  function TypeName(t: AnomalyType): string {
    match t
    case VolumeSpike => "VolumeSpike"
    case PriceSpike => "PriceSpike"
    case DepthImbalance => "DepthImbalance"
    case LargeOrder => "LargeOrder"
    case UnusualActivity => "UnusualActivity"
  }

  /**
   * `Notification::from_anomaly`: the alert level from the severity, the
   * anomaly's time, a "<type> detected on <exchange>/<symbol>" title and
   * the anomaly's description as the message.
   */
  function FromAnomaly(a: AnomalyDetection, id: Uuid, description: string, json: Json): (n: Notification)
    ensures n.alertType == AlertFor(a.severity) && n.timestamp == a.timestamp
    ensures n.message == description && n.data == Some(json) && n.id == id
    ensures n.title == TypeName(a.anomalyType) + " detected on " + a.exchange + "/" + a.symbol
  {
    Notification(id, a.timestamp, AlertFor(a.severity),
                 TypeName(a.anomalyType) + " detected on " + a.exchange + "/" + a.symbol,
                 description, Some(json))
  }

  /** The leading symbol of a message for each alert level. */
  function Emoji(a: AlertType): string {
    match a
    case Critical => "\U{1F6A8}"
    case Warning => "\U{26A0}\U{FE0F}"
    case Info => "\U{2139}\U{FE0F}"
  }

  /** Different alert levels lead with different symbols, so the level can be read back. */
  lemma EmojiDistinct(a: AlertType, b: AlertType)
    requires a != b
    ensures Emoji(a)[0] != Emoji(b)[0]
  {
  }

  /**
   * `format_notification_message`: the symbol, the title in bold, the
   * message, then the time in italics, separated by blank lines.
   */
  function FormatMessage(n: Notification, time: string): string {
    Emoji(n.alertType) + " *" + n.title + "*\n\n" + n.message + "\n\n_Time: " + time + "_"
  }

  /** The formatted text holds the title and the message verbatim at fixed places. */
  lemma FormatLayout(n: Notification, time: string)
    ensures var text, e := FormatMessage(n, time), Emoji(n.alertType);
      var titleAt := |e| + 2;
      var messageAt := titleAt + |n.title| + 3;
      |text| == messageAt + |n.message| + 9 + |time| + 1 &&
      text[..|e|] == e &&
      text[titleAt..titleAt + |n.title|] == n.title &&
      text[messageAt..messageAt + |n.message|] == n.message &&
      text[|text| - 1] == '_'
  {
    var e := Emoji(n.alertType);
    var text := FormatMessage(n, time);
    var head := e + " *";
    var withTitle := head + n.title;
    var withBreak := withTitle + "*\n\n";
    var withMessage := withBreak + n.message;
    assert text == withMessage + "\n\n_Time: " + time + "_";
    assert text[..|withMessage|] == withMessage;
    assert withMessage[..|withBreak|] == withBreak;
    assert withBreak[..|withTitle|] == withTitle;
    assert withTitle[|head|..] == n.title;
    assert withMessage[|withBreak|..] == n.message;
  }
}

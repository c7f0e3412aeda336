/**
 * monitor-core's `MonitorEngine`: the Fluvio topics, the routing of events
 * to them, the one-shot hand-over of the event receiver and the engine
 * task handle, and the wrapping of exchange market events.
 *
 * Fluvio itself is not modelled: the producers are the set of topics that
 * have one, serialisation success is a parameter, and a failed send is only
 * logged by the source. Task handles and receivers are opaque tokens.
 */
module Engine {
  import opened MonitorCore

  /** The six topics `initialize_topics` creates, in order. */
  function Topics(prefix: string): (ts: seq<string>)
    ensures |ts| == 6
  {
    [prefix + ".market.trades", prefix + ".market.orderbook", prefix + ".market.candles",
     prefix + ".anomalies", prefix + ".alerts", prefix + ".trades"]
  }

  /** The part of `process_event`'s topic that depends on the event type; `None` drops the event. */
  function TopicSuffix(t: EventType): (r: Option<string>)
    ensures r.None? <==> t.System? || (t.MarketData? && (t.dataType == Volume || t.dataType == Liquidation))
  {
    match t
    case MarketData(d) =>
      (match d
       case Trade => Some(".market.trades")
       case OrderBook => Some(".market.orderbook")
       case Candle => Some(".market.candles")
       case _ => None)
    case Anomaly(_) => Some(".anomalies")
    case Alert(_) => Some(".alerts")
    case Trade(_) => Some(".trades")
    case System(_) => None
  }

  /** The topic an event of type `t` goes to. */
  function TopicFor(prefix: string, t: EventType): (r: Option<string>)
    ensures r.Some? <==> TopicSuffix(t).Some?
  {
    match TopicSuffix(t)
    case Some(suffix) => Some(prefix + suffix)
    case None => None
  }

  /** Every routed topic is one of the six created topics. */
  lemma RoutedTopicCreated(prefix: string, t: EventType)
    requires TopicFor(prefix, t).Some?
    ensures TopicFor(prefix, t).value in Topics(prefix)
  {
  }

  /** Which of the six topics an event type feeds; equal for types routed alike. */
  function Route(t: EventType): (i: nat)
    requires TopicSuffix(t).Some?
    ensures i < 6
  {
    match t
    case MarketData(d) => if d == OrderBook then 1 else if d == Candle then 2 else 0
    case Anomaly(_) => 3
    case Alert(_) => 4
    case Trade(_) => 5
  }

  /**
   * Events of different kinds never share a topic: the topic names the
   * route, whatever the prefix.
   */
  lemma TopicsSeparateRoutes(prefix: string, t: EventType, u: EventType)
    requires TopicFor(prefix, t).Some? && TopicFor(prefix, u).Some?
    ensures TopicFor(prefix, t).value == Topics(prefix)[Route(t)]
    ensures TopicFor(prefix, t) == TopicFor(prefix, u) <==> Route(t) == Route(u)
  {
    var ts := Topics(prefix);
    forall i, j | 0 <= i < 6 && 0 <= j < 6 && ts[i] == ts[j]
      ensures i == j
    {
      var si, sj := ts[i][|prefix|..], ts[j][|prefix|..];
      assert ts[i] == prefix + si && ts[j] == prefix + sj;
      SuffixesDistinct(i, j, si, sj);
    }
    assert TopicFor(prefix, t).value == ts[Route(t)];
    assert TopicFor(prefix, u).value == ts[Route(u)];
  }

  /** The six suffixes are pairwise different. */
  lemma SuffixesDistinct(i: nat, j: nat, si: string, sj: string)
    requires i < 6 && j < 6
    requires si == [".market.trades", ".market.orderbook", ".market.candles", ".anomalies", ".alerts", ".trades"][i]
    requires sj == [".market.trades", ".market.orderbook", ".market.candles", ".anomalies", ".alerts", ".trades"][j]
    requires si == sj
    ensures i == j
  {
  }

  /**
   * `process_event`: the record sent to Fluvio, if any. It is sent only
   * when the event is routed, its topic has a producer and it serialises.
   */
  function Dispatch(prefix: string, producers: set<string>, event: MonitorEvent, serializes: bool): (sent: Option<(string, MonitorEvent)>)
    ensures sent.Some? <==> TopicFor(prefix, event.eventType).Some? && TopicFor(prefix, event.eventType).value in producers && serializes
    ensures sent.Some? ==> sent.value == (TopicFor(prefix, event.eventType).value, event)
  {
    match TopicFor(prefix, event.eventType)
    case None => None
    case Some(topic) =>
      if topic in producers && serializes then Some((topic, event)) else None
  }

  /** The event `process_exchange_streams` forwards for a market event received on `exchange`. */
  function WrapMarketEvent(exchange: string, id: Uuid, received: Timestamp, data: Json): (e: MonitorEvent)
    ensures e.source == Exchange(exchange) && e.eventType == MarketData(MarketDataType.Trade)
    ensures e.id == id && e.timestamp == received && e.data == data
  {
    MonitorEvent(id, received, Exchange(exchange), MarketData(MarketDataType.Trade), data)
  }

  /** A market event as the stream yields it: the fresh id, the receive time and the serialised payload. */
  datatype MarketEvent = MarketEvent(id: Uuid, received: Timestamp, data: Json)

  /**
   * `process_exchange_streams`: every market event of the combined streams
   * is wrapped and sent down the channel, in the order received.
   */
  method ProcessExchangeStreams(exchange: string, events: seq<MarketEvent>) returns (sent: seq<MonitorEvent>)
    ensures |sent| == |events|
    ensures forall i :: 0 <= i < |events| ==>
      sent[i] == WrapMarketEvent(exchange, events[i].id, events[i].received, events[i].data)
  {
    sent := [];
    var i := 0;
    while i < |events|
      invariant 0 <= i <= |events|
      invariant |sent| == i
      invariant forall k :: 0 <= k < i ==> sent[k] == WrapMarketEvent(exchange, events[k].id, events[k].received, events[k].data)
    {
      var m := events[i];
      sent := sent + [WrapMarketEvent(exchange, m.id, m.received, m.data)];
      i := i + 1;
    }
  }

  /** An opaque spawned task. */
  datatype TaskHandle = TaskHandle(task: nat)

  /** The receiving end of the engine's event channel. */
  datatype Receiver = Receiver(channel: nat)

  class MonitorEngine {
    const config: MonitorConfig
    var producers: set<string>
    var engineHandle: Option<TaskHandle>
    var eventRx: Option<Receiver>

    /** `new`, once connected: no producers, no task, the receiver still held. */
    constructor (config: MonitorConfig, rx: Receiver)
      ensures this.config == config && producers == {} && engineHandle == None && eventRx == Some(rx)
    {
      this.config := config;
      producers := {};
      engineHandle := None;
      eventRx := Some(rx);
    }

    /** The topics `initialize_topics` registers a producer for, once each is created. */
    method RegisterProducers()
      modifies this
      ensures producers == old(producers) + set t | t in Topics(config.fluvio.topicPrefix)
      ensures engineHandle == old(engineHandle) && eventRx == old(eventRx)
    {
      var topics := Topics(config.fluvio.topicPrefix);
      var i := 0;
      while i < |topics|
        invariant 0 <= i <= |topics|
        invariant producers == old(producers) + set t | t in topics[..i]
        invariant engineHandle == old(engineHandle) && eventRx == old(eventRx)
      {
        producers := producers + {topics[i]};
        i := i + 1;
        assert topics[..i] == topics[..i - 1] + [topics[i - 1]];
      }
      assert topics[..i] == topics;
    }

    /**
     * `start_event_processing`: takes the receiver and stores the new engine task's
     * handle; once the receiver is gone it fails and changes nothing.
     */
    method StartEventProcessing(task: TaskHandle) returns (r: Result<()>)
      modifies this
      ensures producers == old(producers)
      ensures old(eventRx).Some? ==> r == Ok(()) && eventRx == None && engineHandle == Some(task)
      ensures old(eventRx).None? ==>
        r == Err(Other("Event receiver already taken")) && eventRx == None && engineHandle == old(engineHandle)
    {
      if eventRx.None? {
        return Err(Other("Event receiver already taken"));
      }
      eventRx := None;
      engineHandle := Some(task);
      r := Ok(());
    }

    /** `stop`: takes the handle (returned here as the aborted engine task) and always succeeds. */
    method Stop() returns (r: Result<()>, aborted: Option<TaskHandle>)
      modifies this
      ensures r == Ok(()) && aborted == old(engineHandle) && engineHandle == None
      ensures producers == old(producers) && eventRx == old(eventRx)
    {
      aborted := engineHandle;
      engineHandle := None;
      r := Ok(());
    }

    /** `process_event` with this engine's prefix and producers. */
    function ProcessEvent(event: MonitorEvent, serializes: bool): (sent: Option<(string, MonitorEvent)>)
      reads this
      ensures sent.Some? ==> sent.value.0 in producers && sent.value.1 == event
    {
      Dispatch(config.fluvio.topicPrefix, producers, event, serializes)
    }
  }

  /**
   * The receiver can be taken once: a second `start_event_processing` fails,
   * and stopping twice aborts the engine task once.
   */
  method StartStopTwice(config: MonitorConfig, rx: Receiver, task: TaskHandle, other: TaskHandle)
    returns (first: Result<()>, second: Result<()>, aborted1: Option<TaskHandle>, aborted2: Option<TaskHandle>)
    ensures first == Ok(()) && second == Err(Other("Event receiver already taken"))
    ensures aborted1 == Some(task) && aborted2 == None
  {
    var engine := new MonitorEngine(config, rx);
    first := engine.StartEventProcessing(task);
    second := engine.StartEventProcessing(other);
    var r1, r2;
    r1, aborted1 := engine.Stop();
    r2, aborted2 := engine.Stop();
  }
}

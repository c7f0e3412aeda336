/**
 * monitor-api's WebSocket protocol: what a message from a client does to
 * the subscription tables, and which clients each kind of broadcast
 * reaches.
 *
 * Decoding a message's data as a `Subscription` is a parameter (`None`
 * when the JSON does not decode), and so is the heartbeat's time. The
 * socket tasks that carry messages to and from the client are not
 * modelled.
 */
module WebSocket {
  import opened MonitorCore
  import opened ApiState

  /** `broadcast_market_event`'s filter: every subscription passes. */
  predicate MarketFilter(sub: Subscription) {
    true
  }

  /** `broadcast_anomaly_event`'s filter. */
  predicate AnomalyFilter(sub: Subscription) {
    sub.channel == "anomalies" || sub.channel == "all"
  }

  /** `broadcast_alert`'s filter. */
  predicate AlertFilter(sub: Subscription) {
    sub.channel == "alerts" || sub.channel == "all"
  }

  /**
   * `handle_client_message`: Subscribe adds and Unsubscribe removes the
   * decoded subscription for the sending client, Heartbeat is echoed to the
   * sender's own queue when it is registered, and anything else (or data
   * that does not decode) changes nothing.
   */
  method HandleClientMessage(state: AppState, msg: WsMessage, decoded: Option<Subscription>,
                             clientId: Uuid, now: string)
    returns (echo: Option<(Sender, WsMessage)>)
    modifies state
    ensures state.clients == old(state.clients)
    ensures msg.msgType == Subscribe && decoded.Some? && clientId in old(state.subscriptions) ==>
      state.subscriptions == old(state.subscriptions)[clientId := old(state.subscriptions)[clientId] + [decoded.value]]
    ensures msg.msgType == Subscribe && decoded.Some? && clientId !in old(state.subscriptions) ==>
      state.subscriptions == old(state.subscriptions)[clientId := [decoded.value]]
    ensures msg.msgType == Unsubscribe && decoded.Some? && clientId in old(state.subscriptions) ==>
      state.subscriptions == old(state.subscriptions)[clientId :=
        WithoutChannel(old(state.subscriptions)[clientId], decoded.value.channel)]
    ensures msg.msgType == Unsubscribe && decoded.Some? && clientId !in old(state.subscriptions) ==>
      state.subscriptions == old(state.subscriptions)
    ensures (msg.msgType != Subscribe && msg.msgType != Unsubscribe) || decoded.None? ==>
      state.subscriptions == old(state.subscriptions)
    ensures echo.Some? <==> msg.msgType == Heartbeat && clientId in state.clients
    ensures echo.Some? ==>
      echo.value == (state.clients[clientId], WsMessage(Heartbeat, Object(map["timestamp" := Text(now)])))
  {
    echo := None;
    match msg.msgType
    case Subscribe =>
      if decoded.Some? {
        state.AddSubscription(clientId, decoded.value);
      }
    case Unsubscribe =>
      if decoded.Some? {
        state.RemoveSubscription(clientId, decoded.value);
      }
    case Heartbeat =>
      var tx := state.GetWebsocketClient(clientId);
      if tx.Some? {
        echo := Some((tx.value, WsMessage(Heartbeat, Object(map["timestamp" := Text(now)]))));
      }
    case _ =>
  }

  /** `broadcast_market_event`: a MarketData message to every client that subscribed to anything. */
  method BroadcastMarketEvent(state: AppState, event: Json) returns (delivered: seq<Uuid>)
    ensures forall id :: id in delivered <==>
      (id in state.clients && id in state.subscriptions && |state.subscriptions[id]| > 0)
    ensures forall i, j :: 0 <= i < j < |delivered| ==> delivered[i] != delivered[j]
  {
    delivered := state.BroadcastToSubscribers(WsMessage(WsMessageType.MarketData, event), MarketFilter);
    forall id | id in state.subscriptions
      ensures AnyPasses(state.subscriptions[id], MarketFilter) <==> |state.subscriptions[id]| > 0
    {
      if |state.subscriptions[id]| > 0 {
        assert MarketFilter(state.subscriptions[id][0]);
      }
    }
  }

  /** `broadcast_anomaly_event`: an Anomaly message to the "anomalies" and "all" subscribers. */
  method BroadcastAnomalyEvent(state: AppState, anomaly: Json) returns (delivered: seq<Uuid>)
    ensures forall id :: id in delivered <==> id in Recipients(state.clients, state.subscriptions, AnomalyFilter)
    ensures forall i, j :: 0 <= i < j < |delivered| ==> delivered[i] != delivered[j]
  {
    delivered := state.BroadcastToSubscribers(WsMessage(WsMessageType.Anomaly, anomaly), AnomalyFilter);
  }

  /** `broadcast_alert`: an Alert message to the "alerts" and "all" subscribers. */
  method BroadcastAlert(state: AppState, alert: Json) returns (delivered: seq<Uuid>)
    ensures forall id :: id in delivered <==> id in Recipients(state.clients, state.subscriptions, AlertFilter)
    ensures forall i, j :: 0 <= i < j < |delivered| ==> delivered[i] != delivered[j]
  {
    delivered := state.BroadcastToSubscribers(WsMessage(WsMessageType.Alert, alert), AlertFilter);
  }

  /** A filter that lets through more subscriptions reaches at least the same clients. */
  lemma RecipientsMonotone(clients: map<Uuid, Sender>, subscriptions: map<Uuid, seq<Subscription>>,
                           f: Subscription -> bool, g: Subscription -> bool)
    requires forall s :: f(s) ==> g(s)
    ensures Recipients(clients, subscriptions, f) <= Recipients(clients, subscriptions, g)
  {
    forall id | id in Recipients(clients, subscriptions, f)
      ensures id in Recipients(clients, subscriptions, g)
    {
      var i :| 0 <= i < |subscriptions[id]| && f(subscriptions[id][i]);
      assert g(subscriptions[id][i]);
    }
  }

  /** Anomaly and alert broadcasts reach a subset of the market broadcast's clients. */
  lemma BroadcastAudiences(clients: map<Uuid, Sender>, subscriptions: map<Uuid, seq<Subscription>>)
    ensures Recipients(clients, subscriptions, AnomalyFilter) <= Recipients(clients, subscriptions, MarketFilter)
    ensures Recipients(clients, subscriptions, AlertFilter) <= Recipients(clients, subscriptions, MarketFilter)
  {
    RecipientsMonotone(clients, subscriptions, AnomalyFilter, MarketFilter);
    RecipientsMonotone(clients, subscriptions, AlertFilter, MarketFilter);
  }

  /** A client whose only subscriptions are to "alerts" never receives an anomaly. */
  lemma AlertsOnlyClientMissesAnomalies(clients: map<Uuid, Sender>, subscriptions: map<Uuid, seq<Subscription>>,
                                         id: Uuid)
    requires id in subscriptions
    requires forall i :: 0 <= i < |subscriptions[id]| ==> subscriptions[id][i].channel == "alerts"
    ensures id !in Recipients(clients, subscriptions, AnomalyFilter)
    ensures id in clients && |subscriptions[id]| > 0 ==> id in Recipients(clients, subscriptions, AlertFilter)
  {
    if id in clients && |subscriptions[id]| > 0 {
      assert AlertFilter(subscriptions[id][0]);
    }
  }

  /** Unsubscribing from a channel after subscribing to it leaves no subscription to it. */
  lemma UnsubscribeRemovesChannel(subs: seq<Subscription>, sub: Subscription)
    ensures forall s :: s in WithoutChannel(subs + [sub], sub.channel) ==> s.channel != sub.channel
    ensures WithoutChannel(subs + [sub], sub.channel) == WithoutChannel(subs, sub.channel)
  {
    assert (subs + [sub])[..|subs + [sub]| - 1] == subs;
  }
}

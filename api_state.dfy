/**
 * monitor-api's `AppState`: the table of connected WebSocket clients and
 * the table of their subscriptions, and the broadcast that sends a message
 * to every client with a subscription passing a filter.
 *
 * The two concurrent maps are plain maps changed one call at a time. A
 * client's outgoing queue is named by a `Sender` handle, and a broadcast
 * returns the clients it enqueued the message for, in the order it
 * reached them. The database pool and the Fluvio client are not modelled.
 */
module ApiState {
  import opened MonitorCore

  /** The handle of a client's outgoing message queue. */
  type Sender = nat

  /** A client's subscription (declared in websocket.rs). */
  datatype Subscription = Subscription(channel: string, symbols: seq<string>, exchanges: seq<string>)

  datatype WsMessageType = Subscribe | Unsubscribe | MarketData | Anomaly | Alert | Trade | Heartbeat

  /** A message exchanged with a client (declared in websocket.rs). */
  datatype WsMessage = WsMessage(msgType: WsMessageType, data: Json)

  /** Some subscription in the list passes the filter. */
  predicate AnyPasses(subs: seq<Subscription>, filter: Subscription -> bool) {
    exists i :: 0 <= i < |subs| && filter(subs[i])
  }

  /** The clients a broadcast with `filter` reaches: registered, with a passing subscription. */
  function Recipients(clients: map<Uuid, Sender>, subscriptions: map<Uuid, seq<Subscription>>,
                      filter: Subscription -> bool): (r: set<Uuid>)
    ensures forall id :: id in r <==>
      (id in subscriptions && id in clients && AnyPasses(subscriptions[id], filter))
  {
    set id | id in subscriptions && id in clients && AnyPasses(subscriptions[id], filter)
  }

  /** The list with every subscription to `channel` dropped, the others kept in order. */
  function WithoutChannel(subs: seq<Subscription>, channel: string): (r: seq<Subscription>)
    ensures |r| <= |subs|
    ensures forall s :: s in r <==> s in subs && s.channel != channel
  {
    if subs == [] then []
    else
      var rest := WithoutChannel(subs[..|subs| - 1], channel);
      var last := subs[|subs| - 1];
      assert subs == subs[..|subs| - 1] + [last];
      if last.channel != channel then rest + [last] else rest
  }

  /** Dropping a channel twice is dropping it once. */
  lemma {:induction false} WithoutChannelIdempotent(subs: seq<Subscription>, channel: string)
    ensures WithoutChannel(WithoutChannel(subs, channel), channel) == WithoutChannel(subs, channel)
  {
    if subs != [] {
      var init := subs[..|subs| - 1];
      WithoutChannelIdempotent(init, channel);
      var rest := WithoutChannel(init, channel);
      var last := subs[|subs| - 1];
      if last.channel != channel {
        assert (rest + [last])[..|rest + [last]| - 1] == rest;
      }
    }
  }

  /** A list in which no subscription is to `channel` is left as it is. */
  lemma {:induction false} WithoutAbsentChannel(subs: seq<Subscription>, channel: string)
    requires forall i :: 0 <= i < |subs| ==> subs[i].channel != channel
    ensures WithoutChannel(subs, channel) == subs
  {
    if subs != [] {
      WithoutAbsentChannel(subs[..|subs| - 1], channel);
      assert subs == subs[..|subs| - 1] + [subs[|subs| - 1]];
    }
  }

  class AppState {
    var clients: map<Uuid, Sender>
    var subscriptions: map<Uuid, seq<Subscription>>

    constructor ()
      ensures clients == map[] && subscriptions == map[]
    {
      clients := map[];
      subscriptions := map[];
    }

    /** `add_websocket_client`: the client's queue is (re)registered; subscriptions are untouched. */
    method AddWebsocketClient(clientId: Uuid, tx: Sender)
      modifies this
      ensures clients == old(clients)[clientId := tx]
      ensures subscriptions == old(subscriptions)
    {
      clients := clients[clientId := tx];
    }

    /** `remove_websocket_client`: the client's queue and all its subscriptions go. */
    method RemoveWebsocketClient(clientId: Uuid)
      modifies this
      ensures clients == old(clients) - {clientId}
      ensures subscriptions == old(subscriptions) - {clientId}
    {
      clients := clients - {clientId};
      subscriptions := subscriptions - {clientId};
    }

    /** `get_websocket_client`: the client's queue, if it is registered. */
    function GetWebsocketClient(clientId: Uuid): (r: Option<Sender>)
      reads this
      ensures r.Some? <==> clientId in clients
      ensures r.Some? ==> r.value == clients[clientId]
    {
      if clientId in clients then Some(clients[clientId]) else None
    }

    /**
     * `add_subscription`: the subscription goes last in the client's list,
     * which starts empty when the client had none.
     */
    method AddSubscription(clientId: Uuid, sub: Subscription)
      modifies this
      ensures clientId in old(subscriptions) ==>
        subscriptions == old(subscriptions)[clientId := old(subscriptions)[clientId] + [sub]]
      ensures clientId !in old(subscriptions) ==>
        subscriptions == old(subscriptions)[clientId := [sub]]
      ensures clients == old(clients)
    {
      if clientId in subscriptions {
        subscriptions := subscriptions[clientId := subscriptions[clientId] + [sub]];
      } else {
        subscriptions := subscriptions[clientId := [sub]];
      }
    }

    /**
     * `remove_subscription`: every subscription of the client to the same
     * channel is dropped, the rest stay in order; an unknown client changes
     * nothing.
     */
    method RemoveSubscription(clientId: Uuid, sub: Subscription)
      modifies this
      ensures clientId in old(subscriptions) ==>
        subscriptions == old(subscriptions)[clientId := WithoutChannel(old(subscriptions)[clientId], sub.channel)]
      ensures clientId !in old(subscriptions) ==> subscriptions == old(subscriptions)
      ensures clients == old(clients)
    {
      if clientId in subscriptions {
        var subs := subscriptions[clientId];
        var kept := [];
        var i := 0;
        while i < |subs|
          invariant 0 <= i <= |subs|
          invariant kept == WithoutChannel(subs[..i], sub.channel)
        {
          assert subs[..i + 1][..i] == subs[..i];
          if subs[i].channel != sub.channel {
            kept := kept + [subs[i]];
          }
          i := i + 1;
        }
        assert subs[..i] == subs;
        subscriptions := subscriptions[clientId := kept];
      }
    }

    /**
     * `broadcast_to_subscribers`: the message is enqueued once for every
     * registered client with a subscription passing the filter, and for no
     * one else, however many of its subscriptions pass.
     */
    method BroadcastToSubscribers(message: WsMessage, filter: Subscription -> bool) returns (delivered: seq<Uuid>)
      ensures forall i, j :: 0 <= i < j < |delivered| ==> delivered[i] != delivered[j]
      ensures forall id :: id in delivered <==> id in Recipients(clients, subscriptions, filter)
    {
      delivered := [];
      var todo := subscriptions.Keys;
      while todo != {}
        invariant todo <= subscriptions.Keys
        invariant forall id :: id in delivered <==>
          (id !in todo && id in Recipients(clients, subscriptions, filter))
        invariant forall i, j :: 0 <= i < j < |delivered| ==> delivered[i] != delivered[j]
        decreases |todo|
      {
        var id :| id in todo;
        if AnyPasses(subscriptions[id], filter) && id in clients {
          delivered := delivered + [id];
        }
        todo := todo - {id};
      }
    }
  }
}

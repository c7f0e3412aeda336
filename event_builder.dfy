/**
 * monitor-core's `EventBuilder`: a by-value builder of `MonitorEvent`s.
 * The id and the timestamp that `new` draws are parameters.
 */
module Events {
  import opened MonitorCore

  datatype EventBuilder = EventBuilder(
    id: Uuid,
    timestamp: Timestamp,
    source: Option<EventSource>,
    eventType: Option<EventType>,
    data: Option<Json>)
  {
    /** `with_source`: sets the source and nothing else. */
    function WithSource(source: EventSource): (b: EventBuilder)
      ensures b.source == Some(source)
      ensures b.id == id && b.timestamp == timestamp && b.eventType == eventType && b.data == data
    {
      this.(source := Some(source))
    }

    /** `with_type`: sets the event type and nothing else. */
    function WithType(eventType: EventType): (b: EventBuilder)
      ensures b.eventType == Some(eventType)
      ensures b.id == id && b.timestamp == timestamp && b.source == source && b.data == data
    {
      this.(eventType := Some(eventType))
    }

    /** `with_data`: sets the payload and nothing else. */
    function WithData(data: Json): (b: EventBuilder)
      ensures b.data == Some(data)
      ensures b.id == id && b.timestamp == timestamp && b.source == source && b.eventType == eventType
    {
      this.(data := Some(data))
    }

    /**
     * `build`: an event exactly when both the source and the type were set;
     * an unset payload becomes `Null`, and the id and timestamp are carried over.
     */
    function Build(): (e: Option<MonitorEvent>)
      ensures e.Some? <==> source.Some? && eventType.Some?
      ensures e.Some? ==>
        e.value.id == id && e.value.timestamp == timestamp &&
        e.value.source == source.value && e.value.eventType == eventType.value &&
        e.value.data == (if data.Some? then data.value else Null)
    {
      match (source, eventType)
      case (Some(s), Some(t)) => Some(MonitorEvent(id, timestamp, s, t, if data.Some? then data.value else Null))
      case _ => None
    }
  }

  /** `EventBuilder::new`: nothing set yet. */
  function NewBuilder(id: Uuid, now: Timestamp): (b: EventBuilder)
    ensures b.id == id && b.timestamp == now
    ensures b.source == None && b.eventType == None && b.data == None
  {
    EventBuilder(id, now, None, None, None)
  }

  /**
   * Setting all three fields, in any order, builds the event they describe;
   * leaving out the payload builds it with `Null`.
   */
  lemma BuildAll(id: Uuid, now: Timestamp, s: EventSource, t: EventType, d: Json)
    ensures NewBuilder(id, now).WithSource(s).WithType(t).WithData(d).Build() == Some(MonitorEvent(id, now, s, t, d))
    ensures NewBuilder(id, now).WithData(d).WithType(t).WithSource(s).Build() == Some(MonitorEvent(id, now, s, t, d))
    ensures NewBuilder(id, now).WithType(t).WithSource(s).Build() == Some(MonitorEvent(id, now, s, t, Null))
  {
  }

  /** A builder without a source, or without a type, builds nothing whatever else is set. */
  lemma BuildNeedsSourceAndType(id: Uuid, now: Timestamp, s: EventSource, t: EventType, d: Json)
    ensures NewBuilder(id, now).WithType(t).WithData(d).Build() == None
    ensures NewBuilder(id, now).WithSource(s).WithData(d).Build() == None
  {
  }

  /** The setters touch disjoint fields, so their order never matters. */
  lemma SettersCommute(b: EventBuilder, s: EventSource, t: EventType, d: Json)
    ensures b.WithSource(s).WithType(t) == b.WithType(t).WithSource(s)
    ensures b.WithSource(s).WithData(d) == b.WithData(d).WithSource(s)
    ensures b.WithType(t).WithData(d) == b.WithData(d).WithType(t)
  {
  }
}

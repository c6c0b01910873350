/** The tracked event. Its class is outside the adapter sources, so it is kept
    minimal: five fields, a property lookup and the two setters the adapters call. */
module Events {
  import opened Php

  /** A snapshot of an event's fields; `eventType` is what the event calls its type
      ("pageview" or the name of a custom action). */
  datatype EventData = EventData(name: string, eventType: string, url: string, value: Value, props: seq<Pair<Value>>)

  /** `getProp`: the stored property, or null when the event has none under `key`. */
  function Prop(ev: EventData, key: string): Value {
    Lookup(ev.props, key).GetOr(Null)
  }

  class Event {
    var name: string
    var eventType: string
    var url: string
    var value: Value
    var props: seq<Pair<Value>>

    constructor (name: string, eventType: string, url: string, value: Value, props: seq<Pair<Value>>)
      ensures Data() == EventData(name, eventType, url, value, props)
    {
      this.name, this.eventType, this.url, this.value, this.props := name, eventType, url, value, props;
    }

    function Data(): EventData
      reads this
    {
      EventData(name, eventType, url, value, props)
    }

    /** `getProp`. */
    function GetProp(key: string): Value
      reads this
    {
      Prop(Data(), key)
    }

    method SetProps(props: seq<Pair<Value>>)
      modifies this`props
      ensures this.props == props
    {
      this.props := props;
    }

    method SetType(eventType: string)
      modifies this`eventType
      ensures this.eventType == eventType
    {
      this.eventType := eventType;
    }
  }
}

/** The abstract `send` of an adapter, resolved by its backend, and the total
    wrapper `createEvent` around it. They live apart from the adapter class
    because each backend's `send` needs the class. */
module Dispatch {
  import opened Wrappers
  import opened Php
  import opened Http
  import opened Events
  import opened Adapters
  import GoogleAnalytics
  import Plausible

  /** What `send` yields for the event in the adapter's current state. */
  ghost function Expected(a: Adapter, ev: EventData): Result<bool, Failure>
    requires a.Valid()
    reads a, a.runtime
  {
    if !a.enabled then Ok(false)
    else
      match a.backend
      case GoogleAnalyticsConfig(_, _) =>
        GoogleAnalytics.HitOutcome(a.endpoint, a.runtime.NextReply(), a.runtime.lib)
      case PlausibleConfig(domain, apiKey) =>
        Plausible.Exchange(a.endpoint, domain, apiKey, a.clientIP.value, a.userAgent, ev, a.runtime.NextReply(),
                           a.runtime.script(|a.runtime.sent| + 1), a.runtime.lib.jsonDecode).0
  }

  /** The requests `send` issues for the event in the adapter's current state,
      in order. */
  ghost function ExpectedRequests(a: Adapter, ev: EventData): seq<Request>
    requires a.Valid()
    reads a, a.runtime
  {
    if !a.enabled then []
    else
      match a.backend
      case GoogleAnalyticsConfig(tid, cid) =>
        [GoogleAnalytics.Hit(a.endpoint, tid, cid, a.clientIP, a.userAgent, a.runtime.lib, ev)]
      case PlausibleConfig(domain, apiKey) =>
        Plausible.Exchange(a.endpoint, domain, apiKey, a.clientIP.value, a.userAgent, ev, a.runtime.NextReply(),
                           a.runtime.script(|a.runtime.sent| + 1), a.runtime.lib.jsonDecode).1
  }

  /** The event as `send` leaves it: an enabled Google Analytics adapter
      rewrites it in place, anything else leaves it alone. */
  ghost function ExpectedEvent(a: Adapter, ev: EventData): EventData
    reads a
  {
    if a.enabled && a.backend.GoogleAnalyticsConfig? then GoogleAnalytics.Prepared(ev) else ev
  }

  /** How many calls `send` makes: none while disabled (and then it answers
      false), one hit for Google Analytics, and for Plausible the PUT alone or
      the PUT and the POST, the latter exactly when it answers true. */
  lemma SendCallCount(a: Adapter, ev: EventData)
    requires a.Valid()
    ensures !a.enabled ==> ExpectedRequests(a, ev) == [] && Expected(a, ev) == Ok(false)
    ensures a.enabled && a.backend.GoogleAnalyticsConfig? ==> |ExpectedRequests(a, ev)| == 1
    ensures a.enabled && a.backend.PlausibleConfig? ==>
              && 1 <= |ExpectedRequests(a, ev)| <= 2
              && (Expected(a, ev).Ok? ==> Expected(a, ev).value && |ExpectedRequests(a, ev)| == 2)
  {
    if a.enabled && a.backend.PlausibleConfig? {
      Plausible.OnlyTrueOrFailure(a.endpoint, a.backend.domain, a.backend.apiKey, a.clientIP.value, a.userAgent, ev,
                                  a.runtime.NextReply(), a.runtime.script(|a.runtime.sent| + 1), a.runtime.lib.jsonDecode);
    }
  }

  /** `send`, dispatched on the backend. */
  method Send(a: Adapter, e: Event) returns (r: Result<bool, Failure>)
    requires a.Valid()
    modifies e, a.runtime`sent
    ensures r == old(Expected(a, e.Data()))
    ensures a.runtime.sent == old(a.runtime.sent) + old(ExpectedRequests(a, e.Data()))
    ensures e.Data() == old(ExpectedEvent(a, e.Data()))
    ensures !old(a.enabled) ==> a.runtime.sent == old(a.runtime.sent)
  {
    match a.backend {
      case GoogleAnalyticsConfig(_, _) =>
        r := GoogleAnalytics.Send(a, e);
      case PlausibleConfig(_, _) =>
        r := Plausible.Send(a, e);
    }
  }

  /** `createEvent`: `send`'s answer when it completes; false, after logging
      the failure under the adapter's name, when it raises. */
  method CreateEvent(a: Adapter, e: Event) returns (ok: bool)
    requires a.Valid()
    modifies e, a.runtime`sent, a.runtime`console
    ensures var expected := old(Expected(a, e.Data()));
            && ok == (expected.Ok? && expected.value)
            && a.runtime.console == old(a.runtime.console) + (if expected.Err? then [LogEntry(a.Name(), expected.error)] else [])
    ensures a.runtime.sent == old(a.runtime.sent) + old(ExpectedRequests(a, e.Data()))
    ensures e.Data() == old(ExpectedEvent(a, e.Data()))
    ensures !old(a.enabled) ==> !ok && a.runtime.sent == old(a.runtime.sent) && a.runtime.console == old(a.runtime.console)
  {
    var result := Send(a, e);
    match result {
      case Ok(sent) =>
        ok := sent;
      case Err(failure) =>
        a.runtime.Log(LogEntry(a.Name(), failure));
        ok := false;
    }
  }
}

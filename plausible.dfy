/** The Plausible adapter: provision the event's goal with a PUT, then POST the event. */
module Plausible {
  import opened Wrappers
  import opened Php
  import opened Http
  import opened Events
  import opened Adapters

  const GOALS_PATH := "/v1/sites/goals"
  const EVENT_PATH := "/event"
  const FORM := "application/x-www-form-urlencoded"

  // ---------------------------------------------------------------------
  // The two requests
  // ---------------------------------------------------------------------

  /** The parameters of the goal provisioning request. */
  function GoalParams(domain: string, eventName: string): seq<Pair<Value>> {
    [Pair("site_id", Str(domain)), Pair("goal_type", Str("event")), Pair("event_name", Str(eventName))]
  }

  /** The headers of the goal provisioning request. */
  function GoalHeaders(apiKey: string): seq<Pair<string>> {
    [Pair("Content-Type", FORM), Pair("Authorization", "Bearer " + apiKey)]
  }

  /** The parameters of the event request; nothing is filtered out. */
  function EventParams(ev: EventData, domain: string): seq<Pair<Value>> {
    [ Pair("url", Str(ev.url)),
      Pair("props", Arr(ev.props)),
      Pair("domain", Str(domain)),
      Pair("name", Str(ev.eventType)),
      Pair("referrer", Prop(ev, "referrer")),
      Pair("screen_width", Prop(ev, "screenWidth")) ]
  }

  /** The headers of the event request. */
  function EventHeaders(clientIP: string, userAgent: string): seq<Pair<string>> {
    [Pair("X-Forwarded-For", clientIP), Pair("User-Agent", userAgent), Pair("Content-Type", JSON)]
  }

  /** The provisioning request as sent. */
  function GoalPut(endpoint: string, domain: string, apiKey: string, eventName: string): Request {
    Request("PUT", Url(endpoint + GOALS_PATH, None),
            HeaderLines(GoalHeaders(apiKey)),
            Some(UrlEncoded(GoalParams(domain, eventName))))
  }

  /** The event request as sent. */
  function EventPost(endpoint: string, ev: EventData, domain: string, clientIP: string, userAgent: string): Request {
    Request("POST", Url(endpoint + EVENT_PATH, None),
            HeaderLines(EventHeaders(clientIP, userAgent)),
            Some(Json(EventParams(ev, domain))))
  }

  /** What `call` makes of the provisioning request (no default headers). */
  function GoalRequest(endpoint: string, domain: string, apiKey: string, eventName: string): Result<Request, Failure> {
    RequestFor(endpoint, [], "PUT", GOALS_PATH, GoalHeaders(apiKey), GoalParams(domain, eventName))
  }

  /** What `call` makes of the event request. */
  function EventRequest(endpoint: string, ev: EventData, domain: string, clientIP: string, userAgent: string): Result<Request, Failure> {
    RequestFor(endpoint, [], "POST", EVENT_PATH, EventHeaders(clientIP, userAgent), EventParams(ev, domain))
  }

  /** `provisionGoal`'s result once its request has been answered. */
  function GoalOutcome(reply: Reply, jsonDecode: string -> Value): (r: Result<bool, Failure>)
    ensures r.Ok? <==> reply.Received? && reply.status < 400
    ensures r.Ok? ==> r.value
    ensures r.Err? ==> r.error == Classify(reply, jsonDecode).error
  {
    match Classify(reply, jsonDecode)
    case Err(f) => Err(f)
    case Ok(_) => Ok(true)
  }

  /** Everything `send` does once enabled, given the replies its requests will get:
      its result and the requests it issues, in order. */
  function Exchange(endpoint: string, domain: string, apiKey: string, clientIP: string, userAgent: string,
                    ev: EventData, first: Reply, second: Reply, jsonDecode: string -> Value): (Result<bool, Failure>, seq<Request>)
  {
    var put := GoalPut(endpoint, domain, apiKey, ev.eventType);
    match GoalOutcome(first, jsonDecode)
    case Err(f) => (Err(f), [put])
    case Ok(_) =>
      if !JsonEncodable(Arr(ev.props)) then (Err(EncodingFailure), [put])
      else
        var post := EventPost(endpoint, ev, domain, clientIP, userAgent);
        match Classify(second, jsonDecode)
        case Err(f) => (Err(f), [put, post])
        case Ok(_) => (Ok(true), [put, post])
  }

  // ---------------------------------------------------------------------
  // Facts about the requests
  // ---------------------------------------------------------------------

  /** The provisioning headers: a form content type, so URL-encoding is chosen. */
  lemma GoalHeadersFacts(apiKey: string)
    ensures var headers := GoalHeaders(apiKey);
            && Merge([], headers) == headers
            && ContentType(headers) == Some(FORM)
  {
    var headers := GoalHeaders(apiKey);
    assert Keys(headers) == ["Content-Type", "Authorization"];
    MergeDisjoint([], headers);
    LookupMember(headers, "Content-Type", FORM);
  }

  /** The event headers: a JSON content type. */
  lemma EventHeadersFacts(clientIP: string, userAgent: string)
    ensures var headers := EventHeaders(clientIP, userAgent);
            && Merge([], headers) == headers
            && ContentType(headers) == Some(JSON)
  {
    var headers := EventHeaders(clientIP, userAgent);
    assert Keys(headers) == ["X-Forwarded-For", "User-Agent", "Content-Type"];
    MergeDisjoint([], headers);
    LookupMember(headers, "Content-Type", JSON);
  }

  /** The goals path contains no "http", so it goes under the endpoint. */
  lemma GoalsPathUnderEndpoint()
    ensures !Contains(GOALS_PATH, "http")
  {
    assert 'h' !in GOALS_PATH;
    NoHttpWithoutH(GOALS_PATH);
  }

  /** The event path contains no "http", so it goes under the endpoint. */
  lemma EventPathUnderEndpoint()
    ensures !Contains(EVENT_PATH, "http")
  {
    assert 'h' !in EVENT_PATH;
    NoHttpWithoutH(EVENT_PATH);
  }

  /** The goal request is always a URL-encoded PUT to the goals path with its own two headers. */
  lemma GoalRequestShape(endpoint: string, domain: string, apiKey: string, eventName: string)
    ensures GoalRequest(endpoint, domain, apiKey, eventName) == Ok(GoalPut(endpoint, domain, apiKey, eventName))
  {
    GoalHeadersFacts(apiKey);
    GoalsPathUnderEndpoint();
    assert |FORM| != |JSON| && |FORM| != |MULTIPART|;
    FormRequest(endpoint, [], "PUT", GOALS_PATH, GoalHeaders(apiKey), GoalParams(domain, eventName));
  }

  /** The event request is a JSON POST to the event path, or fails before
      sending when a property cannot be encoded as JSON. */
  lemma EventRequestShape(endpoint: string, ev: EventData, domain: string, clientIP: string, userAgent: string)
    ensures EventRequest(endpoint, ev, domain, clientIP, userAgent) ==
            if JsonEncodable(Arr(ev.props)) then Ok(EventPost(endpoint, ev, domain, clientIP, userAgent))
            else Err(EncodingFailure)
  {
    EventHeadersFacts(clientIP, userAgent);
    EventPathUnderEndpoint();
    EventParamsEncodable(ev, domain);
    JsonRequest(endpoint, [], "POST", EVENT_PATH, EventHeaders(clientIP, userAgent), EventParams(ev, domain));
  }

  /** The event parameters encode exactly when the event's properties do: the
      other entries are strings or copies of property values. */
  lemma EventParamsEncodable(ev: EventData, domain: string)
    ensures JsonEncodable(Arr(EventParams(ev, domain))) <==> JsonEncodable(Arr(ev.props))
  {
    var params := EventParams(ev, domain);
    if JsonEncodable(Arr(ev.props)) {
      PropEncodable(ev, "referrer");
      PropEncodable(ev, "screenWidth");
      forall i | 0 <= i < |params| ensures JsonEncodable(params[i].val) {
      }
    } else {
      assert !JsonEncodable(params[1].val);
    }
  }

  /** A property of encodable properties is encodable. */
  lemma PropEncodable(ev: EventData, key: string)
    requires JsonEncodable(Arr(ev.props))
    ensures JsonEncodable(Prop(ev, key))
  {
    match Lookup(ev.props, key)
    case None =>
    case Some(v) =>
      var i :| 0 <= i < |ev.props| && ev.props[i] == Pair(key, v);
  }

  // ---------------------------------------------------------------------
  // What the source promises about `send`
  // ---------------------------------------------------------------------

  /** A failed provisioning is the result, and the event is never posted. */
  lemma GoalGatesEvent(endpoint: string, domain: string, apiKey: string, clientIP: string, userAgent: string,
                       ev: EventData, first: Reply, second: Reply, jsonDecode: string -> Value)
    requires !(first.Received? && first.status < 400)
    ensures var (r, requests) := Exchange(endpoint, domain, apiKey, clientIP, userAgent, ev, first, second, jsonDecode);
            && r == Err(Classify(first, jsonDecode).error)
            && |requests| == 1 && requests[0].verb == "PUT"
  {
  }

  /** When both calls succeed: a PUT to the goals path, then a POST of the event, and true. */
  lemma BothCallsInOrder(endpoint: string, domain: string, apiKey: string, clientIP: string, userAgent: string,
                         ev: EventData, first: Reply, second: Reply, jsonDecode: string -> Value)
    requires first.Received? && first.status < 400
    requires second.Received? && second.status < 400
    requires JsonEncodable(Arr(ev.props))
    ensures var (r, requests) := Exchange(endpoint, domain, apiKey, clientIP, userAgent, ev, first, second, jsonDecode);
            && r == Ok(true)
            && |requests| == 2
            && requests[0].verb == "PUT" && requests[0].url == Url(endpoint + GOALS_PATH, None)
            && requests[0].body == Some(UrlEncoded(GoalParams(domain, ev.eventType)))
            && requests[1].verb == "POST" && requests[1].url == Url(endpoint + EVENT_PATH, None)
            && requests[1].body == Some(Json(EventParams(ev, domain)))
  {
    GoalRequestShape(endpoint, domain, apiKey, ev.eventType);
    EventRequestShape(endpoint, ev, domain, clientIP, userAgent);
  }

  /** `send` returns true or fails; it never returns false once enabled, and it
      issues one or two requests, the PUT always first. */
  lemma OnlyTrueOrFailure(endpoint: string, domain: string, apiKey: string, clientIP: string, userAgent: string,
                          ev: EventData, first: Reply, second: Reply, jsonDecode: string -> Value)
    ensures var (r, requests) := Exchange(endpoint, domain, apiKey, clientIP, userAgent, ev, first, second, jsonDecode);
            && (r.Ok? ==> r.value && |requests| == 2)
            && 1 <= |requests| <= 2 && requests[0].verb == "PUT"
  {
  }

  // ---------------------------------------------------------------------
  // The methods
  // ---------------------------------------------------------------------

  /** `provisionGoal`. */
  method ProvisionGoal(a: Adapter, eventName: string) returns (r: Result<bool, Failure>)
    requires a.Valid() && a.backend.PlausibleConfig?
    modifies a.runtime`sent
    ensures a.runtime.sent == old(a.runtime.sent) + [GoalPut(a.endpoint, a.backend.domain, a.backend.apiKey, eventName)]
    ensures r == GoalOutcome(old(a.runtime.NextReply()), a.runtime.lib.jsonDecode)
  {
    var params := GoalParams(a.backend.domain, eventName);
    var headers := GoalHeaders(a.backend.apiKey);
    GoalRequestShape(a.endpoint, a.backend.domain, a.backend.apiKey, eventName);
    var result := a.Call("PUT", GOALS_PATH, headers, params);
    match result {
      case Err(f) => r := Err(f);
      case Ok(_) => r := Ok(true);
    }
  }

  /** The second half of `send`: build the event request and make the call. */
  method PostEvent(a: Adapter, e: Event) returns (r: Result<Payload, Failure>)
    requires a.Valid() && a.backend.PlausibleConfig?
    modifies a.runtime`sent
    ensures JsonEncodable(Arr(e.props)) ==>
              && a.runtime.sent == old(a.runtime.sent) + [EventPost(a.endpoint, e.Data(), a.backend.domain, a.clientIP.value, a.userAgent)]
              && r == Classify(old(a.runtime.NextReply()), a.runtime.lib.jsonDecode)
    ensures !JsonEncodable(Arr(e.props)) ==> r == Err(EncodingFailure) && a.runtime.sent == old(a.runtime.sent)
  {
    var params := EventParams(e.Data(), a.backend.domain);
    var headers := EventHeaders(a.clientIP.value, a.userAgent);
    EventRequestShape(a.endpoint, e.Data(), a.backend.domain, a.clientIP.value, a.userAgent);
    r := a.Call("POST", EVENT_PATH, headers, params);
  }

  /** `send`: nothing while disabled; otherwise provision the goal and, if that
      succeeded, post the event. The event is not in the frame: it is left alone. */
  method Send(a: Adapter, e: Event) returns (r: Result<bool, Failure>)
    requires a.Valid() && a.backend.PlausibleConfig?
    modifies a.runtime`sent
    ensures !old(a.enabled) ==> r == Ok(false) && a.runtime.sent == old(a.runtime.sent)
    ensures old(a.enabled) ==>
              var (outcome, requests) :=
                old(Exchange(a.endpoint, a.backend.domain, a.backend.apiKey, a.clientIP.value, a.userAgent, e.Data(),
                             a.runtime.NextReply(), a.runtime.script(|a.runtime.sent| + 1), a.runtime.lib.jsonDecode));
              r == outcome && a.runtime.sent == old(a.runtime.sent) + requests
  {
    if !a.enabled {
      return Ok(false);
    }
    ghost var sent0 := a.runtime.sent;
    ghost var first, second := a.runtime.NextReply(), a.runtime.script(|sent0| + 1);
    ghost var ex := Exchange(a.endpoint, a.backend.domain, a.backend.apiKey, a.clientIP.value, a.userAgent, e.Data(),
                             first, second, a.runtime.lib.jsonDecode);
    var endpoint, domain, clientIP, userAgent, jsonDecode :=
      a.endpoint, a.backend.domain, a.clientIP.value, a.userAgent, a.runtime.lib.jsonDecode;
    ghost var ev := e.Data();
    ghost var put := GoalPut(endpoint, domain, a.backend.apiKey, ev.eventType);
    var provisioned := ProvisionGoal(a, e.eventType);
    assert a.runtime.sent == sent0 + [put];
    assert provisioned == GoalOutcome(first, jsonDecode);
    match provisioned {
      case Err(f) =>
        r := Err(f);
      case Ok(_) =>
        // provisionGoal never answers false, so its `return false` is never taken.
        assert a.runtime.NextReply() == second;
        var posted := PostEvent(a, e);
        match posted {
          case Err(f) => r := Err(f);
          case Ok(_) => r := Ok(true);
        }
    }
    assert r == ex.0 && a.runtime.sent == sent0 + ex.1;
  }
}

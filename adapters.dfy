/** The state and shared operations of an analytics adapter. Both backends
    are one class; `backend` holds what only one of them has. */
module Adapters {
  import opened Wrappers
  import opened Php
  import opened Flattening
  import opened Http

  const DEFAULT_USER_AGENT := "Batsirai Analytics library"
  const GA_ENDPOINT := "https://www.google-analytics.com/collect"
  const PLAUSIBLE_ENDPOINT := "https://plausible.io/api"

  /** The default headers of a Google Analytics adapter: an empty content type. */
  const GA_HEADERS: seq<Pair<string>> := [Pair("Content-Type", "")]

  /** The credentials each backend is constructed with. */
  datatype Backend =
    | GoogleAnalyticsConfig(tid: string, cid: string)
    | PlausibleConfig(domain: string, apiKey: string)

  class Adapter {
    var enabled: bool
    var userAgent: string
    /** None while the typed property is still uninitialised. */
    var clientIP: Option<string>
    var endpoint: string
    /** The global headers, merged under every call's own. */
    const headers: seq<Pair<string>>
    const backend: Backend
    const runtime: Runtime

    /** What each backend's constructor establishes and nothing later changes:
        a Plausible adapter always has a client IP and the fixed endpoint. */
    ghost predicate Valid()
      reads this
    {
      && DistinctKeys(headers)
      && (backend.GoogleAnalyticsConfig? ==> headers == GA_HEADERS)
      && (backend.PlausibleConfig? ==> headers == [] && clientIP.Some? && endpoint == PLAUSIBLE_ENDPOINT)
    }

    constructor GoogleAnalytics(tid: string, cid: string, runtime: Runtime)
      ensures Valid()
      ensures enabled && userAgent == DEFAULT_USER_AGENT && clientIP == None
      ensures endpoint == GA_ENDPOINT && headers == GA_HEADERS
      ensures backend == GoogleAnalyticsConfig(tid, cid) && this.runtime == runtime
    {
      enabled, userAgent, clientIP := true, DEFAULT_USER_AGENT, None;
      endpoint, headers := GA_ENDPOINT, GA_HEADERS;
      backend, this.runtime := GoogleAnalyticsConfig(tid, cid), runtime;
    }

    constructor Plausible(domain: string, apiKey: string, useragent: string, clientIP: string, runtime: Runtime)
      ensures Valid()
      ensures enabled && userAgent == useragent && this.clientIP == Some(clientIP)
      ensures endpoint == PLAUSIBLE_ENDPOINT && headers == []
      ensures backend == PlausibleConfig(domain, apiKey) && this.runtime == runtime
    {
      enabled, userAgent, this.clientIP := true, useragent, Some(clientIP);
      endpoint, headers := PLAUSIBLE_ENDPOINT, [];
      backend, this.runtime := PlausibleConfig(domain, apiKey), runtime;
    }

    /** `getName`. */
    function Name(): (n: string)
      ensures n == "Google Analytics" <==> backend.GoogleAnalyticsConfig?
      ensures n == "Plausible" <==> backend.PlausibleConfig?
    {
      match backend
      case GoogleAnalyticsConfig(_, _) => "Google Analytics"
      case PlausibleConfig(_, _) => "Plausible"
    }

    method Enable()
      modifies this`enabled
      ensures enabled
    {
      enabled := true;
    }

    method Disable()
      modifies this`enabled
      ensures !enabled
    {
      enabled := false;
    }

    method SetClientIP(clientIP: string) returns (self: Adapter)
      requires Valid()
      modifies this`clientIP
      ensures self == this && this.clientIP == Some(clientIP) && Valid()
    {
      this.clientIP := Some(clientIP);
      self := this;
    }

    method SetUserAgent(userAgent: string) returns (self: Adapter)
      requires Valid()
      modifies this`userAgent
      ensures self == this && this.userAgent == userAgent && Valid()
    {
      this.userAgent := userAgent;
      self := this;
    }

    /** `call`: send one request through the transport and classify the reply.
        An encoding failure throws before anything is sent. */
    method Call(verb: string, path: string, callHeaders: seq<Pair<string>>, params: seq<Pair<Value>>)
      returns (r: Result<Payload, Failure>)
      modifies runtime`sent
      ensures var req := RequestFor(endpoint, headers, verb, path, callHeaders, params);
              && (req.Err? ==> r == Err(req.error) && runtime.sent == old(runtime.sent))
              && (req.Ok? ==> runtime.sent == old(runtime.sent) + [req.value]
                              && r == Classify(old(runtime.NextReply()), runtime.lib.jsonDecode))
    {
      var merged := Merge(headers, callHeaders);
      var encoded := EncodeParams(ContentType(merged), params);
      if encoded.Err? {
        return Err(encoded.error);
      }
      var lines := RenderHeaderLines(merged);
      var request := Request(verb, TargetUrl(endpoint, verb, path, params), lines,
                             if verb != "GET" then Some(encoded.value) else None);
      assert RequestFor(endpoint, headers, verb, path, callHeaders, params) == Ok(request);
      var reply := runtime.Exec(request);
      r := HandleReply(reply, runtime.lib.jsonDecode);
    }

    /** The body switch of `call`: JSON (failing when the parameters cannot be
        encoded), multipart over the flattened parameters, or a URL-encoded form. */
    method EncodeParams(contentType: Option<string>, params: seq<Pair<Value>>) returns (body: Result<Body, Failure>)
      ensures body == Encode(contentType, params)
    {
      if contentType == Some(JSON) {
        if !JsonEncodable(Arr(params)) {
          return Err(EncodingFailure);
        }
        body := Ok(Json(params));
      } else if contentType == Some(MULTIPART) {
        var fields := Flatten(params, "");
        body := Ok(Multipart(fields));
      } else {
        body := Ok(UrlEncoded(params));
      }
    }

    /** `flatten`: one pass over `data`, recursing into nested arrays. */
    method Flatten(data: seq<Pair<Value>>, prefix: string) returns (output: seq<Pair<Value>>)
      ensures output == FlattenUpTo(data, prefix, |data|)
      decreases Arr(data)
    {
      output := [];
      for i := 0 to |data|
        invariant output == FlattenUpTo(data, prefix, i)
      {
        var finalKey := FinalKey(prefix, data[i].key);
        FlattenStep(data, prefix, i);
        if data[i].val.Arr? {
          assert data[i] in data;
          var nested := Flatten(data[i].val.entries, finalKey);
          output := Union(output, nested);
        } else {
          output := Put(output, finalKey, data[i].val);
        }
      }
    }
  }
}

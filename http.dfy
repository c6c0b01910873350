/** The request/response pipeline of `Adapter::call`, with cURL replaced by a
    recording transport and the library encoders kept symbolic. */
module Http {
  import opened Wrappers
  import opened Php
  import opened Flattening

  const JSON := "application/json"
  const MULTIPART := "multipart/form-data"

  /** A target URL: `base`, followed by `?` and the `http_build_query` of
      `query` when there is one. */
  datatype Url = Url(base: string, query: Option<seq<Pair<Value>>>)

  /** A request body, named by the encoder that produces it from the parameters. */
  datatype Body =
    | Json(doc: seq<Pair<Value>>)             // json_encode($params)
    | Multipart(fields: seq<Pair<Value>>)     // $this->flatten($params), sent as form fields
    | UrlEncoded(form: seq<Pair<Value>>)      // http_build_query($params)

  /** What the transport is handed: the HTTP method (`verb`), URL, `Name:Value` header lines and, unless GET, a body. */
  datatype Request = Request(verb: string, url: Url, headerLines: seq<string>, body: Option<Body>)

  /** What the transport gives back: a cURL error, or a status with the raw header lines and body. */
  datatype Reply =
    | TransportError(message: string)
    | Received(status: nat, headerLines: seq<string>, body: string)

  /** A response body as `call` returns it: raw text, or the `json_decode` of it. */
  datatype Payload = Raw(text: string) | Decoded(doc: Value)

  /** The message of the exception thrown for a status of 400 or more. */
  datatype ErrorText = Text(s: string) | JsonText(doc: Value)

  /** The exceptions the pipeline throws. */
  datatype Failure =
    | TransportFailure(message: string)    // curl_error
    | EncodingFailure                      // json_encode with JSON_THROW_ON_ERROR
    | HttpFailure(text: ErrorText)         // status >= 400
    | DebugParseFailure                    // json_decode with JSON_THROW_ON_ERROR on a debug reply

  /** Library functions whose internals are not modelled. */
  datatype Library = Library(
    jsonDecode: string -> Value,           // json_decode($body, true)
    urlHost: string -> Value,              // parse_url($url)['host'], null when absent
    urlPath: string -> Value,              // parse_url($url)['path'], null when absent
    hitValid: string -> Option<bool>)      // json_decode(...)["hitParsingResult"][0]["valid"]; None when it throws

  /** One report of `logError`: the adapter's name and the exception. */
  datatype LogEntry = LogEntry(adapter: string, failure: Failure)

  /** The outside world of an adapter: a transport that records every request
      and answers the n-th one with `script(n)`, the console that error reports
      go to, and the library functions. */
  class Runtime {
    var sent: seq<Request>
    var console: seq<LogEntry>
    const script: nat -> Reply
    const lib: Library

    constructor (script: nat -> Reply, lib: Library)
      ensures sent == [] && console == []
      ensures this.script == script && this.lib == lib
    {
      sent, console := [], [];
      this.script, this.lib := script, lib;
    }

    /** The reply the next request will get. */
    function NextReply(): Reply
      reads this
    {
      script(|sent|)
    }

    method Exec(req: Request) returns (reply: Reply)
      modifies this`sent
      ensures sent == old(sent) + [req]
      ensures reply == old(NextReply())
    {
      reply := script(|sent|);
      sent := sent + [req];
    }

    method Log(entry: LogEntry)
      modifies this`console
      ensures console == old(console) + [entry]
    {
      console := console + [entry];
    }
  }

  // ---------------------------------------------------------------------
  // Request assembly
  // ---------------------------------------------------------------------

  /** `json_encode(..., JSON_THROW_ON_ERROR)` succeeds unless it meets an INF or NAN float. */
  predicate JsonEncodable(v: Value) {
    match v
    case Float(t) => t != "INF" && t != "-INF" && t != "NAN"
    case Arr(es) => forall i :: 0 <= i < |es| ==> JsonEncodable(es[i].val)
    case _ => true
  }

  /** `$headers['Content-Type']` of the merged headers; a missing key reads as null. */
  function ContentType(headers: seq<Pair<string>>): Option<string> {
    Lookup(headers, "Content-Type")
  }

  /** The `match` on the effective content type: JSON for exactly
      "application/json", bracket-flattened fields for exactly
      "multipart/form-data", URL-encoding for anything else, '' and null included. */
  function Encode(contentType: Option<string>, params: seq<Pair<Value>>): (r: Result<Body, Failure>)
    ensures r.Err? <==> contentType == Some(JSON) && !JsonEncodable(Arr(params))
    ensures r.Err? ==> r.error == EncodingFailure
    ensures r.Ok? ==> (r.value.Json? <==> contentType == Some(JSON))
    ensures r.Ok? ==> (r.value.Multipart? <==> contentType == Some(MULTIPART))
    ensures r.Ok? ==> (r.value.UrlEncoded? <==> contentType != Some(JSON) && contentType != Some(MULTIPART))
    ensures r.Ok? && !r.value.Multipart? ==> (r.value.Json? && r.value.doc == params) || (r.value.UrlEncoded? && r.value.form == params)
    ensures r.Ok? && r.value.Multipart? ==> forall e :: e in r.value.fields ==> !e.val.Arr?
    ensures r.Ok? && r.value.Multipart? ==> r.value.fields == Flatten(params, "")
  {
    if contentType == Some(JSON) then
      if JsonEncodable(Arr(params)) then Ok(Json(params)) else Err(EncodingFailure)
    else if contentType == Some(MULTIPART) then Ok(Multipart(Flatten(params, "")))
    else Ok(UrlEncoded(params))
  }

  /** The URL handed to `curl_init`: a path containing "http" anywhere is taken
      verbatim, and then even a GET carries no query string; any other path is
      appended to the endpoint, with the parameters as query string only for a
      GET with parameters. */
  function TargetUrl(endpoint: string, verb: string, path: string, params: seq<Pair<Value>>): (u: Url)
    ensures Contains(path, "http") ==> u == Url(path, None)
    ensures !Contains(path, "http") ==> u.base == endpoint + path
    ensures u.query.Some? <==> !Contains(path, "http") && verb == "GET" && params != []
    ensures u.query.Some? ==> u.query.value == params
  {
    if Contains(path, "http") then Url(path, None)
    else Url(endpoint + path, if verb == "GET" && params != [] then Some(params) else None)
  }

  /** The header array after the `foreach`: one `Name:Value` line per key, in the array's order. */
  function HeaderLines(headers: seq<Pair<string>>): (lines: seq<string>)
    ensures |lines| == |headers|
    ensures forall i :: 0 <= i < |headers| ==> lines[i] == headers[i].key + ":" + headers[i].val
  {
    if headers == [] then [] else [headers[0].key + ":" + headers[0].val] + HeaderLines(headers[1..])
  }

  /** The `foreach` that rewrites `$headers` into lines. */
  method RenderHeaderLines(headers: seq<Pair<string>>) returns (lines: seq<string>)
    ensures lines == HeaderLines(headers)
  {
    lines := [];
    var i := 0;
    while i < |headers|
      invariant i <= |headers|
      invariant |lines| == i
      invariant forall j :: 0 <= j < i ==> lines[j] == headers[j].key + ":" + headers[j].val
    {
      lines := lines + [headers[i].key + ":" + headers[i].val];
      i := i + 1;
    }
  }

  /** Default and per-call headers after `array_merge`: a per-call value wins on
      a shared key, every default key that is not overridden keeps its value,
      and the default keys stay first, in their order. */
  lemma EffectiveHeaders(defaults: seq<Pair<string>>, headers: seq<Pair<string>>)
    requires DistinctKeys(headers)
    ensures forall k :: k in Keys(headers) ==> Lookup(Merge(defaults, headers), k) == Lookup(headers, k)
    ensures forall k :: k !in Keys(headers) ==> Lookup(Merge(defaults, headers), k) == Lookup(defaults, k)
    ensures Keys(Merge(defaults, headers))[..|defaults|] == Keys(defaults)
    ensures DistinctKeys(defaults) ==> DistinctKeys(Merge(defaults, headers))
  {
    if DistinctKeys(defaults) {
      MergeKeepsDistinct(defaults, headers);
    }
    forall k | k in Keys(headers) ensures Lookup(Merge(defaults, headers), k) == Lookup(headers, k) {
      MergeOverrides(defaults, headers, k);
    }
    forall k | k !in Keys(headers) ensures Lookup(Merge(defaults, headers), k) == Lookup(defaults, k) {
      MergeKeeps(defaults, headers, k);
    }
  }

  /** Everything `call` sends, or the encoding failure that stops it before anything is sent. */
  function RequestFor(endpoint: string, defaults: seq<Pair<string>>, verb: string, path: string,
                      headers: seq<Pair<string>>, params: seq<Pair<Value>>): (r: Result<Request, Failure>)
    ensures r.Err? <==> ContentType(Merge(defaults, headers)) == Some(JSON) && !JsonEncodable(Arr(params))
    ensures r.Err? ==> r.error == EncodingFailure
    ensures r.Ok? ==> (r.value.body.None? <==> verb == "GET")
  {
    var merged := Merge(defaults, headers);
    match Encode(ContentType(merged), params)
    case Err(e) => Err(e)
    case Ok(body) =>
      Ok(Request(verb, TargetUrl(endpoint, verb, path, params), HeaderLines(merged),
                 if verb != "GET" then Some(body) else None))
  }

  /** A non-GET request to a path under the endpoint whose content type is
      neither JSON nor multipart: the URL has no query string and the body is
      the URL-encoded parameters. */
  lemma FormRequest(endpoint: string, defaults: seq<Pair<string>>, verb: string, path: string,
                    headers: seq<Pair<string>>, params: seq<Pair<Value>>)
    requires !Contains(path, "http") && verb != "GET"
    requires ContentType(Merge(defaults, headers)) != Some(JSON)
    requires ContentType(Merge(defaults, headers)) != Some(MULTIPART)
    ensures RequestFor(endpoint, defaults, verb, path, headers, params) ==
            Ok(Request(verb, Url(endpoint + path, None), HeaderLines(Merge(defaults, headers)), Some(UrlEncoded(params))))
  {
  }

  /** A non-GET request to a path under the endpoint with a JSON content type:
      the parameters as a JSON body, or the encoding failure. */
  lemma JsonRequest(endpoint: string, defaults: seq<Pair<string>>, verb: string, path: string,
                    headers: seq<Pair<string>>, params: seq<Pair<Value>>)
    requires !Contains(path, "http") && verb != "GET"
    requires ContentType(Merge(defaults, headers)) == Some(JSON)
    ensures RequestFor(endpoint, defaults, verb, path, headers, params) ==
            if JsonEncodable(Arr(params))
            then Ok(Request(verb, Url(endpoint + path, None), HeaderLines(Merge(defaults, headers)), Some(Json(params))))
            else Err(EncodingFailure)
  {
  }

  // ---------------------------------------------------------------------
  // Response handling
  // ---------------------------------------------------------------------

  /** The header callback's reading of one line: lower-cased whole, cut at the
      first ':', both halves trimmed; a line without ':' yields nothing. */
  function HeaderField(line: string): (r: Option<(string, string)>)
    ensures r.Some? <==> ':' in line
    ensures r.Some? ==> ':' !in r.value.0 && IsLower(r.value.0) && IsLower(r.value.1)
  {
    var lower := ToLower(line);
    assert ':' in lower <==> ':' in line by {
      assert forall i :: 0 <= i < |line| ==> (lower[i] == ':' <==> line[i] == ':');
    }
    if ':' in lower then
      var i := IndexOf(lower, ':');
      TrimKeepsLower(lower[..i]);
      TrimKeepsLower(lower[i + 1..]);
      TrimKeepsOut(lower[..i], ':');
      Some((Trim(lower[..i]), Trim(lower[i + 1..])))
    else None
  }

  /** A line is split at its first ':': the name is the trimmed, lower-cased
      text before it and the value the trimmed, lower-cased text after it. */
  lemma HeaderFieldSplit(line: string, i: nat)
    requires i < |line| && line[i] == ':' && ':' !in line[..i]
    ensures HeaderField(line) == Some((Trim(ToLower(line[..i])), Trim(ToLower(line[i + 1..]))))
  {
    var lower := ToLower(line);
    assert lower[i] == ':';
    var first := IndexOf(lower, ':');
    forall j | 0 <= j < i ensures lower[j] != ':' {
      assert line[..i][j] == line[j];
    }
    forall k | 0 <= k < first ensures lower[k] != ':' {
      assert lower[..first][k] == lower[k];
    }
    assert first == i;
    assert HeaderField(line) == Some((Trim(lower[..i]), Trim(lower[i + 1..])));
    ToLowerSlice(line, 0, i);
    ToLowerDrop(line, i + 1);
    assert lower[..i] == ToLower(line[..i]) by {
      assert line[..i] == line[0..i] && lower[..i] == lower[0..i];
    }
  }

  /** `$responseHeaders` after the callback has seen every line, later lines
      overwriting earlier ones; names and values alike are lower case. */
  function ResponseHeaders(lines: seq<string>): (m: map<string, string>)
    ensures forall k :: k in m ==> IsLower(k) && IsLower(m[k])
  {
    if lines == [] then map[]
    else
      var m := ResponseHeaders(lines[..|lines| - 1]);
      match HeaderField(lines[|lines| - 1])
      case None => m
      case Some(f) => m[f.0 := f.1]
  }

  /** Every stored name and value comes from one line that holds a ':'. */
  lemma {:induction false} ResponseHeadersFromLines(lines: seq<string>, k: string)
    requires k in ResponseHeaders(lines)
    ensures exists i :: 0 <= i < |lines| && HeaderField(lines[i]) == Some((k, ResponseHeaders(lines)[k]))
  {
    var n := |lines| - 1;
    var init := lines[..n];
    var f := HeaderField(lines[n]);
    if f.Some? && f.value.0 == k {
      assert HeaderField(lines[n]) == Some((k, ResponseHeaders(lines)[k]));
    } else {
      ResponseHeadersFromLines(init, k);
      var i :| 0 <= i < |init| && HeaderField(init[i]) == Some((k, ResponseHeaders(init)[k]));
      assert init[i] == lines[i];
    }
  }

  /** No line with a ':' is lost: its name is stored (possibly with a later line's value). */
  lemma {:induction false} ResponseHeadersCoverLines(lines: seq<string>, i: nat)
    requires i < |lines| && ':' in lines[i]
    ensures HeaderField(lines[i]).value.0 in ResponseHeaders(lines)
  {
    var n := |lines| - 1;
    var init := lines[..n];
    var prev := ResponseHeaders(init);
    assert prev.Keys <= ResponseHeaders(lines).Keys;
    if i < n {
      assert init[i] == lines[i];
      ResponseHeadersCoverLines(init, i);
    } else {
      var f := HeaderField(lines[n]).value;
      assert ResponseHeaders(lines) == prev[f.0 := f.1];
    }
  }

  /** A later line overwrites an earlier one: the value stored under a name
      is that of the last line carrying the name. */
  lemma {:induction false} ResponseHeadersLastWins(lines: seq<string>, i: nat)
    requires i < |lines| && ':' in lines[i]
    requires forall j :: i < j < |lines| && ':' in lines[j] ==>
               HeaderField(lines[j]).value.0 != HeaderField(lines[i]).value.0
    ensures var f := HeaderField(lines[i]).value;
            f.0 in ResponseHeaders(lines) && ResponseHeaders(lines)[f.0] == f.1
  {
    var n := |lines| - 1;
    var init := lines[..n];
    if i < n {
      assert init[i] == lines[i];
      forall j | i < j < |init| && ':' in init[j]
        ensures HeaderField(init[j]).value.0 != HeaderField(init[i]).value.0
      {
        assert init[j] == lines[j];
      }
      ResponseHeadersLastWins(init, i);
    }
  }

  /** One more line applies its field, if it has one, to the headers so far. */
  lemma ResponseHeadersStep(lines: seq<string>, i: nat)
    requires i < |lines|
    ensures ResponseHeaders(lines[..i + 1]) ==
              match HeaderField(lines[i])
              case None => ResponseHeaders(lines[..i])
              case Some(f) => ResponseHeaders(lines[..i])[f.0 := f.1]
  {
    var next := lines[..i + 1];
    assert next[..i] == lines[..i] && next[i] == lines[i];
  }

  /** The callback applied to each line as cURL delivers it. */
  method CollectResponseHeaders(lines: seq<string>) returns (m: map<string, string>)
    ensures m == ResponseHeaders(lines)
  {
    m := map[];
    var i := 0;
    while i < |lines|
      invariant i <= |lines|
      invariant m == ResponseHeaders(lines[..i])
    {
      var field := HeaderField(lines[i]);
      ResponseHeadersStep(lines, i);
      if field.Some? {
        m := m[field.value.0 := field.value.1];
      }
      i := i + 1;
    }
    assert lines[..i] == lines;
  }

  /** `substr($t, 0, strpos($t, ';'))`: the text before the first ';', and ''
      when there is none, since the missing position reads as 0. */
  function MediaType(t: string): (r: string)
    ensures ';' !in t ==> r == ""
    ensures ';' in t ==> r + [';'] <= t && ';' !in r
  {
    if ';' in t then
      var i := IndexOf(t, ';');
      assert t[..i] + [';'] == t[..i + 1];
      t[..i]
    else ""
  }

  /** The content-type switch: decode as JSON only for a media type of exactly
      "application/json", else keep the raw text. */
  function DecodeBody(headers: map<string, string>, body: string, jsonDecode: string -> Value): (p: Payload)
    ensures p.Decoded? <==> "Content-Type" in headers && MediaType(headers["Content-Type"]) == JSON
    ensures p.Decoded? ==> p.doc == jsonDecode(body)
    ensures p.Raw? ==> p.text == body
  {
    var t := if "Content-Type" in headers then headers["Content-Type"] else "";
    if MediaType(t) == JSON then Decoded(jsonDecode(body)) else Raw(body)
  }

  /** The stored names are lower case, so the lookup of 'Content-Type' never
      matches and every body comes back as raw text. */
  lemma BodyAlwaysRaw(lines: seq<string>, body: string, jsonDecode: string -> Value)
    ensures "Content-Type" !in ResponseHeaders(lines)
    ensures DecodeBody(ResponseHeaders(lines), body, jsonDecode) == Raw(body)
  {
    assert !IsLower("Content-Type") by {
      assert IsUpper("Content-Type"[0]);
    }
  }

  /** Even a matching lookup would decode only when a ';' follows the media
      type: a bare "application/json" sniffs as ''. */
  lemma SniffNeedsSemicolon()
    ensures MediaType(JSON) == ""
    ensures MediaType(JSON + "; charset=utf-8") == JSON
  {
    var t := JSON + "; charset=utf-8";
    assert t[..16] == JSON;
    MediaTypeBeforeFirstSemicolon(t, 16);
  }

  /** The sniffed media type is exactly the text before the first ';'. */
  lemma MediaTypeBeforeFirstSemicolon(t: string, i: nat)
    requires i < |t| && t[i] == ';' && ';' !in t[..i]
    ensures MediaType(t) == t[..i]
  {
  }

  /** The exception message for a status of 400 or more: the JSON of an array
      body, else "status: body". */
  function StatusMessage(status: nat, body: Payload): (m: ErrorText)
    ensures m.JsonText? <==> body.Decoded? && body.doc.Arr?
    ensures m.JsonText? ==> m.doc == body.doc
    ensures m.Text? ==> m.s == NatToString(status) + ": " + (if body.Raw? then body.text else ToStr(body.doc))
  {
    match body
    case Decoded(Arr(es)) => JsonText(Arr(es))
    case Decoded(v) => Text(NatToString(status) + ": " + ToStr(v))
    case Raw(t) => Text(NatToString(status) + ": " + t)
  }

  /** The end of `call`: a transport error throws its message before any status
      check; a status of 400 or more always throws; anything else returns the
      body, which is always the raw text. */
  function Classify(reply: Reply, jsonDecode: string -> Value): (r: Result<Payload, Failure>)
    ensures reply.TransportError? ==> r == Err(TransportFailure(reply.message))
    ensures reply.Received? ==> (r.Ok? <==> reply.status < 400)
    ensures reply.Received? && reply.status < 400 ==> r == Ok(Raw(reply.body))
    ensures reply.Received? && reply.status >= 400 ==>
              r == Err(HttpFailure(Text(NatToString(reply.status) + ": " + reply.body)))
  {
    match reply
    case TransportError(msg) => Err(TransportFailure(msg))
    case Received(status, lines, body) =>
      var payload := DecodeBody(ResponseHeaders(lines), body, jsonDecode);
      BodyAlwaysRaw(lines, body, jsonDecode);
      if status >= 400 then Err(HttpFailure(StatusMessage(status, payload))) else Ok(payload)
  }

  /** What `call` does with the transport's answer: the headers the callback
      collected pick the body's decoding, then the status is checked. */
  method HandleReply(reply: Reply, jsonDecode: string -> Value) returns (r: Result<Payload, Failure>)
    ensures r == Classify(reply, jsonDecode)
  {
    match reply {
      case TransportError(message) =>
        r := Err(TransportFailure(message));
      case Received(status, headerLines, text) =>
        var responseHeaders := CollectResponseHeaders(headerLines);
        var payload := DecodeBody(responseHeaders, text, jsonDecode);
        if status >= 400 {
          r := Err(HttpFailure(StatusMessage(status, payload)));
        } else {
          r := Ok(payload);
        }
    }
  }
}

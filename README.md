# Analytics adapters, modelled in Dafny

This project models the core of a PHP analytics dispatcher. An adapter takes a
tracked `Event` and reports it to an analytics backend over HTTP. The model covers:

- the shared adapter base (`src/Adapter.php`): the enabled flag and the fluent
  setters, `createEvent` (which turns any exception from `send` into `false`), the
  request/response logic of `call`, and the bracket-key `flatten`;
- the Google Analytics adapter (`src/Adapter/GoogleAnalytics.php`): it rewrites the
  event in place, builds a Measurement Protocol parameter map, and sends it as a
  single POST;
- the Plausible adapter (`src/Adapter/Plausible.php`): it provisions the event's
  goal with a PUT, then posts the event with a POST.

The HTTP transport is a `Runtime` object. It appends every request to `sent` (verb,
resolved URL, header lines, encoded body). It answers the n-th request with
`script(n)`: either a transport error or a status, header lines and a body. A PHP
exception is a `Failure` carried in a `Result`. The library functions
`json_encode`, `http_build_query`, `json_decode` and `parse_url` are symbolic:

- a body records which encoder was chosen and with which parameters;
- a URL records its base and the query parameters, if any;
- the decoders are functions held by the runtime.

PHP ordered arrays are sequences of key/value pairs with distinct keys. The
operations on them are:

- `Put`: `$m[$k] = $v`;
- `Union`: the `+` operator;
- `Merge`: `array_merge`;
- `Filter`: the null/empty `array_filter`.

Modules, one file each: `Wrappers`, `Php`, `Flattening`, `Events`, `Http`
(request assembly, response handling and the runtime), `Adapters` (the adapter
class), `GoogleAnalytics`, `Plausible` and `Dispatch` (the abstract `send` and
`createEvent`).

Quirks of the code that the model keeps:

- `call` takes the path verbatim whenever it contains "http" anywhere.
- Response header names and values are stored in lower case, so the lookup of
  `Content-Type` never matches and every body comes back as raw text.
- `flatten` lets keys already present win for nested arrays (`+=`), and lets the
  later write win for scalars. A prefix of "0" counts as empty.
- The Google Analytics `send` mutates the caller's event, so a second send reports
  "event" as the action.
- Plausible's `provisionGoal` never returns false.

Two behaviours of the code that a reader of the method names might not expect;
the model follows the code:

- A status of 400 or more with an array body throws the JSON of the body alone,
  without the status (src/Adapter.php:188-193).
- When screen width and height are not both truthy, Google Analytics still sends as
  `sr` any `screenResolution` property the event already had
  (src/Adapter/GoogleAnalytics.php:74-76 and 89). The `sr` field is not simply absent.

## Model

| member | source | states |
|---|---|---|
| Adapters.Adapter.GoogleAnalytics | src/Adapter/GoogleAnalytics.php:40-44 | a new Google Analytics adapter is enabled, keeps tid/cid, uses the collect endpoint, the default user agent, the empty Content-Type default header, and no client IP |
| Adapters.Adapter.Plausible | src/Adapter/Plausible.php:56-62 | a new Plausible adapter is enabled, keeps domain, API key, user agent and client IP, uses the Plausible API endpoint and has no default headers |
| Adapters.Adapter.Name | src/Adapter/GoogleAnalytics.php:51-54 | `getName` is "Google Analytics" exactly for a Google Analytics adapter and "Plausible" exactly for a Plausible one (src/Adapter/Plausible.php:42-45) |
| Adapters.Adapter.Enable | src/Adapter.php:60-63 | afterwards the adapter is enabled; only `enabled` may change |
| Adapters.Adapter.Disable | src/Adapter.php:70-73 | afterwards the adapter is disabled; only `enabled` may change |
| Adapters.Adapter.SetClientIP | src/Adapter.php:82-86 | sets the client IP, changes no other field, returns the same adapter and keeps it valid |
| Adapters.Adapter.SetUserAgent | src/Adapter.php:95-99 | sets the user agent, changes no other field, returns the same adapter and keeps it valid |
| Adapters.Adapter.Call | src/Adapter.php:129-198 | an encoding failure throws before anything is sent; otherwise exactly the request `RequestFor` describes is appended to the transport log, and the result is the classification of the reply the transport gives it |
| Adapters.Adapter.EncodeParams | src/Adapter.php:138-142 | the body switch yields exactly `Encode` of the content type: the JSON body or the encoding failure, the flattened multipart fields, or the URL-encoded form |
| Adapters.Adapter.Flatten | src/Adapter.php:207-222 | the loop-and-recursion result equals the flattening specification `FlattenUpTo` over the whole input |
| Http.TargetUrl | src/Adapter.php:132 | a path containing "http" is used verbatim with no query; otherwise the URL is endpoint + path, with a query of the params exactly for a GET with non-empty params |
| Http.Encode | src/Adapter.php:138-142 | JSON exactly for "application/json", and it fails exactly when a parameter cannot be JSON-encoded; for "multipart/form-data" exactly, the fields are `Flatten` of the parameters with no prefix and hold no arrays; URL-encoding for every other content type, missing included |
| Http.HeaderLines | src/Adapter.php:144-147 | one line per merged header, in order, each "name:value" |
| Http.RenderHeaderLines | src/Adapter.php:144-147 | the in-place rewriting loop produces exactly `HeaderLines` of the merged headers |
| Http.EffectiveHeaders | src/Adapter.php:131 | after the merge a per-call header wins on a shared name, every other default keeps its value, the defaults keep their order at the front, and the names stay distinct |
| Http.RequestFor | src/Adapter.php:131-169 | request assembly fails, always with an encoding failure, exactly when the merged Content-Type is "application/json" and the parameters cannot be JSON-encoded, and a body is attached exactly when the verb is not GET |
| Http.FormRequest | src/Adapter.php:131-169 | a non-GET request to a path without "http" whose content type is neither JSON nor multipart goes to endpoint + path with no query and the URL-encoded parameters as body |
| Http.JsonRequest | src/Adapter.php:131-169 | a non-GET request to a path without "http" with the JSON content type goes to endpoint + path with the parameters as JSON body, or fails with an encoding failure when they cannot be encoded |
| Http.HeaderField | src/Adapter.php:154-162 | a response line yields a field exactly when it contains ':'; the name holds no ':', and name and value are both lower case |
| Http.HeaderFieldSplit | src/Adapter.php:156-162 | a line is cut at its first ':': the name is the trimmed, lower-cased text before it and the value the trimmed, lower-cased text after it |
| Http.ResponseHeaders | src/Adapter.php:154-165 | every stored response header name and value is lower case |
| Http.ResponseHeadersFromLines | src/Adapter.php:154-165 | every stored header comes from some response line holding a ':' |
| Http.ResponseHeadersCoverLines | src/Adapter.php:158-162 | every response line with a ':' has its name stored; lines without one are ignored |
| Http.ResponseHeadersLastWins | src/Adapter.php:162 | a later line overwrites an earlier one: the value stored under a name is that of the last line carrying the name |
| Http.CollectResponseHeaders | src/Adapter.php:154-165 | the callback applied line by line builds exactly `ResponseHeaders` of the lines |
| Http.MediaType | src/Adapter.php:176 | the sniffed media type is '' when there is no ';', and otherwise a ';'-free prefix followed by ';' |
| Http.SniffNeedsSemicolon | src/Adapter.php:176-180 | a bare "application/json" sniffs as '', and "application/json; charset=utf-8" sniffs as "application/json" |
| Http.BodyAlwaysRaw | src/Adapter.php:173-180 | the stored headers never contain "Content-Type", so the body is always returned as raw text |
| Http.DecodeBody | src/Adapter.php:173-180 | the body is decoded as JSON exactly when a stored "Content-Type" sniffs as "application/json", and is otherwise the raw text |
| Http.StatusMessage | src/Adapter.php:188-193 | an array body gives the JSON of the body alone; any other body gives "status: body", the body as a string |
| Http.Classify | src/Adapter.php:182-197 | a transport error throws its message; a status of 400 or more throws "status: body"; any other status returns the raw body unchanged |
| Http.HandleReply | src/Adapter.php:171-197 | the reply handling of `call` (header callback, body sniffing, error and status checks) yields exactly `Classify` of the transport's reply |
| Php.Merge | src/Adapter.php:131 | `array_merge` keeps the first array's keys in order at the front and has exactly the keys of both arrays |
| Php.MergeOverrides | src/Adapter.php:131 | a key of the second array reads as its value there after the merge |
| Php.MergeKeeps | src/Adapter.php:131 | a key absent from the second array keeps the first array's value |
| Php.MergeKeepsDistinct | src/Adapter.php:131 | `array_merge` of an array with distinct keys keeps its keys distinct |
| Php.MergeDisjoint | src/Adapter/GoogleAnalytics.php:100-104 | with no key in common, `array_merge` is concatenation |
| Php.MergeSingle | src/Adapter/GoogleAnalytics.php:70 | `array_merge` with a one-entry array is the assignment `$m[$k] = $v` |
| Php.Contains | src/Adapter.php:132 | `str_contains` holds exactly when the needle occurs at some position |
| Php.NoHttpWithoutH | src/Adapter.php:132 | a path without the letter 'h' never contains "http" |
| Php.ToLower | src/Adapter.php:156 | `strtolower` keeps the length, leaves non-capitals alone and maps each capital to its lower-case letter |
| Php.Trim | src/Adapter.php:162 | `trim` returns a slice of its input with no blank (space, tab, newline, return, NUL, vertical tab) at either end, and returns an input without blanks unchanged |
| Php.Lookup | src/Adapter.php:138 | an array lookup finds nothing exactly when the key is absent, and otherwise finds a stored entry |
| Php.Put | src/Adapter.php:217 | assigning to a new key appends the entry; assigning to an existing key keeps the key order; the entry is present afterwards |
| Php.PutLookup | src/Adapter.php:217 | after `$m[$k] = $v`, `$m[$k]` is `$v` and every other key reads as before |
| Php.Union | src/Adapter.php:214 | `+` keeps the left array as a prefix and adds only entries of the right one |
| Php.UnionLookup | src/Adapter.php:214 | `+` keeps the left array's value for a shared key and takes the right one's otherwise |
| Php.Filter | src/Adapter/GoogleAnalytics.php:98 | exactly the entries whose value is neither null nor '' survive, and distinct keys stay distinct |
| Php.FilterLookup | src/Adapter/GoogleAnalytics.php:98 | a key reads the same after the filter if its value survives, and is gone otherwise |
| Php.FilterConcat | src/Adapter/GoogleAnalytics.php:98 | `array_filter` keeps the surviving entries in their original order: filtering a concatenation concatenates the filtered parts |
| Flattening.FlattenUpTo | src/Adapter.php:207-222 | the output holds no arrays, has distinct keys, and under a truthy prefix p every key begins with "p[" |
| Flattening.FinalKey | src/Adapter.php:211 | the key is left as it is exactly when the prefix is "" or "0"; a truthy prefix p gives "p[key]" |
| Flattening.Flatten | src/Adapter.php:207-222 | the flattened fields hold no arrays and have distinct keys, and a flat array with an empty prefix comes back unchanged |
| Flattening.FlattenFlatIsIdentity | src/Adapter.php:207-222 | with an empty prefix and no nested arrays the input comes back unchanged |
| Flattening.ZeroPrefixIsEmpty | src/Adapter.php:211 | the prefix "0" flattens exactly like no prefix |
| Flattening.ScalarWrittenUnderFinalKey | src/Adapter.php:216-218 | a scalar child k is stored under p[k] (or k without a prefix) with its own value, the later write winning |
| Flattening.NestedKeepsExisting | src/Adapter.php:213-215 | a nested result never overwrites a key the output already holds |
| Flattening.NestedExample | src/Adapter.php:211-214 | {a: {b: 1}} flattens to the single field a[b] = 1 |
| GoogleAnalytics.InjectAction | src/Adapter/GoogleAnalytics.php:69-72 | a non-pageview event gets the original type as `action` and the type "event"; a pageview is untouched; no other property changes |
| GoogleAnalytics.AddResolution | src/Adapter/GoogleAnalytics.php:74-76 | with truthy width and height, `screenResolution` becomes "WxH"; otherwise the event is untouched; no other property changes |
| GoogleAnalytics.PrepareEvent | src/Adapter/GoogleAnalytics.php:69-76 | the in-place rewriting leaves the event equal to `Prepared` of its old state |
| GoogleAnalytics.PreparedType | src/Adapter/GoogleAnalytics.php:69-72 | after the rewriting a page view is still typed "pageview" and every other event is typed "event" |
| GoogleAnalytics.PreparedAction | src/Adapter/GoogleAnalytics.php:69-72 | after the rewriting the `action` property is the original custom type, or for a page view the action it already had |
| GoogleAnalytics.PreparedResolution | src/Adapter/GoogleAnalytics.php:69-76 | after the rewriting `screenResolution` is "WxH" for truthy width and height, and otherwise the property the event already had |
| GoogleAnalytics.QueryShape | src/Adapter/GoogleAnalytics.php:78-96 | the query is the thirteen-field literal, followed by `cd1` exactly when the account is truthy |
| GoogleAnalytics.QueryKeys | src/Adapter/GoogleAnalytics.php:78-96 | the query's names are distinct, documented, and never tid, cid or v |
| GoogleAnalytics.ParamsLayout | src/Adapter/GoogleAnalytics.php:100-104 | the hit parameters are tid, cid, v followed by the filtered query, with distinct names |
| GoogleAnalytics.ParamsLookup | src/Adapter/GoogleAnalytics.php:98-104 | a query field reaches the hit with its value exactly when that value is neither null nor '' |
| GoogleAnalytics.ParamsShape | src/Adapter/GoogleAnalytics.php:98-104 | the hit opens with tid, cid and v = 1, and no later value is null or '' |
| GoogleAnalytics.QueryParamLookup | src/Adapter/GoogleAnalytics.php:78-104 | the i-th field of the query literal reaches the hit with its value exactly when that value is neither null nor '' |
| GoogleAnalytics.HitParamsShape | src/Adapter/GoogleAnalytics.php:78-104 | an event's hit opens with tid, cid and v = 1, has no later null or '' value, and has only documented, distinct names |
| GoogleAnalytics.HitType | src/Adapter/GoogleAnalytics.php:69-86 | the transmitted hit type `t` is "pageview" for a page view and "event" for anything else |
| GoogleAnalytics.EventAction | src/Adapter/GoogleAnalytics.php:69-80 | `ea` is the original custom type (a page view keeps its own action property), and it is dropped when null or '' |
| GoogleAnalytics.ScreenResolution | src/Adapter/GoogleAnalytics.php:74-89 | `sr` is "WxH" for truthy width and height; otherwise it is any `screenResolution` the event already carried, dropped when null or '' |
| GoogleAnalytics.QueryAccount | src/Adapter/GoogleAnalytics.php:94-96 | the query holds `cd1` exactly for a truthy account |
| GoogleAnalytics.AccountDimension | src/Adapter/GoogleAnalytics.php:94-96 | `cd1` is sent exactly when the account is truthy, and then equals it |
| GoogleAnalytics.NoClientIPNoUip | src/Adapter/GoogleAnalytics.php:87-98 | an unset or empty client IP leaves no `uip` in the hit |
| GoogleAnalytics.ResendOverwritesAction | src/Adapter/GoogleAnalytics.php:69-71 | after one send a custom event is typed "event", so a second send reports "event" as its action |
| GoogleAnalytics.HitRequestFor | src/Adapter/GoogleAnalytics.php:100-104 | the hit always becomes one URL-encoded POST with the single header line "Content-Type:" |
| GoogleAnalytics.HitGoesToEndpoint | src/Adapter/GoogleAnalytics.php:100 | both Google endpoints contain "http", so the hit goes to the endpoint itself, with no query string |
| GoogleAnalytics.HitOutcome | src/Adapter/GoogleAnalytics.php:106-111 | a failed call throws; otherwise the result is true, or for the debug endpoint the parser's verdict on the reply body |
| GoogleAnalytics.Send | src/Adapter/GoogleAnalytics.php:63-112 | disabled: false, no request, event untouched; enabled: the event is rewritten, exactly one hit request is appended, and the result is `HitOutcome` of its reply |
| Plausible.GoalOutcome | src/Adapter/Plausible.php:121-122 | provisioning succeeds exactly on a received status below 400, and then answers true |
| Plausible.GoalHeadersFacts | src/Adapter/Plausible.php:116-121 | the provisioning headers pass through the merge unchanged, and their content type is the form type |
| Plausible.EventHeadersFacts | src/Adapter/Plausible.php:90-96 | the event headers pass through the merge unchanged, and their content type is JSON |
| Plausible.GoalsPathUnderEndpoint | src/Adapter/Plausible.php:121 | the goals path does not contain "http", so it is appended to the endpoint |
| Plausible.EventPathUnderEndpoint | src/Adapter/Plausible.php:96 | the event path does not contain "http", so it is appended to the endpoint |
| Plausible.GoalRequestShape | src/Adapter/Plausible.php:110-121 | provisioning is always a URL-encoded PUT of {site_id, goal_type: "event", event_name} to endpoint + /v1/sites/goals |
| Plausible.EventRequestShape | src/Adapter/Plausible.php:81-96 | the event request is a JSON POST of {url, props, domain, name, referrer, screen_width} to endpoint + /event, or an encoding failure before sending |
| Plausible.EventParamsEncodable | src/Adapter/Plausible.php:81-88 | the event parameters can be JSON-encoded exactly when the event's properties can |
| Plausible.GoalGatesEvent | src/Adapter/Plausible.php:77-79 | a failed provisioning is the result, and only the PUT was issued |
| Plausible.BothCallsInOrder | src/Adapter/Plausible.php:77-97 | when both calls succeed the result is true, after exactly a PUT to the goals path followed by a POST to the event path |
| Plausible.OnlyTrueOrFailure | src/Adapter/Plausible.php:77-122 | once enabled, `send` answers true or fails, never false; it issues one or two requests, the PUT first |
| Plausible.ProvisionGoal | src/Adapter/Plausible.php:108-123 | appends exactly the provisioning PUT, and returns `GoalOutcome` of its reply |
| Plausible.PostEvent | src/Adapter/Plausible.php:81-96 | appends the event POST and classifies its reply, or fails with an encoding failure without sending anything |
| Plausible.Send | src/Adapter/Plausible.php:71-98 | disabled: false, no request; enabled: the result and the appended requests are those of `Exchange`; the event is not modified |
| Dispatch.Send | src/Adapter.php:44 | `send` is the backend's own: its result is `Expected`, the requests it appends are `ExpectedRequests`, and the event ends as `ExpectedEvent` of the state before the call (rewritten only by an enabled Google Analytics adapter); a disabled adapter sends nothing |
| Dispatch.SendCallCount | src/Adapter.php:44 | a disabled adapter makes no call and answers false; Google Analytics makes one call; Plausible makes one or two, and two whenever it answers true |
| Dispatch.CreateEvent | src/Adapter.php:107-115 | returns `send`'s answer when it completes, and false when it raises; it logs exactly one entry, naming the adapter and the failure, when `send` raises; the requests sent and the event's new state are those of `send` |

## Left out

- The cURL transport (`curl_init`, the options, `curl_exec`, `curl_getinfo`, `curl_errno`, `curl_close`, following redirects, the `php_uname`/`phpversion` user-agent option) is replaced by the recording `Runtime`, which answers the n-th request with `script(n)`.
- `json_encode`, `http_build_query`, `json_decode` and `parse_url` are not interpreted. A body and a URL record the parameters they encode. The decoders and `parse_url` are functions supplied to the runtime.
- Http.Encode: a `json_encode` failure is modelled only for the non-finite floats INF, -INF and NAN. Invalid UTF-8 and the depth limit are not modelled.
- Dispatch.CreateEvent: `logError` writes five console lines: name, class, message, file and line. The model appends one entry holding the adapter's name and the failure.
- Integer array keys are modelled as their decimal strings. Floats are opaque and carried by their PHP string form.
- Php.Merge: keys are assumed non-numeric. PHP's `array_merge` renumbers integer and numeric-string keys from 0, and the model keeps them as they are. For an event whose properties have such keys, the properties that Google Analytics `send` leaves on the event differ from `GoogleAnalytics.Prepared`.
- GoogleAnalytics.HitOutcome: the debug endpoint's `hitParsingResult[0].valid` is a supplied function of the reply body, giving an `Option<bool>`. None stands for a decoding failure. No source file declares `strict_types`, so `send`'s `bool` return type coerces an integer or string `valid` to bool, and a null or array `valid` raises a `TypeError`. The model does not represent either case, and PHP `Error`s in general are not modelled; only the `Exception` path is. A `parse_url` result without `host` or `path` reads as null after a warning, which the supplied `urlHost`/`urlPath` functions can return.
- The `Event` class is not part of these sources. It is modelled minimally: five fields, `getProp` (null for a missing key), and the two setters.
- Plausible.Send: the `return false` after `provisionGoal` is not modelled as a branch, because `provisionGoal` never answers false (Plausible.ProvisionGoal and Plausible.GoalOutcome).
- The two adapter subclasses are one class, `Adapters.Adapter`. A `backend` value holds each one's own credentials. `getName` is `Adapters.Adapter.Name`, and `send` is dispatched in `Dispatch.Send`.

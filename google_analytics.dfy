/** The Google Analytics adapter: an event becomes one Measurement Protocol hit,
    sent as a single URL-encoded POST. */
module GoogleAnalytics {
  import opened Wrappers
  import opened Php
  import opened Http
  import opened Events
  import opened Adapters

  /** The endpoint whose replies carry a parse verdict instead of an empty body. */
  const DEBUG_ENDPOINT := "https://www.google-analytics.com/debug/collect"

  /** Every parameter name a hit can carry. */
  const DOCUMENTED: set<string> :=
    {"tid", "cid", "v", "ec", "ea", "el", "ev", "dh", "dp", "dt", "t", "uip", "ua", "sr", "vp", "dr", "cd1"}

  /** The names of the `$query` literal, in order. */
  const QUERY_NAMES := ["ec", "ea", "el", "ev", "dh", "dp", "dt", "t", "uip", "ua", "sr", "vp", "dr"]

  // ---------------------------------------------------------------------
  // What `send` does to the event
  // ---------------------------------------------------------------------

  /** A custom type becomes the `action` property and the type turns into "event".
      `send` merges a one-entry array, which is the assignment `Put`
      (`Php.MergeSingle`). */
  function InjectAction(ev: EventData): (r: EventData)
    ensures ev.eventType == "pageview" ==> r == ev
    ensures ev.eventType != "pageview" ==> r.eventType == "event" && Prop(r, "action") == Str(ev.eventType)
    ensures r.name == ev.name && r.url == ev.url && r.value == ev.value
    ensures forall k :: k != "action" ==> Prop(r, k) == Prop(ev, k)
  {
    if ev.eventType == "pageview" then ev
    else
      var props := Put(ev.props, "action", Str(ev.eventType));
      assert forall k :: Lookup(props, k) == if k == "action" then Some(Str(ev.eventType)) else Lookup(ev.props, k) by {
        forall k { PutLookup(ev.props, "action", Str(ev.eventType), k); }
      }
      ev.(props := props, eventType := "event")
  }

  /** "width x height" as `screenResolution`, when both dimensions are truthy
      (again a one-entry merge, written as `Put`). */
  function AddResolution(ev: EventData): (r: EventData)
    ensures !(Truthy(Prop(ev, "screenWidth")) && Truthy(Prop(ev, "screenHeight"))) ==> r == ev
    ensures Truthy(Prop(ev, "screenWidth")) && Truthy(Prop(ev, "screenHeight")) ==>
              Prop(r, "screenResolution") == Str(ToStr(Prop(ev, "screenWidth")) + "x" + ToStr(Prop(ev, "screenHeight")))
    ensures r.name == ev.name && r.eventType == ev.eventType && r.url == ev.url && r.value == ev.value
    ensures forall k :: k != "screenResolution" ==> Prop(r, k) == Prop(ev, k)
  {
    var width, height := Prop(ev, "screenWidth"), Prop(ev, "screenHeight");
    if !(Truthy(width) && Truthy(height)) then ev
    else
      var sr := Str(ToStr(width) + "x" + ToStr(height));
      var props := Put(ev.props, "screenResolution", sr);
      assert forall k :: Lookup(props, k) == if k == "screenResolution" then Some(sr) else Lookup(ev.props, k) by {
        forall k { PutLookup(ev.props, "screenResolution", sr, k); }
      }
      ev.(props := props)
  }

  /** The event as `send` leaves it, and as the rest of `send` reads it. */
  function Prepared(ev: EventData): EventData {
    AddResolution(InjectAction(ev))
  }

  // ---------------------------------------------------------------------
  // The hit parameters
  // ---------------------------------------------------------------------

  /** The value the `$query` literal gives its `i`-th name. */
  function QueryValue(ev: EventData, clientIP: Option<string>, userAgent: string, lib: Library, i: nat): Value
    requires i < |QUERY_NAMES|
  {
    if i == 0 then Prop(ev, "category")
    else if i == 1 then Prop(ev, "action")
    else if i == 2 then Str(ev.name)
    else if i == 3 then ev.value
    else if i == 4 then lib.urlHost(ev.url)
    else if i == 5 then lib.urlPath(ev.url)
    else if i == 6 then Prop(ev, "documentTitle")
    else if i == 7 then Str(ev.eventType)
    else if i == 8 then Str(clientIP.GetOr(""))
    else if i == 9 then Str(userAgent)
    else if i == 10 then Prop(ev, "screenResolution")
    else if i == 11 then Prop(ev, "viewportSize")
    else Prop(ev, "referrer")
  }

  /** The first `n` entries of the literal: each name with its value, in order. */
  function QueryFields(ev: EventData, clientIP: Option<string>, userAgent: string, lib: Library, n: nat): (r: seq<Pair<Value>>)
    requires n <= |QUERY_NAMES|
    ensures |r| == n
    ensures forall i :: 0 <= i < n ==> r[i] == Pair(QUERY_NAMES[i], QueryValue(ev, clientIP, userAgent, lib, i))
  {
    if n == 0 then []
    else QueryFields(ev, clientIP, userAgent, lib, n - 1) + [Pair(QUERY_NAMES[n - 1], QueryValue(ev, clientIP, userAgent, lib, n - 1))]
  }

  /** The `$query` literal, before `cd1` and the filter. */
  function QueryLiteral(ev: EventData, clientIP: Option<string>, userAgent: string, lib: Library): seq<Pair<Value>> {
    QueryFields(ev, clientIP, userAgent, lib, |QUERY_NAMES|)
  }

  /** The query with the custom dimension `cd1` added for a truthy account. */
  function HitQuery(ev: EventData, clientIP: Option<string>, userAgent: string, lib: Library): seq<Pair<Value>> {
    var q := QueryLiteral(ev, clientIP, userAgent, lib);
    if Truthy(Prop(ev, "account")) then Put(q, "cd1", Prop(ev, "account")) else q
  }

  /** The parameters every hit starts with. */
  function Fixed(tid: string, cid: string): seq<Pair<Value>> {
    [Pair("tid", Str(tid)), Pair("cid", Str(cid)), Pair("v", Int(1))]
  }

  /** The `array_merge` of the fixed three with the filtered query. */
  function Params(tid: string, cid: string, query: seq<Pair<Value>>): seq<Pair<Value>> {
    Merge(Fixed(tid, cid), Filter(query))
  }

  /** The parameters of the hit for the event as it was before `send`. */
  function HitParams(tid: string, cid: string, clientIP: Option<string>, userAgent: string, lib: Library,
                     ev: EventData): seq<Pair<Value>> {
    Params(tid, cid, HitQuery(Prepared(ev), clientIP, userAgent, lib))
  }

  /** The one request of a hit. */
  function Hit(endpoint: string, tid: string, cid: string, clientIP: Option<string>, userAgent: string,
               lib: Library, ev: EventData): Request {
    var params := HitParams(tid, cid, clientIP, userAgent, lib, ev);
    Request("POST", TargetUrl(endpoint, "POST", endpoint, params), ["Content-Type:"], Some(UrlEncoded(params)))
  }

  /** What `send` returns once the hit has been answered: the error, the
      debug endpoint's verdict on the hit, or true. */
  function HitOutcome(endpoint: string, reply: Reply, lib: Library): (r: Result<bool, Failure>)
    ensures reply.TransportError? ==> r == Err(TransportFailure(reply.message))
    ensures reply.Received? && reply.status >= 400 ==> r.Err? && r.error.HttpFailure?
    ensures endpoint != DEBUG_ENDPOINT ==> (r.Ok? <==> reply.Received? && reply.status < 400) && (r.Ok? ==> r.value)
    ensures endpoint == DEBUG_ENDPOINT && reply.Received? && reply.status < 400 ==>
              r == (match lib.hitValid(reply.body) case Some(v) => Ok(v) case None => Err(DebugParseFailure))
  {
    match Classify(reply, lib.jsonDecode)
    case Err(f) => Err(f)
    case Ok(_) =>
      if endpoint == DEBUG_ENDPOINT then
        match lib.hitValid(reply.body)
        case Some(v) => Ok(v)
        case None => Err(DebugParseFailure)
      else Ok(true)
  }

  // ---------------------------------------------------------------------
  // Facts about the parameters
  // ---------------------------------------------------------------------

  /** The literal names each documented field once. */
  lemma LiteralKeys(ev: EventData, clientIP: Option<string>, userAgent: string, lib: Library)
    ensures Keys(QueryLiteral(ev, clientIP, userAgent, lib)) == QUERY_NAMES
    ensures DistinctKeys(QueryLiteral(ev, clientIP, userAgent, lib))
  {
    var lit := QueryLiteral(ev, clientIP, userAgent, lib);
    assert forall i :: 0 <= i < |lit| ==> Keys(lit)[i] == QUERY_NAMES[i];
    NamesDistinct();
    forall i, j | 0 <= i < j < |lit| ensures lit[i].key != lit[j].key {
      assert (QUERY_NAMES + ["cd1"])[i] == lit[i].key && (QUERY_NAMES + ["cd1"])[j] == lit[j].key;
    }
  }

  /** `cd1` comes last, and only for a truthy account. */
  lemma QueryShape(ev: EventData, clientIP: Option<string>, userAgent: string, lib: Library)
    ensures var q := HitQuery(ev, clientIP, userAgent, lib);
            && (Truthy(Prop(ev, "account")) ==> q == QueryLiteral(ev, clientIP, userAgent, lib) + [Pair("cd1", Prop(ev, "account"))])
            && (!Truthy(Prop(ev, "account")) ==> q == QueryLiteral(ev, clientIP, userAgent, lib))
            && Keys(q) == QUERY_NAMES + (if Truthy(Prop(ev, "account")) then ["cd1"] else [])
  {
    var lit := QueryLiteral(ev, clientIP, userAgent, lib);
    LiteralKeys(ev, clientIP, userAgent, lib);
    assert "cd1" !in QUERY_NAMES;
    if Truthy(Prop(ev, "account")) {
      KeysAppend(lit, Pair("cd1", Prop(ev, "account")));
    }
  }

  /** The query's possible names, `cd1` included, are distinct documented names. */
  lemma NamesDistinct()
    ensures forall i, j :: 0 <= i < j < |QUERY_NAMES + ["cd1"]| ==> (QUERY_NAMES + ["cd1"])[i] != (QUERY_NAMES + ["cd1"])[j]
    ensures forall k :: k in QUERY_NAMES + ["cd1"] ==> k in DOCUMENTED && k != "tid" && k != "cid" && k != "v"
  {
  }

  /** No name of the query repeats, and none is one of the fixed three. */
  lemma QueryKeys(ev: EventData, clientIP: Option<string>, userAgent: string, lib: Library)
    ensures var q := HitQuery(ev, clientIP, userAgent, lib);
            && DistinctKeys(q)
            && (forall k :: k in Keys(q) ==> k in DOCUMENTED && k != "tid" && k != "cid" && k != "v")
  {
    QueryShape(ev, clientIP, userAgent, lib);
    NamesDistinct();
    var q := HitQuery(ev, clientIP, userAgent, lib);
    var names := QUERY_NAMES + ["cd1"];
    assert Keys(q) <= names;
    forall i, j | 0 <= i < j < |q| ensures q[i].key != q[j].key {
      assert q[i].key == names[i] && q[j].key == names[j];
    }
    forall k | k in Keys(q) ensures k in DOCUMENTED && k != "tid" && k != "cid" && k != "v" {
      assert k in names;
    }
  }

  /** A query that could come out of `HitQuery`: distinct names, none of the fixed three. */
  ghost predicate WellNamed(query: seq<Pair<Value>>) {
    DistinctKeys(query) && forall k :: k in Keys(query) ==> k != "tid" && k != "cid" && k != "v"
  }

  /** The hit is `tid`, `cid`, `v` followed by the surviving query entries:
      the merge never has a key in common to resolve. */
  lemma {:induction false} ParamsLayout(tid: string, cid: string, query: seq<Pair<Value>>)
    requires WellNamed(query)
    ensures Params(tid, cid, query) == Fixed(tid, cid) + Filter(query)
    ensures DistinctKeys(Params(tid, cid, query))
  {
    FilterAvoidsFixed(tid, cid, query);
    MergeDisjoint(Fixed(tid, cid), Filter(query));
    DisjointAppendDistinct(Fixed(tid, cid), Filter(query));
  }

  lemma FixedKeys(tid: string, cid: string)
    ensures Keys(Fixed(tid, cid)) == ["tid", "cid", "v"] && DistinctKeys(Fixed(tid, cid))
  {
  }

  /** The filtered query of a well-named query shares no key with the fixed three. */
  lemma FilterAvoidsFixed(tid: string, cid: string, query: seq<Pair<Value>>)
    requires WellNamed(query)
    ensures DistinctKeys(Fixed(tid, cid)) && DistinctKeys(Filter(query))
    ensures forall k :: k in Keys(Filter(query)) ==> k !in Keys(Fixed(tid, cid))
  {
    FixedKeys(tid, cid);
  }

  /** A query entry reaches the hit exactly when it is neither null nor ''. */
  lemma {:induction false} ParamsLookup(tid: string, cid: string, query: seq<Pair<Value>>, k: string)
    requires WellNamed(query)
    requires k != "tid" && k != "cid" && k != "v"
    ensures Lookup(Params(tid, cid, query), k) ==
              if Lookup(query, k).Some? && Kept(Lookup(query, k).value) then Lookup(query, k) else None
  {
    ParamsLayout(tid, cid, query);
    assert Keys(Fixed(tid, cid)) == ["tid", "cid", "v"];
    LookupPrefix(Fixed(tid, cid), Filter(query), k);
    FilterLookup(query, k);
  }

  /** What `HitQuery` builds is well named. */
  lemma QueryWellNamed(ev: EventData, clientIP: Option<string>, userAgent: string, lib: Library)
    ensures WellNamed(HitQuery(ev, clientIP, userAgent, lib))
  {
    QueryKeys(ev, clientIP, userAgent, lib);
  }

  /** The entry at position `i` of the literal is what the query holds under its name. */
  lemma {:induction false} QueryLookup(ev: EventData, clientIP: Option<string>, userAgent: string, lib: Library, i: nat)
    requires i < |QUERY_NAMES|
    ensures Lookup(HitQuery(ev, clientIP, userAgent, lib), QUERY_NAMES[i]) ==
            Some(QueryValue(ev, clientIP, userAgent, lib, i))
  {
    var lit := QueryLiteral(ev, clientIP, userAgent, lib);
    LiteralKeys(ev, clientIP, userAgent, lib);
    assert lit[i].key == QUERY_NAMES[i];
    LookupMember(lit, QUERY_NAMES[i], lit[i].val);
    if Truthy(Prop(ev, "account")) {
      NamesDistinct();
      assert QUERY_NAMES[i] != "cd1" by {
        assert (QUERY_NAMES + ["cd1"])[i] == QUERY_NAMES[i];
        assert (QUERY_NAMES + ["cd1"])[13] == "cd1";
      }
      PutLookup(lit, "cd1", Prop(ev, "account"), QUERY_NAMES[i]);
    }
  }

  /** Where the literal puts the names whose values the event decides. */
  lemma NamePositions()
    ensures QUERY_NAMES[1] == "ea" && QUERY_NAMES[7] == "t" && QUERY_NAMES[8] == "uip" && QUERY_NAMES[10] == "sr"
  {
  }

  /** The literal's values for the fields whose source the event decides. */
  lemma LiteralValues(ev: EventData, clientIP: Option<string>, userAgent: string, lib: Library)
    ensures QueryValue(ev, clientIP, userAgent, lib, 1) == Prop(ev, "action")
    ensures QueryValue(ev, clientIP, userAgent, lib, 7) == Str(ev.eventType)
    ensures QueryValue(ev, clientIP, userAgent, lib, 8) == Str(clientIP.GetOr(""))
    ensures QueryValue(ev, clientIP, userAgent, lib, 10) == Prop(ev, "screenResolution")
  {
  }

  /** The `i`-th field of the literal reaches the parameters exactly when it survives the filter. */
  lemma {:induction false} QueryParamLookup(tid: string, cid: string, clientIP: Option<string>, userAgent: string,
                                            lib: Library, ev: EventData, i: nat, name: string, v: Value)
    requires i < |QUERY_NAMES| && name == QUERY_NAMES[i]
    requires v == QueryValue(ev, clientIP, userAgent, lib, i)
    ensures Lookup(Params(tid, cid, HitQuery(ev, clientIP, userAgent, lib)), name) == if Kept(v) then Some(v) else None
  {
    var q := HitQuery(ev, clientIP, userAgent, lib);
    QueryWellNamed(ev, clientIP, userAgent, lib);
    QueryLookup(ev, clientIP, userAgent, lib, i);
    assert QUERY_NAMES[i] != "tid" && QUERY_NAMES[i] != "cid" && QUERY_NAMES[i] != "v" by {
      NamesDistinct();
      assert QUERY_NAMES[i] in QUERY_NAMES + ["cd1"];
    }
    ParamsLookup(tid, cid, q, QUERY_NAMES[i]);
  }

  // ---------------------------------------------------------------------
  // What the source promises about a hit
  // ---------------------------------------------------------------------

  /** `send` leaves a page view typed "pageview" and every other event typed "event". */
  lemma PreparedType(ev: EventData)
    ensures Prepared(ev).eventType == if ev.eventType == "pageview" then "pageview" else "event"
  {
    assert Prepared(ev).eventType == InjectAction(ev).eventType;
  }

  /** The action property `send` leaves on the event: the custom type, or for a
      page view the action it already had. */
  lemma PreparedAction(ev: EventData)
    ensures Prop(Prepared(ev), "action") == if ev.eventType == "pageview" then Prop(ev, "action") else Str(ev.eventType)
  {
    assert Prop(Prepared(ev), "action") == Prop(InjectAction(ev), "action");
  }

  /** The screen resolution `send` leaves on the event. */
  lemma PreparedResolution(ev: EventData)
    ensures var width, height := Prop(ev, "screenWidth"), Prop(ev, "screenHeight");
            Prop(Prepared(ev), "screenResolution") ==
              if Truthy(width) && Truthy(height) then Str(ToStr(width) + "x" + ToStr(height))
              else Prop(ev, "screenResolution")
  {
    var injected := InjectAction(ev);
    assert Prop(injected, "screenWidth") == Prop(ev, "screenWidth");
    assert Prop(injected, "screenHeight") == Prop(ev, "screenHeight");
    assert Prop(injected, "screenResolution") == Prop(ev, "screenResolution");
  }

  /** The hit type is always "pageview" or "event". */
  lemma HitType(tid: string, cid: string, clientIP: Option<string>, userAgent: string, lib: Library, ev: EventData)
    ensures Lookup(HitParams(tid, cid, clientIP, userAgent, lib, ev), "t") ==
            Some(Str(if ev.eventType == "pageview" then "pageview" else "event"))
  {
    NamePositions();
    var p := Prepared(ev);
    PreparedType(ev);
    assert Kept(Str(p.eventType));
    LiteralValues(p, clientIP, userAgent, lib);
    QueryParamLookup(tid, cid, clientIP, userAgent, lib, p, 7, "t", Str(p.eventType));
  }

  /** A custom type travels as the event action `ea` (unless it is '', which the
      filter drops); a page view keeps whatever action property it had. */
  lemma EventAction(tid: string, cid: string, clientIP: Option<string>, userAgent: string, lib: Library, ev: EventData)
    ensures var action := if ev.eventType == "pageview" then Prop(ev, "action") else Str(ev.eventType);
            Lookup(HitParams(tid, cid, clientIP, userAgent, lib, ev), "ea") == if Kept(action) then Some(action) else None
  {
    NamePositions();
    var action := if ev.eventType == "pageview" then Prop(ev, "action") else Str(ev.eventType);
    PreparedAction(ev);
    LiteralValues(Prepared(ev), clientIP, userAgent, lib);
    QueryParamLookup(tid, cid, clientIP, userAgent, lib, Prepared(ev), 1, "ea", action);
  }

  /** `sr` is "width x height" when both are truthy; otherwise it is whatever
      `screenResolution` the event already carried, if that survives the filter. */
  lemma ScreenResolution(tid: string, cid: string, clientIP: Option<string>, userAgent: string, lib: Library, ev: EventData)
    ensures var width, height := Prop(ev, "screenWidth"), Prop(ev, "screenHeight");
            var sr := if Truthy(width) && Truthy(height) then Str(ToStr(width) + "x" + ToStr(height))
                      else Prop(ev, "screenResolution");
            Lookup(HitParams(tid, cid, clientIP, userAgent, lib, ev), "sr") == if Kept(sr) then Some(sr) else None
  {
    NamePositions();
    var width, height := Prop(ev, "screenWidth"), Prop(ev, "screenHeight");
    var sr := if Truthy(width) && Truthy(height) then Str(ToStr(width) + "x" + ToStr(height))
              else Prop(ev, "screenResolution");
    PreparedResolution(ev);
    LiteralValues(Prepared(ev), clientIP, userAgent, lib);
    QueryParamLookup(tid, cid, clientIP, userAgent, lib, Prepared(ev), 10, "sr", sr);
  }

  /** The query holds `cd1` exactly for a truthy account. */
  lemma QueryAccount(ev: EventData, clientIP: Option<string>, userAgent: string, lib: Library)
    ensures var account := Prop(ev, "account");
            Lookup(HitQuery(ev, clientIP, userAgent, lib), "cd1") == if Truthy(account) then Some(account) else None
  {
    QueryShape(ev, clientIP, userAgent, lib);
    LiteralKeys(ev, clientIP, userAgent, lib);
    assert "cd1" !in QUERY_NAMES;
    PutLookup(QueryLiteral(ev, clientIP, userAgent, lib), "cd1", Prop(ev, "account"), "cd1");
  }

  /** `cd1` is present exactly when the account property is truthy, and is that property. */
  lemma AccountDimension(tid: string, cid: string, clientIP: Option<string>, userAgent: string, lib: Library, ev: EventData)
    ensures var account := Prop(ev, "account");
            Lookup(HitParams(tid, cid, clientIP, userAgent, lib, ev), "cd1") == if Truthy(account) then Some(account) else None
  {
    var p := Prepared(ev);
    var q := HitQuery(p, clientIP, userAgent, lib);
    assert Prop(p, "account") == Prop(ev, "account");
    QueryAccount(p, clientIP, userAgent, lib);
    QueryWellNamed(p, clientIP, userAgent, lib);
    ParamsLookup(tid, cid, q, "cd1");
    if Truthy(Prop(ev, "account")) {
      TruthyIsKept(Prop(ev, "account"));
    }
  }

  /** The hit opens with `tid`, `cid`, `v` = 1, and after them nothing is null
      or '' (0 and false stay; the fixed three are not filtered). */
  lemma {:induction false} ParamsShape(tid: string, cid: string, query: seq<Pair<Value>>)
    requires WellNamed(query)
    ensures var params := Params(tid, cid, query);
            && |params| >= 3 && params[..3] == [Pair("tid", Str(tid)), Pair("cid", Str(cid)), Pair("v", Int(1))]
            && (forall i :: 3 <= i < |params| ==> Kept(params[i].val))
            && (forall k :: k in Keys(params) ==> k in {"tid", "cid", "v"} || k in Keys(query))
  {
    ParamsLayout(tid, cid, query);
    FixedKeys(tid, cid);
    var fixed, f := Fixed(tid, cid), Filter(query);
    var params := fixed + f;
    assert params[..3] == fixed;
    forall i | 3 <= i < |params| ensures Kept(params[i].val) {
      assert params[i] == f[i - 3] && f[i - 3] in f;
    }
    KeysConcat(fixed, f);
    forall k | k in Keys(params) ensures k in {"tid", "cid", "v"} || k in Keys(query) {
      assert k in Keys(fixed) || k in Keys(f);
    }
  }

  /** The same for the hit of an event, whose names are all documented. */
  lemma HitParamsShape(tid: string, cid: string, clientIP: Option<string>, userAgent: string, lib: Library, ev: EventData)
    ensures var params := HitParams(tid, cid, clientIP, userAgent, lib, ev);
            && |params| >= 3 && params[..3] == [Pair("tid", Str(tid)), Pair("cid", Str(cid)), Pair("v", Int(1))]
            && (forall i :: 3 <= i < |params| ==> Kept(params[i].val))
            && (forall k :: k in Keys(params) ==> k in DOCUMENTED)
            && DistinctKeys(params)
  {
    var q := HitQuery(Prepared(ev), clientIP, userAgent, lib);
    QueryKeys(Prepared(ev), clientIP, userAgent, lib);
    ParamsLayout(tid, cid, q);
    ParamsShape(tid, cid, q);
  }

  /** Without a client IP (or with an empty one) the hit has no `uip`. */
  lemma NoClientIPNoUip(tid: string, cid: string, clientIP: Option<string>, userAgent: string, lib: Library, ev: EventData)
    requires clientIP.GetOr("") == ""
    ensures "uip" !in Keys(HitParams(tid, cid, clientIP, userAgent, lib, ev))
  {
    NamePositions();
    LiteralValues(Prepared(ev), clientIP, userAgent, lib);
    assert !Kept(Str(""));
    QueryParamLookup(tid, cid, clientIP, userAgent, lib, Prepared(ev), 8, "uip", Str(""));
  }

  /** `send` leaves a custom event typed "event", so sending it again reports
      "event" as its action. */
  lemma ResendOverwritesAction(ev: EventData)
    requires ev.eventType != "pageview"
    ensures Prepared(ev).eventType == "event"
    ensures Prop(Prepared(ev), "action") == Str(ev.eventType)
    ensures Prop(Prepared(Prepared(ev)), "action") == Str("event")
  {
    assert Prop(Prepared(ev), "action") == Prop(InjectAction(ev), "action");
    var p := Prepared(ev);
    assert Prop(Prepared(p), "action") == Prop(InjectAction(p), "action");
  }

  /** `call` turns the hit into exactly one URL-encoded POST: the default headers
      are the empty content type, so `http_build_query` is chosen. */
  lemma HitRequestFor(endpoint: string, tid: string, cid: string, clientIP: Option<string>, userAgent: string,
                      lib: Library, ev: EventData)
    ensures var params := HitParams(tid, cid, clientIP, userAgent, lib, ev);
            RequestFor(endpoint, GA_HEADERS, "POST", endpoint, [], params) ==
              Ok(Hit(endpoint, tid, cid, clientIP, userAgent, lib, ev))
  {
    assert Merge(GA_HEADERS, []) == GA_HEADERS;
    assert Lookup(GA_HEADERS, "Content-Type") == Some("");
    assert "Content-Type" + ":" + "" == "Content-Type:";
    assert HeaderLines(GA_HEADERS) == ["Content-Type:"];
  }

  /** Both Google endpoints contain "http", so the hit goes to the endpoint itself. */
  lemma HitGoesToEndpoint(endpoint: string, tid: string, cid: string, clientIP: Option<string>, userAgent: string,
                          lib: Library, ev: EventData)
    requires endpoint == GA_ENDPOINT || endpoint == DEBUG_ENDPOINT
    ensures Hit(endpoint, tid, cid, clientIP, userAgent, lib, ev).url == Url(endpoint, None)
  {
    assert "http" <= endpoint;
    HttpPrefixContains(endpoint);
  }

  // ---------------------------------------------------------------------
  // send
  // ---------------------------------------------------------------------

  /** The first half of `send`: inject the action, derive the screen resolution. */
  method PrepareEvent(e: Event)
    modifies e
    ensures e.Data() == Prepared(old(e.Data()))
  {
    ghost var before := e.Data();
    if e.eventType != "pageview" {
      MergeSingle(e.props, "action", Str(e.eventType));
      e.SetProps(Merge(e.props, [Pair("action", Str(e.eventType))]));
      e.SetType("event");
    }
    assert e.Data() == InjectAction(before);
    if Truthy(e.GetProp("screenWidth")) && Truthy(e.GetProp("screenHeight")) {
      var resolution := Str(ToStr(e.GetProp("screenWidth")) + "x" + ToStr(e.GetProp("screenHeight")));
      MergeSingle(e.props, "screenResolution", resolution);
      e.SetProps(Merge(e.props, [Pair("screenResolution", resolution)]));
    }
  }

  /** `send`: rewrite the event, build the query, POST it once. */
  method Send(a: Adapter, e: Event) returns (r: Result<bool, Failure>)
    requires a.Valid() && a.backend.GoogleAnalyticsConfig?
    modifies e, a.runtime`sent
    ensures !old(a.enabled) ==> r == Ok(false) && unchanged(e) && a.runtime.sent == old(a.runtime.sent)
    ensures old(a.enabled) ==> e.Data() == Prepared(old(e.Data()))
    ensures old(a.enabled) ==>
              a.runtime.sent == old(a.runtime.sent) +
                [old(Hit(a.endpoint, a.backend.tid, a.backend.cid, a.clientIP, a.userAgent, a.runtime.lib, e.Data()))]
    ensures old(a.enabled) ==> r == old(HitOutcome(a.endpoint, a.runtime.NextReply(), a.runtime.lib))
  {
    if !a.enabled {
      return Ok(false);
    }
    ghost var before := e.Data();
    ghost var reply := a.runtime.NextReply();
    ghost var sent0 := a.runtime.sent;
    var endpoint, clientIP, userAgent, lib := a.endpoint, a.clientIP, a.userAgent, a.runtime.lib;
    PrepareEvent(e);
    var query := QueryLiteral(e.Data(), clientIP, userAgent, lib);
    if Truthy(e.GetProp("account")) {
      query := Put(query, "cd1", e.GetProp("account"));
    }
    query := Filter(query);
    var params := Merge(Fixed(a.backend.tid, a.backend.cid), query);
    assert params == HitParams(a.backend.tid, a.backend.cid, clientIP, userAgent, lib, before);
    ghost var hit := Hit(endpoint, a.backend.tid, a.backend.cid, clientIP, userAgent, lib, before);
    HitRequestFor(endpoint, a.backend.tid, a.backend.cid, clientIP, userAgent, lib, before);
    assert RequestFor(a.endpoint, a.headers, "POST", a.endpoint, [], params) == Ok(hit);
    var result := a.Call("POST", a.endpoint, [], params);
    assert result == Classify(reply, lib.jsonDecode);
    assert a.runtime.sent == sent0 + [hit];
    match result {
      case Err(f) =>
        r := Err(f);
      case Ok(payload) =>
        if endpoint == DEBUG_ENDPOINT {
          assert payload == Raw(reply.body);
          match lib.hitValid(payload.text) {
            case Some(v) => r := Ok(v);
            case None => r := Err(DebugParseFailure);
          }
        } else {
          r := Ok(true);
        }
    }
    assert r == HitOutcome(endpoint, reply, lib);
  }
}

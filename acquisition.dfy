/** The acquisition fallback chain: `scrape_with_multiple_methods` and
    `try_api_extraction` (flexible_scraper.py:74-152), as specification
    functions over what the browser, the HTTP client and the API return. */
module Acquisition {
  import opened Wrappers
  import opened Values
  import opened Oracles
  import opened Extraction
  import opened QualityGate

  /** Selenium: driver setup, navigation, waits, screenshot and HTML dump
      either raise or leave a rendered page. */
  datatype BrowserOutcome = BrowserRaised | Rendered(page: Page)

  /** `session.get(url, timeout=30)`: raises or answers with a status and a body. */
  datatype HttpOutcome = HttpRaised | Response(status: int, page: Page)

  /** `session.request(...)`, `raise_for_status()` and `resp.json()`: raise or
      give the parsed JSON body. */
  datatype ApiOutcome = ApiRaised | ApiJson(body: Value)

  /** What the outside world answers while one URL is processed. */
  datatype Fetch = Fetch(browser: BrowserOutcome, http: HttpOutcome, api: ApiOutcome)

  /** The endpoint is a dict with a truthy `url` and a `method` that is absent
      or a string: `try_api_extraction` gets as far as sending the request. */
  predicate ApiRequestMade(cfg: Config)
  {
    "api_endpoint" in cfg && cfg["api_endpoint"].Dict?
    && var d := cfg["api_endpoint"].entries;
    "url" in d && Truthy(d["url"]) && ("method" !in d || d["method"].Str?)
  }

  /** `try_api_extraction()`: `{}` when the endpoint has no truthy `url`;
      raises when `api_endpoint` is not a dict (`.get` fails), when `method` is
      present but not a string (`.upper()` fails), or when the request does. */
  function TryApiExtraction(cfg: Config, response: ApiOutcome): (r: Result<Value>)
    ensures "api_endpoint" !in cfg ==> r == Ok(Dict(map[]))
    ensures r.Ok? && r.value != Dict(map[]) ==> response == ApiJson(r.value)
    ensures "api_endpoint" in cfg && cfg["api_endpoint"].Dict? &&
            ("url" !in cfg["api_endpoint"].entries || !Truthy(cfg["api_endpoint"].entries["url"]))
            ==> r == Ok(Dict(map[]))
    ensures "api_endpoint" in cfg && !cfg["api_endpoint"].Dict? ==> r == Raised
    ensures ApiRequestMade(cfg) && response == ApiRaised ==> r == Raised
    ensures ApiRequestMade(cfg) && response.ApiJson? ==> r == Ok(response.body)
    ensures "api_endpoint" in cfg && cfg["api_endpoint"].Dict? &&
            "url" in cfg["api_endpoint"].entries && Truthy(cfg["api_endpoint"].entries["url"]) &&
            "method" in cfg["api_endpoint"].entries && !cfg["api_endpoint"].entries["method"].Str?
            ==> r == Raised
  {
    var apiCfg := if "api_endpoint" in cfg then cfg["api_endpoint"] else Dict(map[]);
    match apiCfg
    case Dict(d) =>
      var url := if "url" in d then d["url"] else Null;
      if !Truthy(url) then Ok(Dict(map[]))
      else if "method" in d && !d["method"].Str? then Raised
      else
        (match response
         case ApiRaised => Raised
         case ApiJson(v) => Ok(v))
    case _ => Raised
  }

  /** The gate passes (a raise inside the gate is caught like a reject). */
  predicate Passes(cfg: Config, data: Record, eng: Engine)
  {
    IsExtractionSuccessful(cfg, data, eng) == Some(true)
  }

  /** Method 1: the Selenium extraction, None when anything before it raised
      or the extraction itself raised. */
  ghost function SeleniumAttempt(fields: FieldConfig, eng: Engine, b: BrowserOutcome): (r: Option<Record>)
    ensures r.Some? <==> b.Rendered? && Extract(b.page, fields, Selenium, eng).Ok?
    ensures r.Some? ==>
      r.value.Keys == fields.Keys
      && forall k :: k in fields ==> FieldValue(b.page, fields[k], Selenium, eng) == Ok(r.value[k])
  {
    match b
    case BrowserRaised => None
    case Rendered(page) => Extract(page, fields, Selenium, eng).ToOption()
  }

  /** Method 2: the Requests extraction, attempted only on status 200. */
  ghost function RequestsAttempt(fields: FieldConfig, eng: Engine, h: HttpOutcome): (r: Option<Record>)
    ensures r.Some? <==> h.Response? && h.status == 200 && Extract(h.page, fields, Requests, eng).Ok?
    ensures r.Some? ==>
      r.value.Keys == fields.Keys
      && forall k :: k in fields ==> FieldValue(h.page, fields[k], Requests, eng) == Ok(r.value[k])
  {
    match h
    case HttpRaised => None
    case Response(status, page) =>
      if status == 200 then Extract(page, fields, Requests, eng).ToOption() else None
  }

  /** Method 3: the API result, attempted only when the key `api_endpoint` is present. */
  function ApiAttempt(cfg: Config, a: ApiOutcome): (r: Option<Value>)
    ensures "api_endpoint" !in cfg ==> r.None?
    ensures r.Some? && r.value != Dict(map[]) ==> a == ApiJson(r.value)
    ensures ApiRequestMade(cfg) ==> (r.Some? <==> a.ApiJson?)
  {
    if "api_endpoint" in cfg then TryApiExtraction(cfg, a).ToOption() else None
  }

  /** What `scrape_with_multiple_methods` returns: the first extraction that
      passes the gate, else a truthy API result, else the last extraction that
      completed (Requests over Selenium), else `{}`. */
  ghost function ScrapeResult(cfg: Config, fields: FieldConfig, eng: Engine, f: Fetch): (r: Value)
    ensures r.Dict? || ("api_endpoint" in cfg && Truthy(r) && f.api == ApiJson(r))
    ensures r.Dict? && r != Dict(map[]) && r.entries.Keys != fields.Keys ==>
      "api_endpoint" in cfg && f.api == ApiJson(r)
  {
    var sel := SeleniumAttempt(fields, eng, f.browser);
    if sel.Some? && Passes(cfg, sel.value, eng) then Dict(sel.value)
    else
      var req := RequestsAttempt(fields, eng, f.http);
      if req.Some? && Passes(cfg, req.value, eng) then Dict(req.value)
      else
        var api := ApiAttempt(cfg, f.api);
        if api.Some? && Truthy(api.value) then api.value
        else Dict(if req.Some? then req.value else if sel.Some? then sel.value else map[])
  }

  /** An accepted Selenium extraction is returned; Requests and the API are
      never consulted. */
  lemma SeleniumAcceptedStops(cfg: Config, fields: FieldConfig, eng: Engine, f: Fetch, h: HttpOutcome, a: ApiOutcome)
    requires SeleniumAttempt(fields, eng, f.browser).Some?
    requires Passes(cfg, SeleniumAttempt(fields, eng, f.browser).value, eng)
    ensures ScrapeResult(cfg, fields, eng, f) == Dict(SeleniumAttempt(fields, eng, f.browser).value)
    ensures ScrapeResult(cfg, fields, eng, f.(http := h, api := a)) == ScrapeResult(cfg, fields, eng, f)
  {
  }

  /** An accepted Requests extraction (after Selenium was not accepted) is
      returned; the API is never consulted. */
  lemma RequestsAcceptedStops(cfg: Config, fields: FieldConfig, eng: Engine, f: Fetch, a: ApiOutcome)
    requires !(SeleniumAttempt(fields, eng, f.browser).Some? && Passes(cfg, SeleniumAttempt(fields, eng, f.browser).value, eng))
    requires RequestsAttempt(fields, eng, f.http).Some?
    requires Passes(cfg, RequestsAttempt(fields, eng, f.http).value, eng)
    ensures ScrapeResult(cfg, fields, eng, f) == Dict(RequestsAttempt(fields, eng, f.http).value)
    ensures ScrapeResult(cfg, fields, eng, f.(api := a)) == ScrapeResult(cfg, fields, eng, f)
  {
  }

  /** A response whose status is not exactly 200 counts as a failed request:
      its body is never extracted. */
  lemma Non200IsFailure(cfg: Config, fields: FieldConfig, eng: Engine, f: Fetch, status: int, page: Page)
    requires status != 200
    ensures ScrapeResult(cfg, fields, eng, f.(http := Response(status, page)))
         == ScrapeResult(cfg, fields, eng, f.(http := HttpRaised))
  {
  }

  /** Best effort: when no extraction is accepted and the API gives nothing
      truthy, the result is the Requests extraction if a 200 was extracted,
      else the Selenium extraction if one completed, else `{}`. */
  lemma BestEffortResult(cfg: Config, fields: FieldConfig, eng: Engine, f: Fetch)
    requires var sel := SeleniumAttempt(fields, eng, f.browser); !(sel.Some? && Passes(cfg, sel.value, eng))
    requires var req := RequestsAttempt(fields, eng, f.http); !(req.Some? && Passes(cfg, req.value, eng))
    requires var api := ApiAttempt(cfg, f.api); !(api.Some? && Truthy(api.value))
    ensures var sel := SeleniumAttempt(fields, eng, f.browser);
      var req := RequestsAttempt(fields, eng, f.http);
      ScrapeResult(cfg, fields, eng, f)
        == Dict(if req.Some? then req.value else if sel.Some? then sel.value else map[])
  {
  }

  /** Every browser, HTTP and API failure together still yields `{}`. */
  lemma AllFailedGivesEmpty(cfg: Config, fields: FieldConfig, eng: Engine)
    ensures ScrapeResult(cfg, fields, eng, Fetch(BrowserRaised, HttpRaised, ApiRaised)) == Dict(map[])
  {
  }

  /** A truthy API result is returned as it is, without passing the gate. */
  lemma ApiTruthyReturned(cfg: Config, fields: FieldConfig, eng: Engine, f: Fetch)
    requires var sel := SeleniumAttempt(fields, eng, f.browser); !(sel.Some? && Passes(cfg, sel.value, eng))
    requires var req := RequestsAttempt(fields, eng, f.http); !(req.Some? && Passes(cfg, req.value, eng))
    requires "api_endpoint" in cfg
    requires TryApiExtraction(cfg, f.api).Ok? && Truthy(TryApiExtraction(cfg, f.api).value)
    ensures ScrapeResult(cfg, fields, eng, f) == TryApiExtraction(cfg, f.api).value
  {
  }

  /** Without the key `api_endpoint` the API is never consulted and the
      result is always a dict. */
  lemma NoEndpointNoApi(cfg: Config, fields: FieldConfig, eng: Engine, f: Fetch, a: ApiOutcome)
    requires "api_endpoint" !in cfg
    ensures ScrapeResult(cfg, fields, eng, f.(api := a)) == ScrapeResult(cfg, fields, eng, f)
    ensures ScrapeResult(cfg, fields, eng, f).Dict?
  {
    assert ApiAttempt(cfg, a).None? && ApiAttempt(cfg, f.api).None?;
  }

  /** The chain never raises; its result is a dict unless it is a truthy API
      body that is not one. */
  lemma ResultShape(cfg: Config, fields: FieldConfig, eng: Engine, f: Fetch)
    ensures var r := ScrapeResult(cfg, fields, eng, f);
      r.Dict? || ("api_endpoint" in cfg && TryApiExtraction(cfg, f.api) == Ok(r) && Truthy(r) && f.api == ApiJson(r))
  {
  }
}

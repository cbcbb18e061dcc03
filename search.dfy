/**
 * Web search through the gateway (src/search.ts): the configuration guard,
 * the request headers, the choice of the result list in the gateway's
 * reply and the normalisation of each hit. The clock, logging and the
 * proxy agent are not part of this model.
 */
module Search {
  import opened Base
  import opened Text
  import opened Js
  import opened ErrorHandler
  import opened UrlReader

  const DefaultLimit: real := 10.0

  function InvalidGatewayMessage(gatewayUrl: string): string {
    "Invalid GATEWAY_URL format: " + gatewayUrl + ". Use format: http://your-gateway.com:80"
  }

  /**
   * The message of a reply that is not JSON. `response.json()` has already
   * consumed the body when it fails, so the `response.text()` fallback
   * always throws and the placeholder is what the message carries.
   */
  const JsonFailureMessage: string := "Failed to parse JSON response: [Could not read response text]"

  const NotAnArrayMessage: string := "Invalid response format: results is not an array"

  /** A thrown MCPSearXNGError, or a plain Error with its message. */
  datatype Failure = McpFailure(error: McpError) | PlainFailure(message: string)

  // ---------------------------------------------------------------------
  // Request

  /** The headers of the search request, built as the source mutates them. */
  method BuildHeaders(env: Env, base64: string -> string) returns (headers: map<string, string>)
    ensures headers == Headers(env, base64)
  {
    headers := map["Content-Type" := "application/json"];
    var username := EnvGet(env, "AUTH_USERNAME");
    var password := EnvGet(env, "AUTH_PASSWORD");
    if IsSet(username) && IsSet(password) {
      headers := headers["Authorization" := "Basic " + base64(username.value + ":" + password.value)];
    }
    var userAgent := EnvGet(env, "USER_AGENT");
    if IsSet(userAgent) {
      headers := headers["User-Agent" := userAgent.value];
    }
  }

  /**
   * The headers as a value: JSON content, basic authentication exactly
   * when both credentials are set, and the configured user agent.
   */
  function Headers(env: Env, base64: string -> string): (h: map<string, string>)
    ensures h.Keys <= {"Content-Type", "Authorization", "User-Agent"}
    ensures "Content-Type" in h && h["Content-Type"] == "application/json"
    ensures "Authorization" in h <==> EnvSet(env, "AUTH_USERNAME") && EnvSet(env, "AUTH_PASSWORD")
    ensures "Authorization" in h ==>
              h["Authorization"] == "Basic " + base64(env["AUTH_USERNAME"] + ":" + env["AUTH_PASSWORD"])
    ensures "User-Agent" in h <==> EnvSet(env, "USER_AGENT")
    ensures "User-Agent" in h ==> h["User-Agent"] == env["USER_AGENT"]
  {
    var h0 := map["Content-Type" := "application/json"];
    var h1 := if EnvSet(env, "AUTH_USERNAME") && EnvSet(env, "AUTH_PASSWORD")
              then h0["Authorization" := "Basic " + base64(env["AUTH_USERNAME"] + ":" + env["AUTH_PASSWORD"])]
              else h0;
    if EnvSet(env, "USER_AGENT") then h1["User-Agent" := env["USER_AGENT"]] else h1
  }

  /** The POST request: the resolved endpoint, the headers and the JSON body `{query, limit}`. */
  datatype SearchRequest = SearchRequest(url: string, headers: map<string, string>, body: JsValue)

  function RequestBody(query: string, limit: real): JsValue {
    Obj(map["query" := Str(query), "limit" := Num(limit)])
  }

  // ---------------------------------------------------------------------
  // Reply

  /** One normalised hit, each field taken from the first truthy candidate. */
  datatype Hit = Hit(title: JsValue, content: JsValue, url: JsValue)

  /** What the tool returns (as JSON text, with a duration not modelled here). */
  datatype SearchOutput = SearchOutput(query: string, results: seq<Hit>, totalCount: nat)

  /**
   * The list the reply's results are taken from: `results || data || []`,
   * replaced by `data` when `success` and `data` are both truthy; anything
   * but an array is refused. A `null` reply throws at the first property read.
   */
  function SelectResults(data: JsValue): (r: Result<seq<JsValue>, string>)
    ensures data.Null? || data.Undefined? ==> r == Err(NullRead(data, "results"))
    // a successful reply's `data` list wins, even over a `results` list
    ensures Truthy(Get(data, "success")) && Get(data, "data").Arr? ==> r == Ok(Get(data, "data").items)
    // otherwise a `results` list comes first, then a `data` list
    ensures !(Truthy(Get(data, "success")) && Truthy(Get(data, "data"))) && Get(data, "results").Arr? ==> r == Ok(Get(data, "results").items)
    ensures !Truthy(Get(data, "results")) && Get(data, "data").Arr? ==> r == Ok(Get(data, "data").items)
    // a reply with neither field is an empty list, not an error
    ensures !data.Null? && !data.Undefined? && !Truthy(Get(data, "results")) && !Truthy(Get(data, "data")) ==> r == Ok([])
    // whatever is chosen is refused when it is not an array
    ensures Truthy(Get(data, "success")) && Truthy(Get(data, "data")) && !Get(data, "data").Arr? ==> r == Err(NotAnArrayMessage)
    ensures !(Truthy(Get(data, "success")) && Truthy(Get(data, "data"))) && Truthy(Get(data, "results")) && !Get(data, "results").Arr? ==>
              r == Err(NotAnArrayMessage)
    ensures !Truthy(Get(data, "results")) && Truthy(Get(data, "data")) && !Get(data, "data").Arr? ==> r == Err(NotAnArrayMessage)
    ensures r.Ok? ==> r.value == [] || Arr(r.value) == Get(data, "results") || Arr(r.value) == Get(data, "data")
    ensures r.Err? && !data.Null? && !data.Undefined? ==> r == Err(NotAnArrayMessage)
  {
    if data.Null? || data.Undefined? then Err(NullRead(data, "results"))
    else
      var results := Or(Get(data, "results"), Or(Get(data, "data"), Arr([])));
      var results' := if Truthy(Get(data, "success")) && Truthy(Get(data, "data")) then Get(data, "data") else results;
      if results'.Arr? then Ok(results'.items) else Err(NotAnArrayMessage)
  }

  /** The mapping of one raw hit: `title || ""`, `description || content || ""`, `url || link || ""`. */
  function FormatResult(item: JsValue): (r: Result<Hit, string>)
    ensures item.Null? || item.Undefined? ==> r == Err(NullRead(item, "title"))
    ensures r.Ok? ==> Truthy(r.value.title) || r.value.title == Str("")
    ensures r.Ok? ==> Truthy(r.value.content) || r.value.content == Str("")
    ensures r.Ok? ==> Truthy(r.value.url) || r.value.url == Str("")
  {
    if item.Null? || item.Undefined? then Err(NullRead(item, "title"))
    else Ok(Hit(Or(Get(item, "title"), Str("")),
                Or(Get(item, "description"), Or(Get(item, "content"), Str(""))),
                Or(Get(item, "url"), Or(Get(item, "link"), Str("")))))
  }

  /** `results.map(...)`: one hit per raw result, in order; the first null result throws. */
  function FormatResults(items: seq<JsValue>): (r: Result<seq<Hit>, string>)
    ensures r.Ok? <==> forall i :: 0 <= i < |items| ==> FormatResult(items[i]).Ok?
    ensures r.Ok? ==> |r.value| == |items|
    ensures r.Ok? ==> forall i :: 0 <= i < |items| ==> r.value[i] == FormatResult(items[i]).value
  {
    if items == [] then Ok([])
    else
      var first := FormatResult(items[0]);
      var rest := FormatResults(items[1..]);
      if first.Err? then Err(first.error)
      else if rest.Err? then
        assert forall i :: 1 <= i < |items| ==> items[i] == items[1..][i - 1];
        Err(rest.error)
      else
        assert forall i :: 1 <= i < |items| ==> items[i] == items[1..][i - 1];
        Ok([first.value] + rest.value)
  }

  /**
   * What the reply to the search request becomes: the transport and HTTP
   * failures of error-handler.ts, the JSON failure, the result selection
   * and the normalised output.
   */
  function SearchAnswer(query: string, searchUrl: string, gatewayUrl: string, outcome: FetchOutcome,
                        parse: string -> Option<Url>): (r: Result<SearchOutput, Failure>)
    requires parse(searchUrl).Some?
    ensures r.Ok? ==> r.value.query == query && r.value.totalCount == |r.value.results|
    ensures outcome.Rejected? ==>
              r == Err(McpFailure(CreateNetworkError(outcome.error, ErrorContext(Some(searchUrl), Some(gatewayUrl)), parse)))
    ensures outcome.Responded? && !outcome.response.Ok() ==>
              r.Err? && r.error.McpFailure? && r.error.error.Category() == ServerHttp
              && r.error.error.status == outcome.response.status
    ensures outcome.Responded? && outcome.response.Ok() && outcome.response.body.Unparsable? ==>
              r == Err(PlainFailure(JsonFailureMessage))
    // after parsing: the selection's refusal, then the first item that cannot be formatted, else the hits
    ensures outcome.Responded? && outcome.response.Ok() && outcome.response.body.Parsed?
            && SelectResults(outcome.response.body.value).Err? ==>
              r == Err(PlainFailure(SelectResults(outcome.response.body.value).error))
    ensures outcome.Responded? && outcome.response.Ok() && outcome.response.body.Parsed?
            && SelectResults(outcome.response.body.value).Ok? ==>
              var formatted := FormatResults(SelectResults(outcome.response.body.value).value);
              r == if formatted.Err? then Err(PlainFailure(formatted.error))
                   else Ok(SearchOutput(query, formatted.value, |formatted.value|))
  {
    var ctx := ErrorContext(Some(searchUrl), Some(gatewayUrl));
    match outcome
    case Rejected(err) => Err(McpFailure(CreateNetworkError(err, ctx, parse)))
    case Responded(response) =>
      if !response.Ok() then Err(McpFailure(CreateServerError(response.status, response.statusText, ctx)))
      else match response.body
        case Unparsable(_) => Err(PlainFailure(JsonFailureMessage))
        case Parsed(data) =>
          match SelectResults(data)
          case Err(m) => Err(PlainFailure(m))
          case Ok(items) =>
            match FormatResults(items)
            case Err(m) => Err(PlainFailure(m))
            case Ok(hits) => Ok(SearchOutput(query, hits, |hits|))
  }

  /** The outcome of one search: the request sent, if any, and the result. */
  datatype SearchOutcome = SearchOutcome(request: Option<SearchRequest>, result: Result<SearchOutput, Failure>)

  /**
   * performWebSearch. `resolve(g)` is `new URL('/api/firecrawl-search', g)`
   * as a string (None when `g` is not a URL), `parse` is `new URL`,
   * `base64` is the Buffer encoding and `fetch` the HTTP exchange.
   */
  method PerformWebSearch(env: Env, query: string, limit: Option<real>,
                          resolve: string -> Option<string>, parse: string -> Option<Url>,
                          base64: string -> string, fetch: SearchRequest -> FetchOutcome)
    returns (o: SearchOutcome)
    requires EnvSet(env, "GATEWAY_URL") && resolve(env["GATEWAY_URL"]).Some? ==>
               parse(resolve(env["GATEWAY_URL"]).value).Some?
    ensures !EnvSet(env, "GATEWAY_URL") ==>
              o == SearchOutcome(None, Err(McpFailure(ConfigurationError(GatewayUrlRequiredMessage))))
    ensures EnvSet(env, "GATEWAY_URL") && resolve(env["GATEWAY_URL"]).None? ==>
              o == SearchOutcome(None, Err(McpFailure(ConfigurationError(InvalidGatewayMessage(env["GATEWAY_URL"])))))
    ensures o.request.Some? <==> EnvSet(env, "GATEWAY_URL") && resolve(env["GATEWAY_URL"]).Some?
    ensures o.request.Some? ==>
              o.request.value == SearchRequest(resolve(env["GATEWAY_URL"]).value, Headers(env, base64),
                                               RequestBody(query, limit.GetOr(DefaultLimit)))
              && o.result == SearchAnswer(query, o.request.value.url, env["GATEWAY_URL"], fetch(o.request.value), parse)
  {
    var gatewayUrl := EnvGet(env, "GATEWAY_URL");
    if !IsSet(gatewayUrl) {
      return SearchOutcome(None, Err(McpFailure(ConfigurationErrorOf(GatewayUrlRequiredMessage))));
    }
    var searchUrl := resolve(gatewayUrl.value);
    if searchUrl.None? {
      return SearchOutcome(None, Err(McpFailure(ConfigurationErrorOf(InvalidGatewayMessage(gatewayUrl.value)))));
    }
    var headers := BuildHeaders(env, base64);
    var request := SearchRequest(searchUrl.value, headers, RequestBody(query, limit.GetOr(DefaultLimit)));
    var outcome := fetch(request);
    o := SearchOutcome(Some(request), SearchAnswer(query, searchUrl.value, gatewayUrl.value, outcome, parse));
  }

  // ---------------------------------------------------------------------
  // Properties

  /** A hit's title is the raw title when truthy and "" otherwise; likewise its URL prefers `url` to `link`. */
  lemma {:induction false} HitFields(item: JsValue)
    requires item.Obj?
    ensures FormatResult(item).Ok?
    ensures FormatResult(item).value.title == if Truthy(Get(item, "title")) then Get(item, "title") else Str("")
    ensures FormatResult(item).value.url ==
              if Truthy(Get(item, "url")) then Get(item, "url")
              else if Truthy(Get(item, "link")) then Get(item, "link") else Str("")
    ensures FormatResult(item).value.content ==
              if Truthy(Get(item, "description")) then Get(item, "description")
              else if Truthy(Get(item, "content")) then Get(item, "content") else Str("")
  {
  }

  /**
   * A successful reply whose list holds only objects yields one hit per
   * entry, in order, and a count equal to the list length; an empty list
   * yields no hits and a count of 0.
   */
  lemma {:induction false} ObjectListsFormatted(query: string, searchUrl: string, gatewayUrl: string,
                                                 response: Response, parse: string -> Option<Url>)
    requires parse(searchUrl).Some?
    requires response.Ok() && response.body.Parsed?
    requires SelectResults(response.body.value).Ok?
    requires forall i :: 0 <= i < |SelectResults(response.body.value).value| ==>
               SelectResults(response.body.value).value[i].Obj?
    ensures var r := SearchAnswer(query, searchUrl, gatewayUrl, Responded(response), parse);
            var items := SelectResults(response.body.value).value;
            r.Ok? && r.value.totalCount == |items|
            && forall i :: 0 <= i < |items| ==> r.value.results[i] == FormatResult(items[i]).value
  {
    var items := SelectResults(response.body.value).value;
    forall i | 0 <= i < |items|
      ensures FormatResult(items[i]).Ok?
    {
      HitFields(items[i]);
    }
  }
}

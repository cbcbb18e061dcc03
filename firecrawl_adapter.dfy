/**
 * The Firecrawl reader adapter (services/firecrawl-adapter/app.py): it
 * turns a Jina-Reader-style read request into a Firecrawl v1 scrape
 * request and maps Firecrawl's reply back to `{success, content, url,
 * metadata}`. Flask routing, `unquote` and `requests.post` are parameters;
 * JSON values are the Js module's values, read with Python's truthiness.
 */
module FirecrawlAdapter {
  import opened Base
  import opened Text
  import opened Js

  const ScrapeTimeoutMs: real := 180000.0

  /** Python truthiness of a JSON value; an absent key (Undefined) is falsy. */
  predicate PyTruthy(v: JsValue) {
    match v
    case Undefined => false
    case Null => false
    case Bool(b) => b
    case Num(n) => n != 0.0
    case Str(s) => s != ""
    case Arr(items) => items != []
    case Obj(fields) => fields != map[]
  }

  /** A Python dict of options. */
  type Options = map<string, JsValue>

  /** `d.get(key, default)`. */
  function GetOr(d: Options, key: string, default: JsValue): JsValue {
    if key in d then d[key] else default
  }

  // ---------------------------------------------------------------------
  // fix_url

  /**
   * fix_url: a leading "http:" or "https:" without the two slashes gets
   * them (the first occurrence that `replace(..., 1)` rewrites is the
   * prefix itself); anything else is returned unchanged.
   */
  function FixUrl(url: string): (r: string)
    ensures StartsWith(url, "http:") && !StartsWith(url, "http://") ==> r == "http://" + url[5..]
    ensures StartsWith(url, "https:") && !StartsWith(url, "https://") ==> r == "https://" + url[6..]
    ensures (!(StartsWith(url, "http:") && !StartsWith(url, "http://"))
             && !(StartsWith(url, "https:") && !StartsWith(url, "https://"))) ==> r == url
  {
    HttpIsNotHttps(url);
    if StartsWith(url, "http:") && !StartsWith(url, "http://") then "http://" + url[5..]
    else if StartsWith(url, "https:") && !StartsWith(url, "https://") then "https://" + url[6..]
    else url
  }

  /** No text starts with both "http:" and "https:" (they differ at index 4). */
  lemma HttpIsNotHttps(url: string)
    ensures !(StartsWith(url, "http:") && StartsWith(url, "https:"))
  {
    assert StartsWith(url, "http:") ==> url[4] == ':';
    assert StartsWith(url, "https:") ==> url[4] == 's';
  }

  lemma StartsWithPrefix(p: string, rest: string)
    ensures StartsWith(p + rest, p)
  {
    assert (p + rest)[..|p|] == p;
  }

  /** Repairing a URL twice gives the same text as repairing it once. */
  lemma FixUrlIdempotent(url: string)
    ensures FixUrl(FixUrl(url)) == FixUrl(url)
  {
    var r := FixUrl(url);
    if StartsWith(url, "http:") && !StartsWith(url, "http://") {
      StartsWithPrefix("http://", url[5..]);
      assert r[4] == ':';
    } else if StartsWith(url, "https:") && !StartsWith(url, "https://") {
      StartsWithPrefix("https://", url[6..]);
      assert r[4] == 's';
    }
  }

  /** A repaired http(s) address always carries its two slashes. */
  lemma FixUrlAddsSlashes(url: string)
    ensures StartsWith(url, "http:") ==> StartsWith(FixUrl(url), "http://")
    ensures StartsWith(url, "https:") ==> StartsWith(FixUrl(url), "https://")
  {
    HttpIsNotHttps(url);
    if StartsWith(url, "http:") && !StartsWith(url, "http://") {
      StartsWithPrefix("http://", url[5..]);
    } else if StartsWith(url, "https:") && !StartsWith(url, "https://") {
      StartsWithPrefix("https://", url[6..]);
    }
  }

  // ---------------------------------------------------------------------
  // parse_options_from_query

  /** Python's `str.isspace()` characters that `int()` strips, in ASCII. */
  predicate IsPySpace(c: char) {
    c == ' ' || c == '\t' || c == '\n' || c == '\r' || c == '\U{000B}' || c == '\U{000C}'
  }

  /** `int(s)` on a decimal numeral with optional sign and surrounding spaces; None where it raises ValueError. */
  function PyInt(s: string): (r: Option<int>)
    ensures AllDigits(s) && s != [] ==> r == Some(DigitsValue(s) as int)
    decreases |s|
  {
    if s != [] && IsPySpace(s[0]) then PyInt(s[1..])
    else if s != [] && IsPySpace(s[|s| - 1]) then PyInt(s[..|s| - 1])
    else if s != [] && (s[0] == '+' || s[0] == '-') then
      var t := s[1..];
      if t != [] && AllDigits(t) then Some(if s[0] == '-' then 0 - DigitsValue(t) as int else DigitsValue(t) as int)
      else None
    else if s != [] && AllDigits(s) then Some(DigitsValue(s) as int)
    else None
  }

  /** A query flag: true exactly when the value, lower-cased, is "true". */
  predicate Flag(query: map<string, string>, key: string, default: string) {
    Lower(if key in query then query[key] else default) == "true"
  }

  /** parse_options_from_query, with the query as a map from parameter to its first value. */
  method ParseOptionsFromQuery(query: map<string, string>) returns (options: Options)
    ensures options == QueryOptions(query)
  {
    options := FlagOptions(Flag(query, "screenshot", "false"), Flag(query, "onlyMainContent", "true"),
                           Flag(query, "includeHtml", "false"));
    if "waitFor" in query {
      var waitFor := PyInt(query["waitFor"]);
      if waitFor.Some? {
        options := options["waitFor" := Num(waitFor.value as real)];
      }
    }
  }

  /** The five options every query yields, from its three flags. */
  function FlagOptions(screenshot: bool, onlyMainContent: bool, includeHtml: bool): (o: Options)
    ensures o.Keys == {"mobile", "screenshot", "onlyMainContent", "includeHtml", "formats"}
    ensures o["mobile"] == Bool(false) && o["screenshot"] == Bool(screenshot)
    ensures o["onlyMainContent"] == Bool(onlyMainContent) && o["includeHtml"] == Bool(includeHtml)
    ensures o["formats"].Arr? && |o["formats"].items| > 0 && o["formats"].items[0] == Str("markdown")
    ensures Str("html") in o["formats"].items <==> includeHtml
    ensures "waitFor" !in o
  {
    map[
      "mobile" := Bool(false),
      "screenshot" := Bool(screenshot),
      "onlyMainContent" := Bool(onlyMainContent),
      "includeHtml" := Bool(includeHtml),
      "formats" := Arr(if includeHtml then [Str("markdown"), Str("html")] else [Str("markdown")])]
  }

  /** The options a query yields, key by key. */
  function QueryOptions(query: map<string, string>): (o: Options)
    ensures o.Keys == {"mobile", "screenshot", "onlyMainContent", "includeHtml", "formats"}
                      + (if "waitFor" in query && PyInt(query["waitFor"]).Some? then {"waitFor"} else {})
    ensures o["mobile"] == Bool(false)
    ensures o["screenshot"] == Bool(Flag(query, "screenshot", "false"))
    ensures o["onlyMainContent"] == Bool(Flag(query, "onlyMainContent", "true"))
    ensures o["includeHtml"] == Bool(Flag(query, "includeHtml", "false"))
    ensures o["formats"].Arr? && |o["formats"].items| > 0 && o["formats"].items[0] == Str("markdown")
    ensures Str("html") in o["formats"].items <==> Flag(query, "includeHtml", "false")
    ensures "waitFor" in o <==> "waitFor" in query && PyInt(query["waitFor"]).Some?
    ensures "waitFor" in o ==> o["waitFor"] == Num(PyInt(query["waitFor"]).value as real)
  {
    var base := FlagOptions(Flag(query, "screenshot", "false"), Flag(query, "onlyMainContent", "true"),
                            Flag(query, "includeHtml", "false"));
    var waitFor := if "waitFor" in query then PyInt(query["waitFor"]) else None;
    if waitFor.Some? then base["waitFor" := Num(waitFor.value as real)] else base
  }

  /** Without a query, only the main content is scraped, as markdown alone. */
  lemma EmptyQueryDefaults()
    ensures QueryOptions(map[]) == map["mobile" := Bool(false), "screenshot" := Bool(false),
                                        "onlyMainContent" := Bool(true), "includeHtml" := Bool(false),
                                        "formats" := Arr([Str("markdown")])]
  {
    assert Lower("true") == "true";
    assert Lower("false") != "true" by { assert |Lower("false")| == 5; }
  }

  // ---------------------------------------------------------------------
  // scrape_with_firecrawl: the request

  /** The headers: JSON content, and a bearer token when an API key is configured. */
  method BuildHeaders(apiKey: string) returns (headers: map<string, string>)
    ensures headers == RequestHeaders(apiKey)
  {
    headers := map["Content-Type" := "application/json"];
    if apiKey != "" {
      headers := headers["Authorization" := "Bearer " + apiKey];
    }
  }

  function RequestHeaders(apiKey: string): (h: map<string, string>)
    ensures "Content-Type" in h && h["Content-Type"] == "application/json"
    ensures "Authorization" in h <==> apiKey != ""
    ensures "Authorization" in h ==> h["Authorization"] == "Bearer " + apiKey
    ensures h.Keys <= {"Content-Type", "Authorization"}
  {
    if apiKey != "" then map["Content-Type" := "application/json", "Authorization" := "Bearer " + apiKey]
    else map["Content-Type" := "application/json"]
  }

  /** The payload, built as the source builds it, one optional key at a time. */
  method BuildPayload(url: JsValue, options: Options) returns (payload: Options)
    ensures payload == Payload(url, options)
  {
    payload := map["url" := url, "formats" := Arr([Str("markdown")]), "timeout" := Num(ScrapeTimeoutMs)];
    if PyTruthy(GetOr(options, "includeHtml", Undefined)) {
      payload := payload["formats" := Arr([Str("markdown"), Str("html")])];
    }
    if !PyTruthy(GetOr(options, "onlyMainContent", Bool(true))) {
      payload := payload["onlyMainContent" := Bool(false)];
    }
    if PyTruthy(GetOr(options, "waitFor", Undefined)) {
      payload := payload["waitFor" := options["waitFor"]];
    }
    if PyTruthy(GetOr(options, "screenshot", Undefined)) {
      payload := payload["formats" := Arr(payload["formats"].items + [Str("screenshot")])];
    }
    assert payload["formats"] == Arr(Formats(options));
  }

  /** The formats asked for: markdown, then html if requested, then screenshot if requested. */
  function Formats(options: Options): (f: seq<JsValue>)
    ensures |f| > 0 && f[0] == Str("markdown")
    ensures Str("html") in f <==> PyTruthy(GetOr(options, "includeHtml", Undefined))
    ensures Str("screenshot") in f <==> PyTruthy(GetOr(options, "screenshot", Undefined))
    ensures PyTruthy(GetOr(options, "screenshot", Undefined)) ==> f[|f| - 1] == Str("screenshot")
  {
    (if PyTruthy(GetOr(options, "includeHtml", Undefined)) then [Str("markdown"), Str("html")] else [Str("markdown")])
    + (if PyTruthy(GetOr(options, "screenshot", Undefined)) then [Str("screenshot")] else [])
  }

  /**
   * The payload as a value: `onlyMainContent` appears only to switch it
   * off, `waitFor` only when truthy, and the timeout is always three minutes.
   */
  function Payload(url: JsValue, options: Options): (p: Options)
    ensures p.Keys <= {"url", "formats", "timeout", "onlyMainContent", "waitFor"}
    ensures "url" in p && p["url"] == url
    ensures "timeout" in p && p["timeout"] == Num(ScrapeTimeoutMs)
    ensures "formats" in p && p["formats"] == Arr(Formats(options))
    ensures "onlyMainContent" in p <==> !PyTruthy(GetOr(options, "onlyMainContent", Bool(true)))
    ensures "onlyMainContent" in p ==> p["onlyMainContent"] == Bool(false)
    ensures "waitFor" in p <==> PyTruthy(GetOr(options, "waitFor", Undefined))
    ensures "waitFor" in p ==> p["waitFor"] == options["waitFor"]
  {
    var p0 := map["url" := url, "formats" := Arr(Formats(options)), "timeout" := Num(ScrapeTimeoutMs)];
    var p1 := if !PyTruthy(GetOr(options, "onlyMainContent", Bool(true))) then p0["onlyMainContent" := Bool(false)] else p0;
    if PyTruthy(GetOr(options, "waitFor", Undefined)) then p1["waitFor" := options["waitFor"]] else p1
  }

  /** The POST to `<FIRECRAWL_API_URL>/v1/scrape`. */
  datatype ScrapeRequest = ScrapeRequest(endpoint: string, headers: map<string, string>, payload: Options)

  // ---------------------------------------------------------------------
  // scrape_with_firecrawl: the reply

  /** How `requests.post` ended: a timeout, another request error (a JSON decode error is one), or a reply. */
  datatype PostOutcome =
    | TimedOut
    | RequestFailed(message: string)
    | Answered(status: nat, text: string, body: Body)

  /** The adapter's HTTP reply: a status and a JSON body. */
  datatype HttpReply = HttpReply(status: nat, body: JsValue)

  function ErrorReply(status: nat, message: string): HttpReply {
    HttpReply(status, Obj(map["error" := Str(message)]))
  }

  /** The Python type name an AttributeError on `.get` reports. */
  function PyTypeName(v: JsValue): string {
    match v
    case Undefined => "NoneType"
    case Null => "NoneType"
    case Bool(_) => "bool"
    case Num(n) => if n.Floor as real == n then "int" else "float"
    case Str(_) => "str"
    case Arr(_) => "list"
    case Obj(_) => "dict"
  }

  function NoGet(v: JsValue): string {
    "Unexpected error: '" + PyTypeName(v) + "' object has no attribute 'get'"
  }

  /** The success body: the markdown (or "") as content, the URL, the metadata, and the screenshot when asked for and present. */
  function SuccessBody(url: JsValue, nested: map<string, JsValue>, options: Options): JsValue {
    var result := map["success" := Bool(true),
                      "content" := GetOr(nested, "markdown", Str("")),
                      "url" := url,
                      "metadata" := GetOr(nested, "metadata", Obj(map[]))];
    if PyTruthy(GetOr(options, "screenshot", Undefined)) && "screenshot" in nested
    then Obj(result["screenshot" := nested["screenshot"]])
    else Obj(result)
  }

  /** What the adapter answers for Firecrawl's outcome. */
  function ScrapeReply(url: JsValue, options: Options, outcome: PostOutcome): (r: HttpReply)
    ensures outcome.TimedOut? ==> r == ErrorReply(504, "Request timeout")
    ensures outcome.RequestFailed? ==> r == ErrorReply(500, "Request failed: " + outcome.message)
    ensures outcome.Answered? && outcome.status != 200 ==>
              r == HttpReply(500, Obj(map["error" := Str("Firecrawl API error: " + NatToString(outcome.status)),
                                          "details" := Str(outcome.text)]))
    ensures r.status == 200 || r.status == 500 || r.status == 504
    ensures r.status == 200 ==> outcome.Answered? && outcome.status == 200
  {
    match outcome
    case TimedOut => ErrorReply(504, "Request timeout")
    case RequestFailed(message) => ErrorReply(500, "Request failed: " + message)
    case Answered(status, text, body) =>
      if status != 200 then
        HttpReply(500, Obj(map["error" := Str("Firecrawl API error: " + NatToString(status)), "details" := Str(text)]))
      else match body
        case Unparsable(reason) => ErrorReply(500, "Request failed: " + reason)
        case Parsed(data) =>
          if !data.Obj? then ErrorReply(500, NoGet(data))
          else if PyTruthy(GetOr(data.fields, "success", Undefined)) then
            var nested := GetOr(data.fields, "data", Obj(map[]));
            if !nested.Obj? then ErrorReply(500, NoGet(nested))
            else HttpReply(200, SuccessBody(url, nested.fields, options))
          else HttpReply(500, Obj(map["error" := GetOr(data.fields, "error", Str("Unknown error"))]))
  }

  /**
   * On a successful scrape the content is the scraped markdown, or "" when
   * there is none, and a screenshot is returned only when it was both
   * requested and produced.
   */
  lemma SuccessfulScrape(url: JsValue, options: Options, nested: map<string, JsValue>, text: string)
    ensures var r := ScrapeReply(url, options, Answered(200, text, Parsed(Obj(map["success" := Bool(true), "data" := Obj(nested)]))));
            r.status == 200 && r.body.Obj?
            && r.body.fields["content"] == (if "markdown" in nested then nested["markdown"] else Str(""))
            && r.body.fields["url"] == url
            && ("screenshot" in r.body.fields <==> PyTruthy(GetOr(options, "screenshot", Undefined)) && "screenshot" in nested)
  {
    var data := map["success" := Bool(true), "data" := Obj(nested)];
    assert GetOr(data, "success", Undefined) == Bool(true);
    assert GetOr(data, "data", Obj(map[])) == Obj(nested);
  }

  /** A reply without `success` passes Firecrawl's error on, or "Unknown error". */
  lemma UnsuccessfulScrape(url: JsValue, options: Options, fields: map<string, JsValue>, text: string)
    requires !PyTruthy(GetOr(fields, "success", Undefined))
    ensures ScrapeReply(url, options, Answered(200, text, Parsed(Obj(fields)))) ==
              HttpReply(500, Obj(map["error" := if "error" in fields then fields["error"] else Str("Unknown error")]))
  {
  }

  /** scrape_with_firecrawl: build the request, post it, map the reply. */
  method ScrapeWithFirecrawl(url: JsValue, options: Options, apiUrl: string, apiKey: string,
                             post: ScrapeRequest -> PostOutcome)
    returns (request: ScrapeRequest, reply: HttpReply)
    ensures request == ScrapeRequest(apiUrl + "/v1/scrape", RequestHeaders(apiKey), Payload(url, options))
    ensures reply == ScrapeReply(url, options, post(request))
  {
    var headers := BuildHeaders(apiKey);
    var payload := BuildPayload(url, options);
    request := ScrapeRequest(apiUrl + "/v1/scrape", headers, payload);
    reply := ScrapeReply(url, options, post(request));
  }

  // ---------------------------------------------------------------------
  // Routes

  /** What a route answers: the static index page, or a scrape with the request it sent. */
  datatype RouteReply = IndexPage | Refused(reply: HttpReply) | Scraped(request: ScrapeRequest, reply: HttpReply)

  /** The root route's filter: no '.' anywhere and no '/' in the first ten characters. */
  predicate IsIndexPath(path: string) {
    !Contains(path, ".") && !Contains(path[..Min(10, |path|)], "/")
  }

  /** An address with a scheme ("http:/...") always has a '/' early enough to be scraped. */
  lemma SchemesAreScraped(path: string)
    requires StartsWith(path, "http:/") || StartsWith(path, "https:/")
    ensures !IsIndexPath(path)
  {
    var head := path[..Min(10, |path|)];
    var i := if StartsWith(path, "http:/") then 5 else 6;
    assert head[i] == '/';
    assert head[i..i + 1] == "/";
    assert OccursAt(head, "/", i);
  }

  /** A path with a dot anywhere is scraped. */
  lemma DottedPathsAreScraped(path: string)
    requires Contains(path, ".")
    ensures !IsIndexPath(path)
  {
  }

  /** GET /<path>: the index page for non-URL paths, otherwise a scrape of the repaired, unquoted address. */
  method ReadGetRoot(path: string, query: map<string, string>, unquote: string -> string,
                     apiUrl: string, apiKey: string, post: ScrapeRequest -> PostOutcome)
    returns (r: RouteReply)
    ensures IsIndexPath(path) ==> r == IndexPage
    ensures !IsIndexPath(path) ==>
              var request := ScrapeRequest(apiUrl + "/v1/scrape", RequestHeaders(apiKey),
                                           Payload(Str(FixUrl(unquote(path))), QueryOptions(query)));
              r == Scraped(request, ScrapeReply(Str(FixUrl(unquote(path))), QueryOptions(query), post(request)))
  {
    if IsIndexPath(path) {
      return IndexPage;
    }
    r := ReadGetWithPrefix(path, query, unquote, apiUrl, apiKey, post);
  }

  /** GET /api/read/<path>: a scrape of the repaired, unquoted address with the query's options. */
  method ReadGetWithPrefix(path: string, query: map<string, string>, unquote: string -> string,
                           apiUrl: string, apiKey: string, post: ScrapeRequest -> PostOutcome)
    returns (r: RouteReply)
    ensures var request := ScrapeRequest(apiUrl + "/v1/scrape", RequestHeaders(apiKey),
                                         Payload(Str(FixUrl(unquote(path))), QueryOptions(query)));
            r == Scraped(request, ScrapeReply(Str(FixUrl(unquote(path))), QueryOptions(query), post(request)))
  {
    var decoded := FixUrl(unquote(path));
    var options := ParseOptionsFromQuery(query);
    var request, reply := ScrapeWithFirecrawl(Str(decoded), options, apiUrl, apiKey, post);
    return Scraped(request, reply);
  }

  /** The options a POST body carries, each with its default. */
  function BodyOptions(fields: map<string, JsValue>): (o: Options)
    ensures o.Keys == {"mobile", "screenshot", "onlyMainContent", "includeHtml", "formats"}
    ensures forall k :: k in o && k in fields ==> o[k] == fields[k]
    ensures "mobile" !in fields ==> o["mobile"] == Bool(false)
    ensures "screenshot" !in fields ==> o["screenshot"] == Bool(false)
    ensures "onlyMainContent" !in fields ==> o["onlyMainContent"] == Bool(true)
    ensures "includeHtml" !in fields ==> o["includeHtml"] == Bool(false)
    ensures "formats" !in fields ==> o["formats"] == Arr([Str("markdown")])
  {
    map["mobile" := GetOr(fields, "mobile", Bool(false)),
        "screenshot" := GetOr(fields, "screenshot", Bool(false)),
        "onlyMainContent" := GetOr(fields, "onlyMainContent", Bool(true)),
        "includeHtml" := GetOr(fields, "includeHtml", Bool(false)),
        "formats" := GetOr(fields, "formats", Arr([Str("markdown")]))]
  }

  const MissingUrl: HttpReply := HttpReply(400, Obj(map["error" := Str("Missing url parameter")]))

  /**
   * POST /api/read. A body `get_json` cannot read (not JSON, or not sent as
   * JSON) raises, and the handler answers 500 with the message, modelled by
   * the body's reason. `not data or 'url' not in data` is Python's
   * membership test, so a list or a string body is searched for "url" and,
   * when it has it, fails at `data['url']`; a number or `true` fails at the
   * membership test. `raised` gives the message of those TypeErrors.
   */
  method ReadPost(body: Body, apiUrl: string, apiKey: string, post: ScrapeRequest -> PostOutcome,
                  raised: JsValue -> string)
    returns (r: RouteReply)
    ensures body.Unparsable? ==> r == Refused(ErrorReply(500, body.reason))
    ensures body.Parsed? && !PyTruthy(body.value) ==> r == Refused(MissingUrl)
    ensures body.Parsed? && body.value.Obj? && "url" !in body.value.fields ==> r == Refused(MissingUrl)
    ensures body.Parsed? && body.value.Obj? && "url" in body.value.fields ==>
              var fields := body.value.fields;
              var request := ScrapeRequest(apiUrl + "/v1/scrape", RequestHeaders(apiKey),
                                           Payload(fields["url"], BodyOptions(fields)));
              r == Scraped(request, ScrapeReply(fields["url"], BodyOptions(fields), post(request)))
    // a list or string is searched for "url", and one that has it fails at the subscript
    ensures body.Parsed? && PyTruthy(body.value) && (body.value.Arr? || body.value.Str?) ==>
              r == if (body.value.Arr? && Str("url") in body.value.items) || (body.value.Str? && Contains(body.value.s, "url"))
                   then Refused(ErrorReply(500, raised(body.value))) else Refused(MissingUrl)
    // a number or `true` cannot be searched at all
    ensures body.Parsed? && PyTruthy(body.value) && (body.value.Num? || body.value.Bool?) ==>
              r == Refused(ErrorReply(500, raised(body.value)))
  {
    if body.Unparsable? {
      return Refused(ErrorReply(500, body.reason));
    }
    var data := body.value;
    if !PyTruthy(data) {
      return Refused(MissingUrl);
    }
    if data.Obj? {
      if "url" !in data.fields {
        return Refused(MissingUrl);
      }
      var request, reply := ScrapeWithFirecrawl(data.fields["url"], BodyOptions(data.fields), apiUrl, apiKey, post);
      return Scraped(request, reply);
    }
    var hasUrl := (data.Arr? && Str("url") in data.items) || (data.Str? && Contains(data.s, "url"));
    if (data.Arr? || data.Str?) && !hasUrl {
      return Refused(MissingUrl);
    }
    return Refused(ErrorReply(500, raised(data)));
  }
}

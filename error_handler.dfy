/**
 * Error classification (src/error-handler.ts): raw transport failures and
 * HTTP statuses become categorised, human-readable errors, and the
 * start-up environment check collects configuration issues.
 */
module ErrorHandler {
  import opened Base
  import opened Text
  import opened Js

  const GatewayUrlRequiredMessage: string :=
    "GATEWAY_URL is required. Set it to your Gateway API URL (e.g., http://your-gateway.com:80)"

  /** What the caller knows about the failed request; absent fields are `undefined`. */
  datatype ErrorContext = ErrorContext(url: Option<string>, gatewayUrl: Option<string>)

  /** An optional string that is present and non-empty (JavaScript truthiness). */
  predicate IsSet(o: Option<string>) {
    o.Some? && o.value != ""
  }

  /** `${x}` for an optional string. */
  function Interpolate(o: Option<string>): string {
    if o.Some? then o.value else "undefined"
  }

  datatype Category =
    | Configuration | Connection | Dns | TransportTimeout | Tls | Network
    | ServerHttp | UrlFormat | ContentMissing | Timeout | Unexpected

  /** The MCPSearXNGError values the classifier produces, one constructor per message template. */
  datatype McpError =
    | ConfigurationError(detail: string)
    | ConnectionError(target: string, url: string)
    | DnsError(hostname: string)
    | TransportTimeoutError(target: string)
    | SslError(target: string)
    | NetworkError(detail: string, guidance: Option<string>)
    | ServerError(target: string, status: nat, reason: string)
    | UrlFormatError(url: string)
    | ContentError(detail: string, url: string)
    | TimeoutError(hostname: string, timeoutMs: nat)
    | UnexpectedError(detail: string)
  {
    function Category(): Category {
      match this
      case ConfigurationError(_) => Configuration
      case ConnectionError(_, _) => Connection
      case DnsError(_) => Dns
      case TransportTimeoutError(_) => TransportTimeout
      case SslError(_) => Tls
      case NetworkError(_, _) => Network
      case ServerError(_, _, _) => ServerHttp
      case UrlFormatError(_) => UrlFormat
      case ContentError(_, _) => ContentMissing
      case TimeoutError(_, _) => Timeout
      case UnexpectedError(_) => Unexpected
    }
  }

  // Message prefixes, emoji included.
  const ConfigurationPrefix: string := "\U{1F527} Configuration Error: "
  const UrlFormatPrefix: string := "\U{1F527} URL Format Error: "
  const ConnectionPrefix: string := "\U{1F310} Connection Error: "
  const DnsPrefix: string := "\U{1F310} DNS Error: "
  const TransportTimeoutPrefix: string := "\U{1F310} Timeout Error: "
  const SslPrefix: string := "\U{1F310} SSL Error: "
  const NetworkPrefix: string := "\U{1F310} Network Error: "
  const ServerPrefix: string := "\U{1F6AB} "
  const ContentPrefix: string := "\U{1F4C4} Content Error: "
  const TimeoutPrefix: string := "\U{23F1}\U{FE0F} Timeout Error: "
  const UnexpectedPrefix: string := "\U{2753} Unexpected Error: "

  /** The text of the error, as the source's templates render it. */
  function Message(e: McpError): string {
    match e
    case ConfigurationError(d) => ConfigurationPrefix + d
    case ConnectionError(t, u) => ConnectionPrefix + t + " is not responding (" + u + ")"
    case DnsError(h) => DnsPrefix + "Cannot resolve hostname \"" + h + "\""
    case TransportTimeoutError(t) => TransportTimeoutPrefix + t + " is too slow to respond"
    case SslError(t) => SslPrefix + "Certificate problem with " + t
    case NetworkError(d, g) => NetworkPrefix + d + (if g.Some? then ". " + g.value else "")
    case ServerError(t, s, r) => ServerPrefix + t + " Error (" + NatToString(s) + "): " + r
    case UrlFormatError(u) => UrlFormatPrefix + "Invalid URL \"" + u + "\""
    case ContentError(d, u) => ContentPrefix + d + " (" + u + ")"
    case TimeoutError(h, ms) => TimeoutPrefix + h + " took longer than " + NatToString(ms) + "ms to respond"
    case UnexpectedError(d) => UnexpectedPrefix + d
  }

  /** The category a message announces, read back from its prefix. */
  function CategoryOfMessage(msg: string): Option<Category> {
    if StartsWith(msg, ConfigurationPrefix) then Some(Configuration)
    else if StartsWith(msg, UrlFormatPrefix) then Some(UrlFormat)
    else if StartsWith(msg, ConnectionPrefix) then Some(Connection)
    else if StartsWith(msg, DnsPrefix) then Some(Dns)
    else if StartsWith(msg, TransportTimeoutPrefix) then Some(TransportTimeout)
    else if StartsWith(msg, SslPrefix) then Some(Tls)
    else if StartsWith(msg, NetworkPrefix) then Some(Network)
    else if StartsWith(msg, ServerPrefix) then Some(ServerHttp)
    else if StartsWith(msg, ContentPrefix) then Some(ContentMissing)
    else if StartsWith(msg, TimeoutPrefix) then Some(Timeout)
    else if StartsWith(msg, UnexpectedPrefix) then Some(Unexpected)
    else None
  }

  lemma PrefixOfConcat(p: string, rest: string)
    ensures StartsWith(p + rest, p)
  {
    assert (p + rest)[..|p|] == p;
  }

  /** Two prefixes that differ at position i cannot both start a string. */
  lemma NotBoth(s: string, p: string, q: string, i: nat)
    requires StartsWith(s, p) && i < |p| && i < |q| && p[i] != q[i]
    ensures !StartsWith(s, q)
  {
    assert s[..|p|][i] == s[i];
    if |q| <= |s| {
      assert s[..|q|][i] == s[i];
    }
  }

  lemma RevealsConfiguration(m: string)
    requires StartsWith(m, ConfigurationPrefix)
    ensures CategoryOfMessage(m) == Some(Configuration)
  {
  }

  lemma RevealsUrlFormat(m: string)
    requires StartsWith(m, UrlFormatPrefix)
    ensures CategoryOfMessage(m) == Some(UrlFormat)
  {
    NotBoth(m, UrlFormatPrefix, ConfigurationPrefix, 2);
  }

  lemma RevealsConnection(m: string)
    requires StartsWith(m, ConnectionPrefix)
    ensures CategoryOfMessage(m) == Some(Connection)
  {
    NotBoth(m, ConnectionPrefix, ConfigurationPrefix, 0);
    NotBoth(m, ConnectionPrefix, UrlFormatPrefix, 0);
  }

  lemma RevealsDns(m: string)
    requires StartsWith(m, DnsPrefix)
    ensures CategoryOfMessage(m) == Some(Dns)
  {
    NotBoth(m, DnsPrefix, ConfigurationPrefix, 0);
    NotBoth(m, DnsPrefix, UrlFormatPrefix, 0);
    NotBoth(m, DnsPrefix, ConnectionPrefix, 2);
  }

  lemma RevealsTransportTimeout(m: string)
    requires StartsWith(m, TransportTimeoutPrefix)
    ensures CategoryOfMessage(m) == Some(TransportTimeout)
  {
    NotBoth(m, TransportTimeoutPrefix, ConfigurationPrefix, 0);
    NotBoth(m, TransportTimeoutPrefix, UrlFormatPrefix, 0);
    NotBoth(m, TransportTimeoutPrefix, ConnectionPrefix, 2);
    NotBoth(m, TransportTimeoutPrefix, DnsPrefix, 2);
  }

  lemma RevealsTls(m: string)
    requires StartsWith(m, SslPrefix)
    ensures CategoryOfMessage(m) == Some(Tls)
  {
    NotBoth(m, SslPrefix, ConfigurationPrefix, 0);
    NotBoth(m, SslPrefix, UrlFormatPrefix, 0);
    NotBoth(m, SslPrefix, ConnectionPrefix, 2);
    NotBoth(m, SslPrefix, DnsPrefix, 2);
    NotBoth(m, SslPrefix, TransportTimeoutPrefix, 2);
  }

  lemma RevealsNetwork(m: string)
    requires StartsWith(m, NetworkPrefix)
    ensures CategoryOfMessage(m) == Some(Network)
  {
    NotBoth(m, NetworkPrefix, ConfigurationPrefix, 0);
    NotBoth(m, NetworkPrefix, UrlFormatPrefix, 0);
    NotBoth(m, NetworkPrefix, ConnectionPrefix, 2);
    NotBoth(m, NetworkPrefix, DnsPrefix, 2);
    NotBoth(m, NetworkPrefix, TransportTimeoutPrefix, 2);
    NotBoth(m, NetworkPrefix, SslPrefix, 2);
  }

  lemma RevealsServerHttp(m: string)
    requires StartsWith(m, ServerPrefix)
    ensures CategoryOfMessage(m) == Some(ServerHttp)
  {
    NotBoth(m, ServerPrefix, ConfigurationPrefix, 0);
    NotBoth(m, ServerPrefix, UrlFormatPrefix, 0);
    NotBoth(m, ServerPrefix, ConnectionPrefix, 0);
    NotBoth(m, ServerPrefix, DnsPrefix, 0);
    NotBoth(m, ServerPrefix, TransportTimeoutPrefix, 0);
    NotBoth(m, ServerPrefix, SslPrefix, 0);
    NotBoth(m, ServerPrefix, NetworkPrefix, 0);
  }

  lemma RevealsContentMissing(m: string)
    requires StartsWith(m, ContentPrefix)
    ensures CategoryOfMessage(m) == Some(ContentMissing)
  {
    NotBoth(m, ContentPrefix, ConfigurationPrefix, 0);
    NotBoth(m, ContentPrefix, UrlFormatPrefix, 0);
    NotBoth(m, ContentPrefix, ConnectionPrefix, 0);
    NotBoth(m, ContentPrefix, DnsPrefix, 0);
    NotBoth(m, ContentPrefix, TransportTimeoutPrefix, 0);
    NotBoth(m, ContentPrefix, SslPrefix, 0);
    NotBoth(m, ContentPrefix, NetworkPrefix, 0);
    NotBoth(m, ContentPrefix, ServerPrefix, 0);
  }

  lemma RevealsTimeout(m: string)
    requires StartsWith(m, TimeoutPrefix)
    ensures CategoryOfMessage(m) == Some(Timeout)
  {
    NotBoth(m, TimeoutPrefix, ConfigurationPrefix, 0);
    NotBoth(m, TimeoutPrefix, UrlFormatPrefix, 0);
    NotBoth(m, TimeoutPrefix, ConnectionPrefix, 0);
    NotBoth(m, TimeoutPrefix, DnsPrefix, 0);
    NotBoth(m, TimeoutPrefix, TransportTimeoutPrefix, 0);
    NotBoth(m, TimeoutPrefix, SslPrefix, 0);
    NotBoth(m, TimeoutPrefix, NetworkPrefix, 0);
    NotBoth(m, TimeoutPrefix, ServerPrefix, 0);
    NotBoth(m, TimeoutPrefix, ContentPrefix, 0);
  }

  lemma RevealsUnexpected(m: string)
    requires StartsWith(m, UnexpectedPrefix)
    ensures CategoryOfMessage(m) == Some(Unexpected)
  {
    NotBoth(m, UnexpectedPrefix, ConfigurationPrefix, 0);
    NotBoth(m, UnexpectedPrefix, UrlFormatPrefix, 0);
    NotBoth(m, UnexpectedPrefix, ConnectionPrefix, 0);
    NotBoth(m, UnexpectedPrefix, DnsPrefix, 0);
    NotBoth(m, UnexpectedPrefix, TransportTimeoutPrefix, 0);
    NotBoth(m, UnexpectedPrefix, SslPrefix, 0);
    NotBoth(m, UnexpectedPrefix, NetworkPrefix, 0);
    NotBoth(m, UnexpectedPrefix, ServerPrefix, 0);
    NotBoth(m, UnexpectedPrefix, ContentPrefix, 0);
    NotBoth(m, UnexpectedPrefix, TimeoutPrefix, 0);
  }

  lemma ConfigurationErrorRevealed(d: string)
    ensures CategoryOfMessage(Message(ConfigurationError(d))) == Some(Configuration)
  {
    var rest := d;
    assert Message(ConfigurationError(d)) == ConfigurationPrefix + rest;
    PrefixOfConcat(ConfigurationPrefix, rest);
    RevealsConfiguration(ConfigurationPrefix + rest);
  }

  lemma UrlFormatErrorRevealed(u: string)
    ensures CategoryOfMessage(Message(UrlFormatError(u))) == Some(UrlFormat)
  {
    var rest := "Invalid URL \"" + u + "\"";
    assert Message(UrlFormatError(u)) == UrlFormatPrefix + rest;
    PrefixOfConcat(UrlFormatPrefix, rest);
    RevealsUrlFormat(UrlFormatPrefix + rest);
  }

  lemma ConnectionErrorRevealed(t: string, u: string)
    ensures CategoryOfMessage(Message(ConnectionError(t, u))) == Some(Connection)
  {
    var rest := t + " is not responding (" + u + ")";
    assert Message(ConnectionError(t, u)) == ConnectionPrefix + rest;
    PrefixOfConcat(ConnectionPrefix, rest);
    RevealsConnection(ConnectionPrefix + rest);
  }

  lemma DnsErrorRevealed(h: string)
    ensures CategoryOfMessage(Message(DnsError(h))) == Some(Dns)
  {
    var rest := "Cannot resolve hostname \"" + h + "\"";
    assert Message(DnsError(h)) == DnsPrefix + rest;
    PrefixOfConcat(DnsPrefix, rest);
    RevealsDns(DnsPrefix + rest);
  }

  lemma TransportTimeoutErrorRevealed(t: string)
    ensures CategoryOfMessage(Message(TransportTimeoutError(t))) == Some(TransportTimeout)
  {
    var rest := t + " is too slow to respond";
    assert Message(TransportTimeoutError(t)) == TransportTimeoutPrefix + rest;
    PrefixOfConcat(TransportTimeoutPrefix, rest);
    RevealsTransportTimeout(TransportTimeoutPrefix + rest);
  }

  lemma SslErrorRevealed(t: string)
    ensures CategoryOfMessage(Message(SslError(t))) == Some(Tls)
  {
    var rest := "Certificate problem with " + t;
    assert Message(SslError(t)) == SslPrefix + rest;
    PrefixOfConcat(SslPrefix, rest);
    RevealsTls(SslPrefix + rest);
  }

  lemma NetworkErrorRevealed(d: string, g: Option<string>)
    ensures CategoryOfMessage(Message(NetworkError(d, g))) == Some(Network)
  {
    var rest := d + (if g.Some? then ". " + g.value else "");
    assert Message(NetworkError(d, g)) == NetworkPrefix + rest;
    PrefixOfConcat(NetworkPrefix, rest);
    RevealsNetwork(NetworkPrefix + rest);
  }

  lemma ServerErrorRevealed(t: string, st: nat, r: string)
    ensures CategoryOfMessage(Message(ServerError(t, st, r))) == Some(ServerHttp)
  {
    var rest := t + " Error (" + NatToString(st) + "): " + r;
    assert Message(ServerError(t, st, r)) == ServerPrefix + rest;
    PrefixOfConcat(ServerPrefix, rest);
    RevealsServerHttp(ServerPrefix + rest);
  }

  lemma ContentErrorRevealed(d: string, u: string)
    ensures CategoryOfMessage(Message(ContentError(d, u))) == Some(ContentMissing)
  {
    var rest := d + " (" + u + ")";
    assert Message(ContentError(d, u)) == ContentPrefix + rest;
    PrefixOfConcat(ContentPrefix, rest);
    RevealsContentMissing(ContentPrefix + rest);
  }

  lemma TimeoutErrorRevealed(h: string, ms: nat)
    ensures CategoryOfMessage(Message(TimeoutError(h, ms))) == Some(Timeout)
  {
    var rest := h + " took longer than " + NatToString(ms) + "ms to respond";
    assert Message(TimeoutError(h, ms)) == TimeoutPrefix + rest;
    PrefixOfConcat(TimeoutPrefix, rest);
    RevealsTimeout(TimeoutPrefix + rest);
  }

  lemma UnexpectedErrorRevealed(d: string)
    ensures CategoryOfMessage(Message(UnexpectedError(d))) == Some(Unexpected)
  {
    var rest := d;
    assert Message(UnexpectedError(d)) == UnexpectedPrefix + rest;
    PrefixOfConcat(UnexpectedPrefix, rest);
    RevealsUnexpected(UnexpectedPrefix + rest);
  }

  /** Every message names its category: the category can be read back from the text alone. */
  lemma {:induction false} MessageRevealsCategory(e: McpError)
    ensures CategoryOfMessage(Message(e)) == Some(e.Category())
  {
    match e
    case ConfigurationError(d) => ConfigurationErrorRevealed(d);
    case UrlFormatError(u) => UrlFormatErrorRevealed(u);
    case ConnectionError(t, u) => ConnectionErrorRevealed(t, u);
    case DnsError(h) => DnsErrorRevealed(h);
    case TransportTimeoutError(t) => TransportTimeoutErrorRevealed(t);
    case SslError(t) => SslErrorRevealed(t);
    case NetworkError(d, g) => NetworkErrorRevealed(d, g);
    case ServerError(t, st, r) => ServerErrorRevealed(t, st, r);
    case ContentError(d, u) => ContentErrorRevealed(d, u);
    case TimeoutError(h, ms) => TimeoutErrorRevealed(h, ms);
    case UnexpectedError(d) => UnexpectedErrorRevealed(d);
  }

  function ConfigurationErrorOf(message: string): (e: McpError)
    ensures Message(e) == ConfigurationPrefix + message
  {
    ConfigurationError(message)
  }

  /** The server a transport failure is blamed on. */
  function TransportTarget(ctx: ErrorContext): string {
    if IsSet(ctx.gatewayUrl) then "Gateway server" else "target server"
  }

  predicate IsDnsCode(code: Option<string>) {
    code == Some("ENOTFOUND") || code == Some("EAI_NONAME")
  }

  /** `error.message || error.code || 'Connection failed'`. */
  function FallbackDetail(err: Thrown): string {
    if err.message != "" then err.message
    else if err.code.Some? && err.code.value != "" then err.code.value
    else "Connection failed"
  }

  /**
   * createNetworkError: transport codes are checked first (refused, DNS,
   * timed out), then a certificate problem in the message, then the
   * generic network error. `parse` is `new URL`.
   */
  function CreateNetworkError(err: Thrown, ctx: ErrorContext, parse: string -> Option<Url>): (e: McpError)
    requires IsSet(ctx.url) ==> parse(ctx.url.value).Some?
    ensures e.Category() == Connection <==> err.code == Some("ECONNREFUSED")
    ensures e.Category() == Dns <==> IsDnsCode(err.code)
    ensures e.Category() == TransportTimeout <==> err.code == Some("ETIMEDOUT")
    ensures e.Category() == Tls <==>
      err.code !in {Some("ECONNREFUSED"), Some("ENOTFOUND"), Some("EAI_NONAME"), Some("ETIMEDOUT")}
      && Contains(err.message, "certificate")
    ensures e.ConnectionError? ==> e.url == Interpolate(ctx.url)
    ensures e.ConnectionError? || e.TransportTimeoutError? || e.SslError? ==>
      (e.target == "Gateway server" <==> IsSet(ctx.gatewayUrl))
    ensures e.DnsError? ==> e.hostname == if IsSet(ctx.url) then parse(ctx.url.value).value.hostname else "unknown"
    ensures e.NetworkError? ==>
      e.detail == FallbackDetail(err) && (e.guidance.Some? <==> e.detail in {"fetch failed", "Connection failed"})
    ensures e.NetworkError? && e.guidance.Some? ==>
      (IsSet(ctx.gatewayUrl) <==> e.guidance.value == "Check if the GATEWAY_URL is correct and the Gateway server is available")
    ensures e.Category() in {Connection, Dns, TransportTimeout, Tls, Network}
  {
    var target := TransportTarget(ctx);
    if err.code == Some("ECONNREFUSED") then
      ConnectionError(target, Interpolate(ctx.url))
    else if IsDnsCode(err.code) then
      DnsError(if IsSet(ctx.url) then parse(ctx.url.value).value.hostname else "unknown")
    else if err.code == Some("ETIMEDOUT") then
      TransportTimeoutError(target)
    else if Contains(err.message, "certificate") then
      SslError(target)
    else
      var detail := FallbackDetail(err);
      if detail == "fetch failed" || detail == "Connection failed" then
        NetworkError(detail, Some(if IsSet(ctx.gatewayUrl)
                                  then "Check if the GATEWAY_URL is correct and the Gateway server is available"
                                  else "Check if the target URL is accessible"))
      else
        NetworkError(detail, None)
  }

  /** A transport code decides the category whatever the message says. */
  lemma CodeBeatsMessage(err: Thrown, message: string, ctx: ErrorContext, parse: string -> Option<Url>)
    requires IsSet(ctx.url) ==> parse(ctx.url.value).Some?
    requires err.code in {Some("ECONNREFUSED"), Some("ENOTFOUND"), Some("EAI_NONAME"), Some("ETIMEDOUT")}
    ensures CreateNetworkError(err.(message := message), ctx, parse) == CreateNetworkError(err, ctx, parse)
  {
  }

  /** A message other than "fetch failed" reaches the caller unchanged. */
  lemma NetworkMessagePassesThrough(err: Thrown, ctx: ErrorContext, parse: string -> Option<Url>)
    requires IsSet(ctx.url) ==> parse(ctx.url.value).Some?
    requires err.code !in {Some("ECONNREFUSED"), Some("ENOTFOUND"), Some("EAI_NONAME"), Some("ETIMEDOUT")}
    requires !Contains(err.message, "certificate")
    requires err.message != "" && err.message != "fetch failed" && err.message != "Connection failed"
    ensures Message(CreateNetworkError(err, ctx, parse)) == NetworkPrefix + err.message
  {
  }

  /** The wording createServerError uses for a status. */
  function ServerReason(status: nat, statusText: string): string {
    if status == 403 then "Access blocked (bot detection or geo-restriction)"
    else if status == 404 then "Page not found"
    else if status == 429 then "Rate limit exceeded"
    else if status >= 500 then "Internal server error"
    else statusText
  }

  /** createServerError: an HTTP failure status, blamed on the gateway when one is configured. */
  function CreateServerError(status: nat, statusText: string, ctx: ErrorContext): (e: McpError)
    ensures e.Category() == ServerHttp && e.status == status
    ensures e.target == if IsSet(ctx.gatewayUrl) then "Gateway server" else "Website"
    ensures status == 403 ==> e.reason == "Access blocked (bot detection or geo-restriction)"
    ensures status == 404 ==> e.reason == "Page not found"
    ensures status == 429 ==> e.reason == "Rate limit exceeded"
    ensures status >= 500 ==> e.reason == "Internal server error"
    ensures status !in {403, 404, 429} && status < 500 ==> e.reason == statusText
  {
    ServerError(if IsSet(ctx.gatewayUrl) then "Gateway server" else "Website", status, ServerReason(status, statusText))
  }

  const EmptyContentWarningTail: string := "). May contain only media or require JavaScript."

  /** createEmptyContentWarning: a soft outcome returned as content, not thrown. */
  function EmptyContentWarning(url: string): (w: string)
    ensures CategoryOfMessage(w) == None
  {
    var w := "\U{1F4C4} Content Warning: " + ("Page fetched but appears empty after conversion (" + url + EmptyContentWarningTail);
    PrefixOfConcat("\U{1F4C4} Content Warning: ", "Page fetched but appears empty after conversion (" + url + EmptyContentWarningTail);
    NotBoth(w, "\U{1F4C4} Content Warning: ", ConfigurationPrefix, 0);
    NotBoth(w, "\U{1F4C4} Content Warning: ", UrlFormatPrefix, 0);
    NotBoth(w, "\U{1F4C4} Content Warning: ", ConnectionPrefix, 0);
    NotBoth(w, "\U{1F4C4} Content Warning: ", DnsPrefix, 0);
    NotBoth(w, "\U{1F4C4} Content Warning: ", TransportTimeoutPrefix, 0);
    NotBoth(w, "\U{1F4C4} Content Warning: ", SslPrefix, 0);
    NotBoth(w, "\U{1F4C4} Content Warning: ", NetworkPrefix, 0);
    NotBoth(w, "\U{1F4C4} Content Warning: ", ServerPrefix, 0);
    NotBoth(w, "\U{1F4C4} Content Warning: ", ContentPrefix, 10);
    NotBoth(w, "\U{1F4C4} Content Warning: ", TimeoutPrefix, 0);
    NotBoth(w, "\U{1F4C4} Content Warning: ", UnexpectedPrefix, 0);
    w
  }

  // ---------------------------------------------------------------------
  // validateEnvironment

  const IssuesPrefix: string := "\U{26A0}\U{FE0F} Configuration Issues: "
  const IssuesSuffix: string := ". GATEWAY_URL must be set to a valid HTTP(S) URL"

  /** GATEWAY_URL is unset, or parses as an http: or https: URL. */
  predicate GatewayAcceptable(env: Env, parse: string -> Option<Url>) {
    !EnvSet(env, "GATEWAY_URL")
    || (parse(env["GATEWAY_URL"]).Some? && parse(env["GATEWAY_URL"]).value.protocol in {"http:", "https:"})
  }

  /** The issues validateEnvironment reports, in the order it reports them. */
  function EnvIssues(env: Env, parse: string -> Option<Url>): (issues: seq<string>)
    ensures issues == [] <==> GatewayAcceptable(env, parse) && (EnvSet(env, "AUTH_USERNAME") <==> EnvSet(env, "AUTH_PASSWORD"))
  {
    (if !EnvSet(env, "GATEWAY_URL") then []
     else if parse(env["GATEWAY_URL"]).None? then ["GATEWAY_URL has invalid format: " + env["GATEWAY_URL"]]
     else if parse(env["GATEWAY_URL"]).value.protocol !in {"http:", "https:"} then
       ["GATEWAY_URL has invalid protocol: " + parse(env["GATEWAY_URL"]).value.protocol]
     else [])
    + (if EnvSet(env, "AUTH_USERNAME") && !EnvSet(env, "AUTH_PASSWORD") then ["AUTH_USERNAME is set but AUTH_PASSWORD is missing"] else [])
    + (if EnvSet(env, "AUTH_PASSWORD") && !EnvSet(env, "AUTH_USERNAME") then ["AUTH_PASSWORD is set but AUTH_USERNAME is missing"] else [])
  }

  /**
   * validateEnvironment: collects the issues one by one and reports them in
   * one message, or None when there are none.
   */
  method ValidateEnvironment(env: Env, parse: string -> Option<Url>) returns (r: Option<string>)
    ensures r == None <==> GatewayAcceptable(env, parse) && (EnvSet(env, "AUTH_USERNAME") <==> EnvSet(env, "AUTH_PASSWORD"))
    ensures r.Some? ==> r.value == IssuesPrefix + Join(EnvIssues(env, parse), ", ") + IssuesSuffix
  {
    var issues: seq<string> := [];
    if EnvSet(env, "GATEWAY_URL") {
      var gatewayUrl := env["GATEWAY_URL"];
      var url := parse(gatewayUrl);
      if url.None? {
        issues := issues + ["GATEWAY_URL has invalid format: " + gatewayUrl];
      } else if url.value.protocol !in {"http:", "https:"} {
        issues := issues + ["GATEWAY_URL has invalid protocol: " + url.value.protocol];
      }
    }
    var hasUsername := EnvSet(env, "AUTH_USERNAME");
    var hasPassword := EnvSet(env, "AUTH_PASSWORD");
    if hasUsername && !hasPassword {
      issues := issues + ["AUTH_USERNAME is set but AUTH_PASSWORD is missing"];
    }
    if hasPassword && !hasUsername {
      issues := issues + ["AUTH_PASSWORD is set but AUTH_USERNAME is missing"];
    }
    assert issues == EnvIssues(env, parse);
    if |issues| == 0 {
      return None;
    }
    r := Some(IssuesPrefix + Join(issues, ", ") + IssuesSuffix);
  }
}

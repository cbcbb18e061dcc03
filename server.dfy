/**
 * The MCP server entry point (src/index.ts): which tools are listed for a
 * configuration, how a tool call is checked and dispatched, and the
 * start-up checks. Transports, logging, resources and the inactivity
 * timer are not part of this model.
 */
module McpServer {
  import opened Base
  import opened Text
  import opened Js
  import opened ErrorHandler
  import opened ToolArgs
  import opened UrlReader
  import opened Search
  import opened Zhipu
  import opened ImageUnderstand
  import opened ImageGenerate

  // ---------------------------------------------------------------------
  // Tool listing

  datatype Tool = WebSearchTool | ReadUrlTool | ImageUnderstandTool | ImageGenerateTool {
    /** The name a client calls the tool by. */
    function Name(): string {
      match this
      case WebSearchTool => "searxng_web_search"
      case ReadUrlTool => "web_url_read"
      case ImageUnderstandTool => "image_understand"
      case ImageGenerateTool => "image_generate"
    }

    /** The variable a call of the tool needs. */
    function Variable(): string {
      if this.WebSearchTool? || this.ReadUrlTool? then "GATEWAY_URL" else "ZHIPUAI_API_KEY"
    }
  }

  const AllTools: seq<Tool> := [WebSearchTool, ReadUrlTool, ImageUnderstandTool, ImageGenerateTool]

  /**
   * The ListTools handler: the gateway tools when GATEWAY_URL is set, the
   * AI tools when ZHIPUAI_API_KEY is set, and all four when neither is.
   */
  method ListTools(env: Env) returns (tools: seq<Tool>)
    ensures tools == AvailableTools(env)
  {
    tools := [];
    if EnvSet(env, "GATEWAY_URL") {
      tools := tools + [WebSearchTool, ReadUrlTool];
    }
    if EnvSet(env, "ZHIPUAI_API_KEY") {
      tools := tools + [ImageUnderstandTool, ImageGenerateTool];
    }
    if |tools| == 0 {
      tools := tools + AllTools;
    }
  }

  /** The listed tools as a value, case by case. */
  function AvailableTools(env: Env): (tools: seq<Tool>)
    ensures EnvSet(env, "GATEWAY_URL") && !EnvSet(env, "ZHIPUAI_API_KEY") ==> tools == [WebSearchTool, ReadUrlTool]
    ensures !EnvSet(env, "GATEWAY_URL") && EnvSet(env, "ZHIPUAI_API_KEY") ==> tools == [ImageUnderstandTool, ImageGenerateTool]
    ensures EnvSet(env, "GATEWAY_URL") == EnvSet(env, "ZHIPUAI_API_KEY") ==> tools == AllTools
  {
    var gateway := if EnvSet(env, "GATEWAY_URL") then [WebSearchTool, ReadUrlTool] else [];
    var ai := if EnvSet(env, "ZHIPUAI_API_KEY") then [ImageUnderstandTool, ImageGenerateTool] else [];
    if gateway + ai == [] then AllTools else gateway + ai
  }

  /**
   * Once at least one variable is set, a tool is listed exactly when its
   * own variable is set, so every listed tool passes the call's
   * environment check. With neither set, all four are listed and none passes it.
   */
  lemma {:induction false} ListedIffCallable(env: Env, t: Tool)
    ensures EnvSet(env, "GATEWAY_URL") || EnvSet(env, "ZHIPUAI_API_KEY") ==>
              (t in AvailableTools(env) <==> EnvSet(env, t.Variable()))
    ensures !EnvSet(env, "GATEWAY_URL") && !EnvSet(env, "ZHIPUAI_API_KEY") ==>
              t in AvailableTools(env) && !EnvSet(env, t.Variable())
  {
    if EnvSet(env, "GATEWAY_URL") && EnvSet(env, "ZHIPUAI_API_KEY") {
      assert AvailableTools(env) == AllTools;
      assert t == AllTools[0] || t == AllTools[1] || t == AllTools[2] || t == AllTools[3];
    } else if !EnvSet(env, "GATEWAY_URL") && !EnvSet(env, "ZHIPUAI_API_KEY") {
      assert t == AllTools[0] || t == AllTools[1] || t == AllTools[2] || t == AllTools[3];
    }
  }

  // ---------------------------------------------------------------------
  // Call dispatch

  function ToolNamed(name: string): (t: Option<Tool>)
    ensures t.Some? ==> t.value.Name() == name
    ensures t.None? ==> forall u: Tool :: u.Name() != name
  {
    if name == "searxng_web_search" then Some(WebSearchTool)
    else if name == "web_url_read" then Some(ReadUrlTool)
    else if name == "image_understand" then Some(ImageUnderstandTool)
    else if name == "image_generate" then Some(ImageGenerateTool)
    else None
  }

  function MissingVariableMessage(t: Tool): string {
    match t
    case WebSearchTool => "GATEWAY_URL environment variable is required for web search. Configure it or use image tools only."
    case ReadUrlTool => "GATEWAY_URL environment variable is required for URL reading. Configure it or use image tools only."
    case ImageUnderstandTool => "ZHIPUAI_API_KEY environment variable is required for image understanding"
    case ImageGenerateTool => "ZHIPUAI_API_KEY environment variable is required for image generation"
  }

  function InvalidArgumentsMessage(t: Tool): string {
    match t
    case WebSearchTool => "Invalid arguments for web search"
    case ReadUrlTool => "Invalid arguments for URL reading"
    case ImageUnderstandTool => "Invalid arguments for image understanding"
    case ImageGenerateTool => "Invalid arguments for image generation"
  }

  predicate ArgumentsFit(t: Tool, args: JsValue) {
    match t
    case WebSearchTool => IsSearXNGWebSearchArgs(args)
    case ReadUrlTool => IsWebUrlReadArgs(args)
    case ImageUnderstandTool => IsImageUnderstandArgs(args)
    case ImageGenerateTool => IsImageGenerateArgs(args)
  }

  /**
   * The checks a call goes through before any tool runs: the tool must
   * exist, then its variable must be set, then its arguments must fit.
   */
  function CallGuard(name: string, args: JsValue, env: Env): (r: Option<string>)
    ensures ToolNamed(name).None? ==> r == Some("Unknown tool: " + name)
    ensures ToolNamed(name).Some? && !EnvSet(env, ToolNamed(name).value.Variable()) ==>
              r == Some(MissingVariableMessage(ToolNamed(name).value))
    ensures ToolNamed(name).Some? && EnvSet(env, ToolNamed(name).value.Variable()) ==>
              r == if ArgumentsFit(ToolNamed(name).value, args) then None
                   else Some(InvalidArgumentsMessage(ToolNamed(name).value))
  {
    match ToolNamed(name)
    case None => Some("Unknown tool: " + name)
    case Some(t) =>
      if !EnvSet(env, t.Variable()) then Some(MissingVariableMessage(t))
      else if !ArgumentsFit(t, args) then Some(InvalidArgumentsMessage(t))
      else None
  }

  /** A call the environment refuses is refused the same way whatever its arguments are. */
  lemma EnvironmentBeforeArguments(t: Tool, args1: JsValue, args2: JsValue, env: Env)
    requires !EnvSet(env, t.Variable())
    ensures CallGuard(t.Name(), args1, env) == CallGuard(t.Name(), args2, env) == Some(MissingVariableMessage(t))
  {
    assert ToolNamed(t.Name()) == Some(t);
  }

  /** The pagination options a read call passes on, numbers taken as whole characters. */
  function ReadOptions(a: UrlReadArgs): (opts: PaginationOptions)
    ensures opts.readHeadings <==> a.readHeadings == Some(true)
    ensures opts.section == a.section && opts.paragraphRange == a.paragraphRange
    ensures opts.startChar.Some? <==> a.startChar.Some?
    ensures opts.maxLength.Some? <==> a.maxLength.Some?
    ensures opts.startChar.Some? ==> opts.startChar.value as real <= a.startChar.value < opts.startChar.value as real + 1.0
    ensures opts.maxLength.Some? ==> opts.maxLength.value as real <= a.maxLength.value < opts.maxLength.value as real + 1.0
  {
    PaginationOptions(if a.startChar.Some? then Some(a.startChar.value.Floor) else None,
                      if a.maxLength.Some? then Some(a.maxLength.value.Floor) else None,
                      a.section, a.paragraphRange, a.readHeadings == Some(true))
  }

  /**
   * The image understanding arguments as the dispatch hands them over: the
   * validated record carries `file`, but understandImage reads `files`,
   * so the list it sees is always missing.
   */
  function VisionArgsAsWritten(a: UnderstandArgs): (v: VisionArgs)
    ensures v.files.None? && v.prompt == a.prompt && v.thinking == a.thinking
  {
    VisionArgs(None, a.prompt, a.thinking)
  }

  /** Through the dispatch as written, every image understanding call carrying the schema's fields fails before any request. */
  lemma UnderstandAlwaysRefusedAsWritten(a: UnderstandArgs)
    ensures UnderstandGuard(VisionArgsAsWritten(a)) == Some(FilesRequired)
  {
  }

  /** The intended hand-over: the single validated file as a one-element list. */
  function VisionArgsOf(a: UnderstandArgs): (v: VisionArgs)
    ensures v.files == Some([a.file]) && v.prompt == a.prompt && v.thinking == a.thinking
  {
    VisionArgs(Some([a.file]), a.prompt, a.thinking)
  }

  /** With the intended hand-over, a call with a non-blank prompt reaches the content build. */
  lemma UnderstandReachesBuild(a: UnderstandArgs)
    ensures UnderstandGuard(VisionArgsOf(a)).None? <==> !IsBlank(a.prompt)
  {
  }

  /** The outside world a call can touch: URL parsing, the gateway, the file system and the AI API. */
  datatype Io = Io(
    parse: string -> Option<Url>,
    encode: string -> string,
    readFetch: string -> FetchOutcome,
    resolve: string -> Option<string>,
    base64: string -> string,
    searchFetch: SearchRequest -> FetchOutcome,
    readFile: string -> Result<string, string>,
    send: ApiCall -> Reply,
    show: JsValue -> string)

  /** What a call ends with: refused by the checks, or the outcome of the tool that ran. */
  datatype CallResult =
    | Refused(message: string)
    | Searched(search: SearchOutcome)
    | ReadDone(read: ReadResult, request: Option<string>)
    | Understood(understood: ApiOutcome)
    | Generated(generated: ApiOutcome)

  /**
   * The CallTool handler. Reads go through the one shared reader, whose
   * cache is the module-level URL cache, with the reader's default timeout.
   */
  method CallTool(name: string, args: JsValue, env: Env, reader: Reader, io: Io) returns (r: CallResult)
    requires EnvSet(env, "GATEWAY_URL") && io.resolve(env["GATEWAY_URL"]).Some? ==>
               io.parse(io.resolve(env["GATEWAY_URL"]).value).Some?
    modifies reader
    ensures CallGuard(name, args, env).Some? ==> r == Refused(CallGuard(name, args, env).value) && reader.cache == old(reader.cache)
    ensures CallGuard(name, args, env).None? && name == "web_url_read" ==>
              var a := UrlReadArgsOf(args).value;
              var step := ReadSpec(old(reader.cache), a.url, DefaultTimeoutMs, ReadOptions(a), env, io.parse, io.encode, io.readFetch);
              r == ReadDone(step.result, step.request) && reader.cache == step.cache
    ensures CallGuard(name, args, env).None? && name != "web_url_read" ==> reader.cache == old(reader.cache)
    ensures CallGuard(name, args, env).None? && name == "searxng_web_search" ==>
              var a := SearchArgsOf(args).value;
              r.Searched? && (r.search.request.Some? ==> r.search.request.value.body == RequestBody(a.query, a.limit.GetOr(DefaultLimit)))
    ensures CallGuard(name, args, env).None? && name == "image_generate" ==>
              r == Generated(GenerateImage(GenerateArgsOf(args).value, env, io.send, io.show))
    ensures CallGuard(name, args, env).None? && name == "image_understand" ==>
              var a := UnderstandArgsOf(args).value;
              r.Understood?
              && (IsBlank(a.prompt) ==> r.understood == ApiOutcome(None, Err(ImageUnderstand.PromptRequired)))
              && (!IsBlank(a.prompt) && FileItems([a.file], io.readFile).Ok? ==>
                    r.understood == CallVisionAPI(env, MessagesJs(FileItems([a.file], io.readFile).value + [TextItem(a.prompt)]),
                                                  a.thinking.GetOr(false), io.send, io.show))
              && (!IsBlank(a.prompt) && FileItems([a.file], io.readFile).Err? ==>
                    r.understood == ApiOutcome(None, Err(FileItems([a.file], io.readFile).error)))
  {
    var guard := CallGuard(name, args, env);
    if guard.Some? {
      return Refused(guard.value);
    }
    var tool := ToolNamed(name).value;
    match tool
    case WebSearchTool =>
      var a := SearchArgsOf(args).value;
      var o := PerformWebSearch(env, a.query, a.limit, io.resolve, io.parse, io.base64, io.searchFetch);
      r := Searched(o);
    case ReadUrlTool =>
      var a := UrlReadArgsOf(args).value;
      var result, request := reader.FetchAndConvertToMarkdown(a.url, DefaultTimeoutMs, ReadOptions(a), env,
                                                              io.parse, io.encode, io.readFetch);
      r := ReadDone(result, request);
    case ImageUnderstandTool =>
      var a := UnderstandArgsOf(args).value;
      var o := UnderstandImage(VisionArgsOf(a), env, io.readFile, io.send, io.show);
      r := Understood(o);
    case ImageGenerateTool =>
      r := Generated(GenerateImage(GenerateArgsOf(args).value, env, io.send, io.show));
  }

  // ---------------------------------------------------------------------
  // Start-up

  /** The transport the server starts on. */
  datatype Transport = Http(port: nat) | Stdio

  function InvalidPortMessage(value: string): string {
    "Invalid HTTP port: " + value + ". Must be between 1-65535."
  }

  /** `parseInt(MCP_HTTP_PORT, 10)` must give a port in 1..65535; leading digits are enough. */
  function HttpPort(value: string): (r: Result<nat, string>)
    ensures r.Ok? <==> JsParseInt(value).Some? && 1 <= JsParseInt(value).value <= 65535
    ensures r.Ok? ==> r.value == JsParseInt(value).value
    ensures r.Err? ==> r.error == InvalidPortMessage(value)
  {
    match JsParseInt(value)
    case Some(port) => if 1 <= port <= 65535 then Ok(port) else Err(InvalidPortMessage(value))
    case None => Err(InvalidPortMessage(value))
  }

  /** Every port number in range, written in decimal (with anything non-numeric after it), is accepted as itself. */
  lemma PortNumeralAccepted(n: nat, rest: string)
    requires 1 <= n <= 65535
    requires rest == [] || !IsDigit(rest[0])
    ensures HttpPort(NatToString(n) + rest) == Ok(n)
  {
    JsParseIntOfNatToString(n, rest);
  }

  /** Zero and numbers past 65535 are refused. */
  lemma PortOutOfRangeRefused(n: nat)
    requires n == 0 || n > 65535
    ensures HttpPort(NatToString(n)) == Err(InvalidPortMessage(NatToString(n)))
  {
    JsParseIntOfNatToString(n, []);
    assert NatToString(n) + [] == NatToString(n);
  }

  /**
   * main: the environment check first (a failure stops start-up with its
   * message), then HTTP on MCP_HTTP_PORT when it is set, and STDIO otherwise.
   */
  method Start(env: Env, parse: string -> Option<Url>) returns (r: Result<Transport, string>)
    ensures !GatewayAcceptable(env, parse) || (EnvSet(env, "AUTH_USERNAME") != EnvSet(env, "AUTH_PASSWORD")) ==>
              r == Err("\U{274C} " + (IssuesPrefix + Join(EnvIssues(env, parse), ", ") + IssuesSuffix))
    ensures GatewayAcceptable(env, parse) && (EnvSet(env, "AUTH_USERNAME") == EnvSet(env, "AUTH_PASSWORD")) ==>
              r == if !EnvSet(env, "MCP_HTTP_PORT") then Ok(Stdio)
                   else match HttpPort(env["MCP_HTTP_PORT"])
                        case Ok(port) => Ok(Http(port))
                        case Err(m) => Err(m)
    ensures r.Ok? && r.value.Http? ==> 1 <= r.value.port <= 65535
  {
    var validationError := ValidateEnvironment(env, parse);
    if validationError.Some? {
      return Err("\U{274C} " + validationError.value);
    }
    var httpPort := EnvGet(env, "MCP_HTTP_PORT");
    if IsSet(httpPort) {
      var port := HttpPort(httpPort.value);
      if port.Err? {
        return Err(port.error);
      }
      return Ok(Http(port.value));
    }
    return Ok(Stdio);
  }
}

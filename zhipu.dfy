/**
 * The Zhipu AI client (src/api/zhipu.ts): the request each call sends,
 * the error raised for a failing HTTP status, and what is read out of a
 * successful answer. The HTTP exchange itself is a parameter: `send` maps
 * the request to the reply the service gives.
 */
module Zhipu {
  import opened Base
  import opened Text
  import opened Js

  const ApiBase: string := "https://open.bigmodel.cn/api/paas/v4"
  const MissingKeyMessage: string := "ZHIPUAI_API_KEY environment variable is required"
  const VisionModel: string := "glm-4.6v-flash"
  const ImageModel: string := "cogview-3-flash"
  const DefaultImageSize: string := "1024x1024"
  const NoVisionResponse: string := "No response from vision API"
  const NoImages: string := "No images generated"

  /** One POST: the endpoint URL, the Authorization header and the JSON body. */
  datatype ApiCall = ApiCall(url: string, authorization: string, payload: JsValue)

  /** The service's answer, or the rejection of `fetch` itself (DNS failure, refused connection) with its message. */
  datatype Reply = Reply(status: nat, body: Body) | Rejected(message: string) {
    predicate Ok() { Reply? && 200 <= status <= 299 }
  }

  /** The request made, if any, and the value returned or the message of the error thrown. */
  datatype ApiOutcome = ApiOutcome(request: Option<ApiCall>, result: Result<JsValue, string>)

  // ---------------------------------------------------------------------
  // handleAPIError

  datatype StatusClass = Unauthorized | ServerFailure | OtherFailure

  function ClassOf(status: nat): StatusClass {
    if status == 401 then Unauthorized else if status >= 500 then ServerFailure else OtherFailure
  }

  function ErrorPrefix(c: StatusClass): string {
    match c
    case Unauthorized => "Authentication failed"
    case ServerFailure => "Server error"
    case OtherFailure => "API error"
  }

  /** The text a JavaScript template literal gives a value; `show` renders non-strings. */
  function TemplateText(v: JsValue, show: JsValue -> string): string {
    if v.Str? then v.s else show(v)
  }

  /** `errorData.error?.message || \`HTTP ${status}\``, with an unreadable body read as `{}`. */
  function ErrorDetail(status: nat, errorData: JsValue, show: JsValue -> string): string {
    var m := Get(Get(errorData, "error"), "message");
    if Truthy(m) then TemplateText(m, show) else "HTTP " + NatToString(status)
  }

  /**
   * The message handleAPIError throws. A body that is JSON null makes the
   * property read itself fail with a TypeError.
   */
  function ApiErrorMessage(status: nat, body: Body, show: JsValue -> string): (m: string)
    ensures body.Unparsable? ==> m == ErrorPrefix(ClassOf(status)) + ": HTTP " + NatToString(status)
    // a readable body without a truthy `error.message` also falls back to the status
    ensures body.Parsed? && !body.value.Null? && !body.value.Undefined? && !Truthy(Get(Get(body.value, "error"), "message")) ==>
              m == ErrorPrefix(ClassOf(status)) + ": HTTP " + NatToString(status)
    // a non-empty string `error.message` is shown after the prefix
    ensures body.Parsed? && Get(Get(body.value, "error"), "message").Str? && Truthy(Get(Get(body.value, "error"), "message")) ==>
              m == ErrorPrefix(ClassOf(status)) + ": " + Get(Get(body.value, "error"), "message").s
  {
    match body
    case Unparsable(_) => ErrorPrefix(ClassOf(status)) + ": " + ErrorDetail(status, Obj(map[]), show)
    case Parsed(v) =>
      if v.Null? || v.Undefined? then NullRead(v, "error")
      else ErrorPrefix(ClassOf(status)) + ": " + ErrorDetail(status, v, show)
  }

  /** The status class a message announces, read back from its prefix. */
  function ClassOfMessage(m: string): Option<StatusClass> {
    if StartsWith(m, "Authentication failed: ") then Some(Unauthorized)
    else if StartsWith(m, "Server error: ") then Some(ServerFailure)
    else if StartsWith(m, "API error: ") then Some(OtherFailure)
    else None
  }

  lemma PrefixRead(p: string, rest: string)
    ensures StartsWith(p + rest, p)
  {
    assert (p + rest)[..|p|] == p;
  }

  lemma UnauthorizedRead(detail: string)
    ensures ClassOfMessage(ErrorPrefix(Unauthorized) + ": " + detail) == Some(Unauthorized)
  {
    assert ErrorPrefix(Unauthorized) + ": " + detail == "Authentication failed: " + detail;
    PrefixRead("Authentication failed: ", detail);
  }

  lemma ServerFailureRead(detail: string)
    ensures ClassOfMessage(ErrorPrefix(ServerFailure) + ": " + detail) == Some(ServerFailure)
  {
    var m := ErrorPrefix(ServerFailure) + ": " + detail;
    assert m == "Server error: " + detail;
    PrefixRead("Server error: ", detail);
    assert m[0] != "Authentication failed: "[0];
  }

  lemma OtherFailureRead(detail: string)
    ensures ClassOfMessage(ErrorPrefix(OtherFailure) + ": " + detail) == Some(OtherFailure)
  {
    var m := ErrorPrefix(OtherFailure) + ": " + detail;
    assert m == "API error: " + detail;
    PrefixRead("API error: ", detail);
    assert m[1] != "Authentication failed: "[1];
    assert m[0] != "Server error: "[0];
  }

  /** The error message of a failing reply tells 401, 5xx and other statuses apart. */
  lemma {:induction false} ErrorMessageRevealsStatusClass(status: nat, body: Body, show: JsValue -> string)
    requires !(body.Parsed? && (body.value.Null? || body.value.Undefined?))
    ensures ClassOfMessage(ApiErrorMessage(status, body, show)) == Some(ClassOf(status))
  {
    var detail := if body.Unparsable? then ErrorDetail(status, Obj(map[]), show) else ErrorDetail(status, body.value, show);
    assert ApiErrorMessage(status, body, show) == ErrorPrefix(ClassOf(status)) + ": " + detail;
    match ClassOf(status)
    case Unauthorized => UnauthorizedRead(detail);
    case ServerFailure => ServerFailureRead(detail);
    case OtherFailure => OtherFailureRead(detail);
  }

  /** The service's own error message is passed through after the prefix. */
  lemma ServiceMessagePassesThrough(status: nat, message: string, show: JsValue -> string)
    requires message != ""
    ensures ApiErrorMessage(status, Parsed(Obj(map["error" := Obj(map["message" := Str(message)])])), show)
         == ErrorPrefix(ClassOf(status)) + ": " + message
  {
  }

  // ---------------------------------------------------------------------
  // fetchZhipuAPI

  /** The request for an endpoint, or the missing-key error when ZHIPUAI_API_KEY is unset or empty. */
  function PrepareCall(env: Env, endpoint: string, payload: JsValue): (r: Result<ApiCall, string>)
    ensures r.Err? <==> !EnvSet(env, "ZHIPUAI_API_KEY")
    ensures r.Err? ==> r.error == MissingKeyMessage
    ensures r.Ok? ==> r.value.url == ApiBase + endpoint && r.value.payload == payload
                      && r.value.authorization == "Bearer " + env["ZHIPUAI_API_KEY"]
  {
    if !EnvSet(env, "ZHIPUAI_API_KEY") then Err(MissingKeyMessage)
    else Ok(ApiCall(ApiBase + endpoint, "Bearer " + env["ZHIPUAI_API_KEY"], payload))
  }

  /**
   * The request made and the reply body, or the error: a missing key stops
   * before any request, a rejected fetch escapes unchanged, and every
   * non-ok reply raises.
   */
  datatype Exchanged = Exchanged(request: Option<ApiCall>, body: Result<Body, string>)

  function Exchange(env: Env, endpoint: string, payload: JsValue, send: ApiCall -> Reply, show: JsValue -> string): (x: Exchanged)
    ensures x.request.None? <==> !EnvSet(env, "ZHIPUAI_API_KEY")
    ensures x.request.None? ==> x.body == Err(MissingKeyMessage)
    ensures x.request.Some? ==> x.request == Some(PrepareCall(env, endpoint, payload).value)
    ensures x.request.Some? && send(x.request.value).Rejected? ==> x.body == Err(send(x.request.value).message)
    ensures x.request.Some? && send(x.request.value).Reply? && !send(x.request.value).Ok() ==>
              x.body == Err(ApiErrorMessage(send(x.request.value).status, send(x.request.value).body, show))
    ensures x.request.Some? && send(x.request.value).Ok() ==> x.body == Ok(send(x.request.value).body)
  {
    match PrepareCall(env, endpoint, payload)
    case Err(e) => Exchanged(None, Err(e))
    case Ok(call) =>
      var reply := send(call);
      if reply.Rejected? then Exchanged(Some(call), Err(reply.message))
      else if !reply.Ok() then Exchanged(Some(call), Err(ApiErrorMessage(reply.status, reply.body, show)))
      else Exchanged(Some(call), Ok(reply.body))
  }

  // ---------------------------------------------------------------------
  // callVisionAPI

  function VisionPayload(messages: JsValue, thinking: bool): JsValue {
    Obj(map["model" := Str(VisionModel),
            "messages" := messages,
            "thinking" := Obj(map["type" := Str(if thinking then "enabled" else "disabled")])])
  }

  /** `data.choices?.[0]?.message?.content`, which must be truthy. */
  function VisionAnswer(body: Body): (r: Result<JsValue, string>)
    ensures r.Ok? ==> Truthy(r.value)
  {
    match body
    case Unparsable(reason) => Err(reason)
    case Parsed(data) =>
      if data.Null? || data.Undefined? then Err(NullRead(data, "choices"))
      else
        var content := Get(Get(At(Get(data, "choices"), 0), "message"), "content");
        if Truthy(content) then Ok(content) else Err(NoVisionResponse)
  }

  /** The shape of a vision answer carrying `content`. */
  function VisionReply(content: string): JsValue {
    Obj(map["choices" := Arr([Obj(map["message" := Obj(map["content" := Str(content)])])])])
  }

  /** A vision answer gives back its content, and an empty content is reported as no response. */
  lemma VisionAnswerOfReply(content: string)
    ensures content != "" ==> VisionAnswer(Parsed(VisionReply(content))) == Ok(Str(content))
    ensures content == "" ==> VisionAnswer(Parsed(VisionReply(content))) == Err(NoVisionResponse)
  {
  }

  /** callVisionAPI: one request to /chat/completions with the thinking switch; the answer's content. */
  function CallVisionAPI(env: Env, messages: JsValue, thinking: bool, send: ApiCall -> Reply, show: JsValue -> string): (o: ApiOutcome)
    ensures o.request.None? <==> !EnvSet(env, "ZHIPUAI_API_KEY")
    ensures o.request.Some? ==> o.request.value.url == ApiBase + "/chat/completions"
                                && o.request.value.payload == VisionPayload(messages, thinking)
    ensures o.request.Some? && !send(o.request.value).Ok() ==> o.result.Err?
    ensures o.request.None? ==> o.result == Err(MissingKeyMessage)
    ensures o.request.Some? && send(o.request.value).Rejected? ==> o.result == Err(send(o.request.value).message)
    ensures o.request.Some? && send(o.request.value).Reply? && !send(o.request.value).Ok() ==>
              o.result == Err(ApiErrorMessage(send(o.request.value).status, send(o.request.value).body, show))
    ensures o.request.Some? && send(o.request.value).Ok() ==> o.result == VisionAnswer(send(o.request.value).body)
    ensures o.result.Ok? ==> Truthy(o.result.value)
  {
    var x := Exchange(env, "/chat/completions", VisionPayload(messages, thinking), send, show);
    ApiOutcome(x.request, if x.body.Err? then Err(x.body.error) else VisionAnswer(x.body.value))
  }

  /** The thinking switch is "enabled" exactly when thinking is requested, and the model is fixed. */
  lemma VisionPayloadFields(messages: JsValue, thinking: bool)
    ensures Get(VisionPayload(messages, thinking), "model") == Str(VisionModel)
    ensures Get(VisionPayload(messages, thinking), "messages") == messages
    ensures Get(Get(VisionPayload(messages, thinking), "thinking"), "type") == Str("enabled") <==> thinking
  {
  }

  // ---------------------------------------------------------------------
  // callImageGenAPI

  function ImagePayload(prompt: string, size: string): JsValue {
    Obj(map["model" := Str(ImageModel), "prompt" := Str(prompt), "size" := Str(size)])
  }

  /** `data.data?.[0]?.url`, which must be truthy. */
  function ImageAnswer(body: Body): (r: Result<JsValue, string>)
    ensures r.Ok? ==> Truthy(r.value)
  {
    match body
    case Unparsable(reason) => Err(reason)
    case Parsed(data) =>
      if data.Null? || data.Undefined? then Err(NullRead(data, "data"))
      else
        var url := Get(At(Get(data, "data"), 0), "url");
        if Truthy(url) then Ok(url) else Err(NoImages)
  }

  /** The shape of an image answer listing the given URLs. */
  function ImageReply(urls: seq<string>): JsValue {
    Obj(map["data" := Arr(seq(|urls|, i requires 0 <= i < |urls| => Obj(map["url" := Str(urls[i])])))])
  }

  /** The first generated image's URL is returned; an empty list is reported as no images. */
  lemma {:induction false} ImageAnswerOfReply(urls: seq<string>)
    ensures urls == [] ==> ImageAnswer(Parsed(ImageReply(urls))) == Err(NoImages)
    ensures urls != [] && urls[0] != "" ==> ImageAnswer(Parsed(ImageReply(urls))) == Ok(Str(urls[0]))
  {
    var items := seq(|urls|, i requires 0 <= i < |urls| => Obj(map["url" := Str(urls[i])]));
    assert Get(ImageReply(urls), "data") == Arr(items);
    if urls != [] {
      assert At(Arr(items), 0) == Obj(map["url" := Str(urls[0])]);
    }
  }

  /** callImageGenAPI: one request to /images/generations with the prompt and size; the first URL. */
  function CallImageGenAPI(env: Env, prompt: string, size: string, send: ApiCall -> Reply, show: JsValue -> string): (o: ApiOutcome)
    ensures o.request.None? <==> !EnvSet(env, "ZHIPUAI_API_KEY")
    ensures o.request.Some? ==> o.request.value.url == ApiBase + "/images/generations"
                                && o.request.value.payload == ImagePayload(prompt, size)
    ensures o.request.Some? && !send(o.request.value).Ok() ==> o.result.Err?
    ensures o.request.None? ==> o.result == Err(MissingKeyMessage)
    ensures o.request.Some? && send(o.request.value).Rejected? ==> o.result == Err(send(o.request.value).message)
    ensures o.request.Some? && send(o.request.value).Reply? && !send(o.request.value).Ok() ==>
              o.result == Err(ApiErrorMessage(send(o.request.value).status, send(o.request.value).body, show))
    ensures o.request.Some? && send(o.request.value).Ok() ==> o.result == ImageAnswer(send(o.request.value).body)
    ensures o.result.Ok? ==> Truthy(o.result.value)
  {
    var x := Exchange(env, "/images/generations", ImagePayload(prompt, size), send, show);
    ApiOutcome(x.request, if x.body.Err? then Err(x.body.error) else ImageAnswer(x.body.value))
  }
}

/**
 * The OCR tool (src/tools/image-ocr.ts): the input-kind tests, the image
 * checks made before calling the OCR service (format, and size for local
 * paths), the classification of a failed call, and the shaping of the
 * service's answer. The file system's `stat`, the environment and the
 * service's answer to a request are parameters.
 */
module ImageOcr {
  import opened Base
  import opened Text
  import opened Js

  const DefaultOcrUrl: string := "http://paddleocr-service:8080"
  const DefaultMaxImageSize: nat := 10485760
  const OcrTimeoutMs: nat := 30000
  const LowConfidenceThreshold: real := 0.5
  const DefaultConfidence: real := 0.9
  const LowConfidenceWarning: string := "Low confidence score, image quality may be poor"
  const ServiceNotRunning: string :=
    "OCR service is not running. Start the paddleocr-service container using: docker-compose up -d paddleocr-service"

  /** The accepted formats, in the order the error message lists them. */
  const SupportedImageFormats: seq<string> := ["png", "jpg", "jpeg", "webp", "bmp"]

  predicate IsUrl(image: string) {
    StartsWith(image, "http://") || StartsWith(image, "https://")
  }

  predicate IsBase64(image: string) {
    StartsWith(image, "data:image")
  }

  predicate IsLocalPath(image: string) {
    StartsWith(image, "/") || StartsWith(image, "./") || StartsWith(image, "../")
  }

  /** `image.split('.').pop().toLowerCase()`: the lowercased text after the last '.', or the whole string. */
  function GetFileExtension(image: string): (ext: string)
    ensures forall i :: 0 <= i < |ext| ==> ext[i] != '.'
  {
    var pieces := Split(image, ".");
    SplitPiecesAvoidSeparator(image, '.');
    Lower(pieces[|pieces| - 1])
  }

  /** A name `stem.e` with no other dot has the extension e, lowercased. */
  lemma ExtensionOfFileName(stem: string, e: string)
    requires forall i :: 0 <= i < |stem| ==> stem[i] != '.'
    requires forall i :: 0 <= i < |e| ==> e[i] != '.'
    ensures GetFileExtension(stem + "." + e) == Lower(e)
  {
    SplitAfterFirstPiece(stem, e, '.');
    SplitWithoutSeparator(e, '.');
  }

  /** Without any dot, the whole input, lowercased, is taken for the extension. */
  lemma ExtensionWithoutDot(image: string)
    requires forall i :: 0 <= i < |image| ==> image[i] != '.'
    ensures GetFileExtension(image) == Lower(image)
  {
    SplitWithoutSeparator(image, '.');
  }

  function UnsupportedFormat(ext: string): string {
    "Unsupported image format: " + ext + ". Supported formats: " + Join(SupportedImageFormats, ", ")
  }

  /** What `fs.stat` gives: the size, or an error with or without a `code`. */
  datatype StatOutcome = StatOk(size: nat) | StatFailed(code: Option<string>)

  /** `Number.parseInt(process.env.MAX_IMAGE_SIZE || '10485760', 10)`; None is NaN. */
  function MaxImageSize(env: Env): Option<int> {
    JsParseInt(if EnvSet(env, "MAX_IMAGE_SIZE") then env["MAX_IMAGE_SIZE"] else NatToString(DefaultMaxImageSize))
  }

  /** Without MAX_IMAGE_SIZE the limit is 10 MiB. */
  lemma DefaultLimit(env: Env)
    requires !EnvSet(env, "MAX_IMAGE_SIZE")
    ensures MaxImageSize(env) == Some(DefaultMaxImageSize)
  {
    JsParseIntOfNatToString(DefaultMaxImageSize, "");
    assert NatToString(DefaultMaxImageSize) + "" == NatToString(DefaultMaxImageSize);
  }

  /** The size check of a local file; a NaN limit lets every size through. */
  function SizeCheck(image: string, env: Env, stat: StatOutcome): (r: Option<string>)
    ensures stat.StatFailed? && stat.code.Some? ==> r == Some("Image file not found: " + image)
    ensures stat.StatFailed? && stat.code.None? ==> r == Some("Failed to access image file: " + image)
    ensures stat.StatOk? ==> (r.Some? <==> MaxImageSize(env).Some? && stat.size > MaxImageSize(env).value)
  {
    match stat
    case StatFailed(code) =>
      if code.Some? then Some("Image file not found: " + image) else Some("Failed to access image file: " + image)
    case StatOk(size) =>
      match MaxImageSize(env)
      case None => None
      case Some(max) =>
        if size > max then Some("Image too large: " + NatToString(size) + " bytes (max: " + IntToString(max) + " bytes)")
        else None
  }

  /**
   * validateImage: the message of the error thrown, or None. URLs and image
   * data URIs pass unchecked; otherwise the extension must be supported,
   * and a local path must also pass the size check.
   */
  function ValidateImage(image: string, env: Env, stat: string -> StatOutcome): (r: Option<string>)
    ensures IsUrl(image) || IsBase64(image) ==> r.None?
    ensures !IsUrl(image) && !IsBase64(image) && GetFileExtension(image) !in SupportedImageFormats ==>
              r == Some(UnsupportedFormat(GetFileExtension(image)))
    ensures !IsUrl(image) && !IsBase64(image) && GetFileExtension(image) in SupportedImageFormats ==>
              r == if IsLocalPath(image) then SizeCheck(image, env, stat(image)) else None
  {
    if IsUrl(image) || IsBase64(image) then None
    else
      var ext := GetFileExtension(image);
      if ext == "" || ext !in SupportedImageFormats then Some(UnsupportedFormat(ext))
      else if IsLocalPath(image) then SizeCheck(image, env, stat(image))
      else None
  }

  /** Whether a file is consulted at all depends only on the input's kind: other inputs never touch the file system. */
  lemma StatOnlyForLocalPaths(image: string, env: Env, stat1: string -> StatOutcome, stat2: string -> StatOutcome)
    requires !IsLocalPath(image) || IsUrl(image) || IsBase64(image)
    ensures ValidateImage(image, env, stat1) == ValidateImage(image, env, stat2)
  {
  }

  /** A local file of exactly the limit passes; one byte more is refused. */
  lemma SizeLimitIsInclusive(image: string, env: Env, max: nat)
    requires MaxImageSize(env) == Some(max as int)
    ensures SizeCheck(image, env, StatOk(max)).None?
    ensures SizeCheck(image, env, StatOk(max + 1)).Some?
  {
  }

  // ---------------------------------------------------------------------
  // callPaddleOCR

  /** The POST the tool sends: `<PADDLEOCR_URL>/ocr` with the image and the language (default "auto"). */
  datatype OcrRequest = OcrRequest(url: string, image: string, lang: string)

  /**
   * How the request ended: the fetch rejected with a thrown value (whether
   * it is an Error instance, and how String() renders it), or a response
   * arrived.
   */
  datatype OcrOutcome =
    | OcrRejected(error: Thrown, isError: bool, shown: string)
    | OcrResponded(status: nat, statusText: string, body: Body)

  function OcrRequestFor(image: string, lang: Option<string>, env: Env): (q: OcrRequest)
    ensures q.url == (if EnvSet(env, "PADDLEOCR_URL") then env["PADDLEOCR_URL"] else DefaultOcrUrl) + "/ocr"
    ensures q.image == image
    ensures q.lang == if lang.Some? && lang.value != "" then lang.value else "auto"
  {
    var base := if EnvSet(env, "PADDLEOCR_URL") then env["PADDLEOCR_URL"] else DefaultOcrUrl;
    OcrRequest(base + "/ocr", image, if lang.Some? && lang.value != "" then lang.value else "auto")
  }

  /**
   * The catch block of callPaddleOCR: an abort is the timeout, a refused
   * connection (`cause.code`) means the service is down, the tool's own
   * errors pass through, and anything else is wrapped.
   */
  function ClassifyOcrFailure(err: Thrown, isError: bool, shown: string): (m: string)
    ensures err.name == "AbortError" ==> m == "OCR request timeout (30000ms)"
    ensures err.name != "AbortError" && err.causeCode == Some("ECONNREFUSED") ==> m == ServiceNotRunning
    ensures err.name != "AbortError" && err.causeCode != Some("ECONNREFUSED") && err.name == McpErrorName ==>
              m == err.message
    ensures err.name != "AbortError" && err.causeCode != Some("ECONNREFUSED") && err.name != McpErrorName ==>
              StartsWith(m, "OCR request failed: ")
              && m[|"OCR request failed: "|..] == (if isError then err.message else shown)
  {
    if err.name == "AbortError" then "OCR request timeout (" + NatToString(OcrTimeoutMs) + "ms)"
    else if err.causeCode == Some("ECONNREFUSED") then ServiceNotRunning
    else if err.name == McpErrorName then err.message
    else
      var m := "OCR request failed: " + (if isError then err.message else shown);
      assert m[..20] == "OCR request failed: ";
      m
  }

  /** callPaddleOCR: the parsed answer, or the message of the error it throws. */
  function CallPaddleOcr(outcome: OcrOutcome): (r: Result<JsValue, string>)
    ensures outcome.OcrResponded? && !(200 <= outcome.status <= 299) ==>
              r == Err("OCR service error: " + NatToString(outcome.status) + " " + outcome.statusText)
    ensures r.Ok? <==> outcome.OcrResponded? && 200 <= outcome.status <= 299 && outcome.body.Parsed?
    ensures r.Ok? ==> r.value == outcome.body.value
    ensures outcome.OcrResponded? && 200 <= outcome.status <= 299 && outcome.body.Unparsable? ==>
              r == Err("OCR request failed: " + outcome.body.reason)
    ensures outcome.OcrRejected? ==> r == Err(ClassifyOcrFailure(outcome.error, outcome.isError, outcome.shown))
  {
    match outcome
    case OcrRejected(err, isError, shown) => Err(ClassifyOcrFailure(err, isError, shown))
    case OcrResponded(status, statusText, body) =>
      if !(200 <= status <= 299) then
        var own := Thrown(McpErrorName, "OCR service error: " + NatToString(status) + " " + statusText, None, None);
        Err(ClassifyOcrFailure(own, true, ""))
      else match body
        case Unparsable(reason) => Err(ClassifyOcrFailure(Thrown("SyntaxError", reason, None, None), true, ""))
        case Parsed(v) => Ok(v)
  }

  // ---------------------------------------------------------------------
  // extractTextFromImage

  datatype OcrResult = OcrResult(
    success: bool,
    text: string,
    confidence: real,
    language: string,
    engine: string,
    blocks: JsValue,
    warning: Option<string>)

  /** `String(v ?? fallback)`; `show` renders values that are not strings. */
  function StringOr(v: JsValue, fallback: string, show: JsValue -> string): string {
    if v.Null? || v.Undefined? then fallback else if v.Str? then v.s else show(v)
  }

  /**
   * The response the tool returns for the service's answer: defaults for
   * missing fields, and a warning exactly when the confidence is low. A
   * null answer fails on the first property read.
   */
  function OcrResultOf(result: JsValue, show: JsValue -> string): (r: Result<OcrResult, string>)
    ensures r.Err? <==> result.Null? || result.Undefined?
    ensures r.Ok? ==> r.value.success && r.value.engine == "paddleocr"
    ensures r.Ok? ==> r.value.confidence == if Get(result, "confidence").Num? then Get(result, "confidence").n else DefaultConfidence
    ensures r.Ok? ==> (r.value.warning.Some? <==> r.value.confidence < LowConfidenceThreshold)
    ensures r.Ok? && r.value.warning.Some? ==> r.value.warning.value == LowConfidenceWarning
    ensures r.Ok? ==> r.value.text == StringOr(Get(result, "text"), "", show)
    ensures r.Ok? ==> r.value.language == StringOr(Get(result, "language"), "unknown", show)
    ensures r.Ok? ==> r.value.blocks == Get(result, "blocks")
  {
    if result.Null? || result.Undefined? then Err(NullRead(result, "confidence"))
    else
      var c := Get(result, "confidence");
      var confidence := if c.Num? then c.n else DefaultConfidence;
      Ok(OcrResult(true, StringOr(Get(result, "text"), "", show), confidence,
                   StringOr(Get(result, "language"), "unknown", show), "paddleocr", Get(result, "blocks"),
                   if confidence < LowConfidenceThreshold then Some(LowConfidenceWarning) else None))
  }

  /** The shaping as the tool does it: the response first, then the warning added to it. */
  method ShapeOcrResult(result: JsValue, show: JsValue -> string) returns (r: Result<OcrResult, string>)
    ensures r == OcrResultOf(result, show)
  {
    if result.Null? || result.Undefined? {
      return Err(NullRead(result, "confidence"));
    }
    var c := Get(result, "confidence");
    var confidence := if c.Num? then c.n else DefaultConfidence;
    var response := OcrResult(true, StringOr(Get(result, "text"), "", show), confidence,
                              StringOr(Get(result, "language"), "unknown", show), "paddleocr",
                              Get(result, "blocks"), None);
    if confidence < LowConfidenceThreshold {
      response := response.(warning := Some(LowConfidenceWarning));
    }
    return Ok(response);
  }

  /**
   * extractTextFromImage: the image is checked first, and only an accepted
   * image is sent to the service; its answer is then shaped.
   */
  method ExtractTextFromImage(image: string, lang: Option<string>, env: Env, stat: string -> StatOutcome,
                              send: OcrRequest -> OcrOutcome, show: JsValue -> string)
    returns (r: Result<OcrResult, string>, request: Option<OcrRequest>)
    ensures ValidateImage(image, env, stat).Some? ==> request.None? && r == Err(ValidateImage(image, env, stat).value)
    ensures ValidateImage(image, env, stat).None? ==> request == Some(OcrRequestFor(image, lang, env))
    ensures request.Some? && CallPaddleOcr(send(request.value)).Err? ==> r == Err(CallPaddleOcr(send(request.value)).error)
    ensures request.Some? && CallPaddleOcr(send(request.value)).Ok? ==>
              r == OcrResultOf(CallPaddleOcr(send(request.value)).value, show)
    ensures r.Ok? ==> request.Some? && (r.value.warning.Some? <==> r.value.confidence < LowConfidenceThreshold)
  {
    var invalid := ValidateImage(image, env, stat);
    if invalid.Some? {
      return Err(invalid.value), None;
    }
    var q := OcrRequestFor(image, lang, env);
    request := Some(q);
    var answer := CallPaddleOcr(send(q));
    if answer.Err? {
      return Err(answer.error), request;
    }
    r := ShapeOcrResult(answer.value, show);
  }
}

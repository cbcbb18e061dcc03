/**
 * The PaddleOCR HTTP service (services/paddleocr/ocr-service.py): the
 * data-URI check, language detection, and the aggregation of recognised
 * lines into one text, per-line blocks and a mean confidence. Base64
 * decoding with image opening, and the OCR engine itself, are parameters.
 */
module OcrService {
  import opened Base
  import opened Text

  // ---------------------------------------------------------------------
  // Language detection

  /** A character of the CJK Unified Ideographs block, U+4E00..U+9FFF. */
  predicate IsCjk(c: char) {
    '\U{4E00}' <= c <= '\U{9FFF}'
  }

  /** Whether the text holds a CJK ideograph, scanned from the front as `re.search` does. */
  function HasCjk(text: string): (b: bool)
    ensures b <==> exists i :: 0 <= i < |text| && IsCjk(text[i])
  {
    if text == [] then false
    else if IsCjk(text[0]) then true
    else
      assert forall i :: 1 <= i < |text| ==> text[i] == text[1..][i - 1];
      HasCjk(text[1..])
  }

  /** detect_language: "ch" when the text holds a CJK ideograph, "en" otherwise. */
  function DetectLanguage(text: string): (lang: string)
    ensures lang == "ch" <==> exists i :: 0 <= i < |text| && IsCjk(text[i])
    ensures lang == "en" <==> !(exists i :: 0 <= i < |text| && IsCjk(text[i]))
  {
    if HasCjk(text) then "ch" else "en"
  }

  lemma HasCjkConcat(a: string, b: string)
    ensures HasCjk(a + b) == (HasCjk(a) || HasCjk(b))
  {
    if HasCjk(a) {
      var i :| 0 <= i < |a| && IsCjk(a[i]);
      assert (a + b)[i] == a[i];
    }
    if HasCjk(b) {
      var i :| 0 <= i < |b| && IsCjk(b[i]);
      assert (a + b)[|a| + i] == b[i];
    }
    if HasCjk(a + b) {
      var i :| 0 <= i < |a + b| && IsCjk((a + b)[i]);
      if i < |a| {
        assert a[i] == (a + b)[i];
      } else {
        assert b[i - |a|] == (a + b)[i];
      }
    }
  }

  /** Lines joined with newlines are Chinese exactly when one of the lines is. */
  lemma {:induction false} LanguageOfJoinedLines(lines: seq<string>)
    ensures HasCjk(Join(lines, "\n")) <==> exists k :: 0 <= k < |lines| && HasCjk(lines[k])
  {
    if |lines| > 1 {
      LanguageOfJoinedLines(lines[1..]);
      HasCjkConcat(lines[0] + "\n", Join(lines[1..], "\n"));
      HasCjkConcat(lines[0], "\n");
      assert !IsCjk('\n');
      assert forall k :: 1 <= k < |lines| ==> lines[k] == lines[1..][k - 1];
      if HasCjk(Join(lines[1..], "\n")) {
        var k :| 0 <= k < |lines[1..]| && HasCjk(lines[1..][k]);
        assert lines[k + 1] == lines[1..][k];
      }
    }
  }

  // ---------------------------------------------------------------------
  // Decoding

  /** An HTTPException: status and detail. */
  datatype HttpError = HttpError(status: nat, detail: string)

  const OnlyDataUris: string := "Only base64 data URIs are supported (format: data:image/...;base64,...)"

  /** What `b64decode` followed by `Image.open` gives: the image's bytes, a ValueError, or another error. */
  datatype DecodeOutcome = Decoded(image: seq<bv8>) | BadBase64(reason: string) | BadImage(reason: string)

  /**
   * decode_base64_image: anything but a `data:image` URI is refused before
   * decoding; what follows the first comma is decoded.
   */
  function DecodeBase64Image(dataUri: string, decode: string -> DecodeOutcome): (r: Result<seq<bv8>, HttpError>)
    ensures !StartsWith(dataUri, "data:image") ==> r == Err(HttpError(400, OnlyDataUris))
    ensures r.Err? ==> r.error.status == 400
    ensures r.Ok? ==> StartsWith(dataUri, "data:image") && IndexOfChar(dataUri, ',') < |dataUri|
                      && decode(dataUri[IndexOfChar(dataUri, ',') + 1..]) == Decoded(r.value)
  {
    if !StartsWith(dataUri, "data:image") then Err(HttpError(400, OnlyDataUris))
    else
      var comma := IndexOfChar(dataUri, ',');
      if comma == |dataUri| then
        Err(HttpError(400, "Invalid base64 image data: not enough values to unpack (expected 2, got 1)"))
      else match decode(dataUri[comma + 1..])
        case Decoded(image) => Ok(image)
        case BadBase64(reason) => Err(HttpError(400, "Invalid base64 image data: " + reason))
        case BadImage(reason) => Err(HttpError(400, "Failed to decode image: " + reason))
  }

  /** The payload is what follows the first comma, whatever later commas hold. */
  lemma PayloadAfterFirstComma(header: string, payload: string, decode: string -> DecodeOutcome)
    requires StartsWith(header, "data:image")
    requires forall j :: 0 <= j < |header| ==> header[j] != ','
    requires decode(payload).Decoded?
    ensures DecodeBase64Image(header + "," + payload, decode) == Ok(decode(payload).image)
  {
    var s := header + "," + payload;
    assert s[..|header|] == header;
    assert s[..10] == header[..10];
    IndexOfCharConcat(header, "," + payload, ',');
    assert s == header + ("," + payload);
    assert s[|header| + 1..] == payload;
  }

  // ---------------------------------------------------------------------
  // Recognition

  /** One recognised line as PaddleOCR 2.x returns it: `[box, (text, score)]`. */
  datatype RecognizedLine = RecognizedLine(box: seq<seq<real>>, text: string, score: real)

  /** What the engine returned: one entry per page, `None` for a page without text, or the error it raised. */
  datatype OcrRun = Recognized(pages: seq<Option<seq<RecognizedLine>>>) | Crashed(message: string)

  datatype Block = Block(text: string, box: seq<seq<real>>, confidence: real)

  datatype OcrResponse = OcrResponse(success: bool, text: string, confidence: real, language: string, blocks: seq<Block>)

  const EmptyResponse: OcrResponse := OcrResponse(true, "", 0.0, "unknown", [])

  /** The lines of the first page, or None when the engine found nothing (`not result or not result[0]`). */
  function FirstPageLines(pages: seq<Option<seq<RecognizedLine>>>): (r: Option<seq<RecognizedLine>>)
    ensures r.Some? <==> |pages| > 0 && pages[0].Some? && pages[0].value != []
    ensures r.Some? ==> r.value == pages[0].value
  {
    if |pages| == 0 || pages[0].None? || pages[0].value == [] then None else pages[0]
  }

  /** The sum of the scores, added up front to back. */
  function SumScores(lines: seq<RecognizedLine>): real {
    if lines == [] then 0.0 else SumScores(lines[..|lines| - 1]) + lines[|lines| - 1].score
  }

  /** Scores all in [0, 1] give a sum of at most the number of lines. */
  lemma {:induction false} SumScoresBounded(lines: seq<RecognizedLine>)
    requires forall i :: 0 <= i < |lines| ==> 0.0 <= lines[i].score <= 1.0
    ensures 0.0 <= SumScores(lines) <= |lines| as real
  {
    if lines != [] {
      SumScoresBounded(lines[..|lines| - 1]);
    }
  }

  /** The loop over the lines: their texts in order, one block per line, and the running score total. */
  method CollectLines(lines: seq<RecognizedLine>) returns (textLines: seq<string>, blocks: seq<Block>, total: real)
    ensures |textLines| == |lines| && |blocks| == |lines|
    ensures forall i :: 0 <= i < |lines| ==> textLines[i] == lines[i].text
    ensures forall i :: 0 <= i < |lines| ==> blocks[i] == Block(lines[i].text, lines[i].box, lines[i].score)
    ensures total == SumScores(lines)
  {
    textLines := [];
    blocks := [];
    total := 0.0;
    for i := 0 to |lines|
      invariant |textLines| == i && |blocks| == i
      invariant forall j :: 0 <= j < i ==> textLines[j] == lines[j].text
      invariant forall j :: 0 <= j < i ==> blocks[j] == Block(lines[j].text, lines[j].box, lines[j].score)
      invariant total == SumScores(lines[..i])
    {
      assert lines[..i + 1][..i] == lines[..i];
      textLines := textLines + [lines[i].text];
      total := total + lines[i].score;
      blocks := blocks + [Block(lines[i].text, lines[i].box, lines[i].score)];
    }
    assert lines[..|lines|] == lines;
  }

  /**
   * extract_text, with the score read as the second element of the
   * `(text, score)` pair. The engine runs only on a decoded image; its
   * errors become 500s; the response language is detected from the text,
   * and the request's `lang` is not consulted.
   */
  method ExtractText(image: string, decode: string -> DecodeOutcome, recognize: seq<bv8> -> OcrRun)
    returns (r: Result<OcrResponse, HttpError>)
    ensures DecodeBase64Image(image, decode).Err? ==> r == Err(DecodeBase64Image(image, decode).error)
    ensures DecodeBase64Image(image, decode).Ok? && recognize(DecodeBase64Image(image, decode).value).Crashed? ==>
              r == Err(HttpError(500, "OCR processing failed: " + recognize(DecodeBase64Image(image, decode).value).message))
    ensures DecodeBase64Image(image, decode).Ok? && recognize(DecodeBase64Image(image, decode).value).Recognized? ==>
              var lines := FirstPageLines(recognize(DecodeBase64Image(image, decode).value).pages);
              (lines.None? ==> r == Ok(EmptyResponse))
              && (lines.Some? ==> r.Ok? && Answers(r.value, lines.value))
  {
    var decoded := DecodeBase64Image(image, decode);
    if decoded.Err? {
      return Err(decoded.error);
    }
    var run := recognize(decoded.value);
    if run.Crashed? {
      return Err(HttpError(500, "OCR processing failed: " + run.message));
    }
    var lines := FirstPageLines(run.pages);
    if lines.None? {
      return Ok(EmptyResponse);
    }
    var textLines, blocks, total := CollectLines(lines.value);
    assert textLines == LineTexts(lines.value);
    var fullText := Join(textLines, "\n");
    var average := total / |lines.value| as real;
    return Ok(OcrResponse(true, fullText, average, DetectLanguage(fullText), blocks));
  }

  function LineTexts(lines: seq<RecognizedLine>): (texts: seq<string>)
    ensures |texts| == |lines| && forall i :: 0 <= i < |lines| ==> texts[i] == lines[i].text
  {
    seq(|lines|, i requires 0 <= i < |lines| => lines[i].text)
  }

  /** A response for non-empty lines: their texts joined by newlines, one block each, the mean score and the detected language. */
  predicate Answers(resp: OcrResponse, lines: seq<RecognizedLine>)
    requires lines != []
  {
    resp.success
    && resp.text == Join(LineTexts(lines), "\n")
    && resp.language == DetectLanguage(resp.text)
    && resp.confidence == SumScores(lines) / |lines| as real
    && |resp.blocks| == |lines|
    && (forall i :: 0 <= i < |lines| ==> resp.blocks[i] == Block(lines[i].text, lines[i].box, lines[i].score))
  }

  /** When no line text holds a newline, the response text splits back into the line texts. */
  lemma TextSplitsIntoLines(resp: OcrResponse, lines: seq<RecognizedLine>)
    requires lines != [] && Answers(resp, lines)
    requires forall k, i :: 0 <= k < |lines| && 0 <= i < |lines[k].text| ==> lines[k].text[i] != '\n'
    ensures Split(resp.text, "\n") == LineTexts(lines)
  {
    SplitJoin(LineTexts(lines), '\n');
  }

  /** The response is Chinese exactly when one of the recognised lines holds a CJK ideograph. */
  lemma ResponseLanguage(resp: OcrResponse, lines: seq<RecognizedLine>)
    requires lines != [] && Answers(resp, lines)
    ensures resp.language == "ch" <==> exists k :: 0 <= k < |lines| && HasCjk(lines[k].text)
  {
    LanguageOfJoinedLines(LineTexts(lines));
    if exists k :: 0 <= k < |lines| && HasCjk(lines[k].text) {
      var k :| 0 <= k < |lines| && HasCjk(lines[k].text);
      assert LineTexts(lines)[k] == lines[k].text;
    }
  }

  /** With every score in [0, 1], the reported confidence is in [0, 1]. */
  lemma ConfidenceInRange(resp: OcrResponse, lines: seq<RecognizedLine>)
    requires lines != [] && Answers(resp, lines)
    requires forall i :: 0 <= i < |lines| ==> 0.0 <= lines[i].score <= 1.0
    ensures 0.0 <= resp.confidence <= 1.0
  {
    SumScoresBounded(lines);
  }

  // ---------------------------------------------------------------------
  // The score read as written

  /** The Python values a recognition pair can hold. */
  datatype PyValue = PyFloat(f: real) | PyStr(s: string) | PyTuple(items: seq<PyValue>)

  function PyTypeName(v: PyValue): string {
    match v
    case PyFloat(_) => "float"
    case PyStr(_) => "str"
    case PyTuple(_) => "tuple"
  }

  /** The pair PaddleOCR 2.x puts at `line[1]`: the text and its float score. */
  function EnginePair(line: RecognizedLine): PyValue {
    PyTuple([PyStr(line.text), PyFloat(line.score)])
  }

  /**
   * `score = confidence_data[1]` followed by `total_confidence += score`,
   * with `confidence_data` the second element of `line[1]`: only a tuple
   * whose second element is a float gets through.
   */
  function ScoreAsWritten(confidenceData: PyValue): (r: Result<real, string>)
    ensures r.Ok? <==> confidenceData.PyTuple? && |confidenceData.items| >= 2 && confidenceData.items[1].PyFloat?
    ensures confidenceData.PyFloat? ==> r == Err("'float' object is not subscriptable")
  {
    match confidenceData
    case PyFloat(_) => Err("'float' object is not subscriptable")
    case PyStr(s) =>
      if |s| < 2 then Err("string index out of range")
      else Err("unsupported operand type(s) for +=: 'float' and 'str'")
    case PyTuple(items) =>
      if |items| < 2 then Err("tuple index out of range")
      else if items[1].PyFloat? then Ok(items[1].f)
      else Err("unsupported operand type(s) for +=: 'float' and '" + PyTypeName(items[1]) + "'")
  }

  /** The score as intended: the pair's second element is the score itself. */
  function ScoreOf(pair: PyValue): (r: Option<real>)
    ensures pair.PyTuple? && |pair.items| == 2 && pair.items[1].PyFloat? ==> r == Some(pair.items[1].f)
  {
    if pair.PyTuple? && |pair.items| == 2 && pair.items[1].PyFloat? then Some(pair.items[1].f) else None
  }

  /**
   * The aggregation loop as written over the engine's lines: the score
   * total, or the message of the first error, which the handler turns
   * into a 500.
   */
  function TotalAsWritten(lines: seq<RecognizedLine>): Result<real, string> {
    if lines == [] then Ok(0.0)
    else
      match TotalAsWritten(lines[..|lines| - 1])
      case Err(e) => Err(e)
      case Ok(total) =>
        match ScoreAsWritten(EnginePair(lines[|lines| - 1]).items[1])
        case Err(e) => Err(e)
        case Ok(score) => Ok(total + score)
  }

  /** As written, any page with a recognised line fails: the handler answers 500 and no text is returned. */
  lemma {:induction false} EveryTextRefusedAsWritten(lines: seq<RecognizedLine>)
    requires lines != []
    ensures TotalAsWritten(lines) == Err("'float' object is not subscriptable")
  {
    var front := lines[..|lines| - 1];
    if front != [] {
      EveryTextRefusedAsWritten(front);
    }
  }

  /** Read as intended, the engine's pair yields each line's own score, which the corrected loop adds up. */
  lemma EnginePairScore(line: RecognizedLine)
    ensures ScoreOf(EnginePair(line)) == Some(line.score)
  {
  }
}

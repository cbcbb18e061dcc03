/**
 * The image understanding tool (src/tools/image-understand.ts): every
 * input file becomes a data URI or stays a URL, is wrapped in a content
 * item of the kind its extension names, and the items and the prompt are
 * sent as one user message to the vision API. Reading a local file as
 * base64 is a parameter (`read`), which gives the encoded bytes or the
 * message of the error it throws.
 */
module ImageUnderstand {
  import opened Base
  import opened Text
  import opened Js
  import opened FileHelper
  import opened Zhipu

  const FilesRequired: string := "At least one file is required"
  const PromptRequired: string := "Prompt is required"

  /** The MIME type assumed for raw base64 input, by the kind its text seems to name. */
  function DefaultMime(kind: Option<FileKind>): string {
    match kind
    case Some(Image) => "image/png"
    case Some(Video) => "video/mp4"
    case _ => "application/octet-stream"
  }

  /** A data URI with the given MIME type and base64 payload. */
  function DataUri(mime: string, payload: string): (s: string)
    ensures StartsWith(s, "data:")
  {
    var s := "data:" + (mime + ";base64," + payload);
    assert s[..5] == "data:";
    s
  }

  /**
   * fileToDataUrl: a local file is read and encoded with the MIME type of
   * its extension; a data URI and a URL are kept; raw base64 is given a
   * data-URI header. What comes out is always a data URI or an http(s) URL.
   */
  function FileToDataUrl(file: string, read: string -> Result<string, string>): (r: Result<string, string>)
    ensures NormalizeInput(file).kind != Local ==> r.Ok?
    ensures NormalizeInput(file).kind == Local ==>
              r == if read(file).Ok? then Ok(DataUri(GetMimeType(file), read(file).value)) else Err(read(file).error)
    ensures StartsWith(file, "data:") || IsHttpUrl(file) ==> r == Ok(file)
    ensures NormalizeInput(file).kind == Base64 && !StartsWith(file, "data:") ==>
              r == Ok(DataUri(DefaultMime(DetectFileType(file)), file))
    ensures r.Ok? ==> StartsWith(r.value, "data:") || IsHttpUrl(r.value)
  {
    var normalized := NormalizeInput(file);
    match normalized.kind
    case Local =>
      var bytes := read(normalized.value);
      if bytes.Err? then Err(bytes.error) else Ok(DataUri(GetMimeType(normalized.value), bytes.value))
    case Base64 =>
      if StartsWith(normalized.value, "data:") then Ok(normalized.value)
      else Ok(DataUri(DefaultMime(DetectFileType(normalized.value)), normalized.value))
    case UrlInput => Ok(normalized.value)
  }

  /** Raw base64 has no extension, so it is always labelled as generic binary data. */
  lemma RawBase64IsOctetStream(file: string, read: string -> Result<string, string>)
    requires !StartsWith(file, "data:") && !IsHttpUrl(file) && LooksLikeRawBase64(file)
    ensures FileToDataUrl(file, read) == Ok(DataUri(OctetStream, file))
  {
    RawBase64HasNoExtension(file);
    NoExtensionIsUnclassified(file);
  }

  /** Only a local path is read from disk: for any other input the reader is never consulted. */
  lemma ReadOnlyLocal(file: string, read1: string -> Result<string, string>, read2: string -> Result<string, string>)
    requires NormalizeInput(file).kind != Local
    ensures FileToDataUrl(file, read1) == FileToDataUrl(file, read2)
  {
  }

  // ---------------------------------------------------------------------
  // Content items

  datatype ContentItem =
    | ImageItem(url: string)
    | VideoItem(url: string)
    | FileItem(url: string)
    | TextItem(text: string)

  /** createContentItem: the item kind follows the extension of the original input, not of the data URI. */
  function CreateContentItem(dataUrl: string, file: string): (item: ContentItem)
    ensures !item.TextItem? && item.url == dataUrl
    ensures item.ImageItem? <==> DetectFileType(file) == Some(Image)
    ensures item.VideoItem? <==> DetectFileType(file) == Some(Video)
  {
    match DetectFileType(file)
    case Some(Image) => ImageItem(dataUrl)
    case Some(Video) => VideoItem(dataUrl)
    case _ => FileItem(dataUrl)
  }

  /** The JSON form of an item: `{type, <type>: {url}}` or `{type: 'text', text}`. */
  function ItemJs(item: ContentItem): JsValue {
    match item
    case ImageItem(u) => Obj(map["type" := Str("image_url"), "image_url" := Obj(map["url" := Str(u)])])
    case VideoItem(u) => Obj(map["type" := Str("video_url"), "video_url" := Obj(map["url" := Str(u)])])
    case FileItem(u) => Obj(map["type" := Str("file_url"), "file_url" := Obj(map["url" := Str(u)])])
    case TextItem(t) => Obj(map["type" := Str("text"), "text" := Str(t)])
  }

  /** The single user message carrying the content list. */
  function MessagesJs(content: seq<ContentItem>): JsValue {
    Arr([Obj(map["role" := Str("user"),
                 "content" := Arr(seq(|content|, i requires 0 <= i < |content| => ItemJs(content[i])))])])
  }

  /**
   * The items for the files, in order, built the way the loop builds them;
   * the first file that cannot be read stops the build with its error.
   */
  function FileItems(files: seq<string>, read: string -> Result<string, string>): (r: Result<seq<ContentItem>, string>)
    ensures r.Ok? ==> |r.value| == |files|
  {
    if files == [] then Ok([])
    else
      var front := files[..|files| - 1];
      var last := files[|files| - 1];
      var before := FileItems(front, read);
      if before.Err? then
        Err(before.error)
      else
        var u := FileToDataUrl(last, read);
        if u.Err? then Err(u.error)
        else Ok(before.value + [CreateContentItem(u.value, last)])
  }

  /** Item i of a successful build is file i, converted, and of the kind its extension names. */
  lemma {:induction false} FileItemsAt(files: seq<string>, read: string -> Result<string, string>, i: nat)
    requires FileItems(files, read).Ok? && i < |files|
    ensures FileToDataUrl(files[i], read).Ok?
    ensures FileItems(files, read).value[i] == CreateContentItem(FileToDataUrl(files[i], read).value, files[i])
  {
    var front := files[..|files| - 1];
    var last := files[|files| - 1];
    var before := FileItems(front, read);
    var u := FileToDataUrl(last, read);
    assert before.Ok? && u.Ok?;
    assert FileItems(files, read).value == before.value + [CreateContentItem(u.value, last)];
    if i < |files| - 1 {
      assert files[i] == front[i];
      FileItemsAt(front, read, i);
    }
  }

  /** A failed build names the error of one of the files. */
  lemma {:induction false} FileItemsFailure(files: seq<string>, read: string -> Result<string, string>)
    requires FileItems(files, read).Err?
    ensures exists i :: 0 <= i < |files| && FileToDataUrl(files[i], read) == Err(FileItems(files, read).error)
  {
    var front := files[..|files| - 1];
    if FileItems(front, read).Err? {
      FileItemsFailure(front, read);
      var i :| 0 <= i < |front| && FileToDataUrl(front[i], read) == Err(FileItems(front, read).error);
      assert files[i] == front[i];
    } else {
      assert FileToDataUrl(files[|files| - 1], read).Err?;
    }
  }

  /** The build fails exactly when some file cannot be converted. */
  lemma FileItemsFail(files: seq<string>, read: string -> Result<string, string>)
    ensures FileItems(files, read).Err? <==> exists i :: 0 <= i < |files| && FileToDataUrl(files[i], read).Err?
  {
    if FileItems(files, read).Err? {
      FileItemsFailure(files, read);
    } else {
      forall i | 0 <= i < |files|
        ensures FileToDataUrl(files[i], read).Ok?
      {
        FileItemsAt(files, read, i);
      }
    }
  }

  /** buildVisionContent: one item per file in input order, then the prompt as the single text item. */
  method BuildVisionContent(files: seq<string>, prompt: string, read: string -> Result<string, string>)
    returns (r: Result<seq<ContentItem>, string>)
    ensures FileItems(files, read).Err? ==> r == Err(FileItems(files, read).error)
    ensures FileItems(files, read).Ok? ==> r == Ok(FileItems(files, read).value + [TextItem(prompt)])
  {
    var content: seq<ContentItem> := [];
    var i := 0;
    while i < |files|
      invariant 0 <= i <= |files|
      invariant FileItems(files[..i], read) == Ok(content)
    {
      assert files[..i + 1][..i] == files[..i];
      var dataUrl := FileToDataUrl(files[i], read);
      if dataUrl.Err? {
        assert files[..i + 1][i] == files[i];
        FileErrorPersists(files, i + 1, read);
        return Err(dataUrl.error);
      }
      content := content + [CreateContentItem(dataUrl.value, files[i])];
      i := i + 1;
    }
    assert files[..i] == files;
    content := content + [TextItem(prompt)];
    return Ok(content);
  }

  /** Once the build of a prefix fails, the build of every longer prefix fails with the same error. */
  lemma {:induction false} FileErrorPersists(files: seq<string>, k: nat, read: string -> Result<string, string>)
    requires k <= |files| && FileItems(files[..k], read).Err?
    ensures FileItems(files, read) == Err(FileItems(files[..k], read).error)
    decreases |files| - k
  {
    if k < |files| {
      assert files[..k + 1][..k] == files[..k];
      FileErrorPersists(files, k + 1, read);
    } else {
      assert files[..k] == files;
    }
  }

  /** The content list has one more item than there are files, and only the last one is text. */
  lemma {:induction false} ContentShape(files: seq<string>, prompt: string, read: string -> Result<string, string>)
    requires FileItems(files, read).Ok?
    ensures var content := FileItems(files, read).value + [TextItem(prompt)];
            |content| == |files| + 1 && content[|files|] == TextItem(prompt)
            && forall i :: 0 <= i < |files| ==> !content[i].TextItem?
  {
    forall i | 0 <= i < |files| {
      FileItemsAt(files, read, i);
    }
  }

  // ---------------------------------------------------------------------
  // understandImage

  /** The arguments understandImage destructures: a list of files, the prompt and the thinking switch. */
  datatype VisionArgs = VisionArgs(files: Option<seq<string>>, prompt: string, thinking: Option<bool>)

  /** The guards of understandImage: a missing or empty file list, then a blank prompt. */
  function UnderstandGuard(args: VisionArgs): (r: Option<string>)
    ensures r.None? <==> args.files.Some? && |args.files.value| > 0 && !IsBlank(args.prompt)
    ensures (args.files.None? || args.files.value == []) ==> r == Some(FilesRequired)
  {
    if args.files.None? || |args.files.value| == 0 then Some(FilesRequired)
    else if IsBlank(args.prompt) then Some(PromptRequired)
    else None
  }

  /**
   * understandImage: the guards, the content build, then one vision call
   * with thinking off unless asked for. Nothing is sent when a guard or a
   * file read fails.
   */
  method UnderstandImage(args: VisionArgs, env: Env, read: string -> Result<string, string>,
                         send: ApiCall -> Reply, show: JsValue -> string)
    returns (o: ApiOutcome)
    ensures UnderstandGuard(args).Some? ==> o == ApiOutcome(None, Err(UnderstandGuard(args).value))
    ensures UnderstandGuard(args).None? && FileItems(args.files.value, read).Err? ==>
              o == ApiOutcome(None, Err(FileItems(args.files.value, read).error))
    ensures UnderstandGuard(args).None? && FileItems(args.files.value, read).Ok? ==>
              o == CallVisionAPI(env, MessagesJs(FileItems(args.files.value, read).value + [TextItem(args.prompt)]),
                                 args.thinking.GetOr(false), send, show)
  {
    var guard := UnderstandGuard(args);
    if guard.Some? {
      return ApiOutcome(None, Err(guard.value));
    }
    var thinking := args.thinking.GetOr(false);
    var content := BuildVisionContent(args.files.value, args.prompt, read);
    if content.Err? {
      return ApiOutcome(None, Err(content.error));
    }
    o := CallVisionAPI(env, MessagesJs(content.value), thinking, send, show);
  }
}

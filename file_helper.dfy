/**
 * File classification helpers (src/utils/file-helper.ts): the extension of
 * a path by Node's `path.extname` rules, the content kind and MIME type an
 * extension stands for, and the kind of input a user string is.
 */
module FileHelper {
  import opened Base
  import opened Text

  // ---------------------------------------------------------------------
  // path.extname (POSIX)

  /** The path without its trailing '/' characters. */
  function StripTrailingSlashes(p: string): (r: string)
    ensures |r| <= |p| && r == p[..|r|]
    ensures r == [] || r[|r| - 1] != '/'
  {
    if p != [] && p[|p| - 1] == '/' then StripTrailingSlashes(p[..|p| - 1]) else p
  }

  /** The text after the last '/'. */
  function AfterLastSlash(p: string): (r: string)
    ensures |r| <= |p| && r == p[|p| - |r|..]
    ensures forall i :: 0 <= i < |r| ==> r[i] != '/'
  {
    if p == [] || p[|p| - 1] == '/' then [] else AfterLastSlash(p[..|p| - 1]) + [p[|p| - 1]]
  }

  /** The last path component, trailing slashes ignored. */
  function BaseName(p: string): string {
    AfterLastSlash(StripTrailingSlashes(p))
  }

  /** The index of the last '.' in s, if any. */
  function LastDot(s: string): (r: Option<nat>)
    ensures r.Some? ==> r.value < |s| && s[r.value] == '.'
    ensures r.Some? ==> forall j :: r.value < j < |s| ==> s[j] != '.'
    ensures r.None? ==> forall j :: 0 <= j < |s| ==> s[j] != '.'
  {
    if s == [] then None
    else if s[|s| - 1] == '.' then Some(|s| - 1)
    else LastDot(s[..|s| - 1])
  }

  /**
   * path.extname: from the last '.' of the last component to its end; empty
   * when that component has no '.', when its only leading '.' is the last
   * one (a dot file such as ".bashrc"), or when it is "..".
   */
  function PathExtname(p: string): (ext: string)
    ensures ext == "" || (ext[0] == '.' && forall j :: 1 <= j < |ext| ==> ext[j] != '.' && ext[j] != '/')
  {
    var name := BaseName(p);
    match LastDot(name)
    case None => ""
    case Some(i) => if i == 0 || name == ".." then "" else name[i..]
  }

  lemma {:induction false} AfterLastSlashAppend(x: string, y: string)
    requires forall j :: 0 <= j < |y| ==> y[j] != '/'
    ensures AfterLastSlash(x + y) == AfterLastSlash(x) + y
  {
    if y != [] {
      var y' := y[..|y| - 1];
      var c := y[|y| - 1];
      var xy := x + y;
      assert xy[..|xy| - 1] == x + y';
      assert xy[|xy| - 1] == c && c != '/';
      assert AfterLastSlash(xy) == AfterLastSlash(x + y') + [c];
      AfterLastSlashAppend(x, y');
      assert y == y' + [c];
    } else {
      assert x + y == x;
    }
  }

  lemma {:induction false} LastDotAppend(x: string, y: string)
    requires forall j :: 0 <= j < |y| ==> y[j] != '.'
    ensures LastDot(x + y) == LastDot(x)
  {
    if y != [] {
      var y' := y[..|y| - 1];
      assert (x + y)[..|x + y| - 1] == x + y';
      LastDotAppend(x, y');
    } else {
      assert x + y == x;
    }
  }

  /** The last component of `dir/name` is `name` when `name` is a non-empty component. */
  lemma BaseNameOfChild(dir: string, name: string)
    requires name != []
    requires forall j :: 0 <= j < |name| ==> name[j] != '/'
    ensures BaseName(dir + "/" + name) == name
  {
    var p := dir + "/" + name;
    assert p[|p| - 1] == name[|name| - 1];
    assert StripTrailingSlashes(p) == p;
    var front := dir + "/";
    assert p == front + name;
    AfterLastSlashAppend(front, name);
    assert AfterLastSlash(front) == [];
    assert [] + name == name;
  }

  /**
   * A file named `stem.e`, with a stem that does not start with a dot and no
   * dot in `e`, has the extension ".e" whatever directory it is in.
   */
  lemma {:induction false} ExtnameOfFileName(dir: string, stem: string, e: string)
    requires stem != [] && stem[0] != '.'
    requires forall j :: 0 <= j < |stem| ==> stem[j] != '/'
    requires forall j :: 0 <= j < |e| ==> e[j] != '/' && e[j] != '.'
    ensures PathExtname(dir + "/" + (stem + "." + e)) == "." + e
  {
    var name := stem + "." + e;
    FileNameHasNoSlash(stem, e);
    BaseNameOfChild(dir, name);
    assert name[0] == stem[0];
    NotDotDot(name);
    LastDotOfFileName(stem, e);
    ExtensionSuffix(stem, e);
    ExtnameAt(dir + "/" + name, name, |stem|);
  }

  lemma LastDotOfFileName(stem: string, e: string)
    requires forall j :: 0 <= j < |e| ==> e[j] != '.'
    ensures LastDot(stem + "." + e) == Some(|stem|)
  {
    LastDotAppend(stem + ".", e);
    assert LastDot(stem + ".") == Some(|stem|);
  }

  lemma ExtensionSuffix(stem: string, e: string)
    ensures (stem + "." + e)[|stem|..] == "." + e
  {
    DropPrefix(stem, "." + e);
    assert stem + "." + e == stem + ("." + e);
  }

  lemma NotDotDot(name: string)
    requires name != [] && name[0] != '.'
    ensures name != ".."
  {
    assert name[0] != ".."[0];
  }

  lemma FileNameHasNoSlash(stem: string, e: string)
    requires forall j :: 0 <= j < |stem| ==> stem[j] != '/'
    requires forall j :: 0 <= j < |e| ==> e[j] != '/'
    ensures forall j :: 0 <= j < |stem + "." + e| ==> (stem + "." + e)[j] != '/'
  {
    var name := stem + "." + e;
    forall j | 0 <= j < |name| ensures name[j] != '/' {
      if j < |stem| { assert name[j] == stem[j]; }
      else if j > |stem| { assert name[j] == e[j - |stem| - 1]; }
    }
  }

  lemma DropPrefix(a: string, b: string)
    ensures (a + b)[|a|..] == b
  {
  }

  lemma ExtnameAt(p: string, name: string, i: nat)
    requires BaseName(p) == name && LastDot(name) == Some(i)
    requires i != 0 && name != ".."
    ensures PathExtname(p) == name[i..]
  {
  }

  // ---------------------------------------------------------------------
  // Content kinds and MIME types

  const ImageExtensions: set<string> := {".png", ".jpg", ".jpeg", ".gif", ".webp", ".bmp"}
  const VideoExtensions: set<string> := {".mp4", ".mov", ".avi", ".mkv", ".webm"}
  const FileExtensions: set<string> := {".pdf", ".txt", ".doc", ".docx", ".xls", ".xlsx"}

  const MimeTypes: map<string, string> := map[
    ".png" := "image/png",
    ".jpg" := "image/jpeg",
    ".jpeg" := "image/jpeg",
    ".gif" := "image/gif",
    ".webp" := "image/webp",
    ".bmp" := "image/bmp",
    ".mp4" := "video/mp4",
    ".mov" := "video/quicktime",
    ".avi" := "video/x-msvideo",
    ".mkv" := "video/x-matroska",
    ".webm" := "video/webm",
    ".pdf" := "application/pdf",
    ".txt" := "text/plain",
    ".doc" := "application/msword",
    ".docx" := "application/vnd.openxmlformats-officedocument.wordprocessingml.document",
    ".xls" := "application/vnd.ms-excel",
    ".xlsx" := "application/vnd.openxmlformats-officedocument.spreadsheetml.sheet"
  ]

  const OctetStream: string := "application/octet-stream"

  datatype FileKind = Image | Video | Document

  /** detectFileType: the set the lowercased extension belongs to, or none. */
  function DetectFileType(filePath: string): (k: Option<FileKind>)
    ensures k == Some(Image) <==> Lower(PathExtname(filePath)) in ImageExtensions
    ensures k == Some(Video) ==> Lower(PathExtname(filePath)) in VideoExtensions
    ensures k == Some(Document) ==> Lower(PathExtname(filePath)) in FileExtensions
    ensures k == None <==> Lower(PathExtname(filePath)) !in ImageExtensions + VideoExtensions + FileExtensions
  {
    var ext := Lower(PathExtname(filePath));
    if ext in ImageExtensions then Some(Image)
    else if ext in VideoExtensions then Some(Video)
    else if ext in FileExtensions then Some(Document)
    else None
  }

  /** getMimeType: the table entry of the lowercased extension, else the generic binary type. */
  function GetMimeType(filePath: string): (m: string)
    ensures Lower(PathExtname(filePath)) in MimeTypes ==> m == MimeTypes[Lower(PathExtname(filePath))]
    ensures Lower(PathExtname(filePath)) !in MimeTypes ==> m == OctetStream
  {
    var ext := Lower(PathExtname(filePath));
    if ext in MimeTypes then MimeTypes[ext] else OctetStream
  }

  /** The MIME table has an entry for every extension of the three sets, and for no other. */
  lemma MimeTableCoversKinds()
    ensures forall e :: e in MimeTypes ==> e in ImageExtensions || e in VideoExtensions || e in FileExtensions
    ensures forall e :: e in ImageExtensions || e in VideoExtensions || e in FileExtensions ==> e in MimeTypes
  {
  }

  /** No extension belongs to two of the sets. */
  lemma ExtensionSetsDisjoint()
    ensures forall e :: e in ImageExtensions ==> e !in VideoExtensions && e !in FileExtensions
    ensures forall e :: e in VideoExtensions ==> e !in FileExtensions
  {
  }

  /** Every image extension has an image/ type and every video extension a video/ type. */
  lemma MimeTypesAgreeWithKinds()
    ensures forall e :: e in ImageExtensions ==> StartsWith(MimeTypes[e], "image/")
    ensures forall e :: e in VideoExtensions ==> StartsWith(MimeTypes[e], "video/")
    ensures forall e :: e in FileExtensions ==> MimeTypes[e] != OctetStream
  {
  }

  /** The MIME type of a classified path agrees with its kind; a path with no kind gets the generic type. */
  lemma {:induction false} MimeTypeFollowsKind(filePath: string)
    ensures DetectFileType(filePath) == Some(Image) ==> StartsWith(GetMimeType(filePath), "image/")
    ensures DetectFileType(filePath) == Some(Video) ==> StartsWith(GetMimeType(filePath), "video/")
    ensures DetectFileType(filePath) == Some(Document) ==> GetMimeType(filePath) != OctetStream
    ensures DetectFileType(filePath) == None ==> GetMimeType(filePath) == OctetStream
  {
    var ext := Lower(PathExtname(filePath));
    MimeTableCoversKinds();
    MimeTypesAgreeWithKinds();
    if ext in ImageExtensions {
      assert GetMimeType(filePath) == MimeTypes[ext];
    } else if ext in VideoExtensions {
      assert GetMimeType(filePath) == MimeTypes[ext];
    } else if ext in FileExtensions {
      assert GetMimeType(filePath) == MimeTypes[ext];
    } else {
      assert ext !in MimeTypes;
    }
  }

  /** A path with no extension is never classified and gets the generic type. */
  lemma NoExtensionIsUnclassified(filePath: string)
    requires PathExtname(filePath) == ""
    ensures DetectFileType(filePath) == None && GetMimeType(filePath) == OctetStream
  {
    assert Lower("") == "";
  }

  // ---------------------------------------------------------------------
  // normalizeInput

  datatype InputKind = Local | UrlInput | Base64

  datatype NormalizedInput = NormalizedInput(kind: InputKind, value: string)

  predicate IsBase64Char(c: char) {
    ('A' <= c <= 'Z') || ('a' <= c <= 'z') || ('0' <= c <= '9') || c == '+' || c == '/' || c == '='
  }

  /** /^[A-Za-z0-9+\/=]{20,}$/ and no space. */
  predicate LooksLikeRawBase64(input: string) {
    |input| >= 20 && (forall i :: 0 <= i < |input| ==> IsBase64Char(input[i])) && !Contains(input, " ")
  }

  predicate IsHttpUrl(input: string) {
    StartsWith(input, "http://") || StartsWith(input, "https://")
  }

  /** normalizeInput: a data URI, then an http(s) URL, then raw base64, else a local path. */
  function NormalizeInput(input: string): (r: NormalizedInput)
    ensures r.value == input
    ensures r.kind == UrlInput <==> !StartsWith(input, "data:") && IsHttpUrl(input)
    ensures r.kind == Base64 <==> StartsWith(input, "data:") || (!IsHttpUrl(input) && LooksLikeRawBase64(input))
  {
    if StartsWith(input, "data:") then NormalizedInput(Base64, input)
    else if IsHttpUrl(input) then NormalizedInput(UrlInput, input)
    else if LooksLikeRawBase64(input) then NormalizedInput(Base64, input)
    else NormalizedInput(Local, input)
  }

  /** A run of base64 characters has no '.', so it has no extension. */
  lemma {:induction false} RawBase64HasNoExtension(input: string)
    requires LooksLikeRawBase64(input)
    ensures PathExtname(input) == ""
  {
    var s := StripTrailingSlashes(input);
    var b := AfterLastSlash(s);
    forall j | 0 <= j < |b|
      ensures b[j] != '.'
    {
      assert b[j] == input[|s| - |b| + j];
      assert IsBase64Char(input[|s| - |b| + j]);
    }
  }

  /** An absolute or relative path (its '/' excluded nothing) with a dot is never taken for base64 or a URL. */
  lemma {:induction false} DottedPathIsLocal(input: string, i: nat)
    requires i < |input| && input[i] == '.'
    requires !StartsWith(input, "data:") && !IsHttpUrl(input)
    ensures NormalizeInput(input).kind == Local
  {
    assert !IsBase64Char(input[i]);
  }
}

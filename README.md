# open-mcp core, modelled in Dafny

This project models the core of the open-mcp server, an MCP server with four tools.

- **searxng_web_search** sends a query to a gateway's Firecrawl search.
- **web_url_read** reads a web page as markdown through the gateway. The markdown is cached per URL, and the tool can return a part of it: the headings, a section, a paragraph range or a character window.
- **image_understand** sends files, URLs or base64 data with a prompt to the Zhipu GLM vision API.
- **image_generate** asks the Zhipu CogView API for an image.

Beside the tools it models:

- the argument checks;
- the error classifier;
- the start-up checks;
- the PaddleOCR client tool;
- the two Python services behind the gateway. The Firecrawl reader adapter turns Jina-style GET requests into Firecrawl scrape calls. The PaddleOCR service turns a base64 image into text, blocks and a language.

There is one Dafny module per source file, plus three shared modules:

- `Base` holds Option and Result.
- `Text` holds string operations. It has a split/join pair with its round trips, ASCII lower-casing, JavaScript `parseInt` and whitespace tests.
- `Js` holds a JavaScript value model: JSON values, truthiness, `||`, property access, the TypeError text of a property read on null, thrown-error records and environment lookup.

The world outside the code becomes function-typed parameters or datatypes the caller supplies:

- the environment;
- `new URL`, `encodeURIComponent` and base64;
- the gateway's and the APIs' answers;
- the file system's `stat` and `readFile`;
- `unquote`, the OCR engine and the image decoder.

The parts of the code that work step by step are methods with loops or state. They are proved against the specification functions:

- the URL cache is the `Reader` class, whose method updates its `cache` field;
- the section extraction and the pagination pipeline;
- the vision content build;
- the header and payload builders;
- the OCR line collection.

## Model

| member | source | states |
|---|---|---|
| Js.TypeOf | src/types.ts:160-165 | `typeof` is "object" exactly for null, arrays and objects |
| Js.Or | src/search.ts:107 | JavaScript `a \|\| b`: `a` when truthy, otherwise `b` |
| Text.Lower | src/utils/file-helper.ts:37 | lower-casing keeps the length and maps each character to its lower-case form (ASCII) |
| Text.Split | src/url-reader.ts:38 | `split` always gives at least one piece |
| Text.JoinSplit | src/url-reader.ts:69 | joining the pieces of a split with the same separator gives the text back |
| Text.SplitJoin | services/paddleocr/ocr-service.py:149 | splitting a join of separator-free pieces gives the pieces back |
| Text.JsParseIntOfNatToString | src/index.ts:315 | `parseInt` of a decimal numeral followed by a non-digit is the number |
| Text.IndexOfChar | services/paddleocr/ocr-service.py:79 | the first occurrence of a character, or the length when it is absent |
| ErrorHandler.ConfigurationErrorOf | src/error-handler.ts:21-23 | the configuration error's text is the prefix followed by the message |
| ErrorHandler.CreateNetworkError | src/error-handler.ts:25-54 | each category holds exactly when its code or message condition holds, with the codes checked before the message. The target is the gateway exactly when one is configured. A DNS error carries the URL's hostname or "unknown". The network-error detail is `message \|\| code \|\| 'Connection failed'`, with guidance only for "fetch failed"/"Connection failed" |
| ErrorHandler.CodeBeatsMessage | src/error-handler.ts:28-39 | a transport code decides the error whatever the message says |
| ErrorHandler.NetworkMessagePassesThrough | src/error-handler.ts:45-53 | any other non-empty message is shown unchanged after the network prefix |
| ErrorHandler.CreateServerError | src/error-handler.ts:56-76 | the status is kept. The wording is fixed for 403, 404, 429 and 5xx, and is the status text otherwise. The gateway is blamed exactly when one is configured |
| ErrorHandler.EmptyContentWarning | src/error-handler.ts:95-97 | the empty-content warning is not read back as any error category |
| ErrorHandler.MessageRevealsCategory | src/error-handler.ts:21-101 | every error message names its category: the category can be read back from the text alone |
| ErrorHandler.ConfigurationErrorRevealed | src/error-handler.ts:21-23 | a configuration error reads back as such |
| ErrorHandler.ConnectionErrorRevealed | src/error-handler.ts:28-30 | a connection error reads back as such |
| ErrorHandler.DnsErrorRevealed | src/error-handler.ts:32-35 | a DNS error reads back as such |
| ErrorHandler.TransportTimeoutErrorRevealed | src/error-handler.ts:37-39 | a transport timeout reads back as such |
| ErrorHandler.SslErrorRevealed | src/error-handler.ts:41-43 | a certificate error reads back as such |
| ErrorHandler.NetworkErrorRevealed | src/error-handler.ts:45-53 | a network error reads back as such |
| ErrorHandler.ServerErrorRevealed | src/error-handler.ts:56-76 | a server error reads back as such |
| ErrorHandler.UrlFormatErrorRevealed | src/error-handler.ts:82-84 | a URL format error reads back as such |
| ErrorHandler.ContentErrorRevealed | src/error-handler.ts:86-88 | a content error reads back as such |
| ErrorHandler.TimeoutErrorRevealed | src/error-handler.ts:90-93 | a read timeout reads back as such |
| ErrorHandler.UnexpectedErrorRevealed | src/error-handler.ts:99-101 | an unexpected error reads back as such |
| ErrorHandler.EnvIssues | src/error-handler.ts:103-134 | there are no issues exactly when GATEWAY_URL is unset or an http(s) URL, and the two credentials are both set or both unset |
| ErrorHandler.ValidateEnvironment | src/error-handler.ts:103-135 | None exactly when there are no issues. Otherwise the issues are joined by ", " between the fixed prefix and suffix |
| FileHelper.StripTrailingSlashes | src/utils/file-helper.ts:37 | path.extname ignores trailing slashes: the result is a prefix without a final '/' |
| FileHelper.AfterLastSlash | src/utils/file-helper.ts:37 | the last path segment is a suffix with no '/' |
| FileHelper.LastDot | src/utils/file-helper.ts:37 | the position of the last '.', or None when there is no '.' |
| FileHelper.PathExtname | src/utils/file-helper.ts:37 | the extension is empty, or a '.' followed by neither '.' nor '/' |
| FileHelper.BaseNameOfChild | src/utils/file-helper.ts:37 | the base name of `dir/name` is `name` |
| FileHelper.ExtnameOfFileName | src/utils/file-helper.ts:37 | path.extname of `dir/stem.e` is `.e` |
| FileHelper.DetectFileType | src/utils/file-helper.ts:36-44 | image exactly for an image extension and unclassified exactly for an unknown one, case-insensitively; video and document only for their own extensions |
| FileHelper.GetMimeType | src/utils/file-helper.ts:84-87 | a known extension, in any case, gives its table entry, and an unknown one gives application/octet-stream |
| FileHelper.MimeTableCoversKinds | src/utils/file-helper.ts:5-31 | the MIME table has an entry for exactly the classified extensions |
| FileHelper.ExtensionSetsDisjoint | src/utils/file-helper.ts:29-31 | no extension is in two kinds |
| FileHelper.MimeTypesAgreeWithKinds | src/utils/file-helper.ts:5-31 | image extensions map to image/* and video extensions to video/*. Documents have a specific type |
| FileHelper.MimeTypeFollowsKind | src/utils/file-helper.ts:36-87 | the MIME type always agrees with the detected kind |
| FileHelper.NoExtensionIsUnclassified | src/utils/file-helper.ts:36-44 | a path without an extension is unclassified and octet-stream |
| FileHelper.NormalizeInput | src/utils/file-helper.ts:49-66 | the value is kept. The input is a URL exactly for a non-data http(s) input, and base64 exactly for a data URI or a long raw base64 run |
| FileHelper.DottedPathIsLocal | src/utils/file-helper.ts:61-65 | a non-URL input containing '.' is a local path |
| ToolArgs.HasPropertyIsTypedField | src/types.ts:155-166 | hasProperty holds exactly for an object with that field of that `typeof` |
| ToolArgs.WithField | src/types.ts:141-150 | adding an optional argument field adds it only when present |
| ToolArgs.SearchArgsOf | src/types.ts:3-22 | search arguments are read exactly when the check passes. The query is kept, and a limit lies in 1..100 |
| ToolArgs.SearchArgsRoundTrip | src/types.ts:3-22 | a search argument object passes exactly when its limit is absent or in range, and then reads back as itself |
| ToolArgs.UrlReadArgsOf | src/types.ts:196-220 | read arguments are read exactly when the check passes. startChar >= 0 and maxLength >= 1 |
| ToolArgs.UrlReadArgsRoundTrip | src/types.ts:196-220 | a read argument object passes exactly when its numbers are in range, and then reads back as itself |
| ToolArgs.UnderstandArgsOf | src/types.ts:168-180 | understand arguments are read exactly when the check passes, with file and prompt kept |
| ToolArgs.UnderstandArgsRoundTrip | src/types.ts:168-180 | every understand argument object reads back as itself |
| ToolArgs.GenerateArgsOf | src/types.ts:182-194 | generate arguments are read exactly when the check passes, with the prompt kept |
| ToolArgs.GenerateArgsRoundTrip | src/types.ts:182-194 | every generate argument object reads back as itself |
| ToolArgs.ExtraFieldsIgnored | src/types.ts:155-220 | a field none of the checks names changes no check's verdict |
| ToolArgs.NonObjectsRejected | src/types.ts:160-162 | no check accepts a non-object |
| Zhipu.ApiErrorMessage | src/api/zhipu.ts:49-60 | an unreadable error body, or a readable one without a truthy `error.message`, gives "<prefix>: HTTP <status>". A non-empty string `error.message` is shown after the prefix |
| Zhipu.ErrorMessageRevealsStatusClass | src/api/zhipu.ts:53-59 | the message's prefix names the status class: 401, 5xx or another status |
| Zhipu.ServiceMessagePassesThrough | src/api/zhipu.ts:51 | the service's own `error.message` is shown after the prefix |
| Zhipu.UnauthorizedRead | src/api/zhipu.ts:53-54 | an authentication-failure message reads back as 401 |
| Zhipu.ServerFailureRead | src/api/zhipu.ts:55-56 | a server-error message reads back as 5xx |
| Zhipu.OtherFailureRead | src/api/zhipu.ts:57 | an API-error message reads back as another status |
| Zhipu.PrepareCall | src/api/zhipu.ts:62-73 | refused exactly when ZHIPUAI_API_KEY is unset. Otherwise the base URL plus the endpoint, with the payload unchanged |
| Zhipu.Exchange | src/api/zhipu.ts:62-80 | no request without the key. A rejected fetch escapes with its own message, a non-2xx answer is the API error, and a 2xx answer gives its body |
| Zhipu.VisionAnswer | src/api/zhipu.ts:97-103 | an answer is always truthy |
| Zhipu.VisionAnswerOfReply | src/api/zhipu.ts:97-103 | a reply's first choice content is the answer, or "No response from vision API" when empty |
| Zhipu.CallVisionAPI | src/api/zhipu.ts:85-104 | a request is made exactly when the key is set, to /chat/completions. A missing key is the key error and a rejected fetch passes its message on. A failed status is the API error text, and a 2xx reply gives the answer read from its body (`choices[0].message.content`) |
| Zhipu.VisionPayloadFields | src/api/zhipu.ts:89-95 | the payload names glm-4.6v-flash, carries the messages, and thinking is "enabled" exactly when asked |
| Zhipu.ImageAnswer | src/api/zhipu.ts:119-125 | an answer is always truthy |
| Zhipu.ImageAnswerOfReply | src/api/zhipu.ts:119-125 | the first image URL is the answer, or "No images generated" when there is none |
| Zhipu.CallImageGenAPI | src/api/zhipu.ts:109-126 | a request is made exactly when the key is set, to /images/generations. A missing key is the key error and a rejected fetch passes its message on. A failed status is the API error text, and a 2xx reply gives the answer read from its body (`data[0].url`) |
| ImageGenerate.ValidateImageGenArgs | src/tools/image-generate.ts:14-30 | accepted exactly for a non-blank prompt of at most 4000 code points and an empty or listed size. Blank comes first, then length |
| ImageGenerate.GenerateImage | src/tools/image-generate.ts:35-42 | a refusal makes no request. Otherwise the image API is called with the size defaulting to 1024x1024 |
| ImageGenerate.RequestsAreValid | src/tools/image-generate.ts:35-42 | every request sent carries a valid prompt and a listed or empty size |
| ImageGenerate.PromptLimitIsInclusive | src/tools/image-generate.ts:21-23 | 4000 code points pass and 4001 are refused |
| ImageGenerate.BlankPromptCheckedFirst | src/tools/image-generate.ts:17-19 | a blank prompt is refused whatever the size |
| ImageOcr.GetFileExtension | src/tools/image-ocr.ts:45-47 | the text after the last '.', lower-cased; it holds no '.' |
| ImageOcr.ExtensionOfFileName | src/tools/image-ocr.ts:45-47 | for `stem.e` the extension is `e` lower-cased |
| ImageOcr.ExtensionWithoutDot | src/tools/image-ocr.ts:45-47 | without a '.', the whole input lower-cased |
| ImageOcr.DefaultLimit | src/tools/image-ocr.ts:67 | without MAX_IMAGE_SIZE the limit is 10 MiB |
| ImageOcr.SizeCheck | src/tools/image-ocr.ts:64-82 | a stat error with a code is "not found" and one without is "failed to access". A file is refused exactly when it is larger than a numeric limit |
| ImageOcr.ValidateImage | src/tools/image-ocr.ts:49-84 | URLs and image data URIs pass. Otherwise the extension must be supported, and local paths also pass the size check |
| ImageOcr.StatOnlyForLocalPaths | src/tools/image-ocr.ts:51-66 | only local paths consult the file system |
| ImageOcr.SizeLimitIsInclusive | src/tools/image-ocr.ts:69-73 | a file of exactly the limit passes and one byte more is refused |
| ImageOcr.OcrRequestFor | src/tools/image-ocr.ts:95-110 | POST to PADDLEOCR_URL (or the default) + "/ocr", with the image and the language, or "auto" |
| ImageOcr.ClassifyOcrFailure | src/tools/image-ocr.ts:121-139 | an abort is the 30 s timeout and a refused connection is "service not running". Errors of its own pass through with their message, and anything else is "OCR request failed: " followed by its message |
| ImageOcr.CallPaddleOcr | src/tools/image-ocr.ts:99-139 | a non-2xx status is "OCR service error", and a 2xx body that is not JSON is "OCR request failed: " and the parse error. A rejection is classified by ClassifyOcrFailure. It succeeds exactly for a 2xx answer with a JSON body, and its value is that body |
| ImageOcr.OcrResultOf | src/tools/image-ocr.ts:158-175 | fails exactly on a null result. The confidence is the number or 0.9, and the warning is present exactly below 0.5. Text and language default to "" and "unknown", and the blocks are the service's |
| ImageOcr.ShapeOcrResult | src/tools/image-ocr.ts:158-175 | the step-by-step shaping, response first and warning added after, gives OcrResultOf |
| ImageOcr.ExtractTextFromImage | src/tools/image-ocr.ts:152-176 | validation first, with no request on refusal. The request for the image, call failures passed on, and a successful answer shaped by OcrResultOf |
| ImageUnderstand.DataUri | src/tools/image-understand.ts:33 | the result is a data: URI |
| ImageUnderstand.FileToDataUrl | src/tools/image-understand.ts:27-46 | a local file is read and given its MIME type, and a read failure is passed on. Data URIs and URLs are kept, and raw base64 gets the default MIME type of its kind. What comes out is a data URI or an http(s) URL |
| ImageUnderstand.RawBase64IsOctetStream | src/tools/image-understand.ts:35-42 | raw base64 has no extension, so it is labelled application/octet-stream |
| ImageUnderstand.ReadOnlyLocal | src/tools/image-understand.ts:30-45 | only local paths are read from disk |
| ImageUnderstand.CreateContentItem | src/tools/image-understand.ts:51-63 | the item carries the URL. It is image or video exactly when the original input's extension says so, and a file otherwise |
| ImageUnderstand.FileItems | src/tools/image-understand.ts:74-77 | a successful build has one item per file |
| ImageUnderstand.FileItemsAt | src/tools/image-understand.ts:74-77 | item i is file i converted, of the kind its extension names |
| ImageUnderstand.FileItemsFailure | src/tools/image-understand.ts:74-77 | a failed build carries the error of one of the files |
| ImageUnderstand.FileItemsFail | src/tools/image-understand.ts:74-77 | the build fails exactly when some file cannot be converted |
| ImageUnderstand.FileErrorPersists | src/tools/image-understand.ts:74-77 | the first failure stops the build with its error |
| ImageUnderstand.BuildVisionContent | src/tools/image-understand.ts:68-85 | the loop gives the file items followed by the prompt as text, or the first file's error |
| ImageUnderstand.ContentShape | src/tools/image-understand.ts:72-84 | one item per file plus one; only the last one is text |
| ImageUnderstand.UnderstandGuard | src/tools/image-understand.ts:93-101 | passes exactly for a non-empty file list and a non-blank prompt. The missing-files message comes first |
| ImageUnderstand.UnderstandImage | src/tools/image-understand.ts:90-109 | a guard or read failure makes no request. Otherwise one user message with the content, and thinking off by default |
| UrlReader.JsSlice | src/url-reader.ts:34 | `slice` stays within the text and is the plain substring for in-range bounds |
| UrlReader.ApplyCharacterPagination | src/url-reader.ts:26-35 | empty from the end on. A falsy maxLength runs to the end, and otherwise the window is at most maxLength long |
| UrlReader.NegativeMaxLengthCountsFromEnd | src/url-reader.ts:31-34 | a negative maxLength is an end counted from the end |
| UrlReader.HeadingLines | src/url-reader.ts:103 | the kept lines are exactly the heading lines |
| UrlReader.ExtractHeadings | src/url-reader.ts:101-110 | the fixed message exactly when no line is a heading; otherwise the heading lines joined |
| UrlReader.HeadingListLines | src/url-reader.ts:101-110 | the heading list, split back into lines, is the document's heading lines in order |
| UrlReader.FirstMatchFrom | src/url-reader.ts:45-52 | the first line from i on that matches the heading pattern |
| UrlReader.SectionEndFrom | src/url-reader.ts:59-67 | the first later line that is a heading of the same or a higher level |
| UrlReader.SectionOf | src/url-reader.ts:37-70 | empty exactly when no line matches the heading |
| UrlReader.SectionLines | src/url-reader.ts:37-70 | a found section is the run of lines from the first match up to, not including, the closing heading |
| UrlReader.ExtractSection | src/url-reader.ts:37-70 | the two loops compute the section, which is empty exactly when no line matches |
| UrlReader.ParseFormatRange | src/url-reader.ts:76-82 | parsing the text of a range gives the range back |
| UrlReader.NonBlankPieces | src/url-reader.ts:73 | the kept pieces are exactly the non-blank ones |
| UrlReader.ExtractParagraphRange | src/url-reader.ts:72-99 | empty exactly for a malformed range, a start outside the paragraphs or an empty selection |
| UrlReader.SingleSelectsParagraph | src/url-reader.ts:88-90 | "N" within the document is paragraph N |
| UrlReader.FromSelectsToEnd | src/url-reader.ts:91-93 | "N-" within the document is paragraphs N to the last, joined by a blank line |
| UrlReader.BetweenSelectsSlice | src/url-reader.ts:94-97 | "N-M" with M >= N is paragraphs N to M, clipped to the last, joined by a blank line |
| UrlReader.SingleIsDegenerateRange | src/url-reader.ts:88-98 | "N" and "N-N" select the same text |
| UrlReader.OpenRangeReachesEnd | src/url-reader.ts:91-93 | "N-" is "N-count" |
| UrlReader.UpperBoundClipped | src/url-reader.ts:94-98 | an upper bound past the end is clipped to the paragraph count |
| UrlReader.ReadHeadingsOverrides | src/url-reader.ts:116-118 | readHeadings overrides every other option |
| UrlReader.NoOptionsIsIdentity | src/url-reader.ts:112-142 | without options the text comes back unchanged |
| UrlReader.SectionMissStops | src/url-reader.ts:121-126 | a missing section is reported whatever the other options are |
| UrlReader.RangeMissStops | src/url-reader.ts:129-134 | an empty range is reported whatever the window is |
| UrlReader.WindowAppliesToSection | src/url-reader.ts:120-139 | the character window is cut from the section, not the document |
| UrlReader.ApplyPaginationOptions | src/url-reader.ts:112-142 | the step-by-step method computes the option pipeline |
| UrlReader.GatewayBase | src/url-reader.ts:173 | GATEWAY_URL when set, otherwise the default gateway; never empty |
| UrlReader.RejectionAsWritten | src/url-reader.ts:194-205 | as written, a rejected fetch never becomes a timeout error |
| UrlReader.AbortNeverTimesOutAsWritten | src/url-reader.ts:194-205 | as written, the abort fired by the timer becomes a network error |
| UrlReader.Rejection | src/url-reader.ts:262-266 | a timeout exactly for an abort, naming the host and the limit. Other rejections are unchanged |
| UrlReader.Reader.constructor | src/url-reader.ts:5 | the cache starts empty |
| UrlReader.Reader.FetchAndConvertToMarkdown | src/url-reader.ts:144-281 | the result, the request and the new cache are those of the read specification from the old cache. That specification maps an aborted fetch to the timeout error, the corrected behaviour of Findings row 1 |
| UrlReader.CacheHitMakesNoRequest | src/url-reader.ts:153-161 | a cached URL is paginated without a request, and the cache is kept |
| UrlReader.MissRequestsGateway | src/url-reader.ts:172-196 | a miss with a valid URL makes one request, to `<gateway>/api/read/<encoded url>` |
| UrlReader.FreshViewIsStored | src/url-reader.ts:240-261 | a fresh view stores the non-blank text for the URL and only that entry. It is the pagination of that text, and "cached" is false |
| UrlReader.OnlyFreshViewsWriteCache | src/url-reader.ts:225-246 | errors and the empty-content warning leave the cache unchanged |
| UrlReader.SecondReadHitsCache | src/url-reader.ts:153-161 | after a fresh read, reading the URL again makes no request and paginates the first text |
| UrlReader.AbortIsTimeout | src/url-reader.ts:262-266 | as intended (Findings row 1), an aborted read is the timeout error for the host and the limit |
| UrlReader.TransportErrorsBlameGateway | src/url-reader.ts:198-216 | connection, timeout, certificate and HTTP errors of a read blame the gateway |
| UrlReader.MalformedUrlMakesNoRequest | src/url-reader.ts:163-170 | an unparsable URL is a URL format error, with no request and the cache kept |
| Search.BuildHeaders | src/search.ts:43-70 | the method builds exactly the header map below |
| Search.Headers | src/search.ts:45-70 | JSON content type. Basic auth exactly when both credentials are set, and User-Agent exactly when set |
| Search.SelectResults | src/search.ts:106-116 | a null answer is a TypeError. A successful answer's data list wins even over a results list. Otherwise a results list comes first, then a data list, and neither field gives the empty list. Whatever is chosen is refused when it is not a list: a successful answer's truthy data, otherwise a truthy results field, otherwise a truthy data field. A result is one of the two lists or empty |
| Search.FormatResult | src/search.ts:129-133 | a null item is a TypeError. Each field is a truthy value or "" |
| Search.FormatResults | src/search.ts:129-133 | succeeds exactly when every item does, one hit per item in order |
| Search.SearchAnswer | src/search.ts:72-144 | a rejection is a network error, a failed status a server error, and unparsable JSON the parse failure. After parsing, the result selection's refusal comes first, then the first item that cannot be formatted; otherwise the answer echoes the query and holds the formatted hits and their count |
| Search.PerformWebSearch | src/search.ts:12-145 | unset or unparsable GATEWAY_URL is a configuration error with no request. Otherwise one POST to /api/firecrawl-search with the headers and `{query, limit}` |
| Search.HitFields | src/search.ts:129-133 | title, then description or content, then url or link, each or "" |
| Search.ObjectListsFormatted | src/search.ts:128-144 | a list of objects is answered with one hit per object |
| McpServer.ListTools | src/index.ts:73-105 | the method lists exactly the available tools |
| McpServer.AvailableTools | src/index.ts:77-100 | the gateway tools, the AI tools, or all four when both or neither are set |
| McpServer.ListedIffCallable | src/index.ts:77-170 | once any variable is set, a tool is listed exactly when its call's variable is set. With neither set, all are listed and none is callable |
| McpServer.ToolNamed | src/index.ts:116-170 | the tool of that name, or none has it |
| McpServer.CallGuard | src/index.ts:116-170 | an unknown tool first, then the missing variable, then invalid arguments |
| McpServer.EnvironmentBeforeArguments | src/index.ts:117-123 | a missing variable is reported whatever the arguments are |
| McpServer.ReadOptions | src/index.ts:136-142 | the read options the call passes on, field for field, with startChar and maxLength each the whole number at or just below the given one |
| McpServer.VisionArgsAsWritten | src/index.ts:153 | as written, understandImage receives no `files` |
| McpServer.UnderstandAlwaysRefusedAsWritten | src/index.ts:146-154 | as written, every image understanding call whose arguments follow the schema is refused with "At least one file is required" |
| McpServer.VisionArgsOf | src/index.ts:153 | as intended, the one file as a one-element list |
| McpServer.UnderstandReachesBuild | src/index.ts:146-154 | as intended, the guard passes exactly for a non-blank prompt |
| McpServer.CallTool | src/index.ts:108-183 | a refusal changes nothing. A read runs the reader with the default timeout and the cache changes only there. Generation runs its tool, and understanding runs its tool with the one-element file list of Findings row 2 (the corrected hand-over): a blank prompt or a failed file read gives that error and sends no request. Search sends `{query, limit ?? 10}` |
| McpServer.HttpPort | src/index.ts:314-319 | accepted exactly when `parseInt` gives 1..65535; otherwise the invalid-port message |
| McpServer.PortNumeralAccepted | src/index.ts:315-316 | every in-range numeral, with any non-digit tail, is its own port |
| McpServer.PortOutOfRangeRefused | src/index.ts:316-318 | 0 and numbers past 65535 are refused |
| McpServer.Start | src/index.ts:296-366 | configuration issues stop start-up with "❌ " and the report. Then HTTP on a valid MCP_HTTP_PORT, an invalid port stops it, and STDIO otherwise |
| FirecrawlAdapter.FixUrl | services/firecrawl-adapter/app.py:118-125 | "http:"/"https:" without "//" gain the slashes; everything else is unchanged |
| FirecrawlAdapter.FixUrlIdempotent | services/firecrawl-adapter/app.py:118-125 | fixing twice is fixing once |
| FirecrawlAdapter.FixUrlAddsSlashes | services/firecrawl-adapter/app.py:118-125 | a fixed http(s) URL has its "//" |
| FirecrawlAdapter.PyInt | services/firecrawl-adapter/app.py:140 | `int()` of a digit string is its value |
| FirecrawlAdapter.ParseOptionsFromQuery | services/firecrawl-adapter/app.py:127-144 | the method builds exactly the options below |
| FirecrawlAdapter.QueryOptions | services/firecrawl-adapter/app.py:127-144 | fixed keys; mobile false; each flag is true exactly for a case-insensitive "true", with its default; formats starts with markdown and holds html exactly when includeHtml is set; waitFor present exactly when it parses as an integer, with that value |
| FirecrawlAdapter.EmptyQueryDefaults | services/firecrawl-adapter/app.py:129-135 | an empty query gives the documented defaults |
| FirecrawlAdapter.BuildHeaders | services/firecrawl-adapter/app.py:159-164 | the method builds exactly the headers below |
| FirecrawlAdapter.RequestHeaders | services/firecrawl-adapter/app.py:159-164 | JSON content type, with a Bearer token exactly when the key is non-empty |
| FirecrawlAdapter.BuildPayload | services/firecrawl-adapter/app.py:167-188 | the method builds exactly the payload below |
| FirecrawlAdapter.Formats | services/firecrawl-adapter/app.py:169-188 | markdown first. html exactly when includeHtml, and screenshot exactly when asked, last |
| FirecrawlAdapter.Payload | services/firecrawl-adapter/app.py:167-188 | url, formats, a 180000 ms timeout. onlyMainContent false only when it is falsy, and waitFor only when truthy |
| FirecrawlAdapter.ScrapeReply | services/firecrawl-adapter/app.py:200-239 | 504 on a timeout and 500 on a failed request or a non-200 answer. 200 only for a 200 answer |
| FirecrawlAdapter.SuccessfulScrape | services/firecrawl-adapter/app.py:205-224 | a successful scrape answers its markdown and metadata for the URL |
| FirecrawlAdapter.UnsuccessfulScrape | services/firecrawl-adapter/app.py:225-227 | an unsuccessful scrape is a 500 with its error or "Unknown error" |
| FirecrawlAdapter.ScrapeWithFirecrawl | services/firecrawl-adapter/app.py:146-239 | one POST to /v1/scrape with those headers and payload; the reply follows from its outcome |
| FirecrawlAdapter.SchemesAreScraped | services/firecrawl-adapter/app.py:105 | a path starting with a scheme is never the index page |
| FirecrawlAdapter.DottedPathsAreScraped | services/firecrawl-adapter/app.py:105 | a path with a '.' is never the index page |
| FirecrawlAdapter.ReadGetRoot | services/firecrawl-adapter/app.py:97-116 | the index page for non-URL paths; otherwise the unquoted, fixed URL is scraped with the query's options |
| FirecrawlAdapter.ReadGetWithPrefix | services/firecrawl-adapter/app.py:55-69 | the unquoted, fixed URL is scraped with the query's options |
| FirecrawlAdapter.BodyOptions | services/firecrawl-adapter/app.py:43-49 | the five keys, each taken from the body when present. Otherwise mobile, screenshot and includeHtml are false, onlyMainContent is true and formats is ["markdown"] |
| FirecrawlAdapter.ReadPost | services/firecrawl-adapter/app.py:31-53 | an unreadable body is a 500 with its message. A falsy body or a dict without "url" is a 400, and a dict with "url" is scraped with the body's options. A list or string is a 400 unless it contains "url", which is a 500; a number or `true` is a 500 |
| OcrService.HasCjk | services/paddleocr/ocr-service.py:94-98 | true exactly when some character is in U+4E00..U+9FFF |
| OcrService.DetectLanguage | services/paddleocr/ocr-service.py:94-98 | "ch" exactly when the text holds a CJK character, "en" otherwise |
| OcrService.LanguageOfJoinedLines | services/paddleocr/ocr-service.py:149-151 | the joined text holds CJK exactly when some line does |
| OcrService.DecodeBase64Image | services/paddleocr/ocr-service.py:70-91 | a non-image data URI is refused, and every error is a 400. Success needs a comma |
| OcrService.PayloadAfterFirstComma | services/paddleocr/ocr-service.py:78-81 | the payload after the first comma is what is decoded |
| OcrService.FirstPageLines | services/paddleocr/ocr-service.py:122 | lines exactly when the first page exists and is non-empty |
| OcrService.SumScoresBounded | services/paddleocr/ocr-service.py:134-141 | scores in 0..1 sum to between 0 and the line count |
| OcrService.CollectLines | services/paddleocr/ocr-service.py:132-147 | the loop gives one text and one block per line in order, and the score sum |
| OcrService.ExtractText | services/paddleocr/ocr-service.py:107-165 | decode errors pass on, and an engine crash is a 500. No lines gives the empty response; otherwise, with the corrected line reading of Findings row 3, the joined text, blocks, mean score and language |
| OcrService.LineTexts | services/paddleocr/ocr-service.py:136-140 | one text per line, in order |
| OcrService.TextSplitsIntoLines | services/paddleocr/ocr-service.py:149 | the response text splits back into the line texts |
| OcrService.ResponseLanguage | services/paddleocr/ocr-service.py:149-151 | the language is "ch" exactly when some line holds CJK |
| OcrService.ConfidenceInRange | services/paddleocr/ocr-service.py:150 | the mean of scores in 0..1 is in 0..1 |
| OcrService.ScoreAsWritten | services/paddleocr/ocr-service.py:137-138 | as written, only a tuple with a float second element yields a score; a float is "not subscriptable" |
| OcrService.EveryTextRefusedAsWritten | services/paddleocr/ocr-service.py:136-141 | as written, every non-empty page fails on its first line |
| OcrService.ScoreOf | services/paddleocr/ocr-service.py:137-138 | as intended, the score is the pair's second element |
| OcrService.EnginePairScore | services/paddleocr/ocr-service.py:137-138 | as intended, each engine pair yields its line's own score |

## Left out

- Logging, durations and `Date.now()` are left out: the fresh-view and search summaries carry no duration, and the OCR tool's `processingTime` is not produced.
- The proxy dispatcher (`createProxyAgent`) is left out. proxy.ts is not part of this model, and it changes only how the request travels.
- The URL cache's expiry and size policy are left out. cache.ts is not part of this model, and the cache is an unbounded map from URL to text.
- The abort timer is left out. A read's timeout is modelled as a fetch that rejects with an AbortError.
- `JSON.stringify` formatting is left out. Results are datatypes, not their JSON text.
- index.ts: the resource handlers, log level, inactivity timer, shutdown handlers, HTTP app, TTY banner and the missing-key warning at start-up are left out. They are I/O with no decision in them.
- createNoResultsMessage (src/error-handler.ts:78-80) is left out. The core never calls it; an empty search answers an empty list.
- readAsBase64's "Failed to read file" wrapping is inside the `read` parameter, which returns the final message.
- McpServer.ReadOptions: it floors fractional startChar and maxLength separately. `slice` truncates their sum instead, so a fractional pair can end one character off.
- McpServer.CallTool: for a search call it states only the request body. The whole search outcome is stated by Search.PerformWebSearch, which a method contract cannot name.
- Search.SearchAnswer: a body that is not JSON always reports "[Could not read response text]", because `json()` has already consumed the body by the time `text()` is read. That placeholder is the modelled message.
- ImageOcr.ExtractTextFromImage: the OCR tool is not registered in the dispatch, as in the source. It is modelled on its own.
- ImageOcr.OcrRequestFor: the language is sent but the service ignores it (OcrService.ExtractText never reads it).
- McpServer.VisionArgsAsWritten: the validated record holds only the schema's fields, so a call that adds an undeclared `files` array, which index.ts:153 would pass on, is not modelled.
- FirecrawlAdapter.PyInt: underscores between digits, non-ASCII whitespace and non-ASCII Unicode decimal digits (such as Arabic-Indic digits), which Python's `int()` also accepts, are not modelled.
- FirecrawlAdapter.PyTypeName: JSON numbers are reals here, so their written form is lost. The model calls an integral value such as `1.0` or `1e3` 'int', where Python's `json` gives a float and says 'float'.
- FirecrawlAdapter: the static index page content, the debug prints, the health route and the `options is None` default are left out. Every caller passes options. The API URL and key are parameters.
- OcrService: the lazy engine initialisation, the image-to-array conversion, `Image.open` (modelled as a decode outcome), the health route and `round()` of the scores are left out. Scores are exact reals.
- Floating point is left out: limits, scores and confidences are reals.
- Case-insensitive matching is ASCII-only. The section-heading regex is modelled with ASCII case folding, not Unicode folding.
- UrlReader.SectionOf: the heading is matched as literal text. Regular-expression metacharacters in it are not interpreted.
- Lengths and offsets count Unicode code points, while JavaScript's `length` and `slice` count UTF-16 code units. Text outside the Basic Multilingual Plane therefore differs from the source, as the lines below say member by member.
- UrlReader.JsSlice: offsets count code points, so a window that would cut a surrogate pair in the source, leaving a lone surrogate, is whole characters here.
- UrlReader.ApplyCharacterPagination: startChar, maxLength and the text's length are in code points rather than UTF-16 units.
- UrlReader.FreshViewIsStored: charCount is the number of code points, where `content.length` counts UTF-16 units.
- ImageGenerate.ValidateImageGenArgs: the 4000 limit counts code points. `prompt.length` counts UTF-16 units, so a prompt of 2001 emoji passes here but is refused by the source.
- ImageGenerate.PromptLimitIsInclusive: the 4000/4001 boundary is in code points, not UTF-16 units.
- UrlReader.Reader.FetchAndConvertToMarkdown: it uses the corrected abort-to-timeout mapping of Findings row 1. The source gives "🌐 Network Error: This operation was aborted" instead (UrlReader.AbortNeverTimesOutAsWritten).
- McpServer.CallTool: for understanding it hands over the corrected one-element file list of Findings row 2. The source refuses every such call that follows the schema with "At least one file is required" (McpServer.UnderstandAlwaysRefusedAsWritten).
- OcrService.ExtractText: on a non-empty page it uses the corrected `(text, score)` reading of Findings row 3. The source as written answers 500 (OcrService.EveryTextRefusedAsWritten).
- The image_understand tool schema says `thinking` defaults to true (src/types.ts:107-111). understandImage defaults it to false (src/tools/image-understand.ts:93), and the model follows the code.
- index.ts:135 says the read uses a 30 s default. The code passes `undefined`, so fetchAndConvertToMarkdown's own 10000 ms default applies, and the model follows the code.

## Findings

| source | as written | input that shows it | evidently intended | confidence | as-written member | corrected member |
|---|---|---|---|---|---|---|
| src/url-reader.ts:194-205 | the inner catch around `fetch` turns every rejection into a network error, including the AbortError fired by the timeout. The AbortError branch at lines 263-266 is therefore never reached | a read whose timer fires: fetch rejects with name "AbortError", message "This operation was aborted" → "🌐 Network Error: This operation was aborted" | a timeout error naming the host and the limit | high, not executed | UrlReader.AbortNeverTimesOutAsWritten | UrlReader.AbortIsTimeout |
| src/index.ts:153 | the dispatch validates `{file, prompt, thinking}` and hands it to understandImage, which destructures `files`. That is undefined, so every call whose arguments follow the tool schema throws "At least one file is required" (src/tools/image-understand.ts:93-97). The raw arguments object is passed on, so a call that also carries an undeclared `files` array gets through | `{file: "photo.png", prompt: "describe"}` → "At least one file is required" | the single file passed as a one-element list | high, not executed | McpServer.UnderstandAlwaysRefusedAsWritten | McpServer.UnderstandReachesBuild |
| services/paddleocr/ocr-service.py:137-138 | `text, confidence_data = line[1]` already gives the float score. `confidence_data[1]` then subscripts that float | any image with one recognised line `[box, ("hello", 0.98)]` → 500 "OCR processing failed: 'float' object is not subscriptable" | `text, score = line[1]` | medium (assumes the PaddleOCR 2.x result shape), not executed | OcrService.EveryTextRefusedAsWritten | OcrService.EnginePairScore |

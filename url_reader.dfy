/**
 * The URL reader (src/url-reader.ts): the content extractor that derives a
 * view of a markdown document (character window, heading section,
 * paragraph range, heading list) and the cache-first orchestration that
 * fetches a page through the gateway.
 */
module UrlReader {
  import opened Base
  import opened Text
  import opened Js
  import opened ErrorHandler

  /** The pagination options of one read; absent options are None. */
  datatype PaginationOptions = PaginationOptions(
    startChar: Option<int>,
    maxLength: Option<int>,
    section: Option<string>,
    paragraphRange: Option<string>,
    readHeadings: bool)

  const NoOptions: PaginationOptions := PaginationOptions(None, None, None, None, false)

  // ---------------------------------------------------------------------
  // Character pagination

  /** `s.slice(start, end)`: negative positions count from the end; empty when end is not after start. */
  function JsSlice(s: string, start: int, end: int): (r: string)
    ensures |r| <= |s|
    ensures 0 <= start <= end <= |s| ==> r == s[start..end]
  {
    var a := if start < 0 then Max(0, |s| + start) else Min(start, |s|);
    var b := if end < 0 then Max(0, |s| + end) else Min(end, |s|);
    if a >= b then "" else s[a..b]
  }

  /**
   * applyCharacterPagination: the window of at most maxLength characters
   * from startChar; a missing or zero maxLength means "to the end".
   */
  function ApplyCharacterPagination(content: string, startChar: int, maxLength: Option<int>): (r: string)
    ensures startChar >= |content| ==> r == ""
    ensures startChar < |content| && (maxLength.None? || maxLength.value == 0) ==>
      r == content[Max(0, startChar)..]
    ensures startChar < |content| && maxLength.Some? && maxLength.value > 0 ==>
      r == content[Max(0, startChar)..Min(|content|, Max(0, startChar) + maxLength.value)]
    ensures maxLength.Some? && maxLength.value > 0 ==> |r| <= maxLength.value
    ensures |r| <= |content|
  {
    if startChar >= |content| then ""
    else
      var start := Max(0, startChar);
      var end := if maxLength.Some? && maxLength.value != 0 then Min(|content|, start + maxLength.value) else |content|;
      JsSlice(content, start, end)
  }

  /** A negative maxLength is a slice end that counts from the end of the document. */
  lemma NegativeMaxLengthCountsFromEnd(content: string, startChar: nat, m: int)
    requires startChar < |content| && m < 0 && startChar + m < 0 && |content| + startChar + m > startChar
    ensures ApplyCharacterPagination(content, startChar, Some(m)) == content[startChar..|content| + startChar + m]
  {
  }

  // ---------------------------------------------------------------------
  // Heading list

  /** The test /^#{1,6}\s/: one to six '#' followed by a whitespace character. */
  predicate IsHeadingLine(line: string) {
    var k := LeadingRun(line, '#');
    1 <= k <= 6 && k < |line| && IsJsWhitespace(line[k])
  }

  /** `lines.filter(IsHeadingLine)`, in the original order. */
  function HeadingLines(lines: seq<string>): (hs: seq<string>)
    ensures forall h :: h in hs <==> h in lines && IsHeadingLine(h)
    ensures |hs| <= |lines|
  {
    if lines == [] then []
    else if IsHeadingLine(lines[0]) then [lines[0]] + HeadingLines(lines[1..])
    else HeadingLines(lines[1..])
  }

  const NoHeadingsMessage: string := "No headings found in the content."

  /** extractHeadings: the heading lines joined by newlines, or a fixed message when there are none. */
  function ExtractHeadings(content: string): (r: string)
    ensures r == NoHeadingsMessage <==> forall line :: line in Split(content, "\n") ==> !IsHeadingLine(line)
    ensures r != NoHeadingsMessage ==> r == Join(HeadingLines(Split(content, "\n")), "\n")
  {
    var hs := HeadingLines(Split(content, "\n"));
    if hs == [] then NoHeadingsMessage
    else
      var r := Join(hs, "\n");
      JoinStartsWithFirst(hs, "\n");
      assert r[0] == '#' by { assert r[..|hs[0]|] == hs[0]; assert hs[0] in hs; }
      r
  }

  /** The heading list, split back into lines, is exactly the heading lines of the document, in order. */
  lemma {:induction false} HeadingListLines(content: string)
    requires ExtractHeadings(content) != NoHeadingsMessage
    ensures Split(ExtractHeadings(content), "\n") == HeadingLines(Split(content, "\n"))
  {
    var lines := Split(content, "\n");
    var hs := HeadingLines(lines);
    SplitPiecesAvoidSeparator(content, '\n');
    assert "\n" == ['\n'];
    forall k, i | 0 <= k < |hs| && 0 <= i < |hs[k]| ensures hs[k][i] != '\n' {
      assert hs[k] in lines;
      var j :| 0 <= j < |lines| && lines[j] == hs[k];
    }
    SplitJoin(hs, '\n');
  }

  // ---------------------------------------------------------------------
  // Section extraction

  /** The characters the regex `.` does not match (besides '\n', which the line split removed). */
  predicate IsLineTerminator(c: char) {
    c == '\n' || c == '\r' || c == '\U{2028}' || c == '\U{2029}'
  }

  /**
   * The section regex as built by the template literal: `\s` is lost, so a
   * line matches when it starts with '#', the heading text occurs after that
   * '#' (ignoring case), and every character is matched by `.`.
   */
  predicate MatchesSectionHeading(line: string, heading: string) {
    |line| > 0 && line[0] == '#'
    && (forall i :: 0 <= i < |line| ==> !IsLineTerminator(line[i]))
    && ContainsIgnoreCase(line[1..], heading)
  }

  /** A line that closes a section of the given level: a run of '#' no longer than the level. */
  predicate ClosesSection(line: string, level: nat) {
    1 <= LeadingRun(line, '#') <= level
  }

  /** The index of the first line from i on that matches the heading, or |lines|. */
  function FirstMatchFrom(lines: seq<string>, heading: string, i: nat): (k: nat)
    requires i <= |lines|
    ensures i <= k <= |lines|
    ensures forall j :: i <= j < k ==> !MatchesSectionHeading(lines[j], heading)
    ensures k < |lines| ==> MatchesSectionHeading(lines[k], heading)
    decreases |lines| - i
  {
    if i == |lines| || MatchesSectionHeading(lines[i], heading) then i
    else FirstMatchFrom(lines, heading, i + 1)
  }

  /** The index of the first line from i on that closes a section of the level, or |lines|. */
  function SectionEndFrom(lines: seq<string>, level: nat, i: nat): (k: nat)
    requires i <= |lines|
    ensures i <= k <= |lines|
    ensures forall j :: i <= j < k ==> !ClosesSection(lines[j], level)
    ensures k < |lines| ==> ClosesSection(lines[k], level)
    decreases |lines| - i
  {
    if i == |lines| || ClosesSection(lines[i], level) then i
    else SectionEndFrom(lines, level, i + 1)
  }

  /** The section of a document under the first matching heading; "" when no line matches. */
  function SectionOf(content: string, heading: string): (r: string)
    ensures r == "" <==> forall line :: line in Split(content, "\n") ==> !MatchesSectionHeading(line, heading)
  {
    var lines := Split(content, "\n");
    var s := FirstMatchFrom(lines, heading, 0);
    if s == |lines| then ""
    else
      var e := SectionEndFrom(lines, LeadingRun(lines[s], '#'), s + 1);
      var r := Join(lines[s..e], "\n");
      JoinStartsWithFirst(lines[s..e], "\n");
      assert r[0] == '#' by { assert r[..|lines[s]|] == lines[s]; }
      r
  }

  /**
   * A found section, split back into lines, is the run of document lines from
   * the first matching heading (FirstMatchFrom) up to, not including, the
   * first later line that closes it (SectionEndFrom), or to the end.
   */
  lemma {:induction false} SectionLines(content: string, heading: string)
    requires SectionOf(content, heading) != ""
    ensures var lines := Split(content, "\n");
      var s := FirstMatchFrom(lines, heading, 0);
      s < |lines|
      && Split(SectionOf(content, heading), "\n") == lines[s..SectionEndFrom(lines, LeadingRun(lines[s], '#'), s + 1)]
  {
    var lines := Split(content, "\n");
    var s := FirstMatchFrom(lines, heading, 0);
    assert s < |lines|;
    var e := SectionEndFrom(lines, LeadingRun(lines[s], '#'), s + 1);
    SplitPiecesAvoidSeparator(content, '\n');
    assert "\n" == ['\n'];
    SplitJoin(lines[s..e], '\n');
  }

  /**
   * extractSection: one loop finds the first matching heading, a second the
   * next heading of the same or a shallower level.
   */
  method ExtractSection(markdownContent: string, sectionHeading: string) returns (r: string)
    ensures r == SectionOf(markdownContent, sectionHeading)
    ensures r == "" <==> forall line :: line in Split(markdownContent, "\n") ==> !MatchesSectionHeading(line, sectionHeading)
  {
    var lines := Split(markdownContent, "\n");
    var startIndex := -1;
    var currentLevel := 0;
    var i := 0;
    while i < |lines|
      invariant 0 <= i <= |lines|
      invariant startIndex == -1
      invariant forall j :: 0 <= j < i ==> !MatchesSectionHeading(lines[j], sectionHeading)
    {
      if MatchesSectionHeading(lines[i], sectionHeading) {
        startIndex := i;
        currentLevel := LeadingRun(lines[i], '#');
        break;
      }
      i := i + 1;
    }
    if startIndex == -1 {
      assert FirstMatchFrom(lines, sectionHeading, 0) == |lines|;
      return "";
    }
    assert startIndex == FirstMatchFrom(lines, sectionHeading, 0);

    var endIndex := |lines|;
    i := startIndex + 1;
    while i < |lines|
      invariant startIndex + 1 <= i <= |lines|
      invariant endIndex == |lines|
      invariant forall j :: startIndex + 1 <= j < i ==> !ClosesSection(lines[j], currentLevel)
    {
      var line := lines[i];
      var run := LeadingRun(line, '#');
      if run > 0 && run <= currentLevel {
        endIndex := i;
        break;
      }
      i := i + 1;
    }
    assert endIndex == SectionEndFrom(lines, currentLevel, startIndex + 1);
    r := Join(lines[startIndex..endIndex], "\n");
  }

  // ---------------------------------------------------------------------
  // Paragraph ranges

  /** A parsed paragraph range: "N", "N-" or "N-M" (1-based). */
  datatype RangeSpec = Single(n: nat) | From(n: nat) | Between(n: nat, m: nat)

  /** The regex /^(\d+)(?:-(\d*))?$/ with parseInt on its groups. */
  function ParseRange(range: string): Option<RangeSpec> {
    var k := IndexOfChar(range, '-');
    var first := range[..k];
    if first == "" || !AllDigits(first) then None
    else if k == |range| then Some(Single(DigitsValue(first)))
    else
      var rest := range[k + 1..];
      if !AllDigits(rest) then None
      else if rest == "" then Some(From(DigitsValue(first)))
      else Some(Between(DigitsValue(first), DigitsValue(rest)))
  }

  /** The canonical text of a range. */
  function FormatRange(spec: RangeSpec): string {
    match spec
    case Single(n) => NatToString(n)
    case From(n) => NatToString(n) + "-"
    case Between(n, m) => NatToString(n) + "-" + NatToString(m)
  }

  lemma DigitsHaveNoDash(s: string)
    requires AllDigits(s)
    ensures forall j :: 0 <= j < |s| ==> s[j] != '-'
  {
    assert forall j :: 0 <= j < |s| ==> IsDigit(s[j]);
  }

  /** Parsing the canonical text of a range gives the range back. */
  lemma {:induction false} ParseFormatRange(spec: RangeSpec)
    ensures ParseRange(FormatRange(spec)) == Some(spec)
  {
    var a := NatToString(spec.n);
    DigitsValueOfNatToString(spec.n);
    DigitsHaveNoDash(a);
    var text := FormatRange(spec);
    match spec
    case Single(n) =>
      IndexOfCharConcat(a, "", '-');
      assert a + "" == a;
      assert text[..|a|] == a;
    case From(n) =>
      assert text == a + "-";
      IndexOfCharConcat(a, "-", '-');
      assert text[..|a|] == a;
      assert text[|a| + 1..] == "";
    case Between(n, m) =>
      var b := NatToString(m);
      DigitsValueOfNatToString(m);
      assert text == a + ("-" + b);
      IndexOfCharConcat(a, "-" + b, '-');
      assert text[..|a|] == a;
      assert text[|a| + 1..] == b;
  }

  /** `pieces.filter(p => p.trim().length > 0)`. */
  function NonBlankPieces(pieces: seq<string>): (ps: seq<string>)
    ensures forall p :: p in ps <==> p in pieces && !IsBlank(p)
    ensures |ps| <= |pieces|
  {
    if pieces == [] then []
    else if !IsBlank(pieces[0]) then [pieces[0]] + NonBlankPieces(pieces[1..])
    else NonBlankPieces(pieces[1..])
  }

  /** The non-blank chunks of a document between "\n\n" separators. */
  function Paragraphs(content: string): seq<string> {
    NonBlankPieces(Split(content, "\n\n"))
  }

  /** The cases in which extractParagraphRange yields "". */
  predicate RangeMisses(content: string, range: string) {
    match ParseRange(range)
    case None => true
    case Some(spec) => spec.n == 0 || spec.n > |Paragraphs(content)| || (spec.Between? && spec.m < spec.n)
  }

  /** Joining paragraphs when there is at least one gives a non-empty text. */
  lemma JoinParagraphsNonEmpty(ps: seq<string>, sep: string)
    requires |ps| >= 1 && !IsBlank(ps[0])
    ensures Join(ps, sep) != ""
  {
    JoinStartsWithFirst(ps, sep);
  }

  /**
   * extractParagraphRange: "N" is paragraph N, "N-" paragraphs N to the end,
   * "N-M" the slice from N-1 to M (paragraphs N..M, clipped), joined by a
   * blank line.
   */
  function ExtractParagraphRange(markdownContent: string, range: string): (r: string)
    ensures r == "" <==> RangeMisses(markdownContent, range)
  {
    var ps := Paragraphs(markdownContent);
    match ParseRange(range)
    case None => ""
    case Some(spec) =>
      var start := spec.n - 1;
      if start < 0 || start >= |ps| then ""
      else
        assert ps[start] in ps;
        match spec
        case Single(_) => ps[start]
        case From(_) =>
          JoinParagraphsNonEmpty(ps[start..], "\n\n");
          Join(ps[start..], "\n\n")
        case Between(_, m) =>
          if m <= start then ""
          else
            JoinParagraphsNonEmpty(ps[start..Min(m, |ps|)], "\n\n");
            Join(ps[start..Min(m, |ps|)], "\n\n")
  }

  /** "N", for N within the document, is paragraph N. */
  lemma SingleSelectsParagraph(content: string, n: nat)
    requires 1 <= n <= |Paragraphs(content)|
    ensures ExtractParagraphRange(content, FormatRange(Single(n))) == Paragraphs(content)[n - 1]
  {
    ParseFormatRange(Single(n));
  }

  /** "N-", for N within the document, is paragraphs N to the last, joined by a blank line. */
  lemma FromSelectsToEnd(content: string, n: nat)
    requires 1 <= n <= |Paragraphs(content)|
    ensures ExtractParagraphRange(content, FormatRange(From(n))) == Join(Paragraphs(content)[n - 1..], "\n\n")
  {
    ParseFormatRange(From(n));
  }

  /** "N-M", for N within the document and M >= N, is paragraphs N to M, clipped to the last, joined by a blank line. */
  lemma BetweenSelectsSlice(content: string, n: nat, m: nat)
    requires 1 <= n <= |Paragraphs(content)| && n <= m
    ensures ExtractParagraphRange(content, FormatRange(Between(n, m)))
         == Join(Paragraphs(content)[n - 1..Min(m, |Paragraphs(content)|)], "\n\n")
  {
    ParseFormatRange(Between(n, m));
  }

  /** "N" and "N-N" select the same paragraph. */
  lemma SingleIsDegenerateRange(content: string, n: nat)
    ensures ExtractParagraphRange(content, FormatRange(Single(n))) == ExtractParagraphRange(content, FormatRange(Between(n, n)))
  {
    ParseFormatRange(Single(n));
    ParseFormatRange(Between(n, n));
    var ps := Paragraphs(content);
    if 1 <= n <= |ps| {
      assert ps[n - 1..Min(n, |ps|)] == [ps[n - 1]];
    }
  }

  /** "N-" reaches the last paragraph: it is "N-count" for the document's paragraph count. */
  lemma OpenRangeReachesEnd(content: string, n: nat)
    ensures ExtractParagraphRange(content, FormatRange(From(n)))
         == ExtractParagraphRange(content, FormatRange(Between(n, |Paragraphs(content)|)))
  {
    var ps := Paragraphs(content);
    ParseFormatRange(From(n));
    ParseFormatRange(Between(n, |ps|));
    if 1 <= n <= |ps| {
      assert ps[n - 1..Min(|ps|, |ps|)] == ps[n - 1..];
    }
  }

  /** An upper bound past the last paragraph is clipped to the paragraph count. */
  lemma UpperBoundClipped(content: string, n: nat, m: nat)
    requires m >= |Paragraphs(content)|
    ensures ExtractParagraphRange(content, FormatRange(Between(n, m)))
         == ExtractParagraphRange(content, FormatRange(Between(n, |Paragraphs(content)|)))
  {
    var ps := Paragraphs(content);
    ParseFormatRange(Between(n, m));
    ParseFormatRange(Between(n, |ps|));
    assert Min(m, |ps|) == Min(|ps|, |ps|);
  }

  // ---------------------------------------------------------------------
  // applyPaginationOptions

  function SectionNotFound(section: string): string {
    "Section \"" + section + "\" not found in the content."
  }

  function RangeInvalid(range: string): string {
    "Paragraph range \"" + range + "\" is invalid or out of bounds."
  }

  /**
   * The view the options select: readHeadings alone if set; otherwise the
   * section, then the paragraph range, then the character window, with a
   * miss of the first two reported by its diagnostic.
   */
  function Paginate(content: string, opts: PaginationOptions): string {
    if opts.readHeadings then ExtractHeadings(content)
    else if IsSet(opts.section) && SectionOf(content, opts.section.value) == "" then
      SectionNotFound(opts.section.value)
    else
      var afterSection := if IsSet(opts.section) then SectionOf(content, opts.section.value) else content;
      if IsSet(opts.paragraphRange) && ExtractParagraphRange(afterSection, opts.paragraphRange.value) == "" then
        RangeInvalid(opts.paragraphRange.value)
      else
        var afterRange := if IsSet(opts.paragraphRange) then ExtractParagraphRange(afterSection, opts.paragraphRange.value)
                          else afterSection;
        if opts.startChar.Some? || opts.maxLength.Some? then
          ApplyCharacterPagination(afterRange, opts.startChar.GetOr(0), opts.maxLength)
        else afterRange
  }

  /** readHeadings overrides every other option. */
  lemma ReadHeadingsOverrides(content: string, opts: PaginationOptions)
    requires opts.readHeadings
    ensures Paginate(content, opts) == Paginate(content, NoOptions.(readHeadings := true))
    ensures Paginate(content, opts) == ExtractHeadings(content)
  {
  }

  /** Without options the document comes back unchanged. */
  lemma NoOptionsIsIdentity(content: string)
    ensures Paginate(content, NoOptions) == content
  {
  }

  /** A section miss is reported whatever the range and window options are. */
  lemma SectionMissStops(content: string, opts: PaginationOptions)
    requires !opts.readHeadings && IsSet(opts.section)
    requires forall line :: line in Split(content, "\n") ==> !MatchesSectionHeading(line, opts.section.value)
    ensures Paginate(content, opts) == SectionNotFound(opts.section.value)
  {
  }

  /** A range miss is reported whatever the window options are. */
  lemma RangeMissStops(content: string, opts: PaginationOptions)
    requires !opts.readHeadings && !IsSet(opts.section) && IsSet(opts.paragraphRange)
    requires RangeMisses(content, opts.paragraphRange.value)
    ensures Paginate(content, opts) == RangeInvalid(opts.paragraphRange.value)
  {
  }

  /** The character window applies to the section found, not to the whole document. */
  lemma WindowAppliesToSection(content: string, section: string, startChar: int, maxLength: int)
    requires section != "" && SectionOf(content, section) != ""
    ensures Paginate(content, PaginationOptions(Some(startChar), Some(maxLength), Some(section), None, false))
         == ApplyCharacterPagination(SectionOf(content, section), startChar, Some(maxLength))
  {
  }

  /** applyPaginationOptions: reassigns the result step by step, returning early on a miss. */
  method ApplyPaginationOptions(markdownContent: string, options: PaginationOptions) returns (result: string)
    ensures result == Paginate(markdownContent, options)
  {
    result := markdownContent;
    if options.readHeadings {
      return ExtractHeadings(result);
    }
    if IsSet(options.section) {
      result := ExtractSection(result, options.section.value);
      if result == "" {
        return SectionNotFound(options.section.value);
      }
    }
    if IsSet(options.paragraphRange) {
      result := ExtractParagraphRange(result, options.paragraphRange.value);
      if result == "" {
        return RangeInvalid(options.paragraphRange.value);
      }
    }
    if options.startChar.Some? || options.maxLength.Some? {
      result := ApplyCharacterPagination(result, options.startChar.GetOr(0), options.maxLength);
    }
  }

  // ---------------------------------------------------------------------
  // fetchAndConvertToMarkdown

  /** The gateway used when GATEWAY_URL is unset or empty. */
  const DefaultGatewayUrl: string := "http://115.190.91.253:80"

  /** The timeout a read uses when the caller passes none. */
  const DefaultTimeoutMs: nat := 10000

  /** `process.env.GATEWAY_URL || DefaultGatewayUrl`. */
  function GatewayBase(env: Env): (g: string)
    ensures EnvSet(env, "GATEWAY_URL") ==> g == env["GATEWAY_URL"]
    ensures !EnvSet(env, "GATEWAY_URL") ==> g == DefaultGatewayUrl
    ensures g != ""
  {
    if EnvSet(env, "GATEWAY_URL") then env["GATEWAY_URL"] else DefaultGatewayUrl
  }

  datatype Response = Response(status: nat, statusText: string, body: Body) {
    /** `response.ok`. */
    predicate Ok() { 200 <= status <= 299 }
  }

  /** How the gateway request ended: the fetch promise rejected, or a response arrived. */
  datatype FetchOutcome = Rejected(error: Thrown) | Responded(response: Response)

  /**
   * What a read hands back: the paginated cached text, the JSON summary of
   * a fresh fetch, the empty-content warning (returned, not thrown), or a
   * thrown MCPSearXNGError.
   */
  datatype ReadResult =
    | CachedView(text: string)
    | FreshView(url: string, content: string, charCount: nat, cached: bool)
    | EmptyContent(warning: string)
    | ReadError(error: McpError)

  /** The outcome of one read: the result, the cache afterwards and the gateway request made, if any. */
  datatype ReadStep = ReadStep(result: ReadResult, cache: map<string, string>, request: Option<string>)

  const EmptyContentField: string := "Gateway API returned empty content field."
  const ReadFailurePrefix: string := "Failed to read gateway response: "

  /**
   * The error a rejected fetch becomes, as written: the inner catch around
   * `fetch` wraps every rejection, an abort included, in a network error,
   * so the outer AbortError branch never sees one.
   */
  function RejectionAsWritten(err: Thrown, url: string, gatewayUrl: string, parse: string -> Option<Url>): (e: McpError)
    requires parse(url).Some?
    ensures e.Category() != Timeout
  {
    CreateNetworkError(err, ErrorContext(Some(url), Some(gatewayUrl)), parse)
  }

  /** The aborted fetch that shows the timeout classification is unreachable as written. */
  lemma AbortNeverTimesOutAsWritten(url: string, gatewayUrl: string, parse: string -> Option<Url>)
    requires parse(url).Some?
    ensures var abort := Thrown("AbortError", "This operation was aborted", None, None);
            RejectionAsWritten(abort, url, gatewayUrl, parse)
              == NetworkError("This operation was aborted", None)
  {
    NoCertificate();
  }

  /** The abort message has no 'c' at all, so it cannot mention a certificate. */
  lemma NoCertificate()
    ensures !Contains("This operation was aborted", "certificate")
  {
    var s := "This operation was aborted";
    forall i | 0 <= i <= |s| - |"certificate"|
      ensures !OccursAt(s, "certificate", i)
    {
      assert s[i] != 'c';
      assert s[i..i + |"certificate"|][0] == s[i] && "certificate"[0] == 'c';
    }
  }

  /**
   * The error a rejected fetch becomes, as intended: an abort raised by the
   * timeout is a timeout error naming the host and the limit; any other
   * rejection is a network error blamed on the gateway.
   */
  function Rejection(err: Thrown, url: string, gatewayUrl: string, timeoutMs: nat, parse: string -> Option<Url>): (e: McpError)
    requires parse(url).Some?
    ensures e.Category() == Timeout <==> err.name == "AbortError"
    ensures e.TimeoutError? ==> e == TimeoutError(parse(url).value.hostname, timeoutMs)
    ensures err.name != "AbortError" ==> e == RejectionAsWritten(err, url, gatewayUrl, parse)
  {
    if err.name == "AbortError" then TimeoutError(parse(url).value.hostname, timeoutMs)
    else RejectionAsWritten(err, url, gatewayUrl, parse)
  }

  /**
   * The result of reading a page whose URL parsed and missed the cache,
   * from the gateway's answer: HTTP failures, unreadable or empty JSON, a
   * non-text content field, blank text, or the paginated text.
   */
  function Answer(cache: map<string, string>, url: string, gatewayUrl: string, timeoutMs: nat,
                  opts: PaginationOptions, outcome: FetchOutcome, parse: string -> Option<Url>): ReadStep
    requires parse(url).Some?
  {
    match outcome
    case Rejected(err) => ReadStep(ReadError(Rejection(err, url, gatewayUrl, timeoutMs, parse)), cache, None)
    case Responded(response) =>
      if !response.Ok() then
        ReadStep(ReadError(CreateServerError(response.status, response.statusText, ErrorContext(Some(url), Some(gatewayUrl)))), cache, None)
      else match response.body
        case Unparsable(reason) =>
          ReadStep(ReadError(ContentError(ReadFailurePrefix + (if reason == "" then "Unknown error" else reason), url)), cache, None)
        case Parsed(json) =>
          if json.Null? || json.Undefined? then
            ReadStep(ReadError(ContentError(ReadFailurePrefix + NullRead(json, "content"), url)), cache, None)
          else
            var content := Get(json, "content");
            if !Truthy(content) then ReadStep(ReadError(ContentError(EmptyContentField, url)), cache, None)
            else if !content.Str? then ReadStep(ReadError(UnexpectedError("markdownContent.trim is not a function")), cache, None)
            else if IsBlank(content.s) then ReadStep(EmptyContent(EmptyContentWarning(url)), cache, None)
            else
              var view := Paginate(content.s, opts);
              ReadStep(FreshView(url, view, |view|, false), cache[url := content.s], None)
  }

  /**
   * fetchAndConvertToMarkdown, cache first: a cached page is paginated
   * without a request; otherwise the URL must parse, one request goes to
   * `<gateway>/api/read/<encoded url>`, and its answer decides the result.
   * `encode` is encodeURIComponent and `fetch` the gateway's answer to a
   * request URL.
   */
  function ReadSpec(cache: map<string, string>, url: string, timeoutMs: nat, opts: PaginationOptions, env: Env,
                    parse: string -> Option<Url>, encode: string -> string, fetch: string -> FetchOutcome): ReadStep
  {
    if url in cache then ReadStep(CachedView(Paginate(cache[url], opts)), cache, None)
    else if parse(url).None? then ReadStep(ReadError(UrlFormatError(url)), cache, None)
    else
      var gatewayUrl := GatewayBase(env);
      var request := gatewayUrl + "/api/read/" + encode(url);
      Answer(cache, url, gatewayUrl, timeoutMs, opts, fetch(request), parse).(request := Some(request))
  }

  /** The module-level URL cache, with the read that consults and fills it. */
  class Reader {
    /** Page URL to the unpaginated markdown the gateway returned for it. */
    var cache: map<string, string>

    constructor()
      ensures cache == map[]
    {
      cache := map[];
    }

    /** One read; the cache changes only when fresh, non-blank text arrives. */
    method FetchAndConvertToMarkdown(url: string, timeoutMs: nat, opts: PaginationOptions, env: Env,
                                     parse: string -> Option<Url>, encode: string -> string,
                                     fetch: string -> FetchOutcome)
      returns (result: ReadResult, request: Option<string>)
      modifies this
      ensures var step := ReadSpec(old(cache), url, timeoutMs, opts, env, parse, encode, fetch);
              result == step.result && cache == step.cache && request == step.request
    {
      request := None;
      if url in cache {
        var view := ApplyPaginationOptions(cache[url], opts);
        return CachedView(view), None;
      }
      if parse(url).None? {
        return ReadError(UrlFormatError(url)), None;
      }
      var gatewayUrl := GatewayBase(env);
      var api := gatewayUrl + "/api/read/" + encode(url);
      request := Some(api);
      var outcome := fetch(api);
      if outcome.Rejected? {
        return ReadError(Rejection(outcome.error, url, gatewayUrl, timeoutMs, parse)), request;
      }
      var response := outcome.response;
      if !response.Ok() {
        var e := CreateServerError(response.status, response.statusText, ErrorContext(Some(url), Some(gatewayUrl)));
        return ReadError(e), request;
      }
      if response.body.Unparsable? {
        var reason := if response.body.reason == "" then "Unknown error" else response.body.reason;
        return ReadError(ContentError(ReadFailurePrefix + reason, url)), request;
      }
      var json := response.body.value;
      if json.Null? || json.Undefined? {
        return ReadError(ContentError(ReadFailurePrefix + NullRead(json, "content"), url)), request;
      }
      var content := Get(json, "content");
      if !Truthy(content) {
        return ReadError(ContentError(EmptyContentField, url)), request;
      }
      if !content.Str? {
        return ReadError(UnexpectedError("markdownContent.trim is not a function")), request;
      }
      var markdownContent := content.s;
      if IsBlank(markdownContent) {
        return EmptyContent(EmptyContentWarning(url)), request;
      }
      cache := cache[url := markdownContent];
      var view := ApplyPaginationOptions(markdownContent, opts);
      result := FreshView(url, view, |view|, false);
    }
  }

  // ---------------------------------------------------------------------
  // Properties of a read

  /** A cached page is served without any request and leaves the cache as it was. */
  lemma CacheHitMakesNoRequest(cache: map<string, string>, url: string, timeoutMs: nat, opts: PaginationOptions, env: Env,
                               parse: string -> Option<Url>, encode: string -> string, fetch: string -> FetchOutcome)
    requires url in cache
    ensures var step := ReadSpec(cache, url, timeoutMs, opts, env, parse, encode, fetch);
            step.request == None && step.cache == cache && step.result == CachedView(Paginate(cache[url], opts))
  {
  }

  /** Every read that misses the cache and has a well-formed URL asks the gateway exactly once, at its read endpoint. */
  lemma MissRequestsGateway(cache: map<string, string>, url: string, timeoutMs: nat, opts: PaginationOptions, env: Env,
                            parse: string -> Option<Url>, encode: string -> string, fetch: string -> FetchOutcome)
    requires url !in cache && parse(url).Some?
    ensures ReadSpec(cache, url, timeoutMs, opts, env, parse, encode, fetch).request
         == Some(GatewayBase(env) + "/api/read/" + encode(url))
  {
  }

  /**
   * A fresh view is the pagination of the unpaginated text now cached for
   * the URL; no other entry changes, the stored text is not blank, and the
   * summary says it was not cached.
   */
  lemma FreshViewIsStored(cache: map<string, string>, url: string, timeoutMs: nat, opts: PaginationOptions, env: Env,
                          parse: string -> Option<Url>, encode: string -> string, fetch: string -> FetchOutcome)
    ensures var step := ReadSpec(cache, url, timeoutMs, opts, env, parse, encode, fetch);
            step.result.FreshView? ==>
              url !in cache && url in step.cache && !IsBlank(step.cache[url])
              && step.cache == cache[url := step.cache[url]]
              && step.result.url == url
              && step.result.content == Paginate(step.cache[url], opts)
              && step.result.charCount == |step.result.content|
              && !step.result.cached
  {
  }

  /** Only a fresh view writes the cache: errors and the empty-content warning leave it untouched. */
  lemma OnlyFreshViewsWriteCache(cache: map<string, string>, url: string, timeoutMs: nat, opts: PaginationOptions, env: Env,
                                 parse: string -> Option<Url>, encode: string -> string, fetch: string -> FetchOutcome)
    ensures var step := ReadSpec(cache, url, timeoutMs, opts, env, parse, encode, fetch);
            !step.result.FreshView? ==> step.cache == cache
  {
  }

  /**
   * After a fresh read, reading the same URL again with any options is
   * served from the cache: no request, and the view is that of the text
   * fetched the first time.
   */
  lemma {:induction false} SecondReadHitsCache(cache: map<string, string>, url: string, timeoutMs: nat, opts: PaginationOptions,
                                               env: Env, parse: string -> Option<Url>, encode: string -> string,
                                               fetch: string -> FetchOutcome, opts2: PaginationOptions, fetch2: string -> FetchOutcome)
    requires ReadSpec(cache, url, timeoutMs, opts, env, parse, encode, fetch).result.FreshView?
    ensures var first := ReadSpec(cache, url, timeoutMs, opts, env, parse, encode, fetch);
            var second := ReadSpec(first.cache, url, timeoutMs, opts2, env, parse, encode, fetch2);
            second.request == None && second.cache == first.cache
            && second.result == CachedView(Paginate(first.cache[url], opts2))
            && first.result.content == Paginate(first.cache[url], opts)
  {
    FreshViewIsStored(cache, url, timeoutMs, opts, env, parse, encode, fetch);
  }

  /** An aborted request (the timeout firing) is a timeout error naming the host and the limit. */
  lemma AbortIsTimeout(cache: map<string, string>, url: string, timeoutMs: nat, opts: PaginationOptions, env: Env,
                       parse: string -> Option<Url>, encode: string -> string, fetch: string -> FetchOutcome)
    requires url !in cache && parse(url).Some?
    requires var request := GatewayBase(env) + "/api/read/" + encode(url);
             fetch(request).Rejected? && fetch(request).error.name == "AbortError"
    ensures ReadSpec(cache, url, timeoutMs, opts, env, parse, encode, fetch).result
         == ReadError(TimeoutError(parse(url).value.hostname, timeoutMs))
  {
  }

  /** Transport failures of a read always blame the gateway, never the target site. */
  lemma TransportErrorsBlameGateway(cache: map<string, string>, url: string, timeoutMs: nat, opts: PaginationOptions, env: Env,
                                    parse: string -> Option<Url>, encode: string -> string, fetch: string -> FetchOutcome)
    ensures var r := ReadSpec(cache, url, timeoutMs, opts, env, parse, encode, fetch).result;
            r.ReadError? && (r.error.ConnectionError? || r.error.TransportTimeoutError? || r.error.SslError? || r.error.ServerError?) ==>
              r.error.target == "Gateway server"
  {
  }

  /** A URL that does not parse is refused before any request, whatever the gateway would answer. */
  lemma MalformedUrlMakesNoRequest(cache: map<string, string>, url: string, timeoutMs: nat, opts: PaginationOptions, env: Env,
                                   parse: string -> Option<Url>, encode: string -> string, fetch: string -> FetchOutcome)
    requires url !in cache && parse(url).None?
    ensures var step := ReadSpec(cache, url, timeoutMs, opts, env, parse, encode, fetch);
            step.request == None && step.cache == cache && step.result == ReadError(UrlFormatError(url))
  {
  }
}

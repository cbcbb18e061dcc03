/**
 * The argument type guards of the four tools (src/types.ts): each accepts a
 * JSON value when its required fields have the right `typeof` and every
 * optional field is either absent or well typed. Each guard is paired with
 * the typed record it admits, an encoding of that record as a JSON object
 * and a decoder, so that a guard's verdict can be read as "this value is
 * the encoding of a valid record".
 */
module ToolArgs {
  import opened Base
  import opened Js

  /** hasProperty: a non-null object that has the key, whose value has the given `typeof`. */
  predicate HasProperty(args: JsValue, prop: string, ty: string) {
    TypeOf(args) == "object" && args != Null && Has(args, prop) && TypeOf(Get(args, prop)) == ty
  }

  /** `args.prop === undefined || typeof args.prop === ty`. */
  predicate AbsentOr(args: JsValue, prop: string, ty: string) {
    Get(args, prop) == Undefined || TypeOf(Get(args, prop)) == ty
  }

  /** An optional numeric field: absent, or a number no smaller than `low`. */
  predicate AbsentOrAtLeast(args: JsValue, prop: string, low: real) {
    Get(args, prop) == Undefined || (Get(args, prop).Num? && Get(args, prop).n >= low)
  }

  predicate IsSearXNGWebSearchArgs(args: JsValue) {
    HasProperty(args, "query", "string")
    && (Get(args, "limit") == Undefined || (Get(args, "limit").Num? && 1.0 <= Get(args, "limit").n <= 100.0))
  }

  predicate IsWebUrlReadArgs(args: JsValue) {
    HasProperty(args, "url", "string")
    && AbsentOrAtLeast(args, "startChar", 0.0)
    && AbsentOrAtLeast(args, "maxLength", 1.0)
    && AbsentOr(args, "section", "string")
    && AbsentOr(args, "paragraphRange", "string")
    && AbsentOr(args, "readHeadings", "boolean")
  }

  predicate IsImageUnderstandArgs(args: JsValue) {
    HasProperty(args, "prompt", "string") && HasProperty(args, "file", "string")
    && AbsentOr(args, "thinking", "boolean")
  }

  /** Only the type of `size` is checked here; its value is checked by the tool. */
  predicate IsImageGenerateArgs(args: JsValue) {
    HasProperty(args, "prompt", "string") && AbsentOr(args, "size", "string")
  }

  /** hasProperty holds exactly for plain objects holding the key with a value of that type. */
  lemma HasPropertyIsTypedField(args: JsValue, prop: string, ty: string)
    ensures HasProperty(args, prop, ty) <==> args.Obj? && prop in args.fields && TypeOf(args.fields[prop]) == ty
  {
  }

  // ---------------------------------------------------------------------
  // The records the guards admit

  datatype SearchArgs = SearchArgs(query: string, limit: Option<real>)

  datatype UrlReadArgs = UrlReadArgs(
    url: string,
    startChar: Option<real>,
    maxLength: Option<real>,
    section: Option<string>,
    paragraphRange: Option<string>,
    readHeadings: Option<bool>)

  datatype UnderstandArgs = UnderstandArgs(file: string, prompt: string, thinking: Option<bool>)

  datatype GenerateArgs = GenerateArgs(prompt: string, size: Option<string>)

  /** Adds a field only when the value is present, as JSON does with an absent property. */
  function WithField(fields: map<string, JsValue>, key: string, v: Option<JsValue>): (m: map<string, JsValue>)
    ensures v.Some? ==> m == fields[key := v.value]
    ensures v.None? ==> m == fields
  {
    if v.Some? then fields[key := v.value] else fields
  }

  function NumField(o: Option<real>): Option<JsValue> {
    if o.Some? then Some(Num(o.value)) else None
  }

  function StrField(o: Option<string>): Option<JsValue> {
    if o.Some? then Some(Str(o.value)) else None
  }

  function BoolField(o: Option<bool>): Option<JsValue> {
    if o.Some? then Some(Bool(o.value)) else None
  }

  /** The field read back: absent is None, otherwise the value of the expected type. */
  function OptNum(args: JsValue, key: string): Option<real> {
    if Get(args, key).Num? then Some(Get(args, key).n) else None
  }

  function OptStr(args: JsValue, key: string): Option<string> {
    if Get(args, key).Str? then Some(Get(args, key).s) else None
  }

  function OptBool(args: JsValue, key: string): Option<bool> {
    if Get(args, key).Bool? then Some(Get(args, key).b) else None
  }

  function SearchArgsJs(a: SearchArgs): JsValue {
    Obj(WithField(map["query" := Str(a.query)], "limit", NumField(a.limit)))
  }

  /** The record a search call carries, when the guard admits the value. */
  function SearchArgsOf(args: JsValue): (r: Option<SearchArgs>)
    ensures r.Some? <==> IsSearXNGWebSearchArgs(args)
    ensures r.Some? ==> Get(args, "query") == Str(r.value.query)
    ensures r.Some? && r.value.limit.Some? ==> 1.0 <= r.value.limit.value <= 100.0
  {
    if IsSearXNGWebSearchArgs(args) then Some(SearchArgs(Get(args, "query").s, OptNum(args, "limit"))) else None
  }

  /** A search record passes the guard iff its limit is absent or in [1, 100]; decoding gives it back. */
  lemma SearchArgsRoundTrip(a: SearchArgs)
    ensures IsSearXNGWebSearchArgs(SearchArgsJs(a)) <==> a.limit.None? || 1.0 <= a.limit.value <= 100.0
    ensures IsSearXNGWebSearchArgs(SearchArgsJs(a)) ==> SearchArgsOf(SearchArgsJs(a)) == Some(a)
  {
  }

  function UrlReadArgsJs(a: UrlReadArgs): JsValue {
    var m0 := map["url" := Str(a.url)];
    var m1 := WithField(m0, "startChar", NumField(a.startChar));
    var m2 := WithField(m1, "maxLength", NumField(a.maxLength));
    var m3 := WithField(m2, "section", StrField(a.section));
    var m4 := WithField(m3, "paragraphRange", StrField(a.paragraphRange));
    Obj(WithField(m4, "readHeadings", BoolField(a.readHeadings)))
  }

  /** The record a read call carries, when the guard admits the value. */
  function UrlReadArgsOf(args: JsValue): (r: Option<UrlReadArgs>)
    ensures r.Some? <==> IsWebUrlReadArgs(args)
    ensures r.Some? ==> Get(args, "url") == Str(r.value.url)
    ensures r.Some? && r.value.startChar.Some? ==> r.value.startChar.value >= 0.0
    ensures r.Some? && r.value.maxLength.Some? ==> r.value.maxLength.value >= 1.0
  {
    if IsWebUrlReadArgs(args) then
      Some(UrlReadArgs(Get(args, "url").s, OptNum(args, "startChar"), OptNum(args, "maxLength"),
                       OptStr(args, "section"), OptStr(args, "paragraphRange"), OptBool(args, "readHeadings")))
    else None
  }

  /**
   * A read record passes the guard iff its numeric options are in range
   * (absent options are always accepted); decoding gives it back.
   */
  lemma UrlReadArgsRoundTrip(a: UrlReadArgs)
    ensures IsWebUrlReadArgs(UrlReadArgsJs(a)) <==>
      (a.startChar.None? || a.startChar.value >= 0.0) && (a.maxLength.None? || a.maxLength.value >= 1.0)
    ensures IsWebUrlReadArgs(UrlReadArgsJs(a)) ==> UrlReadArgsOf(UrlReadArgsJs(a)) == Some(a)
  {
    var j := UrlReadArgsJs(a);
    assert j.Obj?;
    assert Get(j, "url") == Str(a.url);
    assert Get(j, "startChar") == if a.startChar.Some? then Num(a.startChar.value) else Undefined;
    assert Get(j, "maxLength") == if a.maxLength.Some? then Num(a.maxLength.value) else Undefined;
    assert Get(j, "section") == if a.section.Some? then Str(a.section.value) else Undefined;
    assert Get(j, "paragraphRange") == if a.paragraphRange.Some? then Str(a.paragraphRange.value) else Undefined;
    assert Get(j, "readHeadings") == if a.readHeadings.Some? then Bool(a.readHeadings.value) else Undefined;
  }

  function UnderstandArgsJs(a: UnderstandArgs): JsValue {
    Obj(WithField(map["file" := Str(a.file), "prompt" := Str(a.prompt)], "thinking", BoolField(a.thinking)))
  }

  function UnderstandArgsOf(args: JsValue): (r: Option<UnderstandArgs>)
    ensures r.Some? <==> IsImageUnderstandArgs(args)
    ensures r.Some? ==> Get(args, "file") == Str(r.value.file) && Get(args, "prompt") == Str(r.value.prompt)
  {
    if IsImageUnderstandArgs(args) then
      Some(UnderstandArgs(Get(args, "file").s, Get(args, "prompt").s, OptBool(args, "thinking")))
    else None
  }

  /** Every understand record passes the guard and decodes to itself. */
  lemma UnderstandArgsRoundTrip(a: UnderstandArgs)
    ensures UnderstandArgsOf(UnderstandArgsJs(a)) == Some(a)
  {
  }

  function GenerateArgsJs(a: GenerateArgs): JsValue {
    Obj(WithField(map["prompt" := Str(a.prompt)], "size", StrField(a.size)))
  }

  function GenerateArgsOf(args: JsValue): (r: Option<GenerateArgs>)
    ensures r.Some? <==> IsImageGenerateArgs(args)
    ensures r.Some? ==> Get(args, "prompt") == Str(r.value.prompt)
  {
    if IsImageGenerateArgs(args) then Some(GenerateArgs(Get(args, "prompt").s, OptStr(args, "size"))) else None
  }

  /** Every generate record passes the guard, whatever its size text, and decodes to itself. */
  lemma GenerateArgsRoundTrip(a: GenerateArgs)
    ensures GenerateArgsOf(GenerateArgsJs(a)) == Some(a)
  {
  }

  /** A field the guard does not look at never changes its verdict. */
  lemma ExtraFieldsIgnored(fields: map<string, JsValue>, key: string, v: JsValue)
    requires key !in fields
    requires key !in {"query", "limit", "url", "startChar", "maxLength", "section", "paragraphRange",
                      "readHeadings", "file", "prompt", "thinking", "size"}
    ensures IsSearXNGWebSearchArgs(Obj(fields[key := v])) == IsSearXNGWebSearchArgs(Obj(fields))
    ensures IsWebUrlReadArgs(Obj(fields[key := v])) == IsWebUrlReadArgs(Obj(fields))
    ensures IsImageUnderstandArgs(Obj(fields[key := v])) == IsImageUnderstandArgs(Obj(fields))
    ensures IsImageGenerateArgs(Obj(fields[key := v])) == IsImageGenerateArgs(Obj(fields))
  {
  }

  /** Neither null nor an array passes any guard. */
  lemma NonObjectsRejected(args: JsValue)
    requires !args.Obj?
    ensures !IsSearXNGWebSearchArgs(args) && !IsWebUrlReadArgs(args)
    ensures !IsImageUnderstandArgs(args) && !IsImageGenerateArgs(args)
  {
  }
}

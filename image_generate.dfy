/**
 * The image generation tool (src/tools/image-generate.ts): the argument
 * checks, run in a fixed order before any request, and the size defaulting
 * before the call to the generation API.
 */
module ImageGenerate {
  import opened Base
  import opened Text
  import opened Js
  import opened ToolArgs
  import opened Zhipu

  /** The accepted sizes, in the order the error message lists them. */
  const ValidSizes: seq<string> := ["1024x1024", "768x1344", "864x1152", "1344x768", "1152x864", "1440x720", "720x1440"]

  const MaxPromptLength: nat := 4000

  const PromptRequired: string := "Prompt is required"
  const PromptTooLong: string := "Prompt is too long (max 4000 characters)"

  function InvalidSize(size: string): string {
    "Invalid size: " + size + ". Must be one of: " + Join(ValidSizes, ", ")
  }

  /** The size check: a non-empty size must be one of the accepted ones. */
  predicate SizeAcceptable(size: Option<string>) {
    size.None? || size.value == "" || size.value in ValidSizes
  }

  /**
   * validateImageGenArgs: the message of the first failing check (blank
   * prompt, prompt over the limit, unknown size), or None.
   */
  function ValidateImageGenArgs(args: GenerateArgs): (r: Option<string>)
    ensures r.None? <==> !IsBlank(args.prompt) && |args.prompt| <= MaxPromptLength && SizeAcceptable(args.size)
    ensures IsBlank(args.prompt) ==> r == Some(PromptRequired)
    ensures !IsBlank(args.prompt) && |args.prompt| > MaxPromptLength ==> r == Some(PromptTooLong)
    ensures !IsBlank(args.prompt) && |args.prompt| <= MaxPromptLength && !SizeAcceptable(args.size) ==>
              r == Some(InvalidSize(args.size.value))
  {
    if IsBlank(args.prompt) then Some(PromptRequired)
    else if |args.prompt| > MaxPromptLength then Some(PromptTooLong)
    else if args.size.Some? && args.size.value != "" && args.size.value !in ValidSizes then Some(InvalidSize(args.size.value))
    else None
  }

  /** The size sent: an absent size becomes the default; an empty one is sent as it is. */
  function EffectiveSize(size: Option<string>): string {
    size.GetOr("1024x1024")
  }

  /** generateImage: validation, then one generation call with the effective size. */
  function GenerateImage(args: GenerateArgs, env: Env, send: ApiCall -> Reply, show: JsValue -> string): (o: ApiOutcome)
    ensures ValidateImageGenArgs(args).Some? ==> o == ApiOutcome(None, Err(ValidateImageGenArgs(args).value))
    ensures ValidateImageGenArgs(args).None? ==> o == CallImageGenAPI(env, args.prompt, EffectiveSize(args.size), send, show)
  {
    match ValidateImageGenArgs(args)
    case Some(message) => ApiOutcome(None, Err(message))
    case None => CallImageGenAPI(env, args.prompt, EffectiveSize(args.size), send, show)
  }

  /** Every request the tool makes carries a non-blank prompt within the limit and an accepted (or empty) size. */
  lemma {:induction false} RequestsAreValid(args: GenerateArgs, env: Env, send: ApiCall -> Reply, show: JsValue -> string)
    ensures var o := GenerateImage(args, env, send, show);
            o.request.Some? ==>
              o.request.value.payload == ImagePayload(args.prompt, EffectiveSize(args.size))
              && !IsBlank(args.prompt) && |args.prompt| <= MaxPromptLength
              && (EffectiveSize(args.size) in ValidSizes || EffectiveSize(args.size) == "")
  {
    var o := GenerateImage(args, env, send, show);
    if o.request.Some? {
      assert ValidateImageGenArgs(args).None?;
      if args.size.None? {
        assert EffectiveSize(args.size) == ValidSizes[0];
      }
    }
  }

  /** A prompt of exactly the limit is accepted; one more character is refused. */
  lemma PromptLimitIsInclusive(prompt: string, c: char)
    requires |prompt| == MaxPromptLength && !IsBlank(prompt)
    ensures ValidateImageGenArgs(GenerateArgs(prompt, None)).None?
    ensures ValidateImageGenArgs(GenerateArgs(prompt + [c], None)) == Some(PromptTooLong)
  {
    var longer := prompt + [c];
    assert !IsBlank(longer) by {
      var i :| 0 <= i < |prompt| && !IsJsWhitespace(prompt[i]);
      assert longer[i] == prompt[i];
    }
  }

  /** A blank prompt is refused as missing whatever else is wrong with the arguments. */
  lemma BlankPromptCheckedFirst(prompt: string, size: Option<string>)
    requires IsBlank(prompt)
    ensures ValidateImageGenArgs(GenerateArgs(prompt, size)) == Some(PromptRequired)
  {
  }
}

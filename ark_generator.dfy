/**
 * `ArkContentGenerator` (ark.ts): request normalisation (`toContents`), the
 * request body, the non-streaming response conversion, URL and header
 * construction, the token estimate, and the setup of its inline stream loop.
 */
module ArkGenerator {
  import opened Wrappers
  import opened Text
  import opened Json
  import opened OrderedMap
  import opened ContentModel
  import BaseGenerator
  import ApiResponseConverter
  import StreamResponseProcessor

  // ---- toContents ----

  /** `ContentListUnion`: a string, a Content, a bare Part, or an array of these. */
  datatype ContentInput =
    | StringInput(text: string)
    | ContentValue(content: Content)
    | PartInput(part: Part)
    | ListInput(items: seq<ContentInput>)

  const ArrayNotSupported := "Array content not supported in this context"

  /** `toContent`: a string or a bare part becomes a `user` content; a nested array is refused. */
  function ToContent(x: ContentInput): (r: Result<Content>)
    ensures r.Failure? <==> x.ListInput?
    ensures r.Failure? ==> r.error == ArrayNotSupported
    ensures x.StringInput? ==> r == Success(Content("user", [TextPart(x.text)]))
    ensures x.ContentValue? ==> r == Success(x.content)
    ensures x.PartInput? ==> r == Success(Content("user", [x.part]))
  {
    match x
    case ListInput(_) => Failure(ArrayNotSupported)
    case StringInput(s) => Success(Content("user", [TextPart(s)]))
    case ContentValue(c) => Success(c)
    case PartInput(p) => Success(Content("user", [p]))
  }

  /** `items.map(toContent)`, which throws at the first nested array. */
  function ToContentList(items: seq<ContentInput>): (r: Result<seq<Content>>)
    ensures r.Success? <==> forall i :: 0 <= i < |items| ==> !items[i].ListInput?
    ensures r.Failure? ==> r.error == ArrayNotSupported
    ensures r.Success? ==> (|r.value| == |items|
      && forall i :: 0 <= i < |items| ==> r.value[i] == ToContent(items[i]).value)
  {
    if items == [] then Success([])
    else match ToContent(items[0])
      case Failure(err) => Failure(err)
      case Success(c) =>
        match ToContentList(items[1..])
        case Failure(err) => Failure(err)
        case Success(rest) =>
          assert forall i :: 1 <= i < |items| ==> items[i] == items[1..][i - 1];
          Success([c] + rest)
  }

  /** `toContents`: an array keeps its length and order; anything else becomes a one-element list. */
  function ToContents(x: ContentInput): (r: Result<seq<Content>>)
    ensures !x.ListInput? ==> r == Success([ToContent(x).value])
    ensures x.ListInput? ==> r == ToContentList(x.items)
  {
    if x.ListInput? then ToContentList(x.items) else Success([ToContent(x).value])
  }

  /** A list of strings becomes one `user` text content per string. */
  lemma StringListBecomesUserContents(xs: seq<string>)
    ensures var r := ToContents(ListInput(seq(|xs|, i requires 0 <= i < |xs| => StringInput(xs[i]))));
      r.Success? && |r.value| == |xs|
      && forall i :: 0 <= i < |xs| ==> r.value[i] == Content("user", [TextPart(xs[i])])
  {
    var items := seq(|xs|, i requires 0 <= i < |xs| => StringInput(xs[i]));
    assert forall i :: 0 <= i < |items| ==> !items[i].ListInput?;
  }

  // ---- request body ----

  /** The chat-completion request body shared by the Ark and GPT OpenAPI adapters. */
  datatype ChatRequest = ChatRequest(
    model: string,
    messages: seq<Message>,
    stream: bool,
    temperature: real,
    maxTokens: int,
    topP: real,
    tools: Option<seq<OpenAITool>>,
    toolChoice: Option<string>)

  /** `x || d` for an optional number: zero and absent both fall back to `d`. */
  function RealOr(x: Option<real>, d: real): (r: real)
    ensures x.Some? && x.value != 0.0 ==> r == x.value
    ensures x.None? || x.value == 0.0 ==> r == d
  {
    if x.Some? && x.value != 0.0 then x.value else d
  }

  function IntOr(x: Option<int>, d: int): (r: int)
    ensures x.Some? && x.value != 0 ==> r == x.value
    ensures x.None? || x.value == 0 ==> r == d
  {
    if x.Some? && x.value != 0 then x.value else d
  }

  /**
   * The request body: sampling defaults 0.2 / 2048 / 1 through `||`, and
   * `tools` with `tool_choice` only when there is at least one tool.
   */
  function BuildRequest(model: string, messages: seq<Message>, tools: seq<OpenAITool>, config: GenerationConfig): (r: ChatRequest)
    ensures r.model == model && r.messages == messages && !r.stream
    ensures r.temperature != 0.0 && r.maxTokens != 0 && r.topP != 0.0
    ensures config.temperature.None? ==> r.temperature == 0.2
    ensures config.maxOutputTokens.None? ==> r.maxTokens == 2048
    ensures config.topP.None? ==> r.topP == 1.0
    ensures r.tools.Some? <==> tools != []
    ensures r.tools.Some? ==> r.tools.value == tools
    ensures r.toolChoice.Some? <==> tools != []
    ensures r.toolChoice == Some("none") <==> tools != [] && config.toolMode == "NONE"
    ensures r.toolChoice == Some("auto") <==> tools != [] && config.toolMode != "NONE"
  {
    ChatRequest(
      model, messages, false,
      RealOr(config.temperature, 0.2),
      IntOr(config.maxOutputTokens, 2048),
      RealOr(config.topP, 1.0),
      if tools != [] then Some(tools) else None,
      if tools == [] then None else if config.toolMode == "NONE" then Some("none") else Some("auto"))
  }

  /**
   * `convertToArkFormat`. Its message loop and `convertToArkTools` are the
   * same code as `convertToOpenAIFormat` and `convertToOpenAITools` in the
   * base class, so the request carries exactly what those produce.
   */
  method ConvertToArkFormat(model: string, contents: seq<Content>, config: GenerationConfig, codec: JsonCodec, e: Entropy, n: nat)
    returns (r: ChatRequest)
    ensures var f := BaseGenerator.OpenAIFormatOf(contents, config, codec, e, n);
      r == BuildRequest(model, f.messages, f.tools, config)
  {
    var f := BaseGenerator.ConvertToOpenAIFormat(contents, config, codec, e, n);
    r := BuildRequest(model, f.messages, f.tools, config);
  }

  /** The tool fields appear exactly when some tool group declares a function. */
  lemma ToolFieldsNeedDeclarations(model: string, contents: seq<Content>, config: GenerationConfig, codec: JsonCodec, e: Entropy, n: nat)
    ensures var f := BaseGenerator.OpenAIFormatOf(contents, config, codec, e, n);
      var r := BuildRequest(model, f.messages, f.tools, config);
      r.tools.Some? <==> BaseGenerator.Declarations(config.tools) != []
  {
  }

  // ---- non-streaming response ----

  const NoChoicesError := "方舟API响应中没有找到choices字段"

  /** The argument text Ark parses: the arguments, or `{}` when empty, untrimmed. */
  function ArgumentsOrEmpty(arguments: string): string {
    if arguments != "" then arguments else "{}"
  }

  /** The tool calls parsed with `JSON.parse`; the first argument text that does not parse makes the whole conversion throw. */
  function ParseCalls(tcs: seq<ToolCall>, codec: JsonCodec): (r: Result<seq<FunctionCall>>)
    ensures r.Success? <==> forall i :: 0 <= i < |tcs| ==> codec.parse(ArgumentsOrEmpty(tcs[i].arguments)).Success?
    ensures r.Success? ==> (|r.value| == |tcs| && forall i :: 0 <= i < |tcs| ==>
      r.value[i] == FunctionCall(tcs[i].id, tcs[i].name, Some(codec.parse(ArgumentsOrEmpty(tcs[i].arguments)).value)))
  {
    if tcs == [] then Success([])
    else match codec.parse(ArgumentsOrEmpty(tcs[0].arguments))
      case Failure(err) => Failure(err)
      case Success(j) =>
        match ParseCalls(tcs[1..], codec)
        case Failure(err) => Failure(err)
        case Success(rest) =>
          assert forall i :: 1 <= i < |tcs| ==> tcs[i] == tcs[1..][i - 1];
          Success([FunctionCall(tcs[0].id, tcs[0].name, Some(j))] + rest)
  }

  /**
   * `convertToGeminiResponse`. With tool calls, the parts are the text (if
   * any) and the calls, `functionCalls` is set and no usage is copied; a
   * parse failure is the error thrown. Without tool calls there is exactly
   * one text part, empty when the content is null, and the usage is copied.
   */
  function ConvertToGeminiResponse(resp: ChatCompletion, codec: JsonCodec): (r: Result<Response>)
    ensures resp.choices == [] ==> r == Failure(NoChoicesError)
    ensures resp.choices != [] && resp.choices[0].message.toolCalls == [] ==>
      var ch := resp.choices[0];
      r == Success(ModelResponse([TextPart(ch.message.content)], Some(ch.finishReason), None, Some(resp.usage)))
    ensures resp.choices != [] && resp.choices[0].message.toolCalls != [] ==>
      var ch := resp.choices[0]; var parsed := ParseCalls(ch.message.toolCalls, codec);
      && (r.Success? <==> parsed.Success?)
      && (r.Failure? ==> r.error == parsed.error)
      && (r.Success? ==>
           var lead := if ch.message.content != "" then [TextPart(ch.message.content)] else [];
           r.value == ModelResponse(lead + CallParts(parsed.value), Some(ch.finishReason), Some(parsed.value), None))
  {
    if resp.choices == [] then Failure(NoChoicesError)
    else
      var ch := resp.choices[0];
      if ch.message.toolCalls != [] then
        match ParseCalls(ch.message.toolCalls, codec)
        case Failure(err) => Failure(err)
        case Success(calls) =>
          var lead := if ch.message.content != "" then [TextPart(ch.message.content)] else [];
          Success(ModelResponse(lead + CallParts(calls), Some(ch.finishReason), Some(calls), None))
      else
        Success(ModelResponse([TextPart(ch.message.content)], Some(ch.finishReason), None, Some(resp.usage)))
  }

  /**
   * Where both converters apply (every call has an id and trimmed argument
   * text that parses), Ark's conversion gives the same candidate and calls as
   * the shared `convertOpenAIResponseToGemini`, and differs only in dropping
   * the usage.
   */
  lemma AgreesWithSharedConverter(resp: ChatCompletion, codec: JsonCodec, e: Entropy, n: nat)
    requires resp.choices != [] && resp.choices[0].message.toolCalls != []
    requires var tcs := resp.choices[0].message.toolCalls;
      forall i :: 0 <= i < |tcs| ==>
        && tcs[i].id != ""
        && Trim(ArgumentsOrEmpty(tcs[i].arguments)) == ArgumentsOrEmpty(tcs[i].arguments)
        && codec.parse(ArgumentsOrEmpty(tcs[i].arguments)).Success?
    ensures var mine := ConvertToGeminiResponse(resp, codec);
      var shared := ApiResponseConverter.ConvertOpenAIResponseToGemini(resp, "方舟API", codec, e, n);
      && mine.Success? && shared.Success?
      && mine.value.candidates == shared.value.candidates
      && mine.value.functionCalls == shared.value.functionCalls
      && mine.value.usage.None? && shared.value.usage.Some?
  {
    var tcs := resp.choices[0].message.toolCalls;
    var mine := ParseCalls(tcs, codec).value;
    var shared := ApiResponseConverter.ParseToolCalls(tcs, codec, e, n);
    forall i | 0 <= i < |tcs|
      ensures mine[i] == shared[i]
    {
      assert ApiResponseConverter.ArgumentText(tcs[i].arguments) == ArgumentsOrEmpty(tcs[i].arguments);
    }
    assert mine == shared;
  }

  /** A plain-text answer always has exactly one part, even for a null content. */
  lemma TextAnswerHasOnePart(resp: ChatCompletion, codec: JsonCodec)
    requires resp.choices != [] && resp.choices[0].message.toolCalls == []
    ensures var r := ConvertToGeminiResponse(resp, codec);
      r.Success? && r.value.candidates[0].content.parts == [TextPart(resp.choices[0].message.content)]
      && r.value.usage == Some(resp.usage)
  {
  }

  // ---- headers and URL ----

  /** `buildHeaders`: `Content-Type` and the Bearer credential (RFC 6750, section 2.1), then the custom headers over them. */
  function BuildHeaders(config: BaseGenerator.ModelConfig): Entries<string, string> {
    Assign([("Content-Type", "application/json"), ("Authorization", "Bearer " + config.apiKey)], config.customHeaders)
  }

  /**
   * Both fixed headers are always present; a custom header replaces the
   * fixed one of the same name, and otherwise the fixed values stand.
   */
  lemma HeadersFacts(config: BaseGenerator.ModelConfig)
    requires DistinctKeys(config.customHeaders)
    ensures var h := BuildHeaders(config);
      && DistinctKeys(h)
      && Has(h, "Content-Type") && Has(h, "Authorization")
      && (forall k :: Has(h, k) <==> k == "Content-Type" || k == "Authorization" || Has(config.customHeaders, k))
      && (forall k :: Has(config.customHeaders, k) ==> Get(h, k) == Get(config.customHeaders, k))
      && (!Has(config.customHeaders, "Authorization") ==> Get(h, "Authorization") == "Bearer " + config.apiKey)
      && (!Has(config.customHeaders, "Content-Type") ==> Get(h, "Content-Type") == "application/json")
  {
    var fixed := [("Content-Type", "application/json"), ("Authorization", "Bearer " + config.apiKey)];
    assert Has(fixed, "Content-Type") && Has(fixed, "Authorization") by {
      assert fixed[0].0 == "Content-Type" && fixed[1].0 == "Authorization";
    }
    forall k | Has(fixed, k) ensures k == "Content-Type" || k == "Authorization" {
    }
    AssignFacts(fixed, config.customHeaders);
  }

  const DefaultBaseUrl := "https://ark-cn-beijing.bytedance.net/api/v3"

  function DropTrailingSlash(s: string): (r: string)
    ensures s == r || s == r + "/"
    ensures EndsWith(s, "/") <==> s == r + "/"
  {
    if s != [] && s[|s| - 1] == '/' then s[..|s| - 1] else s
  }

  function DropLeadingSlash(s: string): (r: string)
    ensures s == r || s == "/" + r
    ensures StartsWith(s, "/") <==> s == "/" + r
  {
    if s != [] && s[0] == '/' then s[1..] else s
  }

  /** `buildApiUrl`: the base (default when unset) without one trailing `/`, a `/`, and the endpoint without one leading `/`. */
  function BuildApiUrl(baseUrl: string, endpoint: string): (r: string)
    ensures var base := if baseUrl != "" then baseUrl else DefaultBaseUrl;
      r == DropTrailingSlash(base) + "/" + DropLeadingSlash(endpoint)
  {
    var base := if baseUrl != "" then baseUrl else DefaultBaseUrl;
    DropTrailingSlash(base) + "/" + DropLeadingSlash(endpoint)
  }

  /** One slash on either side of the join makes no difference: the URL has exactly one `/` there. */
  lemma UrlJoinIsNormalised(base: string, endpoint: string)
    requires base != "" && !EndsWith(base, "/") && !StartsWith(endpoint, "/")
    ensures BuildApiUrl(base, endpoint) == base + "/" + endpoint
    ensures BuildApiUrl(base + "/", endpoint) == base + "/" + endpoint
    ensures BuildApiUrl(base, "/" + endpoint) == base + "/" + endpoint
    ensures BuildApiUrl(base + "/", "/" + endpoint) == base + "/" + endpoint
  {
    assert (base + "/")[..|base + "/"| - 1] == base;
    assert ("/" + endpoint)[1..] == endpoint;
  }

  /** An unset base URL means the Ark default. */
  lemma UnsetBaseUsesDefault(endpoint: string)
    requires !StartsWith(endpoint, "/")
    ensures BuildApiUrl("", endpoint) == DefaultBaseUrl + "/" + endpoint
  {
  }

  // ---- token estimate ----

  /** A part's text for counting: its text, or nothing for any other part. */
  function CountedText(p: Part): string {
    if p.TextPart? then p.text else ""
  }

  /** `extractTextFromContents`: the parts of each content joined with spaces, then the contents joined with spaces. */
  function ExtractText(cs: seq<Content>): string {
    Join(seq(|cs|, i requires 0 <= i < |cs| => PartsText(cs[i].parts)), " ")
  }

  function PartsText(parts: seq<Part>): string {
    Join(seq(|parts|, j requires 0 <= j < |parts| => CountedText(parts[j])), " ")
  }

  /**
   * A non-text part still takes its place between the separators: it counts
   * as empty text, so the texts on either side are two spaces apart.
   */
  lemma NonTextPartKeepsItsSeparator(role: string, before: seq<Part>, p: Part, after: seq<Part>)
    requires !p.TextPart? && before != [] && after != []
    ensures ExtractText([Content(role, before + [p] + after)]) == PartsText(before) + "  " + PartsText(after)
  {
    var parts := before + [p] + after;
    var cs := [Content(role, parts)];
    var inner := seq(|parts|, j requires 0 <= j < |parts| => CountedText(parts[j]));
    var beforeTexts := seq(|before|, j requires 0 <= j < |before| => CountedText(before[j]));
    var afterTexts := seq(|after|, j requires 0 <= j < |after| => CountedText(after[j]));
    assert inner == beforeTexts + ([""] + afterTexts);
    JoinConcat(beforeTexts, [""] + afterTexts, " ");
    JoinConcat([""], afterTexts, " ");
    assert seq(|cs|, i requires 0 <= i < |cs| => PartsText(cs[i].parts)) == [PartsText(parts)];
  }

  /** `Math.ceil(length / 3)`: the least number of tokens that covers the text at three characters each. */
  function CountTokens(text: string): (r: nat)
    ensures 3 * r >= |text|
    ensures r == 0 || 3 * (r - 1) < |text|
  {
    (|text| + 2) / 3
  }

  // ---- configuration ----

  const ArkKeyMissing := "方舟API密钥未设置。请通过以下方式之一设置API密钥：\n1. 设置 ARK_API_KEY 环境变量：export ARK_API_KEY=\"your-api-key\"\n2. 在项目根目录创建 .env 文件，添加：ARK_API_KEY=your-api-key\n3. 使用 --api-key 命令行参数\n\n您可以在方舟平台 (https://console.volcengine.com/ark) 获取API密钥"
  const ArkModelMissing := "方舟模型需要明确指定模型名称。请通过以下方式之一指定模型：\n1. 设置 ARK_MODEL 环境变量，例如：export ARK_MODEL=\"ep-20250627193526-wzbxz\"\n2. 使用 --model 命令行参数，例如：--model ep-20250627193526-wzbxz\n3. 在设置文件中配置模型名称"

  /** `validateArkConfig`: the base check first, then its own key and model checks. */
  function ValidateArkConfig(config: BaseGenerator.ModelConfig): (r: Option<string>)
    ensures r.None? <==> config.model != "" && config.apiKey != ""
  {
    if BaseGenerator.ValidateConfig(config).Some? then BaseGenerator.ValidateConfig(config)
    else if config.apiKey == "" then Some(ArkKeyMissing)
    else if config.model == "" then Some(ArkModelMissing)
    else None
  }

  /** Because the base check runs first, Ark's own messages are never the ones thrown. */
  lemma ArkOwnChecksAreUnreachable(config: BaseGenerator.ModelConfig)
    ensures ValidateArkConfig(config) == BaseGenerator.ValidateConfig(config)
    ensures ValidateArkConfig(config) != Some(ArkKeyMissing) && ValidateArkConfig(config) != Some(ArkModelMissing)
  {
  }

  // ---- inline stream ----

  /** The inline stream loop: the Ark dialect of the stream machine with the fixed `data: ` prefix and `data: [DONE]` sentinel. */
  function StreamSetup(parseChunk: string -> Option<StreamResponseProcessor.StreamChunk>, codec: JsonCodec, e: Entropy): (r: StreamResponseProcessor.Setup)
    ensures r.dialect == StreamResponseProcessor.ArkInline
    ensures StreamResponseProcessor.DataPrefix(r.config) == "data: "
    ensures StreamResponseProcessor.FinishPattern(r.config) == "data: [DONE]"
  {
    StreamResponseProcessor.Setup(StreamResponseProcessor.ArkInline,
      StreamResponseProcessor.ProcessorConfig("方舟API", "data: [DONE]", "data: "), parseChunk, codec, e)
  }
}

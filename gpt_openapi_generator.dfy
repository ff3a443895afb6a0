/**
 * `GPTOpenApitContentGenerator` (gpt_openapi.ts): URL and header
 * construction, the token estimate, the request body with its tool
 * descriptions, the request checks made before any network call, and the
 * error message assembled from a failed reply.
 */
module GptOpenApiGenerator {
  import opened Wrappers
  import opened Text
  import opened Json
  import opened OrderedMap
  import opened ContentModel
  import BaseGenerator
  import ApiResponseConverter
  import StreamResponseProcessor
  import ArkGenerator

  /** `GPTOpenApitModelConfig`: the base configuration and an optional `logId` ("" when unset). */
  datatype GptConfig = GptConfig(base: BaseGenerator.ModelConfig, logId: string)

  const DefaultBaseUrl := "https://gpt-i18n.byteintl.net/gpt/openapi/online/v2"
  const ApiName := "GPT OpenAPI"

  // ---- URL ----

  /**
   * `buildApiUrl`: the base (default when unset) without one trailing `/`;
   * chat completions go to its `crawl` endpoint with the key as the `ak`
   * query parameter, any other endpoint is appended after a `/` unchanged.
   */
  function BuildApiUrl(baseUrl: string, apiKey: string, endpoint: string): (r: string)
    ensures var clean := ArkGenerator.DropTrailingSlash(if baseUrl != "" then baseUrl else DefaultBaseUrl);
      && (endpoint == "chat/completions" ==> r == clean + "/crawl?ak=" + apiKey)
      && (endpoint != "chat/completions" ==> r == clean + "/" + endpoint)
  {
    var clean := ArkGenerator.DropTrailingSlash(if baseUrl != "" then baseUrl else DefaultBaseUrl);
    if endpoint == "chat/completions" then clean + "/crawl?ak=" + apiKey else clean + "/" + endpoint
  }

  /** The chat URL ends with the key, and a base with or without its trailing `/` gives the same URL. */
  lemma ChatUrlCarriesKey(baseUrl: string, apiKey: string)
    requires baseUrl != "" && !EndsWith(baseUrl, "/")
    ensures BuildApiUrl(baseUrl, apiKey, "chat/completions") == baseUrl + "/crawl?ak=" + apiKey
    ensures BuildApiUrl(baseUrl + "/", apiKey, "chat/completions") == baseUrl + "/crawl?ak=" + apiKey
    ensures EndsWith(BuildApiUrl(baseUrl, apiKey, "chat/completions"), "?ak=" + apiKey)
  {
    assert (baseUrl + "/")[..|baseUrl + "/"| - 1] == baseUrl;
    var r := BuildApiUrl(baseUrl, apiKey, "chat/completions");
    assert r == (baseUrl + "/crawl") + ("?ak=" + apiKey);
  }

  // ---- headers ----

  /** The generated `X-TT-LOGID` when none is configured, from the clock and a random draw. */
  function GeneratedLogId(e: Entropy, n: nat): (r: string)
    ensures StartsWith(r, "gemini-cli-")
  {
    "gemini-cli-" + NatToString(e.millis(n)) + "-" + e.digits(n)
  }

  /** Whether the Bearer header is sent: a key is set and the configured base is not a `byteintl.net` one. */
  predicate SendsBearer(config: GptConfig) {
    config.base.apiKey != "" && !Includes(config.base.baseUrl, "byteintl.net")
  }

  /** The headers `buildHeaders` returns. */
  function HeadersOf(config: GptConfig, e: Entropy, n: nat): Entries<string, string> {
    Assign(FixedHeaders(config, e, n), config.base.customHeaders)
  }

  /** The headers set before the custom ones: content type, the Bearer rule and the log id. */
  function FixedHeaders(config: GptConfig, e: Entropy, n: nat): Entries<string, string> {
    var withType := [("Content-Type", "application/json")];
    var withAuth := if SendsBearer(config) then Set(withType, "Authorization", "Bearer " + config.base.apiKey) else withType;
    var logId := if config.logId != "" then config.logId else GeneratedLogId(e, n);
    Set(withAuth, "X-TT-LOGID", logId)
  }

  /** `buildHeaders`, which fills the record one header at a time. */
  method BuildHeaders(config: GptConfig, e: Entropy, n: nat) returns (headers: Entries<string, string>)
    ensures headers == HeadersOf(config, e, n)
  {
    headers := [("Content-Type", "application/json")];
    if config.base.apiKey != "" && !Includes(config.base.baseUrl, "byteintl.net") {
      headers := Set(headers, "Authorization", "Bearer " + config.base.apiKey);
    }
    if config.logId != "" {
      headers := Set(headers, "X-TT-LOGID", config.logId);
    } else {
      headers := Set(headers, "X-TT-LOGID", GeneratedLogId(e, n));
    }
    headers := Assign(headers, config.base.customHeaders);
  }

  /**
   * `Content-Type` and `X-TT-LOGID` are always present; `Authorization` is
   * present exactly when the Bearer rule or a custom header supplies it; a
   * configured log id is used unless a custom header replaces it; custom
   * headers win over the fixed ones.
   */
  lemma HeadersFacts(config: GptConfig, e: Entropy, n: nat)
    requires DistinctKeys(config.base.customHeaders)
    ensures var h := HeadersOf(config, e, n); var custom := config.base.customHeaders;
      && DistinctKeys(h)
      && Has(h, "Content-Type") && Has(h, "X-TT-LOGID")
      && (Has(h, "Authorization") <==> SendsBearer(config) || Has(custom, "Authorization"))
      && (SendsBearer(config) && !Has(custom, "Authorization") ==> Get(h, "Authorization") == "Bearer " + config.base.apiKey)
      && (config.logId != "" && !Has(custom, "X-TT-LOGID") ==> Get(h, "X-TT-LOGID") == config.logId)
      && (forall k :: Has(custom, k) ==> Has(h, k) && Get(h, k) == Get(custom, k))
  {
    FixedHeadersFacts(config, e, n);
    AssignFacts(FixedHeaders(config, e, n), config.base.customHeaders);
  }

  /** What the fixed headers hold before the custom ones are applied. */
  lemma FixedHeadersFacts(config: GptConfig, e: Entropy, n: nat)
    ensures var h := FixedHeaders(config, e, n);
      && DistinctKeys(h)
      && Has(h, "Content-Type") && Has(h, "X-TT-LOGID")
      && (Has(h, "Authorization") <==> SendsBearer(config))
      && (SendsBearer(config) ==> Get(h, "Authorization") == "Bearer " + config.base.apiKey)
      && Get(h, "X-TT-LOGID") == (if config.logId != "" then config.logId else GeneratedLogId(e, n))
  {
    var withType := [("Content-Type", "application/json")];
    assert Has(withType, "Content-Type") by { assert withType[0].0 == "Content-Type"; }
    assert !Has(withType, "Authorization") && !Has(withType, "X-TT-LOGID");
    var withAuth := if SendsBearer(config) then Set(withType, "Authorization", "Bearer " + config.base.apiKey) else withType;
    if SendsBearer(config) {
      SetFacts(withType, "Authorization", "Bearer " + config.base.apiKey);
    }
    var logId := if config.logId != "" then config.logId else GeneratedLogId(e, n);
    SetFacts(withAuth, "X-TT-LOGID", logId);
  }

  /** With no base URL configured the Bearer header is sent, although the default base is a `byteintl.net` one. */
  lemma UnsetBaseSendsBearer(config: GptConfig)
    requires config.base.apiKey != "" && config.base.baseUrl == ""
    ensures SendsBearer(config)
    ensures Includes(DefaultBaseUrl, "byteintl.net")
  {
    assert !Includes(config.base.baseUrl, "byteintl.net");
    DefaultBaseIsInternal();
  }

  lemma DefaultBaseIsInternal()
    ensures Includes(DefaultBaseUrl, "byteintl.net")
  {
    var lead, host, path := "https://gpt-i18n.", "byteintl.net", "/gpt/openapi/online/v2";
    assert DefaultBaseUrl == lead + host + path;
    assert (lead + host + path)[|lead|..|lead| + |host|] == host;
    assert OccursAt(DefaultBaseUrl, host, |lead|);
  }

  // ---- token estimate ----

  /** `Math.ceil(length / 3.5)`, computed as `ceil(2 * length / 7)`. */
  function CountTokens(text: string): (r: nat)
    ensures 7 * r >= 2 * |text|
    ensures r == 0 || 7 * (r - 1) < 2 * |text|
  {
    (2 * |text| + 6) / 7
  }

  /** The integer form is the ceiling of the real quotient `length / 3.5`. */
  lemma CountTokensIsCeiling(text: string)
    ensures var r := CountTokens(text);
      && (r as real) * 3.5 >= |text| as real
      && (r == 0 || ((r - 1) as real) * 3.5 < |text| as real)
  {
    var r := CountTokens(text);
    assert (r as real) * 3.5 == (7 * r) as real / 2.0;
    if r > 0 {
      assert ((r - 1) as real) * 3.5 == (7 * (r - 1)) as real / 2.0;
    }
  }

  // ---- request ----

  /** The tool list sent: name and parameters kept, an empty description replaced by `工具: <name>`. */
  function GptTools(tools: seq<OpenAITool>): (r: seq<OpenAITool>)
    ensures |r| == |tools|
    ensures forall i :: 0 <= i < |tools| ==>
      && r[i].name == tools[i].name
      && r[i].parameters == tools[i].parameters
      && r[i].description != ""
      && (tools[i].description != "" ==> r[i].description == tools[i].description)
      && (tools[i].description == "" ==> r[i].description == "工具: " + tools[i].name)
  {
    seq(|tools|, i requires 0 <= i < |tools| =>
      OpenAITool(tools[i].name,
        if tools[i].description != "" then tools[i].description else "工具: " + tools[i].name,
        tools[i].parameters))
  }

  /** The request body `convertToGptOpenApiFormat` builds. */
  function RequestOf(model: string, contents: seq<Content>, config: GenerationConfig, codec: JsonCodec, e: Entropy, n: nat): ArkGenerator.ChatRequest {
    var f := BaseGenerator.OpenAIFormatOf(contents, config, codec, e, n);
    ArkGenerator.BuildRequest(model, f.messages, GptTools(f.tools), config)
  }

  /** `convertToGptOpenApiFormat`: the base conversion, messages unchanged, tools re-described. */
  method ConvertToGptOpenApiFormat(model: string, contents: seq<Content>, config: GenerationConfig, codec: JsonCodec, e: Entropy, n: nat)
    returns (r: ArkGenerator.ChatRequest)
    ensures r == RequestOf(model, contents, config, codec, e, n)
    ensures r.messages == BaseGenerator.OpenAIFormatOf(contents, config, codec, e, n).messages
    ensures r.tools.Some? ==> |r.tools.value| == |BaseGenerator.Declarations(config.tools)|
  {
    var f := BaseGenerator.ConvertToOpenAIFormat(contents, config, codec, e, n);
    var tools := GptTools(f.tools);
    r := ArkGenerator.BuildRequest(model, f.messages, tools, config);
  }

  const NoMessagesError := "GPT OpenAPI请求必须包含至少一条消息"
  const NoModelError := "GPT OpenAPI请求必须指定模型名称"
  const StreamNoMessagesError := "GPT OpenAPI流式请求必须包含至少一条消息"
  const StreamNoModelError := "GPT OpenAPI流式请求必须指定模型名称"

  /** The checks made on the request body before it is sent; messages are checked before the model. */
  function ValidateRequest(req: ArkGenerator.ChatRequest, streaming: bool): (r: Option<string>)
    ensures r.None? <==> req.messages != [] && req.model != ""
    ensures req.messages == [] ==> r == Some(if streaming then StreamNoMessagesError else NoMessagesError)
    ensures req.messages != [] && req.model == "" ==> r == Some(if streaming then StreamNoModelError else NoModelError)
  {
    if req.messages == [] then Some(if streaming then StreamNoMessagesError else NoMessagesError)
    else if req.model == "" then Some(if streaming then StreamNoModelError else NoModelError)
    else None
  }

  // ---- replies ----

  /** The outcome of the `fetch`: a success with its parsed body, or a failure with status, status text and body text. */
  datatype HttpReply = Ok(body: ChatCompletion) | NotOk(status: int, statusText: string, text: string)

  /** A `message` member that a template literal would render, when it is truthy. */
  function TruthyMember(j: Json, key: string): Option<Json> {
    var m := Property(j, key);
    if m.Some? && Truthy(m.value) then m else None
  }

  /**
   * The error message of a failed reply: the status line, then ` - ` and
   * `error.message` or else `message` from a JSON body, or the raw text when
   * the body is not JSON. A body that is JSON `null` makes the property
   * access itself throw inside the `try`, so it also falls back to the raw text.
   */
  function ReplyErrorMessage(streaming: bool, status: int, statusText: string, text: string, parsed: Result<Json>): string {
    var head := (if streaming then "GPT OpenAPI流式错误: " else "GPT OpenAPI错误: ") + IntToString(status) + " " + statusText;
    if parsed.Failure? || parsed.value == JNull then head + " - " + text
    else
      var err := TruthyMember(parsed.value, "error");
      if err.Some? && TruthyMember(err.value, "message").Some? then head + " - " + JsString(TruthyMember(err.value, "message").value)
      else if TruthyMember(parsed.value, "message").Some? then head + " - " + JsString(TruthyMember(parsed.value, "message").value)
      else head
  }

  /**
   * The message always starts with the status line; a JSON body with neither
   * field adds nothing, a non-JSON body adds itself, and `error.message`
   * takes precedence over `message`.
   */
  lemma ReplyErrorFacts(streaming: bool, status: int, statusText: string, text: string, parsed: Result<Json>)
    ensures var head := (if streaming then "GPT OpenAPI流式错误: " else "GPT OpenAPI错误: ") + IntToString(status) + " " + statusText;
      var r := ReplyErrorMessage(streaming, status, statusText, text, parsed);
      && StartsWith(r, head)
      && (parsed.Failure? ==> r == head + " - " + text)
      && ((parsed.Success? && parsed.value.JObj? && Member(parsed.value.fields, "error").None?
           && Member(parsed.value.fields, "message").None?) ==> r == head)
  {
    var head := (if streaming then "GPT OpenAPI流式错误: " else "GPT OpenAPI错误: ") + IntToString(status) + " " + statusText;
    var r := ReplyErrorMessage(streaming, status, statusText, text, parsed);
    assert r[..|head|] == head;
  }

  /**
   * A non-empty string `error.message` is what the message reports, whatever
   * the body's own `message` says.
   */
  lemma ErrorMessageWins(streaming: bool, status: int, statusText: string, text: string,
                         fields: seq<(string, Json)>, errorFields: seq<(string, Json)>, msg: string)
    requires Member(fields, "error") == Some(JObj(errorFields))
    requires Member(errorFields, "message") == Some(JStr(msg)) && msg != ""
    ensures ReplyErrorMessage(streaming, status, statusText, text, Success(JObj(fields)))
      == (if streaming then "GPT OpenAPI流式错误: " else "GPT OpenAPI错误: ") + IntToString(status) + " " + statusText
         + " - " + msg
  {
  }

  /** Without an `error` member, a non-empty string `message` is what the message reports. */
  lemma BodyMessageIsFallback(streaming: bool, status: int, statusText: string, text: string,
                              fields: seq<(string, Json)>, msg: string)
    requires Member(fields, "error").None?
    requires Member(fields, "message") == Some(JStr(msg)) && msg != ""
    ensures ReplyErrorMessage(streaming, status, statusText, text, Success(JObj(fields)))
      == (if streaming then "GPT OpenAPI流式错误: " else "GPT OpenAPI错误: ") + IntToString(status) + " " + statusText
         + " - " + msg
  {
  }

  const NoChoicesError := "GPT OpenAPI响应格式错误：缺少choices字段"

  /**
   * `generateContent`: contents normalised, request built and checked, then
   * the reply converted; every error raised inside is re-thrown by
   * `handleHttpError` naming the model and `generateContent`. Response ids
   * are synthesised from draws `m` onwards.
   */
  function GenerateContent(config: GptConfig, input: ArkGenerator.ContentInput, genConfig: GenerationConfig,
                           codec: JsonCodec, e: Entropy, n: nat, m: nat, reply: HttpReply): Result<Response>
  {
    var inner := GenerateContentInner(config, input, genConfig, codec, e, n, m, reply);
    if inner.Failure? then Failure(BaseGenerator.HandleHttpError(config.base.model, "generateContent", inner.error))
    else inner
  }

  function GenerateContentInner(config: GptConfig, input: ArkGenerator.ContentInput, genConfig: GenerationConfig,
                                codec: JsonCodec, e: Entropy, n: nat, m: nat, reply: HttpReply): Result<Response> {
    match ArkGenerator.ToContents(input)
    case Failure(err) => Failure(err)
    case Success(contents) =>
      var req := RequestOf(config.base.model, contents, genConfig, codec, e, n);
      match ValidateRequest(req, false)
      case Some(err) => Failure(err)
      case None =>
        match reply
        case NotOk(status, statusText, text) => Failure(ReplyErrorMessage(false, status, statusText, text, codec.parse(text)))
        case Ok(data) =>
          if data.choices == [] then Failure(NoChoicesError)
          else ApiResponseConverter.ConvertOpenAIResponseToGemini(data, ApiName, codec, e, m)
  }

  /** A request without messages or model is refused whatever the server would have answered. */
  lemma InvalidRequestNeverFetches(config: GptConfig, input: ArkGenerator.ContentInput, genConfig: GenerationConfig,
                                   codec: JsonCodec, e: Entropy, n: nat, m: nat, reply1: HttpReply, reply2: HttpReply)
    requires ArkGenerator.ToContents(input).Success?
    requires ValidateRequest(RequestOf(config.base.model, ArkGenerator.ToContents(input).value, genConfig, codec, e, n), false).Some?
    ensures GenerateContent(config, input, genConfig, codec, e, n, m, reply1) == GenerateContent(config, input, genConfig, codec, e, n, m, reply2)
    ensures GenerateContent(config, input, genConfig, codec, e, n, m, reply1)
      == Failure(BaseGenerator.HandleHttpError(config.base.model, "generateContent",
           ValidateRequest(RequestOf(config.base.model, ArkGenerator.ToContents(input).value, genConfig, codec, e, n), false).value))
  {
  }

  /** A successful reply with choices is converted by the shared converter, whose own no-choices error is unreachable here. */
  lemma ChoicesCheckedBeforeConversion(config: GptConfig, input: ArkGenerator.ContentInput, genConfig: GenerationConfig,
                                       codec: JsonCodec, e: Entropy, n: nat, m: nat, data: ChatCompletion)
    ensures var r := GenerateContent(config, input, genConfig, codec, e, n, m, Ok(data));
      r.Failure? ==> r.error != BaseGenerator.HandleHttpError(config.base.model, "generateContent",
                                 ApiResponseConverter.NoChoicesMessage(ApiName))
  {
  }

  // ---- streaming ----

  /** What the streaming `fetch` gives back: a failure, a success without a body, or a body to read. */
  datatype StreamReply = StreamNotOk(status: int, statusText: string, text: string) | NoBody | Body

  const NoBodyError := "GPT OpenAPI没有返回响应体"

  /**
   * The start of `generateContentStream`: nothing here is caught, so the
   * errors surface as raised. On success it yields the request sent
   * (`stream: true`) and the setup handed to the shared stream processor.
   */
  function GenerateContentStream(config: GptConfig, input: ArkGenerator.ContentInput, genConfig: GenerationConfig,
                                 parseChunk: string -> Option<StreamResponseProcessor.StreamChunk>,
                                 codec: JsonCodec, e: Entropy, n: nat, reply: StreamReply)
    : (r: Result<(ArkGenerator.ChatRequest, StreamResponseProcessor.Setup)>)
    ensures r.Success? ==> r.value.0.stream && r.value.0.messages != [] && r.value.0.model != ""
    ensures r.Success? ==> r.value.1.dialect == StreamResponseProcessor.Shared && r.value.1.config.apiName == ApiName
  {
    match ArkGenerator.ToContents(input)
    case Failure(err) => Failure(err)
    case Success(contents) =>
      var req := RequestOf(config.base.model, contents, genConfig, codec, e, n).(stream := true);
      match ValidateRequest(req, true)
      case Some(err) => Failure(err)
      case None =>
        match reply
        case StreamNotOk(status, statusText, text) => Failure(ReplyErrorMessage(true, status, statusText, text, codec.parse(text)))
        case NoBody => Failure(NoBodyError)
        case Body =>
          Success((req, StreamResponseProcessor.Setup(StreamResponseProcessor.Shared,
            StreamResponseProcessor.ProcessorConfig(ApiName, "data: [DONE]", "data: "), parseChunk, codec, e)))
  }

  // ---- configuration ----

  const GptKeyMissing := "GPT OpenAPI密钥未设置。请通过以下方式之一设置API密钥：\n1. 设置 GPT_OPENAPI_API_KEY 环境变量：export GPT_OPENAPI_API_KEY=\"your-api-key\"\n2. 在项目根目录创建 .env 文件，添加：GPT_OPENAPI_API_KEY=your-api-key\n3. 使用 --api-key 命令行参数\n\n适用于所有OpenAPI兼容的GPT服务提供商"
  const GptModelMissing := "GPT OpenAPI模型需要明确指定模型名称。请通过以下方式之一指定模型：\n1. 设置 GPT_OPENAPI_MODEL 环境变量，例如：export GPT_OPENAPI_MODEL=\"gcp-claude4-sonnet\"\n2. 使用 --model 命令行参数，例如：--model gcp-claude4-sonnet\n3. 在设置文件中配置模型名称"

  /** `validateGPTOpenApitConfig`: the base check first, then its own key and model checks. */
  function ValidateGptConfig(config: GptConfig): (r: Option<string>)
    ensures r.None? <==> config.base.model != "" && config.base.apiKey != ""
  {
    if BaseGenerator.ValidateConfig(config.base).Some? then BaseGenerator.ValidateConfig(config.base)
    else if config.base.apiKey == "" then Some(GptKeyMissing)
    else if config.base.model == "" then Some(GptModelMissing)
    else None
  }

  /** As in the Ark adapter, the base check shadows the adapter's own messages. */
  lemma GptOwnChecksAreUnreachable(config: GptConfig)
    ensures ValidateGptConfig(config) == BaseGenerator.ValidateConfig(config.base)
  {
  }
}

/**
 * Choosing a content generator (contentGenerator.ts): the model name and
 * credentials a session starts with, read from the environment for the
 * chosen authentication type, and the adapter that configuration selects.
 */
module ContentGenerator {
  import opened Wrappers
  import opened Text
  import opened OrderedMap
  import BaseGenerator
  import ArkGenerator
  import GptOpenApiGenerator

  // ---- AuthType ----

  const LoginWithGooglePersonal := "oauth-personal"
  const UseGemini := "gemini-api-key"
  const UseVertexAI := "vertex-ai"
  const UseArk := "ark"
  const UseGptOpenApi := "gpt-openapi"

  const DefaultGptModel := "gcp-claude4-sonnet"

  /** `process.env`: the variables that are set, with their values. */
  type Env = Entries<string, string>

  /** A variable's value, "" when unset: the two behave alike under `||` and `!`. */
  function EnvVar(env: Env, name: string): string {
    if Has(env, name) then Get(env, name) else ""
  }

  /** `a || b` on strings. */
  function Or(a: string, b: string): string {
    if a != "" then a else b
  }

  /**
   * `ContentGeneratorConfig`; an empty `apiKey` or `baseUrl` stands for an
   * absent one, `vertexai` and `authType` are `None` when undefined.
   */
  datatype GeneratorConfig = GeneratorConfig(
    model: string,
    apiKey: string,
    vertexai: Option<bool>,
    authType: Option<string>,
    baseUrl: string,
    customHeaders: Entries<string, string>)

  /**
   * The session inputs besides the environment: the `model` argument ("" when
   * undefined), `config.getModel()` ("" when absent), `DEFAULT_GEMINI_MODEL`,
   * and `getEffectiveModel(apiKey, model)`, whose probe of the service is
   * not modelled.
   */
  datatype Session = Session(
    model: string,
    configModel: string,
    defaultModel: string,
    effectiveModel: (string, string) -> string)

  const ArkModelRequired := ArkGenerator.ArkModelMissing

  /** The model chosen before any key is looked at. */
  function InitialModel(authType: Option<string>, s: Session, env: Env): (r: string)
    ensures authType == Some(UseArk) ==> r == "" || StartsWith(r, "ep-")
    ensures authType == Some(UseGptOpenApi) ==> r != ""
    ensures authType != Some(UseArk) && authType != Some(UseGptOpenApi) && s.defaultModel != "" ==> r != ""
  {
    if authType == Some(UseArk) then
      var m := Or(s.model, Or(EnvVar(env, "ARK_MODEL"), ""));
      if StartsWith(m, "ep-") then m else ""
    else if authType == Some(UseGptOpenApi) then
      Or(s.model, Or(EnvVar(env, "GPT_OPENAPI_MODEL"), DefaultGptModel))
    else
      Or(s.configModel, Or(s.model, s.defaultModel))
  }

  /** The configuration `createContentGeneratorConfig` resolves to, or the error it throws. */
  function ConfigFor(authType: Option<string>, s: Session, env: Env): Result<GeneratorConfig> {
    var m := InitialModel(authType, s, env);
    var plain := GeneratorConfig(m, "", None, authType, "", []);
    var geminiKey := EnvVar(env, "GEMINI_API_KEY");
    var googleKey := EnvVar(env, "GOOGLE_API_KEY");
    if authType == Some(LoginWithGooglePersonal) then Success(plain)
    else if authType == Some(UseGemini) && geminiKey != "" then
      Success(plain.(apiKey := geminiKey, model := s.effectiveModel(geminiKey, m)))
    else if authType == Some(UseVertexAI) && googleKey != ""
      && EnvVar(env, "GOOGLE_CLOUD_PROJECT") != "" && EnvVar(env, "GOOGLE_CLOUD_LOCATION") != "" then
      Success(plain.(apiKey := googleKey, vertexai := Some(true), model := s.effectiveModel(googleKey, m)))
    else if authType == Some(UseArk) && EnvVar(env, "ARK_API_KEY") != "" then
      var name := Or(m, EnvVar(env, "ARK_MODEL"));
      if name == "" then Failure(ArkModelRequired)
      else Success(plain.(apiKey := EnvVar(env, "ARK_API_KEY"), baseUrl := EnvVar(env, "CUSTOM_BASE_URL"), model := name))
    else if authType == Some(UseGptOpenApi) && EnvVar(env, "GPT_OPENAPI_API_KEY") != "" then
      var name := Or(m, Or(EnvVar(env, "GPT_OPENAPI_MODEL"), DefaultGptModel));
      Success(plain.(apiKey := EnvVar(env, "GPT_OPENAPI_API_KEY"), baseUrl := EnvVar(env, "CUSTOM_BASE_URL"), model := name))
    else Success(plain)
  }

  /** `createContentGeneratorConfig`: one record, its fields filled in branch by branch. */
  method CreateContentGeneratorConfig(authType: Option<string>, s: Session, env: Env) returns (r: Result<GeneratorConfig>)
    ensures r == ConfigFor(authType, s, env)
  {
    var geminiApiKey := EnvVar(env, "GEMINI_API_KEY");
    var googleApiKey := EnvVar(env, "GOOGLE_API_KEY");
    var googleCloudProject := EnvVar(env, "GOOGLE_CLOUD_PROJECT");
    var googleCloudLocation := EnvVar(env, "GOOGLE_CLOUD_LOCATION");
    var arkApiKey := EnvVar(env, "ARK_API_KEY");
    var arkModel := EnvVar(env, "ARK_MODEL");
    var gptOpenApiKey := EnvVar(env, "GPT_OPENAPI_API_KEY");
    var gptOpenApiModel := EnvVar(env, "GPT_OPENAPI_MODEL");
    var customBaseUrl := EnvVar(env, "CUSTOM_BASE_URL");

    var effectiveModel: string;
    if authType == Some(UseArk) {
      effectiveModel := Or(s.model, Or(arkModel, ""));
      if !StartsWith(effectiveModel, "ep-") {
        effectiveModel := "";
      }
    } else if authType == Some(UseGptOpenApi) {
      effectiveModel := Or(s.model, Or(gptOpenApiModel, DefaultGptModel));
    } else {
      effectiveModel := Or(s.configModel, Or(s.model, s.defaultModel));
    }

    var config := GeneratorConfig(effectiveModel, "", None, authType, "", []);
    if authType == Some(LoginWithGooglePersonal) {
      return Success(config);
    }
    if authType == Some(UseGemini) && geminiApiKey != "" {
      config := config.(apiKey := geminiApiKey);
      config := config.(model := s.effectiveModel(config.apiKey, config.model));
      return Success(config);
    }
    if authType == Some(UseVertexAI) && googleApiKey != "" && googleCloudProject != "" && googleCloudLocation != "" {
      config := config.(apiKey := googleApiKey);
      config := config.(vertexai := Some(true));
      config := config.(model := s.effectiveModel(config.apiKey, config.model));
      return Success(config);
    }
    if authType == Some(UseArk) && arkApiKey != "" {
      config := config.(apiKey := arkApiKey);
      config := config.(baseUrl := customBaseUrl);
      var arkModelName := effectiveModel;
      if arkModelName == "" {
        arkModelName := Or(arkModel, "");
      }
      if arkModelName == "" {
        return Failure(ArkModelRequired);
      }
      config := config.(model := arkModelName);
      return Success(config);
    }
    if authType == Some(UseGptOpenApi) && gptOpenApiKey != "" {
      config := config.(apiKey := gptOpenApiKey);
      config := config.(baseUrl := customBaseUrl);
      var gptOpenApiModelName := effectiveModel;
      if gptOpenApiModelName == "" {
        gptOpenApiModelName := Or(gptOpenApiModel, DefaultGptModel);
      }
      config := config.(model := gptOpenApiModelName);
      return Success(config);
    }
    return Success(config);
  }

  /** Personal OAuth carries the model and the auth type and nothing else. */
  lemma OAuthCarriesNoKey(s: Session, env: Env)
    ensures var r := ConfigFor(Some(LoginWithGooglePersonal), s, env);
      && r.Success? && r.value.apiKey == "" && r.value.vertexai.None? && r.value.baseUrl == ""
      && r.value.model == Or(s.configModel, Or(s.model, s.defaultModel))
  {
  }

  /** Without the key its auth type needs, the configuration is only the model and the auth type. */
  lemma MissingKeyCarriesOnlyModel(authType: string, s: Session, env: Env)
    requires || (authType == UseGemini && EnvVar(env, "GEMINI_API_KEY") == "")
             || (authType == UseArk && EnvVar(env, "ARK_API_KEY") == "")
             || (authType == UseGptOpenApi && EnvVar(env, "GPT_OPENAPI_API_KEY") == "")
             || (authType == UseVertexAI && EnvVar(env, "GOOGLE_API_KEY") == "")
    ensures ConfigFor(Some(authType), s, env) == Success(GeneratorConfig(InitialModel(Some(authType), s, env), "", None, Some(authType), "", []))
  {
  }

  /**
   * Ark with a key: the key and CUSTOM_BASE_URL are taken; a model the `ep-`
   * check emptied is replaced by ARK_MODEL as it stands, prefixed or not;
   * the call fails only when that is empty too.
   */
  lemma ArkWithKey(s: Session, env: Env)
    requires EnvVar(env, "ARK_API_KEY") != ""
    ensures var r := ConfigFor(Some(UseArk), s, env);
      var m := InitialModel(Some(UseArk), s, env);
      && (r.Failure? <==> m == "" && EnvVar(env, "ARK_MODEL") == "")
      && (r.Failure? ==> r.error == ArkModelRequired)
      && (r.Success? ==> && r.value.apiKey == EnvVar(env, "ARK_API_KEY")
                         && r.value.baseUrl == EnvVar(env, "CUSTOM_BASE_URL")
                         && r.value.model == (if m != "" then m else EnvVar(env, "ARK_MODEL")))
  {
  }

  /** An explicit non-Ark model name is discarded, and an unprefixed ARK_MODEL then used instead. */
  lemma ArkPrefixCheckIsBypassed(env: Env, s: Session)
    requires EnvVar(env, "ARK_API_KEY") != "" && EnvVar(env, "ARK_MODEL") == "my-model"
    requires s.model == "gpt-4o"
    ensures ConfigFor(Some(UseArk), s, env).Success?
    ensures ConfigFor(Some(UseArk), s, env).value.model == "my-model"
  {
    assert !StartsWith("gpt-4o", "ep-") by {
      assert "gpt-4o"[..3][0] == 'g';
    }
  }

  /** GPT OpenAPI with a key never ends up without a model. */
  lemma GptWithKeyHasModel(s: Session, env: Env)
    requires EnvVar(env, "GPT_OPENAPI_API_KEY") != ""
    ensures var r := ConfigFor(Some(UseGptOpenApi), s, env);
      && r.Success? && r.value.model == InitialModel(Some(UseGptOpenApi), s, env) && r.value.model != ""
      && r.value.apiKey == EnvVar(env, "GPT_OPENAPI_API_KEY") && r.value.baseUrl == EnvVar(env, "CUSTOM_BASE_URL")
  {
  }

  /** Gemini and Vertex keys go through the model probe; only a complete Vertex setup sets `vertexai`, to true. */
  lemma GoogleKeysUseProbedModel(s: Session, env: Env)
    ensures EnvVar(env, "GEMINI_API_KEY") != "" ==>
      ConfigFor(Some(UseGemini), s, env).value.model
        == s.effectiveModel(EnvVar(env, "GEMINI_API_KEY"), InitialModel(Some(UseGemini), s, env))
    ensures ConfigFor(Some(UseVertexAI), s, env).value.vertexai == Some(true)
      <==> EnvVar(env, "GOOGLE_API_KEY") != "" && EnvVar(env, "GOOGLE_CLOUD_PROJECT") != "" && EnvVar(env, "GOOGLE_CLOUD_LOCATION") != ""
  {
  }

  // ---- createContentGenerator ----

  /** The adapter a configuration selects, with what it is built from. */
  datatype Generator =
    | CodeAssist
    | GoogleGenAI(apiKey: Option<string>, vertexai: Option<bool>)
    | Ark(arkConfig: BaseGenerator.ModelConfig)
    | GptOpenApi(gptConfig: GptOpenApiGenerator.GptConfig)

  function AuthTypeText(authType: Option<string>): string {
    if authType.Some? then authType.value else "undefined"
  }

  function UnsupportedAuthType(authType: Option<string>): string {
    "Error creating contentGenerator: Unsupported authType: " + AuthTypeText(authType)
  }

  /** The adapter configuration: the same fields, with the default endpoint when none is set. */
  function AdapterConfig(config: GeneratorConfig, defaultBaseUrl: string): (r: BaseGenerator.ModelConfig)
    ensures r.model == config.model && r.apiKey == config.apiKey && r.customHeaders == config.customHeaders
    ensures r.baseUrl == (if config.baseUrl != "" then config.baseUrl else defaultBaseUrl)
  {
    BaseGenerator.ModelConfig(config.model, config.apiKey, Or(config.baseUrl, defaultBaseUrl), config.customHeaders)
  }

  /**
   * `createContentGenerator`: the adapter for the auth type, or the error
   * thrown — an unsupported auth type, or the configuration check the Ark
   * and GPT OpenAPI constructors run.
   */
  function CreateContentGenerator(config: GeneratorConfig): (r: Result<Generator>)
    ensures config.authType == Some(LoginWithGooglePersonal) ==> r == Success(CodeAssist)
    ensures config.authType == Some(UseGemini) || config.authType == Some(UseVertexAI)
      ==> r == Success(GoogleGenAI(if config.apiKey == "" then None else Some(config.apiKey), config.vertexai))
    ensures config.authType == Some(UseArk) ==>
      && (r.Success? <==> config.model != "" && config.apiKey != "")
      && (r.Success? ==> r.value.Ark? && r.value.arkConfig.baseUrl != "" && r.value.arkConfig.model == config.model)
    ensures config.authType == Some(UseGptOpenApi) ==>
      && (r.Success? <==> config.model != "" && config.apiKey != "")
      && (r.Success? ==> r.value.GptOpenApi? && r.value.gptConfig.base.baseUrl != "" && r.value.gptConfig.base.model == config.model)
    ensures config.authType !in {Some(LoginWithGooglePersonal), Some(UseGemini), Some(UseVertexAI), Some(UseArk), Some(UseGptOpenApi)}
      ==> r == Failure(UnsupportedAuthType(config.authType))
  {
    if config.authType == Some(LoginWithGooglePersonal) then Success(CodeAssist)
    else if config.authType == Some(UseGemini) || config.authType == Some(UseVertexAI) then
      Success(GoogleGenAI(if config.apiKey == "" then None else Some(config.apiKey), config.vertexai))
    else if config.authType == Some(UseArk) then
      var arkConfig := AdapterConfig(config, ArkGenerator.DefaultBaseUrl);
      match ArkGenerator.ValidateArkConfig(arkConfig)
      case Some(e) => Failure(e)
      case None => Success(Ark(arkConfig))
    else if config.authType == Some(UseGptOpenApi) then
      var gptConfig := GptOpenApiGenerator.GptConfig(AdapterConfig(config, GptOpenApiGenerator.DefaultBaseUrl), "");
      match GptOpenApiGenerator.ValidateGptConfig(gptConfig)
      case Some(e) => Failure(e)
      case None => Success(GptOpenApi(gptConfig))
    else Failure(UnsupportedAuthType(config.authType))
  }

  /**
   * The two steps compose: whenever an Ark or GPT OpenAPI key is set and the
   * configuration resolves, its adapter is built without error.
   */
  lemma ResolvedAdapterConfigIsAccepted(authType: string, s: Session, env: Env)
    requires || (authType == UseArk && EnvVar(env, "ARK_API_KEY") != "")
             || (authType == UseGptOpenApi && EnvVar(env, "GPT_OPENAPI_API_KEY") != "")
    requires ConfigFor(Some(authType), s, env).Success?
    ensures CreateContentGenerator(ConfigFor(Some(authType), s, env).value).Success?
  {
    var c := ConfigFor(Some(authType), s, env).value;
    if authType == UseArk {
      assert c.authType == Some(UseArk) && c.apiKey == EnvVar(env, "ARK_API_KEY") && c.model != "";
    } else {
      assert c.authType == Some(UseGptOpenApi) && c.apiKey == EnvVar(env, "GPT_OPENAPI_API_KEY") && c.model != "";
    }
  }
}

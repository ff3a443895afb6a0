/**
 * `validateAuthMethod` (auth.ts): whether the environment holds what a
 * chosen authentication method needs, and the message shown when it does
 * not. The environment is read after `.env` files have been loaded.
 */
module Auth {
  import opened Wrappers
  import opened ContentGenerator

  const GeminiKeyNotFound := "未找到 GEMINI_API_KEY 环境变量。请将其添加到您的 .env 文件中并重试，无需重新加载！"
  const VertexSettingsNotFound := "必须指定 GOOGLE_GENAI_USE_VERTEXAI=true 以及以下任一选项：\n• GOOGLE_CLOUD_PROJECT 和 GOOGLE_CLOUD_LOCATION 环境变量。\n• GOOGLE_API_KEY 环境变量（如果使用快速模式）。\n请更新您的 .env 文件并重试，无需重新加载！"
  const ArkKeyNotFound := "未找到 ARK_API_KEY 环境变量。请将其添加到您的 .env 文件中并重试，无需重新加载！"
  const GptKeyNotFound := "未找到 GPT_OPENAPI_API_KEY 环境变量。请将其添加到您的 .env 文件中并重试，无需重新加载！"
  const InvalidMethod := "选择的认证方式无效。"

  /** The error message for `authMethod`, or `None` when it may be used. */
  function ValidateAuthMethod(authMethod: string, env: Env): (r: Option<string>)
    ensures authMethod == LoginWithGooglePersonal ==> r == None
    ensures authMethod == UseGemini ==> r == (if EnvVar(env, "GEMINI_API_KEY") == "" then Some(GeminiKeyNotFound) else None)
    ensures authMethod == UseVertexAI ==>
      (r.Some? <==> !(EnvVar(env, "GOOGLE_CLOUD_PROJECT") != "" && EnvVar(env, "GOOGLE_CLOUD_LOCATION") != "")
                    && EnvVar(env, "GOOGLE_API_KEY") == "")
      && (r.Some? ==> r.value == VertexSettingsNotFound)
    ensures authMethod == UseArk ==> r == (if EnvVar(env, "ARK_API_KEY") == "" then Some(ArkKeyNotFound) else None)
    ensures authMethod == UseGptOpenApi ==> r == (if EnvVar(env, "GPT_OPENAPI_API_KEY") == "" then Some(GptKeyNotFound) else None)
    ensures authMethod !in {LoginWithGooglePersonal, UseGemini, UseVertexAI, UseArk, UseGptOpenApi} ==> r == Some(InvalidMethod)
  {
    if authMethod == LoginWithGooglePersonal then None
    else if authMethod == UseGemini then
      if EnvVar(env, "GEMINI_API_KEY") == "" then Some(GeminiKeyNotFound) else None
    else if authMethod == UseVertexAI then
      var hasProjectLocation := EnvVar(env, "GOOGLE_CLOUD_PROJECT") != "" && EnvVar(env, "GOOGLE_CLOUD_LOCATION") != "";
      var hasGoogleApiKey := EnvVar(env, "GOOGLE_API_KEY") != "";
      if !hasProjectLocation && !hasGoogleApiKey then Some(VertexSettingsNotFound) else None
    else if authMethod == UseArk then
      if EnvVar(env, "ARK_API_KEY") == "" then Some(ArkKeyNotFound) else None
    else if authMethod == UseGptOpenApi then
      if EnvVar(env, "GPT_OPENAPI_API_KEY") == "" then Some(GptKeyNotFound) else None
    else Some(InvalidMethod)
  }

  /**
   * For the key-based methods, a method that validates reaches a
   * configuration that carries that key (Ark may still fail for want of a
   * model name, but never for want of a key).
   */
  lemma ValidatedKeyReachesConfig(authMethod: string, s: Session, env: Env)
    requires authMethod == UseGemini || authMethod == UseArk || authMethod == UseGptOpenApi
    requires ValidateAuthMethod(authMethod, env).None?
    ensures var r := ConfigFor(Some(authMethod), s, env);
      && (authMethod != UseArk ==> r.Success?)
      && (r.Success? ==> r.value.apiKey != "")
  {
  }

  /**
   * Vertex validation accepts a project and location without GOOGLE_API_KEY,
   * but the configuration then carries no key and leaves `vertexai`
   * undefined: the Google client is created with neither, so whether it
   * runs in Vertex mode is left to the SDK's own defaults.
   */
  lemma VertexProjectAloneLeavesFlagUnset(s: Session, env: Env)
    requires EnvVar(env, "GOOGLE_CLOUD_PROJECT") != "" && EnvVar(env, "GOOGLE_CLOUD_LOCATION") != ""
    requires EnvVar(env, "GOOGLE_API_KEY") == ""
    ensures ValidateAuthMethod(UseVertexAI, env).None?
    ensures CreateContentGenerator(ConfigFor(Some(UseVertexAI), s, env).value) == Success(GoogleGenAI(None, None))
  {
    var m := InitialModel(Some(UseVertexAI), s, env);
    assert ConfigFor(Some(UseVertexAI), s, env) == Success(GeneratorConfig(m, "", None, Some(UseVertexAI), "", []));
  }
}

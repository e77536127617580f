/**
 * `buildEnvVars` of src/gateway/env.ts: turns the worker's optional configuration
 * strings into the flat map of environment variables handed to the Moltbot
 * container process.
 */
module GatewayEnv {
  import opened Options
  import opened JsString

  /** The eighteen worker bindings that `buildEnvVars` reads; an unset binding is `None`. */
  datatype MoltbotEnv = MoltbotEnv(
    gatewayBaseUrl: Option<string>,       // AI_GATEWAY_BASE_URL
    gatewayApiKey: Option<string>,        // AI_GATEWAY_API_KEY
    providerApiKey: Option<string>,       // AI_GATEWAY_PROVIDER_API_KEY
    customProvider: Option<string>,       // AI_GATEWAY_CUSTOM_PROVIDER
    anthropicApiKey: Option<string>,      // ANTHROPIC_API_KEY
    openaiApiKey: Option<string>,         // OPENAI_API_KEY
    anthropicBaseUrl: Option<string>,     // ANTHROPIC_BASE_URL
    moltbotGatewayToken: Option<string>,  // MOLTBOT_GATEWAY_TOKEN
    devMode: Option<string>,              // DEV_MODE
    bindMode: Option<string>,             // CLAWDBOT_BIND_MODE
    telegramBotToken: Option<string>,     // TELEGRAM_BOT_TOKEN
    telegramDmPolicy: Option<string>,     // TELEGRAM_DM_POLICY
    discordBotToken: Option<string>,      // DISCORD_BOT_TOKEN
    discordDmPolicy: Option<string>,      // DISCORD_DM_POLICY
    slackBotToken: Option<string>,        // SLACK_BOT_TOKEN
    slackAppToken: Option<string>,        // SLACK_APP_TOKEN
    cdpSecret: Option<string>,            // CDP_SECRET
    workerUrl: Option<string>             // WORKER_URL
  )

  // The names of the variables the builder may emit.
  const OPENAI_API_KEY: string := "OPENAI_API_KEY"
  const CF_AIG_AUTHORIZATION: string := "CF_AIG_AUTHORIZATION"
  const AI_GATEWAY_CUSTOM_PROVIDER: string := "AI_GATEWAY_CUSTOM_PROVIDER"
  const ANTHROPIC_API_KEY: string := "ANTHROPIC_API_KEY"
  const AI_GATEWAY_BASE_URL: string := "AI_GATEWAY_BASE_URL"
  const OPENAI_BASE_URL: string := "OPENAI_BASE_URL"
  const ANTHROPIC_BASE_URL: string := "ANTHROPIC_BASE_URL"
  const CLAWDBOT_GATEWAY_TOKEN: string := "CLAWDBOT_GATEWAY_TOKEN"
  const CLAWDBOT_DEV_MODE: string := "CLAWDBOT_DEV_MODE"
  const CLAWDBOT_BIND_MODE: string := "CLAWDBOT_BIND_MODE"
  const TELEGRAM_BOT_TOKEN: string := "TELEGRAM_BOT_TOKEN"
  const TELEGRAM_DM_POLICY: string := "TELEGRAM_DM_POLICY"
  const DISCORD_BOT_TOKEN: string := "DISCORD_BOT_TOKEN"
  const DISCORD_DM_POLICY: string := "DISCORD_DM_POLICY"
  const SLACK_BOT_TOKEN: string := "SLACK_BOT_TOKEN"
  const SLACK_APP_TOKEN: string := "SLACK_APP_TOKEN"
  const CDP_SECRET: string := "CDP_SECRET"
  const WORKER_URL: string := "WORKER_URL"

  /** The seven variables whose values come from trimmed inputs. */
  const TrimmedKeys: set<string> := CredentialKeys + BaseUrlKeys

  /** The eleven variables copied from inputs as they are. */
  const PassThroughKeys: set<string> := {
    CLAWDBOT_GATEWAY_TOKEN, CLAWDBOT_DEV_MODE, CLAWDBOT_BIND_MODE,
    TELEGRAM_BOT_TOKEN, TELEGRAM_DM_POLICY, DISCORD_BOT_TOKEN, DISCORD_DM_POLICY,
    SLACK_BOT_TOKEN, SLACK_APP_TOKEN, CDP_SECRET, WORKER_URL
  }

  /** The four credential variables (lines 34-62) and the three base-URL variables (lines 65-78). */
  const CredentialKeys: set<string> := {
    OPENAI_API_KEY, CF_AIG_AUTHORIZATION, AI_GATEWAY_CUSTOM_PROVIDER, ANTHROPIC_API_KEY
  }
  const BaseUrlKeys: set<string> := {AI_GATEWAY_BASE_URL, OPENAI_BASE_URL, ANTHROPIC_BASE_URL}

  const OutputKeys: set<string> := TrimmedKeys + PassThroughKeys

  /** JavaScript truthiness of a `string | undefined`: set and not empty. */
  predicate Truthy(v: Option<string>) {
    v.Some? && v.value != ""
  }

  /** The value of `m[k]` as a `string | undefined`. */
  function Lookup(m: map<string, string>, k: string): Option<string> {
    if k in m then Some(m[k]) else None
  }

  /** `trimOrUndefined`: the trimmed input, or nothing when the input is unset or whitespace only. */
  function TrimOrUndefined(val: Option<string>): (r: Option<string>)
    ensures r.None? <==> val.None? || AllWhitespace(val.value)
    ensures r.Some? ==> val.Some? && r.value == Trim(val.value) && r.value != ""
  {
    if val.None? then None
    else
      TrimEmptyIff(val.value);
      var trimmed := Trim(val.value);
      if trimmed != "" then Some(trimmed) else None
  }

  /** The seven inputs after `trimOrUndefined`. */
  datatype TrimmedInputs = TrimmedInputs(
    baseUrl: Option<string>,
    gatewayApiKey: Option<string>,
    providerApiKey: Option<string>,
    customProvider: Option<string>,
    anthropicApiKey: Option<string>,
    openaiApiKey: Option<string>,
    anthropicBaseUrl: Option<string>)

  function TrimInputs(env: MoltbotEnv): TrimmedInputs {
    TrimmedInputs(
      TrimOrUndefined(env.gatewayBaseUrl),
      TrimOrUndefined(env.gatewayApiKey),
      TrimOrUndefined(env.providerApiKey),
      TrimOrUndefined(env.customProvider),
      TrimOrUndefined(env.anthropicApiKey),
      TrimOrUndefined(env.openaiApiKey),
      TrimOrUndefined(env.anthropicBaseUrl))
  }

  /** `baseUrl?.replace(/\/+$/, '') || ''`: the trimmed base URL without trailing slashes. */
  function NormalizedUrl(baseUrl: Option<string>): (r: string)
    ensures baseUrl.None? ==> r == ""
    ensures baseUrl.Some? ==> |r| <= |baseUrl.value| && r == baseUrl.value[..|r|]
    ensures baseUrl.Some? ==> forall i :: |r| <= i < |baseUrl.value| ==> baseUrl.value[i] == '/'
    ensures r == [] || r[|r| - 1] != '/'
  {
    if baseUrl.Some? then StripTrailingSlashes(baseUrl.value) else ""
  }

  predicate IsCompatGateway(baseUrl: Option<string>) {
    EndsWith(NormalizedUrl(baseUrl), "/compat")
  }

  predicate IsOpenAIGateway(baseUrl: Option<string>) {
    EndsWith(NormalizedUrl(baseUrl), "/openai")
  }

  /**
   * Reference definition of the seven gateway and provider variables, one variable at a
   * time: the value `buildEnvVars` finally leaves under `key`, or `None` when it leaves
   * the key unset, given the trimmed inputs and the two endpoint flags.
   */
  function GatewayValue(t: TrimmedInputs, compat: bool, openai: bool, key: string): (r: Option<string>)
    ensures r.Some? ==> key in TrimmedKeys && r.value != ""
  {
    if key == OPENAI_API_KEY then
      if compat && Truthy(t.providerApiKey) then t.providerApiKey
      else if !compat && openai && Truthy(t.gatewayApiKey) then t.gatewayApiKey
      else if Truthy(t.openaiApiKey) then t.openaiApiKey
      else None
    else if key == ANTHROPIC_API_KEY then
      if !compat && !openai && Truthy(t.gatewayApiKey) then t.gatewayApiKey
      else if Truthy(t.anthropicApiKey) then t.anthropicApiKey
      else None
    else if key == CF_AIG_AUTHORIZATION then
      if compat && Truthy(t.gatewayApiKey) then t.gatewayApiKey else None
    else if key == AI_GATEWAY_CUSTOM_PROVIDER then
      if compat && Truthy(t.customProvider) then t.customProvider else None
    else if key == AI_GATEWAY_BASE_URL then
      if Truthy(t.baseUrl) then t.baseUrl else None
    else if key == OPENAI_BASE_URL then
      if Truthy(t.baseUrl) && (compat || openai) then t.baseUrl else None
    else if key == ANTHROPIC_BASE_URL then
      if Truthy(t.baseUrl) then (if compat || openai then None else t.baseUrl)
      else if Truthy(t.anthropicBaseUrl) then t.anthropicBaseUrl
      else None
    else None
  }

  /**
   * The input each pass-through variable is copied from (lines 80-90): two are renamed,
   * MOLTBOT_GATEWAY_TOKEN to CLAWDBOT_GATEWAY_TOKEN and DEV_MODE to CLAWDBOT_DEV_MODE.
   */
  function PassThroughSource(env: MoltbotEnv, key: string): Option<string> {
    if key == CLAWDBOT_GATEWAY_TOKEN then env.moltbotGatewayToken
    else if key == CLAWDBOT_DEV_MODE then env.devMode
    else if key == CLAWDBOT_BIND_MODE then env.bindMode
    else if key == TELEGRAM_BOT_TOKEN then env.telegramBotToken
    else if key == TELEGRAM_DM_POLICY then env.telegramDmPolicy
    else if key == DISCORD_BOT_TOKEN then env.discordBotToken
    else if key == DISCORD_DM_POLICY then env.discordDmPolicy
    else if key == SLACK_BOT_TOKEN then env.slackBotToken
    else if key == SLACK_APP_TOKEN then env.slackAppToken
    else if key == CDP_SECRET then env.cdpSecret
    else if key == WORKER_URL then env.workerUrl
    else None
  }

  /** The pass-through variables: each one whose source is truthy, copied untrimmed. */
  function PassThroughVars(env: MoltbotEnv): map<string, string> {
    map k | k in PassThroughKeys && Truthy(PassThroughSource(env, k)) :: PassThroughSource(env, k).value
  }

  /** Reference definition of the whole result: the final value of variable `key`. */
  function Resolve(env: MoltbotEnv, key: string): (r: Option<string>)
    ensures r.Some? ==> key in OutputKeys && r.value != ""
  {
    var t := TrimInputs(env);
    if key in PassThroughKeys then
      var v := PassThroughSource(env, key);
      if Truthy(v) then v else None
    else GatewayValue(t, IsCompatGateway(t.baseUrl), IsOpenAIGateway(t.baseUrl), key)
  }

  /**
   * Lines 34-62: the gateway credentials, routed by endpoint, then the direct provider
   * keys, which fill only what the gateway left unset (read back from `envVars`).
   */
  method SetCredentials(t: TrimmedInputs, isCompatGateway: bool, isOpenAIGateway: bool)
    returns (envVars: map<string, string>)
    ensures forall k :: (Lookup(envVars, k) ==
      if k in CredentialKeys then GatewayValue(t, isCompatGateway, isOpenAIGateway, k) else None)
  {
    envVars := map[];
    if isCompatGateway {
      if Truthy(t.providerApiKey) {
        envVars := envVars[OPENAI_API_KEY := t.providerApiKey.value];
      }
      if Truthy(t.gatewayApiKey) {
        envVars := envVars[CF_AIG_AUTHORIZATION := t.gatewayApiKey.value];
      }
      if Truthy(t.customProvider) {
        envVars := envVars[AI_GATEWAY_CUSTOM_PROVIDER := t.customProvider.value];
      }
    } else if Truthy(t.gatewayApiKey) {
      if isOpenAIGateway {
        envVars := envVars[OPENAI_API_KEY := t.gatewayApiKey.value];
      } else {
        envVars := envVars[ANTHROPIC_API_KEY := t.gatewayApiKey.value];
      }
    }

    if !Truthy(Lookup(envVars, ANTHROPIC_API_KEY)) && Truthy(t.anthropicApiKey) {
      envVars := envVars[ANTHROPIC_API_KEY := t.anthropicApiKey.value];
    }
    if !Truthy(Lookup(envVars, OPENAI_API_KEY)) && Truthy(t.openaiApiKey) {
      envVars := envVars[OPENAI_API_KEY := t.openaiApiKey.value];
    }
  }

  /**
   * Lines 65-78: the trimmed base URL, trailing slashes included, under
   * AI_GATEWAY_BASE_URL and under the provider-specific key its endpoint selects;
   * failing that, the direct Anthropic base URL.
   */
  method SetBaseUrl(envVars: map<string, string>, t: TrimmedInputs, isCompatGateway: bool, isOpenAIGateway: bool)
    returns (r: map<string, string>)
    requires forall k :: k in BaseUrlKeys ==> k !in envVars
    ensures forall k :: (Lookup(r, k) ==
      if k in BaseUrlKeys then GatewayValue(t, isCompatGateway, isOpenAIGateway, k) else Lookup(envVars, k))
  {
    r := envVars;
    if Truthy(t.baseUrl) {
      r := r[AI_GATEWAY_BASE_URL := t.baseUrl.value];
      if isCompatGateway {
        r := r[OPENAI_BASE_URL := t.baseUrl.value];
      } else if isOpenAIGateway {
        r := r[OPENAI_BASE_URL := t.baseUrl.value];
      } else {
        r := r[ANTHROPIC_BASE_URL := t.baseUrl.value];
      }
    } else if Truthy(t.anthropicBaseUrl) {
      r := r[ANTHROPIC_BASE_URL := t.anthropicBaseUrl.value];
    }
  }

  /**
   * Lines 80-90: eleven independent assignments, each copying a truthy input untrimmed
   * to a key that nothing before has set; the model applies them together.
   */
  method SetPassThrough(envVars: map<string, string>, env: MoltbotEnv) returns (r: map<string, string>)
    requires forall k :: k in PassThroughKeys ==> k !in envVars
    ensures forall k :: (Lookup(r, k) ==
      if k in PassThroughKeys then (if Truthy(PassThroughSource(env, k)) then PassThroughSource(env, k) else None)
      else Lookup(envVars, k))
  {
    r := envVars + PassThroughVars(env);
  }

  /** The three groups of output names are pairwise disjoint. */
  lemma KeyGroupsDisjoint()
    ensures CredentialKeys !! BaseUrlKeys
    ensures TrimmedKeys !! PassThroughKeys
  {
  }

  /**
   * `buildEnvVars`: trims the gateway and provider inputs, classifies the gateway
   * endpoint, then fills the record section by section.
   */
  method BuildEnvVars(env: MoltbotEnv) returns (envVars: map<string, string>)
    ensures forall k :: Lookup(envVars, k) == Resolve(env, k)
    ensures envVars.Keys <= OutputKeys
    ensures forall k :: k in envVars ==> envVars[k] != ""
  {
    // Lines 19-25: trimOrUndefined on the seven gateway and provider inputs.
    var t := TrimInputs(env);

    // Lines 28-30: the endpoint is classified with its trailing slashes removed.
    var normalizedUrl := NormalizedUrl(t.baseUrl);
    var isCompatGateway := EndsWith(normalizedUrl, "/compat");
    var isOpenAIGateway := EndsWith(normalizedUrl, "/openai");

    KeyGroupsDisjoint();
    envVars := SetCredentials(t, isCompatGateway, isOpenAIGateway);
    envVars := SetBaseUrl(envVars, t, isCompatGateway, isOpenAIGateway);
    envVars := SetPassThrough(envVars, env);
    assert forall k :: k in envVars ==> Lookup(envVars, k) == Resolve(env, k);
  }
}

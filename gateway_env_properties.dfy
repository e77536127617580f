/**
 * What `buildEnvVars` guarantees, stated over its reference definition `Resolve`
 * (which `BuildEnvVars` is proved to agree with on every key).
 */
module GatewayEnvProperties {
  import opened Options
  import opened JsString
  import opened GatewayEnv

  /** A configuration with every binding unset. */
  const NoConfig: MoltbotEnv := MoltbotEnv(
    None, None, None, None, None, None, None, None, None,
    None, None, None, None, None, None, None, None, None)

  /** The endpoint mode of a configuration, from its trimmed base URL. */
  predicate Compat(env: MoltbotEnv) {
    IsCompatGateway(TrimInputs(env).baseUrl)
  }

  predicate OpenAI(env: MoltbotEnv) {
    IsOpenAIGateway(TrimInputs(env).baseUrl)
  }

  /** On the seven gateway and provider names, `Resolve` is `GatewayValue` in the
      configuration's mode. */
  lemma ResolveTrimmedKey(env: MoltbotEnv, key: string)
    requires key in TrimmedKeys
    ensures Resolve(env, key) == GatewayValue(TrimInputs(env), Compat(env), OpenAI(env), key)
  {
    KeyGroupsDisjoint();
  }

  // ---------------------------------------------------------------------------
  // Mode classification (lines 28-30)

  /** At most one mode holds, and with no base URL neither does. */
  lemma ModesExclusive(baseUrl: Option<string>)
    ensures !(IsCompatGateway(baseUrl) && IsOpenAIGateway(baseUrl))
    ensures baseUrl.None? ==> !IsCompatGateway(baseUrl) && !IsOpenAIGateway(baseUrl)
  {
    if IsCompatGateway(baseUrl) {
      var u := NormalizedUrl(baseUrl);
      assert u[|u| - 6] == u[|u| - 7..][1] == 'c';
    }
  }

  /** Any number of trailing slashes leaves the mode unchanged. */
  lemma ModeIgnoresTrailingSlashes(url: string, n: nat)
    ensures IsCompatGateway(Some(url + Slashes(n))) == IsCompatGateway(Some(url))
    ensures IsOpenAIGateway(Some(url + Slashes(n))) == IsOpenAIGateway(Some(url))
  {
    StripIgnoresAppendedSlashes(url, n);
  }

  // ---------------------------------------------------------------------------
  // Trimming (lines 13-25)

  /** A trimmed input is present exactly when its source is set and not all whitespace,
      and then it is the source trimmed: non-empty and with no whitespace at either end. */
  lemma TrimmedInputShape(val: Option<string>)
    ensures TrimOrUndefined(val).Some? <==> val.Some? && !AllWhitespace(val.value)
    ensures TrimOrUndefined(val).Some? ==>
      var v := TrimOrUndefined(val).value;
      v == Trim(val.value) && v != "" && Trim(v) == v
  {
    if val.Some? {
      TrimIdempotent(val.value);
    }
  }

  /** `v` is what trimming `input` yields. */
  predicate TrimOf(v: string, input: Option<string>) {
    input.Some? && v == Trim(input.value)
  }

  /** Every gateway and provider value is one of the seven trimmed inputs. */
  lemma GatewayValueProvenance(t: TrimmedInputs, compat: bool, openai: bool, key: string)
    ensures var r := GatewayValue(t, compat, openai, key);
      r.Some? ==>
        || r == t.baseUrl || r == t.gatewayApiKey || r == t.providerApiKey || r == t.customProvider
        || r == t.anthropicApiKey || r == t.openaiApiKey || r == t.anthropicBaseUrl
  {
  }

  /** Every value set under one of the seven gateway and provider names is non-empty,
      already trimmed, and the trim of one of the seven inputs. */
  lemma TrimmedValuesComeFromInputs(env: MoltbotEnv, key: string)
    requires key in TrimmedKeys
    ensures Resolve(env, key).Some? ==>
      var v := Resolve(env, key).value;
      && v != "" && Trim(v) == v
      && (|| TrimOf(v, env.gatewayBaseUrl) || TrimOf(v, env.gatewayApiKey)
          || TrimOf(v, env.providerApiKey) || TrimOf(v, env.customProvider)
          || TrimOf(v, env.anthropicApiKey) || TrimOf(v, env.openaiApiKey)
          || TrimOf(v, env.anthropicBaseUrl))
  {
    var t := TrimInputs(env);
    ResolveTrimmedKey(env, key);
    var r := GatewayValue(t, Compat(env), OpenAI(env), key);
    GatewayValueProvenance(t, Compat(env), OpenAI(env), key);
    if r.Some? {
      if r == t.baseUrl { TrimmedInputShape(env.gatewayBaseUrl); }
      else if r == t.gatewayApiKey { TrimmedInputShape(env.gatewayApiKey); }
      else if r == t.providerApiKey { TrimmedInputShape(env.providerApiKey); }
      else if r == t.customProvider { TrimmedInputShape(env.customProvider); }
      else if r == t.anthropicApiKey { TrimmedInputShape(env.anthropicApiKey); }
      else if r == t.openaiApiKey { TrimmedInputShape(env.openaiApiKey); }
      else { TrimmedInputShape(env.anthropicBaseUrl); }
    }
  }

  /** An input that is unset or whitespace only. */
  predicate Blank(input: Option<string>) {
    input.None? || AllWhitespace(input.value)
  }

  /** Inputs that are unset or whitespace only set none of the seven gateway and provider names. */
  lemma BlankInputsSetNothing(env: MoltbotEnv, key: string)
    requires key in TrimmedKeys
    requires Blank(env.gatewayBaseUrl) && Blank(env.gatewayApiKey) && Blank(env.providerApiKey)
    requires Blank(env.customProvider) && Blank(env.anthropicApiKey) && Blank(env.openaiApiKey)
    requires Blank(env.anthropicBaseUrl)
    ensures Resolve(env, key) == None
  {
    ResolveTrimmedKey(env, key);
  }

  // ---------------------------------------------------------------------------
  // Credentials (lines 34-62)

  /** Compat mode: OPENAI_API_KEY is the provider key, else the direct OpenAI key;
      CF_AIG_AUTHORIZATION and AI_GATEWAY_CUSTOM_PROVIDER are the gateway key and the
      custom provider. */
  lemma CompatModeCredentials(env: MoltbotEnv)
    requires Compat(env)
    ensures var t := TrimInputs(env);
      && Resolve(env, OPENAI_API_KEY) == (if t.providerApiKey.Some? then t.providerApiKey else t.openaiApiKey)
      && Resolve(env, CF_AIG_AUTHORIZATION) == t.gatewayApiKey
      && Resolve(env, AI_GATEWAY_CUSTOM_PROVIDER) == t.customProvider
      && Resolve(env, ANTHROPIC_API_KEY) == t.anthropicApiKey
  {
    ResolveTrimmedKey(env, OPENAI_API_KEY);
    ResolveTrimmedKey(env, CF_AIG_AUTHORIZATION);
    ResolveTrimmedKey(env, AI_GATEWAY_CUSTOM_PROVIDER);
    ResolveTrimmedKey(env, ANTHROPIC_API_KEY);
  }

  /** CF_AIG_AUTHORIZATION and AI_GATEWAY_CUSTOM_PROVIDER are set in compat mode only. */
  lemma CompatOnlyVariables(env: MoltbotEnv)
    requires !Compat(env)
    ensures Resolve(env, CF_AIG_AUTHORIZATION) == None
    ensures Resolve(env, AI_GATEWAY_CUSTOM_PROVIDER) == None
  {
    ResolveTrimmedKey(env, CF_AIG_AUTHORIZATION);
    ResolveTrimmedKey(env, AI_GATEWAY_CUSTOM_PROVIDER);
  }

  /** Outside compat mode a gateway key becomes OPENAI_API_KEY for an `/openai` endpoint
      and ANTHROPIC_API_KEY otherwise, including when there is no base URL at all. */
  lemma GatewayKeyOutsideCompat(env: MoltbotEnv)
    requires !Compat(env) && TrimInputs(env).gatewayApiKey.Some?
    ensures OpenAI(env) ==> Resolve(env, OPENAI_API_KEY) == TrimInputs(env).gatewayApiKey
    ensures !OpenAI(env) ==> Resolve(env, ANTHROPIC_API_KEY) == TrimInputs(env).gatewayApiKey
    ensures TrimInputs(env).baseUrl.None? ==> Resolve(env, ANTHROPIC_API_KEY) == TrimInputs(env).gatewayApiKey
  {
    ResolveTrimmedKey(env, OPENAI_API_KEY);
    ResolveTrimmedKey(env, ANTHROPIC_API_KEY);
    ModesExclusive(TrimInputs(env).baseUrl);
  }

  /** A direct provider key is used only where the gateway step set nothing, so a
      gateway-derived key always wins over the direct one. */
  lemma FallbackNeverOverwrites(env: MoltbotEnv)
    ensures var t := TrimInputs(env);
      var gatewayAnthropic := !Compat(env) && !OpenAI(env) && t.gatewayApiKey.Some?;
      Resolve(env, ANTHROPIC_API_KEY) == if gatewayAnthropic then t.gatewayApiKey else t.anthropicApiKey
    ensures var t := TrimInputs(env);
      var gatewayOpenAI := if Compat(env) then t.providerApiKey
        else if OpenAI(env) then t.gatewayApiKey else None;
      Resolve(env, OPENAI_API_KEY) == if gatewayOpenAI.Some? then gatewayOpenAI else t.openaiApiKey
  {
    ResolveTrimmedKey(env, OPENAI_API_KEY);
    ResolveTrimmedKey(env, ANTHROPIC_API_KEY);
  }

  // ---------------------------------------------------------------------------
  // Base URL (lines 65-78)

  /** A gateway base URL is set, as trimmed (trailing slashes kept), under
      AI_GATEWAY_BASE_URL and under exactly one of OPENAI_BASE_URL (compat or openai mode)
      and ANTHROPIC_BASE_URL (otherwise); the direct ANTHROPIC_BASE_URL is used only
      without one. */
  lemma BaseUrlRouting(env: MoltbotEnv)
    ensures var t := TrimInputs(env);
      t.baseUrl.Some? ==>
        && Resolve(env, AI_GATEWAY_BASE_URL) == t.baseUrl
        && t.baseUrl.value == Trim(env.gatewayBaseUrl.value)
        && (Compat(env) || OpenAI(env) ==>
              Resolve(env, OPENAI_BASE_URL) == t.baseUrl && Resolve(env, ANTHROPIC_BASE_URL) == None)
        && (!Compat(env) && !OpenAI(env) ==>
              Resolve(env, ANTHROPIC_BASE_URL) == t.baseUrl && Resolve(env, OPENAI_BASE_URL) == None)
    ensures var t := TrimInputs(env);
      t.baseUrl.None? ==>
        && Resolve(env, AI_GATEWAY_BASE_URL) == None
        && Resolve(env, OPENAI_BASE_URL) == None
        && Resolve(env, ANTHROPIC_BASE_URL) == t.anthropicBaseUrl
  {
    ResolveTrimmedKey(env, AI_GATEWAY_BASE_URL);
    ResolveTrimmedKey(env, OPENAI_BASE_URL);
    ResolveTrimmedKey(env, ANTHROPIC_BASE_URL);
    ModesExclusive(TrimInputs(env).baseUrl);
  }

  // ---------------------------------------------------------------------------
  // Pass-through (lines 80-90)

  /** Each pass-through input is copied verbatim, untrimmed, exactly when it is a
      non-empty string; MOLTBOT_GATEWAY_TOKEN and DEV_MODE appear only under their new
      names. */
  lemma PassThroughVerbatim(env: MoltbotEnv)
    ensures Resolve(env, CLAWDBOT_GATEWAY_TOKEN) == if Truthy(env.moltbotGatewayToken) then env.moltbotGatewayToken else None
    ensures Resolve(env, CLAWDBOT_DEV_MODE) == if Truthy(env.devMode) then env.devMode else None
    ensures Resolve(env, CLAWDBOT_BIND_MODE) == if Truthy(env.bindMode) then env.bindMode else None
    ensures Resolve(env, TELEGRAM_BOT_TOKEN) == if Truthy(env.telegramBotToken) then env.telegramBotToken else None
    ensures Resolve(env, TELEGRAM_DM_POLICY) == if Truthy(env.telegramDmPolicy) then env.telegramDmPolicy else None
    ensures Resolve(env, DISCORD_BOT_TOKEN) == if Truthy(env.discordBotToken) then env.discordBotToken else None
    ensures Resolve(env, DISCORD_DM_POLICY) == if Truthy(env.discordDmPolicy) then env.discordDmPolicy else None
    ensures Resolve(env, SLACK_BOT_TOKEN) == if Truthy(env.slackBotToken) then env.slackBotToken else None
    ensures Resolve(env, SLACK_APP_TOKEN) == if Truthy(env.slackAppToken) then env.slackAppToken else None
    ensures Resolve(env, CDP_SECRET) == if Truthy(env.cdpSecret) then env.cdpSecret else None
    ensures Resolve(env, WORKER_URL) == if Truthy(env.workerUrl) then env.workerUrl else None
    ensures Resolve(env, "MOLTBOT_GATEWAY_TOKEN") == None
    ensures Resolve(env, "DEV_MODE") == None
  {
  }

  // ---------------------------------------------------------------------------
  // Empty configuration (lines 10, 92)

  /** With every binding unset, nothing is set. */
  lemma EmptyConfigEmptyOutput(key: string)
    ensures Resolve(NoConfig, key) == None
  {
  }

  // ---------------------------------------------------------------------------
  // Worked examples

  /** A non-empty input with no whitespace at either end passes `trimOrUndefined` unchanged. */
  lemma TrimOrUndefinedKeeps(s: string)
    requires s != "" && IsTrimmed(s)
    ensures TrimOrUndefined(Some(s)) == Some(s)
  {
    TrimFixesTrimmed(s);
  }

  /** A compat endpoint written with a trailing slash, with a provider key, a gateway
      key and a custom provider. */
  const CompatEnv: MoltbotEnv :=
    NoConfig.(gatewayBaseUrl := Some("https://x/compat/"), providerApiKey := Some("pk"),
              gatewayApiKey := Some("gk"), customProvider := Some("cp"))

  lemma CompatEnvUrl()
    ensures TrimInputs(CompatEnv).baseUrl == Some("https://x/compat/")
  {
    TrimOrUndefinedKeeps("https://x/compat/");
  }

  lemma CompatEnvKeys()
    ensures TrimInputs(CompatEnv).gatewayApiKey == Some("gk")
    ensures TrimInputs(CompatEnv).providerApiKey == Some("pk")
    ensures TrimInputs(CompatEnv).customProvider == Some("cp")
    ensures TrimInputs(CompatEnv).anthropicApiKey == None
  {
    TrimOrUndefinedKeeps("pk");
    TrimOrUndefinedKeeps("gk");
    TrimOrUndefinedKeeps("cp");
  }

  /** `/compat/` selects compat mode: the trailing slash is stripped before the suffix test. */
  lemma CompatUrlSelectsCompat()
    ensures IsCompatGateway(Some("https://x/compat/"))
  {
    assert "https://x/compat/" == "https://x/compat" + Slashes(1);
    ModeIgnoresTrailingSlashes("https://x/compat", 1);
  }

  /** The trailing slash is ignored when the mode is chosen but kept in the emitted base
      URLs. */
  lemma CompatExample()
    ensures Resolve(CompatEnv, OPENAI_API_KEY) == Some("pk")
    ensures Resolve(CompatEnv, CF_AIG_AUTHORIZATION) == Some("gk")
    ensures Resolve(CompatEnv, AI_GATEWAY_CUSTOM_PROVIDER) == Some("cp")
    ensures Resolve(CompatEnv, ANTHROPIC_API_KEY) == None
    ensures Resolve(CompatEnv, AI_GATEWAY_BASE_URL) == Some("https://x/compat/")
    ensures Resolve(CompatEnv, OPENAI_BASE_URL) == Some("https://x/compat/")
    ensures Resolve(CompatEnv, ANTHROPIC_BASE_URL) == None
  {
    CompatEnvUrl();
    CompatEnvKeys();
    CompatUrlSelectsCompat();
    CompatModeCredentials(CompatEnv);
    BaseUrlRouting(CompatEnv);
  }

  /** Anthropic mode with both a gateway key and a direct Anthropic key. */
  const BothKeysEnv: MoltbotEnv :=
    NoConfig.(gatewayApiKey := Some("gk"), anthropicApiKey := Some("direct"))

  /** The gateway key wins; the direct key does not overwrite it. */
  lemma GatewayWinsExample()
    ensures Resolve(BothKeysEnv, ANTHROPIC_API_KEY) == Some("gk")
    ensures Resolve(BothKeysEnv, OPENAI_API_KEY) == None
  {
    TrimOrUndefinedKeeps("gk");
    ModesExclusive(None);
    FallbackNeverOverwrites(BothKeysEnv);
  }

  /** A whitespace-only gateway key and a whitespace-only DEV_MODE. */
  const BlankEnv: MoltbotEnv :=
    NoConfig.(gatewayApiKey := Some(" "), devMode := Some(" "))

  /** The gateway key is trimmed away and emits nothing, while DEV_MODE, which is not
      trimmed, is passed on as the single space it holds. */
  lemma WhitespaceExample()
    ensures Resolve(BlankEnv, ANTHROPIC_API_KEY) == None
    ensures Resolve(BlankEnv, CLAWDBOT_DEV_MODE) == Some(" ")
  {
    assert AllWhitespace(" ") by { assert " "[0] == ' '; }
    BlankInputsSetNothing(BlankEnv, ANTHROPIC_API_KEY);
    PassThroughVerbatim(BlankEnv);
  }
}

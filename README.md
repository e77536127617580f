# buildEnvVars: the Moltbot container environment, modelled in Dafny

`buildEnvVars` (src/gateway/env.ts) takes the Cloudflare worker's configuration bindings
and builds the flat record of environment variables that is handed to the Moltbot
container process. It works in four steps.

1. **Trim.** It trims the seven gateway and provider inputs. A value that is only
   whitespace counts as unset.
2. **Classify.** It works out the AI Gateway endpoint mode from the trimmed base URL,
   ignoring trailing slashes. A URL ending in `/compat` selects compat mode, one ending
   in `/openai` selects OpenAI mode, and anything else selects Anthropic mode.
3. **Route credentials and base URLs.** It places the credentials and base URLs under
   the names the mode calls for. Direct provider keys fill only what the gateway left
   unset.
4. **Pass through.** It copies eleven further bindings untrimmed. Two of them are
   renamed: MOLTBOT_GATEWAY_TOKEN becomes CLAWDBOT_GATEWAY_TOKEN and DEV_MODE becomes
   CLAWDBOT_DEV_MODE.

The project has four modules.

- `Options` (options.dfy): `Option`, the model of `string | undefined`.
- `JsString` (js_string.dfy): the three ECMAScript string operations the builder uses.
  - `trim`, over the WhiteSpace and LineTerminator code points of sections 12.2 and 12.3
    of ECMA-262.
  - `endsWith`.
  - `replace(/\/+$/, '')`.
- `GatewayEnv` (gateway_env.dfy): the worker bindings (`MoltbotEnv`), `trimOrUndefined`,
  the endpoint classification, and `BuildEnvVars`.
  - `BuildEnvVars` is a method that fills a `map<string, string>` section by section, in
    the same order as the source.
  - The fallback step reads back what the gateway step wrote, as the source does at
    lines 57 and 60.
  - Its contract ties the result, key by key, to `Resolve`, a declarative reference
    definition of the final value of each variable.
- `GatewayEnvProperties` (gateway_env_properties.dfy): the guarantees of the builder,
  stated over `Resolve`, plus worked examples.
  - The guarantees cover mode exclusivity, the slash-insensitive mode, the trimming
    guarantee, compat-mode routing, gateway keys winning over direct keys, base-URL
    routing, the verbatim and renamed pass-through, and the empty configuration.

The emitted AI_GATEWAY_BASE_URL and the provider base URL are the trimmed URL, trailing
slashes kept (lines 66, 70, 72, 74). The slash-free form only selects the mode (line 28).
`CompatExample` proves this for `https://x/compat/`.

## Model

| member | source | states |
|---|---|---|
| JsString.TrimStart | src/gateway/env.ts:14 | the result is a suffix of the input, everything cut off is whitespace, and the result does not start with whitespace |
| JsString.TrimEnd | src/gateway/env.ts:14 | the result is a prefix of the input, everything cut off is whitespace, and the result does not end with whitespace |
| JsString.Trim | src/gateway/env.ts:14 | `trim` yields a string with no whitespace at either end; it is a prefix of the input with its leading whitespace removed, and it is followed only by whitespace |
| JsString.TrimFixesTrimmed | src/gateway/env.ts:14 | `trim` leaves a string unchanged exactly when the string has no whitespace at either end |
| JsString.TrimEmptyIff | src/gateway/env.ts:14-15 | `trim` yields the empty string exactly when the input is whitespace only |
| JsString.TrimIdempotent | src/gateway/env.ts:14 | trimming twice is trimming once |
| JsString.StripTrailingSlashes | src/gateway/env.ts:28 | the result is a prefix of the input, followed only by '/' characters, and does not itself end in '/' |
| JsString.StripIgnoresAppendedSlashes | src/gateway/env.ts:28 | appending any number of slashes does not change the stripped result |
| JsString.StripIdempotent | src/gateway/env.ts:28 | stripping twice is stripping once |
| JsString.EndsWith | src/gateway/env.ts:29-30 | `endsWith`: the string's last characters are the suffix (a predicate, no contract) |
| GatewayEnv.Truthy | src/gateway/env.ts:39-90 | JavaScript truthiness of an optional string as the `if` tests use it: set and not empty (a predicate, no contract) |
| GatewayEnv.TrimInputs | src/gateway/env.ts:19-25 | `trimOrUndefined` applied to each of the seven gateway and provider bindings (no contract; its fields are described by `TrimOrUndefined` and `TrimmedInputShape`) |
| GatewayEnv.IsCompatGateway | src/gateway/env.ts:29 | `isCompatGateway`: the normalized base URL ends with `/compat` (a predicate, no contract) |
| GatewayEnv.IsOpenAIGateway | src/gateway/env.ts:30 | `isOpenAIGateway`: the normalized base URL ends with `/openai` (a predicate, no contract) |
| GatewayEnv.PassThroughSource | src/gateway/env.ts:80-90 | the binding each of the eleven pass-through variables is copied from, including the two renamings (no contract; see `PassThroughVerbatim`) |
| GatewayEnv.PassThroughVars | src/gateway/env.ts:80-90 | the eleven pass-through copies taken together: each variable whose binding is truthy, with the binding's value untrimmed (no contract; see `SetPassThrough`) |
| GatewayEnv.TrimOrUndefined | src/gateway/env.ts:13-16 | the result is unset exactly when the input is unset or whitespace only; otherwise it is the trimmed input and is not empty |
| GatewayEnv.NormalizedUrl | src/gateway/env.ts:28 | an unset base URL gives `''`; a set one gives a prefix of it, followed only by slashes, that does not end in a slash |
| GatewayEnv.GatewayValue | src/gateway/env.ts:34-78 | a gateway or provider value is set only under one of the seven gateway and provider names, and never to the empty string |
| GatewayEnv.Resolve | src/gateway/env.ts:9-93 | a variable is set only under one of the eighteen output names, and never to the empty string |
| GatewayEnv.SetCredentials | src/gateway/env.ts:34-62 | after the credential section, each of the four credential names holds the value the mode routes to it, direct keys filling only what the gateway left unset, and no other name is set |
| GatewayEnv.SetBaseUrl | src/gateway/env.ts:64-78 | the base-URL section sets each of the three base-URL names as the mode routes and leaves every other entry unchanged |
| GatewayEnv.SetPassThrough | src/gateway/env.ts:79-90 | each of the eleven pass-through names holds its input exactly when the input is truthy, and every other entry is unchanged |
| GatewayEnv.KeyGroupsDisjoint | src/gateway/env.ts:34-90 | the credential, base-URL and pass-through sections write disjoint sets of names |
| GatewayEnv.BuildEnvVars | src/gateway/env.ts:9-93 | every variable of the returned record equals the reference definition `Resolve`; only the eighteen output names are set, none to the empty string |
| GatewayEnvProperties.ModesExclusive | src/gateway/env.ts:28-30 | compat and OpenAI mode never hold together, and neither holds without a base URL |
| GatewayEnvProperties.ModeIgnoresTrailingSlashes | src/gateway/env.ts:27-30 | appending any number of slashes to a base URL does not change its mode |
| GatewayEnvProperties.TrimmedInputShape | src/gateway/env.ts:13-25 | a trimmed input is present exactly when its binding is set and not whitespace only, and then it is the trim of the binding, non-empty and already trimmed |
| GatewayEnvProperties.GatewayValueProvenance | src/gateway/env.ts:34-78 | every gateway or provider value is one of the seven trimmed inputs |
| GatewayEnvProperties.TrimmedValuesComeFromInputs | src/gateway/env.ts:18-25 | every value under a gateway or provider name is non-empty, is its own trim, and is the trim of one of the seven inputs |
| GatewayEnvProperties.BlankInputsSetNothing | src/gateway/env.ts:12-25 | when all seven gateway and provider inputs are unset or whitespace only, none of the seven gateway and provider names is set |
| GatewayEnvProperties.CompatModeCredentials | src/gateway/env.ts:34-47 | in compat mode OPENAI_API_KEY is the provider key, else the direct OpenAI key; CF_AIG_AUTHORIZATION is the gateway key; AI_GATEWAY_CUSTOM_PROVIDER is the custom provider; ANTHROPIC_API_KEY is the direct Anthropic key |
| GatewayEnvProperties.CompatOnlyVariables | src/gateway/env.ts:34-54 | outside compat mode CF_AIG_AUTHORIZATION and AI_GATEWAY_CUSTOM_PROVIDER are never set |
| GatewayEnvProperties.GatewayKeyOutsideCompat | src/gateway/env.ts:48-54 | outside compat mode the gateway key becomes OPENAI_API_KEY for an `/openai` endpoint and ANTHROPIC_API_KEY otherwise, including when there is no base URL |
| GatewayEnvProperties.FallbackNeverOverwrites | src/gateway/env.ts:56-62 | ANTHROPIC_API_KEY and OPENAI_API_KEY hold the gateway-derived key whenever there is one, and the direct key only otherwise |
| GatewayEnvProperties.BaseUrlRouting | src/gateway/env.ts:64-78 | with a base URL, AI_GATEWAY_BASE_URL is the trimmed URL and so is exactly one of OPENAI_BASE_URL (compat or OpenAI mode) and ANTHROPIC_BASE_URL (otherwise); without one, only the direct ANTHROPIC_BASE_URL can be set |
| GatewayEnvProperties.PassThroughVerbatim | src/gateway/env.ts:79-90 | each of the eleven pass-through variables is its input, untrimmed, exactly when the input is a non-empty string; MOLTBOT_GATEWAY_TOKEN and DEV_MODE are never emitted under their own names |
| GatewayEnvProperties.EmptyConfigEmptyOutput | src/gateway/env.ts:10 | with every binding unset, no variable is set |
| GatewayEnvProperties.TrimOrUndefinedKeeps | src/gateway/env.ts:13-16 | a non-empty input with no whitespace at either end passes through `trimOrUndefined` unchanged |
| GatewayEnvProperties.CompatEnvUrl | src/gateway/env.ts:19 | the compat example's base URL `https://x/compat/` is kept as written by trimming |
| GatewayEnvProperties.CompatEnvKeys | src/gateway/env.ts:20-23 | the compat example's three keys are kept as written by trimming, and its Anthropic key is unset |
| GatewayEnvProperties.CompatUrlSelectsCompat | src/gateway/env.ts:28-29 | `https://x/compat/` selects compat mode |
| GatewayEnvProperties.CompatExample | src/gateway/env.ts:34-78 | for `https://x/compat/` with keys pk, gk and cp: OPENAI_API_KEY=pk, CF_AIG_AUTHORIZATION=gk, AI_GATEWAY_CUSTOM_PROVIDER=cp, and both base-URL variables are `https://x/compat/` with its slash; ANTHROPIC_API_KEY and ANTHROPIC_BASE_URL are unset |
| GatewayEnvProperties.GatewayWinsExample | src/gateway/env.ts:48-59 | with gateway key gk and direct Anthropic key `direct`, ANTHROPIC_API_KEY=gk and OPENAI_API_KEY is unset |
| GatewayEnvProperties.WhitespaceExample | src/gateway/env.ts:20-81 | a single-space gateway key emits nothing, while a single-space DEV_MODE is emitted as CLAWDBOT_DEV_MODE unchanged |

## Left out

- The other fields of the `MoltbotEnv` binding type are left out. The builder reads only the eighteen modelled here, and the type's declaration (src/types.ts) is not part of this model.
- The insertion order of keys in the returned JavaScript object is not modelled. The result is a `map`, which has no order.
- The regular expression engine is not modelled. `replace(/\/+$/, '')` is modelled directly as the removal of every trailing '/'.
- The whitespace set is fixed to the code points ECMA-262 lists together with the current Unicode `Zs` category. A later Unicode version that adds space separators is not tracked.
- GatewayEnv.SetPassThrough applies the eleven independent assignments of lines 80-90 as one map union. Each assignment writes a different key that nothing earlier has set, so the final map is the same. The order in which the keys are added is not represented.
- GatewayEnv.BuildEnvVars calls three section methods instead of one straight-line body. The sections and their order are those of the source.
- Strings are sequences of Dafny `char`, which are Unicode scalar values. JavaScript strings are sequences of UTF-16 code units and may hold lone surrogates, which the model cannot represent. Nothing the builder does depends on the difference: every whitespace code point `trim` removes lies in the Basic Multilingual Plane, `/compat` and `/openai` are ASCII, stripping looks only at '/', and truthiness only asks whether a string is empty.
- Whether a token, policy or URL is well formed is not checked by the source, and so not by the model.
- What the container does with the variables is outside this model.

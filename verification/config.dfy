/** Effective engine settings, chosen from the loaded configuration with the
    `||` fallbacks of src/engine/openAi.ts (lines 22-27 and 47). */
module Config {
  import opened Wrappers

  /** The keys the engine reads from the configuration loader. `None` is an
      absent key; a loader that returns no configuration at all behaves as a
      `RawConfig` whose every key is absent. */
  datatype RawConfig = RawConfig(
    maxTokensOutput: Option<int>,
    maxTokensInput: Option<int>,
    basePath: Option<string>,
    apiKey: Option<string>,
    apiType: Option<string>,
    azureApiVersion: Option<string>,
    model: Option<string>)

  /** The loader's `DEFAULT_TOKEN_LIMITS`; their values live outside this model. */
  datatype DefaultTokenLimits = DefaultTokenLimits(maxTokensInput: int, maxTokensOutput: int)

  /** The module-level constants the engine works with. */
  datatype Settings = Settings(
    maxTokensOutput: int,
    maxTokensInput: int,
    basePath: Option<string>,
    apiKey: Option<string>,
    apiType: string,
    azureApiVersion: Option<string>,
    model: string)

  const DefaultModel: string := "gpt-3.5-turbo"
  const DefaultApiType: string := "openai"

  /** JavaScript truthiness of an optional number (NaN does not occur in `int`). */
  predicate TruthyInt(v: Option<int>) {
    v.Some? && v.value != 0
  }

  /** JavaScript truthiness of an optional string. */
  predicate TruthyString(v: Option<string>) {
    v.Some? && v.value != ""
  }

  /** `v || fallback` on numbers. */
  function IntOr(v: Option<int>, fallback: int): int {
    if TruthyInt(v) then v.value else fallback
  }

  /** `v || fallback` on strings. */
  function StringOr(v: Option<string>, fallback: string): string {
    if TruthyString(v) then v.value else fallback
  }

  /** Reads the configuration once: limits, provider type and model fall back
      to their defaults when absent or falsy; the other keys pass through. */
  function Resolve(c: RawConfig, d: DefaultTokenLimits): (s: Settings)
    ensures TruthyInt(c.maxTokensOutput) ==> s.maxTokensOutput == c.maxTokensOutput.value
    ensures !TruthyInt(c.maxTokensOutput) ==> s.maxTokensOutput == d.maxTokensOutput
    ensures TruthyInt(c.maxTokensInput) ==> s.maxTokensInput == c.maxTokensInput.value
    ensures !TruthyInt(c.maxTokensInput) ==> s.maxTokensInput == d.maxTokensInput
    ensures TruthyString(c.apiType) ==> s.apiType == c.apiType.value
    ensures !TruthyString(c.apiType) ==> s.apiType == DefaultApiType
    ensures TruthyString(c.model) ==> s.model == c.model.value
    ensures !TruthyString(c.model) ==> s.model == DefaultModel
    ensures s.model != "" && s.apiType != ""
    ensures s.basePath == c.basePath && s.apiKey == c.apiKey && s.azureApiVersion == c.azureApiVersion
  {
    Settings(
      IntOr(c.maxTokensOutput, d.maxTokensOutput),
      IntOr(c.maxTokensInput, d.maxTokensInput),
      c.basePath,
      c.apiKey,
      StringOr(c.apiType, DefaultApiType),
      c.azureApiVersion,
      StringOr(c.model, DefaultModel))
  }

  /** Writes effective settings back as a configuration with every key present. */
  function AsRawConfig(s: Settings): RawConfig {
    RawConfig(Some(s.maxTokensOutput), Some(s.maxTokensInput), s.basePath, s.apiKey,
              Some(s.apiType), s.azureApiVersion, Some(s.model))
  }

  /** Resolution is a fixpoint: feeding the effective settings back in as the
      configuration yields the same settings, whatever the defaults, as long as
      the first resolution left no zero limit behind. */
  lemma ResolveIsFixpoint(c: RawConfig, d: DefaultTokenLimits, d': DefaultTokenLimits)
    requires d.maxTokensInput != 0 && d.maxTokensOutput != 0
    ensures Resolve(AsRawConfig(Resolve(c, d)), d') == Resolve(c, d)
  {
  }

  /** An absent key and a falsy one are indistinguishable, key by key: a zero
      limit, an empty provider type or an empty model name resolves exactly as
      if it were unset. */
  lemma FalsyIsAbsent(c: RawConfig, d: DefaultTokenLimits)
    ensures c.maxTokensOutput == Some(0) ==> Resolve(c, d) == Resolve(c.(maxTokensOutput := None), d)
    ensures c.maxTokensInput == Some(0) ==> Resolve(c, d) == Resolve(c.(maxTokensInput := None), d)
    ensures c.apiType == Some("") ==> Resolve(c, d) == Resolve(c.(apiType := None), d)
    ensures c.model == Some("") ==> Resolve(c, d) == Resolve(c.(model := None), d)
    ensures c.model == Some("") ==> Resolve(c, d).model == "gpt-3.5-turbo"
    ensures c.apiType == Some("") ==> Resolve(c, d).apiType == "openai"
  {
  }

  /** The token budget is positive when the defaults are and the configured
      limits are not negative. */
  lemma ResolvedLimitsPositive(c: RawConfig, d: DefaultTokenLimits)
    requires d.maxTokensInput > 0 && d.maxTokensOutput > 0
    requires c.maxTokensInput.Some? ==> c.maxTokensInput.value >= 0
    requires c.maxTokensOutput.Some? ==> c.maxTokensOutput.value >= 0
    ensures Resolve(c, d).maxTokensInput > 0 && Resolve(c, d).maxTokensOutput > 0
  {
  }
}

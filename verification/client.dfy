/** The client configuration the `OpenAi` constructor derives from the
    settings (src/engine/openAi.ts lines 49-78): the provider switch. */
module Client {
  import opened Wrappers
  import opened Config

  /** The two branches of the switch. Every provider type other than
      `"azure"`, including unrecognised ones, takes the `'openai'` branch. */
  datatype Provider = Azure | OpenAi

  /** Extra headers and query parameters sent with every request; a value is
      `None` when the setting it copies is `undefined`. */
  datatype BaseOptions = BaseOptions(headers: map<string, Option<string>>, params: map<string, Option<string>>)

  /** `basePath == None` leaves the client library's own default endpoint;
      `baseOptions == None` adds nothing to its bearer-token authentication. */
  datatype ClientConfiguration = ClientConfiguration(
    apiKey: Option<string>,
    basePath: Option<string>,
    baseOptions: Option<BaseOptions>)

  const ApiKeyHeader: string := "api-key"
  const ApiVersionParam: string := "api-version"
  const DeploymentsSegment: string := "openai/deployments/"

  /** Which branch of the switch a provider type takes. */
  function ProviderOf(apiType: string): Provider {
    if apiType == "azure" then Azure else OpenAi
  }

  /** The Azure deployment endpoint: the base path, the fixed segment and the
      model name, concatenated with no separator inserted. */
  function DeploymentPath(basePath: string, model: string): string {
    basePath + DeploymentsSegment + model
  }

  function Configure(s: Settings): (c: ClientConfiguration)
    ensures c.apiKey == s.apiKey
    ensures s.apiType == "azure" ==>
      c.baseOptions == Some(BaseOptions(map[ApiKeyHeader := s.apiKey], map[ApiVersionParam := s.azureApiVersion]))
    ensures s.apiType != "azure" ==> c.baseOptions == None
    ensures c.basePath.Some? <==> TruthyString(s.basePath)
    ensures c.basePath.Some? && s.apiType == "azure" ==>
      c.basePath.value == s.basePath.value + "openai/deployments/" + s.model
    ensures c.basePath.Some? && s.apiType != "azure" ==> c.basePath == s.basePath
  {
    var path := if TruthyString(s.basePath) then Some(s.basePath.value) else None;
    match ProviderOf(s.apiType)
    case Azure =>
      ClientConfiguration(
        s.apiKey,
        if path.Some? then Some(DeploymentPath(path.value, s.model)) else None,
        Some(BaseOptions(map[ApiKeyHeader := s.apiKey], map[ApiVersionParam := s.azureApiVersion])))
    case OpenAi =>
      ClientConfiguration(s.apiKey, path, None)
  }

  /** Unrecognised provider types are not errors: they configure the client
      exactly as `'openai'` does. */
  lemma UnknownProviderActsAsOpenAi(s: Settings)
    requires s.apiType != "azure"
    ensures Configure(s) == Configure(s.(apiType := "openai"))
    ensures Configure(s).baseOptions == None
  {
  }

  /** Only the Azure branch sets extra headers and query parameters, and it
      sets exactly the `api-key` header and the `api-version` parameter. */
  lemma BaseOptionsOnlyForAzure(s: Settings)
    ensures Configure(s).baseOptions.Some? <==> s.apiType == "azure"
    ensures Configure(s).baseOptions.Some? ==>
      Configure(s).baseOptions.value.headers.Keys == {"api-key"} &&
      Configure(s).baseOptions.value.params.Keys == {"api-version"}
  {
  }

  /** An Azure base path of `https://x.example/` with model `gpt-4` yields the
      endpoint `https://x.example/openai/deployments/gpt-4` and the raw key
      in an `api-key` header. */
  lemma AzureExample(key: string)
    ensures var c := Configure(Settings(500, 4096, Some("https://x.example/"), Some(key), "azure", Some("2023-05-15"), "gpt-4"));
      c.basePath == Some("https://x.example/openai/deployments/gpt-4") &&
      c.baseOptions.Some? && c.baseOptions.value.headers["api-key"] == Some(key)
  {
    assert DeploymentPath("https://x.example/", "gpt-4") == "https://x.example/openai/deployments/gpt-4";
  }
}

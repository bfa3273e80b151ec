/** The records the `create` command produces: the metadata it threads from
    function creation to the end, the configuration it saves, and the summary
    it resolves with. */
module Results {
  import opened Types

  /** The execution role, as `getRole` or `createRole` describe it. */
  datatype Role = Role(roleName: string, arn: string)

  /** The part of the `createFunction` response the command reads. */
  datatype FunctionData = FunctionData(functionName: string, version: string)

  /** The web API part attached by `createWebApi`; `deploy` holds a truthy
      post-deploy result. */
  datatype ApiInfo = ApiInfo(id: string, apiModule: string, url: string, deploy: Option<Token>)

  /** The function metadata, with the web API part once one is created. */
  datatype LambdaMetadata = LambdaMetadata(data: FunctionData, api: Option<ApiInfo>)

  datatype LambdaConfig = LambdaConfig(role: string, name: string, region: string)

  datatype SavedApi = SavedApi(id: string, apiModule: string)

  /** The record written to the config file. */
  datatype SavedConfig = SavedConfig(lambda: LambdaConfig, api: Option<SavedApi>)

  /** The value the command resolves with. */
  datatype Summary = Summary(lambda: LambdaConfig, api: Option<ApiInfo>)

  function LambdaPart(roleName: string, region: string, meta: LambdaMetadata): LambdaConfig {
    LambdaConfig(roleName, meta.data.functionName, region)
  }

  /** `saveConfig`'s record: the web API is saved as its id and module only. */
  function SavedConfigFor(roleName: string, region: string, meta: LambdaMetadata): SavedConfig {
    SavedConfig(LambdaPart(roleName, region, meta),
                if meta.api.Some? then Some(SavedApi(meta.api.value.id, meta.api.value.apiModule)) else None)
  }

  /** `formatResult`: the same lambda part and the whole web API object. */
  function FormatResult(roleName: string, region: string, meta: LambdaMetadata): Summary {
    Summary(LambdaPart(roleName, region, meta), meta.api)
  }

  /** What the saved file keeps of a summary. */
  function Persisted(s: Summary): SavedConfig {
    SavedConfig(s.lambda, if s.api.Some? then Some(SavedApi(s.api.value.id, s.api.value.apiModule)) else None)
  }

  /** The saved record and the returned summary agree: the same lambda part
      {role, name, region}, a web API part in both or in neither, the saved
      one holding only the id and module of the returned one, which is the
      whole attached object. */
  lemma SavedConfigIsPersistedSummary(roleName: string, region: string, meta: LambdaMetadata)
    ensures SavedConfigFor(roleName, region, meta) == Persisted(FormatResult(roleName, region, meta))
    ensures FormatResult(roleName, region, meta).lambda == LambdaConfig(roleName, meta.data.functionName, region)
    ensures FormatResult(roleName, region, meta).api == meta.api
  {
  }
}

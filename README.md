# claudia `create` — a Dafny model

This project models the `create` command of claudia,
`src/commands/create.js`. The command deploys a Node.js project as a new AWS
Lambda function. In order, it:

- validates the options and the source folder;
- reads the project name and description from package.json;
- packages and zips the project;
- obtains an IAM execution role, either an existing one (`--role`) or a new
  `<name>-executor` role;
- attaches the `log-writer` policy, the extra policy files and, optionally,
  the self-invocation policy;
- creates the function, retrying while the new role propagates;
- marks the `latest` alias and, optionally, a named version alias;
- with `--api-module`, creates and deploys an API Gateway REST API from the
  module's `apiConfig`;
- writes `claudia.json` and resolves with a summary.

## How it is modelled

- `Types`: the options record `Options`, with absent options as `None` and
  JavaScript truthiness as `Given`. It also holds the facts the command
  reads from the machine (`Env`: working and temp directories, whether the
  config file and package.json exist, the matched policy files, and the
  path helpers as function values), plus `Option`, `Result` and `Rejection`.
- `Validation`: `validationError` as an if-chain (`ValidationError`). Two
  independent references are proved equal to it: the conjunction of every
  rule (`Acceptable`) and an ordered list of checks decided by the first
  failure (`Checks`, `FirstFailure`).
- `JsText`: `String.prototype.trim` over the ECMAScript whitespace set.
- `Derivations`: the small pure pieces:
  - name and description resolution;
  - the policy-name sanitiser;
  - the recursion policy document and a parser that reads its resource ARN
    back;
  - the `createFunction` request, its handler and runtime defaults, and the
    retry budget and predicate;
  - the web API stage alias.
- `Results`: the function metadata, the saved config (`saveConfig`) and the
  summary (`formatResult`).
- `Pipeline`: the promise chain as a trace.
  - Every remote or file-system step is a `Call`.
  - A `World` fixes how each step settles: the value for steps whose result
    the command uses, and `settle` for the steps whose resolved value it
    ignores.
  - `Create` gives the calls issued, the closure variables assigned and the
    settlement. It is built from one function per stage (`Prepare`,
    `Package`, `LoadRole`, `Identity`, `Permissions`, `CreateLambda`,
    `MarkAliases`, `WebApi`, `DeployApi`, `Save`), chained by continuations
    (`AfterPrepare` … `Finish`).
- `PipelineProperties`: the properties of the trace:
  - every call has the shape and preconditions its stage gives it
    (`Issuable`);
  - calls come stage after stage (`Ordered` by `Rank`);
  - a run stops at its first failure (`StopsAtFailure`);
  - a run resolves exactly when the full plan of calls (`SuccessTrace`)
    resolves, and then it resolves with `SummaryOf`.
- `Command`: the imperative form of the chain. Class `CreateCommand` keeps
  the issued calls in `trace` and the closure variables of `create` as
  fields, and runs the stages one at a time. Each stage method is proved to
  produce exactly the calls, variables and result of its `Pipeline` function.
- `Guarantees`: user-level consequences of the trace, each stated for every
  options record, environment and world:
  - success implies validation passed;
  - the config is written last;
  - each conditional step appears exactly when its option is set;
  - a module without `apiConfig` rejects before any gateway call;
  - `deploy` is attached only for a truthy post-deploy result.

### Where the code and its option documentation differ

The option documentation of the command is at create.js:319-415. The model
follows the code at each of these points:

- The `api-module` entry says that with it given, the `handler` option is
  ignored (create.js:338). With both given, the code builds `Handler` from
  `handler` (create.js:112). `Derivations.ValidatedHandler` and
  `Guarantees.FunctionCreatedAsConfigured` state this.
- The `runtime` entry gives the default as `node4.3` (create.js:389). The
  code uses `nodejs4.3` (create.js:114). `Derivations.Runtime` states this.
- The `memory` and `timeout` entries give defaults of 128 and 3
  (create.js:400 and 406). The code passes both options to `createFunction`
  as given, absent when absent (create.js:110-111), which leaves the default
  to Lambda. `Guarantees.FunctionCreatedAsConfigured` states this.

### Behaviour that is easy to misread

- At least one of `handler` and `api-module` is required, and both are
  accepted (create.js:47). `Validation.ValidationPassesIff` states this.
- The `latest` alias points at `$LATEST` (create.js:130). Only the named
  alias points at the published version (create.js:133).
  `Guarantees.AliasesFollowVersion` states this.
- The `log-writer` policy is attached to an existing `--role` as well as to
  a new role (create.js:291). `Guarantees.LogWriterAttachedToEveryRole`
  states this.

## Model

| member | source | states |
|---|---|---|
| Validation.MemoryError | src/commands/create.js:68-78 | a memory value passes exactly when it is within 128..1536 and a multiple of 64; below 128, above 1536 and off the 64 step each give their own message |
| Validation.TimeoutError | src/commands/create.js:79-86 | a timeout passes exactly when it is within 1..300; too low and too high each give their own message |
| Validation.ValidationError | src/commands/create.js:40-87 | the validator: the message of the first rule that fails, or none; its meaning is stated by `Validation.ValidationPassesIff` (no message exactly when every rule holds) and `Validation.ValidationErrorIsFirstFailure` (the first failing rule in source order) |
| Validation.ValidationPassesIff | src/commands/create.js:40-87 | validation reports nothing exactly when every rule holds: not the temp dir, region given, a handler or an API module (both allowed), no '/' in either, no existing config, package.json present, policy files matched when `policies` is given, memory and timeout within their rules |
| Validation.ValidationErrorIsFirstFailure | src/commands/create.js:40-87 | the message reported is the message of the first failing rule in the order the command checks them, so an earlier failure hides a later one |
| JsText.TrimIsMiddle | src/commands/create.js:91-92 | the trimmed string is a contiguous slice of the input, only whitespace is removed before and after it, and it neither starts nor ends with whitespace |
| JsText.TrimIdempotent | src/commands/create.js:91-92 | trimming a trimmed string changes nothing |
| Derivations.ResolveName | src/commands/create.js:91-95 | the `name` option wins when given; otherwise the name is the trimmed package name, used when it is non-empty; otherwise the name is rejected with the missing-name message; a resolved name is never empty |
| Derivations.PackageNameIsTrimmed | src/commands/create.js:91 | a name taken from package.json is its trimmed form and has no whitespace at either end |
| Derivations.ResolveDescription | src/commands/create.js:92 | the `description` option wins when given; otherwise the description is the trimmed package.json description when there is one, and absent when there is none |
| Derivations.ResolvePackageInfo | src/commands/create.js:88-100 | package info resolves exactly when a name resolves, carrying that name and the resolved description; otherwise it rejects with the missing-name message |
| Derivations.PolicyName | src/commands/create.js:248 | the policy-name sanitiser; `Derivations.PolicyNameMapsEachChar`, `PolicyNameIsSafe`, `PolicyNameIdempotent` and `PolicyNameFixedIff` state what it returns |
| Derivations.PolicyNameMapsEachChar | src/commands/create.js:248 | the policy name has the file name's length, and each character is kept when it lies in A..z or 0..9 and becomes '-' otherwise |
| Derivations.PolicyNameIsSafe | src/commands/create.js:248 | every character of a policy name is in the kept range or is '-' |
| Derivations.PolicyNameIdempotent | src/commands/create.js:248 | sanitising a policy name a second time changes nothing |
| Derivations.PolicyNameFixedIff | src/commands/create.js:248 | a file name is left unchanged exactly when all its characters are kept characters or '-' |
| Derivations.RecursionPolicy | src/commands/create.js:252-264 | the self-invocation policy document; `Derivations.RecursionPolicyAllowsOnlySelf` states that it allows only invoking the function itself |
| Derivations.RecursionPolicyAllowsOnlySelf | src/commands/create.js:252-264 | the recursion policy has version 2012-10-17 and a single Allow statement for lambda:InvokeFunction, whose resource reads back as the command's own region and function name |
| Derivations.RecursionResourceRoundTrip | src/commands/create.js:261 | parsing the resource ARN gives back exactly the region and the function name it was built from (for regions without ':') |
| Derivations.LambdaHandler | src/commands/create.js:112 | the `Handler` parameter; `Derivations.ValidatedHandler` states which module it names after validation |
| Derivations.ValidatedHandler | src/commands/create.js:112 | once validation passes, `Handler` is the `handler` option when given (even alongside an API module), else `<api-module>.router`, and in both cases has no '/' |
| Derivations.FunctionRequestFor | src/commands/create.js:105-116 | the `createFunction` request; `Guarantees.FunctionCreatedAsConfigured` states its handler, runtime, memory, timeout and publish flag for every issued creation, and `PipelineProperties.CreateLambdaConforms` the name, description, code and role it carries |
| Derivations.Runtime | src/commands/create.js:114 | `Runtime` is the `runtime` option when given, else nodejs4.3, and is never empty |
| Derivations.IsRetriable | src/commands/create.js:119-121 | an error is retried exactly when it has a cause whose message is the policy's retried message |
| Derivations.CreateRetryRetriesOnlyRolePropagation | src/commands/create.js:117-121 | function creation waits 3000 ms, passes 10 as the helper's count, and retries an error exactly when its cause's message is the role-cannot-be-assumed message |
| Derivations.StageAlias | src/commands/create.js:141 | the API stage is the `version` option when given, else `latest`, and is never empty |
| Results.SavedConfigFor | src/commands/create.js:199-218 | the record `saveConfig` writes; `Results.SavedConfigIsPersistedSummary` relates it to the summary |
| Results.FormatResult | src/commands/create.js:219-231 | the summary `formatResult` returns; `Results.SavedConfigIsPersistedSummary` states its lambda part and that its API part is the whole metadata object |
| Results.SavedConfigIsPersistedSummary | src/commands/create.js:199-231 | the saved config is what the summary keeps on disk: the same role, name and region, and an API entry in both or in neither, the saved one holding only the id and module of the summary's full API object |
| Pipeline.Create | src/commands/create.js:269-316 | the whole command as calls, closure variables and settlement; `PipelineProperties.CreateSucceedsIff`, `CreateStopsAtFirstFailure`, `CreateIssuesOnlyIssuableCalls`, `CreateInStageOrder` and `ValidationGuardsEveryCall` state its meaning |
| Pipeline.Prepare | src/commands/create.js:272-285 | `getPackageInfo` followed by the package stage; `PipelineProperties.PrepareConforms` states its meaning |
| Pipeline.Package | src/commands/create.js:275-285 | collect, validate and zip; `PipelineProperties.PackageConforms` states its meaning |
| Pipeline.LoadRole | src/commands/create.js:232-245 | `loadRole`; `PipelineProperties.LoadRoleConforms` states its meaning |
| Pipeline.AttachPolicies | src/commands/create.js:246-251 | `addExtraPolicies` over the matched files; `PipelineProperties.AttachPoliciesConforms` states its meaning |
| Pipeline.Permissions | src/commands/create.js:290-303 | log-writer, extra policies and recursion policy; `PipelineProperties.PermissionsConforms` states its meaning |
| Pipeline.ExtraPermissions | src/commands/create.js:292-303 | the two conditional permission steps; `PipelineProperties.ExtraPermissionsConforms` states its meaning |
| Pipeline.Identity | src/commands/create.js:286-303 | the role and its permissions; `PipelineProperties.IdentityConforms` states its meaning |
| Pipeline.CreateLambda | src/commands/create.js:304-307 | reading the archive and `createLambda`; `PipelineProperties.CreateLambdaConforms` states its meaning |
| Pipeline.MarkAliases | src/commands/create.js:128-138 | `markAliases`; `PipelineProperties.MarkAliasesConforms` and `Guarantees.AliasesFollowVersion` state its meaning |
| Pipeline.WebApi | src/commands/create.js:139-172 | `createWebApi` up to the REST API; `PipelineProperties.WebApiConforms` and `Guarantees.MissingApiConfigRejects` state its meaning |
| Pipeline.DeployApi | src/commands/create.js:173-197 | the rebuild, `postDeploy` and the `deploy` field; `PipelineProperties.DeployApiSettles` and `Guarantees.DeployAttachedOnlyWhenTruthy` state its meaning |
| Pipeline.Save | src/commands/create.js:199-218 | `saveConfig`; `Guarantees.ConfigWrittenLast` states that it is the only write and comes last |
| Pipeline.AfterPrepare | src/commands/create.js:286-316 | the chain after preparation; `PipelineProperties.AfterPrepareConforms` states its meaning |
| Pipeline.AfterIdentity | src/commands/create.js:304-316 | the chain after the role and its permissions; `PipelineProperties.AfterIdentityConforms` states its meaning |
| Pipeline.AfterLambda | src/commands/create.js:308-316 | the chain after function creation; `PipelineProperties.AfterLambdaConforms` states its meaning |
| Pipeline.AfterAliases | src/commands/create.js:309-316 | the chain after the aliases; `PipelineProperties.AfterAliasesConforms` states its meaning |
| Pipeline.AfterWebApi | src/commands/create.js:316 | the chain after the web API; `PipelineProperties.AfterWebApiConforms` states its meaning |
| Pipeline.Finish | src/commands/create.js:316 | `saveConfig` then `formatResult`; `PipelineProperties.FinishConforms` states its meaning |
| PipelineProperties.PrepareConforms | src/commands/create.js:272-285 | preparation stops at its first failure and issues only well-formed calls; it resolves exactly when package.json gives a name and collecting, validating and zipping succeed, and then it issued the four planned calls and returns the name, description, package dir and archive |
| PipelineProperties.PackageConforms | src/commands/create.js:275-285 | packaging resolves exactly when collecting, validating and zipping succeed, and then it issued those three calls and returns the validated dir and the zip |
| PipelineProperties.LoadRoleConforms | src/commands/create.js:232-245 | role loading gets the named role when `role` is given, else reads the `lambda-exector-policy.json` trust template and creates `<name>-executor` with it; it resolves exactly when those calls do, with that role |
| PipelineProperties.AttachPoliciesConforms | src/commands/create.js:246-251 | each matched policy file is attached in order under its sanitised name, stopping at the first rejection; it resolves exactly when every attachment does |
| PipelineProperties.PermissionsConforms | src/commands/create.js:290-303 | the permission stage attaches log-writer, then the extra policies when `policies` is given, then the recursion policy when `allow-recursion` is set, stopping at the first failure |
| PipelineProperties.ExtraPermissionsConforms | src/commands/create.js:292-303 | the extra policies appear only with `policies` and the recursion policy only with `allow-recursion`; the stage resolves exactly when its calls do |
| PipelineProperties.IdentityConforms | src/commands/create.js:286-303 | the identity stage resolves exactly when the role loads and every permission call resolves, and then it returns that role after issuing the role calls and the permission calls |
| PipelineProperties.CreateLambdaConforms | src/commands/create.js:102-127 | the archive is read, then one function creation is issued with the configured request, a 3000 ms delay, the count 10 and the role-propagation retry predicate; the stage resolves exactly when both succeed, with the created function's data |
| PipelineProperties.MarkAliasesConforms | src/commands/create.js:128-138 | `latest` is marked on `$LATEST`, then the named alias on the published version when `version` is given; the stage resolves exactly when those calls do |
| PipelineProperties.WebApiConforms | src/commands/create.js:139-197 | without an API module nothing is issued; with one, the module is loaded, and only when it has `apiConfig` are the REST API, the rebuild and the post-deploy hook issued; on success the metadata carries the API id, module and URL |
| PipelineProperties.DeployApiSettles | src/commands/create.js:164-197 | once the REST API exists, the rebuild and, if the module has one, the post-deploy hook run in that order, stopping at the first failure; on success the metadata is the planned one |
| PipelineProperties.AfterPrepareConforms | src/commands/create.js:272-316 | after preparation, the rest of the chain resolves exactly when every planned call resolves, and then it issued exactly the success trace and resolves with the planned summary |
| PipelineProperties.AfterIdentityConforms | src/commands/create.js:286-316 | once preparation has succeeded, the rest of the chain resolves exactly when every planned call from the role onwards resolves, and then it issued exactly those calls and resolves with the planned summary |
| PipelineProperties.AfterLambdaConforms | src/commands/create.js:304-316 | once the role and its permissions are in place, the rest of the chain resolves exactly when every planned call from the archive read onwards resolves, and then it issued exactly those calls and resolves with the planned summary |
| PipelineProperties.AfterAliasesConforms | src/commands/create.js:308-316 | once the function exists, the rest of the chain resolves exactly when the planned alias, web API and save calls resolve, and then it issued exactly those calls and resolves with the planned summary |
| PipelineProperties.AfterWebApiConforms | src/commands/create.js:309-316 | once the aliases are marked, the rest of the chain resolves exactly when the planned web API calls and the config write resolve, and then it issued exactly those calls and resolves with the planned summary |
| PipelineProperties.FinishConforms | src/commands/create.js:316 | the config write is the single call of the last stage; the stage resolves exactly when the write does, with the planned summary |
| PipelineProperties.CreateInStageOrder | src/commands/create.js:272-316 | the calls of every run follow the stage order of the chain |
| PipelineProperties.ValidationGuardsEveryCall | src/commands/create.js:269-272 | a failed validation rejects with its message and issues no call; a passed one starts with reading package.json |
| PipelineProperties.CreateStopsAtFirstFailure | src/commands/create.js:272-316 | after validation, a rejecting run ends at the call that failed, every earlier call having resolved, and rejects with that call's reason or with the command's own refusal |
| PipelineProperties.CreateIssuesOnlyIssuableCalls | src/commands/create.js:272-316 | every call of any run has the arguments its stage gives it and is issued only after the outcomes it depends on |
| PipelineProperties.CreateSucceedsIff | src/commands/create.js:269-316 | the command resolves exactly when validation passes and every planned call resolves; it then issued exactly the planned calls and resolves with the planned summary |
| Command.CreateCommand.Run | src/commands/create.js:269-316 | running the stages on the object issues exactly the calls of the trace model, assigns the same closure variables, and settles the same way |
| Command.CreateCommand.PrepareStage | src/commands/create.js:272-285 | the preparation stage issues the trace model's calls, sets the name, description, package dir and archive as it does, and returns them |
| Command.CreateCommand.PackageStage | src/commands/create.js:275-285 | the packaging stage issues the trace model's calls and sets the package dir and archive |
| Command.CreateCommand.AttachExtraPolicies | src/commands/create.js:246-251 | the loop over the policy files issues the trace model's calls for the files and stops at the same rejection |
| Command.CreateCommand.IdentityStage | src/commands/create.js:286-303 | the identity stage issues the trace model's calls and records the role it returns |
| Command.CreateCommand.PermissionsStage | src/commands/create.js:290-303 | the permission stage issues the trace model's calls and settles as it does |
| Command.CreateCommand.ExtraPermissionsStage | src/commands/create.js:292-303 | the extra and recursion policies are issued as in the trace model |
| Command.CreateCommand.LambdaStage | src/commands/create.js:304-307 | the function creation issues the trace model's calls and records the function metadata |
| Command.CreateCommand.AliasStage | src/commands/create.js:128-138 | the alias stage issues the trace model's alias calls and settles as it does |
| Command.CreateCommand.WebApiStage | src/commands/create.js:139-197 | the web API stage issues the trace model's calls and updates the metadata as it does |
| Command.CreateCommand.PublishStages | src/commands/create.js:308-316 | aliases, web API and save together issue the trace model's calls and settle as it does |
| Command.CreateCommand.WebApiAndSaveStages | src/commands/create.js:309-316 | web API and save together issue the trace model's calls and settle as it does |
| Command.CreateCommand.SaveStage | src/commands/create.js:199-231 | the save stage writes the config and resolves with the summary, as in the trace model |
| Guarantees.SuccessMeansValidated | src/commands/create.js:269-316 | a successful run passed validation, had every planned call resolve, issued exactly the planned calls and returned the planned summary |
| Guarantees.PlanWritesOnlyAtTheEnd | src/commands/create.js:199-218 | the only write in the planned calls is the config write, which comes last |
| Guarantees.ConfigWrittenLast | src/commands/create.js:272-316 | in every run each call is issued only after all earlier calls resolved; the config file is the only thing written, and only as the last call; a successful run ends by writing the persisted form of its summary |
| Guarantees.ExtraPoliciesOnlyWithPolicies | src/commands/create.js:292-295 | extra policies are attached only when `policies` is given; in a successful run, every matched file was attached under its sanitised name |
| Guarantees.RecursionPolicyOnlyWithAllowRecursion | src/commands/create.js:296-303 | the recursion policy is put only with `allow-recursion` and only as the self-invocation document for the function's own name; in a successful run it is put exactly when the flag is set |
| Guarantees.LogWriterAttachedToEveryRole | src/commands/create.js:286-291 | a successful run attached log-writer to its role, including an existing `--role`; with `--role`, no role is created and the summary names that role |
| Guarantees.FunctionCreatedAsConfigured | src/commands/create.js:102-127 | every function creation is published, waits 3000 ms with count 10, retries exactly the errors whose cause is the role-cannot-be-assumed message, uses the selected handler and runtime, and passes memory and timeout as given |
| Guarantees.AliasesFollowVersion | src/commands/create.js:128-138 | every alias call is `latest` on `$LATEST` or the `version` alias on the published version, and a successful run made both (the second only with `version`) |
| Guarantees.WebApiOnlyWithApiModule | src/commands/create.js:309-315 | gateway calls happen only with an API module that has `apiConfig`; a successful run has an API in its summary exactly when `api-module` is given, with the new id, the module and the stage URL |
| Guarantees.MissingApiConfigRejects | src/commands/create.js:161-163 | when the API module has no `apiConfig`, the run rejects without creating a REST API, rebuilding, calling post-deploy or writing the config; once the module was loaded, the rejection names the module |
| Guarantees.DeployAttachedOnlyWhenTruthy | src/commands/create.js:192-197 | a successful run's API carries `deploy` exactly when the module has `postDeploy` and it resolved with a truthy value, and then carries that value |

## Left out

- The AWS SDK, the file system, `shelljs`, `os` and `path` are not modelled.
  Each step is a `Call`, and its outcome is given by the `World`. The path
  helpers (`path.join`, `path.basename`), the API URL helper and the
  directory facts are inputs in `Env`.
- The helper modules the command uses are not part of this model.
  - Eight of them become one `Call` each, carrying the arguments the command
    passes: collect-files, validate-package, zipdir, add-policy, mark-alias,
    rebuild-web-api, readjson (package.json) and template-file. The call for
    template-file carries the template name `lambda-exector-policy.json`
    and stands for reading that template.
  - apigw-url is not a call. It is the input `Env.apiUrl`.
  - retriable-wrap and promise-wrap only wrap the SDK clients and issue no
    call of their own, so they are not modelled.
- The retry helper `oh-no-i-insist` is not modelled. The creation call
  records what it is handed: the delay (3000 ms), the count argument (10),
  whose exact meaning is the helper's, and the cause message its predicate
  retries (`IsRetriable`). The `World` gives the outcome after retrying.
  The waiting and re-issuing are not modelled.
- The API Gateway rate-limit retry is not modelled, because it lives inside
  retriable-wrap.
- `Promise.map` over the policy files is modelled one file at a time,
  stopping at the first rejection. Concurrent attachment, and calls still in
  flight when another rejects, are not modelled.
- `require` of the API module and its `apiConfig()` call are one outcome:
  it threw, or it loaded with a config and a `postDeploy` flag. The
  `console.error` on a throw is not modelled.
- The contents of the `postDeploy` options and helper objects are not
  modelled, and neither are their effects. The model records only the
  context record and the result.
- Logging through the logger (`logStage`, `logApiCall`) is not modelled,
  because it does not affect the result.
- Non-integer `memory` and `timeout` values (strings, NaN, fractions) are
  not modelled. Both are optional integers, and "truthy or 0" is read as
  "present".
- Validation.MemoryError: uses Dafny's `%`, which agrees with JavaScript's
  only for non-negative values. It is applied only after the value is known
  to be at least 128.
- `JSON.stringify` of the saved config and of the recursion policy is not
  modelled. Both are kept as records.
- Strings are sequences of Unicode scalar values, not UTF-16 code units, so
  the policy-name sanitiser treats a character outside the BMP as one
  character rather than two.
- The `options && …` guards against a missing options object are not
  modelled, because options is always a record here.

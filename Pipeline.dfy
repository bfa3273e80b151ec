/** The promise chain of the `create` command as a trace model. Every remote
    or I/O step is a `Call`; the `World` says how each one settles; the stage
    functions give the calls issued, the closure variables assigned and the
    final settlement. */
module Pipeline {
  import opened Types
  import opened Derivations
  import opened Results
  import Validation

  /** The context object handed to the API module's `postDeploy`. */
  datatype DeployContext = DeployContext(name: string, alias: string, apiId: string, apiUrl: string, region: string)

  /** A step the command issues to a collaborator. */
  datatype Call =
    | ReadPackageJson(path: string)
    | CollectFiles(source: string, useLocalDependencies: bool)
    | ValidatePackage(dir: string, handler: Option<string>, apiModule: Option<string>)
    | Zip(dir: string)
    | GetRole(roleName: string)
    | ReadRoleTemplate(template: string)
    | CreateRole(roleName: string, assumeRolePolicy: string)
    | AddPolicy(policyName: string, roleName: string, file: Option<string>)
    | PutRolePolicy(roleName: string, policyName: string, document: PolicyDocument)
    | ReadArchive(path: string)
    | CreateFunction(request: FunctionRequest, retry: RetryPolicy)
    | MarkAlias(functionName: string, version: string, alias: string)
    | LoadApiModule(path: string)
    | CreateRestApi(name: string)
    | RebuildWebApi(functionName: string, stage: string, apiId: string, apiConfig: Token, region: string)
    | PostDeploy(context: DeployContext)
    | WriteConfig(path: string, config: SavedConfig)

  /** Loading the API module and calling its `apiConfig`: either throws, or
      yields a configuration (None when falsy) and says whether the module
      exports `postDeploy`. */
  datatype ApiModule = LoadThrew | Loaded(apiConfig: Option<Token>, hasPostDeploy: bool)

  /** How each step settles. Steps whose resolved value the command ignores
      settle through `settle` (None: resolved). The outcome of `createFunction`
      is the one after the retry helper has given up or succeeded. */
  datatype World = World(
    packageJson: Result<PackageJson>,
    collectFiles: Result<string>,
    validatePackage: Result<string>,
    zip: Result<string>,
    getRole: Result<Role>,
    roleTemplate: Result<string>,
    createRole: Result<Role>,
    archive: Result<seq<bv8>>,
    createFunction: Result<FunctionData>,
    apiModule: ApiModule,
    createRestApi: Result<string>,
    postDeploy: Result<Option<Token>>,
    settle: Call -> Option<Rejection>)

  /** The closure variables of the command, and the metadata object
      `createWebApi` updates in place. None is JavaScript's undefined. */
  datatype Vars = Vars(
    functionName: Option<string>,
    functionDesc: Option<string>,
    packageFileDir: Option<string>,
    packageArchive: Option<string>,
    roleMetadata: Option<Role>,
    lambdaMetadata: Option<LambdaMetadata>)

  const Unset := Vars(None, None, None, None, None, None)

  /** The calls of a stage and how it settled. */
  datatype Run<T> = Run(calls: seq<Call>, result: Result<T>)

  /** The calls of a stage, the variables after it, and how it settled. */
  datatype Step<T> = Step(calls: seq<Call>, vars: Vars, result: Result<T>)

  /** What the preparation stage hands on. */
  datatype Prepared = Prepared(name: string, description: Option<string>, dir: string, archive: string)

  const LogWriterPolicy := "log-writer"
  const RecursionPolicyName := "recursive-execution"
  const ExecutorSuffix := "-executor"
  /** The trust-policy template a new role is created with. */
  const RoleTemplateName := "lambda-exector-policy.json"

  function Region(o: Options): string {
    JsString(o.region)
  }

  function CannotLoadMessage(path: string): string {
    "cannot load api config from " + path
  }

  function NoApiConfigMessage(apiModule: string): string {
    "No apiConfig defined on module '" + apiModule + "'. Are you missing a module.exports?"
  }

  /** A step whose resolved value is ignored. */
  function Command(w: World, c: Call): Run<()> {
    match w.settle(c)
    case Some(e) => Run([c], Failure(e))
    case None => Run([c], Success(()))
  }

  // ---------------------------------------------------------------------
  // Stages

  /** `getPackageInfo`, then the package; assigns functionName and
      functionDesc, then packageFileDir and packageArchive. */
  function Prepare(o: Options, env: Env, w: World, v: Vars): Step<Prepared> {
    var c1 := ReadPackageJson(env.join(Source(o, env), "package.json"));
    match w.packageJson
    case Failure(e) => Step([c1], v, Failure(e))
    case Success(pkg) =>
      match ResolvePackageInfo(o, pkg)
      case Failure(e) => Step([c1], v, Failure(e))
      case Success(info) =>
        var rest := Package(o, env, w, v.(functionName := Some(info.name), functionDesc := info.description), info);
        Step([c1] + rest.calls, rest.vars, rest.result)
  }

  /** `collectFiles`, `validatePackage` and `zipdir`. */
  function Package(o: Options, env: Env, w: World, v: Vars, info: PackageInfo): Step<Prepared> {
    var c2 := CollectFiles(Source(o, env), o.useLocalDependencies);
    match w.collectFiles
    case Failure(e) => Step([c2], v, Failure(e))
    case Success(collected) =>
      var c3 := ValidatePackage(collected, o.handler, o.apiModule);
      match w.validatePackage
      case Failure(e) => Step([c2, c3], v, Failure(e))
      case Success(dir) =>
        var v1 := v.(packageFileDir := Some(dir));
        var c4 := Zip(dir);
        match w.zip
        case Failure(e) => Step([c2, c3, c4], v1, Failure(e))
        case Success(archive) =>
          Step([c2, c3, c4], v1.(packageArchive := Some(archive)),
               Success(Prepared(info.name, info.description, dir, archive)))
  }

  /** `loadRole`: reuse the named role, or create `<name>-executor` from the
      trust-policy template. */
  function LoadRole(o: Options, w: World, name: string): Run<Role> {
    if Given(o.role) then
      Run([GetRole(o.role.value)], w.getRole)
    else
      match w.roleTemplate
      case Failure(e) => Run([ReadRoleTemplate(RoleTemplateName)], Failure(e))
      case Success(template) => Run([ReadRoleTemplate(RoleTemplateName), CreateRole(name + ExecutorSuffix, template)], w.createRole)
  }

  /** `addExtraPolicies`: one policy per file, named after the file. */
  function AttachPolicies(env: Env, w: World, files: seq<string>, roleName: string): Run<()>
    decreases |files|
  {
    if files == [] then Run([], Success(()))
    else
      var first := Command(w, AddPolicy(PolicyName(env.basename(files[0])), roleName, Some(files[0])));
      if first.result.Failure? then first
      else
        var rest := AttachPolicies(env, w, files[1..], roleName);
        Run(first.calls + rest.calls, rest.result)
  }

  /** The log-writer policy, then the other permissions. */
  function Permissions(o: Options, env: Env, w: World, roleName: string, name: string): Run<()> {
    var log := Command(w, AddPolicy(LogWriterPolicy, roleName, None));
    if log.result.Failure? then log
    else
      var more := ExtraPermissions(o, env, w, roleName, name);
      Run(log.calls + more.calls, more.result)
  }

  /** The extra policies when `policies` is given, then the recursion
      policy when `allow-recursion` is. */
  function ExtraPermissions(o: Options, env: Env, w: World, roleName: string, name: string): Run<()> {
    var extra := if Given(o.policies) then AttachPolicies(env, w, env.policyFiles, roleName) else Run([], Success(()));
    if extra.result.Failure? || !o.allowRecursion then extra
    else
      var rec := Command(w, PutRolePolicy(roleName, RecursionPolicyName, RecursionPolicy(Region(o), name)));
      Run(extra.calls + rec.calls, rec.result)
  }

  /** `loadRole` and the policies; assigns roleMetadata. */
  function Identity(o: Options, env: Env, w: World, v: Vars, name: string): Step<Role> {
    var load := LoadRole(o, w, name);
    match load.result
    case Failure(e) => Step(load.calls, v, Failure(e))
    case Success(role) =>
      var perms := Permissions(o, env, w, role.roleName, name);
      Step(load.calls + perms.calls, v.(roleMetadata := Some(role)),
           if perms.result.Failure? then Failure(perms.result.error) else Success(role))
  }

  /** Reading the archive and `createLambda`; the metadata object starts here. */
  function CreateLambda(o: Options, w: World, v: Vars, p: Prepared, role: Role): Step<FunctionData> {
    var c1 := ReadArchive(p.archive);
    match w.archive
    case Failure(e) => Step([c1], v, Failure(e))
    case Success(bytes) =>
      var c2 := CreateFunction(FunctionRequestFor(o, p.name, p.description, bytes, role.arn), CreateRetry);
      match w.createFunction
      case Failure(e) => Step([c1, c2], v, Failure(e))
      case Success(data) => Step([c1, c2], v.(lambdaMetadata := Some(LambdaMetadata(data, None))), Success(data))
  }

  /** `markAliases`: "latest" at $LATEST, then `version` at the new version. */
  function MarkAliases(o: Options, w: World, data: FunctionData): Run<()> {
    var latest := Command(w, MarkAlias(data.functionName, "$LATEST", "latest"));
    if latest.result.Failure? || !Given(o.version) then latest
    else
      var named := Command(w, MarkAlias(data.functionName, data.version, o.version.value));
      Run(latest.calls + named.calls, named.result)
  }

  /** `createWebApi`, issued only when `api-module` is given. */
  function WebApi(o: Options, env: Env, w: World, v: Vars, meta: LambdaMetadata, packageDir: string): Step<LambdaMetadata> {
    if !Given(o.apiModule) then Step([], v, Success(meta))
    else
      var apiModule := o.apiModule.value;
      var path := env.join(packageDir, apiModule);
      var c1 := LoadApiModule(path);
      match w.apiModule
      case LoadThrew => Step([c1], v, Failure(Message(CannotLoadMessage(path))))
      case Loaded(config, hasPostDeploy) =>
        if config.None? then Step([c1], v, Failure(Message(NoApiConfigMessage(apiModule))))
        else
          var c2 := CreateRestApi(meta.data.functionName);
          match w.createRestApi
          case Failure(e) => Step([c1, c2], v, Failure(e))
          case Success(id) =>
            var rest := DeployApi(o, env, w, v, meta, apiModule, id, config.value, hasPostDeploy);
            Step([c1, c2] + rest.calls, rest.vars, rest.result)
  }

  /** After `createRestApi`: the web API part is attached, the API is
      rebuilt from `apiConfig`, then `postDeploy` runs when the module has one. */
  function DeployApi(o: Options, env: Env, w: World, v: Vars, meta: LambdaMetadata,
                     apiModule: string, id: string, config: Token, hasPostDeploy: bool): Step<LambdaMetadata> {
    var alias := StageAlias(o);
    var api := ApiInfo(id, apiModule, env.apiUrl(id, Region(o), alias), None);
    var meta1 := meta.(api := Some(api));
    var v1 := v.(lambdaMetadata := Some(meta1));
    var rebuild := Command(w, RebuildWebApi(meta.data.functionName, alias, id, config, Region(o)));
    if rebuild.result.Failure? then Step(rebuild.calls, v1, Failure(rebuild.result.error))
    else if !hasPostDeploy then Step(rebuild.calls, v1, Success(meta1))
    else
      var c4 := PostDeploy(DeployContext(meta.data.functionName, alias, id, api.url, Region(o)));
      match w.postDeploy
      case Failure(e) => Step(rebuild.calls + [c4], v1, Failure(e))
      case Success(deployed) =>
        if deployed.None? then Step(rebuild.calls + [c4], v1, Success(meta1))
        else
          var meta2 := meta1.(api := Some(api.(deploy := deployed)));
          Step(rebuild.calls + [c4], v1.(lambdaMetadata := Some(meta2)), Success(meta2))
  }

  /** `saveConfig`. */
  function Save(o: Options, env: Env, w: World, roleName: string, meta: LambdaMetadata): Run<()> {
    Command(w, WriteConfig(ConfigFile(o, env), SavedConfigFor(roleName, Region(o), meta)))
  }

  /** A stage's calls followed by those of the rest of the chain. */
  function Prefix<T>(calls: seq<Call>, rest: Step<T>): Step<T> {
    Step(calls + rest.calls, rest.vars, rest.result)
  }

  /** The whole command: validation first, then every stage in order, the
      first failure settling the command. */
  function Create(o: Options, env: Env, w: World): Step<Summary> {
    match Validation.ValidationError(o, env)
    case Some(m) => Step([], Unset, Failure(Message(m)))
    case None => AfterPrepare(o, env, w, Prepare(o, env, w, Unset))
  }

  function AfterPrepare(o: Options, env: Env, w: World, p: Step<Prepared>): Step<Summary> {
    if p.result.Failure? then Step(p.calls, p.vars, Failure(p.result.error))
    else
      var prepared := p.result.value;
      Prefix(p.calls, AfterIdentity(o, env, w, prepared, Identity(o, env, w, p.vars, prepared.name)))
  }

  function AfterIdentity(o: Options, env: Env, w: World, prepared: Prepared, id: Step<Role>): Step<Summary> {
    if id.result.Failure? then Step(id.calls, id.vars, Failure(id.result.error))
    else
      var role := id.result.value;
      Prefix(id.calls, AfterLambda(o, env, w, prepared, role, CreateLambda(o, w, id.vars, prepared, role)))
  }

  function AfterLambda(o: Options, env: Env, w: World, prepared: Prepared, role: Role, lam: Step<FunctionData>): Step<Summary> {
    if lam.result.Failure? then Step(lam.calls, lam.vars, Failure(lam.result.error))
    else
      var data := lam.result.value;
      Prefix(lam.calls, AfterAliases(o, env, w, prepared, role, lam.vars, data, MarkAliases(o, w, data)))
  }

  function AfterAliases(o: Options, env: Env, w: World, prepared: Prepared, role: Role, v: Vars,
                        data: FunctionData, aliases: Run<()>): Step<Summary> {
    if aliases.result.Failure? then Step(aliases.calls, v, Failure(aliases.result.error))
    else Prefix(aliases.calls, AfterWebApi(o, env, w, role, WebApi(o, env, w, v, LambdaMetadata(data, None), prepared.dir)))
  }

  function AfterWebApi(o: Options, env: Env, w: World, role: Role, web: Step<LambdaMetadata>): Step<Summary> {
    if web.result.Failure? then Step(web.calls, web.vars, Failure(web.result.error))
    else Prefix(web.calls, Finish(o, env, w, role, web.vars, web.result.value))
  }

  /** `saveConfig` then `formatResult`. */
  function Finish(o: Options, env: Env, w: World, role: Role, v: Vars, meta: LambdaMetadata): Step<Summary> {
    var save := Save(o, env, w, role.roleName, meta);
    if save.result.Failure? then Step(save.calls, v, Failure(save.result.error))
    else Step(save.calls, v, Success(FormatResult(role.roleName, Region(o), meta)))
  }

  // ---------------------------------------------------------------------
  // How a single call settles

  /** Whether the collaborator behind a call resolves it. */
  predicate Succeeds(w: World, c: Call) {
    match c
    case ReadPackageJson(_) => w.packageJson.Success?
    case CollectFiles(_, _) => w.collectFiles.Success?
    case ValidatePackage(_, _, _) => w.validatePackage.Success?
    case Zip(_) => w.zip.Success?
    case GetRole(_) => w.getRole.Success?
    case ReadRoleTemplate(_) => w.roleTemplate.Success?
    case CreateRole(_, _) => w.createRole.Success?
    case ReadArchive(_) => w.archive.Success?
    case CreateFunction(_, _) => w.createFunction.Success?
    case LoadApiModule(_) => w.apiModule.Loaded?
    case CreateRestApi(_) => w.createRestApi.Success?
    case PostDeploy(_) => w.postDeploy.Success?
    case _ => w.settle(c).None?
  }

  /** The reason the command rejects with when a call fails. */
  function ErrorOf(w: World, c: Call): Rejection
    requires !Succeeds(w, c)
  {
    match c
    case ReadPackageJson(_) => w.packageJson.error
    case CollectFiles(_, _) => w.collectFiles.error
    case ValidatePackage(_, _, _) => w.validatePackage.error
    case Zip(_) => w.zip.error
    case GetRole(_) => w.getRole.error
    case ReadRoleTemplate(_) => w.roleTemplate.error
    case CreateRole(_, _) => w.createRole.error
    case ReadArchive(_) => w.archive.error
    case CreateFunction(_, _) => w.createFunction.error
    case LoadApiModule(path) => Message(CannotLoadMessage(path))
    case CreateRestApi(_) => w.createRestApi.error
    case PostDeploy(_) => w.postDeploy.error
    case _ => w.settle(c).value
  }
}

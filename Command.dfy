/** The `create` command as the source runs it: one object per invocation
    whose fields are the closure variables the promise chain assigns step by
    step. Every stage method is proved to issue the calls, assign the
    variables and settle as the corresponding stage of `Pipeline` says. */
module Command {
  import opened Types
  import opened Derivations
  import opened Results
  import opened Pipeline
  import Validation

  /** Splitting the policy files at any point splits the attachments there. */
  lemma {:induction false} AttachPoliciesAppend(env: Env, w: World, a: seq<string>, b: seq<string>, roleName: string)
    ensures var left := AttachPolicies(env, w, a, roleName);
      AttachPolicies(env, w, a + b, roleName) ==
        if left.result.Failure? then left
        else Run(left.calls + AttachPolicies(env, w, b, roleName).calls, AttachPolicies(env, w, b, roleName).result)
    decreases |a|
  {
    if a == [] {
      assert a + b == b;
    } else {
      assert (a + b)[0] == a[0];
      assert (a + b)[1..] == a[1..] + b;
      AttachPoliciesAppend(env, w, a[1..], b, roleName);
    }
  }

  /** A sequence is its prefix and suffix at k. The loop of
      `CreateCommand.AttachExtraPolicies` uses it to re-establish its
      invariant, which the solver otherwise does not do on every seed. */
  lemma SplitAt<T>(s: seq<T>, k: nat)
    requires k <= |s|
    ensures s[..k] + s[k..] == s
  {
  }

  /** Two prefixes in a row are one. `CreateCommand.Run` uses it to move the
      calls of a finished stage from the continuation into the trace. */
  lemma PrefixPrefix<T>(a: seq<Call>, b: seq<Call>, s: Step<T>)
    ensures Prefix(a, Prefix(b, s)) == Prefix(a + b, s)
  {
    assert a + (b + s.calls) == (a + b) + s.calls;
  }

  class CreateCommand {
    const options: Options
    const env: Env
    const world: World

    /** The calls issued so far. */
    var trace: seq<Call>

    var functionName: Option<string>
    var functionDesc: Option<string>
    var packageFileDir: Option<string>
    var packageArchive: Option<string>
    var roleMetadata: Option<Role>
    var lambdaMetadata: Option<LambdaMetadata>

    function State(): Vars
      reads this
    {
      Vars(functionName, functionDesc, packageFileDir, packageArchive, roleMetadata, lambdaMetadata)
    }

    constructor (options: Options, env: Env, world: World)
      ensures this.options == options && this.env == env && this.world == world
      ensures trace == [] && State() == Unset
    {
      this.options := options;
      this.env := env;
      this.world := world;
      trace := [];
      functionName, functionDesc, packageFileDir, packageArchive := None, None, None, None;
      roleMetadata, lambdaMetadata := None, None;
    }

    /** Issue a call. */
    method Issue(c: Call)
      modifies this`trace
      ensures trace == old(trace) + [c]
    {
      trace := trace + [c];
    }

    /** Issue a call whose resolved value is ignored; None when it resolves. */
    method Settle(c: Call) returns (e: Option<Rejection>)
      modifies this`trace
      ensures trace == old(trace) + Command(world, c).calls
      ensures e.None? <==> Command(world, c).result.Success?
      ensures e.Some? ==> Command(world, c).result == Failure(e.value)
    {
      Issue(c);
      e := world.settle(c);
    }

    method PrepareStage() returns (r: Result<Prepared>)
      modifies this`trace, this`functionName, this`functionDesc, this`packageFileDir, this`packageArchive
      ensures var s := Prepare(options, env, world, old(State()));
        trace == old(trace) + s.calls && State() == s.vars && r == s.result
      ensures r.Success? ==> functionName.Some? && packageFileDir.Some? && packageArchive.Some?
      ensures r.Success? ==> r.value == Prepared(functionName.value, functionDesc, packageFileDir.value, packageArchive.value)
    {
      ghost var before := trace;
      var c1 := ReadPackageJson(env.join(Source(options, env), "package.json"));
      Issue(c1);
      if world.packageJson.Failure? {
        return Failure(world.packageJson.error);
      }
      var info := ResolvePackageInfo(options, world.packageJson.value);
      if info.Failure? {
        return Failure(info.error);
      }
      functionName := Some(info.value.name);
      functionDesc := info.value.description;
      ghost var named := trace;
      r := PackageStage(info.value);
      assert trace == before + ([c1] + trace[|named|..]);
    }

    /** `collectFiles`, `validatePackage` and `zipdir`, after the name is set. */
    method PackageStage(info: PackageInfo) returns (r: Result<Prepared>)
      modifies this`trace, this`packageFileDir, this`packageArchive
      ensures var s := Package(options, env, world, old(State()), info);
        trace == old(trace) + s.calls && State() == s.vars && r == s.result
      ensures r.Success? ==> packageFileDir.Some? && packageArchive.Some?
      ensures r.Success? ==> r.value == Prepared(info.name, info.description, packageFileDir.value, packageArchive.value)
    {
      Issue(CollectFiles(Source(options, env), options.useLocalDependencies));
      if world.collectFiles.Failure? {
        return Failure(world.collectFiles.error);
      }
      Issue(ValidatePackage(world.collectFiles.value, options.handler, options.apiModule));
      if world.validatePackage.Failure? {
        return Failure(world.validatePackage.error);
      }
      packageFileDir := Some(world.validatePackage.value);
      Issue(Zip(packageFileDir.value));
      if world.zip.Failure? {
        return Failure(world.zip.error);
      }
      packageArchive := Some(world.zip.value);
      r := Success(Prepared(info.name, info.description, packageFileDir.value, packageArchive.value));
    }

    /** `addExtraPolicies`, one file after the other. */
    method AttachExtraPolicies(roleName: string) returns (e: Option<Rejection>)
      modifies this`trace
      ensures var s := AttachPolicies(env, world, env.policyFiles, roleName);
        trace == old(trace) + s.calls && (e.None? <==> s.result.Success?) && (e.Some? ==> s.result == Failure(e.value))
    {
      var files := env.policyFiles;
      var i := 0;
      while i < |files|
        invariant 0 <= i <= |files|
        invariant AttachPolicies(env, world, files[..i], roleName).result.Success?
        invariant trace == old(trace) + AttachPolicies(env, world, files[..i], roleName).calls
      {
        var c := AddPolicy(PolicyName(env.basename(files[i])), roleName, Some(files[i]));
        assert AttachPolicies(env, world, [files[i]], roleName) == Command(world, c);
        AttachPoliciesAppend(env, world, files[..i], [files[i]], roleName);
        assert files[..i] + [files[i]] == files[..i + 1];
        e := Settle(c);
        if e.Some? {
          AttachPoliciesAppend(env, world, files[..i + 1], files[i + 1..], roleName);
          SplitAt(files, i + 1);
          return;
        }
        i := i + 1;
      }
      assert files[..i] == files;
      e := None;
    }

    method IdentityStage() returns (r: Result<Role>)
      requires functionName.Some?
      modifies this`trace, this`roleMetadata
      ensures var s := Identity(options, env, world, old(State()), old(functionName.value));
        trace == old(trace) + s.calls && State() == s.vars && r == s.result
      ensures r.Success? ==> roleMetadata == Some(r.value)
    {
      var loaded: Result<Role>;
      if Given(options.role) {
        Issue(GetRole(options.role.value));
        loaded := world.getRole;
      } else {
        Issue(ReadRoleTemplate(RoleTemplateName));
        if world.roleTemplate.Failure? {
          return Failure(world.roleTemplate.error);
        }
        Issue(CreateRole(functionName.value + ExecutorSuffix, world.roleTemplate.value));
        loaded := world.createRole;
      }
      if loaded.Failure? {
        return Failure(loaded.error);
      }
      roleMetadata := Some(loaded.value);
      var e := PermissionsStage(roleMetadata.value.roleName, functionName.value);
      if e.Some? {
        return Failure(e.value);
      }
      r := Success(roleMetadata.value);
    }

    /** The policies attached to the role. */
    method PermissionsStage(roleName: string, name: string) returns (e: Option<Rejection>)
      modifies this`trace
      ensures var s := Permissions(options, env, world, roleName, name);
        trace == old(trace) + s.calls && (e.None? <==> s.result.Success?) && (e.Some? ==> s.result == Failure(e.value))
    {
      ghost var before := trace;
      ghost var log := Command(world, AddPolicy(LogWriterPolicy, roleName, None));
      e := Settle(AddPolicy(LogWriterPolicy, roleName, None));
      if e.None? {
        e := ExtraPermissionsStage(roleName, name);
        assert trace == before + (log.calls + ExtraPermissions(options, env, world, roleName, name).calls);
      }
    }

    /** The extra policies and the recursion policy. */
    method ExtraPermissionsStage(roleName: string, name: string) returns (e: Option<Rejection>)
      modifies this`trace
      ensures var s := ExtraPermissions(options, env, world, roleName, name);
        trace == old(trace) + s.calls && (e.None? <==> s.result.Success?) && (e.Some? ==> s.result == Failure(e.value))
    {
      ghost var before := trace;
      e := None;
      if Given(options.policies) {
        e := AttachExtraPolicies(roleName);
      }
      if e.None? && options.allowRecursion {
        ghost var extra := trace;
        e := Settle(PutRolePolicy(roleName, RecursionPolicyName, RecursionPolicy(Region(options), name)));
        assert trace == before + (extra[|before|..] + trace[|extra|..]);
      }
    }

    method LambdaStage() returns (r: Result<FunctionData>)
      requires functionName.Some? && packageFileDir.Some? && packageArchive.Some? && roleMetadata.Some?
      modifies this`trace, this`lambdaMetadata
      ensures var p := Prepared(old(functionName.value), old(functionDesc), old(packageFileDir.value), old(packageArchive.value));
        var s := CreateLambda(options, world, old(State()), p, old(roleMetadata.value));
        trace == old(trace) + s.calls && State() == s.vars && r == s.result
    {
      Issue(ReadArchive(packageArchive.value));
      if world.archive.Failure? {
        return Failure(world.archive.error);
      }
      var request := FunctionRequestFor(options, functionName.value, functionDesc, world.archive.value, roleMetadata.value.arn);
      Issue(CreateFunction(request, CreateRetry));
      if world.createFunction.Failure? {
        return Failure(world.createFunction.error);
      }
      lambdaMetadata := Some(LambdaMetadata(world.createFunction.value, None));
      r := Success(world.createFunction.value);
    }

    method AliasStage(data: FunctionData) returns (e: Option<Rejection>)
      modifies this`trace
      ensures var s := MarkAliases(options, world, data);
        trace == old(trace) + s.calls && (e.None? <==> s.result.Success?) && (e.Some? ==> s.result == Failure(e.value))
    {
      e := Settle(MarkAlias(data.functionName, "$LATEST", "latest"));
      if e.None? && Given(options.version) {
        e := Settle(MarkAlias(data.functionName, data.version, options.version.value));
      }
    }

    method WebApiStage() returns (r: Result<LambdaMetadata>)
      requires packageFileDir.Some? && lambdaMetadata.Some?
      modifies this`trace, this`lambdaMetadata
      ensures var s := WebApi(options, env, world, old(State()), old(lambdaMetadata.value), old(packageFileDir.value));
        trace == old(trace) + s.calls && State() == s.vars && r == s.result
    {
      if !Given(options.apiModule) {
        return Success(lambdaMetadata.value);
      }
      var apiModule := options.apiModule.value;
      var alias := StageAlias(options);
      var path := env.join(packageFileDir.value, apiModule);
      Issue(LoadApiModule(path));
      if world.apiModule.LoadThrew? {
        return Failure(Message(CannotLoadMessage(path)));
      }
      var config := world.apiModule.apiConfig;
      if config.None? {
        return Failure(Message(NoApiConfigMessage(apiModule)));
      }
      var name := lambdaMetadata.value.data.functionName;
      Issue(CreateRestApi(name));
      if world.createRestApi.Failure? {
        return Failure(world.createRestApi.error);
      }
      var id := world.createRestApi.value;
      lambdaMetadata := Some(lambdaMetadata.value.(api := Some(ApiInfo(id, apiModule, env.apiUrl(id, Region(options), alias), None))));
      var e := Settle(RebuildWebApi(name, alias, id, config.value, Region(options)));
      if e.Some? {
        return Failure(e.value);
      }
      if world.apiModule.hasPostDeploy {
        var api := lambdaMetadata.value.api.value;
        Issue(PostDeploy(DeployContext(name, alias, api.id, api.url, Region(options))));
        if world.postDeploy.Failure? {
          return Failure(world.postDeploy.error);
        }
        if world.postDeploy.value.Some? {
          lambdaMetadata := Some(lambdaMetadata.value.(api := Some(api.(deploy := world.postDeploy.value))));
        }
      }
      r := Success(lambdaMetadata.value);
    }

    /** The command: validation, then the stages in order. */
    method Run() returns (r: Result<Summary>)
      requires trace == [] && State() == Unset
      modifies this
      ensures var s := Create(options, env, world);
        trace == s.calls && State() == s.vars && r == s.result
    {
      ghost var target := Create(options, env, world);
      var invalid := Validation.ValidationError(options, env);
      if invalid.Some? {
        return Failure(Message(invalid.value));
      }
      ghost var prep := Prepare(options, env, world, Unset);
      assert target == AfterPrepare(options, env, world, prep);
      var prepared := PrepareStage();
      if prepared.Failure? {
        return Failure(prepared.error);
      }
      assert trace == prep.calls && State() == prep.vars && prepared == prep.result;
      ghost var id := Identity(options, env, world, prep.vars, prepared.value.name);
      assert target == Prefix(prep.calls, AfterIdentity(options, env, world, prepared.value, id));
      ghost var before := trace;
      var role := IdentityStage();
      if role.Failure? {
        return Failure(role.error);
      }
      ghost var lam := CreateLambda(options, world, id.vars, prepared.value, role.value);
      PrefixPrefix(before, id.calls, AfterLambda(options, env, world, prepared.value, role.value, lam));
      assert target == Prefix(trace, AfterLambda(options, env, world, prepared.value, role.value, lam));
      before := trace;
      var data := LambdaStage();
      if data.Failure? {
        return Failure(data.error);
      }
      PrefixPrefix(before, lam.calls, AfterAliases(options, env, world, prepared.value, role.value, lam.vars, data.value, MarkAliases(options, world, data.value)));
      r := PublishStages(prepared.value, role.value, data.value);
    }

    /** The aliases, the web API and `saveConfig`, once the function exists. */
    method PublishStages(prepared: Prepared, role: Role, data: FunctionData) returns (r: Result<Summary>)
      requires packageFileDir == Some(prepared.dir) && lambdaMetadata == Some(LambdaMetadata(data, None))
      modifies this`trace, this`lambdaMetadata
      ensures var s := AfterAliases(options, env, world, prepared, role, old(State()), data, MarkAliases(options, world, data));
        trace == old(trace) + s.calls && State() == s.vars && r == s.result
    {
      ghost var start := trace;
      ghost var aliases := MarkAliases(options, world, data);
      var e := AliasStage(data);
      if e.Some? {
        return Failure(e.value);
      }
      ghost var mid := trace;
      ghost var rest := AfterWebApi(options, env, world, role, WebApi(options, env, world, State(), LambdaMetadata(data, None), prepared.dir));
      r := WebApiAndSaveStages(prepared, role, data);
      assert trace == mid + rest.calls;
      assert mid + rest.calls == start + (aliases.calls + rest.calls);
    }

    /** The web API, then `saveConfig`. */
    method WebApiAndSaveStages(prepared: Prepared, role: Role, data: FunctionData) returns (r: Result<Summary>)
      requires packageFileDir == Some(prepared.dir) && lambdaMetadata == Some(LambdaMetadata(data, None))
      modifies this`trace, this`lambdaMetadata
      ensures var s := AfterWebApi(options, env, world, role, WebApi(options, env, world, old(State()), LambdaMetadata(data, None), prepared.dir));
        trace == old(trace) + s.calls && State() == s.vars && r == s.result
    {
      ghost var start := trace;
      ghost var web := WebApi(options, env, world, State(), LambdaMetadata(data, None), prepared.dir);
      var meta := WebApiStage();
      if meta.Failure? {
        return Failure(meta.error);
      }
      ghost var fin := Finish(options, env, world, role, web.vars, meta.value);
      r := SaveStage(role, meta.value);
      assert trace == start + (web.calls + fin.calls);
    }

    /** `saveConfig`, then `formatResult`. */
    method SaveStage(role: Role, meta: LambdaMetadata) returns (r: Result<Summary>)
      modifies this`trace
      ensures var s := Finish(options, env, world, role, State(), meta);
        trace == old(trace) + s.calls && r == s.result
    {
      var e := Settle(WriteConfig(ConfigFile(options, env), SavedConfigFor(role.roleName, Region(options), meta)));
      if e.Some? {
        return Failure(e.value);
      }
      r := Success(FormatResult(role.roleName, Region(options), meta));
    }
  }
}

/** What the trace model of the `create` command promises: validation guards
    every call, the first failure ends the run, every call issued has the
    shape its stage gives it, and a successful run issues exactly the planned
    calls, each conditional step present exactly when its option is set. */
module PipelineProperties {
  import opened Types
  import opened Derivations
  import opened Results
  import opened Pipeline
  import Validation

  // ---------------------------------------------------------------------
  // The values the command goes on with, read back from the world

  predicate NameResolved(o: Options, w: World) {
    w.packageJson.Success? && ResolveName(o.name, w.packageJson.value.name).Success?
  }

  function Name(o: Options, w: World): string
    requires NameResolved(o, w)
  {
    ResolveName(o.name, w.packageJson.value.name).value
  }

  function Description(o: Options, w: World): Option<string>
    requires w.packageJson.Success?
  {
    ResolveDescription(o.description, w.packageJson.value.description)
  }

  /** The role is reused when `role` is given, else created from the template. */
  predicate RoleLoaded(o: Options, w: World) {
    if Given(o.role) then w.getRole.Success? else w.roleTemplate.Success? && w.createRole.Success?
  }

  function RoleOf(o: Options, w: World): Role
    requires RoleLoaded(o, w)
  {
    if Given(o.role) then w.getRole.value else w.createRole.value
  }

  // ---------------------------------------------------------------------
  // How a run settles

  predicate AllSucceed(w: World, calls: seq<Call>) {
    forall i :: 0 <= i < |calls| ==> Succeeds(w, calls[i])
  }

  /** The two rejections the command makes up itself after a call resolved:
      a package.json without a usable name, an API module without `apiConfig`. */
  predicate Refusal(o: Options, c: Call, e: Rejection) {
    || (c.ReadPackageJson? && e == Message(NameMissingMessage))
    || (c.LoadApiModule? && Given(o.apiModule) && e == Message(NoApiConfigMessage(o.apiModule.value)))
  }

  /** A run that resolves had every call resolve; a run that rejects stopped
      at its last call, every earlier one resolved, and it rejects with that
      call's reason (or with the command's own refusal after it). */
  predicate StopsAtFailure<T>(o: Options, w: World, calls: seq<Call>, r: Result<T>) {
    if r.Success? then AllSucceed(w, calls)
    else
      && |calls| > 0
      && AllSucceed(w, calls[..|calls| - 1])
      && (Succeeds(w, calls[|calls| - 1]) ==> Refusal(o, calls[|calls| - 1], r.error))
      && (!Succeeds(w, calls[|calls| - 1]) ==> r.error == ErrorOf(w, calls[|calls| - 1]))
  }

  lemma AllSucceedAppend(w: World, a: seq<Call>, b: seq<Call>)
    ensures AllSucceed(w, a + b) <==> AllSucceed(w, a) && AllSucceed(w, b)
  {
    if AllSucceed(w, a) && AllSucceed(w, b) {
      forall i | 0 <= i < |a + b|
        ensures Succeeds(w, (a + b)[i])
      {
        if i >= |a| {
          assert (a + b)[i] == b[i - |a|];
        }
      }
    }
    if AllSucceed(w, a + b) {
      forall i | 0 <= i < |a|
        ensures Succeeds(w, a[i])
      {
        assert (a + b)[i] == a[i];
      }
      forall i | 0 <= i < |b|
        ensures Succeeds(w, b[i])
      {
        assert (a + b)[|a| + i] == b[i];
      }
    }
  }

  lemma StopsAfterSuccess<T>(o: Options, w: World, a: seq<Call>, b: seq<Call>, r: Result<T>)
    requires AllSucceed(w, a) && StopsAtFailure(o, w, b, r)
    ensures StopsAtFailure(o, w, a + b, r)
  {
    if r.Failure? {
      assert (a + b)[..|a + b| - 1] == a + b[..|b| - 1];
    }
  }

  // ---------------------------------------------------------------------
  // The shape of every call

  /** Each kind of call, with the arguments the command gives it and the
      options and earlier outcomes without which it is never issued. */
  predicate Issuable(o: Options, env: Env, w: World, c: Call) {
    match c
    case ReadPackageJson(path) => path == env.join(Source(o, env), "package.json")
    case CollectFiles(source, local) => source == Source(o, env) && local == o.useLocalDependencies
    case ValidatePackage(dir, handler, apiModule) =>
      w.collectFiles.Success? && dir == w.collectFiles.value && handler == o.handler && apiModule == o.apiModule
    case Zip(dir) => w.validatePackage.Success? && dir == w.validatePackage.value
    case GetRole(roleName) => Given(o.role) && roleName == o.role.value
    case ReadRoleTemplate(template) => !Given(o.role) && template == RoleTemplateName
    case CreateRole(roleName, policy) =>
      && !Given(o.role) && NameResolved(o, w) && w.roleTemplate.Success?
      && roleName == Name(o, w) + ExecutorSuffix && policy == w.roleTemplate.value
    case AddPolicy(policyName, roleName, file) =>
      && RoleLoaded(o, w) && roleName == RoleOf(o, w).roleName
      && (file.None? ==> policyName == LogWriterPolicy)
      && (file.Some? ==> Given(o.policies) && file.value in env.policyFiles && policyName == PolicyName(env.basename(file.value)))
    case PutRolePolicy(roleName, policyName, document) =>
      && o.allowRecursion && RoleLoaded(o, w) && NameResolved(o, w)
      && roleName == RoleOf(o, w).roleName && policyName == RecursionPolicyName
      && document == RecursionPolicy(Region(o), Name(o, w))
    case ReadArchive(path) => w.zip.Success? && path == w.zip.value
    case CreateFunction(request, retry) =>
      && retry == CreateRetry && NameResolved(o, w) && RoleLoaded(o, w) && w.archive.Success?
      && request == FunctionRequestFor(o, Name(o, w), Description(o, w), w.archive.value, RoleOf(o, w).arn)
    case MarkAlias(functionName, version, alias) =>
      && w.createFunction.Success? && functionName == w.createFunction.value.functionName
      && ((version == "$LATEST" && alias == "latest")
          || (Given(o.version) && version == w.createFunction.value.version && alias == o.version.value))
    case LoadApiModule(path) =>
      Given(o.apiModule) && w.validatePackage.Success? && path == env.join(w.validatePackage.value, o.apiModule.value)
    case CreateRestApi(name) =>
      && Given(o.apiModule) && w.apiModule.Loaded? && w.apiModule.apiConfig.Some?
      && w.createFunction.Success? && name == w.createFunction.value.functionName
    case RebuildWebApi(functionName, stage, apiId, apiConfig, region) =>
      && Given(o.apiModule) && w.apiModule.Loaded? && w.apiModule.apiConfig.Some?
      && w.createFunction.Success? && w.createRestApi.Success?
      && functionName == w.createFunction.value.functionName && stage == StageAlias(o)
      && apiId == w.createRestApi.value && apiConfig == w.apiModule.apiConfig.value && region == Region(o)
    case PostDeploy(context) =>
      && Given(o.apiModule) && w.apiModule.Loaded? && w.apiModule.apiConfig.Some? && w.apiModule.hasPostDeploy
      && w.createFunction.Success? && w.createRestApi.Success?
      && context == DeployContext(w.createFunction.value.functionName, StageAlias(o), w.createRestApi.value,
                                  env.apiUrl(w.createRestApi.value, Region(o), StageAlias(o)), Region(o))
    case WriteConfig(path, config) => PlanDefined(o, w) && c == SaveCall(o, env, w)
  }

  predicate AllIssuable(o: Options, env: Env, w: World, calls: seq<Call>) {
    forall i :: 0 <= i < |calls| ==> Issuable(o, env, w, calls[i])
  }

  lemma AllIssuableAppend(o: Options, env: Env, w: World, a: seq<Call>, b: seq<Call>)
    requires AllIssuable(o, env, w, a) && AllIssuable(o, env, w, b)
    ensures AllIssuable(o, env, w, a + b)
  {
    forall i | 0 <= i < |a + b|
      ensures Issuable(o, env, w, (a + b)[i])
    {
      if i >= |a| {
        assert (a + b)[i] == b[i - |a|];
      } else {
        assert (a + b)[i] == a[i];
      }
    }
  }

  // ---------------------------------------------------------------------
  // The order of the stages

  /** The stage a call belongs to, numbered in the order of the chain. */
  function Rank(c: Call): nat {
    match c
    case ReadPackageJson(_) => 0
    case CollectFiles(_, _) => 1
    case ValidatePackage(_, _, _) => 2
    case Zip(_) => 3
    case GetRole(_) => 4
    case ReadRoleTemplate(_) => 4
    case CreateRole(_, _) => 5
    case AddPolicy(_, _, file) => if file.None? then 6 else 7
    case PutRolePolicy(_, _, _) => 8
    case ReadArchive(_) => 9
    case CreateFunction(_, _) => 10
    case MarkAlias(_, _, _) => 11
    case LoadApiModule(_) => 12
    case CreateRestApi(_) => 13
    case RebuildWebApi(_, _, _, _, _) => 14
    case PostDeploy(_) => 15
    case WriteConfig(_, _) => 16
  }

  /** The calls run stage after stage, within the stages lo to hi. */
  predicate Ordered(calls: seq<Call>, lo: nat, hi: nat) {
    && (forall i :: 0 <= i < |calls| ==> lo <= Rank(calls[i]) <= hi)
    && (forall i, j :: 0 <= i < j < |calls| ==> Rank(calls[i]) <= Rank(calls[j]))
  }

  lemma OrderedAppend(a: seq<Call>, b: seq<Call>, lo: nat, mid: nat, mid2: nat, hi: nat)
    requires Ordered(a, lo, mid) && Ordered(b, mid2, hi) && lo <= mid <= mid2 <= hi
    ensures Ordered(a + b, lo, hi)
  {
    forall i | 0 <= i < |a + b|
      ensures lo <= Rank((a + b)[i]) <= hi
    {
      if i < |a| {
        assert (a + b)[i] == a[i];
      } else {
        assert (a + b)[i] == b[i - |a|];
      }
    }
    forall i, j | 0 <= i < j < |a + b|
      ensures Rank((a + b)[i]) <= Rank((a + b)[j])
    {
      if j < |a| {
        assert (a + b)[i] == a[i] && (a + b)[j] == a[j];
      } else if i >= |a| {
        assert (a + b)[i] == b[i - |a|] && (a + b)[j] == b[j - |a|];
      } else {
        assert (a + b)[i] == a[i] && (a + b)[j] == b[j - |a|];
      }
    }
  }

  // ---------------------------------------------------------------------
  // The plan: the calls of a run in which everything resolves

  predicate Prepares(o: Options, w: World) {
    NameResolved(o, w) && w.collectFiles.Success? && w.validatePackage.Success? && w.zip.Success?
  }

  function PreparedOf(o: Options, w: World): Prepared
    requires Prepares(o, w)
  {
    Prepared(Name(o, w), Description(o, w), w.validatePackage.value, w.zip.value)
  }

  function PrepareCalls(o: Options, env: Env, w: World): seq<Call>
    requires w.collectFiles.Success? && w.validatePackage.Success?
  {
    [ ReadPackageJson(env.join(Source(o, env), "package.json")),
      CollectFiles(Source(o, env), o.useLocalDependencies),
      ValidatePackage(w.collectFiles.value, o.handler, o.apiModule),
      Zip(w.validatePackage.value) ]
  }

  /** The preparation stage: its calls have their shapes and stop at the
      first failure; it resolves exactly when every planned call resolves and
      the package names the project, and then it issued the plan. */
  lemma PackageConforms(o: Options, env: Env, w: World, v: Vars, info: PackageInfo)
    ensures var s := Package(o, env, w, v, info);
      && StopsAtFailure(o, w, s.calls, s.result) && AllIssuable(o, env, w, s.calls)
      && (s.result.Success? <==> w.collectFiles.Success? && w.validatePackage.Success? && w.zip.Success?)
      && (s.result.Success? ==> s.calls == PrepareCalls(o, env, w)[1..]
                                && s.result.value == Prepared(info.name, info.description, w.validatePackage.value, w.zip.value))
  {
    var s := Package(o, env, w, v, info);
    var c2 := CollectFiles(Source(o, env), o.useLocalDependencies);
    assert Issuable(o, env, w, c2);
    if w.collectFiles.Failure? {
      assert s.calls == [c2];
    } else {
      var c3 := ValidatePackage(w.collectFiles.value, o.handler, o.apiModule);
      assert Issuable(o, env, w, c3);
      if w.validatePackage.Failure? {
        assert s.calls == [c2, c3];
      } else {
        var c4 := Zip(w.validatePackage.value);
        assert Issuable(o, env, w, c4);
        assert s.calls == [c2, c3, c4];
      }
    }
  }

  lemma PrepareConforms(o: Options, env: Env, w: World, v: Vars)
    ensures var s := Prepare(o, env, w, v);
      && StopsAtFailure(o, w, s.calls, s.result) && AllIssuable(o, env, w, s.calls)
      && (s.result.Success? <==> Prepares(o, w))
      && (s.result.Success? ==> s.calls == PrepareCalls(o, env, w) && s.result.value == PreparedOf(o, w))
  {
    var c1 := ReadPackageJson(env.join(Source(o, env), "package.json"));
    assert Issuable(o, env, w, c1);
    if !NameResolved(o, w) {
      assert Prepare(o, env, w, v).calls == [c1];
    } else {
      var info := ResolvePackageInfo(o, w.packageJson.value).value;
      var v1 := v.(functionName := Some(info.name), functionDesc := info.description);
      var rest := Package(o, env, w, v1, info);
      PackageConforms(o, env, w, v1, info);
      assert Prepare(o, env, w, v) == Step([c1] + rest.calls, rest.vars, rest.result);
      AllIssuableAppend(o, env, w, [c1], rest.calls);
      StopsAfterSuccess(o, w, [c1], rest.calls, rest.result);
      if rest.result.Success? {
        assert [c1] + rest.calls == PrepareCalls(o, env, w);
      }
    }
  }

  function RoleCalls(o: Options, w: World): seq<Call>
    requires NameResolved(o, w) && RoleLoaded(o, w)
  {
    if Given(o.role) then [GetRole(o.role.value)]
    else [ReadRoleTemplate(RoleTemplateName), CreateRole(Name(o, w) + ExecutorSuffix, w.roleTemplate.value)]
  }

  /** One policy per file, in the order of the files. */
  function PolicyCalls(env: Env, files: seq<string>, roleName: string): (r: seq<Call>)
    ensures |r| == |files|
  {
    seq(|files|, i requires 0 <= i < |files| => AddPolicy(PolicyName(env.basename(files[i])), roleName, Some(files[i])))
  }

  /** The log writer always, then the other permissions. */
  function PermissionCalls(o: Options, env: Env, roleName: string, name: string): seq<Call> {
    [AddPolicy(LogWriterPolicy, roleName, None)] + ExtraPermissionCalls(o, env, roleName, name)
  }

  /** The extra policies when `policies` is given, the self-invocation
      policy when `allow-recursion` is. */
  function ExtraPermissionCalls(o: Options, env: Env, roleName: string, name: string): seq<Call> {
    (if Given(o.policies) then PolicyCalls(env, env.policyFiles, roleName) else [])
    + (if o.allowRecursion then [PutRolePolicy(roleName, RecursionPolicyName, RecursionPolicy(Region(o), name))] else [])
  }

  lemma {:induction false} AttachPoliciesConforms(o: Options, env: Env, w: World, files: seq<string>, roleName: string)
    requires Given(o.policies) && RoleLoaded(o, w) && roleName == RoleOf(o, w).roleName
    requires forall f :: f in files ==> f in env.policyFiles
    ensures var s := AttachPolicies(env, w, files, roleName);
      && StopsAtFailure(o, w, s.calls, s.result) && AllIssuable(o, env, w, s.calls)
      && (s.result.Success? <==> AllSucceed(w, PolicyCalls(env, files, roleName)))
      && (s.result.Success? ==> s.calls == PolicyCalls(env, files, roleName))
    decreases |files|
  {
    if files != [] {
      var c := AddPolicy(PolicyName(env.basename(files[0])), roleName, Some(files[0]));
      assert Issuable(o, env, w, c);
      var plan := PolicyCalls(env, files, roleName);
      assert plan == [c] + PolicyCalls(env, files[1..], roleName);
      if w.settle(c).Some? {
        assert AttachPolicies(env, w, files, roleName) == Run([c], Failure(w.settle(c).value));
        assert !Succeeds(w, plan[0]);
      } else {
        var rest := AttachPolicies(env, w, files[1..], roleName);
        assert AttachPolicies(env, w, files, roleName) == Run([c] + rest.calls, rest.result);
        AttachPoliciesConforms(o, env, w, files[1..], roleName);
        StopsAfterSuccess(o, w, [c], rest.calls, rest.result);
        AllSucceedAppend(w, [c], PolicyCalls(env, files[1..], roleName));
      }
    }
  }

  lemma ExtraPermissionsConforms(o: Options, env: Env, w: World, roleName: string, name: string)
    requires RoleLoaded(o, w) && roleName == RoleOf(o, w).roleName
    requires NameResolved(o, w) && name == Name(o, w)
    ensures var s := ExtraPermissions(o, env, w, roleName, name);
      && StopsAtFailure(o, w, s.calls, s.result) && AllIssuable(o, env, w, s.calls)
      && (s.result.Success? <==> AllSucceed(w, ExtraPermissionCalls(o, env, roleName, name)))
      && (s.result.Success? ==> s.calls == ExtraPermissionCalls(o, env, roleName, name))
  {
    var extraPlan := if Given(o.policies) then PolicyCalls(env, env.policyFiles, roleName) else [];
    var recPlan := if o.allowRecursion then [PutRolePolicy(roleName, RecursionPolicyName, RecursionPolicy(Region(o), name))] else [];
    assert ExtraPermissionCalls(o, env, roleName, name) == extraPlan + recPlan;
    AllSucceedAppend(w, extraPlan, recPlan);
    var extra := if Given(o.policies) then AttachPolicies(env, w, env.policyFiles, roleName) else Run([], Success(()));
    if Given(o.policies) {
      AttachPoliciesConforms(o, env, w, env.policyFiles, roleName);
    }
    assert AllIssuable(o, env, w, extra.calls);
    assert StopsAtFailure(o, w, extra.calls, extra.result);
    assert extra.result.Success? <==> AllSucceed(w, extraPlan);
    assert extra.result.Success? ==> extra.calls == extraPlan;
    if extra.result.Success? && o.allowRecursion {
      var rec := PutRolePolicy(roleName, RecursionPolicyName, RecursionPolicy(Region(o), name));
      assert Issuable(o, env, w, rec);
      assert AllIssuable(o, env, w, [rec]);
      assert ExtraPermissions(o, env, w, roleName, name) == Run(extra.calls + [rec], Command(w, rec).result);
      AllIssuableAppend(o, env, w, extra.calls, [rec]);
      StopsAfterSuccess(o, w, extra.calls, [rec], Command(w, rec).result);
    } else {
      assert ExtraPermissions(o, env, w, roleName, name) == extra;
    }
  }

  lemma PermissionsConforms(o: Options, env: Env, w: World, roleName: string, name: string)
    requires RoleLoaded(o, w) && roleName == RoleOf(o, w).roleName
    requires NameResolved(o, w) && name == Name(o, w)
    ensures var s := Permissions(o, env, w, roleName, name);
      && StopsAtFailure(o, w, s.calls, s.result) && AllIssuable(o, env, w, s.calls)
      && (s.result.Success? <==> AllSucceed(w, PermissionCalls(o, env, roleName, name)))
      && (s.result.Success? ==> s.calls == PermissionCalls(o, env, roleName, name))
  {
    var log := AddPolicy(LogWriterPolicy, roleName, None);
    assert Issuable(o, env, w, log);
    assert AllIssuable(o, env, w, [log]);
    var morePlan := ExtraPermissionCalls(o, env, roleName, name);
    AllSucceedAppend(w, [log], morePlan);
    if w.settle(log).Some? {
      assert Permissions(o, env, w, roleName, name) == Run([log], Failure(w.settle(log).value));
    } else {
      var more := ExtraPermissions(o, env, w, roleName, name);
      ExtraPermissionsConforms(o, env, w, roleName, name);
      assert Permissions(o, env, w, roleName, name) == Run([log] + more.calls, more.result);
      AllIssuableAppend(o, env, w, [log], more.calls);
      StopsAfterSuccess(o, w, [log], more.calls, more.result);
    }
  }

  lemma LoadRoleConforms(o: Options, env: Env, w: World, name: string)
    requires NameResolved(o, w) && name == Name(o, w)
    ensures var load := LoadRole(o, w, name);
      && StopsAtFailure(o, w, load.calls, load.result) && AllIssuable(o, env, w, load.calls)
      && (load.result.Success? <==> RoleLoaded(o, w))
      && (load.result.Success? ==> load.result.value == RoleOf(o, w) && load.calls == RoleCalls(o, w))
  {
    LoadRoleSettles(o, w, name);
    LoadRoleIssuable(o, env, w, name);
  }

  lemma LoadRoleSettles(o: Options, w: World, name: string)
    requires NameResolved(o, w) && name == Name(o, w)
    ensures var load := LoadRole(o, w, name);
      && StopsAtFailure(o, w, load.calls, load.result)
      && (load.result.Success? <==> RoleLoaded(o, w))
      && (load.result.Success? ==> load.result.value == RoleOf(o, w) && load.calls == RoleCalls(o, w))
  {
    var load := LoadRole(o, w, name);
    if Given(o.role) {
      assert load.calls == [GetRole(o.role.value)];
    } else if w.roleTemplate.Success? {
      var c2 := CreateRole(name + ExecutorSuffix, w.roleTemplate.value);
      assert load.calls == [ReadRoleTemplate(RoleTemplateName), c2];
      assert load.calls[..1] == [ReadRoleTemplate(RoleTemplateName)] && load.calls[1] == c2;
    } else {
      assert load.calls == [ReadRoleTemplate(RoleTemplateName)];
    }
  }

  lemma LoadRoleIssuable(o: Options, env: Env, w: World, name: string)
    requires NameResolved(o, w) && name == Name(o, w)
    ensures AllIssuable(o, env, w, LoadRole(o, w, name).calls)
  {
    if Given(o.role) {
      assert Issuable(o, env, w, GetRole(o.role.value));
    } else {
      assert Issuable(o, env, w, ReadRoleTemplate(RoleTemplateName));
      if w.roleTemplate.Success? {
        assert Issuable(o, env, w, CreateRole(name + ExecutorSuffix, w.roleTemplate.value));
      }
    }
  }

  /** The role stage: reuse or create the role, then its policies. */
  lemma IdentityConforms(o: Options, env: Env, w: World, v: Vars, name: string)
    requires NameResolved(o, w) && name == Name(o, w)
    ensures var s := Identity(o, env, w, v, name);
      && StopsAtFailure(o, w, s.calls, s.result) && AllIssuable(o, env, w, s.calls)
      && (s.result.Success? <==> RoleLoaded(o, w) && AllSucceed(w, PermissionCalls(o, env, RoleOf(o, w).roleName, name)))
      && (s.result.Success? ==> s.result.value == RoleOf(o, w))
      && (s.result.Success? ==> s.calls == RoleCalls(o, w) + PermissionCalls(o, env, RoleOf(o, w).roleName, name))
  {
    var load := LoadRole(o, w, name);
    LoadRoleConforms(o, env, w, name);
    if load.result.Success? {
      var perms := Permissions(o, env, w, RoleOf(o, w).roleName, name);
      PermissionsConforms(o, env, w, RoleOf(o, w).roleName, name);
      assert Identity(o, env, w, v, name).calls == load.calls + perms.calls;
      AllIssuableAppend(o, env, w, load.calls, perms.calls);
      StopsAfterSuccess(o, w, load.calls, perms.calls, perms.result);
    }
  }

  function LambdaCalls(o: Options, w: World): seq<Call>
    requires Prepares(o, w) && RoleLoaded(o, w) && w.archive.Success?
  {
    [ ReadArchive(w.zip.value),
      CreateFunction(FunctionRequestFor(o, Name(o, w), Description(o, w), w.archive.value, RoleOf(o, w).arn), CreateRetry) ]
  }

  /** How `createLambda` settles, for any prepared package and role. */
  lemma CreateLambdaSettles(o: Options, w: World, v: Vars, p: Prepared, role: Role)
    ensures var s := CreateLambda(o, w, v, p, role);
      && StopsAtFailure(o, w, s.calls, s.result)
      && (s.result.Success? <==> w.archive.Success? && w.createFunction.Success?)
      && (s.result.Success? ==> s.result.value == w.createFunction.value)
      && (s.result.Success? ==> s.calls == [ReadArchive(p.archive), CreateFunction(FunctionRequestFor(o, p.name, p.description, w.archive.value, role.arn), CreateRetry)])
  {
    var s := CreateLambda(o, w, v, p, role);
    var c1 := ReadArchive(p.archive);
    if w.archive.Success? {
      var c2 := CreateFunction(FunctionRequestFor(o, p.name, p.description, w.archive.value, role.arn), CreateRetry);
      assert s.calls == [c1, c2] && s.calls[0] == c1 && s.calls[1] == c2;
      assert s.calls[..1] == [c1];
    } else {
      assert s.calls == [c1];
    }
  }

  lemma CreateLambdaIssuable(o: Options, env: Env, w: World, v: Vars, p: Prepared, role: Role)
    requires Prepares(o, w) && p == PreparedOf(o, w) && RoleLoaded(o, w) && role == RoleOf(o, w)
    ensures AllIssuable(o, env, w, CreateLambda(o, w, v, p, role).calls)
  {
    var c1 := ReadArchive(p.archive);
    assert Issuable(o, env, w, c1);
    if w.archive.Success? {
      CreateFunctionIssuable(o, env, w);
      assert CreateLambda(o, w, v, p, role).calls == LambdaCalls(o, w);
    } else {
      assert CreateLambda(o, w, v, p, role).calls == [c1];
    }
  }

  lemma CreateFunctionIssuable(o: Options, env: Env, w: World)
    requires Prepares(o, w) && RoleLoaded(o, w) && w.archive.Success?
    ensures AllIssuable(o, env, w, LambdaCalls(o, w))
  {
    var cs := LambdaCalls(o, w);
    assert Issuable(o, env, w, cs[0]);
    assert Issuable(o, env, w, cs[1]);
  }

  lemma CreateLambdaConforms(o: Options, env: Env, w: World, v: Vars, p: Prepared, role: Role)
    requires Prepares(o, w) && p == PreparedOf(o, w) && RoleLoaded(o, w) && role == RoleOf(o, w)
    ensures var s := CreateLambda(o, w, v, p, role);
      && StopsAtFailure(o, w, s.calls, s.result) && AllIssuable(o, env, w, s.calls)
      && (s.result.Success? <==> w.archive.Success? && w.createFunction.Success?)
      && (s.result.Success? ==> s.result.value == w.createFunction.value && s.calls == LambdaCalls(o, w))
  {
    CreateLambdaSettles(o, w, v, p, role);
    CreateLambdaIssuable(o, env, w, v, p, role);
  }

  /** "latest" at $LATEST, then the `version` alias at the new version. */
  function AliasCalls(o: Options, data: FunctionData): seq<Call> {
    [MarkAlias(data.functionName, "$LATEST", "latest")]
    + (if Given(o.version) then [MarkAlias(data.functionName, data.version, o.version.value)] else [])
  }

  lemma MarkAliasesConforms(o: Options, env: Env, w: World, data: FunctionData)
    requires w.createFunction.Success? && data == w.createFunction.value
    ensures var s := MarkAliases(o, w, data);
      && StopsAtFailure(o, w, s.calls, s.result) && AllIssuable(o, env, w, s.calls)
      && (s.result.Success? <==> AllSucceed(w, AliasCalls(o, data)))
      && (s.result.Success? ==> s.calls == AliasCalls(o, data))
  {
    MarkAliasesSettles(o, w, data);
    MarkAliasesIssuable(o, env, w, data);
  }

  lemma MarkAliasesSettles(o: Options, w: World, data: FunctionData)
    ensures var s := MarkAliases(o, w, data);
      && StopsAtFailure(o, w, s.calls, s.result)
      && (s.result.Success? <==> AllSucceed(w, AliasCalls(o, data)))
      && (s.result.Success? ==> s.calls == AliasCalls(o, data))
  {
    var latest := MarkAlias(data.functionName, "$LATEST", "latest");
    if Given(o.version) {
      var named := MarkAlias(data.functionName, data.version, o.version.value);
      assert AliasCalls(o, data) == [latest, named];
      assert AllSucceed(w, [latest, named]) <==> Succeeds(w, latest) && Succeeds(w, named) by {
        assert [latest, named][0] == latest && [latest, named][1] == named;
      }
    } else {
      assert AliasCalls(o, data) == [latest];
      assert [latest][0] == latest;
    }
  }

  lemma MarkAliasesIssuable(o: Options, env: Env, w: World, data: FunctionData)
    requires w.createFunction.Success? && data == w.createFunction.value
    ensures AllIssuable(o, env, w, MarkAliases(o, w, data).calls)
  {
    var latest := MarkAlias(data.functionName, "$LATEST", "latest");
    assert Issuable(o, env, w, latest);
    if Given(o.version) {
      assert Issuable(o, env, w, MarkAlias(data.functionName, data.version, o.version.value));
    }
  }

  /** When `api-module` is given: the module loads, has `apiConfig`, and the
      REST API is created. */
  predicate ApiReady(o: Options, w: World) {
    Given(o.apiModule) ==> w.apiModule.Loaded? && w.apiModule.apiConfig.Some? && w.createRestApi.Success?
  }

  /** Everything the web API stage needs resolves, when `api-module` is given. */
  predicate WebApiDefined(o: Options, w: World) {
    ApiReady(o, w) && (Given(o.apiModule) && w.apiModule.hasPostDeploy ==> w.postDeploy.Success?)
  }

  /** The web API object: the new API's id, the module, the stage URL, and
      the post-deploy result when there is one. */
  function ApiOf(o: Options, env: Env, w: World): ApiInfo
    requires Given(o.apiModule) && WebApiDefined(o, w)
  {
    var id := w.createRestApi.value;
    ApiInfo(id, o.apiModule.value, env.apiUrl(id, Region(o), StageAlias(o)),
            if w.apiModule.hasPostDeploy then w.postDeploy.value else None)
  }

  function MetadataOf(o: Options, env: Env, w: World): LambdaMetadata
    requires w.createFunction.Success? && WebApiDefined(o, w)
  {
    LambdaMetadata(w.createFunction.value, if Given(o.apiModule) then Some(ApiOf(o, env, w)) else None)
  }

  function WebCalls(o: Options, env: Env, w: World): seq<Call>
    requires w.createFunction.Success? && w.validatePackage.Success? && ApiReady(o, w)
  {
    if !Given(o.apiModule) then []
    else
      [ LoadApiModule(env.join(w.validatePackage.value, o.apiModule.value)),
        CreateRestApi(w.createFunction.value.functionName) ]
      + DeployCalls(o, env, w)
  }

  /** The rebuild from `apiConfig`, then `postDeploy` when the module has one. */
  function DeployCalls(o: Options, env: Env, w: World): seq<Call>
    requires w.createFunction.Success? && Given(o.apiModule) && ApiReady(o, w)
  {
    var name := w.createFunction.value.functionName;
    var id := w.createRestApi.value;
    [ RebuildWebApi(name, StageAlias(o), id, w.apiModule.apiConfig.value, Region(o)) ]
    + (if w.apiModule.hasPostDeploy
       then [PostDeploy(DeployContext(name, StageAlias(o), id, env.apiUrl(id, Region(o), StageAlias(o)), Region(o)))]
       else [])
  }

  /** The web API stage: nothing without `api-module`; otherwise the module
      is loaded, and only a module with `apiConfig` leads to the API calls. */
  lemma WebApiConforms(o: Options, env: Env, w: World, v: Vars, meta: LambdaMetadata, dir: string)
    requires w.createFunction.Success? && meta == LambdaMetadata(w.createFunction.value, None)
    requires w.validatePackage.Success? && dir == w.validatePackage.value
    ensures var s := WebApi(o, env, w, v, meta, dir);
      && StopsAtFailure(o, w, s.calls, s.result) && AllIssuable(o, env, w, s.calls)
      && (s.result.Success? <==> WebApiDefined(o, w) && AllSucceed(w, WebCalls(o, env, w)))
      && (s.result.Success? ==> s.result.value == MetadataOf(o, env, w) && s.calls == WebCalls(o, env, w))
  {
    WebApiIssuable(o, env, w, v, meta, dir);
    WebApiSettles(o, env, w, v, meta, dir);
  }

  /** Every call of the web API stage is one the command may issue. */
  lemma WebApiIssuable(o: Options, env: Env, w: World, v: Vars, meta: LambdaMetadata, dir: string)
    requires w.createFunction.Success? && meta == LambdaMetadata(w.createFunction.value, None)
    requires w.validatePackage.Success? && dir == w.validatePackage.value
    ensures AllIssuable(o, env, w, WebApi(o, env, w, v, meta, dir).calls)
  {
    var calls := WebApi(o, env, w, v, meta, dir).calls;
    if Given(o.apiModule) {
      var c1 := LoadApiModule(env.join(dir, o.apiModule.value));
      assert Issuable(o, env, w, c1);
      if w.apiModule.Loaded? && w.apiModule.apiConfig.Some? {
        var c2 := CreateRestApi(w.createFunction.value.functionName);
        assert Issuable(o, env, w, c2);
        if w.createRestApi.Success? {
          var d := DeployApi(o, env, w, v, meta, o.apiModule.value, w.createRestApi.value, w.apiModule.apiConfig.value, w.apiModule.hasPostDeploy);
          assert calls == [c1, c2] + d.calls;
          DeployApiIssuable(o, env, w, v, meta);
          AllIssuableAppend(o, env, w, [c1, c2], d.calls);
        } else {
          assert calls == [c1, c2];
        }
      } else {
        assert calls == [c1];
      }
    }
  }

  lemma DeployApiIssuable(o: Options, env: Env, w: World, v: Vars, meta: LambdaMetadata)
    requires w.createFunction.Success? && meta == LambdaMetadata(w.createFunction.value, None)
    requires Given(o.apiModule) && w.apiModule.Loaded? && w.apiModule.apiConfig.Some? && w.createRestApi.Success?
    ensures AllIssuable(o, env, w, DeployApi(o, env, w, v, meta, o.apiModule.value, w.createRestApi.value, w.apiModule.apiConfig.value, w.apiModule.hasPostDeploy).calls)
  {
    var calls := DeployApi(o, env, w, v, meta, o.apiModule.value, w.createRestApi.value, w.apiModule.apiConfig.value, w.apiModule.hasPostDeploy).calls;
    var name := w.createFunction.value.functionName;
    var id := w.createRestApi.value;
    var c3 := RebuildWebApi(name, StageAlias(o), id, w.apiModule.apiConfig.value, Region(o));
    assert Issuable(o, env, w, c3);
    if w.apiModule.hasPostDeploy && w.settle(c3).None? {
      var c4 := PostDeploy(DeployContext(name, StageAlias(o), id, env.apiUrl(id, Region(o), StageAlias(o)), Region(o)));
      assert Issuable(o, env, w, c4);
      assert calls == [c3, c4];
    } else {
      assert calls == [c3];
    }
  }

  lemma WebApiSettles(o: Options, env: Env, w: World, v: Vars, meta: LambdaMetadata, dir: string)
    requires w.createFunction.Success? && meta == LambdaMetadata(w.createFunction.value, None)
    requires w.validatePackage.Success? && dir == w.validatePackage.value
    ensures var s := WebApi(o, env, w, v, meta, dir);
      && StopsAtFailure(o, w, s.calls, s.result)
      && (s.result.Success? <==> WebApiDefined(o, w) && AllSucceed(w, WebCalls(o, env, w)))
      && (s.result.Success? ==> s.result.value == MetadataOf(o, env, w) && s.calls == WebCalls(o, env, w))
  {
    if Given(o.apiModule) && w.apiModule.Loaded? && w.apiModule.apiConfig.Some? && w.createRestApi.Success? {
      WebApiAfterRestApi(o, env, w, v, meta, dir);
    } else if Given(o.apiModule) && w.apiModule.Loaded? && w.apiModule.apiConfig.Some? {
      var c2 := CreateRestApi(w.createFunction.value.functionName);
      assert WebApi(o, env, w, v, meta, dir).calls[1] == c2;
    }
  }

  /** Once the REST API exists, the stage is the two calls so far followed
      by the deployment. */
  lemma WebApiAfterRestApi(o: Options, env: Env, w: World, v: Vars, meta: LambdaMetadata, dir: string)
    requires w.createFunction.Success? && meta == LambdaMetadata(w.createFunction.value, None)
    requires w.validatePackage.Success? && dir == w.validatePackage.value
    requires Given(o.apiModule) && w.apiModule.Loaded? && w.apiModule.apiConfig.Some? && w.createRestApi.Success?
    ensures var s := WebApi(o, env, w, v, meta, dir);
      && StopsAtFailure(o, w, s.calls, s.result)
      && (s.result.Success? <==> WebApiDefined(o, w) && AllSucceed(w, WebCalls(o, env, w)))
      && (s.result.Success? ==> s.result.value == MetadataOf(o, env, w) && s.calls == WebCalls(o, env, w))
  {
    var c1 := LoadApiModule(env.join(dir, o.apiModule.value));
    var c2 := CreateRestApi(w.createFunction.value.functionName);
    var d := DeployApi(o, env, w, v, meta, o.apiModule.value, w.createRestApi.value, w.apiModule.apiConfig.value, w.apiModule.hasPostDeploy);
    assert WebApi(o, env, w, v, meta, dir) == Step([c1, c2] + d.calls, d.vars, d.result);
    assert WebCalls(o, env, w) == [c1, c2] + DeployCalls(o, env, w);
    assert AllSucceed(w, [c1, c2]) by {
      assert [c1, c2][0] == c1 && [c1, c2][1] == c2;
    }
    DeployApiSettles(o, env, w, v, meta);
    StopsAfterSuccess(o, w, [c1, c2], d.calls, d.result);
    AllSucceedAppend(w, [c1, c2], DeployCalls(o, env, w));
  }

  /** How the deployment settles: the rebuild, then `postDeploy` when the
      module has one; the web API part carries a truthy post-deploy result. */
  lemma DeployApiSettles(o: Options, env: Env, w: World, v: Vars, meta: LambdaMetadata)
    requires w.createFunction.Success? && meta == LambdaMetadata(w.createFunction.value, None)
    requires Given(o.apiModule) && w.apiModule.Loaded? && w.apiModule.apiConfig.Some? && w.createRestApi.Success?
    ensures var d := DeployApi(o, env, w, v, meta, o.apiModule.value, w.createRestApi.value, w.apiModule.apiConfig.value, w.apiModule.hasPostDeploy);
      && StopsAtFailure(o, w, d.calls, d.result)
      && (d.result.Success? <==> WebApiDefined(o, w) && AllSucceed(w, DeployCalls(o, env, w)))
      && (d.result.Success? ==> d.result.value == MetadataOf(o, env, w) && d.calls == DeployCalls(o, env, w))
  {
    var d := DeployApi(o, env, w, v, meta, o.apiModule.value, w.createRestApi.value, w.apiModule.apiConfig.value, w.apiModule.hasPostDeploy);
    var name := w.createFunction.value.functionName;
    var id := w.createRestApi.value;
    var c3 := RebuildWebApi(name, StageAlias(o), id, w.apiModule.apiConfig.value, Region(o));
    if !w.apiModule.hasPostDeploy || w.settle(c3).Some? {
      assert d.calls == [c3];
      assert DeployCalls(o, env, w)[0] == c3;
    } else {
      var c4 := PostDeploy(DeployContext(name, StageAlias(o), id, env.apiUrl(id, Region(o), StageAlias(o)), Region(o)));
      assert d.calls == [c3, c4] && d.calls[0] == c3 && d.calls[1] == c4;
      assert d.calls[..1] == [c3];
      assert DeployCalls(o, env, w) == [c3, c4];
    }
  }

  /** Everything the command needs from the world resolves; whether the
      calls whose value it ignores resolve is up to `settle`. */
  predicate PlanDefined(o: Options, w: World) {
    Prepares(o, w) && RoleLoaded(o, w) && w.archive.Success? && w.createFunction.Success? && WebApiDefined(o, w)
  }

  /** The summary a successful run resolves with. */
  function SummaryOf(o: Options, env: Env, w: World): Summary
    requires PlanDefined(o, w)
  {
    FormatResult(RoleOf(o, w).roleName, Region(o), MetadataOf(o, env, w))
  }

  function SaveCall(o: Options, env: Env, w: World): Call
    requires PlanDefined(o, w)
  {
    WriteConfig(ConfigFile(o, env), SavedConfigFor(RoleOf(o, w).roleName, Region(o), MetadataOf(o, env, w)))
  }

  function WebPlan(o: Options, env: Env, w: World): seq<Call>
    requires PlanDefined(o, w)
  {
    WebCalls(o, env, w) + [SaveCall(o, env, w)]
  }

  function AliasPlan(o: Options, env: Env, w: World): seq<Call>
    requires PlanDefined(o, w)
  {
    AliasCalls(o, w.createFunction.value) + WebPlan(o, env, w)
  }

  function LambdaPlan(o: Options, env: Env, w: World): seq<Call>
    requires PlanDefined(o, w)
  {
    LambdaCalls(o, w) + AliasPlan(o, env, w)
  }

  function IdentityPlan(o: Options, env: Env, w: World): seq<Call>
    requires PlanDefined(o, w)
  {
    RoleCalls(o, w) + PermissionCalls(o, env, RoleOf(o, w).roleName, Name(o, w)) + LambdaPlan(o, env, w)
  }

  /** Every call of a run in which everything resolves, in order. */
  function SuccessTrace(o: Options, env: Env, w: World): seq<Call>
    requires PlanDefined(o, w)
  {
    PrepareCalls(o, env, w) + IdentityPlan(o, env, w)
  }

  lemma FinishConforms(o: Options, env: Env, w: World, role: Role, v: Vars, meta: LambdaMetadata)
    requires PlanDefined(o, w) && role == RoleOf(o, w) && meta == MetadataOf(o, env, w)
    ensures var s := Finish(o, env, w, role, v, meta);
      && StopsAtFailure(o, w, s.calls, s.result) && AllIssuable(o, env, w, s.calls)
      && (s.result.Success? <==> AllSucceed(w, [SaveCall(o, env, w)]))
      && (s.result.Success? ==> s.calls == [SaveCall(o, env, w)] && s.result.value == SummaryOf(o, env, w))
  {
    assert Issuable(o, env, w, SaveCall(o, env, w));
    assert [SaveCall(o, env, w)][0] == SaveCall(o, env, w);
  }

  lemma AfterWebApiConforms(o: Options, env: Env, w: World, role: Role, v: Vars, dir: string)
    requires Prepares(o, w) && RoleLoaded(o, w) && w.archive.Success? && w.createFunction.Success?
    requires role == RoleOf(o, w) && dir == w.validatePackage.value
    ensures var s := AfterWebApi(o, env, w, role, WebApi(o, env, w, v, LambdaMetadata(w.createFunction.value, None), dir));
      && StopsAtFailure(o, w, s.calls, s.result) && AllIssuable(o, env, w, s.calls)
      && (s.result.Success? <==> PlanDefined(o, w) && AllSucceed(w, WebPlan(o, env, w)))
      && (s.result.Success? ==> s.calls == WebPlan(o, env, w) && s.result.value == SummaryOf(o, env, w))
  {
    var web := WebApi(o, env, w, v, LambdaMetadata(w.createFunction.value, None), dir);
    WebApiConforms(o, env, w, v, LambdaMetadata(w.createFunction.value, None), dir);
    if WebApiDefined(o, w) {
      AllSucceedAppend(w, WebCalls(o, env, w), [SaveCall(o, env, w)]);
    }
    if web.result.Success? {
      var fin := Finish(o, env, w, role, web.vars, web.result.value);
      FinishConforms(o, env, w, role, web.vars, web.result.value);
      assert AfterWebApi(o, env, w, role, web) == Prefix(web.calls, fin);
      AllIssuableAppend(o, env, w, web.calls, fin.calls);
      StopsAfterSuccess(o, w, web.calls, fin.calls, fin.result);
    }
  }

  lemma AfterAliasesConforms(o: Options, env: Env, w: World, prepared: Prepared, role: Role, v: Vars, data: FunctionData)
    requires Prepares(o, w) && RoleLoaded(o, w) && w.archive.Success? && w.createFunction.Success?
    requires prepared == PreparedOf(o, w) && role == RoleOf(o, w) && data == w.createFunction.value
    ensures var s := AfterAliases(o, env, w, prepared, role, v, data, MarkAliases(o, w, data));
      && StopsAtFailure(o, w, s.calls, s.result) && AllIssuable(o, env, w, s.calls)
      && (s.result.Success? <==> PlanDefined(o, w) && AllSucceed(w, AliasPlan(o, env, w)))
      && (s.result.Success? ==> s.calls == AliasPlan(o, env, w) && s.result.value == SummaryOf(o, env, w))
  {
    var aliases := MarkAliases(o, w, data);
    MarkAliasesConforms(o, env, w, data);
    if PlanDefined(o, w) {
      AllSucceedAppend(w, AliasCalls(o, data), WebPlan(o, env, w));
    }
    if aliases.result.Success? {
      var rest := AfterWebApi(o, env, w, role, WebApi(o, env, w, v, LambdaMetadata(data, None), prepared.dir));
      AfterWebApiConforms(o, env, w, role, v, prepared.dir);
      AllIssuableAppend(o, env, w, aliases.calls, rest.calls);
      StopsAfterSuccess(o, w, aliases.calls, rest.calls, rest.result);
    }
  }

  lemma AfterLambdaConforms(o: Options, env: Env, w: World, prepared: Prepared, role: Role, v: Vars)
    requires Prepares(o, w) && RoleLoaded(o, w) && prepared == PreparedOf(o, w) && role == RoleOf(o, w)
    ensures var s := AfterLambda(o, env, w, prepared, role, CreateLambda(o, w, v, prepared, role));
      && StopsAtFailure(o, w, s.calls, s.result) && AllIssuable(o, env, w, s.calls)
      && (s.result.Success? <==> PlanDefined(o, w) && AllSucceed(w, LambdaPlan(o, env, w)))
      && (s.result.Success? ==> s.calls == LambdaPlan(o, env, w) && s.result.value == SummaryOf(o, env, w))
  {
    var lam := CreateLambda(o, w, v, prepared, role);
    CreateLambdaConforms(o, env, w, v, prepared, role);
    if PlanDefined(o, w) {
      AllSucceedAppend(w, LambdaCalls(o, w), AliasPlan(o, env, w));
      assert AllSucceed(w, LambdaCalls(o, w)) by {
        assert LambdaCalls(o, w)[0].ReadArchive? && LambdaCalls(o, w)[1].CreateFunction?;
      }
    }
    if lam.result.Success? {
      var data := lam.result.value;
      var rest := AfterAliases(o, env, w, prepared, role, lam.vars, data, MarkAliases(o, w, data));
      AfterAliasesConforms(o, env, w, prepared, role, lam.vars, data);
      AllIssuableAppend(o, env, w, lam.calls, rest.calls);
      StopsAfterSuccess(o, w, lam.calls, rest.calls, rest.result);
    }
  }

  /** The role calls succeed in a defined plan, so the plan after them
      succeeds when the permissions and the rest do. */
  lemma IdentityPlanSucceeds(o: Options, env: Env, w: World)
    requires PlanDefined(o, w)
    ensures AllSucceed(w, IdentityPlan(o, env, w)) <==>
      AllSucceed(w, PermissionCalls(o, env, RoleOf(o, w).roleName, Name(o, w))) && AllSucceed(w, LambdaPlan(o, env, w))
  {
    var roleCalls := RoleCalls(o, w);
    var perms := PermissionCalls(o, env, RoleOf(o, w).roleName, Name(o, w));
    AllSucceedAppend(w, roleCalls + perms, LambdaPlan(o, env, w));
    AllSucceedAppend(w, roleCalls, perms);
    assert AllSucceed(w, roleCalls) by {
      if !Given(o.role) {
        assert roleCalls[0].ReadRoleTemplate? && roleCalls[1].CreateRole?;
      }
    }
  }

  lemma AfterIdentityConforms(o: Options, env: Env, w: World, prepared: Prepared, v: Vars)
    requires Prepares(o, w) && prepared == PreparedOf(o, w)
    ensures var s := AfterIdentity(o, env, w, prepared, Identity(o, env, w, v, prepared.name));
      && StopsAtFailure(o, w, s.calls, s.result) && AllIssuable(o, env, w, s.calls)
      && (s.result.Success? <==> PlanDefined(o, w) && AllSucceed(w, IdentityPlan(o, env, w)))
      && (s.result.Success? ==> s.calls == IdentityPlan(o, env, w) && s.result.value == SummaryOf(o, env, w))
  {
    var id := Identity(o, env, w, v, prepared.name);
    IdentityConforms(o, env, w, v, prepared.name);
    if PlanDefined(o, w) {
      IdentityPlanSucceeds(o, env, w);
    }
    if id.result.Success? {
      var rest := AfterLambda(o, env, w, prepared, id.result.value, CreateLambda(o, w, id.vars, prepared, id.result.value));
      AfterLambdaConforms(o, env, w, prepared, id.result.value, id.vars);
      AllIssuableAppend(o, env, w, id.calls, rest.calls);
      StopsAfterSuccess(o, w, id.calls, rest.calls, rest.result);
    }
  }

  /** The package calls succeed in a defined plan. */
  lemma SuccessTraceSucceeds(o: Options, env: Env, w: World)
    requires PlanDefined(o, w)
    ensures AllSucceed(w, SuccessTrace(o, env, w)) <==> AllSucceed(w, IdentityPlan(o, env, w))
  {
    AllSucceedAppend(w, PrepareCalls(o, env, w), IdentityPlan(o, env, w));
    assert AllSucceed(w, PrepareCalls(o, env, w)) by {
      var cs := PrepareCalls(o, env, w);
      assert cs[0].ReadPackageJson? && cs[1].CollectFiles? && cs[2].ValidatePackage? && cs[3].Zip?;
    }
  }

  lemma AfterPrepareConforms(o: Options, env: Env, w: World, v: Vars)
    ensures var s := AfterPrepare(o, env, w, Prepare(o, env, w, v));
      && StopsAtFailure(o, w, s.calls, s.result) && AllIssuable(o, env, w, s.calls)
      && (s.result.Success? <==> PlanDefined(o, w) && AllSucceed(w, SuccessTrace(o, env, w)))
      && (s.result.Success? ==> s.calls == SuccessTrace(o, env, w) && s.result.value == SummaryOf(o, env, w))
  {
    var p := Prepare(o, env, w, v);
    PrepareConforms(o, env, w, v);
    if PlanDefined(o, w) {
      SuccessTraceSucceeds(o, env, w);
    }
    if p.result.Success? {
      var rest := AfterIdentity(o, env, w, p.result.value, Identity(o, env, w, p.vars, p.result.value.name));
      AfterIdentityConforms(o, env, w, p.result.value, p.vars);
      AllIssuableAppend(o, env, w, p.calls, rest.calls);
      StopsAfterSuccess(o, w, p.calls, rest.calls, rest.result);
    }
  }

  // ---------------------------------------------------------------------
  // Every run keeps the order of the stages

  lemma PackageInOrder(o: Options, env: Env, w: World, v: Vars, info: PackageInfo)
    ensures Ordered(Package(o, env, w, v, info).calls, 1, 3)
  {
    var calls := Package(o, env, w, v, info).calls;
    var c2 := CollectFiles(Source(o, env), o.useLocalDependencies);
    if w.collectFiles.Success? {
      var c3 := ValidatePackage(w.collectFiles.value, o.handler, o.apiModule);
      if w.validatePackage.Success? {
        assert calls == [c2, c3, Zip(w.validatePackage.value)];
      } else {
        assert calls == [c2, c3];
      }
    } else {
      assert calls == [c2];
    }
  }

  lemma PrepareInOrder(o: Options, env: Env, w: World, v: Vars)
    ensures Ordered(Prepare(o, env, w, v).calls, 0, 3)
  {
    var c1 := ReadPackageJson(env.join(Source(o, env), "package.json"));
    assert Ordered([c1], 0, 0);
    if w.packageJson.Success? && ResolvePackageInfo(o, w.packageJson.value).Success? {
      var info := ResolvePackageInfo(o, w.packageJson.value).value;
      var v1 := v.(functionName := Some(info.name), functionDesc := info.description);
      PackageInOrder(o, env, w, v1, info);
      OrderedAppend([c1], Package(o, env, w, v1, info).calls, 0, 0, 1, 3);
    }
  }

  lemma {:induction false} AttachPoliciesInOrder(env: Env, w: World, files: seq<string>, roleName: string)
    ensures Ordered(AttachPolicies(env, w, files, roleName).calls, 7, 7)
    decreases |files|
  {
    if files != [] {
      var c := AddPolicy(PolicyName(env.basename(files[0])), roleName, Some(files[0]));
      assert Ordered([c], 7, 7);
      if w.settle(c).None? {
        AttachPoliciesInOrder(env, w, files[1..], roleName);
        OrderedAppend([c], AttachPolicies(env, w, files[1..], roleName).calls, 7, 7, 7, 7);
      }
    }
  }

  lemma ExtraPermissionsInOrder(o: Options, env: Env, w: World, roleName: string, name: string)
    ensures Ordered(ExtraPermissions(o, env, w, roleName, name).calls, 7, 8)
  {
    var extra := if Given(o.policies) then AttachPolicies(env, w, env.policyFiles, roleName) else Run([], Success(()));
    if Given(o.policies) {
      AttachPoliciesInOrder(env, w, env.policyFiles, roleName);
    }
    assert Ordered(extra.calls, 7, 7);
    if extra.result.Success? && o.allowRecursion {
      var rec := PutRolePolicy(roleName, RecursionPolicyName, RecursionPolicy(Region(o), name));
      assert ExtraPermissions(o, env, w, roleName, name).calls == extra.calls + [rec];
      assert Ordered([rec], 8, 8);
      OrderedAppend(extra.calls, [rec], 7, 7, 8, 8);
    } else {
      assert ExtraPermissions(o, env, w, roleName, name).calls == extra.calls;
    }
  }

  lemma PermissionsInOrder(o: Options, env: Env, w: World, roleName: string, name: string)
    ensures Ordered(Permissions(o, env, w, roleName, name).calls, 6, 8)
  {
    var log := AddPolicy(LogWriterPolicy, roleName, None);
    assert Ordered([log], 6, 6);
    ExtraPermissionsInOrder(o, env, w, roleName, name);
    OrderedAppend([log], ExtraPermissions(o, env, w, roleName, name).calls, 6, 6, 7, 8);
  }

  lemma IdentityInOrder(o: Options, env: Env, w: World, v: Vars, name: string)
    ensures Ordered(Identity(o, env, w, v, name).calls, 4, 8)
  {
    var load := LoadRole(o, w, name);
    assert Ordered(load.calls, 4, 5);
    if load.result.Success? {
      PermissionsInOrder(o, env, w, load.result.value.roleName, name);
      OrderedAppend(load.calls, Permissions(o, env, w, load.result.value.roleName, name).calls, 4, 5, 6, 8);
    }
  }

  lemma WebApiInOrder(o: Options, env: Env, w: World, v: Vars, meta: LambdaMetadata, dir: string)
    ensures Ordered(WebApi(o, env, w, v, meta, dir).calls, 12, 15)
  {
    if Given(o.apiModule) && w.apiModule.Loaded? && w.apiModule.apiConfig.Some? && w.createRestApi.Success? {
      WebApiCallsInOrder(o, env, w, v, meta, dir);
    } else {
      assert |WebApi(o, env, w, v, meta, dir).calls| <= 2;
    }
  }

  lemma WebApiCallsInOrder(o: Options, env: Env, w: World, v: Vars, meta: LambdaMetadata, dir: string)
    requires Given(o.apiModule) && w.apiModule.Loaded? && w.apiModule.apiConfig.Some? && w.createRestApi.Success?
    ensures Ordered(WebApi(o, env, w, v, meta, dir).calls, 12, 15)
  {
    var c1 := LoadApiModule(env.join(dir, o.apiModule.value));
    var c2 := CreateRestApi(meta.data.functionName);
    var d := DeployApi(o, env, w, v, meta, o.apiModule.value, w.createRestApi.value, w.apiModule.apiConfig.value, w.apiModule.hasPostDeploy);
    assert WebApi(o, env, w, v, meta, dir).calls == [c1, c2] + d.calls;
    assert Ordered([c1, c2], 12, 13);
    DeployApiInOrder(o, env, w, v, meta, o.apiModule.value, w.createRestApi.value, w.apiModule.apiConfig.value, w.apiModule.hasPostDeploy);
    OrderedAppend([c1, c2], d.calls, 12, 13, 14, 15);
  }

  lemma DeployApiInOrder(o: Options, env: Env, w: World, v: Vars, meta: LambdaMetadata,
                         apiModule: string, id: string, config: Token, hasPostDeploy: bool)
    ensures Ordered(DeployApi(o, env, w, v, meta, apiModule, id, config, hasPostDeploy).calls, 14, 15)
  {
    var calls := DeployApi(o, env, w, v, meta, apiModule, id, config, hasPostDeploy).calls;
    var c3 := RebuildWebApi(meta.data.functionName, StageAlias(o), id, config, Region(o));
    if hasPostDeploy && w.settle(c3).None? {
      var c4 := PostDeploy(DeployContext(meta.data.functionName, StageAlias(o), id, env.apiUrl(id, Region(o), StageAlias(o)), Region(o)));
      assert calls == [c3, c4];
    } else {
      assert calls == [c3];
    }
  }

  lemma AfterWebApiInOrder(o: Options, env: Env, w: World, role: Role, web: Step<LambdaMetadata>)
    requires Ordered(web.calls, 12, 15)
    ensures Ordered(AfterWebApi(o, env, w, role, web).calls, 12, 16)
  {
    if web.result.Success? {
      var fin := Finish(o, env, w, role, web.vars, web.result.value);
      assert Ordered(fin.calls, 16, 16);
      OrderedAppend(web.calls, fin.calls, 12, 15, 16, 16);
    }
  }

  lemma AfterAliasesInOrder(o: Options, env: Env, w: World, prepared: Prepared, role: Role, v: Vars, data: FunctionData)
    ensures Ordered(AfterAliases(o, env, w, prepared, role, v, data, MarkAliases(o, w, data)).calls, 11, 16)
  {
    var aliases := MarkAliases(o, w, data);
    assert Ordered(aliases.calls, 11, 11);
    if aliases.result.Success? {
      var web := WebApi(o, env, w, v, LambdaMetadata(data, None), prepared.dir);
      WebApiInOrder(o, env, w, v, LambdaMetadata(data, None), prepared.dir);
      AfterWebApiInOrder(o, env, w, role, web);
      OrderedAppend(aliases.calls, AfterWebApi(o, env, w, role, web).calls, 11, 11, 12, 16);
    }
  }

  lemma CreateLambdaInOrder(o: Options, w: World, v: Vars, p: Prepared, role: Role)
    ensures Ordered(CreateLambda(o, w, v, p, role).calls, 9, 10)
  {
    var calls := CreateLambda(o, w, v, p, role).calls;
    var c1 := ReadArchive(p.archive);
    if w.archive.Success? {
      assert calls == [c1, CreateFunction(FunctionRequestFor(o, p.name, p.description, w.archive.value, role.arn), CreateRetry)];
    } else {
      assert calls == [c1];
    }
  }

  lemma AfterLambdaInOrder(o: Options, env: Env, w: World, prepared: Prepared, role: Role, v: Vars)
    ensures Ordered(AfterLambda(o, env, w, prepared, role, CreateLambda(o, w, v, prepared, role)).calls, 9, 16)
  {
    var lam := CreateLambda(o, w, v, prepared, role);
    CreateLambdaInOrder(o, w, v, prepared, role);
    if lam.result.Success? {
      var data := lam.result.value;
      AfterAliasesInOrder(o, env, w, prepared, role, lam.vars, data);
      OrderedAppend(lam.calls, AfterAliases(o, env, w, prepared, role, lam.vars, data, MarkAliases(o, w, data)).calls, 9, 10, 11, 16);
    }
  }

  lemma AfterIdentityInOrder(o: Options, env: Env, w: World, prepared: Prepared, v: Vars)
    ensures Ordered(AfterIdentity(o, env, w, prepared, Identity(o, env, w, v, prepared.name)).calls, 4, 16)
  {
    var id := Identity(o, env, w, v, prepared.name);
    IdentityInOrder(o, env, w, v, prepared.name);
    if id.result.Success? {
      var role := id.result.value;
      AfterLambdaInOrder(o, env, w, prepared, role, id.vars);
      OrderedAppend(id.calls, AfterLambda(o, env, w, prepared, role, CreateLambda(o, w, id.vars, prepared, role)).calls, 4, 8, 9, 16);
    }
  }

  /** The calls of every run follow the order of the chain: package config,
      files, validation, zip, role, log-writer policy, extra policies,
      recursion policy, archive, function, aliases, web API, config file. */
  lemma CreateInStageOrder(o: Options, env: Env, w: World)
    ensures Ordered(Create(o, env, w).calls, 0, 16)
  {
    if Validation.ValidationError(o, env).None? {
      var p := Prepare(o, env, w, Unset);
      PrepareInOrder(o, env, w, Unset);
      if p.result.Success? {
        AfterIdentityInOrder(o, env, w, p.result.value, p.vars);
        OrderedAppend(p.calls, AfterIdentity(o, env, w, p.result.value, Identity(o, env, w, p.vars, p.result.value.name)).calls, 0, 3, 4, 16);
      }
    }
  }

  // ---------------------------------------------------------------------
  // The command

  /** A failing validation settles the command with its message before any
      call; a passing one starts with reading package.json. */
  lemma ValidationGuardsEveryCall(o: Options, env: Env, w: World)
    ensures var s := Create(o, env, w);
      && (Validation.ValidationError(o, env).Some? ==>
            s == Step([], Unset, Failure(Message(Validation.ValidationError(o, env).value))))
      && (Validation.ValidationError(o, env).None? ==>
            |s.calls| > 0 && s.calls[0] == ReadPackageJson(env.join(Source(o, env), "package.json")))
  {
    if Validation.ValidationError(o, env).None? {
      PrepareConforms(o, env, w, Unset);
      var p := Prepare(o, env, w, Unset);
      if p.result.Success? {
        var rest := AfterIdentity(o, env, w, p.result.value, Identity(o, env, w, p.vars, p.result.value.name));
        assert Create(o, env, w).calls == p.calls + rest.calls;
      }
    }
  }

  /** The first failure settles the command: every call before it resolved,
      nothing is issued after it, and its reason is the command's. */
  lemma CreateStopsAtFirstFailure(o: Options, env: Env, w: World)
    requires Validation.ValidationError(o, env).None?
    ensures StopsAtFailure(o, w, Create(o, env, w).calls, Create(o, env, w).result)
  {
    AfterPrepareConforms(o, env, w, Unset);
  }

  /** Every call the command issues has the shape its stage gives it, and is
      issued only under the options and earlier outcomes its stage requires. */
  lemma CreateIssuesOnlyIssuableCalls(o: Options, env: Env, w: World)
    ensures AllIssuable(o, env, w, Create(o, env, w).calls)
  {
    if Validation.ValidationError(o, env).None? {
      AfterPrepareConforms(o, env, w, Unset);
    }
  }

  /** The command resolves exactly when validation passes, the world yields
      everything the stages need and every planned call resolves; it then
      issued exactly the planned calls and resolves with the summary. */
  lemma CreateSucceedsIff(o: Options, env: Env, w: World)
    ensures var s := Create(o, env, w);
      && (s.result.Success? <==>
            Validation.ValidationError(o, env).None? && PlanDefined(o, w) && AllSucceed(w, SuccessTrace(o, env, w)))
      && (s.result.Success? ==> s.calls == SuccessTrace(o, env, w) && s.result.value == SummaryOf(o, env, w))
  {
    if Validation.ValidationError(o, env).None? {
      AfterPrepareConforms(o, env, w, Unset);
    }
  }
}

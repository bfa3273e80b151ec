/** The promises of the `create` command, each stated on `Pipeline.Create`
    (and so, through `Command.CreateCommand.Run`, on the command itself). */
module Guarantees {
  import opened Types
  import opened Derivations
  import opened Results
  import opened Pipeline
  import opened PipelineProperties
  import Validation

  /** A successful run passed validation and issued the planned calls. */
  lemma SuccessMeansValidated(o: Options, env: Env, w: World)
    requires Create(o, env, w).result.Success?
    ensures Validation.Acceptable(o, env) && PlanDefined(o, w)
    ensures AllSucceed(w, SuccessTrace(o, env, w))
    ensures Create(o, env, w).calls == SuccessTrace(o, env, w)
    ensures Create(o, env, w).result.value == SummaryOf(o, env, w)
  {
    CreateSucceedsIff(o, env, w);
    Validation.ValidationPassesIff(o, env);
  }

  // ---------------------------------------------------------------------
  // The plan of a successful run

  /** No call of `calls` writes the configuration. */
  predicate NoWrite(calls: seq<Call>) {
    forall c :: c in calls ==> !c.WriteConfig?
  }

  lemma PolicyCallsNoWrite(env: Env, files: seq<string>, roleName: string)
    ensures NoWrite(PolicyCalls(env, files, roleName))
  {
    var r := PolicyCalls(env, files, roleName);
    forall c | c in r ensures !c.WriteConfig? {
      var i :| 0 <= i < |r| && r[i] == c;
    }
  }

  /** The calls of a successful run that come before the configuration is saved. */
  function CallsBeforeSave(o: Options, env: Env, w: World): seq<Call>
    requires PlanDefined(o, w)
  {
    PrepareCalls(o, env, w) + RoleCalls(o, w) + PermissionCalls(o, env, RoleOf(o, w).roleName, Name(o, w))
    + LambdaCalls(o, w) + AliasCalls(o, w.createFunction.value) + WebCalls(o, env, w)
  }

  /** Regroups the success trace by its stages. `SuccessTraceEndsWithSave`
      needs it as a separate fact: inside that proof the solver does not
      find the regrouping within its resource limit. */
  lemma Regroup(p: seq<Call>, rc: seq<Call>, perm: seq<Call>, l: seq<Call>, a: seq<Call>, web: seq<Call>, save: seq<Call>)
    ensures p + (rc + perm + (l + (a + (web + save)))) == p + rc + perm + l + a + web + save
  {
  }

  lemma SuccessTraceEndsWithSave(o: Options, env: Env, w: World)
    requires PlanDefined(o, w)
    ensures SuccessTrace(o, env, w) == CallsBeforeSave(o, env, w) + [SaveCall(o, env, w)]
  {
    var p := PrepareCalls(o, env, w);
    var rc := RoleCalls(o, w);
    var perm := PermissionCalls(o, env, RoleOf(o, w).roleName, Name(o, w));
    var l := LambdaCalls(o, w);
    var a := AliasCalls(o, w.createFunction.value);
    var web := WebCalls(o, env, w);
    var save := [SaveCall(o, env, w)];
    assert SuccessTrace(o, env, w) == p + (rc + perm + (l + (a + (web + save))));
    Regroup(p, rc, perm, l, a, web, save);
  }

  lemma PermissionCallsNoWrite(o: Options, env: Env, roleName: string, name: string)
    ensures NoWrite(PermissionCalls(o, env, roleName, name))
  {
    PolicyCallsNoWrite(env, env.policyFiles, roleName);
  }

  lemma WebCallsNoWrite(o: Options, env: Env, w: World)
    requires w.createFunction.Success? && w.validatePackage.Success? && ApiReady(o, w)
    ensures NoWrite(WebCalls(o, env, w))
  {
  }

  lemma CallsBeforeSaveNoWrite(o: Options, env: Env, w: World)
    requires PlanDefined(o, w)
    ensures NoWrite(CallsBeforeSave(o, env, w))
  {
    PermissionCallsNoWrite(o, env, RoleOf(o, w).roleName, Name(o, w));
    WebCallsNoWrite(o, env, w);
  }

  /** A successful run saves the configuration once, as its last call. */
  lemma PlanWritesOnlyAtTheEnd(o: Options, env: Env, w: World)
    requires PlanDefined(o, w)
    ensures SuccessTrace(o, env, w) == CallsBeforeSave(o, env, w) + [SaveCall(o, env, w)]
    ensures NoWrite(CallsBeforeSave(o, env, w))
  {
    SuccessTraceEndsWithSave(o, env, w);
    CallsBeforeSaveNoWrite(o, env, w);
  }

  /** The calls each stage plans are in the trace of a successful run. */
  lemma PlannedCallInTrace(o: Options, env: Env, w: World, c: Call)
    requires PlanDefined(o, w)
    requires || c in RoleCalls(o, w)
             || c in PermissionCalls(o, env, RoleOf(o, w).roleName, Name(o, w))
             || c in AliasCalls(o, w.createFunction.value)
             || c in WebCalls(o, env, w)
    ensures c in SuccessTrace(o, env, w)
  {
    SuccessTraceEndsWithSave(o, env, w);
  }

  // ---------------------------------------------------------------------
  // What a run satisfies

  /** A run that resolves passed validation and issued the plan. */
  predicate Planned(o: Options, env: Env, w: World, calls: seq<Call>, r: Result<Summary>) {
    r.Success? ==>
      && Validation.ValidationError(o, env).None? && PlanDefined(o, w)
      && calls == SuccessTrace(o, env, w) && r.value == SummaryOf(o, env, w)
  }

  /** A run stops at its first failure, and issues nothing when validation fails. */
  predicate Settles(o: Options, env: Env, w: World, calls: seq<Call>, r: Result<Summary>) {
    && (Validation.ValidationError(o, env).Some? ==>
          calls == [] && r == Failure(Message(Validation.ValidationError(o, env).value)))
    && (Validation.ValidationError(o, env).None? ==> StopsAtFailure(o, w, calls, r))
  }

  /** What the properties of `PipelineProperties` say about one run of the
      command, stated on its calls and result. */
  predicate RunFacts(o: Options, env: Env, w: World, calls: seq<Call>, r: Result<Summary>) {
    AllIssuable(o, env, w, calls) && Ordered(calls, 0, 16) && Settles(o, env, w, calls, r) && Planned(o, env, w, calls, r)
  }

  lemma CreateFacts(o: Options, env: Env, w: World)
    ensures RunFacts(o, env, w, Create(o, env, w).calls, Create(o, env, w).result)
  {
    CreateIssuesOnlyIssuableCalls(o, env, w);
    CreateInStageOrder(o, env, w);
    ValidationGuardsEveryCall(o, env, w);
    CreateSucceedsIff(o, env, w);
    if Validation.ValidationError(o, env).None? {
      CreateStopsAtFirstFailure(o, env, w);
    }
  }

  // ---------------------------------------------------------------------
  // The config file is written last

  /** Each call comes after all earlier ones resolved; the config file is
      written by the last call only, at the configured path; a successful
      run wrote there the persisted form of the summary it resolves with. */
  predicate WritesConfigLast(o: Options, env: Env, w: World, calls: seq<Call>, r: Result<Summary>) {
    && (forall i :: 0 <= i < |calls| ==> AllSucceed(w, calls[..i]))
    && (forall i :: 0 <= i < |calls| && calls[i].WriteConfig? ==>
          i == |calls| - 1 && calls[i].path == ConfigFile(o, env))
    && (r.Success? ==> |calls| > 0 && calls[|calls| - 1] == WriteConfig(ConfigFile(o, env), Persisted(r.value)))
  }

  lemma IssuedAfterEarlierSuccesses(o: Options, env: Env, w: World, calls: seq<Call>, r: Result<Summary>)
    requires Settles(o, env, w, calls, r)
    ensures forall i :: 0 <= i < |calls| ==> AllSucceed(w, calls[..i])
  {
    var n := |calls|;
    forall i | 0 <= i < n ensures AllSucceed(w, calls[..i]) {
      if r.Failure? {
        assert calls[..i] == calls[..n - 1][..i];
      } else {
        assert calls[..i] == calls[..n][..i];
      }
    }
  }

  lemma IssuedWriteIsSave(o: Options, env: Env, w: World, c: Call)
    requires c.WriteConfig? && Issuable(o, env, w, c)
    ensures PlanDefined(o, w) && c == SaveCall(o, env, w) && c.path == ConfigFile(o, env)
  {
  }

  lemma FailedRunWritesLast(o: Options, env: Env, w: World, calls: seq<Call>, r: Result<Summary>)
    requires AllIssuable(o, env, w, calls) && Ordered(calls, 0, 16)
    requires r.Failure? && StopsAtFailure(o, w, calls, r)
    ensures forall i :: 0 <= i < |calls| - 1 ==> !calls[i].WriteConfig?
  {
    var n := |calls|;
    var last := calls[n - 1];
    assert last.WriteConfig? ==> !Succeeds(w, last);
    forall i | 0 <= i < n - 1 ensures !calls[i].WriteConfig? {
      assert Succeeds(w, calls[..n - 1][i]);
      assert Rank(calls[i]) <= Rank(last);
      if last.WriteConfig? {
        IssuedWriteIsSave(o, env, w, last);
      }
      var c := calls[i];
      assert c.WriteConfig? ==> last.WriteConfig? && last == c;
    }
  }

  lemma SucceededRunWritesLast(o: Options, env: Env, w: World, calls: seq<Call>, r: Result<Summary>)
    requires Planned(o, env, w, calls, r) && r.Success?
    ensures forall i :: 0 <= i < |calls| - 1 ==> !calls[i].WriteConfig?
    ensures |calls| > 0 && calls[|calls| - 1] == WriteConfig(ConfigFile(o, env), Persisted(r.value))
  {
    PlanWritesOnlyAtTheEnd(o, env, w);
    var before := CallsBeforeSave(o, env, w);
    assert calls == before + [SaveCall(o, env, w)];
    forall i | 0 <= i < |calls| - 1 ensures !calls[i].WriteConfig? {
      assert calls[i] == before[i];
      assert before[i] in before;
    }
    SavedConfigIsPersistedSummary(RoleOf(o, w).roleName, Region(o), MetadataOf(o, env, w));
  }

  lemma RunWritesConfigLast(o: Options, env: Env, w: World, calls: seq<Call>, r: Result<Summary>)
    requires RunFacts(o, env, w, calls, r)
    ensures WritesConfigLast(o, env, w, calls, r)
  {
    IssuedAfterEarlierSuccesses(o, env, w, calls, r);
    if r.Success? {
      SucceededRunWritesLast(o, env, w, calls, r);
    } else if |calls| > 0 {
      FailedRunWritesLast(o, env, w, calls, r);
    }
    forall i | 0 <= i < |calls| && calls[i].WriteConfig? ensures calls[i].path == ConfigFile(o, env) {
      IssuedWriteIsSave(o, env, w, calls[i]);
    }
  }

  /** The command writes its config file last, only after every other call
      resolved, and with what it resolves with minus the web API details. */
  lemma ConfigWrittenLast(o: Options, env: Env, w: World)
    ensures WritesConfigLast(o, env, w, Create(o, env, w).calls, Create(o, env, w).result)
  {
    CreateFacts(o, env, w);
    RunWritesConfigLast(o, env, w, Create(o, env, w).calls, Create(o, env, w).result);
  }

  // ---------------------------------------------------------------------
  // Policies

  /** Extra policies are attached only when `policies` is given, and in a
      successful run exactly then: one per matched file, named after the
      file, on the command's role. */
  predicate PoliciesFollowOption(o: Options, env: Env, calls: seq<Call>, r: Result<Summary>) {
    && ((exists i :: 0 <= i < |calls| && calls[i].AddPolicy? && calls[i].file.Some?) ==> Given(o.policies))
    && (r.Success? ==>
          (Given(o.policies) <==> exists i :: 0 <= i < |calls| && calls[i].AddPolicy? && calls[i].file.Some?))
    && (r.Success? && Given(o.policies) ==>
          forall f :: f in env.policyFiles ==> AddPolicy(PolicyName(env.basename(f)), r.value.lambda.role, Some(f)) in calls)
  }

  lemma PolicyFilesInPlan(o: Options, env: Env, w: World)
    requires PlanDefined(o, w) && Given(o.policies)
    ensures forall f :: f in env.policyFiles ==>
              AddPolicy(PolicyName(env.basename(f)), RoleOf(o, w).roleName, Some(f)) in SuccessTrace(o, env, w)
  {
    var role := RoleOf(o, w).roleName;
    var extra := PolicyCalls(env, env.policyFiles, role);
    var perm := PermissionCalls(o, env, role, Name(o, w));
    forall f | f in env.policyFiles
      ensures AddPolicy(PolicyName(env.basename(f)), role, Some(f)) in SuccessTrace(o, env, w)
    {
      var k :| 0 <= k < |env.policyFiles| && env.policyFiles[k] == f;
      assert extra[k] == AddPolicy(PolicyName(env.basename(f)), role, Some(f));
      assert extra[k] in perm;
      PlannedCallInTrace(o, env, w, extra[k]);
    }
  }

  lemma RunPoliciesFollowOption(o: Options, env: Env, w: World, calls: seq<Call>, r: Result<Summary>)
    requires AllIssuable(o, env, w, calls) && Planned(o, env, w, calls, r)
    ensures PoliciesFollowOption(o, env, calls, r)
  {
    if r.Success? && Given(o.policies) {
      PolicyFilesInPlan(o, env, w);
      var f0 := env.policyFiles[0];
      var c0 := AddPolicy(PolicyName(env.basename(f0)), r.value.lambda.role, Some(f0));
      assert c0 in calls;
      var j :| 0 <= j < |calls| && calls[j] == c0;
      assert calls[j].AddPolicy? && calls[j].file.Some?;
    }
  }

  lemma ExtraPoliciesOnlyWithPolicies(o: Options, env: Env, w: World)
    ensures PoliciesFollowOption(o, env, Create(o, env, w).calls, Create(o, env, w).result)
  {
    CreateFacts(o, env, w);
    RunPoliciesFollowOption(o, env, w, Create(o, env, w).calls, Create(o, env, w).result);
  }

  /** The self-invocation policy is put only when `allow-recursion` is set,
      and in a successful run exactly then; it is named
      "recursive-execution" and allows invoking the function under the
      project's name. */
  predicate RecursionFollowsOption(o: Options, w: World, calls: seq<Call>, r: Result<Summary>) {
    && (forall i :: 0 <= i < |calls| && calls[i].PutRolePolicy? ==>
          && o.allowRecursion && NameResolved(o, w) && calls[i].policyName == RecursionPolicyName
          && calls[i].document == RecursionPolicy(Region(o), Name(o, w)))
    && (r.Success? ==> (o.allowRecursion <==> exists i :: 0 <= i < |calls| && calls[i].PutRolePolicy?))
  }

  lemma RecursionInPlan(o: Options, env: Env, w: World)
    requires PlanDefined(o, w) && o.allowRecursion
    ensures PutRolePolicy(RoleOf(o, w).roleName, RecursionPolicyName, RecursionPolicy(Region(o), Name(o, w)))
              in SuccessTrace(o, env, w)
  {
    var role := RoleOf(o, w).roleName;
    var rec := PutRolePolicy(role, RecursionPolicyName, RecursionPolicy(Region(o), Name(o, w)));
    var perm := PermissionCalls(o, env, role, Name(o, w));
    assert perm[|perm| - 1] == rec;
    PlannedCallInTrace(o, env, w, rec);
  }

  lemma RunRecursionFollowsOption(o: Options, env: Env, w: World, calls: seq<Call>, r: Result<Summary>)
    requires AllIssuable(o, env, w, calls) && Planned(o, env, w, calls, r)
    ensures RecursionFollowsOption(o, w, calls, r)
  {
    if r.Success? && o.allowRecursion {
      RecursionInPlan(o, env, w);
      var rec := PutRolePolicy(RoleOf(o, w).roleName, RecursionPolicyName, RecursionPolicy(Region(o), Name(o, w)));
      var j :| 0 <= j < |calls| && calls[j] == rec;
      assert calls[j].PutRolePolicy?;
    }
  }

  lemma RecursionPolicyOnlyWithAllowRecursion(o: Options, env: Env, w: World)
    ensures RecursionFollowsOption(o, w, Create(o, env, w).calls, Create(o, env, w).result)
  {
    CreateFacts(o, env, w);
    RunRecursionFollowsOption(o, env, w, Create(o, env, w).calls, Create(o, env, w).result);
  }

  /** The log-writer policy is attached to the role in every successful run,
      also to a role that was reused; a reused role is never created. */
  predicate LogWriterOnRole(o: Options, w: World, calls: seq<Call>, r: Result<Summary>) {
    && (Given(o.role) ==> forall i :: 0 <= i < |calls| ==> !calls[i].CreateRole? && !calls[i].ReadRoleTemplate?)
    && (r.Success? ==> AddPolicy(LogWriterPolicy, r.value.lambda.role, None) in calls)
    && (r.Success? && Given(o.role) ==>
          && w.getRole.Success? && r.value.lambda.role == w.getRole.value.roleName
          && GetRole(o.role.value) in calls)
  }

  lemma LogWriterInPlan(o: Options, env: Env, w: World)
    requires PlanDefined(o, w)
    ensures AddPolicy(LogWriterPolicy, RoleOf(o, w).roleName, None) in SuccessTrace(o, env, w)
    ensures Given(o.role) ==> GetRole(o.role.value) in SuccessTrace(o, env, w)
  {
    var perm := PermissionCalls(o, env, RoleOf(o, w).roleName, Name(o, w));
    PlannedCallInTrace(o, env, w, perm[0]);
    PlannedCallInTrace(o, env, w, RoleCalls(o, w)[0]);
  }

  lemma RunLogWriterOnRole(o: Options, env: Env, w: World, calls: seq<Call>, r: Result<Summary>)
    requires AllIssuable(o, env, w, calls) && Planned(o, env, w, calls, r)
    ensures LogWriterOnRole(o, w, calls, r)
  {
    if r.Success? {
      LogWriterInPlan(o, env, w);
    }
  }

  lemma LogWriterAttachedToEveryRole(o: Options, env: Env, w: World)
    ensures LogWriterOnRole(o, w, Create(o, env, w).calls, Create(o, env, w).result)
  {
    CreateFacts(o, env, w);
    RunLogWriterOnRole(o, env, w, Create(o, env, w).calls, Create(o, env, w).result);
  }

  // ---------------------------------------------------------------------
  // The function and its aliases

  /** The shape of a function-creation call that validation let through:
      the retry delay and count, retrying only the role-propagation error,
      published, the handler and runtime the options
      select, and the size limits as given. */
  ghost predicate ConfiguredFunction(o: Options, c: Call)
    requires c.CreateFunction?
  {
    && c.retry == CreateRetry
    && c.retry.delayMs == 3000 && c.retry.retries == 10
    && (forall e :: IsRetriable(c.retry, e) <==> CauseMessage(e) == Some(RoleNotAssumableMessage))
    && c.request.publish
    && (Given(o.handler) ==> c.request.handler == o.handler.value)
    && (!Given(o.handler) ==> Given(o.apiModule) && c.request.handler == o.apiModule.value + RouterSuffix)
    && '/' !in c.request.handler
    && c.request.runtime == Runtime(o)
    && c.request.memorySize == o.memory && c.request.timeout == o.timeout
  }

  lemma IssuedFunctionIsConfigured(o: Options, env: Env, w: World, c: Call)
    requires Validation.ValidationError(o, env).None? && c.CreateFunction? && Issuable(o, env, w, c)
    ensures ConfiguredFunction(o, c)
  {
    ValidatedHandler(o, env);
  }

  lemma FunctionCreatedAsConfigured(o: Options, env: Env, w: World)
    ensures var s := Create(o, env, w);
      forall i :: 0 <= i < |s.calls| && s.calls[i].CreateFunction? ==> ConfiguredFunction(o, s.calls[i])
  {
    var s := Create(o, env, w);
    CreateIssuesOnlyIssuableCalls(o, env, w);
    forall i | 0 <= i < |s.calls| && s.calls[i].CreateFunction?
      ensures ConfiguredFunction(o, s.calls[i])
    {
      ValidationGuardsEveryCall(o, env, w);
      IssuedFunctionIsConfigured(o, env, w, s.calls[i]);
    }
  }

  /** "latest" always names $LATEST; a second alias, at the published
      version, is marked exactly when `version` is given. */
  predicate AliasesFollowOption(o: Options, w: World, calls: seq<Call>, r: Result<Summary>) {
    && (forall i :: 0 <= i < |calls| && calls[i].MarkAlias? ==>
          && w.createFunction.Success? && calls[i].functionName == w.createFunction.value.functionName
          && (|| (calls[i].version == "$LATEST" && calls[i].alias == "latest")
              || (Given(o.version) && calls[i].version == w.createFunction.value.version
                  && calls[i].alias == o.version.value)))
    && (r.Success? ==>
          && w.createFunction.Success?
          && MarkAlias(r.value.lambda.name, "$LATEST", "latest") in calls
          && (Given(o.version) ==>
                MarkAlias(r.value.lambda.name, w.createFunction.value.version, o.version.value) in calls))
  }

  lemma AliasesInPlan(o: Options, env: Env, w: World)
    requires PlanDefined(o, w)
    ensures var name := w.createFunction.value.functionName;
      && MarkAlias(name, "$LATEST", "latest") in SuccessTrace(o, env, w)
      && (Given(o.version) ==> MarkAlias(name, w.createFunction.value.version, o.version.value) in SuccessTrace(o, env, w))
  {
    var aliases := AliasCalls(o, w.createFunction.value);
    PlannedCallInTrace(o, env, w, aliases[0]);
    if Given(o.version) {
      PlannedCallInTrace(o, env, w, aliases[1]);
    }
  }

  lemma RunAliasesFollowOption(o: Options, env: Env, w: World, calls: seq<Call>, r: Result<Summary>)
    requires AllIssuable(o, env, w, calls) && Planned(o, env, w, calls, r)
    ensures AliasesFollowOption(o, w, calls, r)
  {
    if r.Success? {
      AliasesInPlan(o, env, w);
    }
  }

  lemma AliasesFollowVersion(o: Options, env: Env, w: World)
    ensures AliasesFollowOption(o, w, Create(o, env, w).calls, Create(o, env, w).result)
  {
    CreateFacts(o, env, w);
    RunAliasesFollowOption(o, env, w, Create(o, env, w).calls, Create(o, env, w).result);
  }

  // ---------------------------------------------------------------------
  // The web API

  /** The web API calls are issued only with `api-module`, and the REST API
      only for a module that has `apiConfig`; a successful run with
      `api-module` rebuilt the API on the stage alias and returns the whole
      API object, and one without returns none. */
  predicate WebApiFollowsOption(o: Options, env: Env, w: World, calls: seq<Call>, r: Result<Summary>) {
    && (forall i :: 0 <= i < |calls| && calls[i].LoadApiModule? ==> Given(o.apiModule))
    && (forall i :: 0 <= i < |calls| && (calls[i].CreateRestApi? || calls[i].RebuildWebApi? || calls[i].PostDeploy?) ==>
          Given(o.apiModule) && w.apiModule.Loaded? && w.apiModule.apiConfig.Some?)
    && (r.Success? ==> (Given(o.apiModule) <==> r.value.api.Some?))
    && (r.Success? && Given(o.apiModule) ==>
          && w.createRestApi.Success? && w.apiModule.Loaded? && w.apiModule.apiConfig.Some?
          && RebuildWebApi(r.value.lambda.name, StageAlias(o), w.createRestApi.value,
                           w.apiModule.apiConfig.value, Region(o)) in calls
          && r.value.api.Some?
          && r.value.api.value.id == w.createRestApi.value
          && r.value.api.value.apiModule == o.apiModule.value
          && r.value.api.value.url == env.apiUrl(w.createRestApi.value, Region(o), StageAlias(o)))
  }

  lemma WebApiInPlan(o: Options, env: Env, w: World)
    requires PlanDefined(o, w) && Given(o.apiModule)
    ensures RebuildWebApi(w.createFunction.value.functionName, StageAlias(o), w.createRestApi.value,
                          w.apiModule.apiConfig.value, Region(o)) in SuccessTrace(o, env, w)
  {
    PlannedCallInTrace(o, env, w, WebCalls(o, env, w)[2]);
  }

  lemma RunWebApiFollowsOption(o: Options, env: Env, w: World, calls: seq<Call>, r: Result<Summary>)
    requires AllIssuable(o, env, w, calls) && Planned(o, env, w, calls, r)
    ensures WebApiFollowsOption(o, env, w, calls, r)
  {
    if r.Success? && Given(o.apiModule) {
      WebApiInPlan(o, env, w);
    }
  }

  lemma WebApiOnlyWithApiModule(o: Options, env: Env, w: World)
    ensures WebApiFollowsOption(o, env, w, Create(o, env, w).calls, Create(o, env, w).result)
  {
    CreateFacts(o, env, w);
    RunWebApiFollowsOption(o, env, w, Create(o, env, w).calls, Create(o, env, w).result);
  }

  /** A module without `apiConfig` rejects the command with a message naming
      the module, and no API Gateway call, post-deploy hook or config write
      happens. */
  predicate RejectsForMissingApiConfig(o: Options, calls: seq<Call>, r: Result<Summary>)
    requires Given(o.apiModule)
  {
    && r.Failure?
    && (forall i :: 0 <= i < |calls| ==>
          !(calls[i].CreateRestApi? || calls[i].RebuildWebApi? || calls[i].PostDeploy? || calls[i].WriteConfig?))
    && ((exists i :: 0 <= i < |calls| && calls[i].LoadApiModule?) ==>
          r == Failure(Message(NoApiConfigMessage(o.apiModule.value))))
  }

  lemma NoGatewayWithoutApiConfig(o: Options, env: Env, w: World, calls: seq<Call>)
    requires AllIssuable(o, env, w, calls)
    requires Given(o.apiModule) && w.apiModule.Loaded? && w.apiModule.apiConfig.None?
    ensures forall i :: 0 <= i < |calls| ==>
              !(calls[i].CreateRestApi? || calls[i].RebuildWebApi? || calls[i].PostDeploy? || calls[i].WriteConfig?)
  {
  }

  lemma StopsAtApiModule(o: Options, env: Env, w: World, calls: seq<Call>, r: Result<Summary>)
    requires Ordered(calls, 0, 16) && r.Failure? && StopsAtFailure(o, w, calls, r)
    requires Given(o.apiModule) && w.apiModule.Loaded? && w.apiModule.apiConfig.None?
    requires forall i :: 0 <= i < |calls| ==>
               !(calls[i].CreateRestApi? || calls[i].RebuildWebApi? || calls[i].PostDeploy? || calls[i].WriteConfig?)
    ensures (exists i :: 0 <= i < |calls| && calls[i].LoadApiModule?) ==>
              r == Failure(Message(NoApiConfigMessage(o.apiModule.value)))
  {
    if k :| 0 <= k < |calls| && calls[k].LoadApiModule? {
      var n := |calls|;
      assert Rank(calls[n - 1]) >= Rank(calls[k]) == 12;
      assert calls[n - 1].LoadApiModule?;
    }
  }

  lemma RunRejectsForMissingApiConfig(o: Options, env: Env, w: World, calls: seq<Call>, r: Result<Summary>)
    requires RunFacts(o, env, w, calls, r)
    requires Given(o.apiModule) && w.apiModule.Loaded? && w.apiModule.apiConfig.None?
    ensures RejectsForMissingApiConfig(o, calls, r)
  {
    NoGatewayWithoutApiConfig(o, env, w, calls);
    if Validation.ValidationError(o, env).None? {
      StopsAtApiModule(o, env, w, calls, r);
    }
  }

  lemma MissingApiConfigRejects(o: Options, env: Env, w: World)
    requires Given(o.apiModule) && w.apiModule.Loaded? && w.apiModule.apiConfig.None?
    ensures RejectsForMissingApiConfig(o, Create(o, env, w).calls, Create(o, env, w).result)
  {
    CreateFacts(o, env, w);
    RunRejectsForMissingApiConfig(o, env, w, Create(o, env, w).calls, Create(o, env, w).result);
  }

  /** The post-deploy result is kept as `api.deploy` only when the module
      has a `postDeploy` hook and its result is truthy. */
  lemma DeployAttachedOnlyWhenTruthy(o: Options, env: Env, w: World)
    ensures var s := Create(o, env, w);
      s.result.Success? && s.result.value.api.Some? ==>
        && (s.result.value.api.value.deploy.Some? <==>
              w.apiModule.hasPostDeploy && w.postDeploy.Success? && w.postDeploy.value.Some?)
        && (s.result.value.api.value.deploy.Some? ==> s.result.value.api.value.deploy == w.postDeploy.value)
  {
    var s := Create(o, env, w);
    if s.result.Success? {
      SuccessMeansValidated(o, env, w);
    }
  }
}

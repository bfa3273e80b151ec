/** The small pure derivations inside the `create` command: the project name
    and description, policy names, the self-invocation policy, the Lambda
    creation request and its retry predicate, and the web API stage alias. */
module Derivations {
  import opened Types
  import opened JsText
  import Validation

  // ---------------------------------------------------------------------
  // Project name and description

  /** The two fields of package.json the command reads. */
  datatype PackageJson = PackageJson(name: Option<string>, description: Option<string>)

  datatype PackageInfo = PackageInfo(name: string, description: Option<string>)

  const NameMissingMessage := "project name is missing. please specify with --name or in package.json"

  /** The `name` option as given, else the trimmed package name; no name at
      all rejects. */
  function ResolveName(optName: Option<string>, pkgName: Option<string>): (r: Result<string>)
    ensures r.Failure? ==> r.error == Message(NameMissingMessage)
    ensures r.Success? ==> r.value != ""
    ensures Given(optName) ==> r == Success(optName.value)
    ensures !Given(optName) ==> (r.Success? <==> pkgName.Some? && Trim(pkgName.value) != "")
    ensures !Given(optName) && r.Success? ==> pkgName.Some? && r.value == Trim(pkgName.value)
  {
    if Given(optName) then Success(optName.value)
    else if pkgName.Some? && Trim(pkgName.value) != "" then Success(Trim(pkgName.value))
    else Failure(Message(NameMissingMessage))
  }

  /** A name taken from package.json carries no surrounding whitespace. */
  lemma PackageNameIsTrimmed(optName: Option<string>, pkgName: Option<string>)
    requires !Given(optName) && ResolveName(optName, pkgName).Success?
    ensures var n := ResolveName(optName, pkgName).value;
      n == Trim(pkgName.value) && !IsTrimmable(n[0]) && !IsTrimmable(n[|n| - 1])
  {
    TrimIsMiddle(pkgName.value);
  }

  /** The `description` option as given, else the trimmed package
      description, which may be absent; it never rejects. */
  function ResolveDescription(optDesc: Option<string>, pkgDesc: Option<string>): (r: Option<string>)
    ensures Given(optDesc) ==> r == optDesc
    ensures !Given(optDesc) ==> (r.Some? <==> pkgDesc.Some?)
    ensures !Given(optDesc) && pkgDesc.Some? ==> r == Some(Trim(pkgDesc.value))
    ensures !Given(optDesc) && r.Some? ==> r.value == Trim(r.value)
  {
    if Given(optDesc) then optDesc
    else if pkgDesc.Some? then
      TrimIdempotent(pkgDesc.value);
      Some(Trim(pkgDesc.value))
    else None
  }

  /** `getPackageInfo` after package.json was read. */
  function ResolvePackageInfo(o: Options, pkg: PackageJson): (r: Result<PackageInfo>)
    ensures r.Success? <==> ResolveName(o.name, pkg.name).Success?
    ensures r.Success? ==> r.value.name == ResolveName(o.name, pkg.name).value
    ensures r.Success? ==> r.value.description == ResolveDescription(o.description, pkg.description)
    ensures r.Failure? ==> r.error == Message(NameMissingMessage)
  {
    match ResolveName(o.name, pkg.name)
    case Failure(e) => Failure(e)
    case Success(name) => Success(PackageInfo(name, ResolveDescription(o.description, pkg.description)))
  }

  // ---------------------------------------------------------------------
  // Policy names

  /** The characters the policy-name pattern keeps: the code points from 'A'
      to 'z' (letters and also [ \ ] ^ _ and the backtick) and the digits. */
  predicate KeptInPolicyName(c: char) {
    ('A' <= c <= 'z') || ('0' <= c <= '9')
  }

  function PolicyNameChar(c: char): char {
    if KeptInPolicyName(c) then c else '-'
  }

  /** The name of an extra policy: its file name with every character outside
      the kept range replaced by '-'. */
  function PolicyName(baseName: string): string {
    if baseName == [] then [] else [PolicyNameChar(baseName[0])] + PolicyName(baseName[1..])
  }

  /** The policy name maps the file name character by character. */
  lemma {:induction false} PolicyNameMapsEachChar(baseName: string)
    ensures |PolicyName(baseName)| == |baseName|
    ensures forall i :: 0 <= i < |baseName| ==> PolicyName(baseName)[i] == PolicyNameChar(baseName[i])
    decreases |baseName|
  {
    if baseName != [] {
      PolicyNameMapsEachChar(baseName[1..]);
      forall i | 1 <= i < |baseName|
        ensures PolicyName(baseName)[i] == PolicyNameChar(baseName[i])
      {
        assert PolicyName(baseName)[i] == PolicyName(baseName[1..])[i - 1];
      }
    }
  }

  /** Every character of a policy name is kept or '-'. */
  lemma PolicyNameIsSafe(baseName: string)
    ensures forall i :: 0 <= i < |PolicyName(baseName)| ==>
      KeptInPolicyName(PolicyName(baseName)[i]) || PolicyName(baseName)[i] == '-'
  {
    PolicyNameMapsEachChar(baseName);
  }

  /** Sanitising a policy name again changes nothing. */
  lemma PolicyNameIdempotent(baseName: string)
    ensures PolicyName(PolicyName(baseName)) == PolicyName(baseName)
  {
    var p := PolicyName(baseName);
    PolicyNameMapsEachChar(baseName);
    PolicyNameMapsEachChar(p);
    assert forall i :: 0 <= i < |p| ==> PolicyName(p)[i] == p[i];
  }

  /** A file name is its own policy name exactly when it holds only kept
      characters and '-'. */
  lemma PolicyNameFixedIff(baseName: string)
    ensures PolicyName(baseName) == baseName <==>
      forall i :: 0 <= i < |baseName| ==> KeptInPolicyName(baseName[i]) || baseName[i] == '-'
  {
    PolicyNameMapsEachChar(baseName);
    if forall i :: 0 <= i < |baseName| ==> KeptInPolicyName(baseName[i]) || baseName[i] == '-' {
      assert forall i :: 0 <= i < |baseName| ==> PolicyName(baseName)[i] == baseName[i];
    }
  }

  // ---------------------------------------------------------------------
  // Self-invocation policy

  const ArnPrefix := "arn:aws:lambda:"
  const ArnFunctionInfix := ":*:function:"

  datatype Statement = Statement(sid: string, effect: string, actions: seq<string>, resource: string)

  datatype PolicyDocument = PolicyDocument(version: string, statements: seq<Statement>)

  /** The ARN the recursion policy grants: every account's function of that
      name in the region. */
  function RecursionResource(region: string, functionName: string): string {
    ArnPrefix + region + ArnFunctionInfix + functionName
  }

  /** `recursivePolicy`: the one statement that lets the function invoke itself. */
  function RecursionPolicy(region: string, functionName: string): PolicyDocument {
    PolicyDocument("2012-10-17", [Statement("InvokePermission", "Allow", ["lambda:InvokeFunction"],
                                            RecursionResource(region, functionName))])
  }

  /** The recursion policy allows one action, invoking a function, on one
      resource, from which the region and the function's own name read back. */
  lemma RecursionPolicyAllowsOnlySelf(region: string, functionName: string)
    ensures var r := RecursionPolicy(region, functionName);
      && r.version == "2012-10-17" && |r.statements| == 1
      && r.statements[0].effect == "Allow" && r.statements[0].actions == ["lambda:InvokeFunction"]
      && (':' !in region ==> ParseFunctionArn(r.statements[0].resource) == Some(FunctionArn(region, functionName)))
  {
    if ':' !in region {
      RecursionResourceRoundTrip(region, functionName);
    }
  }

  datatype FunctionArn = FunctionArn(region: string, functionName: string)

  /** The position of the first `c` in `s`, or |s|. */
  function IndexOf(s: string, c: char): (r: nat)
    ensures r <= |s|
    ensures r < |s| ==> s[r] == c
    ensures forall k :: 0 <= k < r ==> s[k] != c
  {
    if s == [] then 0 else if s[0] == c then 0 else 1 + IndexOf(s[1..], c)
  }

  /** Reads back the region and function name of a resource written as
      "arn:aws:lambda:<region>:*:function:<name>". */
  function ParseFunctionArn(arn: string): Option<FunctionArn> {
    if !(ArnPrefix <= arn) then None
    else
      var rest := arn[|ArnPrefix|..];
      var k := IndexOf(rest, ':');
      var tail := rest[k..];
      if ArnFunctionInfix <= tail then Some(FunctionArn(rest[..k], tail[|ArnFunctionInfix|..]))
      else None
  }

  /** The region and function name can be read back from the resource
      string (regions contain no ':'). */
  lemma RecursionResourceRoundTrip(region: string, functionName: string)
    requires ':' !in region
    ensures ParseFunctionArn(RecursionResource(region, functionName)) == Some(FunctionArn(region, functionName))
  {
    var arn := RecursionResource(region, functionName);
    var rest := region + ArnFunctionInfix + functionName;
    assert arn == ArnPrefix + rest;
    assert arn[|ArnPrefix|..] == rest;
    var k := IndexOf(rest, ':');
    assert rest[|region|] == ':';
    assert k == |region|;
    assert rest[..k] == region;
    assert rest[k..] == ArnFunctionInfix + functionName;
  }

  // ---------------------------------------------------------------------
  // Lambda creation request

  const DefaultRuntime := "nodejs4.3"
  const RouterSuffix := ".router"

  /** The `Handler` parameter: the `handler` option, else the API module's
      `router` export. */
  function LambdaHandler(o: Options): string {
    if Given(o.handler) then o.handler.value else JsString(o.apiModule) + RouterSuffix
  }

  /** After validation the handler names a module of the project root: the
      `handler` option when given (even next to an API module), otherwise the
      API module's router. */
  lemma ValidatedHandler(o: Options, env: Env)
    requires Validation.ValidationError(o, env).None?
    ensures Given(o.handler) ==> LambdaHandler(o) == o.handler.value
    ensures !Given(o.handler) ==> Given(o.apiModule) && LambdaHandler(o) == o.apiModule.value + RouterSuffix
    ensures '/' !in LambdaHandler(o)
  {
    Validation.ValidationPassesIff(o, env);
    if !Given(o.handler) {
      var h := o.apiModule.value + RouterSuffix;
      assert forall i :: 0 <= i < |h| ==> h[i] == (if i < |o.apiModule.value| then o.apiModule.value[i] else RouterSuffix[i - |o.apiModule.value|]);
    }
  }

  /** The `Runtime` parameter: the `runtime` option, else nodejs4.3. */
  function Runtime(o: Options): (r: string)
    ensures r != ""
    ensures Given(o.runtime) ==> r == o.runtime.value
    ensures !Given(o.runtime) ==> r == DefaultRuntime
  {
    if Given(o.runtime) then o.runtime.value else DefaultRuntime
  }

  datatype FunctionRequest = FunctionRequest(
    zipFile: seq<bv8>,
    functionName: string,
    description: Option<string>,
    memorySize: Option<int>,
    timeout: Option<int>,
    handler: string,
    role: string,
    runtime: string,
    publish: bool)

  /** The `createFunction` request of `createLambda`. */
  function FunctionRequestFor(o: Options, name: string, desc: Option<string>, zip: seq<bv8>, roleArn: string): FunctionRequest {
    FunctionRequest(zip, name, desc, o.memory, o.timeout, LambdaHandler(o), roleArn, Runtime(o), true)
  }

  const RoleNotAssumableMessage := "The role defined for the function cannot be assumed by Lambda."

  /** What `createLambda` hands the retry helper besides the call: the delay
      in milliseconds, the helper's count argument, and the cause message of
      the only errors its predicate retries. */
  datatype RetryPolicy = RetryPolicy(delayMs: nat, retries: nat, retriedCause: string)

  const CreateRetry := RetryPolicy(3000, 10, RoleNotAssumableMessage)

  datatype ErrorCause = ErrorCause(message: Option<string>)

  /** A `createFunction` error, of which only `cause.message` is inspected. */
  datatype LambdaError = LambdaError(cause: Option<ErrorCause>)

  /** The message of the error's cause, when the error and its cause exist. */
  function CauseMessage(error: Option<LambdaError>): Option<string> {
    if error.Some? && error.value.cause.Some? then error.value.cause.value.message else None
  }

  /** The retry predicate of a policy: an error is retried when it has a
      cause whose message is the policy's. */
  function IsRetriable(policy: RetryPolicy, error: Option<LambdaError>): (r: bool)
    ensures r <==> CauseMessage(error) == Some(policy.retriedCause)
  {
    error.Some? && error.value.cause.Some? && error.value.cause.value.message == Some(policy.retriedCause)
  }

  /** Function creation waits 3000 ms between tries and retries only the
      error Lambda reports while a new role has not yet propagated. */
  lemma CreateRetryRetriesOnlyRolePropagation(error: Option<LambdaError>)
    ensures CreateRetry.delayMs == 3000 && CreateRetry.retries == 10
    ensures IsRetriable(CreateRetry, error) <==>
      error.Some? && error.value.cause.Some? && error.value.cause.value.message == Some(RoleNotAssumableMessage)
  {
  }

  // ---------------------------------------------------------------------
  // Web API stage

  /** The alias the web API stage is bound to: `version`, else "latest". */
  function StageAlias(o: Options): (r: string)
    ensures r != ""
    ensures Given(o.version) ==> r == o.version.value
    ensures !Given(o.version) ==> r == "latest"
  {
    if Given(o.version) then o.version.value else "latest"
  }
}

/** The precondition validator of the `create` command: an ordered chain of
    checks over the options and the local facts, first failure wins. */
module Validation {
  import opened Types

  const TempDirMessage := "Source directory is the Node temp directory. Cowardly refusing to fill up disk with recursive copy."
  const RegionMissingMessage := "AWS region is missing. please specify with --region"
  const HandlerMissingMessage := "Lambda handler is missing. please specify with --handler"
  const HandlerNotInRootMessage := "Lambda handler module has to be in the main project directory"
  const ApiModuleNotInRootMessage := "API module has to be in the main project directory"
  const AlreadyExistsSuffix := " already exists"
  const DefaultConfigExistsMessage := "claudia.json already exists in the source folder"
  const PackageJsonMissingMessage := "package.json does not exist in the source folder"
  const MemoryLowMessage := "the memory value provided must be greater than or equal to 128"
  const MemoryHighMessage := "the memory value provided must be less than or equal to 1536"
  const MemoryStepMessage := "the memory value provided must be a multiple of 64"
  const TimeoutLowMessage := "the timeout value provided must be greater than or equal to 1"
  const TimeoutHighMessage := "the timeout value provided must be less than or equal to 300"

  function NoPolicyFilesMessage(policies: string): string {
    "no files match additional policies (" + policies + ")"
  }

  /** The message for an existing config file: it names the `config` option
      when one was given. */
  function ConfigExistsMessage(config: Option<string>): string {
    if Given(config) then config.value + AlreadyExistsSuffix else DefaultConfigExistsMessage
  }

  /** The memory rule, applied when a memory value is given. JavaScript's `%`
      truncates, but every value reaching the last test is at least 128, where
      it agrees with Dafny's. */
  function MemoryError(m: int): (r: Option<string>)
    ensures r.None? <==> 128 <= m <= 1536 && m % 64 == 0
    ensures m < 128 ==> r == Some(MemoryLowMessage)
    ensures m > 1536 ==> r == Some(MemoryHighMessage)
    ensures 128 <= m <= 1536 && m % 64 != 0 ==> r == Some(MemoryStepMessage)
  {
    if m < 128 then Some(MemoryLowMessage)
    else if m > 1536 then Some(MemoryHighMessage)
    else if m % 64 != 0 then Some(MemoryStepMessage)
    else None
  }

  /** The timeout rule, applied when a timeout value is given. */
  function TimeoutError(t: int): (r: Option<string>)
    ensures r.None? <==> 1 <= t <= 300
    ensures t < 1 ==> r == Some(TimeoutLowMessage)
    ensures t > 300 ==> r == Some(TimeoutHighMessage)
  {
    if t < 1 then Some(TimeoutLowMessage)
    else if t > 300 then Some(TimeoutHighMessage)
    else None
  }

  /** `validationError`: the message of the first rule that fails, or None. */
  function ValidationError(o: Options, env: Env): Option<string> {
    if Source(o, env) == env.tmpDir then Some(TempDirMessage)
    else if !Given(o.region) then Some(RegionMissingMessage)
    else if !Given(o.handler) && !Given(o.apiModule) then Some(HandlerMissingMessage)
    else if Given(o.handler) && '/' in o.handler.value then Some(HandlerNotInRootMessage)
    else if Given(o.apiModule) && '/' in o.apiModule.value then Some(ApiModuleNotInRootMessage)
    else if env.configExists then Some(ConfigExistsMessage(o.config))
    else if !env.packageJsonExists then Some(PackageJsonMissingMessage)
    else if Given(o.policies) && |env.policyFiles| == 0 then Some(NoPolicyFilesMessage(o.policies.value))
    else if o.memory.Some? && MemoryError(o.memory.value).Some? then MemoryError(o.memory.value)
    else if o.timeout.Some? && TimeoutError(o.timeout.value).Some? then TimeoutError(o.timeout.value)
    else None
  }

  /** Validation passes exactly when every rule holds. Having both a handler
      and an API module is accepted: at least one of them is required. */
  predicate Acceptable(o: Options, env: Env) {
    && Source(o, env) != env.tmpDir
    && Given(o.region)
    && (Given(o.handler) || Given(o.apiModule))
    && (Given(o.handler) ==> '/' !in o.handler.value)
    && (Given(o.apiModule) ==> '/' !in o.apiModule.value)
    && !env.configExists
    && env.packageJsonExists
    && (Given(o.policies) ==> |env.policyFiles| > 0)
    && (o.memory.Some? ==> 128 <= o.memory.value <= 1536 && o.memory.value % 64 == 0)
    && (o.timeout.Some? ==> 1 <= o.timeout.value <= 300)
  }

  lemma ValidationPassesIff(o: Options, env: Env)
    ensures ValidationError(o, env).None? <==> Acceptable(o, env)
  {
  }

  // ---------------------------------------------------------------------
  // An independent reference: the rules as an ordered list of checks.

  datatype Check = Check(fails: bool, message: string)

  function MemoryOf(o: Options): int {
    if o.memory.Some? then o.memory.value else 128
  }

  function TimeoutOf(o: Options): int {
    if o.timeout.Some? then o.timeout.value else 3
  }

  /** Every rule in the order the command applies it, each with its message. */
  function Checks(o: Options, env: Env): seq<Check> {
    [ Check(Source(o, env) == env.tmpDir, TempDirMessage),
      Check(!Given(o.region), RegionMissingMessage),
      Check(!Given(o.handler) && !Given(o.apiModule), HandlerMissingMessage),
      Check(Given(o.handler) && '/' in o.handler.value, HandlerNotInRootMessage),
      Check(Given(o.apiModule) && '/' in o.apiModule.value, ApiModuleNotInRootMessage),
      Check(env.configExists && Given(o.config), JsString(o.config) + AlreadyExistsSuffix),
      Check(env.configExists && !Given(o.config), DefaultConfigExistsMessage),
      Check(!env.packageJsonExists, PackageJsonMissingMessage),
      Check(Given(o.policies) && |env.policyFiles| == 0, NoPolicyFilesMessage(JsString(o.policies))),
      Check(o.memory.Some? && MemoryOf(o) < 128, MemoryLowMessage),
      Check(o.memory.Some? && MemoryOf(o) > 1536, MemoryHighMessage),
      Check(o.memory.Some? && MemoryOf(o) % 64 != 0, MemoryStepMessage),
      Check(o.timeout.Some? && TimeoutOf(o) < 1, TimeoutLowMessage),
      Check(o.timeout.Some? && TimeoutOf(o) > 300, TimeoutHighMessage) ]
  }

  /** The message of the first failing check at or after index i. */
  function FirstFailureFrom(cs: seq<Check>, i: nat): Option<string>
    requires i <= |cs|
    decreases |cs| - i
  {
    if i == |cs| then None
    else if cs[i].fails then Some(cs[i].message)
    else FirstFailureFrom(cs, i + 1)
  }

  function FirstFailure(cs: seq<Check>): Option<string> {
    FirstFailureFrom(cs, 0)
  }

  /** The first failure is the message of the least failing check. */
  lemma {:induction false} FirstFailureFromIsLeast(cs: seq<Check>, i: nat, k: nat)
    requires i <= k < |cs|
    requires cs[k].fails
    requires forall j :: i <= j < k ==> !cs[j].fails
    ensures FirstFailureFrom(cs, i) == Some(cs[k].message)
    decreases k - i
  {
    if i < k {
      FirstFailureFromIsLeast(cs, i + 1, k);
    }
  }

  /** No failure is reported exactly when no check at or after i fails. */
  lemma {:induction false} FirstFailureFromNone(cs: seq<Check>, i: nat)
    requires i <= |cs|
    ensures FirstFailureFrom(cs, i).None? <==> forall j :: i <= j < |cs| ==> !cs[j].fails
    decreases |cs| - i
  {
    if i < |cs| {
      FirstFailureFromNone(cs, i + 1);
    }
  }

  /** The if-chain agrees with the ordered list of checks: each branch of
      the chain is the first failing check of the list. */
  lemma ValidationErrorIsFirstFailure(o: Options, env: Env)
    ensures ValidationError(o, env) == FirstFailure(Checks(o, env))
  {
    var cs := Checks(o, env);
    if Source(o, env) == env.tmpDir {
      FirstFailureFromIsLeast(cs, 0, 0);
    } else if !Given(o.region) {
      FirstFailureFromIsLeast(cs, 0, 1);
    } else if !Given(o.handler) && !Given(o.apiModule) {
      FirstFailureFromIsLeast(cs, 0, 2);
    } else if Given(o.handler) && '/' in o.handler.value {
      FirstFailureFromIsLeast(cs, 0, 3);
    } else if Given(o.apiModule) && '/' in o.apiModule.value {
      FirstFailureFromIsLeast(cs, 0, 4);
    } else {
      LocalChecksFirstFailure(o, env);
    }
  }

  /** Once the options are well formed, the checks of the source folder come next. */
  lemma LocalChecksFirstFailure(o: Options, env: Env)
    requires Source(o, env) != env.tmpDir && Given(o.region) && (Given(o.handler) || Given(o.apiModule))
    requires Given(o.handler) ==> '/' !in o.handler.value
    requires Given(o.apiModule) ==> '/' !in o.apiModule.value
    ensures ValidationError(o, env) == FirstFailure(Checks(o, env))
  {
    var cs := Checks(o, env);
    if env.configExists && Given(o.config) {
      FirstFailureFromIsLeast(cs, 0, 5);
    } else if env.configExists {
      FirstFailureFromIsLeast(cs, 0, 6);
    } else if !env.packageJsonExists {
      FirstFailureFromIsLeast(cs, 0, 7);
    } else if Given(o.policies) && |env.policyFiles| == 0 {
      FirstFailureFromIsLeast(cs, 0, 8);
    } else {
      LimitChecksFirstFailure(o, env);
    }
  }

  /** Last come the memory and timeout limits. */
  lemma LimitChecksFirstFailure(o: Options, env: Env)
    requires Source(o, env) != env.tmpDir && Given(o.region) && (Given(o.handler) || Given(o.apiModule))
    requires Given(o.handler) ==> '/' !in o.handler.value
    requires Given(o.apiModule) ==> '/' !in o.apiModule.value
    requires !env.configExists && env.packageJsonExists && (Given(o.policies) ==> |env.policyFiles| > 0)
    ensures ValidationError(o, env) == FirstFailure(Checks(o, env))
  {
    var cs := Checks(o, env);
    if o.memory.Some? && MemoryOf(o) < 128 {
      FirstFailureFromIsLeast(cs, 0, 9);
    } else if o.memory.Some? && MemoryOf(o) > 1536 {
      FirstFailureFromIsLeast(cs, 0, 10);
    } else if o.memory.Some? && MemoryOf(o) % 64 != 0 {
      FirstFailureFromIsLeast(cs, 0, 11);
    } else if o.timeout.Some? && TimeoutOf(o) < 1 {
      FirstFailureFromIsLeast(cs, 0, 12);
    } else if o.timeout.Some? && TimeoutOf(o) > 300 {
      FirstFailureFromIsLeast(cs, 0, 13);
    } else {
      FirstFailureFromNone(cs, 0);
    }
  }
}

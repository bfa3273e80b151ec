/** Values shared by every part of the `create` command model: the options
    record, the facts about the local machine that the command consults, and
    the settled outcome of a promise. */
module Types {

  datatype Option<+T> = None | Some(value: T)

  /** An opaque value produced by code outside the model (a user module's
      route configuration, a post-deploy result, a remote error). */
  datatype Token = Token(id: nat)

  /** Why a promise rejected: a message built by the command itself, or an
      opaque reason coming from a remote or local collaborator. */
  datatype Rejection = Message(text: string) | Remote(reason: Token)

  /** A settled promise. */
  datatype Result<+T> = Success(value: T) | Failure(error: Rejection)

  /** JavaScript truthiness of an optional string option: present and not "". */
  predicate Given(o: Option<string>) {
    o.Some? && o.value != ""
  }

  /** The string JavaScript concatenation makes of an optional string. */
  function JsString(o: Option<string>): string
  {
    if o.Some? then o.value else "undefined"
  }

  /** The command-line options record. Absent options are `None`; the two
      numeric options carry integers. */
  datatype Options = Options(
    source: Option<string>,
    config: Option<string>,
    region: Option<string>,
    handler: Option<string>,
    apiModule: Option<string>,
    name: Option<string>,
    description: Option<string>,
    version: Option<string>,
    policies: Option<string>,
    allowRecursion: bool,
    role: Option<string>,
    runtime: Option<string>,
    memory: Option<int>,
    timeout: Option<int>,
    useLocalDependencies: bool)

  /** What the command learns from the machine it runs on. The path helpers
      are given as functions because their implementation is not modelled;
      `policyFiles` is the list of regular files matched by the `policies`
      option, already joined to the directory when it names one. */
  datatype Env = Env(
    cwd: string,
    tmpDir: string,
    join: (string, string) -> string,
    basename: string -> string,
    apiUrl: (string, string, string) -> string,
    configExists: bool,
    packageJsonExists: bool,
    policyFiles: seq<string>)

  /** The source directory: the `source` option, else the working directory. */
  function Source(o: Options, env: Env): string
  {
    if Given(o.source) then o.source.value else env.cwd
  }

  /** The config file to write: the `config` option, else claudia.json in the
      source directory. */
  function ConfigFile(o: Options, env: Env): string
  {
    if Given(o.config) then o.config.value else env.join(Source(o, env), "claudia.json")
  }
}

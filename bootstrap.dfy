/** start_server.py: read the deployment environment, refuse to start without
    an API key or an org id, and build the argument list handed to `main`. */
module Bootstrap {
  import opened Wrappers
  import opened Colons
  import opened Descriptors
  import Server

  /** The process environment, as a value. */
  type Env = map<string, string>

  const ApiKeyVar := "LLAMA_CLOUD_API_KEY"
  const IndexNameVar := "INDEX_NAME"
  const IndexDescriptionVar := "INDEX_DESCRIPTION"
  const ProjectNameVar := "PROJECT_NAME"
  const OrgIdVar := "ORG_ID"
  const TransportVar := "TRANSPORT"

  const ProgramName := "llamacloud-mcp"
  const DefaultIndexDescription := "Search index"
  const DefaultTransport := "streamable-http"
  const ApiKeyRequired := "ERROR: LLAMA_CLOUD_API_KEY environment variable is required"
  const OrgIdRequired := "ERROR: ORG_ID environment variable is required"

  /** The flag start_server.py passes the project name under. */
  const ProjectFlagAsWritten := "--project-id"
  /** The flag `main` declares for the project name. */
  const ProjectFlagIntended := "--project-name"

  /** `sys.exit(status)` after printing `message` to standard error. */
  datatype Exit = Exit(status: int, message: string)

  /** `os.getenv(key)`. */
  function GetEnv(env: Env, key: string): Option<string> {
    if key in env then Some(env[key]) else None
  }

  /** `os.getenv(key, default)`: the default only when the variable is unset. */
  function GetEnvOr(env: Env, key: string, default: string): string {
    GetEnv(env, key).GetOr(default)
  }

  /** The `--index` value: `INDEX_NAME:INDEX_DESCRIPTION`. */
  function IndexArgument(env: Env): string {
    GetEnvOr(env, IndexNameVar, "") + ":" + GetEnvOr(env, IndexDescriptionVar, DefaultIndexDescription)
  }

  /** Whether the optional `--index` pair is emitted. */
  predicate HasIndex(env: Env) {
    GetEnvOr(env, IndexNameVar, "") != ""
  }

  /** Whether the optional project pair is emitted. */
  predicate HasProject(env: Env) {
    Truthy(GetEnv(env, ProjectNameVar))
  }

  /** The `sys.argv` start() installs, with the project name passed under
      `projectFlag`, or the exit it takes instead. */
  function Argv(env: Env, projectFlag: string): (r: Result<seq<string>, Exit>)
    ensures r.Failure? <==> !Truthy(GetEnv(env, ApiKeyVar)) || !Truthy(GetEnv(env, OrgIdVar))
    ensures !Truthy(GetEnv(env, ApiKeyVar)) ==> r == Failure(Exit(1, ApiKeyRequired))
    ensures Truthy(GetEnv(env, ApiKeyVar)) && !Truthy(GetEnv(env, OrgIdVar)) ==> r == Failure(Exit(1, OrgIdRequired))
    ensures r.Success? ==>
      var idx := if HasIndex(env) then 2 else 0;
      var proj := if HasProject(env) then 2 else 0;
      && |r.value| == 7 + idx + proj
      && r.value[0] == ProgramName
      && (HasIndex(env) ==> r.value[1..3] == ["--index", IndexArgument(env)])
      && (HasProject(env) ==> r.value[1 + idx..3 + idx] == [projectFlag, GetEnv(env, ProjectNameVar).value])
      && r.value[1 + idx + proj..] ==
         ["--org-id", env[OrgIdVar],
          "--transport", GetEnvOr(env, TransportVar, DefaultTransport),
          "--api-key", env[ApiKeyVar]]
  {
    if !Truthy(GetEnv(env, ApiKeyVar)) then Failure(Exit(1, ApiKeyRequired))
    else if !Truthy(GetEnv(env, OrgIdVar)) then Failure(Exit(1, OrgIdRequired))
    else
      Success([ProgramName]
              + (if HasIndex(env) then ["--index", IndexArgument(env)] else [])
              + (if HasProject(env) then [projectFlag, env[ProjectNameVar]] else [])
              + ["--org-id", env[OrgIdVar],
                 "--transport", GetEnvOr(env, TransportVar, DefaultTransport),
                 "--api-key", env[ApiKeyVar]])
  }

  /** `start()` up to the call of `main`: validate, then extend `args` step by
      step and prefix the program name. */
  method Start(env: Env) returns (r: Result<seq<string>, Exit>)
    ensures r == Argv(env, ProjectFlagAsWritten)
  {
    var apiKey := GetEnv(env, ApiKeyVar);
    var indexName := GetEnvOr(env, IndexNameVar, "");
    var indexDescription := GetEnvOr(env, IndexDescriptionVar, DefaultIndexDescription);
    var projectName := GetEnv(env, ProjectNameVar);
    var orgId := GetEnv(env, OrgIdVar);
    var transport := GetEnvOr(env, TransportVar, DefaultTransport);

    if !Truthy(apiKey) {
      return Failure(Exit(1, ApiKeyRequired));
    }
    if !Truthy(orgId) {
      return Failure(Exit(1, OrgIdRequired));
    }

    var args := [];
    if indexName != "" {
      var indexArg := indexName + ":" + indexDescription;
      args := args + ["--index", indexArg];
    }
    if Truthy(projectName) {
      args := args + [ProjectFlagAsWritten, projectName.value];
    }
    args := args + ["--org-id", orgId.value];
    args := args + ["--transport", transport];
    args := args + ["--api-key", apiKey.value];

    // the optional index pair, the optional project pair and the fixed tail of `Argv`'s list
    ghost var a := if HasIndex(env) then ["--index", IndexArgument(env)] else [];
    ghost var b := if HasProject(env) then [ProjectFlagAsWritten, env[ProjectNameVar]] else [];
    ghost var c := ["--org-id", env[OrgIdVar], "--transport", GetEnvOr(env, TransportVar, DefaultTransport),
              "--api-key", env[ApiKeyVar]];
    assert args == a + b + c;
    ghost var argv := [ProgramName] + a + b + c;
    assert Success(argv) == Argv(env, ProjectFlagAsWritten);
    assert [ProgramName] + args == argv;

    r := Success([ProgramName] + args);
    assert r == Success(argv);
  }

  /** Every flag position (0, 2, 4, ...) of `args` holds an option `main` declares. */
  predicate FlagsDeclared(args: seq<string>) {
    forall i | 0 <= i < |args| && i % 2 == 0 :: args[i] in Server.MainOptionFlags
  }

  /** The `--index` argument parses back in `main` to the configured name and
      description, with the process-wide credentials, when neither contains ':'. */
  lemma IndexArgumentRoundTrip(env: Env, projectFlag: string, defaults: Credentials)
    requires Argv(env, projectFlag).Success? && HasIndex(env)
    requires ColonFree(GetEnvOr(env, IndexNameVar, ""))
    requires ColonFree(GetEnvOr(env, IndexDescriptionVar, DefaultIndexDescription))
    ensures Argv(env, projectFlag).value[1] == "--index"
    ensures ParseDescriptor(Index, Argv(env, projectFlag).value[2], defaults)
         == Success(ToolRecord(GetEnvOr(env, IndexNameVar, ""),
                               GetEnvOr(env, IndexDescriptionVar, DefaultIndexDescription),
                               defaults.apiKey, defaults.orgId, defaults.projectName))
  {
    var argv := Argv(env, projectFlag).value;
    assert argv[1..3][1] == argv[2];
    TwoFieldsUseDefaults(Index, GetEnvOr(env, IndexNameVar, ""),
                         GetEnvOr(env, IndexDescriptionVar, DefaultIndexDescription), defaults);
  }

  /** A ':' in INDEX_DESCRIPTION splits it: the text after it is taken by `main`
      as a per-index API key. */
  lemma DescriptionColonBecomesApiKey(
    env: Env, projectFlag: string, description: string, apiKey: string, defaults: Credentials)
    requires Argv(env, projectFlag).Success? && HasIndex(env)
    requires ColonFree(GetEnvOr(env, IndexNameVar, ""))
    requires ColonFree(description) && ColonFree(apiKey)
    requires GetEnvOr(env, IndexDescriptionVar, DefaultIndexDescription) == description + ":" + apiKey
    ensures ParseDescriptor(Index, Argv(env, projectFlag).value[2], defaults)
         == Success(ToolRecord(GetEnvOr(env, IndexNameVar, ""), description, apiKey,
                               defaults.orgId, defaults.projectName))
  {
    var argv := Argv(env, projectFlag).value;
    var name := GetEnvOr(env, IndexNameVar, "");
    assert argv[1..3][1] == argv[2];
    assert argv[2] == name + ":" + description + ":" + apiKey;
    ThreeFieldsOverrideApiKey(Index, name, description, apiKey, defaults);
  }

  /** As written, a set PROJECT_NAME puts `--project-id` among the arguments,
      an option `main` does not declare. */
  lemma ProjectFlagUndeclaredAsWritten(env: Env)
    requires Argv(env, ProjectFlagAsWritten).Success? && HasProject(env)
    ensures !FlagsDeclared(Argv(env, ProjectFlagAsWritten).value[1..])
  {
    var args := Argv(env, ProjectFlagAsWritten).value[1..];
    var at := if HasIndex(env) then 2 else 0;
    assert args[at] == ProjectFlagAsWritten;
    assert ProjectFlagAsWritten !in Server.MainOptionFlags;
  }

  /** The smallest environment that shows it. */
  lemma ProjectFlagCounterexample()
    ensures Argv(map[ApiKeyVar := "k", OrgIdVar := "o", ProjectNameVar := "p"], ProjectFlagAsWritten)
         == Success([ProgramName, "--project-id", "p", "--org-id", "o",
                     "--transport", DefaultTransport, "--api-key", "k"])
    ensures !FlagsDeclared(Argv(map[ApiKeyVar := "k", OrgIdVar := "o", ProjectNameVar := "p"],
                                ProjectFlagAsWritten).value[1..])
  {
    var env := map[ApiKeyVar := "k", OrgIdVar := "o", ProjectNameVar := "p"];
    assert IndexNameVar !in env && TransportVar !in env;
    assert !HasIndex(env) && HasProject(env);
    assert env[ProjectNameVar] == "p" && env[OrgIdVar] == "o" && env[ApiKeyVar] == "k";
    assert GetEnvOr(env, TransportVar, DefaultTransport) == DefaultTransport;
    ghost var argv := [ProgramName] + [] + [ProjectFlagAsWritten, "p"]
                      + ["--org-id", "o", "--transport", DefaultTransport, "--api-key", "k"];
    assert Argv(env, ProjectFlagAsWritten) == Success(argv);
    assert argv == [ProgramName, "--project-id", "p", "--org-id", "o",
                    "--transport", DefaultTransport, "--api-key", "k"];
    ProjectFlagUndeclaredAsWritten(env);
  }

  /** With the project name passed as `--project-name`, every flag of the
      argument list is one `main` declares. */
  lemma IntendedFlagsDeclared(env: Env)
    requires Argv(env, ProjectFlagIntended).Success?
    ensures FlagsDeclared(Argv(env, ProjectFlagIntended).value[1..])
  {
  }
}

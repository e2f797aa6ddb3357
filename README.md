# llamacloud-mcp: descriptor parsing, tool registration and bootstrap argv

This project models, in Dafny, the configuration logic of a small server that
exposes LlamaCloud retrieval indexes and extraction agents as MCP tools.

- `main()` resolves the API key and the port.
- `main()` then creates the FastMCP server and parses each `--index` and
  `--extract-agent` descriptor. A descriptor has the form
  `name:description[:api_key[:org_id[:project_name]]]`.
- `main()` registers one tool per descriptor, named `query_<name>` or
  `extract_<name>`, and runs the server.
- The bootstrap script `start_server.py` reads the deployment environment,
  exits with status 1 when a required variable is missing, and builds the
  argument list it hands to `main()`.

Files and modules:

- `wrappers.dfy` (`Wrappers`): `Option`, `Result`, and Python truthiness of an optional string.
- `colons.dfy` (`Colons`): Python's `str.split(":")` as `Split`, its inverse `Join`, and the lemmas connecting them.
- `descriptors.dfy` (`Descriptors`): the records, the errors, `ParseDescriptor`, and the parsing loop `ParseDescriptors`.
- `server.dfy` (`Server`): the FastMCP server as a class, the registration loop, and `Startup`, which models the body of `main()`.
- `bootstrap.dfy` (`Bootstrap`): `start()` as the specification function `Argv` and the method `Start`.

How the outside world is represented:

- Option values reach `Startup` already parsed, as an `Options` value.
- The environment is an input value. For `main()` it holds LLAMA_CLOUD_API_KEY and PORT, with PORT already an integer. For `start()` it is a `map<string, string>`.
- A raised `click.BadParameter` becomes a returned `ConfigError`.
- `sys.exit(1)` becomes a returned `Exit(1, message)`.
- The FastMCP server is an `McpServer` object. Its ghost field `tools` logs every `mcp.tool(...)` call in order. Its ghost field `runningOn` records the `mcp.run(...)` call.
- The callable a factory returns is the value `IndexTool(...)` or `ExtractTool(...)`. It holds the factory's arguments in the factory's parameter order: name, project, org, API key.

Behaviour of the code that the model keeps as written:

- The code accepts an empty name, as in `:desc`.
- An empty credential field overrides the default with the empty string. It does not fall back to the default (`EmptyFieldOverrides`).
- `start()` reads only INDEX_NAME and INDEX_DESCRIPTION. It does not read the numbered INDEX_1, INDEX_2, ... variables.
- `--extract-agent` accepts the same five fields as `--index`, although its help text names only two.

## Model

| member | source | states |
|---|---|---|
| `Colons.ColonCount` | llamacloud_mcp/main.py:131-132 | the colon count is zero exactly when the string has no ':' and is at most the string's length |
| `Colons.Split` | llamacloud_mcp/main.py:131 | `s.split(":")` has one more piece than `s` has colons (so `""` gives one piece), and no piece contains ':' |
| `Colons.JoinSplit` | llamacloud_mcp/main.py:131 | re-joining the pieces with ':' gives back the original string |
| `Colons.SplitJoin` | llamacloud_mcp/main.py:131 | splitting the ':'-join of colon-free pieces gives back exactly those pieces |
| `Colons.SplitAppend` | llamacloud_mcp/main.py:131 | the split of `a + ":" + b` is the split of `a` followed by the split of `b` |
| `Colons.SplitColonFree` | llamacloud_mcp/main.py:131-132 | a string without ':' is a single piece |
| `Descriptors.Message` | llamacloud_mcp/main.py:133-135 | a malformed-descriptor message quotes the offending descriptor right after `Index '` (or `Extract agent '`, main.py:152-154), followed by a closing quote and then exactly the format hint ` must be in the format name:description[:api_key:org_id:project_name]` (main.py:134, 153) |
| `Descriptors.ParseDescriptor` | llamacloud_mcp/main.py:130-144 | a descriptor is refused exactly when it has no ':'; the error names that descriptor and its kind; an accepted record's name is the text before the first ':' and its description the text up to the second ':' or the end, neither containing ':' |
| `Descriptors.TwoFieldsUseDefaults` | llamacloud_mcp/main.py:137-142 | `name:description` gets the resolved API key, org id and project name from the defaults |
| `Descriptors.ThreeFieldsOverrideApiKey` | llamacloud_mcp/main.py:140-142 | a third field overrides only the API key |
| `Descriptors.FourFieldsOverrideApiKeyAndOrg` | llamacloud_mcp/main.py:140-142 | a fourth field overrides the org id too, and the project name stays the default |
| `Descriptors.FiveFieldsOverrideAll` | llamacloud_mcp/main.py:140-142 | five fields override all three credentials |
| `Descriptors.TrailingFieldsIgnored` | llamacloud_mcp/main.py:140-142 | once a descriptor has five fields, appending `:anything` does not change the parse |
| `Descriptors.EmptyFieldOverrides` | llamacloud_mcp/main.py:140-141 | in `a:b::O` the API key is overridden by "" and the org id by "O"; the empty field does not fall back |
| `Descriptors.ExampleDefaults` | llamacloud_mcp/main.py:137-142 | `docs:Search my docs` with defaults K1/O1/P1 gives the record docs, "Search my docs", K1, O1, P1 |
| `Descriptors.ExampleOverrides` | llamacloud_mcp/main.py:137-142 | `docs:Search my docs:K2:O2:P2` gives K2, O2, P2, ignoring the defaults |
| `Descriptors.ExampleRejected` | llamacloud_mcp/main.py:131-135 | `badinput` is refused with an error naming `badinput` |
| `Descriptors.ParseDescriptors` | llamacloud_mcp/main.py:127-163 | the loop succeeds exactly when every descriptor has a ':'; then record i is the parse of descriptor i and there are as many records as descriptors; otherwise the error names the first malformed descriptor |
| `Server.ResolveApiKey` | llamacloud_mcp/main.py:108-112 | the key is the CLI value if truthy, else the environment value if truthy; it is never empty; with both falsy the result is MissingApiKey |
| `Server.ResolvePort` | llamacloud_mcp/main.py:116-118 | an absent port becomes PORT (default 8000) under sse and streamable-http; a given port, and any port under stdio, is unchanged |
| `Server.McpServer.constructor` | llamacloud_mcp/main.py:122-125 | a new server has the given name, port and host settings, no tools, and has not been run |
| `Server.McpServer.Tool` | llamacloud_mcp/main.py:168 | a registration appends exactly one entry (tool name, description, callable) to the log |
| `Server.McpServer.Run` | llamacloud_mcp/main.py:176 | running records the transport and leaves the tool log unchanged |
| `Server.RegistrationFor` | llamacloud_mcp/main.py:166-173 | a record's registration is named `query_<name>` for an index and `extract_<name>` for an extract agent, carries the record's description, and uses the index factory exactly for an index; the factory gets the record's name, project, org and API key |
| `Server.RegisterTools` | llamacloud_mcp/main.py:165-173 | one registration per record, appended in order after the existing ones; the tool is named `query_<name>` or `extract_<name>` with the record's description; the factory receives the record's name, project, org and API key in its parameter order |
| `Server.Startup` | llamacloud_mcp/main.py:97-176 | a falsy API key in both the CLI and the environment fails before any server exists; otherwise the server binds 0.0.0.0 with the resolved port only for a network transport and a nonzero port; the first malformed index descriptor, or else the first malformed extract descriptor, fails with no tool registered and the server not run; otherwise the N index tools and then the M extract tools are registered, exactly N+M of them, in input order, and the server runs on the chosen transport |
| `Bootstrap.Argv` | start_server.py:13-62 | a falsy LLAMA_CLOUD_API_KEY exits with status 1 and its message, checked before ORG_ID; a falsy ORG_ID exits with status 1 and its message; otherwise argv is `llamacloud-mcp`, then `--index NAME:DESCRIPTION` exactly when INDEX_NAME is non-empty (the description defaults to "Search index"), then the project pair exactly when PROJECT_NAME is truthy, then `--org-id`, `--transport` (default streamable-http) and `--api-key` |
| `Bootstrap.Start` | start_server.py:10-62 | building the list step by step gives exactly `Argv` with the project name passed as `--project-id`, as written |
| `Bootstrap.IndexArgumentRoundTrip` | start_server.py:38-40 | if INDEX_NAME and INDEX_DESCRIPTION have no ':', then `ParseDescriptor` (llamacloud_mcp/main.py:131-142) turns the built `--index` value back into that name and description with the default credentials |
| `Bootstrap.DescriptionColonBecomesApiKey` | start_server.py:39 | if INDEX_DESCRIPTION is `d:k`, then `main` reads the description as `d` and takes `k` as a per-index API key |
| `Bootstrap.ProjectFlagUndeclaredAsWritten` | start_server.py:43-44 | as written, a truthy PROJECT_NAME puts `--project-id` in a flag position, and `main` does not declare that option |
| `Bootstrap.ProjectFlagCounterexample` | start_server.py:43-44 | with LLAMA_CLOUD_API_KEY=k, ORG_ID=o and PROJECT_NAME=p, argv is `llamacloud-mcp --project-id p --org-id o --transport streamable-http --api-key k`, which uses an undeclared option |
| `Bootstrap.IntendedFlagsDeclared` | llamacloud_mcp/main.py:65-96 | with the project name passed as `--project-name`, every flag position of the built argv holds an option `main` declares |

## Left out

- The async tool bodies (llamacloud_mcp/main.py:20-33, 44-60) are left out. They call the remote index and extraction services over the network. A factory is represented only by the arguments it closes over.
- The FastMCP runtime (request dispatch, transports, logging callbacks) is external and left out. It is represented by the registration log and the recorded `run` transport.
- What the runtime does with two tools of the same name is not modelled. The log keeps every registration.
- click's parsing of the command line is left out, including the `click.Choice` check on `--transport` and the `int` type of `--port` (llamacloud_mcp/main.py:65-96). `Startup` receives the parsed values. The declared flag names are kept as `Server.MainOptionFlags`.
- The environment writes `os.environ["LLAMA_CLOUD_API_KEY"] = ...` are left out (llamacloud_mcp/main.py:114, start_server.py:32). They affect only libraries that read the environment later.
- `int(os.getenv("PORT", "8000"))` in `main()` is left out. PORT reaches `Startup` already as an integer, so a non-numeric PORT is not modelled.
- The `print` calls and the PORT read in start_server.py (lines 20, 55-59) are left out. They only produce console output.
- The assignment to `sys.argv` is left out. `Start` returns the list instead of installing it.
- The call to `main()` and the exception handler around it (start_server.py:65-69) are left out. This is process-level error plumbing.

## Findings

| source | as written | input that shows it | evidently intended | confidence | as-written member | corrected member |
|---|---|---|---|---|---|---|
| start_server.py:44 | the project name is passed as `--project-id`, an option `main` does not declare (it declares `--project-name`, llamacloud_mcp/main.py:83-85), so click refuses the command line | LLAMA_CLOUD_API_KEY=k, ORG_ID=o, PROJECT_NAME=p | pass the project name as `--project-name` | not executed; the flag names are compared as text | `Bootstrap.ProjectFlagUndeclaredAsWritten` | `Bootstrap.IntendedFlagsDeclared` |

`Bootstrap.Start` keeps `--project-id`, because it models the script as written. The corrected argument list is `Bootstrap.Argv(env, ProjectFlagIntended)`. The round-trip lemmas hold for either flag.

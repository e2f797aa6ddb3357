/** The body of `main()` in llamacloud_mcp/main.py: resolve the API key and the
    port, create the MCP server, parse the `--index` and `--extract-agent`
    descriptors, register one tool per record and run the server. Option
    values arrive already parsed; the server runtime is represented by a log
    of the registrations made on it. */
module Server {
  import opened Wrappers
  import opened Colons
  import opened Descriptors

  datatype Transport = Stdio | Sse | StreamableHttp

  /** The transports that listen on a port. */
  predicate IsNetwork(t: Transport) {
    t == Sse || t == StreamableHttp
  }

  const ServerName := "llama-index-server"
  const DefaultPort := 8000
  const AllHosts := "0.0.0.0"

  /** The option flags the `main` command declares. */
  const MainOptionFlags: set<string> :=
    {"--index", "--extract-agent", "--project-name", "--org-id", "--transport", "--api-key", "--port"}

  /** The parsed command-line options of `main`. */
  datatype Options = Options(
    indexes: seq<string>,
    extractAgents: seq<string>,
    projectName: Option<string>,
    orgId: Option<string>,
    transport: Transport,
    apiKey: Option<string>,
    port: Option<int>)

  /** What `main` reads from the environment: LLAMA_CLOUD_API_KEY, and PORT
      already converted to an integer. */
  datatype Environment = Environment(apiKey: Option<string>, port: Option<int>)

  /** The callable a factory returns, represented by the arguments it closes
      over, in the factory's parameter order. */
  datatype ToolFactory =
    | IndexTool(indexName: string, projectName: Option<string>, orgId: Option<string>, apiKey: Option<string>)
    | ExtractTool(agentName: string, projectName: Option<string>, orgId: Option<string>, apiKey: Option<string>)

  /** One `mcp.tool(name=..., description=...)(tool_func)` call. */
  datatype Registration = Registration(toolName: string, description: string, tool: ToolFactory)

  /** The registration `main()` makes for a parsed record of the given kind. */
  function RegistrationFor(kind: Kind, rec: ToolRecord): (r: Registration)
    ensures r.toolName == (if kind == Index then "query_" else "extract_") + rec.name
    ensures r.description == rec.description
    ensures r.tool.IndexTool? <==> kind == Index
    ensures if r.tool.IndexTool? then r.tool.indexName == rec.name else r.tool.agentName == rec.name
    ensures r.tool.projectName == rec.projectName && r.tool.orgId == rec.orgId && r.tool.apiKey == Some(rec.apiKey)
  {
    match kind
    case Index =>
      Registration("query_" + rec.name, rec.description,
                   IndexTool(rec.name, rec.projectName, rec.orgId, Some(rec.apiKey)))
    case ExtractAgent =>
      Registration("extract_" + rec.name, rec.description,
                   ExtractTool(rec.name, rec.projectName, rec.orgId, Some(rec.apiKey)))
  }

  /** `api_key or os.getenv("LLAMA_CLOUD_API_KEY")`, refused when neither is truthy. */
  function ResolveApiKey(cli: Option<string>, env: Option<string>): (r: Result<string, ConfigError>)
    ensures r.Success? <==> Truthy(cli) || Truthy(env)
    ensures r.Failure? ==> r.error == MissingApiKey
    ensures r.Success? ==> r.value != ""
    ensures r.Success? ==> if Truthy(cli) then r.value == cli.value else r.value == env.value
  {
    var key := if Truthy(cli) then cli else env;
    if Truthy(key) then Success(key.value) else Failure(MissingApiKey)
  }

  /** A missing port becomes PORT (or 8000) for the network transports; any
      other port, and every port under stdio, is kept. */
  function ResolvePort(port: Option<int>, transport: Transport, envPort: Option<int>): (r: Option<int>)
    ensures IsNetwork(transport) ==> r.Some?
    ensures port.Some? || !IsNetwork(transport) ==> r == port
    ensures port.None? && IsNetwork(transport) ==> r == Some(envPort.GetOr(DefaultPort))
  {
    if port.None? && IsNetwork(transport) then Some(envPort.GetOr(DefaultPort)) else port
  }

  /** The server binds to all hosts only for a network transport and a nonzero port. */
  predicate BindsAllHosts(transport: Transport, port: Option<int>) {
    IsNetwork(transport) && port.Some? && port.value != 0
  }

  /** The FastMCP server: its settings, the tools registered on it, in order,
      and the transport it was run with. */
  class McpServer {
    const name: string
    const port: Option<int>
    const host: Option<string>
    ghost var tools: seq<Registration>
    ghost var runningOn: Option<Transport>

    /** `FastMCP(name)` or `FastMCP(name, port=..., host=...)`; None leaves a
        setting at the framework's default. */
    constructor (name: string, port: Option<int>, host: Option<string>)
      ensures this.name == name && this.port == port && this.host == host
      ensures tools == [] && runningOn == None
    {
      this.name := name;
      this.port := port;
      this.host := host;
      tools := [];
      runningOn := None;
    }

    /** `mcp.tool(name=toolName, description=description)(tool)`. */
    method Tool(toolName: string, description: string, tool: ToolFactory)
      modifies this
      ensures tools == old(tools) + [Registration(toolName, description, tool)]
      ensures runningOn == old(runningOn)
    {
      tools := tools + [Registration(toolName, description, tool)];
    }

    /** `mcp.run(transport=transport)`. */
    method Run(transport: Transport)
      modifies this
      ensures runningOn == Some(transport)
      ensures tools == old(tools)
    {
      runningOn := Some(transport);
    }
  }

  /** A registration loop of `main()`: one tool per record, in order, named
      `query_<name>` or `extract_<name>`, each built from its own record's
      credentials. */
  method RegisterTools(mcp: McpServer, kind: Kind, records: seq<ToolRecord>)
    modifies mcp
    ensures |mcp.tools| == |old(mcp.tools)| + |records|
    ensures mcp.tools[..|old(mcp.tools)|] == old(mcp.tools)
    ensures forall i | 0 <= i < |records| :: mcp.tools[|old(mcp.tools)| + i] == RegistrationFor(kind, records[i])
    ensures mcp.runningOn == old(mcp.runningOn)
  {
    for i := 0 to |records|
      invariant |mcp.tools| == |old(mcp.tools)| + i
      invariant mcp.tools[..|old(mcp.tools)|] == old(mcp.tools)
      invariant forall j | 0 <= j < i :: mcp.tools[|old(mcp.tools)| + j] == RegistrationFor(kind, records[j])
      invariant mcp.runningOn == old(mcp.runningOn)
    {
      var rec := records[i];
      match kind
      case Index =>
        mcp.Tool("query_" + rec.name, rec.description,
                 IndexTool(rec.name, rec.projectName, rec.orgId, Some(rec.apiKey)));
      case ExtractAgent =>
        mcp.Tool("extract_" + rec.name, rec.description,
                 ExtractTool(rec.name, rec.projectName, rec.orgId, Some(rec.apiKey)));
    }
  }

  /** The credentials descriptors fall back to once the API key is resolved. */
  function DefaultsFor(opts: Options, apiKey: string): Credentials {
    Credentials(apiKey, opts.orgId, opts.projectName)
  }

  /** `main()`. `mcp` is the global server (null while unset); `err` is the
      error raised, if any. A missing API key fails before the server exists;
      a malformed descriptor, index ones first, fails after it exists but
      before any tool is registered; otherwise every index tool and then every
      extract tool is registered, in input order, and the server is run. */
  method Startup(opts: Options, env: Environment) returns (mcp: McpServer?, err: Option<ConfigError>)
    ensures ResolveApiKey(opts.apiKey, env.apiKey).Failure? ==> mcp == null && err == Some(MissingApiKey)
    ensures ResolveApiKey(opts.apiKey, env.apiKey).Success? ==>
      var port := ResolvePort(opts.port, opts.transport, env.port);
      && mcp != null && fresh(mcp) && mcp.name == ServerName
      && mcp.host == (if BindsAllHosts(opts.transport, port) then Some(AllHosts) else None)
      && mcp.port == (if BindsAllHosts(opts.transport, port) then port else None)
    ensures ResolveApiKey(opts.apiKey, env.apiKey).Success? && !AllWellFormed(opts.indexes) ==>
      && mcp != null && mcp.tools == [] && mcp.runningOn == None
      && exists i :: FirstMalformed(opts.indexes, i) && err == Some(BadDescriptor(Index, opts.indexes[i]))
    ensures ResolveApiKey(opts.apiKey, env.apiKey).Success? && AllWellFormed(opts.indexes)
            && !AllWellFormed(opts.extractAgents) ==>
      && mcp != null && mcp.tools == [] && mcp.runningOn == None
      && exists i :: FirstMalformed(opts.extractAgents, i)
                     && err == Some(BadDescriptor(ExtractAgent, opts.extractAgents[i]))
    ensures ResolveApiKey(opts.apiKey, env.apiKey).Success? && AllWellFormed(opts.indexes)
            && AllWellFormed(opts.extractAgents) ==>
      var defaults := DefaultsFor(opts, ResolveApiKey(opts.apiKey, env.apiKey).value);
      var n := |opts.indexes|;
      && err == None && mcp != null && mcp.runningOn == Some(opts.transport)
      && |mcp.tools| == n + |opts.extractAgents|
      && (forall i | 0 <= i < n ::
            mcp.tools[i] == RegistrationFor(Index, ParseDescriptor(Index, opts.indexes[i], defaults).value))
      && (forall i | 0 <= i < |opts.extractAgents| ::
            mcp.tools[n + i]
            == RegistrationFor(ExtractAgent, ParseDescriptor(ExtractAgent, opts.extractAgents[i], defaults).value))
  {
    var key := ResolveApiKey(opts.apiKey, env.apiKey);
    if key.Failure? {
      return null, Some(key.error);
    }
    var apiKey := key.value;

    var port := opts.port;
    if port.None? && IsNetwork(opts.transport) {
      port := Some(env.port.GetOr(DefaultPort));
    }

    if IsNetwork(opts.transport) && port.Some? && port.value != 0 {
      mcp := new McpServer(ServerName, port, Some(AllHosts));
    } else {
      mcp := new McpServer(ServerName, None, None);
    }

    var defaults := Credentials(apiKey, opts.orgId, opts.projectName);
    var indexInfo := ParseDescriptors(Index, opts.indexes, defaults);
    if indexInfo.Failure? {
      return mcp, Some(indexInfo.error);
    }
    var agentInfo := ParseDescriptors(ExtractAgent, opts.extractAgents, defaults);
    if agentInfo.Failure? {
      return mcp, Some(agentInfo.error);
    }

    RegisterTools(mcp, Index, indexInfo.value);
    RegisterTools(mcp, ExtractAgent, agentInfo.value);
    mcp.Run(opts.transport);
    err := None;
  }
}

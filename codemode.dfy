/** `CodeMode` of parselbox/codemode.py: registers one proxy handler per MCP
    server in a sandbox, and routes a proxy callback from the running script
    to a tool of those servers. The MCP client is an oracle: the tools it
    lists and what a call to a tool answers. */
module CodeMode {
  import opened PyValues
  import opened Dicts
  import opened Errors
  import opened Dispatcher
  import opened ErrorMapper
  import opened SandboxConfig
  import opened LaunchPolicy
  import opened Session

  /** A tool's input schema: the names of its `properties` in order (`None`
      when the schema has no "properties" key) and what `jsonschema.validate`
      does with an instance, raising or not. */
  datatype Schema = Schema(properties: Option<seq<string>>, validate: map<string, Value> -> Option<Exc>)

  /** An entry of `list_tools()`. */
  datatype ToolInfo = ToolInfo(name: string, inputSchema: Schema)

  /** What `call_tool_mcp` followed by `json.loads(result.content[0].text)`
      gives: the call raised, or it returned with `isError` and the decoded
      first content block (or the exception decoding raised). */
  datatype McpCallResult = CallRaised(exc: Exc) | CallReturned(isError: bool, content: Result<Value, Exc>)

  type McpCall = (string, map<string, Value>) -> McpCallResult

  /** The MCP client's side of a session: the tools it lists and its calls. */
  datatype McpClient = McpClient(tools: seq<ToolInfo>, call: McpCall)

  function InfoName(t: ToolInfo): string { t.name }
  function InfoSchema(t: ToolInfo): Schema { t.inputSchema }
  function PairKey(p: (string, Value)): string { p.0 }
  function PairValue(p: (string, Value)): Value { p.1 }

  /** The name a tool is called under: prefixed with its server's name when
      more than one server is configured. */
  function ForwardedName(servers: set<string>, server: string, tool: string): (r: string)
    ensures |servers| <= 1 ==> r == tool
    ensures |r| >= |tool| && r[|r| - |tool|..] == tool
    ensures |servers| > 1 ==> |r| == |server| + 1 + |tool| && r[..|server|] == server && r[|server|] == '_'
  {
    if |servers| > 1 then server + "_" + tool else tool
  }

  /** With several servers whose names have no underscore, different
      (server, tool) pairs are forwarded under different names. */
  lemma ForwardedNameUnambiguous(servers: set<string>, s1: string, t1: string, s2: string, t2: string)
    requires |servers| > 1 && '_' !in s1 && '_' !in s2
    requires ForwardedName(servers, s1, t1) == ForwardedName(servers, s2, t2)
    ensures s1 == s2 && t1 == t2
  {
    var n := s1 + "_" + t1;
    var m := s2 + "_" + t2;
    // The first underscore of the forwarded name ends the server name.
    assert forall j :: 0 <= j < |s1| ==> n[j] == s1[j] != '_';
    assert forall j :: 0 <= j < |s2| ==> m[j] == s2[j] != '_';
    assert n[|s1|] == '_' && m[|s2|] == '_';
    assert |s1| == |s2|;
    assert s1 == n[..|s1|] == m[..|s2|] == s2;
    assert t1 == n[|s1| + 1..] == m[|s2| + 1..] == t2;
  }

  /** `{**dict(zip(props, args)), **kwargs}`: positional arguments bound to
      the schema's property names in order, the shorter side deciding how
      many, then the keyword arguments on top. */
  function BindParams(props: seq<string>, args: seq<Value>, kwargs: map<string, Value>): (r: map<string, Value>)
    ensures forall k :: k in r <==> k in kwargs || exists i :: 0 <= i < |props| && i < |args| && props[i] == k
    ensures forall k :: k in kwargs ==> r[k] == kwargs[k]
  {
    var ps := Zip(props, args);
    assert forall i :: 0 <= i < |ps| ==> PairKey(ps[i]) == props[i];
    KeyedBy(ps, PairKey, PairValue) + kwargs
  }

  /** A positional argument reaches the property it is zipped with unless a
      keyword argument of that name overrides it (property names are dict
      keys, so they are distinct). */
  lemma BindPositional(props: seq<string>, args: seq<Value>, kwargs: map<string, Value>, i: int)
    requires 0 <= i < |props| && i < |args| && props[i] !in kwargs
    requires forall j :: 0 <= j < |props| && j != i ==> props[j] != props[i]
    ensures props[i] in BindParams(props, args, kwargs)
    ensures BindParams(props, args, kwargs)[props[i]] == args[i]
  {
    var ps := Zip(props, args);
    KeyedByLastWins(ps, PairKey, PairValue, i);
  }

  /** `handle_tool`: the tool is the callback's first path element, looked
      up in the loaded schemas; the bound parameters are validated, but only
      the keyword arguments are sent; an error answer is raised with the
      decoded content as its argument. */
  function HandleTool(servers: set<string>, schemas: map<string, Schema>, call: McpCall, cb: Callback): (r: Outcome)
    ensures cb.path.None? ==> r.Raised? && r.exc.cls == TypeError
    ensures cb.path == Some([]) ==> r.Raised? && r.exc.cls == IndexError
    ensures cb.path.Some? && cb.path.value != [] && cb.path.value[0] !in schemas ==>
      r == Raised(Exc(KeyError, Str(cb.path.value[0])))
    ensures cb.path.Some? && cb.path.value != [] && cb.path.value[0] in schemas &&
            schemas[cb.path.value[0]].properties.None? ==>
      r == Raised(Exc(KeyError, Str("properties")))
    ensures r.Returned? <==>
      && cb.path.Some? && cb.path.value != [] && cb.path.value[0] in schemas
      && schemas[cb.path.value[0]].properties.Some?
      && schemas[cb.path.value[0]].validate(
           BindParams(schemas[cb.path.value[0]].properties.value, cb.args, cb.kwargs)).None?
      && call(ForwardedName(servers, cb.name, cb.path.value[0]), cb.kwargs).CallReturned?
      && !call(ForwardedName(servers, cb.name, cb.path.value[0]), cb.kwargs).isError
      && call(ForwardedName(servers, cb.name, cb.path.value[0]), cb.kwargs).content.Ok?
    ensures r.Returned? ==>
      r.value == call(ForwardedName(servers, cb.name, cb.path.value[0]), cb.kwargs).content.value
  {
    match cb.path
    case None => Raised(Exc(TypeError, Str("'NoneType' object is not subscriptable")))
    case Some(path) =>
      if path == [] then Raised(Exc(IndexError, Str("list index out of range")))
      else
        var tool := path[0];
        var forwarded := ForwardedName(servers, cb.name, tool);
        if tool !in schemas then Raised(Exc(KeyError, Str(tool)))
        else
          var schema := schemas[tool];
          if schema.properties.None? then Raised(Exc(KeyError, Str("properties")))
          else
            var params := BindParams(schema.properties.value, cb.args, cb.kwargs);
            match schema.validate(params)
            case Some(e) => Raised(e)
            case None =>
              match call(forwarded, cb.kwargs)
              case CallRaised(e) => Raised(e)
              case CallReturned(isError, content) =>
                match content
                case Err(e) => Raised(e)
                case Ok(v) => if isError then Raised(Exc(Other("Exception"), v)) else Returned(v)
  }

  /** Positional arguments only feed validation: two callbacks that differ
      only in them, and that both validate, have the same outcome. */
  lemma OnlyKeywordArgumentsForwarded(servers: set<string>, schemas: map<string, Schema>, call: McpCall,
                                      cb: Callback, args: seq<Value>)
    requires cb.path.Some? && cb.path.value != [] && cb.path.value[0] in schemas
    requires schemas[cb.path.value[0]].properties.Some?
    requires schemas[cb.path.value[0]].validate(BindParams(schemas[cb.path.value[0]].properties.value, cb.args, cb.kwargs)).None?
    requires schemas[cb.path.value[0]].validate(BindParams(schemas[cb.path.value[0]].properties.value, args, cb.kwargs)).None?
    ensures HandleTool(servers, schemas, call, cb.(args := args)) == HandleTool(servers, schemas, call, cb)
  {
  }

  /** `self.handle_tool` as registered in the sandbox: a handler over the
      given schemas. */
  function BoundHandleTool(servers: set<string>, schemas: map<string, Schema>, call: McpCall): ProxyFn
  {
    cb => HandleTool(servers, schemas, call, cb)
  }

  /** Calling the registered handler is calling `handle_tool`. */
  lemma BoundHandleToolApplies(servers: set<string>, schemas: map<string, Schema>, call: McpCall, cb: Callback)
    ensures BoundHandleTool(servers, schemas, call)(cb) == HandleTool(servers, schemas, call, cb)
  {
  }

  /** `{k: self.handle_tool for k in servers}`. */
  function Handlers(servers: set<string>, schemas: map<string, Schema>, call: McpCall): (m: map<string, ProxyFn>)
    ensures m.Keys == servers
  {
    map k | k in servers :: BoundHandleTool(servers, schemas, call)
  }

  /** An error answer from an MCP tool reaches the script as the dispatcher's
      error payload, with the decoded content as `__error__` and "Exception"
      as `__error_type__`; nothing is raised on the host. */
  lemma McpErrorBecomesErrorPayload(
    servers: set<string>, schemas: map<string, Schema>, call: McpCall,
    tools: map<string, ToolFn>, proxies: map<string, ProxyFn>, cb: Callback, v: Value)
    requires cb.kind == "proxy_callback" && cb.name in proxies
    requires proxies[cb.name] == BoundHandleTool(servers, schemas, call)
    requires cb.path.Some? && cb.path.value != [] && cb.path.value[0] in schemas
    requires schemas[cb.path.value[0]].properties.Some?
    requires schemas[cb.path.value[0]].validate(BindParams(schemas[cb.path.value[0]].properties.value, cb.args, cb.kwargs)).None?
    requires call(ForwardedName(servers, cb.name, cb.path.value[0]), cb.kwargs) == CallReturned(true, Ok(v))
    ensures Encode(Dispatch(Decoded(cb), tools, proxies)) ==
      Obj(map["__error__" := v, "__error_type__" := Str("Exception")])
  {
    var e := Exc(Other("Exception"), v);
    ErrorAnswerRaises(servers, schemas, call, cb, v);
    BoundHandleToolApplies(servers, schemas, call, cb);
    RaisingProxyReply(cb, tools, proxies, e);
  }

  /** A registered proxy that raises an `Exception` is answered with the payload. */
  lemma RaisingProxyReply(cb: Callback, tools: map<string, ToolFn>, proxies: map<string, ProxyFn>, e: Exc)
    requires cb.kind == "proxy_callback" && cb.name in proxies && proxies[cb.name](cb) == Raised(e)
    requires IsException(e.cls)
    ensures Encode(Dispatch(Decoded(cb), tools, proxies)) ==
      Obj(map["__error__" := e.arg, "__error_type__" := Str(ClassName(e.cls))])
  {
  }

  /** `handle_tool` on an error answer raises `Exception(content)`. */
  lemma ErrorAnswerRaises(servers: set<string>, schemas: map<string, Schema>, call: McpCall, cb: Callback, v: Value)
    requires cb.path.Some? && cb.path.value != [] && cb.path.value[0] in schemas
    requires schemas[cb.path.value[0]].properties.Some?
    requires schemas[cb.path.value[0]].validate(BindParams(schemas[cb.path.value[0]].properties.value, cb.args, cb.kwargs)).None?
    requires call(ForwardedName(servers, cb.name, cb.path.value[0]), cb.kwargs) == CallReturned(true, Ok(v))
    ensures HandleTool(servers, schemas, call, cb) == Raised(Exc(Other("Exception"), v))
  {
  }

  /** Loading one more listed tool overwrites its name's entry. */
  lemma LoadOneMore(base: map<string, Schema>, tools: seq<ToolInfo>, i: int)
    requires 0 <= i < |tools|
    ensures base + KeyedBy(tools[..i + 1], InfoName, InfoSchema) ==
      (base + KeyedBy(tools[..i], InfoName, InfoSchema))[tools[i].name := tools[i].inputSchema]
  {
    KeyedByExtend(tools, InfoName, InfoSchema, i);
  }

  class CodeMode {
    const sandbox: PythonSandbox
    /** Whether this CodeMode created its sandbox (and so closes it). */
    const internalSandbox: bool
    /** The keys of `config["mcpServers"]`. */
    const servers: set<string>
    const client: McpClient
    /** Whether the MCP client's session is open. */
    var clientOpen: bool
    var toolSchemas: map<string, Schema>

    /** Every server name is routed, in the sandbox, to `handle_tool` over
        the schemas loaded so far. */
    ghost predicate Registered()
      reads this`toolSchemas, sandbox`proxyTools
    {
      forall k :: k in servers ==>
        k in sandbox.proxyTools && sandbox.proxyTools[k] == BoundHandleTool(servers, toolSchemas, client.call)
    }

    /** `__init__`: uses the given sandbox or creates one with default
        settings, and adds a proxy per server to its `proxy_tools`. */
    constructor (mcpServers: map<string, Value>, given: PythonSandbox?, mcp: McpClient,
                 host: HostDirs, environ: map<string, string>)
      modifies given
      ensures internalSandbox == (given == null)
      ensures given != null ==> sandbox == given && sandbox.proxyTools == old(given.proxyTools) + Handlers(mcpServers.Keys, map[], mcp.call)
      ensures given != null ==> sandbox.client == old(given.client) && sandbox.env == old(given.env)
      ensures given != null ==> sandbox.staged == old(given.staged) && sandbox.stagingExists == old(given.stagingExists)
      ensures given == null ==> fresh(sandbox) && sandbox.Valid() && sandbox.proxyTools == Handlers(mcpServers.Keys, map[], mcp.call)
      ensures given == null ==>
        && sandbox.tools == map[] && sandbox.files == [] && sandbox.packages == [] && sandbox.globals == map[]
        && sandbox.env == map[] && sandbox.allowNet == AllowNet(false) && !sandbox.autoLoadPackages
        && sandbox.memoryLimit == 512 && sandbox.timeout == 60
        && sandbox.ownsOutputDir && sandbox.outputDir == host.tempOutputDir
        && sandbox.mounts.Keys == {FILES_MOUNT}
        && sandbox.client == NoClient && sandbox.staged == map[] && sandbox.stagingExists
      ensures servers == mcpServers.Keys && client == mcp
      ensures toolSchemas == map[] && !clientOpen
      ensures Registered()
    {
      var sb: PythonSandbox;
      if given == null {
        sb := new PythonSandbox(DefaultArgs(), host, environ);
      } else {
        sb := given;
      }
      sandbox := sb;
      internalSandbox := given == null;
      client := mcp;
      servers := mcpServers.Keys;
      sb.proxyTools := sb.proxyTools + Handlers(mcpServers.Keys, map[], mcp.call);
      toolSchemas := map[];
      clientOpen := false;
    }

    /** `load_tool_schemas`: each listed tool's schema under its name, the
        later of two same-named tools winning, added to the schemas already
        loaded. The registered handlers read the schemas when called; the
        model binds them anew to the loaded schemas. */
    method LoadToolSchemas()
      modifies this`toolSchemas, sandbox`proxyTools
      ensures toolSchemas == old(toolSchemas) + KeyedBy(client.tools, InfoName, InfoSchema)
      ensures sandbox.proxyTools == old(sandbox.proxyTools) + Handlers(servers, toolSchemas, client.call)
      ensures Registered()
    {
      ghost var base := toolSchemas;
      var tools := client.tools;
      var i := 0;
      while i < |tools|
        invariant 0 <= i <= |tools|
        invariant toolSchemas == base + KeyedBy(tools[..i], InfoName, InfoSchema)
        invariant sandbox.proxyTools == old(sandbox.proxyTools)
      {
        LoadOneMore(base, tools, i);
        toolSchemas := toolSchemas[tools[i].name := tools[i].inputSchema];
        i := i + 1;
      }
      assert tools[..i] == tools;
      BindHandlers();
    }

    /** Points every server's proxy entry at `handle_tool` over the current
        schemas, leaving the other entries as they are. */
    method BindHandlers()
      modifies sandbox`proxyTools
      ensures sandbox.proxyTools == old(sandbox.proxyTools) + Handlers(servers, toolSchemas, client.call)
      ensures Registered()
    {
      sandbox.proxyTools := sandbox.proxyTools + Handlers(servers, toolSchemas, client.call);
    }

    /** `__aenter__`: connects the sandbox, opens the MCP client (`clientEnter`
        is what its `__aenter__` raised, if anything) and loads the schemas.
        Returns, as `Connect` does, the worker's command line and the
        handshake payload when the sandbox was launched. */
    method Enter(enter: Option<string>, configureReply: Transport, hostFs: map<string, HostEntry>,
                 clientEnter: Option<Exc>)
      returns (c: Completion, launched: Option<seq<string>>, handshake: Option<ConfigurePayload>)
      requires sandbox.Valid()
      modifies sandbox`client, sandbox`env, sandbox`staged, sandbox`proxyTools, this`clientOpen, this`toolSchemas
      ensures sandbox.Valid()
      ensures c.Completed? ==> sandbox.IsConnected()
      ensures c.Completed? ==>
        clientOpen && Registered() && toolSchemas == old(toolSchemas) + KeyedBy(client.tools, InfoName, InfoSchema)
      ensures c.Threw? ==> toolSchemas == old(toolSchemas) && clientOpen == old(clientOpen)
      ensures old(sandbox.IsConnected()) ==> launched == None && handshake == None
      ensures !old(sandbox.IsConnected()) && sandbox.allowNet.AllowHosts? ==>
        c == Threw(LIST_HAS_NO_UPDATE) && launched == None && sandbox.client == old(sandbox.client)
      ensures !old(sandbox.IsConnected()) && sandbox.allowNet.AllowNet? ==>
        && launched == Some(DenoArgs(sandbox.Grants().value, sandbox.memoryLimit, sandbox.scriptPath))
        && (enter.Some? ==> c == Threw(Exc(RuntimeError, Str(enter.value))) && handshake == None)
        && (enter.None? ==> handshake == Some(old(sandbox.InitialRequest())))
      ensures clientEnter.Some? ==> c.Threw?
    {
      c, launched, handshake := sandbox.Connect(enter, configureReply, hostFs);
      if c.Threw? {
        return;
      }
      if clientEnter.Some? {
        return Threw(clientEnter.value), launched, handshake;
      }
      clientOpen := true;
      LoadToolSchemas();
    }

    /** `__aexit__`: closes the sandbox only if this CodeMode created it, and
        always closes the MCP client. */
    method Exit()
      requires sandbox.Valid()
      modifies sandbox`client, sandbox`staged, sandbox`stagingExists, this`clientOpen
      ensures sandbox.Valid() && !clientOpen
      ensures internalSandbox ==> !sandbox.IsConnected()
      ensures internalSandbox && old(sandbox.IsConnected()) ==> sandbox.staged == map[] && !sandbox.stagingExists
      ensures !internalSandbox ==>
        sandbox.client == old(sandbox.client) && sandbox.staged == old(sandbox.staged) &&
        sandbox.stagingExists == old(sandbox.stagingExists)
    {
      if internalSandbox {
        sandbox.Close();
      }
      clientOpen := false;
    }
  }
}

/** The `PythonSandbox` session of parselbox/main.py: construction and
    normalisation of the settings, the connect/close lifecycle, staging of
    input files, the `configure` handshake, `execute_python`, and the
    callback entry point. The worker process and the MCP transport are
    oracles passed in as parameters. */
module Session {
  import opened PyValues
  import opened Text
  import opened Errors
  import opened Dispatcher
  import opened SandboxConfig
  import opened LaunchPolicy
  import opened ErrorMapper

  // ---------------------------------------------------------------------------
  // Construction inputs
  // ---------------------------------------------------------------------------

  /** The constructor's arguments after `None` defaults: an empty `outputDir`
      stands for `output_dir=None` (or any other falsy value). */
  datatype SandboxArgs = SandboxArgs(
    tools: ToolsArg,
    proxyTools: map<string, ProxyFn>,
    files: seq<string>,
    mounts: MountsArg,
    outputDir: string,
    allowNet: NetSetting,
    packages: seq<string>,
    autoLoadPackages: bool,
    globals: map<string, Value>,
    env: EnvArg,
    memoryLimit: int,
    timeout: int)

  /** `PythonSandbox()` with every argument left at its default. */
  function DefaultArgs(): SandboxArgs
  {
    SandboxArgs(ToolDict(map[]), map[], [], MountDict(map[]), "", AllowNet(false),
                [], false, map[], EnvDict(map[]), 512, 60)
  }

  /** What the host supplies at construction: the home directory, the names of
      the two temporary directories created there, and the worker script. */
  datatype HostDirs = HostDirs(home: string, tempOutputDir: string, tempCacheDir: string, scriptPath: string)

  /** The `client` attribute: `None`, a client whose session is open, a
      client object left behind by a failed `__aenter__`, or a client whose
      transport ended (the worker exited or the pipe closed) and which
      therefore reports itself not connected. */
  datatype ClientState = NoClient | Live | Unusable | Dropped

  // ---------------------------------------------------------------------------
  // Staging (`upload_files`)
  // ---------------------------------------------------------------------------

  /** What `Path(path).resolve()` finds on the host: a regular file (its
      resolved path and its bytes) or anything else. */
  datatype HostEntry = RegularFile(resolved: string, content: seq<bv8>) | NotRegular

  /** `target_path.is_file()`; a path the host does not know is not a file. */
  predicate IsRegular(hostFs: map<string, HostEntry>, p: string)
  {
    p in hostFs && hostFs[p].RegularFile?
  }

  /** `target_path.name`: the name a regular file is staged under. */
  function StagedName(hostFs: map<string, HostEntry>, p: string): string
    requires IsRegular(hostFs, p)
  {
    BaseName(hostFs[p].resolved)
  }

  /** The names that staging the first `n` paths writes. */
  function NamesUpTo(paths: seq<string>, hostFs: map<string, HostEntry>, n: nat): set<string>
    requires n <= |paths|
  {
    set j | 0 <= j < n && IsRegular(hostFs, paths[j]) :: StagedName(hostFs, paths[j])
  }

  function StagedNames(paths: seq<string>, hostFs: map<string, HostEntry>): set<string>
  {
    NamesUpTo(paths, hostFs, |paths|)
  }

  /** The staging directory `after` results from staging the first `n` of
      `paths` into `before`: every regular file's name is added, holding the
      bytes of one of the inputs carrying that name, and every other entry is
      untouched. */
  ghost predicate StagedUpTo(before: map<string, seq<bv8>>, after: map<string, seq<bv8>>,
                             paths: seq<string>, hostFs: map<string, HostEntry>, n: nat)
    requires n <= |paths|
  {
    && after.Keys == before.Keys + NamesUpTo(paths, hostFs, n)
    && (forall k :: k in before && k !in NamesUpTo(paths, hostFs, n) ==> after[k] == before[k])
    && (forall k :: k in NamesUpTo(paths, hostFs, n) ==>
          exists j :: 0 <= j < n && IsRegular(hostFs, paths[j]) &&
            StagedName(hostFs, paths[j]) == k && after[k] == hostFs[paths[j]].content)
  }

  /** Staging all of `paths`. Which of several inputs with the same name is
      kept is left open, since the copies run concurrently. */
  ghost predicate Staged(before: map<string, seq<bv8>>, after: map<string, seq<bv8>>,
                         paths: seq<string>, hostFs: map<string, HostEntry>)
  {
    StagedUpTo(before, after, paths, hostFs, |paths|)
  }

  /** Copying one more path keeps the staging description. */
  lemma StagedUpToStep(before: map<string, seq<bv8>>, after: map<string, seq<bv8>>,
                       paths: seq<string>, hostFs: map<string, HostEntry>, i: nat)
    requires i < |paths| && StagedUpTo(before, after, paths, hostFs, i)
    ensures StagedUpTo(before,
      if IsRegular(hostFs, paths[i]) then after[StagedName(hostFs, paths[i]) := hostFs[paths[i]].content] else after,
      paths, hostFs, i + 1)
  {
    var done := NamesUpTo(paths, hostFs, i);
    var names := NamesUpTo(paths, hostFs, i + 1);
    NamesUpToStep(paths, hostFs, i);
    var next := if IsRegular(hostFs, paths[i])
      then after[StagedName(hostFs, paths[i]) := hostFs[paths[i]].content] else after;
    assert next.Keys == before.Keys + names;
    forall k | k in before && k !in names
      ensures next[k] == before[k]
    {
      assert k !in done;
    }
    forall k | k in names
      ensures exists j :: 0 <= j < i + 1 && IsRegular(hostFs, paths[j]) &&
                StagedName(hostFs, paths[j]) == k && next[k] == hostFs[paths[j]].content
    {
      if IsRegular(hostFs, paths[i]) && k == StagedName(hostFs, paths[i]) {
        assert next[k] == hostFs[paths[i]].content;
      } else {
        assert k in done;
        var j :| 0 <= j < i && IsRegular(hostFs, paths[j]) &&
                 StagedName(hostFs, paths[j]) == k && after[k] == hostFs[paths[j]].content;
        assert next[k] == after[k];
      }
    }
  }

  /** An input whose name no other input shares is staged with its own bytes,
      replacing whatever entry had that name. */
  lemma StagedUniqueName(before: map<string, seq<bv8>>, after: map<string, seq<bv8>>,
                         paths: seq<string>, hostFs: map<string, HostEntry>, i: int)
    requires Staged(before, after, paths, hostFs)
    requires 0 <= i < |paths| && IsRegular(hostFs, paths[i])
    requires forall j :: 0 <= j < |paths| && j != i && IsRegular(hostFs, paths[j]) ==>
               StagedName(hostFs, paths[j]) != StagedName(hostFs, paths[i])
    ensures StagedName(hostFs, paths[i]) in after
    ensures after[StagedName(hostFs, paths[i])] == hostFs[paths[i]].content
  {
    var k := StagedName(hostFs, paths[i]);
    assert k in StagedNames(paths, hostFs);
  }

  /** The end of `upload_files` on `paths`: it raises FileNotFoundError,
      touching nothing, exactly when the staging directory is gone and some
      path is a regular file; otherwise the files are staged. */
  ghost predicate Uploaded(c: Completion, before: map<string, seq<bv8>>, after: map<string, seq<bv8>>,
                           paths: seq<string>, stagingExists: bool, hostFs: map<string, HostEntry>)
  {
    && (c.Threw? <==> !stagingExists && StagedNames(paths, hostFs) != {})
    && (c.Threw? ==> c.exc.cls == FileNotFoundError && after == before)
    && (c.Completed? ==> Staged(before, after, paths, hostFs))
  }

  /** The end of `initialize`: the `configure` handshake (over a session
      that is or is not connected) either raises, touching nothing, or is
      followed by staging of the session's files. */
  ghost predicate Initialized(connected: bool, reply: Transport, c: Completion,
                              before: map<string, seq<bv8>>, after: map<string, seq<bv8>>,
                              files: seq<string>, stagingExists: bool, hostFs: map<string, HostEntry>)
  {
    var cfg := ConfigureOutcome(CallMcp(connected, reply));
    && (cfg.Err? ==> c == Threw(cfg.error) && after == before)
    && (cfg.Ok? ==> Uploaded(c, before, after, files, stagingExists, hostFs))
  }

  // ---------------------------------------------------------------------------
  // execute_python's result
  // ---------------------------------------------------------------------------

  /** The `execute_python` request payload. */
  datatype ExecuteRequest = ExecuteRequest(code: string, timeout: int, autoLoadPackages: bool)

  /** The `Result` dataclass. */
  datatype ExecResult = ExecResult(output: Value, files: seq<string>, error: Value)

  /** Iterating the `files` value for `os.path.join(output_dir, f)`: a list
      gives its elements, which must be strings; a string gives its
      characters; anything else is not iterable. */
  function FileNames(v: Value): (r: Result<seq<string>, Exc>)
    ensures r.Ok? <==> v.Str? || (v.Arr? && forall i :: 0 <= i < |v.items| ==> v.items[i].Str?)
    ensures r.Ok? && v.Arr? ==> |r.value| == |v.items| && forall i :: 0 <= i < |v.items| ==> r.value[i] == v.items[i].s
    ensures r.Ok? && v.Str? ==> |r.value| == |v.s| && forall i :: 0 <= i < |v.s| ==> r.value[i] == [v.s[i]]
    ensures r.Err? ==> r.error.cls == TypeError
  {
    match v
    case Str(s) => Ok(seq(|s|, i requires 0 <= i < |s| => [s[i]]))
    case Arr(items) =>
      if forall i :: 0 <= i < |items| ==> items[i].Str? then
        Ok(seq(|items|, i requires 0 <= i < |items| => items[i].s))
      else Err(Exc(TypeError, Str("join() argument must be str, bytes, or os.PathLike object")))
    case Null => Err(Exc(TypeError, Str("'NoneType' object is not iterable")))
    case Bool(_) => Err(Exc(TypeError, Str("'bool' object is not iterable")))
    case Num(_) => Err(Exc(TypeError, Str("'int' object is not iterable")))
    case Obj(_) => Err(Exc(TypeError, Str("'dict' object is not iterable")))
  }

  /** `[os.path.join(output_dir, f) for f in names]`. */
  function ResolveFiles(outputDir: string, names: seq<string>): (r: seq<string>)
    ensures |r| == |names|
  {
    seq(|names|, i requires 0 <= i < |names| => PathJoin(outputDir, names[i]))
  }

  /** Each returned plain file name resolves to a path inside the output
      directory whose last component is that name, at the same position. */
  lemma ResolvedFilesInOutputDir(outputDir: string, names: seq<string>, i: int)
    requires 0 <= i < |names|
    requires names[i] != "" && names[i] != "." && '/' !in names[i]
    ensures |ResolveFiles(outputDir, names)| == |names|
    ensures BaseName(ResolveFiles(outputDir, names)[i]) == names[i]
    ensures outputDir <= ResolveFiles(outputDir, names)[i]
  {
    BaseNameOfJoin(outputDir, names[i]);
  }

  /** The end of `execute_python` once `_call_mcp` has answered: the result,
      error and file names of the structured content. */
  function ExecutionResult(outputDir: string, called: Result<Option<Dict>, Exc>): (r: Result<ExecResult, Exc>)
    ensures called.Err? ==> r == Err(called.error)
    ensures called == Ok(None) ==> r == Err(NONE_HAS_NO_GET)
    ensures called.Ok? && called.value.Some? ==>
      var d := called.value.value;
      var names := FileNames(Get(d, "files", Arr([])));
      && (r.Ok? <==> names.Ok?)
      && (names.Err? ==> r == Err(names.error))
      && (r.Ok? ==> r.value.output == Get(d, "result", Null) && r.value.error == Get(d, "error", Null))
      && (r.Ok? ==> |r.value.files| == |names.value|)
      && (r.Ok? ==> forall i :: 0 <= i < |names.value| ==> r.value.files[i] == PathJoin(outputDir, names.value[i]))
      && (r.Ok? && "files" !in d ==> r.value.files == [])
  {
    match called
    case Err(e) => Err(e)
    case Ok(None) => Err(NONE_HAS_NO_GET)
    case Ok(Some(d)) =>
      match FileNames(Get(d, "files", Arr([])))
      case Err(e) => Err(e)
      case Ok(names) => Ok(ExecResult(Get(d, "result", Null), ResolveFiles(outputDir, names), Get(d, "error", Null)))
  }

  // ---------------------------------------------------------------------------
  // The session
  // ---------------------------------------------------------------------------

  class PythonSandbox {
    const tools: map<string, ToolFn>
    var proxyTools: map<string, ProxyFn>
    const denoCacheDir: string
    const outputDir: string
    const ownsOutputDir: bool
    const packageCacheDir: string
    const inputDir: string
    const scriptPath: string
    const files: seq<string>
    const mounts: map<string, string>
    const autoLoadPackages: bool
    const allowNet: NetSetting
    const globals: map<string, Value>
    var env: map<string, string>
    const packages: seq<string>
    const memoryLimit: int
    const timeout: int
    var client: ClientState
    /** The staging directory `input_dir`: file name to bytes. */
    var staged: map<string, seq<bv8>>
    /** Whether the staging directory exists (`close` removes it). */
    var stagingExists: bool

    /** The session's standing invariant: the "files" mount is the staging
        directory, and a removed staging directory holds nothing. */
    ghost predicate Valid()
      reads this`staged, this`stagingExists
    {
      && FILES_MOUNT in mounts && mounts[FILES_MOUNT] == inputDir
      && (!stagingExists ==> staged == map[])
    }

    /** `__init__`, with the Deno availability check assumed to succeed. */
    constructor (args: SandboxArgs, host: HostDirs, environ: map<string, string>)
      ensures Valid()
      ensures tools == NormaliseTools(args.tools) && proxyTools == args.proxyTools
      ensures denoCacheDir == PathJoin(PathJoin(PathJoin(host.home, ".cache"), "parselbox"), "deno_core")
      ensures ownsOutputDir == (args.outputDir == "")
      ensures outputDir == if args.outputDir != "" then args.outputDir else host.tempOutputDir
      ensures packageCacheDir == PathJoin(host.tempCacheDir, "package_cache_dir")
      ensures inputDir == PathJoin(host.tempCacheDir, "files")
      ensures mounts == NormaliseMounts(args.mounts, inputDir)
      ensures env == NormaliseEnv(args.env, environ)
      ensures files == args.files && packages == args.packages && globals == args.globals
      ensures allowNet == args.allowNet && autoLoadPackages == args.autoLoadPackages
      ensures memoryLimit == args.memoryLimit && timeout == args.timeout && scriptPath == host.scriptPath
      ensures client == NoClient && staged == map[] && stagingExists
    {
      tools := NormaliseTools(args.tools);
      proxyTools := args.proxyTools;
      denoCacheDir := PathJoin(PathJoin(PathJoin(host.home, ".cache"), "parselbox"), "deno_core");
      ownsOutputDir := args.outputDir == "";
      outputDir := if args.outputDir != "" then args.outputDir else host.tempOutputDir;
      packageCacheDir := PathJoin(host.tempCacheDir, "package_cache_dir");
      var stagingDir := PathJoin(host.tempCacheDir, "files");
      inputDir := stagingDir;
      files := args.files;
      mounts := NormaliseMounts(args.mounts, stagingDir);
      autoLoadPackages := args.autoLoadPackages;
      allowNet := args.allowNet;
      globals := args.globals;
      env := NormaliseEnv(args.env, environ);
      packages := args.packages;
      memoryLimit := args.memoryLimit;
      timeout := args.timeout;
      scriptPath := host.scriptPath;
      client := NoClient;
      staged := map[];
      stagingExists := true;
    }

    /** `is_connected()`: truthy only when a client object exists and that
        client reports an open session. */
    function IsConnected(): (r: bool)
      reads this`client
      ensures r ==> client != NoClient
      ensures client.Unusable? || client.Dropped? ==> !r
    {
      client == Live
    }

    /** The worker or its pipe goes away outside the host's control: the
        client object stays, and from now on reports not connected. */
    method Drop()
      modifies this`client
      ensures old(client) == Live ==> client == Dropped && !IsConnected()
      ensures old(client) != Live ==> client == old(client)
    {
      if client == Live {
        client := Dropped;
      }
    }

    /** The grants `_build_deno_args` computes for this session. */
    function Grants(): Result<Policy, Exc>
    {
      PolicyFor(mounts, inputDir, outputDir, denoCacheDir, packageCacheDir, allowNet)
    }

    /** The payload `initialize` sends for this session. */
    function InitialRequest(): ConfigurePayload
      reads this`proxyTools
    {
      InitialPayload(globals, mounts, outputDir, tools, proxyTools, packages, allowNet, autoLoadPackages)
    }

    /** `_build_deno_args`: the worker's command line, appended argument by
        argument, or the exception a list-valued `allow_net` raises. */
    method BuildDenoArgs() returns (r: Result<seq<string>, Exc>)
      ensures r.Ok? <==> allowNet.AllowNet?
      ensures r.Err? ==> r == Err(LIST_HAS_NO_UPDATE)
      ensures r.Ok? ==> Grants().Ok? && r.value == DenoArgs(Grants().value, memoryLimit, scriptPath)
    {
      var args := ["run"];
      var readWrite := [outputDir, denoCacheDir, packageCacheDir];
      var readOnly := mounts.Values + {inputDir} + Elems(readWrite);
      var readArg := "--allow-read=" + JoinWith(",", SortedSet(readOnly));
      var writeArg := "--allow-write=" + JoinWith(",", SortedSet(Elems(readWrite)));
      args := args + [readArg];
      args := args + [writeArg];
      if allowNet.AllowHosts? {
        return Err(LIST_HAS_NO_UPDATE);
      }
      var netArg := "--allow-net=" + JoinWith(",", SortedSet(Elems(PACKAGE_DOWNLOAD_DOMAINS)));
      var memoryArg := "--v8-flags=--max-old-space-size=" + Render(Num(memoryLimit));
      args := args + [netArg];
      args := args + [memoryArg];
      args := args + ["--allow-env"];
      args := args + [scriptPath];
      assert args == ["run", readArg, writeArg, netArg, memoryArg, "--allow-env", scriptPath];
      ArgsAreDenoArgs(mounts, inputDir, outputDir, denoCacheDir, packageCacheDir, allowNet.flag, memoryLimit, scriptPath);
      return Ok(args);
    }

    /** `_configure`: builds the payload key by key, calls `configure` and
        checks the answer. It changes nothing on the host. */
    method Configure(
      globalsArg: map<string, Value>, mountsArg: map<string, string>, outputDirArg: string,
      toolsArg: map<string, ToolFn>, proxyToolsArg: map<string, ProxyFn>, packagesArg: seq<string>,
      disableNet: Option<bool>, disableRuntimePackages: Option<bool>, reply: Transport)
      returns (r: Result<Dict, Exc>, payload: ConfigurePayload)
      ensures payload == PayloadOf(globalsArg, mountsArg, outputDirArg, toolsArg.Keys, proxyToolsArg.Keys,
                                   packagesArg, disableNet, disableRuntimePackages)
      ensures r == ConfigureOutcome(CallMcp(IsConnected(), reply))
    {
      payload := ConfigurePayload(None, None, None, None, None, None, None, None);
      if globalsArg != map[] { payload := payload.(globals := Some(globalsArg)); }
      if outputDirArg != "" { payload := payload.(outputDir := Some(outputDirArg)); }
      if mountsArg != map[] { payload := payload.(mounts := Some(mountsArg)); }
      if toolsArg.Keys != {} { payload := payload.(tools := Some(toolsArg.Keys)); }
      if proxyToolsArg.Keys != {} { payload := payload.(proxyTools := Some(proxyToolsArg.Keys)); }
      if packagesArg != [] { payload := payload.(packages := Some(packagesArg)); }
      if disableNet.Some? { payload := payload.(disableNet := disableNet); }
      if disableRuntimePackages.Some? { payload := payload.(disableRuntimePackages := disableRuntimePackages); }
      var called := CallMcp(IsConnected(), reply);
      r := ConfigureOutcome(called);
    }

    /** `upload_files`: copies each regular file among `paths` into the
        staging directory under its name, one after the other. Copying into a
        removed staging directory raises FileNotFoundError. */
    method UploadFiles(paths: seq<string>, hostFs: map<string, HostEntry>) returns (c: Completion)
      requires Valid()
      modifies this`staged
      ensures Valid()
      ensures Uploaded(c, old(staged), staged, paths, stagingExists, hostFs)
    {
      ghost var before := staged;
      var i := 0;
      while i < |paths|
        invariant 0 <= i <= |paths|
        invariant !stagingExists ==> staged == before && NamesUpTo(paths, hostFs, i) == {}
        invariant StagedUpTo(before, staged, paths, hostFs, i)
      {
        NamesUpToStep(paths, hostFs, i);
        StagedUpToStep(before, staged, paths, hostFs, i);
        if IsRegular(hostFs, paths[i]) {
          var name := StagedName(hostFs, paths[i]);
          if !stagingExists {
            assert name in StagedNames(paths, hostFs);
            return Threw(Exc(FileNotFoundError, Str(PathJoin(inputDir, name))));
          }
          staged := staged[name := hostFs[paths[i]].content];
        }
        i := i + 1;
      }
      assert Staged(before, staged, paths, hostFs);
      return Completed;
    }

    /** `initialize`: the `configure` handshake with this session's settings,
        then staging of the session's files. */
    method Initialize(reply: Transport, hostFs: map<string, HostEntry>) returns (c: Completion, payload: ConfigurePayload)
      requires Valid()
      modifies this`staged
      ensures Valid()
      ensures payload == InitialRequest()
      ensures Initialized(IsConnected(), reply, c, old(staged), staged, files, stagingExists, hostFs)
    {
      var disableNet := !NetTruthy(allowNet) && !autoLoadPackages;
      var r;
      r, payload := Configure(globals, mounts, outputDir, tools, proxyTools, packages,
                              Some(disableNet), Some(!autoLoadPackages), reply);
      if r.Err? {
        return Threw(r.error), payload;
      }
      c := UploadFiles(files, hostFs);
    }

    /** The three variables `connect` adds to the worker's environment. */
    method ExportWorkerEnv()
      modifies this`env
      ensures env == old(env)["PACKAGE_CACHE_DIR" := packageCacheDir]["DENO_DIR" := denoCacheDir]["MPLBACKEND" := "Agg"]
    {
      env := env["PACKAGE_CACHE_DIR" := packageCacheDir];
      env := env["DENO_DIR" := denoCacheDir];
      env := env["MPLBACKEND" := "Agg"];
    }

    /** A new client is created and its session opened; `enter` is the message
        `__aenter__` raised with, if it raised. On failure `close()` returns
        at once (the client is not connected), so the client object stays and
        the failure is re-raised as RuntimeError. */
    method OpenClient(enter: Option<string>) returns (c: Completion)
      modifies this`client
      ensures enter.Some? ==> client == Unusable && c == Threw(Exc(RuntimeError, Str(enter.value)))
      ensures enter.None? ==> client == Live && c == Completed
    {
      client := Unusable;
      if enter.Some? {
        return Threw(Exc(RuntimeError, Str(enter.value)));
      }
      client := Live;
      return Completed;
    }

    /** `connect`: nothing when connected; otherwise build the command line
        (a list-valued `allow_net` raises here, before anything changes) and
        `Launch` the worker with it. Returns the command line and handshake
        payload that were sent. */
    method Connect(enter: Option<string>, configureReply: Transport, hostFs: map<string, HostEntry>)
      returns (c: Completion, launched: Option<seq<string>>, handshake: Option<ConfigurePayload>)
      requires Valid()
      modifies this`client, this`env, this`staged
      ensures Valid()
      ensures old(IsConnected()) || allowNet.AllowHosts? ==>
        launched == None && handshake == None
        && client == old(client) && env == old(env) && staged == old(staged)
      ensures old(IsConnected()) ==> c == Completed
      ensures !old(IsConnected()) && allowNet.AllowHosts? ==> c == Threw(LIST_HAS_NO_UPDATE)
      ensures !old(IsConnected()) && allowNet.AllowNet? ==>
        && launched == Some(DenoArgs(Grants().value, memoryLimit, scriptPath))
        && Launched(old(env), old(staged), enter, configureReply, hostFs, c, handshake)
    {
      if IsConnected() {
        return Completed, None, None;
      }
      var args := BuildDenoArgs();
      if args.Err? {
        return Threw(args.error), None, None;
      }
      launched := Some(args.value);
      c, handshake := Launch(enter, configureReply, hostFs);
    }

    /** What starting the worker does, as seen from the state it started in. */
    ghost predicate Launched(env0: map<string, string>, staged0: map<string, seq<bv8>>,
                             enter: Option<string>, configureReply: Transport, hostFs: map<string, HostEntry>,
                             c: Completion, handshake: Option<ConfigurePayload>)
      reads this`client, this`env, this`staged, this`stagingExists, this`proxyTools
    {
      && env == env0["PACKAGE_CACHE_DIR" := packageCacheDir]["DENO_DIR" := denoCacheDir]["MPLBACKEND" := "Agg"]
      && (enter.Some? ==>
            && c == Threw(Exc(RuntimeError, Str(enter.value)))
            && client == Unusable && handshake == None && staged == staged0)
      && (enter.None? ==>
            && client == Live && handshake == Some(InitialRequest())
            && Initialized(true, configureReply, c, staged0, staged, files, stagingExists, hostFs))
    }

    /** The rest of `connect` once the command line is built: add the three
        worker variables to `env`, open the client and initialize. */
    method Launch(enter: Option<string>, configureReply: Transport, hostFs: map<string, HostEntry>)
      returns (c: Completion, handshake: Option<ConfigurePayload>)
      requires Valid()
      modifies this`client, this`env, this`staged
      ensures Valid()
      ensures Launched(old(env), old(staged), enter, configureReply, hostFs, c, handshake)
    {
      handshake := None;
      ExportWorkerEnv();
      c := OpenClient(enter);
      if c.Completed? {
        var payload;
        c, payload := Initialize(configureReply, hostFs);
        handshake := Some(payload);
      }
    }

    /** `close`: nothing unless connected; otherwise the client is dropped and
        the cache directory, with the staged files in it, is removed. */
    method Close()
      requires Valid()
      modifies this`client, this`staged, this`stagingExists
      ensures Valid()
      ensures !IsConnected()
      ensures old(IsConnected()) ==> client == NoClient && staged == map[] && !stagingExists
      ensures !old(IsConnected()) ==> unchanged(this)
    {
      if !IsConnected() {
        return;
      }
      staged := map[];
      stagingExists := false;
      client := NoClient;
    }

    /** `execute_python`: stages the per-call files (whether or not the
        session is connected), then runs `code` on the worker. Returns the
        result and the request that was sent, if any. */
    method ExecutePython(code: string, callFiles: seq<string>, hostFs: map<string, HostEntry>, reply: Transport)
      returns (r: Result<ExecResult, Exc>, sent: Option<ExecuteRequest>)
      requires Valid()
      modifies this`staged
      ensures Valid()
      ensures var failed := !stagingExists && StagedNames(callFiles, hostFs) != {};
        && (failed ==> r.Err? && r.error.cls == FileNotFoundError && sent == None && staged == old(staged))
        && (!failed ==> Staged(old(staged), staged, callFiles, hostFs))
        && (!failed ==> sent == (if IsConnected() then Some(ExecuteRequest(code, timeout, autoLoadPackages)) else None))
        && (!failed ==> r == ExecutionResult(outputDir, CallMcp(IsConnected(), reply)))
    {
      var up := UploadFiles(callFiles, hostFs);
      if up.Threw? {
        return Err(up.exc), None;
      }
      sent := if IsConnected() then Some(ExecuteRequest(code, timeout, autoLoadPackages)) else None;
      var called := CallMcp(IsConnected(), reply);
      r := ExecutionResult(outputDir, called);
    }

    /** `_handle_callback`: returns the value sent back to the worker for an
        inbound message, or raises. A registered handler's return value is
        passed through; every `Exception` becomes the two-key error payload;
        only an exception outside `Exception` is raised to the host. */
    function HandleCallback(msg: Incoming): (o: Outcome)
      reads this`proxyTools
      ensures var route := Route(msg, tools, proxyTools);
        var raised := RaisedBy(msg, tools, proxyTools);
        && (route.Some? && route.value.Returned? ==> o == Returned(route.value.value))
        && (o.Raised? <==> raised.Some? && !IsException(raised.value.cls))
        && (o.Raised? ==> o.exc == raised.value)
        && (raised.Some? && IsException(raised.value.cls) ==>
              o == Returned(Obj(map["__error__" := raised.value.arg,
                                    "__error_type__" := Str(ClassName(raised.value.cls))])))
    {
      DispatchContainsFailures(msg, tools, proxyTools);
      match Dispatch(msg, tools, proxyTools)
      case Escaped(e) => Raised(e)
      case r => Returned(Encode(r))
    }
  }

  /** The set of a three-element list. */
  lemma ElemsOfThree(x: string, y: string, z: string)
    ensures Elems([x, y, z]) == {x, y, z}
  {
    var s := [x, y, z];
    assert s[0] == x && s[1] == y && s[2] == z;
  }

  /** The sorted listings `_build_deno_args` forms are the grants of the policy. */
  lemma GrantsAreBuilt(mounts: map<string, string>, inputDir: string, outputDir: string,
                       denoCacheDir: string, packageCacheDir: string, flag: bool)
    ensures var p := PolicyFor(mounts, inputDir, outputDir, denoCacheDir, packageCacheDir, AllowNet(flag));
      && p.Ok?
      && p.value.read == SortedSet(mounts.Values + {inputDir} + {outputDir, denoCacheDir, packageCacheDir})
      && p.value.write == SortedSet({outputDir, denoCacheDir, packageCacheDir})
      && p.value.net == SortedSet(Elems(PACKAGE_DOWNLOAD_DOMAINS))
  {
    var p := PolicyFor(mounts, inputDir, outputDir, denoCacheDir, packageCacheDir, AllowNet(flag)).value;
    StrictlySortedUnique(p.write, SortedSet({outputDir, denoCacheDir, packageCacheDir}));
    StrictlySortedUnique(p.read, SortedSet(mounts.Values + {inputDir} + {outputDir, denoCacheDir, packageCacheDir}));
    StrictlySortedUnique(p.net, SortedSet(Elems(PACKAGE_DOWNLOAD_DOMAINS)));
  }

  /** The arguments `_build_deno_args` appends one by one form the command
      line of the policy's grants. */
  lemma ArgsAreDenoArgs(mounts: map<string, string>, inputDir: string, outputDir: string,
                        denoCacheDir: string, packageCacheDir: string, flag: bool,
                        memoryLimit: int, scriptPath: string)
    ensures var p := PolicyFor(mounts, inputDir, outputDir, denoCacheDir, packageCacheDir, AllowNet(flag));
      var readWrite := Elems([outputDir, denoCacheDir, packageCacheDir]);
      && p.Ok?
      && DenoArgs(p.value, memoryLimit, scriptPath) ==
           ["run",
            "--allow-read=" + JoinWith(",", SortedSet(mounts.Values + {inputDir} + readWrite)),
            "--allow-write=" + JoinWith(",", SortedSet(readWrite)),
            "--allow-net=" + JoinWith(",", SortedSet(Elems(PACKAGE_DOWNLOAD_DOMAINS))),
            "--v8-flags=--max-old-space-size=" + Render(Num(memoryLimit)),
            "--allow-env",
            scriptPath]
  {
    ElemsOfThree(outputDir, denoCacheDir, packageCacheDir);
    GrantsAreBuilt(mounts, inputDir, outputDir, denoCacheDir, packageCacheDir, flag);
  }

  /** One more path: the names grow by that path's name when it is a regular file. */
  lemma NamesUpToStep(paths: seq<string>, hostFs: map<string, HostEntry>, i: nat)
    requires i < |paths|
    ensures NamesUpTo(paths, hostFs, i + 1) ==
      NamesUpTo(paths, hostFs, i) + (if IsRegular(hostFs, paths[i]) then {StagedName(hostFs, paths[i])} else {})
  {
  }
}

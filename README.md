# parselbox session core, in Dafny

parselbox runs Python snippets in a Pyodide worker started under Deno. The
worker only gets the filesystem and network grants the host computes. While a
snippet runs, it can call back into host functions (tools) and proxy objects.
This project models the host side of that protocol:

- `PythonSandbox` (parselbox/main.py), as the class `Session.PythonSandbox`.
  This covers:
  - normalising the constructor's settings;
  - building the Deno command line and its read, write and network grants;
  - the connect/close lifecycle, the `configure` handshake and staging of
    input files;
  - `execute_python`, and the mapping of transport and worker failures to
    the sandbox's exception classes;
  - the dispatcher that answers the worker's callbacks.
- `CodeMode` (parselbox/codemode.py), as the class `CodeMode.CodeMode`. It
  registers one proxy per MCP server in a sandbox and forwards a proxy
  callback to the named tool of those servers, after validating the arguments
  against the tool's input schema.

Modules, one per file:

| file | module | models |
|---|---|---|
| values.dfy | `PyValues` | JSON-like values, Python truthiness, `dict.get`, `str()` of a value |
| text.dfy | `Text` | Python string order and `sorted(set(...))`, `','.join`, ASCII `str.lower`, `in` on strings, `os.path.join`, `Path(...).name` |
| dicts.dfy | `Dicts` | a dict comprehension (later duplicates win), `zip` |
| errors.dfy | `Errors` | the exception classes that can reach a caller or the worker |
| dispatcher.dfy | `Dispatcher` | `Callback`, host handlers, `_handle_callback` |
| config.dfy | `SandboxConfig` | the `__init__` normalisations and the `configure` payload |
| launch_policy.dfy | `LaunchPolicy` | the grants of `_build_deno_args` |
| error_mapper.dfy | `ErrorMapper` | `_call_mcp`, `_raise_for_error` and the check at the end of `_configure` |
| session.dfy | `Session` | the class `PythonSandbox`, staging and `execute_python`'s result |
| codemode.dfy | `CodeMode` | `handle_tool`, the proxy registration and the class `CodeMode` |

Everything outside the host process is a parameter of the model:

- the Deno process;
- the MCP client's `__aenter__`, and the answer a `call_tool` gives;
- the host's files, as a map from path to `RegularFile(resolved, bytes)` or
  `NotRegular`;
- the host environment and home directory;
- the MCP servers' tool list and tool calls;
- `jsonschema.validate`, as a function carried by each schema.

The staging directory is a map from file name to bytes, plus a flag saying
whether the directory still exists. `close()` deletes it.

Points where the code behaves in ways a reader might not expect. The model
follows the code in each case:

- **`allow_net`.**
  - A list of hosts is not added to the network grant. `_build_deno_args`
    calls `update` on a copy of a *list* (parselbox/main.py:148-150), so a
    list-valued `allow_net` makes `connect()` raise AttributeError before
    anything changes. tests/tests.py:271-287 opens a sandbox with a host
    list, and under this code that fails in `connect()`.
  - `allow_net=True` grants the three package registries, like `False`. The
    flag only decides the `disable_net` field of the handshake
    (parselbox/main.py:148-151, 195). tests/tests.py:289-303 expects any
    host to be reachable with `True`.
- **Read grant.** The writable paths are appended to the readable ones
  (parselbox/main.py:143), so the `--allow-read` grant contains the output
  directory and both caches.
- **Failed handshake.** `_configure` raises after the client's session was
  opened, and `connect()` does not close it (parselbox/main.py:192). The
  session stays connected, and a later `connect()` returns at once.
- **Failed client open.** `connect()` calls `close()` (parselbox/main.py:188-190),
  which returns at once because the client is not connected
  (parselbox/main.py:210-211). The client object stays behind, and the
  failure is raised as RuntimeError.
- **Reconnecting after `close()`.** `close()` deletes the cache directory,
  which holds the staging directory (parselbox/main.py:214). A later
  `connect()` therefore raises FileNotFoundError as soon as a regular file
  must be staged.
- **Lost worker.** When the worker goes away, the client reports itself not
  connected (`Session.PythonSandbox.Drop`). `close()` then returns without
  deleting anything, and `connect()` launches a new worker.
- **Callback failures.** `_handle_callback` catches `Exception` only
  (parselbox/main.py:246).
  - A handler that raises SystemExit, KeyboardInterrupt, GeneratorExit or
    asyncio.CancelledError propagates that exception to the host.
  - Every other exception reaches the worker as an error payload: a KeyError
    for an unknown name, an UnboundLocalError for an unknown callback type.

## Model

| member | source | states |
|---|---|---|
| Text.BelowIsStrictOrder | parselbox/main.py:145-146 | Python's string comparison, which `sorted` uses, is irreflexive, transitive and total on distinct strings: a strict total order |
| Text.SortedSet | parselbox/main.py:145-146 | `sorted(set(xs))` is strictly increasing, holds exactly the elements of the set, and lists each of them once |
| Text.StrictlySortedUnique | parselbox/main.py:145-146 | two strictly increasing lists with the same elements are equal, so the sorted listing of a set does not depend on how the set was enumerated |
| Text.SortedListingIsSortedSet | parselbox/main.py:151 | any strictly increasing listing of a set is its sorted listing |
| Text.Lower | parselbox/main.py:259 | `str.lower` keeps the length and leaves no capital letter A-Z. Each capital becomes its lower-case letter, and every other character is kept |
| Text.LowerIdempotent | parselbox/main.py:259 | lowering an already lowered message changes nothing |
| Text.BaseName | parselbox/main.py:115 | `Path(p).name` contains no separator |
| Text.BaseNameOfJoin | parselbox/main.py:354 | the last component of `os.path.join(d, n)` is `n`, for a plain file name `n` |
| Dicts.KeyedBy | parselbox/main.py:95 | a dict comprehension has a key exactly for the key of each listed element |
| Dicts.KeyedByLastWins | parselbox/main.py:115 | when no later element has the same key, an element's value is the one stored under its key |
| Dicts.KeyedByExtend | parselbox/codemode.py:39-40 | storing the listed entries one at a time builds, at each step, the comprehension over the prefix seen so far |
| Dispatcher.DispatchContainsFailures | parselbox/main.py:226-251 | the worker gets a value exactly when a registered handler returned one. An `Exception` raised by the handler or by decoding reaches the worker as the two-key payload with its argument and class name. An unregistered name is a KeyError carrying the name, and an unknown callback type an UnboundLocalError. Only SystemExit, KeyboardInterrupt, GeneratorExit and CancelledError escape, and then exactly the raised exception |
| SandboxConfig.NormaliseTools | parselbox/main.py:94-96 | a dict of tools is kept as given. A list is keyed by `__name__`, with one key per listed name |
| SandboxConfig.ToolListLaterWins | parselbox/main.py:95 | of listed tools sharing a `__name__`, the last one is registered |
| SandboxConfig.NormaliseMounts | parselbox/main.py:113-116 | "files" always names the staging directory. A dict keeps its other entries. A list is keyed by each path's last component |
| SandboxConfig.MountListLaterWins | parselbox/main.py:113-116 | of listed paths sharing a last component, the last one is mounted, except under "files", which stays the staging directory |
| SandboxConfig.NormaliseEnv | parselbox/main.py:122-124 | a dict is kept as given. A list keeps exactly the named variables that the host environment defines, with the host's values |
| SandboxConfig.PayloadOf | parselbox/main.py:290-313 | each of globals, output_dir, mounts, tools, proxy_tools and packages is sent exactly when truthy, with its value (tool names as key sets). The two flags are sent whenever they are given |
| SandboxConfig.InitialPayloadShape | parselbox/main.py:194-206 | the handshake always sends the mounts, with "files" bound to staging, and the output directory. `disable_net` is true exactly when `allow_net` is falsy and auto-loading is off. `disable_runtime_packages` is true exactly when auto-loading is off, so disabling the network implies it |
| LaunchPolicy.PolicyFor | parselbox/main.py:133-151 | a list-valued `allow_net` raises AttributeError. Otherwise the write grant is the sorted output, Deno-cache and package-cache directories. The read grant is the sorted mounts, staging and write paths, so it contains every writable path. The network grant is the sorted package registries |
| LaunchPolicy.NetGrantIsBaseline | parselbox/main.py:148-151 | `allow_net=True` and `allow_net=False` yield the same network grant: the three registries in sorted order |
| LaunchPolicy.GrantsAreTheSortedListings | parselbox/main.py:136-146 | any strictly increasing listing of the readable (writable) paths is the read (write) grant: the grants are reproducible |
| ErrorMapper.RaiseForError | parselbox/main.py:269-277 | raises exactly for the codes TIMEOUT and PERMISSION_DENIED, as SandboxTimeoutError or SandboxPermissionError, carrying the "error" field or "Unknown Error" |
| ErrorMapper.CallMcp | parselbox/main.py:253-267 | fails exactly when not connected, when the transport raised, or when the answer is an error. On success it returns the structured content. A failure is the not-connected RuntimeError or a sandbox error |
| ErrorMapper.ConnectionClosedIsClosed | parselbox/main.py:259 | a message containing "Connection closed" contains "closed" after lower-casing, so the first test of the condition is subsumed by the second |
| ErrorMapper.CallMcpClassifies | parselbox/main.py:253-277 | for each exception class (RuntimeError, SandboxRuntimeError, SandboxTimeoutError, SandboxPermissionError, SandboxError), the exact condition on the connection and the transport's answer under which a call fails with it |
| ErrorMapper.ConfigureOutcome | parselbox/main.py:315-319 | the handshake succeeds exactly when the call succeeded with content whose `is_success` is truthy. Failure keeps the call's exception, raises AttributeError on missing content, and otherwise raises the typed error for the code or SandboxError |
| Session.StagedUpToStep | parselbox/main.py:325-338 | copying one more path stages it under its name when it is a regular file and keeps the description of the staging directory |
| Session.StagedUniqueName | parselbox/main.py:330-338 | an input whose name no other input shares is staged with its own bytes, replacing any earlier file of that name |
| Session.FileNames | parselbox/main.py:354 | iterating the returned `files` succeeds exactly for a string (its characters) or a list of strings (its elements, in order). Anything else raises TypeError |
| Session.ResolveFiles | parselbox/main.py:354 | one joined path per returned name |
| Session.ResolvedFilesInOutputDir | parselbox/main.py:354 | each joined path starts with the output directory, and its last component is the returned name |
| Session.ExecutionResult | parselbox/main.py:353-360 | the call's exception is re-raised, and missing content raises AttributeError. Otherwise the output and error are the content's "result" and "error", and each returned file name is joined onto the output directory in order, with no files when the key is absent |
| Session.GrantsAreBuilt | parselbox/main.py:142-151 | the three sorted listings the method appends are the policy's read, write and network grants |
| Session.PythonSandbox.constructor | parselbox/main.py:66-131 | every setting after normalisation: tools, mounts and env as normalised, the default output directory when none is given, the cache and staging directories under the temporary cache directory, no client, and an empty staging directory |
| Session.PythonSandbox.IsConnected | parselbox/main.py:159-160 | connected only when a client object exists. A client whose open failed, or whose worker went away, is never connected |
| Session.PythonSandbox.Drop | parselbox/main.py:159-160 | losing the worker turns an open client into one that reports itself not connected. Any other client state is kept |
| Session.PythonSandbox.BuildDenoArgs | parselbox/main.py:133-157 | the argument list appended step by step is `run`, the three grants of the policy, the memory flag, `--allow-env` and the script, and it raises exactly for a list-valued `allow_net` |
| Session.PythonSandbox.Configure | parselbox/main.py:279-319 | the payload is built key by key as `PayloadOf` describes, and the outcome is the handshake check of the call's result |
| Session.PythonSandbox.UploadFiles | parselbox/main.py:321-342 | copying path by path stages every regular input under its name with the bytes of an input of that name and leaves every other staged file alone. Non-regular paths are skipped. It raises FileNotFoundError, changing nothing, exactly when the staging directory is gone and some input is a regular file |
| Session.PythonSandbox.Initialize | parselbox/main.py:194-207 | sends the session's own handshake payload. A failed handshake raises and stages nothing. Otherwise the session's files are staged |
| Session.PythonSandbox.ExportWorkerEnv | parselbox/main.py:168-170 | the worker environment gains the package cache, the Deno cache and the Agg plotting backend, and keeps its other variables |
| Session.PythonSandbox.OpenClient | parselbox/main.py:178-190 | a client that fails to open is left behind, unconnected, and the failure is raised as RuntimeError. Otherwise the session is connected |
| Session.PythonSandbox.Connect | parselbox/main.py:162-192 | a connected session is left alone. A list-valued `allow_net` raises before anything changes. Otherwise the worker is launched with the policy's command line and the environment is extended. A failed open raises RuntimeError; a successful one sends the session's handshake and then stages its files |
| Session.PythonSandbox.Launch | parselbox/main.py:168-192 | after the command line is built: environment, client, then handshake and staging, as `Connect` states |
| Session.PythonSandbox.Close | parselbox/main.py:209-217 | afterwards the session is not connected. Closing a connected session drops the client and deletes the staging directory with its files. Closing an unconnected one changes nothing |
| Session.PythonSandbox.ExecutePython | parselbox/main.py:344-360 | the per-call files are staged first, and a failed staging raises FileNotFoundError without sending anything. The request (code, timeout, auto-load flag) is sent only when connected, and the result is the call's outcome mapped as `ExecutionResult` states |
| Session.PythonSandbox.HandleCallback | parselbox/main.py:226-251 | returns the registered handler's value, or the two-key error payload for any `Exception`. It raises exactly when the exception is outside `Exception`, and then that exception |
| CodeMode.ForwardedName | parselbox/codemode.py:25 | the forwarded name always ends with the tool name. With one server it is the tool name. With several it is the server name, an underscore and the tool name |
| CodeMode.ForwardedNameUnambiguous | parselbox/codemode.py:25 | with several servers whose names have no underscore, distinct (server, tool) pairs are forwarded under distinct names |
| CodeMode.BindParams | parselbox/codemode.py:27-28 | the validated instance has a key for each keyword argument and for each property with a positional argument, and the keyword arguments override |
| CodeMode.BindPositional | parselbox/codemode.py:27-28 | a positional argument is bound to the property at its position unless a keyword argument of that name overrides it |
| CodeMode.HandleTool | parselbox/codemode.py:22-35 | the possible outcomes, each with its condition: TypeError without a path, IndexError for an empty path, KeyError for an unloaded tool or a schema without "properties", otherwise the validation error, the call's error, the content's decoding error, or an Exception carrying an error answer's content. It returns exactly when every step succeeds, and then gives the decoded content of the call made with the keyword arguments only |
| CodeMode.OnlyKeywordArgumentsForwarded | parselbox/codemode.py:28-30 | positional arguments only feed validation: once both validate, changing them does not change the outcome |
| CodeMode.Handlers | parselbox/codemode.py:19 | there is exactly one proxy entry per configured server |
| CodeMode.McpErrorBecomesErrorPayload | parselbox/codemode.py:33-34 | an error answer from an MCP tool reaches the script as the dispatcher's error payload, with the content as `__error__` and "Exception" as `__error_type__` |
| CodeMode.LoadOneMore | parselbox/codemode.py:39-40 | storing one more listed tool's schema overwrites that name's entry |
| CodeMode.CodeMode.constructor | parselbox/codemode.py:11-20 | the given sandbox is used, or a new one is created and owned. A new one has `PythonSandbox()`'s defaults: no tools, files, packages, globals or env; `allow_net=False`; no auto-loading; memory 512 and timeout 60; its own temporary output directory; only the "files" mount; no client and an empty staging directory. The proxy table gains one handler per server and keeps its other entries. No schemas are loaded, and a given sandbox's connection and staging are untouched |
| CodeMode.CodeMode.LoadToolSchemas | parselbox/codemode.py:37-40 | the schemas become the previous ones updated with every listed tool's schema, the later of two same-named tools winning, and every server's handler sees them |
| CodeMode.CodeMode.BindHandlers | parselbox/codemode.py:19 | every server's proxy entry becomes `handle_tool` over the current schemas, and the other entries are kept |
| CodeMode.CodeMode.Enter | parselbox/codemode.py:42-46 | connects the sandbox, opens the MCP client and loads the schemas. On success the sandbox is connected and every server is routed to the loaded schemas. Otherwise it raises: the list `allow_net` error, or RuntimeError when the worker's client fails to open, or the MCP client's failure, with the schemas and client state unchanged. When the sandbox is launched, returns its command line and its handshake payload |
| CodeMode.CodeMode.Exit | parselbox/codemode.py:48-51 | the MCP client is always closed. The sandbox is closed only when this CodeMode created it, and a given sandbox's connection and staging are left as they are |

## Left out

- Session.PythonSandbox.constructor: does not model the `deno --version` availability check or its RuntimeError, `deno_path`, `log_handler`, or the creation of the Deno cache directory. The check is an external process, and the others only reach the transport.
- Session.PythonSandbox.Connect: does not model the `StdioTransport` built from the command line, or `set_logging_level` when a log handler is given. The command line is returned as `launched` instead.
- Session.PythonSandbox.UploadFiles: when several inputs share a name, it states only that one of them is kept. The source copies them concurrently (`asyncio.gather` over a thread pool), so which one wins is not determined. Hard links and the copy fallback are not distinguished, since both leave the same bytes.
- Session.PythonSandbox.Drop: the worker going away is an event the model takes as an input. The model does not tie it to a failed call whose transport error mentions "closed"; such a call leaves the client as it was.
- Session.PythonSandbox.Close: does not model the removal of a temporary output directory. Only the staging directory, part of the cache directory, is part of the state.
- Session.FileNames: a JSON object in `files` is reported as TypeError, while Python would iterate its keys. The worker sends a list.
- Session.PythonSandbox.HandleCallback: the payload's `__error__` is the exception's argument, not its `str()`. For a KeyError, `str()` adds quotes around the key. Values that `json.dumps` cannot encode cannot arise in the model.
- CodeMode.CodeMode.LoadToolSchemas: in Python the registered bound method reads `tool_schemas` when called. In the model each handler is a value over the schemas, so the handlers are re-bound after loading.
- CodeMode.CodeMode.constructor: takes the `mcpServers` dict directly. It does not model a configuration without that key (a KeyError), or `fastmcp.Client`'s own reading of the configuration.
- CodeMode.CodeMode.Enter: `list_tools()` raising is not modelled. It returns `self.sandbox`, which is not represented.
- `CodeMode.__getattr__` (delegation of unknown attributes to the sandbox) is Python attribute plumbing with nothing to state.
- Aliasing: `mounts`, `env` and `proxy_tools` dicts given by the caller are updated in place by the source. The model copies them, so a caller's own dict is not shown changing.
- Dict key order: tool and proxy names are sent as sets of keys, and the order of `list(d.keys())` is not modelled.
- `str.lower` is modelled for ASCII letters only. `str()` of a non-string exception argument is a rendering of the value, not Python's `repr` rules.
- `Path.home() / ".cache"` and `Path(tmp) / "files"` are modelled with `os.path.join` rules. They agree for the relative components used.
- `Launch`, `OpenClient`, `ExportWorkerEnv`, `BindHandlers` and `Initialize`'s call to `Configure` are steps of `connect` and `load_tool_schemas` given names of their own. They are not separate operations of the source.
- Deno, Pyodide and the worker script (parselbox/sandbox/sandbox.ts) are not part of this model. Neither are parselbox/mcp.py, examples/demo.py, the `run()` entry point, timeouts inside the worker, memory-limit enforcement, JSON encoding and the MCP wire format. The worker's answers are parameters.

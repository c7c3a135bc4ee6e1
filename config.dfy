/** The configuration that `PythonSandbox.__init__` normalises, and the
    payload of the `configure` handshake built from it. */
module SandboxConfig {
  import opened PyValues
  import opened Text
  import opened Dicts
  import opened Dispatcher

  /** A host function passed in a tools list; `name` is its `__name__`. */
  datatype NamedTool = NamedTool(name: string, run: ToolFn)

  function ToolName(t: NamedTool): string { t.name }
  function ToolRun(t: NamedTool): ToolFn { t.run }
  function SamePath(p: string): string { p }

  /** The `tools` argument: a list of functions or a dict by name (`None` is the empty dict). */
  datatype ToolsArg = ToolList(fns: seq<NamedTool>) | ToolDict(byName: map<string, ToolFn>)

  /** The `mounts` argument: a list of host paths or a dict by mount name (`None` is the empty dict). */
  datatype MountsArg = MountList(paths: seq<string>) | MountDict(byName: map<string, string>)

  /** The `env` argument: names to copy from the host environment, or a dict (`None` is the empty dict). */
  datatype EnvArg = EnvList(names: seq<string>) | EnvDict(vars: map<string, string>)

  /** The `allow_net` argument: a flag or a list of hosts. */
  datatype NetSetting = AllowNet(flag: bool) | AllowHosts(hosts: seq<string>)

  /** The mount name reserved for the staging directory. */
  const FILES_MOUNT: string := "files"

  /** `self.tools`: a list becomes a dict keyed by `__name__`. */
  function NormaliseTools(t: ToolsArg): (m: map<string, ToolFn>)
    ensures t.ToolDict? ==> m == t.byName
    ensures t.ToolList? ==> forall k :: k in m <==> exists i :: 0 <= i < |t.fns| && t.fns[i].name == k
  {
    match t
    case ToolList(fs) => KeyedBy(fs, ToolName, ToolRun)
    case ToolDict(m) => m
  }

  /** Of two listed functions with the same `__name__`, the later one is kept. */
  lemma ToolListLaterWins(fs: seq<NamedTool>, i: int)
    requires 0 <= i < |fs|
    requires forall j :: i < j < |fs| ==> fs[j].name != fs[i].name
    ensures fs[i].name in NormaliseTools(ToolList(fs))
    ensures NormaliseTools(ToolList(fs))[fs[i].name] == fs[i].run
  {
    KeyedByLastWins(fs, ToolName, ToolRun, i);
  }

  /** `self.mounts`: a list becomes a dict keyed by each path's last
      component, then "files" is set to the staging directory. */
  function NormaliseMounts(m: MountsArg, inputDir: string): (r: map<string, string>)
    ensures FILES_MOUNT in r && r[FILES_MOUNT] == inputDir
    ensures m.MountDict? ==> r.Keys == m.byName.Keys + {FILES_MOUNT}
    ensures m.MountDict? ==> forall k :: k in m.byName && k != FILES_MOUNT ==> r[k] == m.byName[k]
    ensures m.MountList? ==> forall k :: k in r <==>
      k == FILES_MOUNT || exists i :: 0 <= i < |m.paths| && BaseName(m.paths[i]) == k
  {
    var named := match m
      case MountList(ps) => KeyedBy(ps, BaseName, SamePath)
      case MountDict(d) => d;
    named[FILES_MOUNT := inputDir]
  }

  /** Of two listed paths with the same last component, the later one is
      mounted, unless that component is "files", which always names the
      staging directory. */
  lemma MountListLaterWins(paths: seq<string>, inputDir: string, i: int)
    requires 0 <= i < |paths|
    requires forall j :: i < j < |paths| ==> BaseName(paths[j]) != BaseName(paths[i])
    ensures BaseName(paths[i]) in NormaliseMounts(MountList(paths), inputDir)
    ensures NormaliseMounts(MountList(paths), inputDir)[BaseName(paths[i])] ==
      if BaseName(paths[i]) == FILES_MOUNT then inputDir else paths[i]
  {
    KeyedByLastWins(paths, BaseName, SamePath, i);
  }

  /** `self.env`: a list keeps only the variables present in the host environment. */
  function NormaliseEnv(e: EnvArg, environ: map<string, string>): (r: map<string, string>)
    ensures e.EnvDict? ==> r == e.vars
    ensures e.EnvList? ==> r.Keys == Elems(e.names) * environ.Keys
    ensures e.EnvList? ==> forall k :: k in r ==> r[k] == environ[k]
  {
    match e
    case EnvList(names) => map k | k in names && k in environ :: environ[k]
    case EnvDict(d) => d
  }

  /** `bool(self.allow_net)`. */
  predicate NetTruthy(n: NetSetting)
  {
    match n
    case AllowNet(b) => b
    case AllowHosts(hs) => hs != []
  }

  /** The `configure` request. A field is `None` when `_configure` leaves the
      key out; tool and proxy names are sent as key lists (their order is
      not modelled). */
  datatype ConfigurePayload = ConfigurePayload(
    globals: Option<map<string, Value>>,
    outputDir: Option<string>,
    mounts: Option<map<string, string>>,
    tools: Option<set<string>>,
    proxyTools: Option<set<string>>,
    packages: Option<seq<string>>,
    disableNet: Option<bool>,
    disableRuntimePackages: Option<bool>)

  /** The payload `_configure` builds from its arguments: each of the first
      six only when truthy, the two flags whenever they are not `None`. */
  function PayloadOf(
    globals: map<string, Value>, mounts: map<string, string>, outputDir: string,
    toolNames: set<string>, proxyNames: set<string>, packages: seq<string>,
    disableNet: Option<bool>, disableRuntimePackages: Option<bool>): (p: ConfigurePayload)
    ensures p.globals.Some? <==> globals != map[]
    ensures p.mounts.Some? <==> mounts != map[]
    ensures p.outputDir.Some? <==> outputDir != ""
    ensures p.tools.Some? <==> toolNames != {}
    ensures p.proxyTools.Some? <==> proxyNames != {}
    ensures p.packages.Some? <==> packages != []
    ensures p.globals.Some? ==> p.globals.value == globals
    ensures p.mounts.Some? ==> p.mounts.value == mounts
    ensures p.outputDir.Some? ==> p.outputDir.value == outputDir
    ensures p.tools.Some? ==> p.tools.value == toolNames
    ensures p.proxyTools.Some? ==> p.proxyTools.value == proxyNames
    ensures p.packages.Some? ==> p.packages.value == packages
    ensures p.disableNet == disableNet && p.disableRuntimePackages == disableRuntimePackages
  {
    ConfigurePayload(
      if globals != map[] then Some(globals) else None,
      if outputDir != "" then Some(outputDir) else None,
      if mounts != map[] then Some(mounts) else None,
      if toolNames != {} then Some(toolNames) else None,
      if proxyNames != {} then Some(proxyNames) else None,
      if packages != [] then Some(packages) else None,
      disableNet,
      disableRuntimePackages)
  }

  /** The payload `initialize` sends for a session's settings. */
  function InitialPayload(
    globals: map<string, Value>, mounts: map<string, string>, outputDir: string,
    tools: map<string, ToolFn>, proxies: map<string, ProxyFn>, packages: seq<string>,
    allowNet: NetSetting, autoLoadPackages: bool): ConfigurePayload
  {
    PayloadOf(globals, mounts, outputDir, tools.Keys, proxies.Keys, packages,
      Some(!NetTruthy(allowNet) && !autoLoadPackages), Some(!autoLoadPackages))
  }

  /** For a normalised session the handshake always sends the mount table with
      "files" bound to the staging directory, the output directory, and both
      flags: networking is disabled exactly when `allow_net` is falsy and
      automatic package loading is off, runtime packages exactly when
      automatic loading is off. */
  lemma InitialPayloadShape(
    globals: map<string, Value>, mountsArg: MountsArg, inputDir: string, outputDir: string,
    tools: map<string, ToolFn>, proxies: map<string, ProxyFn>, packages: seq<string>,
    allowNet: NetSetting, autoLoadPackages: bool)
    requires outputDir != ""
    ensures var p := InitialPayload(globals, NormaliseMounts(mountsArg, inputDir), outputDir,
                                    tools, proxies, packages, allowNet, autoLoadPackages);
      && p.mounts.Some? && FILES_MOUNT in p.mounts.value && p.mounts.value[FILES_MOUNT] == inputDir
      && p.outputDir == Some(outputDir)
      && p.disableNet == Some(!NetTruthy(allowNet) && !autoLoadPackages)
      && p.disableRuntimePackages == Some(!autoLoadPackages)
      && (p.tools.Some? <==> tools != map[])
      && (p.disableNet == Some(true) ==> p.disableRuntimePackages == Some(true))
  {
    var mounts := NormaliseMounts(mountsArg, inputDir);
    assert FILES_MOUNT in mounts;
    assert tools != map[] <==> tools.Keys != {} by {
      if tools != map[] {
        var k :| k in tools;
        assert k in tools.Keys;
      }
    }
  }
}

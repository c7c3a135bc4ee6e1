/** The launch policy of the worker (`PythonSandbox._build_deno_args`): the
    readable, writable and network grants passed to the Deno process, each
    deduplicated and sorted so that the arguments depend only on the
    configuration. */
module LaunchPolicy {
  import opened PyValues
  import opened Text
  import opened Errors
  import opened SandboxConfig

  /** Package registries the worker may always reach. */
  const PACKAGE_DOWNLOAD_DOMAINS: seq<string> :=
    ["cdn.jsdelivr.net:443", "pypi.org:443", "files.pythonhosted.org:443"]

  /** The exception `allowed_domains.update(...)` raises: a copied list has no `update`. */
  const LIST_HAS_NO_UPDATE: Exc := Exc(AttributeError, Str("'list' object has no attribute 'update'"))

  datatype Policy = Policy(read: seq<string>, write: seq<string>, net: seq<string>)

  /** The paths the worker may write: output directory and the two caches. */
  function WriteSet(outputDir: string, denoCacheDir: string, packageCacheDir: string): set<string>
  {
    {outputDir, denoCacheDir, packageCacheDir}
  }

  /** The grants for a session's settings. A list-valued `allow_net` raises;
      a flag, whatever its value, grants the package registries only. */
  function PolicyFor(
    mounts: map<string, string>, inputDir: string, outputDir: string,
    denoCacheDir: string, packageCacheDir: string, allowNet: NetSetting): (r: Result<Policy, Exc>)
    ensures r.Ok? <==> allowNet.AllowNet?
    ensures r.Err? ==> r.error == LIST_HAS_NO_UPDATE
    ensures r.Ok? ==> StrictlySorted(r.value.write)
    ensures r.Ok? ==> Elems(r.value.write) == {outputDir, denoCacheDir, packageCacheDir}
    ensures r.Ok? ==> StrictlySorted(r.value.read)
    ensures r.Ok? ==> Elems(r.value.read) == mounts.Values + {inputDir} + Elems(r.value.write)
    ensures r.Ok? ==> forall p :: p in r.value.write ==> p in r.value.read
    ensures r.Ok? ==> StrictlySorted(r.value.net) && Elems(r.value.net) == Elems(PACKAGE_DOWNLOAD_DOMAINS)
  {
    if allowNet.AllowHosts? then Err(LIST_HAS_NO_UPDATE)
    else
      var writes := WriteSet(outputDir, denoCacheDir, packageCacheDir);
      var write := SortedSet(writes);
      var read := SortedSet(mounts.Values + {inputDir} + writes);
      var net := SortedSet(Elems(PACKAGE_DOWNLOAD_DOMAINS));
      assert forall p :: p in write ==> p in Elems(write);
      assert forall p :: p in Elems(read) ==> p in read;
      Ok(Policy(read, write, net))
  }

  /** The network grant is the three registries in sorted order, the same for
      `allow_net=True` and `allow_net=False`. */
  lemma NetGrantIsBaseline(
    mounts: map<string, string>, inputDir: string, outputDir: string,
    denoCacheDir: string, packageCacheDir: string, flag: bool)
    ensures PolicyFor(mounts, inputDir, outputDir, denoCacheDir, packageCacheDir, AllowNet(flag)).Ok?
    ensures PolicyFor(mounts, inputDir, outputDir, denoCacheDir, packageCacheDir, AllowNet(flag)).value.net ==
      ["cdn.jsdelivr.net:443", "files.pythonhosted.org:443", "pypi.org:443"]
  {
    var sorted: seq<string> := ["cdn.jsdelivr.net:443", "files.pythonhosted.org:443", "pypi.org:443"];
    assert Below(sorted[0], sorted[1]) && Below(sorted[1], sorted[2]) && Below(sorted[0], sorted[2]);
    assert Elems(sorted) == Elems(PACKAGE_DOWNLOAD_DOMAINS) by {
      assert sorted[0] == PACKAGE_DOWNLOAD_DOMAINS[0];
      assert sorted[1] == PACKAGE_DOWNLOAD_DOMAINS[2];
      assert sorted[2] == PACKAGE_DOWNLOAD_DOMAINS[1];
    }
    SortedListingIsSortedSet(sorted, Elems(PACKAGE_DOWNLOAD_DOMAINS));
  }

  /** The grants do not depend on the order in which the mounts are listed:
      any strictly increasing list of the readable (writable) paths, which is
      what `sorted(set(...))` returns for any enumeration of them, is the read
      (write) grant. */
  lemma GrantsAreTheSortedListings(
    mounts: map<string, string>, inputDir: string, outputDir: string,
    denoCacheDir: string, packageCacheDir: string, flag: bool, read: seq<string>, write: seq<string>)
    requires StrictlySorted(read) && Elems(read) == mounts.Values + {inputDir} + {outputDir, denoCacheDir, packageCacheDir}
    requires StrictlySorted(write) && Elems(write) == {outputDir, denoCacheDir, packageCacheDir}
    ensures PolicyFor(mounts, inputDir, outputDir, denoCacheDir, packageCacheDir, AllowNet(flag)).value.read == read
    ensures PolicyFor(mounts, inputDir, outputDir, denoCacheDir, packageCacheDir, AllowNet(flag)).value.write == write
  {
    var p := PolicyFor(mounts, inputDir, outputDir, denoCacheDir, packageCacheDir, AllowNet(flag));
    StrictlySortedUnique(read, p.value.read);
    StrictlySortedUnique(write, p.value.write);
  }

  /** The argument vector of `deno` for a policy. */
  function DenoArgs(p: Policy, memoryLimit: int, scriptPath: string): seq<string>
  {
    ["run",
     "--allow-read=" + JoinWith(",", p.read),
     "--allow-write=" + JoinWith(",", p.write),
     "--allow-net=" + JoinWith(",", p.net),
     "--v8-flags=--max-old-space-size=" + Render(Num(memoryLimit)),
     "--allow-env",
     scriptPath]
  }
}

/**
 * Where the registry file comes from, in order of precedence: an explicit
 * path, the `SKILLMESH_REGISTRY` environment variable, the example registry
 * of the repository the package runs from, and the registry bundled with the
 * package.  The file system is abstract: which paths exist, and what
 * `expanduser().resolve()` makes of a path.
 */
module Resolve {
  import opened Wrappers
  import opened Text

  /** What the resolver can observe of the machine it runs on. */
  datatype Host = Host(
    /** `Path(p).exists()`. */
    present: string -> bool,
    /** `Path(p).expanduser().resolve()`. */
    canonical: string -> string,
    /** `os.getenv("SKILLMESH_REGISTRY", "")`: the empty string when unset. */
    registryEnv: string,
    /** `Path(__file__).resolve().parents`: the module's directory first, then upward to the root. */
    moduleParents: seq<string>,
    /** `bundled_registry_path()`. */
    bundled: string)

  datatype ResolveError =
    | RegistryNotFound(path: string)
    | EnvRegistryMissing(path: string)
    | MissingRegistryPath

  /** The text of the `ValueError` each failure raises. */
  function Message(e: ResolveError): string {
    match e
    case RegistryNotFound(p) => "Registry not found: " + p
    case EnvRegistryMissing(p) => "SKILLMESH_REGISTRY points to a missing file: " + p
    case MissingRegistryPath =>
      "Missing registry path. Provide --registry, set SKILLMESH_REGISTRY, "
      + "or install skillmesh[mcp] for the bundled registry."
  }

  /** `Path(dir) / rel` for a relative `rel`. */
  function Child(dir: string, rel: string): string {
    if |dir| > 0 && dir[|dir| - 1] == '/' then dir + rel else dir + "/" + rel
  }

  /** The two paths whose presence marks the repository root. */
  const MainMarker: string := "src/skill_registry_rag/__main__.py"
  const RegistryMarker: string := "examples/registry/tools.json"

  /** `all((dir / marker).exists() for marker in markers)`. */
  predicate IsRepoRoot(host: Host, dir: string) {
    host.present(Child(dir, MainMarker)) && host.present(Child(dir, RegistryMarker))
  }

  /** `[here.parent, *here.parents]`: the module's directory is looked at twice. */
  function Candidates(parents: seq<string>): (r: seq<string>)
    ensures |parents| > 0 ==> r == [parents[0]] + parents
  {
    if |parents| > 0 then [parents[0]] + parents else []
  }

  /** The first directory of `dirs` that is a repository root, if any. */
  function FirstRoot(host: Host, dirs: seq<string>): (r: Option<nat>)
    ensures r.Some? ==> r.value < |dirs| && IsRepoRoot(host, dirs[r.value])
    ensures r.Some? ==> forall j :: 0 <= j < r.value ==> !IsRepoRoot(host, dirs[j])
    ensures r.None? <==> forall j :: 0 <= j < |dirs| ==> !IsRepoRoot(host, dirs[j])
  {
    if |dirs| == 0 then None
    else if IsRepoRoot(host, dirs[0]) then Some(0)
    else
      var rest := FirstRoot(host, dirs[1..]);
      assert forall j :: 1 <= j < |dirs| ==> dirs[j] == dirs[1..][j - 1];
      if rest.Some? then Some(rest.value + 1) else None
  }

  /**
   * `_find_repo_root()`: the nearest ancestor of the module, from its own
   * directory upward, that holds both markers, or `None`.
   */
  function FindRepoRoot(host: Host): (r: Option<string>)
    ensures r.Some? ==> IsRepoRoot(host, r.value) && r.value in host.moduleParents
    ensures r.Some? ==> exists i :: 0 <= i < |host.moduleParents| && host.moduleParents[i] == r.value
                                    && forall j :: 0 <= j < i ==> !IsRepoRoot(host, host.moduleParents[j])
    ensures r.None? <==> forall j :: 0 <= j < |host.moduleParents| ==> !IsRepoRoot(host, host.moduleParents[j])
  {
    var dirs := Candidates(host.moduleParents);
    var i := FirstRoot(host, dirs);
    CandidatesSameRoot(host, host.moduleParents);
    if i.Some? then Some(dirs[i.value]) else None
  }

  /** Looking at the module's directory twice finds the same root as looking once. */
  lemma CandidatesSameRoot(host: Host, parents: seq<string>)
    ensures var a, b := FirstRoot(host, Candidates(parents)), FirstRoot(host, parents);
      && a.None? == b.None?
      && (a.Some? ==> Candidates(parents)[a.value] == parents[b.value])
  {
    if |parents| > 0 {
      var dirs := Candidates(parents);
      assert dirs[1..] == parents;
    }
  }

  /** `repo_root / "examples" / "registry" / "tools.json"`. */
  function RepoRegistry(root: string): string {
    Child(Child(Child(root, "examples"), "registry"), "tools.json")
  }

  /**
   * `_default_registry_path()`: a non-blank `SKILLMESH_REGISTRY` decides
   * alone (an error when its file is missing); otherwise the repository's
   * example registry if it exists, then the bundled registry if it exists,
   * then nothing.
   */
  function DefaultRegistryPath(host: Host): (r: Result<Option<string>, ResolveError>)
    ensures r.Ok? && r.value.Some? ==> host.present(r.value.value)
    ensures r.Err? ==> r.error.EnvRegistryMissing? && Strip(host.registryEnv) != []
  {
    var env := Strip(host.registryEnv);
    if env != [] then
      var candidate := host.canonical(env);
      if !host.present(candidate) then Err(EnvRegistryMissing(candidate)) else Ok(Some(candidate))
    else
      var root := FindRepoRoot(host);
      if root.Some? && host.present(host.canonical(RepoRegistry(root.value))) then
        Ok(Some(host.canonical(RepoRegistry(root.value))))
      else if host.present(host.bundled) then Ok(Some(host.bundled))
      else Ok(None)
  }

  /**
   * `resolve_registry_path(registry)`: a non-blank explicit path decides
   * alone (an error when it does not exist), otherwise the default path, and
   * an error when there is none.  `None` is passed as the empty string, which
   * the source treats the same way.  Whatever path comes back exists.
   */
  function ResolveRegistryPath(registry: string, host: Host): (r: Result<string, ResolveError>)
    ensures r.Ok? ==> host.present(r.value)
    ensures r.Err? && r.error.RegistryNotFound? ==> Strip(registry) != []
    ensures r.Err? && !r.error.RegistryNotFound? ==> Strip(registry) == []
  {
    if Strip(registry) != [] then
      var candidate := host.canonical(registry);
      if !host.present(candidate) then Err(RegistryNotFound(candidate)) else Ok(candidate)
    else
      match DefaultRegistryPath(host)
      case Err(e) => Err(e)
      case Ok(None) => Err(MissingRegistryPath)
      case Ok(Some(p)) => Ok(p)
  }

  /**
   * A non-blank explicit path always wins: the environment variable, the
   * repository and the bundled registry are never consulted, and the result
   * is the resolved path exactly when it exists.
   */
  lemma ExplicitPathWins(registry: string, host: Host, env: string, parents: seq<string>, bundled: string)
    requires Strip(registry) != []
    ensures var r := ResolveRegistryPath(registry, host);
      && r == ResolveRegistryPath(registry, host.(registryEnv := env, moduleParents := parents, bundled := bundled))
      && (r.Ok? <==> host.present(host.canonical(registry)))
      && (r.Ok? ==> r.value == host.canonical(registry))
  {
  }

  /**
   * Without an explicit path, a non-blank `SKILLMESH_REGISTRY` decides alone:
   * its resolved file when it exists, an error naming it otherwise; the
   * repository and the bundled registry are not consulted.
   */
  lemma EnvironmentWins(registry: string, host: Host, parents: seq<string>, bundled: string)
    requires Strip(registry) == [] && Strip(host.registryEnv) != []
    ensures var r := ResolveRegistryPath(registry, host);
      var candidate := host.canonical(Strip(host.registryEnv));
      && r == ResolveRegistryPath(registry, host.(moduleParents := parents, bundled := bundled))
      && r == (if host.present(candidate) then Ok(candidate) else Err(EnvRegistryMissing(candidate)))
  {
  }

  /**
   * With neither an explicit path nor the environment variable, the
   * repository's example registry is preferred to the bundled one whenever
   * the repository root is found and the example registry exists.
   */
  lemma RepositoryBeforeBundled(registry: string, host: Host, bundled: string)
    requires Strip(registry) == [] && Strip(host.registryEnv) == []
    requires FindRepoRoot(host).Some? && host.present(host.canonical(RepoRegistry(FindRepoRoot(host).value)))
    ensures var r := ResolveRegistryPath(registry, host);
      && r == Ok(host.canonical(RepoRegistry(FindRepoRoot(host).value)))
      && r == ResolveRegistryPath(registry, host.(bundled := bundled))
  {
    var h2 := host.(bundled := bundled);
    assert FindRepoRoot(h2) == FindRepoRoot(host) by {
      assert forall d :: IsRepoRoot(h2, d) == IsRepoRoot(host, d);
      SameRootsSameResult(host, h2);
    }
  }

  /** Two hosts that agree on the file system and the module's location find the same repository root. */
  lemma SameRootsSameResult(h1: Host, h2: Host)
    requires h1.moduleParents == h2.moduleParents
    requires forall d :: IsRepoRoot(h1, d) == IsRepoRoot(h2, d)
    ensures FindRepoRoot(h1) == FindRepoRoot(h2)
  {
    FirstRootAgrees(h1, h2, Candidates(h1.moduleParents));
  }

  lemma {:induction false} FirstRootAgrees(h1: Host, h2: Host, dirs: seq<string>)
    requires forall d :: IsRepoRoot(h1, d) == IsRepoRoot(h2, d)
    ensures FirstRoot(h1, dirs) == FirstRoot(h2, dirs)
  {
    if |dirs| > 0 {
      FirstRootAgrees(h1, h2, dirs[1..]);
    }
  }

  /**
   * Resolution fails with the "Missing registry path" error exactly when no
   * source applies: no explicit path, no environment variable, no existing
   * example registry in a found repository, and no bundled registry.
   */
  lemma MissingExactlyWhenNothingApplies(registry: string, host: Host)
    ensures ResolveRegistryPath(registry, host) == Err(MissingRegistryPath) <==>
      && Strip(registry) == []
      && Strip(host.registryEnv) == []
      && (FindRepoRoot(host).None? || !host.present(host.canonical(RepoRegistry(FindRepoRoot(host).value))))
      && !host.present(host.bundled)
  {
  }
}

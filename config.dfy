/**
 * Process configuration: the DEFAULTS table, `pick`, the ENV merge of DEFAULTS with the
 * process environment, the worker root, and the launch decision taken at startup.
 */
module Config {
  import opened Wrappers

  /** `Object.keys(DEFAULTS)`, in declaration order */
  const DefaultKeys: seq<string> := [
    "OLS_DEV_MODE", "OLS_WORKERS_ROOT", "OLS_BRANCH_NAME", "OLS_INSTANCE_NAME",
    "OLS_API_KEY", "OLS_POLLING_INTERVAL", "OLS_UPDATE_WEBHOOK_URL"]

  const Defaults: map<string, string> := map[
    "OLS_DEV_MODE" := "",
    "OLS_WORKERS_ROOT" := "/",
    "OLS_BRANCH_NAME" := "master",
    "OLS_INSTANCE_NAME" := "",
    "OLS_API_KEY" := "",
    "OLS_POLLING_INTERVAL" := "65",
    "OLS_UPDATE_WEBHOOK_URL" := ""]

  const RepoDir := "/app/repo/green"
  const DevDir := "/app/workdir"

  /** The merged configuration object ENV: one field per DEFAULTS key, plus `path` (OLS_REPO). */
  datatype Env = Env(
    devMode: string,
    workersRoot: string,
    branchName: string,
    instanceName: string,
    apiKey: string,
    pollingInterval: string,
    updateWebhookUrl: string,
    repo: Option<string>)

  /** ENV as an object without its `path` field */
  function Vars(e: Env): map<string, string>
  {
    map[
      "OLS_DEV_MODE" := e.devMode,
      "OLS_WORKERS_ROOT" := e.workersRoot,
      "OLS_BRANCH_NAME" := e.branchName,
      "OLS_INSTANCE_NAME" := e.instanceName,
      "OLS_API_KEY" := e.apiKey,
      "OLS_POLLING_INTERVAL" := e.pollingInterval,
      "OLS_UPDATE_WEBHOOK_URL" := e.updateWebhookUrl]
  }

  /** `pick(obj, fields)`: the requested fields that `obj` has, with their values unchanged. */
  function Picked<K, V>(obj: map<K, V>, fields: seq<K>): (r: map<K, V>)
    ensures r.Keys == set k | k in fields && k in obj
    ensures forall k :: k in r ==> r[k] == obj[k]
  {
    if fields == [] then map[]
    else
      var k := fields[|fields| - 1];
      var r := Picked(obj, fields[..|fields| - 1]);
      if k in obj then r[k := obj[k]] else r
  }

  /** The loop of `pick`, filling `result` one requested field at a time. */
  method Pick<K, V>(obj: map<K, V>, fields: seq<K>) returns (result: map<K, V>)
    ensures result == Picked(obj, fields)
  {
    result := map[];
    for i := 0 to |fields|
      invariant result == Picked(obj, fields[..i])
    {
      var key := fields[i];
      assert fields[..i + 1][..i] == fields[..i];
      if key in obj {
        result := result[key := obj[key]];
      }
    }
    assert fields[..|fields|] == fields;
  }

  lemma DefaultKeysAreDefaults()
    ensures forall k :: k in DefaultKeys <==> k in Defaults
  {
  }

  /** `{ ...DEFAULTS, ...pick(environ, Object.keys(DEFAULTS)) }` */
  function Merged(environ: map<string, string>): (m: map<string, string>)
    ensures m.Keys == Defaults.Keys
    ensures forall k :: k in m ==> m[k] == if k in environ then environ[k] else Defaults[k]
  {
    DefaultKeysAreDefaults();
    Defaults + Picked(environ, DefaultKeys)
  }

  /** ENV = { ...DEFAULTS, ...pick(environment, Object.keys(DEFAULTS)), path: OLS_REPO }. */
  function LoadEnv(environ: map<string, string>): (e: Env)
    ensures Vars(e) == Merged(environ)
    ensures e.repo == if "OLS_REPO" in environ then Some(environ["OLS_REPO"]) else None
  {
    var m := Merged(environ);
    var e := Env(m["OLS_DEV_MODE"], m["OLS_WORKERS_ROOT"], m["OLS_BRANCH_NAME"], m["OLS_INSTANCE_NAME"],
        m["OLS_API_KEY"], m["OLS_POLLING_INTERVAL"], m["OLS_UPDATE_WEBHOOK_URL"],
        if "OLS_REPO" in environ then Some(environ["OLS_REPO"]) else None);
    VarsOfFields(e, m);
    e
  }

  lemma VarsOfFields(e: Env, m: map<string, string>)
    requires m.Keys == Defaults.Keys
    requires e.devMode == m["OLS_DEV_MODE"] && e.workersRoot == m["OLS_WORKERS_ROOT"]
    requires e.branchName == m["OLS_BRANCH_NAME"] && e.instanceName == m["OLS_INSTANCE_NAME"]
    requires e.apiKey == m["OLS_API_KEY"] && e.pollingInterval == m["OLS_POLLING_INTERVAL"]
    requires e.updateWebhookUrl == m["OLS_UPDATE_WEBHOOK_URL"]
    ensures Vars(e) == m
  {
  }

  /** JavaScript truthiness of a string: only the empty string is falsy. */
  predicate Truthy(s: string)
  {
    s != ""
  }

  predicate DevMode(e: Env)
  {
    Truthy(e.devMode)
  }

  /** `workerRoot()`: the worker root under the mounted directory (dev) or the mirror (production). */
  function WorkerRoot(e: Env, join: (string, string) -> string): (r: string)
    ensures DevMode(e) ==> r == join(DevDir, e.workersRoot)
    ensures !DevMode(e) ==> r == join(RepoDir, e.workersRoot)
  {
    join(if DevMode(e) then DevDir else RepoDir, e.workersRoot)
  }

  datatype Launch = DevLaunch | ProductionLaunch(url: string)
  datatype LaunchError = RepoInDevMode | DevDirNotMounted | RepoMissing

  /**
   * The checks `__init` makes before serving: dev mode refuses a repository URL and an
   * unmounted DEV_DIR; production needs a (truthy) repository URL.
   */
  function LaunchPlan(e: Env, devDirMounted: bool): (r: Result<Launch, LaunchError>)
    ensures r == Success(DevLaunch) <==>
      DevMode(e) && !(e.repo.Some? && Truthy(e.repo.value)) && devDirMounted
    ensures r.Success? && r.value.ProductionLaunch? <==>
      !DevMode(e) && e.repo.Some? && Truthy(e.repo.value)
    ensures r.Success? && r.value.ProductionLaunch? ==> r.value.url == e.repo.value
    ensures r == Failure(RepoInDevMode) <==> DevMode(e) && e.repo.Some? && Truthy(e.repo.value)
    ensures r == Failure(DevDirNotMounted) <==> DevMode(e) && !(e.repo.Some? && Truthy(e.repo.value)) && !devDirMounted
    ensures r == Failure(RepoMissing) <==> !DevMode(e) && !(e.repo.Some? && Truthy(e.repo.value))
  {
    if DevMode(e) then
      if e.repo.Some? && Truthy(e.repo.value) then Failure(RepoInDevMode)
      else if !devDirMounted then Failure(DevDirNotMounted)
      else Success(DevLaunch)
    else if e.repo.None? || !Truthy(e.repo.value) then Failure(RepoMissing)
    else Success(ProductionLaunch(e.repo.value))
  }
}

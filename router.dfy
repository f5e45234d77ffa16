/**
 * The request handler given to `Deno.serve`: the internal endpoints answered before any
 * wait, then (once `waitForReady` lets the request through) the service named by the second
 * element of `pathname.split('/')`, its directory, its cached or freshly detected import
 * map, and the configuration of the worker the edge runtime is asked for.
 */
module Router {
  import opened Wrappers
  import Paths
  import Config
  import Platform
  import ImportMap
  import Sync

  /** The parts of a request the handler reads: `url.pathname` and `url.searchParams.get("key")`. */
  datatype Request = Request(pathname: string, key: Option<string>)

  datatype Mode = DevMode | ProductionMode(commit: string)

  /** JSON bodies the handler produces itself */
  datatype Body =
    | Message(message: string)
    | Msg(msg: string)
    | StatusReport(mode: Mode, env: map<string, string>)
    | RuntimeMetrics   // `EdgeRuntime.getRuntimeMetrics()`, not modelled

  /** The options passed to `EdgeRuntime.userWorkers.create` */
  datatype WorkerConfig = WorkerConfig(
    servicePath: string,
    memoryLimitMb: nat,
    workerTimeoutMs: nat,
    noModuleCache: bool,
    importMapPath: Option<string>,
    envVars: map<string, string>,
    forceCreate: bool,
    netAccessDisabled: bool,
    cpuTimeSoftLimitMs: nat,
    cpuTimeHardLimitMs: nat,
    maybeEntrypoint: string)

  /** A JSON response, or whatever the worker created with `config` answers, passed on verbatim */
  datatype Response = Json(status: nat, body: Body) | FromWorker(config: WorkerConfig)

  /** The handler answered, or is suspended in `waitForReady` until the attempt in flight ends */
  datatype Outcome = Respond(response: Response) | Suspended

  const HealthPath := "/_internal/health"
  const MetricPath := "/_internal/metric"
  const ApiPrefix := "/_internal/api"
  /** the ENV fields the status endpoint reports */
  const StatusEnvKeys: seq<string> :=
    ["OLS_BRANCH_NAME", "OLS_WORKERS_ROOT", "OLS_INSTANCE_NAME", "OLS_POLLING_INTERVAL"]

  const MemoryLimitMb: nat := 150
  const WorkerTimeoutMs: nat := 5 * 60 * 1000
  const CpuTimeSoftLimitMs: nat := 10000
  const CpuTimeHardLimitMs: nat := 20000

  /** `pathname.startsWith("/_internal/api")` */
  predicate IsApiPath(pathname: string)
  {
    ApiPrefix <= pathname
  }

  lemma ApiPathIsNotHealthOrMetric(pathname: string)
    ensures IsApiPath(pathname) ==> pathname != HealthPath && pathname != MetricPath
  {
    assert IsApiPath(pathname) ==> pathname[11] == ApiPrefix[11] == 'a';
    assert HealthPath[11] == 'h' && MetricPath[11] == 'm';
  }

  /** The status endpoint's report of the running mode and of four ENV fields */
  function StatusReportOf(env: Config.Env, commit: string): Body
  {
    StatusReport(
      if Config.DevMode(env) then DevMode else ProductionMode(commit),
      Config.Picked(Config.Vars(env), StatusEnvKeys))
  }

  /**
   * The branches answered before `waitForReady`: health, metrics, and `/_internal/api…`
   * (no configured key, a wrong key, or `status`). `None` falls through to service dispatch.
   * `commit` is the local ref `getRefStatus` would report.
   */
  function InternalRoute(req: Request, env: Config.Env, commit: string): (r: Option<Response>)
    ensures req.pathname == HealthPath ==> r == Some(Json(200, Message("ok")))
    ensures req.pathname == MetricPath ==> r == Some(Json(200, RuntimeMetrics))
    ensures !IsApiPath(req.pathname) && req.pathname != HealthPath && req.pathname != MetricPath
      ==> r == None
    ensures IsApiPath(req.pathname) ==>
      && (r == Some(Json(404, Message("not found"))) <==> !Config.Truthy(env.apiKey))
      && (r == Some(Json(403, Message("invalid api key"))) <==>
            Config.Truthy(env.apiKey) && req.key != Some(env.apiKey))
      && (r == Some(Json(200, StatusReportOf(env, commit))) <==>
            Config.Truthy(env.apiKey) && req.key == Some(env.apiKey)
            && Paths.Segment(req.pathname, 3) == Some("status"))
      && (r == None <==>
            Config.Truthy(env.apiKey) && req.key == Some(env.apiKey)
            && Paths.Segment(req.pathname, 3) != Some("status"))
  {
    ApiPathIsNotHealthOrMetric(req.pathname);
    if req.pathname == HealthPath then Some(Json(200, Message("ok")))
    else if req.pathname == MetricPath then Some(Json(200, RuntimeMetrics))
    else if IsApiPath(req.pathname) then
      if !Config.Truthy(env.apiKey) then Some(Json(404, Message("not found")))
      else if req.key != Some(env.apiKey) then Some(Json(403, Message("invalid api key")))
      else if Paths.Segment(req.pathname, 3) == Some("status") then Some(Json(200, StatusReportOf(env, commit)))
      else None
    else None
  }

  /** `path.join(workerRoot(), serviceName)` */
  function ServicePath(env: Config.Env, host: Platform.Host, name: string): string
  {
    host.join(Config.WorkerRoot(env, host.join), name)
  }

  datatype Resolution = MissingName | NoSuchService | Service(name: string, path: string)

  /**
   * The service a request names: `pathname.split('/')[1]`, which must be truthy, and whose
   * path under the worker root must exist.
   */
  function ResolveService(pathname: string, env: Config.Env, host: Platform.Host): (r: Resolution)
    ensures r == MissingName <==>
      Paths.Segment(pathname, 1) == None || Paths.Segment(pathname, 1) == Some("")
    ensures r == NoSuchService <==>
      && Paths.Segment(pathname, 1).Some? && Paths.Segment(pathname, 1).value != ""
      && !host.pathExists(ServicePath(env, host, Paths.Segment(pathname, 1).value))
    ensures r.Service? ==>
      && Paths.Segment(pathname, 1) == Some(r.name) && r.name != ""
      && r.path == ServicePath(env, host, r.name) && host.pathExists(r.path)
  {
    var name := Paths.Segment(pathname, 1);
    if name.None? || !Config.Truthy(name.value) then MissingName
    else
      var servicePath := ServicePath(env, host, name.value);
      if !host.pathExists(servicePath) then NoSuchService
      else Service(name.value, servicePath)
  }

  /** The limits and flags every worker is created with */
  predicate FixedLimits(c: WorkerConfig, environ: map<string, string>)
  {
    && c.memoryLimitMb == 150
    && c.workerTimeoutMs == 300000
    && c.cpuTimeSoftLimitMs == 10000
    && c.cpuTimeHardLimitMs == 20000
    && !c.noModuleCache
    && !c.netAccessDisabled
    && c.envVars == environ
    && c.maybeEntrypoint == "file://" + c.servicePath + "/index.ts"
  }

  function WorkerConfigFor(servicePath: string, importMap: Option<string>, forceCreate: bool,
                           environ: map<string, string>): WorkerConfig
  {
    WorkerConfig(
      servicePath := servicePath,
      memoryLimitMb := MemoryLimitMb,
      workerTimeoutMs := WorkerTimeoutMs,
      noModuleCache := false,
      importMapPath := importMap,
      envVars := environ,
      forceCreate := forceCreate,
      netAccessDisabled := false,
      cpuTimeSoftLimitMs := CpuTimeSoftLimitMs,
      cpuTimeHardLimitMs := CpuTimeHardLimitMs,
      maybeEntrypoint := "file://" + servicePath + "/index.ts")
  }

  /**
   * `createWorker()` up to the runtime call, on a cache value: a cache hit reuses the stored
   * import map and does not force creation; a miss detects it afresh and forces creation; the
   * entry is stored in both cases. A detection that throws stores nothing.
   */
  function CreateWorkerPlan(cache: Sync.Cache, devMode: bool, name: string, servicePath: string,
                            host: Platform.Host, environ: map<string, string>)
    : (r: Result<(WorkerConfig, Sync.Cache), string>)
    ensures var hit := Sync.CacheLookup(cache, devMode, name);
      && (hit.Some? ==> r.Success? && r.value.0.importMapPath == hit.value.importMap)
      && (hit.None? ==> r.Success? == ImportMap.DetectImportMapFile(host, servicePath).Success?)
      && (hit.None? && r.Success? ==>
            r.value.0.importMapPath == ImportMap.DetectImportMapFile(host, servicePath).value)
      && (hit.None? && r.Failure? ==> r.error == ImportMap.DetectImportMapFile(host, servicePath).error)
      && (r.Success? ==> r.value.0.forceCreate == hit.None?)
    ensures r.Success? ==>
      && r.value.1 == cache[name := Sync.CacheEntry(r.value.0.importMapPath)]
      && r.value.0.servicePath == servicePath
      && FixedLimits(r.value.0, environ)
  {
    var cached := Sync.CacheLookup(cache, devMode, name);
    var importMap :=
      if cached.Some? then Success(cached.value.importMap)
      else ImportMap.DetectImportMapFile(host, servicePath);
    match importMap
    case Failure(e) => Failure(e)
    case Success(m) =>
      Success((WorkerConfigFor(servicePath, m, cached.None?, environ), cache[name := Sync.CacheEntry(m)]))
  }

  /**
   * The whole handler on values: the response (or suspension) and the new cache, given the
   * request, ENV, the host oracles, the process environment, the local commit, the error
   * the runtime raises when creating or calling the worker (if any), whether a pull attempt is
   * in flight, and the cache.
   */
  function Handle(req: Request, env: Config.Env, host: Platform.Host, environ: map<string, string>,
                  commit: string, runtimeError: Option<string>, attemptInFlight: bool,
                  cache: Sync.Cache)
    : (r: (Outcome, Sync.Cache))
    ensures r.0 == Suspended <==> InternalRoute(req, env, commit).None? && attemptInFlight
    ensures InternalRoute(req, env, commit).Some? ==>
      r == (Respond(InternalRoute(req, env, commit).value), cache)
    ensures r.0.Suspended? ==> r.1 == cache
    ensures forall k :: k in cache && Some(k) != Paths.Segment(req.pathname, 1) ==>
      k in r.1 && r.1[k] == cache[k]
    ensures forall k :: k in r.1 ==> k in cache || Some(k) == Paths.Segment(req.pathname, 1)
    ensures r.0.Respond? && r.0.response.FromWorker? ==> FixedLimits(r.0.response.config, environ)
    ensures r.0.Respond? && r.0.response.FromWorker? ==>
      && ResolveService(req.pathname, env, host).Service?
      && r.0.response.config.servicePath == ResolveService(req.pathname, env, host).path
  {
    var early := InternalRoute(req, env, commit);
    if early.Some? then (Respond(early.value), cache)
    else if attemptInFlight then (Suspended, cache)
    else
      match ResolveService(req.pathname, env, host)
      case MissingName => (Respond(Json(400, Msg("missing function name in request"))), cache)
      case NoSuchService => (Respond(Json(404, Msg("not found"))), cache)
      case Service(name, servicePath) =>
        match CreateWorkerPlan(cache, Config.DevMode(env), name, servicePath, host, environ)
        case Failure(e) => (Respond(Json(500, Msg(e))), cache)
        case Success((config, next)) =>
          (Respond(if runtimeError.Some? then Json(500, Msg(runtimeError.value)) else FromWorker(config)), next)
  }

  /** `createWorker()` against GIT_STATUS, up to `EdgeRuntime.userWorkers.create`. */
  method CreateWorker(gs: Sync.GitStatus, devMode: bool, name: string, servicePath: string,
                      host: Platform.Host, environ: map<string, string>)
    returns (r: Result<WorkerConfig, string>)
    requires gs.Valid()
    modifies gs`cache
    ensures gs.Valid()
    ensures var plan := CreateWorkerPlan(old(gs.cache), devMode, name, servicePath, host, environ);
      && (plan.Failure? ==> r == Failure(plan.error) && gs.cache == old(gs.cache))
      && (plan.Success? ==> r == Success(plan.value.0) && gs.cache == plan.value.1)
  {
    var cached := gs.GetCachedWorker(devMode, name);
    var importMap: Option<string>;
    if cached.Some? {
      importMap := cached.value.importMap;
    } else {
      var detected := ImportMap.DetectImportMapFile(host, servicePath);
      if detected.Failure? {
        return Failure(detected.error);
      }
      importMap := detected.value;
    }
    var forceCreate := cached.None?;
    gs.CacheWorker(name, Sync.CacheEntry(importMap));
    r := Success(WorkerConfigFor(servicePath, importMap, forceCreate, environ));
  }

  /** The `Deno.serve` handler against GIT_STATUS. */
  method Serve(gs: Sync.GitStatus, req: Request, env: Config.Env, host: Platform.Host,
               environ: map<string, string>, commit: string, runtimeError: Option<string>)
    returns (o: Outcome)
    requires gs.Valid()
    modifies gs`cache
    ensures gs.Valid()
    ensures (o, gs.cache) ==
      Handle(req, env, host, environ, commit, runtimeError, old(gs.inFlight), old(gs.cache))
  {
    var early := InternalRoute(req, env, commit);
    if early.Some? {
      return Respond(early.value);
    }
    var w := gs.WaitForReady();
    if w == Sync.AwaitAttempt {
      return Suspended;
    }
    var resolution := ResolveService(req.pathname, env, host);
    match resolution
    case MissingName =>
      o := Respond(Json(400, Msg("missing function name in request")));
    case NoSuchService =>
      o := Respond(Json(404, Msg("not found")));
    case Service(name, servicePath) =>
      var created := CreateWorker(gs, Config.DevMode(env), name, servicePath, host, environ);
      if created.Failure? {
        o := Respond(Json(500, Msg(created.error)));
      } else if runtimeError.Some? {
        o := Respond(Json(500, Msg(runtimeError.value)));
      } else {
        o := Respond(FromWorker(created.value));
      }
  }
}

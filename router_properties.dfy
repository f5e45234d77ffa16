/**
 * Properties of the request handler that relate it to the shape of the path and to earlier
 * requests: which element of the path names the service, what the handler answers for `/`
 * and `//…`, that `/_internal/api/<other>` is served as the service `_internal`, and how the
 * worker cache makes a repeated request reuse its import map.
 */
module RouterProperties {
  import opened Wrappers
  import Paths
  import Config
  import Platform
  import ImportMap
  import Sync
  import opened Router

  /** The service name is what lies between the first and the second `/`. */
  lemma {:induction false} SecondSegmentOf(name: string, rest: string)
    requires '/' !in name
    requires rest == [] || rest[0] == '/'
    ensures Paths.Segment("/" + name + rest, 1) == Some(name)
  {
    assert "/" + name + rest == [] + ['/'] + (name + rest);
    Paths.SplitConcat([], name + rest, '/');
    Paths.SplitHead(name, rest, '/');
  }

  /** A path whose second character is `/` has an empty second element, not a later one. */
  lemma {:induction false} DoubleSlashSegment(rest: string)
    ensures Paths.Segment("//" + rest, 1) == Some("")
  {
    assert "//" + rest == [] + ['/'] + ([] + ['/'] + rest);
    Paths.SplitConcat([], [] + ['/'] + rest, '/');
    Paths.SplitConcat([], rest, '/');
  }

  /** Only paths starting with `/_` can reach an internal endpoint. */
  lemma NotInternal(req: Request, env: Config.Env, commit: string)
    requires |req.pathname| >= 2 && req.pathname[1] != '_'
    ensures InternalRoute(req, env, commit) == None
  {
  }

  /** `/` names no service: 400, and the cache is untouched. */
  lemma RootIsBadRequest(key: Option<string>, env: Config.Env, host: Platform.Host,
                         environ: map<string, string>, commit: string,
                         runtimeError: Option<string>, cache: Sync.Cache)
    ensures Handle(Request("/", key), env, host, environ, commit, runtimeError, false, cache)
      == (Respond(Json(400, Msg("missing function name in request"))), cache)
  {
  }

  /** `//hello` is refused with 400: the empty second element is not skipped. */
  lemma DoubleSlashIsBadRequest(rest: string, key: Option<string>, env: Config.Env,
                                host: Platform.Host, environ: map<string, string>, commit: string,
                                runtimeError: Option<string>, cache: Sync.Cache)
    ensures Handle(Request("//" + rest, key), env, host, environ, commit, runtimeError, false, cache)
      == (Respond(Json(400, Msg("missing function name in request"))), cache)
  {
    DoubleSlashSegment(rest);
    NotInternal(Request("//" + rest, key), env, commit);
  }

  /**
   * Any request past the internal routes whose service directory does not exist gets
   * 404 `{msg: 'not found'}`, and the worker cache is left as it was.
   */
  lemma NoSuchServiceIsNotFound(req: Request, env: Config.Env, host: Platform.Host,
                                environ: map<string, string>, commit: string,
                                runtimeError: Option<string>, cache: Sync.Cache)
    requires InternalRoute(req, env, commit) == None
    requires ResolveService(req.pathname, env, host) == NoSuchService
    ensures Handle(req, env, host, environ, commit, runtimeError, false, cache)
      == (Respond(Json(404, Msg("not found"))), cache)
  {
  }

  /** Any request past the internal routes without a truthy second path element gets 400. */
  lemma MissingNameIsBadRequest(req: Request, env: Config.Env, host: Platform.Host,
                                environ: map<string, string>, commit: string,
                                runtimeError: Option<string>, cache: Sync.Cache)
    requires InternalRoute(req, env, commit) == None
    requires ResolveService(req.pathname, env, host) == MissingName
    ensures Handle(req, env, host, environ, commit, runtimeError, false, cache)
      == (Respond(Json(400, Msg("missing function name in request"))), cache)
  {
  }

  /**
   * When the worker is not cached and `detectImportMapFile` throws, the handler answers
   * 500 with the error's message and stores nothing.
   */
  lemma DetectionErrorIsServerError(req: Request, env: Config.Env, host: Platform.Host,
                                    environ: map<string, string>, commit: string,
                                    runtimeError: Option<string>, cache: Sync.Cache,
                                    name: string, path: string, e: string)
    requires InternalRoute(req, env, commit) == None
    requires ResolveService(req.pathname, env, host) == Service(name, path)
    requires Sync.CacheLookup(cache, Config.DevMode(env), name) == None
    requires ImportMap.DetectImportMapFile(host, path) == Failure(e)
    ensures Handle(req, env, host, environ, commit, runtimeError, false, cache)
      == (Respond(Json(500, Msg(e))), cache)
  {
  }

  /**
   * When the import map is found but the runtime fails to create or call the worker, the
   * handler answers 500 with the runtime's message, and the entry stored before the runtime
   * call stays in the cache.
   */
  lemma RuntimeErrorIsServerError(req: Request, env: Config.Env, host: Platform.Host,
                                  environ: map<string, string>, commit: string,
                                  cache: Sync.Cache, name: string, path: string, e: string)
    requires InternalRoute(req, env, commit) == None
    requires ResolveService(req.pathname, env, host) == Service(name, path)
    requires Sync.CacheLookup(cache, Config.DevMode(env), name).Some?
             || ImportMap.DetectImportMapFile(host, path).Success?
    ensures var hit := Sync.CacheLookup(cache, Config.DevMode(env), name);
      var importMap := if hit.Some? then hit.value.importMap
                       else ImportMap.DetectImportMapFile(host, path).value;
      Handle(req, env, host, environ, commit, Some(e), false, cache)
      == (Respond(Json(500, Msg(e))), cache[name := Sync.CacheEntry(importMap)])
  {
  }

  /** The same for a path `/<name><rest>` written out: a named service whose directory is missing. */
  lemma MissingServiceIsNotFound(name: string, rest: string, key: Option<string>,
                                 env: Config.Env, host: Platform.Host,
                                 environ: map<string, string>, commit: string,
                                 runtimeError: Option<string>, cache: Sync.Cache)
    requires name != [] && '/' !in name && name[0] != '_'
    requires rest == [] || rest[0] == '/'
    requires !host.pathExists(ServicePath(env, host, name))
    ensures Handle(Request("/" + name + rest, key), env, host, environ, commit, runtimeError, false, cache)
      == (Respond(Json(404, Msg("not found"))), cache)
  {
    SecondSegmentOf(name, rest);
    NotInternal(Request("/" + name + rest, key), env, commit);
    NoSuchServiceIsNotFound(Request("/" + name + rest, key), env, host, environ, commit, runtimeError, cache);
  }

  lemma {:induction false} ApiPathSegments(apiMethod: string, tail: string)
    requires '/' !in apiMethod
    requires tail == [] || tail[0] == '/'
    ensures var p := "/_internal/api/" + apiMethod + tail;
      && IsApiPath(p)
      && Paths.Segment(p, 1) == Some("_internal")
      && Paths.Segment(p, 3) == Some(apiMethod)
  {
    var p := "/_internal/api/" + apiMethod + tail;
    var rest := apiMethod + tail;
    assert p == [] + ['/'] + ("_internal" + ['/'] + ("api" + ['/'] + rest));
    Paths.SplitConcat("api", rest, '/');
    Paths.SplitConcat("_internal", "api" + ['/'] + rest, '/');
    Paths.SplitConcat([], "_internal" + ['/'] + ("api" + ['/'] + rest), '/');
    Paths.SplitHead(apiMethod, tail, '/');
    assert p[..|ApiPrefix|] == ApiPrefix;
  }

  lemma InternalServicePath(key: Option<string>, env: Config.Env, commit: string)
    ensures Paths.Segment("/_internal", 1) == Some("_internal")
    ensures InternalRoute(Request("/_internal", key), env, commit) == None
  {
    assert "/_internal" == [] + ['/'] + "_internal";
    Paths.SplitConcat([], "_internal", '/');
    Paths.SplitNoSep("_internal", '/');
  }

  /** Past the internal routes, `Handle` depends on the path only through `ResolveService`. */
  lemma SameResolutionSameHandling(req1: Request, req2: Request, env: Config.Env, host: Platform.Host,
                                   environ: map<string, string>, commit: string,
                                   runtimeError: Option<string>, inFlight: bool, cache: Sync.Cache)
    requires InternalRoute(req1, env, commit) == None && InternalRoute(req2, env, commit) == None
    requires ResolveService(req1.pathname, env, host) == ResolveService(req2.pathname, env, host)
    ensures Handle(req1, env, host, environ, commit, runtimeError, inFlight, cache)
      == Handle(req2, env, host, environ, commit, runtimeError, inFlight, cache)
  {
  }

  /**
   * With a configured key given correctly, `/_internal/api/<method>…` for any method other
   * than `status` is handled exactly like a request for the service `_internal`.
   */
  lemma OtherApiCallsReachServiceInternal(
    apiMethod: string, tail: string, env: Config.Env, host: Platform.Host,
    environ: map<string, string>, commit: string, runtimeError: Option<string>,
    inFlight: bool, cache: Sync.Cache)
    requires '/' !in apiMethod && apiMethod != "status"
    requires tail == [] || tail[0] == '/'
    requires Config.Truthy(env.apiKey)
    ensures
      var req := Request("/_internal/api/" + apiMethod + tail, Some(env.apiKey));
      Handle(req, env, host, environ, commit, runtimeError, inFlight, cache)
      == Handle(Request("/_internal", Some(env.apiKey)), env, host, environ, commit, runtimeError, inFlight, cache)
  {
    var p := "/_internal/api/" + apiMethod + tail;
    ApiPathSegments(apiMethod, tail);
    InternalServicePath(Some(env.apiKey), env, commit);
    assert InternalRoute(Request(p, Some(env.apiKey)), env, commit) == None;
    assert ResolveService(p, env, host) == ResolveService("/_internal", env, host);
    SameResolutionSameHandling(Request(p, Some(env.apiKey)), Request("/_internal", Some(env.apiKey)),
                               env, host, environ, commit, runtimeError, inFlight, cache);
  }

  /** Without a configured key every `/_internal/api…` path is 404, whatever the query says. */
  lemma ApiWithoutKeyIsNotFound(req: Request, env: Config.Env, host: Platform.Host,
                                environ: map<string, string>, commit: string,
                                runtimeError: Option<string>, inFlight: bool, cache: Sync.Cache)
    requires IsApiPath(req.pathname) && env.apiKey == ""
    ensures Handle(req, env, host, environ, commit, runtimeError, inFlight, cache)
      == (Respond(Json(404, Message("not found"))), cache)
  {
  }

  /** A configured key that the query does not carry is 403. */
  lemma ApiWithWrongKeyIsForbidden(req: Request, env: Config.Env, host: Platform.Host,
                                   environ: map<string, string>, commit: string,
                                   runtimeError: Option<string>, inFlight: bool, cache: Sync.Cache)
    requires IsApiPath(req.pathname) && env.apiKey != "" && req.key != Some(env.apiKey)
    ensures Handle(req, env, host, environ, commit, runtimeError, inFlight, cache)
      == (Respond(Json(403, Message("invalid api key"))), cache)
  {
  }

  /** The status endpoint reports the mode and the four whitelisted ENV fields, nothing else. */
  lemma StatusReportContents(env: Config.Env, commit: string)
    ensures var b := StatusReportOf(env, commit);
      && (b.mode == DevMode <==> Config.DevMode(env))
      && (b.mode != DevMode ==> b.mode == ProductionMode(commit))
      && b.env.Keys == {"OLS_BRANCH_NAME", "OLS_WORKERS_ROOT", "OLS_INSTANCE_NAME", "OLS_POLLING_INTERVAL"}
      && b.env["OLS_BRANCH_NAME"] == env.branchName
      && b.env["OLS_WORKERS_ROOT"] == env.workersRoot
      && b.env["OLS_INSTANCE_NAME"] == env.instanceName
      && b.env["OLS_POLLING_INTERVAL"] == env.pollingInterval
  {
    var b := StatusReportOf(env, commit);
    assert forall k :: k in StatusEnvKeys <==>
      k == "OLS_BRANCH_NAME" || k == "OLS_WORKERS_ROOT" || k == "OLS_INSTANCE_NAME" || k == "OLS_POLLING_INTERVAL";
  }

  /**
   * Outside dev mode, a request served by a worker leaves its service cached, so the same
   * request again reuses that import map, does not force a new worker and leaves the cache
   * as it was.
   */
  lemma RepeatedRequestReusesImportMap(req: Request, env: Config.Env, host: Platform.Host,
                                       environ: map<string, string>, commit: string,
                                       cache: Sync.Cache)
    requires !Config.DevMode(env)
    requires Handle(req, env, host, environ, commit, None, false, cache).0.Respond?
    requires Handle(req, env, host, environ, commit, None, false, cache).0.response.FromWorker?
    ensures
      var (first, next) := Handle(req, env, host, environ, commit, None, false, cache);
      var (second, after) := Handle(req, env, host, environ, commit, None, false, next);
      && second.Respond? && second.response.FromWorker?
      && !second.response.config.forceCreate
      && second.response.config.importMapPath == first.response.config.importMapPath
      && after == next
  {
  }

  /** Once an update attempt has emptied the cache, the next worker is always created afresh. */
  lemma EmptiedCacheForcesCreate(req: Request, env: Config.Env, host: Platform.Host,
                                 environ: map<string, string>, commit: string,
                                 runtimeError: Option<string>)
    ensures var (o, next) := Handle(req, env, host, environ, commit, runtimeError, false, map[]);
      o.Respond? && o.response.FromWorker? ==> o.response.config.forceCreate
  {
  }

  /** In dev mode the cache is never read: every worker is forced and its import map detected afresh. */
  lemma DevModeAlwaysForcesCreate(req: Request, env: Config.Env, host: Platform.Host,
                                  environ: map<string, string>, commit: string,
                                  runtimeError: Option<string>, cache: Sync.Cache)
    requires Config.DevMode(env)
    ensures var (o, next) := Handle(req, env, host, environ, commit, runtimeError, false, cache);
      o.Respond? && o.response.FromWorker? ==>
        && o.response.config.forceCreate
        && o.response.config.importMapPath
           == ImportMap.DetectImportMapFile(host, o.response.config.servicePath).value
  {
  }

  /**
   * `/hello` with the service present and not cached is forwarded to a worker created afresh
   * for `<root>/hello`, and `hello` is cached afterwards.
   */
  lemma HelloFirstRequest(env: Config.Env, host: Platform.Host, environ: map<string, string>,
                          commit: string, cache: Sync.Cache)
    requires "hello" !in cache
    requires host.pathExists(ServicePath(env, host, "hello"))
    requires ImportMap.DetectImportMapFile(host, ServicePath(env, host, "hello")).Success?
    ensures var (o, next) := Handle(Request("/hello", None), env, host, environ, commit, None, false, cache);
      && o.Respond? && o.response.FromWorker?
      && o.response.config.forceCreate
      && o.response.config.servicePath == ServicePath(env, host, "hello")
      && "hello" in next
  {
    assert "/hello" == "/" + "hello" + "";
    SecondSegmentOf("hello", "");
    NotInternal(Request("/hello", None), env, commit);
  }
}

# OLS dispatcher and mirror: a Dafny model

OLS is a small Deno server in front of a tree of independently deployable services. In production mode it mirrors one branch of a remote git repository into `/app/repo/green` and polls for new commits. It serves each request by handing it to a worker of the edge runtime, created for the service named by the request path. In dev mode it serves a directly mounted directory instead.

This project models the core of `index.ts`:

- **The sync state machine `GIT_STATUS`** — `Sync.GitStatus`. It is a class with the fields `status` (`updating`/`ready`), `inFlight` (the `onFinish` promise is pending) and the worker cache, plus ghost counters of pulls started and finished and of cache clears. Its invariant `Valid()` says these things:
  - at most one pull is in flight;
  - a pull is in flight only while `updating`;
  - the cache was cleared once per attempt started.
- **The poll decision** (`updateIfNeeded`) — `Mirror.PollStepFor` and `Sync.UpdateIfNeeded`.
- **The startup decisions** — `ensureGitRepo` in `Sync.EnsureGitRepo` and `Mirror.EnsureRepoPlan*`; the `__init` checks in `Config.LaunchPlan`.
- **Configuration** — `pick` and the `ENV` merge over `DEFAULTS`, in `Config`.
- **`detectImportMapFile`** — `ImportMap.DetectImportMapFile`.
- **The `Deno.serve` handler** — `Router.Handle` on values, and `Router.Serve` / `Router.CreateWorker` against the `GitStatus` object. The handler covers:
  - the health, metric and API endpoints;
  - the 400/404 service checks;
  - the cache hit/miss rule of `createWorker`;
  - the fixed limits of the worker configuration.

Promises are modelled sequentially. The prologue of `_update` (lines 55-56) runs without yielding, so `Update` performs it atomically and leaves the pull in flight. The code after the awaited pull is `FinishAttempt(pullOk)`. A caller that would `await onFinish` does not change anything:
- `WaitForReady` returns `AwaitAttempt`;
- `Update` returns `AwaitedAttempt`;
- `Serve` returns `Suspended`;
- `UpdateIfNeeded` returns `WaitingOnAttempt`.

Such a caller continues once `FinishAttempt` has run. Nothing after the await re-reads the state the wait was about, so running the handler again at that point gives the same result.

Foreign calls are inputs:
- **The git transport** — `clone`, `fetch` and `pull` are given as success flags, and `resolveRef` as the ref strings.
- **The file system** — `Platform.Host.pathExists`, and `Platform.Host.denoImports` for reading and parsing `deno.json`.
- **`path.join`** — `Platform.Host.join`, kept abstract.
- **The edge runtime** — the error it may raise (`runtimeError`), or a response passed on verbatim (`FromWorker(config)`).

A few behaviours of the code are easy to miss, and the model keeps them:

- **Service name.** The service name is `pathname.split('/')[1]`, the second element of the split; empty elements are not skipped. So `//hello` gets 400 (`RouterProperties.DoubleSlashIsBadRequest`).
- **Missing name.** A missing service name gets 400; only a named service whose directory does not exist gets 404.
- **Where the fetch happens.** `_update` only pulls (line 59). `updateIfNeeded` does the fetch and `getRefStatus` (lines 178, 185) before it calls `update`.
- **`waitForReady` while `updating`.** It returns at once when the status is `updating` but no attempt was ever started, because it awaits a null `onFinish`. That is the state before `ensureGitRepo` marks the mirror ready. It is also the state for the whole life of a dev-mode process, whose status is never set to `ready`. The contract of `Sync.GitStatus.WaitForReady` states it for every valid state: it lets the caller through whenever no attempt is in flight.
- **Cache in dev mode.** `getCachedWorker` reports nothing in dev mode, but `cacheWorker` still stores entries.
- **Non-empty directory without `.git`.** Such a directory is not refused at startup, because the emptiness test is not awaited. `Sync.EnsureGitRepo` follows the code as written; `Sync.EnsureGitRepoAwaited` is the corrected startup. See Findings.

## Model

| member | source | states |
|---|---|---|
| Paths.Split | index.ts:333-334 | `split('/')` yields at least one piece and no piece contains the separator |
| Paths.JoinSplit | index.ts:333 | joining the pieces of a split with the separator gives the path back |
| Paths.SplitJoin | index.ts:333 | splitting a join of separator-free pieces gives the pieces back (Split and JoinWith are inverse) |
| Paths.Segment | index.ts:296 | `split('/')[i]` is present exactly when the split has more than i pieces, and never contains `/` |
| Config.Picked | index.ts:127-134 | `pick` keeps exactly the requested keys that the object has, with their values unchanged |
| Config.Pick | index.ts:127-134 | the `for` loop of `pick` computes exactly `Picked(obj, fields)` |
| Config.Merged | index.ts:19-22 | `{...DEFAULTS, ...pick(env, keys(DEFAULTS))}` has exactly the DEFAULTS keys; each takes the environment's value when set, else the default |
| Config.LoadEnv | index.ts:9-24 | ENV's fields are the merged DEFAULTS/environment values, and `path` is OLS_REPO when set |
| Config.WorkerRoot | index.ts:29-33 | the worker root is OLS_WORKERS_ROOT joined to DEV_DIR in dev mode and to the mirror directory `/app/repo/green` otherwise |
| Config.LaunchPlan | index.ts:89-123 | each outcome of `__init` holds exactly when its condition does: a truthy OLS_REPO in dev mode is refused; dev mode without one launches iff DEV_DIR is mounted, else dies; production launches with the OLS_REPO URL iff it is truthy, else dies |
| Mirror.IsDirEmpty | index.ts:142-153 | `isDirEmpty` is true iff the path is not a directory or its listing yields nothing |
| Mirror.EnsureRepoPlanAsWritten | index.ts:191-208 | as written: a missing path is cloned; a directory with `.git` is fetched; it throws iff the path exists and is not a directory; any other directory is left as is |
| Mirror.EnsureRepoPlan | index.ts:191-208 | with the emptiness test awaited: it throws iff the path exists and is neither a directory with `.git` nor an empty directory; clone iff missing; fetch iff it has `.git` |
| Mirror.AsWrittenAcceptsDirtyDirectory | index.ts:196-198 | the input (exists, directory, no `.git`, not empty) is accepted without clone or fetch as written, and refused by the awaited test |
| Mirror.PlansDifferOnlyOnDirtyDirectory | index.ts:196-198 | the two choices differ exactly on a non-empty directory without `.git` |
| Mirror.PollStepFor | index.ts:162-189 | a failed fetch never leads to `update`; after a successful fetch, `update` is called iff the local ref differs from the remote ref |
| Sync.CacheLookup | index.ts:73-79 | `getCachedWorker` gives nothing in dev mode whatever the cache holds, and otherwise exactly the stored entry |
| Sync.GitStatus.constructor | index.ts:43-45 | the object starts `updating`, with no attempt and an empty cache |
| Sync.GitStatus.Update | index.ts:46-56 | a new attempt starts iff the status is `ready`: status `updating`, cache emptied, one more pull started; when `updating`, nothing changes and the caller awaits the attempt in flight, if any |
| Sync.GitStatus.FinishAttempt | index.ts:57-66 | whatever the pull outcome, the attempt ends `ready`, no longer in flight, with the cache as it was, so the cache cleared at the start is not restored |
| Sync.GitStatus.WaitForReady | index.ts:67-71 | waits iff `updating` with an attempt in flight |
| Sync.GitStatus.GetCachedWorker | index.ts:73-79 | returns `CacheLookup` of the current cache |
| Sync.GitStatus.CacheWorker | index.ts:80-83 | overwrites only the given key's entry; every other key keeps its entry |
| Sync.GitStatus.MarkReady | index.ts:211 | sets the status to `ready` and keeps the invariant |
| Sync.UpdateIfNeeded | index.ts:173-189 | waits while an attempt is in flight; otherwise calls `update` iff the fetch succeeded and the refs differ; an attempt starts only from `ready` and then empties the cache; otherwise the state is unchanged |
| Sync.EnsureGitRepo | index.ts:191-214 | as written: returns `EnsureRepoPlanAsWritten`'s choice, or a transport failure when the clone/fetch it needs fails; it leaves the directory as it is exactly for an existing directory without `.git`, non-empty or not; every non-throwing path ends `ready`; a throwing one leaves the status alone |
| Sync.EnsureGitRepoAwaited | index.ts:191-214 | with the emptiness test awaited: returns `EnsureRepoPlan`'s choice, or a transport failure; a non-empty directory without `.git` is refused and the status is left alone; every non-throwing path ends `ready` |
| ImportMap.DetectImportMapFile | index.ts:259-274 | `import_map.json` iff it exists; else `deno.json` only if it exists and has truthy `imports`; null iff neither applies; a failed read/parse of `deno.json` throws its error |
| Router.InternalRoute | index.ts:280-307 | health is 200 `ok`; under `/_internal/api`, no key configured is 404, a mismatching key is 403, `status` gives the report, and anything else falls through |
| Router.ResolveService | index.ts:333-344 | an empty or missing `split('/')[1]` is MissingName; otherwise NoSuchService iff its path under the worker root does not exist; otherwise that name and path |
| Router.CreateWorkerPlan | index.ts:346-394 | a cache hit reuses the stored import map with forceCreate false; a miss detects it afresh with forceCreate true; the entry is stored in both cases; the limits are 150 MB, 5 min, 10 s/20 s CPU, network and module cache enabled, entrypoint `file://<path>/index.ts` |
| Router.Handle | index.ts:276-435 | suspends iff the request is not an internal endpoint and an attempt is in flight; internal answers leave the cache alone; only the requested service's entry can change; a forwarded request goes to the worker at `join(workerRoot(), split('/')[1])`, with the fixed limits |
| Router.CreateWorker | index.ts:346-395 | the method against GIT_STATUS returns and stores exactly what `CreateWorkerPlan` gives, and on a detection error stores nothing |
| Router.Serve | index.ts:276-435 | the handler against GIT_STATUS answers and updates the cache exactly as `Handle` says, from the attempt and cache it finds |
| RouterProperties.SecondSegmentOf | index.ts:333-334 | the service name is the text between the first and second `/` |
| RouterProperties.RootIsBadRequest | index.ts:333-337 | `/` gets 400 `{msg: 'missing function name in request'}` and the cache is unchanged |
| RouterProperties.DoubleSlashIsBadRequest | index.ts:333-337 | `//…` gets 400 too: the empty second element is not skipped |
| RouterProperties.NoSuchServiceIsNotFound | index.ts:339-344 | any request past the internal routes whose service directory does not exist gets 404 `{msg: 'not found'}`, cache unchanged |
| RouterProperties.MissingServiceIsNotFound | index.ts:333-344 | the same for a path `/<name><rest>` with a non-empty name not starting with `_` |
| RouterProperties.MissingNameIsBadRequest | index.ts:333-337 | any request past the internal routes without a truthy `split('/')[1]` gets 400 `{msg: 'missing function name in request'}`, cache unchanged |
| RouterProperties.DetectionErrorIsServerError | index.ts:359-430 | an uncached worker whose `detectImportMapFile` throws gets 500 with the error's message, and nothing is stored |
| RouterProperties.RuntimeErrorIsServerError | index.ts:367-430 | a runtime failure gets 500 with its message, and the entry stored by `cacheWorker` before the runtime call stays |
| RouterProperties.OtherApiCallsReachServiceInternal | index.ts:289-309 | with the right key, `/_internal/api/<not status>…` is handled exactly as the service `_internal` |
| RouterProperties.ApiWithoutKeyIsNotFound | index.ts:289-291 | with no API key configured, every `/_internal/api…` path is 404 whatever the query, even mid-update |
| RouterProperties.ApiWithWrongKeyIsForbidden | index.ts:293-294 | a configured key not matched by `?key=` gives 403 |
| RouterProperties.StatusReportContents | index.ts:297-305 | the status report gives `dev` or `production` with the local commit, and exactly the four whitelisted ENV fields |
| RouterProperties.RepeatedRequestReusesImportMap | index.ts:359-367 | outside dev mode, repeating a request served by a worker reuses its import map, does not force creation, and leaves the cache as it is |
| RouterProperties.EmptiedCacheForcesCreate | index.ts:56 | after an attempt has emptied the cache, the next worker is forced to be created afresh |
| RouterProperties.DevModeAlwaysForcesCreate | index.ts:73-77 | in dev mode every worker is created afresh, with a freshly detected import map |
| RouterProperties.HelloFirstRequest | index.ts:333-367 | `/hello` with the service present and uncached goes to a freshly created worker for `<root>/hello`, and `hello` is cached after |

## Left out

- The git transport (`git_clone`, `git_fetch`, `git_pull`, `resolveRef`): only success or failure and the returned refs are modelled. If `resolveRef` throws, `updateIfNeeded` rejects and `pollForUpdates` never reschedules itself. The model has no such failure.
- `pollForUpdates` is not modelled: it is scheduling by `setTimeout`, plus the `parseInt` of the interval. One call of `Sync.UpdateIfNeeded` is one cycle.
- File-system calls (`existsSync`, `lstatSync`, `readDir`, `readTextFile`, `mkdirSync`) and `JSON.parse` are boolean or result oracles. `path.join` is an abstract function, so its normalisation is not modelled.
- `EdgeRuntime.userWorkers.create` and `worker.fetch` are the foreign runtime. Only their error is modelled, as the 500 `{msg}` response. The `WorkerRequestCancelled` branch only logs.
- `getRuntimeMetrics` (line 285) is outside the handler's `try`, so its failure rejects the handler. The model answers every metric request with 200 and does not model that failure.
- Real promise interleaving. After `waitForReady` a request can still suspend at `await fsDir.exists(servicePath)` (line 343), inside `await detectImportMapFile` (line 360) and at `await EdgeRuntime.userWorkers.create` (line 380). An update may start at any of these points, so a request that has passed `waitForReady` can be served while a pull runs. One suspended at line 343 or 360 stores its entry at line 367, after the cache was cleared, with an import map detected possibly from the old or a partly pulled tree. The sequential model runs each handler to completion and does not show this.
- `getRefStatus` inside the status endpoint (line 303) is the `commit` input. If `resolveRef` throws there, the handler rejects; the model has no such failure.
- The request is reduced to its `pathname` and the first `key` query value. URL parsing and decoding are not modelled.
- `Router.WorkerConfigFor`: the `envVars` handed to a worker (lines 362-363) are the `environ` input of `Router.Handle`, as a map. Key order is not modelled.
- Logging, `die`'s message text, the dev-mode empty-directory warning, and the commented-out WebSocket code.
- `routes/hello`, `routes/import-maps` and `routes/hono-file-router` are sample services run by the edge runtime. They are not part of this model.

## Findings

| source | as written | input that shows it | evidently intended | confidence | as-written member | corrected member |
|---|---|---|---|---|---|---|
| index.ts:196-198 | `isEmpty = isDir && isDirEmpty(mountDir)` is not awaited. For any directory it is a Promise, which is truthy, so the throw fires only for a path that is not a directory. | mount path exists, is a directory, has no `.git`, has entries: left as is and marked ready, neither cloned nor fetched | `await isDirEmpty(...)`, so that a non-empty directory without `.git` throws "is not empty and not a .git directory", as its message says | high; not executed | Mirror.EnsureRepoPlanAsWritten, Sync.EnsureGitRepo, Mirror.AsWrittenAcceptsDirtyDirectory | Mirror.EnsureRepoPlan, Sync.EnsureGitRepoAwaited, Mirror.PlansDifferOnlyOnDirtyDirectory |

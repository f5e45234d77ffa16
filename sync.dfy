/**
 * The process-wide GIT_STATUS object: the `updating`/`ready` state machine that serialises
 * pulls of the mirror, and the worker cache it clears whenever a pull attempt starts.
 *
 * Promises are modelled sequentially. `Update` runs the synchronous prologue of `_update`
 * (which JavaScript executes without yielding) and leaves the pull in flight; the
 * continuation after the awaited pull is `FinishAttempt`, called with the pull's outcome.
 * A caller that would `await onFinish` while an attempt is in flight gets `AwaitAttempt` and
 * changes nothing: it resumes once `FinishAttempt` has run.
 */
module Sync {
  import opened Wrappers
  import Mirror

  datatype Status = Updating | Ready

  /** The value stored per service in WORKER_CACHE: `{ importMap: string | null }` */
  datatype CacheEntry = CacheEntry(importMap: Option<string>)

  type Cache = map<string, CacheEntry>

  /** `getCachedWorker(worker)` on a cache value: nothing in dev mode, else the stored entry. */
  function CacheLookup(cache: Cache, devMode: bool, worker: string): (r: Option<CacheEntry>)
    ensures devMode ==> r == None
    ensures !devMode ==> (r.Some? <==> worker in cache)
    ensures r.Some? ==> worker in cache && r.value == cache[worker]
  {
    if devMode || worker !in cache then None else Some(cache[worker])
  }

  /** What `waitForReady` does: return at once, or await the attempt in flight. */
  datatype WaitResult = Proceed | AwaitAttempt

  /** What `update` does: start an attempt, await the one in flight, or await `null`. */
  datatype UpdateResult = Started | AwaitedAttempt | NothingToAwait

  class GitStatus {
    var status: Status
    /** `onFinish` is an attempt that has not finished yet */
    var inFlight: bool
    /** WORKER_CACHE */
    var cache: Cache
    /** pulls started and finished since the process began */
    ghost var pullsStarted: nat
    ghost var pullsFinished: nat
    /** times WORKER_CACHE was cleared */
    ghost var cacheClears: nat

    /**
     * At most one pull is in flight, only while `updating`, and the cache was cleared once
     * per attempt started.
     */
    ghost predicate Valid()
      reads this
    {
      && (inFlight ==> status == Updating)
      && pullsStarted == pullsFinished + (if inFlight then 1 else 0)
      && cacheClears == pullsStarted
    }

    /** The object literal: `updating`, `onFinish` null, an empty cache. */
    constructor ()
      ensures Valid()
      ensures status == Updating && !inFlight && cache == map[]
      ensures pullsStarted == 0 && pullsFinished == 0
    {
      status := Updating;
      inFlight := false;
      cache := map[];
      pullsStarted := 0;
      pullsFinished := 0;
      cacheClears := 0;
    }

    /**
     * `update()`: only a `ready` object starts an attempt (`status := updating`, cache
     * cleared, pull started), and it does not wait for it. An `updating` object starts
     * nothing and awaits `onFinish`, which is null when no attempt was ever started.
     */
    method Update() returns (r: UpdateResult)
      requires Valid()
      modifies this
      ensures Valid()
      ensures r == Started <==> old(status) == Ready
      ensures r == AwaitedAttempt <==> old(status) == Updating && old(inFlight)
      ensures r == Started ==>
        && status == Updating && inFlight && cache == map[]
        && pullsStarted == old(pullsStarted) + 1 && pullsFinished == old(pullsFinished)
      ensures r != Started ==>
        && status == old(status) && inFlight == old(inFlight) && cache == old(cache)
        && pullsStarted == old(pullsStarted) && pullsFinished == old(pullsFinished)
        && cacheClears == old(cacheClears)
    {
      if status == Updating {
        r := if inFlight then AwaitedAttempt else NothingToAwait;
      } else {
        status := Updating;
        cache := map[];
        cacheClears := cacheClears + 1;
        inFlight := true;
        pullsStarted := pullsStarted + 1;
        r := Started;
      }
    }

    /**
     * The rest of `_update` once the awaited pull settles. A rejected pull (`pullOk` false)
     * is caught and logged; either way the object becomes `ready` and the cache cleared at
     * the start of the attempt is not restored.
     */
    method FinishAttempt(pullOk: bool)
      requires Valid() && inFlight
      modifies this
      ensures Valid()
      ensures status == Ready && !inFlight
      ensures cache == old(cache)
      ensures pullsStarted == old(pullsStarted) && pullsFinished == old(pullsFinished) + 1
    {
      inFlight := false;
      pullsFinished := pullsFinished + 1;
      status := Ready;
    }

    /** `waitForReady()`: it waits only while `updating` with an attempt in flight. */
    method WaitForReady() returns (w: WaitResult)
      requires Valid()
      ensures w == AwaitAttempt <==> status == Updating && inFlight
      ensures w == Proceed <==> status == Ready || !inFlight
    {
      w := if status == Updating && inFlight then AwaitAttempt else Proceed;
    }

    /** `getCachedWorker(worker)` */
    method GetCachedWorker(devMode: bool, worker: string) returns (r: Option<CacheEntry>)
      ensures r == CacheLookup(cache, devMode, worker)
    {
      if devMode {
        return None;
      }
      r := if worker in cache then Some(cache[worker]) else None;
    }

    /** `cacheWorker(worker, params)`: sets that one entry, in dev mode as well. */
    method CacheWorker(worker: string, params: CacheEntry)
      requires Valid()
      modifies this`cache
      ensures Valid()
      ensures cache == old(cache)[worker := params]
    {
      cache := cache[worker := params];
    }

    /** `GIT_STATUS.status = "ready"`, as `ensureGitRepo` does once the mirror is in place. */
    method MarkReady()
      requires Valid() && !inFlight
      modifies this`status
      ensures Valid()
      ensures status == Ready
    {
      status := Ready;
    }
  }

  /** What one call of `updateIfNeeded` did. */
  datatype PollOutcome =
    | WaitingOnAttempt                   // suspended in `waitForReady`
    | Skipped(step: Mirror.PollStep)     // fetch failed, or refs already equal
    | UpdateCalled(update: UpdateResult)

  /**
   * `updateIfNeeded`, with the outcomes of its fetch and of both `resolveRef`s as inputs.
   * It waits for an attempt in flight, then fetches; a failed fetch ends the cycle without
   * calling `update`, and otherwise `update` is called exactly when the refs differ.
   */
  method UpdateIfNeeded(gs: GitStatus, fetchOk: bool, local: string, remote: string)
    returns (r: PollOutcome)
    requires gs.Valid()
    modifies gs
    ensures gs.Valid()
    ensures old(gs.inFlight) ==> r == WaitingOnAttempt
    ensures !old(gs.inFlight) ==>
      (r.UpdateCalled? <==> Mirror.PollStepFor(fetchOk, local, remote) == Mirror.CallUpdate)
    ensures !old(gs.inFlight) && !r.UpdateCalled? ==>
      r == Skipped(Mirror.PollStepFor(fetchOk, local, remote))
    ensures r.UpdateCalled? ==> (r.update == Started <==> old(gs.status) == Ready)
    ensures r == UpdateCalled(Started) ==>
      gs.status == Updating && gs.inFlight && gs.cache == map[] &&
      gs.pullsStarted == old(gs.pullsStarted) + 1
    ensures r != UpdateCalled(Started) ==>
      && gs.status == old(gs.status) && gs.inFlight == old(gs.inFlight) && gs.cache == old(gs.cache)
      && gs.pullsStarted == old(gs.pullsStarted) && gs.pullsFinished == old(gs.pullsFinished)
  {
    var w := gs.WaitForReady();
    if w == AwaitAttempt {
      return WaitingOnAttempt;
    }
    var step := Mirror.PollStepFor(fetchOk, local, remote);
    if step != Mirror.CallUpdate {
      return Skipped(step);
    }
    var u := gs.Update();
    r := UpdateCalled(u);
  }

  /**
   * `ensureGitRepo(url, mountDir, branch)` as written, with the file-system answers and the
   * transport outcome as inputs. `isDirEmpty` is called for a directory but its Promise is
   * never awaited, so its answer plays no part (see `Mirror.EnsureRepoPlanAsWritten`). A
   * refusal or a rejected clone/fetch throws and leaves the status alone; every other path,
   * a non-empty directory without `.git` included, ends with the status `ready`.
   */
  method EnsureGitRepo(gs: GitStatus, pathExists: bool, lstatIsDir: bool, gitDirExists: bool,
                       entries: seq<string>, transportOk: bool)
    returns (r: Result<Mirror.RepoAction, Mirror.StartupError>)
    requires gs.Valid() && !gs.inFlight
    modifies gs
    ensures gs.Valid()
    ensures var plan := Mirror.EnsureRepoPlanAsWritten(pathExists, lstatIsDir, gitDirExists);
      r == if plan.Success? && plan.value != Mirror.LeaveAsIs && !transportOk
           then Failure(Mirror.TransportFailed) else plan
    ensures r.Success? ==> gs.status == Ready
    ensures r == Success(Mirror.LeaveAsIs) <==> pathExists && lstatIsDir && !gitDirExists
    ensures r.Failure? ==> gs.status == old(gs.status)
    ensures gs.cache == old(gs.cache) && !gs.inFlight
    ensures gs.pullsStarted == old(gs.pullsStarted) && gs.pullsFinished == old(gs.pullsFinished)
  {
    var isDir := pathExists && lstatIsDir;
    if isDir {
      // the un-awaited `isDirEmpty(mountDir)` of `ensureGitRepo`: its Promise is never consulted
      var ignored := Mirror.IsDirEmpty(true, entries);
    }
    var plan := Mirror.EnsureRepoPlanAsWritten(pathExists, lstatIsDir, gitDirExists);
    if plan.Failure? {
      return plan;
    }
    if plan.value != Mirror.LeaveAsIs && !transportOk {
      return Failure(Mirror.TransportFailed);
    }
    gs.MarkReady();
    r := plan;
  }

  /**
   * `ensureGitRepo` with `await isDirEmpty(mountDir)`, as its error message intends: a
   * non-empty directory without `.git` is refused and the status stays as it was.
   */
  method EnsureGitRepoAwaited(gs: GitStatus, pathExists: bool, lstatIsDir: bool, gitDirExists: bool,
                              entries: seq<string>, transportOk: bool)
    returns (r: Result<Mirror.RepoAction, Mirror.StartupError>)
    requires gs.Valid() && !gs.inFlight
    modifies gs
    ensures gs.Valid()
    ensures var plan := Mirror.EnsureRepoPlan(pathExists, lstatIsDir, gitDirExists, entries == []);
      r == if plan.Success? && plan.value != Mirror.LeaveAsIs && !transportOk
           then Failure(Mirror.TransportFailed) else plan
    ensures r.Success? ==> gs.status == Ready
    ensures pathExists && lstatIsDir && !gitDirExists && entries != [] ==>
      r == Failure(Mirror.NotEmptyNotRepo) && gs.status == old(gs.status)
    ensures r.Failure? ==> gs.status == old(gs.status)
    ensures gs.cache == old(gs.cache) && !gs.inFlight
    ensures gs.pullsStarted == old(gs.pullsStarted) && gs.pullsFinished == old(gs.pullsFinished)
  {
    var isDir := pathExists && lstatIsDir;
    var empty := Mirror.IsDirEmpty(isDir, entries);
    var plan := Mirror.EnsureRepoPlan(pathExists, lstatIsDir, gitDirExists, empty);
    if plan.Failure? {
      return plan;
    }
    if plan.value != Mirror.LeaveAsIs && !transportOk {
      return Failure(Mirror.TransportFailed);
    }
    gs.MarkReady();
    r := plan;
  }

  /**
   * Two `update` calls in the same `updating` window start one pull and clear the cache
   * once; the attempt ends `ready` with the cache still empty even when the pull fails.
   */
  method TwoUpdatesOnePull()
  {
    var gs := new GitStatus();
    gs.CacheWorker("hello", CacheEntry(None));
    gs.MarkReady();
    var first := gs.Update();
    var second := gs.Update();
    assert first == Started && second == AwaitedAttempt;
    assert gs.pullsStarted == 1 && gs.cacheClears == 1 && gs.cache == map[];
    var w := gs.WaitForReady();
    assert w == AwaitAttempt;
    gs.FinishAttempt(false);
    assert gs.status == Ready && gs.cache == map[];
    w := gs.WaitForReady();
    assert w == Proceed;
  }

  /** Before startup marks it ready (and for ever in dev mode), nothing is awaited. */
  method InitialStateNeverBlocks()
  {
    var gs := new GitStatus();
    var w := gs.WaitForReady();
    assert w == Proceed && gs.status == Updating;
    var u := gs.Update();
    assert u == NothingToAwait && gs.pullsStarted == 0;
  }
}

/**
 * Decisions about the local mirror of the remote repository: what `ensureGitRepo` does with
 * the mount directory at startup, `isDirEmpty`, and whether a poll cycle asks for an update.
 * The git transport itself (clone, fetch, pull, resolveRef) is not modelled; only its
 * outcome and the refs it reports are inputs here.
 */
module Mirror {
  import opened Wrappers

  /** What `ensureGitRepo` does to the mount directory before marking the mirror ready. */
  datatype RepoAction = Clone | Fetch | LeaveAsIs

  datatype StartupError =
    | NotEmptyNotRepo   // "dir ... is not empty and not a .git directory!"
    | TransportFailed   // clone or fetch rejected

  /**
   * `isDirEmpty(dir)`: true when `dir` is not an existing directory, otherwise whether its
   * listing yields no entry. `isDirectory` is what `fsDir.exists(dir, { isDirectory: true })`
   * answers; `entries` is what `Deno.readDir(dir)` yields.
   */
  method IsDirEmpty(isDirectory: bool, entries: seq<string>) returns (empty: bool)
    ensures empty <==> !isDirectory || entries == []
  {
    if !isDirectory {
      return true;
    }
    for i := 0 to |entries| {
      return false;
    }
    return true;
  }

  /**
   * The branch choice of `ensureGitRepo` exactly as written. `pathExists` is `existsSync(mountDir)`,
   * `lstatIsDir` the `lstatSync(mountDir).isDirectory` it consults, `gitDirExists` whether
   * `mountDir/.git` exists. The emptiness test is `isDir && isDirEmpty(mountDir)` without
   * `await`: an async call yields a Promise, which is truthy, so `isEmpty` equals `isDir`.
   */
  function EnsureRepoPlanAsWritten(pathExists: bool, lstatIsDir: bool, gitDirExists: bool)
    : (r: Result<RepoAction, StartupError>)
    ensures r.Failure? <==> pathExists && !lstatIsDir
    ensures r.Failure? ==> r.error == NotEmptyNotRepo
    ensures r == Success(Clone) <==> !pathExists
    ensures r == Success(Fetch) <==> pathExists && lstatIsDir && gitDirExists
    ensures r == Success(LeaveAsIs) <==> pathExists && lstatIsDir && !gitDirExists
  {
    var isDir := pathExists && lstatIsDir;
    var hasGitDir := isDir && gitDirExists;
    var isEmpty := isDir;
    if pathExists && !hasGitDir && !isEmpty then Failure(NotEmptyNotRepo)
    else if !pathExists then Success(Clone)
    else if hasGitDir then Success(Fetch)
    else Success(LeaveAsIs)
  }

  /**
   * The same choice with the emptiness test awaited, as the error message states it:
   * `dirEmpty` is the awaited `isDirEmpty(mountDir)`. An existing path that is neither a
   * directory holding `.git` nor an empty directory is refused.
   */
  function EnsureRepoPlan(pathExists: bool, lstatIsDir: bool, gitDirExists: bool, dirEmpty: bool)
    : (r: Result<RepoAction, StartupError>)
    ensures r.Failure? <==> pathExists && !(lstatIsDir && (gitDirExists || dirEmpty))
    ensures r.Failure? ==> r.error == NotEmptyNotRepo
    ensures r == Success(Clone) <==> !pathExists
    ensures r == Success(Fetch) <==> pathExists && lstatIsDir && gitDirExists
    ensures r == Success(LeaveAsIs) <==> pathExists && lstatIsDir && !gitDirExists && dirEmpty
  {
    var isDir := pathExists && lstatIsDir;
    var hasGitDir := isDir && gitDirExists;
    var isEmpty := isDir && dirEmpty;
    if pathExists && !hasGitDir && !isEmpty then Failure(NotEmptyNotRepo)
    else if !pathExists then Success(Clone)
    else if hasGitDir then Success(Fetch)
    else Success(LeaveAsIs)
  }

  /** As written, a non-empty directory without `.git` is neither refused nor cloned nor fetched. */
  lemma AsWrittenAcceptsDirtyDirectory()
    ensures EnsureRepoPlanAsWritten(true, true, false) == Success(LeaveAsIs)
    ensures EnsureRepoPlan(true, true, false, false) == Failure(NotEmptyNotRepo)
  {
  }

  /** The two choices differ on exactly one kind of input: a non-empty directory without `.git`. */
  lemma PlansDifferOnlyOnDirtyDirectory(pathExists: bool, lstatIsDir: bool, gitDirExists: bool, dirEmpty: bool)
    ensures EnsureRepoPlan(pathExists, lstatIsDir, gitDirExists, dirEmpty)
      != EnsureRepoPlanAsWritten(pathExists, lstatIsDir, gitDirExists)
      <==> pathExists && lstatIsDir && !gitDirExists && !dirEmpty
  {
  }

  /** `getRefStatus().canPull`: refs are compared for identity only, with no ancestry check. */
  predicate CanPull(local: string, remote: string)
  {
    local != remote
  }

  /** Where one cycle of `updateIfNeeded` goes once `waitForReady` has returned. */
  datatype PollStep = FetchFailed | UpToDate | CallUpdate

  /**
   * `updateIfNeeded` after its wait: a failed fetch ends the cycle; otherwise `update` is
   * called exactly when the local ref differs from the remote-tracking ref.
   */
  function PollStepFor(fetchOk: bool, local: string, remote: string): (s: PollStep)
    ensures s == FetchFailed <==> !fetchOk
    ensures s == CallUpdate <==> fetchOk && local != remote
    ensures s == UpToDate <==> fetchOk && local == remote
  {
    if !fetchOk then FetchFailed
    else if CanPull(local, remote) then CallUpdate
    else UpToDate
  }
}

/**
 * The cross-process download lock: one lock file shared by every version,
 * a non-blocking attempt first, a blocking one on contention, and running
 * unsynchronised whenever the lock cannot be had.
 */
module DownloadLock {
  import opened Wrappers
  import opened Resolver

  const LockFileName: string := "global-download.lock"

  /** The lock directory `home/.cache/terragrunt/tofudl/locks`. */
  function LockDirUnder(goos: string, home: string): string
  {
    ToolDir(goos, home, "locks")
  }

  /**
   * getLockFilePath: the home lookup and the creation of the lock directory can
   * fail (None); otherwise the single global lock file inside that directory.
   * No version takes part, so every download uses the same lock file.
   */
  function LockFilePath(h: Host, mkdirError: string -> Option<string>): (r: Option<string>)
    ensures r.Some? <==> h.home.Some? && mkdirError(LockDirUnder(h.goos, h.home.value)).None?
    ensures r.Some? ==> r.value == Join(h.goos, LockDirUnder(h.goos, h.home.value), LockFileName)
  {
    if h.home.None? then None
    else if mkdirError(LockDirUnder(h.goos, h.home.value)).Some? then None
    else Some(Join(h.goos, LockDirUnder(h.goos, h.home.value), LockFileName))
  }

  /** What TryLock reports: the lock was taken, someone else holds it, or an error. */
  datatype TryLockOutcome = TryAcquired | TryContended | TryFailed(cause: string)

  /**
   * The lock subsystem's answers for one download: TryLock, the blocking Lock
   * (consulted only on contention) and the deferred Unlock (an error or None).
   */
  datatype LockOutcomes = LockOutcomes(tryLock: TryLockOutcome, blockingLock: Option<string>, unlock: Option<string>)

  /** Whether the download runs under the lock, and which lock file is held. */
  datatype Acquisition = Unsynchronized | Held(path: string)

  /** The decision of downloadOpenTofu; no lock failure is ever an error. */
  function Acquire(lockPath: Option<string>, lk: LockOutcomes): (a: Acquisition)
    ensures a.Held? ==> lockPath == Some(a.path)
    ensures a.Held? <==> lockPath.Some? && (lk.tryLock.TryAcquired? || (lk.tryLock.TryContended? && lk.blockingLock.None?))
  {
    match lockPath
    case None => Unsynchronized
    case Some(path) =>
      match lk.tryLock
      case TryFailed(_) => Unsynchronized
      case TryContended => if lk.blockingLock.Some? then Unsynchronized else Held(path)
      case TryAcquired => Held(path)
  }

  /** The observable steps of one download: taking the lock, the download, releasing it. */
  datatype LockEvent = Locked(path: string) | DownloadRan | Unlocked(path: string)

  function Count(events: seq<LockEvent>, e: LockEvent): nat
  {
    if events == [] then 0 else (if events[0] == e then 1 else 0) + Count(events[1..], e)
  }

  /**
   * The events of one downloadOpenTofu call. The download runs exactly once;
   * a lock that was taken is released after it (the deferred Unlock runs
   * whatever the download returned, and its outcome changes nothing).
   */
  function LockTrace(a: Acquisition): (t: seq<LockEvent>)
    ensures Count(t, DownloadRan) == 1
    ensures a.Unsynchronized? ==> forall e :: e in t ==> e == DownloadRan
    ensures a.Held? ==> t[0] == Locked(a.path) && t[|t| - 1] == Unlocked(a.path)
  {
    match a
    case Unsynchronized => [DownloadRan]
    case Held(path) =>
      var t := [Locked(path), DownloadRan, Unlocked(path)];
      assert t[1..] == [DownloadRan, Unlocked(path)];
      assert t[1..][1..] == [Unlocked(path)];
      assert t[1..][1..][1..] == [];
      assert Count(t[1..][1..], DownloadRan) == 0;
      assert Count(t[1..], DownloadRan) == 1;
      t
  }
}

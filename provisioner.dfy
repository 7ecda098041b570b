/**
 * Binary provisioning (downloadOpenTofuUnsafe) as a specification: a chain of
 * fallible steps that fetches the artifact and installs it into a filesystem
 * given as a map from paths to contents. An existing non-empty file at the
 * binary path is reused and never rewritten.
 */
module Provisioner {
  import opened Wrappers
  import opened Resolver

  newtype byte = x: int | 0 <= x < 256

  type Bytes = seq<byte>

  /** The files on disk, by path; a path that is absent does not exist. */
  type Files = map<string, Bytes>

  /** The errors downloadOpenTofuUnsafe returns, each wrapping its cause. */
  datatype ProvisionError =
    | DownloaderFailed(cause: string)
    | StorageFailed(cause: string)
    | MirrorFailed(cause: string)
    | DownloadFailed(cause: string)
    | InstallDirFailed(cause: string)
    | WriteFailed(cause: string)

  function Context(e: ProvisionError): string
  {
    match e
    case DownloaderFailed(_) => "failed to create downloader"
    case StorageFailed(_) => "failed to create filesystem storage"
    case MirrorFailed(_) => "failed to create mirror"
    case DownloadFailed(_) => "failed to download OpenTofu binary"
    case InstallDirFailed(_) => "failed to create install directory"
    case WriteFailed(_) => "failed to write OpenTofu binary"
  }

  /** The error text, as fmt.Errorf("<context>: %w", cause) renders it. */
  function Message(e: ProvisionError): string
  {
    Context(e) + ": " + e.cause
  }

  /**
   * The error text identifies the failing step and its cause: no two different
   * errors render to the same text.
   */
  lemma MessageInjective(e1: ProvisionError, e2: ProvisionError)
    requires Message(e1) == Message(e2)
    ensures e1 == e2
  {
    var m := Message(e1);
    ContextCode(e1);
    ContextCode(e2);
    assert m[10] == Context(e1)[10] && m[17] == Context(e1)[17];
    assert m[10] == Context(e2)[10] && m[17] == Context(e2)[17];
    SameCodeSameStep(e1, e2);
    var n := |Context(e1) + ": "|;
    assert e1.cause == m[n..] == e2.cause;
  }

  /**
   * Two characters of each context tell the steps apart: the verb after
   * "failed to " (position 10) and, after "failed to create ", the object
   * (position 17).
   */
  function StepCode(e: ProvisionError): (char, char)
  {
    match e
    case DownloaderFailed(_) => ('c', 'd')
    case StorageFailed(_) => ('c', 'f')
    case MirrorFailed(_) => ('c', 'm')
    case DownloadFailed(_) => ('d', 'd')
    case InstallDirFailed(_) => ('c', 'i')
    case WriteFailed(_) => ('w', 'p')
  }

  lemma ContextCode(e: ProvisionError)
    ensures |Context(e)| > 17
    ensures Context(e)[10] == StepCode(e).0 && Context(e)[17] == StepCode(e).1
  {
    match e
    case DownloaderFailed(_) =>
    case StorageFailed(_) =>
    case MirrorFailed(_) =>
    case DownloadFailed(_) =>
    case InstallDirFailed(_) =>
    case WriteFailed(_) =>
  }

  lemma SameCodeSameStep(a: ProvisionError, b: ProvisionError)
    requires StepCode(a) == StepCode(b)
    ensures a.(cause := b.cause) == b && Context(a) == Context(b)
  {
  }

  /**
   * The answers of the download library: creating the downloader, creating the
   * filesystem storage for a given cache directory, creating the mirror, and
   * downloading with a given list of options.
   */
  datatype Tofudl = Tofudl(
    newError: Option<string>,
    storageError: string -> Option<string>,
    mirrorError: Option<string>,
    download: seq<DownloadOpt> -> Result<Bytes, string>)

  /** The answers of the filesystem: creating a directory and writing a file at a path. */
  datatype FsEffects = FsEffects(mkdirError: string -> Option<string>, writeError: string -> Option<string>)

  /** os.Stat succeeds and reports a size greater than zero. */
  predicate Installed(files: Files, path: string)
  {
    path in files && |files[path]| > 0
  }

  /**
   * The steps up to and including the download: the downloader, the storage in
   * the cache directory (default or temp fallback), the mirror, and the download
   * with the selector for the version. The first failing step decides the error.
   */
  function Fetch(h: Host, tl: Tofudl, version: string): (r: Result<Bytes, ProvisionError>)
    ensures r.Ok? <==> && tl.newError.None?
                       && tl.storageError(CacheDirFor(h)).None?
                       && tl.mirrorError.None?
                       && tl.download(DownloadOpts(version)).Ok?
    ensures r.Ok? ==> r.value == tl.download(DownloadOpts(version)).value
    ensures tl.newError.Some? ==> r == Err(DownloaderFailed(tl.newError.value))
    ensures tl.newError.None? && tl.storageError(CacheDirFor(h)).Some? ==>
              r == Err(StorageFailed(tl.storageError(CacheDirFor(h)).value))
    ensures tl.newError.None? && tl.storageError(CacheDirFor(h)).None? && tl.mirrorError.Some? ==>
              r == Err(MirrorFailed(tl.mirrorError.value))
    ensures tl.newError.None? && tl.storageError(CacheDirFor(h)).None? && tl.mirrorError.None? &&
            tl.download(DownloadOpts(version)).Err? ==>
              r == Err(DownloadFailed(tl.download(DownloadOpts(version)).error))
  {
    if tl.newError.Some? then Err(DownloaderFailed(tl.newError.value))
    else if tl.storageError(CacheDirFor(h)).Some? then Err(StorageFailed(tl.storageError(CacheDirFor(h)).value))
    else if tl.mirrorError.Some? then Err(MirrorFailed(tl.mirrorError.value))
    else match tl.download(DownloadOpts(version))
      case Err(cause) => Err(DownloadFailed(cause))
      case Ok(binary) => Ok(binary)
  }

  /** The outcome of one provisioning: the result, the new files, and whether a file was written. */
  datatype Provisioned = Provisioned(result: Result<string, ProvisionError>, files: Files, wrote: bool)

  /**
   * The steps after the download: create the install directory, then write the
   * binary unless a non-empty file is already at the binary path.
   */
  function Install(h: Host, fx: FsEffects, version: string, installDir: string, binary: Bytes, files: Files): (p: Provisioned)
    ensures var dir := InstallDirFor(h, version, installDir);
            var path := BinaryPathFor(h, version, installDir);
            && (p.result.Ok? ==> p.result.value == path)
            && (p.wrote <==> fx.mkdirError(dir).None? && !Installed(files, path) && fx.writeError(path).None?)
            && (p.wrote ==> p.result.Ok? && p.files == files[path := binary])
            && (!p.wrote ==> p.files == files)
            && (p.result.Ok? && !p.wrote ==> Installed(files, path))
            && (fx.mkdirError(dir).None? && Installed(files, path) ==> p.result == Ok(path))
            && (fx.mkdirError(dir).Some? ==> p.result == Err(InstallDirFailed(fx.mkdirError(dir).value)))
            && (fx.mkdirError(dir).None? && !Installed(files, path) && fx.writeError(path).Some? ==>
                  p.result == Err(WriteFailed(fx.writeError(path).value)))
  {
    var dir := InstallDirFor(h, version, installDir);
    var path := BinaryPathFor(h, version, installDir);
    if fx.mkdirError(dir).Some? then Provisioned(Err(InstallDirFailed(fx.mkdirError(dir).value)), files, false)
    else if Installed(files, path) then Provisioned(Ok(path), files, false)
    else if fx.writeError(path).Some? then Provisioned(Err(WriteFailed(fx.writeError(path).value)), files, false)
    else Provisioned(Ok(path), files[path := binary], true)
  }

  /** downloadOpenTofuUnsafe: fetch, then install; nothing is written when fetching fails. */
  function Provision(h: Host, tl: Tofudl, fx: FsEffects, version: string, installDir: string, files: Files): (p: Provisioned)
    ensures Fetch(h, tl, version).Err? ==> p == Provisioned(Err(Fetch(h, tl, version).error), files, false)
    ensures p.result.Ok? ==> p.result.value == BinaryPathFor(h, version, installDir)
    ensures !p.wrote ==> p.files == files
    ensures p.wrote ==> && !Installed(files, BinaryPathFor(h, version, installDir))
                        && p.files == files[BinaryPathFor(h, version, installDir) := Fetch(h, tl, version).value]
  {
    match Fetch(h, tl, version)
    case Err(e) => Provisioned(Err(e), files, false)
    case Ok(binary) => Install(h, fx, version, installDir, binary, files)
  }

  /**
   * Resolving twice with the same version and install directory writes at most
   * once: after a successful first resolve (which either reused a non-empty
   * binary or wrote a non-empty download), the second never writes, leaves the
   * files as they are and, when it succeeds, returns the same path. The second
   * call may see different library and filesystem answers.
   */
  lemma ResolveTwiceWritesOnce(h: Host, tl1: Tofudl, fx1: FsEffects, tl2: Tofudl, fx2: FsEffects,
                              version: string, installDir: string, files: Files)
    requires Provision(h, tl1, fx1, version, installDir, files).result.Ok?
    requires Provision(h, tl1, fx1, version, installDir, files).wrote ==> |Fetch(h, tl1, version).value| > 0
    ensures var first := Provision(h, tl1, fx1, version, installDir, files);
            var second := Provision(h, tl2, fx2, version, installDir, first.files);
            && !second.wrote
            && second.files == first.files
            && (second.result.Ok? ==> second.result == first.result)
  {
    var first := Provision(h, tl1, fx1, version, installDir, files);
    var path := BinaryPathFor(h, version, installDir);
    var binary := Fetch(h, tl1, version).value;
    assert first == Install(h, fx1, version, installDir, binary, files);
    assert Installed(first.files, path);
    match Fetch(h, tl2, version)
    case Err(_) =>
    case Ok(binary2) =>
      var second := Install(h, fx2, version, installDir, binary2, first.files);
      assert !second.wrote;
  }

  /**
   * A zero-byte artifact does not count as installed: it is written, and the
   * next resolve with the same answers writes it again.
   */
  lemma EmptyDownloadIsRewritten(h: Host, tl: Tofudl, fx: FsEffects, version: string, installDir: string, files: Files)
    requires Fetch(h, tl, version) == Ok([])
    requires fx.mkdirError(InstallDirFor(h, version, installDir)).None?
    requires fx.writeError(BinaryPathFor(h, version, installDir)).None?
    requires !Installed(files, BinaryPathFor(h, version, installDir))
    ensures var first := Provision(h, tl, fx, version, installDir, files);
            var second := Provision(h, tl, fx, version, installDir, first.files);
            first.wrote && second.wrote
  {
    var path := BinaryPathFor(h, version, installDir);
    var first := Provision(h, tl, fx, version, installDir, files);
    assert first == Install(h, fx, version, installDir, [], files);
    assert first.files[path] == [];
    assert !Installed(first.files, path);
  }
}

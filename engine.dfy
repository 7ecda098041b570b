/**
 * The engine session: Init resolves the binary (possibly downloading it under
 * the download lock), Run starts the binary and streams its output, Shutdown
 * acknowledges. Every external answer (the host, the download library, the
 * filesystem, the lock, the child process, the transport, the goroutine
 * schedule) is a parameter.
 */
module Engine {
  import opened Wrappers
  import opened Resolver
  import opened DownloadLock
  import opened Provisioner
  import opened Streams

  const TofuVersionKey: string := "tofu_version"
  const TofuInstallDirKey: string := "tofu_install_dir"
  const StartedMessage: string := "Tofu Initialization started\n"
  const CompletedMessage: string := "Tofu Initialization completed\n"
  const ShutdownMessage: string := "Tofu Shutdown completed\n"

  /** The errors Init, Run and Shutdown return. */
  datatype EngineError =
    | ProvisionFailed(error: ProvisionError)
    | SendFailed(cause: string)
    | ExecFailed(cause: string)

  /** A message on stdout only, as Init and Shutdown send them. */
  function StdoutMessage(text: string): Response
  {
    Response(text, "", 0)
  }

  // ---------------------------------------------------------------- Init

  /** The string value of a metadata entry: "" when the key is missing or its value nil. */
  function MetaString(meta: map<string, Option<string>>, key: string): string
  {
    if key in meta && meta[key].Some? then meta[key].value else ""
  }

  datatype InitPlan = UseSystemBinary | InstallVersion(version: string, installDir: string)

  /**
   * What Init does with its metadata: without a non-empty tofu_version it uses
   * the system binary; otherwise it downloads that version, into
   * tofu_install_dir when that is given.
   */
  function PlanInit(meta: map<string, Option<string>>): (plan: InitPlan)
    ensures plan.UseSystemBinary? <==>
              TofuVersionKey !in meta || meta[TofuVersionKey].None? || meta[TofuVersionKey] == Some("")
    ensures plan.InstallVersion? ==> plan.version != "" && meta[TofuVersionKey] == Some(plan.version)
    ensures plan.InstallVersion? && TofuInstallDirKey in meta && meta[TofuInstallDirKey].Some? ==>
              plan.installDir == meta[TofuInstallDirKey].value
    ensures plan.InstallVersion? && (TofuInstallDirKey !in meta || meta[TofuInstallDirKey].None?) ==>
              plan.installDir == ""
  {
    var version := MetaString(meta, TofuVersionKey);
    if version == "" then UseSystemBinary else InstallVersion(version, MetaString(meta, TofuInstallDirKey))
  }

  /** An empty request uses the system binary. */
  lemma EmptyMetadataUsesSystemBinary()
    ensures PlanInit(map[]) == UseSystemBinary
  {
  }

  /** The transport's answers to Init's two sends (an error, or None for success). */
  datatype InitSends = InitSends(started: Option<string>, completed: Option<string>)

  // ---------------------------------------------------------------- Run

  datatype RunRequest = RunRequest(
    command: string,
    args: seq<string>,
    workingDir: string,
    envVars: map<string, string>,
    allocatePseudoTty: bool)

  /**
   * The child process's answers: creating each pipe, allocating the
   * pseudo-terminal, starting, the decoded characters of each pipe, and Wait.
   */
  datatype Process = Process(
    stdoutPipeError: Option<string>,
    stderrPipeError: Option<string>,
    ptyError: Option<string>,
    startError: Option<string>,
    stdout: string,
    stderr: string,
    wait: WaitOutcome)

  /**
   * The transport's answers: whether the i-th character send of each pipe
   * succeeds, and the outcome of sendError's send and of the final send.
   */
  datatype Transport = Transport(
    stdoutSends: seq<bool>,
    stderrSends: seq<bool>,
    errorSend: Option<string>,
    resultSend: Option<string>)

  /** A started child: executable, arguments, directory and environment (None: inherited). */
  datatype Command = Command(path: string, args: seq<string>, dir: string, env: Option<seq<string>>)

  /** The executable Run starts: the resolved binary, or "tofu" when none was resolved. */
  function ExecutablePath(binaryPath: string): (path: string)
    ensures path != ""
    ensures binaryPath != "" ==> path == binaryPath
    ensures binaryPath == "" ==> path == IacCommand
  {
    if binaryPath == "" then IacCommand else binaryPath
  }

  function EnvEntry(key: string, value: string): string
  {
    key + "=" + value
  }

  /**
   * `env` lists one "key=value" entry per variable, each key once, in the
   * order `order` (Go's map iteration order, which is unspecified).
   */
  ghost predicate EnvListed(env: seq<string>, vars: map<string, string>, order: seq<string>)
  {
    && |env| == |order|
    && (forall i, j :: 0 <= i < j < |order| ==> order[i] != order[j])
    && (forall k :: k in vars <==> k in order)
    && (forall i :: 0 <= i < |order| ==> order[i] in vars && env[i] == EnvEntry(order[i], vars[order[i]]))
  }

  /** The environment list built from the request's variables, in some key order. */
  method EnvEntries(vars: map<string, string>) returns (env: seq<string>, ghost order: seq<string>)
    ensures EnvListed(env, vars, order)
    ensures |env| == |vars|
  {
    env, order := [], [];
    var pending := vars.Keys;
    while pending != {}
      invariant pending <= vars.Keys
      invariant |env| == |order|
      invariant forall i, j :: 0 <= i < j < |order| ==> order[i] != order[j]
      invariant forall k :: k in order <==> k in vars && k !in pending
      invariant forall i :: 0 <= i < |order| ==> order[i] in vars && env[i] == EnvEntry(order[i], vars[order[i]])
      invariant |order| + |pending| == |vars|
      decreases pending
    {
      var key :| key in pending;
      env := env + [EnvEntry(key, vars[key])];
      order := order + [key];
      pending := pending - {key};
    }
  }

  /**
   * A listed environment holds, for every request variable, its "key=value"
   * entry, and every entry is one of those.
   */
  lemma EnvListedEntries(env: seq<string>, vars: map<string, string>, order: seq<string>)
    requires EnvListed(env, vars, order)
    ensures forall k :: k in vars ==> EnvEntry(k, vars[k]) in env
    ensures forall e :: e in env ==> exists k :: k in vars && e == EnvEntry(k, vars[k])
  {
    forall k | k in vars ensures EnvEntry(k, vars[k]) in env {
      var i :| 0 <= i < |order| && order[i] == k;
      assert env[i] == EnvEntry(k, vars[k]);
    }
    forall e | e in env ensures exists k :: k in vars && e == EnvEntry(k, vars[k]) {
      var i :| 0 <= i < |env| && env[i] == e;
      assert order[i] in vars && e == EnvEntry(order[i], vars[order[i]]);
    }
  }

  /**
   * The command Run starts for `req`: the request's Command field plays no part.
   * With no variables the environment stays nil and is inherited; otherwise it
   * is exactly the request's variables.
   */
  ghost predicate LaunchedFor(c: Command, binaryPath: string, req: RunRequest)
  {
    && c.path == ExecutablePath(binaryPath)
    && c.args == req.args
    && c.dir == req.workingDir
    && (c.env.None? <==> |req.envVars| == 0)
    && (c.env.Some? ==> exists order :: EnvListed(c.env.value, req.envVars, order))
  }

  /** How far Run gets before forwarding: ready, or failed (reported with a fragment or not). */
  datatype Setup = Ready | SetupFailed(cause: string, reported: bool)

  /**
   * The setup steps of Run in order: the stdout pipe, the stderr pipe, the
   * pseudo-terminal when one is asked for, and starting the command. Pipe and
   * start failures are reported through sendError; a pseudo-terminal failure
   * is returned without a fragment.
   */
  function SetupOf(req: RunRequest, proc: Process): (s: Setup)
    ensures s.Ready? <==> && proc.stdoutPipeError.None?
                          && proc.stderrPipeError.None?
                          && (req.allocatePseudoTty ==> proc.ptyError.None?)
                          && proc.startError.None?
    ensures s.SetupFailed? && !s.reported <==>
              && proc.stdoutPipeError.None?
              && proc.stderrPipeError.None?
              && req.allocatePseudoTty
              && proc.ptyError.Some?
    ensures proc.stdoutPipeError.Some? ==> s == SetupFailed(proc.stdoutPipeError.value, true)
    ensures proc.stdoutPipeError.None? && proc.stderrPipeError.Some? ==>
              s == SetupFailed(proc.stderrPipeError.value, true)
    ensures proc.stdoutPipeError.None? && proc.stderrPipeError.None? && req.allocatePseudoTty && proc.ptyError.Some? ==>
              s == SetupFailed(proc.ptyError.value, false)
    ensures proc.stdoutPipeError.None? && proc.stderrPipeError.None? && (req.allocatePseudoTty ==> proc.ptyError.None?) &&
            proc.startError.Some? ==>
              s == SetupFailed(proc.startError.value, true)
  {
    if proc.stdoutPipeError.Some? then SetupFailed(proc.stdoutPipeError.value, true)
    else if proc.stderrPipeError.Some? then SetupFailed(proc.stderrPipeError.value, true)
    else if req.allocatePseudoTty && proc.ptyError.Some? then SetupFailed(proc.ptyError.value, false)
    else if proc.startError.Some? then SetupFailed(proc.startError.value, true)
    else Ready
  }

  /**
   * Whether Run leaves a started child behind: in piped mode once cmd.Start
   * succeeds; in pty mode already once pty.Start succeeds, since pty.Start
   * starts the command itself, whatever the later cmd.Start reports.
   */
  function ChildStarted(req: RunRequest, proc: Process): (started: bool)
    ensures SetupOf(req, proc).Ready? ==> started
    ensures !req.allocatePseudoTty ==> (started <==> SetupOf(req, proc).Ready?)
    ensures req.allocatePseudoTty ==>
              (started <==> || SetupOf(req, proc).Ready?
                            || (&& proc.stdoutPipeError.None? && proc.stderrPipeError.None?
                                && SetupOf(req, proc).SetupFailed? && SetupOf(req, proc).reported))
  {
    && proc.stdoutPipeError.None?
    && proc.stderrPipeError.None?
    && (if req.allocatePseudoTty then proc.ptyError.None? else proc.startError.None?)
  }

  /** The transport's answer to the i-th character send of a pipe. */
  function SendOutcome(sends: seq<bool>, i: nat): Option<string>
  {
    if SendSucceeds(sends, i) then None else Some("send failed")
  }

  // ---------------------------------------------------------------- state

  /** The server side of one response stream: the messages delivered so far. */
  class ResponseStream {
    var sent: seq<Response>

    constructor ()
      ensures sent == []
    {
      sent := [];
    }

    /** stream.Send: the message is delivered unless the transport reports an error. */
    method Send(r: Response, failure: Option<string>) returns (err: Option<string>)
      modifies this
      ensures err == failure
      ensures sent == old(sent) + (if failure.None? then [r] else [])
    {
      if failure.None? {
        sent := sent + [r];
      }
      err := failure;
    }
  }

  /** sendError: one fragment with the error text on stderr and result code 1; a failed send is ignored. */
  method SendError(stream: ResponseStream, cause: string, failure: Option<string>)
    modifies stream
    ensures stream.sent == old(stream.sent) + (if failure.None? then [ErrorResponse(cause)] else [])
    ensures failure.None? ==> stream.sent[|stream.sent| - 1].resultCode == ErrorResultCode
  {
    var ignored := stream.Send(ErrorResponse(cause), failure);
  }

  lemma PrefixSnoc(s: string, i: nat)
    requires i < |s|
    ensures s[..i + 1] == s[..i] + [s[i]]
  {
  }

  /** One more successful send of pipe `p` extends its forwarded prefix by one character. */
  lemma ForwardedStep(fwd: seq<Response>, out: string, err: string, i: nat, j: nat, p: Pipe)
    requires i <= |out| && j <= |err|
    requires p == StdoutPipe ==> i < |out|
    requires p == StderrPipe ==> j < |err|
    requires ForwardedOutput(fwd, out[..i], err[..j])
    ensures p == StdoutPipe ==> ForwardedOutput(fwd + [CharFragment(p, out[i])], out[..i + 1], err[..j])
    ensures p == StderrPipe ==> ForwardedOutput(fwd + [CharFragment(p, err[j])], out[..i], err[..j + 1])
  {
    if p == StdoutPipe {
      ForwardedExtend(fwd, out[..i], err[..j], p, out[i]);
      PrefixSnoc(out, i);
    } else {
      ForwardedExtend(fwd, out[..i], err[..j], p, err[j]);
      PrefixSnoc(err, j);
    }
  }

  /** A send at position i, not beyond the delivered count, succeeds iff i is before that count. */
  lemma DeliveredStep(s: string, sends: seq<bool>, i: nat)
    requires i < |s| && i <= Delivered(s, sends)
    ensures SendOutcome(sends, i).None? ==> i < Delivered(s, sends)
    ensures SendOutcome(sends, i).Some? ==> i == Delivered(s, sends)
  {
  }

  /**
   * The two forwarding goroutines of Run: each decoded character of a pipe is
   * sent as its own fragment, and a failed send ends that pipe's forwarding
   * only. `schedule` stands for the scheduler: while both pipes are being
   * forwarded, true at step k lets the stdout goroutine move.
   */
  method ForwardPipes(out: string, err: string, outSends: seq<bool>, errSends: seq<bool>,
                      schedule: seq<bool>, stream: ResponseStream) returns (ghost forwarded: seq<Response>)
    modifies stream
    ensures stream.sent == old(stream.sent) + forwarded
    ensures ForwardedOutput(forwarded, out[..Delivered(out, outSends)], err[..Delivered(err, errSends)])
  {
    ghost var dOut := Delivered(out, outSends);
    ghost var dErr := Delivered(err, errSends);
    forwarded := [];
    var i, j, k := 0, 0, 0;
    var outOpen, errOpen := true, true;
    while outOpen || errOpen
      invariant stream.sent == old(stream.sent) + forwarded
      invariant i <= dOut && j <= dErr
      invariant !outOpen ==> i == dOut
      invariant !errOpen ==> j == dErr
      invariant ForwardedOutput(forwarded, out[..i], err[..j])
      decreases (|out| - i) + (|err| - j) + (if outOpen then 1 else 0) + (if errOpen then 1 else 0)
    {
      var stdoutMoves := outOpen && (!errOpen || k >= |schedule| || schedule[k]);
      if stdoutMoves {
        if i == |out| {
          outOpen := false;
        } else {
          var fragment := CharFragment(StdoutPipe, out[i]);
          DeliveredStep(out, outSends, i);
          var sendErr := stream.Send(fragment, SendOutcome(outSends, i));
          if sendErr.Some? {
            outOpen := false;
          } else {
            ForwardedStep(forwarded, out, err, i, j, StdoutPipe);
            forwarded := forwarded + [fragment];
            i := i + 1;
          }
        }
      } else {
        if j == |err| {
          errOpen := false;
        } else {
          var fragment := CharFragment(StderrPipe, err[j]);
          DeliveredStep(err, errSends, j);
          var sendErr := stream.Send(fragment, SendOutcome(errSends, j));
          if sendErr.Some? {
            errOpen := false;
          } else {
            ForwardedStep(forwarded, out, err, i, j, StderrPipe);
            forwarded := forwarded + [fragment];
            j := j + 1;
          }
        }
      }
      k := k + 1;
    }
  }

  /**
   * The first half of downloadOpenTofuUnsafe: create the downloader, its
   * storage in the cache directory (temp fallback) and the mirror, then
   * download with the selector for the version.
   */
  method FetchArtifact(h: Host, tl: Tofudl, version: string) returns (r: Result<Bytes, ProvisionError>)
    ensures r == Fetch(h, tl, version)
  {
    if tl.newError.Some? {
      return Err(DownloaderFailed(tl.newError.value));
    }
    var cacheDir: string;
    var defaultCache := DefaultCacheDir(h);
    if defaultCache.Some? {
      cacheDir := defaultCache.value;
    } else {
      cacheDir := Join(h.goos, h.temp, CacheDirName);
    }
    var storageError := tl.storageError(cacheDir);
    if storageError.Some? {
      return Err(StorageFailed(storageError.value));
    }
    if tl.mirrorError.Some? {
      return Err(MirrorFailed(tl.mirrorError.value));
    }
    var opts: seq<DownloadOpt> := [];
    if version == Latest {
      opts := opts + [MinimumStability(Stable)];
    } else {
      var normalized := NormalizeVersion(version);
      opts := opts + [Version(normalized)];
    }
    assert cacheDir == CacheDirFor(h);
    assert opts == DownloadOpts(version);
    var downloaded := tl.download(opts);
    if downloaded.Err? {
      return Err(DownloadFailed(downloaded.error));
    }
    return Ok(downloaded.value);
  }

  /**
   * The engine: the resolved binary path, and the effects it leaves behind —
   * the files on disk, the download-lock events and the commands it started.
   */
  class TofuEngine {
    var binaryPath: string
    var files: Files
    var lockLog: seq<LockEvent>
    var spawned: seq<Command>

    constructor (disk: Files)
      ensures binaryPath == "" && files == disk && lockLog == [] && spawned == []
    {
      binaryPath := "";
      files := disk;
      lockLog := [];
      spawned := [];
    }

    method SetBinaryPath(path: string)
      modifies this`binaryPath
      ensures binaryPath == path
    {
      binaryPath := path;
    }

    method GetBinaryPath() returns (path: string)
      ensures path == binaryPath
    {
      path := binaryPath;
    }

    /**
     * downloadOpenTofuUnsafe: fetch the artifact, pick the install directory
     * (versioned default, temp fallback), create it, and write the binary
     * unless a non-empty one is already there.
     */
    method DownloadOpenTofuUnsafe(h: Host, tl: Tofudl, fx: FsEffects, version: string, installDir: string)
      returns (r: Result<string, ProvisionError>)
      modifies this`files, this`lockLog
      ensures lockLog == old(lockLog) + [DownloadRan]
      ensures r == Provision(h, tl, fx, version, installDir, old(files)).result
      ensures files == Provision(h, tl, fx, version, installDir, old(files)).files
    {
      lockLog := lockLog + [DownloadRan];
      var fetched := FetchArtifact(h, tl, version);
      if fetched.Err? {
        return Err(fetched.error);
      }
      var binary := fetched.value;
      var dir := installDir;
      if dir == "" {
        var defaultBin := DefaultBinDir(h, version);
        if defaultBin.Some? {
          dir := defaultBin.value;
        } else {
          dir := h.temp;
        }
      }
      var mkdirError := fx.mkdirError(dir);
      if mkdirError.Some? {
        return Err(InstallDirFailed(mkdirError.value));
      }
      var name := IacCommand;
      if h.goos == "windows" {
        name := name + ".exe";
      }
      assert dir == InstallDirFor(h, version, installDir);
      assert name == BinaryName(h.goos);
      var path := Join(h.goos, dir, name);
      assert path == BinaryPathFor(h, version, installDir);
      assert Provision(h, tl, fx, version, installDir, files) == Install(h, fx, version, installDir, binary, files);
      if path in files && |files[path]| > 0 {
        return Ok(path);
      }
      var writeError := fx.writeError(path);
      if writeError.Some? {
        return Err(WriteFailed(writeError.value));
      }
      files := files[path := binary];
      return Ok(path);
    }

    /**
     * downloadOpenTofu: take the global download lock if possible and run the
     * unsynchronised download exactly once either way; a lock that was taken
     * is released afterwards. The result is the download's, whatever the lock did.
     */
    method DownloadOpenTofu(h: Host, lk: LockOutcomes, tl: Tofudl, fx: FsEffects, version: string, installDir: string)
      returns (r: Result<string, ProvisionError>)
      modifies this`files, this`lockLog
      ensures r == Provision(h, tl, fx, version, installDir, old(files)).result
      ensures files == Provision(h, tl, fx, version, installDir, old(files)).files
      ensures lockLog == old(lockLog) + LockTrace(Acquire(LockFilePath(h, fx.mkdirError), lk))
    {
      var lockPath := LockFilePath(h, fx.mkdirError);
      if lockPath.None? {
        r := DownloadOpenTofuUnsafe(h, tl, fx, version, installDir);
        return;
      }
      var path := lockPath.value;
      match lk.tryLock {
        case TryFailed(_) =>
          r := DownloadOpenTofuUnsafe(h, tl, fx, version, installDir);
          return;
        case TryContended =>
          if lk.blockingLock.Some? {
            r := DownloadOpenTofuUnsafe(h, tl, fx, version, installDir);
            return;
          }
        case TryAcquired =>
      }
      lockLog := lockLog + [Locked(path)];
      r := DownloadOpenTofuUnsafe(h, tl, fx, version, installDir);
      // The deferred Unlock runs after the download whatever it returned; its
      // outcome (lk.unlock) is only logged.
      lockLog := lockLog + [Unlocked(path)];
    }

    /**
     * Init: send "started"; resolve the binary path from the metadata
     * (system binary, or a download); send "completed".
     */
    method Init(meta: map<string, Option<string>>, h: Host, lk: LockOutcomes, tl: Tofudl, fx: FsEffects,
                sends: InitSends, stream: ResponseStream)
      returns (err: Option<EngineError>)
      modifies this, stream
      ensures spawned == old(spawned)
      ensures sends.started.Some? ==>
                && err == Some(SendFailed(sends.started.value))
                && stream.sent == old(stream.sent)
                && binaryPath == old(binaryPath) && files == old(files) && lockLog == old(lockLog)
      ensures sends.started.None? && PlanInit(meta).UseSystemBinary? ==>
                && binaryPath == IacCommand
                && files == old(files) && lockLog == old(lockLog)
                && stream.sent == old(stream.sent) + [StdoutMessage(StartedMessage)]
                                  + (if sends.completed.None? then [StdoutMessage(CompletedMessage)] else [])
                && err == (if sends.completed.Some? then Some(SendFailed(sends.completed.value)) else None)
      ensures sends.started.None? && PlanInit(meta).InstallVersion? ==>
                var plan := PlanInit(meta);
                var p := Provision(h, tl, fx, plan.version, plan.installDir, old(files));
                && files == p.files
                && lockLog == old(lockLog) + LockTrace(Acquire(LockFilePath(h, fx.mkdirError), lk))
                && (p.result.Err? ==>
                      && err == Some(ProvisionFailed(p.result.error))
                      && binaryPath == old(binaryPath)
                      && stream.sent == old(stream.sent) + [StdoutMessage(StartedMessage)])
                && (p.result.Ok? ==>
                      && binaryPath == p.result.value
                      && stream.sent == old(stream.sent) + [StdoutMessage(StartedMessage)]
                                        + (if sends.completed.None? then [StdoutMessage(CompletedMessage)] else [])
                      && err == (if sends.completed.Some? then Some(SendFailed(sends.completed.value)) else None))
    {
      var sendErr := stream.Send(StdoutMessage(StartedMessage), sends.started);
      if sendErr.Some? {
        return Some(SendFailed(sendErr.value));
      }
      var version := MetaString(meta, TofuVersionKey);
      var installDir := MetaString(meta, TofuInstallDirKey);
      if version != "" {
        var downloaded := DownloadOpenTofu(h, lk, tl, fx, version, installDir);
        if downloaded.Err? {
          return Some(ProvisionFailed(downloaded.error));
        }
        SetBinaryPath(downloaded.value);
      } else {
        SetBinaryPath(IacCommand);
      }
      sendErr := stream.Send(StdoutMessage(CompletedMessage), sends.completed);
      if sendErr.Some? {
        return Some(SendFailed(sendErr.value));
      }
      return None;
    }

    /**
     * Run: start the resolved binary with the request's arguments, directory
     * and environment, forward each decoded character of stdout and stderr as
     * its own fragment (a failed send ends only that pipe's forwarding), then
     * send the result code. `schedule` stands for the goroutine scheduler: at
     * each step, when both pipes are still being forwarded, true lets stdout's
     * goroutine move. No order between the two pipes is promised.
     */
    method Run(req: RunRequest, proc: Process, tr: Transport, schedule: seq<bool>, stream: ResponseStream)
      returns (err: Option<EngineError>, ghost forwarded: seq<Response>)
      modifies this`spawned, stream
      ensures SetupOf(req, proc).SetupFailed? ==>
                var s := SetupOf(req, proc);
                && err == Some(ExecFailed(s.cause))
                && stream.sent == old(stream.sent) + (if s.reported && tr.errorSend.None? then [ErrorResponse(s.cause)] else [])
      ensures |spawned| == |old(spawned)| + (if ChildStarted(req, proc) then 1 else 0)
      ensures spawned[..|old(spawned)|] == old(spawned)
      ensures ChildStarted(req, proc) ==> LaunchedFor(spawned[|old(spawned)|], binaryPath, req)
      ensures SetupOf(req, proc).Ready? ==>
                var dOut := Delivered(proc.stdout, tr.stdoutSends);
                var dErr := Delivered(proc.stderr, tr.stderrSends);
                var last := ResultResponse(ResultCode(proc.wait));
                && ForwardedOutput(forwarded, proc.stdout[..dOut], proc.stderr[..dErr])
                && stream.sent == old(stream.sent) + forwarded + (if tr.resultSend.None? then [last] else [])
                && err == (if tr.resultSend.Some? then Some(SendFailed(tr.resultSend.value)) else None)
                && (tr.resultSend.None? ==>
                      && Text(forwarded + [last], StdoutPipe) == proc.stdout[..dOut]
                      && Text(forwarded + [last], StderrPipe) == proc.stderr[..dErr])
    {
      var cmdPath := binaryPath;
      if cmdPath == "" {
        cmdPath := IacCommand;
      }
      var env: seq<string>;
      ghost var order: seq<string>;
      env, order := EnvEntries(req.envVars);
      // append(nil, env...) leaves cmd.Env nil when there are no variables.
      var cmdEnv: Option<seq<string>> := if |env| == 0 then None else Some(env);
      var command := Command(cmdPath, req.args, req.workingDir, cmdEnv);

      if proc.stdoutPipeError.Some? {
        SendError(stream, proc.stdoutPipeError.value, tr.errorSend);
        return Some(ExecFailed(proc.stdoutPipeError.value)), [];
      }
      if proc.stderrPipeError.Some? {
        SendError(stream, proc.stderrPipeError.value, tr.errorSend);
        return Some(ExecFailed(proc.stderrPipeError.value)), [];
      }
      assert LaunchedFor(command, binaryPath, req);
      if req.allocatePseudoTty {
        if proc.ptyError.Some? {
          return Some(ExecFailed(proc.ptyError.value)), [];
        }
        // pty.Start has started the command.
        spawned := spawned + [command];
      }
      if proc.startError.Some? {
        SendError(stream, proc.startError.value, tr.errorSend);
        return Some(ExecFailed(proc.startError.value)), [];
      }
      if !req.allocatePseudoTty {
        spawned := spawned + [command];
      }

      forwarded := ForwardPipes(proc.stdout, proc.stderr, tr.stdoutSends, tr.stderrSends, schedule, stream);

      var resultCode := 0;
      match proc.wait {
        case Exited =>
        case ExitError(code) => resultCode := Int32(code);
        case WaitFailed(_) => resultCode := 1;
      }
      assert resultCode == ResultCode(proc.wait);
      var sendErr := stream.Send(ResultResponse(resultCode), tr.resultSend);
      if sendErr.Some? {
        return Some(SendFailed(sendErr.value)), forwarded;
      }
      RunStreamShape(forwarded, proc.stdout[..Delivered(proc.stdout, tr.stdoutSends)],
                     proc.stderr[..Delivered(proc.stderr, tr.stderrSends)], resultCode);
      return None, forwarded;
    }

    /** Shutdown: one acknowledgement on stdout with result code 0. */
    method Shutdown(stream: ResponseStream, failure: Option<string>) returns (err: Option<EngineError>)
      modifies stream
      ensures stream.sent == old(stream.sent) + (if failure.None? then [StdoutMessage(ShutdownMessage)] else [])
      ensures err == (if failure.Some? then Some(SendFailed(failure.value)) else None)
    {
      var sendErr := stream.Send(StdoutMessage(ShutdownMessage), failure);
      if sendErr.Some? {
        return Some(SendFailed(sendErr.value));
      }
      return None;
    }
  }
}

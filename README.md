# OpenTofu engine for Terragrunt: a Dafny model

This project models the engine that Terragrunt drives over RPC to run OpenTofu
(`engine/engine.go`). That file does three things:

- **Init** sends a "started" message and then resolves the OpenTofu binary. With no
  `tofu_version` in the request metadata it uses the system `tofu`. Otherwise it
  downloads that version through the tofudl library, under a global file lock, into a
  version-keyed install directory, and writes the binary only when no non-empty file
  is already there. Last, it sends a "completed" message.
- **Run** starts the resolved binary with the request's arguments, working directory
  and environment variables. It forwards stdout and stderr one decoded character per
  message, from two goroutines, then sends the child's result code.
- **Shutdown** sends one acknowledgement.

Modules:

- `Wrappers`: `Option` and `Result`.
- `Resolver`: version normalisation, the download selector, and the cache, install,
  lock and binary paths. Computing them needs the home directory (absent when its
  lookup fails), the temporary directory and GOOS, which come in as a `Host` value.
  `filepath.Join` is modelled without path cleaning.
- `DownloadLock`: the lock-file path, the decision to run under the lock or run
  unsynchronised, and the sequence of lock events one download produces.
- `Provisioner`: `downloadOpenTofuUnsafe` written as pure functions (`Fetch`,
  `Install`, `Provision`). The filesystem is a map from path to bytes. The download
  library's and the filesystem's answers are parameters (`Tofudl`, `FsEffects`).
- `Streams`: the response record `(stdout, stderr, resultCode)`, the character
  fragments, how each pipe's text is reassembled, how many characters reach the
  receiver, Go's `int32` conversion, and the result code derived from `cmd.Wait`.
- `Engine`:
  - `ResponseStream` is the server side of a stream. Its `sent` field holds the
    messages delivered so far.
  - `TofuEngine` is the engine. Its `binaryPath` field is the source's. The class
    also holds the state the engine's effects leave behind: `files`, `lockLog` and
    `spawned`.
  - Its methods `Init`, `Run`, `Shutdown`, `DownloadOpenTofu`,
    `DownloadOpenTofuUnsafe`, `SetBinaryPath` and `GetBinaryPath` are imperative and
    are proved against the specification functions above.
  - Helpers: `FetchArtifact`, the download half of `downloadOpenTofuUnsafe`; `EnvEntries`, the loop over the environment map whose key order is left
    unspecified; `ForwardPipes`, both forwarding goroutines as one loop; and
    `SendError`.

The child process, the transport and the lock are all parameters:

- the child process's answers (pipes, pty, start, decoded output, wait status) are a
  `Process` value;
- the transport's answers to each send are a `Transport` value;
- the lock's answers are a `LockOutcomes` value;
- how the scheduler interleaves the two forwarding goroutines is a `schedule`
  sequence.

`Run`'s contract therefore holds for every interleaving, and it states nothing about
order across the two pipes.

Two behaviours of the code that are easy to misread, modelled as written:

- The child's environment is the request's variables only, not the ambient
  environment with the variables laid over it. `cmd.Env` starts as nil and
  `append(nil, env...)` stays nil when there are no variables, so only a request
  without variables inherits the ambient environment
  (`engine/engine.go:314-319`).
- `ExitError.ExitCode()` is passed through as the result code. For a child killed by
  a signal Go reports -1, so the result code is -1, not 1; only a non-exit wait error
  gives 1 (`engine/engine.go:416-423`).

## Model

| member | source | states |
|---|---|---|
| Resolver.NormalizeVersion | engine/engine.go:138-142 | the result is the input with at most one leading 'v' removed, and a 'v' is removed exactly when the input starts with one |
| Resolver.NormalizeVersionOfPrefixed | engine/engine.go:140-142 | a 'v' put in front is taken off again |
| Resolver.NormalizeVersionStripsOnlyOne | engine/engine.go:140-142 | "vv1" normalises to "v1"; only a second normalisation reaches "1" |
| Resolver.DownloadOpts | engine/engine.go:248-259 | exactly one option; it selects a particular version iff the token is not "latest"; a version option carries the normalised token; "latest" asks for the stable channel |
| Resolver.DefaultCacheDir | engine/engine.go:114-124 | present iff the home lookup succeeds, and then home/.cache/terragrunt/tofudl/cache |
| Resolver.DefaultBinDir | engine/engine.go:126-136 | present iff the home lookup succeeds, and then the tofudl bin directory joined with the raw version token |
| Resolver.CacheDirFor | engine/engine.go:223-228 | the default cache directory, or temp/tofudl-cache when the home lookup fails |
| Resolver.InstallDirFor | engine/engine.go:268-276 | a non-empty install directory is used as given; otherwise the versioned default, or the temp directory when the home lookup fails |
| Resolver.BinaryName | engine/engine.go:282-285 | "tofu.exe" exactly on windows, "tofu" otherwise |
| Resolver.BinaryPathFor | engine/engine.go:282-287 | the install directory actually used (explicit, versioned default or temp), a separator and "tofu" or "tofu.exe"; just the name when that directory is empty |
| Resolver.DefaultBinDirInjective | engine/engine.go:126-136 | two version tokens that are single clean path elements (non-empty, no separator, not "." or "..") share a default install directory iff they are equal |
| Resolver.RawTokenKeysInstallDir | engine/engine.go:250-276 | for a clean token s, "v"+s and s download the same release but install into different default directories |
| DownloadLock.LockFilePath | engine/engine.go:144-172 | present iff the home lookup and the lock-directory creation succeed; then one global lock file, the same for every version |
| DownloadLock.Acquire | engine/engine.go:174-200 | the download runs under the lock iff a path was found and TryLock took the lock, or met contention and the blocking Lock succeeded; otherwise it runs unsynchronised and no lock failure is an error |
| DownloadLock.LockTrace | engine/engine.go:202-212 | the download runs exactly once; under the lock the first event takes that lock file and the last releases it; unsynchronised there are no lock events |
| Provisioner.MessageInjective | engine/engine.go:217-296 | two errors with the same text are the same error: the text names the failing step and carries its cause in full |
| Provisioner.Fetch | engine/engine.go:217-266 | succeeds iff the downloader, storage in the chosen cache directory, mirror and download with the selector all succeed, returning the downloaded bytes; the first failure decides the error |
| Provisioner.Install | engine/engine.go:268-300 | the success path is the binary path; the file is written iff the directory is created, no non-empty file exists there and the write succeeds; a failed mkdir returns InstallDirFailed and a failed write WriteFailed, each with its cause; when nothing is written the files are unchanged, and a success without a write returns an existing non-empty binary |
| Provisioner.Provision | engine/engine.go:217-301 | a failed fetch writes nothing and returns its error; a write happens only where no non-empty binary existed and stores the downloaded bytes at the binary path |
| Provisioner.ResolveTwiceWritesOnce | engine/engine.go:289-300 | after a successful resolve that reused an existing binary or wrote a non-empty one, resolving the same version again never writes, keeps the files, and on success returns the same path |
| Provisioner.EmptyDownloadIsRewritten | engine/engine.go:289-296 | a zero-byte binary does not count as installed and is written again by the next resolve |
| Streams.CharFragment | engine/engine.go:382 | a forwarded character is a message with that one character on its own pipe, nothing on the other, and result code 0 |
| Streams.PipeFragmentsInOrder | engine/engine.go:365-411 | in a stream of character fragments, each pipe's fragments are one per character of its text, in order |
| Streams.FragmentCount | engine/engine.go:365-411 | each character fragment carries exactly one character of one pipe |
| Streams.ForwardedShape | engine/engine.go:360-412 | forwarded output has one fragment per forwarded character, and each pipe's fragments spell out its characters in order |
| Streams.ForwardedExtend | engine/engine.go:372-386 | sending one more character of a pipe extends that pipe's text and leaves the other's unchanged |
| Streams.RunStreamShape | engine/engine.go:360-427 | after the final send only the last message is not a character fragment, it carries the result code, and the reassembled texts are exactly the forwarded characters |
| Streams.DeliveredFrom | engine/engine.go:382-385 | counting from k, each position before the count is sent successfully and the count stops at the first failed send or at the end |
| Streams.Delivered | engine/engine.go:382-385 | the characters that reach the receiver are all of them up to the first failed send; with no failed send, all of them |
| Streams.Int32 | engine/engine.go:425 | Go's int32 conversion: in the signed 32-bit range, congruent modulo 2^32, the identity on values in range |
| Streams.ResultCode | engine/engine.go:414-425 | 0 after a clean exit, 1 after a non-exit wait error, the exit code after an exit error (wrapped to int32) |
| Streams.ExitStatusFidelity | engine/engine.go:414-425 | an exit status from 0 to 255 comes back unchanged |
| Engine.PlanInit | engine/engine.go:63-97 | the system binary iff tofu_version is missing, nil or empty; otherwise that version, with tofu_install_dir when given and "" when missing |
| Engine.EmptyMetadataUsesSystemBinary | engine/engine.go:93-97 | an Init request without metadata uses the system binary |
| Engine.ExecutablePath | engine/engine.go:306-309 | the resolved binary path, or "tofu" when it is empty |
| Engine.EnvEntries | engine/engine.go:314-317 | one "key=value" entry per request variable, each key exactly once, in some key order |
| Engine.EnvListedEntries | engine/engine.go:314-319 | every request variable's entry is in the list, and every entry in the list is one of them |
| Engine.SetupOf | engine/engine.go:321-358 | ready iff both pipes, the pty (when one is asked for) and the start succeed; the first failure decides the error, and only a pty failure goes unreported on the stream |
| Engine.ChildStarted | engine/engine.go:321-358 | a child is left started after both pipes and, in piped mode, cmd.Start succeed, or in pty mode already after pty.Start succeeds: there it holds iff setup is ready or only the later cmd.Start failed; in piped mode iff setup is ready |
| Engine.SendError | engine/engine.go:432-436 | appends one message with the error text on stderr and result code 1, and nothing when that send fails |
| Engine.ForwardPipes | engine/engine.go:360-412 | for every schedule, the stream gains exactly the forwarded output of each pipe's characters up to its first failed send |
| Engine.FetchArtifact | engine/engine.go:217-266 | the outcome of creating the downloader, storage and mirror and downloading is exactly Fetch's |
| Engine.TofuEngine.SetBinaryPath | engine/engine.go:42-47 | the binary path becomes the given one |
| Engine.TofuEngine.GetBinaryPath | engine/engine.go:49-54 | returns the current binary path |
| Engine.TofuEngine.DownloadOpenTofuUnsafe | engine/engine.go:215-301 | result and new files are Provision's, with one download event logged |
| Engine.TofuEngine.DownloadOpenTofu | engine/engine.go:174-213 | result and new files are Provision's whatever the lock did; the lock events are LockTrace of Acquire |
| Engine.TofuEngine.Init | engine/engine.go:56-106 | a failed first send changes nothing; the system binary or the downloaded path becomes the binary path; a download error is returned after only the started message and leaves the binary path unchanged; the completed message is sent last |
| Engine.TofuEngine.Run | engine/engine.go:303-430 | setup failures return the error and report it once (the pty failure not at all); exactly one command is recorded as started when ChildStarted holds, and none otherwise; that command is built from the binary path, arguments, directory and environment; the stream gains the forwarded output of each pipe and then the result code, and each pipe's reassembled text is its delivered characters |
| Engine.TofuEngine.Shutdown | engine/engine.go:438-446 | one stdout acknowledgement with result code 0, or the send error |

## Left out

- The RPC layer (plugin handshake, gRPC registration, `main.go`) is not part of this model.
- The tofudl library's internals: downloading, signature checks, and the mirror's
  stale-cache policy with its two cache timeouts. Each step's outcome is a parameter.
- The read-write mutex around `binaryPath`. The model has one caller at a time.
- Goroutines and the `WaitGroup` join: the two forwarding goroutines are one loop,
  driven by a schedule parameter that covers every interleaving.
- In pty mode, the three `io.Copy` goroutines and closing the pty.
  `pty.Start` starts the command itself, before the second `cmd.Start` at line 355.
  The outcome of that second start depends on the pty library, which is not part of
  this model, so it is the `startError` parameter.
- UTF-8 decoding of the pipes: each pipe's decoded characters are given. A read
  error ends that pipe's forwarding the same way as end of file.
- Log output, file modes (0755), and partial writes are left out. `os.Stat` on a
  directory is also not modelled; the filesystem map holds only files.
- `filepath.Join`'s path cleaning (`..`, repeated separators) is not modelled.
- Resolver.DefaultBinDirInjective: holds only for tokens that are single clean path
  elements. `filepath.Join` cleans the joined path, so "1.9.1", "1.9.1/" and
  "./1.9.1" all share one directory. The model's `Join` does no cleaning.
- Stdin: in piped mode the child reads the engine's own stdin (`cmd.Stdin = os.Stdin`,
  line 352). In pty mode the caller's input is copied into the pty. `Command` has no
  stdin field.
- Engine.TofuEngine.Run: does not state that the child runs to completion before
  the result is sent, because processes are not modelled beyond their outcomes.
- Engine.TofuEngine.Run: in pty mode a failed second `cmd.Start` leaves the child that
  `pty.Start` started running and never waited for. The model records it as started
  (`ChildStarted`) but has no notion of a process left running.
- Engine.ForwardPipes: after a failed send the goroutine returns and stops reading its
  pipe (lines 382-384 and 406-408). A child that keeps writing then blocks once the OS pipe buffer
  fills, the other pipe never reaches end of file, `wg.Wait()` (line 412) never returns,
  and no result code is sent. The model hands over each pipe's whole output whether it
  is read or not, so forwarding always ends and Run always tries the final send.
- Engine.ForwardPipes: the two goroutines call `stream.Send` concurrently on one gRPC
  stream, which gRPC does not allow. The model treats each send as atomic and only
  interleaves whole sends.
- Engine.TofuEngine.DownloadOpenTofu: the outcome of the deferred Unlock only
  affects logging, so the model records the release event whatever the outcome.

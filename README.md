# makisu `listen`: admission gate, build handler and stderr relay

This project models the request handlers of `makisu listen`, a daemon that
takes build requests over HTTP on a unix socket. The model covers three parts:

- **Admission gate** (`gate.dfy`). This is the shared `building` flag. `TryAcquire` is the
  compare-and-set that admits at most one build. `Release` is the deferred
  `Store(false)`. `IsBusy` is the `Load` that `/ready` performs.
- **Build handler** (`listen.dfy`). The `/build` handler's control flow runs over the
  process state it swaps: `os.Stderr` and the current `lib/log` logger.
  - Everything outside the handler is an input: the body read, JSON decoding,
    `os.Pipe`, `NewApplication`, `RunCLI`, `Cleanup`, the logger the engine
    leaves installed, and what the relay reads from the pipe (`BuildEnv`).
  - Each response is recorded as the trace of calls on the
    `http.ResponseWriter` (`http.dfy`).
  - The daemon-side effects are recorded in an `EffectLog` (`daemon.dfy`).
    Each operation appends its own effect when it runs: the gate's acquire and
    release, `os.Pipe`, the `os.Stderr` assignment, the write end's `Close`,
    the receive from `done`, `log.SetLogger`, and each engine call. The order
    and the number of effects of `Listen.Build` therefore follow from the
    calls it makes.
- **Line relay** (`relay.dfy`). This is the goroutine that drains the pipe. For each
  line read it writes the line plus `'\n'`, flushes when the writer is an
  `http.Flusher`, and sends on `done` once on the way out.
  - `RelayedBody` is the body the client should see. `SplitLines` is the
    modelled framing: it splits the bytes written into the pipe at each `'\n'`.
    It agrees with `ReadLine` only on output that has no `'\r'` before a
    newline and no line of 4096 bytes or more (a line and its `'\n'` must fit
    in the reader's 4096-byte buffer).
  - Two lemmas relate them: `SplitRelayed` and `RelayedSplit`. Under the
    modelled framing they show that relaying loses, reorders, merges and
    splits nothing. The real relay drops the `'\r'` of a `"\r\n"` ending. It
    also writes an over-long line as several fragments, each with its own
    `'\n'`, because `isPrefix` is ignored at cli/listen.go:114.

Restoring os.Stderr after each build, as the logger is restored, would be
expected. The code does not do this: `os.Stderr` is reassigned at cli/listen.go:100, and the teardown
at cli/listen.go:103-108 restores only the logger. The model follows the code.
After a redirected build, `Listen.Build` ensures that `os.Stderr` is the fresh,
closed pipe write end. The logger, by contrast, is back to its value from
before the request.

A relay that stops once a write to a disconnected client fails would also
be expected. The code ignores `rw.Write` errors, and the loop ends only on a
read error or EOF. The model follows the code here too.

The goroutine is sequential in the model. It runs to completion between
closing the write end and receiving from `done`. That is the only point where
the handler waits for it.

## Model

| member | source | states |
|---|---|---|
| `Gate.AdmissionGate.constructor` | cli/listen.go:29 | the gate starts free |
| `Gate.AdmissionGate.TryAcquire` | cli/listen.go:71 | CAS(false, true): succeeds exactly when the gate was free; the gate is held afterwards either way; a success records `Admitted` and a failure records nothing |
| `Gate.AdmissionGate.Release` | cli/listen.go:76 | Store(false): the gate is free afterwards, unconditionally, and `Released` is recorded |
| `Gate.AdmissionGate.IsBusy` | cli/listen.go:63 | Load: returns the flag and changes nothing |
| `Gate.ContendedAcquire` | cli/listen.go:71-76 | of two CAS attempts at most one is admitted, and one is admitted exactly when the gate was free; at most one `Admitted` is recorded |
| `Daemon.OsFile.Close` | cli/listen.go:104 | the file is closed afterwards and its close is recorded |
| `Daemon.OpenPipe` | cli/listen.go:91 | a successful os.Pipe yields a fresh, open read end and a distinct fresh, open write end, and records `PipeCreated` |
| `Daemon.Process.RedirectStderr` | cli/listen.go:100 | os.Stderr is the given file afterwards, the logger is unchanged, and the redirection is recorded |
| `Daemon.Process.SetLogger` | cli/listen.go:106 | the logger is the given one afterwards, os.Stderr is unchanged, and `LoggerSet` with that logger is recorded |
| `Listen.NewListenFlags` | cli/listen.go:26-31 | the default socket path is `/makisu-socket/makisu.sock` and a fresh gate starts free |
| `Listen.Ready` | cli/listen.go:62-68 | writes 409 exactly when a build holds the gate and 200 otherwise; the flag is unchanged |
| `Listen.Build` | cli/listen.go:70-143 | the response is `BuildResponse`; what the operations it calls append to the effect log is exactly `BuildEffects`; the flag ends as it began (held if rejected, released if admitted); the logger ends as it began; os.Stderr is unchanged unless redirection happened, and then it is the fresh, closed pipe write end |
| `Listen.Reply` | cli/listen.go:72-94 | the writer receives the status and then one chunk, which is how the rejection and each early error respond |
| `Listen.Stream` | cli/listen.go:91-143 | with the gate held: commits 200, then the relayed lines; the log gains, in this order: pipe created, stderr redirected, relay started, the engine chain, write end closed, relay done, captured logger set; os.Stderr ends as the fresh, closed write end |
| `Listen.Invoke` | cli/listen.go:131-143 | requires the gate held; the engine calls it records are `EngineChain`; os.Stderr is untouched |
| `Listen.EngineChain` | cli/listen.go:133-143 | the chain starts with NewApplication; RunCLI runs iff NewApplication succeeded; Cleanup runs iff both succeeded; the chain ends in a logged error iff some step failed |
| `Listen.Teardown` | cli/listen.go:103-108 | with the gate held: the write end is closed, the relay drains fully, done is sent once and received once, the captured logger is restored, os.Stderr is left as it is; the log gains exactly close, relay done, logger set, in that order |
| `Listen.GateReleasedOnce` | cli/listen.go:71-76 | in `BuildEffects`, a rejected request has no effect on the daemon; an admitted one starts with Admitted, ends with Released, and each occurs exactly once |
| `Listen.EarlyExitTouchesNothing` | cli/listen.go:80-96 | a body, JSON or pipe failure yields only admission and release: no pipe, no redirection, no engine call |
| `Listen.TeardownOrder` | cli/listen.go:98-108 | on the redirected path: the pipe and redirection come before NewApplication; the path ends with close write end, relay done, restore the captured logger, release; RunCLI and Cleanup are guarded by the previous step's success |
| `Listen.ResponseStatus` | cli/listen.go:71-128 | the status is 409 when rejected, 400 on body or JSON failure, 500 on pipe failure, and 200 once redirection starts, whatever the engine does |
| `Listen.ResponseBody` | cli/listen.go:73-121 | the body is `Already processing a request`, or the error message plus `"\n"`, or exactly the relayed lines each followed by `"\n"` |
| `Listen.HeaderFirstAndOnly` | cli/listen.go:72-128 | every response writes its status first and exactly once; the relay never writes a status |
| `Listen.EngineOutcomeInvisible` | cli/listen.go:128-143 | the response does not depend on the outcomes of NewApplication, RunCLI or Cleanup |
| `Listen.RejectWhileBuilding` | cli/listen.go:71-75 | a request made while a build holds the gate gets 409 Already processing a request; it leaves the flag held, os.Stderr and the logger untouched, and records nothing |
| `Listen.SequentialBuilds` | cli/listen.go:70-143 | two redirected builds one after the other are both admitted; each gets 200 and its own relayed lines; the log holds the two builds' effects in turn; the gate is free at the end |
| `Relay.Drain` | cli/listen.go:110-126 | requires the pipe's write end closed, since only then does the read reach its end; the writer receives exactly `RelayTrace(lines)`: each line plus `'\n'`, then a flush, in read order; it stops at EOF or a read error and sends on done exactly once |
| `Relay.RelayTrace` | cli/listen.go:120-124 | the number of writer calls is one per line, or two per line when the writer is a flusher |
| `Relay.RelayTraceAt` | cli/listen.go:120-124 | line k is the write at position k (or 2k with a flusher), and its flush comes right after |
| `Relay.RelayNoHeader` | cli/listen.go:120-124 | the relay only writes and flushes; it never writes a status |
| `Relay.RelayBody` | cli/listen.go:113-125 | the body the relay produces is `RelayedBody(lines)`, the concatenation of `line + "\n"` |
| `Relay.SplitLines` | cli/listen.go:112-114 | no framed line contains `'\n'` |
| `Relay.SplitRelayed` | cli/listen.go:112-125 | framing the relayed body gives back the lines, provided no line contains `'\n'` |
| `Relay.RelayedSplit` | cli/listen.go:112-125 | under the modelled framing, relaying the framed pipe data reproduces the data; only a final unterminated line gets one `'\n'` appended |
| `Relay.DoneChannel.Send` | cli/listen.go:111 | the relay's deferred `done <- true` |
| `Relay.DoneChannel.Receive` | cli/listen.go:105 | `<-done` takes a send not yet received and records `RelayDone` |

## Left out

- `Listen` (cli/listen.go:40-60) is left out. It covers socket directory creation, `net.Listen`, the mux and `http.Server.Serve`, which are I/O plumbing.
- The build engine is left out. `NewApplication`, `commander.RunCLI` and `app.Cleanup` are foreign calls, and only their success or error is an input. The engine may swap the logger; `BuildEnv.engineLogger` is the logger in place when it returns. Such a swap happens inside the engine and is not recorded in the effect log. What the engine writes is an input: the relay's `pipeLines`.
- Log output is left out. The `log.Infof` calls are not modelled. A `log.Errorf` call after an engine failure appears only as an `ErrorLogged(msg)` effect; where the logger sends that text is not modelled.
- JSON decoding and the body read are inputs: `Parse`, `Outcome`. The 400 body needs the decoder's error message, so the decode result carries it instead of being an `Option`.
- `bufio.Reader.ReadLine` internals are left out: stripping of `\r\n`, and `isPrefix` fragments of lines of 4096 bytes or more. The relay takes already-framed lines plus the terminal EOF or error.
- Engine panics are left out. `BuildEnv` has no panic outcome for `NewApplication`, `RunCLI` or `Cleanup`. On that path Go still runs the deferred teardown at cli/listen.go:103-108: it closes the write end, waits on `done` and restores the logger. It also runs the deferred `Store(false)` at cli/listen.go:76, which releases the gate. net/http then recovers the panic and aborts the response that is already streaming. The model does not capture this exit or the aborted response.
- True concurrency is left out. The CAS runs as one atomic step. The relay goroutine runs to completion between closing the write end and `<-done`, and `DoneChannel` counts sends and receives without blocking.
- The interleaving where the relay writes before `WriteHeader(200)` at cli/listen.go:128 is left out. In net/http that write would itself commit 200.
- `rw.Write` errors and client disconnects are left out; the code ignores them.
- OS file descriptors are left out. The handler never closes the pipe's read end. Once the relay returns, the read end is unreachable, and Go's `*os.File` finalizer closes it at garbage collection, so the descriptor is released late. The model notes this only in a comment.
- `Relay.DoneChannel.Receive`: it requires a pending send instead of blocking until one arrives, so in this model it cannot deadlock.

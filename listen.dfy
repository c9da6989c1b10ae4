/** The `makisu listen` daemon's request handlers: `/ready` reads the admission
    gate; `/build` takes the gate, redirects os.Stderr into a pipe whose lines
    are relayed into the response, runs the build engine, tears the redirection
    down and releases the gate. The build engine, the request body, JSON
    decoding and pipe creation are external: their outcomes are inputs. */
module Listen {
  import opened Http
  import opened Relay
  import opened Gate
  import opened Daemon

  const DefaultSocketPath := "/makisu-socket/makisu.sock"
  const AlreadyProcessing := "Already processing a request"

  /** ListenFlags is a value, but its `building` flag is a shared pointer. */
  datatype ListenFlags = ListenFlags(socketPath: string, building: AdmissionGate)

  method NewListenFlags() returns (flags: ListenFlags)
    ensures flags.socketPath == DefaultSocketPath
    ensures fresh(flags.building) && !flags.building.building
  {
    var gate := new AdmissionGate();
    flags := ListenFlags(DefaultSocketPath, gate);
  }

  /** Success or the error's message. */
  datatype Outcome = Ok | Fail(msg: string)

  /** json.Unmarshal of the body into a BuildRequest ([]string). */
  datatype Parse = Parsed(args: seq<string>) | Malformed(msg: string)

  /** What the outside world does during one build request: reading the body,
      decoding it, os.Pipe(), NewApplication, RunCLI and Cleanup; the logger in
      place when the engine returns; and what the relay reads from the pipe. */
  datatype BuildEnv = BuildEnv(
    body: Outcome,
    json: Parse,
    pipe: Outcome,
    newApp: Outcome,
    runCli: Outcome,
    cleanup: Outcome,
    engineLogger: Logger,
    pipeLines: seq<string>,
    readEnd: ReadEnd)

  /** The request gets past body reading, decoding and pipe creation. */
  predicate Redirects(env: BuildEnv)
  {
    env.body.Ok? && env.json.Parsed? && env.pipe.Ok?
  }

  /** NewApplication, then RunCLI, then Cleanup, each only if the previous one
      succeeded; the first failure is logged and ends the chain. */
  function EngineChain(args: seq<string>, env: BuildEnv): (r: seq<Effect>)
    ensures |r| >= 2 && r[0] == NewApplication
    ensures RunCli(args) in r <==> env.newApp.Ok?
    ensures AppCleanup in r <==> env.newApp.Ok? && env.runCli.Ok?
    ensures r[|r| - 1].ErrorLogged? <==> !(env.newApp.Ok? && env.runCli.Ok? && env.cleanup.Ok?)
  {
    if env.newApp.Fail? then [NewApplication, ErrorLogged(env.newApp.msg)]
    else if env.runCli.Fail? then [NewApplication, RunCli(args), ErrorLogged(env.runCli.msg)]
    else if env.cleanup.Fail? then [NewApplication, RunCli(args), AppCleanup, ErrorLogged(env.cleanup.msg)]
    else [NewApplication, RunCli(args), AppCleanup]
  }

  /** The daemon-side effects of `build`, given whether the gate was busy and the
      logger current when the request arrived. */
  function BuildEffects(busy: bool, env: BuildEnv, logger: Logger): seq<Effect>
  {
    if busy then []
    else if !Redirects(env) then [Admitted, Released]
    else
      [Admitted, PipeCreated, StderrRedirected, RelayStarted]
      + EngineChain(env.json.args, env)
      + [Closed(PipeWrite), RelayDone, LoggerSet(logger), Released]
  }

  /** The calls `build` makes on the response writer. */
  function BuildResponse(busy: bool, flusher: bool, env: BuildEnv): seq<Event>
  {
    if busy then [Header(StatusConflict), Chunk(AlreadyProcessing)]
    else if env.body.Fail? then [Header(StatusBadRequest), Chunk(env.body.msg + "\n")]
    else if env.json.Malformed? then [Header(StatusBadRequest), Chunk(env.json.msg + "\n")]
    else if env.pipe.Fail? then [Header(StatusInternalServerError), Chunk(env.pipe.msg + "\n")]
    else [Header(StatusOK)] + RelayTrace(env.pipeLines, flusher)
  }

  /** `ready`: 409 while a build holds the gate, 200 otherwise; the gate is only read. */
  method Ready(flags: ListenFlags, rw: ResponseWriter)
    modifies rw
    ensures rw.trace == old(rw.trace) + [Header(if flags.building.building then StatusConflict else StatusOK)]
    ensures flags.building.building == old(flags.building.building)
  {
    var busy := flags.building.IsBusy();
    if busy {
      rw.WriteHeader(StatusConflict);
      return;
    }
    rw.WriteHeader(StatusOK);
  }

  /** The engine calls, made while the gate is held, each recorded as it is
      made. The engine may install another logger; the one current when it
      returns is `env.engineLogger`. */
  method Invoke(gate: AdmissionGate, proc: Process, args: seq<string>, env: BuildEnv, log: EffectLog)
    requires gate.building
    modifies proc, log
    ensures log.events == old(log.events) + EngineChain(args, env)
    ensures proc.logger == env.engineLogger && proc.stderr == old(proc.stderr)
  {
    log.Record(NewApplication);
    if env.newApp.Fail? {
      log.Record(ErrorLogged(env.newApp.msg));
    } else {
      log.Record(RunCli(args));
      if env.runCli.Fail? {
        log.Record(ErrorLogged(env.runCli.msg));
      } else {
        log.Record(AppCleanup);
        if env.cleanup.Fail? {
          log.Record(ErrorLogged(env.cleanup.msg));
        }
      }
    }
    proc.logger := env.engineLogger;
  }

  /** The deferred teardown of a redirected build, run while the gate is still
      held: close the pipe's write end, let the relay drain to EOF (or a read
      error), wait for `done`, restore the captured logger. os.Stderr is not
      restored: it keeps pointing at the closed write end. */
  method Teardown(gate: AdmissionGate, proc: Process, rw: ResponseWriter, w: OsFile,
                  done: DoneChannel, oldLogger: Logger, lines: seq<string>, end: ReadEnd,
                  log: EffectLog)
    requires gate.building && w.role == PipeWrite
    requires done.sent == 0 && done.received == 0
    modifies proc, rw, w, done, log
    ensures w.closed
    ensures rw.trace == old(rw.trace) + RelayTrace(lines, rw.flusher)
    ensures done.sent == 1 && done.received == 1
    ensures proc.logger == oldLogger && proc.stderr == old(proc.stderr)
    ensures log.events == old(log.events) + [Closed(PipeWrite), RelayDone, LoggerSet(oldLogger)]
  {
    w.Close(log);
    Drain(rw, w, lines, end, done);
    done.Receive(log);
    proc.SetLogger(oldLogger, log);
  }

  /** `build`. Every admitted path releases the gate, last; a rejected request
      leaves the gate held by the build in flight. The logger always ends as it
      began; os.Stderr ends as it began unless the redirection happened, and
      then it is the fresh, closed pipe write end. */
  method Build(flags: ListenFlags, proc: Process, rw: ResponseWriter, env: BuildEnv, log: EffectLog)
    modifies flags.building, proc, rw, log
    ensures flags.building.building == old(flags.building.building)
    ensures rw.trace == old(rw.trace) + BuildResponse(old(flags.building.building), rw.flusher, env)
    ensures log.events == old(log.events) + BuildEffects(old(flags.building.building), env, old(proc.logger))
    ensures proc.logger == old(proc.logger)
    ensures !old(flags.building.building) && Redirects(env) ==>
      fresh(proc.stderr) && proc.stderr.role == PipeWrite && proc.stderr.closed
    ensures old(flags.building.building) || !Redirects(env) ==> proc.stderr == old(proc.stderr)
  {
    var gate := flags.building;
    var ok := gate.TryAcquire(log);
    if !ok {
      Reply(rw, StatusConflict, AlreadyProcessing);
      return;
    }
    // From here on every return goes through gate.Release() (the deferred Store(false)).
    if env.body.Fail? {
      Reply(rw, StatusBadRequest, env.body.msg + "\n");
      gate.Release(log);
      return;
    } else if env.json.Malformed? {
      Reply(rw, StatusBadRequest, env.json.msg + "\n");
      gate.Release(log);
      return;
    }
    var args := env.json.args;

    if env.pipe.Fail? {
      Reply(rw, StatusInternalServerError, env.pipe.msg + "\n");
      gate.Release(log);
      return;
    }
    Stream(gate, proc, rw, args, env, log);
    gate.Release(log);
  }

  /** WriteHeader(status) followed by one Write: the rejection and every early
      error (`fmt.Fprintf(rw, "%s\n", err)` is one Write). */
  method Reply(rw: ResponseWriter, status: int, text: string)
    modifies rw
    ensures rw.trace == old(rw.trace) + [Header(status), Chunk(text)]
  {
    rw.WriteHeader(status);
    rw.Write(text);
  }

  /** The admitted, decoded request once os.Pipe() succeeded: capture the
      logger, point os.Stderr at the pipe's write end, start the relay, commit
      200, invoke the engine, and run the deferred teardown. */
  method Stream(gate: AdmissionGate, proc: Process, rw: ResponseWriter, args: seq<string>, env: BuildEnv,
                log: EffectLog)
    requires gate.building
    modifies proc, rw, log
    ensures rw.trace == old(rw.trace) + [Header(StatusOK)] + RelayTrace(env.pipeLines, rw.flusher)
    ensures log.events == old(log.events) + [PipeCreated, StderrRedirected, RelayStarted]
      + EngineChain(args, env) + [Closed(PipeWrite), RelayDone, LoggerSet(old(proc.logger))]
    ensures proc.logger == old(proc.logger)
    ensures fresh(proc.stderr) && proc.stderr.role == PipeWrite && proc.stderr.closed
  {
    // The handler never closes the read end `r`; Go's *os.File finalizer
    // closes it once the relay has returned and it is unreachable.
    var r, w := OpenPipe(log);

    var oldLogger := proc.logger;
    proc.RedirectStderr(w, log);
    var done := new DoneChannel();
    log.Record(RelayStarted);

    rw.WriteHeader(StatusOK);
    Invoke(gate, proc, args, env, log);
    Teardown(gate, proc, rw, w, done, oldLogger, env.pipeLines, env.readEnd, log);
  }

  /** Number of occurrences of `x` in `s`. */
  function Occurrences(s: seq<Effect>, x: Effect): nat
  {
    if s == [] then 0 else (if s[0] == x then 1 else 0) + Occurrences(s[1..], x)
  }

  lemma {:induction false} OccurrencesAppend(a: seq<Effect>, b: seq<Effect>, x: Effect)
    ensures Occurrences(a + b, x) == Occurrences(a, x) + Occurrences(b, x)
  {
    if a == [] {
      assert a + b == b;
    } else {
      assert (a + b)[1..] == a[1..] + b;
      OccurrencesAppend(a[1..], b, x);
    }
  }

  lemma {:induction false} OccurrencesAbsent(s: seq<Effect>, x: Effect)
    requires x !in s
    ensures Occurrences(s, x) == 0
  {
    if s != [] {
      OccurrencesAbsent(s[1..], x);
    }
  }

  /** A rejected request has no effect; an admitted one takes the gate first,
      releases it last, and releases it exactly once. */
  lemma {:induction false} GateReleasedOnce(busy: bool, env: BuildEnv, logger: Logger)
    ensures var e := BuildEffects(busy, env, logger);
      (busy ==> e == []) &&
      (!busy ==> e[0] == Admitted && e[|e| - 1] == Released &&
                 Occurrences(e, Admitted) == 1 && Occurrences(e, Released) == 1)
  {
    if !busy {
      var e := BuildEffects(busy, env, logger);
      var mid := if Redirects(env) then [PipeCreated, StderrRedirected, RelayStarted]
        + EngineChain(env.json.args, env) + [Closed(PipeWrite), RelayDone, LoggerSet(logger)] else [];
      assert e == [Admitted] + mid + [Released];
      assert Admitted !in mid && Released !in mid;
      forall x | x == Admitted || x == Released
        ensures Occurrences(e, x) == 1
      {
        OccurrencesAbsent(mid, x);
        OccurrencesAppend([Admitted], mid, x);
        OccurrencesAppend([Admitted] + mid, [Released], x);
        assert Occurrences([Released], x) == (if x == Released then 1 else 0) + Occurrences([], x);
        assert Occurrences([Admitted], x) == (if x == Admitted then 1 else 0) + Occurrences([], x);
      }
    }
  }

  /** An early exit (body, JSON or pipe failure) creates no pipe, redirects
      nothing and invokes no engine. */
  lemma EarlyExitTouchesNothing(env: BuildEnv, logger: Logger)
    requires !Redirects(env)
    ensures BuildEffects(false, env, logger) == [Admitted, Released]
    ensures StderrRedirected !in BuildEffects(false, env, logger)
    ensures NewApplication !in BuildEffects(false, env, logger)
  {
  }

  /** After redirection: the pipe is created and os.Stderr redirected before the
      engine runs, and teardown closes the write end, waits for the relay,
      restores the captured logger and only then releases the gate. RunCLI runs
      only after NewApplication succeeded, Cleanup only after RunCLI succeeded. */
  lemma TeardownOrder(env: BuildEnv, logger: Logger)
    requires Redirects(env)
    ensures var e := BuildEffects(false, env, logger);
      |e| >= 8 &&
      e[..4] == [Admitted, PipeCreated, StderrRedirected, RelayStarted] &&
      e[4] == NewApplication &&
      e[|e| - 4..] == [Closed(PipeWrite), RelayDone, LoggerSet(logger), Released] &&
      (RunCli(env.json.args) in e <==> env.newApp.Ok?) &&
      (AppCleanup in e <==> env.newApp.Ok? && env.runCli.Ok?)
  {
  }

  /** The status of every exit path: 409 rejected, 400 body or JSON failure,
      500 pipe failure, and 200 once redirection starts whatever the engine does. */
  lemma ResponseStatus(busy: bool, flusher: bool, env: BuildEnv)
    ensures StatusOf(BuildResponse(busy, flusher, env)) ==
      if busy then StatusConflict
      else if env.body.Fail? || env.json.Malformed? then StatusBadRequest
      else if env.pipe.Fail? then StatusInternalServerError
      else StatusOK
  {
  }

  /** The body of every exit path: the conflict message, the error's message and
      a newline, or the relayed lines each followed by a newline. */
  lemma {:induction false} ResponseBody(busy: bool, flusher: bool, env: BuildEnv)
    ensures BodyOf(BuildResponse(busy, flusher, env)) ==
      if busy then AlreadyProcessing
      else if env.body.Fail? then env.body.msg + "\n"
      else if env.json.Malformed? then env.json.msg + "\n"
      else if env.pipe.Fail? then env.pipe.msg + "\n"
      else RelayedBody(env.pipeLines)
  {
    var r := BuildResponse(busy, flusher, env);
    if busy || !Redirects(env) {
      assert r[1..][1..] == [];
      assert BodyOf(r) == BodyOf(r[1..]);
      assert BodyOf(r[1..]) == r[1].bytes + BodyOf(r[1..][1..]);
    } else {
      BodyOfAppend([Header(StatusOK)], RelayTrace(env.pipeLines, flusher));
      RelayBody(env.pipeLines, flusher);
    }
  }

  /** The status is written once, before anything else. */
  lemma {:induction false} HeaderFirstAndOnly(busy: bool, flusher: bool, env: BuildEnv)
    ensures var r := BuildResponse(busy, flusher, env);
      |r| >= 1 && r[0].Header? && forall k :: 0 < k < |r| ==> !r[k].Header?
  {
    if !busy && Redirects(env) {
      var relay := RelayTrace(env.pipeLines, flusher);
      RelayNoHeader(env.pipeLines, flusher);
      var r := BuildResponse(busy, flusher, env);
      forall k | 0 < k < |r| ensures !r[k].Header? {
        assert r[k] == relay[k - 1];
      }
    }
  }

  /** A client sees the same response whether the engine succeeds or fails. */
  lemma EngineOutcomeInvisible(flusher: bool, env: BuildEnv, newApp: Outcome, runCli: Outcome, cleanup: Outcome)
    ensures BuildResponse(false, flusher, env) ==
      BuildResponse(false, flusher, env.(newApp := newApp, runCli := runCli, cleanup := cleanup))
  {
  }

  /** A request arriving while another build holds the gate: immediate 409, and
      the flag, os.Stderr and the logger of the build in flight are untouched,
      and nothing is recorded. */
  method RejectWhileBuilding(flags: ListenFlags, proc: Process, rw: ResponseWriter, env: BuildEnv,
                             log: EffectLog)
    requires flags.building.building
    modifies flags.building, proc, rw, log
    ensures flags.building.building
    ensures rw.trace == old(rw.trace) + [Header(StatusConflict), Chunk(AlreadyProcessing)]
    ensures proc.stderr == old(proc.stderr) && proc.logger == old(proc.logger)
    ensures log.events == old(log.events)
  {
    Build(flags, proc, rw, env, log);
  }

  /** Two builds one after the other are both admitted, each streams its own
      lines on its own response, and the gate is free at the end. */
  method SequentialBuilds(flags: ListenFlags, proc: Process, rw1: ResponseWriter, rw2: ResponseWriter,
                          env1: BuildEnv, env2: BuildEnv, log: EffectLog)
    requires !flags.building.building && rw1 != rw2
    requires Redirects(env1) && Redirects(env2)
    requires rw1.trace == [] && rw2.trace == [] && log.events == []
    modifies flags.building, proc, rw1, rw2, log
    ensures !flags.building.building && proc.logger == old(proc.logger)
    ensures StatusOf(rw1.trace) == StatusOK && BodyOf(rw1.trace) == RelayedBody(env1.pipeLines)
    ensures StatusOf(rw2.trace) == StatusOK && BodyOf(rw2.trace) == RelayedBody(env2.pipeLines)
    ensures log.events == BuildEffects(false, env1, proc.logger) + BuildEffects(false, env2, proc.logger)
  {
    ghost var logger := proc.logger;
    Build(flags, proc, rw1, env1, log);
    assert rw1.trace == BuildResponse(false, rw1.flusher, env1);
    assert log.events == BuildEffects(false, env1, logger);
    ResponseBody(false, rw1.flusher, env1);
    Build(flags, proc, rw2, env2, log);
    assert rw2.trace == BuildResponse(false, rw2.flusher, env2);
    ResponseBody(false, rw2.flusher, env2);
  }
}

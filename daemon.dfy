/** Process-wide state of the `makisu listen` daemon that the build handler
    touches (os.Stderr, the lib/log logger, the pipe's files), and the record
    of the daemon-side effects each operation has. Every operation below that
    has an effect appends it to an EffectLog, so the order and number of
    effects of a handler follow from the calls it makes. */
module Daemon {

  /** The lib/log logger, an opaque token. */
  datatype Logger = Logger(id: nat)

  /** Which file an *os.File is. */
  datatype FileRole = StandardError | PipeRead | PipeWrite

  /** Daemon-side effects of a build request, in the order they happen. */
  datatype Effect =
    | Admitted
    | PipeCreated
    | StderrRedirected
    | RelayStarted
    | NewApplication
    | RunCli(args: seq<string>)
    | AppCleanup
    | ErrorLogged(msg: string)
    | Closed(role: FileRole)
    | RelayDone
    | LoggerSet(logger: Logger)
    | Released

  /** The effects so far, oldest first. */
  class EffectLog {
    var events: seq<Effect>

    constructor ()
      ensures events == []
    {
      events := [];
    }

    method Record(e: Effect)
      modifies this
      ensures events == old(events) + [e]
    {
      events := events + [e];
    }
  }

  /** An *os.File: os.Stderr, or one end of a pipe. */
  class OsFile {
    const role: FileRole
    var closed: bool

    constructor (role: FileRole)
      ensures this.role == role && !closed
    {
      this.role := role;
      closed := false;
    }

    /** (*os.File).Close */
    method Close(log: EffectLog)
      modifies this, log
      ensures closed
      ensures log.events == old(log.events) + [Closed(role)]
    {
      closed := true;
      log.Record(Closed(role));
    }
  }

  /** os.Pipe() once it succeeded: a fresh read end and a fresh write end. */
  method OpenPipe(log: EffectLog) returns (r: OsFile, w: OsFile)
    modifies log
    ensures fresh(r) && fresh(w) && r != w
    ensures r.role == PipeRead && w.role == PipeWrite && !r.closed && !w.closed
    ensures log.events == old(log.events) + [PipeCreated]
  {
    r := new OsFile(PipeRead);
    w := new OsFile(PipeWrite);
    log.Record(PipeCreated);
  }

  /** The process-wide state the build handler swaps: os.Stderr and the current logger. */
  class Process {
    var stderr: OsFile
    var logger: Logger

    constructor (stderr: OsFile, logger: Logger)
      ensures this.stderr == stderr && this.logger == logger
    {
      this.stderr := stderr;
      this.logger := logger;
    }

    /** `os.Stderr = f` */
    method RedirectStderr(f: OsFile, log: EffectLog)
      modifies this, log
      ensures stderr == f && logger == old(logger)
      ensures log.events == old(log.events) + [StderrRedirected]
    {
      stderr := f;
      log.Record(StderrRedirected);
    }

    /** log.SetLogger(l) */
    method SetLogger(l: Logger, log: EffectLog)
      modifies this, log
      ensures logger == l && stderr == old(stderr)
      ensures log.events == old(log.events) + [LoggerSet(l)]
    {
      logger := l;
      log.Record(LoggerSet(l));
    }
  }
}

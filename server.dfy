/**
 * server/server.go: configuration defaulting, the listening address, the setters, the
 * decision that ends `Run`, and the effect of the panic-recovery wrapper on the response.
 */
module Server {
  import opened Util
  import opened Http

  datatype Environment = Development | Staging | Production

  /** `time.Duration`, in nanoseconds. */
  type Duration = int

  const Second: Duration := 1_000_000_000
  const Minute: Duration := 60 * Second

  datatype Configuration = Configuration(
    environment: Environment,
    tls: bool,
    host: string,
    port: string,
    idleTimeout: Duration,
    readTimeout: Duration,
    writeTimeout: Duration)

  /** `Create`: a copy of the package's default configuration. */
  function Create(): (c: Configuration)
    ensures c.environment == Development && !c.tls
    ensures c.host == "localhost" && c.port == "8080"
    ensures c.idleTimeout == 60_000_000_000
    ensures c.readTimeout == 5_000_000_000
    ensures c.writeTimeout == 10_000_000_000
  {
    Configuration(Development, false, "localhost", "8080", Minute, 5 * Second, 10 * Second)
  }

  /** `address`: host and port joined by a colon. */
  function Address(c: Configuration): (r: string)
    ensures |r| == |c.host| + 1 + |c.port|
    ensures r[..|c.host|] == c.host && r[|c.host|] == ':' && r[|c.host| + 1..] == c.port
  {
    c.host + ":" + c.port
  }

  /** The default server listens on localhost port 8080. */
  lemma DefaultAddress()
    ensures Address(Create()) == "localhost:8080"
  {
  }

  /** A host without a colon can be recovered from the address, and so can the port. */
  lemma AddressDeterminesHostAndPort(c: Configuration, d: Configuration)
    requires ':' !in c.host && ':' !in d.host
    requires Address(c) == Address(d)
    ensures c.host == d.host && c.port == d.port
  {
  }

  /** A `*slog.Logger`; the one `Run` installs writes text to standard output. */
  datatype Logger = Logger(id: nat) | DefaultTextLogger

  /** The `*log.Logger` for server errors, fed by a logger's handler at error level. */
  datatype ErrorLog = ErrorLog(source: Logger)

  /** An application `http.Handler`, known only by identity; nil is `None`. */
  datatype HandlerRef = HandlerRef(id: nat)

  /** The handler the server runs: the application handler inside the recovery wrapper. */
  datatype Installed = Recovering(next: HandlerRef)

  const NilLoggerMessage := "logger param cannot be nil"
  const NilHandlerMessage := "handler param cannot be nil"
  const NoHandlerMessage := "server handler has not been set"

  /** What `ListenAndServe` returned: the server-closed error that `Shutdown` causes, or another. */
  datatype ListenResult = ServerClosed | ListenFailed(message: string)

  /**
   * The end of `Run` once the server has listened: a listen error other than server-closed is
   * returned as is; otherwise the result of the graceful shutdown is returned.
   */
  function RunOutcome(listen: ListenResult, shutdown: Option<string>): (r: Option<string>)
    ensures r.None? <==> listen.ServerClosed? && shutdown.None?
    ensures listen.ListenFailed? ==> r == Some(listen.message)
    ensures listen.ServerClosed? ==> r == shutdown
  {
    match listen
    case ListenFailed(m) => Some(m)
    case ServerClosed => shutdown
  }

  /** How the wrapped handler ended: it returned, or it panicked with a value. */
  datatype HandlerOutcome = Returned | Panicked(value: string)

  const ConnectionHeader := "Connection"

  /**
   * The response after the recovery wrapper: untouched when the handler returned; after a panic,
   * `Connection: close` is set and status 500 is written, which the writer ignores when a status
   * was already sent. No body is written.
   */
  function Recovered(s: Wire, o: HandlerOutcome): (r: Wire)
    ensures o.Returned? ==> r == s
    ensures o.Panicked? ==> r.header == s.header[ConnectionHeader := ["close"]] && r.body == s.body
    ensures o.Panicked? && s.status.None? ==> r.status == Some(500) && r.sent == r.header
    ensures o.Panicked? && s.status.Some? ==> r.status == s.status && r.sent == s.sent
  {
    match o
    case Returned => s
    case Panicked(_) => WithStatus(WithHeader(s, ConnectionHeader, ["close"]), StatusInternalServerError)
  }

  /** `recoverPanic`'s deferred function, applied to the writer after the handler has run. */
  method RecoverPanic(w: Writer, o: HandlerOutcome)
    modifies w
    ensures w.State() == Recovered(old(w.State()), o)
  {
    if o.Panicked? {
      w.SetHeader(ConnectionHeader, "close");
      var _ := w.WriteHeader(StatusInternalServerError);
    }
  }

  /** The package's `server`: an `http.Server` with its configuration and logger. */
  class Server {
    const config: Configuration
    const addr: string
    const idleTimeout: Duration
    const readTimeout: Duration
    const writeTimeout: Duration
    var handler: Option<Installed>
    var logger: Option<Logger>
    var errorLog: Option<ErrorLog>

    /** `new`: a nil configuration means the default one; the address and timeouts come from it. */
    constructor (c: Option<Configuration>)
      ensures config == (if c.None? then Create() else c.value)
      ensures addr == Address(config)
      ensures idleTimeout == config.idleTimeout && readTimeout == config.readTimeout
      ensures writeTimeout == config.writeTimeout
      ensures handler.None? && logger.None? && errorLog.None?
    {
      var cfg := if c.None? then Create() else c.value;
      config := cfg;
      addr := Address(cfg);
      idleTimeout := cfg.idleTimeout;
      readTimeout := cfg.readTimeout;
      writeTimeout := cfg.writeTimeout;
      handler := None;
      logger := None;
      errorLog := None;
    }

    /** `New`: a server on the default configuration. */
    constructor New()
      ensures config == Create() && addr == "localhost:8080"
      ensures idleTimeout == 60 * Second && readTimeout == 5 * Second && writeTimeout == 10 * Second
      ensures handler.None? && logger.None? && errorLog.None?
    {
      DefaultAddress();
      config := Create();
      addr := Address(Create());
      idleTimeout := Minute;
      readTimeout := 5 * Second;
      writeTimeout := 10 * Second;
      handler := None;
      logger := None;
      errorLog := None;
    }

    /** `Build`: `new` on the given configuration, so a nil one also means the default. */
    constructor Build(c: Option<Configuration>)
      ensures config == (if c.None? then Create() else c.value)
      ensures addr == Address(config)
      ensures idleTimeout == config.idleTimeout && readTimeout == config.readTimeout
      ensures writeTimeout == config.writeTimeout
      ensures handler.None? && logger.None? && errorLog.None?
    {
      var cfg := if c.None? then Create() else c.value;
      config := cfg;
      addr := Address(cfg);
      idleTimeout := cfg.idleTimeout;
      readTimeout := cfg.readTimeout;
      writeTimeout := cfg.writeTimeout;
      handler := None;
      logger := None;
      errorLog := None;
    }

    /** `Logger`: a nil logger panics and changes nothing; otherwise it and its error log are set. */
    method SetLogger(l: Option<Logger>) returns (panic: Option<string>)
      modifies this
      ensures l.None? ==> panic == Some(NilLoggerMessage) && logger == old(logger)
      ensures l.None? ==> errorLog == old(errorLog)
      ensures l.Some? ==> panic.None? && logger == l && errorLog == Some(ErrorLog(l.value))
      ensures handler == old(handler)
    {
      if l.None? {
        return Some(NilLoggerMessage);
      }
      logger := l;
      errorLog := Some(ErrorLog(l.value));
      return None;
    }

    /** `Handler`: a nil handler panics and changes nothing; otherwise it is installed wrapped. */
    method SetHandler(h: Option<HandlerRef>) returns (panic: Option<string>)
      modifies this
      ensures h.None? ==> panic == Some(NilHandlerMessage) && handler == old(handler)
      ensures h.Some? ==> panic.None? && handler == Some(Recovering(h.value))
      ensures logger == old(logger) && errorLog == old(errorLog)
    {
      if h.None? {
        return Some(NilHandlerMessage);
      }
      handler := Some(Recovering(h.value));
      return None;
    }

    /**
     * `Run`: the default logger is installed when none was set; with no handler the server does
     * not listen and reports it; otherwise it listens and `RunOutcome` decides the result.
     * `listen` and `shutdown` stand for what `ListenAndServe` and the signal-driven `Shutdown`
     * return.
     */
    method Run(listen: ListenResult, shutdown: Option<string>) returns (err: Option<string>, listened: bool)
      modifies this
      ensures logger == (if old(logger).None? then Some(DefaultTextLogger) else old(logger))
      ensures old(logger).None? ==> errorLog == Some(ErrorLog(DefaultTextLogger))
      ensures old(logger).Some? ==> errorLog == old(errorLog)
      ensures handler == old(handler)
      ensures handler.None? ==> err == Some(NoHandlerMessage) && !listened
      ensures handler.Some? ==> listened && err == RunOutcome(listen, shutdown)
    {
      if logger.None? {
        var _ := SetLogger(Some(DefaultTextLogger));
      }
      if handler.None? {
        return Some(NoHandlerMessage), false;
      }
      err := RunOutcome(listen, shutdown);
      listened := true;
    }
  }
}

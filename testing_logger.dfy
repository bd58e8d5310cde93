/**
 * The plain testing logger: a logger whose level is fixed at construction,
 * whose `BeginScope` always hands back the object of one fixed mock, and
 * whose generic `Log` forwards to the four-argument `Log` with the
 * formatter's output as the message.
 */
module Testing {
  import opened Logging

  /** A mock of a disposable: the object it hands out never changes. */
  class DisposableMock {
    const Object: Disposable

    constructor ()
      ensures fresh(Object)
    {
      Object := new Disposable();
    }
  }

  class TestingLogger {
    /** The level given at construction (a readonly field). */
    const logLevel: LogLevel
    /** The mock whose object every `BeginScope` call returns. */
    const BeginScopeReturnValue: DisposableMock
    /** The calls made to the four-argument `Log`, which the model records in order. */
    ghost var Logged: seq<LogEntry>

    /** The parameterless constructor: level Trace. */
    constructor Default()
      ensures logLevel == Trace && fresh(BeginScopeReturnValue) && fresh(BeginScopeReturnValue.Object) && Logged == []
    {
      logLevel := Trace;
      BeginScopeReturnValue := new DisposableMock();
      Logged := [];
    }

    /** The constructor taking the logger's level. */
    constructor (level: LogLevel)
      ensures logLevel == level && fresh(BeginScopeReturnValue) && fresh(BeginScopeReturnValue.Object) && Logged == []
    {
      logLevel := level;
      BeginScopeReturnValue := new DisposableMock();
      Logged := [];
    }

    /** The abstract four-argument `Log`, made concrete: it records its arguments. */
    method Log(level: LogLevel, eventId: EventId, message: string, exception: Exception?)
      modifies this`Logged
      ensures Logged == old(Logged) + [LogEntry(level, eventId, message, exception)]
    {
      Logged := Logged + [LogEntry(level, eventId, message, exception)];
    }

    /**
     * The generic `Log<TState>`: exactly one call to the four-argument `Log`
     * with the same level, event id and exception, and the formatter's output
     * on the state and exception as the message.
     */
    method LogState<T>(level: LogLevel, eventId: EventId, state: T, exception: Exception?,
                       formatter: (T, Exception?) -> string)
      modifies this`Logged
      ensures |Logged| == |old(Logged)| + 1 && Logged[..|old(Logged)|] == old(Logged)
      ensures Logged[|Logged| - 1] == LogEntry(level, eventId, formatter(state, exception), exception)
    {
      Log(level, eventId, formatter(state, exception), exception);
    }

    /** A level is enabled exactly when its value is at least the logger's. */
    function IsEnabled(level: LogLevel): (enabled: bool)
      ensures enabled <==> Ord(level) >= Ord(logLevel)
      ensures level == logLevel ==> enabled
    {
      AtLeast(level, logLevel)
    }

    /** Every scope is handed the same object, whatever its state. */
    function BeginScope<S>(state: S): (handle: Disposable)
      ensures handle == BeginScopeReturnValue.Object
    {
      BeginScopeReturnValue.Object
    }
  }

  /** A logger built with the parameterless constructor enables every level, since Trace is the lowest. */
  lemma DefaultLoggerEnablesAll(logger: TestingLogger, level: LogLevel)
    requires logger.logLevel == Trace
    ensures logger.IsEnabled(level)
  {
  }

  /** Two separately constructed loggers hand their scopes different objects. */
  method SeparateLoggersScenario()
  {
    var a := new TestingLogger.Default();
    var b := new TestingLogger(Warning);
    assert a.BeginScope(1) != b.BeginScope(1);
    assert a.BeginScope(1) == a.BeginScope("state");
  }

  /** Two `BeginScope` calls return the very same object, whatever states they are given. */
  lemma BeginScopeIgnoresState<S, U>(logger: TestingLogger, a: S, b: U)
    ensures logger.BeginScope(a) == logger.BeginScope(b)
  {
  }
}

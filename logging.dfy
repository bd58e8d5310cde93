/**
 * The logging abstractions both testing loggers are written against: the
 * ordered severity enumeration, event ids, exceptions, disposable scope
 * handles, and the record of one call to the four-argument `Log`.
 */
module Logging {
  import Wrappers

  /** Severity of a log entry, in the order of its underlying integer values. */
  datatype LogLevel = Trace | Debug | Information | Warning | Error | Critical | None

  /** Every level, listed in declaration order (lowest severity first). */
  const AllLevels: seq<LogLevel> := [Trace, Debug, Information, Warning, Error, Critical, None]

  /** The enumeration's underlying integer value, `(int)level`. */
  function Ord(level: LogLevel): (n: nat)
    ensures n < |AllLevels| && AllLevels[n] == level
  {
    match level
    case Trace => 0
    case Debug => 1
    case Information => 2
    case Warning => 3
    case Error => 4
    case Critical => 5
    case None => 6
  }

  /** `a >= b` on the enumeration: a comparison of the underlying values. */
  predicate AtLeast(a: LogLevel, b: LogLevel)
  {
    Ord(a) >= Ord(b)
  }

  /** Distinct levels have distinct values, so `>=` is a total order on levels. */
  lemma AtLeastIsTotalOrder(a: LogLevel, b: LogLevel, c: LogLevel)
    ensures AtLeast(a, a)
    ensures AtLeast(a, b) && AtLeast(b, a) ==> a == b
    ensures AtLeast(a, b) && AtLeast(b, c) ==> AtLeast(a, c)
    ensures AtLeast(a, b) || AtLeast(b, a)
  {
  }

  /** Trace is the least level: every level is at least Trace. */
  lemma TraceIsLowest(level: LogLevel)
    ensures AtLeast(level, Trace)
    ensures AtLeast(Trace, level) <==> level == Trace
  {
  }

  /** An event id: a number and an optional name. */
  datatype EventId = EventId(id: int, name: Wrappers.Option<string>)

  /** An exception attached to a log entry; only its identity and message matter here. */
  class Exception {
    const Message: string

    constructor (message: string)
      ensures Message == message
    {
      Message := message;
    }
  }

  /** An object handed out to end a logical operation scope on dispose. */
  class Disposable {
    constructor ()
    {
    }
  }

  /** The arguments of one call to the four-argument `Log`. */
  datatype LogEntry = LogEntry(level: LogLevel, eventId: EventId, message: string, exception: Exception?)
}

# Testing loggers of RandomSkunk.Logging.Testing, in Dafny

This project models the two `TestingLogger` base classes of
RandomSkunk.Logging.Testing. Tests derive from these classes, or mock them,
to get a logger with a fixed level whose calls can be checked afterwards.

- **Moq version** (`RandomSkunk.Logging.Testing.Moq/TestingLogger.cs`, module
  `MoqTesting`). The level is fixed at construction, and `IsEnabled` compares
  a level against it. Each `BeginScope` call appends a new scope completion
  to `ScopeCompletions`. The completion holds the scope's state and a fresh
  disposable object, and `BeginScope` returns that object. The generic
  `Log<TState>` forwards to the abstract four-argument `Log`, passing the
  formatter's output as the message.
- **Plain version** (`RandomSkunk.Logging.Testing/TestingLogger.cs`, module
  `Testing`). It has the same level gate and the same forwarding. Its
  `BeginScope` always returns the object of the one mock held in
  `BeginScopeReturnValue`.

The shared types are in module `Logging`:
- the `LogLevel` enumeration, with its values Trace=0 through None=6 (`Ord`),
  and the enum's `>=` (`AtLeast`);
- `EventId`;
- exceptions;
- disposables;
- `LogEntry`, the argument list of one four-argument `Log` call.

The abstract `Log` method is made concrete in the class: it records its
arguments in the ghost sequence `Logged`. The forwarding rule is then stated
as "exactly one entry is appended, and it carries these arguments". The
formatter is a function parameter with no internals.

For the Moq version, a pure view (`Snapshot`) describes a sequence of calls.
`Step` applies one call and `Replay` applies a sequence of them in order.
The object's methods ensure that `View()` after a call equals `Step` of
`View()` before it. `RunCalls` makes any sequence of calls on the object
and ensures that its view afterwards is their `Replay`. So the `Replay`
lemmas hold for the object too. For example, entry `i` of `ScopeCompletions`
holds the state of the `(i+1)`-th `BeginScope` call.

`MoqTesting.TwoScopesScenario` is an example client, after the unit tests'
scenarios for `BeginScope` and `Log<TState>`. It begins two scopes with a
`Log<TState>` call between them. It then checks three things: the returned
handles are the entries' objects and differ from each other, the states are
in call order, and the one logged entry carries the formatter's message.

The C# property `LogLevel` of the Moq version is the constant `Level` here.
The private readonly `_logLevel` of the plain version is `logLevel`. The
generic `Log<TState>` is `LogState<T>`, because Dafny has no overloading.
The scope state type (boxed to `object?` in the source) is the class's type
parameter `S`.

The level enumeration includes `None` (value 6), which is the code's
definition. A level-`None` logger therefore still enables `None`, since
6 >= 6.

## Model

| member | source | states |
|---|---|---|
| Logging.Ord | RandomSkunk.Logging.Testing.Moq.UnitTests/LogInvocationQuery_TLogger__should.cs:118 | a level's integer value is its position in the declared order Trace, Debug, Information, Warning, Error, Critical, None (so Warning is 3) |
| Logging.AtLeastIsTotalOrder | RandomSkunk.Logging.Testing.Moq/TestingLogger.cs:75-76 | the enum `>=` that `IsEnabled` uses is reflexive, antisymmetric, transitive and total on levels |
| Logging.TraceIsLowest | RandomSkunk.Logging.Testing/TestingLogger.cs:10-11 | every level is at least Trace, and only Trace is at most Trace |
| MoqTesting.ScopeCompletion.constructor | RandomSkunk.Logging.Testing.Moq/MockScopeCompletion.cs:14-17 | a new scope completion holds the given state and a freshly created object |
| MoqTesting.ReplaySnoc | RandomSkunk.Logging.Testing.Moq/TestingLogger.cs:33-38 | replaying one more call after a history is one more step, so the object's per-call contracts compose into `Replay` |
| MoqTesting.ReplayKeepsLevel | RandomSkunk.Logging.Testing.Moq/TestingLogger.cs:28-31 | no sequence of `BeginScope` and `Log` calls changes the logger's level |
| MoqTesting.ReplayScopes | RandomSkunk.Logging.Testing.Moq/TestingLogger.cs:33-38 | after any calls, the scope list is the old list followed by the `BeginScope` states in call order; `Log` adds none |
| MoqTesting.ReplayLogged | RandomSkunk.Logging.Testing.Moq/TestingLogger.cs:40-66 | after any calls, the logged entries are the old ones followed by the `Log` entries in call order; `BeginScope` logs nothing |
| MoqTesting.ScopeCompletionsFollowCallOrder | RandomSkunk.Logging.Testing.Moq/TestingLogger.cs:33-38 | on a fresh logger, after any calls, the scope list is exactly the `BeginScope` states in call order (entry i holds the state of the (i+1)-th call), and the level is the constructor's |
| MoqTesting.RunCalls | RandomSkunk.Logging.Testing.Moq/TestingLogger.cs:33-38 | making any sequence of `BeginScope` and `Log` calls on a logger leaves it valid, with its view equal to the replay of those calls on its earlier view |
| MoqTesting.TestingLogger.Default | RandomSkunk.Logging.Testing.Moq/TestingLogger.cs:18-19 | the parameterless constructor yields level Trace, no scope completions and nothing logged |
| MoqTesting.TestingLogger.constructor | RandomSkunk.Logging.Testing.Moq/TestingLogger.cs:25-31 | the level constructor stores its argument (a constant afterwards), with no scope completions and nothing logged |
| MoqTesting.TestingLogger.Log | RandomSkunk.Logging.Testing.Moq/TestingLogger.cs:40-52 | the abstract `Log` receives exactly one call with the given level, event id, message and exception |
| MoqTesting.TestingLogger.LogState | RandomSkunk.Logging.Testing.Moq/TestingLogger.cs:54-66 | `Log<TState>` makes exactly one `Log` call with the same level, event id and exception and with the formatter applied to the state and exception as message; scope completions and level are unchanged |
| MoqTesting.TestingLogger.IsEnabled | RandomSkunk.Logging.Testing.Moq/TestingLogger.cs:68-76 | a level is enabled iff its integer value is at least the logger's; the logger's own level is always enabled |
| MoqTesting.TestingLogger.BeginScope | RandomSkunk.Logging.Testing.Moq/TestingLogger.cs:78-93 | appends exactly one entry at the end, holding the given state; earlier entries are untouched; returns the new entry's object, which is fresh, so no two calls return the same object |
| MoqTesting.WarningLoggerThreshold | RandomSkunk.Logging.Testing.Moq.UnitTests/TestingLogger_should.cs:28-38 | a Warning logger disables Trace, Debug and Information and enables Warning, Error and Critical |
| MoqTesting.IsEnabledUpwardClosed | RandomSkunk.Logging.Testing.Moq/TestingLogger.cs:75-76 | if a level is enabled, every level at least as high is enabled |
| Testing.TestingLogger.Default | RandomSkunk.Logging.Testing/TestingLogger.cs:10-11 | the parameterless constructor yields level Trace, a fresh `BeginScopeReturnValue` mock with its own fresh object, and nothing logged |
| Testing.TestingLogger.constructor | RandomSkunk.Logging.Testing/TestingLogger.cs:13-16 | the level constructor stores its argument in a constant field, with a fresh `BeginScopeReturnValue` mock with its own fresh object, and nothing logged |
| Testing.TestingLogger.Log | RandomSkunk.Logging.Testing/TestingLogger.cs:18 | the abstract `Log` receives exactly one call with the given level, event id, message and exception |
| Testing.TestingLogger.LogState | RandomSkunk.Logging.Testing/TestingLogger.cs:20-21 | `Log<TState>` appends exactly one `Log` call, after all earlier ones, with the same level, event id and exception and with the formatter's output as message |
| Testing.TestingLogger.IsEnabled | RandomSkunk.Logging.Testing/TestingLogger.cs:23-24 | a level is enabled iff its integer value is at least the logger's; the logger's own level is always enabled |
| Testing.TestingLogger.BeginScope | RandomSkunk.Logging.Testing/TestingLogger.cs:26-27 | every scope gets the object of the fixed `BeginScopeReturnValue` mock |
| Testing.DefaultLoggerEnablesAll | RandomSkunk.Logging.Testing/TestingLogger.cs:10-11 | a logger built with the parameterless constructor enables every level |
| Testing.BeginScopeIgnoresState | RandomSkunk.Logging.Testing/TestingLogger.cs:26-27 | any two `BeginScope` calls return the same object, whatever states (of whatever types) they receive |

## Left out

- The log-invocation query builder (`LogInvocationQuery<TLogger>` and `ILogInvocationQuery<TLogger>`) is not part of this model. That covers its per-field matchers, error-type narrowing and the rendering of its diagnostics.
- The `MockLoggerExtensions` classes of both packages are not part of this model. They are thin wrappers over the mocking library's setup and verification, and over the (left-out) query builder's `Verify`: each `VerifyLog` builds a query and calls its `Verify`.
- `MockLogger`, `MockTestingLogger` and the `TestingLogger<TCategoryName>` subclasses are not part of this model. They only pass constructor arguments through or set the mocking library's `CallBase` flag; the two `MockLogger` classes also re-expose their object's `ScopeCompletions`, which is the list modelled here.
- Disposing a scope, and any check that a scope was disposed, is not modelled. A scope completion is only its state and its object.
- Call recording, counting and `Times` constraints belong to the mocking library and are not modelled.
- Message formatting is not modelled. The formatter is an uninterpreted function parameter, and each `Log<TState>` call is taken to call it once.
- The abstract `Log` may do anything in a real subclass. In the model the class's `Log` is made concrete: it records its arguments. That is what the forwarding contracts are stated against.
- MoqTesting.TestingLogger.ScopeCompletions: the C# property returns the live list, so a reference taken before a `BeginScope` call also sees the entries added later. The model's field is a sequence value, so each read is a snapshot; that aliasing is not captured.
- MoqTesting.TestingLogger.LogState: if the formatter throws, the exception propagates and the abstract `Log` is never called. The model's formatter is a total function, so `LogState` always appends exactly one entry.
- Testing.TestingLogger.LogState: likewise, a throwing formatter would stop the forwarding before `Log` is called; the model's formatter is total, so one entry is always appended.
- MoqTesting.TestingLogger.BeginScope: the list is appended to without locking, so concurrent `BeginScope` calls may interfere. The model is sequential and does not capture concurrent calls.
- `IsEnabled` and `BeginScope` are virtual. Overrides in subclasses are not modelled.
- A C# enum variable can hold integers outside the seven named levels. The model has only the seven named levels.
- An event id's number is an unbounded integer, not a 32-bit one. It is only passed through, so no arithmetic depends on its width.
- The scope state type is fixed per logger (`S`). The C# method is generic per call, but the completions list stores each state as `object?`.

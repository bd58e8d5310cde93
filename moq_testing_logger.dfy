/**
 * The Moq-flavoured testing logger: a logger whose level is fixed at
 * construction, which records one scope completion per `BeginScope` call,
 * and whose generic `Log` forwards to the four-argument `Log` with the
 * formatter's output as the message.
 *
 * The type parameter `S` of the logger stands for the boxed scope state
 * (`object?`) that every scope completion exposes.
 */
module MoqTesting {
  import opened Logging
  import Wrappers

  /** A mock disposable created by one `BeginScope` call: the scope's state and the object handed back. */
  class ScopeCompletion<S> {
    const State: S
    const Object: Disposable

    constructor (state: S)
      ensures State == state && fresh(Object)
    {
      State := state;
      Object := new Disposable();
    }
  }

  // ---------------------------------------------------------------------------
  // Abstract view of a logger and of sequences of calls on it
  // ---------------------------------------------------------------------------

  /** What a logger exposes: its level, the states of its scope completions, and the entries passed to `Log`. */
  datatype Snapshot<S> = Snapshot(level: LogLevel, scopes: seq<S>, logged: seq<LogEntry>)

  /** A call that changes a logger: a `BeginScope` with its state, or a `Log` with its (formatted) entry. */
  datatype Call<S> = BeginScopeCall(state: S) | LogCall(entry: LogEntry)

  /** A freshly constructed logger at the given level. */
  function Initial<S>(level: LogLevel): Snapshot<S>
  {
    Snapshot(level, [], [])
  }

  /** The effect of one call. */
  function Step<S>(s: Snapshot<S>, c: Call<S>): Snapshot<S>
  {
    match c
    case BeginScopeCall(state) => s.(scopes := s.scopes + [state])
    case LogCall(entry) => s.(logged := s.logged + [entry])
  }

  /** The effect of a sequence of calls, made in order. */
  function Replay<S>(s: Snapshot<S>, calls: seq<Call<S>>): Snapshot<S>
    decreases |calls|
  {
    if calls == [] then s else Replay(Step(s, calls[0]), calls[1..])
  }

  /** The states passed to `BeginScope`, in call order. */
  function ScopeStates<S>(calls: seq<Call<S>>): seq<S>
  {
    if calls == [] then []
    else (if calls[0].BeginScopeCall? then [calls[0].state] else []) + ScopeStates(calls[1..])
  }

  /** The entries passed to `Log`, in call order. */
  function LogEntries<S>(calls: seq<Call<S>>): seq<LogEntry>
  {
    if calls == [] then []
    else (if calls[0].LogCall? then [calls[0].entry] else []) + LogEntries(calls[1..])
  }

  /** Replaying one more call is one more step: a logger's history can be extended call by call. */
  lemma {:induction false} ReplaySnoc<S>(s: Snapshot<S>, calls: seq<Call<S>>, c: Call<S>)
    ensures Replay(s, calls + [c]) == Step(Replay(s, calls), c)
    decreases |calls|
  {
    if calls == [] {
      assert Replay(Step(s, c), []) == Step(s, c);
    } else {
      assert (calls + [c])[1..] == calls[1..] + [c];
      ReplaySnoc(Step(s, calls[0]), calls[1..], c);
    }
  }

  /** No call changes the level. */
  lemma {:induction false} ReplayKeepsLevel<S>(s: Snapshot<S>, calls: seq<Call<S>>)
    ensures Replay(s, calls).level == s.level
    decreases |calls|
  {
    if calls != [] {
      ReplayKeepsLevel(Step(s, calls[0]), calls[1..]);
    }
  }

  /** Scope states are only ever appended: after any calls, the old list followed by the new states in call order. */
  lemma {:induction false} ReplayScopes<S>(s: Snapshot<S>, calls: seq<Call<S>>)
    ensures Replay(s, calls).scopes == s.scopes + ScopeStates(calls)
    decreases |calls|
  {
    if calls != [] {
      ReplayScopes(Step(s, calls[0]), calls[1..]);
    }
  }

  /** Logged entries are only ever appended, in call order; `BeginScope` logs nothing. */
  lemma {:induction false} ReplayLogged<S>(s: Snapshot<S>, calls: seq<Call<S>>)
    ensures Replay(s, calls).logged == s.logged + LogEntries(calls)
    decreases |calls|
  {
    if calls != [] {
      ReplayLogged(Step(s, calls[0]), calls[1..]);
    }
  }

  /**
   * On a fresh logger, the scope list is exactly the `BeginScope` states in
   * call order: the i-th entry (from 0) holds the state of the (i+1)-th
   * `BeginScope` call, whatever `Log` calls come in between.
   */
  lemma ScopeCompletionsFollowCallOrder<S>(level: LogLevel, calls: seq<Call<S>>)
    ensures Replay(Initial(level), calls).scopes == ScopeStates(calls)
    ensures Replay(Initial(level), calls).level == level
  {
    ReplayScopes(Initial(level), calls);
    ReplayKeepsLevel(Initial<S>(level), calls);
  }

  // ---------------------------------------------------------------------------
  // The logger object
  // ---------------------------------------------------------------------------

  function StatesOf<S>(completions: seq<ScopeCompletion<S>>): seq<S>
  {
    seq(|completions|, i requires 0 <= i < |completions| => completions[i].State)
  }

  class TestingLogger<S> {
    /** The level given at construction (the C# `LogLevel` property); it has no setter. */
    const Level: LogLevel
    /** One entry per `BeginScope` call, the first call first. */
    var ScopeCompletions: seq<ScopeCompletion<S>>
    /** The calls made to the four-argument `Log`, which the model records in order. */
    ghost var Logged: seq<LogEntry>

    /** Each `BeginScope` call created its own scope completion and handle. */
    ghost predicate Valid()
      reads this`ScopeCompletions
    {
      forall i, j :: 0 <= i < j < |ScopeCompletions| ==>
        ScopeCompletions[i] != ScopeCompletions[j] && ScopeCompletions[i].Object != ScopeCompletions[j].Object
    }

    ghost function View(): Snapshot<S>
      reads this
    {
      Snapshot(Level, StatesOf(ScopeCompletions), Logged)
    }

    /** The parameterless constructor: level Trace, no scopes yet. */
    constructor Default()
      ensures Valid() && View() == Initial(Trace)
      ensures ScopeCompletions == []
    {
      Level := Trace;
      ScopeCompletions := [];
      Logged := [];
    }

    /** The constructor taking the logger's level. */
    constructor (level: LogLevel)
      ensures Valid() && View() == Initial(level)
      ensures ScopeCompletions == []
    {
      Level := level;
      ScopeCompletions := [];
      Logged := [];
    }

    /** The abstract four-argument `Log`, made concrete: it records its arguments. */
    method Log(level: LogLevel, eventId: EventId, message: string, exception: Exception?)
      modifies this`Logged
      ensures Logged == old(Logged) + [LogEntry(level, eventId, message, exception)]
    {
      Logged := Logged + [LogEntry(level, eventId, message, exception)];
    }

    /**
     * The generic `Log<TState>`: exactly one call to the four-argument `Log`
     * with the same level, event id and exception, and the formatter's output
     * on the state and exception as the message. Scopes are left alone.
     */
    method LogState<T>(level: LogLevel, eventId: EventId, state: T, exception: Exception?,
                       formatter: (T, Exception?) -> string)
      modifies this`Logged
      ensures View() == Step(old(View()), LogCall(LogEntry(level, eventId, formatter(state, exception), exception)))
      ensures ScopeCompletions == old(ScopeCompletions)
    {
      Log(level, eventId, formatter(state, exception), exception);
    }

    /** A level is enabled exactly when its value is at least the logger's. */
    function IsEnabled(level: LogLevel): (enabled: bool)
      ensures enabled <==> Ord(level) >= Ord(Level)
      ensures level == Level ==> enabled
    {
      AtLeast(level, Level)
    }

    /**
     * Appends a new scope completion holding `state` to the end of
     * `ScopeCompletions`, leaving the earlier ones in place, and returns the
     * new completion's object, which no earlier call returned.
     */
    method BeginScope(state: S) returns (handle: Disposable)
      requires Valid()
      modifies this`ScopeCompletions
      ensures Valid()
      ensures View() == Step(old(View()), BeginScopeCall(state))
      ensures |ScopeCompletions| == |old(ScopeCompletions)| + 1
      ensures ScopeCompletions[..|old(ScopeCompletions)|] == old(ScopeCompletions)
      ensures ScopeCompletions[|ScopeCompletions| - 1].State == state
      ensures handle == ScopeCompletions[|ScopeCompletions| - 1].Object && fresh(handle)
    {
      var completion := new ScopeCompletion(state);
      ScopeCompletions := ScopeCompletions + [completion];
      handle := completion.Object;
      assert StatesOf(ScopeCompletions) == StatesOf(old(ScopeCompletions)) + [state];
    }
  }

  /**
   * Makes the given calls on the logger, in order: its view afterwards is the
   * replay of those calls on its view before.
   */
  method RunCalls<S>(logger: TestingLogger<S>, calls: seq<Call<S>>)
    requires logger.Valid()
    modifies logger
    ensures logger.Valid() && logger.View() == Replay(old(logger.View()), calls)
  {
    ghost var start := logger.View();
    var i := 0;
    while i < |calls|
      invariant 0 <= i <= |calls|
      invariant logger.Valid() && logger.View() == Replay(start, calls[..i])
    {
      match calls[i] {
        case BeginScopeCall(state) =>
          var _ := logger.BeginScope(state);
        case LogCall(e) =>
          logger.Log(e.level, e.eventId, e.message, e.exception);
      }
      ReplaySnoc(start, calls[..i], calls[i]);
      assert calls[..i + 1] == calls[..i] + [calls[i]];
      i := i + 1;
    }
    assert calls[..i] == calls;
  }

  /** A logger at Warning enables Warning, Error and Critical, and nothing below. */
  lemma WarningLoggerThreshold<S>(logger: TestingLogger<S>)
    requires logger.Level == Warning
    ensures !logger.IsEnabled(Trace) && !logger.IsEnabled(Debug) && !logger.IsEnabled(Information)
    ensures logger.IsEnabled(Warning) && logger.IsEnabled(Error) && logger.IsEnabled(Critical)
  {
  }

  /** The set of enabled levels is closed upwards. */
  lemma IsEnabledUpwardClosed<S>(logger: TestingLogger<S>, a: LogLevel, b: LogLevel)
    requires logger.IsEnabled(a) && AtLeast(b, a)
    ensures logger.IsEnabled(b)
  {
  }

  /** The `BeginScope` states of the call sequence that `TwoScopesScenario` makes. */
  lemma TwoScopesStates<S>(a: S, b: S, entry: LogEntry)
    ensures ScopeStates([BeginScopeCall(a), LogCall(entry), BeginScopeCall(b)]) == [a, b]
  {
    var calls := [BeginScopeCall(a), LogCall(entry), BeginScopeCall(b)];
    assert ScopeStates(calls[2..]) == [b];
    assert ScopeStates(calls[1..]) == [b];
  }

  /**
   * Begin two scopes and log in between: the list holds both states in call
   * order, each call returned its own entry's object, and the one `Log` call
   * carries the formatter's message.
   */
  method TwoScopesScenario(a: int, b: int, e: Exception)
  {
    var logger := new TestingLogger<int>.Default();
    var id := EventId(123, Wrappers.None);
    var entry := LogEntry(Information, id, "My formatted message", e);
    ghost var calls := [BeginScopeCall(a), LogCall(entry), BeginScopeCall(b)];

    var first := logger.BeginScope(a);
    ReplaySnoc(Initial(Trace), [], calls[0]);
    logger.LogState(Information, id, a, e, (s: int, x: Exception?) => "My formatted message");
    ReplaySnoc(Initial(Trace), calls[..1], calls[1]);
    assert calls[..1] + [calls[1]] == calls[..2];
    var second := logger.BeginScope(b);
    ReplaySnoc(Initial(Trace), calls[..2], calls[2]);
    assert calls[..2] + [calls[2]] == calls;

    assert logger.View() == Replay(Initial(Trace), calls);
    ScopeCompletionsFollowCallOrder(Trace, calls);
    TwoScopesStates(a, b, entry);
    assert logger.ScopeCompletions[1].State == b;
    assert first == logger.ScopeCompletions[0].Object && first != second;
    assert logger.Logged == [entry];
  }
}

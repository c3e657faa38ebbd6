/** The capture registry: the escalation of PHP errors to ErrorException, and
    the three lazily created logger collections (assertion, fatal error,
    uncaught exception), each with the callback it installs on the host on its
    first registration. Also the flattening of a throwable into a record. */
module CoreErrorHandlers {

  import opened Wrappers
  import opened Severity
  import opened PhpErrorTypes
  import opened Faults
  import StackTracePrinter

  /** Loggers and host exception handlers are opaque identities. */
  type LoggerId = nat
  type HandlerId = nat

  /** The error types that make the shutdown hook report. */
  const FATAL_LEVELS: seq<PhpInt> := [E_ERROR, E_PARSE, E_CORE_ERROR, E_COMPILE_ERROR, E_USER_ERROR]

  /** The intro of the diagnostic dump of an uncaught exception. */
  const UNCAUGHT_INTRO := "PHP Fatal Error: Uncaught: "

  /** The status the process exits with after an uncaught exception. */
  const UNCAUGHT_EXIT_STATUS := 1

  // ---------------------------------------------------------------------------
  // Flattening a throwable (getExceptionAsArray)

  /** The `trace` entry of a record: the structured frames, or the string form. */
  datatype Trace = Frames(frames: seq<Frame>) | Rendered(text: string)

  /** The array getExceptionAsArray builds. */
  datatype Record = Record(
    message: string,
    code: Code,
    file: string,
    line: int,
    trace: Trace,
    previous: Option<Record>)

  /** The record followed by the records nested in its `previous` entries. */
  function Records(r: Record): (rs: seq<Record>)
    ensures |rs| >= 1 && rs[0] == r
    decreases r
  {
    [r] + if r.previous.Some? then Records(r.previous.value) else []
  }

  /** `r` holds the message, code, file and line of `e` verbatim, and its trace
      in the form `withTrace` selects. */
  predicate Captures(r: Record, e: Fault, withTrace: bool) {
    && r.message == e.message
    && r.code == e.code
    && r.file == e.file
    && r.line == e.line
    && r.trace == if withTrace then Frames(e.trace) else Rendered(e.traceText)
  }

  /** getExceptionAsArray(e, previous, withTrace). Null gives null, whatever the
      flags; a throwable gives a record of it. With `previous` the records of
      its whole causal chain are nested, one per throwable, all built with the
      same `withTrace`; without it the record has no predecessor. */
  function ExceptionAsArray(e: Option<Fault>, previous: bool, withTrace: bool): (r: Option<Record>)
    ensures r.Some? <==> e.Some?
    ensures e.Some? ==> Captures(r.value, e.value, withTrace)
    ensures e.Some? && !previous ==> r.value.previous.None?
    ensures e.Some? && previous ==> |Records(r.value)| == |Chain(e.value)|
    ensures e.Some? && previous ==>
      forall i :: 0 <= i < |Chain(e.value)| ==> Captures(Records(r.value)[i], Chain(e.value)[i], withTrace)
    decreases e
  {
    if e.None? then None
    else
      var f := e.value;
      Some(Record(
        f.message, f.code, f.file, f.line,
        if withTrace then Frames(f.trace) else Rendered(f.traceText),
        if previous then ExceptionAsArray(f.previous, previous, withTrace) else None))
  }

  // ---------------------------------------------------------------------------
  // What the callbacks hand to the loggers

  /** The array error_get_last() returns. */
  datatype LastError = LastError(errorType: PhpInt, message: string, file: string, line: int)

  /** The context array of a log call. */
  datatype Context =
    | RawError(error: LastError)
    | AssertionLocation(file: string, line: int)
    | ExceptionContext(exception: Option<Record>)

  datatype LogCall = LogCall(level: Level, message: string, context: Context)

  /** One log call handed to a logger collection whose registered loggers are,
      at that moment, `collection` in registration order. */
  datatype Delivery = Delivery(collection: seq<LoggerId>, call: LogCall)

  /** A LogLevelRangeFilter with floor `floor` wrapping a collection. The filter
      is not part of this model: it is taken to forward a call exactly when the
      call's level is at least the floor. */
  function RangeFilter(floor: Level, collection: seq<LoggerId>, call: LogCall): (d: seq<Delivery>)
    ensures AtLeast(call.level, floor) ==> d == [Delivery(collection, call)]
    ensures !AtLeast(call.level, floor) ==> d == []
  {
    if AtLeast(call.level, floor) then [Delivery(collection, call)] else []
  }

  /** A stricter floor never forwards more: whatever passes a floor also passes
      every laxer one, unchanged. */
  lemma RangeFilterMonotone(strict: Level, lax: Level, collection: seq<LoggerId>, call: LogCall)
    requires AtLeast(strict, lax)
    ensures |RangeFilter(strict, collection, call)| <= |RangeFilter(lax, collection, call)|
    ensures RangeFilter(strict, collection, call) != [] ==>
      RangeFilter(lax, collection, call) == RangeFilter(strict, collection, call)
  {
  }

  /** The ERROR floor both callbacks wrap their collection in passes exactly
      the calls at ERROR, CRITICAL, ALERT or EMERGENCY; in particular the
      ALERT call of the shutdown hook and the CRITICAL call of the uncaught
      handler are always delivered. */
  lemma ErrorFloorPasses(collection: seq<LoggerId>, call: LogCall)
    ensures RangeFilter(Error, collection, call) != []
      <==> call.level in {Error, Critical, Alert, Emergency}
    ensures call.level == Alert || call.level == Critical ==>
      RangeFilter(Error, collection, call) == [Delivery(collection, call)]
  {
  }

  /** The loggers of a collection that may not exist yet (`?? new LoggerCollection()`). */
  function Loggers(c: Option<seq<LoggerId>>): seq<LoggerId> {
    c.GetOr([])
  }

  // ---------------------------------------------------------------------------
  // The escalation callback (enableExceptionsForErrors)

  datatype ErrorException = ErrorException(message: string, code: int, severity: PhpInt, file: string, line: int)

  /** What the error handler does: return false (let PHP's own handling go on)
      or throw an ErrorException. */
  datatype ErrorHandlerResult = ReturnFalse | Throw(exception: ErrorException)

  /** The error handler installed by enableExceptionsForErrors(bitmask), called
      for an error of type `level` while error_reporting() is `reporting`. It
      never throws while reporting is off, and otherwise throws exactly for the
      levels in the bitmask, carrying the error's message, type and origin. */
  function OnError(bitmask: PhpInt, reporting: PhpInt, level: PhpInt, message: string, file: string, line: int): (r: ErrorHandlerResult)
    ensures reporting == 0 ==> r == ReturnFalse
    ensures r.Throw? <==> reporting != 0 && bitmask & level != 0
    ensures r.Throw? ==> r.exception == ErrorException(message, 0, level, file, line)
  {
    if reporting == 0 then ReturnFalse
    else if bitmask & level != 0 then Throw(ErrorException(message, 0, level, file, line))
    else ReturnFalse
  }

  /** An included level throws, an excluded one does not (reporting on). */
  lemma EscalationScenarios(reporting: PhpInt, message: string, file: string, line: int)
    requires reporting != 0
    ensures OnError(E_USER_WARNING, reporting, E_USER_WARNING, message, file, line).Throw?
    ensures OnError(E_ALL & !E_USER_NOTICE, reporting, E_USER_NOTICE, message, file, line) == ReturnFalse
  {
  }

  /** Masks that drop the deprecations: a masked-out warning passes, a user
      error still throws (reporting on). */
  lemma BitmaskScenarios(reporting: PhpInt, message: string, file: string, line: int)
    requires reporting != 0
    ensures OnError(E_ALL & !E_DEPRECATED & !E_USER_DEPRECATED & !E_USER_WARNING, reporting, E_USER_WARNING, message, file, line) == ReturnFalse
    ensures OnError(E_ALL & !E_DEPRECATED & !E_USER_DEPRECATED, reporting, E_USER_ERROR, message, file, line).Throw?
  {
  }

  // ---------------------------------------------------------------------------
  // Registration, as a state machine on values

  datatype Pathway = Escalation | AssertionFailure | FatalError | UncaughtException

  /** What the assertion callback closes over: the log level and the exception
      handler that was active when it was installed. */
  datatype AssertionCapture = AssertionCapture(level: Level, previousHandler: Option<HandlerId>)

  /** One installation of a callback with the host runtime. */
  datatype HostCall =
    | SetErrorHandler(bitmask: PhpInt)
    | SetAssertionHandler(capture: AssertionCapture)
    | RegisterShutdownFunction
    | SetUncaughtHandler

  function PathwayOf(c: HostCall): Pathway {
    match c
    case SetErrorHandler(_) => Escalation
    case SetAssertionHandler(_) => AssertionFailure
    case RegisterShutdownFunction => FatalError
    case SetUncaughtHandler => UncaughtException
  }

  /** How many of `calls` installed a callback for pathway `p`. */
  function Installs(calls: seq<HostCall>, p: Pathway): nat
    decreases |calls|
  {
    if calls == [] then 0
    else Installs(calls[..|calls| - 1], p) + if PathwayOf(calls[|calls| - 1]) == p then 1 else 0
  }

  lemma {:induction false} InstallsOfConcat(a: seq<HostCall>, b: seq<HostCall>, p: Pathway)
    ensures Installs(a + b, p) == Installs(a, p) + Installs(b, p)
    decreases |b|
  {
    if b != [] {
      var b' := b[..|b| - 1];
      assert (a + b)[..|a + b| - 1] == a + b';
      InstallsOfConcat(a, b', p);
    } else {
      assert a + b == a;
    }
  }

  /** One call of a public static method of the registry. */
  datatype Registration =
    | EnableEscalation(bitmask: PhpInt)
    | AddAssertionLogger(logger: LoggerId, level: Level, previousHandler: Option<HandlerId>)
    | AddFatalLogger(logger: LoggerId)
    | AddExceptionLogger(logger: LoggerId)

  function Target(r: Registration): Pathway {
    match r
    case EnableEscalation(_) => Escalation
    case AddAssertionLogger(_, _, _) => AssertionFailure
    case AddFatalLogger(_) => FatalError
    case AddExceptionLogger(_) => UncaughtException
  }

  /** The registry's static fields, and the installations made so far. */
  datatype State = State(
    assertionLogger: Option<seq<LoggerId>>,
    assertionHook: Option<AssertionCapture>,
    fatalLogger: Option<seq<LoggerId>>,
    exceptionLogger: Option<seq<LoggerId>>,
    hostCalls: seq<HostCall>)

  /** All fields null, nothing installed. */
  const INITIAL := State(None, None, None, None, [])

  /** The logger collection of a pathway (the escalation pathway has none). */
  function Collection(s: State, p: Pathway): Option<seq<LoggerId>> {
    match p
    case Escalation => None
    case AssertionFailure => s.assertionLogger
    case FatalError => s.fatalLogger
    case UncaughtException => s.exceptionLogger
  }

  /** The effect of one registration: the escalation handler is installed on
      every call; a collection is created, and its callback installed, only
      while its field is null, and every call appends one logger to it. */
  function Apply(s: State, r: Registration): State {
    match r
    case EnableEscalation(mask) =>
      s.(hostCalls := s.hostCalls + [SetErrorHandler(mask)])
    case AddAssertionLogger(logger, level, handler) =>
      if s.assertionLogger.None? then
        var capture := AssertionCapture(level, handler);
        s.(assertionLogger := Some([logger]), assertionHook := Some(capture),
           hostCalls := s.hostCalls + [SetAssertionHandler(capture)])
      else s.(assertionLogger := Some(s.assertionLogger.value + [logger]))
    case AddFatalLogger(logger) =>
      if s.fatalLogger.None? then
        s.(fatalLogger := Some([logger]), hostCalls := s.hostCalls + [RegisterShutdownFunction])
      else s.(fatalLogger := Some(s.fatalLogger.value + [logger]))
    case AddExceptionLogger(logger) =>
      if s.exceptionLogger.None? then
        s.(exceptionLogger := Some([logger]), hostCalls := s.hostCalls + [SetUncaughtHandler])
      else s.(exceptionLogger := Some(s.exceptionLogger.value + [logger]))
  }

  /** A sequence of registrations, in call order. */
  function ApplyAll(s: State, rs: seq<Registration>): State
    decreases |rs|
  {
    if rs == [] then s else ApplyAll(Apply(s, rs[0]), rs[1..])
  }

  /** The loggers that `rs` registers on pathway `p`, in call order, duplicates included. */
  function LoggersFor(rs: seq<Registration>, p: Pathway): seq<LoggerId>
    decreases |rs|
  {
    if rs == [] then []
    else Added(rs[0], p) + LoggersFor(rs[1..], p)
  }

  /** How many calls in `rs` target pathway `p`. */
  function CallsTo(rs: seq<Registration>, p: Pathway): nat
    decreases |rs|
  {
    if rs == [] then 0 else (if Target(rs[0]) == p then 1 else 0) + CallsTo(rs[1..], p)
  }

  /** The capture of the first assertion registration in `rs`, if any. */
  function FirstCapture(rs: seq<Registration>): Option<AssertionCapture>
    decreases |rs|
  {
    if rs == [] then None
    else if rs[0].AddAssertionLogger? then Some(AssertionCapture(rs[0].level, rs[0].previousHandler))
    else FirstCapture(rs[1..])
  }

  /** The registry's invariant: a pathway's callback is installed exactly once
      if its collection exists and never otherwise; an existing collection
      holds at least one logger; the assertion callback's captured values are
      kept exactly while its collection exists. */
  ghost predicate Valid(s: State) {
    && (s.assertionHook.Some? <==> s.assertionLogger.Some?)
    && (s.assertionHook.Some? ==> SetAssertionHandler(s.assertionHook.value) in s.hostCalls)
    && Installs(s.hostCalls, AssertionFailure) == (if s.assertionLogger.Some? then 1 else 0)
    && Installs(s.hostCalls, FatalError) == (if s.fatalLogger.Some? then 1 else 0)
    && Installs(s.hostCalls, UncaughtException) == (if s.exceptionLogger.Some? then 1 else 0)
    && (s.assertionLogger.Some? ==> s.assertionLogger.value != [])
    && (s.fatalLogger.Some? ==> s.fatalLogger.value != [])
    && (s.exceptionLogger.Some? ==> s.exceptionLogger.value != [])
  }

  /** One registration adds one installation to its pathway when its collection
      did not exist yet (every time, for the escalation pathway), and no
      installation to any other pathway. */
  lemma StepInstalls(s: State, r: Registration, p: Pathway)
    ensures Installs(Apply(s, r).hostCalls, p)
         == Installs(s.hostCalls, p)
            + if Target(r) == p && (p == Escalation || Collection(s, p).None?) then 1 else 0
  {
    var added: seq<HostCall> := if Target(r) == Escalation || Collection(s, Target(r)).None? then
      [match r
       case EnableEscalation(mask) => SetErrorHandler(mask)
       case AddAssertionLogger(_, level, handler) => SetAssertionHandler(AssertionCapture(level, handler))
       case AddFatalLogger(_) => RegisterShutdownFunction
       case AddExceptionLogger(_) => SetUncaughtHandler]
    else [];
    assert Apply(s, r).hostCalls == s.hostCalls + added;
    InstallsOfConcat(s.hostCalls, added, p);
    if added != [] {
      assert added[..0] == [];
    }
  }

  /** Registration keeps the invariant. */
  lemma ApplyKeepsValid(s: State, r: Registration)
    requires Valid(s)
    ensures Valid(Apply(s, r))
  {
    StepInstalls(s, r, AssertionFailure);
    StepInstalls(s, r, FatalError);
    StepInstalls(s, r, UncaughtException);
  }

  /** Pathways are independent: a registration on one pathway leaves every
      other pathway's collection and installations as they were. */
  lemma RegistrationIsolated(s: State, r: Registration, q: Pathway)
    requires q != Target(r)
    ensures Collection(Apply(s, r), q) == Collection(s, q)
    ensures Installs(Apply(s, r).hostCalls, q) == Installs(s.hostCalls, q)
    ensures q == AssertionFailure ==> Apply(s, r).assertionHook == s.assertionHook
  {
    StepInstalls(s, r, q);
  }

  /** The loggers one registration adds to pathway `p`. */
  function Added(r: Registration, p: Pathway): seq<LoggerId> {
    if Target(r) == p && !r.EnableEscalation? then [r.logger] else []
  }

  /** One registration appends its logger, if any, to its own pathway's
      collection, creating it if need be. */
  lemma StepCollection(s: State, r: Registration, p: Pathway)
    ensures Loggers(Collection(Apply(s, r), p)) == Loggers(Collection(s, p)) + Added(r, p)
    ensures Collection(Apply(s, r), p).Some? <==> Collection(s, p).Some? || Added(r, p) != []
  {
    if Added(r, p) == [] {
      assert Collection(Apply(s, r), p) == Collection(s, p);
    }
  }

  /** After any sequence of registrations a pathway's collection holds the
      loggers it held before followed by every logger registered on it, in
      call order, duplicates included; it exists iff it existed or some
      logger was registered. */
  lemma {:induction false} ApplyAllCollection(s: State, rs: seq<Registration>, p: Pathway)
    ensures Loggers(Collection(ApplyAll(s, rs), p)) == Loggers(Collection(s, p)) + LoggersFor(rs, p)
    ensures Collection(ApplyAll(s, rs), p).Some? <==> Collection(s, p).Some? || LoggersFor(rs, p) != []
    decreases |rs|
  {
    if rs == [] {
      assert Loggers(Collection(s, p)) + [] == Loggers(Collection(s, p));
    } else {
      var s' := Apply(s, rs[0]);
      StepCollection(s, rs[0], p);
      ApplyAllCollection(s', rs[1..], p);
      assert LoggersFor(rs, p) == Added(rs[0], p) + LoggersFor(rs[1..], p);
      AppendAssoc(Loggers(Collection(s, p)), Added(rs[0], p), LoggersFor(rs[1..], p));
    }
  }

  /** After any sequence of registrations each collection pathway has gained at
      most one installation (one exactly when its collection was created by
      them), and the escalation pathway one per call. */
  lemma {:induction false} ApplyAllInstalls(s: State, rs: seq<Registration>, p: Pathway)
    ensures p == Escalation ==>
      Installs(ApplyAll(s, rs).hostCalls, p) == Installs(s.hostCalls, p) + CallsTo(rs, p)
    ensures p != Escalation ==>
      Installs(ApplyAll(s, rs).hostCalls, p)
      == Installs(s.hostCalls, p) + if Collection(s, p).None? && LoggersFor(rs, p) != [] then 1 else 0
    decreases |rs|
  {
    if rs != [] {
      var s' := Apply(s, rs[0]);
      StepInstalls(s, rs[0], p);
      ApplyAllInstalls(s', rs[1..], p);
      if p != Escalation && Target(rs[0]) == p {
        assert Collection(s', p).Some?;
        assert LoggersFor(rs, p) != [];
      } else if p != Escalation {
        assert Collection(s', p) == Collection(s, p);
        assert LoggersFor(rs, p) == LoggersFor(rs[1..], p);
      }
    }
  }

  /** The assertion callback keeps the level and previous handler of the first
      assertion registration: later registrations' arguments are ignored. */
  lemma {:induction false} ApplyAllAssertionCapture(s: State, rs: seq<Registration>)
    requires s.assertionHook.Some? <==> s.assertionLogger.Some?
    ensures ApplyAll(s, rs).assertionHook == if s.assertionHook.Some? then s.assertionHook else FirstCapture(rs)
    decreases |rs|
  {
    if rs != [] {
      ApplyAllAssertionCapture(Apply(s, rs[0]), rs[1..]);
    }
  }

  /** From a fresh registry, n registrations on a pathway install its callback
      once and leave exactly those n loggers in its collection, in call order;
      the escalation handler is installed once per call. */
  lemma RegistrationsFromStart(rs: seq<Registration>, p: Pathway)
    ensures Valid(ApplyAll(INITIAL, rs))
    ensures p != Escalation ==>
      Collection(ApplyAll(INITIAL, rs), p) == if LoggersFor(rs, p) == [] then None else Some(LoggersFor(rs, p))
    ensures p != Escalation ==>
      Installs(ApplyAll(INITIAL, rs).hostCalls, p) == if LoggersFor(rs, p) == [] then 0 else 1
    ensures p == Escalation ==> Installs(ApplyAll(INITIAL, rs).hostCalls, p) == CallsTo(rs, p)
    ensures ApplyAll(INITIAL, rs).assertionHook == FirstCapture(rs)
  {
    ApplyAllKeepsValid(INITIAL, rs);
    ApplyAllCollection(INITIAL, rs, p);
    ApplyAllInstalls(INITIAL, rs, p);
    ApplyAllAssertionCapture(INITIAL, rs);
    assert [] + LoggersFor(rs, p) == LoggersFor(rs, p);
  }

  lemma {:induction false} ApplyAllKeepsValid(s: State, rs: seq<Registration>)
    requires Valid(s)
    ensures Valid(ApplyAll(s, rs))
    decreases |rs|
  {
    if rs != [] {
      ApplyKeepsValid(s, rs[0]);
      ApplyAllKeepsValid(Apply(s, rs[0]), rs[1..]);
    }
  }

  // ---------------------------------------------------------------------------
  // The registry object and the callbacks it installs

  datatype AssertionOutcome =
    | Logged(deliveries: seq<Delivery>)
    | Delegated(handler: HandlerId, exception: Fault)
    | Rethrown(exception: Fault)

  /** The static fields of CoreErrorHandlers, and the host installations. */
  class CaptureRegistry {
    var assertionLogger: Option<seq<LoggerId>>
    var assertionHook: Option<AssertionCapture>
    var fatalLogger: Option<seq<LoggerId>>
    var exceptionLogger: Option<seq<LoggerId>>
    var hostCalls: seq<HostCall>

    function Snapshot(): State
      reads this
    {
      State(assertionLogger, assertionHook, fatalLogger, exceptionLogger, hostCalls)
    }

    constructor ()
      ensures Snapshot() == INITIAL
    {
      assertionLogger := None;
      assertionHook := None;
      fatalLogger := None;
      exceptionLogger := None;
      hostCalls := [];
    }

    /** enableExceptionsForErrors(bitmask): install the escalation error handler. */
    method EnableExceptionsForErrors(bitmask: PhpInt)
      modifies this
      ensures Snapshot() == Apply(old(Snapshot()), EnableEscalation(bitmask))
    {
      hostCalls := hostCalls + [SetErrorHandler(bitmask)];
    }

    /** registerAssertionHandler(logger, logLevel); `previousHandler` is the
        exception handler the host reports as active at this call. */
    method RegisterAssertionHandler(logger: LoggerId, logLevel: Level, previousHandler: Option<HandlerId>)
      modifies this
      ensures Snapshot() == Apply(old(Snapshot()), AddAssertionLogger(logger, logLevel, previousHandler))
    {
      if assertionLogger.None? {
        assertionLogger := Some([]);
        var capture := AssertionCapture(logLevel, previousHandler);
        assertionHook := Some(capture);
        hostCalls := hostCalls + [SetAssertionHandler(capture)];
      }
      assert old(assertionLogger).None? ==> assertionLogger.value + [logger] == [logger];
      assertionLogger := Some(assertionLogger.value + [logger]);
    }

    /** registerFatalErrorHandler(logger). */
    method RegisterFatalErrorHandler(logger: LoggerId)
      modifies this
      ensures Snapshot() == Apply(old(Snapshot()), AddFatalLogger(logger))
    {
      if fatalLogger.None? {
        fatalLogger := Some([]);
        hostCalls := hostCalls + [RegisterShutdownFunction];
      }
      assert old(fatalLogger).None? ==> fatalLogger.value + [logger] == [logger];
      fatalLogger := Some(fatalLogger.value + [logger]);
    }

    /** registerExceptionHandler(logger). */
    method RegisterExceptionHandler(logger: LoggerId)
      modifies this
      ensures Snapshot() == Apply(old(Snapshot()), AddExceptionLogger(logger))
    {
      if exceptionLogger.None? {
        exceptionLogger := Some([]);
        hostCalls := hostCalls + [SetUncaughtHandler];
      }
      assert old(exceptionLogger).None? ==> exceptionLogger.value + [logger] == [logger];
      exceptionLogger := Some(exceptionLogger.value + [logger]);
    }

    /** The exception handler installed by registerAssertionHandler, called with
        an uncaught throwable. An AssertionError is logged once, at the level
        captured at installation, with its file and line as context, and is not
        re-thrown; any other throwable goes to the previous handler if there
        was one and is re-thrown otherwise. */
    method OnAssertionFailure(e: Fault) returns (o: AssertionOutcome)
      requires assertionHook.Some?
      ensures o.Logged? <==> e.isAssertion
      ensures e.isAssertion && assertionLogger.Some? ==>
        o.deliveries == [Delivery(assertionLogger.value,
                                  LogCall(assertionHook.value.level, e.message, AssertionLocation(e.file, e.line)))]
      ensures e.isAssertion && assertionLogger.None? ==> o.deliveries == []
      ensures !e.isAssertion && assertionHook.value.previousHandler.Some? ==>
        o == Delegated(assertionHook.value.previousHandler.value, e)
      ensures !e.isAssertion && assertionHook.value.previousHandler.None? ==> o == Rethrown(e)
    {
      var capture := assertionHook.value;
      if e.isAssertion {
        if assertionLogger.Some? {
          var call := LogCall(capture.level, e.message, AssertionLocation(e.file, e.line));
          o := Logged([Delivery(assertionLogger.value, call)]);
        } else {
          o := Logged([]);
        }
        return;
      }
      if capture.previousHandler.Some? {
        o := Delegated(capture.previousHandler.value, e);
      } else {
        o := Rethrown(e);
      }
    }

    /** The shutdown function installed by registerFatalErrorHandler, called
        with what error_get_last() returns. It logs exactly one ALERT call,
        with the error's message and the raw error as context, iff there is a
        last error and its type is one of FATAL_LEVELS; otherwise nothing. */
    method OnShutdown(lastError: Option<LastError>) returns (d: seq<Delivery>)
      ensures |d| <= 1
      ensures |d| == 1 <==> lastError.Some? && lastError.value.errorType in FATAL_LEVELS
      ensures |d| == 1 ==>
        d[0] == Delivery(Loggers(fatalLogger), LogCall(Alert, lastError.value.message, RawError(lastError.value)))
    {
      d := [];
      if lastError.Some? && lastError.value.errorType in FATAL_LEVELS {
        var error := lastError.value;
        d := RangeFilter(Error, Loggers(fatalLogger), LogCall(Alert, error.message, RawError(error)));
      }
    }

    /** The exception handler installed by registerExceptionHandler. It logs
        one CRITICAL call with the exception's message and its record under
        'exception': the record with trace and predecessors, or, when building
        that one throws (`fullRecordThrows`), the record with neither. Then it
        prints the diagnostic dump and exits with status 1. */
    method OnUncaught(e: Fault, fullRecordThrows: bool, out: StackTracePrinter.DiagnosticStream)
      returns (d: seq<Delivery>, exitStatus: int)
      modifies out
      ensures |d| == 1
      ensures d[0].collection == Loggers(exceptionLogger)
      ensures d[0].call.level == Critical && d[0].call.message == e.message
      ensures d[0].call.context == ExceptionContext(ExceptionAsArray(Some(e), !fullRecordThrows, !fullRecordThrows))
      ensures out.writes == old(out.writes) + StackTracePrinter.Render(e, UNCAUGHT_INTRO)
      ensures exitStatus == UNCAUGHT_EXIT_STATUS
    {
      var collection := Loggers(exceptionLogger);
      var record: Option<Record>;
      if !fullRecordThrows {
        record := ExceptionAsArray(Some(e), true, true);
      } else {
        record := ExceptionAsArray(Some(e), false, false);
      }
      d := RangeFilter(Error, collection, LogCall(Critical, e.message, ExceptionContext(record)));
      StackTracePrinter.PrintException(out, e, UNCAUGHT_INTRO);
      exitStatus := UNCAUGHT_EXIT_STATUS;
    }
  }
}

# Core error handlers and the stack-trace printer

This project models the error-capture core of the LoggerEssentials ErrorHandling
package. That core has two parts:

- **CoreErrorHandlers** keeps three lazily created logger collections as static
  fields:
  - the assertion collection;
  - the fatal-error collection;
  - the uncaught-exception collection.

  The first registration on a collection creates it and installs one callback
  with the PHP runtime. Later registrations only append their logger.
  `enableExceptionsForErrors` installs an error handler that turns the PHP
  errors selected by a bitmask into `ErrorException`s. `getExceptionAsArray`
  flattens a throwable and its causal chain into nested records.
- **StackTracePrinter** writes a plain-text dump of an uncaught throwable to the
  diagnostic stream. The dump has a header line, one station line per frame, a
  signature line for each frame that names a class or a function, and then the
  same dump for each predecessor, introduced with "Previous: ".

The model has these modules:

| module | contents |
|---|---|
| `Wrappers` | `Option` and one sequence lemma |
| `Severity` | the eight PSR-3 levels, ordered by their RFC 5424 codes |
| `PhpErrorTypes` | the `E_*` constants as 64-bit PHP integers |
| `Faults` | throwables and stack frames, as values |
| `Text` | the pieces of `sprintf` the printer uses: `%d`, `%-3s`, `join`, `strpos` |
| `StackTracePrinter` | the dump as the function `Render`, plus the imperative printer that is proved to write exactly `Render` |
| `CoreErrorHandlers` | `getExceptionAsArray`; the registration state machine (`Apply`, `ApplyAll`) and its invariant `Valid`; the registry class `CaptureRegistry`, whose methods are proved against `Apply`; the four callbacks |

Each registration method is specified by the same state machine:
`Snapshot() == Apply(old(Snapshot()), registration)`. The lemmas about
`ApplyAll` state what any sequence of calls leaves behind:

- the loggers of each collection, in call order;
- the number of installations per pathway;
- the captured assertion level.

## Model

| member | source | states |
|---|---|---|
| `CoreErrorHandlers.OnError` | src/CoreErrorHandlers.php:33-42 | while error_reporting() is 0 the handler returns false; otherwise it throws iff `bitmask & level != 0`; the thrown ErrorException carries the message, code 0, severity = level, file and line |
| `CoreErrorHandlers.EscalationScenarios` | tests/CoreErrorHandlersExtendedTest.php:11-30 | with reporting on, E_USER_WARNING under the mask E_USER_WARNING throws, and E_USER_NOTICE under `E_ALL & ~E_USER_NOTICE` does not |
| `CoreErrorHandlers.BitmaskScenarios` | tests/CoreErrorHandlersTest.php:16-27 | with reporting on, E_USER_WARNING under `E_ALL & ~E_DEPRECATED & ~E_USER_DEPRECATED & ~E_USER_WARNING` does not throw, and E_USER_ERROR under `E_ALL & ~E_DEPRECATED & ~E_USER_DEPRECATED` throws |
| `CoreErrorHandlers.CaptureRegistry.EnableExceptionsForErrors` | src/CoreErrorHandlers.php:32-43 | every call installs one more error handler with its bitmask and changes nothing else |
| `CoreErrorHandlers.CaptureRegistry.constructor` | src/CoreErrorHandlers.php:25-27 | the three collections start null and nothing is installed |
| `CoreErrorHandlers.CaptureRegistry.RegisterAssertionHandler` | src/CoreErrorHandlers.php:49-78 | the new state is `Apply` of the old one: a null collection is created and the assertion callback is installed, capturing the level and the previously active handler; then the logger is appended |
| `CoreErrorHandlers.CaptureRegistry.RegisterFatalErrorHandler` | src/CoreErrorHandlers.php:83-95 | the new state is `Apply` of the old one: a null collection is created and the shutdown function is registered; then the logger is appended |
| `CoreErrorHandlers.CaptureRegistry.RegisterExceptionHandler` | src/CoreErrorHandlers.php:97-114 | the new state is `Apply` of the old one: a null collection is created and the uncaught-exception handler is installed; then the logger is appended |
| `CoreErrorHandlers.CaptureRegistry.OnAssertionFailure` | src/CoreErrorHandlers.php:58-75 | it logs iff the throwable is an AssertionError. The log is one call at the captured level, with the message and file/line context, to the collection (nothing when the collection is null). Any other throwable goes to the captured previous handler, or is re-thrown when there was none |
| `CoreErrorHandlers.CaptureRegistry.OnShutdown` | src/CoreErrorHandlers.php:86-92 | at most one delivery. There is exactly one iff there is a last error whose type is in FATAL_LEVELS; it is an ALERT call with the error's message and the raw error as context, to the fatal collection (empty when null) |
| `CoreErrorHandlers.CaptureRegistry.OnUncaught` | src/CoreErrorHandlers.php:100-111 | one CRITICAL delivery with the message and, under 'exception', the full record (trace and predecessors); when building that record throws, the record without either. It then writes `Render(e, "PHP Fatal Error: Uncaught: ")` to the stream and exits with status 1 |
| `CoreErrorHandlers.ExceptionAsArray` | src/CoreErrorHandlers.php:123-136 | null iff the input is null. The record holds the message, code, file and line verbatim, and the structured or string trace as `withTrace` selects. Without `previous` the record has no predecessor; with it, there is one nested record per element of the causal chain, each built with the same `withTrace` |
| `CoreErrorHandlers.RangeFilterMonotone` | src/CoreErrorHandlers.php:89-90 | about the filter assumption only (the source uses the ERROR floor alone): a stricter floor never forwards more, and a call that passes a floor passes every laxer floor unchanged |
| `CoreErrorHandlers.ErrorFloorPasses` | src/CoreErrorHandlers.php:89-90 | the ERROR floor that both callbacks use forwards exactly the ERROR, CRITICAL, ALERT and EMERGENCY calls; the shutdown hook's ALERT call and the uncaught handler's CRITICAL call are always delivered |
| `CoreErrorHandlers.StepInstalls` | src/CoreErrorHandlers.php:49-114 | one registration adds one installation to its own pathway only if its collection was null (always, for escalation), and none to any other pathway |
| `CoreErrorHandlers.ApplyKeepsValid` | src/CoreErrorHandlers.php:49-114 | the registry invariant is preserved by every registration: a collection exists iff its callback was installed exactly once; an existing collection is non-empty; the assertion capture exists iff its collection does |
| `CoreErrorHandlers.RegistrationIsolated` | src/CoreErrorHandlers.php:25-27 | a registration on one pathway leaves every other pathway's collection, installations and assertion capture unchanged |
| `CoreErrorHandlers.StepCollection` | src/CoreErrorHandlers.php:49-114 | one registration appends its logger to its own collection, creating it if null |
| `CoreErrorHandlers.ApplyAllCollection` | src/CoreErrorHandlers.php:49-114 | after any sequence of registrations a collection holds its old loggers followed by every logger registered on it, in call order with duplicates; it exists iff it existed or some logger was registered |
| `CoreErrorHandlers.ApplyAllInstalls` | src/CoreErrorHandlers.php:49-114 | after any sequence of registrations a collection pathway has gained one installation iff its collection was created by them, and none otherwise; the escalation pathway gains one per call |
| `CoreErrorHandlers.ApplyAllAssertionCapture` | src/CoreErrorHandlers.php:50-58 | the assertion callback keeps the level and previous handler of the first assertion registration; later arguments are ignored |
| `CoreErrorHandlers.ApplyAllKeepsValid` | src/CoreErrorHandlers.php:49-114 | the registry invariant survives any sequence of registrations |
| `CoreErrorHandlers.RegistrationsFromStart` | src/CoreErrorHandlers.php:32-114 | from a fresh registry, n registrations on a pathway install its callback once (never for n = 0) and leave exactly those n loggers in call order; escalation installs once per call; the state satisfies the invariant |
| `Severity.AtLeastIsTotalOrder` | src/CoreErrorHandlers.php:89 | severity comparison by RFC 5424 code is a total order on the eight PSR-3 levels |
| `Faults.Chain` | src/StackTracePrinter.php:19-21 | the causal chain starts with the throwable itself |
| `Text.NatToString` | src/StackTracePrinter.php:43 | `%d` of a non-negative integer is a non-empty string of digits with no leading zero, except for 0 |
| `Text.NatToStringRoundTrip` | src/StackTracePrinter.php:43 | the printed digits read back as the number |
| `Text.IntToStringRoundTrip` | src/StackTracePrinter.php:43 | `%d` of any integer, sign included, reads back as that integer |
| `Text.PadRight` | src/StackTracePrinter.php:43 | `%-3s` keeps the string as a prefix, pads it with spaces to the width, and never truncates |
| `StackTracePrinter.HeaderLayout` | src/StackTracePrinter.php:13 | the header is the intro, the class name in brackets followed by a space, the message, and a newline, in that order |
| `Text.Join` | src/StackTracePrinter.php:63 | joining no parts gives the empty string, one part gives that part, and otherwise the result starts with the first part followed by the separator |
| `Text.JoinAppend` | src/StackTracePrinter.php:63 | joining two non-empty lists is joining each and putting the separator once between them; with the one-part case this places every part, in order, separated by the separator |
| `StackTracePrinter.FileText` | src/StackTracePrinter.php:43 | the file prints as "unknown" when null, "" or "0", and as itself otherwise |
| `StackTracePrinter.LineTextReadsBack` | src/StackTracePrinter.php:43 | the printed line number reads back as the frame's line, or 0 when the frame has none |
| `StackTracePrinter.StationLine` | src/StackTracePrinter.php:43 | a station line starts with '#' |
| `StackTracePrinter.StationLineIsTagged` | src/StackTracePrinter.php:43 | after the '#' comes the index in decimal, which reads back as the index, padded with spaces to column 4 |
| `StackTracePrinter.StationLineLayout` | src/StackTracePrinter.php:43 | after the padded index come the file text ("unknown" for a falsy file), ':', the line number, which reads back as the frame's line or 0, and the newline |
| `StackTracePrinter.DisplayName` | src/StackTracePrinter.php:59-62 | a name is present iff the function is. A name without `{closure}`, or one on a frame without a class, is printed unchanged. A name containing `{closure}` on a frame with a class becomes exactly `{closure}` |
| `StackTracePrinter.SignatureLine` | src/StackTracePrinter.php:63 | the signature line is indented four spaces and ends with ")" and a newline |
| `StackTracePrinter.SignatureLineLayout` | src/StackTracePrinter.php:63 | after the four-space indent come the class, call type and function name (null prints empty), then '(', the summaries joined by ", ", and `)` with the newline |
| `StackTracePrinter.StationLines` | src/StackTracePrinter.php:43-64 | a frame prints its station line, then a second line iff it names a class or a function, and that second line is the frame's signature line `SignatureOf` |
| `StackTracePrinter.SignatureLayout` | src/StackTracePrinter.php:50-63 | a frame's signature line is the indent, the class, the call type, and the shown function name: exactly `{closure}` for a closure called from a class, the function unchanged otherwise. Then come '(', the argument summaries joined by ", ", and `)` with the newline. There is one summary per argument, in order |
| `StackTracePrinter.SummarizeArgs` | src/StackTracePrinter.php:50-58 | one summary per argument, in order: `array<count>`, the class name, or the type name |
| `StackTracePrinter.FormatStation` | src/StackTracePrinter.php:33-65 | exactly `StationLines(idx, station)` is appended to the stream |
| `StackTracePrinter.PrintTrace` | src/StackTracePrinter.php:15-17 | exactly `TraceLines(frames)` is appended to the stream: every frame's lines, in trace order, tagged with its index |
| `StackTracePrinter.PrintException` | src/StackTracePrinter.php:12-23 | exactly `Render(e, intro)` is appended to the stream |
| `StackTracePrinter.RenderIsChainOfBlocks` | src/StackTracePrinter.php:12-22 | the report is the throwable's header and trace, then, for each predecessor in chain order, an empty line and its block under "Previous: "; the report starts with the header |
| `StackTracePrinter.StationsInTraceOrder` | src/StackTracePrinter.php:15-17 | the lines starting with '#' in a trace dump are exactly one per frame, in trace order; the k-th is frame k's station line with index k |
| `StackTracePrinter.DiagnosticStream.Write` | src/StackTracePrinter.php:70-78 | each write appends its text to the stream |

## Left out

- Host runtime calls are inputs and outputs of the model, not modelled behaviour. These are `set_error_handler`, `set_exception_handler`/`restore_exception_handler`, `register_shutdown_function`, `error_get_last`, `error_reporting` and `die`. Installations are recorded as `HostCall` values, and the handler active before an assertion registration is a parameter.
- Which of the two exception handlers is active when both the assertion and the uncaught handler are registered is not modelled; the host keeps the last one installed.
- LoggerCollection and LogLevelRangeFilter are not part of this model. A delivery names the collection's loggers at that moment. The range filter is taken to forward exactly the calls at or above its floor; fan-out to the individual loggers is not claimed.
- CoreErrorHandlers.CaptureRegistry.OnUncaught: a logger that throws inside the first log call, which makes the source log a second time, is modelled only as the boolean `fullRecordThrows`; the model then shows the one call with the reduced record. The fallback log call is assumed not to throw. If it does, the exception leaves the handler, so the source prints no dump and does not exit with status 1, while the contract promises both.
- A `$logLevel` string outside the eight PSR-3 levels cannot be expressed: levels are the `Level` datatype.
- `get_class`, `gettype`, `getTraceAsString` and `instanceof AssertionError` are not computed. They are fields of the throwable and argument values (`cls`, `typeName`, `traceText`, `isAssertion`).
- `fopen`/`fwrite`/`fclose` on php://stderr are not modelled. In particular, the printer's silent drop of a write when the stream cannot be opened is not captured: every write reaches the stream.
- `vsprintf` is modelled only for the formats the printer uses. A station `args` entry that is not an array is treated as empty, as the source does.
- `E_ALL` is 32767, its value in PHP 8.0 to 8.3.
- Default arguments are not modelled: callers pass the bitmask of `enableExceptionsForErrors` (default `E_ALL`) and the intro of `printException` (default `""`) explicitly.
- The static fields are one `CaptureRegistry` object. Concurrent or re-entrant use is not modelled.

# IndentedLogger: operation stack and line rendering

This is a Dafny model of Orbeon Forms' `org.orbeon.oxf.util.IndentedLogger`. The logger writes
one debug, warning or error line per call. Each line is indented two spaces per nesting level,
then carries a type tag, " - ", the message, and an optional `{name: "value", ...}` block built
from a flat name/value array.

Nesting comes from an operation stack:

- `startHandleOperation` pushes an operation and logs a start line, then goes one level deeper.
- `endHandleOperation` goes one level back, pops the operation, and logs an end line with the
  elapsed milliseconds first in the block.
- The argument-less start pushes a placeholder. It only shifts the depth and logs nothing.
- All start and end calls are gated on the logger's debug switch.

The model is functional. A `Logger` value holds:

- the debug switch;
- the depth, which is the `Indentation` counter;
- the stack, whose top is at the end of the sequence;
- the prefix.

Every instance call returns a `Step`. A step holds the logger after the call, the lines handed to
the log4j sink (`Entry(level, line)`), and how the call completed: normally, or with the Java
runtime exception it raises (`EmptyStack`, `IndexOutOfBounds`, `NullPointer`). The static
variants return the entry or the exception (`Result<Entry>`), and `AsStep` turns that into the
step an instance call would report. The constructors (`NewLogger`, `Derive`) return a `Logger`.

Java updates the state before some of those exceptions, and the model keeps that state:

- the depth is decremented before the pop;
- the operation is pushed before its start line is rendered.

Java `null` is explicit: `Nullable<T>`, and "null" is what a null string concatenates as. The
clock is a parameter `now`.

Modules:

- `JavaTypes`: nullable references, exceptions as values, and string concatenation of null.
- `Decimal`: `Long.toString` and its inverse. Elapsed times are printed with it.
- `LineFormat`: the line renderer. It holds a join-based specification (`ParamBlock`,
  `FormatLine`) and the Java loops proved equal to it (`GetLogIndentSpaces`, `RenderParameters`).
- `IndentedLogger`: the constructors, the start/end operations, and every log overload, instance
  and static.
- `LoggerRuns`: sequences of calls, and the properties that relate several calls.
- `Findings`: the two throwable-rendering defects, as written and corrected.

Three behaviours of the code worth noting:

- A non-null parameter array with no kept pairs, including an empty one, renders " {}", not
  nothing.
- A null throwable makes `throwableToString` throw `NullPointerException`; it does not log
  anyway.
- Ending with an empty stack throws `EmptyStackException` after the depth has already been
  decremented.

## Model

| member | source | states |
|---|---|---|
| LineFormat.GetLogIndentSpaces | src/java/org/orbeon/oxf/util/IndentedLogger.java:122-127 | the loop builds exactly twice `level` spaces, and nothing for a level of zero or below |
| LineFormat.RenderParameters | src/java/org/orbeon/oxf/util/IndentedLogger.java:182-206 | the StringBuilder loop with its `first` flag equals the join of the kept pairs in " {" "}"; a null array gives ""; an odd-length array throws IndexOutOfBounds |
| LineFormat.ParamBlock | src/java/org/orbeon/oxf/util/IndentedLogger.java:182-206 | a block is produced exactly when the array is null or of even length; otherwise the error is IndexOutOfBounds; a null array renders nothing |
| LineFormat.FormatLine | src/java/org/orbeon/oxf/util/IndentedLogger.java:181-208 | a line renders exactly when its parameter array is well formed; otherwise the renderer throws IndexOutOfBounds |
| LineFormat.RenderedPairsAppend | src/java/org/orbeon/oxf/util/IndentedLogger.java:186-201 | rendering distributes over concatenation of arrays, so kept pairs appear in array order |
| LineFormat.NothingKept | src/java/org/orbeon/oxf/util/IndentedLogger.java:186-201 | no pair text is produced exactly when every pair lacks its name or its value |
| LineFormat.DroppedPairLeavesNoTrace | src/java/org/orbeon/oxf/util/IndentedLogger.java:190-200 | appending a pair with a null name or value changes nothing in the block: no separator, no placeholder |
| LineFormat.AllDroppedRendersEmptyBraces | src/java/org/orbeon/oxf/util/IndentedLogger.java:183-203 | a non-null array whose pairs are all dropped still renders " {}" |
| LineFormat.LeadingPairFirst | src/java/org/orbeon/oxf/util/IndentedLogger.java:184-202 | a kept leading pair comes first, followed by ", " and the rest only when the rest keeps something |
| LineFormat.RenderedLevel | src/java/org/orbeon/oxf/util/IndentedLogger.java:122-127 | the indentation level can be read back from a line: when the type tag's text is non-empty and does not begin with a space, the line starts with exactly 2 × level spaces, and with none for a level of zero or below |
| LineFormat.SingleLine | src/java/org/orbeon/oxf/util/IndentedLogger.java:208 | a call renders a single line: with inputs free of line feeds and carriage returns, the rendered text contains neither |
| Decimal.LongRoundTrip | src/java/org/orbeon/oxf/util/IndentedLogger.java:101 | the decimal text `Long.toString` produces reads back as the same long |
| Decimal.LongToStringInjective | src/java/org/orbeon/oxf/util/IndentedLogger.java:114 | two different elapsed times never print alike |
| IndentedLogger.NewLogger | src/java/org/orbeon/oxf/util/IndentedLogger.java:55-63 | a new logger starts at depth 0 with an empty stack, keeping the sink's debug switch and the prefix |
| IndentedLogger.NewOperation | src/java/org/orbeon/oxf/util/IndentedLogger.java:36-48 | an operation records its type and message, and the current time as its start only when debug logging is enabled (0 otherwise) |
| IndentedLogger.TimeParameters | src/java/org/orbeon/oxf/util/IndentedLogger.java:50-52 | the timing pair is "time (ms)" followed by text that reads back as the time elapsed since the start, with no sign when the clock did not go backwards |
| IndentedLogger.Derive | src/java/org/orbeon/oxf/util/IndentedLogger.java:65-67 | the copy starts at the parent's depth with its own empty stack, and keeps the parent's debug switch and prefix |
| IndentedLogger.Log | src/java/org/orbeon/oxf/util/IndentedLogger.java:181-210 | the static log succeeds exactly for well-formed arrays, at the requested severity; otherwise the error is IndexOutOfBounds |
| IndentedLogger.Emit | src/java/org/orbeon/oxf/util/IndentedLogger.java:173-179 | the instance log renders at the logger's own depth, leaves the logger untouched, and emits nothing when it throws |
| IndentedLogger.StartScope | src/java/org/orbeon/oxf/util/IndentedLogger.java:73-78 | when enabled, pushes a placeholder and deepens by one without logging; when disabled, changes nothing; depth minus stack height is kept |
| IndentedLogger.Start | src/java/org/orbeon/oxf/util/IndentedLogger.java:80-86 | when enabled, pushes the timed operation, logs "start " + message at the depth before the call, then deepens by one; when disabled, nothing happens |
| IndentedLogger.StartWith | src/java/org/orbeon/oxf/util/IndentedLogger.java:88-94 | as Start, with the parameter block; a malformed array throws after the push and before the depth moves |
| IndentedLogger.End | src/java/org/orbeon/oxf/util/IndentedLogger.java:96-104 | when enabled, the depth drops by one; an empty stack throws EmptyStack after that; a placeholder ends silently; a named operation logs "end " + message with its elapsed time at the reduced depth |
| IndentedLogger.EndWith | src/java/org/orbeon/oxf/util/IndentedLogger.java:106-120 | as End, with the caller's pairs after the timing pair; after a named operation a null array throws NullPointer and an odd-length one IndexOutOfBounds, both with the pop done; a throwing call emits nothing |
| IndentedLogger.ThrowableToString | src/java/org/orbeon/oxf/util/IndentedLogger.java:224-228 | corrected rendering: the throwable's trace text; a null throwable throws NullPointer |
| IndentedLogger.LogDebug | src/java/org/orbeon/oxf/util/IndentedLogger.java:129-131 | one debug line without a block at the current depth; never throws; the logger is unchanged |
| IndentedLogger.LogDebugWith | src/java/org/orbeon/oxf/util/IndentedLogger.java:133-135 | one debug line with the block at the current depth exactly when the array is well formed; otherwise IndexOutOfBounds and nothing emitted; the logger is unchanged |
| IndentedLogger.LogWarning | src/java/org/orbeon/oxf/util/IndentedLogger.java:157-159 | one warning line with the block at the current depth exactly when the array is well formed; otherwise IndexOutOfBounds and nothing emitted; the logger is unchanged |
| IndentedLogger.LogWarningThrowable | src/java/org/orbeon/oxf/util/IndentedLogger.java:161-163 | with the corrected throwable rendering: one warning line carrying the single pair throwable: trace exactly when the throwable is non-null; a null throwable throws NullPointer and emits nothing |
| IndentedLogger.LogError | src/java/org/orbeon/oxf/util/IndentedLogger.java:165-167 | one error line with the block at the current depth exactly when the array is well formed; otherwise IndexOutOfBounds and nothing emitted; the logger is unchanged |
| IndentedLogger.LogErrorThrowable | src/java/org/orbeon/oxf/util/IndentedLogger.java:169-171 | with the corrected throwable rendering: one error line carrying the single pair throwable: trace exactly when the throwable is non-null; a null throwable throws NullPointer and emits nothing |
| IndentedLogger.LogDebugStatic | src/java/org/orbeon/oxf/util/IndentedLogger.java:137-139 | a debug entry exactly when the array is well formed |
| IndentedLogger.LogWarningStatic | src/java/org/orbeon/oxf/util/IndentedLogger.java:141-143 | a warning entry exactly when the array is well formed |
| IndentedLogger.LogErrorStatic | src/java/org/orbeon/oxf/util/IndentedLogger.java:149-151 | an error entry exactly when the array is well formed |
| IndentedLogger.LogErrorStaticThrowable | src/java/org/orbeon/oxf/util/IndentedLogger.java:153-155 | with the corrected throwable rendering: an entry exactly when the throwable is non-null; a null throwable throws NullPointer |
| IndentedLogger.LogWarningStaticThrowableAsWritten | src/java/org/orbeon/oxf/util/IndentedLogger.java:145-147 | as written: never produces an entry; a non-null throwable always throws IndexOutOfBounds |
| IndentedLogger.LogWarningStaticThrowable | src/java/org/orbeon/oxf/util/IndentedLogger.java:145-147 | corrected: an entry exactly when the throwable is non-null |
| IndentedLogger.ThrowableToStringAsWritten | src/java/org/orbeon/oxf/util/IndentedLogger.java:224-228 | as written: the text is the PrintWriter's identity, whatever the throwable |
| IndentedLogger.PrefixIgnored | src/java/org/orbeon/oxf/util/IndentedLogger.java:208-209 | the prefix never reaches the line: any two prefixes log the same |
| LoggerRuns.Run | src/java/org/orbeon/oxf/util/IndentedLogger.java:73-120 | a run of calls keeps the debug switch and prefix, and keeps depth minus stack height unless a call threw |
| LoggerRuns.ApplyMovesByDelta | src/java/org/orbeon/oxf/util/IndentedLogger.java:73-120 | an enabled call that cannot throw moves depth and stack height together by +1 for a start, -1 for an end, 0 otherwise |
| LoggerRuns.RunFits | src/java/org/orbeon/oxf/util/IndentedLogger.java:73-120 | safe calls that never close more than h open scopes complete, move depth and height by their net count, and leave the rest of the stack alone |
| LoggerRuns.BalancedRunRestores | src/java/org/orbeon/oxf/util/IndentedLogger.java:73-120 | a balanced sequence of safe calls leaves the logger exactly as it found it |
| LoggerRuns.DepthTracksStackHeight | src/java/org/orbeon/oxf/util/IndentedLogger.java:73-109 | from an empty stack, until something throws, the depth gained equals the number of open scopes |
| LoggerRuns.GateOffOperationsDoNothing | src/java/org/orbeon/oxf/util/IndentedLogger.java:73-120 | with debug disabled, start and end calls log nothing and change nothing, whatever their arguments |
| LoggerRuns.GateOffFreezesLogger | src/java/org/orbeon/oxf/util/IndentedLogger.java:73-171 | with debug disabled, no call of any kind changes the logger's state |
| LoggerRuns.LevelOffBeforeEndLeavesEntry | src/java/org/orbeon/oxf/util/IndentedLogger.java:80-104 | when debug logging is turned off between a start and its end, the end does nothing: the operation stays on top of the stack and the depth stays one level deeper |
| LoggerRuns.LevelOnBeforeEndPopsOuter | src/java/org/orbeon/oxf/util/IndentedLogger.java:80-104 | when debug logging is turned on between a start and its end, the start pushed nothing, so the end pops the enclosing entry (EmptyStack when there is none) and the depth ends one level above where it began |
| LoggerRuns.EndAtStartDepth | src/java/org/orbeon/oxf/util/IndentedLogger.java:80-104 | an operation's end line renders at the depth of its start line, reports the time between the two calls, and the pair restores the logger |
| LoggerRuns.EndWithAtStartDepth | src/java/org/orbeon/oxf/util/IndentedLogger.java:88-120 | the same for the parameterised overloads, with the caller's end pairs after the timing pair |
| LoggerRuns.EndBlockTimeFirst | src/java/org/orbeon/oxf/util/IndentedLogger.java:112-117 | an end line's block starts with the elapsed time, followed by the caller's kept pairs in order |
| LoggerRuns.ScopeShiftsWithoutLogging | src/java/org/orbeon/oxf/util/IndentedLogger.java:73-104 | a depth-only scope logs nothing when it opens or closes, yet a line logged inside it is one level deeper |
| LoggerRuns.DerivedLogsAtParentDepth | src/java/org/orbeon/oxf/util/IndentedLogger.java:65-67 | a derived logger logs at its parent's depth, and balanced runs on it end there |
| LoggerRuns.StaticIsDepthZero | src/java/org/orbeon/oxf/util/IndentedLogger.java:137-171 | each static variant logs as the matching instance method of a logger at depth 0, the warning-with-throwable one once corrected; as written that one throws IndexOutOfBounds wherever the instance method logs |
| LoggerRuns.RequestWithQuery | src/java/org/orbeon/oxf/util/IndentedLogger.java:80-104 | a request with a nested query logs these four lines, the query's end line reporting 7 ms at the query's depth, and ends with the logger restored |
| Findings.CorrectedWarningLogsTrace | src/java/org/orbeon/oxf/util/IndentedLogger.java:145-155 | as written, the warning overload throws for any non-null throwable; corrected, it logs the same line as the error overload, at warning level |
| Findings.CorrectedLineKeepsTrace | src/java/org/orbeon/oxf/util/IndentedLogger.java:153-155 | with the corrected rendering, the logged line determines the throwable's trace |
| Findings.AsWrittenLineForgetsTrace | src/java/org/orbeon/oxf/util/IndentedLogger.java:224-228 | with the rendering as written, the logged line depends only on the PrintWriter's identity and not on the throwable: for one writer identity, any two throwables give the same line |

## Left out

- The log4j `Logger` is left out. Its level filtering happens after the line is handed over, so
  the model keeps the sequence of `(level, line)` pairs handed to it. `isDebugEnabled` is the
  logger's `debugEnabled` field.
- A change of the log4j level during a run is left out of `Call`: no call changes the debug
  switch, so `Run` keeps it fixed, and `BalancedRunRestores`, `EndAtStartDepth`,
  `EndWithAtStartDepth` and `DerivedLogsAtParentDepth` hold only for runs during which the level
  does not change. Java asks log4j again on every start and end (lines 74, 81, 89, 97, 107). A
  level change between a start and its end leaves the operation on the stack or pops an
  enclosing one; `LevelOffBeforeEndLeavesEntry` and `LevelOnBeforeEndPopsOuter` show both.
- Shared `Indentation` objects are left out. The three-argument constructor (lines 59-63) can
  give two loggers the same counter. Here each logger value carries its own depth, so sharing
  between loggers is not modelled.
- Java `int` and `long` overflow is left out. The depth and the clock are unbounded integers. A
  depth past 2^31 or an elapsed time past 2^63 does not wrap.
- `System.currentTimeMillis` becomes the parameter `now`. A disabled logger reads no clock, and
  `NewOperation` records 0 for it.
- `printStackTrace` is left out. A throwable is represented by the trace text it would print,
  and the trace's format is not modelled.
- The pass-through `getActualIndentLevel` (lines 177-179) is the identity and is inlined.
- The prefix is stored but never rendered, because the line that would use it is commented out
  (line 209).
- Concurrency is left out. The Java class is not thread-safe, and the model is sequential.
- IndentedLogger.LogWarningThrowable: uses the corrected throwable rendering. As written, line 162 logs "java.io.PrintWriter@" and the writer's hash instead of the trace (second row of Findings).
- IndentedLogger.LogErrorThrowable: uses the corrected throwable rendering. As written, line 170 logs the PrintWriter's identity instead of the trace.
- IndentedLogger.LogErrorStaticThrowable: uses the corrected throwable rendering. As written, line 154 logs the PrintWriter's identity instead of the trace.
- IndentedLogger.EmitThrowable: the helper shared by the throwable overloads uses the corrected rendering, for the same reason.
- UploadServer.js is not part of this model. It is a client-side script unrelated to the logger.

## Findings

| source | as written | input that shows it | evidently intended | confidence | as-written member | corrected member |
|---|---|---|---|---|---|---|
| src/java/org/orbeon/oxf/util/IndentedLogger.java:145-147 | `logWarningStatic(..., Throwable)` passes the rendered throwable as a one-element parameter array | any non-null throwable: the renderer reads `parameters[1]` of a one-element array and throws ArrayIndexOutOfBoundsException | pass the pair ("throwable", text), as `logErrorStatic(..., Throwable)` on line 154 does | high, not executed | IndentedLogger.LogWarningStaticThrowableAsWritten | IndentedLogger.LogWarningStaticThrowable |
| src/java/org/orbeon/oxf/util/IndentedLogger.java:224-228 | `throwableToString` returns `writer.toString()` of the PrintWriter | any throwable: the text is "java.io.PrintWriter@" followed by the fresh writer's hash, whatever the throwable, and carries none of its trace | return the StringWriter's contents, i.e. the printed trace | high, not executed | IndentedLogger.ThrowableToStringAsWritten | IndentedLogger.ThrowableToString |

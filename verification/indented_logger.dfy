/**
 IndentedLogger: a debug-gated helper that keeps a nesting depth and a stack of
 open operations on top of a leveled log sink, and renders each line at the
 current depth.

 A logger is a value; every operation returns a `Step`: the logger after the
 call, the lines the call handed to the sink (in order), and whether the call
 completed or threw. Java mutates the logger before some of its exceptions are
 raised (the depth is decremented before `Stack.pop` underflows, an operation
 is pushed before its start line fails to render), and the logger of a `Step`
 that threw is the state Java leaves behind.

 The clock is the explicit parameter `now`; the log4j logger is reduced to its
 `isDebugEnabled` answer (`debugEnabled`) and to the sequence of lines passed
 to its `log` method.
 */
module IndentedLogger {
  import opened JavaTypes
  import opened LineFormat
  import Decimal

  datatype Level = Debug | Warn | Error

  /** One call of the sink's `log(level, line)`. */
  datatype Entry = Entry(level: Level, line: string)

  /** An open named operation: its type tag, its message and its start time in milliseconds. */
  datatype Operation = Operation(kind: JString, message: JString, startTime: int)

  /**
   The logger's state: the sink's debug flag, the depth held by its
   `Indentation`, the stack of open operations (top at the end; `Null` marks a
   depth-only scope) and the prefix, which the live line format does not use.
   */
  datatype Logger = Logger(debugEnabled: bool, indentation: int, stack: seq<Nullable<Operation>>, prefix: JString)

  datatype Completion = Normal | Threw(exception: Exception)

  datatype Step = Step(logger: Logger, emitted: seq<Entry>, completion: Completion)

  /** A Java Throwable, represented by the text its stack trace prints as. */
  datatype Throwable = Throwable(trace: string)

  /** The amount by which the depth exceeds the stack height; start and end calls keep it. */
  function Offset(l: Logger): int
  {
    l.indentation - |l.stack|
  }

  /** The top of the stack, if there is one. */
  function Top(l: Logger): Nullable<Operation>
    requires |l.stack| > 0
  {
    l.stack[|l.stack| - 1]
  }

  /** A fresh logger over a sink, with a fresh `Indentation` at zero and an empty stack. */
  function NewLogger(debugEnabled: bool, prefix: JString): (l: Logger)
    ensures l.indentation == 0 && l.stack == [] && Offset(l) == 0
    ensures l.debugEnabled == debugEnabled && l.prefix == prefix
  {
    Logger(debugEnabled, 0, [], prefix)
  }

  /**
   The copy constructor: same sink and prefix, a new `Indentation` holding the
   parent's current depth, and its own empty stack.
   */
  function Derive(parent: Logger): (child: Logger)
    ensures child.indentation == parent.indentation
    ensures child.stack == [] && Offset(child) == parent.indentation
    ensures child.debugEnabled == parent.debugEnabled && child.prefix == parent.prefix
  {
    Logger(parent.debugEnabled, parent.indentation, [], parent.prefix)
  }

  /** The Operation constructor: the start time is read only when debug logging is enabled. */
  function NewOperation(debugEnabled: bool, kind: JString, message: JString, now: int): (op: Operation)
    ensures op.kind == kind && op.message == message
    ensures debugEnabled ==> op.startTime == now
    ensures !debugEnabled ==> op.startTime == 0
  {
    Operation(kind, message, if debugEnabled then now else 0)
  }

  /**
   The parameters every end line starts with: "time (ms)" and the elapsed
   milliseconds (`getTimeElapsed`), which read back as the time since the start.
   */
  function TimeParameters(op: Operation, now: int): (ps: seq<JString>)
    ensures |ps| == 2 && ps[0] == NonNull("time (ms)") && ps[1].NonNull?
    ensures Decimal.ParseLong(ps[1].value) == NonNull(now - op.startTime)
    ensures now >= op.startTime ==> ps[1].value[0] != '-'
  {
    Decimal.LongRoundTrip(now - op.startTime);
    [NonNull("time (ms)"), NonNull(Decimal.LongToString(now - op.startTime))]
  }

  // ---------------------------------------------------------------------
  // Rendering

  /**
   The static log method: the line at the given level of indentation, handed to
   the sink at the given severity. The prefix is accepted and ignored.
   */
  function Log(level: Level, indentLevel: int, prefix: JString, kind: JString, message: JString, ps: JStringArray): (r: Result<Entry>)
    ensures r.Ok? <==> WellFormed(ps)
    ensures r.Err? ==> r.error == IndexOutOfBounds
    ensures r.Ok? ==> r.value.level == level
  {
    match FormatLine(indentLevel, kind, message, ps)
    case Ok(line) => Ok(Entry(level, line))
    case Err(e) => Err(e)
  }

  /** The prefix never reaches the rendered line. */
  lemma PrefixIgnored(level: Level, indentLevel: int, p: JString, q: JString, kind: JString, message: JString, ps: JStringArray)
    ensures Log(level, indentLevel, p, kind, message, ps) == Log(level, indentLevel, q, kind, message, ps)
  {
  }

  /** The private instance log method: one line at the logger's current depth; the logger is untouched. */
  function Emit(l: Logger, level: Level, kind: JString, message: JString, ps: JStringArray): (r: Step)
    ensures r.logger == l
    ensures r.completion.Normal? <==> WellFormed(ps)
    ensures r.completion.Normal? ==> r.emitted == [Entry(level, FormatLine(l.indentation, kind, message, ps).value)]
    ensures r.completion.Threw? ==> r.emitted == [] && r.completion.exception == IndexOutOfBounds
  {
    match Log(level, l.indentation, l.prefix, kind, message, ps)
    case Ok(entry) => Step(l, [entry], Normal)
    case Err(e) => Step(l, [], Threw(e))
  }

  // ---------------------------------------------------------------------
  // Starting and ending operations

  /** startHandleOperation(): opens a depth-only scope, which logs nothing. */
  function StartScope(l: Logger): (r: Step)
    ensures r.completion == Normal && r.emitted == []
    ensures Offset(r.logger) == Offset(l)
    ensures !l.debugEnabled ==> r.logger == l
    ensures l.debugEnabled ==> r.logger.indentation == l.indentation + 1
    ensures l.debugEnabled ==> r.logger.stack == l.stack + [Null]
    ensures r.logger.debugEnabled == l.debugEnabled && r.logger.prefix == l.prefix
  {
    if !l.debugEnabled then Step(l, [], Normal)
    else Step(l.(stack := l.stack + [Null], indentation := l.indentation + 1), [], Normal)
  }

  /**
   Shared by the two named start overloads: push the operation, log its start
   line at the depth before the push, then go one level deeper. If the line
   cannot be rendered the push has happened and the depth has not moved.
   */
  function StartNamed(l: Logger, kind: JString, message: JString, ps: JStringArray, now: int): (r: Step)
    requires l.debugEnabled
  {
    var pushed := l.(stack := l.stack + [NonNull(NewOperation(l.debugEnabled, kind, message, now))]);
    var logged := Emit(pushed, Debug, kind, NonNull("start " + Show(message)), ps);
    if logged.completion.Threw? then logged
    else logged.(logger := pushed.(indentation := l.indentation + 1))
  }

  /** startHandleOperation(type, message): opens a timed operation and logs its start line. */
  function Start(l: Logger, kind: JString, message: JString, now: int): (r: Step)
    ensures r.completion == Normal
    ensures Offset(r.logger) == Offset(l)
    ensures !l.debugEnabled ==> r == Step(l, [], Normal)
    ensures l.debugEnabled ==> r.logger.indentation == l.indentation + 1
    ensures l.debugEnabled ==> r.logger.stack == l.stack + [NonNull(Operation(kind, message, now))]
    ensures l.debugEnabled ==>
      r.emitted == [Entry(Debug, FormatLine(l.indentation, kind, NonNull("start " + Show(message)), Null).value)]
    ensures r.logger.debugEnabled == l.debugEnabled && r.logger.prefix == l.prefix
  {
    if !l.debugEnabled then Step(l, [], Normal)
    else StartNamed(l, kind, message, Null, now)
  }

  /**
   startHandleOperation(type, message, parameters...): as `Start`, with a
   parameter block on the start line. A malformed array throws after the push.
   */
  function StartWith(l: Logger, kind: JString, message: JString, ps: JStringArray, now: int): (r: Step)
    ensures !l.debugEnabled ==> r == Step(l, [], Normal)
    ensures l.debugEnabled ==> r.logger.stack == l.stack + [NonNull(Operation(kind, message, now))]
    ensures l.debugEnabled ==> (r.completion.Normal? <==> WellFormed(ps))
    ensures l.debugEnabled && WellFormed(ps) ==>
      && r.logger.indentation == l.indentation + 1
      && r.emitted == [Entry(Debug, FormatLine(l.indentation, kind, NonNull("start " + Show(message)), ps).value)]
    ensures l.debugEnabled && !WellFormed(ps) ==>
      && r.logger.indentation == l.indentation
      && r.emitted == []
      && r.completion == Threw(IndexOutOfBounds)
    ensures r.completion.Normal? ==> Offset(r.logger) == Offset(l)
    ensures r.logger.debugEnabled == l.debugEnabled && r.logger.prefix == l.prefix
  {
    if !l.debugEnabled then Step(l, [], Normal)
    else StartNamed(l, kind, message, ps, now)
  }

  /**
   Shared by the two end overloads once the stack is known to be non-empty:
   the depth is already one lower and the top already popped; a depth-only
   scope logs nothing, a named operation logs its end line with `extra` after
   the timing pair. A null `extra` array throws only when it is about to be copied.
   */
  function EndNamed(l: Logger, extra: JStringArray, now: int): (r: Step)
    requires l.debugEnabled && |l.stack| > 0
    ensures r.logger == l.(indentation := l.indentation - 1, stack := l.stack[..|l.stack| - 1])
    ensures Top(l).Null? ==> r.completion == Normal && r.emitted == []
    ensures Top(l).NonNull? && extra.Null? ==> r.completion == Threw(NullPointer) && r.emitted == []
    ensures Top(l).NonNull? && extra.NonNull? ==>
      && (r.completion.Normal? <==> WellFormed(extra))
      && (r.completion.Threw? ==> r.completion == Threw(IndexOutOfBounds) && r.emitted == [])
    ensures Top(l).NonNull? && extra.NonNull? && WellFormed(extra) ==>
      r.emitted == [Entry(Debug, FormatLine(l.indentation - 1, Top(l).value.kind, NonNull("end " + Show(Top(l).value.message)),
                                            NonNull(TimeParameters(Top(l).value, now) + extra.value)).value)]
  {
    var popped := l.(indentation := l.indentation - 1, stack := l.stack[..|l.stack| - 1]);
    match Top(l)
    case Null => Step(popped, [], Normal)
    case NonNull(op) => EndOperation(popped, op, extra, now)
  }

  /**
   The end line of a named operation, logged by a logger that has already
   popped it: the timing pair, then `extra`, which throws if null.
   */
  function EndOperation(popped: Logger, op: Operation, extra: JStringArray, now: int): (r: Step)
    ensures r.logger == popped
    ensures extra.Null? ==> r == Step(popped, [], Threw(NullPointer))
    ensures extra.NonNull? ==>
      && (r.completion.Normal? <==> WellFormed(extra))
      && (r.completion.Threw? ==> r.completion == Threw(IndexOutOfBounds) && r.emitted == [])
    ensures extra.NonNull? && WellFormed(extra) ==>
      r.emitted == [Entry(Debug, FormatLine(popped.indentation, op.kind, NonNull("end " + Show(op.message)),
                                            NonNull(TimeParameters(op, now) + extra.value)).value)]
  {
    match extra
    case Null => Step(popped, [], Threw(NullPointer))
    case NonNull(ps) =>
      var all := TimeParameters(op, now) + ps;
      assert |all| == 2 + |ps|;
      assert WellFormed(NonNull(all)) <==> WellFormed(extra);
      Emit(popped, Debug, op.kind, NonNull("end " + Show(op.message)), NonNull(all))
  }

  /**
   endHandleOperation(): closes the innermost scope. The depth drops before the
   pop, so an empty stack throws with the depth already one lower.
   */
  function End(l: Logger, now: int): (r: Step)
    ensures !l.debugEnabled ==> r == Step(l, [], Normal)
    ensures l.debugEnabled ==> r.logger.indentation == l.indentation - 1
    ensures l.debugEnabled && |l.stack| == 0 ==> r == Step(l.(indentation := l.indentation - 1), [], Threw(EmptyStack))
    ensures l.debugEnabled && |l.stack| > 0 ==>
      && r.completion == Normal
      && r.logger.stack == l.stack[..|l.stack| - 1]
      && (r.emitted == [] <==> Top(l).Null?)
    ensures l.debugEnabled && |l.stack| > 0 && Top(l).NonNull? ==>
      var op := Top(l).value;
      r.emitted == [Entry(Debug, FormatLine(l.indentation - 1, op.kind, NonNull("end " + Show(op.message)),
                                            NonNull(TimeParameters(op, now))).value)]
    ensures r.completion.Normal? ==> Offset(r.logger) == Offset(l)
    ensures r.logger.debugEnabled == l.debugEnabled && r.logger.prefix == l.prefix
  {
    if !l.debugEnabled then Step(l, [], Normal)
    else if |l.stack| == 0 then Step(l.(indentation := l.indentation - 1), [], Threw(EmptyStack))
    else
      assert Top(l).NonNull? ==> TimeParameters(Top(l).value, now) + [] == TimeParameters(Top(l).value, now);
      EndNamed(l, NonNull([]), now)
  }

  /**
   endHandleOperation(parameters...): as `End`, with the caller's pairs after
   the timing pair on the end line.
   */
  function EndWith(l: Logger, ps: JStringArray, now: int): (r: Step)
    ensures !l.debugEnabled ==> r == Step(l, [], Normal)
    ensures l.debugEnabled ==> r.logger.indentation == l.indentation - 1
    ensures l.debugEnabled && |l.stack| == 0 ==> r == Step(l.(indentation := l.indentation - 1), [], Threw(EmptyStack))
    ensures l.debugEnabled && |l.stack| > 0 ==> r.logger.stack == l.stack[..|l.stack| - 1]
    ensures l.debugEnabled && |l.stack| > 0 && Top(l).Null? ==> r.completion == Normal && r.emitted == []
    ensures l.debugEnabled && |l.stack| > 0 && Top(l).NonNull? ==>
      && (r.completion.Normal? <==> ps.NonNull? && WellFormed(ps))
      && (ps.Null? ==> r.completion == Threw(NullPointer))
      && (ps.NonNull? && !WellFormed(ps) ==> r.completion == Threw(IndexOutOfBounds))
    ensures r.completion.Threw? ==> r.emitted == []
    ensures l.debugEnabled && |l.stack| > 0 && Top(l).NonNull? && ps.NonNull? && WellFormed(ps) ==>
      var op := Top(l).value;
      r.emitted == [Entry(Debug, FormatLine(l.indentation - 1, op.kind, NonNull("end " + Show(op.message)),
                                            NonNull(TimeParameters(op, now) + ps.value)).value)]
    ensures r.completion.Normal? ==> Offset(r.logger) == Offset(l)
    ensures r.logger.debugEnabled == l.debugEnabled && r.logger.prefix == l.prefix
  {
    if !l.debugEnabled then Step(l, [], Normal)
    else if |l.stack| == 0 then Step(l.(indentation := l.indentation - 1), [], Threw(EmptyStack))
    else EndNamed(l, ps, now)
  }

  // ---------------------------------------------------------------------
  // Direct logging at the current depth (not gated: the sink filters)

  /** throwableToString, as evidently intended: the throwable's stack-trace text. */
  function ThrowableToString(t: Nullable<Throwable>): (r: Result<string>)
    ensures t.Null? <==> r == Err(NullPointer)
    ensures t.NonNull? ==> r == Ok(t.value.trace)
  {
    match t
    case Null => Err(NullPointer)
    case NonNull(x) => Ok(x.trace)
  }

  /** The one-pair parameter array the throwable overloads pass. */
  function ThrowableParameters(text: string): JStringArray
  {
    NonNull([NonNull("throwable"), NonNull(text)])
  }

  /** The throwable overloads: render the throwable, then log it as the single "throwable" pair. */
  function EmitThrowable(l: Logger, level: Level, kind: JString, message: JString, t: Nullable<Throwable>): (r: Step)
    ensures r.logger == l
    ensures r.completion.Normal? <==> t.NonNull?
    ensures t.Null? ==> r == Step(l, [], Threw(NullPointer))
    ensures t.NonNull? ==>
      r.emitted == [Entry(level, FormatLine(l.indentation, kind, message, ThrowableParameters(t.value.trace)).value)]
  {
    match ThrowableToString(t)
    case Err(e) => Step(l, [], Threw(e))
    case Ok(text) => Emit(l, level, kind, message, ThrowableParameters(text))
  }

  /** logDebug(type, message): a line without a parameter block. */
  function LogDebug(l: Logger, kind: JString, message: JString): (r: Step)
    ensures r == Step(l, [Entry(Debug, FormatLine(l.indentation, kind, message, Null).value)], Normal)
  {
    Emit(l, Debug, kind, message, Null)
  }

  /** logDebug(type, message, parameters...). */
  function LogDebugWith(l: Logger, kind: JString, message: JString, ps: JStringArray): (r: Step)
    ensures r.logger == l
    ensures r.completion.Normal? <==> WellFormed(ps)
    ensures r.completion.Normal? ==> r.emitted == [Entry(Debug, FormatLine(l.indentation, kind, message, ps).value)]
    ensures r.completion.Threw? ==> r.emitted == [] && r.completion.exception == IndexOutOfBounds
  {
    Emit(l, Debug, kind, message, ps)
  }

  /** logWarning(type, message, parameters...). */
  function LogWarning(l: Logger, kind: JString, message: JString, ps: JStringArray): (r: Step)
    ensures r.logger == l
    ensures r.completion.Normal? <==> WellFormed(ps)
    ensures r.completion.Normal? ==> r.emitted == [Entry(Warn, FormatLine(l.indentation, kind, message, ps).value)]
    ensures r.completion.Threw? ==> r.emitted == [] && r.completion.exception == IndexOutOfBounds
  {
    Emit(l, Warn, kind, message, ps)
  }

  /** logWarning(type, message, throwable). */
  function LogWarningThrowable(l: Logger, kind: JString, message: JString, t: Nullable<Throwable>): (r: Step)
    ensures r.logger == l
    ensures r.completion.Normal? <==> t.NonNull?
    ensures t.NonNull? ==>
      r.emitted == [Entry(Warn, FormatLine(l.indentation, kind, message, ThrowableParameters(t.value.trace)).value)]
    ensures t.Null? ==> r.emitted == [] && r.completion == Threw(NullPointer)
  {
    EmitThrowable(l, Warn, kind, message, t)
  }

  /** logError(type, message, parameters...). */
  function LogError(l: Logger, kind: JString, message: JString, ps: JStringArray): (r: Step)
    ensures r.logger == l
    ensures r.completion.Normal? <==> WellFormed(ps)
    ensures r.completion.Normal? ==> r.emitted == [Entry(Error, FormatLine(l.indentation, kind, message, ps).value)]
    ensures r.completion.Threw? ==> r.emitted == [] && r.completion.exception == IndexOutOfBounds
  {
    Emit(l, Error, kind, message, ps)
  }

  /** logError(type, message, throwable). */
  function LogErrorThrowable(l: Logger, kind: JString, message: JString, t: Nullable<Throwable>): (r: Step)
    ensures r.logger == l
    ensures r.completion.Normal? <==> t.NonNull?
    ensures t.NonNull? ==>
      r.emitted == [Entry(Error, FormatLine(l.indentation, kind, message, ThrowableParameters(t.value.trace)).value)]
    ensures t.Null? ==> r.emitted == [] && r.completion == Threw(NullPointer)
  {
    EmitThrowable(l, Error, kind, message, t)
  }

  // ---------------------------------------------------------------------
  // Static variants: no logger instance, always at depth 0

  /** Turns the result of a static call into the step an instance call would report. */
  function AsStep(l: Logger, r: Result<Entry>): Step
  {
    match r
    case Ok(e) => Step(l, [e], Normal)
    case Err(x) => Step(l, [], Threw(x))
  }

  /** logDebugStatic(logger, prefix, type, message, parameters...). */
  function LogDebugStatic(prefix: JString, kind: JString, message: JString, ps: JStringArray): (r: Result<Entry>)
    ensures r.Ok? <==> WellFormed(ps)
    ensures r.Ok? ==> r.value.level == Debug
  {
    Log(Debug, 0, prefix, kind, message, ps)
  }

  /** logWarningStatic(logger, prefix, type, message, parameters...). */
  function LogWarningStatic(prefix: JString, kind: JString, message: JString, ps: JStringArray): (r: Result<Entry>)
    ensures r.Ok? <==> WellFormed(ps)
    ensures r.Ok? ==> r.value.level == Warn
  {
    Log(Warn, 0, prefix, kind, message, ps)
  }

  /** logErrorStatic(logger, prefix, type, message, parameters...). */
  function LogErrorStatic(prefix: JString, kind: JString, message: JString, ps: JStringArray): (r: Result<Entry>)
    ensures r.Ok? <==> WellFormed(ps)
    ensures r.Ok? ==> r.value.level == Error
  {
    Log(Error, 0, prefix, kind, message, ps)
  }

  /** logErrorStatic(logger, prefix, type, message, throwable). */
  function LogErrorStaticThrowable(prefix: JString, kind: JString, message: JString, t: Nullable<Throwable>): (r: Result<Entry>)
    ensures r.Ok? <==> t.NonNull?
    ensures t.Null? ==> r == Err(NullPointer)
  {
    match ThrowableToString(t)
    case Err(e) => Err(e)
    case Ok(text) => Log(Error, 0, prefix, kind, message, ThrowableParameters(text))
  }

  /**
   logWarningStatic(logger, prefix, type, message, throwable) as written: the
   rendered throwable is passed as a one-element parameter array, which the
   renderer always reads past the end of.
   */
  function LogWarningStaticThrowableAsWritten(prefix: JString, kind: JString, message: JString, t: Nullable<Throwable>): (r: Result<Entry>)
    ensures r.Err?
    ensures t.NonNull? ==> r == Err(IndexOutOfBounds)
  {
    match ThrowableToString(t)
    case Err(e) => Err(e)
    case Ok(text) => Log(Warn, 0, prefix, kind, message, NonNull([NonNull(text)]))
  }

  /**
   logWarningStatic(logger, prefix, type, message, throwable) as evidently
   intended: the same "throwable" pair as every other throwable overload.
   */
  function LogWarningStaticThrowable(prefix: JString, kind: JString, message: JString, t: Nullable<Throwable>): (r: Result<Entry>)
    ensures r.Ok? <==> t.NonNull?
    ensures t.Null? ==> r == Err(NullPointer)
  {
    match ThrowableToString(t)
    case Err(e) => Err(e)
    case Ok(text) => Log(Warn, 0, prefix, kind, message, ThrowableParameters(text))
  }

  /**
   throwableToString as written: it returns `toString()` of the PrintWriter the
   trace was printed into, i.e. the writer's class name and identity hash
   (`writerIdentity`), and never the trace itself.
   */
  function ThrowableToStringAsWritten(t: Nullable<Throwable>, writerIdentity: string): (r: Result<string>)
    ensures t.Null? <==> r == Err(NullPointer)
    ensures t.NonNull? ==> r == Ok("java.io.PrintWriter@" + writerIdentity)
  {
    match t
    case Null => Err(NullPointer)
    case NonNull(_) => Ok("java.io.PrintWriter@" + writerIdentity)
  }
}

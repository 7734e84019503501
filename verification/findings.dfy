/**
 The two throwable-rendering defects of the logger, each stated twice: what
 the code as written does, and what the corrected definitions that the rest
 of the model uses do instead.
 */
module Findings {
  import opened JavaTypes
  import opened LineFormat
  import opened IndentedLogger

  /** The parameter block of the one-pair "throwable" array. */
  lemma {:induction false} ThrowableBlock(text: string)
    ensures ParamBlock(ThrowableParameters(text)) == Ok(" {throwable: \"" + text + "\"}")
  {
    LeadingPairFirst("throwable", text, []);
    assert [NonNull("throwable"), NonNull(text)] + [] == [NonNull("throwable"), NonNull(text)];
    assert RenderedPairs([]) == [];
    assert " {" + PairText("throwable", text) + "" + "}" == " {throwable: \"" + text + "\"}";
  }

  /** The line a static throwable overload writes for a non-null throwable. */
  function ThrowableLine(kind: JString, message: JString, trace: string): string
  {
    Show(kind) + " - " + Show(message) + (" {throwable: \"" + trace + "\"}")
  }

  /** Every static throwable line carries its header, then the trace between the quotes. */
  lemma {:induction false} StaticThrowableLine(level: Level, prefix: JString, kind: JString, message: JString, trace: string)
    ensures Log(level, 0, prefix, kind, message, ThrowableParameters(trace)) ==
      Ok(Entry(level, ThrowableLine(kind, message, trace)))
  {
    ThrowableBlock(trace);
    assert Indent(0) == "";
    var body := Show(kind) + " - " + Show(message) + (" {throwable: \"" + trace + "\"}");
    assert FormatLine(0, kind, message, ThrowableParameters(trace)) == Ok(Indent(0) + body);
    assert Indent(0) + body == body;
  }

  /**
   The warning overload as written throws for every non-null throwable, while
   the corrected one logs the same "throwable" pair the error overload logs, at
   warning level.
   */
  lemma {:induction false} CorrectedWarningLogsTrace(prefix: JString, kind: JString, message: JString, x: Throwable)
    ensures LogWarningStaticThrowableAsWritten(prefix, kind, message, NonNull(x)) == Err(IndexOutOfBounds)
    ensures LogWarningStaticThrowable(prefix, kind, message, NonNull(x)) ==
      Ok(Entry(Warn, ThrowableLine(kind, message, x.trace)))
    ensures LogWarningStaticThrowable(prefix, kind, message, NonNull(x)).value.line ==
      LogErrorStaticThrowable(prefix, kind, message, NonNull(x)).value.line
  {
    StaticThrowableLine(Warn, prefix, kind, message, x.trace);
    StaticThrowableLine(Error, prefix, kind, message, x.trace);
  }

  /** A string framed by a fixed head and tail can be read back from the frame. */
  lemma {:induction false} FrameInjective(head: string, a: string, b: string, tail: string)
    requires head + a + tail == head + b + tail
    ensures a == b
  {
    assert |a| == |b|;
    assert a == (head + a + tail)[|head|..|head| + |a|];
    assert b == (head + b + tail)[|head|..|head| + |b|];
  }

  lemma {:induction false} ThrowableLineFramed(kind: JString, message: JString, trace: string)
    ensures ThrowableLine(kind, message, trace) ==
      (Show(kind) + " - " + Show(message) + " {throwable: \"") + trace + "\"}"
  {
  }

  /**
   With the corrected rendering, an error line determines the throwable's
   trace: two throwables with different traces never log the same line.
   */
  lemma {:induction false} CorrectedLineKeepsTrace(prefix: JString, kind: JString, message: JString, x: Throwable, y: Throwable)
    requires LogErrorStaticThrowable(prefix, kind, message, NonNull(x)) == LogErrorStaticThrowable(prefix, kind, message, NonNull(y))
    ensures x.trace == y.trace
  {
    StaticThrowableLine(Error, prefix, kind, message, x.trace);
    StaticThrowableLine(Error, prefix, kind, message, y.trace);
    ThrowableLineFramed(kind, message, x.trace);
    ThrowableLineFramed(kind, message, y.trace);
    FrameInjective(Show(kind) + " - " + Show(message) + " {throwable: \"", x.trace, y.trace, "\"}");
  }

  /**
   With the rendering as written, the logged text depends only on the identity
   of the writer the trace was printed into: for one writer identity, any two
   throwables give the same line, and the text never carries the trace.
   */
  lemma {:induction false} AsWrittenLineForgetsTrace(prefix: JString, kind: JString, message: JString, x: Throwable, y: Throwable, writerIdentity: string)
    ensures Log(Error, 0, prefix, kind, message, ThrowableParameters(ThrowableToStringAsWritten(NonNull(x), writerIdentity).value)) ==
      Log(Error, 0, prefix, kind, message, ThrowableParameters(ThrowableToStringAsWritten(NonNull(y), writerIdentity).value))
    ensures Log(Error, 0, prefix, kind, message, ThrowableParameters(ThrowableToStringAsWritten(NonNull(x), writerIdentity).value)) ==
      Ok(Entry(Error, ThrowableLine(kind, message, "java.io.PrintWriter@" + writerIdentity)))
  {
    StaticThrowableLine(Error, prefix, kind, message, "java.io.PrintWriter@" + writerIdentity);
  }
}

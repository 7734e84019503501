/**
 Sequences of calls on one logger, and the properties that relate several
 calls: balanced start/end calls restore the logger, the depth tracks the
 stack height, an end line renders at the depth of its start line, depth-only
 scopes shift without logging, and a disabled debug gate freezes the logger.
 */
module LoggerRuns {
  import opened JavaTypes
  import opened LineFormat
  import opened IndentedLogger
  import Decimal

  /** One call on the logger's public surface. */
  datatype Call =
    | OpenScope
    | Open(kind: JString, message: JString, now: int)
    | OpenWith(kind: JString, message: JString, ps: JStringArray, now: int)
    | Close(now: int)
    | CloseWith(ps: JStringArray, now: int)
    | DebugLine(kind: JString, message: JString, ps: JStringArray)
    | WarningLine(kind: JString, message: JString, ps: JStringArray)
    | ErrorLine(kind: JString, message: JString, ps: JStringArray)
    | WarningThrowable(kind: JString, message: JString, t: Nullable<Throwable>)
    | ErrorThrowable(kind: JString, message: JString, t: Nullable<Throwable>)

  function Apply(l: Logger, c: Call): Step
  {
    match c
    case OpenScope => StartScope(l)
    case Open(kind, message, now) => Start(l, kind, message, now)
    case OpenWith(kind, message, ps, now) => StartWith(l, kind, message, ps, now)
    case Close(now) => End(l, now)
    case CloseWith(ps, now) => EndWith(l, ps, now)
    case DebugLine(kind, message, ps) => LogDebugWith(l, kind, message, ps)
    case WarningLine(kind, message, ps) => LogWarning(l, kind, message, ps)
    case ErrorLine(kind, message, ps) => LogError(l, kind, message, ps)
    case WarningThrowable(kind, message, t) => LogWarningThrowable(l, kind, message, t)
    case ErrorThrowable(kind, message, t) => LogErrorThrowable(l, kind, message, t)
  }

  /**
   The calls one after another; the first exception ends the run, as it would
   propagate out of the caller. The lines of every call made are kept.
   */
  function Run(l: Logger, calls: seq<Call>): (r: Step)
    ensures r.logger.debugEnabled == l.debugEnabled && r.logger.prefix == l.prefix
    ensures r.completion.Normal? ==> Offset(r.logger) == Offset(l)
    decreases |calls|
  {
    if |calls| == 0 then Step(l, [], Normal)
    else
      var first := Apply(l, calls[0]);
      if first.completion.Threw? then first
      else
        var rest := Run(first.logger, calls[1..]);
        Step(rest.logger, first.emitted + rest.emitted, rest.completion)
  }

  predicate IsOperationCall(c: Call)
  {
    c.OpenScope? || c.Open? || c.OpenWith? || c.Close? || c.CloseWith?
  }

  /** How a call moves the nesting: +1 for a start, -1 for an end, 0 for a direct log. */
  function Delta(c: Call): int
  {
    if c.OpenScope? || c.Open? || c.OpenWith? then 1
    else if c.Close? || c.CloseWith? then -1
    else 0
  }

  function Net(calls: seq<Call>): int
    decreases |calls|
  {
    if |calls| == 0 then 0 else Delta(calls[0]) + Net(calls[1..])
  }

  /** Starting h levels above some floor, no prefix of the calls goes below it. */
  predicate Fits(h: int, calls: seq<Call>)
    decreases |calls|
  {
    |calls| == 0 || (h + Delta(calls[0]) >= 0 && Fits(h + Delta(calls[0]), calls[1..]))
  }

  /** Every end closes a start of the same sequence, and every start is closed. */
  predicate Balanced(calls: seq<Call>)
  {
    Fits(0, calls) && Net(calls) == 0
  }

  /** A call whose arguments cannot make it throw (given a non-empty stack for an end). */
  predicate Safe(c: Call)
  {
    match c
    case OpenWith(_, _, ps, _) => WellFormed(ps)
    case CloseWith(ps, _) => ps.NonNull? && WellFormed(ps)
    case DebugLine(_, _, ps) => WellFormed(ps)
    case WarningLine(_, _, ps) => WellFormed(ps)
    case ErrorLine(_, _, ps) => WellFormed(ps)
    case WarningThrowable(_, _, t) => t.NonNull?
    case ErrorThrowable(_, _, t) => t.NonNull?
    case _ => true
  }

  predicate AllSafe(calls: seq<Call>)
  {
    forall i :: 0 <= i < |calls| ==> Safe(calls[i])
  }

  /** One enabled call that does not throw moves the stack exactly as `Delta` says. */
  lemma {:induction false} ApplyMovesByDelta(l: Logger, c: Call)
    requires l.debugEnabled && Safe(c)
    requires Delta(c) < 0 ==> |l.stack| > 0
    ensures var s := Apply(l, c);
      && s.completion == Normal
      && s.logger.debugEnabled && s.logger.prefix == l.prefix
      && s.logger.indentation == l.indentation + Delta(c)
      && |s.logger.stack| == |l.stack| + Delta(c)
      && (Delta(c) >= 0 ==> s.logger.stack[..|l.stack|] == l.stack)
      && (Delta(c) < 0 ==> s.logger.stack == l.stack[..|l.stack| - 1])
  {
    var s := Apply(l, c);
    if c.OpenWith? {
      assert WellFormed(c.ps);
    }
    if Delta(c) > 0 {
      assert s.logger.stack[..|l.stack|] == l.stack;
    } else if Delta(c) == 0 {
      assert s.logger.stack[..|l.stack|] == l.stack;
    }
  }

  lemma {:induction false} AllSafeTail(calls: seq<Call>)
    requires |calls| > 0 && AllSafe(calls)
    ensures AllSafe(calls[1..])
  {
    forall i | 0 <= i < |calls[1..]|
      ensures Safe(calls[1..][i])
    {
      assert calls[1..][i] == calls[i + 1];
    }
  }

  /**
   The general form of the balanced-run property: a run of safe calls that
   never closes more than h of the open scopes completes, moves depth and
   stack height by its net count, and leaves all but the top h entries alone.
   */
  lemma {:induction false} RunFits(l: Logger, calls: seq<Call>, h: int)
    requires l.debugEnabled
    requires 0 <= h <= |l.stack|
    requires Fits(h, calls) && AllSafe(calls)
    ensures var r := Run(l, calls);
      && r.completion == Normal
      && r.logger.indentation == l.indentation + Net(calls)
      && |r.logger.stack| == |l.stack| + Net(calls)
      && h + Net(calls) >= 0
      && forall k :: 0 <= k < |l.stack| - h ==> r.logger.stack[k] == l.stack[k]
    decreases |calls|
  {
    if |calls| > 0 {
      var c := calls[0];
      assert Safe(c);
      ApplyMovesByDelta(l, c);
      var s := Apply(l, c);
      var h' := h + Delta(c);
      AllSafeTail(calls);
      RunFits(s.logger, calls[1..], h');
      var keep := |l.stack| - h;
      assert |s.logger.stack| - h' == keep;
      forall k | 0 <= k < keep
        ensures s.logger.stack[k] == l.stack[k]
      {
        if Delta(c) >= 0 {
          assert s.logger.stack[..|l.stack|][k] == l.stack[k];
        } else {
          assert l.stack[..|l.stack| - 1][k] == l.stack[k];
        }
      }
    }
  }

  /** A balanced sequence of safe calls leaves the logger exactly as it found it. */
  lemma {:induction false} BalancedRunRestores(l: Logger, calls: seq<Call>)
    requires l.debugEnabled
    requires Balanced(calls) && AllSafe(calls)
    ensures Run(l, calls).completion == Normal
    ensures Run(l, calls).logger == l
  {
    RunFits(l, calls, 0);
    var r := Run(l, calls).logger;
    assert r.stack == l.stack;
  }

  /**
   From an empty stack, as long as nothing has thrown, the depth gained since
   the start is the number of open scopes.
   */
  lemma {:induction false} DepthTracksStackHeight(l: Logger, calls: seq<Call>)
    requires l.stack == []
    ensures Run(l, calls).completion.Normal? ==>
      Run(l, calls).logger.indentation - l.indentation == |Run(l, calls).logger.stack|
  {
  }

  /** With the debug gate off, start and end calls change nothing and log nothing, whatever their arguments. */
  lemma {:induction false} GateOffOperationsDoNothing(l: Logger, calls: seq<Call>)
    requires !l.debugEnabled
    requires forall i :: 0 <= i < |calls| ==> IsOperationCall(calls[i])
    ensures Run(l, calls) == Step(l, [], Normal)
    decreases |calls|
  {
    if |calls| > 0 {
      assert IsOperationCall(calls[0]);
      GateOffOperationsDoNothing(l, calls[1..]);
    }
  }

  /** With the debug gate off, no call of any kind changes the logger. */
  lemma {:induction false} GateOffFreezesLogger(l: Logger, calls: seq<Call>)
    requires !l.debugEnabled
    ensures Run(l, calls).logger == l
    decreases |calls|
  {
    if |calls| > 0 {
      assert Apply(l, calls[0]).logger == l;
      GateOffFreezesLogger(l, calls[1..]);
    }
  }

  /*
   No `Call` changes the debug switch, so every run above keeps it fixed. The
   Java logger reads the switch again on each start and end; the next two
   lemmas show what a level change between a start and its end does.
   */

  /**
   Debug logging turned off between a start and its end: the end does nothing,
   so the operation stays on the stack and the depth stays one level deeper.
   */
  lemma {:induction false} LevelOffBeforeEndLeavesEntry(l: Logger, kind: JString, message: JString, now: int, later: int)
    requires l.debugEnabled
    ensures var started := Start(l, kind, message, now);
      var closed := End(started.logger.(debugEnabled := false), later);
      && closed.completion == Normal
      && closed.emitted == []
      && closed.logger.indentation == l.indentation + 1
      && |closed.logger.stack| == |l.stack| + 1
      && closed.logger.stack[..|l.stack|] == l.stack
      && Top(closed.logger) == NonNull(Operation(kind, message, now))
  {
    var started := Start(l, kind, message, now);
    assert started.logger.stack == l.stack + [NonNull(Operation(kind, message, now))];
    assert started.logger.stack[..|l.stack|] == l.stack;
  }

  /**
   Debug logging turned on between a start and its end: the start pushed
   nothing, so the end pops the enclosing entry, or throws EmptyStack when
   there is none, and the depth ends one level above where it began.
   */
  lemma {:induction false} LevelOnBeforeEndPopsOuter(l: Logger, kind: JString, message: JString, now: int, later: int)
    requires !l.debugEnabled
    ensures var started := Start(l, kind, message, now);
      var closed := End(started.logger.(debugEnabled := true), later);
      && started.logger == l
      && closed.logger.indentation == l.indentation - 1
      && (|l.stack| == 0 ==> closed.completion == Threw(EmptyStack))
      && (|l.stack| > 0 ==> closed.completion == Normal && closed.logger.stack == l.stack[..|l.stack| - 1])
  {
  }

  /** The line an operation's end renders, with the elapsed time as its first parameter. */
  function EndLine(depth: int, kind: JString, message: JString, elapsed: int, ps: seq<JString>): string
    requires |ps| % 2 == 0
  {
    var all := [NonNull("time (ms)"), NonNull(Decimal.LongToString(elapsed))] + ps;
    assert |all| == 2 + |ps|;
    FormatLine(depth, kind, NonNull("end " + Show(message)), NonNull(all)).value
  }

  /**
   A named operation's end line renders at the depth of its start line, reports
   the time between the two calls, and leaves the logger as it was before the start.
   */
  lemma {:induction false} EndAtStartDepth(l: Logger, kind: JString, message: JString, now: int, inner: seq<Call>, later: int)
    requires l.debugEnabled
    requires Balanced(inner) && AllSafe(inner)
    ensures var started := Start(l, kind, message, now);
      var body := Run(started.logger, inner);
      var closed := End(body.logger, later);
      && started.emitted == [Entry(Debug, FormatLine(l.indentation, kind, NonNull("start " + Show(message)), Null).value)]
      && body.completion == Normal
      && closed.completion == Normal
      && closed.emitted == [Entry(Debug, EndLine(l.indentation, kind, message, later - now, []))]
      && closed.logger == l
  {
    var started := Start(l, kind, message, now);
    BalancedRunRestores(started.logger, inner);
    var op := Operation(kind, message, now);
    assert TimeParameters(op, later) + [] == TimeParameters(op, later);
    assert started.logger.stack[..|started.logger.stack| - 1] == l.stack;
  }

  /** The same for the parameterised overloads: the caller's end parameters follow the timing pair. */
  lemma {:induction false} EndWithAtStartDepth(l: Logger, kind: JString, message: JString, startPs: JStringArray, now: int,
                            inner: seq<Call>, endPs: seq<JString>, later: int)
    requires l.debugEnabled
    requires WellFormed(startPs) && |endPs| % 2 == 0
    requires Balanced(inner) && AllSafe(inner)
    ensures var started := StartWith(l, kind, message, startPs, now);
      var body := Run(started.logger, inner);
      var closed := EndWith(body.logger, NonNull(endPs), later);
      && started.emitted == [Entry(Debug, FormatLine(l.indentation, kind, NonNull("start " + Show(message)), startPs).value)]
      && body.completion == Normal
      && closed.completion == Normal
      && closed.emitted == [Entry(Debug, EndLine(l.indentation, kind, message, later - now, endPs))]
      && closed.logger == l
  {
    var started := StartWith(l, kind, message, startPs, now);
    BalancedRunRestores(started.logger, inner);
    var op := Operation(kind, message, now);
    assert started.logger == l.(stack := l.stack + [NonNull(op)], indentation := l.indentation + 1);
    assert Top(started.logger) == NonNull(op);
    assert started.logger.stack[..|started.logger.stack| - 1] == l.stack;
  }

  /**
   The block of an end line: "time (ms)" with the elapsed milliseconds first,
   then the caller's kept pairs in their original order.
   */
  lemma {:induction false} EndBlockTimeFirst(elapsed: int, ps: seq<JString>)
    requires |ps| % 2 == 0
    ensures ParamBlock(NonNull([NonNull("time (ms)"), NonNull(Decimal.LongToString(elapsed))] + ps)) ==
      Ok(" {time (ms): \"" + Decimal.LongToString(elapsed) + "\""
         + (if RenderedPairs(ps) == [] then "" else ", " + Join(", ", RenderedPairs(ps)))
         + "}")
  {
    var e := Decimal.LongToString(elapsed);
    LeadingPairFirst("time (ms)", e, ps);
    assert " {" + PairText("time (ms)", e) == " {time (ms): \"" + e + "\"";
  }

  /**
   A depth-only scope logs nothing when it opens or closes, yet every line
   logged while it is open is one level deeper.
   */
  lemma {:induction false} ScopeShiftsWithoutLogging(l: Logger, kind: JString, message: JString, ps: JStringArray, later: int)
    requires l.debugEnabled && WellFormed(ps)
    ensures var started := StartScope(l);
      var inside := LogDebugWith(started.logger, kind, message, ps);
      var closed := End(inside.logger, later);
      && started.emitted == [] && closed.emitted == []
      && inside.emitted == [Entry(Debug, FormatLine(l.indentation + 1, kind, message, ps).value)]
      && closed == Step(l, [], Normal)
  {
    var started := StartScope(l);
    assert started.logger.stack[..|started.logger.stack| - 1] == l.stack;
  }

  /**
   A derived logger starts at its parent's depth, so its lines line up with the
   parent's; its own starts and ends move only its own depth.
   */
  lemma {:induction false} DerivedLogsAtParentDepth(parent: Logger, kind: JString, message: JString, ps: JStringArray, calls: seq<Call>)
    ensures LogDebugWith(Derive(parent), kind, message, ps).emitted == LogDebugWith(parent, kind, message, ps).emitted
    ensures parent.debugEnabled && Balanced(calls) && AllSafe(calls) ==>
      Run(Derive(parent), calls).logger.indentation == parent.indentation
  {
    if parent.debugEnabled && Balanced(calls) && AllSafe(calls) {
      BalancedRunRestores(Derive(parent), calls);
    }
  }

  /**
   The static variants render exactly as the instance methods of a logger at
   depth 0, the warning-with-throwable one once corrected: as written it
   throws wherever the instance method logs.
   */
  lemma {:induction false} StaticIsDepthZero(l: Logger, prefix: JString, kind: JString, message: JString, ps: JStringArray, t: Nullable<Throwable>)
    requires l.indentation == 0
    ensures AsStep(l, LogDebugStatic(prefix, kind, message, ps)) == LogDebugWith(l, kind, message, ps)
    ensures AsStep(l, LogWarningStatic(prefix, kind, message, ps)) == LogWarning(l, kind, message, ps)
    ensures AsStep(l, LogErrorStatic(prefix, kind, message, ps)) == LogError(l, kind, message, ps)
    ensures AsStep(l, LogErrorStaticThrowable(prefix, kind, message, t)) == LogErrorThrowable(l, kind, message, t)
    ensures AsStep(l, LogWarningStaticThrowable(prefix, kind, message, t)) == LogWarningThrowable(l, kind, message, t)
    ensures t.NonNull? ==>
      && AsStep(l, LogWarningStaticThrowableAsWritten(prefix, kind, message, t)) == Step(l, [], Threw(IndexOutOfBounds))
      && LogWarningThrowable(l, kind, message, t).completion == Normal
  {
  }

  // The end-to-end scenario: a request operation with a nested database query.
  // Each fact about concrete string literals sits in a lemma of its own: proved
  // together, the literal equalities exceed the solver's resource budget.

  function ScenarioRequest(): Operation { Operation(NonNull("REQ"), NonNull("handle request"), 100) }
  function ScenarioQuery(): Operation { Operation(NonNull("DB"), NonNull("query"), 105) }
  function ScenarioLogger(depth: int, stack: seq<Nullable<Operation>>): Logger { Logger(true, depth, stack, Null) }

  lemma {:induction false} StartRequestText()
    ensures Indent(0) + ("REQ" + " - " + "start handle request" + "") == "REQ - start handle request"
  {
  }

  lemma {:induction false} StartQueryText()
    ensures Indent(1) + ("DB" + " - " + "start query" + "") == "  DB - start query"
  {
  }

  lemma {:induction false} ScenarioLineStartRequest()
    ensures FormatLine(0, NonNull("REQ"), NonNull("start " + Show(NonNull("handle request"))), Null) ==
      Ok("REQ - start handle request")
  {
    assert Indent(0) == "";
    assert "start " + "handle request" == "start handle request";
    ConcreteLine(0, "REQ", "start handle request", Null, "");
    StartRequestText();
  }

  lemma {:induction false} ScenarioLineStartQuery()
    ensures FormatLine(1, NonNull("DB"), NonNull("start " + Show(NonNull("query"))), Null) ==
      Ok("  DB - start query")
  {
    assert Indent(1) == "  ";
    assert "start " + "query" == "start query";
    ConcreteLine(1, "DB", "start query", Null, "");
    StartQueryText();
  }

  /** The query ran from 105 to 112: its end block reports 7 ms. */
  lemma {:induction false} QueryEndBlock()
    ensures ParamBlock(NonNull(TimeParameters(ScenarioQuery(), 112))) == Ok(" {time (ms): \"7\"}")
  {
    assert Decimal.LongToString(112 - 105) == "7";
    TimeOnlyBlock(ScenarioQuery(), 112, "7");
    assert " {time (ms): \"" + "7" + "\"}" == " {time (ms): \"7\"}";
  }

  lemma {:induction false} TwentyText()
    ensures Decimal.LongToString(20) == "20"
  {
  }

  /** The request ran from 100 to 120: its end block reports 20 ms. */
  lemma {:induction false} RequestEndBlock()
    ensures ParamBlock(NonNull(TimeParameters(ScenarioRequest(), 120))) == Ok(" {time (ms): \"20\"}")
  {
    TwentyText();
    TimeOnlyBlock(ScenarioRequest(), 120, "20");
    assert " {time (ms): \"" + "20" + "\"}" == " {time (ms): \"20\"}";
  }

  lemma {:induction false} EndRequestText()
    ensures Indent(0) + ("REQ" + " - " + "end handle request" + " {time (ms): \"20\"}") == "REQ - end handle request {time (ms): \"20\"}"
  {
  }

  lemma {:induction false} EndQueryText()
    ensures Indent(1) + ("DB" + " - " + "end query" + " {time (ms): \"7\"}") == "  DB - end query {time (ms): \"7\"}"
  {
  }

  lemma {:induction false} ScenarioLineEndQuery()
    ensures FormatLine(1, NonNull("DB"), NonNull("end " + Show(NonNull("query"))),
                      NonNull(TimeParameters(ScenarioQuery(), 112))) ==
      Ok("  DB - end query {time (ms): \"7\"}")
  {
    assert Indent(1) == "  ";
    assert "end " + Show(ScenarioQuery().message) == "end query";
    QueryEndBlock();
    ConcreteLine(1, "DB", "end query", NonNull(TimeParameters(ScenarioQuery(), 112)), " {time (ms): \"7\"}");
    EndQueryText();
  }

  lemma {:induction false} ScenarioLineEndRequest()
    ensures FormatLine(0, NonNull("REQ"), NonNull("end " + Show(NonNull("handle request"))),
                      NonNull(TimeParameters(ScenarioRequest(), 120))) ==
      Ok("REQ - end handle request {time (ms): \"20\"}")
  {
    assert Indent(0) == "";
    assert "end " + Show(ScenarioRequest().message) == "end handle request";
    RequestEndBlock();
    ConcreteLine(0, "REQ", "end handle request", NonNull(TimeParameters(ScenarioRequest(), 120)), " {time (ms): \"20\"}");
    EndRequestText();
  }

  lemma {:induction false} ScenarioOpenRequest()
    ensures Start(ScenarioLogger(0, []), NonNull("REQ"), NonNull("handle request"), 100) ==
      Step(ScenarioLogger(1, [NonNull(ScenarioRequest())]), [Entry(Debug, "REQ - start handle request")], Normal)
  {
    ScenarioLineStartRequest();
    assert [] + [NonNull(ScenarioRequest())] == [NonNull(ScenarioRequest())];
  }

  lemma {:induction false} ScenarioOpenQuery()
    ensures Start(ScenarioLogger(1, [NonNull(ScenarioRequest())]), NonNull("DB"), NonNull("query"), 105) ==
      Step(ScenarioLogger(2, [NonNull(ScenarioRequest()), NonNull(ScenarioQuery())]), [Entry(Debug, "  DB - start query")], Normal)
  {
    ScenarioLineStartQuery();
    assert [NonNull(ScenarioRequest())] + [NonNull(ScenarioQuery())] == [NonNull(ScenarioRequest()), NonNull(ScenarioQuery())];
  }

  lemma {:induction false} ScenarioCloseQuery()
    ensures End(ScenarioLogger(2, [NonNull(ScenarioRequest()), NonNull(ScenarioQuery())]), 112) ==
      Step(ScenarioLogger(1, [NonNull(ScenarioRequest())]), [Entry(Debug, "  DB - end query {time (ms): \"7\"}")], Normal)
  {
    ScenarioLineEndQuery();
    assert [NonNull(ScenarioRequest()), NonNull(ScenarioQuery())][..1] == [NonNull(ScenarioRequest())];
  }

  lemma {:induction false} ScenarioCloseRequest()
    ensures End(ScenarioLogger(1, [NonNull(ScenarioRequest())]), 120) ==
      Step(ScenarioLogger(0, []), [Entry(Debug, "REQ - end handle request {time (ms): \"20\"}")], Normal)
  {
    ScenarioLineEndRequest();
    assert [NonNull(ScenarioRequest())][..0] == [];
  }

  function StartRequestEntry(): Entry { Entry(Debug, "REQ - start handle request") }
  function StartQueryEntry(): Entry { Entry(Debug, "  DB - start query") }
  function EndQueryEntry(): Entry { Entry(Debug, "  DB - end query {time (ms): \"7\"}") }
  function EndRequestEntry(): Entry { Entry(Debug, "REQ - end handle request {time (ms): \"20\"}") }

  /** The last call of the scenario: closing the request. */
  lemma {:induction false} ScenarioFromRequestClose()
    ensures Run(ScenarioLogger(1, [NonNull(ScenarioRequest())]), [Close(120)]) ==
      Step(ScenarioLogger(0, []), [EndRequestEntry()], Normal)
  {
    ScenarioCloseRequest();
    RunCons(ScenarioLogger(1, [NonNull(ScenarioRequest())]), Close(120), [],
            Step(ScenarioLogger(0, []), [EndRequestEntry()], Normal), Step(ScenarioLogger(0, []), [], Normal));
    assert [Close(120)] + [] == [Close(120)];
  }

  /** The last two calls: closing the query, then the request. */
  lemma {:induction false} ScenarioFromQueryClose()
    ensures Run(ScenarioLogger(2, [NonNull(ScenarioRequest()), NonNull(ScenarioQuery())]), [Close(112), Close(120)]) ==
      Step(ScenarioLogger(0, []), [EndQueryEntry(), EndRequestEntry()], Normal)
  {
    ScenarioFromRequestClose();
    ScenarioCloseQuery();
    RunCons(ScenarioLogger(2, [NonNull(ScenarioRequest()), NonNull(ScenarioQuery())]), Close(112), [Close(120)],
            Step(ScenarioLogger(1, [NonNull(ScenarioRequest())]), [EndQueryEntry()], Normal),
            Step(ScenarioLogger(0, []), [EndRequestEntry()], Normal));
    assert [Close(112)] + [Close(120)] == [Close(112), Close(120)];
  }

  /** The last three calls: opening the query, then closing both. */
  lemma {:induction false} ScenarioFromQueryOpen()
    ensures Run(ScenarioLogger(1, [NonNull(ScenarioRequest())]),
                [Open(NonNull("DB"), NonNull("query"), 105), Close(112), Close(120)]) ==
      Step(ScenarioLogger(0, []), [StartQueryEntry(), EndQueryEntry(), EndRequestEntry()], Normal)
  {
    ScenarioFromQueryClose();
    ScenarioOpenQuery();
    var c := Open(NonNull("DB"), NonNull("query"), 105);
    RunCons(ScenarioLogger(1, [NonNull(ScenarioRequest())]), c, [Close(112), Close(120)],
            Step(ScenarioLogger(2, [NonNull(ScenarioRequest()), NonNull(ScenarioQuery())]), [StartQueryEntry()], Normal),
            Step(ScenarioLogger(0, []), [EndQueryEntry(), EndRequestEntry()], Normal));
    assert [c] + [Close(112), Close(120)] == [c, Close(112), Close(120)];
  }

  /**
   A request operation with a nested database query, each line as the sink
   receives it, the query's end line at the query's depth with 7 ms elapsed.
   */
  lemma {:induction false} RequestWithQuery()
    ensures Run(NewLogger(true, Null),
                [Open(NonNull("REQ"), NonNull("handle request"), 100),
                 Open(NonNull("DB"), NonNull("query"), 105),
                 Close(112),
                 Close(120)]) ==
      Step(NewLogger(true, Null),
           [Entry(Debug, "REQ - start handle request"),
            Entry(Debug, "  DB - start query"),
            Entry(Debug, "  DB - end query {time (ms): \"7\"}"),
            Entry(Debug, "REQ - end handle request {time (ms): \"20\"}")],
           Normal)
  {
    ScenarioFromQueryOpen();
    ScenarioOpenRequest();
    var c := Open(NonNull("REQ"), NonNull("handle request"), 100);
    var rest := [Open(NonNull("DB"), NonNull("query"), 105), Close(112), Close(120)];
    assert NewLogger(true, Null) == ScenarioLogger(0, []);
    RunCons(ScenarioLogger(0, []), c, rest,
            Step(ScenarioLogger(1, [NonNull(ScenarioRequest())]), [StartRequestEntry()], Normal),
            Step(ScenarioLogger(0, []), [StartQueryEntry(), EndQueryEntry(), EndRequestEntry()], Normal));
    assert [c] + rest == [c, Open(NonNull("DB"), NonNull("query"), 105), Close(112), Close(120)];
  }

  /** One call followed by the rest of a run. */
  lemma {:induction false} RunCons(l: Logger, c: Call, rest: seq<Call>, first: Step, after: Step)
    requires Apply(l, c) == first && first.completion == Normal
    requires Run(first.logger, rest) == after
    ensures Run(l, [c] + rest) == Step(after.logger, first.emitted + after.emitted, after.completion)
  {
    assert ([c] + rest)[0] == c;
    assert ([c] + rest)[1..] == rest;
  }

  /** A rendered line, given its parameter block. */
  lemma {:induction false} ConcreteLine(level: int, kind: string, message: string, ps: JStringArray, block: string)
    requires ParamBlock(ps) == Ok(block)
    ensures FormatLine(level, NonNull(kind), NonNull(message), ps) == Ok(Indent(level) + (kind + " - " + message + block))
  {
  }

  /** The block of an end line with nothing but the elapsed time, given its digits. */
  lemma {:induction false} TimeOnlyBlock(op: Operation, now: int, digits: string)
    requires Decimal.LongToString(now - op.startTime) == digits
    ensures ParamBlock(NonNull(TimeParameters(op, now))) == Ok(" {time (ms): \"" + digits + "\"}")
  {
    EndBlockTimeFirst(now - op.startTime, []);
    assert TimeParameters(op, now) + [] == TimeParameters(op, now);
    assert RenderedPairs([]) == [];
    assert " {time (ms): \"" + digits + "\"" + "" + "}" == " {time (ms): \"" + digits + "\"}";
  }
}

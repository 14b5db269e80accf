/** One call through the `tracer` wrapper that `trace_function_call` returns:
    outcome capture, the `stats` record, the stack walk, the argument and
    severity gating and the assembled log line.  The target's own behaviour,
    the clock, `inspect.stack()`, `json.dumps` and `repr` are inputs. */
module Tracer {
  import opened Wrappers
  import opened Strings
  import opened Config
  import opened Classify

  /** An arbitrary Python object, known only by its identity. */
  datatype PyObject = PyObject(id: nat)

  /** What the traced function raised. */
  datatype Raised =
    | TestSkipped(message: string)
      /** any other subclass of Exception */
    | Exception(typeName: string, message: string)
      /** KeyboardInterrupt, SystemExit and the like, which `except Exception` does not catch */
    | BaseException(typeName: string, message: string)

  /** How a call ends: it returns an object or raises. */
  datatype Outcome = Returned(value: PyObject) | Raises(error: Raised)

  /** The `stats` dict, its keys in the source's order. */
  datatype Stats = Stats(
    functionName: string,
    calledBy: string,
    start: int,
    duration: int,
    traceback: bool,
    skipped: bool,
    msg: string,
    test: string,
    source: string,
    sourceClass: string,
    desc: string)

  datatype Severity = Debug | Info | Warning | Error

  /** One call on the "tracer" logger. */
  datatype LogRecord = LogRecord(severity: Severity, message: string)

  /** The text `args` and `kwargs` render to, or the message of the exception
      raised while rendering them. */
  datatype ArgsRepr = Rendered(args: string, kwargs: string) | RenderFailed(message: string)

  // ---------------------------------------------------------------------------
  // Time

  /** `time.time()` is modelled in whole microseconds. */
  const MicrosPerSecond: int := 1000000

  /** Python's `int()` of a quotient: division truncating toward zero. */
  function TruncDiv(a: int, b: int): (q: int)
    requires b > 0
    ensures a >= 0 ==> q >= 0 && q * b <= a < q * b + b
    ensures a < 0 ==> q <= 0 && q * b - b < a <= q * b
  {
    if a >= 0 then a / b else -((-a) / b)
  }

  /** `int(start_time)`. */
  function StartSeconds(startMicros: nat): nat {
    startMicros / MicrosPerSecond
  }

  /** `int(finish_time - stats['start'])`: elapsed time from the whole start second,
      truncated toward zero. */
  function Duration(startMicros: nat, finishMicros: nat): int {
    TruncDiv(finishMicros - StartSeconds(startMicros) * MicrosPerSecond, MicrosPerSecond)
  }

  /** A helper about Dafny's Euclidean `/`: for a positive divisor, a quotient whose
      remainder lies in [0, m) is the only one. */
  lemma DivUnique(a: int, m: int, d: int, r: int)
    requires m > 0 && 0 <= r < m && a == d * m + r
    ensures a / m == d
  {
    var d0, r0 := a / m, a % m;
    assert (d0 - d) * m == r - r0;
    if d0 - d >= 1 {
      assert false;
    } else if d0 - d <= -1 {
      assert false;
    }
  }

  lemma DivAfterMultiple(a: int, q: int, m: int)
    requires m > 0
    ensures (a - q * m) / m == a / m - q
  {
    var d, r := a / m, a % m;
    assert a - q * m == (d - q) * m + r;
    DivUnique(a - q * m, m, d - q, r);
  }

  /** On a clock that did not go back, the duration is the difference of the whole
      seconds of finish and start, and so never negative. */
  lemma DurationIsWholeSeconds(startMicros: nat, finishMicros: nat)
    requires startMicros <= finishMicros
    ensures Duration(startMicros, finishMicros) == finishMicros / MicrosPerSecond - startMicros / MicrosPerSecond
    ensures Duration(startMicros, finishMicros) >= 0
  {
    var q := StartSeconds(startMicros);
    assert q * MicrosPerSecond <= startMicros;
    DivAfterMultiple(finishMicros, q, MicrosPerSecond);
  }

  /** The duration is negative exactly when the finish time lies a full second or more
      before the whole start second (a clock that went back). */
  lemma DurationNegativeIff(startMicros: nat, finishMicros: nat)
    ensures Duration(startMicros, finishMicros) < 0 <==>
            finishMicros + MicrosPerSecond <= StartSeconds(startMicros) * MicrosPerSecond
  {
  }

  // ---------------------------------------------------------------------------
  // Outcome capture

  /** What the two `except` clauses record into `stats`. */
  datatype Capture = Capture(skipped: bool, traceback: bool, msg: string)

  function CaptureOf(outcome: Outcome): (c: Capture)
    ensures !(c.skipped && c.traceback)
    ensures c.skipped <==> outcome.Raises? && outcome.error.TestSkipped?
    ensures c.traceback <==> outcome.Raises? && outcome.error.Exception?
    ensures outcome.Returned? ==> c.msg == ""
  {
    match outcome
    case Raises(TestSkipped(m)) => Capture(true, false, m)
    case Raises(Exception(_, m)) => Capture(false, true, m)
    case _ => Capture(false, false, "")
  }

  /** The info line logged for a skip, before the skip is re-raised. */
  function SkipNotice(functionName: string, outcome: Outcome): (r: seq<LogRecord>)
    ensures |r| <= 1
    ensures r != [] <==> outcome.Raises? && outcome.error.TestSkipped?
  {
    if outcome.Raises? && outcome.error.TestSkipped? then
      [LogRecord(Info, "Skipped " + functionName + " " + outcome.error.message)]
    else []
  }

  // ---------------------------------------------------------------------------
  // Gating and the log line

  /** Whether the ` args=… kwargs=…` suffix is wanted. */
  predicate ArgsDumped(trigger: Trigger, tag: Tag, traceback: bool, skipped: bool) {
    trigger == Always || tag == Test || (trigger == OnFailure && traceback && !skipped)
  }

  /** Error for a failing test, debug for everything else. */
  function LineSeverity(tag: Tag, traceback: bool): (s: Severity)
    ensures s == Error || s == Debug
    ensures s == Error <==> tag == Test && traceback
  {
    if tag == Test && traceback then Error else Debug
  }

  function ArgsSuffix(args: string, kwargs: string): string {
    " args=" + args + " kwargs=" + kwargs
  }

  function StackSuffix(callStack: bool, renderedCalls: string): string {
    if callStack then " stack=" + renderedCalls else ""
  }

  /** `TRACER <tag>{stats json}</tag>` followed by the stack and argument suffixes. */
  function LogLine(tag: Tag, statsJson: string, stackSuffix: string, argsSuffix: string): string {
    "TRACER <" + TagName(tag) + ">" + statsJson + "</" + TagName(tag) + ">" + stackSuffix + argsSuffix
  }

  function FailedTraceMessage(message: string): string {
    "TRACER Failed to save call trace - " + message
  }

  /** The one record the `finally` block logs: the trace line, or the warning that
      replaces it when rendering the arguments raised. */
  function FinishRecord(cfg: TraceConfig, stats: Stats, tag: Tag, calls: seq<string>,
                        json: Stats -> string, listRepr: seq<string> -> string, argsRepr: ArgsRepr): LogRecord
  {
    var dumped := ArgsDumped(cfg.trigger, tag, stats.traceback, stats.skipped);
    match argsRepr
    case RenderFailed(e) =>
      if dumped then LogRecord(Warning, FailedTraceMessage(e))
      else LogRecord(LineSeverity(tag, stats.traceback), LogLine(tag, json(stats), StackSuffix(cfg.callStack, listRepr(calls)), ""))
    case Rendered(a, k) =>
      LogRecord(LineSeverity(tag, stats.traceback),
                LogLine(tag, json(stats), StackSuffix(cfg.callStack, listRepr(calls)), if dumped then ArgsSuffix(a, k) else ""))
  }

  // ---------------------------------------------------------------------------
  // Reading the tag back from a line

  /** The text before the first `c`. */
  function TakeUntil(s: string, c: char): string {
    if s == [] || s[0] == c then [] else [s[0]] + TakeUntil(s[1..], c)
  }

  /** `TakeUntil` stops exactly at the first `c`. */
  lemma {:induction false} TakeUntilAt(s: string, c: char, n: nat)
    requires n < |s| && s[n] == c && c !in s[..n]
    ensures TakeUntil(s, c) == s[..n]
  {
    if n > 0 {
      assert s[1..][..n - 1] == s[..n][1..];
      TakeUntilAt(s[1..], c, n - 1);
      assert s[..n] == [s[0]] + s[1..][..n - 1];
    }
  }

  /** A sequence helper for the line lemmas below. */
  lemma PrefixOfConcat(x: string, y: string, n: nat)
    requires n <= |x|
    ensures (x + y)[..n] == x[..n]
  {
  }

  /** The tag named between "TRACER <" and the first ">" of a line. */
  function ParseLineTag(line: string): Option<Tag> {
    if StartsWith(line, "TRACER <") then ParseTagName(TakeUntil(line[8..], '>')) else None
  }

  function LineHead(tag: Tag): string {
    "TRACER <" + TagName(tag) + ">"
  }

  /** Every line begins with its head, whatever follows. */
  lemma LineStartsWithHead(tag: Tag, statsJson: string, stackSuffix: string, argsSuffix: string)
    ensures var n := |LineHead(tag)|;
            n <= |LogLine(tag, statsJson, stackSuffix, argsSuffix)| &&
            LogLine(tag, statsJson, stackSuffix, argsSuffix)[..n] == LineHead(tag)
  {
    var head := LineHead(tag);
    var n := |head|;
    var x1 := head + statsJson;
    var x2 := x1 + "</";
    var x3 := x2 + TagName(tag);
    var x4 := x3 + ">";
    var x5 := x4 + stackSuffix;
    PrefixOfConcat(head, statsJson, n);
    PrefixOfConcat(x1, "</", n);
    PrefixOfConcat(x2, TagName(tag), n);
    PrefixOfConcat(x3, ">", n);
    PrefixOfConcat(x4, stackSuffix, n);
    PrefixOfConcat(x5, argsSuffix, n);
  }

  lemma NoAngleInTagName(tag: Tag)
    ensures '>' !in TagName(tag)
  {
  }

  /** The head is "TRACER <", the tag name, and ">". */
  lemma HeadShape(tag: Tag)
    ensures var head := LineHead(tag);
            var n := |TagName(tag)|;
            |head| == n + 9 && head[..8] == "TRACER <" && head[8..8 + n] == TagName(tag) && head[8 + n] == '>'
  {
  }

  /** What a line with a given head looks like after its first eight characters. */
  lemma RestOfLine(line: string, tag: Tag)
    requires |LineHead(tag)| <= |line| && line[..|LineHead(tag)|] == LineHead(tag)
    ensures var n := |TagName(tag)|;
            StartsWith(line, "TRACER <") && n < |line[8..]| &&
            line[8..][..n] == TagName(tag) && line[8..][n] == '>'
  {
    HeadShape(tag);
    var head := LineHead(tag);
    var n := |TagName(tag)|;
    assert line[..8] == head[..8];
    assert line[8..][..n] == head[8..8 + n];
    assert line[8..][n] == head[8 + n];
  }

  /** The tag a line was built with can be read back from its head, whatever the JSON
      and the suffixes contain. */
  lemma LineTagRoundTrip(tag: Tag, statsJson: string, stackSuffix: string, argsSuffix: string)
    ensures ParseLineTag(LogLine(tag, statsJson, stackSuffix, argsSuffix)) == Some(tag)
  {
    var line := LogLine(tag, statsJson, stackSuffix, argsSuffix);
    var name := TagName(tag);
    LineStartsWithHead(tag, statsJson, stackSuffix, argsSuffix);
    RestOfLine(line, tag);
    NoAngleInTagName(tag);
    TakeUntilAt(line[8..], '>', |name|);
    TagNameRoundTrip(tag);
    assert ParseLineTag(line) == ParseTagName(name);
  }

  // ---------------------------------------------------------------------------
  // One traced call

  /** Everything one call produces: what the caller sees, the final `stats`, the tag,
      the collected call strings and the records logged, in order. */
  datatype TraceRecord = TraceRecord(
    result: Outcome,
    stats: Stats,
    tag: Tag,
    callStrings: seq<string>,
    logs: seq<LogRecord>)

  /** `stats` once the outcome is recorded and the duration computed, before the
      classification fills in `called_by`, `test` and `source`. */
  function CapturedStats(cfg: TraceConfig, functionName: string, outcome: Outcome,
                         startMicros: nat, finishMicros: nat): (s: Stats)
    ensures s.calledBy == "" && s.test == "" && s.source == ""
  {
    var cap := CaptureOf(outcome);
    Stats(functionName, "", StartSeconds(startMicros), Duration(startMicros, finishMicros),
          cap.traceback, cap.skipped, cap.msg, "", "", cfg.sourceClass, cfg.desc)
  }

  /** The reference definition of one call, built from the classification functions. */
  function Run(cfg: TraceConfig, functionName: string, outcome: Outcome, stack: seq<Frame>,
               startMicros: nat, finishMicros: nat,
               json: Stats -> string, listRepr: seq<string> -> string, argsRepr: ArgsRepr): (r: TraceRecord)
    ensures r.result == outcome
    ensures |r.logs| == |SkipNotice(functionName, outcome)| + 1
  {
    var captured := CapturedStats(cfg, functionName, outcome, startMicros, finishMicros);
    var ctx := ClassifyCall(functionName, captured.skipped, stack, cfg.callStack);
    var stats := captured.(calledBy := ctx.calledBy, test := ctx.test, source := ctx.source);
    TraceRecord(outcome, stats, ctx.tag, ctx.callStrings,
                SkipNotice(functionName, outcome) + [FinishRecord(cfg, stats, ctx.tag, ctx.callStrings, json, listRepr, argsRepr)])
  }

  /** The three stopping rules of the walk, tried in order on a frame that meets one:
      a test function, nose's `_run_cleanups`, nose's `_run_setup`. */
  method StopWalk(caller: Frame, i: nat, before: Stats) returns (stats: Stats, tag: Tag)
    requires HitOf(caller).Some? && before.source == ""
    ensures Stop(tag, stats.test, stats.source) == StopAt(caller, i, before.calledBy)
    ensures stats == before.(test := stats.test, source := stats.source)
  {
    HitOfCases(caller);
    stats := before;
    if StartsWith(caller.funcName, "test_") {
      stats := stats.(test := caller.funcName);
      stats := stats.(source := SourceOf(caller));
      tag := if i == 1 then TestFunction else TestSubfunction;
    } else if caller.funcName == "_run_cleanups" {
      stats := stats.(test := "cleanup");
      tag := if stats.calledBy == "_run_user" then CleanupFunction else CleanupSubfunction;
    } else {
      stats := stats.(test := "setup");
      tag := if stats.calledBy == "_run_setup" then SetupFunction else SetupSubfunction;
    }
  }

  /** The outward walk of the `finally` block: an indexed loop over the stack that
      collects call strings, notes the immediate caller, and breaks at the first
      stopping frame after filling in `test`, `source` and the tag.  No other entry of
      `stats` changes. */
  method WalkStack(stack: seq<Frame>, callStack: bool, before: Stats)
    returns (stats: Stats, tag: Tag, callStrings: seq<string>)
    requires before.calledBy == "" && before.test == "" && before.source == ""
    ensures Context(tag, stats.calledBy, stats.test, stats.source, callStrings) == Walk(stack, callStack)
    ensures stats == before.(calledBy := stats.calledBy, test := stats.test, source := stats.source)
  {
    stats := before;
    tag := OtherFunction;
    callStrings := [];
    var i := 0;
    while i < |stack|
      invariant i <= |stack|
      invariant FirstHit(stack, 0) == FirstHit(stack, i)
      invariant tag == OtherFunction
      invariant stats == before.(calledBy := stats.calledBy)
      invariant stats.calledBy == if 1 < i then stack[1].funcName else ""
      invariant callStack ==> callStrings == CallStrings(stack[..i])
      invariant !callStack ==> callStrings == []
    {
      var caller := stack[i];
      CallStringsStep(stack, i);
      if callStack && caller.funcName != "tracer" {
        callStrings := callStrings + [CallString(caller)];
      }
      assert callStack ==> callStrings == CallStrings(stack[..i + 1]);
      if i == 1 {
        stats := stats.(calledBy := caller.funcName);
      }
      assert stats.calledBy == if 1 <= i then stack[1].funcName else "";
      if HitOf(caller).Some? {
        stats, tag := StopWalk(caller, i, stats);
        assert FirstHit(stack, i) == Some(i);
        WalkStopsAt(stack, callStack, i);
        return;
      }
      assert FirstHit(stack, i) == FirstHit(stack, i + 1);
      i := i + 1;
    }
    WalkRunsOut(stack, callStack);
    assert stack[..i] == stack;
  }

  /** The end of the `finally` block: the argument gate, the stack suffix, the line and
      its severity; a failure while rendering the arguments becomes a warning. */
  method Finish(cfg: TraceConfig, stats: Stats, tag: Tag, callStrings: seq<string>,
                json: Stats -> string, listRepr: seq<string> -> string, argsRepr: ArgsRepr)
    returns (record: LogRecord)
    ensures record == FinishRecord(cfg, stats, tag, callStrings, json, listRepr, argsRepr)
  {
    var functionArgs := "";
    if ArgsDumped(cfg.trigger, tag, stats.traceback, stats.skipped) {
      match argsRepr {
        case RenderFailed(e) =>
          return LogRecord(Warning, FailedTraceMessage(e));
        case Rendered(a, k) =>
          functionArgs := " args=" + a + " kwargs=" + k;
      }
    }
    var stackString := if cfg.callStack then " stack=" + listRepr(callStrings) else "";
    var logMessage := LogLine(tag, json(stats), stackString, functionArgs);
    if tag == Test && stats.traceback {
      record := LogRecord(Error, logMessage);
    } else {
      record := LogRecord(Debug, logMessage);
    }
  }

  /** The `tracer` wrapper as the source runs it: the target's outcome is recorded into
      `stats` entry by entry, then the `finally` block classifies the call and logs it,
      and the outcome is passed on. */
  method Trace(cfg: TraceConfig, functionName: string, outcome: Outcome, stack: seq<Frame>,
               startMicros: nat, finishMicros: nat,
               json: Stats -> string, listRepr: seq<string> -> string, argsRepr: ArgsRepr)
    returns (result: Outcome, stats: Stats, tag: Tag, callStrings: seq<string>, logs: seq<LogRecord>)
    ensures TraceRecord(result, stats, tag, callStrings, logs) ==
            Run(cfg, functionName, outcome, stack, startMicros, finishMicros, json, listRepr, argsRepr)
  {
    stats := Stats(functionName, "", StartSeconds(startMicros), 0, false, false, "", "", "", cfg.sourceClass, cfg.desc);
    logs := [];
    match outcome {
      case Raises(TestSkipped(m)) =>
        stats := stats.(msg := m);
        logs := logs + [LogRecord(Info, "Skipped " + functionName + " " + m)];
        stats := stats.(skipped := true);
      case Raises(Exception(_, m)) =>
        stats := stats.(traceback := true);
        stats := stats.(msg := m);
      case _ =>
    }

    // The `finally` block.
    stats := stats.(duration := Duration(startMicros, finishMicros));
    assert stats == CapturedStats(cfg, functionName, outcome, startMicros, finishMicros);
    if stats.skipped {
      tag, callStrings := SkippedTest, [];
    } else if StartsWith(functionName, "test_") {
      tag, callStrings := Test, [];
    } else {
      stats, tag, callStrings := WalkStack(stack, cfg.callStack, stats);
    }
    var record := Finish(cfg, stats, tag, callStrings, json, listRepr, argsRepr);
    logs := logs + [record];
    result := outcome;
  }

  // ---------------------------------------------------------------------------
  // Properties of a traced call

  /** The caller sees exactly the target's outcome, whatever the stack, the clock and
      whether logging the trace failed. */
  lemma OutcomeIsPassedThrough(cfg: TraceConfig, functionName: string, outcome: Outcome, stack: seq<Frame>,
                               startMicros: nat, finishMicros: nat,
                               json: Stats -> string, listRepr: seq<string> -> string, argsRepr: ArgsRepr)
    ensures Run(cfg, functionName, outcome, stack, startMicros, finishMicros, json, listRepr, argsRepr).result == outcome
  {
  }

  /** A normal return sets neither flag and leaves `msg` empty. */
  lemma ReturnSetsNoFlags(cfg: TraceConfig, functionName: string, value: PyObject, stack: seq<Frame>,
                          startMicros: nat, finishMicros: nat,
                          json: Stats -> string, listRepr: seq<string> -> string, argsRepr: ArgsRepr)
    ensures var r := Run(cfg, functionName, Returned(value), stack, startMicros, finishMicros, json, listRepr, argsRepr);
            !r.stats.skipped && !r.stats.traceback && r.stats.msg == "" && |r.logs| == 1
  {
  }

  /** A skip sets `skipped` and never `traceback`, records the skip's message, is tagged
      "skipped_test", logs the info notice first, and is never logged at error severity. */
  lemma SkipIsolation(cfg: TraceConfig, functionName: string, message: string, stack: seq<Frame>,
                      startMicros: nat, finishMicros: nat,
                      json: Stats -> string, listRepr: seq<string> -> string, argsRepr: ArgsRepr)
    ensures var r := Run(cfg, functionName, Raises(TestSkipped(message)), stack, startMicros, finishMicros, json, listRepr, argsRepr);
            r.stats.skipped && !r.stats.traceback && r.stats.msg == message && r.tag == SkippedTest &&
            r.stats.calledBy == "" && r.callStrings == [] &&
            r.logs[0] == LogRecord(Info, "Skipped " + functionName + " " + message) &&
            r.logs[1].severity != Error
  {
  }

  /** Any other Exception sets `traceback` only and records its message. */
  lemma ExceptionSetsTraceback(cfg: TraceConfig, functionName: string, typeName: string, message: string, stack: seq<Frame>,
                               startMicros: nat, finishMicros: nat,
                               json: Stats -> string, listRepr: seq<string> -> string, argsRepr: ArgsRepr)
    ensures var r := Run(cfg, functionName, Raises(Exception(typeName, message)), stack, startMicros, finishMicros, json, listRepr, argsRepr);
            r.stats.traceback && !r.stats.skipped && r.stats.msg == message && |r.logs| == 1
  {
  }

  /** Whether the arguments are dumped, in terms of the call itself: always under
      "always", for every non-skipped function named "test_...", and under "on_failure"
      for a call that raised an Exception other than a skip. */
  lemma ArgsDumpedIff(cfg: TraceConfig, functionName: string, outcome: Outcome, stack: seq<Frame>,
                      startMicros: nat, finishMicros: nat,
                      json: Stats -> string, listRepr: seq<string> -> string, argsRepr: ArgsRepr)
    ensures var r := Run(cfg, functionName, outcome, stack, startMicros, finishMicros, json, listRepr, argsRepr);
            ArgsDumped(cfg.trigger, r.tag, r.stats.traceback, r.stats.skipped) <==>
              cfg.trigger == Always ||
              (!(outcome.Raises? && outcome.error.TestSkipped?) && StartsWith(functionName, "test_")) ||
              (cfg.trigger == OnFailure && outcome.Raises? && outcome.error.Exception?)
  {
    var cap := CaptureOf(outcome);
    if !cap.skipped && !StartsWith(functionName, "test_") {
      WalkTags(stack, cfg.callStack);
    }
  }

  /** Under "never", only a function named "test_..." has its arguments dumped; a skip
      never has them dumped unless the trigger is "always". */
  lemma ArgsGatingCorners(trigger: Trigger, tag: Tag, traceback: bool, skipped: bool)
    ensures trigger == Never && tag != Test ==> !ArgsDumped(trigger, tag, traceback, skipped)
    ensures trigger == Always ==> ArgsDumped(trigger, tag, traceback, skipped)
    ensures trigger == OnFailure ==> (ArgsDumped(trigger, tag, traceback, skipped) <==> tag == Test || (traceback && !skipped))
  {
  }

  /** The trace line is logged at error severity exactly when a function named "test_..."
      raised an Exception other than a skip and its arguments rendered. */
  lemma ErrorSeverityIff(cfg: TraceConfig, functionName: string, outcome: Outcome, stack: seq<Frame>,
                         startMicros: nat, finishMicros: nat,
                         json: Stats -> string, listRepr: seq<string> -> string, argsRepr: ArgsRepr)
    ensures var r := Run(cfg, functionName, outcome, stack, startMicros, finishMicros, json, listRepr, argsRepr);
            r.logs[|r.logs| - 1].severity == Error <==>
              StartsWith(functionName, "test_") && outcome.Raises? && outcome.error.Exception? && argsRepr.Rendered?
  {
    var cap := CaptureOf(outcome);
    if !cap.skipped && !StartsWith(functionName, "test_") {
      WalkTags(stack, cfg.callStack);
    }
  }

  /** A failing test is logged at error severity with its arguments, whatever the trigger. */
  lemma FailingTestLine(cfg: TraceConfig, functionName: string, typeName: string, message: string, stack: seq<Frame>,
                        startMicros: nat, finishMicros: nat,
                        json: Stats -> string, listRepr: seq<string> -> string, args: string, kwargs: string)
    requires StartsWith(functionName, "test_")
    ensures var r := Run(cfg, functionName, Raises(Exception(typeName, message)), stack, startMicros, finishMicros,
                         json, listRepr, Rendered(args, kwargs));
            r.tag == Test && r.stats.traceback &&
            r.logs == [LogRecord(Error, LogLine(Test, json(r.stats), StackSuffix(cfg.callStack, listRepr([])), ArgsSuffix(args, kwargs)))]
  {
  }

  /** Every trace line can be read back to the tag the call was classified with. */
  lemma TraceLineCarriesTag(cfg: TraceConfig, functionName: string, outcome: Outcome, stack: seq<Frame>,
                            startMicros: nat, finishMicros: nat,
                            json: Stats -> string, listRepr: seq<string> -> string, argsRepr: ArgsRepr)
    ensures var r := Run(cfg, functionName, outcome, stack, startMicros, finishMicros, json, listRepr, argsRepr);
            var last := r.logs[|r.logs| - 1];
            last.severity != Warning ==> ParseLineTag(last.message) == Some(r.tag)
  {
    var r := Run(cfg, functionName, outcome, stack, startMicros, finishMicros, json, listRepr, argsRepr);
    var dumped := ArgsDumped(cfg.trigger, r.tag, r.stats.traceback, r.stats.skipped);
    var argsSuffix := if dumped && argsRepr.Rendered? then ArgsSuffix(argsRepr.args, argsRepr.kwargs) else "";
    LineTagRoundTrip(r.tag, json(r.stats), StackSuffix(cfg.callStack, listRepr(r.callStrings)), argsSuffix);
  }

  /** A warning replaces the trace line exactly when the arguments were wanted and
      rendering them raised. */
  lemma WarningIff(cfg: TraceConfig, functionName: string, outcome: Outcome, stack: seq<Frame>,
                   startMicros: nat, finishMicros: nat,
                   json: Stats -> string, listRepr: seq<string> -> string, argsRepr: ArgsRepr)
    ensures var r := Run(cfg, functionName, outcome, stack, startMicros, finishMicros, json, listRepr, argsRepr);
            r.logs[|r.logs| - 1].severity == Warning <==>
              argsRepr.RenderFailed? && ArgsDumped(cfg.trigger, r.tag, r.stats.traceback, r.stats.skipped)
  {
  }
}

# nose-tracer call tracing, modelled in Dafny

`tracer.py` gives a test suite run under nose two decorators:

- `trace_function_call` wraps a function in a `tracer` that runs the function and passes its outcome on unchanged, provided the exception handlers themselves do not raise (see "## Left out"). Afterwards the wrapper writes one `TRACER <tag>{stats}</tag>` line to the `tracer` logger. Before the stats record is logged it is filled in:
  - the call's outcome flags (`skipped`, `traceback`, `msg`);
  - its duration;
  - a classification of the call. The classification either comes from the call's own name or is found by walking the call stack outwards to the first test, nose cleanup or nose setup frame.
- `trace_class_methods` applies the first decorator to every eligible method of a class.

The project has six modules:

- `Wrappers`: Option and Result.
- `Strings`: the Python string operations used: `startswith`, `partition`, `os.path.basename` and `str(int)`.
- `Config`: the three `dump_args` triggers, the option defaults and the `ValueError` for an invalid trigger.
- `Classify`: the classification, written as functions over an explicit stack of frames.
- `Tracer`: the `tracer` wrapper.
  - It is written as methods that update the `stats` record field by field and walk the stack with an indexed loop that stops at the first stopping frame, as the source does.
  - These methods are proved to produce exactly what the reference function `Run` defines.
  - The lemmas about outcome transparency, gating and severity are stated on `Run`.
- `ClassMethods`: `trace_function_call` applied to a function value, and the `class_decorator` loop.
  - The loop is a method on a `PyClass` object whose own attribute dictionary it updates in place.
  - It is proved equal to the reference function `DecorateResult`.

Inputs the model takes as parameters instead of computing them:
- what the traced function does (its outcome);
- the two clock readings, in whole microseconds;
- the list `inspect.stack()` returns;
- `json.dumps` of the stats record;
- the `repr` of the call-string list;
- the rendering of `args` and `kwargs`. This rendering may raise, and the model says so.

Log calls become `LogRecord(severity, message)` values, in the order they are made.

Behaviours of the code that are easy to misread, and that the model states as the code has them:
- `called_by` is written only inside the stack walk. For the `test` and `skipped_test` tags it stays empty.
- A skip is announced by an info-level `Skipped …` record. The `TRACER` line for a skip is still logged at debug level.
- Call strings are collected only while the walk runs, up to and including the stopping frame. There are none for `test` and `skipped_test`.
- Every frame whose function is named `tracer` is left out of the call strings, including the wrappers of outer traced calls.
- The ` stack=` suffix is present whenever `call_stack` is on, even when the list is empty.
- `trace_class_methods` with an invalid `dump_args` raises only when the class has at least one eligible method.

## Model

| member | source | states |
|---|---|---|
| `Strings.FindFrom` | tracer.py:119 | the result is the first index at or after `from` where the separator occurs; none means no occurrence there |
| `Strings.FindFromAt` | tracer.py:119 | an occurrence preceded by none is the one the search finds |
| `Strings.OccursInPrefix` | tracer.py:119 | helper for the `partition` lemmas: an occurrence wholly inside `x` is an occurrence in `x + y` and conversely |
| `Strings.PartitionTailOfPrefix` | tracer.py:119 | when the separator occurs in `x`, `(x + y).partition(sep)[2]` is the rest of `x` after it, followed by `y` |
| `Strings.PartitionTailMissing` | tracer.py:119 | when the separator is absent from `x` and its last character from `y`, the partition tail of `x + y` is empty |
| `Strings.PartitionTail` | tracer.py:119 | `s.partition(sep)[2]`; described by `PartitionTailOfPrefix` and `PartitionTailMissing` |
| `Strings.RFindSlash` | tracer.py:108 | the index of the last '/' before `end`, or -1 when there is none |
| `Strings.Basename` | tracer.py:108 | the basename is the suffix after the last '/', contains no '/', and is preceded by '/' when shorter than the path |
| `Strings.DigitChar` | tracer.py:110 | a digit below ten becomes a decimal digit character |
| `Strings.DecimalString` | tracer.py:110 | `str(lineno)` is a non-empty string of digits without a leading zero |
| `Strings.DecimalRoundTrip` | tracer.py:110 | reading the digits of `str(n)` back gives `n` |
| `Strings.DecimalInjective` | tracer.py:110 | distinct line numbers give distinct decimal strings |
| `Config.TriggerName` | tracer.py:12-17 | every trigger constant is one of VALID_TRIGGERS |
| `Config.ParseTrigger` | tracer.py:17 | a string names a trigger exactly when it is in VALID_TRIGGERS, and then names that one |
| `Config.TriggerRoundTrip` | tracer.py:12-17 | the three constants are distinct and each reads back as itself |
| `Config.Configure` | tracer.py:37-43 | options are accepted exactly when `dump_args` (default "on_failure") is a valid trigger; `desc`/`source_class` default to "", `call_stack` to false; otherwise the ValueError text names the value and the valid triggers |
| `Config.DefaultConfiguration` | tracer.py:37-40 | with no options the wrapper dumps on failure and does not record the stack |
| `Config.RejectsUnknownTrigger` | tracer.py:42-43 | a `dump_args` outside the three constants is refused whatever the other options |
| `Config.ClassDefaults` | tracer.py:177 | the class decorator defaults to `call_stack` on, `dump_args` "on_failure" and empty `desc` |
| `Config.ClassDefaultDiffersInCallStack` | tracer.py:40 | the class decorator records the stack by default where `trace_function_call` does not |
| `Classify.ParseTagName` | tracer.py:95-141 | a tag name read back is the name of the tag returned |
| `Classify.TagNameRoundTrip` | tracer.py:95-141 | the nine tag names are distinct and each reads back as its tag |
| `Classify.HitOfCases` | tracer.py:117-142 | a frame meets the test rule iff its function starts with "test_", the cleanup rule iff it is `_run_cleanups`, the setup rule iff it is `_run_setup` |
| `Classify.HitOf` | tracer.py:117-142 | the three stopping rules tried in source order on one frame; described by `HitOfCases` |
| `Classify.FirstHit` | tracer.py:102-142 | the walk stops at the first frame from `from` that meets a rule; with no stop, no frame meets one |
| `Classify.FirstHitAt` | tracer.py:102-142 | a stopping frame with no stopping frame before it is where the walk stops |
| `Classify.Location` | tracer.py:119 | the text `"{filename} [{lineno}]"`; described by `SourceAfterInstallRoot` |
| `Classify.SourceOf` | tracer.py:119 | `source` cut from the location after "whelk/"; described by `SourceAfterInstallRoot` and `SourceEmptyOutsideInstallRoot` |
| `Classify.CallString` | tracer.py:107-110 | the `basename:function:lineno` string of one frame; described by `CallStringsSingle` |
| `Classify.CallStrings` | tracer.py:107-110 | at most one call string per frame |
| `Classify.CallStringsAppend` | tracer.py:107-110 | collecting over two stretches of the stack is collecting over each in turn, in stack order |
| `Classify.CallStringsSingle` | tracer.py:107-110 | one frame contributes `basename:function:lineno` unless it is named "tracer" |
| `Classify.CallStringsStep` | tracer.py:107-110 | one more frame of the walk appends its call string unless it is named "tracer" |
| `Classify.WalkEnd` | tracer.py:102-142 | the walk visits no more frames than the stack has |
| `Classify.StopAt` | tracer.py:117-142 | the tag, `test` and `source` a stopping frame decides; described by `TestFunctionIffImmediateCaller`, `CleanupFunctionShape` and `SetupFunctionIffImmediateCaller` |
| `Classify.Walk` | tracer.py:99-142 | the reference definition of the outward walk; described by `WalkStopsAt`, `WalkRunsOut`, `OtherFunctionIffNoHit`, `CalledByIsImmediateCaller`, `WalkCallStrings` and `NothingCollectedPastHit`, and run by `Tracer.WalkStack` |
| `Classify.WalkStopsAt` | tracer.py:113-142 | a walk stopping at index `i` gives the stop's tag, test and source, `called_by` from index 1 if reached, and the strings of frames 0..i |
| `Classify.WalkRunsOut` | tracer.py:99-114 | a walk with no stop gives "other_function", empty test/source and the strings of the whole stack |
| `Classify.ClassifyCall` | tracer.py:93-142 | skipped, then own name, then the walk; described by `SkippedTakesPrecedence`, `OwnTestNameBeforeWalk` and `OnlyWalkFillsContext` |
| `Classify.SkippedTakesPrecedence` | tracer.py:94-95 | a skipped call is "skipped_test" whatever its name and stack, with nothing else filled in |
| `Classify.OwnTestNameBeforeWalk` | tracer.py:96-97 | a non-skipped call of a "test_" function is "test" without looking at the stack |
| `Classify.OnlyWalkFillsContext` | tracer.py:93-99 | without the walk, `called_by`, `test`, `source` and the call strings stay empty |
| `Classify.WalkTags` | tracer.py:98-142 | the walk never yields "test" or "skipped_test" |
| `Classify.NoHitIsOtherFunction` | tracer.py:99-114 | with no stopping frame the tag is "other_function", test/source are empty and `called_by` is frame 1's function |
| `Classify.OtherFunctionIffNoHit` | tracer.py:99-142 | the walk yields "other_function" iff no frame meets a stopping rule |
| `Classify.TestFunctionIffImmediateCaller` | tracer.py:117-124 | "test_function" iff the first stop is a "test_" frame at index 1; "test_subfunction" iff it is one at another index; both attribute test and source to that frame |
| `Classify.SetupFunctionIffImmediateCaller` | tracer.py:136-142 | "setup_function" iff the first stop is `_run_setup` at index 1; both setup tags set test to "setup" |
| `Classify.CleanupFunctionShape` | tracer.py:127-133 | "cleanup_function" iff the first stop is `_run_cleanups` at index 2 or beyond with `_run_user` at index 1; both cleanup tags set test to "cleanup" |
| `Classify.CalledByIsImmediateCaller` | tracer.py:113-114 | when frame 0 does not stop the walk, `called_by` is frame 1's function |
| `Classify.WalkCallStrings` | tracer.py:107-124 | the strings are those of the frames before the stop followed by the stop's own, and none without `call_stack` |
| `Classify.NothingCollectedPastHit` | tracer.py:107-124 | replacing every frame after the stopping frame by any other frames leaves the walk's whole result unchanged, call strings included; at most k + 1 strings are collected |
| `Classify.NoSlashInLineSuffix` | tracer.py:119 | the bracketed line number contains no '/' |
| `Classify.SourceAfterInstallRoot` | tracer.py:119 | with "whelk/" in the path, `source` is the path after its first occurrence followed by " [lineno]" |
| `Classify.SourceEmptyOutsideInstallRoot` | tracer.py:119 | without "whelk/" in the path, `source` is empty |
| `Tracer.TruncDiv` | tracer.py:91 | `int()` of a quotient truncates toward zero, for both signs |
| `Tracer.DivUnique` | tracer.py:91 | arithmetic helper for the duration lemmas: quotient and remainder with 0 <= r < m are unique |
| `Tracer.DivAfterMultiple` | tracer.py:91 | arithmetic helper for the duration lemmas: subtracting q whole units lowers the quotient by q |
| `Tracer.StartSeconds` | tracer.py:63 | `int(start_time)`, the whole start second; used by `DurationIsWholeSeconds` |
| `Tracer.Duration` | tracer.py:90-91 | `int(finish_time - stats['start'])`, truncated toward zero; described by `DurationIsWholeSeconds` and `DurationNegativeIff` |
| `Tracer.DurationIsWholeSeconds` | tracer.py:63-91 | on a clock that did not go back, the duration is finish's whole seconds minus start's, and never negative |
| `Tracer.DurationNegativeIff` | tracer.py:91 | the duration is negative iff finish lies a full second or more before the whole start second |
| `Tracer.CaptureOf` | tracer.py:73-87 | the flags are exclusive: `skipped` iff a TestSkipped was raised, `traceback` iff another Exception was; a return leaves `msg` empty |
| `Tracer.SkipNotice` | tracer.py:76-78 | exactly a skip produces the single info notice |
| `Tracer.ArgsDumped` | tracer.py:144-146 | the argument gate; described by `ArgsDumpedIff` and `ArgsGatingCorners` |
| `Tracer.LineSeverity` | tracer.py:155-158 | error iff the tag is "test" and `traceback` is set, otherwise debug |
| `Tracer.ArgsSuffix` | tracer.py:147 | the ` args=… kwargs=…` suffix; it appears in `FailingTestLine` |
| `Tracer.StackSuffix` | tracer.py:150-153 | the ` stack=…` suffix, present iff `call_stack`; it appears in `FailingTestLine` |
| `Tracer.LogLine` | tracer.py:154 | `TRACER <tag>{json}</tag>` and the suffixes; described by `LineStartsWithHead` and `LineTagRoundTrip` |
| `Tracer.FinishRecord` | tracer.py:144-160 | the one record the `finally` block logs; described by `ErrorSeverityIff`, `WarningIff`, `FailingTestLine` and `TraceLineCarriesTag`, and computed by `Finish` |
| `Tracer.TakeUntilAt` | tracer.py:154 | reading up to the first '>' stops exactly there |
| `Tracer.PrefixOfConcat` | tracer.py:154 | sequence helper for the line lemmas: a prefix of `x` is unchanged by appending to `x` |
| `Tracer.LineStartsWithHead` | tracer.py:154 | every line begins with "TRACER <tag>" whatever the JSON and suffixes |
| `Tracer.NoAngleInTagName` | tracer.py:154 | no tag name contains '>' |
| `Tracer.HeadShape` | tracer.py:154 | the head is "TRACER <", the tag name and '>' |
| `Tracer.RestOfLine` | tracer.py:154 | a line with a head has the tag name right after "TRACER <", then '>' |
| `Tracer.LineTagRoundTrip` | tracer.py:154 | the tag a line is built with is read back from it |
| `Tracer.CapturedStats` | tracer.py:60-72 | before classification `called_by`, `test` and `source` are empty |
| `Tracer.Run` | tracer.py:55-161 | the caller gets the target's outcome; one record is logged, after the skip notice if any |
| `Tracer.StopWalk` | tracer.py:117-142 | at a stopping frame, the rules in source order set test, source and tag as the stop decision says; nothing else in `stats` changes |
| `Tracer.WalkStack` | tracer.py:101-142 | the indexed loop with its breaks yields exactly the walk's tag, `called_by`, test, source and call strings, changing no other stats entry |
| `Tracer.Finish` | tracer.py:144-160 | the gate, suffixes, line and severity give exactly the finish record; a failed argument rendering that was wanted is a warning |
| `Tracer.Trace` | tracer.py:55-161 | the wrapper, updating `stats` step by step, returns exactly the reference `Run` |
| `Tracer.OutcomeIsPassedThrough` | tracer.py:73-87 | the caller sees exactly the target's outcome, whatever the stack, the clock or a failure inside the guarded `finally` block (tracer.py:89-160); `str()` of the exception and the skip notice are taken not to raise |
| `Tracer.ReturnSetsNoFlags` | tracer.py:65-75 | a normal return sets neither flag, leaves `msg` empty and logs one record |
| `Tracer.SkipIsolation` | tracer.py:76-81 | a skip sets only `skipped`, records its message, is "skipped_test" with no caller or call strings, logs the info notice first and is never an error |
| `Tracer.ExceptionSetsTraceback` | tracer.py:82-87 | any other Exception sets only `traceback` and records its message |
| `Tracer.ArgsDumpedIff` | tracer.py:144-149 | arguments are wanted iff the trigger is "always", or a non-skipped "test_" function, or "on_failure" with an Exception that is not a skip |
| `Tracer.ArgsGatingCorners` | tracer.py:144-146 | under "never" only the "test" tag dumps; "always" always dumps; "on_failure" dumps for "test" or a non-skip failure |
| `Tracer.ErrorSeverityIff` | tracer.py:155-158 | the line is an error iff a "test_" function raised an Exception other than a skip and its arguments rendered |
| `Tracer.FailingTestLine` | tracer.py:144-158 | a failing test's single record is an error line tagged "test" carrying its arguments, under every trigger |
| `Tracer.TraceLineCarriesTag` | tracer.py:154-158 | every trace line that is not the warning reads back to the call's tag |
| `Tracer.WarningIff` | tracer.py:159-160 | the warning replaces the line iff the arguments were wanted and rendering them raised |
| `ClassMethods.TraceFunctionCall` | tracer.py:37-54 | a wrapper exists iff the options are valid; it wraps the given function, keeps its name and binds the validated options; otherwise the ValueError text |
| `ClassMethods.Eligible` | tracer.py:190 | a plain function whose name does not start with "__"; described by `DecoratedWrapsEligible` and `DecoratedLeavesOthers` |
| `ClassMethods.Decorated` | tracer.py:186-198 | the dictionary with every eligible entry wrapped; described by `DecoratedKeepsKeys`, `DecoratedWrapsEligible`, `DecoratedLeavesOthers` and `DecoratingTwiceWrapsTwice` |
| `ClassMethods.DecorateResult` | tracer.py:184-199 | the reference result of the class decorator; described by `WrappersCarryClassOptions`, `InvalidTriggerIffEligible`, `NothingEligibleNothingChanges` and `ClassDecoratorDefaults`, and computed by `DecorateClass` |
| `ClassMethods.DecorateClass` | tracer.py:184-199 | the loop over the class's own dictionary leaves it as `DecorateResult` says: unchanged with the ValueError, or with every eligible entry wrapped |
| `ClassMethods.NothingReplacedYet` | tracer.py:190-198 | before any eligible entry is reached, no entry has been replaced |
| `ClassMethods.DecoratedKeepsKeys` | tracer.py:186-198 | the set of attribute names is unchanged |
| `ClassMethods.DecoratedWrapsEligible` | tracer.py:190-198 | an eligible entry becomes a wrapper around the original function with the same name |
| `ClassMethods.DecoratedLeavesOthers` | tracer.py:190 | dunder names and non-function attributes are left as they were |
| `ClassMethods.WrappersCarryClassOptions` | tracer.py:193-198 | each installed wrapper records the class name as `source_class` and the decorator's `call_stack`, `dump_args` and `desc` |
| `ClassMethods.InvalidTriggerIffEligible` | tracer.py:190-198 | the decorator raises iff the class has an eligible entry and `dump_args` is invalid, with the trigger ValueError text |
| `ClassMethods.NothingEligibleNothingChanges` | tracer.py:186-190 | a class with nothing eligible is returned unchanged whatever the options |
| `ClassMethods.DecoratingTwiceWrapsTwice` | tracer.py:186-198 | decorating a decorated class wraps its methods again, so the decorator is not idempotent |
| `ClassMethods.ClassDecoratorDefaults` | tracer.py:177 | with its defaults the class decorator never raises and binds `call_stack` on and "on_failure" |

## Left out

- `inspect.stack()` is a parameter, and the same list serves every iteration. The source calls it afresh on each iteration and may see a different stack.
- `time.time()` is modelled in whole microseconds (a natural number), not as a float. Sub-microsecond rounding is not modelled.
- `json.dumps(stats)`, the `repr` of the call-string list and the rendering of `args`/`kwargs` are opaque parameters. Of the steps inside the guarded `finally` block (tracer.py:89-160), only a failure while rendering the arguments is modelled, and it gives the warning.
- A failure of `inspect.stack()` (tracer.py:102, tracer.py:104) or of `logger.debug`/`logger.error` (tracer.py:156, tracer.py:158) is not modelled. In the source such a failure also ends in the warning; the model never produces the warning for it.
- `Strings.Basename` is the POSIX rule of `os.path.basename`: everything after the last '/'. The Windows rule, with '\\' and drive letters, is not modelled.
- The logger is a returned list of records. Logger configuration and handlers are not modelled.
- Tracer.OutcomeIsPassedThrough: assumes that `str()` of the raised exception (tracer.py:77, tracer.py:85) and the `logger.info` skip notice (tracer.py:78) do not raise. These run in the `except` handlers, outside the guard of tracer.py:89-160. In the source, a raise there replaces the target's exception. If it happens for a skip, `skipped` also stays false and the call is classified by name or walk. The model takes the message as a given string, so it promises transparency only under this assumption.
- Calling the target and re-raising its exception are summarised by the outcome value. A `BaseException` that is not an `Exception` sets neither flag and is passed on. No return value is produced for a raised outcome.
- `functools.wraps` is reduced to the wrapper carrying the wrapped function's name. The other copied attributes are not modelled.
- The `isinstance(function, types.FunctionType)` dispatch between decorator forms and its "Argument 'function' must be a function or None" error are not modelled (tracer.py:166-174).
- `get_tracer_metaclass` and `TracerMetaclass` are not modelled. The hook only calls the class decorator (tracer.py:202-222).
- The `str()` and `bool()` conversions of the options are not modelled. `desc`, `source_class` and `dump_args` are strings and `call_stack` is a boolean. So a non-string `dump_args` is not modelled.
- The iteration order of the class dictionary is not modelled. The loop takes the names in any order, and the result does not depend on it.
- What a wrapper does when invoked is not connected to `ClassMethods.Func`. A wrapped function's behaviour is `Tracer.Trace`, and a doubly wrapped method logs once per layer.

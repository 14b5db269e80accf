/** The call-context classification done in the `finally` block of `tracer`:
    which tag a call gets, which test it is attributed to, and which
    call-stack strings are collected.  This module states the rules as
    functions over an explicit stack; the `Tracer` module runs the loop
    the source runs and is proved to agree with them. */
module Classify {
  import opened Wrappers
  import opened Strings

  /** One entry of `inspect.stack()`; index 0 is the `tracer` frame itself. */
  datatype Frame = Frame(filename: string, funcName: string, lineno: nat)

  /** The tags a log line can carry. */
  datatype Tag =
    | Test | SkippedTest | OtherFunction
    | TestFunction | TestSubfunction
    | CleanupFunction | CleanupSubfunction
    | SetupFunction | SetupSubfunction

  function TagName(t: Tag): string {
    match t
    case Test => "test"
    case SkippedTest => "skipped_test"
    case OtherFunction => "other_function"
    case TestFunction => "test_function"
    case TestSubfunction => "test_subfunction"
    case CleanupFunction => "cleanup_function"
    case CleanupSubfunction => "cleanup_subfunction"
    case SetupFunction => "setup_function"
    case SetupSubfunction => "setup_subfunction"
  }

  /** Reads a tag name back. */
  function ParseTagName(s: string): (r: Option<Tag>)
    ensures r.Some? ==> TagName(r.value) == s
  {
    if s == "test" then Some(Test)
    else if s == "skipped_test" then Some(SkippedTest)
    else if s == "other_function" then Some(OtherFunction)
    else if s == "test_function" then Some(TestFunction)
    else if s == "test_subfunction" then Some(TestSubfunction)
    else if s == "cleanup_function" then Some(CleanupFunction)
    else if s == "cleanup_subfunction" then Some(CleanupSubfunction)
    else if s == "setup_function" then Some(SetupFunction)
    else if s == "setup_subfunction" then Some(SetupSubfunction)
    else None
  }

  lemma TagNameRoundTrip(t: Tag)
    ensures ParseTagName(TagName(t)) == Some(t)
  {
  }

  /** Which of the three stopping rules a frame meets, tried in the source's order. */
  datatype Hit = TestHit | CleanupHit | SetupHit

  function HitOf(f: Frame): Option<Hit> {
    if StartsWith(f.funcName, "test_") then Some(TestHit)
    else if f.funcName == "_run_cleanups" then Some(CleanupHit)
    else if f.funcName == "_run_setup" then Some(SetupHit)
    else None
  }

  /** The three rules name disjoint frames, so the order they are tried in decides nothing
      within one frame. */
  lemma HitOfCases(f: Frame)
    ensures HitOf(f) == Some(TestHit) <==> StartsWith(f.funcName, "test_")
    ensures HitOf(f) == Some(CleanupHit) <==> f.funcName == "_run_cleanups"
    ensures HitOf(f) == Some(SetupHit) <==> f.funcName == "_run_setup"
  {
    assert StartsWith(f.funcName, "test_") ==> f.funcName[0] == 't';
  }

  /** The index at which the outward walk stops: the first frame at or after
      `from` that meets a stopping rule. */
  function FirstHit(stack: seq<Frame>, from: nat): (r: Option<nat>)
    requires from <= |stack|
    ensures r.Some? ==> from <= r.value < |stack| && HitOf(stack[r.value]).Some?
    ensures r.Some? ==> forall j :: from <= j < r.value ==> HitOf(stack[j]).None?
    ensures r.None? ==> forall j :: from <= j < |stack| ==> HitOf(stack[j]).None?
    decreases |stack| - from
  {
    if from == |stack| then None
    else if HitOf(stack[from]).Some? then Some(from)
    else FirstHit(stack, from + 1)
  }

  /** The first hit is determined by "no hit before, hit here". */
  lemma {:induction false} FirstHitAt(stack: seq<Frame>, from: nat, k: nat)
    requires from <= k < |stack| && HitOf(stack[k]).Some?
    requires forall j :: from <= j < k ==> HitOf(stack[j]).None?
    ensures FirstHit(stack, from) == Some(k)
    decreases k - from
  {
    if from < k {
      FirstHitAt(stack, from + 1, k);
    }
  }

  /** `caller.filename [lineno]`, the location text `source` is cut from. */
  function Location(f: Frame): string {
    f.filename + " [" + DecimalString(f.lineno) + "]"
  }

  /** `source`: the location text after the first "whelk/", or "" without one. */
  function SourceOf(f: Frame): string {
    PartitionTail(Location(f), "whelk/")
  }

  /** One call-stack string, `basename:function:lineno`. */
  function CallString(f: Frame): string {
    Basename(f.filename) + ":" + f.funcName + ":" + DecimalString(f.lineno)
  }

  /** The call-stack strings for `frames`, in order, skipping the frames named "tracer". */
  function CallStrings(frames: seq<Frame>): (r: seq<string>)
    ensures |r| <= |frames|
  {
    if frames == [] then []
    else
      var last := frames[|frames| - 1];
      CallStrings(frames[..|frames| - 1]) + (if last.funcName != "tracer" then [CallString(last)] else [])
  }

  /** Collecting over two stretches of the stack is collecting over each in turn: the
      strings keep stack order and each frame contributes on its own. */
  lemma {:induction false} CallStringsAppend(a: seq<Frame>, b: seq<Frame>)
    ensures CallStrings(a + b) == CallStrings(a) + CallStrings(b)
    decreases |b|
  {
    if b == [] {
      assert a + b == a;
    } else {
      var init := b[..|b| - 1];
      assert (a + b)[..|a + b| - 1] == a + init;
      CallStringsAppend(a, init);
    }
  }

  /** A single frame gives its call string, unless it is named "tracer". */
  lemma CallStringsSingle(f: Frame)
    ensures CallStrings([f]) == if f.funcName != "tracer" then [CallString(f)] else []
  {
    assert [f][..0] == [];
  }

  /** One more frame of the walk adds its call string, unless it is named "tracer". */
  lemma CallStringsStep(stack: seq<Frame>, i: nat)
    requires i < |stack|
    ensures CallStrings(stack[..i + 1]) ==
            CallStrings(stack[..i]) + (if stack[i].funcName != "tracer" then [CallString(stack[i])] else [])
  {
    assert stack[..i + 1] == stack[..i] + [stack[i]];
    CallStringsAppend(stack[..i], [stack[i]]);
    CallStringsSingle(stack[i]);
  }

  /** Everything the classification fills in: the tag, the `called_by`, `test` and
      `source` entries of the statistics, and the collected call strings. */
  datatype Context = Context(tag: Tag, calledBy: string, test: string, source: string, callStrings: seq<string>)

  /** Where the walk ends: one past the first hit, or the whole stack. */
  function WalkEnd(stack: seq<Frame>): (e: nat)
    ensures e <= |stack|
  {
    match FirstHit(stack, 0)
    case Some(k) => k + 1
    case None => |stack|
  }

  /** What a stopping frame decides: the tag and the `test` and `source` entries. */
  datatype Stop = Stop(tag: Tag, test: string, source: string)

  /** The decision at stopping frame `f`, found at index `k`, given `called_by` so far. */
  function StopAt(f: Frame, k: nat, calledBy: string): Stop
    requires HitOf(f).Some?
  {
    match HitOf(f).value
    case TestHit => Stop(if k == 1 then TestFunction else TestSubfunction, f.funcName, SourceOf(f))
    case CleanupHit => Stop(if calledBy == "_run_user" then CleanupFunction else CleanupSubfunction, "cleanup", "")
    case SetupHit => Stop(if calledBy == "_run_setup" then SetupFunction else SetupSubfunction, "setup", "")
  }

  /** The outward walk over the stack, run when the call was not skipped and the
      traced function's own name does not start with "test_". */
  function Walk(stack: seq<Frame>, callStack: bool): Context {
    var end := WalkEnd(stack);
    var calledBy := if 1 < end then stack[1].funcName else "";
    var calls := if callStack then CallStrings(stack[..end]) else [];
    match FirstHit(stack, 0)
    case None => Context(OtherFunction, calledBy, "", "", calls)
    case Some(k) =>
      var stop := StopAt(stack[k], k, calledBy);
      Context(stop.tag, calledBy, stop.test, stop.source, calls)
  }

  /** What the walk yields when it stops at index `i`. */
  lemma WalkStopsAt(stack: seq<Frame>, callStack: bool, i: nat)
    requires i < |stack| && FirstHit(stack, 0) == Some(i)
    ensures var calledBy := if 1 <= i then stack[1].funcName else "";
            var stop := StopAt(stack[i], i, calledBy);
            Walk(stack, callStack) ==
              Context(stop.tag, calledBy, stop.test, stop.source, if callStack then CallStrings(stack[..i + 1]) else [])
  {
    assert WalkEnd(stack) == i + 1;
    var calledBy := if 1 <= i then stack[1].funcName else "";
    var calls := if callStack then CallStrings(stack[..i + 1]) else [];
    var stop := StopAt(stack[i], i, calledBy);
    assert Walk(stack, callStack) == Context(stop.tag, calledBy, stop.test, stop.source, calls);
  }

  /** What the walk yields when no frame stops it. */
  lemma WalkRunsOut(stack: seq<Frame>, callStack: bool)
    requires FirstHit(stack, 0).None?
    ensures Walk(stack, callStack) ==
            Context(OtherFunction, if 1 < |stack| then stack[1].funcName else "", "", "",
                    if callStack then CallStrings(stack) else [])
  {
    assert stack[..|stack|] == stack;
  }

  /** The whole classification: skipped first, then the function's own name, then the walk. */
  function ClassifyCall(functionName: string, skipped: bool, stack: seq<Frame>, callStack: bool): Context {
    if skipped then Context(SkippedTest, "", "", "", [])
    else if StartsWith(functionName, "test_") then Context(Test, "", "", "", [])
    else Walk(stack, callStack)
  }

  // ---------------------------------------------------------------------------
  // Properties of the classification

  /** A skipped call is tagged "skipped_test" whatever its name and stack, and nothing is walked. */
  lemma SkippedTakesPrecedence(functionName: string, stack: seq<Frame>, callStack: bool)
    ensures ClassifyCall(functionName, true, stack, callStack) == Context(SkippedTest, "", "", "", [])
  {
  }

  /** A non-skipped function named "test_..." is tagged "test" without looking at the stack. */
  lemma OwnTestNameBeforeWalk(functionName: string, stack: seq<Frame>, callStack: bool)
    requires StartsWith(functionName, "test_")
    ensures ClassifyCall(functionName, false, stack, callStack) == Context(Test, "", "", "", [])
  {
  }

  /** Only the walk fills in `called_by`, `test`, `source` and the call strings. */
  lemma OnlyWalkFillsContext(functionName: string, skipped: bool, stack: seq<Frame>, callStack: bool)
    requires skipped || StartsWith(functionName, "test_")
    ensures var c := ClassifyCall(functionName, skipped, stack, callStack);
            c.tag in {SkippedTest, Test} && c.calledBy == "" && c.test == "" && c.source == "" && c.callStrings == []
  {
  }

  /** The walk never produces "test" or "skipped_test", so those two come only from the
      checks that precede it. */
  lemma WalkTags(stack: seq<Frame>, callStack: bool)
    ensures Walk(stack, callStack).tag !in {Test, SkippedTest}
  {
  }

  /** With no stopping frame the tag stays "other_function" and `test`/`source` stay empty. */
  lemma NoHitIsOtherFunction(stack: seq<Frame>, callStack: bool)
    requires forall j :: 0 <= j < |stack| ==> HitOf(stack[j]).None?
    ensures Walk(stack, callStack).tag == OtherFunction
    ensures Walk(stack, callStack).test == "" && Walk(stack, callStack).source == ""
    ensures Walk(stack, callStack).calledBy == if |stack| > 1 then stack[1].funcName else ""
  {
  }

  /** The tag is "other_function" exactly when no frame meets a stopping rule. */
  lemma OtherFunctionIffNoHit(stack: seq<Frame>, callStack: bool)
    ensures Walk(stack, callStack).tag == OtherFunction <==>
            forall j :: 0 <= j < |stack| ==> HitOf(stack[j]).None?
  {
    if FirstHit(stack, 0).Some? {
      var k := FirstHit(stack, 0).value;
      assert HitOf(stack[k]).Some?;
    }
  }

  /** A test-named frame gives "test_function" exactly when it is the immediate caller
      (index 1) and is the first stopping frame; any other test-named first stop gives
      "test_subfunction", and the test is attributed to that frame. */
  lemma TestFunctionIffImmediateCaller(stack: seq<Frame>, callStack: bool)
    ensures Walk(stack, callStack).tag == TestFunction <==>
            FirstHit(stack, 0) == Some(1) && StartsWith(stack[1].funcName, "test_")
    ensures Walk(stack, callStack).tag == TestSubfunction <==>
            exists k :: FirstHit(stack, 0) == Some(k) && k != 1 && StartsWith(stack[k].funcName, "test_")
    ensures Walk(stack, callStack).tag in {TestFunction, TestSubfunction} ==>
            var k := FirstHit(stack, 0).value;
            Walk(stack, callStack).test == stack[k].funcName && Walk(stack, callStack).source == SourceOf(stack[k])
  {
    match FirstHit(stack, 0)
    case None =>
      WalkRunsOut(stack, callStack);
    case Some(k) =>
      WalkStopsAt(stack, callStack, k);
      HitOfCases(stack[k]);
      if Walk(stack, callStack).tag == TestSubfunction {
        assert FirstHit(stack, 0) == Some(k) && k != 1 && StartsWith(stack[k].funcName, "test_");
      }
  }

  /** "setup_function" means the immediate caller is `_run_setup` itself: the walk stopped at
      index 1.  A `_run_setup` found further out, or at index 0, gives "setup_subfunction". */
  lemma SetupFunctionIffImmediateCaller(stack: seq<Frame>, callStack: bool)
    ensures Walk(stack, callStack).tag == SetupFunction <==>
            FirstHit(stack, 0) == Some(1) && stack[1].funcName == "_run_setup"
    ensures Walk(stack, callStack).tag in {SetupFunction, SetupSubfunction} ==> Walk(stack, callStack).test == "setup"
  {
    match FirstHit(stack, 0)
    case None =>
      WalkRunsOut(stack, callStack);
    case Some(k) =>
      WalkStopsAt(stack, callStack, k);
      HitOfCases(stack[k]);
      if k > 1 {
        HitOfCases(stack[1]);
        assert HitOf(stack[1]).None?;
      }
  }

  /** "cleanup_function" means `_run_cleanups` was found beyond the immediate caller and
      that caller is `_run_user`; every other cleanup stop gives "cleanup_subfunction". */
  lemma CleanupFunctionShape(stack: seq<Frame>, callStack: bool)
    ensures Walk(stack, callStack).tag == CleanupFunction <==>
            exists k :: FirstHit(stack, 0) == Some(k) && k >= 2 &&
              stack[k].funcName == "_run_cleanups" && stack[1].funcName == "_run_user"
    ensures Walk(stack, callStack).tag in {CleanupFunction, CleanupSubfunction} ==> Walk(stack, callStack).test == "cleanup"
  {
    match FirstHit(stack, 0)
    case None =>
      WalkRunsOut(stack, callStack);
    case Some(k) =>
      WalkStopsAt(stack, callStack, k);
      HitOfCases(stack[k]);
      if Walk(stack, callStack).tag == CleanupFunction {
        assert k >= 2 && stack[k].funcName == "_run_cleanups" && stack[1].funcName == "_run_user";
      }
  }

  /** `called_by` is the immediate caller's function name, unless the walk already
      stopped at index 0 or the stack has no index 1. */
  lemma CalledByIsImmediateCaller(stack: seq<Frame>, callStack: bool)
    requires |stack| > 1 && HitOf(stack[0]).None?
    ensures Walk(stack, callStack).calledBy == stack[1].funcName
  {
    if FirstHit(stack, 0).Some? {
      assert FirstHit(stack, 0).value != 0;
    }
  }

  /** The call strings come from the frames up to and including the stopping frame,
      and none when the stack is not recorded. */
  lemma WalkCallStrings(stack: seq<Frame>, callStack: bool, k: nat)
    requires FirstHit(stack, 0) == Some(k)
    ensures !callStack ==> Walk(stack, callStack).callStrings == []
    ensures callStack ==> Walk(stack, callStack).callStrings == CallStrings(stack[..k]) + CallStrings([stack[k]])
  {
    assert stack[..k + 1] == stack[..k] + [stack[k]];
    CallStringsAppend(stack[..k], [stack[k]]);
  }

  /** Frames beyond the stopping frame play no part: replacing everything after it by
      any other frames leaves the walk's result, call strings included, unchanged. */
  lemma NothingCollectedPastHit(stack: seq<Frame>, callStack: bool, k: nat, rest: seq<Frame>)
    requires FirstHit(stack, 0) == Some(k)
    ensures Walk(stack[..k + 1] + rest, callStack) == Walk(stack, callStack)
    ensures |Walk(stack, callStack).callStrings| <= k + 1
  {
    var other := stack[..k + 1] + rest;
    assert other[..k + 1] == stack[..k + 1];
    assert forall j :: 0 <= j <= k ==> other[j] == stack[j];
    FirstHitAt(other, 0, k);
    WalkStopsAt(stack, callStack, k);
    WalkStopsAt(other, callStack, k);
  }

  // ---------------------------------------------------------------------------
  // The `source` text

  /** The bracketed line number contains no '/' and so cannot complete a "whelk/". */
  lemma NoSlashInLineSuffix(lineno: nat)
    ensures '/' !in " [" + DecimalString(lineno) + "]"
  {
    var d := DecimalString(lineno);
    var suffix := " [" + d + "]";
    forall i | 0 <= i < |suffix|
      ensures suffix[i] != '/'
    {
      if 2 <= i < 2 + |d| {
        assert suffix[i] == d[i - 2];
      }
    }
  }

  /** Where the file path contains "whelk/", `source` is the path after its first
      occurrence followed by " [lineno]". */
  lemma SourceAfterInstallRoot(f: Frame, i: nat)
    requires FindFrom(f.filename, "whelk/", 0) == Some(i)
    ensures SourceOf(f) == f.filename[i + 6..] + " [" + DecimalString(f.lineno) + "]"
  {
    var suffix := " [" + DecimalString(f.lineno) + "]";
    assert Location(f) == f.filename + suffix;
    PartitionTailOfPrefix(f.filename, suffix, "whelk/", i);
  }

  /** Without "whelk/" in the file path, `source` is empty. */
  lemma SourceEmptyOutsideInstallRoot(f: Frame)
    requires FindFrom(f.filename, "whelk/", 0).None?
    ensures SourceOf(f) == ""
  {
    var suffix := " [" + DecimalString(f.lineno) + "]";
    assert Location(f) == f.filename + suffix;
    NoSlashInLineSuffix(f.lineno);
    PartitionTailMissing(f.filename, suffix, "whelk/");
  }
}

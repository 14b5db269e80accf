/** Trace options of `trace_function_call`: the three argument-dump triggers,
    the option defaults and the validation of `dump_args`. */
module Config {
  import opened Wrappers

  /** When the call's arguments are written to the log line. */
  datatype Trigger = Never | OnFailure | Always

  /** The string constants TRIGGER_NEVER, TRIGGER_ON_FAILURE and TRIGGER_ALWAYS. */
  function TriggerName(t: Trigger): (s: string)
    ensures s in ValidTriggers()
  {
    match t
    case Never => "never"
    case OnFailure => "on_failure"
    case Always => "always"
  }

  /** VALID_TRIGGERS, in its declared order. */
  function ValidTriggers(): seq<string> {
    ["never", "on_failure", "always"]
  }

  /** The trigger a `dump_args` string names, if it is one of the valid triggers. */
  function ParseTrigger(s: string): (r: Option<Trigger>)
    ensures r.Some? <==> s in ValidTriggers()
    ensures r.Some? ==> TriggerName(r.value) == s
  {
    if s == "never" then Some(Never)
    else if s == "on_failure" then Some(OnFailure)
    else if s == "always" then Some(Always)
    else None
  }

  lemma TriggerRoundTrip(t: Trigger)
    ensures ParseTrigger(TriggerName(t)) == Some(t)
  {
  }

  /** The keyword options as passed; `None` is an option that was not given. */
  datatype TraceOptions = TraceOptions(
    desc: Option<string>,
    sourceClass: Option<string>,
    dumpArgs: Option<string>,
    callStack: Option<bool>)

  /** The options bound to one wrapped function. */
  datatype TraceConfig = TraceConfig(
    desc: string,
    sourceClass: string,
    trigger: Trigger,
    callStack: bool)

  function Get<T>(o: Option<T>, default: T): T {
    if o.Some? then o.value else default
  }

  /** The ValueError text for an invalid `dump_args`, with VALID_TRIGGERS rendered as a Python tuple. */
  function InvalidTriggerMessage(dumpArgs: string): string {
    "dump_args value '" + dumpArgs + "' invalid - must be one of: ('never', 'on_failure', 'always')"
  }

  /** The option handling at the top of `trace_function_call`: defaults for missing
      options, then the ValueError for a `dump_args` that is not a valid trigger,
      raised before any wrapper exists. */
  function Configure(opts: TraceOptions): (r: Result<TraceConfig, string>)
    ensures r.Ok? <==> Get(opts.dumpArgs, "on_failure") in ValidTriggers()
    ensures r.Ok? ==> TriggerName(r.value.trigger) == Get(opts.dumpArgs, "on_failure")
    ensures r.Ok? ==> r.value.desc == Get(opts.desc, "") && r.value.sourceClass == Get(opts.sourceClass, "")
    ensures r.Ok? ==> r.value.callStack == Get(opts.callStack, false)
    ensures r.Err? ==> r.error == InvalidTriggerMessage(opts.dumpArgs.value)
  {
    var dumpArgs := Get(opts.dumpArgs, "on_failure");
    match ParseTrigger(dumpArgs)
    case None => Err(InvalidTriggerMessage(dumpArgs))
    case Some(t) => Ok(TraceConfig(Get(opts.desc, ""), Get(opts.sourceClass, ""), t, Get(opts.callStack, false)))
  }

  /** With no options at all, the wrapper dumps arguments on failure and does not record the stack. */
  lemma DefaultConfiguration()
    ensures Configure(TraceOptions(None, None, None, None)) == Ok(TraceConfig("", "", OnFailure, false))
  {
  }

  /** A `dump_args` outside the three constants is refused whatever the other options are. */
  lemma RejectsUnknownTrigger(opts: TraceOptions)
    requires opts.dumpArgs.Some? && opts.dumpArgs.value !in ValidTriggers()
    ensures Configure(opts).Err?
  {
  }

  /** The defaults `trace_class_methods` passes on to every method it wraps. */
  datatype ClassTraceDefaults = ClassTraceDefaults(callStack: bool, dumpArgs: string, desc: string)

  function ClassDefaults(): (d: ClassTraceDefaults)
    ensures d.callStack
    ensures ParseTrigger(d.dumpArgs) == Some(OnFailure) && d.desc == ""
  {
    ClassTraceDefaults(true, "on_failure", "")
  }

  /** `trace_class_methods` records the stack by default, `trace_function_call` does not. */
  lemma ClassDefaultDiffersInCallStack()
    ensures ClassDefaults().callStack != Configure(TraceOptions(None, None, None, None)).value.callStack
  {
  }
}

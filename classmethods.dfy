/** `trace_function_call` applied to a function value, and the `class_decorator`
    loop of `trace_class_methods`, which replaces the eligible methods of a class's
    own attribute dictionary by traced wrappers. */
module ClassMethods {
  import opened Wrappers
  import opened Strings
  import opened Config

  /** A Python function object: one written by the user, or a `tracer` wrapper around
      another function together with the options bound to it. */
  datatype Func = UserFunction(name: string) | Traced(wrapped: Func, config: TraceConfig)

  /** `__name__`: a wrapper carries the name of the function it wraps. */
  function FunctionName(f: Func): string {
    match f
    case UserFunction(name) => name
    case Traced(wrapped, _) => FunctionName(wrapped)
  }

  /** An entry of a class's own `__dict__`: a plain function, or anything else
      (a `staticmethod`, `classmethod` or `property` object, a constant, ...). */
  datatype Attr = FunctionAttr(f: Func) | OtherAttr(kind: string)

  /** `trace_function_call(f, **options)`: the options are validated first, and only
      valid options produce a wrapper. */
  function TraceFunctionCall(f: Func, opts: TraceOptions): (r: Result<Func, string>)
    ensures r.Ok? <==> Configure(opts).Ok?
    ensures r.Err? ==> r.error == Configure(opts).error
    ensures r.Ok? ==> r.value.Traced? && r.value.wrapped == f && FunctionName(r.value) == FunctionName(f)
    ensures r.Ok? ==> r.value.config == Configure(opts).value
  {
    match Configure(opts)
    case Err(e) => Err(e)
    case Ok(cfg) => Ok(Traced(f, cfg))
  }

  /** The entries the class decorator replaces: plain functions whose name does not
      start with "__". */
  predicate Eligible(name: string, a: Attr) {
    a.FunctionAttr? && !StartsWith(name, "__")
  }

  predicate HasEligible(members: map<string, Attr>) {
    exists k :: k in members && Eligible(k, members[k])
  }

  /** The options the class decorator passes for every method of class `className`. */
  function ClassOptions(className: string, callStack: bool, dumpArgs: string, desc: string): TraceOptions {
    TraceOptions(Some(desc), Some(className), Some(dumpArgs), Some(callStack))
  }

  /** The dictionary after every eligible entry has been wrapped with `cfg`. */
  function Decorated(members: map<string, Attr>, cfg: TraceConfig): map<string, Attr> {
    map k | k in members :: if Eligible(k, members[k]) then FunctionAttr(Traced(members[k].f, cfg)) else members[k]
  }

  /** What applying the class decorator yields: the new dictionary, or the ValueError
      raised by the first eligible entry's `trace_function_call`. */
  function DecorateResult(className: string, members: map<string, Attr>, callStack: bool, dumpArgs: string, desc: string)
    : Result<map<string, Attr>, string>
  {
    if !HasEligible(members) then Ok(members)
    else
      match Configure(ClassOptions(className, callStack, dumpArgs, desc))
      case Err(e) => Err(e)
      case Ok(cfg) => Ok(Decorated(members, cfg))
  }

  /** A class object: its name and its own attribute dictionary. */
  class PyClass {
    const name: string
    var members: map<string, Attr>

    constructor (name: string, members: map<string, Attr>)
      ensures this.name == name && this.members == members
    {
      this.name := name;
      this.members := members;
    }
  }

  /** `class_decorator(cls)`: visits every entry of the class's own dictionary and
      `setattr`s each eligible one to its traced wrapper.  An invalid `dump_args` raises
      at the first eligible entry, before any entry has been replaced. */
  method DecorateClass(cls: PyClass, callStack: bool, dumpArgs: string, desc: string) returns (error: Option<string>)
    modifies cls
    ensures var r := DecorateResult(cls.name, old(cls.members), callStack, dumpArgs, desc);
            (error.Some? <==> r.Err?) &&
            (r.Err? ==> error.value == r.error && cls.members == old(cls.members)) &&
            (r.Ok? ==> cls.members == r.value)
  {
    var original := cls.members;
    var opts := ClassOptions(cls.name, callStack, dumpArgs, desc);
    var todo := original.Keys;
    while todo != {}
      invariant todo <= original.Keys
      invariant cls.members.Keys == original.Keys
      invariant forall k :: k in original && k !in todo && Eligible(k, original[k]) ==>
                  Configure(opts).Ok? && cls.members[k] == FunctionAttr(Traced(original[k].f, Configure(opts).value))
      invariant forall k :: k in original && (k in todo || !Eligible(k, original[k])) ==> cls.members[k] == original[k]
      decreases todo
    {
      var name :| name in todo;
      var attr := cls.members[name];
      if attr.FunctionAttr? && !StartsWith(name, "__") {
        var wrapped := TraceFunctionCall(attr.f, opts);
        if wrapped.Err? {
          NothingReplacedYet(original, cls.members, todo, Configure(opts).Ok?);
          error := Some(wrapped.error);
          return;
        }
        cls.members := cls.members[name := FunctionAttr(wrapped.value)];
      }
      todo := todo - {name};
    }
    error := None;
    if HasEligible(original) {
      var k :| k in original && Eligible(k, original[k]);
      assert cls.members == Decorated(original, Configure(opts).value);
    } else {
      assert cls.members == original;
    }
  }

  /** Before the options have been validated by an eligible entry, no entry has changed. */
  lemma NothingReplacedYet(original: map<string, Attr>, members: map<string, Attr>, todo: set<string>, valid: bool)
    requires members.Keys == original.Keys && todo <= original.Keys && !valid
    requires forall k :: k in original && k !in todo && Eligible(k, original[k]) ==> valid
    requires forall k :: k in original && (k in todo || !Eligible(k, original[k])) ==> members[k] == original[k]
    ensures members == original
  {
    forall k | k in original
      ensures members[k] == original[k]
    {
      if k !in todo && Eligible(k, original[k]) {
        assert false;
      }
    }
  }

  // ---------------------------------------------------------------------------
  // Properties of the class decorator

  /** The decorator never adds or removes an attribute. */
  lemma DecoratedKeepsKeys(members: map<string, Attr>, cfg: TraceConfig)
    ensures Decorated(members, cfg).Keys == members.Keys
  {
  }

  /** An eligible entry becomes a wrapper around the original function, under the same name. */
  lemma DecoratedWrapsEligible(members: map<string, Attr>, cfg: TraceConfig, k: string)
    requires k in members && Eligible(k, members[k])
    ensures var a := Decorated(members, cfg)[k];
            a.FunctionAttr? && a.f.Traced? && a.f.wrapped == members[k].f && a.f.config == cfg &&
            FunctionName(a.f) == FunctionName(members[k].f)
  {
  }

  /** Dunder functions and non-function attributes are left exactly as they were. */
  lemma DecoratedLeavesOthers(members: map<string, Attr>, cfg: TraceConfig, k: string)
    requires k in members && !Eligible(k, members[k])
    ensures Decorated(members, cfg)[k] == members[k]
  {
  }

  /** Every wrapper the class decorator installs records the class's name as
      `source_class` and the decorator's own `call_stack`, `dump_args` and `desc`. */
  lemma WrappersCarryClassOptions(className: string, members: map<string, Attr>, callStack: bool, dumpArgs: string,
                                  desc: string, k: string)
    requires k in members && Eligible(k, members[k])
    requires DecorateResult(className, members, callStack, dumpArgs, desc).Ok?
    ensures var a := DecorateResult(className, members, callStack, dumpArgs, desc).value[k];
            a.FunctionAttr? && a.f.Traced? && a.f.wrapped == members[k].f &&
            a.f.config.sourceClass == className && a.f.config.callStack == callStack &&
            TriggerName(a.f.config.trigger) == dumpArgs && a.f.config.desc == desc
  {
  }

  /** An invalid `dump_args` is an error exactly when the class has something to wrap. */
  lemma InvalidTriggerIffEligible(className: string, members: map<string, Attr>, callStack: bool, dumpArgs: string,
                                  desc: string)
    ensures DecorateResult(className, members, callStack, dumpArgs, desc).Err? <==>
            HasEligible(members) && dumpArgs !in ValidTriggers()
    ensures DecorateResult(className, members, callStack, dumpArgs, desc).Err? ==>
            DecorateResult(className, members, callStack, dumpArgs, desc).error == InvalidTriggerMessage(dumpArgs)
  {
  }

  /** A class without eligible entries is returned unchanged, whatever the options. */
  lemma NothingEligibleNothingChanges(className: string, members: map<string, Attr>, callStack: bool,
                                      dumpArgs: string, desc: string)
    requires !HasEligible(members)
    ensures DecorateResult(className, members, callStack, dumpArgs, desc) == Ok(members)
  {
  }

  /** Decorating an already decorated class wraps its methods a second time: the
      decorator is not idempotent. */
  lemma DecoratingTwiceWrapsTwice(members: map<string, Attr>, cfg: TraceConfig, k: string)
    requires k in members && Eligible(k, members[k])
    ensures Decorated(Decorated(members, cfg), cfg)[k] == FunctionAttr(Traced(Traced(members[k].f, cfg), cfg))
    ensures Decorated(Decorated(members, cfg), cfg) != Decorated(members, cfg)
  {
    var once := Decorated(members, cfg);
    var twice := Decorated(once, cfg);
    assert Eligible(k, once[k]);
    assert twice[k].f.wrapped == once[k].f;
    assert once[k].f < twice[k].f;
  }

  /** With its defaults, `trace_class_methods` wraps with `call_stack` on and `dump_args`
      "on_failure", and never raises. */
  lemma ClassDecoratorDefaults(className: string, members: map<string, Attr>)
    ensures var d := ClassDefaults();
            DecorateResult(className, members, d.callStack, d.dumpArgs, d.desc).Ok?
    ensures var d := ClassDefaults();
            Configure(ClassOptions(className, d.callStack, d.dumpArgs, d.desc)) ==
              Ok(TraceConfig("", className, OnFailure, true))
  {
  }
}

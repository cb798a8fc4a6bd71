/** MCPToolHandler, the interface-based way to write a tool, with its
    default methods, and MCPToolHandlerSupport, the reflective invocation
    those defaults use. A handler is modelled by what its getters return;
    the defaults are functions of the handler's own class. */
module Handlers {
  import opened Wrappers
  import opened Values
  import opened Text
  import opened Exceptions
  import opened Annotations
  import opened Discovery
  import opened Binding
  import opened ToolResults

  /** An MCPToolHandler as its callers see it. `own` is the handler's own
      class (`this.getClass()`); the other fields are what the getters
      return, `None` standing for null. */
  datatype Handler = Handler(
    own: ClassDescriptor,
    toolName: Option<string>,
    toolDescription: Option<string>,
    toolClass: Option<ClassDescriptor>,
    hasInstance: bool)

  /** The default `getToolName()`: the `@MCPTool` name of the handler's class
      when set, else its simple name lower-cased without a trailing "tool". */
  function DefaultToolName(own: ClassDescriptor): (r: string)
    ensures own.tool.Some? && own.tool.value.name != "" ==> r == own.tool.value.name
    ensures (own.tool.None? || own.tool.value.name == "") ==> r == HandlerToolName(own.simpleName)
  {
    if own.tool.Some? && own.tool.value.name != "" then own.tool.value.name else HandlerToolName(own.simpleName)
  }

  /** The default `getToolDescription()`: the `@MCPTool` description, else a
      description naming the class. */
  function DefaultToolDescription(own: ClassDescriptor): string
  {
    if own.tool.Some? then own.tool.value.description else "Tool implementation of " + own.simpleName
  }

  /** A handler that overrides none of the defaults. */
  function DefaultHandler(own: ClassDescriptor): (h: Handler)
    ensures h.toolClass == Some(own) && h.hasInstance
  {
    Handler(own, Some(DefaultToolName(own)), Some(DefaultToolDescription(own)), Some(own), true)
  }

  /** `s == null || s.trim().isEmpty()` */
  predicate Missing(s: Option<string>)
  {
    s.None? || IsBlank(s.value)
  }

  /** The default `validateTool()`: the first of its four checks that fails,
      as an IllegalStateException. */
  function ValidateTool(h: Handler): (r: Option<JavaException>)
    ensures r.None? <==> !Missing(h.toolName) && !Missing(h.toolDescription) && h.toolClass.Some? && h.hasInstance
    ensures r.Some? ==> r.value.IllegalState?
  {
    if Missing(h.toolName) then Some(IllegalState(Some("Tool name cannot be null or empty")))
    else if Missing(h.toolDescription) then Some(IllegalState(Some("Tool description cannot be null or empty")))
    else if h.toolClass.None? then Some(IllegalState(Some("Tool class cannot be null")))
    else if !h.hasInstance then Some(IllegalState(Some("Tool instance cannot be null")))
    else None
  }

  /** The checks run in order: a missing name is reported whatever else is
      wrong. */
  lemma ValidateNameFirst(h: Handler)
    requires Missing(h.toolName)
    ensures ValidateTool(h) == Some(IllegalState(Some("Tool name cannot be null or empty")))
  {
  }

  /** A handler without `@MCPTool` keeps the fallback description, which is
      never blank, so only its derived name can fail validation: a class
      named just "Tool" (any case) derives the empty name. */
  lemma DefaultHandlerValidation(own: ClassDescriptor)
    requires own.tool.None?
    ensures ValidateTool(DefaultHandler(own)).None? <==> !IsBlank(HandlerToolName(own.simpleName))
  {
    var d := DefaultToolDescription(own);
    assert d[0] == 'T';
  }

  // ------------------------------------------------------ MCPToolHandlerSupport

  /** `getParameterName`: the `@Parameter` name when set, else the reflected
      name. */
  function ParameterName(p: ParamDescriptor): (r: string)
    ensures p.spec.Some? ==> r == p.spec.value.EffectiveName(p.reflectedName)
    ensures p.spec.None? ==> r == p.reflectedName
  {
    if p.spec.Some? && p.spec.value.name != "" then p.spec.value.name else p.reflectedName
  }

  /** What a tool method does when invoked: returns a value, returns a
      ToolResult (represented by its fields at that moment), or throws. */
  datatype Invocation =
    | Returns(value: Value)
    | ReturnsResult(envelope: Envelope)
    | Throws(exception: JavaException)

  /** One slot of `buildParameterArray`: the context for an MCPContext
      parameter, else the map's entry under the parameter's name, as is. */
  function RawSlot(parameters: map<string, Value>, p: ParamDescriptor): Arg
  {
    if p.typ == TContext then ContextArg else ValueArg(Lookup(parameters, ParameterName(p)))
  }

  /** `buildParameterArray` */
  method BuildParameterArray(params: seq<ParamDescriptor>, parameters: map<string, Value>) returns (args: seq<Arg>)
    ensures |args| == |params|
    ensures forall i | 0 <= i < |params| :: args[i] == RawSlot(parameters, params[i])
  {
    var a := new Arg[|params|];
    for i := 0 to |params|
      invariant forall j | 0 <= j < i :: a[j] == RawSlot(parameters, params[j])
    {
      var p := params[i];
      if p.typ == TContext {
        a[i] := ContextArg;
      } else {
        a[i] := ValueArg(Lookup(parameters, ParameterName(p)));
      }
    }
    args := a[..];
  }

  /** Unlike the annotation-driven binding, the reflective path neither
      converts nor validates: a required `@Parameter` that is missing from
      the map is passed as null. */
  lemma RawSlotIgnoresAnnotations(parameters: map<string, Value>, p: ParamDescriptor)
    requires p.typ != TContext && p.spec.Some? && p.spec.value.required
    requires p.spec.value.EffectiveName(p.reflectedName) !in parameters
    ensures RawSlot(parameters, p) == ValueArg(Null)
  {
  }

  /** Whether the call needs the parameter map at all. */
  predicate NeedsParameters(params: seq<ParamDescriptor>)
  {
    exists i | 0 <= i < |params| :: params[i].typ != TContext
  }

  /** `executeToolMethodByReflection`: `Err` is an exception the lookup or
      the call itself throws; `Ok` is what the method did, a `Throws` there
      reaching the caller wrapped in an InvocationTargetException. */
  function ReflectiveCall(h: Handler, methodName: string, parameters: Option<map<string, Value>>,
                          invoke: (MethodDescriptor, seq<Arg>) -> Invocation): Result<Invocation, JavaException>
  {
    if h.toolClass.None? then Err(NullPointer(None))
    else
      var m := FirstMatch(h.toolClass.value.methods, CandidateNamed(methodName));
      if m.None? then Err(IllegalArgument(Some("Method not found: " + methodName)))
      else
        var target := h.toolClass.value.methods[m.value];
        if parameters.None? && NeedsParameters(target.params) then Err(NullPointer(None))
        else if !h.hasInstance then Err(NullPointer(None))
        else
          var args := seq(|target.params|, i requires 0 <= i < |target.params| =>
                            RawSlot(parameters.GetOr(map[]), target.params[i]));
          Ok(invoke(target, args))
  }

  /** The call reaches the method exactly when the class is known, declares
      a candidate of that name, and there is an instance and (if needed) a
      parameter map; the method invoked then has that name. */
  lemma ReflectiveCallReaches(h: Handler, methodName: string, parameters: Option<map<string, Value>>,
                              invoke: (MethodDescriptor, seq<Arg>) -> Invocation)
    ensures ReflectiveCall(h, methodName, parameters, invoke).Ok? <==>
      h.toolClass.Some? && h.hasInstance
      && (exists i | 0 <= i < |h.toolClass.value.methods| ::
            h.toolClass.value.methods[i].name == methodName && h.toolClass.value.methods[i].IsCandidate()
            && (parameters.Some? || !NeedsParameters(h.toolClass.value.methods[i].params))
            && forall j | 0 <= j < i :: !Accepts(CandidateNamed(methodName), h.toolClass.value.methods[j]))
  {
    if h.toolClass.Some? {
      var methods := h.toolClass.value.methods;
      var m := FirstMatch(methods, CandidateNamed(methodName));
      if m.Some? {
        var i := m.value;
        assert methods[i].name == methodName && methods[i].IsCandidate();
      } else {
        forall i | 0 <= i < |methods| ensures !(methods[i].name == methodName && methods[i].IsCandidate()) {
          assert !Accepts(CandidateNamed(methodName), methods[i]);
        }
      }
    }
  }

  /** `executeToolMethodByReflection`, building the argument array with its
      loop. */
  method ExecuteByReflection(h: Handler, methodName: string, parameters: Option<map<string, Value>>,
                             invoke: (MethodDescriptor, seq<Arg>) -> Invocation)
    returns (r: Result<Invocation, JavaException>)
    ensures r == ReflectiveCall(h, methodName, parameters, invoke)
  {
    if h.toolClass.None? {
      return Err(NullPointer(None));
    }
    var found := FindNamedToolMethod(h.toolClass.value.methods, methodName);
    if found.None? {
      return Err(IllegalArgument(Some("Method not found: " + methodName)));
    }
    var target := found.value;
    if parameters.None? && NeedsParameters(target.params) {
      return Err(NullPointer(None));
    }
    var args := BuildParameterArray(target.params, parameters.GetOr(map[]));
    if !h.hasInstance {
      return Err(NullPointer(None));
    }
    assert args == seq(|target.params|, i requires 0 <= i < |target.params| =>
                         RawSlot(parameters.GetOr(map[]), target.params[i]));
    r := Ok(invoke(target, args));
  }
}

/** AnnotatedMCPTool and AnnotatedMCPToolAdapter: a tool verticle whose
    definition and argument binding come from annotations. A tool is either
    a direct subclass, whose own class is scanned and whose own methods are
    invoked, or an adapter around an MCPToolHandler, which scans the
    handler's tool class and invokes its methods on the handler's
    instance. Both keep the found method in `toolMethods` under the tool
    name; they look the method to invoke up by its method name, the subclass
    in `toolMethods` and the adapter in its own `handlerMethods`. */
module AnnotatedTools {
  import opened Wrappers
  import opened Values
  import opened Errors
  import opened Exceptions
  import opened Annotations
  import opened ToolResults
  import opened Binding
  import opened Discovery
  import opened Schema
  import opened Handlers
  import opened Responses

  /** The two kinds of annotated tool. */
  datatype ToolKind = Subclass(cls: ClassDescriptor) | Adapter(handler: Handler)
  {
    /** `getToolName()`: the subclass's `@MCPTool` name or the name derived
        from its class, or the handler's name ("null" when it has none). */
    function ToolName(): string
    {
      match this
      case Subclass(cls) =>
        if cls.tool.Some? && cls.tool.value.name != "" then cls.tool.value.name else DerivedToolName(cls.simpleName)
      case Adapter(h) => h.toolName.GetOr("null")
    }

    /** `getToolDescription()`: a subclass needs `@MCPTool`; an adapter
        passes the handler's description on, null included. */
    function Description(): (r: Result<Value, JavaException>)
      ensures Adapter? ==> r.Ok?
    {
      match this
      case Subclass(cls) =>
        if cls.tool.Some? then Ok(Str(cls.tool.value.description))
        else Err(IllegalState(Some("@MCPTool annotation with description is required")))
      case Adapter(h) => Ok(if h.toolDescription.Some? then Str(h.toolDescription.value) else Null)
    }

    /** `getToolAnnotationSource()`: the class scanned for the tool method. */
    function AnnotationSource(): Option<ClassDescriptor>
    {
      match this
      case Subclass(cls) => Some(cls)
      case Adapter(h) => h.toolClass
    }

    /** `getClass().getSimpleName()` of the tool object itself. */
    function OwnSimpleName(): string
    {
      match this
      case Subclass(cls) => cls.simpleName
      case Adapter(_) => "AnnotatedMCPToolAdapter"
    }

    /** The method `findToolMethod` finds, or the NullPointerException of
        scanning a null class. */
    function Found(): Result<Option<MethodDescriptor>, JavaException>
    {
      match AnnotationSource()
      case None => Err(NullPointer(None))
      case Some(c) => Ok(FirstCandidate(c.methods))
    }

    /** The definition `generateToolDefinition` returns once the method is
        found: name, description and the input schema of that method's
        parameters (an empty schema when there is none). */
    function Definition(name: string, found: Option<MethodDescriptor>): (r: Result<Json, JavaException>)
      ensures r.Ok? ==> r.value.Keys == {"name", "description", "inputSchema"} && r.value["name"] == Str(name)
      ensures r.Err? <==> Description().Err?
    {
      match Description()
      case Err(e) => Err(e)
      case Ok(d) =>
        var params := if found.Some? then found.value.params else [];
        Ok(map["name" := Str(name), "description" := d,
               "inputSchema" := JObject(InputSchema(params, ToolDefinitionGenerator))])
    }
  }

  /** `toolMethods` after `generateToolDefinition` as written: the found
      method is recorded under the tool name only, while `executeToolMethod`
      later looks it up under its method name. */
  function RecordedAsWritten(toolMethods: map<string, MethodDescriptor>, name: string, found: Option<MethodDescriptor>)
    : (r: map<string, MethodDescriptor>)
    ensures found.Some? ==> name in r && r[name] == found.value && r.Keys == toolMethods.Keys + {name}
    ensures found.Some? ==> forall k | k in toolMethods && k != name :: r[k] == toolMethods[k]
    ensures found.None? ==> r == toolMethods
  {
    if found.Some? then toolMethods[name := found.value] else toolMethods
  }

  /** `toolMethods` after `generateToolDefinition`, corrected: the found
      method is recorded under the tool name, by which `handleToolCall`
      finds it, and under its own name, by which `executeToolMethod` looks
      it up. */
  function Recorded(toolMethods: map<string, MethodDescriptor>, name: string, found: Option<MethodDescriptor>)
    : (r: map<string, MethodDescriptor>)
    ensures found.Some? ==> name in r && r[name] == found.value
    ensures found.Some? ==> found.value.name in r && r[found.value.name] == found.value
    ensures found.Some? ==> r.Keys == toolMethods.Keys + {name, found.value.name}
    ensures found.None? ==> r == toolMethods
  {
    if found.Some? then toolMethods[name := found.value][found.value.name := found.value] else toolMethods
  }

  function NoToolMethodMessage(simpleName: string): string
  {
    "No valid tool method found in " + simpleName
      + ". Methods must be annotated with @ToolMethod or have parameters annotated with @Parameter."
  }

  function NoHandlerMethodsMessage(simpleName: string): string
  {
    "No valid tool methods found in " + simpleName
      + ". Methods must be annotated with @ToolMethod or have parameters annotated with @Parameter."
  }

  /** `initializeAnnotationProcessing` from the given `toolMethods`: the
      exception it throws, if any, and the new `toolMethods`. */
  function AnnotationInit(kind: ToolKind, toolMethods: map<string, MethodDescriptor>)
    : (Option<JavaException>, map<string, MethodDescriptor>)
  {
    match kind.Found()
    case Err(e) => (Some(e), toolMethods)
    case Ok(found) =>
      var recorded := RecordedAsWritten(toolMethods, kind.ToolName(), found);
      if kind.Description().Err? then (Some(kind.Description().error), recorded)
      else if kind.ToolName() !in recorded then (Some(IllegalState(Some(NoToolMethodMessage(kind.OwnSimpleName())))), recorded)
      else (None, recorded)
  }

  /** A subclass initialises exactly when it is annotated with `@MCPTool`
      and declares a candidate method, which is then recorded under the
      tool name only, and nothing else. */
  lemma SubclassInitialization(cls: ClassDescriptor)
    ensures var (failure, recorded) := AnnotationInit(Subclass(cls), map[]);
      var name := Subclass(cls).ToolName();
      (failure.None? <==> cls.tool.Some? && FirstCandidate(cls.methods).Some?)
      && (failure.None? ==>
            var m := FirstCandidate(cls.methods).value;
            recorded.Keys == {name} && recorded[name] == m)
      && (cls.tool.Some? && FirstCandidate(cls.methods).None? ==>
            failure == Some(IllegalState(Some(NoToolMethodMessage(cls.simpleName)))))
  {
    var kind := Subclass(cls);
    assert kind.Found() == Ok(FirstCandidate(cls.methods));
    if cls.tool.Some? && FirstCandidate(cls.methods).None? {
      assert RecordedAsWritten(map[], kind.ToolName(), None) == map[];
      assert kind.OwnSimpleName() == cls.simpleName && kind.Description().Ok?;
    }
  }

  // ------------------------------------------------- the adapter's method table

  /** The first pass of `initializeHandlerMethods`: every `@ToolMethod` put
      under its name, a later overload replacing an earlier one. */
  function ToolMethodPass(acc: map<string, MethodDescriptor>, methods: seq<MethodDescriptor>): map<string, MethodDescriptor>
    decreases |methods|
  {
    if methods == [] then acc
    else
      var table := ToolMethodPass(acc, methods[..|methods| - 1]);
      var m := methods[|methods| - 1];
      if m.isToolMethod then table[m.name := m] else table
  }

  /** The second pass: a method with an annotated parameter, put only when
      its name is not taken yet. */
  function ParamPass(acc: map<string, MethodDescriptor>, methods: seq<MethodDescriptor>): map<string, MethodDescriptor>
    decreases |methods|
  {
    if methods == [] then acc
    else
      var table := ParamPass(acc, methods[..|methods| - 1]);
      var m := methods[|methods| - 1];
      if m.name !in table && m.HasParameterAnnotations() then table[m.name := m] else table
  }

  /** `handlerMethods` after both passes. */
  function HandlerTable(acc: map<string, MethodDescriptor>, methods: seq<MethodDescriptor>): map<string, MethodDescriptor>
  {
    ParamPass(ToolMethodPass(acc, methods), methods)
  }

  predicate DeclaresToolMethod(methods: seq<MethodDescriptor>, name: string)
  {
    exists i | 0 <= i < |methods| :: methods[i].isToolMethod && methods[i].name == name
  }

  predicate DeclaresAnnotatedMethod(methods: seq<MethodDescriptor>, name: string)
  {
    exists i | 0 <= i < |methods| :: methods[i].HasParameterAnnotations() && methods[i].name == name
  }

  lemma {:induction false} ToolMethodPassSpec(acc: map<string, MethodDescriptor>, methods: seq<MethodDescriptor>, name: string)
    ensures var t := ToolMethodPass(acc, methods);
      (name in t <==> name in acc || DeclaresToolMethod(methods, name))
      && (DeclaresToolMethod(methods, name) ==> t[name].isToolMethod && t[name].name == name && t[name] in methods)
      && (!DeclaresToolMethod(methods, name) && name in acc ==> t[name] == acc[name])
    decreases |methods|
  {
    if methods != [] {
      var init := methods[..|methods| - 1];
      var m := methods[|methods| - 1];
      ToolMethodPassSpec(acc, init, name);
      assert forall i | 0 <= i < |init| :: init[i] == methods[i];
      var t := ToolMethodPass(acc, init);
      if !(m.isToolMethod && m.name == name) {
        if DeclaresToolMethod(methods, name) {
          var i :| 0 <= i < |methods| && methods[i].isToolMethod && methods[i].name == name;
          assert i < |init|;
          assert t[name] in init;
        }
      }
    }
  }

  lemma {:induction false} ParamPassSpec(acc: map<string, MethodDescriptor>, methods: seq<MethodDescriptor>, name: string)
    ensures var p := ParamPass(acc, methods);
      (name in p <==> name in acc || DeclaresAnnotatedMethod(methods, name))
      && (name in acc ==> p[name] == acc[name])
      && (name in p && name !in acc ==> p[name].HasParameterAnnotations() && p[name].name == name && p[name] in methods)
    decreases |methods|
  {
    if methods != [] {
      var init := methods[..|methods| - 1];
      ParamPassSpec(acc, init, name);
      assert forall i | 0 <= i < |init| :: init[i] == methods[i];
      var p := ParamPass(acc, init);
      if name in p && name !in acc {
        assert p[name] in init;
      }
      if DeclaresAnnotatedMethod(methods, name) && !DeclaresAnnotatedMethod(init, name) {
        assert methods[|methods| - 1].HasParameterAnnotations() && methods[|methods| - 1].name == name;
      }
    }
  }

  /** The adapter's table holds, besides what it held, exactly the names of
      the candidate methods; each new entry is a candidate of that name, and
      a `@ToolMethod` wins over a method that only has annotated
      parameters. */
  lemma HandlerTableSpec(acc: map<string, MethodDescriptor>, methods: seq<MethodDescriptor>, name: string)
    ensures var h := HandlerTable(acc, methods);
      (name in h <==> name in acc || exists i | 0 <= i < |methods| :: methods[i].IsCandidate() && methods[i].name == name)
      && (name in h && name !in acc ==> h[name].IsCandidate() && h[name].name == name && h[name] in methods)
      && (DeclaresToolMethod(methods, name) ==> h[name].isToolMethod && h[name] in methods)
  {
    ToolMethodPassSpec(acc, methods, name);
    ParamPassSpec(ToolMethodPass(acc, methods), methods, name);
    if exists i | 0 <= i < |methods| :: methods[i].IsCandidate() && methods[i].name == name {
      var i :| 0 <= i < |methods| && methods[i].IsCandidate() && methods[i].name == name;
      assert DeclaresToolMethod(methods, name) || DeclaresAnnotatedMethod(methods, name);
    }
  }

  /** An adapter's table is non-empty exactly when the class has a
      candidate, and then it holds the method `findToolMethod` records, by
      that method's name: unlike a subclass, an adapter always reaches a
      method of the recorded one's name. */
  lemma AdapterTableCoversFoundMethod(methods: seq<MethodDescriptor>)
    ensures HandlerTable(map[], methods) != map[] <==> FirstCandidate(methods).Some?
    ensures FirstCandidate(methods).Some? ==>
      var m := FirstCandidate(methods).value;
      m.name in HandlerTable(map[], methods) && HandlerTable(map[], methods)[m.name].name == m.name
  {
    var h := HandlerTable(map[], methods);
    if h != map[] {
      var name :| name in h;
      HandlerTableSpec(map[], methods, name);
    }
    if FirstCandidate(methods).Some? {
      var m := FirstCandidate(methods).value;
      var i :| 0 <= i < |methods| && methods[i] == m;
      HandlerTableSpec(map[], methods, m.name);
    }
  }

  // ----------------------------------------------------------- invocation

  /** The state `onToolInitialized` leaves behind:
      (failure, toolMethods, handlerMethods, initialized). */
  type InitState = (Option<JavaException>, map<string, MethodDescriptor>, map<string, MethodDescriptor>, bool)

  /** The adapter's initialisation once `validateTool` passed: the handler
      table, then annotation processing, and `initialized` set only when
      both succeeded. */
  function AdapterInit(kind: ToolKind, toolClass: ClassDescriptor, toolMethods: map<string, MethodDescriptor>,
                       handlerMethods: map<string, MethodDescriptor>, initialized: bool): InitState
  {
    var table := HandlerTable(handlerMethods, toolClass.methods);
    if table == map[] then (Some(IllegalState(Some(NoHandlerMethodsMessage(toolClass.simpleName)))), toolMethods, table, initialized)
    else
      var (failure, recorded) := AnnotationInit(kind, toolMethods);
      (failure, recorded, table, if failure.None? then true else initialized)
  }

  /** `onToolInitialized()` for either kind of tool. */
  function Initialization(kind: ToolKind, toolMethods: map<string, MethodDescriptor>,
                          handlerMethods: map<string, MethodDescriptor>, initialized: bool): InitState
  {
    if kind.Subclass? then
      var (failure, recorded) := AnnotationInit(kind, toolMethods);
      (failure, recorded, handlerMethods, initialized)
    else
      match ValidateTool(kind.handler)
      case Some(e) => (Some(e), toolMethods, handlerMethods, initialized)
      case None => AdapterInit(kind, kind.handler.toolClass.value, toolMethods, handlerMethods, initialized)
  }

  /** An adapter succeeds exactly when validation, the handler table and
      annotation processing all succeed, and only then becomes initialised
      (unless it already was); a subclass never touches the handler table
      or the flag. */
  lemma InitializationOutcome(kind: ToolKind, toolMethods: map<string, MethodDescriptor>,
                              handlerMethods: map<string, MethodDescriptor>, initialized: bool)
    ensures var (failure, recorded, table, flag) := Initialization(kind, toolMethods, handlerMethods, initialized);
      (kind.Subclass? ==>
         table == handlerMethods && flag == initialized && (failure, recorded) == AnnotationInit(kind, toolMethods))
      && (kind.Adapter? ==>
            (failure.None? <==>
               ValidateTool(kind.handler).None?
               && HandlerTable(handlerMethods, kind.handler.toolClass.value.methods) != map[]
               && AnnotationInit(kind, toolMethods).0.None?)
            && flag == (initialized || failure.None?)
            && (ValidateTool(kind.handler).Some? ==> failure == ValidateTool(kind.handler) && recorded == toolMethods))
  {
    if kind.Adapter? && ValidateTool(kind.handler).None? {
      var table := HandlerTable(handlerMethods, kind.handler.toolClass.value.methods);
      var (failure, recorded) := AnnotationInit(kind, toolMethods);
      assert Initialization(kind, toolMethods, handlerMethods, initialized)
          == AdapterInit(kind, kind.handler.toolClass.value, toolMethods, handlerMethods, initialized);
      if table != map[] {
        assert Initialization(kind, toolMethods, handlerMethods, initialized).0 == failure;
      }
    }
  }

  /** The outer catch clauses of `handleToolCall`, for what the try block
      throws itself: a validation exception is rethrown, an Error is caught
      by neither clause and leaves as it is, and any other exception
      becomes a generic error result. */
  function Failure(rt: Runtime, e: JavaException, m: MethodDescriptor): (r: Result<Json, JavaException>)
    ensures r.Err? <==> e.IsValidation() || !e.IsException()
    ensures r.Err? ==> r.error == e
    ensures r.Ok? ==> r.value == EnvelopeJson(rt, ErrorEnvelope(GenericError(e, m)))
  {
    if e.IsValidation() || !e.IsException() then Err(e) else EnvelopeJsonAsWritten(rt, ErrorEnvelope(GenericError(e, m)))
  }

  /** The `InvocationTargetException` clause of `handleToolCall`, for what
      the tool method threw: an MCPToolException becomes an enhanced error
      result and a validation exception is rethrown. Anything else is cast
      to `Exception` for `processGenericException`; for an Error that cast
      throws a ClassCastException, which leaves `handleToolCall` because a
      catch clause's own exception is not caught by its siblings. */
  function CauseFailure(rt: Runtime, e: JavaException, m: MethodDescriptor): (r: Result<Json, JavaException>)
    ensures e.ToolExc? ==> r == Ok(EnvelopeJson(rt, ErrorEnvelope(EnhancedError(e.te, m))))
    ensures !e.ToolExc? && e.IsException() ==> r == Failure(rt, e, m)
    ensures !e.IsException() ==> r == Err(ClassCast(Some(rt.errorCastMessage(e.ClassName()))))
  {
    if e.ToolExc? then EnvelopeJsonAsWritten(rt, ErrorEnvelope(EnhancedError(e.te, m)))
    else if e.IsValidation() then Err(e)
    else if !e.IsException() then Err(ClassCast(Some(rt.errorCastMessage(e.ClassName()))))
    else EnvelopeJsonAsWritten(rt, ErrorEnvelope(GenericError(e, m)))
  }

  /** `toJsonObject()` inside the try block: a result that does not
      serialise is caught like any other exception, so the reply is then a
      generic error; a result that does serialise is the reply. */
  function Serialised(rt: Runtime, env: Envelope, m: MethodDescriptor): (r: Result<Json, JavaException>)
    ensures r.Ok?
    ensures EnvelopeJsonAsWritten(rt, env).Ok? ==> r == Ok(EnvelopeJson(rt, env))
    ensures EnvelopeJsonAsWritten(rt, env).Err? ==>
      r == Ok(EnvelopeJson(rt, ErrorEnvelope(GenericError(EnvelopeJsonAsWritten(rt, env).error, m))))
  {
    match EnvelopeJsonAsWritten(rt, env)
    case Ok(json) => Ok(json)
    case Err(x) => Failure(rt, x, m)
  }

  /** As written, a tool method that hands back a result whose data is a
      JSON array (or a list the JSON mapper cannot convert) and no explicit
      item is answered with a generic error about the ClassCastException. */
  lemma ListResultAnsweredWithGenericError(rt: Runtime, env: Envelope, m: MethodDescriptor, now: int)
    requires !env.isError && env.content == []
    requires env.data.JArray? || (env.data.Str? && rt.mapFrom(env.data).Err?) || (env.data.Coll? && rt.mapFrom(env.data).Err?)
    ensures Outcome(rt, ReturnsResult(env), m, now).Ok?
    ensures EnvelopeJsonAsWritten(rt, env).Err?
    ensures var e := EnvelopeJsonAsWritten(rt, env).error;
      e.ClassCast? && Outcome(rt, ReturnsResult(env), m, now) == Ok(EnvelopeJson(rt, ErrorEnvelope(GenericError(e, m))))
  {
    ListDataDoesNotSerialise(rt, env);
  }

  /** What the invoked method's behaviour turns into: a returned ToolResult
      is passed on, a returned value is normalised by `processResponse`,
      and a thrown one goes to the `InvocationTargetException` clause. */
  function Outcome(rt: Runtime, inv: Invocation, m: MethodDescriptor, now: int): (r: Result<Json, JavaException>)
    ensures !inv.Throws? ==> r.Ok?
    ensures r.Err? ==> inv.Throws?
    ensures r.Err? && inv.exception.IsException() ==> r.error == inv.exception && inv.exception.IsValidation()
    ensures r.Err? && !inv.exception.IsException() ==> r.error.ClassCast?
  {
    match inv
    case Throws(e) => CauseFailure(rt, e, m)
    case ReturnsResult(env) => Serialised(rt, env, m)
    case Returns(v) =>
      match Response(rt, v, m, now)
      case Ok(env) => Serialised(rt, env, m)
      case Err(e) => Failure(rt, e, m)
  }

  /** `handleToolCall(arguments, context)`: the recorded method is looked
      up by tool name, its arguments bound, the method to invoke looked up
      by method name in `table`, invoked, and every outcome routed. */
  function CallReply(rt: Runtime, name: string, toolMethods: map<string, MethodDescriptor>,
                     table: map<string, MethodDescriptor>, hasInstance: bool, args: Option<map<string, Value>>,
                     invoke: (MethodDescriptor, seq<Arg>) -> Invocation, now: int): (r: Result<Json, JavaException>)
    ensures name !in toolMethods ==> r == Err(ValidationException("No tool method found for: " + name, None))
    ensures r.Err? ==> r.error.IsValidation() || r.error.ClassCast?
  {
    if name !in toolMethods then Err(ValidationException("No tool method found for: " + name, None))
    else
      var m := toolMethods[name];
      match Bind(rt, m.params, args)
      case Err(e) =>
        BindThrowsException(rt, m.params, args);
        Failure(rt, e, m)
      case Ok(slots) =>
        if m.name !in table then Failure(rt, IllegalArgument(Some("Method not found: " + m.name)), m)
        else if !hasInstance then Failure(rt, NullPointer(None), m)
        else Outcome(rt, invoke(table[m.name], slots), m, now)
  }

  /** The Error the invoked tool method throws, if the call gets that far
      and the method throws one. */
  function InvokedError(rt: Runtime, name: string, toolMethods: map<string, MethodDescriptor>,
                        table: map<string, MethodDescriptor>, hasInstance: bool, args: Option<map<string, Value>>,
                        invoke: (MethodDescriptor, seq<Arg>) -> Invocation): (r: Option<JavaException>)
    ensures r.Some? ==> !r.value.IsException()
  {
    if name !in toolMethods then None
    else
      var m := toolMethods[name];
      match Bind(rt, m.params, args)
      case Err(_) => None
      case Ok(slots) =>
        if m.name !in table || !hasInstance then None
        else
          var inv := invoke(table[m.name], slots);
          if inv.Throws? && !inv.exception.IsException() then Some(inv.exception) else None
  }

  /** What leaves `handleToolCall`: validation exceptions, and the
      ClassCastException of the `(Exception) cause` cast, exactly when the
      invoked tool method threw an Error. Every other failure is answered
      with an error result. */
  lemma EscapingExceptions(rt: Runtime, name: string, toolMethods: map<string, MethodDescriptor>,
                           table: map<string, MethodDescriptor>, hasInstance: bool, args: Option<map<string, Value>>,
                           invoke: (MethodDescriptor, seq<Arg>) -> Invocation, now: int)
    ensures var r := CallReply(rt, name, toolMethods, table, hasInstance, args, invoke, now);
      r.Err? && !r.error.IsValidation() <==> InvokedError(rt, name, toolMethods, table, hasInstance, args, invoke).Some?
    ensures var e := InvokedError(rt, name, toolMethods, table, hasInstance, args, invoke);
      e.Some? ==> CallReply(rt, name, toolMethods, table, hasInstance, args, invoke, now)
                  == Err(ClassCast(Some(rt.errorCastMessage(e.value.ClassName()))))
  {
    var r := CallReply(rt, name, toolMethods, table, hasInstance, args, invoke, now);
    var thrown := InvokedError(rt, name, toolMethods, table, hasInstance, args, invoke);
    if name in toolMethods {
      var m := toolMethods[name];
      match Bind(rt, m.params, args)
      case Err(e) =>
        BindThrowsException(rt, m.params, args);
        assert r == Failure(rt, e, m) && thrown.None?;
        assert !(r.Err? && !r.error.IsValidation());
      case Ok(slots) =>
        if m.name !in table {
          assert r == Failure(rt, IllegalArgument(Some("Method not found: " + m.name)), m) && thrown.None?;
          assert !(r.Err? && !r.error.IsValidation());
        } else if !hasInstance {
          assert r == Failure(rt, NullPointer(None), m) && thrown.None?;
          assert !(r.Err? && !r.error.IsValidation());
        } else {
          var inv := invoke(table[m.name], slots);
          assert r == Outcome(rt, inv, m, now);
          assert thrown == (if inv.Throws? && !inv.exception.IsException() then Some(inv.exception) else None);
          InvokedOutcome(rt, inv, m, now);
        }
    }
  }

  /** Once the method is invoked, only its validation exception or the
      cast's ClassCastException for its Error leaves `handleToolCall`. */
  lemma InvokedOutcome(rt: Runtime, inv: Invocation, m: MethodDescriptor, now: int)
    ensures var r := Outcome(rt, inv, m, now);
      r.Err? && !r.error.IsValidation() <==> inv.Throws? && !inv.exception.IsException()
    ensures inv.Throws? && !inv.exception.IsException()
            ==> Outcome(rt, inv, m, now) == Err(ClassCast(Some(rt.errorCastMessage(inv.exception.ClassName()))))
  {
    if inv.Throws? {
      assert Outcome(rt, inv, m, now) == CauseFailure(rt, inv.exception, m);
    }
  }

  /** As written, a subclass whose tool method's name differs from its
      tool name never reaches the method: the lookup by method name fails
      and the "Method not found" exception is answered with a generic
      error, on every call whose arguments bind. */
  lemma SubclassNameMismatch(rt: Runtime, name: string, m: MethodDescriptor, args: Option<map<string, Value>>,
                             invoke: (MethodDescriptor, seq<Arg>) -> Invocation, now: int)
    requires m.name != name && Bind(rt, m.params, args).Ok?
    ensures var recorded := RecordedAsWritten(map[], name, Some(m));
      CallReply(rt, name, recorded, recorded, true, args, invoke, now)
      == Ok(EnvelopeJson(rt, ErrorEnvelope(GenericError(IllegalArgument(Some("Method not found: " + m.name)), m))))
  {
  }

  /** As written, the call only reaches the method when the two names agree. */
  lemma SubclassNamesAgree(rt: Runtime, m: MethodDescriptor, args: Option<map<string, Value>>,
                           invoke: (MethodDescriptor, seq<Arg>) -> Invocation, now: int)
    requires Bind(rt, m.params, args).Ok?
    ensures var recorded := RecordedAsWritten(map[], m.name, Some(m));
      CallReply(rt, m.name, recorded, recorded, true, args, invoke, now)
      == Outcome(rt, invoke(m, Bind(rt, m.params, args).value), m, now)
  {
  }

  /** End to end, as written: once a subclass has initialised from an empty
      table, a call whose arguments bind reaches its tool method exactly
      when the method is named like the tool, and is otherwise answered
      with the generic "Method not found" error. */
  lemma SubclassCallAfterInitialization(rt: Runtime, cls: ClassDescriptor, args: Option<map<string, Value>>,
                                        invoke: (MethodDescriptor, seq<Arg>) -> Invocation, now: int)
    requires AnnotationInit(Subclass(cls), map[]).0.None?
    requires Bind(rt, FirstCandidate(cls.methods).value.params, args).Ok?
    ensures var recorded := AnnotationInit(Subclass(cls), map[]).1;
      var name := Subclass(cls).ToolName();
      var m := FirstCandidate(cls.methods).value;
      CallReply(rt, name, recorded, recorded, true, args, invoke, now)
      == if m.name == name then Outcome(rt, invoke(m, Bind(rt, m.params, args).value), m, now)
         else Ok(EnvelopeJson(rt, ErrorEnvelope(GenericError(IllegalArgument(Some("Method not found: " + m.name)), m))))
  {
    SubclassInitialization(cls);
    var m := FirstCandidate(cls.methods).value;
    var name := Subclass(cls).ToolName();
    if m.name == name {
      SubclassNamesAgree(rt, m, args, invoke, now);
    } else {
      SubclassNameMismatch(rt, name, m, args, invoke, now);
    }
  }

  /** With the corrected table a subclass reaches its tool method whatever
      the tool and method are called: the bound arguments are passed to
      that method and its outcome routed. */
  lemma SubclassReachesMethod(rt: Runtime, name: string, m: MethodDescriptor, args: Option<map<string, Value>>,
                              invoke: (MethodDescriptor, seq<Arg>) -> Invocation, now: int)
    requires Bind(rt, m.params, args).Ok?
    ensures var recorded := Recorded(map[], name, Some(m));
      CallReply(rt, name, recorded, recorded, true, args, invoke, now)
      == Outcome(rt, invoke(m, Bind(rt, m.params, args).value), m, now)
  {
  }

  /** An initialised adapter always reaches a method of the recorded one's
      name, so its only generic "Method not found" answer is impossible. */
  lemma AdapterReachesMethod(rt: Runtime, name: string, methods: seq<MethodDescriptor>, args: Option<map<string, Value>>,
                             invoke: (MethodDescriptor, seq<Arg>) -> Invocation, now: int)
    requires FirstCandidate(methods).Some?
    ensures var m := FirstCandidate(methods).value;
      var table := HandlerTable(map[], methods);
      m.name in table
      && (Bind(rt, m.params, args).Ok? ==>
        CallReply(rt, name, RecordedAsWritten(map[], name, Some(m)), table, true, args, invoke, now)
        == Outcome(rt, invoke(table[m.name], Bind(rt, m.params, args).value), m, now))
  {
    AdapterTableCoversFoundMethod(methods);
  }

  /** A required argument that is missing is rethrown as the binder's
      validation exception. */
  lemma MissingArgumentRethrown(rt: Runtime, name: string, m: MethodDescriptor, table: map<string, MethodDescriptor>,
                                hasInstance: bool, args: map<string, Value>,
                                invoke: (MethodDescriptor, seq<Arg>) -> Invocation, now: int, k: nat)
    requires k < |m.params| && forall j | 0 <= j < k :: Slot(rt, m.params[j], Some(args)).Ok?
    requires m.params[k].typ != TContext && m.params[k].spec.Some? && m.params[k].spec.value.required
    requires m.params[k].spec.value.EffectiveName(m.params[k].reflectedName) !in args
    ensures CallReply(rt, name, map[name := m], table, hasInstance, Some(args), invoke, now)
         == Err(ValidationException(MissingMessage(m.params[k].spec.value.EffectiveName(m.params[k].reflectedName)), None))
  {
    BindMissingRequired(rt, m.params, args, k);
  }

  // ------------------------------------------------------------- the class

  /** An AnnotatedMCPTool subclass or an AnnotatedMCPToolAdapter. */
  class AnnotatedTool {
    const kind: ToolKind
    var toolMethods: map<string, MethodDescriptor>
    var cachedDefinitions: map<string, Json>
    /** the adapter's methods by name */
    var handlerMethods: map<string, MethodDescriptor>
    /** the adapter's `initialized` flag */
    var initialized: bool

    /** A direct subclass, as constructed. */
    constructor OfSubclass(cls: ClassDescriptor)
      ensures kind == Subclass(cls) && toolMethods == map[] && cachedDefinitions == map[]
      ensures handlerMethods == map[] && !initialized
    {
      kind := Subclass(cls);
      toolMethods := map[];
      cachedDefinitions := map[];
      handlerMethods := map[];
      initialized := false;
    }

    /** `new AnnotatedMCPToolAdapter(handler)` for a non-null handler. */
    constructor OfHandler(handler: Handler)
      ensures kind == Adapter(handler) && toolMethods == map[] && cachedDefinitions == map[]
      ensures handlerMethods == map[] && !initialized
    {
      kind := Adapter(handler);
      toolMethods := map[];
      cachedDefinitions := map[];
      handlerMethods := map[];
      initialized := false;
    }

    /** Where `executeToolMethod` looks the method up: `getToolMethod`. */
    function MethodTable(): map<string, MethodDescriptor>
      reads this
    {
      if kind.Subclass? then toolMethods else handlerMethods
    }

    /** `getToolInstance()` is non-null. */
    predicate HasInstance()
    {
      kind.Subclass? || kind.handler.hasInstance
    }

    /** `generateToolDefinition(name)`: records the found method under the
        name before the description is asked for, so a failing description
        still leaves the method recorded. */
    method GenerateToolDefinition(name: string) returns (r: Result<Json, JavaException>)
      modifies this`toolMethods
      ensures kind.Found().Err? ==> r == Err(kind.Found().error) && toolMethods == old(toolMethods)
      ensures kind.Found().Ok? ==>
        toolMethods == RecordedAsWritten(old(toolMethods), name, kind.Found().value) && r == kind.Definition(name, kind.Found().value)
    {
      var source := kind.AnnotationSource();
      if source.None? {
        return Err(NullPointer(None));
      }
      var found := FirstCandidate(source.value.methods);
      if found.Some? {
        toolMethods := toolMethods[name := found.value];
      }
      var schema := BuildInputSchema(if found.Some? then found.value.params else [], ToolDefinitionGenerator);
      var description := kind.Description();
      if description.Err? {
        return Err(description.error);
      }
      r := Ok(map["name" := Str(name), "description" := description.value, "inputSchema" := JObject(schema)]);
    }

    /** `getToolDefinition()`: generated once per name and cached; a failed
        generation caches nothing. */
    method GetToolDefinition() returns (r: Result<Json, JavaException>)
      modifies this`toolMethods, this`cachedDefinitions
      ensures var name := kind.ToolName();
        if name in old(cachedDefinitions) then
          r == Ok(old(cachedDefinitions)[name]) && toolMethods == old(toolMethods) && cachedDefinitions == old(cachedDefinitions)
        else
          (kind.Found().Err? ==> r == Err(kind.Found().error) && toolMethods == old(toolMethods))
          && (kind.Found().Ok? ==>
                r == kind.Definition(name, kind.Found().value)
                && toolMethods == RecordedAsWritten(old(toolMethods), name, kind.Found().value))
          && cachedDefinitions == (if r.Ok? then old(cachedDefinitions)[name := r.value] else old(cachedDefinitions))
    {
      var name := kind.ToolName();
      if name in cachedDefinitions {
        return Ok(cachedDefinitions[name]);
      }
      r := GenerateToolDefinition(name);
      if r.Ok? {
        cachedDefinitions := cachedDefinitions[name := r.value];
      }
    }

    /** The adapter's `initializeHandlerMethods`, after `validateTool` has
        ensured the tool class is known: two passes over its declared
        methods, then a check that something was found. */
    method InitializeHandlerMethods(toolClass: ClassDescriptor) returns (failure: Option<JavaException>)
      modifies this`handlerMethods
      ensures handlerMethods == HandlerTable(old(handlerMethods), toolClass.methods)
      ensures unchanged(this`toolMethods, this`cachedDefinitions, this`initialized)
      ensures failure.None? <==> handlerMethods != map[]
      ensures failure.Some? ==> failure == Some(IllegalState(Some(NoHandlerMethodsMessage(toolClass.simpleName))))
    {
      ToolMethodLoop(toolClass.methods);
      ParamLoop(toolClass.methods);
      if handlerMethods == map[] {
        return Some(IllegalState(Some(NoHandlerMethodsMessage(toolClass.simpleName))));
      }
      return None;
    }

    /** The first loop of `initializeHandlerMethods`. */
    method ToolMethodLoop(methods: seq<MethodDescriptor>)
      modifies this`handlerMethods
      ensures handlerMethods == ToolMethodPass(old(handlerMethods), methods)
    {
      ghost var start := handlerMethods;
      for i := 0 to |methods|
        invariant handlerMethods == ToolMethodPass(start, methods[..i])
      {
        assert methods[..i + 1][..i] == methods[..i];
        if methods[i].isToolMethod {
          handlerMethods := handlerMethods[methods[i].name := methods[i]];
        }
      }
      assert methods[..|methods|] == methods;
    }

    /** The second loop of `initializeHandlerMethods`. */
    method ParamLoop(methods: seq<MethodDescriptor>)
      modifies this`handlerMethods
      ensures handlerMethods == ParamPass(old(handlerMethods), methods)
    {
      ghost var start := handlerMethods;
      for i := 0 to |methods|
        invariant handlerMethods == ParamPass(start, methods[..i])
      {
        assert methods[..i + 1][..i] == methods[..i];
        if methods[i].name !in handlerMethods && methods[i].HasParameterAnnotations() {
          handlerMethods := handlerMethods[methods[i].name := methods[i]];
        }
      }
      assert methods[..|methods|] == methods;
    }

    /** The shared part of `onToolInitialized`: `initializeAnnotationProcessing`. */
    method InitializeAnnotationProcessing() returns (failure: Option<JavaException>)
      modifies this`toolMethods
      ensures (failure, toolMethods) == AnnotationInit(kind, old(toolMethods))
      ensures unchanged(this`handlerMethods, this`cachedDefinitions, this`initialized)
    {
      var name := kind.ToolName();
      var definition := GenerateToolDefinition(name);
      if definition.Err? {
        return Some(definition.error);
      }
      if name !in toolMethods {
        return Some(IllegalState(Some(NoToolMethodMessage(kind.OwnSimpleName()))));
      }
      return None;
    }

    /** `onToolInitialized()`: a subclass processes its annotations; an
        adapter first validates the handler and builds its method table, and
        sets `initialized` only when everything succeeded. */
    method Initialize() returns (failure: Option<JavaException>)
      modifies this
      ensures (failure, toolMethods, handlerMethods, initialized)
        == Initialization(kind, old(toolMethods), old(handlerMethods), old(initialized))
      ensures unchanged(this`cachedDefinitions)
    {
      if kind.Subclass? {
        failure := InitializeAnnotationProcessing();
        return;
      }
      var invalid := ValidateTool(kind.handler);
      if invalid.Some? {
        return invalid;
      }
      failure := InitializeValidAdapter(kind.handler.toolClass.value);
    }

    /** The adapter's part of `onToolInitialized` once the handler is valid. */
    method InitializeValidAdapter(toolClass: ClassDescriptor) returns (failure: Option<JavaException>)
      modifies this
      requires kind.Adapter? && kind.handler.toolClass == Some(toolClass)
      ensures (failure, toolMethods, handlerMethods, initialized)
        == AdapterInit(kind, toolClass, old(toolMethods), old(handlerMethods), old(initialized))
      ensures unchanged(this`cachedDefinitions)
    {
      failure := InitializeHandlerMethods(toolClass);
      if failure.Some? {
        return;
      }
      failure := InitializeAnnotationProcessing();
      if failure.None? {
        initialized := true;
      }
    }

    /** `handleToolCall(arguments, context)`: binds the recorded method's
        arguments, invokes the method found by `getToolMethod`, and routes
        what happens. `invoke` is the reflective call; `now` the clock. */
    method HandleToolCall(rt: Runtime, args: Option<map<string, Value>>,
                          invoke: (MethodDescriptor, seq<Arg>) -> Invocation, now: int)
      returns (r: Result<Json, JavaException>)
      ensures r == CallReply(rt, kind.ToolName(), toolMethods, MethodTable(), HasInstance(), args, invoke, now)
    {
      var name := kind.ToolName();
      if name !in toolMethods {
        return Err(ValidationException("No tool method found for: " + name, None));
      }
      var m := toolMethods[name];
      var bound := ExtractParameters(rt, m.params, args);
      if bound.Err? {
        r := RouteFailure(rt, bound.error, m);
        return;
      }
      var table := MethodTable();
      if m.name !in table {
        r := RouteFailure(rt, IllegalArgument(Some("Method not found: " + m.name)), m);
        return;
      }
      if !HasInstance() {
        r := RouteFailure(rt, NullPointer(None), m);
        return;
      }
      r := RouteOutcome(rt, invoke(table[m.name], bound.value), m, now);
    }
  }

  /** The try block of `handleToolCall` after the invocation, with its
      catch clauses. */
  method RouteOutcome(rt: Runtime, outcome: Invocation, m: MethodDescriptor, now: int) returns (r: Result<Json, JavaException>)
    ensures r == Outcome(rt, outcome, m, now)
  {
    match outcome {
      case Throws(e) =>
        if e.ToolExc? {
          var result := ProcessException(e.te, m);
          r := result.ToJsonObject(rt);
        } else if e.IsValidation() {
          r := Err(e);
        } else if !e.IsException() {
          // the `(Exception) cause` cast fails
          r := Err(ClassCast(Some(rt.errorCastMessage(e.ClassName()))));
        } else {
          var result := ProcessGenericException(e, m);
          r := result.ToJsonObject(rt);
        }
      case ReturnsResult(env) =>
        // processResponse hands a ToolResult back unchanged
        var json := EnvelopeJsonAsWritten(rt, env);
        if json.Err? {
          r := RouteFailure(rt, json.error, m);
        } else {
          r := json;
        }
      case Returns(v) =>
        r := RouteReturned(rt, v, m, now);
    }
  }

  /** The same for a method that returned a value other than a ToolResult:
      `processResponse`, then `toJsonObject()`. */
  method RouteReturned(rt: Runtime, v: Value, m: MethodDescriptor, now: int) returns (r: Result<Json, JavaException>)
    ensures r == Outcome(rt, Returns(v), m, now)
  {
    ghost var response := Response(rt, v, m, now);
    var processed := ProcessResponse(rt, ReturnedValue(v), m, now);
    if processed.Err? {
      assert response == Err(processed.error);
      r := RouteFailure(rt, processed.error, m);
    } else {
      ghost var env := processed.value.Snapshot();
      assert response == Ok(env);
      var json := processed.value.ToJsonObject(rt);
      assert json == EnvelopeJsonAsWritten(rt, env);
      if json.Err? {
        r := RouteFailure(rt, json.error, m);
      } else {
        r := json;
      }
      assert r == Serialised(rt, env, m);
    }
  }

  /** The outer catch clauses of `handleToolCall`. */
  method RouteFailure(rt: Runtime, e: JavaException, m: MethodDescriptor) returns (r: Result<Json, JavaException>)
    ensures r == Failure(rt, e, m)
  {
    if e.IsValidation() || !e.IsException() {
      return Err(e);
    }
    var result := ProcessGenericException(e, m);
    r := result.ToJsonObject(rt);
  }
}

/** MCPToolFactory: turns a handler or an annotated tool into an
    AnnotatedMCPTool, and classifies tool implementations. */
module Factory {
  import opened Wrappers
  import opened Exceptions
  import opened Handlers
  import opened AnnotatedTools

  /** A tool implementation as the factory inspects it: its class name, its
      MCPToolHandler view if it implements that interface, and itself as an
      AnnotatedMCPTool if it is one. A class may be both. */
  datatype Implementation = Implementation(
    className: string,
    asHandler: Option<Handler>,
    asTool: Option<AnnotatedTool>)

  /** `isValidToolImplementation(obj)`; null is not valid. */
  predicate IsValidToolImplementation(obj: Option<Implementation>)
  {
    obj.Some? && (obj.value.asHandler.Some? || obj.value.asTool.Some?)
  }

  /** `getToolType(obj)`: the handler view is checked first. */
  function ToolType(obj: Option<Implementation>): (r: string)
    ensures r == "Unknown tool type" <==> !IsValidToolImplementation(obj)
  {
    if obj.Some? && obj.value.asHandler.Some? then "Interface-based tool (MCPToolHandler)"
    else if obj.Some? && obj.value.asTool.Some? then "Inheritance-based tool (AnnotatedMCPTool)"
    else "Unknown tool type"
  }

  /** The exception `createTool(Object)` throws, if any. */
  function CreationFailure(obj: Option<Implementation>): (r: Option<JavaException>)
    ensures r.Some? ==> r.value.IllegalArgument?
  {
    if obj.None? then Some(IllegalArgument(Some("Tool implementation cannot be null")))
    else if obj.value.asHandler.Some? || obj.value.asTool.Some? then None
    else Some(IllegalArgument(Some("Tool implementation must be either MCPToolHandler or AnnotatedMCPTool, got: "
                                   + obj.value.className)))
  }

  /** `createTool` succeeds on exactly the implementations
      `isValidToolImplementation` accepts, and `getToolType` names a known
      kind for exactly those. */
  lemma CreationAgreesWithValidity(obj: Option<Implementation>)
    ensures CreationFailure(obj).None? <==> IsValidToolImplementation(obj)
    ensures CreationFailure(obj).None? <==> ToolType(obj) != "Unknown tool type"
  {
  }

  /** `createTool(MCPToolHandler)`: a new adapter around the handler. */
  method CreateFromHandler(handler: Option<Handler>) returns (r: Result<AnnotatedTool, JavaException>)
    ensures handler.None? <==> r.Err?
    ensures handler.None? ==> r == Err(IllegalArgument(Some("MCPToolHandler cannot be null")))
    ensures handler.Some? ==> fresh(r.value) && r.value.kind == Adapter(handler.value)
    ensures handler.Some? ==> r.value.toolMethods == map[] && r.value.handlerMethods == map[] && !r.value.initialized
  {
    if handler.None? {
      return Err(IllegalArgument(Some("MCPToolHandler cannot be null")));
    }
    var adapter := new AnnotatedTool.OfHandler(handler.value);
    r := Ok(adapter);
  }

  /** `createTool(AnnotatedMCPTool)`: the tool itself. */
  method CreateFromTool(tool: Option<AnnotatedTool>) returns (r: Result<AnnotatedTool, JavaException>)
    ensures tool.None? ==> r == Err(IllegalArgument(Some("AnnotatedMCPTool cannot be null")))
    ensures tool.Some? ==> r == Ok(tool.value)
  {
    if tool.None? {
      return Err(IllegalArgument(Some("AnnotatedMCPTool cannot be null")));
    }
    r := Ok(tool.value);
  }

  /** `createTool(Object)`: a handler is adapted even when it is also an
      annotated tool; an annotated tool is returned as it is. */
  method CreateTool(obj: Option<Implementation>) returns (r: Result<AnnotatedTool, JavaException>)
    ensures r.Err? <==> CreationFailure(obj).Some?
    ensures r.Err? ==> r.error == CreationFailure(obj).value
    ensures r.Ok? && obj.value.asHandler.Some? ==> fresh(r.value) && r.value.kind == Adapter(obj.value.asHandler.value)
    ensures r.Ok? && obj.value.asHandler.None? ==> r.value == obj.value.asTool.value
  {
    if obj.None? {
      return Err(IllegalArgument(Some("Tool implementation cannot be null")));
    }
    var o := obj.value;
    if o.asHandler.Some? {
      r := CreateFromHandler(o.asHandler);
    } else if o.asTool.Some? {
      r := CreateFromTool(o.asTool);
    } else {
      r := Err(IllegalArgument(Some("Tool implementation must be either MCPToolHandler or AnnotatedMCPTool, got: "
                                    + o.className)));
    }
  }
}

/** MCPTool, the verticle base class of hand-written tools: the request
    context it builds, its argument helpers, its response constructors and
    the reply `handleMessage` sends for each outcome of a call. The event
    bus and the logging calls themselves are not modelled. */
module ToolBase {
  import opened Wrappers
  import opened Values
  import opened Text
  import opened Exceptions
  import opened JsonAccess
  import opened Context

  type Json = map<string, Value>

  /** The ToolEventLogger a verticle holds: the no-op logger, or one the
      framework installed (told apart by an identity). */
  datatype EventLogger = Noop | Installed(id: nat)

  /** An MCPTool verticle: its tool name and its logger. */
  class ToolVerticle {
    const toolName: string
    var logger: EventLogger

    constructor (toolName: string)
      ensures this.toolName == toolName && logger == Noop
    {
      this.toolName := toolName;
      logger := Noop;
    }

    /** `setEventLogger(l)`: null installs the no-op logger. */
    method SetEventLogger(l: Option<EventLogger>)
      modifies this
      ensures logger == l.GetOr(Noop)
    {
      logger := if l.Some? then l.value else Noop;
    }

    /** The event-bus address `start` registers. */
    function Address(): (r: string)
      ensures r == ToolAddress(toolName)
    {
      "tools." + toolName
    }
  }

  /** "tools.<name>" */
  function ToolAddress(name: string): (r: string)
    ensures |r| == 6 + |name| && r[6..] == name
  {
    "tools." + name
  }

  /** Distinct tool names listen on distinct addresses. */
  lemma ToolAddressInjective(a: string, b: string)
    requires ToolAddress(a) == ToolAddress(b)
    ensures a == b
  {
    assert a == ToolAddress(a)[6..];
  }

  // ---------------------------------------------------------- request context

  /** `createContextFromRequest(request)`: each of the seven request fields
      is copied only when its key is present; "streaming" is read with
      `getBoolean(key, false)` and unboxed, "metadata" with
      `getJsonObject(key, {})`. The attribute map stays empty, so `build`
      cannot fail; a mistyped or null "streaming" and a mistyped "metadata"
      throw. */
  function RequestContext(rt: Runtime, request: Json, now: int): (r: Result<Context, JavaException>)
  {
    var streaming := if "streaming" in request then GetBooleanOr(rt, request, "streaming", false) else Ok(Some(false));
    if streaming.Err? then Err(streaming.error)
    else if streaming.value.None? then Err(NullPointer(None))
    else
      var metadata := GetJsonObjectOr(rt, request, "metadata", map[]);
      if metadata.Err? then Err(metadata.error)
      else Ok(CopiedFields(rt, request, now).(metadata := metadata.value.GetOr(map[]), streaming := streaming.value.value))
  }

  /** The builder's fields once the present request keys are copied. */
  function CopiedFields(rt: Runtime, request: Json, now: int): Context
  {
    Context(
      if "correlationId" in request then GetString(rt, request, "correlationId") else None,
      if "mcpId" in request then GetString(rt, request, "mcpId") else None,
      if "sessionId" in request then GetString(rt, request, "sessionId") else None,
      if "method" in request then GetString(rt, request, "method") else None,
      if "requestId" in request then GetValue(request, "requestId") else Null,
      map[], map[], now,
      if "clientAddress" in request then GetString(rt, request, "clientAddress") else None,
      false)
  }

  /** The context carries exactly the request's string fields, absent keys
      leaving them unset and a missing "metadata" giving an empty map; it
      fails only on a "streaming" that is not a boolean or a "metadata"
      that is not an object. */
  lemma RequestContextFields(rt: Runtime, request: Json, now: int)
    ensures RequestContext(rt, request, now).Ok? <==>
      ("streaming" !in request || request["streaming"].Bool?)
      && ("metadata" !in request || request["metadata"] == Null || request["metadata"].JObject? || request["metadata"].Dict?)
    ensures var r := RequestContext(rt, request, now);
      r.Ok? ==>
        && r.value.Valid() && r.value.attributes == map[] && r.value.startTime == now
        && (forall key | key in {"correlationId", "mcpId", "sessionId", "method", "clientAddress"} && key !in request ::
              Field(r.value, key) == None)
        && (forall key | key in {"correlationId", "mcpId", "sessionId", "method", "clientAddress"} && key in request && request[key].Str? ::
              Field(r.value, key) == Some(request[key].s))
        && ("requestId" !in request ==> r.value.requestId == Null)
        && ("streaming" !in request ==> !r.value.streaming)
        && ("streaming" in request ==> r.value.streaming == request["streaming"].b)
        && ("metadata" !in request ==> r.value.metadata == map[])
        && ("metadata" in request && request["metadata"].JObject? ==> r.value.metadata == request["metadata"].fields)
  {
  }

  /** The context field a request key fills. */
  function Field(c: Context, key: string): Option<string>
  {
    if key == "correlationId" then c.correlationId
    else if key == "mcpId" then c.mcpId
    else if key == "sessionId" then c.sessionId
    else if key == "method" then c.rpcMethod
    else c.clientAddress
  }

  /** The six `if (request.containsKey(..))` copies into the builder. */
  method CopyPresentFields(b: ContextBuilder, rt: Runtime, request: Json, ghost now: int)
    requires b.State() == NewDraft(now)
    modifies b
    ensures b.State() == CopiedFields(rt, request, now)
  {
    ghost var c := CopiedFields(rt, request, now);
    if "correlationId" in request {
      b.SetCorrelationId(GetString(rt, request, "correlationId"));
    }
    if "mcpId" in request {
      b.SetMcpId(GetString(rt, request, "mcpId"));
    }
    if "sessionId" in request {
      b.SetSessionId(GetString(rt, request, "sessionId"));
    }
    assert b.State() == NewDraft(now).(correlationId := c.correlationId, mcpId := c.mcpId, sessionId := c.sessionId);
    if "method" in request {
      b.SetMethod(GetString(rt, request, "method"));
    }
    if "requestId" in request {
      b.SetRequestId(GetValue(request, "requestId"));
    }
    if "clientAddress" in request {
      b.SetClientAddress(GetString(rt, request, "clientAddress"));
    }
  }

  /** `createContextFromRequest`, driving a context builder. */
  method CreateContextFromRequest(rt: Runtime, request: Json, now: int) returns (r: Result<Context, JavaException>)
    ensures r == RequestContext(rt, request, now)
  {
    var b := new ContextBuilder(now);
    b.SetStartTime(now);
    CopyPresentFields(b, rt, request, now);
    ghost var copied := CopiedFields(rt, request, now);
    var streaming := false;
    if "streaming" in request {
      var s := GetBooleanOr(rt, request, "streaming", false);
      if s.Err? {
        return Err(s.error);
      }
      if s.value.None? {
        return Err(NullPointer(None));
      }
      streaming := s.value.value;
      b.SetStreaming(streaming);
    }
    assert b.State() == copied.(streaming := streaming);
    var metadata := GetJsonObjectOr(rt, request, "metadata", map[]);
    if metadata.Err? {
      return Err(metadata.error);
    }
    b.SetMetadata(metadata.value);
    ghost var built := copied.(metadata := metadata.value.GetOr(map[]), streaming := streaming);
    assert b.State() == built;
    assert built.Valid();
    assert RequestContext(rt, request, now) == Ok(built);
    r := b.Build();
  }

  // ------------------------------------------------------------- responses

  /** One text content item. */
  function TextContentJson(text: string): Json
  {
    map["type" := Str("text"), "text" := Str(text)]
  }

  /** `createSuccessResponse(text)`: one text item under "content". */
  function SuccessResponse(text: string): (r: Json)
    ensures r.Keys == {"content"} && r["content"] == JArray([JObject(TextContentJson(text))])
  {
    SuccessResponseItems([JObject(TextContentJson(text))])
  }

  /** `createSuccessResponse(items)` */
  function SuccessResponseItems(items: seq<Value>): (r: Json)
    ensures r.Keys == {"content"} && r["content"] == JArray(items)
  {
    map["content" := JArray(items)]
  }

  /** `createErrorResponse(code, message)`: the code is not part of the
      reply, which is a success-shaped text item "Error: <message>". */
  function ErrorResponse(code: int, message: string): (r: Json)
    ensures r == SuccessResponse("Error: " + message)
  {
    map["content" := JArray([JObject(map["type" := Str("text"), "text" := Str("Error: " + message)])])]
  }

  /** Two error responses differ only if their messages do. */
  lemma ErrorResponseIgnoresCode(c1: int, c2: int, m1: string, m2: string)
    ensures ErrorResponse(c1, m1) == ErrorResponse(c2, m2) <==> m1 == m2
  {
    if ErrorResponse(c1, m1) == ErrorResponse(c2, m2) {
      var t1 := ErrorResponse(c1, m1)["content"].items[0].fields["text"].s;
      var t2 := ErrorResponse(c2, m2)["content"].items[0].fields["text"].s;
      assert m1 == t1[7..] && m2 == t2[7..];
    }
  }

  // --------------------------------------------------------- argument helpers

  /** `getRequiredString(arguments, name)`: the `toString()` of the value,
      which must be non-null and not blank. */
  function RequiredString(rt: Runtime, arguments: Json, name: string): (r: Result<string, JavaException>)
    ensures r.Ok? <==> GetString(rt, arguments, name).Some? && !IsBlank(GetString(rt, arguments, name).value)
    ensures r.Ok? ==> r.value == GetString(rt, arguments, name).value
    ensures r.Err? ==> r.error == IllegalArgument(Some("Parameter '" + name + "' is required"))
  {
    var value := GetString(rt, arguments, name);
    if value.None? || IsBlank(value.value) then Err(IllegalArgument(Some("Parameter '" + name + "' is required")))
    else Ok(value.value)
  }

  /** `getOptionalString(arguments, name, default)` */
  function OptionalString(rt: Runtime, arguments: Json, name: string, default: string): string
  {
    var value := GetString(rt, arguments, name);
    if value.Some? && !IsBlank(value.value) then value.value else default
  }

  /** The optional getter returns the default exactly where the required one
      throws, and otherwise the same string. */
  lemma OptionalStringFallsBack(rt: Runtime, arguments: Json, name: string, default: string)
    ensures OptionalString(rt, arguments, name, default)
         == (if RequiredString(rt, arguments, name).Ok? then RequiredString(rt, arguments, name).value else default)
  {
  }

  /** `getRequiredInteger(arguments, name)`: a Number's `intValue()`, else
      `Integer.parseInt` of the value's `toString()`. */
  function RequiredInteger(rt: Runtime, arguments: Json, name: string): (r: Result<int, JavaException>)
    ensures r.Ok? ==> INT_MIN <= r.value <= INT_MAX
    ensures GetValue(arguments, name) == Null ==> r == Err(IllegalArgument(Some("Parameter '" + name + "' is required")))
    ensures r.Err? && GetValue(arguments, name) != Null ==>
      r.error == IllegalArgument(Some("Parameter '" + name + "' must be a valid integer"))
  {
    var value := GetValue(arguments, name);
    if value == Null then Err(IllegalArgument(Some("Parameter '" + name + "' is required")))
    else if value.Num? then Ok(IntValue(value))
    else match ParseInt(JavaString(rt, value))
      case Ok(n) => Ok(n)
      case Err(_) => Err(IllegalArgument(Some("Parameter '" + name + "' must be a valid integer")))
  }

  /** `getOptionalInteger(arguments, name, default)` */
  function OptionalInteger(rt: Runtime, arguments: Json, name: string, default: int): int
  {
    var value := GetValue(arguments, name);
    if value == Null then default
    else if value.Num? then IntValue(value)
    else match ParseInt(JavaString(rt, value))
      case Ok(n) => n
      case Err(_) => default
  }

  /** The optional getter returns the default exactly where the required one
      throws, and otherwise the same number. */
  lemma OptionalIntegerFallsBack(rt: Runtime, arguments: Json, name: string, default: int)
    ensures OptionalInteger(rt, arguments, name, default)
         == (if RequiredInteger(rt, arguments, name).Ok? then RequiredInteger(rt, arguments, name).value else default)
  {
  }

  /** An int sent as a number or as its decimal text reads back as itself. */
  lemma RequiredIntegerReadsBack(rt: Runtime, arguments: Json, name: string, n: int)
    requires INT_MIN <= n <= INT_MAX
    ensures RequiredInteger(rt, arguments[name := Num(IntKind, n)], name) == Ok(n)
    ensures RequiredInteger(rt, arguments[name := Str(IntToString(n))], name) == Ok(n)
  {
    ParseIntToString(n);
  }

  // ----------------------------------------------------------- message reply

  /** `e.getMessage()` as string concatenation renders it. */
  function MessageText(e: JavaException): string
  {
    e.Message().GetOr("null")
  }

  /** The reply to an exception thrown by `validateArguments` or
      `handleToolCall`: an IllegalArgumentException (NumberFormatException
      included) is reported as it is, anything else as a failure of the
      tool. */
  function ExceptionReply(toolName: string, e: JavaException): (r: Json)
    ensures e.IsIllegalArgument() ==> r == SuccessResponse("Error: " + MessageText(e))
    ensures !e.IsIllegalArgument() ==> r == SuccessResponse("Error: " + toolName + " failed: " + MessageText(e))
  {
    assert "Error: " + (toolName + " failed: " + MessageText(e)) == "Error: " + toolName + " failed: " + MessageText(e);
    if e.IsIllegalArgument() then ErrorResponse(INVALID_PARAMS, MessageText(e))
    else ErrorResponse(INTERNAL_ERROR, toolName + " failed: " + MessageText(e))
  }

  /** What `handleMessage` does with a request: `Ok` is the reply it sends,
      `Err` what escapes without a reply: an exception thrown before its
      `try` (reading "arguments" or building the context), or an Error,
      which neither catch clause catches. `validate` is the tool's
      `validateArguments` and `call` its `handleToolCall`; the arguments
      are null when the request maps "arguments" to null. */
  function MessageReply(rt: Runtime, toolName: string, request: Json,
                        validate: Option<Json> -> Option<JavaException>,
                        call: (Option<Json>, Context) -> Result<Option<Json>, JavaException>,
                        now: int): (r: Result<Json, JavaException>)
    ensures GetJsonObjectOr(rt, request, "arguments", map[]).Err? ==> r == Err(GetJsonObjectOr(rt, request, "arguments", map[]).error)
    ensures r.Err? && GetJsonObjectOr(rt, request, "arguments", map[]).Ok? && RequestContext(rt, request, now).Ok?
            ==> !r.error.IsException()
    ensures r.Ok? ==> GetJsonObjectOr(rt, request, "arguments", map[]).Ok? && RequestContext(rt, request, now).Ok?
  {
    var arguments := GetJsonObjectOr(rt, request, "arguments", map[]);
    if arguments.Err? then Err(arguments.error)
    else
      var context := RequestContext(rt, request, now);
      if context.Err? then Err(context.error)
      else
        var rejected := validate(arguments.value);
        if rejected.Some? then Caught(toolName, rejected.value)
        else match call(arguments.value, context.value)
          case Err(e) => Caught(toolName, e)
          case Ok(None) => Ok(SuccessResponse("Tool executed successfully"))
          case Ok(Some(response)) => Ok(response)
  }

  /** The catch clauses of `handleMessage`: an exception is answered, an
      Error escapes. */
  function Caught(toolName: string, e: JavaException): (r: Result<Json, JavaException>)
    ensures r.Ok? <==> e.IsException()
    ensures r.Ok? ==> r.value == ExceptionReply(toolName, e)
    ensures r.Err? ==> r.error == e
  {
    if e.IsException() then Ok(ExceptionReply(toolName, e)) else Err(e)
  }

  /** Whether the tool's validation or call throws an Error. */
  predicate ToolThrowsError(validate: Option<Json> -> Option<JavaException>,
                            call: (Option<Json>, Context) -> Result<Option<Json>, JavaException>,
                            arguments: Option<Json>, context: Context)
  {
    var rejected := validate(arguments);
    if rejected.Some? then !rejected.value.IsException()
    else call(arguments, context).Err? && !call(arguments, context).error.IsException()
  }

  /** A request gets a reply exactly when its arguments and context can be
      read and the tool throws no Error: every exception the tool throws is
      answered, and an Error escapes as it is. */
  lemma MessageRepliesUnlessError(rt: Runtime, toolName: string, request: Json,
                                  validate: Option<Json> -> Option<JavaException>,
                                  call: (Option<Json>, Context) -> Result<Option<Json>, JavaException>,
                                  now: int)
    ensures MessageReply(rt, toolName, request, validate, call, now).Ok? <==>
      GetJsonObjectOr(rt, request, "arguments", map[]).Ok? && RequestContext(rt, request, now).Ok?
      && !ToolThrowsError(validate, call, GetJsonObjectOr(rt, request, "arguments", map[]).value,
                          RequestContext(rt, request, now).value)
  {
  }

  /** A validation exception from the annotation binder is not an
      IllegalArgumentException, so it is reported as a failure of the tool,
      prefixed with the tool's name. */
  lemma BinderValidationReportedAsFailure(rt: Runtime, toolName: string, request: Json,
                                          validate: Option<Json> -> Option<JavaException>,
                                          call: (Option<Json>, Context) -> Result<Option<Json>, JavaException>,
                                          now: int, message: string)
    requires GetJsonObjectOr(rt, request, "arguments", map[]).Ok? && RequestContext(rt, request, now).Ok?
    requires validate(GetJsonObjectOr(rt, request, "arguments", map[]).value).None?
    requires call(GetJsonObjectOr(rt, request, "arguments", map[]).value, RequestContext(rt, request, now).value)
          == Err(ValidationException(message, None))
    ensures MessageReply(rt, toolName, request, validate, call, now)
         == Ok(SuccessResponse("Error: " + toolName + " failed: " + message))
  {
  }

  /** A `getRequired*` failure inside the tool reaches the client as
      "Error: <message>", with no tool-name prefix. */
  lemma HelperFailureReportedVerbatim(rt: Runtime, toolName: string, request: Json,
                                      validate: Option<Json> -> Option<JavaException>,
                                      call: (Option<Json>, Context) -> Result<Option<Json>, JavaException>,
                                      now: int, name: string)
    requires GetJsonObjectOr(rt, request, "arguments", map[]).Ok? && RequestContext(rt, request, now).Ok?
    requires GetJsonObjectOr(rt, request, "arguments", map[]).value == Some(map[])
    requires validate(Some(map[])).None?
    requires call(Some(map[]), RequestContext(rt, request, now).value)
          == Err(RequiredString(rt, map[], name).error)
    ensures MessageReply(rt, toolName, request, validate, call, now)
         == Ok(SuccessResponse("Error: Parameter '" + name + "' is required"))
  {
    var e := RequiredString(rt, map[], name).error;
    assert e == IllegalArgument(Some("Parameter '" + name + "' is required"));
    assert ExceptionReply(toolName, e) == SuccessResponse("Error: " + ("Parameter '" + name + "' is required"));
    RequiredMessageText(name);
  }

  lemma RequiredMessageText(name: string)
    ensures "Error: " + ("Parameter '" + name + "' is required") == "Error: Parameter '" + name + "' is required"
  {
    var a, c := "Parameter '", "' is required";
    assert "Error: " + a == "Error: Parameter '";
    assert "Error: " + (a + name + c) == ("Error: " + a) + name + c;
  }
}

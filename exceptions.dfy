/** The exceptions the SDK throws and routes: the SDK's MCPException
    family and its error-code table, MCPToolException with its copy-on-write
    `with*` methods, and the JDK exceptions the SDK raises or lets through. */
module Exceptions {
  import opened Wrappers
  import opened Values
  import opened Errors

  // ------------------------------------------------------------ MCPErrorCodes

  const PARSE_ERROR: int := -32700
  const INVALID_REQUEST: int := -32600
  const METHOD_NOT_FOUND: int := -32601
  const INVALID_PARAMS: int := -32602
  const INTERNAL_ERROR: int := -32603
  const RESOURCE_NOT_FOUND: int := -32001
  const TOOL_NOT_FOUND: int := -32002
  const PROMPT_NOT_FOUND: int := -32003
  const VALIDATION_ERROR: int := -32004
  const AUTHORIZATION_ERROR: int := -32005
  const RATE_LIMIT_ERROR: int := -32006

  /** The reserved codes are those of section 5.1 of the JSON-RPC 2.0
      specification (all in -32768..-32000), and the application codes are
      pairwise distinct and lie in its server-error range -32099..-32000. */
  lemma ErrorCodeTable()
    ensures [PARSE_ERROR, INVALID_REQUEST, METHOD_NOT_FOUND, INVALID_PARAMS, INTERNAL_ERROR]
         == [-32700, -32600, -32601, -32602, -32603]
    ensures forall c | c in [RESOURCE_NOT_FOUND, TOOL_NOT_FOUND, PROMPT_NOT_FOUND,
                             VALIDATION_ERROR, AUTHORIZATION_ERROR, RATE_LIMIT_ERROR]
              :: -32099 <= c <= -32000
    ensures |{RESOURCE_NOT_FOUND, TOOL_NOT_FOUND, PROMPT_NOT_FOUND,
              VALIDATION_ERROR, AUTHORIZATION_ERROR, RATE_LIMIT_ERROR}| == 6
  {
  }

  // --------------------------------------------------------------- exceptions

  /** Which MCPException class was thrown. */
  datatype MCPKind = BaseKind | ValidationKind | ResourceNotFoundKind | ToolNotFoundKind

  datatype JavaException =
    | IllegalArgument(msg: Option<string>)
      /** a subclass of IllegalArgumentException */
    | NumberFormat(msg: Option<string>)
    | IllegalState(msg: Option<string>)
    | NullPointer(msg: Option<string>)
    | IndexOutOfBounds(msg: Option<string>)
    | ClassCast(msg: Option<string>)
      /** MCPException and its subclasses: unchecked, not IllegalArgumentException */
    | MCPException(kind: MCPKind, errorCode: int, msg: Option<string>, cause: Option<JavaException>)
      /** MCPToolException, a checked exception */
    | ToolExc(te: ToolException)
      /** any other exception class */
    | Other(className: string, msg: Option<string>)
      /** `java.lang.Error` or a subclass (AssertionError, StackOverflowError):
          a Throwable that no `catch (Exception e)` catches */
    | ThrownError(className: string, msg: Option<string>)
  {
    /** `getMessage()` */
    function Message(): Option<string>
    {
      if ToolExc? then Some(te.error.userMessage) else msg
    }

    /** `getClass().getSimpleName()` */
    function ClassName(): string
    {
      match this
      case IllegalArgument(_) => "IllegalArgumentException"
      case NumberFormat(_) => "NumberFormatException"
      case IllegalState(_) => "IllegalStateException"
      case NullPointer(_) => "NullPointerException"
      case IndexOutOfBounds(_) => "ArrayIndexOutOfBoundsException"
      case ClassCast(_) => "ClassCastException"
      case MCPException(k, _, _, _) =>
        (match k
         case BaseKind => "MCPException"
         case ValidationKind => "MCPValidationException"
         case ResourceNotFoundKind => "MCPResourceNotFoundException"
         case ToolNotFoundKind => "MCPToolNotFoundException")
      case ToolExc(_) => "MCPToolException"
      case Other(name, _) => name
      case ThrownError(name, _) => name
    }

    /** `e instanceof Exception`: everything but an Error. */
    predicate IsException()
    {
      !ThrownError?
    }

    /** `e instanceof IllegalArgumentException` */
    predicate IsIllegalArgument()
    {
      IllegalArgument? || NumberFormat?
    }

    /** `e instanceof MCPValidationException` */
    predicate IsValidation()
    {
      MCPException? && kind == ValidationKind
    }
  }

  /** `new MCPException(code, message[, cause])` */
  function NewMCPException(code: int, message: string, cause: Option<JavaException>): JavaException
  {
    MCPException(BaseKind, code, Some(message), cause)
  }

  /** `new MCPValidationException(message[, cause])` */
  function ValidationException(message: string, cause: Option<JavaException>): JavaException
  {
    MCPException(ValidationKind, VALIDATION_ERROR, Some(message), cause)
  }

  /** `new MCPResourceNotFoundException(uri[, cause])` */
  function ResourceNotFound(uri: string, cause: Option<JavaException>): JavaException
  {
    MCPException(ResourceNotFoundKind, RESOURCE_NOT_FOUND, Some("Resource not found: " + uri), cause)
  }

  /** `new MCPToolNotFoundException(name[, cause])` */
  function ToolNotFound(name: string, cause: Option<JavaException>): JavaException
  {
    MCPException(ToolNotFoundKind, TOOL_NOT_FOUND, Some("Tool not found: " + name), cause)
  }

  /** Each exception class keeps the code and message it was built with,
      with or without a cause, and none of them is an
      IllegalArgumentException. */
  lemma MCPExceptionContract(code: int, message: string, name: string, cause: Option<JavaException>)
    ensures NewMCPException(code, message, cause).errorCode == code
    ensures NewMCPException(code, message, cause).Message() == Some(message)
    ensures ValidationException(message, cause).errorCode == VALIDATION_ERROR == -32004
    ensures ValidationException(message, cause).Message() == Some(message)
    ensures ResourceNotFound(name, cause).errorCode == -32001
    ensures ResourceNotFound(name, cause).Message() == Some("Resource not found: " + name)
    ensures ToolNotFound(name, cause).errorCode == -32002
    ensures ToolNotFound(name, cause).Message() == Some("Tool not found: " + name)
    ensures ValidationException(message, cause).cause == cause
    ensures !NewMCPException(code, message, cause).IsIllegalArgument()
    ensures !ValidationException(message, cause).IsIllegalArgument()
    ensures !ResourceNotFound(name, cause).IsIllegalArgument()
    ensures !ToolNotFound(name, cause).IsIllegalArgument()
  {
  }

  /** The two validation codes of the SDK differ: the exception uses the
      application code, the error builder the JSON-RPC "invalid params" code;
      and a missing resource shares its code with a business error. */
  lemma CodeCoincidences(message: string, uri: string)
    ensures ValidationException(message, None).errorCode != Validation(message).errorCode
    ensures Validation(message).errorCode == INVALID_PARAMS
    ensures System(message).errorCode == INTERNAL_ERROR
    ensures ResourceNotFound(uri, None).errorCode == Business(message).errorCode
  {
  }

  // ----------------------------------------------------------- MCPToolException

  /** An MCPToolException: its error and its cause. Every `with*` returns a
      new exception; nothing is ever reassigned. */
  datatype ToolException = ToolException(error: MCPError, cause: Option<JavaException>)
  {
    /** `getMessage()` is the user message, fixed at construction. */
    function Message(): string
    {
      error.userMessage
    }

    /** `rebuildError()`: a builder refilled from the carried error. */
    function Rebuild(): (d: Draft)
      ensures d.Build() == error
    {
      BuildOfRebuild(error);
      Errors.Custom(error.errorType, error.errorCode, error.userMessage)
        .WithTechnicalDetails(error.technicalMessage)
        .WithSuggestedAction(error.suggestedAction)
        .WithSuggestions(error.suggestions)
        .WithContextMap(error.context)
    }

    function WithTechnicalDetails(details: Option<string>): (e: ToolException)
      ensures e.error == error.(technicalMessage := details) && e.cause == cause
    {
      ToolException(Rebuild().WithTechnicalDetails(details).Build(), cause)
    }

    function WithSuggestedAction(action: Option<string>): (e: ToolException)
      ensures e.error == error.(suggestedAction := action) && e.cause == cause
    {
      ToolException(Rebuild().WithSuggestedAction(action).Build(), cause)
    }

    function WithContext(key: string, value: Value): (e: ToolException)
      ensures e.error == error.(context := error.context[key := value]) && e.cause == cause
    {
      ToolException(Rebuild().WithContext(key, value).Build(), cause)
    }

    /** Both `withSuggestions` overloads. */
    function WithSuggestions(more: seq<string>): (e: ToolException)
      ensures e.error == error.(suggestions := error.suggestions + more) && e.cause == cause
    {
      ToolException(Rebuild().WithSuggestions(more).Build(), cause)
    }

    function WithCause(c: JavaException): (e: ToolException)
      ensures e.error == error && e.cause == Some(c)
    {
      ToolException(error, Some(c))
    }

    static function Validation(message: string): ToolException
    {
      ToolException(Errors.Validation(message).Build(), None)
    }

    static function Business(message: string): ToolException
    {
      ToolException(Errors.Business(message).Build(), None)
    }

    static function System(message: string): ToolException
    {
      ToolException(Errors.System(message).Build(), None)
    }

    static function Permission(message: string): ToolException
    {
      ToolException(Errors.Permission(message).Build(), None)
    }

    static function Custom(errorType: string, errorCode: int, message: string): ToolException
    {
      ToolException(Errors.Custom(errorType, errorCode, message).Build(), None)
    }

    static function ValidationWithSuggestions(message: string, suggestions: seq<string>): (e: ToolException)
      ensures e.error.errorType == "validation" && e.error.errorCode == INVALID_PARAMS
      ensures e.Message() == message && e.error.suggestions == suggestions && e.cause == None
    {
      Validation(message).WithSuggestions(suggestions)
    }

    static function BusinessWithAction(message: string, action: string): (e: ToolException)
      ensures e.error.errorType == "business" && e.error.errorCode == -32001
      ensures e.Message() == message && e.error.suggestedAction == Some(action) && e.cause == None
    {
      Business(message).WithSuggestedAction(Some(action))
    }

    /** The technical detail is the cause's own message. */
    static function SystemWithCause(message: string, c: JavaException): (e: ToolException)
      ensures e.error.errorType == "system" && e.error.errorCode == INTERNAL_ERROR
      ensures e.Message() == message && e.error.technicalMessage == c.Message()
      ensures e.cause == Some(c)
    {
      System(message).WithCause(c).WithTechnicalDetails(c.Message())
    }
  }

  /** The kind factories give the kinds and default codes of the MCPError
      factories, with the message as user message and no cause. */
  lemma ToolExceptionFactories(message: string)
    ensures ToolException.Validation(message).error == Validation(message).Build()
    ensures ToolException.Business(message).error.errorCode == -32001
    ensures ToolException.System(message).error.errorCode == -32603
    ensures ToolException.Permission(message).error.errorCode == -32000
    ensures ToolException.Validation(message).Message() == message
    ensures ToolException.Validation(message).cause == None
  {
  }

  /** Chained `with*` calls accumulate: suggestions append in call order and
      earlier details survive later calls. */
  lemma {:induction false} ChainedWithAccumulates(e: ToolException, details: Option<string>, first: seq<string>, second: seq<string>)
    ensures e.WithTechnicalDetails(details).WithSuggestions(first).WithSuggestions(second).error
         == e.error.(technicalMessage := details, suggestions := e.error.suggestions + first + second)
  {
    assert e.error.suggestions + first + second == (e.error.suggestions + first) + second;
  }
}

/** The structured error a tool reports (MCPError.java) and its accumulating
    builder. */
module Errors {
  import opened Wrappers
  import opened Values

  /** An immutable MCPError; `None` stands for a null technical message or
      suggested action. Getters in the source hand out copies of the context
      and suggestions; values here are immutable, so that is implicit. */
  datatype MCPError = MCPError(
    errorType: string,
    errorCode: int,
    userMessage: string,
    technicalMessage: Option<string>,
    suggestedAction: Option<string>,
    context: map<string, Value>,
    suggestions: seq<string>)

  /** The fields of an MCPErrorBuilder at one moment. */
  datatype Draft = Draft(
    errorType: string,
    errorCode: int,
    userMessage: string,
    technicalMessage: Option<string>,
    suggestedAction: Option<string>,
    context: map<string, Value>,
    suggestions: seq<string>)
  {
    function WithTechnicalDetails(details: Option<string>): Draft
    {
      this.(technicalMessage := details)
    }

    function WithSuggestedAction(action: Option<string>): Draft
    {
      this.(suggestedAction := action)
    }

    function WithContext(key: string, value: Value): Draft
    {
      this.(context := context[key := value])
    }

    /** `withContext(Map)`: `putAll`, the argument's entries winning. */
    function WithContextMap(entries: map<string, Value>): Draft
    {
      this.(context := context + entries)
    }

    /** Both `withSuggestions` overloads: `addAll` at the end. */
    function WithSuggestions(more: seq<string>): Draft
    {
      this.(suggestions := suggestions + more)
    }

    /** A fresh builder with the new code, refilled from this one by the
        same `with*` calls the source makes; it differs from this draft in
        the code alone. */
    function WithErrorCode(code: int): (d: Draft)
      ensures d == this.(errorCode := code)
    {
      var d := NewDraft(errorType, code, userMessage)
        .WithTechnicalDetails(technicalMessage)
        .WithSuggestedAction(suggestedAction)
        .WithSuggestions(suggestions)
        .WithContextMap(context);
      assert d.context == context;
      assert d.suggestions == suggestions;
      d
    }

    /** `build()`: the error carries every field of the builder. */
    function Build(): (e: MCPError)
      ensures e.errorType == errorType && e.errorCode == errorCode && e.userMessage == userMessage
      ensures e.technicalMessage == technicalMessage && e.suggestedAction == suggestedAction
      ensures e.context == context && e.suggestions == suggestions
    {
      MCPError(errorType, errorCode, userMessage, technicalMessage, suggestedAction, context, suggestions)
    }
  }

  /** The private builder constructor: no details, empty context and
      suggestions. */
  function NewDraft(errorType: string, errorCode: int, userMessage: string): Draft
  {
    Draft(errorType, errorCode, userMessage, None, None, map[], [])
  }

  function Validation(message: string): Draft { NewDraft("validation", -32602, message) }
  function Business(message: string): Draft { NewDraft("business", -32001, message) }
  function System(message: string): Draft { NewDraft("system", -32603, message) }
  function Permission(message: string): Draft { NewDraft("permission", -32000, message) }
  function Custom(errorType: string, errorCode: int, message: string): Draft
  {
    NewDraft(errorType, errorCode, message)
  }

  /** Rebuilding a draft from a built error (what MCPToolException does
      before each `with*`) gives back exactly that error. */
  lemma BuildOfRebuild(e: MCPError)
    ensures Custom(e.errorType, e.errorCode, e.userMessage)
      .WithTechnicalDetails(e.technicalMessage)
      .WithSuggestedAction(e.suggestedAction)
      .WithSuggestions(e.suggestions)
      .WithContextMap(e.context)
      .Build() == e
  {
    assert map[] + e.context == e.context;
    assert [] + e.suggestions == e.suggestions;
  }

  /** Repeated `withSuggestions` calls accumulate in call order, and the last
      `withTechnicalDetails` / `withSuggestedAction` wins. */
  lemma SuggestionsAccumulate(d: Draft, first: seq<string>, second: seq<string>)
    ensures d.WithSuggestions(first).WithSuggestions(second).suggestions == d.suggestions + first + second
  {
  }

  lemma LastDetailWins(d: Draft, a: Option<string>, b: Option<string>, x: Option<string>, y: Option<string>)
    ensures d.WithTechnicalDetails(a).WithTechnicalDetails(b).technicalMessage == b
    ensures d.WithSuggestedAction(x).WithSuggestedAction(y).suggestedAction == y
  {
  }

  /** `withContext(k, v)` inserts or overwrites one key; `withContext(map)`
      keeps the draft's other keys and takes the argument's values. */
  lemma ContextMerge(d: Draft, entries: map<string, Value>, key: string)
    ensures key in entries ==> d.WithContextMap(entries).context[key] == entries[key]
    ensures key !in entries && key in d.context ==> d.WithContextMap(entries).context[key] == d.context[key]
    ensures d.WithContextMap(entries).context.Keys == d.context.Keys + entries.Keys
  {
  }

  /** MCPError.MCPErrorBuilder: the context map and suggestion list are
      mutated in place by the `with*` methods. */
  class MCPErrorBuilder {
    const errorType: string
    const errorCode: int
    const userMessage: string
    var technicalMessage: Option<string>
    var suggestedAction: Option<string>
    var context: map<string, Value>
    var suggestions: seq<string>

    function State(): Draft
      reads this
    {
      Draft(errorType, errorCode, userMessage, technicalMessage, suggestedAction, context, suggestions)
    }

    constructor (errorType: string, errorCode: int, userMessage: string)
      ensures State() == NewDraft(errorType, errorCode, userMessage)
    {
      this.errorType := errorType;
      this.errorCode := errorCode;
      this.userMessage := userMessage;
      technicalMessage := None;
      suggestedAction := None;
      context := map[];
      suggestions := [];
    }

    static method NewValidation(message: string) returns (b: MCPErrorBuilder)
      ensures fresh(b) && b.State() == Validation(message)
    {
      b := new MCPErrorBuilder("validation", -32602, message);
    }

    static method NewBusiness(message: string) returns (b: MCPErrorBuilder)
      ensures fresh(b) && b.State() == Business(message)
    {
      b := new MCPErrorBuilder("business", -32001, message);
    }

    static method NewSystem(message: string) returns (b: MCPErrorBuilder)
      ensures fresh(b) && b.State() == System(message)
    {
      b := new MCPErrorBuilder("system", -32603, message);
    }

    static method NewPermission(message: string) returns (b: MCPErrorBuilder)
      ensures fresh(b) && b.State() == Permission(message)
    {
      b := new MCPErrorBuilder("permission", -32000, message);
    }

    static method NewCustom(errorType: string, errorCode: int, message: string) returns (b: MCPErrorBuilder)
      ensures fresh(b) && b.State() == Custom(errorType, errorCode, message)
    {
      b := new MCPErrorBuilder(errorType, errorCode, message);
    }

    method WithTechnicalDetails(details: Option<string>)
      modifies this
      ensures State() == old(State()).WithTechnicalDetails(details)
    {
      technicalMessage := details;
    }

    method WithSuggestedAction(action: Option<string>)
      modifies this
      ensures State() == old(State()).WithSuggestedAction(action)
    {
      suggestedAction := action;
    }

    method WithContext(key: string, value: Value)
      modifies this
      ensures State() == old(State()).WithContext(key, value)
    {
      context := context[key := value];
    }

    method WithContextMap(entries: map<string, Value>)
      modifies this
      ensures State() == old(State()).WithContextMap(entries)
    {
      context := context + entries;
    }

    method WithSuggestions(more: seq<string>)
      modifies this
      ensures State() == old(State()).WithSuggestions(more)
    {
      suggestions := suggestions + more;
    }

    /** A new builder with the other code; this builder is left untouched
        (the method has no `modifies` clause). */
    method WithErrorCode(code: int) returns (b: MCPErrorBuilder)
      ensures fresh(b) && b.State() == State().(errorCode := code)
    {
      b := new MCPErrorBuilder(errorType, code, userMessage);
      b.WithTechnicalDetails(technicalMessage);
      b.WithSuggestedAction(suggestedAction);
      b.WithSuggestions(suggestions);
      b.WithContextMap(context);
      assert b.State() == State().WithErrorCode(code);
    }

    method Build() returns (e: MCPError)
      ensures e == State().Build()
    {
      e := MCPError(errorType, errorCode, userMessage, technicalMessage, suggestedAction, context, suggestions);
    }
  }
}

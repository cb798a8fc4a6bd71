/** MCPPrompt, the verticle base class of prompts, and AnnotatedMCPPrompt,
    which takes the prompt's name, description and argument definitions
    from its `@MCPPrompt` annotation. Argument definitions are JSON objects
    with a "name", a "type", an optional "description" and an optional
    boolean "required". */
module Prompts {
  import opened Wrappers
  import opened Values
  import opened Text
  import opened Exceptions
  import opened JsonAccess
  import opened Annotations
  import opened ToolBase

  // ------------------------------------------------------ argument validation

  function MissingArgument(name: string): JavaException
  {
    IllegalArgument(Some("Required argument '" + name + "' is missing"))
  }

  /** What one iteration of `validateArguments` throws, if anything: the
      definition must be an object whose "required" is absent or a boolean;
      a required argument must be a key of the arguments (a key mapped to
      null counts), which must not be null. A definition without a name
      looks up the null key, which no JSON object holds. */
  function DefinitionFailure(rt: Runtime, def: Value, arguments: Option<Json>): (r: Option<JavaException>)
    ensures r.Some? ==> r.value.IsException()
  {
    var d := ArrayGetJsonObject(rt, def);
    if d.Err? then Some(d.error)
    else if d.value.None? then Some(NullPointer(None))
    else
      var fields := d.value.value;
      var name := GetString(rt, fields, "name");
      var required := GetBooleanOr(rt, fields, "required", false);
      if required.Err? then Some(required.error)
      else if required.value.None? then Some(NullPointer(None))
      else if !required.value.value then None
      else if arguments.None? then Some(NullPointer(None))
      else if name.Some? && name.value in arguments.value then None
      else Some(MissingArgument(name.GetOr("null")))
  }

  /** `validateArguments(arguments)`: the first definition that fails. */
  function ValidationFailure(rt: Runtime, defs: seq<Value>, arguments: Option<Json>): (r: Option<JavaException>)
    ensures r.Some? ==> r.value.IsException()
    decreases |defs|
  {
    if defs == [] then None
    else if DefinitionFailure(rt, defs[0], arguments).Some? then DefinitionFailure(rt, defs[0], arguments)
    else ValidationFailure(rt, defs[1..], arguments)
  }

  /** `validateArguments`, looping over the definitions. */
  method ValidateArguments(rt: Runtime, defs: seq<Value>, arguments: Option<Json>) returns (failure: Option<JavaException>)
    ensures failure == ValidationFailure(rt, defs, arguments)
  {
    for i := 0 to |defs|
      invariant ValidationFailure(rt, defs, arguments) == ValidationFailure(rt, defs[i..], arguments)
    {
      assert defs[i..][1..] == defs[i + 1..];
      var d := ArrayGetJsonObject(rt, defs[i]);
      if d.Err? {
        return Some(d.error);
      }
      if d.value.None? {
        return Some(NullPointer(None));
      }
      var argDef := d.value.value;
      var argName := GetString(rt, argDef, "name");
      var required := GetBooleanOr(rt, argDef, "required", false);
      if required.Err? {
        return Some(required.error);
      }
      if required.value.None? {
        return Some(NullPointer(None));
      }
      if required.value.value {
        if arguments.None? {
          return Some(NullPointer(None));
        }
        if !(argName.Some? && argName.value in arguments.value) {
          return Some(MissingArgument(argName.GetOr("null")));
        }
      }
    }
    return None;
  }

  /** A definition as prompts are meant to declare them: an object with a
      string name and, if present, a boolean "required". */
  predicate WellFormed(def: Value)
  {
    def.JObject? && "name" in def.fields && def.fields["name"].Str?
    && ("required" !in def.fields || def.fields["required"].Bool?)
  }

  /** Whether a well-formed definition marks its argument required. */
  predicate IsRequired(def: Value)
    requires WellFormed(def)
  {
    "required" in def.fields && def.fields["required"].b
  }

  function ArgName(def: Value): string
    requires WellFormed(def)
  {
    def.fields["name"].s
  }

  /** Over well-formed definitions, validation rejects exactly the
      arguments that lack a required key, reporting the first such
      definition in order. */
  lemma {:induction false} ValidationFindsFirstMissing(rt: Runtime, defs: seq<Value>, arguments: Json)
    requires forall i | 0 <= i < |defs| :: WellFormed(defs[i])
    ensures ValidationFailure(rt, defs, Some(arguments)).None? <==>
      forall i | 0 <= i < |defs| :: IsRequired(defs[i]) ==> ArgName(defs[i]) in arguments
    ensures ValidationFailure(rt, defs, Some(arguments)).Some? ==>
      exists i | 0 <= i < |defs| ::
        && IsRequired(defs[i]) && ArgName(defs[i]) !in arguments
        && (forall j | 0 <= j < i :: IsRequired(defs[j]) ==> ArgName(defs[j]) in arguments)
        && ValidationFailure(rt, defs, Some(arguments)) == Some(MissingArgument(ArgName(defs[i])))
    decreases |defs|
  {
    if defs != [] {
      var rest := defs[1..];
      assert forall i | 0 <= i < |rest| :: rest[i] == defs[i + 1];
      ValidationFindsFirstMissing(rt, rest, arguments);
      if IsRequired(defs[0]) && ArgName(defs[0]) !in arguments {
        assert ValidationFailure(rt, defs, Some(arguments)) == Some(MissingArgument(ArgName(defs[0])));
      } else {
        assert DefinitionFailure(rt, defs[0], Some(arguments)).None?;
        if ValidationFailure(rt, rest, Some(arguments)).Some? {
          var k :| 0 <= k < |rest| && IsRequired(rest[k]) && ArgName(rest[k]) !in arguments
            && (forall j | 0 <= j < k :: IsRequired(rest[j]) ==> ArgName(rest[j]) in arguments)
            && ValidationFailure(rt, rest, Some(arguments)) == Some(MissingArgument(ArgName(rest[k])));
          assert IsRequired(defs[k + 1]) && ArgName(defs[k + 1]) !in arguments;
        }
      }
    }
  }

  // ------------------------------------------------------- annotation parsing

  /** One "name:type[:description]" entry of `@MCPPrompt(arguments)`: split
      on ':' into at most three parts, dropped when there are fewer than
      two. */
  function ArgumentDef(entry: string): (r: Option<Json>)
    ensures r.Some? ==> r.value.Keys == {"name", "type"} || r.value.Keys == {"name", "type", "description"}
  {
    var parts := SplitLimit(entry, ":", 3);
    if |parts| < 2 then None
    else if |parts| == 3 then Some(map["name" := Str(parts[0]), "type" := Str(parts[1]), "description" := Str(parts[2])])
    else Some(map["name" := Str(parts[0]), "type" := Str(parts[1])])
  }

  /** The definitions `getPromptArguments` builds, in declaration order. */
  function ArgumentDefs(entries: seq<string>): seq<Value>
    decreases |entries|
  {
    if entries == [] then []
    else
      var init := ArgumentDefs(entries[..|entries| - 1]);
      match ArgumentDef(entries[|entries| - 1])
      case Some(def) => init + [JObject(def)]
      case None => init
  }

  /** `getPromptArguments`, appending to a JSON array. */
  method PromptArguments(entries: seq<string>) returns (args: seq<Value>)
    ensures args == ArgumentDefs(entries)
  {
    args := [];
    for i := 0 to |entries|
      invariant args == ArgumentDefs(entries[..i])
    {
      assert entries[..i + 1][..i] == entries[..i];
      var parts := SplitLimit(entries[i], ":", 3);
      if |parts| >= 2 {
        var argDef := map["name" := Str(parts[0]), "type" := Str(parts[1])];
        if |parts| == 3 {
          argDef := argDef["description" := Str(parts[2])];
        }
        args := args + [JObject(argDef)];
      }
    }
    assert entries[..|entries|] == entries;
  }

  /** A piece with no ':' is one part, whatever the limit. */
  lemma {:induction false} SplitWithoutColon(s: string, limit: nat)
    requires limit >= 1 && ':' !in s
    ensures SplitLimit(s, ":", limit) == [s]
    decreases |s|
  {
    if limit > 1 && s != [] {
      assert !(":" <= s) by { assert s[0] != ':'; }
      SplitWithoutColon(s[1..], limit);
      assert [s[0]] + s[1..] == s;
    }
  }

  /** A first piece with no ':' comes off whole. */
  lemma {:induction false} SplitFirstPiece(a: string, rest: string, limit: nat)
    requires limit >= 2 && ':' !in a
    ensures SplitLimit(a + ":" + rest, ":", limit) == [a] + SplitLimit(rest, ":", limit - 1)
    decreases |a|
  {
    var s := a + ":" + rest;
    if a == [] {
      assert s == ":" + rest && s[1..] == rest;
    } else {
      assert !(":" <= s) by { assert s[0] == a[0] != ':'; }
      assert s[1..] == a[1..] + ":" + rest;
      SplitFirstPiece(a[1..], rest, limit);
      assert [a[0]] + a[1..] == a;
    }
  }

  /** Parsing reads back the entries an author writes: name and type
      without ':', and a description that may hold ':' itself. */
  lemma ArgumentDefReadsBack(name: string, typ: string, description: string)
    requires ':' !in name && ':' !in typ
    ensures ArgumentDef(name + ":" + typ + ":" + description)
         == Some(map["name" := Str(name), "type" := Str(typ), "description" := Str(description)])
    ensures ArgumentDef(name + ":" + typ) == Some(map["name" := Str(name), "type" := Str(typ)])
    ensures ArgumentDef(name) == None
  {
    assert name + ":" + typ + ":" + description == name + ":" + (typ + ":" + description);
    SplitFirstPiece(name, typ + ":" + description, 3);
    SplitFirstPiece(typ, description, 2);
    SplitFirstPiece(name, typ, 3);
    SplitWithoutColon(typ, 2);
    SplitWithoutColon(name, 3);
  }

  /** No parsed definition has a "required" key. */
  lemma {:induction false} ArgumentDefsOptional(entries: seq<string>)
    ensures forall i | 0 <= i < |ArgumentDefs(entries)| ::
      ArgumentDefs(entries)[i].JObject? && "required" !in ArgumentDefs(entries)[i].fields
    decreases |entries|
  {
    if entries != [] {
      ArgumentDefsOptional(entries[..|entries| - 1]);
    }
  }

  /** Every argument an `@MCPPrompt` declares is optional: the default
      validation accepts any non-null arguments object. */
  lemma {:induction false} AnnotatedArgumentsNeverRequired(rt: Runtime, defs: seq<Value>, arguments: Json)
    requires forall i | 0 <= i < |defs| :: defs[i].JObject? && "required" !in defs[i].fields
    ensures ValidationFailure(rt, defs, Some(arguments)) == None
    decreases |defs|
  {
    if defs != [] {
      var rest := defs[1..];
      assert forall i | 0 <= i < |rest| :: rest[i] == defs[i + 1];
      AnnotatedArgumentsNeverRequired(rt, rest, arguments);
    }
  }

  /** The two together: an annotated prompt's own definitions never reject. */
  lemma AnnotatedPromptAcceptsAll(rt: Runtime, entries: seq<string>, arguments: Json)
    ensures ValidationFailure(rt, ArgumentDefs(entries), Some(arguments)) == None
  {
    ArgumentDefsOptional(entries);
    AnnotatedArgumentsNeverRequired(rt, ArgumentDefs(entries), arguments);
  }

  // ----------------------------------------------------------------- replies

  /** `createSuccessResponse(description, messages)` */
  function PromptResponse(description: string, messages: seq<Value>): (r: Json)
    ensures r.Keys == {"description", "messages"}
    ensures r["description"] == Str(description) && r["messages"] == JArray(messages)
  {
    map["description" := Str(description), "messages" := JArray(messages)]
  }

  /** `createUserMessage` / `createAssistantMessage`: a role and one text
      content object. */
  function RoleMessage(role: string, text: string): (r: Json)
    ensures r.Keys == {"role", "content"} && r["role"] == Str(role)
    ensures r["content"] == JObject(TextContentJson(text))
  {
    map["role" := Str(role), "content" := JObject(map["type" := Str("text"), "text" := Str(text)])]
  }

  function UserMessage(text: string): Json
  {
    RoleMessage("user", text)
  }

  function AssistantMessage(text: string): Json
  {
    RoleMessage("assistant", text)
  }

  /** User and assistant messages with the same text differ only in role. */
  lemma MessagesDifferInRole(text: string)
    ensures UserMessage(text) != AssistantMessage(text)
    ensures UserMessage(text)["content"] == AssistantMessage(text)["content"]
  {
    assert UserMessage(text)["role"] != AssistantMessage(text)["role"] by {
      assert |"user"| != |"assistant"|;
    }
  }

  /** MCPPrompt's `getOptionalString`: `getString(name, default)`, which
      gives the default only for a missing key (`None` is null). */
  function OptionalString(rt: Runtime, arguments: Json, name: string, default: string): (r: Option<string>)
    ensures name !in arguments ==> r == Some(default)
    ensures name in arguments && arguments[name].Str? ==> r == Some(arguments[name].s)
  {
    GetStringOr(rt, arguments, name, default)
  }

  /** Unlike MCPTool's, the prompt getter keeps a blank value. */
  lemma OptionalStringKeepsBlank(rt: Runtime, arguments: Json, name: string, default: string)
    requires name in arguments && arguments[name].Str? && IsBlank(arguments[name].s)
    ensures OptionalString(rt, arguments, name, default) == Some(arguments[name].s)
    ensures ToolBase.OptionalString(rt, arguments, name, default) == default
  {
  }

  /** What `handleMessage` does with a request, given the definitions
      `getPromptArguments` returns and the prompt's `generatePrompt`: `Err`
      is what escapes without a reply, an exception reading "arguments" or
      an Error, which neither catch clause catches. The default
      `validateArguments` runs first. */
  function PromptReply(rt: Runtime, promptName: string, request: Json, defs: seq<Value>,
                       generate: Option<Json> -> Result<Option<Json>, JavaException>): (r: Result<Json, JavaException>)
    ensures GetJsonObjectOr(rt, request, "arguments", map[]).Err? ==> r == Err(GetJsonObjectOr(rt, request, "arguments", map[]).error)
    ensures r.Err? && GetJsonObjectOr(rt, request, "arguments", map[]).Ok? ==> !r.error.IsException()
  {
    var arguments := GetJsonObjectOr(rt, request, "arguments", map[]);
    if arguments.Err? then Err(arguments.error)
    else
      var failure := ValidationFailure(rt, defs, arguments.value);
      if failure.Some? then Caught(promptName, failure.value)
      else match generate(arguments.value)
        case Err(e) => Caught(promptName, e)
        case Ok(None) => Ok(PromptResponse("Prompt generated successfully", []))
        case Ok(Some(response)) => Ok(response)
  }

  /** A request whose arguments can be read gets a reply exactly when the
      generator, if it is reached, throws no Error: validation failures are
      always answered. */
  lemma PromptRepliesUnlessError(rt: Runtime, promptName: string, request: Json, defs: seq<Value>,
                                 generate: Option<Json> -> Result<Option<Json>, JavaException>)
    requires GetJsonObjectOr(rt, request, "arguments", map[]).Ok?
    ensures var arguments := GetJsonObjectOr(rt, request, "arguments", map[]).value;
      PromptReply(rt, promptName, request, defs, generate).Ok? <==>
        ValidationFailure(rt, defs, arguments).Some? || generate(arguments).Ok? || generate(arguments).error.IsException()
  {
  }

  /** A missing required argument is answered with "Error: Required
      argument '<name>' is missing" and the generator is never consulted. */
  lemma MissingArgumentReply(rt: Runtime, promptName: string, request: Json, defs: seq<Value>,
                             generate: Option<Json> -> Result<Option<Json>, JavaException>, i: nat)
    requires "arguments" in request && request["arguments"].JObject?
    requires forall j | 0 <= j < |defs| :: WellFormed(defs[j])
    requires i < |defs| && IsRequired(defs[i]) && ArgName(defs[i]) !in request["arguments"].fields
    requires forall j | 0 <= j < i :: IsRequired(defs[j]) ==> ArgName(defs[j]) in request["arguments"].fields
    ensures PromptReply(rt, promptName, request, defs, generate)
         == Ok(ToolBase.SuccessResponse("Error: Required argument '" + ArgName(defs[i]) + "' is missing"))
  {
    var arguments := request["arguments"].fields;
    assert GetJsonObjectOr(rt, request, "arguments", map[]) == Ok(Some(arguments));
    var failure := MissingArgument(ArgName(defs[i]));
    assert ValidationFailure(rt, defs, Some(arguments)) == Some(failure) by {
      ValidationFindsFirstMissing(rt, defs, arguments);
      var k :| 0 <= k < |defs| && IsRequired(defs[k]) && ArgName(defs[k]) !in arguments
        && (forall j | 0 <= j < k :: IsRequired(defs[j]) ==> ArgName(defs[j]) in arguments)
        && ValidationFailure(rt, defs, Some(arguments)) == Some(MissingArgument(ArgName(defs[k])));
      assert k == i by {
        if k < i { assert false; }
        if i < k { assert false; }
      }
    }
    MissingArgumentText(promptName, ArgName(defs[i]));
  }

  lemma MissingArgumentText(promptName: string, name: string)
    ensures ExceptionReply(promptName, MissingArgument(name))
         == ToolBase.SuccessResponse("Error: Required argument '" + name + "' is missing")
  {
    var a, c := "Required argument '", "' is missing";
    assert MessageText(MissingArgument(name)) == a + name + c;
    assert "Error: " + a == "Error: Required argument '";
    assert "Error: " + (a + name + c) == ("Error: " + a) + name + c;
  }

  // ------------------------------------------------------- the prompt object

  /** An AnnotatedMCPPrompt: its own class, the annotation `start` reads,
      and its event logger. */
  class AnnotatedPrompt {
    const own: ClassDescriptor
    var annotation: Option<PromptAnnotation>
    var logger: EventLogger

    constructor (own: ClassDescriptor)
      ensures this.own == own && annotation.None? && logger == Noop
    {
      this.own := own;
      annotation := None;
      logger := Noop;
    }

    /** `setEventLogger(l)`: null installs the no-op logger. */
    method SetEventLogger(l: Option<EventLogger>)
      modifies this
      ensures logger == l.GetOr(Noop) && annotation == old(annotation)
    {
      logger := if l.Some? then l.value else Noop;
    }

    /** `start()`: reads the class's `@MCPPrompt`, failing without one. */
    method Start() returns (failure: Option<JavaException>)
      modifies this
      ensures annotation == own.prompt && logger == old(logger)
      ensures failure.Some? <==> own.prompt.None?
      ensures failure.Some? ==> failure.value == IllegalState(Some("AnnotatedMCPPrompt must be annotated with @MCPPrompt"))
    {
      annotation := own.prompt;
      if annotation.None? {
        return Some(IllegalState(Some("AnnotatedMCPPrompt must be annotated with @MCPPrompt")));
      }
      return None;
    }

    /** `getPromptName()`: the annotation's name, a NullPointerException
        before `start` has read it. */
    function PromptName(): (r: Result<string, JavaException>)
      reads this
      ensures r.Ok? <==> annotation.Some?
      ensures r.Ok? ==> r.value == annotation.value.name
    {
      if annotation.None? then Err(NullPointer(None)) else Ok(annotation.value.name)
    }

    /** `getPromptDescription()` */
    function PromptDescription(): (r: Result<string, JavaException>)
      reads this
      ensures r.Ok? <==> annotation.Some?
      ensures r.Ok? ==> r.value == annotation.value.description
    {
      if annotation.None? then Err(NullPointer(None)) else Ok(annotation.value.description)
    }

    /** `getPromptArguments()` */
    function Arguments(): (r: Result<seq<Value>, JavaException>)
      reads this
      ensures r.Ok? <==> annotation.Some?
      ensures r.Ok? ==> r.value == ArgumentDefs(annotation.value.arguments)
    {
      if annotation.None? then Err(NullPointer(None)) else Ok(ArgumentDefs(annotation.value.arguments))
    }

    /** The address `start(Promise)` registers: "prompt.<name>". */
    function Address(): (r: Result<string, JavaException>)
      reads this
      ensures r.Ok? <==> annotation.Some?
      ensures r.Ok? ==> r.value == "prompt." + annotation.value.name
    {
      if annotation.None? then Err(NullPointer(None)) else Ok("prompt." + annotation.value.name)
    }
  }
}

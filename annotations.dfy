/** The annotations the SDK reads, and the reflective view of classes,
    methods and parameters that replaces `java.lang.reflect`: a class is
    described by its simple and qualified names, its superclass chain, its
    declared methods in the order reflection reports them, and its
    class-level annotations. */
module Annotations {
  import opened Wrappers

  /** `@Parameter`. The `double` bounds whose defaults are the infinities are
      `None` when unbounded. */
  datatype ParameterSpec = ParameterSpec(
    name: string,
    description: string,
    required: bool,
    defaultValue: string,
    min: Option<int>,
    max: Option<int>,
    enumValues: seq<string>,
    pattern: string)
  {
    /** The name the argument is looked up under: the annotation's, or the
        reflected parameter name when the annotation leaves it empty. */
    function EffectiveName(reflectedName: string): (r: string)
      ensures name == "" ==> r == reflectedName
      ensures name != "" ==> r == name
    {
      if name == "" then reflectedName else name
    }

    /** An empty `defaultValue` means there is none. */
    predicate HasDefault() { defaultValue != "" }
  }

  /** `@Parameter(description = d)` with every other element at its default. */
  function DefaultParameter(description: string): ParameterSpec
  {
    ParameterSpec("", description, true, "", None, None, [], "")
  }

  /** An annotation that only gives a description is a required parameter
      named after the reflected name, with no default and no constraint. */
  lemma DefaultParameterUnconstrained(description: string, reflectedName: string)
    ensures DefaultParameter(description).required
    ensures DefaultParameter(description).EffectiveName(reflectedName) == reflectedName
    ensures !DefaultParameter(description).HasDefault()
    ensures DefaultParameter(description).min.None? && DefaultParameter(description).max.None?
    ensures DefaultParameter(description).enumValues == [] && DefaultParameter(description).pattern == ""
  {
  }

  const DEFAULT_HIGHLIGHT_FIELDS: seq<string> := ["name", "id", "title", "description"]

  /** `@ToolResponse`. `contentTypes` and `description` are documentation and
      are never read by the response processor. */
  datatype ToolResponseConfig = ToolResponseConfig(
    message: string,
    contentTypes: seq<string>,
    includeMetadata: bool,
    description: string,
    generateSummary: bool,
    summaryTemplate: string,
    highlightFields: seq<string>)

  /** `@ToolResponse` with every element at its default. */
  function DefaultToolResponse(): ToolResponseConfig
  {
    ToolResponseConfig("", [], true, "", true, "", DEFAULT_HIGHLIGHT_FIELDS)
  }

  /** `@MCPTool` */
  datatype ToolAnnotation = ToolAnnotation(
    name: string,
    description: string,
    eventBusAddress: string,
    streaming: bool,
    tags: seq<string>)

  /** `@MCPResource`; `mimeType` defaults to "application/json". */
  datatype ResourceAnnotation = ResourceAnnotation(
    uri: string,
    name: string,
    description: string,
    mimeType: string,
    eventBusAddress: string)

  /** `@MCPPrompt`; each argument is a "name:type[:description]" string. */
  datatype PromptAnnotation = PromptAnnotation(
    name: string,
    description: string,
    eventBusAddress: string,
    tags: seq<string>,
    arguments: seq<string>)

  /** The declared Java type of a parameter. `boxed` distinguishes `Integer`
      from `int` and so on. */
  datatype TypeTag =
    | TString
    | TInt(boxed: bool)
    | TLong(boxed: bool)
    | TDouble(boxed: bool)
    | TFloat(boxed: bool)
    | TBool(boxed: bool)
    | TArray(component: TypeTag)
    | TContext
    | TOther(className: string)

  /** One parameter as reflection reports it. */
  datatype ParamDescriptor = ParamDescriptor(reflectedName: string, typ: TypeTag, spec: Option<ParameterSpec>)

  /** One declared method: its name, whether it carries `@ToolMethod`, its
      parameters in order, its `@ToolResponse` and the simple name of its
      declaring class. */
  datatype MethodDescriptor = MethodDescriptor(
    name: string,
    isToolMethod: bool,
    params: seq<ParamDescriptor>,
    response: Option<ToolResponseConfig>,
    declaringClass: string)
  {
    /** Some parameter carries `@Parameter` (so the method has parameters). */
    predicate HasParameterAnnotations()
    {
      exists i | 0 <= i < |params| :: params[i].spec.Some?
    }

    /** What every finder accepts: `@ToolMethod`, or an annotated parameter. */
    predicate IsCandidate()
    {
      isToolMethod || HasParameterAnnotations()
    }
  }

  /** A class: `superclasses` lists the simple names of its proper
      superclasses, nearest first, ending before `Object`. */
  datatype ClassDescriptor = ClassDescriptor(
    simpleName: string,
    qualifiedName: string,
    superclasses: seq<string>,
    methods: seq<MethodDescriptor>,
    tool: Option<ToolAnnotation>,
    resource: Option<ResourceAnnotation>,
    prompt: Option<PromptAnnotation>)
}

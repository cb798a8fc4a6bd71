/** AnnotationConfigProcessor and MCPConfiguration: registering annotated
    classes as tool, resource and prompt configurations, keyed by tool name,
    resource URI and prompt name. Classpath scanning and schema-file output
    are not modelled; the classes to process are given. */
module Config {
  import opened Wrappers
  import opened Values
  import opened Text
  import opened Annotations
  import opened Content
  import opened Discovery
  import opened Schema

  type Json = map<string, Value>

  /** The three kinds of component. */
  datatype ComponentKind = ToolComponent | ResourceComponent | PromptComponent

  /** A ToolConfiguration, ResourceConfiguration or PromptConfiguration:
      `key` is the name, or the URI for a resource. */
  datatype Component = Component(key: string, className: string, eventBusAddress: string, definition: Json)

  /** The field under which a component's `toJson` puts its key. */
  function KeyField(kind: ComponentKind): string
  {
    if kind == ResourceComponent then "uri" else "name"
  }

  /** The records' `toJson()`. */
  function ComponentJson(kind: ComponentKind, c: Component): (r: Json)
    ensures r.Keys == {KeyField(kind), "className", "eventBusAddress", "definition"}
    ensures r[KeyField(kind)] == Str(c.key) && r["definition"] == JObject(c.definition)
  {
    map[KeyField(kind) := Str(c.key), "className" := Str(c.className),
        "eventBusAddress" := Str(c.eventBusAddress), "definition" := JObject(c.definition)]
  }

  /** The three tables of an MCPConfiguration. */
  datatype Tables = Tables(tools: map<string, Component>, resources: map<string, Component>, prompts: map<string, Component>)
  {
    /** Every entry sits under its own key, as the `add*` methods put it. */
    predicate Keyed()
    {
      (forall k | k in tools :: tools[k].key == k)
      && (forall k | k in resources :: resources[k].key == k)
      && (forall k | k in prompts :: prompts[k].key == k)
    }

    function Add(kind: ComponentKind, c: Component): (t: Tables)
      ensures Keyed() ==> t.Keyed()
    {
      match kind
      case ToolComponent => this.(tools := tools[c.key := c])
      case ResourceComponent => this.(resources := resources[c.key := c])
      case PromptComponent => this.(prompts := prompts[c.key := c])
    }
  }

  /** One table's JSON: each entry's `toJson` under its key. */
  function TableJson(kind: ComponentKind, table: map<string, Component>): (r: Json)
    ensures r.Keys == table.Keys
  {
    map k | k in table :: JObject(ComponentJson(kind, table[k]))
  }

  /** A keyed table's JSON repeats each key inside its entry. */
  lemma TableJsonRepeatsKeys(kind: ComponentKind, table: map<string, Component>)
    requires forall k | k in table :: table[k].key == k
    ensures forall k | k in TableJson(kind, table) ::
      TableJson(kind, table)[k].JObject? && TableJson(kind, table)[k].fields[KeyField(kind)] == Str(k)
  {
  }

  class MCPConfiguration {
    var tools: map<string, Component>
    var resources: map<string, Component>
    var prompts: map<string, Component>

    function State(): Tables
      reads this
    {
      Tables(tools, resources, prompts)
    }

    constructor ()
      ensures State() == Tables(map[], map[], map[])
    {
      tools := map[];
      resources := map[];
      prompts := map[];
    }

    /** `addTool`: replaces any tool of the same name. */
    method AddTool(c: Component)
      modifies this
      ensures State() == old(State()).Add(ToolComponent, c)
    {
      tools := tools[c.key := c];
    }

    /** `addResource`: keyed by URI. */
    method AddResource(c: Component)
      modifies this
      ensures State() == old(State()).Add(ResourceComponent, c)
    {
      resources := resources[c.key := c];
    }

    /** `addPrompt` */
    method AddPrompt(c: Component)
      modifies this
      ensures State() == old(State()).Add(PromptComponent, c)
    {
      prompts := prompts[c.key := c];
    }

    /** `hasComponents()` */
    predicate HasComponents()
      reads this
    {
      tools != map[] || resources != map[] || prompts != map[]
    }

    /** `toJson()` */
    function ToJson(): (r: Json)
      reads this
      ensures r.Keys == {"tools", "resources", "prompts"}
    {
      map["tools" := JObject(TableJson(ToolComponent, tools)),
          "resources" := JObject(TableJson(ResourceComponent, resources)),
          "prompts" := JObject(TableJson(PromptComponent, prompts))]
    }
  }

  /** The configuration has components exactly when its JSON lists one. */
  lemma HasComponentsAgreesWithJson(config: MCPConfiguration)
    ensures config.HasComponents() <==>
      exists key | key in config.ToJson() :: config.ToJson()[key].JObject? && config.ToJson()[key].fields != map[]
  {
    var j := config.ToJson();
    if config.tools != map[] {
      assert j["tools"].fields != map[];
    } else if config.resources != map[] {
      assert j["resources"].fields != map[];
    } else if config.prompts != map[] {
      assert j["prompts"].fields != map[];
    } else {
      assert j["tools"].fields == map[] && j["resources"].fields == map[] && j["prompts"].fields == map[];
    }
  }

  // ---------------------------------------------------- the config processor

  /** The parameters `generateInputSchema` describes: the preferred tool
      method's, or none. */
  function ToolMethodParams(cls: ClassDescriptor): seq<ParamDescriptor>
  {
    match PreferredToolMethod(cls.methods)
    case Some(m) => m.params
    case None => []
  }

  /** `processToolClass`: the `@MCPTool` name or the derived one, the address
      "tools.<name>" unless one is set, and the MCP definition. */
  function ToolComponentOf(cls: ClassDescriptor): (c: Component)
    requires cls.tool.Some?
    ensures cls.tool.value.name == "" ==> c.key == DerivedToolName(cls.simpleName)
    ensures cls.tool.value.name != "" ==> c.key == cls.tool.value.name
    ensures cls.tool.value.eventBusAddress == "" ==> c.eventBusAddress == "tools." + c.key
    ensures cls.tool.value.eventBusAddress != "" ==> c.eventBusAddress == cls.tool.value.eventBusAddress
    ensures c.className == cls.qualifiedName
    ensures c.definition.Keys == {"name", "description", "streaming", "tags", "inputSchema"}
    ensures c.definition["name"] == Str(c.key) && c.definition["description"] == Str(cls.tool.value.description)
    ensures c.definition["streaming"] == Bool(cls.tool.value.streaming)
    ensures c.definition["tags"] == JArray(Strs(cls.tool.value.tags))
    ensures c.definition["inputSchema"] == JObject(InputSchema(ToolMethodParams(cls), ConfigGenerator))
  {
    var a := cls.tool.value;
    var name := if a.name == "" then DerivedToolName(cls.simpleName) else a.name;
    Component(name, cls.qualifiedName,
              if a.eventBusAddress == "" then "tools." + name else a.eventBusAddress,
              map["name" := Str(name), "description" := Str(a.description), "streaming" := Bool(a.streaming),
                  "tags" := JArray(Strs(a.tags)), "inputSchema" := JObject(InputSchema(ToolMethodParams(cls), ConfigGenerator))])
  }

  /** `processResourceClass`: keyed by URI, the name is the simple name
      without "Resource" (case kept), the address is built from the URI
      with every character that is not an ASCII letter or digit replaced by
      '_'. */
  function ResourceComponentOf(cls: ClassDescriptor): (c: Component)
    requires cls.resource.Some?
    ensures c.key == cls.resource.value.uri
    ensures cls.resource.value.eventBusAddress == "" ==> c.eventBusAddress == "resources." + Sanitize(c.key)
    ensures cls.resource.value.eventBusAddress != "" ==> c.eventBusAddress == cls.resource.value.eventBusAddress
    ensures c.className == cls.qualifiedName
    ensures c.definition.Keys == {"uri", "name", "description", "mimeType"}
    ensures cls.resource.value.name == "" ==> c.definition["name"] == Str(Replace(cls.simpleName, "Resource", ""))
    ensures cls.resource.value.name != "" ==> c.definition["name"] == Str(cls.resource.value.name)
    ensures c.definition["uri"] == Str(c.key) && c.definition["description"] == Str(cls.resource.value.description)
    ensures c.definition["mimeType"] == Str(cls.resource.value.mimeType)
  {
    var a := cls.resource.value;
    var name := if a.name == "" then Replace(cls.simpleName, "Resource", "") else a.name;
    Component(a.uri, cls.qualifiedName,
              if a.eventBusAddress == "" then "resources." + Sanitize(a.uri) else a.eventBusAddress,
              map["uri" := Str(a.uri), "name" := Str(name), "description" := Str(a.description),
                  "mimeType" := Str(a.mimeType)])
  }

  /** `processPromptClass`: the name is the lower-cased simple name without
      "prompt", the address "prompt.<name>". */
  function PromptComponentOf(cls: ClassDescriptor): (c: Component)
    requires cls.prompt.Some?
    ensures cls.prompt.value.name == "" ==> c.key == Replace(ToLower(cls.simpleName), "prompt", "")
    ensures cls.prompt.value.name != "" ==> c.key == cls.prompt.value.name
    ensures cls.prompt.value.eventBusAddress == "" ==> c.eventBusAddress == "prompt." + c.key
    ensures cls.prompt.value.eventBusAddress != "" ==> c.eventBusAddress == cls.prompt.value.eventBusAddress
    ensures c.className == cls.qualifiedName
    ensures c.definition.Keys == {"name", "description", "tags"}
    ensures c.definition["name"] == Str(c.key) && c.definition["description"] == Str(cls.prompt.value.description)
    ensures c.definition["tags"] == JArray(Strs(cls.prompt.value.tags))
  {
    var a := cls.prompt.value;
    var name := if a.name == "" then Replace(ToLower(cls.simpleName), "prompt", "") else a.name;
    Component(name, cls.qualifiedName,
              if a.eventBusAddress == "" then "prompt." + name else a.eventBusAddress,
              map["name" := Str(name), "description" := Str(a.description), "tags" := JArray(Strs(a.tags))])
  }

  /** The tables after `processClass`: a class is registered once, as a
      tool if it has `@MCPTool`, else as a resource, else as a prompt. */
  function Processed(t: Tables, cls: ClassDescriptor): Tables
  {
    if cls.tool.Some? then t.Add(ToolComponent, ToolComponentOf(cls))
    else if cls.resource.Some? then t.Add(ResourceComponent, ResourceComponentOf(cls))
    else if cls.prompt.Some? then t.Add(PromptComponent, PromptComponentOf(cls))
    else t
  }

  /** A class is registered in exactly one table, and an unannotated class
      in none. */
  lemma ProcessedRegistersOnce(t: Tables, cls: ClassDescriptor)
    ensures cls.tool.Some? ==> Processed(t, cls).resources == t.resources && Processed(t, cls).prompts == t.prompts
    ensures cls.tool.None? && cls.resource.Some? ==> Processed(t, cls).tools == t.tools && Processed(t, cls).prompts == t.prompts
    ensures cls.tool.None? && cls.resource.None? && cls.prompt.Some? ==>
      Processed(t, cls).tools == t.tools && Processed(t, cls).resources == t.resources
    ensures cls.tool.None? && cls.resource.None? && cls.prompt.None? ==> Processed(t, cls) == t
  {
    if cls.tool.Some? {
      var c := ToolComponentOf(cls);
      assert Processed(t, cls) == t.(tools := t.tools[c.key := c]);
    } else if cls.resource.Some? {
      var c := ResourceComponentOf(cls);
      assert Processed(t, cls) == t.(resources := t.resources[c.key := c]);
    } else if cls.prompt.Some? {
      var c := PromptComponentOf(cls);
      assert Processed(t, cls) == t.(prompts := t.prompts[c.key := c]);
    }
  }

  /** `generateInputSchema(clazz)`: the schema of the preferred tool method's
      parameters, with "string" for unknown types and no defaults. */
  method GenerateInputSchema(cls: ClassDescriptor) returns (schema: Json)
    ensures schema == InputSchema(ToolMethodParams(cls), ConfigGenerator)
  {
    var found := FindPreferredToolMethod(cls.methods);
    schema := BuildInputSchema(if found.Some? then found.value.params else [], ConfigGenerator);
  }

  /** `processClass(clazz, config)` */
  method ProcessClass(cls: ClassDescriptor, config: MCPConfiguration)
    modifies config
    ensures config.State() == Processed(old(config.State()), cls)
  {
    if cls.tool.Some? {
      var a := cls.tool.value;
      var name := if a.name == "" then DerivedToolName(cls.simpleName) else a.name;
      var address := if a.eventBusAddress == "" then "tools." + name else a.eventBusAddress;
      var schema := GenerateInputSchema(cls);
      var definition := map["name" := Str(name), "description" := Str(a.description), "streaming" := Bool(a.streaming),
                            "tags" := JArray(Strs(a.tags)), "inputSchema" := JObject(schema)];
      config.AddTool(Component(name, cls.qualifiedName, address, definition));
    } else if cls.resource.Some? {
      config.AddResource(ResourceComponentOf(cls));
    } else if cls.prompt.Some? {
      config.AddPrompt(PromptComponentOf(cls));
    }
  }

  /** The class names `isSubclassOf` visits: the class, then its
      superclasses up to but excluding Object. */
  function Lineage(cls: ClassDescriptor): seq<string>
  {
    [cls.simpleName] + cls.superclasses
  }

  /** `isSubclassOf(clazz, baseClassName)`: walks up the superclass chain
      comparing simple names. */
  method IsSubclassOf(cls: ClassDescriptor, baseClassName: string) returns (found: bool)
    ensures found <==> baseClassName in Lineage(cls)
  {
    var chain := Lineage(cls);
    var i := 0;
    while i < |chain|
      invariant 0 <= i <= |chain|
      invariant baseClassName !in chain[..i]
    {
      if chain[i] == baseClassName {
        return true;
      }
      assert chain[..i + 1] == chain[..i] + [chain[i]];
      i := i + 1;
    }
    assert chain[..i] == chain;
    return false;
  }

  /** The class-name suffix and base class that `shouldAutoAnnotate`
      expects for each kind. */
  function Convention(kind: ComponentKind): string
  {
    match kind
    case ToolComponent => "Tool"
    case ResourceComponent => "Resource"
    case PromptComponent => "Prompt"
  }

  /** `shouldAutoAnnotate(clazz, annotationType)`: the simple name ends with
      the kind's suffix and some class in its lineage has the base class's
      simple name. */
  predicate ShouldAutoAnnotate(cls: ClassDescriptor, kind: ComponentKind)
  {
    EndsWith(cls.simpleName, Convention(kind)) && ("MCP" + Convention(kind)) in Lineage(cls)
  }

  /** Whether the class carries the annotation of the kind. */
  predicate Annotated(cls: ClassDescriptor, kind: ComponentKind)
  {
    match kind
    case ToolComponent => cls.tool.Some?
    case ResourceComponent => cls.resource.Some?
    case PromptComponent => cls.prompt.Some?
  }

  /** The tables after `discoverInPackage` processes the given classes. */
  function Discovered(t: Tables, classes: seq<ClassDescriptor>, kind: ComponentKind): Tables
    decreases |classes|
  {
    if classes == [] then t
    else
      var before := Discovered(t, classes[..|classes| - 1], kind);
      var cls := classes[|classes| - 1];
      if Annotated(cls, kind) || ShouldAutoAnnotate(cls, kind) then Processed(before, cls) else before
  }

  /** `discoverInPackage` over the classes the scan found. */
  method DiscoverInPackage(classes: seq<ClassDescriptor>, kind: ComponentKind, config: MCPConfiguration)
    modifies config
    ensures config.State() == Discovered(old(config.State()), classes, kind)
  {
    for i := 0 to |classes|
      invariant config.State() == Discovered(old(config.State()), classes[..i], kind)
    {
      assert classes[..i + 1][..i] == classes[..i];
      var cls := classes[i];
      var auto := false;
      if EndsWith(cls.simpleName, Convention(kind)) {
        auto := IsSubclassOf(cls, "MCP" + Convention(kind));
      }
      if Annotated(cls, kind) || auto {
        ProcessClass(cls, config);
      }
    }
    assert classes[..|classes|] == classes;
  }

  /** Auto-detection adds nothing by itself: a class that matches the
      naming convention but carries none of the three annotations is
      passed to `processClass`, which registers nothing. */
  lemma {:induction false} AutoDetectionRegistersNothing(t: Tables, classes: seq<ClassDescriptor>, kind: ComponentKind)
    requires forall i | 0 <= i < |classes| :: classes[i].tool.None? && classes[i].resource.None? && classes[i].prompt.None?
    ensures Discovered(t, classes, kind) == t
    decreases |classes|
  {
    if classes != [] {
      var init := classes[..|classes| - 1];
      assert forall i | 0 <= i < |init| :: init[i] == classes[i];
      AutoDetectionRegistersNothing(t, init, kind);
    }
  }

  /** Processing keeps every table keyed by its entries' own keys. */
  lemma {:induction false} DiscoveredStaysKeyed(t: Tables, classes: seq<ClassDescriptor>, kind: ComponentKind)
    requires t.Keyed()
    ensures Discovered(t, classes, kind).Keyed()
    decreases |classes|
  {
    if classes != [] {
      DiscoveredStaysKeyed(t, classes[..|classes| - 1], kind);
    }
  }
}

/** The JSON Schema `inputSchema` generated from a tool method's
    `@Parameter` parameters. AnnotatedMCPTool and AnnotationConfigProcessor
    each generate one; they differ in the type given to unknown classes and
    in whether the default value is emitted. */
module Schema {
  import opened Wrappers
  import opened Values
  import opened Annotations
  import opened Content

  /** Which of the two generators. */
  datatype Generator = ToolDefinitionGenerator | ConfigGenerator

  /** `addTypeInfo` / `addTypeToSchema`: the JSON Schema type of a Java
      parameter type. */
  function JsonType(typ: TypeTag, g: Generator): string
  {
    match typ
    case TString => "string"
    case TInt(_) => "integer"
    case TLong(_) => "integer"
    case TDouble(_) => "number"
    case TFloat(_) => "number"
    case TBool(_) => "boolean"
    case TArray(_) => "array"
    case _ => if g == ToolDefinitionGenerator then "object" else "string"
  }

  /** The generators agree on every type except the classes they do not
      know, which are "object" to one and "string" to the other. */
  lemma JsonTypeFallbacks(typ: TypeTag)
    ensures JsonType(typ, ToolDefinitionGenerator) != JsonType(typ, ConfigGenerator) <==> typ.TOther? || typ.TContext?
    ensures typ.TOther? ==> JsonType(typ, ToolDefinitionGenerator) == "object" && JsonType(typ, ConfigGenerator) == "string"
  {
  }

  predicate IsAnnotated(p: ParamDescriptor)
  {
    p.spec.Some?
  }

  /** The property name of an annotated parameter. */
  function ParamName(p: ParamDescriptor): string
    requires IsAnnotated(p)
  {
    p.spec.value.EffectiveName(p.reflectedName)
  }

  /** One parameter's schema: its description and type, and each
      constraint only when the annotation sets it. */
  function ParamSchema(p: ParamDescriptor, g: Generator): map<string, Value>
    requires IsAnnotated(p)
  {
    var spec := p.spec.value;
    var j0 := map["description" := Str(spec.description), "type" := Str(JsonType(p.typ, g))];
    var j1 := PutIf(j0, spec.min.Some?, "minimum", Num(DoubleKind, spec.min.GetOr(0)));
    var j2 := PutIf(j1, spec.max.Some?, "maximum", Num(DoubleKind, spec.max.GetOr(0)));
    var j3 := PutIf(j2, spec.enumValues != [], "enum", JArray(Strs(spec.enumValues)));
    var j4 := PutIf(j3, spec.pattern != "", "pattern", Str(spec.pattern));
    PutIf(j4, g == ToolDefinitionGenerator && spec.HasDefault(), "default", Str(spec.defaultValue))
  }

  /** Each constraint key appears exactly when the annotation sets it, with
      the annotation's value; `default` only ever in a tool definition. */
  lemma ParamSchemaKeys(p: ParamDescriptor, g: Generator)
    requires IsAnnotated(p)
    ensures var r := ParamSchema(p, g); var spec := p.spec.value;
      && "description" in r && r["description"] == Str(spec.description)
      && "type" in r && r["type"] == Str(JsonType(p.typ, g))
      && ("minimum" in r <==> spec.min.Some?) && (spec.min.Some? ==> r["minimum"] == Num(DoubleKind, spec.min.value))
      && ("maximum" in r <==> spec.max.Some?) && (spec.max.Some? ==> r["maximum"] == Num(DoubleKind, spec.max.value))
      && ("enum" in r <==> spec.enumValues != []) && (spec.enumValues != [] ==> r["enum"] == JArray(Strs(spec.enumValues)))
      && ("pattern" in r <==> spec.pattern != "") && (spec.pattern != "" ==> r["pattern"] == Str(spec.pattern))
      && ("default" in r <==> g == ToolDefinitionGenerator && spec.HasDefault())
      && ("default" in r ==> r["default"] == Str(spec.defaultValue))
  {
    var spec := p.spec.value;
    var j0 := map["description" := Str(spec.description), "type" := Str(JsonType(p.typ, g))];
    var j1 := PutIf(j0, spec.min.Some?, "minimum", Num(DoubleKind, spec.min.GetOr(0)));
    var j2 := PutIf(j1, spec.max.Some?, "maximum", Num(DoubleKind, spec.max.GetOr(0)));
    var j3 := PutIf(j2, spec.enumValues != [], "enum", JArray(Strs(spec.enumValues)));
    var j4 := PutIf(j3, spec.pattern != "", "pattern", Str(spec.pattern));
    var j5 := PutIf(j4, g == ToolDefinitionGenerator && spec.HasDefault(), "default", Str(spec.defaultValue));
    assert "minimum" !in j0 by {
      assert |"minimum"| != |"description"| && |"minimum"| != |"type"|;
    }
    assert "maximum" !in j1 && "minimum" != "maximum" by {
      assert |"maximum"| != |"description"| && |"maximum"| != |"type"| && "maximum"[1] != "minimum"[1];
    }
    assert "enum" !in j2 && "enum" != "minimum" && "enum" != "maximum" by {
      assert |"enum"| != |"description"| && "enum"[0] != "type"[0] && |"enum"| != |"minimum"|;
    }
    assert "pattern" !in j3 && "pattern" != "minimum" && "pattern" != "maximum" && "pattern" != "enum" by {
      assert |"pattern"| != |"description"| && |"pattern"| != |"type"| && "pattern"[0] != "minimum"[0]
        && "pattern"[0] != "maximum"[0] && |"pattern"| != |"enum"|;
    }
    assert "default" !in j4 && "default" != "minimum" && "default" != "maximum" && "default" != "enum"
        && "default" != "pattern" by {
      assert |"default"| != |"description"| && |"default"| != |"type"| && "default"[0] != "minimum"[0]
        && "default"[0] != "maximum"[0] && |"default"| != |"enum"| && "default"[0] != "pattern"[0];
    }
    assert "description" != "type" && "description" != "minimum" && "description" != "maximum"
        && "description" != "enum" && "description" != "pattern" && "description" != "default" by {
      assert |"description"| == 11;
    }
    assert "type" != "minimum" && "type" != "maximum" && "type" != "enum" && "type" != "pattern" && "type" != "default" by {
      assert "type"[0] != "enum"[0] && |"type"| == 4 && |"minimum"| == 7;
    }
  }

  /** `properties`: each annotated parameter put under its name in
      declaration order, so a later parameter with the same name wins. */
  function PropertiesOf(params: seq<ParamDescriptor>, g: Generator): map<string, Value>
    decreases |params|
  {
    if params == [] then map[]
    else
      var init := PropertiesOf(params[..|params| - 1], g);
      var p := params[|params| - 1];
      if IsAnnotated(p) then init[ParamName(p) := JObject(ParamSchema(p, g))] else init
  }

  /** `required`: the names of the required annotated parameters, in
      declaration order. */
  function RequiredNames(params: seq<ParamDescriptor>): seq<string>
    decreases |params|
  {
    if params == [] then []
    else
      var init := RequiredNames(params[..|params| - 1]);
      var p := params[|params| - 1];
      if IsAnnotated(p) && p.spec.value.required then init + [ParamName(p)] else init
  }

  /** The properties are named after exactly the annotated parameters. */
  lemma {:induction false} PropertiesDomain(params: seq<ParamDescriptor>, g: Generator, name: string)
    ensures name in PropertiesOf(params, g) <==>
      exists i | 0 <= i < |params| :: IsAnnotated(params[i]) && ParamName(params[i]) == name
    decreases |params|
  {
    if params != [] {
      var init := params[..|params| - 1];
      PropertiesDomain(init, g, name);
      assert forall i | 0 <= i < |init| :: init[i] == params[i];
      if name in PropertiesOf(params, g) && name !in PropertiesOf(init, g) {
        assert IsAnnotated(params[|params| - 1]) && ParamName(params[|params| - 1]) == name;
      }
    }
  }

  /** An annotated parameter that no later one shadows has its own schema
      under its name. */
  lemma {:induction false} PropertiesLastWins(params: seq<ParamDescriptor>, g: Generator, i: nat)
    requires i < |params| && IsAnnotated(params[i])
    requires forall j | i < j < |params| :: !(IsAnnotated(params[j]) && ParamName(params[j]) == ParamName(params[i]))
    ensures ParamName(params[i]) in PropertiesOf(params, g)
    ensures PropertiesOf(params, g)[ParamName(params[i])] == JObject(ParamSchema(params[i], g))
    decreases |params|
  {
    if i < |params| - 1 {
      var init := params[..|params| - 1];
      assert init[i] == params[i];
      PropertiesLastWins(init, g, i);
    }
  }

  /** A name is required exactly when some annotated parameter of that name
      is required. */
  lemma {:induction false} RequiredNamesSpec(params: seq<ParamDescriptor>, name: string)
    ensures name in RequiredNames(params) <==>
      exists i | 0 <= i < |params| :: IsAnnotated(params[i]) && params[i].spec.value.required && ParamName(params[i]) == name
    decreases |params|
  {
    if params != [] {
      var init := params[..|params| - 1];
      RequiredNamesSpec(init, name);
      assert forall i | 0 <= i < |init| :: init[i] == params[i];
    }
  }

  /** Every required name is also a property. */
  lemma RequiredAreProperties(params: seq<ParamDescriptor>, g: Generator)
    ensures forall name | name in RequiredNames(params) :: name in PropertiesOf(params, g)
  {
    forall name | name in RequiredNames(params) ensures name in PropertiesOf(params, g) {
      RequiredNamesSpec(params, name);
      PropertiesDomain(params, g, name);
    }
  }

  /** The schema object: `type`, `properties` and `required`. */
  function InputSchema(params: seq<ParamDescriptor>, g: Generator): map<string, Value>
  {
    map["type" := Str("object"),
        "properties" := JObject(PropertiesOf(params, g)),
        "required" := JArray(Strs(RequiredNames(params)))]
  }

  /** The loop both generators run over the method's parameters, putting
      into `properties` and adding to `required`. */
  method BuildInputSchema(params: seq<ParamDescriptor>, g: Generator) returns (schema: map<string, Value>)
    ensures schema == InputSchema(params, g)
  {
    var properties: map<string, Value> := map[];
    var required: seq<string> := [];
    for i := 0 to |params|
      invariant properties == PropertiesOf(params[..i], g)
      invariant required == RequiredNames(params[..i])
    {
      assert params[..i + 1][..i] == params[..i];
      var p := params[i];
      if p.spec.Some? {
        var name := if p.spec.value.name == "" then p.reflectedName else p.spec.value.name;
        properties := properties[name := JObject(ParamSchema(p, g))];
        if p.spec.value.required {
          required := required + [name];
        }
      }
    }
    assert params[..|params|] == params;
    schema := map["type" := Str("object"), "properties" := JObject(properties), "required" := JArray(Strs(required))];
  }
}

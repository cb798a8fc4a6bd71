/** How a tool method's return value or exception becomes a ToolResult
    (ResponseProcessor.java): the default message, the content generated
    for each kind of value, the POJO summary, the execution metadata, and
    the error results built from exceptions. */
module Responses {
  import opened Wrappers
  import opened Values
  import opened Text
  import opened Errors
  import opened Exceptions
  import opened Content
  import opened Annotations
  import opened ToolResults

  /** What a tool method returned: a plain value, or a ToolResult object. */
  datatype Returned = ReturnedValue(value: Value) | ReturnedResult(result: ToolResult)

  // ------------------------------------------------------------- the message

  /** `generateDefaultMessage`: chosen by the method name's prefix. */
  function DefaultMessage(result: Value, methodName: string): string
  {
    if result == Null then methodName + " completed successfully"
    else
      var resultType := SimpleName(result);
      if "get" <= methodName || "find" <= methodName || "retrieve" <= methodName then resultType + " retrieved successfully"
      else if "create" <= methodName || "add" <= methodName then resultType + " created successfully"
      else if "update" <= methodName || "modify" <= methodName then resultType + " updated successfully"
      else if "delete" <= methodName || "remove" <= methodName then "Deletion completed successfully"
      else if "calculate" <= methodName || "compute" <= methodName then "Calculation completed successfully"
      else if "analyze" <= methodName || "process" <= methodName then "Analysis completed successfully"
      else "Operation completed successfully"
  }

  /** `determineMessage`: the configured message when non-empty, otherwise
      the default one. */
  function DetermineMessage(result: Value, m: MethodDescriptor): (r: string)
    ensures m.response.Some? && m.response.value.message != "" ==> r == m.response.value.message
    ensures r != ""
  {
    if m.response.Some? && m.response.value.message != "" then m.response.value.message
    else
      var d := DefaultMessage(result, m.name);
      assert d != "" by { DefaultMessageNonEmpty(result, m.name); }
      d
  }

  lemma DefaultMessageNonEmpty(result: Value, methodName: string)
    ensures DefaultMessage(result, methodName) != ""
  {
  }

  lemma NotPrefix(p: string, s: string, i: nat)
    requires i < |p| && i < |s| && p[i] != s[i]
    ensures !(p <= s)
  {
  }

  /** A retrieval, creation or update names the result's class, and a null
      result names the method. */
  lemma DefaultMessageNamesClass(result: Value, name: string, suffix: string)
    requires result != Null
    ensures DefaultMessage(result, "get" + suffix) == SimpleName(result) + " retrieved successfully"
    ensures DefaultMessage(result, "create" + suffix) == SimpleName(result) + " created successfully"
    ensures DefaultMessage(result, "update" + suffix) == SimpleName(result) + " updated successfully"
    ensures DefaultMessage(Null, name) == name + " completed successfully"
  {
    var g := "get" + suffix;
    assert DefaultMessage(result, g) == SimpleName(result) + " retrieved successfully" by {
      assert g[..3] == "get";
    }
    var c := "create" + suffix;
    assert DefaultMessage(result, c) == SimpleName(result) + " created successfully" by {
      assert c[..6] == "create";
      NotPrefix("get", c, 0); NotPrefix("find", c, 0); NotPrefix("retrieve", c, 0);
    }
    var u := "update" + suffix;
    assert DefaultMessage(result, u) == SimpleName(result) + " updated successfully" by {
      assert u[..6] == "update";
      NotPrefix("get", u, 0); NotPrefix("find", u, 0); NotPrefix("retrieve", u, 0);
      NotPrefix("create", u, 0); NotPrefix("add", u, 0);
    }
  }

  lemma DeletionMessage(result: Value, d: string)
    requires result != Null && "delete" <= d
    ensures DefaultMessage(result, d) == "Deletion completed successfully"
  {
    NotPrefix("get", d, 0); NotPrefix("find", d, 0); NotPrefix("retrieve", d, 0);
    NotPrefix("create", d, 0); NotPrefix("add", d, 0); NotPrefix("update", d, 0); NotPrefix("modify", d, 0);
  }

  lemma CalculationMessage(result: Value, k: string)
    requires result != Null && "compute" <= k
    ensures DefaultMessage(result, k) == "Calculation completed successfully"
  {
    NotPrefix("get", k, 0); NotPrefix("find", k, 0); NotPrefix("retrieve", k, 0);
    NotPrefix("create", k, 1); NotPrefix("add", k, 0); NotPrefix("update", k, 0); NotPrefix("modify", k, 0);
    NotPrefix("delete", k, 0); NotPrefix("remove", k, 0); NotPrefix("calculate", k, 1);
  }

  lemma AnalysisMessage(result: Value, p: string)
    requires result != Null && "process" <= p
    ensures DefaultMessage(result, p) == "Analysis completed successfully"
  {
    NotPrefix("get", p, 0); NotPrefix("find", p, 0); NotPrefix("retrieve", p, 0);
    NotPrefix("create", p, 0); NotPrefix("add", p, 0); NotPrefix("update", p, 0); NotPrefix("modify", p, 0);
    NotPrefix("delete", p, 0); NotPrefix("remove", p, 0); NotPrefix("calculate", p, 0); NotPrefix("compute", p, 0);
    NotPrefix("analyze", p, 0);
  }

  /** Deletions, calculations and analyses get fixed sentences. */
  lemma DefaultMessageFixed(result: Value, suffix: string)
    requires result != Null
    ensures DefaultMessage(result, "delete" + suffix) == "Deletion completed successfully"
    ensures DefaultMessage(result, "compute" + suffix) == "Calculation completed successfully"
    ensures DefaultMessage(result, "process" + suffix) == "Analysis completed successfully"
  {
    var d, k, p := "delete" + suffix, "compute" + suffix, "process" + suffix;
    assert d[..6] == "delete" && k[..7] == "compute" && p[..7] == "process";
    DeletionMessage(result, d);
    CalculationMessage(result, k);
    AnalysisMessage(result, p);
  }

  // ----------------------------------------------------------- the summaries

  /** `generateCollectionSummary`: the count and the first element's class;
      a null first element makes `getClass()` throw. */
  function CollectionSummary(items: seq<Value>): (r: Result<string, JavaException>)
    ensures r.Err? <==> items != [] && items[0] == Null
  {
    if items == [] then Ok("Empty collection returned")
    else if items[0] == Null then Err(NullPointer(None))
    else Ok("Collection of " + NatToString(|items|) + " " + SimpleName(items[0]) + " item" + (if |items| == 1 then "" else "s"))
  }

  /** `generateMapSummary` */
  function MapSummary(size: nat): string
  {
    if size == 0 then "Empty map returned"
    else "Map with " + NatToString(size) + " entr" + (if size == 1 then "y" else "ies")
  }

  /** The collection summary is singular for one element and plural
      otherwise. */
  lemma CollectionSummaryNumber(v: Value, items: seq<Value>)
    requires v != Null
    ensures CollectionSummary([v]) == Ok("Collection of 1 " + SimpleName(v) + " item")
    ensures |items| >= 2 && items[0] != Null ==>
      CollectionSummary(items) == Ok("Collection of " + NatToString(|items|) + " " + SimpleName(items[0]) + " items")
  {
    assert NatToString(1) == "1";
    var name := SimpleName(v);
    assert "Collection of " + "1" + " " + name + " item" + "" == "Collection of 1 " + name + " item" by {
      assert "Collection of " + "1" + " " == "Collection of 1 ";
    }
    if |items| >= 2 && items[0] != Null {
      var head := "Collection of " + NatToString(|items|) + " " + SimpleName(items[0]);
      assert head + " item" + "s" == head + " items";
    }
  }

  /** The map summary is singular for one entry and plural otherwise. */
  lemma MapSummaryNumber(size: nat)
    requires size >= 2
    ensures MapSummary(1) == "Map with 1 entry"
    ensures MapSummary(size) == "Map with " + NatToString(size) + " entries"
  {
    assert NatToString(1) == "1";
  }

  /** `getDeclaredFields()` with their values: a POJO's own fields, none for
      an array class, and the runtime's view of library classes. */
  function DeclaredFields(rt: Runtime, v: Value): seq<Field>
  {
    match v
    case Obj(_, props) => props
    case StrArr(_) => []
    case IntArr(_) => []
    case DblArr(_) => []
    case _ => rt.declaredFields(v)
  }

  /** The index of the first field named exactly `name` (`getDeclaredField`),
      or `|fields|`. */
  function ExactIndex(fields: seq<Field>, name: string): (i: nat)
    ensures i <= |fields| && (i < |fields| ==> fields[i].name == name)
    ensures forall j | 0 <= j < i :: fields[j].name != name
  {
    if fields == [] then 0 else if fields[0].name == name then 0 else 1 + ExactIndex(fields[1..], name)
  }

  /** The index of the first field whose name equals `name` ignoring case,
      or `|fields|`. */
  function IgnoreCaseIndex(fields: seq<Field>, name: string): (i: nat)
    ensures i <= |fields| && (i < |fields| ==> EqualsIgnoreCase(fields[i].name, name))
    ensures forall j | 0 <= j < i :: !EqualsIgnoreCase(fields[j].name, name)
  {
    if fields == [] then 0
    else if EqualsIgnoreCase(fields[0].name, name) then 0
    else 1 + IgnoreCaseIndex(fields[1..], name)
  }

  /** `findField`: the exact name first, then the first case-insensitive
      match. */
  function FindField(fields: seq<Field>, name: string): (r: Option<Field>)
    ensures r.Some? ==> r.value in fields && EqualsIgnoreCase(r.value.name, name)
    ensures r.None? <==> forall j | 0 <= j < |fields| :: !EqualsIgnoreCase(fields[j].name, name)
    ensures (exists j | 0 <= j < |fields| :: fields[j].name == name) ==> r.Some? && r.value.name == name
  {
    var e := ExactIndex(fields, name);
    if e < |fields| then Some(fields[e])
    else
      var c := IgnoreCaseIndex(fields, name);
      if c < |fields| then Some(fields[c]) else None
  }

  /** `findField`, its case-insensitive fallback a scan of the fields. */
  method FindFieldByScan(fields: seq<Field>, name: string) returns (r: Option<Field>)
    ensures r == FindField(fields, name)
  {
    var e := ExactIndex(fields, name);
    if e < |fields| {
      return Some(fields[e]);
    }
    var i := 0;
    while i < |fields|
      invariant 0 <= i <= |fields|
      invariant forall j | 0 <= j < i :: !EqualsIgnoreCase(fields[j].name, name)
    {
      if EqualsIgnoreCase(fields[i].name, name) {
        assert IgnoreCaseIndex(fields, name) == i by { IgnoreCaseIndexIs(fields, name, i); }
        return Some(fields[i]);
      }
      i := i + 1;
    }
    return None;
  }

  lemma IgnoreCaseIndexIs(fields: seq<Field>, name: string, i: nat)
    requires i < |fields| && EqualsIgnoreCase(fields[i].name, name)
    requires forall j | 0 <= j < i :: !EqualsIgnoreCase(fields[j].name, name)
    ensures IgnoreCaseIndex(fields, name) == i
  {
  }

  /** A highlight field is shown when it is found with a value whose string
      form is not blank. */
  predicate Shown(rt: Runtime, fields: seq<Field>, name: string)
  {
    var f := FindField(fields, name);
    f.Some? && f.value.value != Null && !IsBlank(JavaString(rt, f.value.value))
  }

  /** `extractKeyFieldInfo`: the first shown highlight field, as
      "name: value"; the loop stops at the first, so no separator is ever
      written. */
  function KeyFieldInfo(rt: Runtime, fields: seq<Field>, highlights: seq<string>): string
  {
    if highlights == [] then ""
    else if Shown(rt, fields, highlights[0]) then
      highlights[0] + ": " + JavaString(rt, FindField(fields, highlights[0]).value.value)
    else KeyFieldInfo(rt, fields, highlights[1..])
  }

  lemma {:induction false} KeyFieldInfoEmpty(rt: Runtime, fields: seq<Field>, highlights: seq<string>)
    ensures KeyFieldInfo(rt, fields, highlights) == "" <==> forall i | 0 <= i < |highlights| :: !Shown(rt, fields, highlights[i])
  {
    if highlights != [] {
      var tail := highlights[1..];
      KeyFieldInfoEmpty(rt, fields, tail);
      if Shown(rt, fields, highlights[0]) {
        assert |KeyFieldInfo(rt, fields, highlights)| >= 2;
      } else {
        forall i | 1 <= i < |highlights|
          ensures highlights[i] == tail[i - 1]
        {
        }
      }
    }
  }

  lemma {:induction false} KeyFieldInfoAt(rt: Runtime, fields: seq<Field>, highlights: seq<string>, i: nat)
    requires i < |highlights| && Shown(rt, fields, highlights[i])
    requires forall j | 0 <= j < i :: !Shown(rt, fields, highlights[j])
    ensures KeyFieldInfo(rt, fields, highlights) == highlights[i] + ": " + JavaString(rt, FindField(fields, highlights[i]).value.value)
    decreases i
  {
    if i > 0 {
      assert !Shown(rt, fields, highlights[0]);
      var tail := highlights[1..];
      forall j | 0 <= j < i - 1
        ensures !Shown(rt, fields, tail[j])
      {
        assert tail[j] == highlights[j + 1];
      }
      KeyFieldInfoAt(rt, fields, tail, i - 1);
    }
  }

  /** The key-field text is empty exactly when no highlight field is shown,
      and otherwise shows the first one that is. */
  lemma KeyFieldInfoFirstShown(rt: Runtime, fields: seq<Field>, highlights: seq<string>)
    ensures KeyFieldInfo(rt, fields, highlights) == "" <==> forall i | 0 <= i < |highlights| :: !Shown(rt, fields, highlights[i])
    ensures forall i | 0 <= i < |highlights| && Shown(rt, fields, highlights[i]) &&
              (forall j | 0 <= j < i :: !Shown(rt, fields, highlights[j])) ::
              KeyFieldInfo(rt, fields, highlights) == highlights[i] + ": " + JavaString(rt, FindField(fields, highlights[i]).value.value)
  {
    KeyFieldInfoEmpty(rt, fields, highlights);
    forall i | 0 <= i < |highlights| && Shown(rt, fields, highlights[i]) &&
               (forall j | 0 <= j < i :: !Shown(rt, fields, highlights[j]))
      ensures KeyFieldInfo(rt, fields, highlights) == highlights[i] + ": " + JavaString(rt, FindField(fields, highlights[i]).value.value)
    {
      KeyFieldInfoAt(rt, fields, highlights, i);
    }
  }

  /** `extractKeyFieldInfo`, the loop over the highlight fields with its
      `break`. */
  method ExtractKeyFieldInfo(rt: Runtime, fields: seq<Field>, highlights: seq<string>) returns (keyInfo: string)
    ensures keyInfo == KeyFieldInfo(rt, fields, highlights)
  {
    keyInfo := "";
    var i := 0;
    while i < |highlights|
      invariant 0 <= i <= |highlights|
      invariant KeyFieldInfo(rt, fields, highlights) == KeyFieldInfo(rt, fields, highlights[i..])
    {
      var fieldName := highlights[i];
      var field := FindFieldByScan(fields, fieldName);
      if field.Some? {
        var value := field.value.value;
        if value != Null && !IsBlank(JavaString(rt, value)) {
          keyInfo := fieldName + ": " + JavaString(rt, value);
          break;
        }
      }
      assert highlights[i..][1..] == highlights[i + 1..];
      i := i + 1;
    }
  }

  /** `formatCustomTemplate`: the three placeholders replaced in turn. */
  function FormatTemplate(rt: Runtime, v: Value, template: string, highlights: seq<string>): string
  {
    var fields := DeclaredFields(rt, v);
    var r1 := Replace(template, "{className}", SimpleName(v));
    var r2 := Replace(r1, "{fieldCount}", NatToString(|fields|));
    Replace(r2, "{keyFields}", KeyFieldInfo(rt, fields, highlights))
  }

  /** A template without placeholders is used verbatim. */
  lemma TemplateWithoutPlaceholders(rt: Runtime, v: Value, template: string, highlights: seq<string>)
    requires !Contains(template, "{className}") && !Contains(template, "{fieldCount}") && !Contains(template, "{keyFields}")
    ensures FormatTemplate(rt, v, template, highlights) == template
  {
    var fields := DeclaredFields(rt, v);
    ReplaceAbsent(template, "{className}", SimpleName(v));
    ReplaceAbsent(template, "{fieldCount}", NatToString(|fields|));
    ReplaceAbsent(template, "{keyFields}", KeyFieldInfo(rt, fields, highlights));
  }

  /** `generatePOJOSummary` */
  function PojoSummary(rt: Runtime, v: Value, config: Option<ToolResponseConfig>): string
  {
    var fields := DeclaredFields(rt, v);
    if config.Some? && config.value.summaryTemplate != "" then
      FormatTemplate(rt, v, config.value.summaryTemplate, config.value.highlightFields)
    else
      var head := SimpleName(v) +
        (if |fields| > 0 then " with " + NatToString(|fields|) + " propert" + (if |fields| == 1 then "y" else "ies") else "");
      var highlights := if config.Some? then config.value.highlightFields else DEFAULT_HIGHLIGHT_FIELDS;
      var keyInfo := KeyFieldInfo(rt, fields, highlights);
      head + (if keyInfo != "" then ", " + keyInfo else "")
  }

  /** Without a template the summary starts with the class name and ends
      with the first shown highlight field, if any. */
  lemma PojoSummaryShape(rt: Runtime, v: Value, config: Option<ToolResponseConfig>)
    requires config.None? || config.value.summaryTemplate == ""
    ensures SimpleName(v) <= PojoSummary(rt, v, config)
    ensures var highlights := if config.Some? then config.value.highlightFields else DEFAULT_HIGHLIGHT_FIELDS;
      var keyInfo := KeyFieldInfo(rt, DeclaredFields(rt, v), highlights);
      keyInfo != "" ==> EndsWith(PojoSummary(rt, v, config), ", " + keyInfo)
  {
    var fields := DeclaredFields(rt, v);
    var head := SimpleName(v) +
      (if |fields| > 0 then " with " + NatToString(|fields|) + " propert" + (if |fields| == 1 then "y" else "ies") else "");
    assert SimpleName(v) <= head;
    var highlights := if config.Some? then config.value.highlightFields else DEFAULT_HIGHLIGHT_FIELDS;
    var keyInfo := KeyFieldInfo(rt, fields, highlights);
    if keyInfo != "" {
      var s := head + (", " + keyInfo);
      assert s[|s| - |", " + keyInfo|..] == ", " + keyInfo;
    }
  }

  // -------------------------------------------------------------- the content

  /** The items `processResultContent` adds, and whether it also sets the
      result as `data`. */
  datatype Built = Built(items: seq<Item>, setsData: bool)

  /** `processResultContent` */
  function ResultContent(rt: Runtime, v: Value, config: Option<ToolResponseConfig>): (r: Result<Built, JavaException>)
    ensures r.Err? <==> v.Coll? && v.items != [] && v.items[0] == Null
  {
    if v == Null then Ok(Built([TextItem(Some("Operation completed with no return value"), None)], false))
    else if v.Str? then Ok(Built([TextItem(Some(v.s), None)], true))
    else if v.Num? || v.Bool? || v.Chr? then Ok(Built([TextItem(Some(JavaString(rt, v)), None)], true))
    else if v.Coll? then
      match CollectionSummary(v.items)
      case Ok(summary) => Ok(Built([TextItem(Some(summary), None), DataItem(v, None)], false))
      case Err(e) => Err(e)
    else if v.Dict? then Ok(Built([TextItem(Some(MapSummary(|v.entries|)), None), DataItem(v, None)], false))
    else if config.None? || config.value.generateSummary then
      Ok(Built([TextItem(Some(PojoSummary(rt, v, config)), None), DataItem(v, None)], false))
    else Ok(Built([DataItem(v, None)], false))
  }

  /** Scalars become their text and are the data; collections, maps and
      objects become a summary (unless switched off for an object) followed
      by a data item. */
  lemma ResultContentKinds(rt: Runtime, v: Value, config: Option<ToolResponseConfig>)
    ensures IsScalar(v) ==> ResultContent(rt, v, config) == Ok(Built([TextItem(Some(JavaString(rt, v)), None)], true))
    ensures !IsScalar(v) && v != Null && ResultContent(rt, v, config).Ok? ==>
      var items := ResultContent(rt, v, config).value.items;
      !ResultContent(rt, v, config).value.setsData && items[|items| - 1] == DataItem(v, None)
        && (|items| == 2 <==> (!v.Obj? && !v.JObject? && !v.JArray? && !v.StrArr? && !v.IntArr? && !v.DblArr?)
                              || config.None? || config.value.generateSummary)
    ensures v == Null ==> ResultContent(rt, v, config).value.items[0].body == TextBody("Operation completed with no return value")
  {
  }

  /** `addExecutionMetadata`, `now` standing for the clock reading. */
  function ExecutionMetadata(v: Value, m: MethodDescriptor, now: int): (r: map<string, Value>)
    ensures r.Keys == {"executionTime", "methodName", "methodClass"}
                      + (if v == Null then {} else {"resultType"})
                      + (if v.Coll? || v.Dict? then {"resultSize"} else {})
    ensures r["executionTime"] == Num(LongKind, now) && r["methodName"] == Str(m.name) && r["methodClass"] == Str(m.declaringClass)
    ensures v != Null ==> r["resultType"] == Str(SimpleName(v))
    ensures v.Coll? ==> r["resultSize"] == Num(IntKind, |v.items|)
    ensures v.Dict? ==> r["resultSize"] == Num(IntKind, |v.entries|)
  {
    var base := map["executionTime" := Num(LongKind, now), "methodName" := Str(m.name), "methodClass" := Str(m.declaringClass)];
    if v == Null then base
    else
      var typed := base["resultType" := Str(SimpleName(v))];
      if v.Coll? then typed["resultSize" := Num(IntKind, |v.items|)]
      else if v.Dict? then typed["resultSize" := Num(IntKind, |v.entries|)]
      else typed
  }

  /** `processResponse` for a plain value. */
  function Response(rt: Runtime, v: Value, m: MethodDescriptor, now: int): Result<Envelope, JavaException>
  {
    var config := m.response;
    match ResultContent(rt, v, config)
    case Err(e) => Err(e)
    case Ok(built) =>
      Ok(Make(if built.setsData then v else Null, Some(DetermineMessage(v, m)), false, None, built.items,
              if config.None? || config.value.includeMetadata then ExecutionMetadata(v, m, now) else map[]))
  }

  /** A processed return value is a success result with a message, at least
      one item, and metadata unless switched off; only a collection whose
      first element is null fails. */
  lemma ResponseIsSuccess(rt: Runtime, v: Value, m: MethodDescriptor, now: int)
    ensures Response(rt, v, m, now).Err? <==> v.Coll? && v.items != [] && v.items[0] == Null
    ensures Response(rt, v, m, now).Ok? ==>
      var e := Response(rt, v, m, now).value;
      !e.isError && e.error.None? && e.message.Some? && e.message.value != "" && |e.content| >= 1
      && (m.response.None? || m.response.value.includeMetadata <==> e.metadata != map[])
  {
    if Response(rt, v, m, now).Ok? && (m.response.None? || m.response.value.includeMetadata) {
      assert "methodName" in ExecutionMetadata(v, m, now);
    }
  }

  /** One `addText` call and, when `setsData`, `data(v)`. */
  method AddTextItem(builder: ToolResultBuilder, text: string, v: Value, setsData: bool)
    modifies builder
    ensures Snapshots(builder.content) == old(Snapshots(builder.content)) + [TextItem(Some(text), None)]
    ensures builder.data == (if setsData then v else old(builder.data))
    ensures builder.message == old(builder.message) && builder.metadata == old(builder.metadata)
  {
    var t := builder.AddText(Some(text));
    if setsData {
      builder.SetData(v);
    }
  }

  /** An optional summary by `addText`, then `addData(v)`. */
  method AddSummaryAndData(builder: ToolResultBuilder, summary: Option<string>, v: Value)
    modifies builder
    ensures Snapshots(builder.content) == old(Snapshots(builder.content))
      + (if summary.Some? then [TextItem(summary, None), DataItem(v, None)] else [DataItem(v, None)])
    ensures builder.data == old(builder.data)
    ensures builder.message == old(builder.message) && builder.metadata == old(builder.metadata)
  {
    ghost var before := Snapshots(builder.content);
    if summary.Some? {
      var t := builder.AddText(summary);
      assert Snapshots(builder.content) == before + [TextItem(summary, None)];
      var d := builder.AddData(v);
      assert Snapshots(builder.content) == before + [TextItem(summary, None)] + [DataItem(v, None)];
      assert before + [TextItem(summary, None)] + [DataItem(v, None)] == before + [TextItem(summary, None), DataItem(v, None)];
    } else {
      var d := builder.AddData(v);
    }
  }

  /** The scalar branches of `processResultContent`: one text item. */
  method AddScalarContent(rt: Runtime, v: Value, builder: ToolResultBuilder)
    modifies builder
    requires v == Null || v.Str? || v.Num? || v.Bool? || v.Chr?
    ensures ResultContent(rt, v, None).Ok?
    ensures var built := ResultContent(rt, v, None).value;
      && Snapshots(builder.content) == old(Snapshots(builder.content)) + built.items
      && builder.data == (if built.setsData then v else old(builder.data))
    ensures builder.message == old(builder.message) && builder.metadata == old(builder.metadata)
  {
    if v == Null {
      AddTextItem(builder, "Operation completed with no return value", v, false);
    } else if v.Str? {
      AddTextItem(builder, v.s, v, true);
    } else {
      AddTextItem(builder, JavaString(rt, v), v, true);
    }
  }

  /** The other branches: an optional summary followed by a data item; a
      collection whose first element is null fails. */
  method AddCompositeContent(rt: Runtime, v: Value, builder: ToolResultBuilder, config: Option<ToolResponseConfig>)
    returns (failure: Option<JavaException>)
    modifies builder
    requires !(v == Null || v.Str? || v.Num? || v.Bool? || v.Chr?)
    ensures failure.Some? <==> ResultContent(rt, v, config).Err?
    ensures failure.Some? ==> failure.value == ResultContent(rt, v, config).error
    ensures failure.None? ==>
      && Snapshots(builder.content) == old(Snapshots(builder.content)) + ResultContent(rt, v, config).value.items
      && !ResultContent(rt, v, config).value.setsData && builder.data == old(builder.data)
    ensures builder.message == old(builder.message) && builder.metadata == old(builder.metadata)
  {
    failure := None;
    if v.Coll? {
      var summary := CollectionSummary(v.items);
      if summary.Err? {
        return Some(summary.error);
      }
      AddSummaryAndData(builder, Some(summary.value), v);
    } else if v.Dict? {
      AddSummaryAndData(builder, Some(MapSummary(|v.entries|)), v);
    } else if config.None? || config.value.generateSummary {
      AddSummaryAndData(builder, Some(PojoSummary(rt, v, config)), v);
    } else {
      AddSummaryAndData(builder, None, v);
    }
  }

  /** `processResultContent`, driving the builder. */
  method ProcessResultContent(rt: Runtime, v: Value, builder: ToolResultBuilder, config: Option<ToolResponseConfig>)
    returns (failure: Option<JavaException>)
    modifies builder
    ensures failure.Some? <==> ResultContent(rt, v, config).Err?
    ensures failure.Some? ==> failure.value == ResultContent(rt, v, config).error
    ensures failure.None? ==>
      var built := ResultContent(rt, v, config).value;
      && Snapshots(builder.content) == old(Snapshots(builder.content)) + built.items
      && builder.data == (if built.setsData then v else old(builder.data))
    ensures builder.message == old(builder.message) && builder.metadata == old(builder.metadata)
  {
    failure := None;
    if v == Null || v.Str? || v.Num? || v.Bool? || v.Chr? {
      AddScalarContent(rt, v, builder);
    } else {
      failure := AddCompositeContent(rt, v, builder, config);
    }
  }

  lemma UnionUpdate(m: map<string, Value>, a: map<string, Value>, k: string, x: Value)
    ensures (m + a)[k := x] == m + a[k := x]
  {
  }

  /** One `metadata(k, x)` call, extending the entries added so far. */
  method PutEntry(builder: ToolResultBuilder, ghost start: map<string, Value>, ghost added: map<string, Value>,
                  k: string, x: Value)
    returns (ghost added': map<string, Value>)
    modifies builder
    requires builder.metadata == start + added
    ensures added' == added[k := x] && builder.metadata == start + added'
    ensures builder.message == old(builder.message) && builder.data == old(builder.data)
    ensures builder.content == old(builder.content) && Snapshots(builder.content) == old(Snapshots(builder.content))
  {
    builder.PutMetadata(k, x);
    UnionUpdate(start, added, k, x);
    added' := added[k := x];
  }

  /** `addExecutionMetadata`, one `metadata(k, v)` call per entry. */
  method AddExecutionMetadata(builder: ToolResultBuilder, m: MethodDescriptor, v: Value, now: int)
    modifies builder
    ensures builder.metadata == old(builder.metadata) + ExecutionMetadata(v, m, now)
    ensures builder.message == old(builder.message) && builder.data == old(builder.data)
    ensures builder.content == old(builder.content) && Snapshots(builder.content) == old(Snapshots(builder.content))
  {
    ghost var start := builder.metadata;
    ghost var added: map<string, Value> := map[];
    assert start + added == start;
    added := PutEntry(builder, start, added, "executionTime", Num(LongKind, now));
    added := PutEntry(builder, start, added, "methodName", Str(m.name));
    added := PutEntry(builder, start, added, "methodClass", Str(m.declaringClass));
    if v != Null {
      added := PutEntry(builder, start, added, "resultType", Str(SimpleName(v)));
      if v.Coll? {
        added := PutEntry(builder, start, added, "resultSize", Num(IntKind, |v.items|));
      } else if v.Dict? {
        added := PutEntry(builder, start, added, "resultSize", Num(IntKind, |v.entries|));
      }
    }
    assert added == ExecutionMetadata(v, m, now);
  }

  /** The first builder calls of `processResponse` for a plain value: the
      message, then the content. */
  method FillContent(rt: Runtime, v: Value, m: MethodDescriptor, builder: ToolResultBuilder)
    returns (failure: Option<JavaException>)
    modifies builder
    requires builder.message == None && builder.data == Null && builder.content == [] && builder.metadata == map[]
    ensures failure.Some? <==> ResultContent(rt, v, m.response).Err?
    ensures failure.Some? ==> failure.value == ResultContent(rt, v, m.response).error
    ensures failure.None? ==>
      var built := ResultContent(rt, v, m.response).value;
      && builder.message == Some(DetermineMessage(v, m))
      && Snapshots(builder.content) == built.items
      && builder.data == (if built.setsData then v else Null)
      && builder.metadata == map[]
  {
    var message := DetermineMessage(v, m);
    if message != "" {
      builder.SetMessage(Some(message));
    }
    assert Snapshots(builder.content) == [];
    failure := ProcessResultContent(rt, v, builder, m.response);
  }

  /** `processResponse`: a returned ToolResult passes through unchanged;
      any other value is built into a new success result. */
  method ProcessResponse(rt: Runtime, result: Returned, m: MethodDescriptor, now: int)
    returns (r: Result<ToolResult, JavaException>)
    ensures result.ReturnedResult? ==> r == Ok(result.result)
    ensures result.ReturnedValue? ==> (r.Ok? <==> Response(rt, result.value, m, now).Ok?)
    ensures result.ReturnedValue? && r.Err? ==> r.error == Response(rt, result.value, m, now).error
    ensures result.ReturnedValue? && r.Ok? ==>
      fresh(r.value) && r.value.Snapshot() == Response(rt, result.value, m, now).value
  {
    if result.ReturnedResult? {
      return Ok(result.result);
    }
    r := ProcessValue(rt, result.value, m, now);
  }

  /** `processResponse` for a plain value: a new builder, filled and built. */
  method ProcessValue(rt: Runtime, v: Value, m: MethodDescriptor, now: int)
    returns (r: Result<ToolResult, JavaException>)
    ensures r.Err? <==> Response(rt, v, m, now).Err?
    ensures r.Err? ==> r.error == Response(rt, v, m, now).error
    ensures r.Ok? ==> fresh(r.value) && Response(rt, v, m, now) == Ok(r.value.Snapshot())
  {
    var builder := new ToolResultBuilder();
    var failure := FillContent(rt, v, m, builder);
    if failure.Some? {
      return Err(failure.value);
    }
    AddMetadataIfEnabled(builder, m, v, now);
    var t := Assemble(rt, v, m, now, builder);
    r := Ok(t);
  }

  /** The execution metadata, unless the response configuration switches
      it off. */
  method AddMetadataIfEnabled(builder: ToolResultBuilder, m: MethodDescriptor, v: Value, now: int)
    modifies builder
    requires builder.metadata == map[]
    ensures builder.metadata == (if m.response.None? || m.response.value.includeMetadata then ExecutionMetadata(v, m, now) else map[])
    ensures builder.message == old(builder.message) && builder.data == old(builder.data)
    ensures builder.content == old(builder.content) && Snapshots(builder.content) == old(Snapshots(builder.content))
  {
    if m.response.None? || m.response.value.includeMetadata {
      AddExecutionMetadata(builder, m, v, now);
      assert map[] + ExecutionMetadata(v, m, now) == ExecutionMetadata(v, m, now);
    }
  }

  /** The final `build()` of `processResponse`, once the builder holds the
      message, the content and the metadata of the response. */
  method Assemble(rt: Runtime, v: Value, m: MethodDescriptor, now: int, builder: ToolResultBuilder)
    returns (t: ToolResult)
    requires ResultContent(rt, v, m.response).Ok?
    requires var built := ResultContent(rt, v, m.response).value;
      && builder.message == Some(DetermineMessage(v, m))
      && Snapshots(builder.content) == built.items
      && builder.data == (if built.setsData then v else Null)
      && builder.metadata == (if m.response.None? || m.response.value.includeMetadata then ExecutionMetadata(v, m, now) else map[])
    ensures fresh(t) && Response(rt, v, m, now) == Ok(t.Snapshot())
  {
    ghost var built := ResultContent(rt, v, m.response).value;
    ghost var env := Make(if built.setsData then v else Null, Some(DetermineMessage(v, m)), false, None, built.items,
                          builder.metadata);
    t := builder.Build();
    assert t.Snapshot() == env;
  }

  // ------------------------------------------------------------ the failures

  /** The context `processException` adds: the method and its class. */
  function MethodContext(m: MethodDescriptor): map<string, Value>
  {
    map["methodName" := Str(m.name), "methodClass" := Str(m.declaringClass)]
  }

  /** The error `processException` reports: the exception's own error, its
      context joined by the method context, the exception's entries
      winning. */
  function EnhancedError(te: ToolException, m: MethodDescriptor): (e: MCPError)
    ensures e == te.error.(context := MethodContext(m) + te.error.context)
  {
    Custom(te.error.errorType, te.error.errorCode, te.error.userMessage)
      .WithTechnicalDetails(te.error.technicalMessage)
      .WithSuggestedAction(te.error.suggestedAction)
      .WithSuggestions(te.error.suggestions)
      .WithContext("methodName", Str(m.name))
      .WithContext("methodClass", Str(m.declaringClass))
      .WithContextMap(te.error.context)
      .Build()
  }

  /** The enhanced error keeps everything the tool reported and names the
      method unless the tool's context already did. */
  lemma EnhancedErrorKeepsReport(te: ToolException, m: MethodDescriptor)
    ensures EnhancedError(te, m).errorType == te.error.errorType && EnhancedError(te, m).errorCode == te.error.errorCode
    ensures EnhancedError(te, m).userMessage == te.error.userMessage
    ensures EnhancedError(te, m).context.Keys == te.error.context.Keys + {"methodName", "methodClass"}
    ensures forall k | k in te.error.context :: EnhancedError(te, m).context[k] == te.error.context[k]
    ensures "methodName" !in te.error.context ==> EnhancedError(te, m).context["methodName"] == Str(m.name)
  {
  }

  /** `processException`, copying the exception's context entry by entry. */
  method ProcessException(te: ToolException, m: MethodDescriptor) returns (r: ToolResult)
    ensures fresh(r) && r.Snapshot() == ErrorEnvelope(EnhancedError(te, m))
  {
    var builder := MCPErrorBuilder.NewCustom(te.error.errorType, te.error.errorCode, te.error.userMessage);
    builder.WithTechnicalDetails(te.error.technicalMessage);
    builder.WithSuggestedAction(te.error.suggestedAction);
    builder.WithSuggestions(te.error.suggestions);
    builder.WithContext("methodName", Str(m.name));
    builder.WithContext("methodClass", Str(m.declaringClass));
    ghost var base := builder.State();
    var context := te.error.context;
    var remaining := context.Keys;
    ghost var copied: map<string, Value> := map[];
    while remaining != {}
      invariant remaining <= context.Keys
      invariant copied.Keys == context.Keys - remaining
      invariant forall k | k in copied :: copied[k] == context[k]
      invariant builder.State() == base.WithContextMap(copied)
      decreases remaining
    {
      var key :| key in remaining;
      builder.WithContext(key, context[key]);
      remaining := remaining - {key};
      assert base.context + copied[key := context[key]] == (base.context + copied)[key := context[key]];
      copied := copied[key := context[key]];
    }
    assert copied == context;
    var error := builder.Build();
    r := ToolResult.Error(error);
  }

  /** The error `processGenericException` reports for an unexpected
      exception. */
  function GenericError(exception: JavaException, m: MethodDescriptor): (e: MCPError)
    ensures e.errorType == "system" && e.errorCode == INTERNAL_ERROR && e.userMessage == "Unexpected error occurred"
    ensures e.technicalMessage == exception.Message()
    ensures e.suggestedAction == Some("Try again or contact support if the problem persists")
    ensures e.context == MethodContext(m)["exceptionType" := Str(exception.ClassName())]
    ensures e.suggestions == []
  {
    System("Unexpected error occurred")
      .WithTechnicalDetails(exception.Message())
      .WithSuggestedAction(Some("Try again or contact support if the problem persists"))
      .WithContext("methodName", Str(m.name))
      .WithContext("methodClass", Str(m.declaringClass))
      .WithContext("exceptionType", Str(exception.ClassName()))
      .Build()
  }

  /** `processGenericException` */
  method ProcessGenericException(exception: JavaException, m: MethodDescriptor) returns (r: ToolResult)
    ensures fresh(r) && r.Snapshot() == ErrorEnvelope(GenericError(exception, m))
  {
    r := ToolResult.Error(GenericError(exception, m));
  }
}

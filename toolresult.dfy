/** The result envelope of a tool call (ToolResult.java): its factories,
    its builder, the legacy mutators, and its MCP JSON form. */
module ToolResults {
  import opened Wrappers
  import opened Values
  import opened Content
  import opened Errors
  import opened Exceptions
  import opened JsonAccess

  type Json = map<string, Value>

  /** The fields of a ToolResult at one moment; `errorMessage` and
      `errorCode` are the legacy mirrors of the error. */
  datatype Envelope = Envelope(
    data: Value,
    message: Option<string>,
    isError: bool,
    error: Option<MCPError>,
    content: seq<Item>,
    metadata: map<string, Value>,
    errorMessage: Option<string>,
    errorCode: int)

  /** The main private constructor. */
  function Make(data: Value, message: Option<string>, isError: bool, error: Option<MCPError>,
                content: seq<Item>, metadata: map<string, Value>): (e: Envelope)
    ensures e.errorMessage.Some? <==> error.Some?
    ensures error.Some? ==> e.errorMessage == Some(error.value.userMessage) && e.errorCode == error.value.errorCode
    ensures error.None? ==> e.errorCode == 0
  {
    Envelope(data, message, isError, error, content, metadata,
             if error.Some? then Some(error.value.userMessage) else None,
             if error.Some? then error.value.errorCode else 0)
  }

  /** `success(data)` and `success(message, data)` */
  function SuccessEnvelope(data: Value, message: Option<string>): Envelope
  {
    Make(data, message, false, None, [], map[])
  }

  /** `error(MCPError)`, and `error(MCPToolException)` with its error */
  function ErrorEnvelope(error: MCPError): Envelope
  {
    Make(Null, None, true, Some(error), [], map[])
  }

  /** `error(String)`: a system error with the message. */
  function LegacyErrorEnvelope(message: string): Envelope
  {
    ErrorEnvelope(System(message).Build())
  }

  /** `error(int, String)`: a "system" error with the given code. */
  function LegacyErrorCodeEnvelope(code: int, message: string): Envelope
  {
    ErrorEnvelope(Custom("system", code, message).Build())
  }

  /** An error result has no content and no metadata, and its legacy fields
      mirror its error; the legacy factories give kind "system" with the
      internal-error code or the code given. */
  lemma ErrorEnvelopeShape(e: MCPError, message: string, code: int)
    ensures ErrorEnvelope(e).isError && ErrorEnvelope(e).content == [] && ErrorEnvelope(e).metadata == map[]
    ensures ErrorEnvelope(e).errorMessage == Some(e.userMessage) && ErrorEnvelope(e).errorCode == e.errorCode
    ensures LegacyErrorEnvelope(message).error.value.errorType == "system"
    ensures LegacyErrorEnvelope(message).errorCode == INTERNAL_ERROR
    ensures LegacyErrorEnvelope(message).errorMessage == Some(message)
    ensures LegacyErrorCodeEnvelope(code, message).error.value.errorType == "system"
    ensures LegacyErrorCodeEnvelope(code, message).errorCode == code
  {
  }

  /** How the legacy JsonArray constructor turns one non-null array element
      into an item: an object of type "text" (the default) becomes its text
      (default ""), any other object a data item, anything else its
      `toString()` as text. */
  function LegacyItem(rt: Runtime, v: Value): Item
  {
    match Wrapped(v)
    case JObject(fields) =>
      if GetStringOr(rt, fields, "type", "text") == Some("text")
      then TextItem(GetStringOr(rt, fields, "text", ""), None)
      else DataItem(JObject(fields), None)
    case w => TextItem(Some(JavaString(rt, w)), None)
  }

  /** The legacy constructor's items, in order; a null element makes
      `toString()` throw. */
  function LegacyItems(rt: Runtime, values: seq<Value>): (r: Result<seq<Item>, JavaException>)
    ensures r.Ok? <==> Null !in values
    ensures r.Ok? ==> |r.value| == |values| && forall k | 0 <= k < |values| :: r.value[k] == LegacyItem(rt, values[k])
  {
    if Null in values then Err(NullPointer(None))
    else Ok(seq(|values|, k requires 0 <= k < |values| => LegacyItem(rt, values[k])))
  }

  /** The legacy conversion inverts text serialisation: the JSON of a text
      item without metadata converts back to that item, and an object with
      no type is text. */
  lemma LegacyItemInvertsTextJson(rt: Runtime, text: string, fields: Json)
    ensures LegacyItem(rt, JObject(TextJson(text, map[]))) == TextItem(Some(text), None)
    ensures "type" !in fields ==> LegacyItem(rt, JObject(fields)).body.TextBody?
  {
    var j := TextJson(text, map[]);
    assert j["type"] == Str("text") && j["text"] == Str(text);
  }

  // ------------------------------------------------------------------- JSON

  /** `getString("type")` of an item's JSON. */
  function TypeOf(rt: Runtime, j: Json): Option<string>
  {
    GetString(rt, j, "type")
  }

  /** The label of a data item's text: its `dataType`, "Object" when absent,
      "null" when null. */
  function DataLabel(rt: Runtime, j: Json): string
  {
    GetStringOr(rt, j, "dataType", "Object").GetOr("null")
  }

  /** The conversion of a data item's JSON to text AS WRITTEN: the payload is
      fetched with `getJsonObject`, which throws a ClassCastException for any
      payload that is not a JSON object or null. */
  function DataAsTextAsWritten(rt: Runtime, j: Json): Result<Json, JavaException>
  {
    match GetJsonObject(rt, j, "data")
    case Ok(Some(m)) => Ok(TextJson(DataLabel(rt, j) + ": " + rt.encodePretty(m), map[]))
    case Ok(None) => Ok(TextJson(DataLabel(rt, j) + ": " + JavaString(rt, GetValue(j, "data")), map[]))
    case Err(e) => Err(e)
  }

  /** The conversion as evidently intended: a JSON object payload is
      pretty-printed and any other payload rendered with `%s`. */
  function DataAsText(rt: Runtime, j: Json): (r: Json)
    ensures TypeOf(rt, r) == Some("text") && r.Keys == {"type", "text"}
    ensures DataAsTextAsWritten(rt, j).Ok? ==> r == DataAsTextAsWritten(rt, j).value
  {
    match GetJsonObject(rt, j, "data")
    case Ok(Some(m)) => TextJson(DataLabel(rt, j) + ": " + rt.encodePretty(m), map[])
    case _ => TextJson(DataLabel(rt, j) + ": " + JavaString(rt, GetValue(j, "data")), map[])
  }

  /** As written, a data item whose payload is a JsonArray, or an object the
      JSON mapper cannot convert (a List, a String), makes the conversion
      throw; the corrected conversion renders it as text. */
  lemma DataAsTextAsWrittenThrows(rt: Runtime, v: Value)
    requires v.JArray? || (v.Str? && rt.mapFrom(v).Err?) || (v.Coll? && rt.mapFrom(v).Err?)
    ensures DataAsTextAsWritten(rt, ItemJson(rt, DataItem(v, None))).Err?
    ensures DataAsTextAsWritten(rt, ItemJson(rt, DataItem(v, None))).error.ClassCast?
    ensures DataAsText(rt, ItemJson(rt, DataItem(v, None)))["text"]
         == Str(SimpleName(v) + ": " + JavaString(rt, GetValue(ItemJson(rt, DataItem(v, None)), "data")))
  {
    var j := ItemJson(rt, DataItem(v, None));
    assert j["data"] == DataPayloadJson(rt, v)["data"];
    assert j["dataType"] == Str(SimpleName(v));
  }

  /** `toJson()` of each explicit item, in order. */
  function ExplicitJson(rt: Runtime, items: seq<Item>): (r: seq<Json>)
    ensures |r| == |items| && forall k | 0 <= k < |items| :: r[k] == ItemJson(rt, items[k])
  {
    seq(|items|, k requires 0 <= k < |items| => ItemJson(rt, items[k]))
  }

  /** With no explicit item, non-null data becomes one data item. */
  function WithFallbackData(rt: Runtime, jsons: seq<Json>, data: Value): (r: seq<Json>)
    ensures jsons == [] && data != Null ==> r == [ItemJson(rt, DataItem(data, None))]
    ensures jsons != [] || data == Null ==> r == jsons
  {
    if jsons == [] && data != Null then [ItemJson(rt, DataItem(data, None))] else jsons
  }

  /** Every data item becomes text; every other item is kept in place. */
  function Compatible(rt: Runtime, jsons: seq<Json>): (r: seq<Json>)
    ensures |r| == |jsons|
    ensures forall k | 0 <= k < |jsons| :: TypeOf(rt, r[k]) != Some("data")
    ensures forall k | 0 <= k < |jsons| && TypeOf(rt, jsons[k]) != Some("data") :: r[k] == jsons[k]
  {
    seq(|jsons|, k requires 0 <= k < |jsons| => if TypeOf(rt, jsons[k]) == Some("data") then DataAsText(rt, jsons[k]) else jsons[k])
  }

  /** Whether every data item converts with the code as written. */
  predicate Converts(rt: Runtime, jsons: seq<Json>)
  {
    forall k | 0 <= k < |jsons| && TypeOf(rt, jsons[k]) == Some("data") :: DataAsTextAsWritten(rt, jsons[k]).Ok?
  }

  /** The compatibility pass AS WRITTEN, item by item from the front: the
      first data item whose conversion throws ends it with that exception. */
  function CompatibleAsWritten(rt: Runtime, jsons: seq<Json>): (r: Result<seq<Json>, JavaException>)
    ensures r.Ok? <==> Converts(rt, jsons)
    ensures r.Ok? ==> r.value == Compatible(rt, jsons)
    ensures r.Err? ==> r.error.ClassCast?
    decreases |jsons|
  {
    if jsons == [] then Ok([])
    else
      var init := jsons[..|jsons| - 1];
      var last := jsons[|jsons| - 1];
      CompatibleLast(rt, init, last, jsons);
      match CompatibleAsWritten(rt, init)
      case Err(e) => Err(e)
      case Ok(c) =>
        if TypeOf(rt, last) != Some("data") then Ok(c + [last])
        else
          match DataAsTextAsWritten(rt, last)
          case Err(e) => Err(e)
          case Ok(t) => Ok(c + [t])
  }

  /** The pass over `init + [last]` is the pass over `init` and then over
      `last`. */
  lemma CompatibleLast(rt: Runtime, init: seq<Json>, last: Json, jsons: seq<Json>)
    requires jsons == init + [last]
    ensures Compatible(rt, jsons)
         == Compatible(rt, init) + [if TypeOf(rt, last) == Some("data") then DataAsText(rt, last) else last]
    ensures Converts(rt, jsons)
        <==> Converts(rt, init) && (TypeOf(rt, last) == Some("data") ==> DataAsTextAsWritten(rt, last).Ok?)
  {
    assert forall k | 0 <= k < |init| :: jsons[k] == init[k];
    assert jsons[|init|] == last;
  }

  /** Once a prefix of the items has thrown, the whole pass throws the same
      exception. */
  lemma {:induction false} CompatibleAsWrittenStops(rt: Runtime, jsons: seq<Json>, i: nat)
    requires i <= |jsons| && CompatibleAsWritten(rt, jsons[..i]).Err?
    ensures CompatibleAsWritten(rt, jsons) == CompatibleAsWritten(rt, jsons[..i])
    decreases |jsons| - i
  {
    if i < |jsons| {
      StopsBefore(rt, jsons, i);
      CompatibleAsWrittenStops(rt, jsons, i + 1);
    } else {
      assert jsons[..i] == jsons;
    }
  }

  /** The item after a prefix that has thrown is not reached. */
  lemma StopsBefore(rt: Runtime, jsons: seq<Json>, i: nat)
    requires i < |jsons| && CompatibleAsWritten(rt, jsons[..i]).Err?
    ensures CompatibleAsWritten(rt, jsons[..i + 1]) == CompatibleAsWritten(rt, jsons[..i])
  {
    assert jsons[..i + 1][..i] == jsons[..i];
  }

  predicate HasText(rt: Runtime, jsons: seq<Json>)
  {
    exists k | 0 <= k < |jsons| :: TypeOf(rt, jsons[k]) == Some("text")
  }

  /** A non-empty message goes first, but only when no text item exists. */
  function WithMessage(rt: Runtime, jsons: seq<Json>, message: Option<string>): (r: seq<Json>)
    ensures message.Some? && message.value != "" && !HasText(rt, jsons) ==> r == [TextJson(message.value, map[])] + jsons
    ensures !(message.Some? && message.value != "" && !HasText(rt, jsons)) ==> r == jsons
  {
    if message.Some? && message.value != "" && !HasText(rt, jsons) then [TextJson(message.value, map[])] + jsons else jsons
  }

  /** The content is never empty. */
  function NonEmpty(jsons: seq<Json>): (r: seq<Json>)
    ensures |r| >= 1
    ensures jsons != [] ==> r == jsons
  {
    if jsons == [] then [TextJson("Operation completed successfully", map[])] else jsons
  }

  /** The content array of a success result. */
  function SuccessContent(rt: Runtime, e: Envelope): seq<Json>
  {
    NonEmpty(WithMessage(rt, Compatible(rt, WithFallbackData(rt, ExplicitJson(rt, e.content), e.data)), e.message))
  }

  /** The content array of a success result AS WRITTEN: the compatibility
      pass may throw. */
  function SuccessContentAsWritten(rt: Runtime, e: Envelope): Result<seq<Json>, JavaException>
  {
    match CompatibleAsWritten(rt, WithFallbackData(rt, ExplicitJson(rt, e.content), e.data))
    case Err(x) => Err(x)
    case Ok(c) => Ok(NonEmpty(WithMessage(rt, c, e.message)))
  }

  /** The content array of an error result: the error's item, or the legacy
      message as text. */
  function ErrorContentJson(rt: Runtime, e: Envelope): seq<Json>
  {
    if e.error.Some? then [ItemJson(rt, ErrorItem(e.error.value, None))]
    else [TextJson("Error: " + e.errorMessage.GetOr("null"), map[])]
  }

  function Objects(jsons: seq<Json>): (r: seq<Value>)
    ensures |r| == |jsons| && forall k | 0 <= k < |jsons| :: r[k] == JObject(jsons[k])
  {
    seq(|jsons|, k requires 0 <= k < |jsons| => JObject(jsons[k]))
  }

  /** `toJsonObject()` (with the corrected data conversion). */
  function EnvelopeJson(rt: Runtime, e: Envelope): (r: Json)
    ensures "content" in r && ("metadata" in r <==> e.metadata != map[])
    ensures r.Keys <= {"content", "metadata"}
  {
    var content := if e.isError then ErrorContentJson(rt, e) else SuccessContent(rt, e);
    WithMetadataEntry(map["content" := JArray(Objects(content))], e.metadata)
  }

  /** `toJsonObject()` AS WRITTEN: an error result always serialises; a
      success result serialises exactly when each of its data items
      converts, and then to the JSON the corrected conversion gives;
      otherwise it throws a ClassCastException. */
  function EnvelopeJsonAsWritten(rt: Runtime, e: Envelope): (r: Result<Json, JavaException>)
    ensures e.isError ==> r == Ok(EnvelopeJson(rt, e))
    ensures r.Ok? <==> e.isError || Converts(rt, WithFallbackData(rt, ExplicitJson(rt, e.content), e.data))
    ensures r.Ok? ==> r.value == EnvelopeJson(rt, e)
    ensures r.Err? ==> r.error.ClassCast?
  {
    if e.isError then Ok(WithMetadataEntry(map["content" := JArray(Objects(ErrorContentJson(rt, e)))], e.metadata))
    else
      match SuccessContentAsWritten(rt, e)
      case Err(x) => Err(x)
      case Ok(content) => Ok(WithMetadataEntry(map["content" := JArray(Objects(content))], e.metadata))
  }

  /** As written, a success result with no explicit item whose data is a
      JSON array, or a list or string the JSON mapper cannot convert, does
      not serialise: `toJsonObject()` throws a ClassCastException. */
  lemma ListDataDoesNotSerialise(rt: Runtime, e: Envelope)
    requires !e.isError && e.content == []
    requires e.data.JArray? || (e.data.Str? && rt.mapFrom(e.data).Err?) || (e.data.Coll? && rt.mapFrom(e.data).Err?)
    ensures EnvelopeJsonAsWritten(rt, e).Err? && EnvelopeJsonAsWritten(rt, e).error.ClassCast?
  {
    var item := ItemJson(rt, DataItem(e.data, None));
    DataAsTextAsWrittenThrows(rt, e.data);
    assert ExplicitJson(rt, e.content) == [];
    assert TypeOf(rt, [item][0]) == Some("data") && DataAsTextAsWritten(rt, [item][0]).Err?;
  }

  predicate NoData(rt: Runtime, jsons: seq<Json>)
  {
    forall k | 0 <= k < |jsons| :: TypeOf(rt, jsons[k]) != Some("data")
  }

  lemma TextJsonIsText(rt: Runtime, text: string)
    ensures TypeOf(rt, TextJson(text, map[])) == Some("text")
  {
    assert "type" in TextJson(text, map[]);
  }

  /** Neither the message nor the fallback text brings a data item back. */
  lemma MessageAndFallbackKeepNoData(rt: Runtime, c: seq<Json>, message: Option<string>)
    requires NoData(rt, c)
    ensures NoData(rt, NonEmpty(WithMessage(rt, c, message)))
  {
    var m := WithMessage(rt, c, message);
    if m != c {
      TextJsonIsText(rt, message.value);
      assert m == [TextJson(message.value, map[])] + c;
      assert forall k | 1 <= k < |m| :: m[k] == c[k - 1];
    }
    TextJsonIsText(rt, "Operation completed successfully");
  }

  /** A success result's JSON holds no data item and is never empty. */
  lemma SuccessContentHasNoData(rt: Runtime, e: Envelope)
    ensures |SuccessContent(rt, e)| >= 1
    ensures NoData(rt, SuccessContent(rt, e))
  {
    var c := Compatible(rt, WithFallbackData(rt, ExplicitJson(rt, e.content), e.data));
    MessageAndFallbackKeepNoData(rt, c, e.message);
  }

  /** Every explicit non-data item is kept, in order, after at most one
      message item. */
  lemma SuccessContentKeepsItems(rt: Runtime, e: Envelope)
    requires e.content != []
    ensures var off := |SuccessContent(rt, e)| - |e.content|;
      (off == 0 || off == 1) &&
      forall k | 0 <= k < |e.content| && TypeOf(rt, ItemJson(rt, e.content[k])) != Some("data") ::
        SuccessContent(rt, e)[off + k] == ItemJson(rt, e.content[k])
  {
    var explicit := ExplicitJson(rt, e.content);
    assert WithFallbackData(rt, explicit, e.data) == explicit;
    var c := Compatible(rt, explicit);
    var m := WithMessage(rt, c, e.message);
    assert NonEmpty(m) == m;
    if m != c {
      assert m == [TextJson(e.message.value, map[])] + c;
      assert forall k | 0 <= k < |c| :: m[1 + k] == c[k];
    }
  }

  /** An explicit message appears first exactly when it is non-empty and no
      text item would otherwise be present. */
  lemma MessagePlacement(rt: Runtime, e: Envelope)
    requires !e.isError
    requires e.message.Some? && e.message.value != ""
    ensures var c := Compatible(rt, WithFallbackData(rt, ExplicitJson(rt, e.content), e.data));
      !HasText(rt, c) <==> SuccessContent(rt, e) == [TextJson(e.message.value, map[])] + c
  {
    var c := Compatible(rt, WithFallbackData(rt, ExplicitJson(rt, e.content), e.data));
    if HasText(rt, c) {
      assert c != [];
      assert SuccessContent(rt, e) == c;
      assert |[TextJson(e.message.value, map[])] + c| != |c|;
    }
  }

  /** An error result's JSON has exactly one content item: its error's, or
      the legacy text. */
  lemma ErrorJsonShape(rt: Runtime, e: Envelope)
    requires e.isError
    ensures EnvelopeJson(rt, e)["content"].JArray? && |EnvelopeJson(rt, e)["content"].items| == 1
    ensures e.error.Some? ==> EnvelopeJson(rt, e)["content"].items[0] == JObject(ErrorJson(e.error.value, ErrorItem(e.error.value, None).metadata))
  {
    var content := ErrorContentJson(rt, e);
    assert EnvelopeJson(rt, e)["content"] == JArray(Objects(content));
    if e.error.Some? {
      ErrorItemJson(rt, e.error.value);
    }
  }

  /** An error item's JSON is its error's. */
  lemma ErrorItemJson(rt: Runtime, error: MCPError)
    ensures ItemJson(rt, ErrorItem(error, None)) == ErrorJson(error, ErrorItem(error, None).metadata)
  {
    assert ErrorItem(error, None).body == ErrorBody(error);
  }

  // ---------------------------------------------------------------- objects

  class ToolResult {
    const data: Value
    const message: Option<string>
    const isError: bool
    const error: Option<MCPError>
    var content: seq<ContentItem>
    const metadata: map<string, Value>
    const errorMessage: Option<string>
    const errorCode: int

    function Snapshot(): Envelope
      reads this, content
    {
      Envelope(data, message, isError, error, Snapshots(content), metadata, errorMessage, errorCode)
    }

    /** The main private constructor: the content list and metadata map are
        copied, the items themselves shared. */
    constructor (data: Value, message: Option<string>, isError: bool, error: Option<MCPError>,
                 content: seq<ContentItem>, metadata: map<string, Value>)
      ensures this.content == content
      ensures Snapshot() == Make(data, message, isError, error, Snapshots(content), metadata)
    {
      this.data := data;
      this.message := message;
      this.isError := isError;
      this.error := error;
      this.content := content;
      this.metadata := metadata;
      errorMessage := if error.Some? then Some(error.value.userMessage) else None;
      errorCode := if error.Some? then error.value.errorCode else 0;
    }

    /** `success(data)` / `success(message, data)` */
    static method Success(data: Value, message: Option<string>) returns (r: ToolResult)
      ensures fresh(r) && r.content == [] && r.Snapshot() == SuccessEnvelope(data, message)
    {
      r := new ToolResult(data, message, false, None, [], map[]);
    }

    /** `error(MCPError)` / `error(MCPToolException)` */
    static method Error(e: MCPError) returns (r: ToolResult)
      ensures fresh(r) && r.content == [] && r.Snapshot() == ErrorEnvelope(e)
    {
      r := new ToolResult(Null, None, true, Some(e), [], map[]);
    }

    /** `error(String)` */
    static method LegacyError(message: string) returns (r: ToolResult)
      ensures fresh(r) && r.content == [] && r.Snapshot() == LegacyErrorEnvelope(message)
    {
      r := new ToolResult(Null, None, true, Some(System(message).Build()), [], map[]);
    }

    /** `error(int, String)` */
    static method LegacyErrorWithCode(code: int, message: string) returns (r: ToolResult)
      ensures fresh(r) && r.content == [] && r.Snapshot() == LegacyErrorCodeEnvelope(code, message)
    {
      r := new ToolResult(Null, None, true, Some(Custom("system", code, message).Build()), [], map[]);
    }

    /** `success(String text)`: the text is both data and one text item. */
    static method LegacySuccessText(text: Option<string>) returns (r: ToolResult)
      ensures fresh(r) && |r.content| == 1 && fresh(r.content[0])
      ensures r.Snapshot() == Make(if text.Some? then Str(text.value) else Null, None, false, None,
                                   [TextItem(text, None)], map[])
    {
      var item := new ContentItem.Text(text, None);
      r := new ToolResult(if text.Some? then Str(text.value) else Null, None, false, None, [item], map[]);
    }

    /** `success(String text, JsonObject data)`: a text and a data item, the
        text also as message. */
    static method LegacySuccessTextData(text: Option<string>, data: Option<Json>) returns (r: ToolResult)
      ensures fresh(r) && |r.content| == 2
      ensures var d := if data.Some? then JObject(data.value) else Null;
        r.Snapshot() == Make(d, text, false, None, [TextItem(text, None), DataItem(d, None)], map[])
    {
      var d := if data.Some? then JObject(data.value) else Null;
      var t := new ContentItem.Text(text, None);
      var di := new ContentItem.Data(d, None);
      r := new ToolResult(d, text, false, None, [t, di], map[]);
    }

    /** `success(JsonArray)`: the legacy constructor converts each element in
        order; a null element throws. */
    static method LegacySuccessArray(rt: Runtime, values: Option<seq<Value>>) returns (r: Result<ToolResult, JavaException>)
      ensures r.Ok? <==> values.None? || Null !in values.value
      ensures r.Ok? ==> fresh(r.value)
      ensures r.Ok? ==> r.value.Snapshot() == Make(Null, None, false, None,
                          if values.None? then [] else LegacyItems(rt, values.value).value, map[])
    {
      var items: seq<ContentItem> := [];
      if values.Some? {
        var vs := values.value;
        var i := 0;
        while i < |vs|
          invariant 0 <= i <= |vs|
          invariant |items| == i
          invariant forall k | 0 <= k < i :: fresh(items[k]) && vs[k] != Null
          invariant forall k | 0 <= k < i :: items[k].Snapshot() == LegacyItem(rt, vs[k])
        {
          var v := Wrapped(vs[i]);
          if vs[i] == Null {
            return Err(NullPointer(None));
          }
          var item: ContentItem;
          if v.JObject? {
            if GetStringOr(rt, v.fields, "type", "text") == Some("text") {
              item := new ContentItem.Text(GetStringOr(rt, v.fields, "text", ""), None);
            } else {
              item := new ContentItem.Data(v, None);
            }
          } else {
            item := new ContentItem.Text(Some(JavaString(rt, v)), None);
          }
          items := items + [item];
          i := i + 1;
        }
        SnapshotsAt(items);
        assert Snapshots(items) == LegacyItems(rt, vs).value;
      }
      var t := new ToolResult(Null, None, false, None, items, map[]);
      r := Ok(t);
    }

    /** Legacy `addText`: nothing happens on an error result; otherwise a new
        text item is appended in place. */
    method AddText(text: Option<string>) returns (self: ToolResult)
      modifies this
      ensures self == this
      ensures isError ==> content == old(content)
      ensures !isError ==> |content| == |old(content)| + 1 && content[..|old(content)|] == old(content)
      ensures !isError ==> fresh(content[|old(content)|]) && content[|old(content)|].Snapshot() == TextItem(text, None)
    {
      self := this;
      if isError {
        return;
      }
      var item := new ContentItem.Text(text, None);
      content := content + [item];
    }

    /** Legacy `addData(JsonObject)` */
    method AddData(d: Option<Json>) returns (self: ToolResult)
      modifies this
      ensures self == this
      ensures isError ==> content == old(content)
      ensures !isError ==> |content| == |old(content)| + 1 && content[..|old(content)|] == old(content)
      ensures !isError ==> fresh(content[|old(content)|])
      ensures !isError ==> content[|old(content)|].Snapshot() == DataItem(if d.Some? then JObject(d.value) else Null, None)
    {
      self := this;
      if isError {
        return;
      }
      var item := new ContentItem.Data(if d.Some? then JObject(d.value) else Null, None);
      content := content + [item];
    }

    /** Legacy `addImage` */
    method AddImage(base64: Option<string>, mimeType: Option<string>) returns (self: ToolResult)
      modifies this
      ensures self == this
      ensures isError ==> content == old(content)
      ensures !isError ==> |content| == |old(content)| + 1 && content[..|old(content)|] == old(content)
      ensures !isError ==> fresh(content[|old(content)|]) && content[|old(content)|].Snapshot() == ImageItem(base64, mimeType, None)
    {
      self := this;
      if isError {
        return;
      }
      var item := new ContentItem.Image(base64, mimeType, None);
      content := content + [item];
    }

    /** The explicit items' JSON, in order. */
    method ExplicitArray(rt: Runtime) returns (arr: seq<Json>)
      ensures arr == ExplicitJson(rt, Snapshots(content))
    {
      arr := [];
      var i := 0;
      while i < |content|
        invariant 0 <= i <= |content|
        invariant |arr| == i
        invariant forall k | 0 <= k < i :: arr[k] == ItemJson(rt, content[k].Snapshot())
      {
        arr := arr + [ItemJson(rt, content[i].Snapshot())];
        i := i + 1;
      }
      SnapshotsAt(content);
    }

    /** `toJsonObject()`, building the arrays step by step; the success
        branch throws where a data item's conversion throws. */
    method ToJsonObject(rt: Runtime) returns (json: Result<Json, JavaException>)
      ensures json == EnvelopeJsonAsWritten(rt, Snapshot())
    {
      ghost var env := Snapshot();
      var contentArray: seq<Json>;
      if isError {
        contentArray := ErrorArray(rt);
      } else {
        var success := SuccessArray(rt);
        if success.Err? {
          return Err(success.error);
        }
        contentArray := success.value;
      }
      var result := map["content" := JArray(Objects(contentArray))];
      if metadata != map[] {
        result := result["metadata" := JObject(metadata)];
      }
      assert result == WithMetadataEntry(map["content" := JArray(Objects(contentArray))], env.metadata);
      json := Ok(result);
    }

    /** The success branch of `toJsonObject()`: the explicit items or the
        fallback data item, made compatible, with the message in front when
        no text is there, and a default text when nothing is. */
    method SuccessArray(rt: Runtime) returns (r: Result<seq<Json>, JavaException>)
      ensures r == SuccessContentAsWritten(rt, Snapshot())
    {
      ghost var env := Snapshot();
      var arr := ExplicitArray(rt);
      if arr == [] && data != Null {
        var item := new ContentItem.Data(data, None);
        arr := [ItemJson(rt, item.Snapshot())];
        assert Snapshot() == env;
      }
      assert arr == WithFallbackData(rt, ExplicitJson(rt, env.content), env.data);
      var compatible := CompatibleArray(rt, arr);
      assert Snapshot() == env;
      if compatible.Err? {
        return Err(compatible.error);
      }
      arr := compatible.value;
      ghost var c := arr;
      if message.Some? && message.value != "" {
        var hasTextContent := ContainsText(rt, arr);
        assert Snapshot() == env;
        if !hasTextContent {
          arr := [TextJson(message.value, map[])] + arr;
        }
      }
      assert arr == WithMessage(rt, c, env.message);
      if arr == [] {
        arr := [TextJson("Operation completed successfully", map[])];
      }
      r := Ok(arr);
      assert r == SuccessContentAsWritten(rt, env);
    }

    /** The error branch of `toJsonObject()`: one item. */
    method ErrorArray(rt: Runtime) returns (arr: seq<Json>)
      ensures arr == ErrorContentJson(rt, Snapshot())
    {
      if error.Some? {
        var item := new ContentItem.Error(error.value, None);
        arr := [ItemJson(rt, item.Snapshot())];
      } else {
        arr := [TextJson("Error: " + errorMessage.GetOr("null"), map[])];
      }
    }
  }

  /** The compatibility pass: each data item replaced by its text, the
      first conversion that throws ending the loop. */
  method CompatibleArray(rt: Runtime, arr: seq<Json>) returns (r: Result<seq<Json>, JavaException>)
    ensures r == CompatibleAsWritten(rt, arr)
  {
    var out := [];
    var i := 0;
    while i < |arr|
      invariant 0 <= i <= |arr|
      invariant CompatibleAsWritten(rt, arr[..i]) == Ok(out)
    {
      assert arr[..i + 1][..i] == arr[..i];
      if TypeOf(rt, arr[i]) == Some("data") {
        var text := DataAsTextAsWritten(rt, arr[i]);
        if text.Err? {
          assert CompatibleAsWritten(rt, arr[..i + 1]) == Err(text.error);
          CompatibleAsWrittenStops(rt, arr, i + 1);
          return Err(text.error);
        }
        out := out + [text.value];
      } else {
        out := out + [arr[i]];
      }
      i := i + 1;
    }
    assert arr[..i] == arr;
    r := Ok(out);
  }

  /** The search for a text item, stopping at the first. */
  method ContainsText(rt: Runtime, arr: seq<Json>) returns (found: bool)
    ensures found <==> HasText(rt, arr)
  {
    found := false;
    var i := 0;
    while i < |arr| && !found
      invariant 0 <= i <= |arr|
      invariant found <==> exists k | 0 <= k < i :: TypeOf(rt, arr[k]) == Some("text")
    {
      if TypeOf(rt, arr[i]) == Some("text") {
        found := true;
      }
      i := i + 1;
    }
  }

  /** ToolResult.ToolResultBuilder */
  class ToolResultBuilder {
    var message: Option<string>
    var data: Value
    var content: seq<ContentItem>
    var metadata: map<string, Value>

    constructor ()
      ensures message == None && data == Null && content == [] && metadata == map[]
    {
      message := None;
      data := Null;
      content := [];
      metadata := map[];
    }

    method SetMessage(m: Option<string>)
      modifies this
      ensures message == m && data == old(data) && content == old(content) && metadata == old(metadata)
    {
      message := m;
    }

    method SetData(d: Value)
      modifies this
      ensures data == d && message == old(message) && content == old(content) && metadata == old(metadata)
    {
      data := d;
    }

    /** `addContent`: appends in call order. */
    method AddContent(item: ContentItem)
      modifies this
      ensures content == old(content) + [item]
      ensures Snapshots(content) == old(Snapshots(content)) + [item.Snapshot()]
      ensures message == old(message) && data == old(data) && metadata == old(metadata)
    {
      SnapshotsAppend(content, item);
      content := content + [item];
    }

    method AddText(text: Option<string>) returns (item: ContentItem)
      modifies this
      ensures fresh(item) && item.Snapshot() == TextItem(text, None)
      ensures content == old(content) + [item]
      ensures Snapshots(content) == old(Snapshots(content)) + [TextItem(text, None)]
      ensures message == old(message) && data == old(data) && metadata == old(metadata)
    {
      item := new ContentItem.Text(text, None);
      AddContent(item);
    }

    method AddData(d: Value) returns (item: ContentItem)
      modifies this
      ensures fresh(item) && item.Snapshot() == DataItem(d, None)
      ensures content == old(content) + [item]
      ensures Snapshots(content) == old(Snapshots(content)) + [DataItem(d, None)]
      ensures message == old(message) && data == old(data) && metadata == old(metadata)
    {
      item := new ContentItem.Data(d, None);
      AddContent(item);
    }

    method AddImage(base64: Option<string>, mimeType: Option<string>) returns (item: ContentItem)
      modifies this
      ensures fresh(item) && item.Snapshot() == ImageItem(base64, mimeType, None)
      ensures content == old(content) + [item]
      ensures message == old(message) && data == old(data) && metadata == old(metadata)
    {
      item := new ContentItem.Image(base64, mimeType, None);
      AddContent(item);
    }

    /** `metadata(k, v)`: the same key is overwritten. */
    method PutMetadata(key: string, value: Value)
      modifies this
      ensures metadata == old(metadata)[key := value]
      ensures message == old(message) && data == old(data) && content == old(content)
      ensures Snapshots(content) == old(Snapshots(content))
    {
      metadata := metadata[key := value];
    }

    /** `build()`: never an error result. */
    method Build() returns (r: ToolResult)
      ensures fresh(r) && r.content == content
      ensures r.Snapshot() == Make(data, message, false, None, Snapshots(content), metadata)
      ensures !r.isError && r.error.None?
    {
      r := new ToolResult(data, message, false, None, content, metadata);
    }
  }
}

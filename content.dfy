/** The four kinds of content item a tool result carries (the content package):
    their constructors' normalisation, their mutable metadata and their JSON
    form. An item's kind and payload are fixed; only its metadata map is
    updated in place. */
module Content {
  import opened Wrappers
  import opened Values
  import opened Errors

  /** What an item holds besides its metadata. `dataType` is fixed when the
      data item is built. */
  datatype Payload =
    | TextBody(text: string)
    | DataBody(data: Value, dataType: string)
    | ImageBody(base64: string, mimeType: string)
    | ErrorBody(error: MCPError)
  {
    /** The `type` string fixed by each subclass constructor. */
    function TypeName(): string
    {
      match this
      case TextBody(_) => "text"
      case DataBody(_, _) => "data"
      case ImageBody(_, _) => "image"
      case ErrorBody(_) => "error"
    }
  }

  /** An item at one moment: its payload and its metadata. */
  datatype Item = Item(body: Payload, metadata: map<string, Value>)

  /** `new TextContent(text[, metadata])`: null text becomes "", null
      metadata an empty map. */
  function TextItem(text: Option<string>, metadata: Option<map<string, Value>>): (item: Item)
    ensures item.body == TextBody(text.GetOr(""))
    ensures item.metadata == metadata.GetOr(map[])
  {
    Item(TextBody(text.GetOr("")), metadata.GetOr(map[]))
  }

  /** `new DataContent(data[, metadata])`: the data type is the payload's
      simple class name ("null" for null) and is put into the metadata over
      any caller value. */
  function DataItem(data: Value, metadata: Option<map<string, Value>>): (item: Item)
    ensures item.body == DataBody(data, SimpleName(data))
    ensures item.body.dataType == "null" <== data == Null
    ensures "dataType" in item.metadata && item.metadata["dataType"] == Str(SimpleName(data))
    ensures forall k | k in metadata.GetOr(map[]) && k != "dataType" :: k in item.metadata && item.metadata[k] == metadata.value[k]
    ensures item.metadata.Keys == metadata.GetOr(map[]).Keys + {"dataType"}
  {
    Item(DataBody(data, SimpleName(data)), metadata.GetOr(map[])["dataType" := Str(SimpleName(data))])
  }

  /** `new ImageContent(base64, mimeType[, metadata])`: null data becomes "",
      a null MIME type "image/png", and the effective MIME type is put into
      the metadata over any caller value. */
  function ImageItem(base64: Option<string>, mimeType: Option<string>, metadata: Option<map<string, Value>>): (item: Item)
    ensures item.body == ImageBody(base64.GetOr(""), mimeType.GetOr("image/png"))
    ensures "mimeType" in item.metadata && item.metadata["mimeType"] == Str(item.body.mimeType)
    ensures item.metadata.Keys == metadata.GetOr(map[]).Keys + {"mimeType"}
  {
    var mime := mimeType.GetOr("image/png");
    Item(ImageBody(base64.GetOr(""), mime), metadata.GetOr(map[])["mimeType" := Str(mime)])
  }

  /** `new ErrorContent(error[, metadata])`: the error's type and code are put
      into the metadata. */
  function ErrorItem(error: MCPError, metadata: Option<map<string, Value>>): (item: Item)
    ensures item.body == ErrorBody(error)
    ensures "errorType" in item.metadata && item.metadata["errorType"] == Str(error.errorType)
    ensures "errorCode" in item.metadata && item.metadata["errorCode"] == Num(IntKind, error.errorCode)
    ensures item.metadata.Keys == metadata.GetOr(map[]).Keys + {"errorType", "errorCode"}
  {
    Item(ErrorBody(error),
         metadata.GetOr(map[])["errorType" := Str(error.errorType)]["errorCode" := Num(IntKind, error.errorCode)])
  }

  // -------------------------------------------------------------------- toJson

  /** The "metadata" entry every `toJson` adds when the map is non-empty. */
  function WithMetadataEntry(json: map<string, Value>, metadata: map<string, Value>): (r: map<string, Value>)
    ensures "metadata" in r <==> "metadata" in json || metadata != map[]
    ensures metadata != map[] ==> r["metadata"] == JObject(metadata)
    ensures forall k | k in json && k != "metadata" :: k in r && r[k] == json[k]
    ensures r.Keys == json.Keys + (if metadata == map[] then {} else {"metadata"})
  {
    if metadata == map[] then json else json["metadata" := JObject(metadata)]
  }

  /** `TextContent.toJson()` */
  function TextJson(text: string, metadata: map<string, Value>): (r: map<string, Value>)
    ensures r.Keys == {"type", "text"} + (if metadata == map[] then {} else {"metadata"})
    ensures r["type"] == Str("text") && r["text"] == Str(text)
  {
    WithMetadataEntry(map["type" := Str("text"), "text" := Str(text)], metadata)
  }

  /** How `DataContent.toJson()` renders its payload: null as JSON null,
      JSON containers embedded, anything else converted to a JSON object or,
      when conversion throws, its `toString()` plus the exception message. */
  function DataPayloadJson(rt: Runtime, data: Value): (r: map<string, Value>)
    ensures data == Null ==> r == map["data" := Null]
    ensures data.JObject? || data.JArray? ==> r == map["data" := data]
    ensures "data" in r && ("serializationError" in r ==> r.Keys == {"data", "serializationError"})
    ensures "serializationError" in r <==> data != Null && !data.JObject? && !data.JArray? && rt.mapFrom(data).Err?
    ensures "serializationError" in r ==> r["data"] == Str(JavaString(rt, data))
  {
    if data == Null then map["data" := Null]
    else if data.JObject? || data.JArray? then map["data" := data]
    else match rt.mapFrom(data)
      case Ok(m) => map["data" := JObject(m)]
      case Err(msg) =>
        map["data" := Str(JavaString(rt, data)),
            "serializationError" := if msg.Some? then Str(msg.value) else Null]
  }

  /** `DataContent.toJson()` */
  function DataJson(rt: Runtime, data: Value, dataType: string, metadata: map<string, Value>): (r: map<string, Value>)
    ensures "type" in r && r["type"] == Str("data")
    ensures "dataType" in r && r["dataType"] == Str(dataType)
    ensures "data" in r && r["data"] == DataPayloadJson(rt, data)["data"]
    ensures "metadata" in r <==> metadata != map[]
  {
    var payload := DataPayloadJson(rt, data);
    var base := payload["type" := Str("data")]["dataType" := Str(dataType)];
    assert "metadata" !in base;
    WithMetadataEntry(base, metadata)
  }

  /** `ImageContent.toJson()` */
  function ImageJson(base64: string, mimeType: string, metadata: map<string, Value>): (r: map<string, Value>)
    ensures r.Keys == {"type", "data", "mimeType"} + (if metadata == map[] then {} else {"metadata"})
    ensures r["type"] == Str("image") && r["data"] == Str(base64) && r["mimeType"] == Str(mimeType)
  {
    WithMetadataEntry(map["type" := Str("image"), "data" := Str(base64), "mimeType" := Str(mimeType)], metadata)
  }

  /** A string field `ErrorContent.toJson()` emits only when non-null and
      non-empty. */
  predicate Present(s: Option<string>)
  {
    s.Some? && s.value != ""
  }

  function Strs(items: seq<string>): (r: seq<Value>)
    ensures |r| == |items| && forall i | 0 <= i < |items| :: r[i] == Str(items[i])
  {
    if items == [] then [] else [Str(items[0])] + Strs(items[1..])
  }

  /** Puts `key` only when `cond` holds. */
  function PutIf(j: map<string, Value>, cond: bool, key: string, v: Value): (r: map<string, Value>)
    ensures cond ==> r == j[key := v]
    ensures !cond ==> r == j
  {
    if cond then j[key := v] else j
  }

  /** `ErrorContent.toJson()`: the four fixed fields, then each optional
      field only when it has content. */
  function ErrorJson(e: MCPError, metadata: map<string, Value>): (r: map<string, Value>)
    ensures "type" in r && r["type"] == Str("error")
  {
    var j0 := map["type" := Str("error"), "errorType" := Str(e.errorType),
                  "userMessage" := Str(e.userMessage), "errorCode" := Num(IntKind, e.errorCode)];
    var j1 := PutIf(j0, Present(e.technicalMessage), "technicalMessage", Str(e.technicalMessage.GetOr("")));
    var j2 := PutIf(j1, Present(e.suggestedAction), "suggestedAction", Str(e.suggestedAction.GetOr("")));
    var j3 := PutIf(j2, e.suggestions != [], "suggestions", JArray(Strs(e.suggestions)));
    var j4 := PutIf(j3, e.context != map[], "context", JObject(e.context));
    WithMetadataEntry(j4, metadata)
  }

  /** `PutIf` leaves every other key as it was. */
  lemma PutIfOthers(j: map<string, Value>, cond: bool, key: string, v: Value, other: string)
    requires other != key
    ensures other in PutIf(j, cond, key, v) <==> other in j
    ensures other in j ==> PutIf(j, cond, key, v)[other] == j[other]
  {
  }

  /** The error's JSON always carries its kind, message and code, and each
      optional field exactly when the error has it. */
  lemma ErrorJsonFields(e: MCPError, metadata: map<string, Value>)
    ensures var r := ErrorJson(e, metadata);
      && "errorType" in r && r["errorType"] == Str(e.errorType)
      && "userMessage" in r && r["userMessage"] == Str(e.userMessage)
      && "errorCode" in r && r["errorCode"] == Num(IntKind, e.errorCode)
      && ("technicalMessage" in r <==> Present(e.technicalMessage))
      && ("technicalMessage" in r ==> r["technicalMessage"] == Str(e.technicalMessage.value))
      && ("suggestedAction" in r <==> Present(e.suggestedAction))
      && ("suggestedAction" in r ==> r["suggestedAction"] == Str(e.suggestedAction.value))
      && ("suggestions" in r <==> e.suggestions != [])
      && ("suggestions" in r ==> r["suggestions"] == JArray(Strs(e.suggestions)))
      && ("context" in r <==> e.context != map[])
      && ("context" in r ==> r["context"] == JObject(e.context))
      && ("metadata" in r <==> metadata != map[])
  {
    ErrorJsonFixedFields(e, metadata);
    ErrorJsonOptionalFields(e, metadata);
  }

  /** The three fields every error JSON has. */
  lemma ErrorJsonFixedFields(e: MCPError, metadata: map<string, Value>)
    ensures var r := ErrorJson(e, metadata);
      && "errorType" in r && r["errorType"] == Str(e.errorType)
      && "userMessage" in r && r["userMessage"] == Str(e.userMessage)
      && "errorCode" in r && r["errorCode"] == Num(IntKind, e.errorCode)
  {
    var j0 := map["type" := Str("error"), "errorType" := Str(e.errorType),
                  "userMessage" := Str(e.userMessage), "errorCode" := Num(IntKind, e.errorCode)];
    var j1 := PutIf(j0, Present(e.technicalMessage), "technicalMessage", Str(e.technicalMessage.GetOr("")));
    var j2 := PutIf(j1, Present(e.suggestedAction), "suggestedAction", Str(e.suggestedAction.GetOr("")));
    var j3 := PutIf(j2, e.suggestions != [], "suggestions", JArray(Strs(e.suggestions)));
    var j4 := PutIf(j3, e.context != map[], "context", JObject(e.context));
    assert |"errorType"| != |"technicalMessage"| && |"errorType"| != |"suggestedAction"| && |"errorType"| != |"suggestions"|
      && |"errorType"| != |"context"| && |"errorType"| != |"metadata"|;
    assert |"userMessage"| != |"technicalMessage"| && |"userMessage"| != |"suggestedAction"| && "userMessage"[0] != "suggestions"[0]
      && |"userMessage"| != |"context"| && |"userMessage"| != |"metadata"|;
    assert |"errorCode"| != |"technicalMessage"| && |"errorCode"| != |"suggestedAction"| && |"errorCode"| != |"suggestions"|
      && |"errorCode"| != |"context"| && |"errorCode"| != |"metadata"|;
  }

  /** The optional fields, each present exactly when the error has it. */
  lemma ErrorJsonOptionalFields(e: MCPError, metadata: map<string, Value>)
    ensures var r := ErrorJson(e, metadata);
      && ("technicalMessage" in r <==> Present(e.technicalMessage))
      && ("technicalMessage" in r ==> r["technicalMessage"] == Str(e.technicalMessage.value))
      && ("suggestedAction" in r <==> Present(e.suggestedAction))
      && ("suggestedAction" in r ==> r["suggestedAction"] == Str(e.suggestedAction.value))
      && ("suggestions" in r <==> e.suggestions != [])
      && ("suggestions" in r ==> r["suggestions"] == JArray(Strs(e.suggestions)))
      && ("context" in r <==> e.context != map[])
      && ("context" in r ==> r["context"] == JObject(e.context))
      && ("metadata" in r <==> metadata != map[])
  {
    var j0 := map["type" := Str("error"), "errorType" := Str(e.errorType),
                  "userMessage" := Str(e.userMessage), "errorCode" := Num(IntKind, e.errorCode)];
    var j1 := PutIf(j0, Present(e.technicalMessage), "technicalMessage", Str(e.technicalMessage.GetOr("")));
    var j2 := PutIf(j1, Present(e.suggestedAction), "suggestedAction", Str(e.suggestedAction.GetOr("")));
    var j3 := PutIf(j2, e.suggestions != [], "suggestions", JArray(Strs(e.suggestions)));
    var j4 := PutIf(j3, e.context != map[], "context", JObject(e.context));
    assert "technicalMessage" !in j0 by {
      assert |"technicalMessage"| != |"type"| && |"technicalMessage"| != |"errorType"|
        && |"technicalMessage"| != |"userMessage"| && |"technicalMessage"| != |"errorCode"|;
    }
    assert "suggestedAction" !in j1 by {
      assert |"suggestedAction"| != |"type"| && |"suggestedAction"| != |"errorType"|
        && |"suggestedAction"| != |"userMessage"| && |"suggestedAction"| != |"errorCode"|;
      PutIfOthers(j0, Present(e.technicalMessage), "technicalMessage", Str(e.technicalMessage.GetOr("")), "suggestedAction");
    }
    assert "suggestions" !in j2 by {
      assert |"suggestions"| != |"type"| && |"suggestions"| != |"errorType"| && "suggestions"[0] != "userMessage"[0]
        && |"suggestions"| != |"errorCode"| && |"suggestions"| != |"technicalMessage"| && |"suggestions"| != |"suggestedAction"|;
      PutIfOthers(j0, Present(e.technicalMessage), "technicalMessage", Str(e.technicalMessage.GetOr("")), "suggestions");
      PutIfOthers(j1, Present(e.suggestedAction), "suggestedAction", Str(e.suggestedAction.GetOr("")), "suggestions");
    }
    assert "context" !in j3 by {
      assert |"context"| != |"type"| && |"context"| != |"errorType"| && |"context"| != |"userMessage"|
        && |"context"| != |"errorCode"| && |"context"| != |"technicalMessage"| && |"context"| != |"suggestedAction"|
        && |"context"| != |"suggestions"|;
      PutIfOthers(j0, Present(e.technicalMessage), "technicalMessage", Str(e.technicalMessage.GetOr("")), "context");
      PutIfOthers(j1, Present(e.suggestedAction), "suggestedAction", Str(e.suggestedAction.GetOr("")), "context");
      PutIfOthers(j2, e.suggestions != [], "suggestions", JArray(Strs(e.suggestions)), "context");
    }
    assert "metadata" !in j4 by {
      assert |"metadata"| != |"type"| && |"metadata"| != |"errorType"| && |"metadata"| != |"userMessage"|
        && |"metadata"| != |"errorCode"| && |"metadata"| != |"technicalMessage"| && |"metadata"| != |"suggestedAction"|
        && |"metadata"| != |"suggestions"| && |"metadata"| != |"context"|;
      PutIfOthers(j0, Present(e.technicalMessage), "technicalMessage", Str(e.technicalMessage.GetOr("")), "metadata");
      PutIfOthers(j1, Present(e.suggestedAction), "suggestedAction", Str(e.suggestedAction.GetOr("")), "metadata");
      PutIfOthers(j2, e.suggestions != [], "suggestions", JArray(Strs(e.suggestions)), "metadata");
      PutIfOthers(j3, e.context != map[], "context", JObject(e.context), "metadata");
    }
  }

  /** `item.toJson()`: every item's JSON carries its own `type`. */
  function ItemJson(rt: Runtime, item: Item): (r: map<string, Value>)
    ensures "type" in r && r["type"] == Str(item.body.TypeName())
  {
    match item.body
    case TextBody(text) => TextJson(text, item.metadata)
    case DataBody(data, dataType) => DataJson(rt, data, dataType, item.metadata)
    case ImageBody(b, mime) => ImageJson(b, mime, item.metadata)
    case ErrorBody(e) => ErrorJson(e, item.metadata)
  }

  /** A data item always emits its metadata, since it always holds
      `dataType`; likewise image and error items. */
  lemma ConstructedItemsEmitMetadata(rt: Runtime, data: Value, e: MCPError, b: Option<string>, mime: Option<string>,
                                     metadata: Option<map<string, Value>>)
    ensures "metadata" in ItemJson(rt, DataItem(data, metadata))
    ensures "metadata" in ItemJson(rt, ImageItem(b, mime, metadata))
    ensures "metadata" in ItemJson(rt, ErrorItem(e, metadata))
    ensures metadata.None? ==> "metadata" !in ItemJson(rt, TextItem(b, metadata))
  {
    DataItemEmitsMetadata(rt, data, metadata);
    ImageItemEmitsMetadata(rt, b, mime, metadata);
    ErrorItemEmitsMetadata(rt, e, metadata);
  }

  lemma DataItemEmitsMetadata(rt: Runtime, data: Value, metadata: Option<map<string, Value>>)
    ensures "metadata" in ItemJson(rt, DataItem(data, metadata))
  {
    assert "dataType" in DataItem(data, metadata).metadata;
  }

  lemma ImageItemEmitsMetadata(rt: Runtime, b: Option<string>, mime: Option<string>, metadata: Option<map<string, Value>>)
    ensures "metadata" in ItemJson(rt, ImageItem(b, mime, metadata))
  {
    assert "mimeType" in ImageItem(b, mime, metadata).metadata;
  }

  lemma ErrorItemEmitsMetadata(rt: Runtime, e: MCPError, metadata: Option<map<string, Value>>)
    ensures "metadata" in ItemJson(rt, ErrorItem(e, metadata))
  {
    assert "errorType" in ErrorItem(e, metadata).metadata;
  }

  // ----------------------------------------------------------------- toString

  /** The text `TextContent.toString()` shows: at most 50 characters, then
      "..." when it was cut. */
  function Abbreviated(text: string): (r: string)
    ensures |text| <= 50 ==> r == text
    ensures |text| > 50 ==> |r| == 53 && r[..50] == text[..50] && r[50..] == "..."
  {
    if |text| > 50 then text[..50] + "..." else text
  }

  function TextItemString(rt: Runtime, text: string, metadata: map<string, Value>): string
  {
    "TextContent{text='" + Abbreviated(text) + "', metadata=" + rt.describe(Dict("HashMap", metadata)) + "}"
  }

  /** `ImageContent.toString()` reports the length of the data, not the data. */
  function ImageItemString(rt: Runtime, base64: string, mimeType: string, metadata: map<string, Value>): string
  {
    "ImageContent{mimeType='" + mimeType + "', dataSize=" + Text.NatToString(|base64|)
      + ", metadata=" + rt.describe(Dict("HashMap", metadata)) + "}"
  }

  // -------------------------------------------------------------- the objects

  /** A ContentItem object: its payload is final, its metadata map is its
      own and `withMetadata` changes it in place. */
  class ContentItem {
    const body: Payload
    var metadata: map<string, Value>

    function Snapshot(): Item
      reads this
    {
      Item(body, metadata)
    }

    constructor Text(text: Option<string>, md: Option<map<string, Value>>)
      ensures Snapshot() == TextItem(text, md)
    {
      body := TextBody(text.GetOr(""));
      metadata := md.GetOr(map[]);
    }

    constructor Data(data: Value, md: Option<map<string, Value>>)
      ensures Snapshot() == DataItem(data, md)
    {
      var dataType := SimpleName(data);
      body := DataBody(data, dataType);
      metadata := md.GetOr(map[]);
      new;
      metadata := metadata["dataType" := Str(dataType)];
    }

    constructor Image(base64: Option<string>, mimeType: Option<string>, md: Option<map<string, Value>>)
      ensures Snapshot() == ImageItem(base64, mimeType, md)
    {
      var mime := mimeType.GetOr("image/png");
      body := ImageBody(base64.GetOr(""), mime);
      metadata := md.GetOr(map[]);
      new;
      metadata := metadata["mimeType" := Str(mime)];
    }

    constructor Error(error: MCPError, md: Option<map<string, Value>>)
      ensures Snapshot() == ErrorItem(error, md)
    {
      body := ErrorBody(error);
      metadata := md.GetOr(map[]);
      new;
      metadata := metadata["errorType" := Str(error.errorType)];
      metadata := metadata["errorCode" := Num(IntKind, error.errorCode)];
    }

    /** `getType()`: fixed at construction. */
    function Type(): string
    {
      body.TypeName()
    }

    /** `withMetadata(k, v)`: puts into this item's own map and returns the
        item itself. */
    method WithMetadata(key: string, value: Value) returns (self: ContentItem)
      modifies this
      ensures self == this
      ensures metadata == old(metadata)[key := value]
    {
      metadata := metadata[key := value];
      self := this;
    }
  }

  /** The state of a list of items, in order. */
  function Snapshots(items: seq<ContentItem>): (r: seq<Item>)
    reads items
    ensures |r| == |items|
  {
    if items == [] then [] else [items[0].Snapshot()] + Snapshots(items[1..])
  }

  /** Each item's state is at its position. */
  lemma {:induction false} SnapshotsAt(items: seq<ContentItem>)
    ensures forall k | 0 <= k < |items| :: Snapshots(items)[k] == items[k].Snapshot()
    decreases |items|
  {
    if items != [] {
      SnapshotsAt(items[1..]);
      forall k | 1 <= k < |items|
        ensures Snapshots(items)[k] == items[k].Snapshot()
      {
        assert items[1..][k - 1] == items[k];
      }
    }
  }

  /** Appending an item appends its state. */
  lemma {:induction false} SnapshotsAppend(items: seq<ContentItem>, x: ContentItem)
    ensures Snapshots(items + [x]) == Snapshots(items) + [x.Snapshot()]
    decreases |items|
  {
    if items == [] {
      assert items + [x] == [x];
    } else {
      assert (items + [x])[1..] == items[1..] + [x];
      SnapshotsAppend(items[1..], x);
    }
  }
}

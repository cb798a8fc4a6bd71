/** MCPResource, the verticle base class of resources, and
    AnnotatedMCPResource, which takes the URI and definition from its
    `@MCPResource` annotation: URI validation, the event-bus address, URI
    query parameters, the response constructors and the reply to each
    outcome of a read. */
module Resources {
  import opened Wrappers
  import opened Values
  import opened Text
  import opened Exceptions
  import opened Annotations
  import opened ToolBase
  import Config

  // ------------------------------------------------------------ URI and address

  /** `validateUri(uri)`: null or whitespace-only URIs are rejected. */
  function UriFailure(uri: Option<string>): (r: Option<JavaException>)
    ensures r.None? <==> uri.Some? && !IsBlank(uri.value)
    ensures r.Some? ==> r.value == IllegalArgument(Some("Resource URI cannot be null or empty"))
  {
    if uri.None? || IsBlank(uri.value) then Some(IllegalArgument(Some("Resource URI cannot be null or empty")))
    else None
  }

  /** The address `start` registers: "resources." followed by the URI with
      every character that is not an ASCII letter or digit replaced by '_'. */
  function ResourceAddress(uri: string): (r: string)
    ensures |r| == 10 + |uri| && r[..10] == "resources."
    ensures forall i | 0 <= i < |uri| :: r[10 + i] == (if IsAlphanumeric(uri[i]) then uri[i] else '_')
  {
    "resources." + Sanitize(uri)
  }

  /** The address part after the prefix is made of letters, digits and
      '_' only, and URIs that differ only in such characters share it. */
  lemma ResourceAddressShape(uri1: string, uri2: string)
    ensures forall i | 10 <= i < |ResourceAddress(uri1)| ::
      IsAlphanumeric(ResourceAddress(uri1)[i]) || ResourceAddress(uri1)[i] == '_'
    ensures |uri1| == |uri2| && (forall i | 0 <= i < |uri1| ::
        (uri1[i] == uri2[i] || (!IsAlphanumeric(uri1[i]) && !IsAlphanumeric(uri2[i]))))
      ==> ResourceAddress(uri1) == ResourceAddress(uri2)
  {
    forall i | 10 <= i < |ResourceAddress(uri1)|
      ensures IsAlphanumeric(ResourceAddress(uri1)[i]) || ResourceAddress(uri1)[i] == '_'
    {
      assert ResourceAddress(uri1)[10 + (i - 10)] == ResourceAddress(uri1)[i];
    }
    if |uri1| == |uri2| && (forall i | 0 <= i < |uri1| ::
        (uri1[i] == uri2[i] || (!IsAlphanumeric(uri1[i]) && !IsAlphanumeric(uri2[i])))) {
      var a1 := ResourceAddress(uri1);
      var a2 := ResourceAddress(uri2);
      forall i | 0 <= i < |a1| ensures a1[i] == a2[i] {
        if i >= 10 {
          assert a1[10 + (i - 10)] == a2[10 + (i - 10)];
        } else {
          assert a1[..10] == a2[..10];
        }
      }
    }
  }

  /** The verticle listens where the configuration processor says a
      resource without an explicit address lives. */
  lemma AddressAgreesWithConfig(cls: ClassDescriptor)
    requires cls.resource.Some? && cls.resource.value.eventBusAddress == ""
    ensures Config.ResourceComponentOf(cls).eventBusAddress == ResourceAddress(cls.resource.value.uri)
  {
  }

  // --------------------------------------------------------- URI parameters

  /** `getRequiredUriParam(uri, paramName)` as written: split the URI at
      "<paramName>=", take the second piece and split it at '&'. A second
      piece made only of '&' characters splits into an empty array, whose
      element 0 does not exist. The parameter name is read as a literal. */
  function RequiredUriParamAsWritten(uri: string, paramName: string): (r: Result<string, JavaException>)
    ensures !Contains(uri, paramName + "=") ==> r == Err(NotFoundInUri(uri, paramName))
    ensures r.Ok? ==> r.value != "" && '&' !in r.value
    ensures r.Err? ==> r.error == NotFoundInUri(uri, paramName) || r.error == IndexOutOfBounds(Some("Index 0 out of bounds for length 0"))
  {
    var key := paramName + "=";
    var notFound := NotFoundInUri(uri, paramName);
    if !Contains(uri, key) then Err(notFound)
    else
      var parts := Split(uri, key);
      if |parts| <= 1 then Err(notFound)
      else
        var pieces := Split(parts[1], "&");
        if pieces == [] then Err(IndexOutOfBounds(Some("Index 0 out of bounds for length 0")))
        else if pieces[0] == "" then Err(notFound)
        else
          SplitHeadHasNoSeparator(parts[1], "&");
          Ok(pieces[0])
  }

  /** The exception of a parameter that is missing from the URI. */
  function NotFoundInUri(uri: string, paramName: string): JavaException
  {
    IllegalArgument(Some("Required parameter '" + paramName + "' not found in URI: " + uri))
  }

  /** `getOptionalUriParam` as written: only IllegalArgumentException is
      caught. */
  function OptionalUriParamAsWritten(uri: string, paramName: string, default: string): (r: Result<string, JavaException>)
    ensures RequiredUriParamAsWritten(uri, paramName).Ok? ==> r == RequiredUriParamAsWritten(uri, paramName)
    ensures r.Err? <==> RequiredUriParamAsWritten(uri, paramName).Err? && RequiredUriParamAsWritten(uri, paramName).error.IndexOutOfBounds?
    ensures r.Err? ==> r == RequiredUriParamAsWritten(uri, paramName)
    ensures !Contains(uri, paramName + "=") ==> r == Ok(default)
  {
    match RequiredUriParamAsWritten(uri, paramName)
    case Ok(v) => Ok(v)
    case Err(e) => if e.IsIllegalArgument() then Ok(default) else Err(e)
  }

  /** "r?id=&" has an empty value, yet instead of the "not found" error the
      required getter throws ArrayIndexOutOfBoundsException, which the
      optional getter lets through. */
  lemma UriParamAsWrittenIndexFailure()
    ensures RequiredUriParamAsWritten("r?id=&", "id").Err?
    ensures RequiredUriParamAsWritten("r?id=&", "id").error.IndexOutOfBounds?
    ensures OptionalUriParamAsWritten("r?id=&", "id", "none").Err?
  {
    SplitAtKey();
    SplitLoneAmpersand();
    assert "id" + "=" == "id=";
  }

  /** "r?id=&" splits at "id=" into "r?" and "&". */
  lemma SplitAtKey()
    ensures Contains("r?id=&", "id=") && Split("r?id=&", "id=") == ["r?", "&"]
  {
    var uri := "r?id=&";
    assert OccursAt(uri, "id=", 2) by { assert uri[2..5] == "id="; }
    ContainsAt(uri, "id=", 2);
    assert uri == "r?" + "id=" + "&";
    assert uri[0..][0] == 'r' && uri[1..][0] == '?';
    SplitAllFirst("r?", "&", "id=");
    assert "&"[0..] == "&";
    SplitAllNone("&", "id=");
    assert SplitAll(uri, "id=") == ["r?", "&"];
  }

  /** "&".split("&") is empty: both pieces are empty and trailing. */
  lemma SplitLoneAmpersand()
    ensures Split("&", "&") == []
  {
    assert OccursAt("&", "&", 0);
    ContainsAt("&", "&", 0);
    assert SplitAll("&", "&") == ["", ""] by {
      assert "&" <= "&" && "&"[1..] == [];
    }
  }

  /** `getRequiredUriParam` as evidently intended: an empty value, however
      it arises, is reported as a missing parameter. */
  function RequiredUriParam(uri: string, paramName: string): (r: Result<string, JavaException>)
    ensures r.Ok? ==> r.value != "" && '&' !in r.value
    ensures r.Err? ==> r.error == NotFoundInUri(uri, paramName)
  {
    var key := paramName + "=";
    var notFound := NotFoundInUri(uri, paramName);
    if !Contains(uri, key) then Err(notFound)
    else
      var parts := Split(uri, key);
      if |parts| <= 1 then Err(notFound)
      else
        var pieces := Split(parts[1], "&");
        if pieces == [] || pieces[0] == "" then Err(notFound)
        else
          SplitHeadHasNoSeparator(parts[1], "&");
          Ok(pieces[0])
  }

  /** `getOptionalUriParam(uri, paramName, default)` over the corrected
      getter. */
  function OptionalUriParam(uri: string, paramName: string, default: string): (r: string)
    ensures RequiredUriParam(uri, paramName).Err? <==> r == default && RequiredUriParam(uri, paramName) != Ok(default)
    ensures r != default ==> r != "" && '&' !in r && RequiredUriParam(uri, paramName) == Ok(r)
  {
    match RequiredUriParam(uri, paramName)
    case Ok(v) => v
    case Err(_) => default
  }

  /** The corrected getter agrees with the code wherever the code does not
      fail on the missing array element, and the optional getter returns
      the default exactly where the required one fails. */
  lemma UriParamCorrection(uri: string, paramName: string, default: string)
    ensures !RequiredUriParamAsWritten(uri, paramName).Err? || !RequiredUriParamAsWritten(uri, paramName).error.IndexOutOfBounds?
      ==> RequiredUriParam(uri, paramName) == RequiredUriParamAsWritten(uri, paramName)
    ensures RequiredUriParamAsWritten(uri, paramName).Err? && RequiredUriParamAsWritten(uri, paramName).error.IndexOutOfBounds?
      ==> RequiredUriParam(uri, paramName).Err?
    ensures OptionalUriParam(uri, paramName, default)
         == (if RequiredUriParam(uri, paramName).Ok? then RequiredUriParam(uri, paramName).value else default)
  {
  }

  /** The URI splits at its only "<p>=" into the part before and the part
      after. */
  lemma SplitAtOnlyKey(a: string, key: string, tail: string)
    requires key != [] && tail != []
    requires forall i | 0 <= i < |a| :: !(key <= (a + key + tail)[i..])
    requires forall i | 0 <= i < |tail| :: !(key <= tail[i..])
    ensures Contains(a + key + tail, key) && Split(a + key + tail, key) == [a, tail]
  {
    var uri := a + key + tail;
    assert OccursAt(uri, key, |a|) by { assert uri[|a|..|a| + |key|] == key; }
    ContainsAt(uri, key, |a|);
    SplitAllFirst(a, tail, key);
    SplitAllNone(tail, key);
    assert SplitAll(uri, key) == [a, tail];
    var r := DropTrailingEmpty([a, tail]);
    assert |r| == 2;
  }

  /** A value without '&' followed by nothing or by "&..." is the first
      piece of the split at "&". */
  lemma ValueBeforeAmpersand(v: string, rest: string)
    requires v != "" && '&' !in v
    requires rest == "" || rest[0] == '&'
    ensures Split(v + rest, "&") != [] && Split(v + rest, "&")[0] == v
  {
    if rest == "" {
      assert v + rest == v;
      forall i | 0 <= i < |v| ensures !("&" <= v[i..]) {
        assert v[i..][0] == v[i];
      }
      SplitAllNone(v, "&");
    } else {
      assert v + rest == v + "&" + rest[1..];
      forall i | 0 <= i < |v| ensures !("&" <= (v + "&" + rest[1..])[i..]) {
        assert (v + "&" + rest[1..])[i..][0] == v[i];
      }
      SplitAllFirst(v, rest[1..], "&");
    }
    SplitHead(v + rest, "&");
  }

  /** A parameter reads back: in a URI `a + "<p>=" + v + rest` where "<p>="
      first occurs right after `a` and not again, and `rest` is empty or
      starts a further "&" parameter, the getter returns `v`. */
  lemma UriParamReadsBack(a: string, p: string, v: string, rest: string)
    requires v != "" && '&' !in v
    requires rest == "" || rest[0] == '&'
    requires forall i | 0 <= i < |a| :: !(p + "=" <= (a + p + "=" + v + rest)[i..])
    requires forall i | 0 <= i < |v + rest| :: !(p + "=" <= (v + rest)[i..])
    ensures RequiredUriParam(a + p + "=" + v + rest, p) == Ok(v)
  {
    var key := p + "=";
    assert a + p + "=" + v + rest == a + key + (v + rest);
    SplitAtOnlyKey(a, key, v + rest);
    ValueBeforeAmpersand(v, rest);
  }

  // ------------------------------------------------ splitting at a literal

  /** When the first piece is not empty, `split` keeps it first. */
  lemma SplitHead(s: string, sep: string)
    requires sep != [] && SplitAll(s, sep)[0] != ""
    ensures Split(s, sep) != [] && Split(s, sep)[0] == SplitAll(s, sep)[0]
  {
    var parts := SplitAll(s, sep);
    if !Contains(s, sep) {
      SplitAllContains(s, sep);
      JoinSplitAll(s, sep);
      assert |parts| == 1;
    }
  }

  /** The first piece of a split never holds the separator character. */
  lemma {:induction false} SplitAllHeadHasNoSeparator(s: string, c: char)
    ensures c !in SplitAll(s, [c])[0]
    decreases |s|
  {
    if [c] <= s {
    } else if s != [] {
      SplitAllHeadHasNoSeparator(s[1..], c);
      assert s[0] != c;
    }
  }

  lemma SplitHeadHasNoSeparator(s: string, sep: string)
    requires sep == "&"
    ensures Split(s, sep) != [] ==> '&' !in Split(s, sep)[0]
  {
    SplitAllHeadHasNoSeparator(s, '&');
    if Contains(s, sep) && Split(s, sep) != [] {
      assert Split(s, sep)[0] == SplitAll(s, sep)[0];
    } else if !Contains(s, sep) {
      SplitAllContains(s, sep);
      JoinSplitAll(s, sep);
    }
  }

  // ---------------------------------------------------------------- replies

  /** `createSuccessResponse(content, mimeType)`: one "contents" entry with
      this resource's URI, "text/plain" when no MIME type is given. */
  function TextResponse(resourceUri: string, content: Option<string>, mimeType: Option<string>): (r: Json)
    ensures r.Keys == {"contents"} && r["contents"].JArray? && |r["contents"].items| == 1
    ensures var entry := r["contents"].items[0];
      entry.JObject? && entry.fields.Keys == {"uri", "mimeType", "text"}
      && entry.fields["uri"] == Str(resourceUri) && entry.fields["mimeType"] == Str(mimeType.GetOr("text/plain"))
  {
    map["contents" := JArray([JObject(map["uri" := Str(resourceUri), "mimeType" := Str(mimeType.GetOr("text/plain")),
                                          "text" := if content.Some? then Str(content.value) else Null])])]
  }

  /** `createBinaryResponse(data, mimeType)`: the base64 data under "blob",
      "application/octet-stream" when no MIME type is given. */
  function BinaryResponse(resourceUri: string, data: Option<string>, mimeType: Option<string>): (r: Json)
    ensures r.Keys == {"contents"} && r["contents"].JArray? && |r["contents"].items| == 1
    ensures var entry := r["contents"].items[0];
      entry.JObject? && entry.fields.Keys == {"uri", "mimeType", "blob"}
      && entry.fields["uri"] == Str(resourceUri)
      && entry.fields["mimeType"] == Str(mimeType.GetOr("application/octet-stream"))
  {
    map["contents" := JArray([JObject(map["uri" := Str(resourceUri),
                                          "mimeType" := Str(mimeType.GetOr("application/octet-stream")),
                                          "blob" := if data.Some? then Str(data.value) else Null])])]
  }

  /** `createErrorResponse(code, message)`: the code is not part of the
      reply; the text item sits under "contents". */
  function ResourceErrorResponse(code: int, message: string): (r: Json)
    ensures r.Keys == {"contents"} && r["contents"] == JArray([JObject(TextContentJson("Error: " + message))])
  {
    map["contents" := JArray([JObject(map["type" := Str("text"), "text" := Str("Error: " + message)])])]
  }

  /** What `handleMessage` replies to a request, given the resource's own
      URI and its `readResource` (`None` is a null result, replied as it
      is). The default `validateUri` runs first; an IllegalArgumentException
      is reported as it is, any other exception as a failed read of the
      resource, and an Error, which neither catch clause catches, escapes
      without a reply (`Err`). */
  function ResourceReply(rt: Runtime, resourceUri: string, request: Json,
                         read: Option<string> -> Result<Option<Json>, JavaException>): (r: Result<Option<Json>, JavaException>)
    ensures r.Err? ==> !r.error.IsException()
    ensures r.Err? ==> UriFailure(GetString(rt, request, "uri")).None? && read(GetString(rt, request, "uri")) == Err(r.error)
  {
    var uri := GetString(rt, request, "uri");
    var failure := if UriFailure(uri).Some? then Err(UriFailure(uri).value) else read(uri);
    match failure
    case Ok(result) => Ok(result)
    case Err(e) =>
      if e.IsIllegalArgument() then Ok(Some(ResourceErrorResponse(INVALID_PARAMS, MessageText(e))))
      else if e.IsException() then Ok(Some(ResourceErrorResponse(INTERNAL_ERROR, resourceUri + " read failed: " + MessageText(e))))
      else Err(e)
  }

  /** A request gets a reply exactly when its URI is rejected or the read
      returns or throws an exception; only an Error from the read escapes. */
  lemma ResourceRepliesUnlessError(rt: Runtime, resourceUri: string, request: Json,
                                   read: Option<string> -> Result<Option<Json>, JavaException>)
    ensures var uri := GetString(rt, request, "uri");
      ResourceReply(rt, resourceUri, request, read).Ok? <==>
        UriFailure(uri).Some? || read(uri).Ok? || read(uri).error.IsException()
  {
  }

  /** A request without a usable "uri" is answered with the validation
      error, before the resource is read. */
  lemma BlankUriRejected(rt: Runtime, resourceUri: string, request: Json,
                         read: Option<string> -> Result<Option<Json>, JavaException>)
    requires GetString(rt, request, "uri").None? || IsBlank(GetString(rt, request, "uri").value)
    ensures ResourceReply(rt, resourceUri, request, read)
         == Ok(Some(ResourceErrorResponse(INVALID_PARAMS, "Resource URI cannot be null or empty")))
  {
  }

  /** A read that throws MCPResourceNotFoundException is reported as a
      failed read, not as a validation error. */
  lemma NotFoundIsReadFailure(rt: Runtime, resourceUri: string, request: Json,
                              read: Option<string> -> Result<Option<Json>, JavaException>, uri: string)
    requires "uri" in request && request["uri"] == Str(uri) && !IsBlank(uri)
    requires read(Some(uri)) == Err(ResourceNotFound(uri, None))
    ensures ResourceReply(rt, resourceUri, request, read)
         == Ok(Some(ResourceErrorResponse(INTERNAL_ERROR, resourceUri + " read failed: " + ("Resource not found: " + uri))))
  {
    var e := ResourceNotFound(uri, None);
    assert GetString(rt, request, "uri") == Some(uri);
    assert !e.IsIllegalArgument() && MessageText(e) == "Resource not found: " + uri;
  }

  // ------------------------------------------------------ the resource object

  /** An AnnotatedMCPResource: its own class, the annotation `start` reads,
      and its event logger. */
  class AnnotatedResource {
    const own: ClassDescriptor
    var annotation: Option<ResourceAnnotation>
    var logger: EventLogger

    constructor (own: ClassDescriptor)
      ensures this.own == own && annotation.None? && logger == Noop
    {
      this.own := own;
      annotation := None;
      logger := Noop;
    }

    /** `setEventLogger(l)`: null installs the no-op logger. */
    method SetEventLogger(l: Option<EventLogger>)
      modifies this
      ensures logger == l.GetOr(Noop) && annotation == old(annotation)
    {
      logger := if l.Some? then l.value else Noop;
    }

    /** `start()`: reads the class's `@MCPResource`, failing without one,
        then registers at the resource's address. */
    method Start() returns (r: Result<string, JavaException>)
      modifies this
      ensures annotation == own.resource && logger == old(logger)
      ensures r.Err? <==> own.resource.None?
      ensures r.Err? ==> r.error == IllegalState(Some("AnnotatedMCPResource must be annotated with @MCPResource"))
      ensures r.Ok? ==> r.value == ResourceAddress(own.resource.value.uri)
    {
      annotation := own.resource;
      if annotation.None? {
        return Err(IllegalState(Some("AnnotatedMCPResource must be annotated with @MCPResource")));
      }
      return Ok("resources." + Sanitize(annotation.value.uri));
    }

    /** `getResourceUri()`: a NullPointerException before `start`. */
    function ResourceUri(): (r: Result<string, JavaException>)
      reads this
      ensures r.Ok? <==> annotation.Some?
      ensures r.Ok? ==> r.value == annotation.value.uri
    {
      if annotation.None? then Err(NullPointer(None)) else Ok(annotation.value.uri)
    }

    /** `getResourceDefinition()`: the annotation's four fields. */
    function Definition(): (r: Result<Json, JavaException>)
      reads this
      ensures r.Ok? <==> annotation.Some?
      ensures r.Ok? ==> r.value.Keys == {"uri", "name", "description", "mimeType"}
      ensures r.Ok? ==> r.value["uri"] == Str(annotation.value.uri) && r.value["name"] == Str(annotation.value.name)
    {
      if annotation.None? then Err(NullPointer(None))
      else
        var a := annotation.value;
        Ok(map["uri" := Str(a.uri), "name" := Str(a.name), "description" := Str(a.description), "mimeType" := Str(a.mimeType)])
    }
  }

  /** Once started, the resource describes itself as the configuration
      processor does when the annotation names it. */
  lemma DefinitionAgreesWithConfig(cls: ClassDescriptor, r: AnnotatedResource)
    requires r.annotation == cls.resource && cls.resource.Some? && cls.resource.value.name != ""
    ensures r.Definition() == Ok(Config.ResourceComponentOf(cls).definition)
  {
  }
}

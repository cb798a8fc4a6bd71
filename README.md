# mcp-sdk core in Dafny

A Dafny model of the core of **mcp-sdk** (`com.mcp.sdk`). This Java library lets a developer write
Model Context Protocol tools, prompts and resources as Vert.x verticles. A tool class is annotated
`@MCPTool`. Its `@ToolMethod` method takes `@Parameter`-annotated arguments and may return anything:
a string, a POJO, a collection, a map, a `ToolResult` or nothing. The SDK does the following:

- resolves the tool method and derives a JSON input schema from its parameters;
- binds the JSON arguments of a `tools/call` to the method's parameters. Binding uses defaults and
  zero values, coerces types, and checks range, enum and pattern constraints;
- normalises whatever the method returns into the MCP envelope `{content: [...]}`, which also holds
  `metadata` when the result's metadata is non-empty. Content items are text, data, image or error items;
- turns failures into a structured `MCPError`: an error code, a type, user and technical messages,
  a suggested action, suggestions and context. Fixed codes follow section 5.1 of the JSON-RPC 2.0
  specification;
- offers handler interfaces with adapters, a factory and a configuration processor that reads the
  annotations of registered classes;
- provides the `MCPTool`, `MCPPrompt` and `MCPResource` base classes with their argument and URI
  helpers, the exception hierarchy, and the `TestResult` assertion helper.

Each module follows one part of the source:

| module | models |
|---|---|
| `Values` | the runtime values that flow through the SDK: strings, numbers, booleans, Vert.x JSON objects and arrays, collections, maps, arrays and POJOs |
| `Runtime` record | the functions the model cannot see: `toString` of composites, `JsonObject.mapFrom`, `encodePrettily`, `Pattern.matches`, and the texts of ClassCastExceptions |
| `JsonAccess` | the Vert.x 4 `JsonObject` getters, with the casting and defaulting they do |
| `Text` | the string helpers: case mapping, trimming, splitting, `Double.toString` of integral values |
| `Annotations`, `Discovery`, `Schema` | the annotation defaults, method resolution and schema generation, over method and parameter descriptors that stand for reflection |
| `Binding` | `extractParameters`: a fail-fast, left-to-right fold over the parameters |
| `Responses` | `ResponseProcessor` |
| `Content`, `ToolResults` | `ContentItem` and `ToolResult`: the builder, the legacy mutators and `toJsonObject` |
| `Errors`, `Exceptions`, `Context` | `MCPError` and its builder, the copy-on-write `MCPToolException`, the fixed-code exceptions, the JDK throwables the SDK meets (a `java.lang.Error` among them, which no `catch (Exception e)` catches), and `DefaultMCPContext` |
| `Handlers`, `AnnotatedTools`, `Factory`, `Config` | the handler adapters, `AnnotatedMCPTool` and its adapter (one class with a kind), `MCPToolFactory`, and `AnnotationConfigProcessor` with `MCPConfiguration` |
| `ToolBase`, `Prompts`, `Resources` | the verticle base classes' pure logic: argument helpers, the replies they send and the URI parameter parser |
| `Testing` | `TestResult` and its assertions |

Objects the source updates in place are classes with `modifies` clauses:

- `ToolResult` and its builder;
- the `MCPError` and context builders;
- `ContentItem`;
- the annotated tool, prompt and resource, with their method tables;
- the tool verticle;
- `MCPConfiguration`.

Immutable records and pure helpers are datatypes and functions. These include `MCPError`,
`DefaultMCPContext`, `TestResult` and the exceptions, and also the static factory methods of
`MCPToolFactory`.

`MCPPrompt.getRequiredString` (`src/main/java/com/mcp/sdk/MCPPrompt.java:195-201`) has the same body
as `MCPTool`'s. So does `MCPPrompt.createErrorResponse` (`src/main/java/com/mcp/sdk/MCPPrompt.java:154-160`).
Each is modelled once, by `ToolBase.RequiredString` and `ToolBase.ErrorResponse`.

The reflective invocation of a tool method is a function parameter `invoke`. It returns an abstract
outcome: a value, an `MCPToolException`, an `MCPValidationException` or another exception. The clock
is a parameter too. `MCPContext` and the annotation declarations `MCPTool`, `MCPPrompt`,
`MCPResource`, `ToolExample` and `ToolMethod` are declaration-only. They are captured through
`DefaultMCPContext` and through the code that reads their defaults.

## Model

| member | source | states |
|---|---|---|
| Errors.Draft.WithErrorCode | src/main/java/com/mcp/sdk/MCPError.java:102-109 | a builder refilled with another code keeps every other field: type, user message, details, action, suggestions and context |
| Errors.Draft.Build | src/main/java/com/mcp/sdk/MCPError.java:116-120 | the built error carries each of the seven builder fields unchanged |
| Errors.BuildOfRebuild | src/main/java/com/mcp/sdk/MCPToolException.java:79-85 | refilling a custom builder from a built error's getters and building again gives back the same error |
| Errors.SuggestionsAccumulate | src/main/java/com/mcp/sdk/MCPError.java:92-100 | repeated `withSuggestions` calls append in call order, nothing replaced |
| Errors.LastDetailWins | src/main/java/com/mcp/sdk/MCPError.java:77-85 | the technical details and the suggested action are overwritten, the last call winning |
| Errors.ContextMerge | src/main/java/com/mcp/sdk/MCPError.java:111-114 | `withContext(map)` keeps old keys, adds new ones, and the argument's value wins on a shared key |
| Errors.MCPErrorBuilder.constructor | src/main/java/com/mcp/sdk/MCPError.java:71-75 | a new builder has the given type, code and message, no details, empty context and no suggestions |
| Errors.MCPErrorBuilder.NewValidation | src/main/java/com/mcp/sdk/MCPError.java:30-32 | a fresh builder of type "validation" and code -32602 |
| Errors.MCPErrorBuilder.NewBusiness | src/main/java/com/mcp/sdk/MCPError.java:34-36 | a fresh builder of type "business" and code -32001 |
| Errors.MCPErrorBuilder.NewSystem | src/main/java/com/mcp/sdk/MCPError.java:38-40 | a fresh builder of type "system" and code -32603 |
| Errors.MCPErrorBuilder.NewPermission | src/main/java/com/mcp/sdk/MCPError.java:42-44 | a fresh builder of type "permission" and code -32000 |
| Errors.MCPErrorBuilder.NewCustom | src/main/java/com/mcp/sdk/MCPError.java:46-48 | a fresh builder with the caller's type, code and message |
| Errors.MCPErrorBuilder.WithTechnicalDetails | src/main/java/com/mcp/sdk/MCPError.java:77-80 | only the technical message changes |
| Errors.MCPErrorBuilder.WithSuggestedAction | src/main/java/com/mcp/sdk/MCPError.java:82-85 | only the suggested action changes |
| Errors.MCPErrorBuilder.WithContext | src/main/java/com/mcp/sdk/MCPError.java:87-90 | only the context changes, by one put |
| Errors.MCPErrorBuilder.WithContextMap | src/main/java/com/mcp/sdk/MCPError.java:111-114 | only the context changes, by a putAll |
| Errors.MCPErrorBuilder.WithSuggestions | src/main/java/com/mcp/sdk/MCPError.java:92-100 | only the suggestion list changes, by appending |
| Errors.MCPErrorBuilder.WithErrorCode | src/main/java/com/mcp/sdk/MCPError.java:102-109 | returns a fresh builder equal to this one but for the code, and leaves this one untouched |
| Errors.MCPErrorBuilder.Build | src/main/java/com/mcp/sdk/MCPError.java:116-120 | the error holds the builder's current fields |
| Exceptions.ErrorCodeTable | src/main/java/com/mcp/sdk/exceptions/MCPException.java:29-41 | the five reserved JSON-RPC 2.0 codes are -32700, -32600, -32601, -32602 and -32603, and the six SDK codes are distinct values from -32001 to -32006 |
| Exceptions.MCPExceptionContract | src/main/java/com/mcp/sdk/exceptions/MCPException.java:10-22 | every MCPException keeps its code and message; the validation, resource-not-found and tool-not-found subclasses use -32004, -32001 and -32002 with their own message prefixes; none is an IllegalArgumentException |
| Exceptions.CodeCoincidences | src/main/java/com/mcp/sdk/exceptions/MCPValidationException.java:8-14 | MCPValidationException's code (-32004) differs from `MCPError.validation`'s (-32602), while resource-not-found shares -32001 with business errors |
| Exceptions.ToolException.Rebuild | src/main/java/com/mcp/sdk/MCPToolException.java:79-85 | the refilled builder builds exactly the carried error |
| Exceptions.ToolException.WithTechnicalDetails | src/main/java/com/mcp/sdk/MCPToolException.java:50-53 | the new exception carries the error with new details and the same cause |
| Exceptions.ToolException.WithSuggestedAction | src/main/java/com/mcp/sdk/MCPToolException.java:55-58 | the new exception carries the error with the new action and the same cause |
| Exceptions.ToolException.WithContext | src/main/java/com/mcp/sdk/MCPToolException.java:60-63 | the new exception carries the error with one more context entry and the same cause |
| Exceptions.ToolException.WithSuggestions | src/main/java/com/mcp/sdk/MCPToolException.java:65-73 | the new exception carries the error with the suggestions appended and the same cause |
| Exceptions.ToolException.WithCause | src/main/java/com/mcp/sdk/MCPToolException.java:75-77 | the error is unchanged and the cause replaced |
| Exceptions.ToolException.ValidationWithSuggestions | src/main/java/com/mcp/sdk/MCPToolException.java:88-90 | a validation error (-32602) with the message and exactly the given suggestions, no cause |
| Exceptions.ToolException.BusinessWithAction | src/main/java/com/mcp/sdk/MCPToolException.java:92-94 | a business error (-32001) with the message and the action, no cause |
| Exceptions.ToolException.SystemWithCause | src/main/java/com/mcp/sdk/MCPToolException.java:96-98 | a system error (-32603) whose technical message is the cause's message and whose cause is the given one |
| Exceptions.ToolExceptionFactories | src/main/java/com/mcp/sdk/MCPToolException.java:24-42 | the kind factories carry the errors of the matching MCPError factories, the message as exception message and no cause |
| Exceptions.ChainedWithAccumulates | src/main/java/com/mcp/sdk/MCPToolException.java:50-73 | chained `with*` calls keep earlier details and append suggestions in call order |
| Context.Context.RequestId | src/main/java/com/mcp/sdk/DefaultMCPContext.java:60-63 | empty exactly when the request id is null, else that id |
| Context.Context.Attribute | src/main/java/com/mcp/sdk/DefaultMCPContext.java:65-68 | empty exactly when the key is absent, else its value |
| Context.Context.WithAttributes | src/main/java/com/mcp/sdk/DefaultMCPContext.java:95-110 | succeeds exactly when no added value is null (a NullPointerException otherwise); the new context has the union of keys, the added values winning, and every other field unchanged |
| Context.Context.WithAttribute | src/main/java/com/mcp/sdk/DefaultMCPContext.java:112-119 | a non-null value can be read back under its key, every other key reads as before |
| Context.Freeze | src/main/java/com/mcp/sdk/DefaultMCPContext.java:26-38 | building fails exactly when an attribute value is null, otherwise keeps every builder field |
| Context.ContextBuilder.constructor | src/main/java/com/mcp/sdk/DefaultMCPContext.java:121-138 | a fresh builder: no ids, empty attributes and metadata, start time now, not streaming |
| Context.ContextBuilder.SetCorrelationId | src/main/java/com/mcp/sdk/DefaultMCPContext.java:140-143 | only the correlation id changes |
| Context.ContextBuilder.SetMcpId | src/main/java/com/mcp/sdk/DefaultMCPContext.java:145-148 | only the MCP id changes |
| Context.ContextBuilder.SetSessionId | src/main/java/com/mcp/sdk/DefaultMCPContext.java:150-153 | only the session id changes |
| Context.ContextBuilder.SetMethod | src/main/java/com/mcp/sdk/DefaultMCPContext.java:155-158 | only the method changes |
| Context.ContextBuilder.SetRequestId | src/main/java/com/mcp/sdk/DefaultMCPContext.java:160-163 | only the request id changes |
| Context.ContextBuilder.PutAttribute | src/main/java/com/mcp/sdk/DefaultMCPContext.java:165-168 | one attribute is put, null accepted until build |
| Context.ContextBuilder.PutAttributes | src/main/java/com/mcp/sdk/DefaultMCPContext.java:170-173 | the attributes are merged, the argument winning |
| Context.ContextBuilder.SetMetadata | src/main/java/com/mcp/sdk/DefaultMCPContext.java:175-178 | the metadata becomes a copy of the argument, or empty for null |
| Context.ContextBuilder.SetStartTime | src/main/java/com/mcp/sdk/DefaultMCPContext.java:180-183 | only the start time changes |
| Context.ContextBuilder.SetClientAddress | src/main/java/com/mcp/sdk/DefaultMCPContext.java:185-188 | only the client address changes |
| Context.ContextBuilder.SetStreaming | src/main/java/com/mcp/sdk/DefaultMCPContext.java:190-193 | only the streaming flag changes |
| Context.ContextBuilder.Build | src/main/java/com/mcp/sdk/DefaultMCPContext.java:195-198 | the context of the builder's fields, or the null-value failure |
| Context.WithAttributesByBuilder | src/main/java/com/mcp/sdk/DefaultMCPContext.java:95-110 | the builder steps `withAttributes` takes give the context its specification describes |
| Context.WithAttributesTwice | src/main/java/com/mcp/sdk/DefaultMCPContext.java:95-110 | merging two maps one after the other equals merging their union once, the later map winning |
| Annotations.ParameterSpec.EffectiveName | src/main/java/com/mcp/sdk/annotations/Parameter.java:18 | the argument is looked up under the annotation's name, or under the reflected parameter name when that is empty |
| Annotations.DefaultParameterUnconstrained | src/main/java/com/mcp/sdk/annotations/Parameter.java:13-54 | an annotation that only sets a description is required, unrenamed, without default, unbounded, without enumeration and without pattern |
| Content.TextItem | src/main/java/com/mcp/sdk/content/TextContent.java:12-20 | a null text becomes "", null metadata an empty map |
| Content.DataItem | src/main/java/com/mcp/sdk/content/DataContent.java:15-27 | the data type is the payload's simple class name ("null" for null) and is added to the copied metadata under "dataType", every other entry kept |
| Content.ImageItem | src/main/java/com/mcp/sdk/content/ImageContent.java:13-25 | null data becomes "", a null MIME type "image/png", and the MIME type is added to the metadata |
| Content.ErrorItem | src/main/java/com/mcp/sdk/content/ErrorContent.java:14-26 | the error's type and code are added to the metadata |
| Content.WithMetadataEntry | src/main/java/com/mcp/sdk/content/TextContent.java:32-34 | "metadata" is added exactly when the metadata map is non-empty, every other key kept |
| Content.TextJson | src/main/java/com/mcp/sdk/content/TextContent.java:27-37 | the JSON holds the type "text" and the text, plus metadata when there is any |
| Content.DataPayloadJson | src/main/java/com/mcp/sdk/content/DataContent.java:44-59 | null and JSON containers pass through; other values are converted, and a failed conversion gives their string form plus a "serializationError" |
| Content.DataJson | src/main/java/com/mcp/sdk/content/DataContent.java:38-66 | the JSON holds the type "data", the data type and the rendered payload, plus metadata exactly when there is any |
| Content.ImageJson | src/main/java/com/mcp/sdk/content/ImageContent.java:36-47 | the JSON holds the type "image", the data and the MIME type, plus metadata when there is any |
| Content.ErrorJson | src/main/java/com/mcp/sdk/content/ErrorContent.java:33-61 | the JSON has the type "error" |
| Content.ErrorJsonFields | src/main/java/com/mcp/sdk/content/ErrorContent.java:33-61 | the error JSON always has its type, user message and code, each optional field exactly when the error has it (non-empty details and action, non-empty suggestions and context), and metadata exactly when there is any |
| Content.ItemJson | src/main/java/com/mcp/sdk/content/ContentItem.java:42 | every item's JSON carries its own type string |
| Content.ConstructedItemsEmitMetadata | src/main/java/com/mcp/sdk/content/DataContent.java:19 | data, image and error items always emit metadata, since their constructors add an entry; a text item built without metadata emits none |
| Content.DataItemEmitsMetadata | src/main/java/com/mcp/sdk/content/DataContent.java:15-27 | a data item's JSON always has metadata, because both constructors record the data type |
| Content.ErrorJsonFixedFields | src/main/java/com/mcp/sdk/content/ErrorContent.java:33-39 | the error JSON always has the error type, the user message and the code |
| Content.ErrorJsonOptionalFields | src/main/java/com/mcp/sdk/content/ErrorContent.java:40-61 | each optional error field, and the metadata, is present exactly when the error has it |
| Content.Abbreviated | src/main/java/com/mcp/sdk/content/TextContent.java:40-44 | texts up to 50 characters are shown whole; longer ones are cut to their first 50 characters followed by "..." |
| Content.ContentItem.Text | src/main/java/com/mcp/sdk/content/TextContent.java:12-20 | the new object holds the item `TextItem` describes |
| Content.ContentItem.Data | src/main/java/com/mcp/sdk/content/DataContent.java:15-27 | the new object holds the item `DataItem` describes |
| Content.ContentItem.Image | src/main/java/com/mcp/sdk/content/ImageContent.java:13-25 | the new object holds the item `ImageItem` describes |
| Content.ContentItem.Error | src/main/java/com/mcp/sdk/content/ErrorContent.java:14-26 | the new object holds the item `ErrorItem` describes |
| Content.ContentItem.WithMetadata | src/main/java/com/mcp/sdk/content/ContentItem.java:33-36 | puts one entry into the item's own metadata and returns the same object |
| Content.Snapshots | src/main/java/com/mcp/sdk/content/ContentItem.java:11-13 | the states of a list of items, one per item, in order |
| ToolResults.Make | src/main/java/com/mcp/sdk/ToolResult.java:24-36 | the legacy error message and code come from the error when there is one, else null and 0 |
| ToolResults.ErrorEnvelopeShape | src/main/java/com/mcp/sdk/ToolResult.java:89-152 | error results have no content and no metadata and expose the error's message and code; `error(String)` is a "system" error with code -32603 and `error(int, String)` a "system" error with the given code |
| ToolResults.LegacyItems | src/main/java/com/mcp/sdk/ToolResult.java:39-66 | the legacy array constructor converts each element in order, and fails (a NullPointerException) exactly when an element is null |
| ToolResults.LegacyItemInvertsTextJson | src/main/java/com/mcp/sdk/ToolResult.java:53-59 | converting a text item's JSON back gives the same text item; an object without "type" is read as text |
| ToolResults.DataAsText | src/main/java/com/mcp/sdk/ToolResult.java:283-298 | a data item becomes one text item; wherever the code as written does not throw, the result is the same |
| ToolResults.DataAsTextAsWrittenThrows | src/main/java/com/mcp/sdk/ToolResult.java:286 | a data item whose payload is a JSON array or an unconvertible object makes the conversion as written throw a ClassCastException, while the corrected one renders the payload as text |
| ToolResults.ExplicitJson | src/main/java/com/mcp/sdk/ToolResult.java:269-272 | one JSON object per explicit item, in order |
| ToolResults.WithFallbackData | src/main/java/com/mcp/sdk/ToolResult.java:275-277 | with no explicit item and non-null data, the data alone becomes one data item; otherwise nothing is added |
| ToolResults.Compatible | src/main/java/com/mcp/sdk/ToolResult.java:280-303 | the corrected pass, which the as-written one equals whenever it does not throw: the same number of items, none of type "data", every non-data item left in place |
| ToolResults.WithMessage | src/main/java/com/mcp/sdk/ToolResult.java:306-317 | a non-empty message is put first exactly when no text item exists, otherwise the items are unchanged |
| ToolResults.NonEmpty | src/main/java/com/mcp/sdk/ToolResult.java:320-322 | the content is never empty, and non-empty content is kept as it is |
| ToolResults.Objects | src/main/java/com/mcp/sdk/ToolResult.java:324 | one JSON object value per item, in order |
| ToolResults.EnvelopeJson | src/main/java/com/mcp/sdk/ToolResult.java:249-330 | the envelope JSON, which `toJsonObject()` gives whenever it does not throw, always has "content", and "metadata" exactly when the metadata is non-empty |
| ToolResults.TextJsonIsText | src/main/java/com/mcp/sdk/content/TextContent.java:27-30 | a text item's JSON reads back as type "text" |
| ToolResults.MessageAndFallbackKeepNoData | src/main/java/com/mcp/sdk/ToolResult.java:306-322 | adding the message or the fallback text never brings back a data item |
| ToolResults.SuccessContentHasNoData | src/main/java/com/mcp/sdk/ToolResult.java:268-322 | a success result's content is non-empty and holds no data item |
| ToolResults.SuccessContentKeepsItems | src/main/java/com/mcp/sdk/ToolResult.java:268-317 | every explicit non-data item appears in order, shifted by at most the one message item |
| ToolResults.MessagePlacement | src/main/java/com/mcp/sdk/ToolResult.java:306-317 | a non-empty message leads the content exactly when no text item would otherwise be present |
| ToolResults.ErrorJsonShape | src/main/java/com/mcp/sdk/ToolResult.java:250-265 | an error result's JSON has exactly one content item, the error's own JSON when there is an error |
| ToolResults.ToolResult.constructor | src/main/java/com/mcp/sdk/ToolResult.java:24-36 | the new result holds its own copies of the content and metadata, as `Make` describes |
| ToolResults.ToolResult.Success | src/main/java/com/mcp/sdk/ToolResult.java:73-82 | a fresh success result with the data and message and no items |
| ToolResults.ToolResult.Error | src/main/java/com/mcp/sdk/ToolResult.java:89-98 | a fresh error result carrying the error |
| ToolResults.ToolResult.LegacyError | src/main/java/com/mcp/sdk/ToolResult.java:139-142 | a fresh error result with a "system" error built from the message |
| ToolResults.ToolResult.LegacyErrorWithCode | src/main/java/com/mcp/sdk/ToolResult.java:149-152 | a fresh error result with a "system" error of the given code |
| ToolResults.ToolResult.LegacySuccessText | src/main/java/com/mcp/sdk/ToolResult.java:107-110 | the text is both the data and the one text item |
| ToolResults.ToolResult.LegacySuccessTextData | src/main/java/com/mcp/sdk/ToolResult.java:126-132 | a text item then a data item, the object as data and the text as message |
| ToolResults.ToolResult.LegacySuccessArray | src/main/java/com/mcp/sdk/ToolResult.java:117-119 | succeeds exactly when no element is null, and then holds the converted items in order |
| ToolResults.ToolResult.AddText | src/main/java/com/mcp/sdk/ToolResult.java:216-220 | nothing changes on an error result; otherwise one new text item is appended and the earlier items kept |
| ToolResults.ToolResult.AddData | src/main/java/com/mcp/sdk/ToolResult.java:227-231 | nothing changes on an error result; otherwise one new data item is appended and the earlier items kept |
| ToolResults.ToolResult.AddImage | src/main/java/com/mcp/sdk/ToolResult.java:238-242 | nothing changes on an error result; otherwise one new image item is appended and the earlier items kept |
| ToolResults.ToolResult.ExplicitArray | src/main/java/com/mcp/sdk/ToolResult.java:269-272 | the loop builds the JSON of every explicit item, in order |
| ToolResults.ToolResult.ToJsonObject | src/main/java/com/mcp/sdk/ToolResult.java:249-330 | the step-by-step construction gives exactly `EnvelopeJsonAsWritten`: the envelope JSON, or the ClassCastException a data item that cannot be read as an object throws |
| ToolResults.ToolResult.ErrorArray | src/main/java/com/mcp/sdk/ToolResult.java:251-259 | the error branch's one item: the error's JSON, or the legacy "Error: " text |
| ToolResults.ToolResult.SuccessArray | src/main/java/com/mcp/sdk/ToolResult.java:268-322 | the success branch's items are exactly `SuccessContentAsWritten`: the explicit items or the fallback data item, made compatible as written, the message in front when no text is there, and a default text when nothing is |
| ToolResults.CompatibleArray | src/main/java/com/mcp/sdk/ToolResult.java:280-303 | the loop gives exactly `CompatibleAsWritten`: each data item replaced by its text and the rest kept, or the first ClassCastException |
| ToolResults.CompatibleAsWritten | src/main/java/com/mcp/sdk/ToolResult.java:280-303 | the pass succeeds exactly when every data item converts, and then equals the corrected `Compatible`; otherwise it fails with a ClassCastException |
| ToolResults.CompatibleAsWrittenStops | src/main/java/com/mcp/sdk/ToolResult.java:280-303 | once the items before some index have thrown, the whole pass throws that same exception: later items are not reached |
| ToolResults.EnvelopeJsonAsWritten | src/main/java/com/mcp/sdk/ToolResult.java:249-330 | an error result always serialises to `EnvelopeJson`; a success result serialises exactly when each of its data items converts, then to `EnvelopeJson`, and otherwise throws a ClassCastException |
| ToolResults.ListDataDoesNotSerialise | src/main/java/com/mcp/sdk/ToolResult.java:275-286 | a success result with no explicit item whose data is a JSON array, or a list or string `mapFrom` cannot convert, does not serialise: a ClassCastException |
| ToolResults.ContainsText | src/main/java/com/mcp/sdk/ToolResult.java:307-313 | the search with an early break finds a text item exactly when one exists |
| ToolResults.ToolResultBuilder.constructor | src/main/java/com/mcp/sdk/ToolResult.java:163-167 | a new builder has no message, no data, no items and no metadata |
| ToolResults.ToolResultBuilder.SetMessage | src/main/java/com/mcp/sdk/ToolResult.java:169-172 | only the message changes |
| ToolResults.ToolResultBuilder.SetData | src/main/java/com/mcp/sdk/ToolResult.java:174-177 | only the data changes |
| ToolResults.ToolResultBuilder.AddContent | src/main/java/com/mcp/sdk/ToolResult.java:194-197 | the item is appended, in call order |
| ToolResults.ToolResultBuilder.AddText | src/main/java/com/mcp/sdk/ToolResult.java:179-182 | a new text item is appended |
| ToolResults.ToolResultBuilder.AddData | src/main/java/com/mcp/sdk/ToolResult.java:184-187 | a new data item is appended |
| ToolResults.ToolResultBuilder.AddImage | src/main/java/com/mcp/sdk/ToolResult.java:189-192 | a new image item is appended |
| ToolResults.ToolResultBuilder.PutMetadata | src/main/java/com/mcp/sdk/ToolResult.java:199-202 | one metadata entry is put, the same key overwritten |
| ToolResults.ToolResultBuilder.Build | src/main/java/com/mcp/sdk/ToolResult.java:204-206 | a fresh success result (never an error) holding the builder's fields and items |
| Responses.DetermineMessage | src/main/java/com/mcp/sdk/ResponseProcessor.java:83-89 | a non-empty configured message wins; the message is never empty |
| Responses.DefaultMessageNonEmpty | src/main/java/com/mcp/sdk/ResponseProcessor.java:91-115 | every default message is non-empty |
| Responses.DefaultMessageNamesClass | src/main/java/com/mcp/sdk/ResponseProcessor.java:92-105 | "get", "create" and "update" methods report the result's class as retrieved, created or updated; a null result reports the method name as completed |
| Responses.DefaultMessageFixed | src/main/java/com/mcp/sdk/ResponseProcessor.java:106-111 | "delete", "compute" and "process" methods get the fixed deletion, calculation and analysis sentences |
| Responses.CollectionSummary | src/main/java/com/mcp/sdk/ResponseProcessor.java:151-159 | fails (a NullPointerException) exactly when the first element is null |
| Responses.CollectionSummaryNumber | src/main/java/com/mcp/sdk/ResponseProcessor.java:157-158 | one element is reported as "1 ... item", more as "n ... items" |
| Responses.MapSummaryNumber | src/main/java/com/mcp/sdk/ResponseProcessor.java:161-168 | one entry is "Map with 1 entry", more are "Map with n entries" |
| Responses.ExactIndex | src/main/java/com/mcp/sdk/ResponseProcessor.java:242 | the first field with exactly the name, if any |
| Responses.IgnoreCaseIndex | src/main/java/com/mcp/sdk/ResponseProcessor.java:245-249 | the first field whose name matches ignoring case, if any |
| Responses.FindField | src/main/java/com/mcp/sdk/ResponseProcessor.java:239-252 | a found field matches ignoring case; none is found exactly when no field matches; an exact match always wins |
| Responses.FindFieldByScan | src/main/java/com/mcp/sdk/ResponseProcessor.java:239-252 | the exact lookup then the case-insensitive loop find the field `FindField` describes |
| Responses.IgnoreCaseIndexIs | src/main/java/com/mcp/sdk/ResponseProcessor.java:245-249 | the scan stops at the first case-insensitive match |
| Responses.KeyFieldInfoFirstShown | src/main/java/com/mcp/sdk/ResponseProcessor.java:213-237 | the key-field text is empty exactly when no highlight field has a non-blank value, and otherwise shows only the first such field as "name: value" |
| Responses.ExtractKeyFieldInfo | src/main/java/com/mcp/sdk/ResponseProcessor.java:213-237 | the loop with its early break computes the text `KeyFieldInfo` describes |
| Responses.TemplateWithoutPlaceholders | src/main/java/com/mcp/sdk/ResponseProcessor.java:200-211 | a template with none of the three placeholders is used verbatim |
| Responses.PojoSummaryShape | src/main/java/com/mcp/sdk/ResponseProcessor.java:170-198 | without a template the summary starts with the class name and ends with ", " and the key-field text when there is one |
| Responses.ResultContent | src/main/java/com/mcp/sdk/ResponseProcessor.java:117-145 | fails exactly when a collection's first element is null |
| Responses.ResultContentKinds | src/main/java/com/mcp/sdk/ResponseProcessor.java:117-145 | strings, numbers, booleans and characters become their text and are the data; other values end with a data item, preceded by a summary unless an object's configuration switches it off; null gives the no-return-value text |
| Responses.ExecutionMetadata | src/main/java/com/mcp/sdk/ResponseProcessor.java:254-268 | always the time, method name and declaring class; the result type for a non-null result; the size for a collection or map |
| Responses.ResponseIsSuccess | src/main/java/com/mcp/sdk/ResponseProcessor.java:19-43 | a processed value is a success result with a non-empty message and at least one item, with metadata exactly when it is not switched off; only a collection whose first element is null fails |
| Responses.AddTextItem | src/main/java/com/mcp/sdk/ResponseProcessor.java:123-128 | one text item is appended, and the data is set when asked |
| Responses.AddSummaryAndData | src/main/java/com/mcp/sdk/ResponseProcessor.java:129-144 | an optional summary text item, then one data item, are appended |
| Responses.ProcessResultContent | src/main/java/com/mcp/sdk/ResponseProcessor.java:117-145 | the builder receives exactly the items `ResultContent` describes, or the failure is reported |
| Responses.AddExecutionMetadata | src/main/java/com/mcp/sdk/ResponseProcessor.java:254-268 | the builder's metadata gains exactly the execution metadata, nothing else changes |
| Responses.ProcessResponse | src/main/java/com/mcp/sdk/ResponseProcessor.java:19-43 | a returned ToolResult passes through as it is; any other value gives a fresh result equal to `Response` |
| Responses.ProcessValue | src/main/java/com/mcp/sdk/ResponseProcessor.java:24-41 | a value that is not a ToolResult fails exactly when `Response` does, with the same exception, and otherwise gives a fresh result whose snapshot is `Response`'s |
| Responses.FillContent | src/main/java/com/mcp/sdk/ResponseProcessor.java:24-34 | on a fresh builder, the message and content steps leave exactly the message, items and data `ResultContent` describes, or report its failure |
| Responses.AddMetadataIfEnabled | src/main/java/com/mcp/sdk/ResponseProcessor.java:36-39 | the builder's metadata becomes the execution metadata unless the configuration switches it off; nothing else changes |
| Responses.Assemble | src/main/java/com/mcp/sdk/ResponseProcessor.java:41 | building a builder in the state the earlier steps leave gives a fresh result equal to `Response` |
| Responses.AddScalarContent | src/main/java/com/mcp/sdk/ResponseProcessor.java:117-128 | null, a string or a primitive adds exactly the text and data items `ResultContent` describes |
| Responses.AddCompositeContent | src/main/java/com/mcp/sdk/ResponseProcessor.java:128-144 | a collection, map or object adds exactly the summary and data items `ResultContent` describes, or reports its failure |
| Responses.EnhancedError | src/main/java/com/mcp/sdk/ResponseProcessor.java:48-66 | the tool's error with the method name and class added to its context, the tool's own entries winning |
| Responses.EnhancedErrorKeepsReport | src/main/java/com/mcp/sdk/ResponseProcessor.java:48-66 | type, code and message are kept; the context gains the two method keys and keeps every entry the tool set |
| Responses.ProcessException | src/main/java/com/mcp/sdk/ResponseProcessor.java:48-66 | the loop copying the context entry by entry gives an error result carrying the enhanced error |
| Responses.GenericError | src/main/java/com/mcp/sdk/ResponseProcessor.java:71-81 | a "system" error (-32603) "Unexpected error occurred" with the exception's message as details, the fixed suggested action, and the method, class and exception type as context |
| Responses.ProcessGenericException | src/main/java/com/mcp/sdk/ResponseProcessor.java:71-81 | an error result carrying the generic error |
| Binding.Collect | src/main/java/com/mcp/sdk/AnnotatedMCPTool.java:244-279 | collecting per-element results succeeds exactly when every element succeeds, keeps one result per element in order, and otherwise fails with the exception of the first element that throws |
| Binding.CollectStep | src/main/java/com/mcp/sdk/AnnotatedMCPTool.java:244-279 | one more successful loop iteration extends the filled prefix of the array by that element's result |
| Binding.CollectStop | src/main/java/com/mcp/sdk/AnnotatedMCPTool.java:244-279 | an element that throws after a successful prefix decides the outcome of the whole conversion |
| Binding.CollectInto | src/main/java/com/mcp/sdk/AnnotatedMCPTool.java:244-279 | the array-filling loop produces exactly the in-order collection, or the first element's exception |
| Binding.ZeroValue | src/main/java/com/mcp/sdk/AnnotatedMCPTool.java:207-214 | the fallback for a missing optional parameter is non-null exactly for primitive types, and then it is that type's zero (0 or false) |
| Binding.Parsed | src/main/java/com/mcp/sdk/AnnotatedMCPTool.java:199-202 | a parsed number is boxed in the requested class, and a malformed text becomes a NumberFormatException carrying the JDK's message |
| Binding.ParseDefault | src/main/java/com/mcp/sdk/AnnotatedMCPTool.java:197-205 | a parsed default of a scalar type has that type, is always a string, number or boolean, and parsing can only fail with NumberFormatException |
| Binding.ParseDefaultInt | src/main/java/com/mcp/sdk/AnnotatedMCPTool.java:199 | the decimal text of any in-range int is read back as that int by an int-typed default |
| Values.ParseInt | src/main/java/com/mcp/sdk/AnnotatedMCPTool.java:199 | `Integer.parseInt` succeeds with an integral literal's value exactly when it is within 32 bits, and otherwise fails with the `For input string` message |
| Values.ParseLong | src/main/java/com/mcp/sdk/AnnotatedMCPTool.java:200 | `Long.parseLong` the same within 64 bits |
| Values.ParseDouble | src/main/java/com/mcp/sdk/AnnotatedMCPTool.java:201 | `Double.parseDouble` trims its input; a blank string fails with "empty String", any other failure names the trimmed text, and text that is not a decimal literal fails |
| Values.ReadDecimal | src/main/java/com/mcp/sdk/AnnotatedMCPTool.java:201 | a scanned literal fails exactly when it does not denote an integer, naming the literal |
| Literals.ParseDoubleReadsIntegers | src/main/java/com/mcp/sdk/AnnotatedMCPTool.java:227 | every literal `Long.parseLong` reads is read by `Double.parseDouble` as the same integer |
| Literals.ParseDoubleExponent | src/main/java/com/mcp/sdk/AnnotatedMCPTool.java:227 | digits, `e` or `E`, and exponent digits denote the digits' value times that power of ten |
| Literals.ParseDoubleSuffix | src/main/java/com/mcp/sdk/AnnotatedMCPTool.java:227 | one `f`, `F`, `d` or `D` suffix after digits leaves their value |
| Literals.ParseDoubleBareExponent | src/main/java/com/mcp/sdk/AnnotatedMCPTool.java:227 | an exponent letter with no digit after it is refused, naming the literal |
| Literals.ParseDoubleTwoSuffixes | src/main/java/com/mcp/sdk/AnnotatedMCPTool.java:227 | a second type suffix is refused, naming the literal |
| Literals.ParseDoublePointed | src/main/java/com/mcp/sdk/AnnotatedMCPTool.java:227 | a signed literal with a point whose fraction digits are all zero denotes its whole part |
| Literals.ParseDoubleFractional | src/main/java/com/mcp/sdk/AnnotatedMCPTool.java:227 | one whose value is not an integer is refused, naming the literal |
| Literals.PlainRoundTrip | src/main/java/com/mcp/sdk/AnnotatedMCPTool.java:201 | the text `Double.toString` writes for an integral value below 10^7 in magnitude is read back as that value |
| Binding.ConvertedArrayShape | src/main/java/com/mcp/sdk/AnnotatedMCPTool.java:240-282 | arrays keep the source length; JSON nulls become null strings or zeros; list elements are `toString`-ed; a value that is neither a JsonArray nor a List is returned unchanged |
| Binding.ConvertToArray | src/main/java/com/mcp/sdk/AnnotatedMCPTool.java:240-282 | the loop-based conversion yields exactly the array specified by `ConvertedArray` |
| Binding.Convert | src/main/java/com/mcp/sdk/AnnotatedMCPTool.java:216-238 | null stays null, a value already of the target type is kept, and unknown target types keep the value |
| Binding.ConvertConforms | src/main/java/com/mcp/sdk/AnnotatedMCPTool.java:216-231 | a successful conversion to a scalar type yields a value of that boxed class, within its range |
| Binding.ConvertIdempotent | src/main/java/com/mcp/sdk/AnnotatedMCPTool.java:216-238 | converting an already converted value again changes nothing |
| Binding.ConvertFailureIsNotValidation | src/main/java/com/mcp/sdk/AnnotatedMCPTool.java:216-238 | conversion fails only with a JDK exception (NumberFormat, ClassCast or NullPointer), never with a validation exception |
| Binding.Validate | src/main/java/com/mcp/sdk/AnnotatedMCPTool.java:284-316 | every rejection is an MCPValidationException with the VALIDATION_ERROR code and no cause |
| Binding.ValidateAccepts | src/main/java/com/mcp/sdk/AnnotatedMCPTool.java:284-316 | a value passes exactly when it is null or meets the range, enum and pattern checks (both directions) |
| Binding.ValidateRangeFirst | src/main/java/com/mcp/sdk/AnnotatedMCPTool.java:288-296 | an out-of-range number is reported with the below-minimum or above-maximum message, whatever its enum or pattern status |
| Binding.ValidateEnumBeforePattern | src/main/java/com/mcp/sdk/AnnotatedMCPTool.java:299-306 | an in-range value outside the enum is reported by the enum message even if it also fails the pattern |
| Binding.ArgValue | src/main/java/com/mcp/sdk/AnnotatedMCPTool.java:177 | looking up an argument throws a NullPointerException exactly when the arguments object is null, and otherwise reads Vert.x `getValue` |
| Binding.ConvertAndValidate | src/main/java/com/mcp/sdk/AnnotatedMCPTool.java:191-194 | a successful binding is the converted value, and that value passed validation |
| Binding.MissingRequired | src/main/java/com/mcp/sdk/AnnotatedMCPTool.java:180-182 | a required parameter that is absent or null fails with the "Required parameter ... is missing" validation exception |
| Binding.MissingOptionalIsZero | src/main/java/com/mcp/sdk/AnnotatedMCPTool.java:185-187 | an absent optional parameter without default gets its type's zero and skips validation, so an `int` with `min = 1` is bound to 0 although 0 would fail the range check |
| Binding.DefaultActsAsInput | src/main/java/com/mcp/sdk/AnnotatedMCPTool.java:183-184 | an absent optional parameter with a default is bound exactly as if the parsed default had been supplied as the argument |
| Binding.SuppliedIsConvertedAndValidated | src/main/java/com/mcp/sdk/AnnotatedMCPTool.java:176-195 | a supplied value binds exactly when its conversion succeeds and passes validation, and then binds to that conversion |
| Binding.ExtractParameters | src/main/java/com/mcp/sdk/AnnotatedMCPTool.java:369-399 | filling the argument array slot by slot yields exactly the in-order binding or the first slot's exception |
| Binding.SlotThrowsException | src/main/java/com/mcp/sdk/AnnotatedMCPTool.java:377-396 | a slot that fails throws an exception, never an Error, so the outer `catch (Exception e)` sees every binding failure |
| Binding.BindThrowsException | src/main/java/com/mcp/sdk/AnnotatedMCPTool.java:369-399 | a failed binding throws an exception, never an Error |
| Binding.BindSlots | src/main/java/com/mcp/sdk/AnnotatedMCPTool.java:377-396 | a successful binding has one slot per parameter: the context for MCPContext parameters, the bound value for `@Parameter` ones, the raw unconverted argument under the reflected name otherwise |
| Binding.BindNullArguments | src/main/java/com/mcp/sdk/AnnotatedMCPTool.java:369-399 | with a null arguments object, binding succeeds exactly when every parameter is an MCPContext |
| Binding.BindMissingRequired | src/main/java/com/mcp/sdk/AnnotatedMCPTool.java:377-396 | after successful earlier slots, a missing required `@Parameter` makes the whole binding fail with its missing-parameter validation exception |
| Discovery.FirstMatch | src/main/java/com/mcp/sdk/config/AnnotationConfigProcessor.java:324-328 | the position found is the first declared method the filter accepts, and none is found exactly when no method is accepted |
| Discovery.MethodAt | src/main/java/com/mcp/sdk/config/AnnotationConfigProcessor.java:322-342 | a method is returned exactly when a position was found |
| Discovery.FirstCandidate | src/main/java/com/mcp/sdk/AnnotatedMCPTool.java:122-131 | the tool method found is a declared `@ToolMethod` or `@Parameter`-annotated method, and none is found exactly when no declared method is one |
| Discovery.PreferredToolMethod | src/main/java/com/mcp/sdk/config/AnnotationConfigProcessor.java:322-342 | the method found is a candidate of the class, and none is found exactly when no declared method is one |
| Discovery.FindPreferredToolMethod | src/main/java/com/mcp/sdk/config/AnnotationConfigProcessor.java:322-342 | the two loops, a `@ToolMethod` pass and then a `@Parameter` pass, return exactly the preferred tool method |
| Discovery.FindNamedToolMethod | src/main/java/com/mcp/sdk/MCPToolHandlerSupport.java:58-66 | the loop returns the first declared candidate with the requested name, so any method it returns has that name |
| Discovery.FindersAgree | src/main/java/com/mcp/sdk/config/AnnotationConfigProcessor.java:322-342 | the tool-side and configuration-side finders find a method for the same classes, and they pick the same one when no method carries `@ToolMethod` or when the first candidate does |
| Discovery.FindersDiffer | src/main/java/com/mcp/sdk/AnnotatedMCPTool.java:125-130 | when a method with annotated parameters is declared before a `@ToolMethod`, the tool binds the earlier one while the configuration describes the later one |
| Discovery.HandlerToolName | src/main/java/com/mcp/sdk/MCPToolHandler.java:56 | the handler's fallback name is the lower-cased simple name with one trailing "tool" removed, and unchanged when there is no such suffix |
| Discovery.ReplaceTrailingTool | src/main/java/com/mcp/sdk/AnnotatedMCPTool.java:53 | removing every "tool" from a name whose only "tool" is at its end leaves the stem |
| Discovery.NameDerivationsAgree | src/main/java/com/mcp/sdk/config/AnnotationConfigProcessor.java:126-127 | the tool-class and handler fallback names agree, giving the stem, on names whose only "tool" is the suffix |
| Discovery.NameDerivationsAgreeWithoutTool | src/main/java/com/mcp/sdk/MCPToolHandler.java:56 | both fallback names are the lower-cased simple name when it contains no "tool" |
| Discovery.NameDerivationsDiffer | src/main/java/com/mcp/sdk/AnnotatedMCPTool.java:53 | for a class such as `ToolboxTool`, whose name lower-cases to "toolboxtool", the tool class derives "box" while the handler derives "toolbox" |
| Schema.JsonTypeFallbacks | src/main/java/com/mcp/sdk/config/AnnotationConfigProcessor.java:347-366 | the two schema generators map every Java type to the same JSON type, except unknown classes, which are "object" in the tool definition and "string" in the configuration |
| Schema.ParamSchemaKeys | src/main/java/com/mcp/sdk/AnnotatedMCPTool.java:151-167 | each constraint key (minimum, maximum, enum, pattern, and default in the tool definition only) is present exactly when the annotation sets it, with the annotation's value |
| Schema.PropertiesDomain | src/main/java/com/mcp/sdk/config/AnnotationConfigProcessor.java:280-313 | the schema has a property of a name exactly when some `@Parameter`-annotated parameter has that name |
| Schema.PropertiesLastWins | src/main/java/com/mcp/sdk/AnnotatedMCPTool.java:93-107 | an annotated parameter that no later parameter shadows has its own schema under its name |
| Schema.RequiredNamesSpec | src/main/java/com/mcp/sdk/AnnotatedMCPTool.java:109-111 | a name is listed as required exactly when some required annotated parameter has that name |
| Schema.RequiredAreProperties | src/main/java/com/mcp/sdk/config/AnnotationConfigProcessor.java:307-311 | every required name is also a property of the schema |
| Schema.BuildInputSchema | src/main/java/com/mcp/sdk/config/AnnotationConfigProcessor.java:266-317 | the parameter loop produces exactly the specified `type`/`properties`/`required` schema object |
| Handlers.DefaultToolName | src/main/java/com/mcp/sdk/MCPToolHandler.java:50-57 | a non-empty `@MCPTool` name wins; otherwise the name is derived from the class's simple name |
| Handlers.DefaultHandler | src/main/java/com/mcp/sdk/MCPToolHandler.java:105-119 | a handler that overrides nothing reports its own class as the tool class and itself as the instance |
| Handlers.ValidateTool | src/main/java/com/mcp/sdk/MCPToolHandler.java:129-143 | validation passes exactly when the name and the description are non-blank and there is a class and an instance; every failure is an IllegalStateException |
| Handlers.ValidateNameFirst | src/main/java/com/mcp/sdk/MCPToolHandler.java:131-133 | a blank name is the failure reported, whatever else is missing |
| Handlers.DefaultHandlerValidation | src/main/java/com/mcp/sdk/MCPToolHandler.java:68-75 | without `@MCPTool` the fallback description is never blank, so an unmodified handler is valid exactly when its derived name is not blank |
| Handlers.ParameterName | src/main/java/com/mcp/sdk/MCPToolHandlerSupport.java:103-110 | a parameter is looked up under its non-empty `@Parameter` name, else under its reflected name |
| Handlers.BuildParameterArray | src/main/java/com/mcp/sdk/MCPToolHandlerSupport.java:79-98 | the array has one slot per parameter: the context for MCPContext parameters, and the raw map entry under the parameter's name otherwise |
| Handlers.RawSlotIgnoresAnnotations | src/main/java/com/mcp/sdk/MCPToolHandlerSupport.java:93-94 | on the reflective path a missing required parameter is passed as null instead of being rejected |
| Handlers.ReflectiveCallReaches | src/main/java/com/mcp/sdk/MCPToolHandlerSupport.java:32-53 | the reflective call reaches a method exactly when the class is known, declares a candidate of that name, there is an instance, and a parameter map is present whenever a non-context parameter needs one |
| Handlers.ExecuteByReflection | src/main/java/com/mcp/sdk/MCPToolHandlerSupport.java:32-53 | the lookup, the argument loop and the invocation together produce exactly the specified reflective call outcome |
| AnnotatedTools.ToolKind.Description | src/main/java/com/mcp/sdk/AnnotatedMCPToolAdapter.java:116-118 | an adapter always has a description, the handler's (null included); a subclass has one only with `@MCPTool` (AnnotatedMCPTool.java:59-66) |
| AnnotatedTools.ToolKind.Definition | src/main/java/com/mcp/sdk/AnnotatedMCPTool.java:116-119 | the generated definition has exactly the keys name, description and inputSchema, carries the given name, and fails exactly when the description does |
| AnnotatedTools.Recorded | src/main/java/com/mcp/sdk/AnnotatedMCPTool.java:89 | corrected table: the found method is kept under the tool name and under its own name, nothing else is added, and nothing changes when no method was found |
| AnnotatedTools.SubclassInitialization | src/main/java/com/mcp/sdk/AnnotatedMCPTool.java:33-44 | a subclass initialises exactly when it has `@MCPTool` and a candidate method, which is then recorded under the tool name only; a missing method gives the "No valid tool method found" IllegalStateException |
| AnnotatedTools.RecordedAsWritten | src/main/java/com/mcp/sdk/AnnotatedMCPTool.java:89 | the found method is stored under the tool name, every other entry is kept, and nothing changes when no method was found |
| AnnotatedTools.SubclassCallAfterInitialization | src/main/java/com/mcp/sdk/AnnotatedMCPTool.java:33-44 | end to end, once a subclass has initialised, a call whose arguments bind reaches the tool method exactly when the method is named like the tool, and is otherwise answered with the generic "Method not found" error |
| AnnotatedTools.ToolMethodPassSpec | src/main/java/com/mcp/sdk/AnnotatedMCPToolAdapter.java:83-88 | after the first pass a name is in the table exactly when it was before or a `@ToolMethod` of that name is declared, and such a name holds a declared `@ToolMethod` |
| AnnotatedTools.ParamPassSpec | src/main/java/com/mcp/sdk/AnnotatedMCPToolAdapter.java:91-101 | the second pass adds exactly the names of methods with annotated parameters that are not yet taken, never replacing an entry |
| AnnotatedTools.HandlerTableSpec | src/main/java/com/mcp/sdk/AnnotatedMCPToolAdapter.java:79-101 | the adapter's table gains exactly the names of the candidate methods, each entry a candidate of that name, and a `@ToolMethod` wins over a method that only has annotated parameters |
| AnnotatedTools.AdapterTableCoversFoundMethod | src/main/java/com/mcp/sdk/AnnotatedMCPToolAdapter.java:103-107 | the adapter's table is empty exactly when the class has no candidate, and it holds an entry under the name of the method `findToolMethod` records |
| AnnotatedTools.Failure | src/main/java/com/mcp/sdk/AnnotatedMCPTool.java:356-363 | what the try block throws itself leaves `handleToolCall` unchanged exactly when it is a validation exception or an Error (which `catch (Exception e)` does not catch); every other exception becomes the generic error result |
| AnnotatedTools.CauseFailure | src/main/java/com/mcp/sdk/AnnotatedMCPTool.java:338-354 | what the tool method threw: an MCPToolException becomes the enhanced error result, other exceptions are handled like the outer clauses, and an Error makes the `(Exception) cause` cast throw a ClassCastException, which leaves `handleToolCall` |
| AnnotatedTools.Outcome | src/main/java/com/mcp/sdk/AnnotatedMCPTool.java:332-354 | a method that returns always gets a reply; a method that throws leaves `handleToolCall` only with its validation exception, or with the cast's ClassCastException when it threw an Error |
| AnnotatedTools.CallReply | src/main/java/com/mcp/sdk/AnnotatedMCPTool.java:319-364 | a tool name without a recorded method gives the "No tool method found for: <name>" validation exception; whatever else happens, only a validation exception or the cast's ClassCastException leaves the call |
| AnnotatedTools.InvokedError | src/main/java/com/mcp/sdk/AnnotatedMCPTool.java:329-338 | the throwable reported is the Error the invoked tool method threw, never an exception |
| AnnotatedTools.InvokedOutcome | src/main/java/com/mcp/sdk/AnnotatedMCPTool.java:332-354 | once the method is invoked, something other than a validation exception leaves the call exactly when the method threw an Error, and that is the cast's ClassCastException naming the Error's class |
| AnnotatedTools.EscapingExceptions | src/main/java/com/mcp/sdk/AnnotatedMCPTool.java:319-364 | a call ends in something other than a validation exception exactly when the invoked tool method threw an Error, and then it ends in the ClassCastException of the `(Exception) cause` cast, naming that Error's class |
| AnnotatedTools.SubclassNameMismatch | src/main/java/com/mcp/sdk/AnnotatedMCPTool.java:89 | with the table as written, a subclass whose method name differs from its tool name answers every call that binds with the "Method not found" generic error |
| AnnotatedTools.SubclassNamesAgree | src/main/java/com/mcp/sdk/AnnotatedMCPTool.java:329-336 | with the table as written, the call reaches the method when its name is the tool name, and the outcome is routed |
| AnnotatedTools.SubclassReachesMethod | src/main/java/com/mcp/sdk/AnnotatedMCPTool.java:319-336 | with the corrected table, a subclass invokes its tool method with the bound arguments whatever the two names are |
| AnnotatedTools.AdapterReachesMethod | src/main/java/com/mcp/sdk/AnnotatedMCPToolAdapter.java:135-144 | an initialised adapter always finds a method of the recorded method's name and invokes it with the bound arguments |
| AnnotatedTools.MissingArgumentRethrown | src/main/java/com/mcp/sdk/AnnotatedMCPTool.java:356-358 | a missing required argument reaches the caller as the binder's "Required parameter ... is missing" validation exception |
| AnnotatedTools.AnnotatedTool.OfSubclass | src/main/java/com/mcp/sdk/AnnotatedMCPTool.java:20-21 | a new subclass instance starts with empty method and definition caches |
| AnnotatedTools.AnnotatedTool.OfHandler | src/main/java/com/mcp/sdk/AnnotatedMCPToolAdapter.java:46-51 | a new adapter wraps the handler with an empty method table and is not initialised |
| AnnotatedTools.AnnotatedTool.GenerateToolDefinition | src/main/java/com/mcp/sdk/AnnotatedMCPTool.java:76-120 | a method that is not found leaves the table unchanged and gives that error; a found method is recorded under the tool name (`RecordedAsWritten`) before the description is asked for, so a failing description still leaves it recorded; the result is the specified definition |
| AnnotatedTools.AnnotatedTool.GetToolDefinition | src/main/java/com/mcp/sdk/AnnotatedMCPTool.java:71-74 | a cached definition is returned without changes; otherwise one is generated, recording the method under the tool name as :89 does, and cached only when generation succeeds |
| AnnotatedTools.AnnotatedTool.InitializeHandlerMethods | src/main/java/com/mcp/sdk/AnnotatedMCPToolAdapter.java:79-108 | the two loops build exactly the specified handler table, and the call fails with "No valid tool methods found" exactly when the table is empty |
| AnnotatedTools.AnnotatedTool.InitializeAnnotationProcessing | src/main/java/com/mcp/sdk/AnnotatedMCPTool.java:33-44 | the failure and the new method table are those of `AnnotationInit`, which records the found method under the tool name only (`RecordedAsWritten`) |
| AnnotatedTools.AnnotatedTool.Initialize | src/main/java/com/mcp/sdk/AnnotatedMCPToolAdapter.java:63-74 | the failure, both method tables and the initialised flag afterwards are exactly those `Initialization` gives for the old state, the tool-method table following `RecordedAsWritten`, and the definition cache is untouched; a subclass only processes annotations (AnnotatedMCPTool.java:24-28) |
| AnnotatedTools.AnnotatedTool.InitializeValidAdapter | src/main/java/com/mcp/sdk/AnnotatedMCPToolAdapter.java:67-73 | after validation, the new state is exactly the one `AdapterInit` gives: the handler table, then annotation processing, which adds only the tool-name key, the flag set only when both succeed |
| AnnotatedTools.InitializationOutcome | src/main/java/com/mcp/sdk/AnnotatedMCPToolAdapter.java:63-74 | an adapter's initialisation succeeds exactly when validation, the handler table and annotation processing all succeed, the flag becomes true exactly then (or stays true), and a validation failure leaves the tables as they were; a subclass never changes the handler table or the flag |
| AnnotatedTools.AnnotatedTool.ToolMethodLoop | src/main/java/com/mcp/sdk/AnnotatedMCPToolAdapter.java:82-88 | the first loop leaves exactly the table of the first-pass specification |
| AnnotatedTools.AnnotatedTool.ParamLoop | src/main/java/com/mcp/sdk/AnnotatedMCPToolAdapter.java:90-101 | the second loop leaves exactly the table of the second-pass specification |
| AnnotatedTools.AnnotatedTool.HandleToolCall | src/main/java/com/mcp/sdk/AnnotatedMCPTool.java:319-364 | the call's reply is `CallReply`: lookup by tool name, binding, method lookup by method name, invocation and as-written serialisation, where a ClassCastException from `toJsonObject()` becomes a generic error and an Error from the method ends in the cast's ClassCastException (`EscapingExceptions`) |
| AnnotatedTools.RouteFailure | src/main/java/com/mcp/sdk/AnnotatedMCPTool.java:356-363 | the outer catch clauses as `Failure` states them: validation exceptions are rethrown, an Error passes both clauses, and the rest become generic error results |
| AnnotatedTools.RouteOutcome | src/main/java/com/mcp/sdk/AnnotatedMCPTool.java:334-357 | what the invoked method did is answered as `Outcome` specifies: a tool exception as an enhanced error result, a returned ToolResult unchanged and a returned value through `processResponse`, each serialised as written; a thrown validation exception is rethrown, a thrown Error ends in the cast's ClassCastException, and any other failure, a serialisation failure included, goes through the catch clauses |
| AnnotatedTools.Serialised | src/main/java/com/mcp/sdk/AnnotatedMCPTool.java:334-335 | `toJsonObject()` runs inside the try block: the reply is always a JSON reply, the envelope's JSON when it serialises and otherwise a generic error about the ClassCastException |
| AnnotatedTools.ListResultAnsweredWithGenericError | src/main/java/com/mcp/sdk/AnnotatedMCPTool.java:334-361 | a tool method that returns a result whose data is a JSON array (or a list `mapFrom` cannot convert) and no explicit item is answered with a generic error about the ClassCastException |
| AnnotatedTools.RouteReturned | src/main/java/com/mcp/sdk/AnnotatedMCPTool.java:332-335 | a plain returned value goes through `processResponse` and then `toJsonObject()`, and any exception of either is answered by the catch clauses, as `Outcome` specifies |
| Factory.ToolType | src/main/java/com/mcp/sdk/MCPToolFactory.java:99-107 | the type description is "Unknown tool type" exactly when the object is not a valid tool implementation |
| Factory.CreationFailure | src/main/java/com/mcp/sdk/MCPToolFactory.java:67-81 | every creation failure is an IllegalArgumentException |
| Factory.CreationAgreesWithValidity | src/main/java/com/mcp/sdk/MCPToolFactory.java:67-91 | `createTool(Object)` succeeds exactly on the objects `isValidToolImplementation` accepts, which are exactly those with a known tool type |
| Factory.CreateFromHandler | src/main/java/com/mcp/sdk/MCPToolFactory.java:36-41 | a null handler is rejected with "MCPToolHandler cannot be null"; otherwise the result is a fresh, uninitialised adapter around the handler |
| Factory.CreateFromTool | src/main/java/com/mcp/sdk/MCPToolFactory.java:50-55 | a null tool is rejected with "AnnotatedMCPTool cannot be null"; otherwise the same tool is returned |
| Factory.CreateTool | src/main/java/com/mcp/sdk/MCPToolFactory.java:67-81 | an object that is a handler is adapted even if it is also an annotated tool, an annotated tool is returned as is, and anything else fails with the specified exception |
| Config.ComponentJson | src/main/java/com/mcp/sdk/config/MCPConfiguration.java:91-97 | a component's JSON has exactly its key field (name or uri), className, eventBusAddress and definition, with the component's own key and definition (also lines 121-127 and 151-157) |
| Config.Tables.Add | src/main/java/com/mcp/sdk/config/MCPConfiguration.java:17-27 | adding a component keeps every table keyed by its entries' own keys |
| Config.TableJson | src/main/java/com/mcp/sdk/config/MCPConfiguration.java:54-63 | a table's JSON has exactly the table's keys |
| Config.TableJsonRepeatsKeys | src/main/java/com/mcp/sdk/config/MCPConfiguration.java:55 | in a keyed table's JSON each entry repeats its key inside, under name or uri |
| Config.MCPConfiguration.constructor | src/main/java/com/mcp/sdk/config/MCPConfiguration.java:13-15 | a new configuration has three empty tables |
| Config.MCPConfiguration.AddTool | src/main/java/com/mcp/sdk/config/MCPConfiguration.java:17-19 | the tool is put under its name, replacing any tool of that name, and the other tables are unchanged |
| Config.MCPConfiguration.AddResource | src/main/java/com/mcp/sdk/config/MCPConfiguration.java:21-23 | the resource is put under its URI, and the other tables are unchanged |
| Config.MCPConfiguration.AddPrompt | src/main/java/com/mcp/sdk/config/MCPConfiguration.java:25-27 | the prompt is put under its name, and the other tables are unchanged |
| Config.MCPConfiguration.ToJson | src/main/java/com/mcp/sdk/config/MCPConfiguration.java:51-67 | the configuration's JSON has exactly the keys tools, resources and prompts |
| Config.HasComponentsAgreesWithJson | src/main/java/com/mcp/sdk/config/MCPConfiguration.java:44-46 | the configuration has components exactly when one of the three sections of its JSON is non-empty |
| Config.ToolComponentOf | src/main/java/com/mcp/sdk/config/AnnotationConfigProcessor.java:124-148 | the tool is keyed by the annotation name, or by the derived name without one; it listens on the given address or on "tools." plus its name; it records the class name; its definition has exactly name, description, streaming, tags and the input schema of its tool method's parameters, each from the annotation |
| Config.ResourceComponentOf | src/main/java/com/mcp/sdk/config/AnnotationConfigProcessor.java:150-169 | a resource is keyed by its URI and listens on the given address or on "resources." plus the URI with every non-alphanumeric character replaced by "_"; its definition has exactly uri, name, description and mimeType, the name being the annotation's or the simple name without "Resource" |
| Config.PromptComponentOf | src/main/java/com/mcp/sdk/config/AnnotationConfigProcessor.java:171-189 | the prompt is named by the annotation, or by the lower-cased simple name with "prompt" removed; it listens on the given address or on "prompt." plus its name; its definition has exactly name, description and tags |
| Config.ProcessedRegistersOnce | src/main/java/com/mcp/sdk/config/AnnotationConfigProcessor.java:114-122 | a class is registered in one table only, `@MCPTool` taking precedence over `@MCPResource` over `@MCPPrompt`, and an unannotated class changes nothing |
| Config.GenerateInputSchema | src/main/java/com/mcp/sdk/config/AnnotationConfigProcessor.java:266-317 | the configuration's input schema is the schema of the preferred tool method's parameters, or the empty schema without one |
| Config.ProcessClass | src/main/java/com/mcp/sdk/config/AnnotationConfigProcessor.java:114-122 | the configuration's new state is that of registering the class once |
| Config.IsSubclassOf | src/main/java/com/mcp/sdk/config/AnnotationConfigProcessor.java:103-112 | the superclass walk finds the base name exactly when it is the simple name of the class or of one of its superclasses below Object |
| Config.DiscoverInPackage | src/main/java/com/mcp/sdk/config/AnnotationConfigProcessor.java:77-86 | the loop leaves the configuration as the specified processing of every annotated or convention-matching class, in scan order |
| Config.AutoDetectionRegistersNothing | src/main/java/com/mcp/sdk/config/AnnotationConfigProcessor.java:81-83 | a class that only matches the naming convention, without any of the three annotations, registers nothing, because `processClass` needs an annotation |
| Config.DiscoveredStaysKeyed | src/main/java/com/mcp/sdk/config/AnnotationConfigProcessor.java:77-86 | discovery keeps every table keyed by its entries' own keys |
| ToolBase.ToolVerticle.constructor | src/main/java/com/mcp/sdk/MCPTool.java:23 | a new verticle has its tool name and the no-op event logger |
| ToolBase.ToolVerticle.SetEventLogger | src/main/java/com/mcp/sdk/MCPTool.java:29-31 | setting a logger installs it, and setting null installs the no-op logger |
| ToolBase.ToolVerticle.Address | src/main/java/com/mcp/sdk/MCPTool.java:129-134 | the verticle listens on the address derived from its tool name |
| ToolBase.ToolAddress | src/main/java/com/mcp/sdk/MCPTool.java:130 | the address is the six-character prefix "tools." followed by the whole tool name |
| ToolBase.ToolAddressInjective | src/main/java/com/mcp/sdk/MCPTool.java:130 | distinct tool names listen on distinct addresses |
| ToolBase.RequestContextFields | src/main/java/com/mcp/sdk/MCPTool.java:93-125 | building the context fails exactly on a non-boolean "streaming" or a "metadata" that is not an object; otherwise the context copies each present string field, leaves absent ones unset, carries the request's streaming flag and metadata (empty when absent), has no attributes and starts at the current time |
| ToolBase.CopyPresentFields | src/main/java/com/mcp/sdk/MCPTool.java:96-121 | the `containsKey` copies leave the builder holding exactly the specified fields |
| ToolBase.CreateContextFromRequest | src/main/java/com/mcp/sdk/MCPTool.java:93-125 | driving the context builder produces exactly the specified context or exception |
| ToolBase.SuccessResponse | src/main/java/com/mcp/sdk/MCPTool.java:201-207 | a success response has only "content", holding one text item |
| ToolBase.SuccessResponseItems | src/main/java/com/mcp/sdk/MCPTool.java:214-216 | the response's only key "content" holds exactly the given items |
| ToolBase.ErrorResponse | src/main/java/com/mcp/sdk/MCPTool.java:224-230 | an error response is a success-shaped text response "Error: " plus the message |
| ToolBase.ErrorResponseIgnoresCode | src/main/java/com/mcp/sdk/MCPTool.java:224-230 | two error responses are equal exactly when their messages are, whatever their codes |
| ToolBase.RequiredString | src/main/java/com/mcp/sdk/MCPTool.java:239-245 | the string is returned exactly when the argument is present and its text is not blank; otherwise "Parameter ... is required" is thrown |
| ToolBase.OptionalStringFallsBack | src/main/java/com/mcp/sdk/MCPTool.java:277-280 | the optional string getter returns the default exactly where the required one throws, and otherwise the same string |
| ToolBase.RequiredInteger | src/main/java/com/mcp/sdk/MCPTool.java:254-268 | a result is always a 32-bit int; a missing argument gives "is required" and any other failure "must be a valid integer" |
| ToolBase.OptionalIntegerFallsBack | src/main/java/com/mcp/sdk/MCPTool.java:289-303 | the optional integer getter returns the default exactly where the required one throws, and otherwise the same number |
| ToolBase.RequiredIntegerReadsBack | src/main/java/com/mcp/sdk/MCPTool.java:254-268 | an int sent as a number or as its decimal text reads back as itself |
| ToolBase.ExceptionReply | src/main/java/com/mcp/sdk/MCPTool.java:180-193 | an IllegalArgumentException is replied as "Error: message", any other exception as "Error: tool failed: message" |
| ToolBase.MessageReply | src/main/java/com/mcp/sdk/MCPTool.java:152-193 | a request whose "arguments" cannot be read is left with that exception and no reply; once arguments and context are read, only an Error escapes, and a reply is sent only when both were read |
| ToolBase.Caught | src/main/java/com/mcp/sdk/MCPTool.java:180-192 | the catch clauses answer exactly the throwables that are exceptions, with `ExceptionReply`, and let an Error through unchanged |
| ToolBase.MessageRepliesUnlessError | src/main/java/com/mcp/sdk/MCPTool.java:152-193 | a request gets a reply exactly when its arguments and context can be read and neither the tool's validation nor its call throws an Error |
| ToolBase.BinderValidationReportedAsFailure | src/main/java/com/mcp/sdk/MCPTool.java:187-192 | a validation exception from the annotation binder is not an IllegalArgumentException, so it is replied as a failure of the tool, prefixed with the tool name |
| ToolBase.HelperFailureReportedVerbatim | src/main/java/com/mcp/sdk/MCPTool.java:180-185 | a `getRequiredString` failure reaches the client as "Error: Parameter ... is required" with no tool-name prefix |
| Prompts.ValidationFailure | src/main/java/com/mcp/sdk/MCPPrompt.java:47-59 | validation fails only with exceptions (a missing argument, a malformed definition), never with an Error |
| Prompts.DefinitionFailure | src/main/java/com/mcp/sdk/MCPPrompt.java:50-57 | one definition's check throws only exceptions: a cast failure, a NullPointerException or the missing-argument exception |
| Prompts.PromptReply | src/main/java/com/mcp/sdk/MCPPrompt.java:95-134 | a request whose "arguments" cannot be read is left with that exception and no reply; otherwise only an Error escapes |
| Prompts.PromptRepliesUnlessError | src/main/java/com/mcp/sdk/MCPPrompt.java:95-134 | a request whose arguments can be read gets a reply exactly when validation fails or the generator returns or throws an exception; only an Error from the generator goes unanswered |
| Prompts.ValidateArguments | src/main/java/com/mcp/sdk/MCPPrompt.java:47-59 | the loop over the argument definitions throws exactly what the specified first failing definition throws |
| Prompts.ValidationFindsFirstMissing | src/main/java/com/mcp/sdk/MCPPrompt.java:50-58 | over well-formed definitions, validation passes exactly when every required argument is present, and otherwise reports "Required argument ... is missing" for the first required argument that is absent |
| Prompts.ArgumentDef | src/main/java/com/mcp/sdk/AnnotatedMCPPrompt.java:40-48 | a parsed argument definition has exactly name and type, plus description when the entry has a third part |
| Prompts.PromptArguments | src/main/java/com/mcp/sdk/AnnotatedMCPPrompt.java:36-52 | the loop appends exactly the definitions of the entries with at least two parts, in declaration order |
| Prompts.SplitWithoutColon | src/main/java/com/mcp/sdk/AnnotatedMCPPrompt.java:40 | an entry without ':' splits into itself alone, whatever the limit |
| Prompts.SplitFirstPiece | src/main/java/com/mcp/sdk/AnnotatedMCPPrompt.java:40 | a first piece without ':' comes off whole and the rest is split with one part fewer |
| Prompts.ArgumentDefReadsBack | src/main/java/com/mcp/sdk/AnnotatedMCPPrompt.java:40-48 | "name:type:description" and "name:type" are read back into exactly their parts (the description may contain ':'), and a bare name is dropped |
| Prompts.ArgumentDefsOptional | src/main/java/com/mcp/sdk/AnnotatedMCPPrompt.java:42-47 | no definition parsed from the annotation has a "required" key |
| Prompts.AnnotatedArgumentsNeverRequired | src/main/java/com/mcp/sdk/MCPPrompt.java:53 | definitions without a "required" key never reject, because `getBoolean("required", false)` defaults to optional |
| Prompts.AnnotatedPromptAcceptsAll | src/main/java/com/mcp/sdk/AnnotatedMCPPrompt.java:36-52 | an annotated prompt's own argument definitions accept every arguments object |
| Prompts.PromptResponse | src/main/java/com/mcp/sdk/MCPPrompt.java:142-146 | a prompt response has exactly the description and the messages given |
| Prompts.RoleMessage | src/main/java/com/mcp/sdk/MCPPrompt.java:167-186 | a message has exactly a role and one text content object carrying the text |
| Prompts.MessagesDifferInRole | src/main/java/com/mcp/sdk/MCPPrompt.java:167-186 | user and assistant messages with the same text differ, and only in their role |
| Prompts.OptionalString | src/main/java/com/mcp/sdk/MCPPrompt.java:210-212 | the default is returned for a missing key, and a present string is returned as is |
| Prompts.OptionalStringKeepsBlank | src/main/java/com/mcp/sdk/MCPPrompt.java:210-212 | unlike the tool's getter (MCPTool.java:277-280), the prompt getter returns a blank string rather than the default |
| Prompts.MissingArgumentReply | src/main/java/com/mcp/sdk/MCPPrompt.java:95-134 | a request missing a required argument is answered "Error: Required argument ... is missing" for the first one, without consulting the generator |
| Prompts.AnnotatedPrompt.constructor | src/main/java/com/mcp/sdk/AnnotatedMCPPrompt.java:13 | a new prompt has no annotation read yet and the no-op logger |
| Prompts.AnnotatedPrompt.SetEventLogger | src/main/java/com/mcp/sdk/MCPPrompt.java:65-67 | setting a logger installs it, and null installs the no-op logger |
| Prompts.AnnotatedPrompt.Start | src/main/java/com/mcp/sdk/AnnotatedMCPPrompt.java:16-23 | starting reads the class's `@MCPPrompt`, and fails with the IllegalStateException exactly when there is none |
| Prompts.AnnotatedPrompt.PromptName | src/main/java/com/mcp/sdk/AnnotatedMCPPrompt.java:26-28 | the name is the annotation's, and reading it before `start` throws |
| Prompts.AnnotatedPrompt.PromptDescription | src/main/java/com/mcp/sdk/AnnotatedMCPPrompt.java:31-33 | the description is the annotation's, and reading it before `start` throws |
| Prompts.AnnotatedPrompt.Arguments | src/main/java/com/mcp/sdk/AnnotatedMCPPrompt.java:36-52 | the arguments are the definitions parsed from the annotation's entries, and reading them before `start` throws |
| Prompts.AnnotatedPrompt.Address | src/main/java/com/mcp/sdk/MCPPrompt.java:72-79 | the prompt listens on "prompt." plus its annotated name |
| Resources.UriFailure | src/main/java/com/mcp/sdk/MCPResource.java:41-45 | a URI is accepted exactly when it is present and not blank; otherwise "Resource URI cannot be null or empty" is thrown |
| Resources.ResourceAddress | src/main/java/com/mcp/sdk/MCPResource.java:72-73 | the address is "resources." followed by the URI, character for character, with every character that is not an ASCII letter or digit replaced by '_' |
| Resources.ResourceAddressShape | src/main/java/com/mcp/sdk/MCPResource.java:73 | the part after the prefix holds only letters, digits and '_', and URIs of the same length that differ only in non-alphanumeric characters share an address |
| Resources.AddressAgreesWithConfig | src/main/java/com/mcp/sdk/config/AnnotationConfigProcessor.java:155-156 | a resource listens exactly where the configuration processor says it does when no address is given |
| Resources.UriParamAsWrittenIndexFailure | src/main/java/com/mcp/sdk/MCPResource.java:184 | as written, "r?id=&" makes `getRequiredUriParam` throw ArrayIndexOutOfBounds instead of "not found", and `getOptionalUriParam` lets it escape instead of returning the default |
| Resources.RequiredUriParamAsWritten | src/main/java/com/mcp/sdk/MCPResource.java:179-191 | as written: a URI without "name=" gives the "not found" IllegalArgumentException; a value found is non-empty and holds no '&'; the only other failure is the ArrayIndexOutOfBounds of `split("&")[0]` |
| Resources.OptionalUriParamAsWritten | src/main/java/com/mcp/sdk/MCPResource.java:200-206 | as written: a value found is returned, the default replaces only the IllegalArgumentException, and exactly the ArrayIndexOutOfBounds escapes |
| Resources.OptionalUriParam | src/main/java/com/mcp/sdk/MCPResource.java:200-206 | corrected: the result is the default exactly when the required getter fails (or finds the default itself), and any other result is a value the required getter finds |
| Resources.RequiredUriParam | src/main/java/com/mcp/sdk/MCPResource.java:179-191 | corrected getter: a value found is non-empty and holds no '&'; every failure is the "Required parameter ... not found in URI" IllegalArgumentException |
| Resources.UriParamCorrection | src/main/java/com/mcp/sdk/MCPResource.java:179-206 | the corrected getter agrees with the code everywhere the code does not hit the index failure, fails where it does, and the optional getter returns the default exactly where the required one fails |
| Resources.UriParamReadsBack | src/main/java/com/mcp/sdk/MCPResource.java:181-187 | a non-empty value without '&' that follows the only occurrence of "name=" and ends the URI or precedes '&' is read back exactly |
| Resources.TextResponse | src/main/java/com/mcp/sdk/MCPResource.java:134-141 | a text reply has one "contents" entry with the resource's URI, the text, and the MIME type or "text/plain" when it is null |
| Resources.BinaryResponse | src/main/java/com/mcp/sdk/MCPResource.java:149-156 | a binary reply has one "contents" entry with the URI, the data under "blob", and the MIME type or "application/octet-stream" when it is null |
| Resources.ResourceErrorResponse | src/main/java/com/mcp/sdk/MCPResource.java:164-170 | an error reply has one "contents" entry, a text item "Error: " plus the message; the code is not part of it |
| Resources.ResourceReply | src/main/java/com/mcp/sdk/MCPResource.java:91-126 | only an Error escapes without a reply, and only when the URI was accepted and the read threw it |
| Resources.ResourceRepliesUnlessError | src/main/java/com/mcp/sdk/MCPResource.java:91-126 | a request gets a reply exactly when its URI is rejected or the read returns or throws an exception |
| Resources.BlankUriRejected | src/main/java/com/mcp/sdk/MCPResource.java:91-117 | a request without a usable "uri" is answered with the URI validation error, and the resource is never read |
| Resources.NotFoundIsReadFailure | src/main/java/com/mcp/sdk/MCPResource.java:119-124 | a read that throws MCPResourceNotFoundException is answered as a failed read, not as a validation error: the internal-error code and "<resource> read failed: Resource not found: <uri>" |
| Resources.AnnotatedResource.constructor | src/main/java/com/mcp/sdk/AnnotatedMCPResource.java:13 | a new resource has no annotation read yet and the no-op logger |
| Resources.AnnotatedResource.SetEventLogger | src/main/java/com/mcp/sdk/MCPResource.java:58-60 | setting a logger installs it, and null installs the no-op logger |
| Resources.AnnotatedResource.Start | src/main/java/com/mcp/sdk/AnnotatedMCPResource.java:16-23 | starting reads the class's `@MCPResource`, fails with the IllegalStateException exactly when there is none, and otherwise registers on the resource's address (MCPResource.java:71-76) |
| Resources.AnnotatedResource.ResourceUri | src/main/java/com/mcp/sdk/AnnotatedMCPResource.java:26-28 | the URI is the annotation's, and reading it before `start` throws |
| Resources.AnnotatedResource.Definition | src/main/java/com/mcp/sdk/AnnotatedMCPResource.java:31-37 | the definition has exactly uri, name, description and mimeType, taken from the annotation, and reading it before `start` throws |
| Resources.DefinitionAgreesWithConfig | src/main/java/com/mcp/sdk/config/AnnotationConfigProcessor.java:158-162 | a started resource with an explicit name describes itself exactly as the configuration processor describes it |
| Testing.Section.Key | src/main/java/com/mcp/sdk/testing/TestResult.java:110-161 | the text assertions search the "content" array or the "messages" array |
| Testing.TextOf | src/main/java/com/mcp/sdk/testing/TestResult.java:118-121 | an object offers text exactly when its "type" reads "text" and it has a non-null "text", and then that text |
| Testing.ItemText | src/main/java/com/mcp/sdk/testing/TestResult.java:115-125 | a content item offers its own text, a message item the text of its "content" object (lines 166-178) |
| Testing.ScanFindsMatch | src/main/java/com/mcp/sdk/testing/TestResult.java:115-125 | when every item can be read, the search succeeds exactly when some item's text contains the expected text; a failure comes from an item that cannot be read |
| Testing.FindText | src/main/java/com/mcp/sdk/testing/TestResult.java:114-125 | the loop with its found flag computes exactly the specified search |
| Testing.TestResult.IsError | src/main/java/com/mcp/sdk/testing/TestResult.java:33-35 | a result is an error exactly when it is not a success |
| Testing.TestResult.AssertSuccess | src/main/java/com/mcp/sdk/testing/TestResult.java:48-53 | the assertion passes exactly on a success, handing back the same result |
| Testing.TestResult.AssertError | src/main/java/com/mcp/sdk/testing/TestResult.java:58-63 | the assertion passes exactly on an error, handing back the same result |
| Testing.TestResult.AssertErrorContains | src/main/java/com/mcp/sdk/testing/TestResult.java:68-75 | the assertion passes exactly on an error whose message contains the text |
| Testing.TestResult.AssertContains | src/main/java/com/mcp/sdk/testing/TestResult.java:80-92 | the assertion passes exactly on a success with data whose field equals the non-null expected value; a null expected value throws NullPointerException |
| Testing.TestResult.AssertHasField | src/main/java/com/mcp/sdk/testing/TestResult.java:97-103 | the assertion passes exactly on a success with data that has the key (also lines 137-154) |
| Testing.TestResult.AssertContentContains | src/main/java/com/mcp/sdk/testing/TestResult.java:108-132 | the assertion over "content" gives exactly the specified text-assertion outcome |
| Testing.TestResult.AssertMessagesContain | src/main/java/com/mcp/sdk/testing/TestResult.java:159-186 | the assertion over "messages" gives exactly the specified text-assertion outcome |
| Testing.TestResult.AssertSearch | src/main/java/com/mcp/sdk/testing/TestResult.java:108-186 | the shared body of both text assertions gives exactly the specified outcome |
| Testing.TestResult.AssertThat | src/main/java/com/mcp/sdk/testing/TestResult.java:191-197 | the assertion passes exactly on a success with data the predicate accepts; without data it fails with the message and "Actual data: null" |
| Testing.TestResult.GetValueAt | src/main/java/com/mcp/sdk/testing/TestResult.java:203-220 | the loop over the path's keys reaches exactly the value the path names |
| Testing.Success | src/main/java/com/mcp/sdk/testing/TestResult.java:21-23 | a success result carries the data |
| Testing.Error | src/main/java/com/mcp/sdk/testing/TestResult.java:25-27 | an error result carries the message and no data |
| Testing.SuccessOrError | src/main/java/com/mcp/sdk/testing/TestResult.java:48-63 | exactly one of `assertSuccess` and `assertError` passes |
| Testing.ErrorContainsPieces | src/main/java/com/mcp/sdk/testing/TestResult.java:68-75 | an error passes `assertErrorContains` for every piece of its message, and a success never does |
| Testing.WalkConcat | src/main/java/com/mcp/sdk/testing/TestResult.java:209-217 | walking a concatenated path is walking the first part and then the second |
| Testing.SplitDottedPath | src/main/java/com/mcp/sdk/testing/TestResult.java:206 | a dotted path splits back into the keys it was joined from, when no key holds '.' and the last is not empty |
| Testing.PathValueFollowsKeys | src/main/java/com/mcp/sdk/testing/TestResult.java:203-220 | `getValue` of a dotted path follows its keys one by one, starting from the data |
| Testing.ValueAndAssertContainsAgree | src/main/java/com/mcp/sdk/testing/TestResult.java:80-92 | for a single key, `getValue` hands out the raw entry and `assertContains` compares the Vert.x-wrapped form of it |
| Testing.TextAssertionSpec | src/main/java/com/mcp/sdk/testing/TestResult.java:108-132 | over readable items, a text assertion on a success passes exactly when some item's text contains the expected text |
| Testing.MissingSectionReported | src/main/java/com/mcp/sdk/testing/TestResult.java:109-113 | without the section's key the assertion fails with its "no content" message before any search |
| Testing.ToStringShowsOutcome | src/main/java/com/mcp/sdk/testing/TestResult.java:223-229 | the text form starts with "TestResult{success=true" exactly for a success |

## Left out

- **Vert.x verticle lifecycle and event bus.** `start`, the event-bus consumers, `message.reply`, deployment, `MCPStreamingTool` and `MCPTestServer` are I/O and asynchronous messaging. Only the pure mapping from a request to the reply it gets is modelled.
- **Start-up of the annotated prompt and resource.** `AnnotatedMCPPrompt.start()` and `AnnotatedMCPResource.start()` are lifecycle code. `MCPPrompt` overrides `start(Promise)` and does not call `start()`, so in a deployed prompt the annotation is never read. The model starts from the annotation as given.
- **Streaming.** `StreamResponseProcessor`, `HttpStreamingHelper`, `HttpStreamingSupport` and the adapter's `handleHttpStreaming` are threads and transport. Only the `streaming` flag of annotations, definitions and contexts is modelled.
- **Classpath scanning and file output.** `scanPackage`, `scanDirectory`, `scanJar`, `generateSchemaFiles`, the `generate*Schemas` methods and `writeJsonFile` do file-system and JAR I/O. Only registration of given classes and the schemas built from them are modelled.
- **Logging and MDC.** `MCPContextUtils`, `ToolEventLogger` and every logger call have no effect on results.
- **The legacy `handleToolCall(arguments)`.** This overload of the annotated tool only builds a default context and forwards. The model covers the context-taking call it forwards to.
- **Reflection.** Methods, parameters and fields are descriptors, and `Method.invoke` is the `invoke` parameter. Which exceptions the JDK throws while reflecting is not modelled beyond that outcome.
- **Floating point.** Doubles and floats are integral values. Non-integral doubles, NaN, the ±∞ bound sentinels and rounding are left out, and `Double.toString` is rendered only for integral values.
- **Case mapping.** `toUpperCase` and `toLowerCase` are modelled for ASCII letters only.
- **Regular expressions.** `Pattern.matches` on a user's `@Parameter(pattern)` is the uninterpreted `matches` field of `Runtime`. A URI parameter name is a plain literal, so a name holding regex metacharacters in `MCPResource`'s `split` is not modelled. The fixed rewrites `[^a-zA-Z0-9]` → `_` and the ":" and "&" splits are written out.
- **Jackson and Vert.x internals.** `JsonObject.mapFrom`, `encodePrettily` and `toString` of composite objects are fields of `Runtime`, with no body. Key order within JSON objects and maps is not modelled, because objects are Dafny `map`s.
- **JDK exception texts.** The messages the SDK's replies can carry are written out: `NumberFormatException`'s `For input string: "…"` and "empty String", and `ArrayIndexOutOfBoundsException`'s "Index 0 out of bounds for length 0". A `ClassCastException`'s text depends on the classes involved and is the `castMessage` field of `Runtime`, or its `errorCastMessage` field for the cast of an Error to `Exception`. A `NullPointerException` is modelled without a message, so JDK helpful null-pointer messages are not modelled.
- **The clock.** `Instant.now()` and `System.currentTimeMillis()` are a `now` parameter.
- **Thread safety.** Concurrent access to `DefaultMCPContext`'s attributes is not modelled; they are an immutable `map`.
- **Overridden validation.** A tool's `validateArguments` is the `validate` parameter of `ToolBase.MessageReply`, so an override is covered there. The prompt and resource replies run the default validation only:
- Prompts.PromptReply: runs the default `validateArguments`; a subclass that overrides it is not modelled.
- Resources.ResourceReply: runs the default `validateUri`; a subclass that overrides it is not modelled.
- **Example code.** `EnhancedCalculatorExample` and `QuickDemo` are demos. They serve only as the scenario of the third finding.
- Values.ParseDouble: only literals whose value is an integer are read. A literal with a non-zero fraction, a negative exponent that leaves a fraction, `NaN`, `Infinity`, hexadecimal literals, rounding, overflow to infinity and `-0.0` are refused or read as integers, so `Binding.Convert` and `Binding.ParseDefault` refuse a `double` or `float` argument or default Java would accept as a fraction. Decimal, exponent and `f`/`d` suffix forms are read as Java reads them.
- Literals.PlainRoundTrip: covers values below 10^7 in magnitude. `Double.toString` writes larger values in scientific notation, which is not proved to read back.
- AnnotatedTools.ToolKind.ToolName: a handler whose `getToolName()` returns null keys the adapter's method table with `null`. The model uses the string "null" for that key.
- AnnotatedTools.AnnotatedTool.HandleToolCall: a method that returns a `ToolResult` is represented by the envelope that result holds when it is returned. Later changes through other references to the same object are not modelled.
- Binding.ConvertConforms: requires that a boxed Integer or Long holds a value of its width, as every JVM value does. The model's unbounded integers otherwise admit values no Java argument can hold.
- Prompts.OptionalString: a key mapped to JSON null yields null in Java, which the model writes as `None`. The ensures states only the missing-key and string cases.
- Testing.TestResult.AssertContains: Java `equals` between the expected and the actual value is modelled as structural equality of values. For POJOs and collections whose `equals` is not structural, the two can differ.
- Testing.TestResult.AssertThat: the message is a non-null string. A null message, which Java would print as "null", is not modelled.

## Findings

| source | as written | input that shows it | evidently intended | confidence | as-written member | corrected member |
|---|---|---|---|---|---|---|
| src/main/java/com/mcp/sdk/MCPResource.java:184 | the value after "name=" is cut at the first "&" by `split("&")[0]` | the URI `r?id=&` with parameter `id`: `"&".split("&")` is an empty array, so `[0]` throws `ArrayIndexOutOfBoundsException`, which `getOptionalUriParam` does not catch either | an empty value is reported as the parameter being missing ("Required parameter not found"), and the optional getter returns its default | not executed | Resources.UriParamAsWrittenIndexFailure | Resources.RequiredUriParam |
| src/main/java/com/mcp/sdk/ToolResult.java:286 | a data item is flattened to text by `item.getJsonObject("data")` | a `ToolResult` holding a data item whose payload is a JSON array, or a list that `mapFrom` cannot convert and that is kept as its string: `getJsonObject` throws `ClassCastException`, and the call is answered with a generic system error | the payload is rendered as text, whatever its JSON shape | not executed | ToolResults.DataAsTextAsWrittenThrows | ToolResults.DataAsText |
| src/main/java/com/mcp/sdk/AnnotatedMCPTool.java:89 | the resolved method is stored in `toolMethods` under the tool name, but `executeToolMethod` looks it up by the method name (:332, :430) | `EnhancedCalculatorExample` with tool name "enhanced_calculator" and method `basicCalculation`: every call is answered with the generic error "Method not found: basicCalculation" | a call reaches the resolved tool method with its bound arguments | not executed | AnnotatedTools.SubclassNameMismatch | AnnotatedTools.SubclassReachesMethod |

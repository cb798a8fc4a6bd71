/** The execution context handed to tool methods (DefaultMCPContext): an
    immutable record, derived copies with more attributes, and its builder. */
module Context {
  import opened Wrappers
  import opened Values
  import opened Exceptions

  /** A built context. `None` and `Null` stand for null fields; `startTime`
      is the builder's clock reading in milliseconds. */
  datatype Context = Context(
    correlationId: Option<string>,
    mcpId: Option<string>,
    sessionId: Option<string>,
    rpcMethod: Option<string>,
    requestId: Value,
    attributes: map<string, Value>,
    metadata: map<string, Value>,
    startTime: int,
    clientAddress: Option<string>,
    streaming: bool)
  {
    /** Attributes live in a ConcurrentHashMap, which holds no null value. */
    predicate Valid()
    {
      forall k | k in attributes :: attributes[k] != Null
    }

    /** `getRequestId()`: empty for a null request id. */
    function RequestId(): (r: Option<Value>)
      ensures r.Some? <==> requestId != Null
      ensures r.Some? ==> r.value == requestId
    {
      if requestId == Null then None else Some(requestId)
    }

    /** `getAttribute(key)`: empty exactly when the key is absent. */
    function Attribute(key: string): (r: Option<Value>)
      ensures Valid() ==> (r.Some? <==> key in attributes)
      ensures r.Some? ==> key in attributes && r.value == attributes[key]
    {
      if key in attributes && attributes[key] != Null then Some(attributes[key]) else None
    }

    /** `withAttributes(m)`: a new context through a builder refilled from
        this one; `m`'s values win, and a null value in `m` makes the
        ConcurrentHashMap copy throw. */
    function WithAttributes(additional: map<string, Value>): (r: Result<Context, JavaException>)
      ensures Valid() ==> (r.Ok? <==> forall k | k in additional :: additional[k] != Null)
      ensures r.Ok? ==> r.value.Valid()
      ensures r.Ok? ==> r.value.attributes.Keys == attributes.Keys + additional.Keys
      ensures r.Ok? ==> forall k | k in additional :: r.value.attributes[k] == additional[k]
      ensures r.Ok? ==> forall k | k in attributes && k !in additional ::
                          r.value.attributes[k] == attributes[k]
      ensures r.Ok? ==> r.value.(attributes := attributes) == this
      ensures r.Err? ==> r.error.NullPointer?
    {
      Freeze(this.(attributes := attributes + additional))
    }

    /** `withAttribute(k, v)`: `withAttributes` of the one-entry map. */
    function WithAttribute(key: string, value: Value): (r: Result<Context, JavaException>)
      ensures Valid() ==> (r.Ok? <==> value != Null)
      ensures r.Ok? ==> r.value.Attribute(key) == Some(value)
      ensures r.Ok? ==> forall k | k != key :: r.value.Attribute(k) == Attribute(k)
      ensures r.Ok? ==> r.value.(attributes := attributes) == this
    {
      var single := map[key := value];
      assert (forall k | k in single :: single[k] != Null) <==> value != Null by {
        assert key in single && single[key] == value;
      }
      WithAttributes(single)
    }
  }

  /** The private constructor: builder fields become a context, the
      attribute copy rejecting null values with a NullPointerException. */
  function Freeze(draft: Context): (r: Result<Context, JavaException>)
    ensures r.Ok? <==> draft.Valid()
    ensures r.Ok? ==> r.value == draft
  {
    if draft.Valid() then Ok(draft) else Err(NullPointer(None))
  }

  /** A fresh builder: empty attributes and metadata, not streaming, and the
      clock reading `now` as start time. */
  function NewDraft(now: int): Context
  {
    Context(None, None, None, None, Null, map[], map[], now, None, false)
  }

  /** DefaultMCPContext.Builder */
  class ContextBuilder {
    var correlationId: Option<string>
    var mcpId: Option<string>
    var sessionId: Option<string>
    var rpcMethod: Option<string>
    var requestId: Value
    var attributes: map<string, Value>
    var metadata: map<string, Value>
    var startTime: int
    var clientAddress: Option<string>
    var streaming: bool

    /** The context `build()` would produce, before the null check. */
    function State(): Context
      reads this
    {
      Context(correlationId, mcpId, sessionId, rpcMethod, requestId, attributes, metadata,
              startTime, clientAddress, streaming)
    }

    /** `DefaultMCPContext.builder()`, `now` standing for `currentTimeMillis()`. */
    constructor (now: int)
      ensures State() == NewDraft(now)
    {
      correlationId, mcpId, sessionId, rpcMethod := None, None, None, None;
      requestId := Null;
      attributes, metadata := map[], map[];
      startTime := now;
      clientAddress := None;
      streaming := false;
    }

    method SetCorrelationId(id: Option<string>)
      modifies this
      ensures State() == old(State()).(correlationId := id)
    {
      correlationId := id;
    }

    method SetMcpId(id: Option<string>)
      modifies this
      ensures State() == old(State()).(mcpId := id)
    {
      mcpId := id;
    }

    method SetSessionId(id: Option<string>)
      modifies this
      ensures State() == old(State()).(sessionId := id)
    {
      sessionId := id;
    }

    method SetMethod(m: Option<string>)
      modifies this
      ensures State() == old(State()).(rpcMethod := m)
    {
      rpcMethod := m;
    }

    method SetRequestId(id: Value)
      modifies this
      ensures State() == old(State()).(requestId := id)
    {
      requestId := id;
    }

    /** `attribute(k, v)`: a HashMap put, so null is accepted until `build`. */
    method PutAttribute(key: string, value: Value)
      modifies this
      ensures State() == old(State()).(attributes := old(attributes)[key := value])
    {
      attributes := attributes[key := value];
    }

    /** `attributes(m)`: `putAll`, the argument winning. */
    method PutAttributes(entries: map<string, Value>)
      modifies this
      ensures State() == old(State()).(attributes := old(attributes) + entries)
    {
      attributes := attributes + entries;
    }

    /** `metadata(m)`: a copy of `m`, or empty for null. */
    method SetMetadata(m: Option<map<string, Value>>)
      modifies this
      ensures State() == old(State()).(metadata := m.GetOr(map[]))
    {
      metadata := m.GetOr(map[]);
    }

    method SetStartTime(t: int)
      modifies this
      ensures State() == old(State()).(startTime := t)
    {
      startTime := t;
    }

    method SetClientAddress(a: Option<string>)
      modifies this
      ensures State() == old(State()).(clientAddress := a)
    {
      clientAddress := a;
    }

    method SetStreaming(s: bool)
      modifies this
      ensures State() == old(State()).(streaming := s)
    {
      streaming := s;
    }

    method Build() returns (r: Result<Context, JavaException>)
      ensures r == Freeze(State())
    {
      r := Freeze(State());
    }
  }

  /** `withAttributes` is what a builder refilled from the context and given
      both attribute maps in turn builds. */
  method WithAttributesByBuilder(c: Context, additional: map<string, Value>) returns (r: Result<Context, JavaException>)
    ensures r == c.WithAttributes(additional)
  {
    var b := new ContextBuilder(c.startTime);
    b.SetCorrelationId(c.correlationId);
    b.SetMcpId(c.mcpId);
    b.SetSessionId(c.sessionId);
    b.SetMethod(c.rpcMethod);
    b.SetRequestId(c.requestId);
    b.SetMetadata(Some(c.metadata));
    b.SetStartTime(c.startTime);
    b.SetClientAddress(c.clientAddress);
    b.SetStreaming(c.streaming);
    b.PutAttributes(c.attributes);
    b.PutAttributes(additional);
    assert map[] + c.attributes == c.attributes;
    r := b.Build();
  }

  /** Merging twice is merging once with the union, the later map winning. */
  lemma WithAttributesTwice(c: Context, m1: map<string, Value>, m2: map<string, Value>)
    requires c.Valid()
    requires c.WithAttributes(m1).Ok?
    ensures c.WithAttributes(m1).value.WithAttributes(m2) == c.WithAttributes(m1 + m2)
  {
    assert c.attributes + m1 + m2 == c.attributes + (m1 + m2);
  }
}

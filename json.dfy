/** The typed Vert.x JSON accessors the SDK calls, with the exceptions their
    casts throw. A keyed accessor with a default falls back to it only when
    the key is missing; a key mapped to null yields null. */
module JsonAccess {
  import opened Wrappers
  import opened Values
  import opened Exceptions

  /** The ClassCastException a failed cast of `v` to `target` throws. */
  function CastFailure(rt: Runtime, v: Value, target: string): JavaException
  {
    ClassCast(Some(rt.castMessage(v, target)))
  }

  /** `JsonObject.getJsonObject(key)`: a map is wrapped, null stays null,
      anything else fails the cast. */
  function GetJsonObject(rt: Runtime, m: map<string, Value>, key: string): (r: Result<Option<map<string, Value>>, JavaException>)
    ensures r.Ok? <==> Lookup(m, key) == Null || Lookup(m, key).JObject? || Lookup(m, key).Dict?
    ensures r.Ok? && r.value.None? <==> Lookup(m, key) == Null
    ensures key in m && m[key].JObject? ==> r == Ok(Some(m[key].fields))
    ensures r.Err? ==> r.error.ClassCast?
  {
    match Lookup(m, key)
    case Null => Ok(None)
    case JObject(fields) => Ok(Some(fields))
    case Dict(_, entries) => Ok(Some(entries))
    case v => Err(CastFailure(rt, v, "io.vertx.core.json.JsonObject"))
  }

  /** `JsonObject.getJsonObject(key, def)` */
  function GetJsonObjectOr(rt: Runtime, m: map<string, Value>, key: string, default: map<string, Value>)
    : (r: Result<Option<map<string, Value>>, JavaException>)
    ensures key !in m ==> r == Ok(Some(default))
    ensures key in m ==> r == GetJsonObject(rt, m, key)
  {
    if key in m then GetJsonObject(rt, m, key) else Ok(Some(default))
  }

  /** `JsonObject.getBoolean(key, def)` */
  function GetBooleanOr(rt: Runtime, m: map<string, Value>, key: string, default: bool): (r: Result<Option<bool>, JavaException>)
    ensures key !in m ==> r == Ok(Some(default))
    ensures key in m && m[key].Bool? ==> r == Ok(Some(m[key].b))
    ensures key in m && m[key] == Null ==> r == Ok(None)
    ensures r.Err? <==> key in m && m[key] != Null && !m[key].Bool?
  {
    if key !in m then Ok(Some(default))
    else match m[key]
      case Null => Ok(None)
      case Bool(b) => Ok(Some(b))
      case v => Err(CastFailure(rt, v, "java.lang.Boolean"))
  }

  /** `JsonArray.getInteger(i)`: null stays null, any Number gives its
      `intValue()`, anything else fails the cast. */
  function ArrayGetInteger(rt: Runtime, v: Value): (r: Result<Option<int>, JavaException>)
    ensures v == Null ==> r == Ok(None)
    ensures v.Num? ==> r == Ok(Some(IntValue(v)))
    ensures r.Err? <==> v != Null && !v.Num?
  {
    if v == Null then Ok(None)
    else if v.Num? then Ok(Some(IntValue(v)))
    else Err(CastFailure(rt, v, "java.lang.Number"))
  }

  /** `JsonArray.getDouble(i)`: null stays null, any Number gives its
      `doubleValue()` (integral values only are modelled). */
  function ArrayGetDouble(rt: Runtime, v: Value): (r: Result<Option<int>, JavaException>)
    ensures v == Null ==> r == Ok(None)
    ensures v.Num? ==> r == Ok(Some(v.n))
    ensures r.Err? <==> v != Null && !v.Num?
  {
    if v == Null then Ok(None)
    else if v.Num? then Ok(Some(v.n))
    else Err(CastFailure(rt, v, "java.lang.Number"))
  }

  /** `JsonObject.getJsonArray(key)`: a list is wrapped, null stays null,
      anything else fails the cast. */
  function GetJsonArray(rt: Runtime, m: map<string, Value>, key: string): (r: Result<Option<seq<Value>>, JavaException>)
    ensures r.Ok? <==> Lookup(m, key) == Null || Lookup(m, key).JArray? || (Lookup(m, key).Coll? && Lookup(m, key).isList)
    ensures r.Ok? && r.value.None? <==> Lookup(m, key) == Null
    ensures key in m && m[key].JArray? ==> r == Ok(Some(m[key].items))
  {
    match Lookup(m, key)
    case Null => Ok(None)
    case JArray(items) => Ok(Some(items))
    case Coll(_, isList, items) =>
      if isList then Ok(Some(items)) else Err(CastFailure(rt, Lookup(m, key), "io.vertx.core.json.JsonArray"))
    case v => Err(CastFailure(rt, v, "io.vertx.core.json.JsonArray"))
  }

  /** `JsonArray.getJsonObject(i)`: a map is wrapped, null stays null,
      anything else fails the cast. */
  function ArrayGetJsonObject(rt: Runtime, v: Value): (r: Result<Option<map<string, Value>>, JavaException>)
    ensures r.Ok? <==> v == Null || v.JObject? || v.Dict?
    ensures v.JObject? ==> r == Ok(Some(v.fields))
  {
    match v
    case Null => Ok(None)
    case JObject(fields) => Ok(Some(fields))
    case Dict(_, entries) => Ok(Some(entries))
    case _ => Err(CastFailure(rt, v, "io.vertx.core.json.JsonObject"))
  }
}

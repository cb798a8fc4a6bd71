/** Java objects as the SDK handles them: strings, boxed numbers, booleans,
    characters, Vert.x JSON containers, Java collections and maps, the three
    array types the binder produces, and plain objects described by their
    fields. A Vert.x JsonObject is a map of such values, so JSON output is a
    `Value` too. */
module Values {
  import opened Wrappers
  import opened Text

  /** The boxed number classes Vert.x JSON decoding and the binder produce. */
  datatype NumKind = IntKind | LongKind | DoubleKind | FloatKind

  datatype Value =
    | Null
    | Str(s: string)
    | Bool(b: bool)
    | Chr(c: char)
      /** An Integer, Long, Double or Float with an integral value. */
    | Num(kind: NumKind, n: int)
      /** io.vertx.core.json.JsonArray */
    | JArray(items: seq<Value>)
      /** io.vertx.core.json.JsonObject */
    | JObject(fields: map<string, Value>)
      /** a java.util.Collection; `isList` when it is also a java.util.List */
    | Coll(className: string, isList: bool, items: seq<Value>)
      /** a java.util.Map with string keys */
    | Dict(className: string, entries: map<string, Value>)
      /** String[]; `None` is a null element */
    | StrArr(strs: seq<Option<string>>)
      /** int[] */
    | IntArr(ints: seq<int>)
      /** double[] (integral elements) */
    | DblArr(dbls: seq<int>)
      /** any other object, with its declared fields in declaration order */
    | Obj(className: string, props: seq<Field>)

  datatype Field = Field(name: string, value: Value)

  /** Library behaviour the SDK calls into without defining it. */
  datatype Runtime = Runtime(
    /** `toString()` of values whose rendering the JDK or Vert.x decide
        (JSON containers, collections, maps, arrays, plain objects). */
    describe: Value -> string,
    /** `JsonObject.mapFrom(v)`: Jackson's conversion of an object to a JSON
        object, or the message of the exception it throws. */
    mapFrom: Value -> Result<map<string, Value>, Option<string>>,
    /** `JsonObject.encodePrettily()` */
    encodePretty: map<string, Value> -> string,
    /** `Pattern.matches(regex, input)`: the regex matches the whole input. */
    matches: (string, string) -> bool,
    /** The message of the ClassCastException a cast of the value to the
        named class throws. */
    castMessage: (Value, string) -> string,
    /** The message of the ClassCastException that casting a thrown Error
        of the named class to `Exception` raises. */
    errorCastMessage: string -> string,
    /** `getClass().getDeclaredFields()` with the values read from `v`, for
        library classes (JsonObject, JsonArray) whose fields the SDK does not
        define. */
    declaredFields: Value -> seq<Field>
  )

  /** `getClass().getSimpleName()`, and "null" for null. */
  function SimpleName(v: Value): string
  {
    match v
    case Null => "null"
    case Str(_) => "String"
    case Bool(_) => "Boolean"
    case Chr(_) => "Character"
    case Num(k, _) =>
      (match k
       case IntKind => "Integer"
       case LongKind => "Long"
       case DoubleKind => "Double"
       case FloatKind => "Float")
    case JArray(_) => "JsonArray"
    case JObject(_) => "JsonObject"
    case Coll(name, _, _) => name
    case Dict(name, _) => name
    case StrArr(_) => "String[]"
    case IntArr(_) => "int[]"
    case DblArr(_) => "double[]"
    case Obj(name, _) => name
  }

  /** `String.valueOf(v)`: "null" for null, the JDK rendering of strings,
      numbers, booleans and characters, the runtime's for everything else. */
  function JavaString(rt: Runtime, v: Value): string
  {
    match v
    case Null => "null"
    case Str(s) => s
    case Bool(b) => if b then "true" else "false"
    case Chr(c) => [c]
    case Num(k, n) => if k == IntKind || k == LongKind then IntToString(n) else DoubleToString(n)
    case _ => rt.describe(v)
  }

  /** String, Number, Boolean or Character: the values ResponseProcessor
      renders with `toString()`. */
  predicate IsScalar(v: Value)
  {
    v.Str? || v.Num? || v.Bool? || v.Chr?
  }

  /** `json.getValue(key)` / `map.get(key)`: null when the key is absent. */
  function Lookup(m: map<string, Value>, key: string): (v: Value)
    ensures key !in m ==> v == Null
  {
    if key in m then m[key] else Null
  }

  /** How Vert.x hands out a stored value: a java.util.Map is wrapped as a
      JsonObject and a java.util.List as a JsonArray. */
  function Wrapped(v: Value): (r: Value)
    ensures !v.Dict? && !(v.Coll? && v.isList) ==> r == v
  {
    match v
    case Dict(_, entries) => JObject(entries)
    case Coll(_, isList, items) => if isList then JArray(items) else v
    case _ => v
  }

  /** `JsonObject.getValue(key)` */
  function GetValue(m: map<string, Value>, key: string): (v: Value)
    ensures key !in m ==> v == Null
    ensures key in m ==> v == Wrapped(m[key])
  {
    Wrapped(Lookup(m, key))
  }

  /** `JsonObject.getString(key)`: null for a missing or null entry, the
      `toString()` of any other value. */
  function GetString(rt: Runtime, m: map<string, Value>, key: string): (r: Option<string>)
    ensures r.None? <==> Lookup(m, key) == Null
    ensures key in m && m[key].Str? ==> r == Some(m[key].s)
  {
    var v := Lookup(m, key);
    if v == Null then None else Some(JavaString(rt, v))
  }

  /** `JsonObject.getString(key, def)`: the default only for a missing key. */
  function GetStringOr(rt: Runtime, m: map<string, Value>, key: string, default: string): (r: Option<string>)
    ensures key !in m ==> r == Some(default)
    ensures key in m ==> r == GetString(rt, m, key)
  {
    if key in m then GetString(rt, m, key) else Some(default)
  }

  // ------------------------------------------------------ fixed-width numbers

  const INT_MIN: int := -0x8000_0000
  const INT_MAX: int := 0x7fff_ffff
  const LONG_MIN: int := -0x8000_0000_0000_0000
  const LONG_MAX: int := 0x7fff_ffff_ffff_ffff

  /** A boxed Integer or Long holds a value of its width. */
  predicate InJavaRange(v: Value)
  {
    v.Num? ==> (v.kind == IntKind ==> INT_MIN <= v.n <= INT_MAX) && (v.kind == LongKind ==> LONG_MIN <= v.n <= LONG_MAX)
  }

  /** Two's-complement narrowing to 32 bits (`(int) someLong`). */
  function Wrap32(n: int): (r: int)
    ensures INT_MIN <= r <= INT_MAX
    ensures INT_MIN <= n <= INT_MAX ==> r == n
  {
    (n - INT_MIN) % 0x1_0000_0000 + INT_MIN
  }

  /** Two's-complement narrowing to 64 bits. */
  function Wrap64(n: int): (r: int)
    ensures LONG_MIN <= r <= LONG_MAX
    ensures LONG_MIN <= n <= LONG_MAX ==> r == n
  {
    (n - LONG_MIN) % 0x1_0000_0000_0000_0000 + LONG_MIN
  }

  /** A floating-point to integer cast, which clamps to the target range. */
  function Clamp(n: int, lo: int, hi: int): (r: int)
    requires lo <= hi
    ensures lo <= r <= hi
    ensures lo <= n <= hi ==> r == n
  {
    if n < lo then lo else if n > hi then hi else n
  }

  /** `Number.intValue()` */
  function IntValue(v: Value): (r: int)
    requires v.Num?
    ensures INT_MIN <= r <= INT_MAX
    ensures INT_MIN <= v.n <= INT_MAX ==> r == v.n
  {
    if v.kind == IntKind || v.kind == LongKind then Wrap32(v.n) else Clamp(v.n, INT_MIN, INT_MAX)
  }

  /** `Number.longValue()` */
  function LongValue(v: Value): (r: int)
    requires v.Num?
    ensures LONG_MIN <= r <= LONG_MAX
    ensures LONG_MIN <= v.n <= LONG_MAX ==> r == v.n
  {
    if v.kind == IntKind || v.kind == LongKind then Wrap64(v.n) else Clamp(v.n, LONG_MIN, LONG_MAX)
  }

  // ------------------------------------------------------------------ parsing

  /** The message of `NumberFormatException.forInputString(s)`. */
  function ForInputString(s: string): string
  {
    "For input string: \"" + s + "\""
  }

  /** `Integer.parseInt(s)`, with the NumberFormatException message on failure. */
  function ParseInt(s: string): (r: Result<int, string>)
    ensures r.Ok? ==> INT_MIN <= r.value <= INT_MAX && ParseIntegral(s) == Some(r.value)
    ensures r.Err? ==> r.error == ForInputString(s)
  {
    match ParseIntegral(s)
    case Some(n) => if INT_MIN <= n <= INT_MAX then Ok(n) else Err(ForInputString(s))
    case None => Err(ForInputString(s))
  }

  /** `Long.parseLong(s)` */
  function ParseLong(s: string): (r: Result<int, string>)
    ensures r.Ok? ==> LONG_MIN <= r.value <= LONG_MAX && ParseIntegral(s) == Some(r.value)
    ensures r.Err? ==> r.error == ForInputString(s)
  {
    match ParseIntegral(s)
    case Some(n) => if LONG_MIN <= n <= LONG_MAX then Ok(n) else Err(ForInputString(s))
    case None => Err(ForInputString(s))
  }

  /** A decimal literal `Double.parseDouble` accepts: its sign, its
      mantissa's digits (whole part then fraction) and the power of ten
      they are scaled by. */
  datatype Decimal = Decimal(negative: bool, digits: string, exponent: int)

  /** The exponent of a decimal literal: its sign, its digits (none when
      the literal has no exponent) and the index after it. */
  datatype Exponent = Exponent(negative: bool, digits: string, end: nat)

  /** The power of ten an exponent denotes. */
  function ExponentValue(x: Exponent): int
    requires AllDigits(x.digits)
  {
    if x.negative then -(DigitsValue(x.digits) as int) else DigitsValue(x.digits)
  }

  /** The optional exponent of a literal at index `j`: `e` or `E`, an
      optional sign and at least one digit. None when the letter is there
      but no digit follows. */
  function ScanExponent(t: string, j: nat): (r: Option<Exponent>)
    requires j <= |t|
    ensures r.Some? ==> j <= r.value.end <= |t| && AllDigits(r.value.digits)
    ensures j == |t| || (t[j] != 'e' && t[j] != 'E') ==> r == Some(Exponent(false, "", j))
  {
    if j < |t| && (t[j] == 'e' || t[j] == 'E') then
      var start := if j + 1 < |t| && (t[j + 1] == '-' || t[j + 1] == '+') then j + 2 else j + 1;
      var n := DigitRun(t, start);
      assert AllDigits(t[start..start + n]);
      if n == 0 then None
      else Some(Exponent(start == j + 2 && t[j + 1] == '-', t[start..start + n], start + n))
    else Some(Exponent(false, "", j))
  }

  /** The digits of a mantissa (whole part then fraction), how many of
      them follow the point, and the index after it. */
  datatype Mantissa = Mantissa(digits: string, fraction: nat, end: nat)

  /** The mantissa of a literal at index `i`: digits with at most one
      point, at least one digit in all. */
  function ScanMantissa(t: string, i: nat): (r: Option<Mantissa>)
    requires i <= |t|
    ensures r.Some? ==> i < r.value.end <= |t| && AllDigits(r.value.digits)
  {
    var whole := DigitRun(t, i);
    assert AllDigits(t[i..i + whole]);
    if i + whole < |t| && t[i + whole] == '.' then
      var fraction := DigitRun(t, i + whole + 1);
      assert AllDigits(t[i + whole + 1..i + whole + 1 + fraction]);
      if whole + fraction == 0 then None
      else Some(Mantissa(t[i..i + whole] + t[i + whole + 1..i + whole + 1 + fraction], fraction, i + whole + 1 + fraction))
    else if whole == 0 then None
    else Some(Mantissa(t[i..i + whole], 0, i + whole))
  }

  /** A literal ends at `k`, or has one `f`, `F`, `d` or `D` there as its
      last character. */
  predicate EndsAt(t: string, k: nat)
  {
    k == |t| || (k + 1 == |t| && t[k] in "fFdD")
  }

  function SignLength(t: string): nat
  {
    if 0 < |t| && (t[0] == '-' || t[0] == '+') then 1 else 0
  }

  /** The grammar of a trimmed, non-empty decimal literal: an optional sign,
      a mantissa, an optional exponent, and at most one `f`, `F`, `d` or
      `D` at the end. */
  function ScanDecimal(t: string): (r: Option<Decimal>)
    ensures r.Some? ==> AllDigits(r.value.digits)
  {
    match ScanMantissa(t, SignLength(t))
    case None => None
    case Some(m) =>
      match ScanExponent(t, m.end)
      case None => None
      case Some(x) =>
        if EndsAt(t, x.end) then Some(Decimal(0 < |t| && t[0] == '-', m.digits, ExponentValue(x) - m.fraction)) else None
  }

  /** `m` with `k` zeros written after it. */
  function Grow(m: nat, k: nat): nat
    decreases k
  {
    if k == 0 then m else Grow(m * 10, k - 1)
  }

  /** `m` with `k` trailing zeros taken off, when it ends in that many. */
  function Shrink(m: nat, k: nat): Option<nat>
    decreases k
  {
    if k == 0 then Some(m)
    else if m % 10 == 0 then Shrink(m / 10, k - 1)
    else None
  }

  /** `m` scaled by ten to the `e`, when that is an integer. */
  function Scale(m: nat, e: int): (r: Option<nat>)
    ensures e >= 0 ==> r.Some?
  {
    if e >= 0 then Some(Grow(m, e)) else Shrink(m, -e)
  }

  lemma {:induction false} GrowPow10(m: nat, k: nat)
    ensures Grow(m, k) == m * Pow10(k)
    decreases k
  {
    if k > 0 {
      GrowPow10(m * 10, k - 1);
      ShiftOnce(m, k);
    }
  }

  lemma {:induction false} ShrinkPow10(m: nat, k: nat)
    ensures Shrink(m, k).Some? ==> Shrink(m, k).value * Pow10(k) == m
    decreases k
  {
    if k > 0 && m % 10 == 0 {
      ShrinkPow10(m / 10, k - 1);
      if Shrink(m / 10, k - 1).Some? {
        var v := Shrink(m / 10, k - 1).value;
        var p := Pow10(k - 1);
        assert v * p == m / 10;
        assert v * Pow10(k) == 10 * (v * p);
      }
    }
  }

  lemma {:induction false} ShrinkExact(v: nat, k: nat)
    ensures Shrink(v * Pow10(k), k) == Some(v)
    decreases k
  {
    if k > 0 {
      var x := v * Pow10(k - 1);
      assert v * Pow10(k) == x * 10;
      ShrinkExact(v, k - 1);
    }
  }

  /** A scale up by `e` is a product with ten to the `e`. */
  lemma ScaleUp(m: nat, e: nat)
    ensures Scale(m, e) == Some(m * Pow10(e))
  {
    GrowPow10(m, e);
  }

  /** A scale down by `k` is an integer only when it is a quotient by ten
      to the `k`, and every such quotient is found. */
  lemma ScaleDown(m: nat, k: nat)
    requires k > 0
    ensures Scale(m, -(k as int)).Some? ==> Scale(m, -(k as int)).value * Pow10(k) == m
    ensures Scale(m * Pow10(k), -(k as int)) == Some(m)
  {
    ShrinkPow10(m, k);
    ShrinkExact(m, k);
  }

  /** The integer a decimal literal denotes, when it denotes one. */
  function DecimalValue(d: Decimal): (r: Option<int>)
    requires AllDigits(d.digits)
    ensures d.exponent >= 0 ==> r.Some?
  {
    match Scale(DigitsValue(d.digits), d.exponent)
    case None => None
    case Some(v) => Some(if d.negative then -(v as int) else v)
  }

  /** `Double.parseDouble(s)` (and `Float.parseFloat`) on the literals whose
      value is an integer: surrounding characters up to U+0020 are trimmed,
      a blank string is "empty String", and anything else that is not a
      decimal literal, or is one with a fractional value, fails with the
      trimmed text in the message. */
  function ParseDouble(s: string): (r: Result<int, string>)
    ensures Trim(s) == "" ==> r == Err("empty String")
    ensures Trim(s) != "" && r.Err? ==> r.error == ForInputString(Trim(s))
    ensures Trim(s) != "" && ScanDecimal(Trim(s)).None? ==> r.Err?
  {
    var t := Trim(s);
    if t == "" then Err("empty String")
    else
      match ScanDecimal(t)
      case None => Err(ForInputString(t))
      case Some(d) => ReadDecimal(t, d)
  }

  /** What `Double.parseDouble` gives for the literal `t` once it has
      scanned as `d`: the integer `d` denotes, or the failure naming `t`. */
  function ReadDecimal(t: string, d: Decimal): (r: Result<int, string>)
    requires AllDigits(d.digits)
    ensures r.Err? <==> DecimalValue(d).None?
    ensures r.Err? ==> r.error == ForInputString(t)
  {
    match DecimalValue(d)
    case Some(n) => Ok(n)
    case None => Err(ForInputString(t))
  }

  /** `Boolean.parseBoolean(s)`: true exactly for "true" in any letter case. */
  function ParseBoolean(s: string): bool
  {
    EqualsIgnoreCase(s, "true")
  }
}

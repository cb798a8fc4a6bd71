/** Type-safe parameter binding in AnnotatedMCPTool: each argument of a tool
    call is looked up by its parameter name, defaulted, converted to the
    parameter's declared type and validated against its `@Parameter`
    constraints before the tool method runs. */
module Binding {
  import opened Wrappers
  import opened Values
  import opened Text
  import opened Exceptions
  import opened Annotations
  import opened JsonAccess

  // ------------------------------------------------ first-failure collection

  /** `k` is the first position at which `f` throws. */
  predicate FirstFailure<A, T>(f: A -> Result<T, JavaException>, xs: seq<A>, k: int)
  {
    0 <= k < |xs| && f(xs[k]).Err? && forall j | 0 <= j < k :: f(xs[j]).Ok?
  }

  /** Applying `f` to each element in order, as a Java loop filling an array
      does: the results when none throws, otherwise the first exception. */
  function Collect<A, T>(f: A -> Result<T, JavaException>, xs: seq<A>): (r: Result<seq<T>, JavaException>)
    ensures r.Ok? <==> forall i | 0 <= i < |xs| :: f(xs[i]).Ok?
    ensures r.Ok? ==> |r.value| == |xs| && forall i | 0 <= i < |xs| :: r.value[i] == f(xs[i]).value
    ensures r.Err? ==> exists k :: FirstFailure(f, xs, k) && r.error == f(xs[k]).error
    decreases |xs|
  {
    if xs == [] then Ok([])
    else
      var init := xs[..|xs| - 1];
      assert forall j | 0 <= j < |init| :: init[j] == xs[j];
      match Collect(f, init)
      case Err(e) =>
        var k :| FirstFailure(f, init, k) && e == f(init[k]).error;
        assert FirstFailure(f, xs, k);
        Err(e)
      case Ok(vs) =>
        match f(xs[|xs| - 1])
        case Err(e) =>
          assert FirstFailure(f, xs, |xs| - 1);
          Err(e)
        case Ok(v) => Ok(vs + [v])
  }

  /** One more successful step extends the collected prefix by its result. */
  lemma CollectStep<A, T>(f: A -> Result<T, JavaException>, xs: seq<A>, i: nat, vs: seq<T>)
    requires i < |xs| && Collect(f, xs[..i]) == Ok(vs) && f(xs[i]).Ok?
    ensures Collect(f, xs[..i + 1]) == Ok(vs + [f(xs[i]).value])
  {
    assert xs[..i + 1][..i] == xs[..i];
  }

  /** A step that throws after a successful prefix decides the whole outcome. */
  lemma CollectStop<A, T>(f: A -> Result<T, JavaException>, xs: seq<A>, i: nat)
    requires i < |xs| && Collect(f, xs[..i]).Ok? && f(xs[i]).Err?
    ensures Collect(f, xs) == Err(f(xs[i]).error)
  {
    assert forall j | 0 <= j < i :: xs[..i][j] == xs[j];
    var r := Collect(f, xs);
    assert r.Err?;
    var k :| FirstFailure(f, xs, k) && r.error == f(xs[k]).error;
    assert k == i;
  }

  /** The loop shape every conversion of convertToArray shares: a fresh array
      of the input's length, filled slot by slot. */
  method CollectInto<A, T(0)>(f: A -> Result<T, JavaException>, xs: seq<A>) returns (r: Result<seq<T>, JavaException>)
    ensures r == Collect(f, xs)
  {
    var a := new T[|xs|];
    var i := 0;
    while i < |xs|
      invariant 0 <= i <= |xs|
      invariant Collect(f, xs[..i]) == Ok(a[..i])
    {
      var y := f(xs[i]);
      if y.Err? {
        CollectStop(f, xs, i);
        return Err(y.error);
      }
      CollectStep(f, xs, i, a[..i]);
      a[i] := y.value;
      assert a[..i + 1] == a[..i] + [y.value];
      i := i + 1;
    }
    assert xs[..i] == xs && a[..] == a[..i];
    return Ok(a[..]);
  }

  // ---------------------------------------------------------- declared types

  /** The primitive types, the only ones with a non-null default value. */
  predicate IsPrimitive(typ: TypeTag)
  {
    match typ
    case TInt(boxed) => !boxed
    case TLong(boxed) => !boxed
    case TDouble(boxed) => !boxed
    case TFloat(boxed) => !boxed
    case TBool(boxed) => !boxed
    case _ => false
  }

  /** `targetType.isInstance(value)` for a non-null value. No value is an
      instance of a primitive type. For any other class the conversion
      returns the value whether or not it is an instance, so those classes
      are not told apart. */
  predicate IsInstance(v: Value, typ: TypeTag)
  {
    match typ
    case TString => v.Str?
    case TInt(boxed) => boxed && v.Num? && v.kind == IntKind
    case TLong(boxed) => boxed && v.Num? && v.kind == LongKind
    case TDouble(boxed) => boxed && v.Num? && v.kind == DoubleKind
    case TFloat(boxed) => boxed && v.Num? && v.kind == FloatKind
    case TBool(boxed) => boxed && v.Bool?
    case TArray(component) =>
      (component == TString && v.StrArr?)
      || (component == TInt(false) && v.IntArr?)
      || (component == TDouble(false) && v.DblArr?)
    case _ => false
  }

  /** What a converted value of a scalar type looks like: the right boxed
      class, within that class's range. */
  predicate Conforms(v: Value, typ: TypeTag)
  {
    match typ
    case TString => v.Str?
    case TInt(_) => v.Num? && v.kind == IntKind && INT_MIN <= v.n <= INT_MAX
    case TLong(_) => v.Num? && v.kind == LongKind && LONG_MIN <= v.n <= LONG_MAX
    case TDouble(_) => v.Num? && v.kind == DoubleKind
    case TFloat(_) => v.Num? && v.kind == FloatKind
    case TBool(_) => v.Bool?
    case _ => true
  }

  predicate IsScalarType(typ: TypeTag)
  {
    typ.TString? || typ.TInt? || typ.TLong? || typ.TDouble? || typ.TFloat? || typ.TBool?
  }

  /** `getDefaultValue`: the zero of a primitive type, null for every other. */
  function ZeroValue(typ: TypeTag): (r: Value)
    ensures r != Null <==> IsPrimitive(typ)
    ensures r != Null ==> Conforms(r, typ) && (r.Num? ==> r.n == 0) && (r.Bool? ==> !r.b)
  {
    match typ
    case TInt(boxed) => if boxed then Null else Num(IntKind, 0)
    case TLong(boxed) => if boxed then Null else Num(LongKind, 0)
    case TDouble(boxed) => if boxed then Null else Num(DoubleKind, 0)
    case TFloat(boxed) => if boxed then Null else Num(FloatKind, 0)
    case TBool(boxed) => if boxed then Null else Bool(false)
    case _ => Null
  }

  /** A parsed number boxed in class `k`, or the NumberFormatException. */
  function Parsed(r: Result<int, string>, k: NumKind): (v: Result<Value, JavaException>)
    ensures r.Ok? ==> v == Ok(Num(k, r.value))
    ensures r.Err? ==> v == Err(NumberFormat(Some(r.error)))
  {
    match r
    case Ok(n) => Ok(Num(k, n))
    case Err(msg) => Err(NumberFormat(Some(msg)))
  }

  /** `parseDefaultValue`: the annotation's default text read as the declared
      type; arrays and other classes keep the text. */
  function ParseDefault(default: string, typ: TypeTag): (r: Result<Value, JavaException>)
    ensures r.Ok? && IsScalarType(typ) ==> Conforms(r.value, typ)
    ensures r.Ok? ==> r.value.Str? || r.value.Num? || r.value.Bool?
    ensures r.Err? ==> r.error.NumberFormat?
  {
    match typ
    case TString => Ok(Str(default))
    case TInt(_) => Parsed(ParseInt(default), IntKind)
    case TLong(_) => Parsed(ParseLong(default), LongKind)
    case TDouble(_) => Parsed(ParseDouble(default), DoubleKind)
    case TFloat(_) => Parsed(ParseDouble(default), FloatKind)
    case TBool(_) => Ok(Bool(ParseBoolean(default)))
    case _ => Ok(Str(default))
  }

  /** A default written as the decimal form of an in-range int is read back
      as that int. */
  lemma ParseDefaultInt(n: int, boxed: bool)
    requires INT_MIN <= n <= INT_MAX
    ensures ParseDefault(IntToString(n), TInt(boxed)) == Ok(Num(IntKind, n))
  {
    ParseIntToString(n);
  }

  // ------------------------------------------------------------- conversion

  /** One element of a JsonArray bound to a String[]: `toString()` of the
      element as `getValue(i)` hands it out, null kept. */
  function JsonStringSlot(rt: Runtime, v: Value): Result<Option<string>, JavaException>
  {
    Ok(if v == Null then None else Some(JavaString(rt, Wrapped(v))))
  }

  /** One element of a JsonArray bound to an int[]: `getInteger(i)`, null
      read as 0. */
  function JsonIntSlot(rt: Runtime, v: Value): Result<int, JavaException>
  {
    match ArrayGetInteger(rt, v)
    case Ok(n) => Ok(n.GetOr(0))
    case Err(e) => Err(e)
  }

  /** One element of a JsonArray bound to a double[]: `getDouble(i)`, null
      read as 0.0. */
  function JsonDoubleSlot(rt: Runtime, v: Value): Result<int, JavaException>
  {
    match ArrayGetDouble(rt, v)
    case Ok(n) => Ok(n.GetOr(0))
    case Err(e) => Err(e)
  }

  /** One element of a java.util.List bound to a String[]:
      `Object::toString`, which throws on null. */
  function ListStringSlot(rt: Runtime, v: Value): Result<Option<string>, JavaException>
  {
    if v == Null then Err(NullPointer(None)) else Ok(Some(JavaString(rt, v)))
  }

  function JsonStrings(rt: Runtime): Value -> Result<Option<string>, JavaException>
  {
    v => JsonStringSlot(rt, v)
  }

  function JsonInts(rt: Runtime): Value -> Result<int, JavaException>
  {
    v => JsonIntSlot(rt, v)
  }

  function JsonDoubles(rt: Runtime): Value -> Result<int, JavaException>
  {
    v => JsonDoubleSlot(rt, v)
  }

  function ListStrings(rt: Runtime): Value -> Result<Option<string>, JavaException>
  {
    v => ListStringSlot(rt, v)
  }

  /** The array `convertToArray` produces for a non-null value: JsonArrays
      become String[], int[] or double[] by component type, Lists become
      String[], and everything else is returned unchanged. */
  function ConvertedArray(rt: Runtime, v: Value, component: TypeTag): Result<Value, JavaException>
  {
    match v
    case JArray(items) =>
      if component == TString then
        match Collect(JsonStrings(rt), items)
        case Ok(ss) => Ok(StrArr(ss))
        case Err(e) => Err(e)
      else if component.TInt? then
        match Collect(JsonInts(rt), items)
        case Ok(ns) => Ok(IntArr(ns))
        case Err(e) => Err(e)
      else if component.TDouble? then
        match Collect(JsonDoubles(rt), items)
        case Ok(ns) => Ok(DblArr(ns))
        case Err(e) => Err(e)
      else Ok(v)
    case Coll(_, isList, items) =>
      if isList && component == TString then
        match Collect(ListStrings(rt), items)
        case Ok(ss) => Ok(StrArr(ss))
        case Err(e) => Err(e)
      else Ok(v)
    case _ => Ok(v)
  }

  /** Arrays keep their length. Null JSON elements become null strings or
      zeros, a JSON element that is not a number fails an int[] or double[]
      conversion with a ClassCastException, and a null list element fails a
      String[] conversion with a NullPointerException. */
  lemma ConvertedArrayShape(rt: Runtime, v: Value, component: TypeTag)
    ensures v.JArray? && component == TString ==>
      var r := ConvertedArray(rt, v, component);
      r.Ok? && r.value.StrArr? && |r.value.strs| == |v.items|
      && forall i | 0 <= i < |v.items| ::
           r.value.strs[i] == (if v.items[i] == Null then None else Some(JavaString(rt, Wrapped(v.items[i]))))
    ensures v.JArray? && component.TInt? ==>
      var r := ConvertedArray(rt, v, component);
      (r.Ok? <==> forall i | 0 <= i < |v.items| :: v.items[i] == Null || v.items[i].Num?)
      && (r.Ok? ==>
            r.value.IntArr? && |r.value.ints| == |v.items|
            && forall i | 0 <= i < |v.items| ::
                 r.value.ints[i] == (if v.items[i] == Null then 0 else IntValue(v.items[i])))
      && (r.Err? ==> r.error.ClassCast?)
    ensures v.JArray? && component.TDouble? ==>
      var r := ConvertedArray(rt, v, component);
      (r.Ok? <==> forall i | 0 <= i < |v.items| :: v.items[i] == Null || v.items[i].Num?)
      && (r.Ok? ==>
            r.value.DblArr? && |r.value.dbls| == |v.items|
            && forall i | 0 <= i < |v.items| ::
                 r.value.dbls[i] == (if v.items[i] == Null then 0 else v.items[i].n))
      && (r.Err? ==> r.error.ClassCast?)
    ensures v.Coll? && v.isList && component == TString ==>
      var r := ConvertedArray(rt, v, component);
      (r.Ok? <==> Null !in v.items)
      && (r.Ok? ==>
            r.value.StrArr? && |r.value.strs| == |v.items|
            && forall i | 0 <= i < |v.items| :: r.value.strs[i] == Some(JavaString(rt, v.items[i])))
      && (r.Err? ==> r.error == NullPointer(None))
    ensures !v.JArray? && !(v.Coll? && v.isList) ==> ConvertedArray(rt, v, component) == Ok(v)
  {
    match v
    case JArray(items) =>
      if component.TInt? {
        var c := Collect(JsonInts(rt), items);
        if c.Err? {
          var k :| FirstFailure(JsonInts(rt), items, k) && c.error == JsonIntSlot(rt, items[k]).error;
        }
      } else if component.TDouble? {
        var c := Collect(JsonDoubles(rt), items);
        if c.Err? {
          var k :| FirstFailure(JsonDoubles(rt), items, k) && c.error == JsonDoubleSlot(rt, items[k]).error;
        }
      }
    case Coll(_, isList, items) =>
      if isList && component == TString {
        var c := Collect(ListStrings(rt), items);
        if c.Err? {
          var k :| FirstFailure(ListStrings(rt), items, k) && c.error == ListStringSlot(rt, items[k]).error;
        } else {
          assert forall i | 0 <= i < |items| :: items[i] != Null by {
            forall i | 0 <= i < |items| ensures items[i] != Null {
              assert ListStrings(rt)(items[i]).Ok?;
            }
          }
        }
      }
    case _ =>
  }

  /** `convertToArray`, filling a fresh array per conversion. */
  method ConvertToArray(rt: Runtime, v: Value, component: TypeTag) returns (r: Result<Value, JavaException>)
    ensures r == ConvertedArray(rt, v, component)
  {
    if v.JArray? {
      if component == TString {
        var ss := CollectInto(JsonStrings(rt), v.items);
        r := match ss case Ok(xs) => Ok(StrArr(xs)) case Err(e) => Err(e);
        return;
      } else if component.TInt? {
        var ns := CollectInto(JsonInts(rt), v.items);
        r := match ns case Ok(xs) => Ok(IntArr(xs)) case Err(e) => Err(e);
        return;
      } else if component.TDouble? {
        var ns := CollectInto(JsonDoubles(rt), v.items);
        r := match ns case Ok(xs) => Ok(DblArr(xs)) case Err(e) => Err(e);
        return;
      }
    }
    if v.Coll? && v.isList && component == TString {
      var ss := CollectInto(ListStrings(rt), v.items);
      r := match ss case Ok(xs) => Ok(StrArr(xs)) case Err(e) => Err(e);
      return;
    }
    r := Ok(v);
  }

  /** `convertValue`: null stays null, an instance of the target type is
      kept, other values are converted by the target type; numeric targets
      narrow Numbers and parse anything else, and unknown targets keep the
      value. */
  function Convert(rt: Runtime, v: Value, typ: TypeTag): (r: Result<Value, JavaException>)
    ensures v == Null ==> r == Ok(Null)
    ensures v != Null && IsInstance(v, typ) ==> r == Ok(v)
    ensures (typ.TOther? || typ.TContext?) ==> r == Ok(v)
  {
    if v == Null then Ok(Null)
    else if IsInstance(v, typ) then Ok(v)
    else match typ
      case TString => Ok(Str(JavaString(rt, v)))
      case TInt(_) => if v.Num? then Ok(Num(IntKind, IntValue(v))) else Parsed(ParseInt(JavaString(rt, v)), IntKind)
      case TLong(_) => if v.Num? then Ok(Num(LongKind, LongValue(v))) else Parsed(ParseLong(JavaString(rt, v)), LongKind)
      case TDouble(_) => if v.Num? then Ok(Num(DoubleKind, v.n)) else Parsed(ParseDouble(JavaString(rt, v)), DoubleKind)
      case TFloat(_) => if v.Num? then Ok(Num(FloatKind, v.n)) else Parsed(ParseDouble(JavaString(rt, v)), FloatKind)
      case TBool(_) => if v.Bool? then Ok(v) else Ok(Bool(ParseBoolean(JavaString(rt, v))))
      case TArray(component) => ConvertedArray(rt, v, component)
      case _ => Ok(v)
  }

  /** A successful conversion to a scalar type yields a value of that type,
      and converting it again changes nothing. */
  lemma ConvertConforms(rt: Runtime, v: Value, typ: TypeTag)
    requires v != Null && InJavaRange(v) && IsScalarType(typ) && Convert(rt, v, typ).Ok?
    ensures Conforms(Convert(rt, v, typ).value, typ)
  {
  }

  /** Conversion is idempotent: a converted value converts to itself. */
  lemma ConvertIdempotent(rt: Runtime, v: Value, typ: TypeTag)
    requires Convert(rt, v, typ).Ok?
    ensures Convert(rt, Convert(rt, v, typ).value, typ) == Convert(rt, v, typ)
  {
    var c := Convert(rt, v, typ).value;
    if v != Null && !IsInstance(v, typ) && typ.TArray? {
      ConvertedArrayShape(rt, v, typ.component);
      ConvertedArrayShape(rt, c, typ.component);
    }
  }

  /** Conversion failures are the JDK's own exceptions (a malformed number,
      a failed cast, a null list element), never a validation error. */
  lemma ConvertFailureIsNotValidation(rt: Runtime, v: Value, typ: TypeTag)
    requires Convert(rt, v, typ).Err?
    ensures var e := Convert(rt, v, typ).error; e.NumberFormat? || e.ClassCast? || e.NullPointer?
    ensures !Convert(rt, v, typ).error.IsValidation()
  {
    if typ.TArray? {
      ConvertedArrayShape(rt, v, typ.component);
    }
  }

  // ------------------------------------------------------------- validation

  /** The Number range check: inclusive bounds, absent bounds unchecked. */
  predicate InRange(v: Value, spec: ParameterSpec)
  {
    v.Num? ==> (spec.min.None? || spec.min.value <= v.n) && (spec.max.None? || v.n <= spec.max.value)
  }

  /** The enum check on `toString()`, case-sensitive; no values, no check. */
  predicate InEnum(rt: Runtime, v: Value, spec: ParameterSpec)
  {
    spec.enumValues == [] || JavaString(rt, v) in spec.enumValues
  }

  /** The pattern check: a full match, on Strings only. */
  predicate MatchesPattern(rt: Runtime, v: Value, spec: ParameterSpec)
  {
    spec.pattern == "" || !v.Str? || rt.matches(spec.pattern, v.s)
  }

  function BelowMinimum(name: string, n: int, min: int): string
  {
    "Parameter '" + name + "' value " + DoubleToString(n) + " is below minimum " + DoubleToString(min)
  }

  function AboveMaximum(name: string, n: int, max: int): string
  {
    "Parameter '" + name + "' value " + DoubleToString(n) + " exceeds maximum " + DoubleToString(max)
  }

  function NotInEnum(name: string, s: string, values: seq<string>): string
  {
    "Parameter '" + name + "' value '" + s + "' is not one of: " + ArrayToString(values)
  }

  function NoPatternMatch(name: string, s: string, pattern: string): string
  {
    "Parameter '" + name + "' value '" + s + "' does not match pattern: " + pattern
  }

  /** `validateValue`: the range, then the enum, then the pattern check; the
      first that fails throws an MCPValidationException. */
  function Validate(rt: Runtime, name: string, v: Value, spec: ParameterSpec): (r: Option<JavaException>)
    ensures r.Some? ==> r.value.IsValidation() && r.value.errorCode == VALIDATION_ERROR && r.value.cause.None?
  {
    if v == Null then None
    else if v.Num? && spec.min.Some? && v.n < spec.min.value then
      Some(ValidationException(BelowMinimum(name, v.n, spec.min.value), None))
    else if v.Num? && spec.max.Some? && v.n > spec.max.value then
      Some(ValidationException(AboveMaximum(name, v.n, spec.max.value), None))
    else if spec.enumValues != [] && JavaString(rt, v) !in spec.enumValues then
      Some(ValidationException(NotInEnum(name, JavaString(rt, v), spec.enumValues), None))
    else if spec.pattern != "" && v.Str? && !rt.matches(spec.pattern, v.s) then
      Some(ValidationException(NoPatternMatch(name, v.s, spec.pattern), None))
    else None
  }

  /** A value passes exactly when it is null or meets all three checks. */
  lemma ValidateAccepts(rt: Runtime, name: string, v: Value, spec: ParameterSpec)
    ensures Validate(rt, name, v, spec).None? <==>
      v == Null || (InRange(v, spec) && InEnum(rt, v, spec) && MatchesPattern(rt, v, spec))
  {
  }

  /** The range check comes first: an out-of-range number is reported as
      such whatever its enum or pattern status. */
  lemma ValidateRangeFirst(rt: Runtime, name: string, v: Value, spec: ParameterSpec)
    requires v.Num? && !InRange(v, spec)
    ensures Validate(rt, name, v, spec) ==
      Some(ValidationException(
        if spec.min.Some? && v.n < spec.min.value then BelowMinimum(name, v.n, spec.min.value)
        else AboveMaximum(name, v.n, spec.max.value), None))
  {
  }

  /** An in-range value outside the enum is reported by the enum check, even
      when it also fails the pattern. */
  lemma ValidateEnumBeforePattern(rt: Runtime, name: string, v: Value, spec: ParameterSpec)
    requires v != Null && InRange(v, spec) && !InEnum(rt, v, spec)
    ensures Validate(rt, name, v, spec) ==
      Some(ValidationException(NotInEnum(name, JavaString(rt, v), spec.enumValues), None))
  {
  }

  // --------------------------------------------------------------- binding

  /** `arguments.getValue(key)` on a possibly null arguments object. */
  function ArgValue(args: Option<map<string, Value>>, key: string): (r: Result<Value, JavaException>)
    ensures args.None? <==> r.Err?
    ensures r.Err? ==> r.error == NullPointer(None)
    ensures args.Some? ==> r == Ok(GetValue(args.value, key))
  {
    match args
    case None => Err(NullPointer(None))
    case Some(m) => Ok(GetValue(m, key))
  }

  /** Convert, then validate the converted value. */
  function ConvertAndValidate(rt: Runtime, name: string, v: Value, typ: TypeTag, spec: ParameterSpec): (r: Result<Value, JavaException>)
    ensures r.Ok? ==> Convert(rt, v, typ) == r && Validate(rt, name, r.value, spec).None?
  {
    match Convert(rt, v, typ)
    case Err(e) => Err(e)
    case Ok(c) =>
      match Validate(rt, name, c, spec)
      case Some(e) => Err(e)
      case None => Ok(c)
  }

  function MissingMessage(name: string): string
  {
    "Required parameter '" + name + "' is missing"
  }

  /** `extractAndValidateParameter` */
  function ExtractOne(rt: Runtime, name: string, typ: TypeTag, spec: ParameterSpec, args: Option<map<string, Value>>)
    : Result<Value, JavaException>
  {
    match ArgValue(args, name)
    case Err(e) => Err(e)
    case Ok(value) =>
      if value != Null then ConvertAndValidate(rt, name, value, typ, spec)
      else if spec.required then Err(ValidationException(MissingMessage(name), None))
      else if spec.HasDefault() then
        match ParseDefault(spec.defaultValue, typ)
        case Err(e) => Err(e)
        case Ok(d) => ConvertAndValidate(rt, name, d, typ, spec)
      else Ok(ZeroValue(typ))
  }

  /** A required parameter that is absent or null fails with the validation
      error naming it. */
  lemma MissingRequired(rt: Runtime, name: string, typ: TypeTag, spec: ParameterSpec, args: map<string, Value>)
    requires spec.required && (name !in args || args[name] == Null)
    ensures ExtractOne(rt, name, typ, spec, Some(args)) == Err(ValidationException(MissingMessage(name), None))
    ensures ExtractOne(rt, name, typ, spec, Some(args)).error.IsValidation()
  {
  }

  /** An absent optional parameter without a default gets the type's zero,
      which is not validated: the zero is accepted even when it breaks the
      declared range. */
  lemma MissingOptionalIsZero(rt: Runtime, name: string, typ: TypeTag, spec: ParameterSpec, args: map<string, Value>)
    requires !spec.required && !spec.HasDefault() && name !in args
    ensures ExtractOne(rt, name, typ, spec, Some(args)) == Ok(ZeroValue(typ))
    ensures typ == TInt(false) && spec.min == Some(1) ==>
      Validate(rt, name, ExtractOne(rt, name, typ, spec, Some(args)).value, spec).Some?
  {
  }

  /** An absent optional parameter with a default is bound exactly as if the
      parsed default had been supplied. */
  lemma DefaultActsAsInput(rt: Runtime, name: string, typ: TypeTag, spec: ParameterSpec, args: map<string, Value>)
    requires !spec.required && spec.HasDefault() && name !in args
    requires ParseDefault(spec.defaultValue, typ).Ok?
    ensures ExtractOne(rt, name, typ, spec, Some(args))
         == ExtractOne(rt, name, typ, spec, Some(args[name := ParseDefault(spec.defaultValue, typ).value]))
  {
  }

  /** A supplied value is bound to its conversion, and only when that
      conversion passes validation. */
  lemma SuppliedIsConvertedAndValidated(rt: Runtime, name: string, typ: TypeTag, spec: ParameterSpec, args: map<string, Value>)
    requires name in args && args[name] != Null
    ensures var r := ExtractOne(rt, name, typ, spec, Some(args));
      r.Ok? <==> Convert(rt, Wrapped(args[name]), typ).Ok?
                 && Validate(rt, name, Convert(rt, Wrapped(args[name]), typ).value, spec).None?
    ensures var r := ExtractOne(rt, name, typ, spec, Some(args));
      r.Ok? ==> r == Convert(rt, Wrapped(args[name]), typ)
  {
    assert Wrapped(args[name]) != Null;
  }

  /** What one slot of the argument array receives. */
  datatype Arg = ContextArg | ValueArg(value: Value)

  /** One parameter's slot: the context for an MCPContext parameter, the
      bound value for an `@Parameter` one, the raw argument otherwise. */
  function Slot(rt: Runtime, p: ParamDescriptor, args: Option<map<string, Value>>): Result<Arg, JavaException>
  {
    if p.typ == TContext then Ok(ContextArg)
    else if p.spec.Some? then
      match ExtractOne(rt, p.spec.value.EffectiveName(p.reflectedName), p.typ, p.spec.value, args)
      case Ok(v) => Ok(ValueArg(v))
      case Err(e) => Err(e)
    else
      match ArgValue(args, p.reflectedName)
      case Ok(v) => Ok(ValueArg(v))
      case Err(e) => Err(e)
  }

  function SlotOf(rt: Runtime, args: Option<map<string, Value>>): ParamDescriptor -> Result<Arg, JavaException>
  {
    p => Slot(rt, p, args)
  }

  /** `extractParameters` as a value: every slot in order, or the first
      exception. */
  function Bind(rt: Runtime, params: seq<ParamDescriptor>, args: Option<map<string, Value>>): Result<seq<Arg>, JavaException>
  {
    Collect(SlotOf(rt, args), params)
  }

  /** The body of the loop in `extractParameters`: one parameter's slot. */
  method FillSlot(rt: Runtime, p: ParamDescriptor, args: Option<map<string, Value>>)
    returns (slot: Result<Arg, JavaException>)
    ensures slot == SlotOf(rt, args)(p)
  {
    if p.typ == TContext {
      slot := Ok(ContextArg);
    } else if p.spec.Some? {
      var value := ExtractOne(rt, p.spec.value.EffectiveName(p.reflectedName), p.typ, p.spec.value, args);
      slot := if value.Err? then Err(value.error) else Ok(ValueArg(value.value));
    } else {
      var value := ArgValue(args, p.reflectedName);
      slot := if value.Err? then Err(value.error) else Ok(ValueArg(value.value));
    }
  }

  /** `extractParameters`: fills one slot per parameter, in order. */
  method ExtractParameters(rt: Runtime, params: seq<ParamDescriptor>, args: Option<map<string, Value>>)
    returns (r: Result<seq<Arg>, JavaException>)
    ensures r == Bind(rt, params, args)
  {
    var result := new Arg[|params|];
    var i := 0;
    while i < |params|
      invariant 0 <= i <= |params|
      invariant Collect(SlotOf(rt, args), params[..i]) == Ok(result[..i])
    {
      var slot := FillSlot(rt, params[i], args);
      if slot.Err? {
        CollectStop(SlotOf(rt, args), params, i);
        return Err(slot.error);
      }
      CollectStep(SlotOf(rt, args), params, i, result[..i]);
      result[i] := slot.value;
      assert result[..i + 1] == result[..i] + [slot.value];
      i := i + 1;
    }
    assert params[..i] == params && result[..] == result[..i];
    return Ok(result[..]);
  }

  /** One slot throws only exceptions: a NullPointerException for null
      arguments, what the conversion or the default's parsing throws, or a
      validation exception; never an Error. */
  lemma SlotThrowsException(rt: Runtime, p: ParamDescriptor, args: Option<map<string, Value>>)
    requires Slot(rt, p, args).Err?
    ensures Slot(rt, p, args).error.IsException()
  {
    if p.typ != TContext && p.spec.Some? && args.Some? {
      var name := p.spec.value.EffectiveName(p.reflectedName);
      var value := GetValue(args.value, name);
      if value != Null && Convert(rt, value, p.typ).Err? {
        ConvertFailureIsNotValidation(rt, value, p.typ);
      }
    }
  }

  /** So does the whole binding: its failure is the first slot's. */
  lemma BindThrowsException(rt: Runtime, params: seq<ParamDescriptor>, args: Option<map<string, Value>>)
    requires Bind(rt, params, args).Err?
    ensures Bind(rt, params, args).error.IsException()
  {
    var k :| FirstFailure(SlotOf(rt, args), params, k) && Bind(rt, params, args).error == SlotOf(rt, args)(params[k]).error;
    SlotThrowsException(rt, params[k], args);
  }

  /** A successful binding has one slot per parameter: MCPContext slots hold
      the context, `@Parameter` slots the bound value, and the others the
      raw argument under the reflected name, unconverted. */
  lemma BindSlots(rt: Runtime, params: seq<ParamDescriptor>, args: Option<map<string, Value>>)
    requires Bind(rt, params, args).Ok?
    ensures var slots := Bind(rt, params, args).value;
      |slots| == |params|
      && forall i | 0 <= i < |params| ::
           (params[i].typ == TContext ==> slots[i] == ContextArg)
           && (params[i].typ != TContext && params[i].spec.Some? ==>
                 Ok(slots[i].value) == ExtractOne(rt, params[i].spec.value.EffectiveName(params[i].reflectedName),
                                                 params[i].typ, params[i].spec.value, args))
           && (params[i].typ != TContext && params[i].spec.None? ==>
                 args.Some? && slots[i] == ValueArg(GetValue(args.value, params[i].reflectedName)))
  {
    var slots := Bind(rt, params, args).value;
    forall i | 0 <= i < |params|
      ensures slots[i] == Slot(rt, params[i], args).value && Slot(rt, params[i], args).Ok?
    {
      assert SlotOf(rt, args)(params[i]).Ok?;
    }
  }

  /** A null arguments object is only survivable when every parameter is an
      MCPContext: any other slot looks an argument up and throws. */
  lemma BindNullArguments(rt: Runtime, params: seq<ParamDescriptor>)
    ensures Bind(rt, params, None).Ok? <==> forall i | 0 <= i < |params| :: params[i].typ == TContext
  {
    if Bind(rt, params, None).Ok? {
      forall i | 0 <= i < |params| ensures params[i].typ == TContext {
        assert SlotOf(rt, None)(params[i]).Ok?;
      }
    } else {
      var k :| FirstFailure(SlotOf(rt, None), params, k) && Bind(rt, params, None).error == SlotOf(rt, None)(params[k]).error;
      assert params[k].typ != TContext;
    }
  }

  /** The first parameter that fails to bind decides the exception: here a
      required `@Parameter` whose argument is missing. */
  lemma BindMissingRequired(rt: Runtime, params: seq<ParamDescriptor>, args: map<string, Value>, k: nat)
    requires k < |params| && forall j | 0 <= j < k :: Slot(rt, params[j], Some(args)).Ok?
    requires params[k].typ != TContext && params[k].spec.Some? && params[k].spec.value.required
    requires params[k].spec.value.EffectiveName(params[k].reflectedName) !in args
    ensures Bind(rt, params, Some(args))
         == Err(ValidationException(MissingMessage(params[k].spec.value.EffectiveName(params[k].reflectedName)), None))
  {
    var f := SlotOf(rt, Some(args));
    var p := params[k];
    var name := p.spec.value.EffectiveName(p.reflectedName);
    forall j | 0 <= j < k ensures f(params[..k][j]).Ok? {
      assert params[..k][j] == params[j];
    }
    assert Collect(f, params[..k]).Ok?;
    assert f(p) == Err(ValidationException(MissingMessage(name), None)) by {
      MissingRequired(rt, name, p.typ, p.spec.value, args);
    }
    CollectStop(f, params, k);
  }
}

/** TestResult, the outcome of a call made through the SDK's test harness,
    with its fluent assertions. A failed assertion throws an AssertionError;
    a passing one hands back the same result so assertions chain. */
module Testing {
  import opened Wrappers
  import opened Values
  import opened Text
  import opened Exceptions
  import opened JsonAccess

  type Json = map<string, Value>

  /** `new AssertionError(message)` */
  function AssertionError(message: string): JavaException
  {
    ThrownError("AssertionError", Some(message))
  }

  /** The section of a reply whose text items an assertion searches: the
      "content" array of a tool result, or the "messages" array of a
      prompt reply, whose items hold their text under "content". */
  datatype Section = ContentSection | MessagesSection
  {
    function Key(): (k: string)
      ensures k == "content" || k == "messages"
    {
      if this == ContentSection then "content" else "messages"
    }

    function EmptyMessage(): string
    {
      if this == ContentSection then "Content array is empty" else "Messages array is empty"
    }

    function NotFoundMessage(rt: Runtime, expected: string, items: seq<Value>): string
    {
      "Expected " + Key() + " to contain '" + expected + "' but it was not found in: " + JavaString(rt, JArray(items))
    }
  }

  /** The text of a JSON object whose "type" reads "text", if it has one. */
  function TextOf(rt: Runtime, obj: Json): (r: Option<string>)
    ensures r.Some? <==> GetString(rt, obj, "type") == Some("text") && Lookup(obj, "text") != Null
    ensures "text" in obj && obj["text"].Str? && r.Some? ==> r.value == obj["text"].s
  {
    if GetString(rt, obj, "type") == Some("text") then GetString(rt, obj, "text") else None
  }

  /** The text one array item offers to the search: a content item is read
      directly, a message through its "content" object. A null item or a
      null content offers none; an item or content that is not an object
      fails its cast. */
  function ItemText(rt: Runtime, section: Section, item: Value): (r: Result<Option<string>, JavaException>)
    ensures item.JObject? && section == ContentSection ==> r == Ok(TextOf(rt, item.fields))
    ensures item.JObject? && section == MessagesSection && Lookup(item.fields, "content").JObject? ==>
      r == Ok(TextOf(rt, item.fields["content"].fields))
  {
    var o := ArrayGetJsonObject(rt, item);
    if o.Err? then Err(o.error)
    else if o.value.None? then Ok(None)
    else if section == ContentSection then Ok(TextOf(rt, o.value.value))
    else
      var c := GetJsonObject(rt, o.value.value, "content");
      if c.Err? then Err(c.error)
      else if c.value.None? then Ok(None)
      else Ok(TextOf(rt, c.value.value))
  }

  /** Whether an item's text holds the expected text. */
  predicate Matches(rt: Runtime, section: Section, item: Value, expected: string)
  {
    var t := ItemText(rt, section, item);
    t.Ok? && t.value.Some? && Contains(t.value.value, expected)
  }

  /** The search loop of `assertContentContains` and
      `assertMessagesContain`: true at the first matching item, an exception
      at the first item that fails its cast before one matches. */
  function Scan(rt: Runtime, section: Section, items: seq<Value>, expected: string): Result<bool, JavaException>
    decreases |items|
  {
    if items == [] then Ok(false)
    else
      var t := ItemText(rt, section, items[0]);
      if t.Err? then Err(t.error)
      else if t.value.Some? && Contains(t.value.value, expected) then Ok(true)
      else Scan(rt, section, items[1..], expected)
  }

  /** When every item is readable, the search succeeds exactly when some
      item matches; an exception always comes from an unreadable item. */
  lemma {:induction false} ScanFindsMatch(rt: Runtime, section: Section, items: seq<Value>, expected: string)
    ensures (forall i | 0 <= i < |items| :: ItemText(rt, section, items[i]).Ok?) ==>
      Scan(rt, section, items, expected) == Ok(exists i | 0 <= i < |items| :: Matches(rt, section, items[i], expected))
    ensures Scan(rt, section, items, expected).Err? ==>
      exists i | 0 <= i < |items| :: ItemText(rt, section, items[i]) == Err(Scan(rt, section, items, expected).error)
    decreases |items|
  {
    if items != [] {
      var rest := items[1..];
      ScanFindsMatch(rt, section, rest, expected);
      assert forall i | 0 <= i < |rest| :: rest[i] == items[i + 1];
      if ItemText(rt, section, items[0]).Ok? && !Matches(rt, section, items[0], expected) {
        if exists i | 0 <= i < |items| :: Matches(rt, section, items[i], expected) {
          var i :| 0 <= i < |items| && Matches(rt, section, items[i], expected);
          assert Matches(rt, section, rest[i - 1], expected);
        }
      }
    }
  }

  /** The search as the source writes it: a loop over the array that sets
      a flag and breaks at the first match. */
  method FindText(rt: Runtime, section: Section, items: seq<Value>, expected: string) returns (r: Result<bool, JavaException>)
    ensures r == Scan(rt, section, items, expected)
  {
    var found := false;
    var i := 0;
    while i < |items| && !found
      invariant 0 <= i <= |items|
      invariant found ==> Scan(rt, section, items, expected) == Ok(true)
      invariant !found ==> Scan(rt, section, items, expected) == Scan(rt, section, items[i..], expected)
      decreases |items| - i
    {
      assert items[i..][0] == items[i] && items[i..][1..] == items[i + 1..];
      var o := ArrayGetJsonObject(rt, items[i]);
      if o.Err? {
        return Err(o.error);
      }
      if o.value.Some? {
        var item := o.value.value;
        var obj: Option<Json> := Some(item);
        if section == MessagesSection {
          var c := GetJsonObject(rt, item, "content");
          if c.Err? {
            return Err(c.error);
          }
          obj := c.value;
        }
        if obj.Some? && GetString(rt, obj.value, "type") == Some("text") {
          var text := GetString(rt, obj.value, "text");
          if text.Some? && Contains(text.value, expected) {
            found := true;
          }
        }
      }
      i := i + 1;
    }
    return Ok(found);
  }

  /** The outcome of a test operation: the reply's data on success, the
      error message on failure. */
  datatype TestResult = TestResult(data: Option<Json>, success: bool, errorMessage: Option<string>)
  {
    function IsSuccess(): bool
    {
      success
    }

    function IsError(): (b: bool)
      ensures b <==> !IsSuccess()
    {
      !success
    }

    function AssertSuccess(): (r: Result<TestResult, JavaException>)
      ensures r.Ok? <==> IsSuccess()
      ensures r.Ok? ==> r.value == this
    {
      if !success then Err(AssertionError("Expected success but got error: " + errorMessage.GetOr("null")))
      else Ok(this)
    }

    function AssertError(): (r: Result<TestResult, JavaException>)
      ensures r.Ok? <==> IsError()
      ensures r.Ok? ==> r.value == this
    {
      if success then Err(AssertionError("Expected error but operation was successful"))
      else Ok(this)
    }

    function AssertErrorContains(expectedText: string): (r: Result<TestResult, JavaException>)
      ensures r.Ok? <==> IsError() && errorMessage.Some? && Contains(errorMessage.value, expectedText)
      ensures r.Ok? ==> r.value == this
    {
      var e := AssertError();
      if e.Err? then e
      else if errorMessage.None? || !Contains(errorMessage.value, expectedText) then
        Err(AssertionError("Expected error message to contain '" + expectedText + "' but was: " + errorMessage.GetOr("null")))
      else Ok(this)
    }

    /** `assertContains(field, expected)`: `expected.equals(data.getValue(field))`,
        so a null expectation throws a NullPointerException. */
    function AssertContains(rt: Runtime, field: string, expected: Value): (r: Result<TestResult, JavaException>)
      ensures r.Ok? <==> IsSuccess() && data.Some? && expected != Null && GetValue(data.value, field) == expected
      ensures r.Ok? ==> r.value == this
      ensures IsSuccess() && data.Some? && expected == Null ==> r == Err(NullPointer(None))
    {
      var s := AssertSuccess();
      if s.Err? then s
      else if data.None? then Err(AssertionError("No data available for assertion"))
      else if expected == Null then Err(NullPointer(None))
      else
        var actual := GetValue(data.value, field);
        if expected != actual then
          Err(AssertionError("Expected field '" + field + "' to be '" + JavaString(rt, expected) + "' but was: " + JavaString(rt, actual)))
        else Ok(this)
    }

    /** `assertHasContent`, `assertHasContents` and `assertHasMessages`. */
    function AssertHasField(key: string): (r: Result<TestResult, JavaException>)
      ensures r.Ok? <==> IsSuccess() && data.Some? && key in data.value
      ensures r.Ok? ==> r.value == this
    {
      var s := AssertSuccess();
      if s.Err? then s
      else if data.None? || key !in data.value then Err(AssertionError("Expected result to have '" + key + "' field"))
      else Ok(this)
    }

    /** What `assertContentContains` and `assertMessagesContain` do: the
        section must be present, a non-empty array, and hold the text. */
    function TextAssertion(rt: Runtime, section: Section, expected: string): Result<TestResult, JavaException>
    {
      var h := AssertHasField(section.Key());
      if h.Err? then h
      else
        var arr := GetJsonArray(rt, data.value, section.Key());
        if arr.Err? then Err(arr.error)
        else if arr.value.None? || arr.value.value == [] then Err(AssertionError(section.EmptyMessage()))
        else
          var found := Scan(rt, section, arr.value.value, expected);
          if found.Err? then Err(found.error)
          else if !found.value then Err(AssertionError(section.NotFoundMessage(rt, expected, arr.value.value)))
          else Ok(this)
    }

    /** `assertContentContains(expectedText)` */
    method AssertContentContains(rt: Runtime, expectedText: string) returns (r: Result<TestResult, JavaException>)
      ensures r == TextAssertion(rt, ContentSection, expectedText)
    {
      r := AssertSearch(rt, ContentSection, expectedText);
    }

    /** `assertMessagesContain(expectedText)` */
    method AssertMessagesContain(rt: Runtime, expectedText: string) returns (r: Result<TestResult, JavaException>)
      ensures r == TextAssertion(rt, MessagesSection, expectedText)
    {
      r := AssertSearch(rt, MessagesSection, expectedText);
    }

    method AssertSearch(rt: Runtime, section: Section, expectedText: string) returns (r: Result<TestResult, JavaException>)
      ensures r == TextAssertion(rt, section, expectedText)
    {
      var h := AssertHasField(section.Key());
      if h.Err? {
        return h;
      }
      var arr := GetJsonArray(rt, data.value, section.Key());
      if arr.Err? {
        return Err(arr.error);
      }
      if arr.value.None? || arr.value.value == [] {
        return Err(AssertionError(section.EmptyMessage()));
      }
      var found := FindText(rt, section, arr.value.value, expectedText);
      if found.Err? {
        return Err(found.error);
      }
      if !found.value {
        return Err(AssertionError(section.NotFoundMessage(rt, expectedText, arr.value.value)));
      }
      return Ok(this);
    }

    /** `assertThat(predicate, errorMessage)` */
    function AssertThat(rt: Runtime, test: Json -> bool, message: string): (r: Result<TestResult, JavaException>)
      ensures r.Ok? <==> IsSuccess() && data.Some? && test(data.value)
      ensures r.Ok? ==> r.value == this
      ensures IsSuccess() && data.None? ==> r == Err(AssertionError(message + ". Actual data: " + "null"))
    {
      var s := AssertSuccess();
      if s.Err? then s
      else if data.None? || !test(data.value) then
        Err(AssertionError(message + ". Actual data: " + (if data.Some? then JavaString(rt, JObject(data.value)) else "null")))
      else Ok(this)
    }

    /** `getValue(path)`: the value reached by following the path's
        dot-separated keys from the data. */
    function PathValue(path: string): Value
    {
      if data.None? then Null
      else Walk(Dict("java.util.LinkedHashMap", data.value), Split(path, "."))
    }

    /** `getValue(path)`, looping over the keys. */
    method GetValueAt(path: string) returns (v: Value)
      ensures v == PathValue(path)
    {
      if data.None? {
        return Null;
      }
      var parts := Split(path, ".");
      var current := Dict("java.util.LinkedHashMap", data.value);
      for i := 0 to |parts|
        invariant Walk(current, parts[i..]) == PathValue(path)
      {
        assert parts[i..][0] == parts[i] && parts[i..][1..] == parts[i + 1..];
        match current {
          case JObject(fields) =>
            current := GetValue(fields, parts[i]);
          case Dict(_, entries) =>
            current := Lookup(entries, parts[i]);
          case _ =>
            return Null;
        }
      }
      assert parts[|parts|..] == [];
      return current;
    }

    /** `toString()` */
    function ToString(rt: Runtime): string
    {
      if success then "TestResult{success=true, data=" + (if data.Some? then JavaString(rt, JObject(data.value)) else "null") + "}"
      else "TestResult{success=false, error='" + errorMessage.GetOr("null") + "'}"
    }
  }

  /** `TestResult.success(data)` */
  function Success(data: Option<Json>): (t: TestResult)
    ensures t.IsSuccess() && t.data == data
  {
    TestResult(data, true, None)
  }

  /** `TestResult.error(message)` */
  function Error(message: Option<string>): (t: TestResult)
    ensures t.IsError() && t.errorMessage == message && t.data.None?
  {
    TestResult(None, false, message)
  }

  /** One step of `getValue`: a JSON object hands out wrapped values, a
      plain map its raw ones, and anything else ends the walk with null. */
  function Walk(current: Value, keys: seq<string>): Value
    decreases |keys|
  {
    if keys == [] then current
    else
      match current
      case JObject(fields) => Walk(GetValue(fields, keys[0]), keys[1..])
      case Dict(_, entries) => Walk(Lookup(entries, keys[0]), keys[1..])
      case _ => Null
  }

  // -------------------------------------------------------------- properties

  /** Exactly one of `assertSuccess` and `assertError` passes. */
  lemma SuccessOrError(t: TestResult)
    ensures t.AssertSuccess().Ok? != t.AssertError().Ok?
  {
  }

  /** An error result passes `assertErrorContains` for every piece of its
      message, and a success result for none. */
  lemma ErrorContainsPieces(message: string, a: string, p: string, b: string, data: Option<Json>)
    requires message == a + p + b
    ensures Error(Some(message)).AssertErrorContains(p).Ok?
    ensures Success(data).AssertErrorContains(p).Err?
  {
    assert OccursAt(message, p, |a|) by {
      assert message[|a|..|a| + |p|] == p;
    }
    ContainsAt(message, p, |a|);
  }

  /** A path of several keys walks them one after another: the value at
      `a.b` is the value at `b` below the value at `a`. */
  lemma {:induction false} WalkConcat(v: Value, a: seq<string>, b: seq<string>)
    ensures Walk(v, a + b) == Walk(Walk(v, a), b)
    decreases |a|
  {
    if a != [] {
      assert (a + b)[0] == a[0] && (a + b)[1..] == a[1..] + b;
      match v
      case JObject(fields) =>
        WalkConcat(GetValue(fields, a[0]), a[1..], b);
      case Dict(_, entries) =>
        WalkConcat(Lookup(entries, a[0]), a[1..], b);
      case _ =>
    } else {
      assert a + b == b;
    }
  }

  /** A dotted path splits back into the keys it was built from, provided
      no key holds a dot and the last key is not empty. */
  lemma SplitDottedPath(keys: seq<string>)
    requires |keys| >= 1 && keys[|keys| - 1] != ""
    requires forall k | 0 <= k < |keys| :: '.' !in keys[k]
    ensures Split(Join(keys, "."), ".") == keys
  {
    var path := Join(keys, ".");
    SplitAllJoin(keys, '.');
    SplitAllContains(path, ".");
    assert Contains(path, ".") ==> DropTrailingEmpty(keys) == keys;
  }

  /** `getValue` follows the keys of a dotted path one by one, starting from
      the data's own map. */
  lemma PathValueFollowsKeys(t: TestResult, keys: seq<string>)
    requires t.data.Some?
    requires |keys| >= 1 && keys[|keys| - 1] != ""
    requires forall k | 0 <= k < |keys| :: '.' !in keys[k]
    ensures t.PathValue(Join(keys, ".")) == Walk(Dict("java.util.LinkedHashMap", t.data.value), keys)
  {
    SplitDottedPath(keys);
  }

  /** `getValue(field)` hands out the data's raw entry, while
      `assertContains(field, v)` compares against the wrapped one: a map
      entry is returned as a map but only a JSON object passes. */
  lemma ValueAndAssertContainsAgree(rt: Runtime, t: TestResult, field: string, expected: Value)
    requires t.success && t.data.Some?
    requires field != "" && '.' !in field
    ensures t.PathValue(field) == Lookup(t.data.value, field)
    ensures t.AssertContains(rt, field, expected).Ok? <==> expected != Null && Wrapped(t.PathValue(field)) == expected
  {
    SplitDottedPath([field]);
    assert Join([field], ".") == field;
    var root := Dict("java.util.LinkedHashMap", t.data.value);
    assert t.PathValue(field) == Walk(root, [field]);
    assert [field][1..] == [];
    assert Walk(root, [field]) == Walk(Lookup(t.data.value, field), []);
  }

  /** Over items that are all JSON objects (whose "content", for messages,
      is absent, null or an object), a text assertion on a successful result
      passes exactly when the section holds a non-empty array with an item
      whose text contains the expected text. */
  lemma TextAssertionSpec(rt: Runtime, data: Json, section: Section, expected: string, items: seq<Value>)
    requires section.Key() in data && data[section.Key()] == JArray(items)
    requires forall i | 0 <= i < |items| ::
      items[i].JObject? && (section == MessagesSection ==> Lookup(items[i].fields, "content") == Null || Lookup(items[i].fields, "content").JObject?)
    ensures Success(Some(data)).TextAssertion(rt, section, expected).Ok? <==>
      items != [] && exists i | 0 <= i < |items| :: Matches(rt, section, items[i], expected)
  {
    forall i | 0 <= i < |items| ensures ItemText(rt, section, items[i]).Ok? {
    }
    ScanFindsMatch(rt, section, items, expected);
  }

  /** Without a "content" key the content assertion fails before any
      search, with the has-content message. */
  lemma MissingSectionReported(rt: Runtime, data: Json, section: Section, expected: string)
    requires section.Key() !in data
    ensures Success(Some(data)).TextAssertion(rt, section, expected)
      == Err(AssertionError("Expected result to have '" + section.Key() + "' field"))
  {
  }

  /** `toString` tells success and failure apart by its prefix. */
  lemma ToStringShowsOutcome(rt: Runtime, t: TestResult)
    ensures t.IsSuccess() <==> "TestResult{success=true" <= t.ToString(rt)
  {
    var s := t.ToString(rt);
    if !t.IsSuccess() {
      assert s[19] == 'f';
    }
  }
}

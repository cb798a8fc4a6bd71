/** How the SDK finds a tool's method among a class's declared methods, and
    how it derives tool names from class names. Three finders exist and
    they do not agree: AnnotatedMCPTool takes the first candidate,
    AnnotationConfigProcessor prefers any `@ToolMethod`, and
    MCPToolHandlerSupport looks a method up by name. */
module Discovery {
  import opened Wrappers
  import opened Text
  import opened Annotations

  // ------------------------------------------------------------- finders

  /** The tests the finders apply to a declared method. */
  datatype MethodFilter =
    | AnyCandidate
    | ToolMethodOnly
    | AnnotatedParamsOnly
    | CandidateNamed(name: string)

  predicate Accepts(f: MethodFilter, m: MethodDescriptor)
  {
    match f
    case AnyCandidate => m.IsCandidate()
    case ToolMethodOnly => m.isToolMethod
    case AnnotatedParamsOnly => m.HasParameterAnnotations()
    case CandidateNamed(name) => m.name == name && m.IsCandidate()
  }

  /** The position of the first declared method the filter accepts. */
  function FirstMatch(methods: seq<MethodDescriptor>, f: MethodFilter): (r: Option<nat>)
    ensures r.Some? ==> r.value < |methods| && Accepts(f, methods[r.value])
    ensures r.Some? ==> forall j | 0 <= j < r.value :: !Accepts(f, methods[j])
    ensures r.None? <==> forall j | 0 <= j < |methods| :: !Accepts(f, methods[j])
  {
    if methods == [] then None
    else if Accepts(f, methods[0]) then Some(0)
    else
      match FirstMatch(methods[1..], f)
      case None => None
      case Some(i) => Some(i + 1)
  }

  function MethodAt(methods: seq<MethodDescriptor>, i: Option<nat>): (r: Option<MethodDescriptor>)
    requires i.Some? ==> i.value < |methods|
    ensures r.Some? <==> i.Some?
  {
    match i
    case None => None
    case Some(k) => Some(methods[k])
  }

  /** `AnnotatedMCPTool.findToolMethod`: the first declared method that has
      `@ToolMethod` or an `@Parameter` parameter. */
  function FirstCandidate(methods: seq<MethodDescriptor>): (r: Option<MethodDescriptor>)
    ensures r.Some? ==> r.value.IsCandidate() && r.value in methods
    ensures r.None? <==> forall j | 0 <= j < |methods| :: !methods[j].IsCandidate()
  {
    MethodAt(methods, FirstMatch(methods, AnyCandidate))
  }

  /** What `AnnotationConfigProcessor.findToolMethod` finds: the first
      `@ToolMethod` if there is one, else the first method with an
      `@Parameter` parameter. */
  function PreferredToolMethod(methods: seq<MethodDescriptor>): (r: Option<MethodDescriptor>)
    ensures r.Some? ==> r.value.IsCandidate() && r.value in methods
    ensures r.None? <==> forall j | 0 <= j < |methods| :: !methods[j].IsCandidate()
  {
    match FirstMatch(methods, ToolMethodOnly)
    case Some(i) => Some(methods[i])
    case None => MethodAt(methods, FirstMatch(methods, AnnotatedParamsOnly))
  }

  /** `AnnotationConfigProcessor.findToolMethod`: a pass for `@ToolMethod`,
      then a pass for annotated parameters, each returning on the first hit. */
  method FindPreferredToolMethod(methods: seq<MethodDescriptor>) returns (r: Option<MethodDescriptor>)
    ensures r == PreferredToolMethod(methods)
  {
    for i := 0 to |methods|
      invariant forall j | 0 <= j < i :: !methods[j].isToolMethod
    {
      if methods[i].isToolMethod {
        return Some(methods[i]);
      }
    }
    for i := 0 to |methods|
      invariant forall j | 0 <= j < i :: !methods[j].HasParameterAnnotations()
    {
      if |methods[i].params| > 0 && methods[i].HasParameterAnnotations() {
        return Some(methods[i]);
      }
    }
    return None;
  }

  /** `MCPToolHandlerSupport.findToolMethod`: the first declared method with
      the given name that is a candidate; overloads that are not are
      skipped. */
  method FindNamedToolMethod(methods: seq<MethodDescriptor>, name: string) returns (r: Option<MethodDescriptor>)
    ensures r == MethodAt(methods, FirstMatch(methods, CandidateNamed(name)))
    ensures r.Some? ==> r.value.name == name && r.value.IsCandidate()
  {
    for i := 0 to |methods|
      invariant forall j | 0 <= j < i :: !Accepts(CandidateNamed(name), methods[j])
    {
      if methods[i].name == name && (methods[i].isToolMethod || methods[i].HasParameterAnnotations()) {
        return Some(methods[i]);
      }
    }
    return None;
  }

  /** The two class-level finders find something for the same classes, and
      the same method whenever the first candidate is a `@ToolMethod` or no
      method is one. */
  lemma FindersAgree(methods: seq<MethodDescriptor>)
    ensures FirstCandidate(methods).None? <==> PreferredToolMethod(methods).None?
    ensures (forall j | 0 <= j < |methods| :: !methods[j].isToolMethod) ==> FirstCandidate(methods) == PreferredToolMethod(methods)
    ensures FirstCandidate(methods).Some? && FirstCandidate(methods).value.isToolMethod ==>
      FirstCandidate(methods) == PreferredToolMethod(methods)
  {
    var c := FirstMatch(methods, AnyCandidate);
    var t := FirstMatch(methods, ToolMethodOnly);
    var a := FirstMatch(methods, AnnotatedParamsOnly);
    if c.Some? && methods[c.value].isToolMethod {
      assert t.Some? && t.value <= c.value;
      assert methods[t.value].IsCandidate();
      assert t.value == c.value;
    }
    if forall j | 0 <= j < |methods| :: !methods[j].isToolMethod {
      assert t.None?;
      if c.Some? {
        assert a.Some? && a.value <= c.value;
        assert methods[a.value].IsCandidate();
      }
    }
  }

  /** They differ when a method with annotated parameters is declared before
      the `@ToolMethod`. */
  lemma FindersDiffer(early: MethodDescriptor, tool: MethodDescriptor)
    requires !early.isToolMethod && early.HasParameterAnnotations() && tool.isToolMethod && early != tool
    ensures FirstCandidate([early, tool]) == Some(early)
    ensures PreferredToolMethod([early, tool]) == Some(tool)
  {
    assert FirstMatch([early, tool], ToolMethodOnly) == Some(1);
  }

  // -------------------------------------------------------- name derivation

  /** The default tool name of AnnotatedMCPTool and AnnotationConfigProcessor:
      the lower-cased simple name with every "tool" removed. */
  function DerivedToolName(simpleName: string): string
  {
    Replace(ToLower(simpleName), "tool", "")
  }

  /** The default name of an MCPToolHandler: the lower-cased simple name
      with one trailing "tool" removed. */
  function HandlerToolName(simpleName: string): (r: string)
    ensures EndsWith(ToLower(simpleName), "tool") ==> r + "tool" == ToLower(simpleName)
    ensures !EndsWith(ToLower(simpleName), "tool") ==> r == ToLower(simpleName)
  {
    var lower := ToLower(simpleName);
    if EndsWith(lower, "tool") then lower[..|lower| - 4] else lower
  }

  /** Removing every "tool" from a name that ends in its only "tool" leaves
      the rest: no occurrence can straddle the end of the rest, because no
      proper prefix of "tool" is also a suffix of it. */
  lemma {:induction false} ReplaceTrailingTool(base: string)
    requires !Contains(base, "tool")
    ensures Replace(base + "tool", "tool", "") == base
    decreases |base|
  {
    var s := base + "tool";
    if base == [] {
      assert s == "tool";
      assert Replace(s[4..], "tool", "") == [];
    } else {
      assert !("tool" <= s) by {
        if |base| >= 4 {
          assert s[..4] == base[..4];
        } else {
          assert s[|base|] == 't';
        }
      }
      assert !Contains(base[1..], "tool");
      ReplaceTrailingTool(base[1..]);
      assert s[1..] == base[1..] + "tool";
    }
  }

  /** The two derivations agree on a name whose only "tool" is at its end,
      and on a name without one. */
  lemma NameDerivationsAgree(simpleName: string, base: string)
    requires ToLower(simpleName) == base + "tool" && !Contains(base, "tool")
    ensures DerivedToolName(simpleName) == HandlerToolName(simpleName) == base
  {
    ReplaceTrailingTool(base);
    assert ToLower(simpleName)[..|base|] == base;
  }

  lemma NameDerivationsAgreeWithoutTool(simpleName: string)
    requires !Contains(ToLower(simpleName), "tool")
    ensures DerivedToolName(simpleName) == HandlerToolName(simpleName) == ToLower(simpleName)
  {
    ReplaceAbsent(ToLower(simpleName), "tool", "");
  }

  /** Removing "tool" from the lower-cased example keeps only "box". */
  lemma ReplaceToolbox()
    ensures Replace("toolboxtool", "tool", "") == "box"
  {
    var s := "toolboxtool";
    assert "tool" <= s;
    assert s[4..] == "box" + "tool";
    assert !Contains("box", "tool") by {
      assert "box"[1..] == "ox" && "ox"[1..] == "x" && "x"[1..] == [];
    }
    ReplaceTrailingTool("box");
  }

  /** A "tool" that is not at the end, as in `ToolboxTool`, is removed by
      the first derivation and kept by the second. */
  lemma NameDerivationsDiffer(simpleName: string)
    requires ToLower(simpleName) == "toolboxtool"
    ensures DerivedToolName(simpleName) == "box"
    ensures HandlerToolName(simpleName) == "toolbox"
  {
    ReplaceToolbox();
    var s := "toolboxtool";
    assert s[..7] == "toolbox" && s[7..] == "tool";
  }
}

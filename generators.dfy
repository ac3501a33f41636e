/**
 * The older string-building generator: a description annotation, `combine`
 * (drop empty parts, join the rest with line breaks), a function annotation
 * that writes the raw `type` strings, a class annotation, and the matcher
 * class description.
 */
module GeneratorDraft {
  import opened Wrappers
  import opened Text
  import opened Properties
  import TypeRenderer
  import ConvertTypeDraft
  import AnnotationBuilding

  /** `--- ` before each description line. */
  function CommentLines(lines: seq<string>): (r: seq<string>)
    ensures |r| == |lines|
  {
    seq(|lines|, i requires 0 <= i < |lines| => "--- " + lines[i])
  }

  /** `--- s` for a string; for a list, one `--- ` line per element, joined by line breaks. */
  function CreateDescriptionAnnotation(description: Description): string {
    match description
    case Single(text) => "--- " + text
    case Multi(lines) => Join("\n", CommentLines(lines))
  }

  /**
   * A description list of single-line elements gives exactly one line per
   * element, each the element behind `--- `, in order.
   */
  lemma DescriptionLines(lines: seq<string>)
    requires |lines| > 0 && AllSingleLine(lines)
    ensures Lines(CreateDescriptionAnnotation(Multi(lines))) == CommentLines(lines)
    ensures |Lines(CreateDescriptionAnnotation(Multi(lines)))| == |lines|
  {
    var comments := CommentLines(lines);
    forall i | 0 <= i < |comments|
      ensures SingleLine(comments[i])
    {
      assert SingleLine(lines[i]);
      assert comments[i] == "--- " + lines[i];
    }
    LinesOfJoinSingleLines(comments);
  }

  /** An empty description list gives the empty annotation. */
  lemma EmptyDescription()
    ensures CreateDescriptionAnnotation(Multi([])) == ""
  {
  }

  /** The non-empty parts, in order. */
  function NonEmpty(parts: seq<string>): (r: seq<string>)
    ensures forall i | 0 <= i < |r| :: |r[i]| > 0
    ensures |r| <= |parts|
  {
    if parts == [] then []
    else (if |parts[0]| > 0 then [parts[0]] else []) + NonEmpty(parts[1..])
  }

  /** The non-empty parts, in order, separated by line breaks. */
  function Combine(parts: seq<string>): string {
    Join("\n", NonEmpty(parts))
  }

  /** A join of non-empty parts is empty exactly when there are no parts. */
  lemma JoinOfNonEmptyParts(xs: seq<string>)
    requires forall i | 0 <= i < |xs| :: |xs[i]| > 0
    ensures Join("\n", xs) == "" <==> xs == []
  {
    if xs != [] {
      assert |Join("\n", xs)| >= |xs[0]|;
    }
  }

  /**
   * `combine` characterised part by part: an empty part is skipped, and a
   * non-empty part is followed by a line break only when something
   * non-empty comes after it.
   */
  lemma CombineCons(a: string, rest: seq<string>)
    ensures a == "" ==> Combine([a] + rest) == Combine(rest)
    ensures a != "" && Combine(rest) == "" ==> Combine([a] + rest) == a
    ensures a != "" && Combine(rest) != "" ==> Combine([a] + rest) == a + "\n" + Combine(rest)
  {
    var kept := NonEmpty(rest);
    assert ([a] + rest)[1..] == rest;
    assert NonEmpty([a] + rest) == (if |a| > 0 then [a] else []) + kept;
    JoinOfNonEmptyParts(kept);
    if a == "" {
      assert [] + kept == kept;
    } else if kept != [] {
      assert ([a] + kept)[1..] == kept;
    }
  }

  /** With nothing but empty parts, `combine` gives the empty string. */
  lemma {:induction false} CombineOfEmpties(parts: seq<string>)
    requires forall i | 0 <= i < |parts| :: parts[i] == ""
    ensures Combine(parts) == ""
  {
    if parts != [] {
      CombineOfEmpties(parts[1..]);
      CombineCons(parts[0], parts[1..]);
      assert [parts[0]] + parts[1..] == parts;
    }
  }

  /** A single non-empty part among empty ones is returned unchanged. */
  lemma {:induction false} CombineSingle(parts: seq<string>, i: nat)
    requires i < |parts| && parts[i] != ""
    requires forall j | 0 <= j < |parts| && j != i :: parts[j] == ""
    ensures Combine(parts) == parts[i]
  {
    assert [parts[0]] + parts[1..] == parts;
    if i == 0 {
      CombineOfEmpties(parts[1..]);
      CombineCons(parts[0], parts[1..]);
    } else {
      CombineSingle(parts[1..], i - 1);
      CombineCons(parts[0], parts[1..]);
    }
  }

  /** Every non-empty part is kept. */
  lemma {:induction false} NonEmptyKeeps(parts: seq<string>, i: nat)
    requires i < |parts| && parts[i] != ""
    ensures parts[i] in NonEmpty(parts)
  {
    if i > 0 {
      NonEmptyKeeps(parts[1..], i - 1);
    }
  }

  /** Every non-empty part occurs in the combined text. */
  lemma CombineContains(parts: seq<string>, i: nat)
    requires i < |parts| && parts[i] != ""
    ensures Contains(Combine(parts), parts[i])
  {
    NonEmptyKeeps(parts, i);
    var kept := NonEmpty(parts);
    var k :| 0 <= k < |kept| && kept[k] == parts[i];
    JoinContains("\n", kept, k);
  }

  /** `---@param <name> <type>` with the raw `type` string. */
  function RawParamLine(param: Property): string {
    "---@param " + Shown(param.name) + " " + param.ty
  }

  /** `---@return <type> <name or "">` with the raw `type` string. */
  function RawReturnLine(ret: Property): string {
    "---@return " + ret.ty + " " + ret.name.GetOr("")
  }

  function RawParamLines(params: seq<Property>): (r: seq<string>)
    ensures |r| == |params|
  {
    seq(|params|, i requires 0 <= i < |params| => RawParamLine(params[i]))
  }

  function RawReturnLines(results: seq<Property>): (r: seq<string>)
    ensures |r| == |results|
  {
    seq(|results|, i requires 0 <= i < |results| => RawReturnLine(results[i]))
  }

  /** `function <name>(<param names ,-joined>) end`, with no class prefix. */
  function MakeSignature(name: string, params: seq<Property>): string {
    "function " + name + "(" + Join(",", AnnotationBuilding.ParamNames(params)) + ") end"
  }

  /** The description, parameter and return sections, empty ones dropped. */
  function FullAnnotation(func: Function): string
    requires func.description.Some?
  {
    Combine([CreateDescriptionAnnotation(func.description.value),
             Join("\n", RawParamLines(func.parameters.OrEmpty())),
             Join("\n", RawReturnLines(func.results.OrEmpty()))])
  }

  /** The annotation repeated before the signature of each name. */
  function AliasBlocks(full: string, names: seq<string>, params: seq<Property>): (r: seq<string>)
    ensures |r| == |names|
  {
    seq(|names|, i requires 0 <= i < |names| => full + "\n" + MakeSignature(names[i], params))
  }

  /**
   * The annotation of a function. The description is read unconditionally,
   * so it must be present; an alias list, even an empty one, takes the
   * per-name branch.
   */
  function MakeFunctionAnnotation(func: Function): string
    requires func.description.Some?
  {
    var full := FullAnnotation(func);
    var params := func.parameters.OrEmpty();
    match func.aliases
    case None => full + "\n" + MakeSignature(func.name, params)
    case Some(aliases) => Join("\n", AliasBlocks(full, [func.name] + aliases, params))
  }

  /**
   * Both branches agree: the annotation is one block per name of
   * `[name, ...aliases]`, in order, each the full annotation and that
   * name's signature.
   */
  lemma FunctionAnnotationBlocks(func: Function)
    requires func.description.Some?
    ensures MakeFunctionAnnotation(func)
      == Join("\n", AliasBlocks(FullAnnotation(func), AnnotationBuilding.FunctionNames(func), func.parameters.OrEmpty()))
  {
  }

  /** An empty alias list gives the same text as no alias list. */
  lemma EmptyAliasesAsAbsent(func: Function)
    requires func.description.Some? && func.aliases == Some([])
    ensures MakeFunctionAnnotation(func) == MakeFunctionAnnotation(func.(aliases := None))
  {
    var full := FullAnnotation(func);
    var params := func.parameters.OrEmpty();
    assert [func.name] + [] == [func.name];
    assert AliasBlocks(full, [func.name], params) == [full + "\n" + MakeSignature(func.name, params)];
  }

  /** The signature of every name of `[name, ...aliases]` occurs in the annotation. */
  lemma SignatureOccurs(func: Function, i: nat)
    requires func.description.Some? && i < |AnnotationBuilding.FunctionNames(func)|
    ensures Contains(MakeFunctionAnnotation(func),
                     MakeSignature(AnnotationBuilding.FunctionNames(func)[i], func.parameters.OrEmpty()))
  {
    var names := AnnotationBuilding.FunctionNames(func);
    var params := func.parameters.OrEmpty();
    var full := FullAnnotation(func);
    var blocks := AliasBlocks(full, names, params);
    FunctionAnnotationBlocks(func);
    JoinContains("\n", blocks, i);
    ContainsSelf(MakeSignature(names[i], params));
    ContainsInside(full + "\n", MakeSignature(names[i], params), "", MakeSignature(names[i], params));
    assert full + "\n" + MakeSignature(names[i], params) + "" == blocks[i];
    ContainsTransitive(MakeFunctionAnnotation(func), blocks[i], MakeSignature(names[i], params));
  }

  /** The annotation holds the `@param` line of every parameter, with its raw type. */
  lemma ParamLineOccurs(func: Function, j: nat)
    requires func.description.Some? && j < |func.parameters.OrEmpty()|
    ensures Contains(MakeFunctionAnnotation(func), RawParamLine(func.parameters.OrEmpty()[j]))
  {
    var names := AnnotationBuilding.FunctionNames(func);
    var params := func.parameters.OrEmpty();
    var full := FullAnnotation(func);
    var paramSection := Join("\n", RawParamLines(params));
    var parts := [CreateDescriptionAnnotation(func.description.value), paramSection,
                  Join("\n", RawReturnLines(func.results.OrEmpty()))];
    JoinContains("\n", RawParamLines(params), j);
    ContainsLength(paramSection, RawParamLine(params[j]));
    CombineContains(parts, 1);
    ContainsTransitive(full, paramSection, RawParamLine(params[j]));
    var blocks := AliasBlocks(full, names, params);
    FunctionAnnotationBlocks(func);
    JoinContains("\n", blocks, 0);
    ContainsSelf(full);
    ContainsInside("", full, "\n" + MakeSignature(names[0], params), full);
    assert "" + full + ("\n" + MakeSignature(names[0], params)) == blocks[0];
    ContainsTransitive(blocks[0], full, RawParamLine(params[j]));
    ContainsTransitive(MakeFunctionAnnotation(func), blocks[0], RawParamLine(params[j]));
  }

  /**
   * The draft writes the raw `type`: for a plain non-optional parameter its
   * line matches the document builder's, but a function-typed parameter
   * keeps the tag `function` where the builder writes `fun()`.
   */
  lemma RawParamAgainstBuilder(param: Property)
    requires !param.optional && Renderable(param)
    ensures !IsFunctionProperty(param) && !IsArrayProperty(param) && !IsTableProperty(param)
      ==> AnnotationBuilding.ParamAnnotation(param) == RawParamLine(param)
    ensures param == Simple(Some("cb"), "function")
      ==> RawParamLine(param) == "---@param cb function"
          && AnnotationBuilding.ParamAnnotation(param) == "---@param cb fun()"
  {
    if param == Simple(Some("cb"), "function") {
      assert TypeRenderer.LuaLSType(param) == "fun()";
    }
  }

  /** `${description}`: a list prints `,`-joined, an absent one `undefined`. */
  function TemplateDescription(description: Option<Description>): string {
    match description
    case None => "undefined"
    case Some(Single(text)) => text
    case Some(Multi(lines)) => Join(",", lines)
  }

  /** `---@field <name> <type> <description>`, the type by the draft renderer. */
  function ClassFieldLine(field: Property): string
    requires ConvertTypeDraft.DraftRenderable(field)
  {
    "---@field " + Shown(field.name) + " " + ConvertTypeDraft.ConvertType(field) + " " + TemplateDescription(field.description)
  }

  function ClassFieldLines(fields: seq<Property>): (r: seq<string>)
    requires ConvertTypeDraft.AllDraftRenderable(fields)
    ensures |r| == |fields|
  {
    seq(|fields|, i requires 0 <= i < |fields| => ClassFieldLine(fields[i]))
  }

  /** Every method has a description. */
  predicate AllDescribed(methods: seq<Function>) {
    forall m | m in methods :: m.description.Some?
  }

  function MethodAnnotations(methods: seq<Function>): (r: seq<string>)
    requires AllDescribed(methods)
    ensures |r| == |methods|
  {
    seq(|methods|, i requires 0 <= i < |methods| => MakeFunctionAnnotation(methods[i]))
  }

  /**
   * The classes the draft accepts: the description is read unconditionally,
   * every field must render under the draft renderer and every method needs
   * a description.
   */
  predicate ClassGeneratable(c: Class) {
    && c.description.Some?
    && ConvertTypeDraft.AllDraftRenderable(c.fields.OrEmpty())
    && AllDescribed(c.methods.GetOr([]))
  }

  /** The five sections of a class annotation, before empty ones are dropped. */
  function ClassSections(c: Class): (r: seq<string>)
    requires ClassGeneratable(c)
    ensures |r| == 5
  {
    [CreateDescriptionAnnotation(c.description.value),
     "---@class " + c.name,
     Join("\n", ClassFieldLines(c.fields.OrEmpty())),
     c.name + " = {}",
     Join("\n", MethodAnnotations(c.methods.GetOr([])))]
  }

  /**
   * The class annotation: description, `@class` line, field lines,
   * declaration, method annotations (each without a class prefix), empty
   * sections dropped.
   */
  function MakeClassAnnotation(c: Class): string
    requires ClassGeneratable(c)
  {
    Combine(ClassSections(c))
  }

  /** The class annotation always holds its `@class` line and its declaration. */
  lemma ClassHeaderOccurs(c: Class)
    requires ClassGeneratable(c)
    ensures Contains(MakeClassAnnotation(c), "---@class " + c.name)
    ensures Contains(MakeClassAnnotation(c), c.name + " = {}")
  {
    CombineContains(ClassSections(c), 1);
    CombineContains(ClassSections(c), 3);
  }

  /** Every field has its `@field` line in the class annotation. */
  lemma ClassFieldOccurs(c: Class, i: nat)
    requires ClassGeneratable(c) && i < |c.fields.OrEmpty()|
    ensures Contains(MakeClassAnnotation(c), ClassFieldLine(c.fields.OrEmpty()[i]))
  {
    var lines := ClassFieldLines(c.fields.OrEmpty());
    var section := Join("\n", lines);
    JoinContains("\n", lines, i);
    ContainsLength(section, lines[i]);
    CombineContains(ClassSections(c), 2);
    ContainsTransitive(MakeClassAnnotation(c), section, lines[i]);
  }

  /** Every method's signature occurs, written with its bare name: the class name is not used. */
  lemma ClassMethodOccurs(c: Class, i: nat)
    requires ClassGeneratable(c) && i < |c.methods.GetOr([])|
    ensures var m := c.methods.GetOr([])[i];
      Contains(MakeClassAnnotation(c), MakeSignature(m.name, m.parameters.OrEmpty()))
  {
    var methods := c.methods.GetOr([]);
    var m := methods[i];
    assert m in methods;
    var annotations := MethodAnnotations(methods);
    var section := Join("\n", annotations);
    assert AnnotationBuilding.FunctionNames(m)[0] == m.name;
    SignatureOccurs(m, 0);
    JoinContains("\n", annotations, i);
    ContainsTransitive(section, annotations[i], MakeSignature(m.name, m.parameters.OrEmpty()));
    ContainsLength(section, MakeSignature(m.name, m.parameters.OrEmpty()));
    CombineContains(ClassSections(c), 4);
    ContainsTransitive(MakeClassAnnotation(c), section, MakeSignature(m.name, m.parameters.OrEmpty()));
  }

  /** Dropping empty parts leaves a list without empty parts unchanged. */
  lemma {:induction false} NonEmptyOfNonEmpties(parts: seq<string>)
    requires forall i | 0 <= i < |parts| :: parts[i] != ""
    ensures NonEmpty(parts) == parts
  {
    if parts != [] {
      NonEmptyOfNonEmpties(parts[1..]);
      assert [parts[0]] + parts[1..] == parts;
    }
  }

  /** The method of the class generator's unit test: described, no parameters, one named return. */
  function TestMethod(): Function {
    Function("test", None, Some(Single("test")), Absent, Given([Simple(Some("test"), "string")]))
  }

  /** The class of the class generator's unit test: one described string field, one method. */
  function TestClass(): Class {
    Class("test", Some(Single("test")), Given([Simple(Some("test"), "string").(description := Some(Single("test")))]),
          Some([TestMethod()]))
  }

  /** The test method: its description line, its `@return` line, then its bare signature. */
  lemma TestMethodAnnotation()
    ensures MakeFunctionAnnotation(TestMethod())
      == ("--- " + "test") + "\n" + ("---@return " + "string" + " " + "test") + "\n" + ("function " + "test" + "(" + "" + ") end")
  {
    var m := TestMethod();
    var d, r := "--- " + "test", "---@return " + "string" + " " + "test";
    assert RawParamLines([]) == [] && Join("\n", RawParamLines([])) == "";
    assert RawReturnLines([Simple(Some("test"), "string")]) == [r];
    assert Join("\n", [r]) == r;
    CombineCons(d, ["", r]);
    CombineCons("", [r]);
    CombineSingle([r], 0);
    assert [d] + ["", r] == [d, "", r] && [""] + [r] == ["", r];
    assert FullAnnotation(m) == d + "\n" + r;
    assert AnnotationBuilding.ParamNames([]) == [];
  }

  /**
   * The test class: the description comes before the `@class` line, and the
   * method is declared `function test()`, not `function test:test()` as the
   * class generator's unit test expects.
   */
  lemma TestClassAnnotation()
    ensures ConvertTypeDraft.ConvertTypeAsWritten(TestClass().fields.entries[0]).None?
    ensures ClassGeneratable(TestClass())
    ensures MakeClassAnnotation(TestClass())
      == Join("\n", ["--- " + "test",
                     "---@class " + "test",
                     "---@field " + "test" + " " + "string" + " " + "test",
                     "test" + " = {}",
                     ("--- " + "test") + "\n" + ("---@return " + "string" + " " + "test") + "\n"
                       + ("function " + "test" + "(" + "" + ") end")])
  {
    var c := TestClass();
    var field := Simple(Some("test"), "string").(description := Some(Single("test")));
    assert ConvertTypeDraft.ConvertType(field) == "string";
    assert ClassFieldLines([field]) == [ClassFieldLine(field)];
    assert ClassFieldLine(field) == "---@field " + "test" + " " + "string" + " " + "test";
    TestMethodAnnotation();
    assert MethodAnnotations([TestMethod()]) == [MakeFunctionAnnotation(TestMethod())];
    var sections := ClassSections(c);
    NonEmptyOfNonEmpties(sections);
  }

  /** A multi-line field description prints `,`-joined here but space-joined by the document builder. */
  lemma FieldDescriptionDisagreement()
    ensures TemplateDescription(Some(Multi(["Hello!", "World!"]))) == "Hello!" + "," + "World!"
    ensures AnnotationBuilding.FieldDescription(Some(Multi(["Hello!", "World!"]))) == "Hello!" + " " + "World!"
  {
  }

  /** The one property the matcher loop records for one name of a matcher. */
  function MatcherProperty(func: Function, name: string): (r: Property)
    ensures IsFunctionProperty(r) && r.name == Some(name)
    ensures r.description == func.description && r.parameters == func.parameters && r.results == func.results
  {
    Property("function", Some(name), func.description, false, false, func.parameters, func.results, None, Absent)
  }

  /** The properties recorded for one matcher: one per name of `[name, ...aliases]`. */
  function MatcherPropertiesOf(func: Function): (r: seq<Property>)
    ensures |r| == |AnnotationBuilding.FunctionNames(func)|
  {
    var names := AnnotationBuilding.FunctionNames(func);
    seq(|names|, i requires 0 <= i < |names| => MatcherProperty(func, names[i]))
  }

  /** The properties recorded for a list of matchers, in order. */
  function MatcherProperties(funcs: seq<Function>): seq<Property> {
    if funcs == [] then []
    else MatcherProperties(funcs[..|funcs| - 1]) + MatcherPropertiesOf(funcs[|funcs| - 1])
  }

  /** The total number of names of a list of matchers. */
  function NameCount(funcs: seq<Function>): nat {
    if funcs == [] then 0
    else NameCount(funcs[..|funcs| - 1]) + |AnnotationBuilding.FunctionNames(funcs[|funcs| - 1])|
  }

  /** The loop records one function-typed property per name, no more, no fewer. */
  lemma {:induction false} MatcherPropertiesShape(funcs: seq<Function>)
    ensures |MatcherProperties(funcs)| == NameCount(funcs)
    ensures forall q | q in MatcherProperties(funcs) :: IsFunctionProperty(q)
  {
    if funcs != [] {
      MatcherPropertiesShape(funcs[..|funcs| - 1]);
    }
  }

  /** The local loop: one property per name of each matcher, pushed in order. */
  method CollectMatcherProperties(matcherFunctions: seq<Function>) returns (matcherProperties: seq<Property>)
    ensures matcherProperties == MatcherProperties(matcherFunctions)
  {
    matcherProperties := [];
    var i := 0;
    while i < |matcherFunctions|
      invariant 0 <= i <= |matcherFunctions|
      invariant matcherProperties == MatcherProperties(matcherFunctions[..i])
    {
      var func := matcherFunctions[i];
      var names := [func.name] + func.aliases.GetOr([]);
      var j := 0;
      while j < |names|
        invariant 0 <= j <= |names|
        invariant matcherProperties == MatcherProperties(matcherFunctions[..i]) + MatcherPropertiesOf(func)[..j]
      {
        matcherProperties := matcherProperties + [MatcherProperty(func, names[j])];
        j := j + 1;
      }
      assert matcherFunctions[..i + 1][..i] == matcherFunctions[..i];
      i := i + 1;
    }
    assert matcherFunctions[..i] == matcherFunctions;
  }

  /**
   * The matcher class: named `lest.Matchers`, described `Matchers for
   * expect()`, no fields, and exactly the matcher functions as its methods.
   * The properties the loop collects are discarded, so aliases do not matter.
   */
  method MakeMatcherClass(matcherFunctions: seq<Function>) returns (cls: Class)
    ensures cls.name == "lest.Matchers" && cls.description == Some(Single("Matchers for expect()"))
    ensures cls.fields.Absent? && cls.methods == Some(matcherFunctions)
  {
    var matcherProperties := CollectMatcherProperties(matcherFunctions);
    cls := Class("lest.Matchers", Some(Single("Matchers for expect()")), Absent, Some(matcherFunctions));
  }
}

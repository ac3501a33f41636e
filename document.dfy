/**
 * The assembly of the whole annotation file: one class block per
 * documented class (data fields, then the declaration `<name> = {}`, then
 * the function-typed fields as methods), then the top-level functions,
 * then the two matcher classes `lest.Matchers` and `lest.InverseMatchers`
 * whose methods are the matcher functions, declared static.
 */
module AnnotationDocument {
  import opened Wrappers
  import opened Text
  import opened Properties
  import opened TypeRenderer
  import opened AnnotationBuilding

  /** The function-typed fields of a class, in order: they become its methods. */
  function Methods(fields: seq<Property>): seq<Property>
  {
    if fields == [] then []
    else (if IsFunctionProperty(fields[0]) then [fields[0]] else []) + Methods(fields[1..])
  }

  /** The other fields of a class, in order: they become `@field` lines. */
  function DataFields(fields: seq<Property>): seq<Property>
  {
    if fields == [] then []
    else (if IsFunctionProperty(fields[0]) then [] else [fields[0]]) + DataFields(fields[1..])
  }

  /** Methods and data fields split the fields: together they are the fields, each exactly once. */
  lemma {:induction false} FieldSplit(fields: seq<Property>)
    ensures multiset(Methods(fields)) + multiset(DataFields(fields)) == multiset(fields)
    ensures |Methods(fields)| + |DataFields(fields)| == |fields|
    ensures forall q | q in Methods(fields) :: q in fields && IsFunctionProperty(q)
    ensures forall q | q in DataFields(fields) :: q in fields && !IsFunctionProperty(q)
  {
    if fields != [] {
      FieldSplit(fields[1..]);
      assert fields == [fields[0]] + fields[1..];
    }
  }

  /**
   * A function-typed field read as a function: its name is printed through
   * a template string (an absent name shows as `undefined`) and it has no aliases.
   */
  function AsFunction(p: Property): (r: Function)
    ensures r.parameters == p.parameters && r.results == p.results && r.description == p.description
    ensures r.aliases.None? && FunctionNames(r) == [Shown(p.name)]
  {
    Function(Shown(p.name), None, p.description, p.parameters, p.results)
  }

  function AsFunctions(ps: seq<Property>): (r: seq<Function>)
    ensures |r| == |ps|
  {
    seq(|ps|, i requires 0 <= i < |ps| => AsFunction(ps[i]))
  }

  /** `---@field` lines, one per field, in order. */
  function FieldAnnotations(fields: seq<Property>): (r: seq<string>)
    requires AllRenderable(fields)
    ensures |r| == |fields|
  {
    seq(|fields|, i requires 0 <= i < |fields| => FieldAnnotation(fields[i]))
  }

  /** Every function renders under the type renderer. */
  predicate AllDeclarationRenderable(funcs: seq<Function>) {
    forall f | f in funcs :: DeclarationRenderable(f)
  }

  /** The declaration of each method of class `className`, in order. */
  function MethodDeclarations(funcs: seq<Function>, className: string, staticMethod: bool): (r: seq<string>)
    requires AllDeclarationRenderable(funcs)
    ensures |r| == |funcs|
  {
    seq(|funcs|, i requires 0 <= i < |funcs| =>
      RenderFunctionDeclaration(funcs[i], FunctionRenderOptions(staticMethod, Some(className))))
  }

  /** The entries of one class block. */
  function ClassBlock(name: string, description: Option<Description>, fields: seq<Property>,
                      methods: seq<Function>, staticMethods: bool): seq<string>
    requires AllRenderable(fields) && AllDeclarationRenderable(methods)
  {
    ["---@class " + name] + ClassDescriptionComments(description) + FieldAnnotations(fields)
      + [name + " = {}"] + MethodDeclarations(methods, name, staticMethods)
  }

  /**
   * The classes the document generator accepts: `fields` is read
   * unconditionally, so it must be present, and every field must render.
   */
  predicate Emittable(c: Class) {
    c.fields.Given? && AllRenderable(c.fields.entries)
  }

  lemma MethodsRenderable(fields: seq<Property>)
    requires AllRenderable(fields)
    ensures AllRenderable(DataFields(fields))
    ensures AllDeclarationRenderable(AsFunctions(Methods(fields)))
  {
    FieldSplit(fields);
    var ms := Methods(fields);
    forall f | f in AsFunctions(ms)
      ensures DeclarationRenderable(f)
    {
      var i :| 0 <= i < |ms| && f == AsFunctions(ms)[i];
      assert ms[i] in ms;
    }
  }

  /** The block the document generator writes for a documented class. */
  function ClassEntries(c: Class): seq<string>
    requires Emittable(c)
  {
    var fields := c.fields.entries;
    MethodsRenderable(fields);
    ClassBlock(c.name, c.description, DataFields(fields), AsFunctions(Methods(fields)), false)
  }

  /**
   * The blocks of several classes, one after the other. A class the
   * generator would fault on contributes nothing; `BuildDocument` requires
   * that there is none.
   */
  function ClassesEntries(classes: seq<Class>): seq<string>
  {
    if classes == [] then []
    else ClassesEntries(classes[..|classes| - 1]) + (if Emittable(classes[|classes| - 1]) then ClassEntries(classes[|classes| - 1]) else [])
  }

  /** One more class adds its block at the end. */
  lemma ClassesEntriesSnoc(classes: seq<Class>, i: nat)
    requires i < |classes| && Emittable(classes[i])
    ensures ClassesEntries(classes[..i + 1]) == ClassesEntries(classes[..i]) + ClassEntries(classes[i])
  {
    var prefix := classes[..i + 1];
    assert prefix[..|prefix| - 1] == classes[..i];
  }

  /** The declaration of each top-level function, in order. */
  function FunctionDeclarations(funcs: seq<Function>): (r: seq<string>)
    requires AllDeclarationRenderable(funcs)
    ensures |r| == |funcs|
  {
    seq(|funcs|, i requires 0 <= i < |funcs| => RenderFunctionDeclaration(funcs[i], TopLevel))
  }

  /** The field through which `expect(x).never` reaches the inverse matchers. */
  const NeverField := Property("lest.InverseMatchers", Some("never"), Some(Single("Inverse matchers")),
                                false, false, Absent, Absent, None, Absent)

  function MatchersEntries(matchers: seq<Function>): seq<string>
    requires AllDeclarationRenderable(matchers)
  {
    ClassBlock("lest.Matchers", Some(Single("Matchers for expect()")), [NeverField], matchers, true)
  }

  function InverseMatchersEntries(matchers: seq<Function>): seq<string>
    requires AllDeclarationRenderable(matchers)
  {
    ClassBlock("lest.InverseMatchers", Some(Single("Inverse matchers for expect()")), [], matchers, true)
  }

  /** The entries of the whole annotation file. */
  function DocumentLines(classes: seq<Class>, functions: seq<Function>, matchers: seq<Function>): seq<string>
    requires AllDeclarationRenderable(functions) && AllDeclarationRenderable(matchers)
  {
    ["---@meta"] + ClassesEntries(classes) + FunctionDeclarations(functions)
      + MatchersEntries(matchers) + InverseMatchersEntries(matchers)
  }

  /**
   * A class block opens with its `@class` line and its description comments, lists
   * each data field once, declares the class, then declares each
   * function-typed field as a method: one entry per field, none lost, none added.
   */
  lemma ClassLayout(c: Class)
    requires Emittable(c)
    ensures var entries, d, fields := ClassEntries(c), |ClassDescriptionComments(c.description)|, c.fields.entries;
      && |entries| == 2 + d + |fields|
      && entries[0] == "---@class " + c.name
      && entries[1..1 + d] == ClassDescriptionComments(c.description)
      && entries[1 + d + |DataFields(fields)|] == c.name + " = {}"
      && AllRenderable(DataFields(fields))
      && (forall k | 0 <= k < |DataFields(fields)| :: entries[1 + d + k] == FieldAnnotation(DataFields(fields)[k]))
      && AllDeclarationRenderable(AsFunctions(Methods(fields)))
      && (forall k | 0 <= k < |Methods(fields)| ::
            entries[2 + d + |DataFields(fields)| + k]
              == RenderFunctionDeclaration(AsFunctions(Methods(fields))[k], FunctionRenderOptions(false, Some(c.name))))
  {
    var fields := c.fields.entries;
    FieldSplit(fields);
    MethodsRenderable(fields);
    var dataFields, methods := DataFields(fields), AsFunctions(Methods(fields));
    var a, b, f := ["---@class " + c.name], ClassDescriptionComments(c.description), FieldAnnotations(dataFields);
    var d, e := [c.name + " = {}"], MethodDeclarations(methods, c.name, false);
    assert ClassEntries(c) == a + b + f + d + e;
    Slices(a, b, f, d, e);
    var n := |a| + |b| + |f| + |d|;
    forall k | 0 <= k < |e|
      ensures ClassEntries(c)[n + k] == e[k]
    {
      assert ClassEntries(c)[n..][k] == e[k];
    }
  }

  /** A method of a non-empty class is declared `<class>:<name>`, a matcher `lest.Matchers.<name>`. */
  lemma DeclarationPrefixes(className: string)
    requires className != ""
    ensures FunctionPrefix(FunctionRenderOptions(false, Some(className))) == className + ":"
    ensures FunctionPrefix(FunctionRenderOptions(true, Some("lest.Matchers"))) == "lest.Matchers."
    ensures FunctionPrefix(FunctionRenderOptions(true, Some("lest.InverseMatchers"))) == "lest.InverseMatchers."
  {
  }

  /**
   * The matcher class: its header, its `never` field leading to the inverse
   * matchers, its declaration, then every matcher as a static method.
   */
  lemma MatchersLayout(matchers: seq<Function>)
    requires AllDeclarationRenderable(matchers)
    ensures var entries := MatchersEntries(matchers);
      && |entries| == 4 + |matchers|
      && entries[..4] == ["---@class " + "lest.Matchers", "--- " + "Matchers for expect()",
                          "---@field " + "never" + " " + "lest.InverseMatchers" + " " + "Inverse matchers",
                          "lest.Matchers" + " = {}"]
      && entries[4..] == MethodDeclarations(matchers, "lest.Matchers", true)
  {
    ScalarIsVerbatim(NeverField);
    assert FieldAnnotations([NeverField])
      == ["---@field " + "never" + " " + "lest.InverseMatchers" + " " + "Inverse matchers"];
  }

  /** The inverse matcher class: the same matchers, with no field. */
  lemma InverseMatchersLayout(matchers: seq<Function>)
    requires AllDeclarationRenderable(matchers)
    ensures var entries := InverseMatchersEntries(matchers);
      && |entries| == 3 + |matchers|
      && entries[..3] == ["---@class " + "lest.InverseMatchers", "--- " + "Inverse matchers for expect()",
                          "lest.InverseMatchers" + " = {}"]
      && entries[3..] == MethodDeclarations(matchers, "lest.InverseMatchers", true)
  {
    assert FieldAnnotations([]) == [];
  }

  /**
   * The document opens with `---@meta`, then the class blocks, then one
   * entry per top-level function, and ends with the two matcher classes.
   */
  lemma DocumentLayout(classes: seq<Class>, functions: seq<Function>, matchers: seq<Function>)
    requires AllDeclarationRenderable(functions) && AllDeclarationRenderable(matchers)
    ensures var doc, n := DocumentLines(classes, functions, matchers), 1 + |ClassesEntries(classes)|;
      && |doc| == n + |functions| + 7 + 2 * |matchers|
      && doc[..1] == ["---@meta"]
      && doc[1..n] == ClassesEntries(classes)
      && (forall k | 0 <= k < |functions| :: doc[n + k] == RenderFunctionDeclaration(functions[k], TopLevel))
      && doc[n + |functions|..n + |functions| + 4 + |matchers|] == MatchersEntries(matchers)
      && doc[n + |functions| + 4 + |matchers|..] == InverseMatchersEntries(matchers)
  {
    var a, b, c := ["---@meta"], ClassesEntries(classes), FunctionDeclarations(functions);
    var d, e := MatchersEntries(matchers), InverseMatchersEntries(matchers);
    assert DocumentLines(classes, functions, matchers) == a + b + c + d + e;
    MatcherBlockLengths(matchers);
    Slices(a, b, c, d, e);
  }

  /** Where the parts of a five-part concatenation sit in it. */
  lemma Slices(a: seq<string>, b: seq<string>, c: seq<string>, d: seq<string>, e: seq<string>)
    ensures var s, n := a + b + c + d + e, |a| + |b|;
      && |s| == n + |c| + |d| + |e|
      && s[..|a|] == a
      && s[|a|..n] == b
      && (forall k | 0 <= k < |c| :: s[n + k] == c[k])
      && s[n + |c|..n + |c| + |d|] == d
      && s[n + |c| + |d|..] == e
  {
  }

  /** Each matcher class block holds one declaration per matcher after its header. */
  lemma MatcherBlockLengths(matchers: seq<Function>)
    requires AllDeclarationRenderable(matchers)
    ensures |MatchersEntries(matchers)| == 4 + |matchers|
    ensures |InverseMatchersEntries(matchers)| == 3 + |matchers|
  {
  }

  /** The class of the example below: a method listed before a data field. */
  function ExampleClass(): Class {
    Class("test", Some(Single("desc")), Given([Simple(Some("f"), "function"), Named("a", "string")]), None)
  }

  /** The example's fields split into one method and one data field. */
  lemma ExampleFieldSplit()
    ensures Methods(ExampleClass().fields.entries) == [Simple(Some("f"), "function")]
    ensures DataFields(ExampleClass().fields.entries) == [Named("a", "string")]
  {
    var f, a := Simple(Some("f"), "function"), Named("a", "string");
    assert IsFunctionProperty(f) && !IsFunctionProperty(a);
    assert [f, a][1..] == [a] && [a][1..] == [];
    assert Methods([a]) == [] && DataFields([a]) == [a];
  }

  /** The example's method has no description, so its declaration opens with `--- undefined`. */
  lemma ExampleMethodDeclaration()
    ensures AllDeclarationRenderable(AsFunctions([Simple(Some("f"), "function")]))
    ensures MethodDeclarations(AsFunctions([Simple(Some("f"), "function")]), "test", false)
      == ["--- undefined" + "\n" + ("function " + "test:" + "f" + "(" + "" + ") end")]
  {
    var m := AsFunction(Simple(Some("f"), "function"));
    var options := FunctionRenderOptions(false, Some("test"));
    assert AsFunctions([Simple(Some("f"), "function")]) == [m];
    assert ParamNames([]) == [] && ParamAnnotations([]) == [] && ReturnAnnotations([]) == [];
    assert Header(m) == ["--- undefined"];
    assert FunctionPrefix(options) == "test:" && m.parameters.OrEmpty() == [];
    assert Join(",", ParamNames([])) == "";
    assert Signature("test:", "f", []) == "function " + "test:" + "f" + "(" + "" + ") end";
    assert FunctionNames(m) == ["f"];
    assert Block(m, options, "f") == ["--- undefined", "function " + "test:" + "f" + "(" + "" + ") end"];
    var sig := "function " + "test:" + "f" + "(" + "" + ") end";
    assert Join("\n", ["--- undefined", sig]) == "--- undefined" + "\n" + sig;
    assert BlockTexts(m, options) == ["--- undefined" + "\n" + ("function " + "test:" + "f" + "(" + "" + ") end")];
  }

  /**
   * The function-typed field moves after the declaration; a missing field
   * description prints `undefined`, and so does the missing method description.
   */
  lemma ClassExample()
    ensures Emittable(ExampleClass())
    ensures ClassEntries(ExampleClass())
      == ["---@class " + "test", "--- " + "desc", "---@field " + "a" + " " + "string" + " " + "undefined",
          "test" + " = {}", "--- undefined" + "\n" + ("function " + "test:" + "f" + "(" + "" + ") end")]
  {
    var a := Named("a", "string");
    ExampleFieldSplit();
    ExampleMethodDeclaration();
    ScalarIsVerbatim(a);
    assert FieldAnnotations([a]) == ["---@field " + "a" + " " + "string" + " " + "undefined"];
  }

  /** Appends a `@field` line per field, in order. */
  method AddFields(cls: ClassBuilder, fields: seq<Property>)
    requires AllRenderable(fields)
    modifies cls.doc
    ensures cls.doc.lines == old(cls.doc.lines) + FieldAnnotations(fields)
  {
    var i := 0;
    while i < |fields|
      invariant 0 <= i <= |fields|
      invariant cls.doc.lines == old(cls.doc.lines) + FieldAnnotations(fields[..i])
    {
      assert fields[i] in fields;
      cls.AddField(fields[i]);
      assert FieldAnnotations(fields[..i + 1]) == FieldAnnotations(fields[..i]) + [FieldAnnotation(fields[i])];
      i := i + 1;
    }
    assert fields[..i] == fields;
  }

  /** Appends the declaration of each function as a method of the class, in order. */
  method AddMethods(cls: ClassBuilder, funcs: seq<Function>, staticMethod: bool)
    requires AllDeclarationRenderable(funcs)
    modifies cls.doc
    ensures cls.doc.lines == old(cls.doc.lines) + MethodDeclarations(funcs, cls.name, staticMethod)
  {
    var i := 0;
    while i < |funcs|
      invariant 0 <= i <= |funcs|
      invariant cls.doc.lines == old(cls.doc.lines) + MethodDeclarations(funcs[..i], cls.name, staticMethod)
    {
      assert funcs[i] in funcs;
      cls.AddFunction(funcs[i], staticMethod);
      assert MethodDeclarations(funcs[..i + 1], cls.name, staticMethod)
        == MethodDeclarations(funcs[..i], cls.name, staticMethod)
           + [RenderFunctionDeclaration(funcs[i], FunctionRenderOptions(staticMethod, Some(cls.name)))];
      i := i + 1;
    }
    assert funcs[..i] == funcs;
  }

  /** Builds the block of one class and appends it to the document. */
  method EmitClass(document: AnnotationBuilder, classDef: Class)
    requires Emittable(classDef)
    modifies document.doc
    ensures document.doc.lines == old(document.doc.lines) + ClassEntries(classDef)
  {
    var cls := new ClassBuilder(classDef.name, classDef.description);
    var methods := Methods(classDef.fields.entries);
    var fields := DataFields(classDef.fields.entries);
    MethodsRenderable(classDef.fields.entries);
    AddFields(cls, fields);
    cls.AddDeclaration();
    AddMethods(cls, AsFunctions(methods), false);
    document.AddClass(cls);
  }

  /** Builds a class block whose methods are the matchers, declared static, and appends it. */
  method EmitMatcherClass(document: AnnotationBuilder, name: string, description: string,
                          fields: seq<Property>, matchers: seq<Function>)
    requires AllRenderable(fields) && AllDeclarationRenderable(matchers)
    modifies document.doc
    ensures document.doc.lines
      == old(document.doc.lines) + ClassBlock(name, Some(Single(description)), fields, matchers, true)
  {
    var cls := new ClassBuilder(name, Some(Single(description)));
    AddFields(cls, fields);
    cls.AddDeclaration();
    AddMethods(cls, matchers, true);
    document.AddClass(cls);
  }

  /** Appends the block of each class, in order. */
  method EmitClasses(document: AnnotationBuilder, classes: seq<Class>)
    requires forall c | c in classes :: Emittable(c)
    modifies document.doc
    ensures document.doc.lines == old(document.doc.lines) + ClassesEntries(classes)
  {
    ghost var start := document.doc.lines;
    var i := 0;
    while i < |classes|
      invariant 0 <= i <= |classes|
      invariant document.doc.lines == start + ClassesEntries(classes[..i])
    {
      assert classes[i] in classes;
      EmitNextClass(document, classes, i, start);
      i := i + 1;
    }
    assert classes[..i] == classes;
  }

  /**
   * One step of the loop over the classes: after the blocks of the classes
   * before `i`, the block of class `i` follows.
   */
  method EmitNextClass(document: AnnotationBuilder, classes: seq<Class>, i: nat, ghost start: seq<string>)
    requires i < |classes| && Emittable(classes[i])
    requires document.doc.lines == start + ClassesEntries(classes[..i])
    modifies document.doc
    ensures document.doc.lines == start + ClassesEntries(classes[..i + 1])
  {
    EmitClass(document, classes[i]);
    ClassesEntriesSnoc(classes, i);
  }

  /** Appends the declaration of each top-level function, in order. */
  method EmitFunctions(document: AnnotationBuilder, functions: seq<Function>)
    requires AllDeclarationRenderable(functions)
    modifies document.doc
    ensures document.doc.lines == old(document.doc.lines) + FunctionDeclarations(functions)
  {
    var j := 0;
    while j < |functions|
      invariant 0 <= j <= |functions|
      invariant document.doc.lines == old(document.doc.lines) + FunctionDeclarations(functions[..j])
    {
      assert functions[j] in functions;
      document.AddFunction(functions[j]);
      assert FunctionDeclarations(functions[..j + 1])
        == FunctionDeclarations(functions[..j]) + [RenderFunctionDeclaration(functions[j], TopLevel)];
      j := j + 1;
    }
    assert functions[..j] == functions;
  }

  /**
   * The annotation file: the classes, the top-level functions and the
   * matchers are given in the order in which their modules export them.
   */
  method BuildDocument(classes: seq<Class>, functions: seq<Function>, matchers: seq<Function>)
    returns (document: AnnotationBuilder)
    requires forall c | c in classes :: Emittable(c)
    requires AllDeclarationRenderable(functions) && AllDeclarationRenderable(matchers)
    ensures document.doc.lines == DocumentLines(classes, functions, matchers)
  {
    document := new AnnotationBuilder();
    EmitClasses(document, classes);
    EmitFunctions(document, functions);
    assert Renderable(NeverField);
    EmitMatcherClass(document, "lest.Matchers", "Matchers for expect()", [NeverField], matchers);
    EmitMatcherClass(document, "lest.InverseMatchers", "Inverse matchers for expect()", [], matchers);
  }
}

/**
 * The annotation document builder. `RenderFunctionDeclaration` is the pure
 * renderer of one function (description comments, `@param` lines,
 * `@return` lines, signature), repeated once per alias. `DocumentBuilder`
 * is the append-only buffer of entries that `ClassBuilder` and
 * `AnnotationBuilder` fill; an entry may itself span several physical lines.
 */
module AnnotationBuilding {
  import opened Wrappers
  import opened Text
  import opened Properties
  import opened TypeRenderer

  /** Where a declaration lives: a class name (if any) and `.` (static) or `:` (method) syntax. */
  datatype FunctionRenderOptions = FunctionRenderOptions(staticMethod: bool, className: Option<string>)

  /** The options of a top-level function: no class. */
  const TopLevel := FunctionRenderOptions(false, None)

  /** The functions whose parameter and return types the type renderer accepts. */
  predicate DeclarationRenderable(func: Function) {
    AllRenderable(func.parameters.OrEmpty()) && AllRenderable(func.results.OrEmpty())
  }

  /** `---@param <name>[?] <type>` */
  function ParamAnnotation(param: Property): string
    requires Renderable(param)
  {
    "---@param " + Shown(param.name) + (if param.optional then "?" else "") + " " + LuaLSType(param)
  }

  /** `---@return <type> <name>`, the name being empty when absent. */
  function ReturnAnnotation(ret: Property): string
    requires Renderable(ret)
  {
    "---@return " + LuaLSType(ret) + " " + ret.name.GetOr("")
  }

  function ParamAnnotations(params: seq<Property>): (r: seq<string>)
    requires AllRenderable(params)
    ensures |r| == |params|
  {
    seq(|params|, i requires 0 <= i < |params| => ParamAnnotation(params[i]))
  }

  function ReturnAnnotations(results: seq<Property>): (r: seq<string>)
    requires AllRenderable(results)
    ensures |r| == |results|
  {
    seq(|results|, i requires 0 <= i < |results| => ReturnAnnotation(results[i]))
  }

  /**
   * The description comments of a function: one `--- ` line per element of
   * a list, otherwise exactly one line, so an absent description gives
   * `--- undefined`.
   */
  function DescriptionComments(description: Option<Description>): (r: seq<string>)
    ensures |r| == (if description.Some? && description.value.Multi? then |description.value.lines| else 1)
  {
    match description
    case Some(Multi(lines)) => seq(|lines|, i requires 0 <= i < |lines| => "--- " + lines[i])
    case Some(Single(text)) => ["--- " + text]
    case None => ["--- undefined"]
  }

  /** `<class>.` for a static method, `<class>:` for a method, nothing without a (non-empty) class name. */
  function FunctionPrefix(options: FunctionRenderOptions): string {
    match options.className
    case Some(c) => if c == "" then "" else c + (if options.staticMethod then "." else ":")
    case None => ""
  }

  /** The parameter names as `${names}` prints them: `,`-joined, an absent name empty. */
  function ParamNames(params: seq<Property>): (r: seq<string>)
    ensures |r| == |params|
  {
    seq(|params|, i requires 0 <= i < |params| => JoinedElement(params[i].name))
  }

  /** `function <prefix><name>(<param names>) end` */
  function Signature(prefix: string, name: string, params: seq<Property>): string {
    "function " + prefix + name + "(" + Join(",", ParamNames(params)) + ") end"
  }

  /** The names a function is declared under: its own name first, then its aliases (none when absent). */
  function FunctionNames(func: Function): (r: seq<string>)
    ensures |r| >= 1 && r[0] == func.name
  {
    [func.name] + func.aliases.GetOr([])
  }

  /** What every block of a declaration shares: description, then parameters, then returns. */
  function Header(func: Function): seq<string>
    requires DeclarationRenderable(func)
  {
    DescriptionComments(func.description) + ParamAnnotations(func.parameters.OrEmpty())
      + ReturnAnnotations(func.results.OrEmpty())
  }

  /** The lines of the block declaring `func` under `name`. */
  function Block(func: Function, options: FunctionRenderOptions, name: string): seq<string>
    requires DeclarationRenderable(func)
  {
    Header(func) + [Signature(FunctionPrefix(options), name, func.parameters.OrEmpty())]
  }

  /** The blocks of `func`, one per name, each joined into one text. */
  function BlockTexts(func: Function, options: FunctionRenderOptions): (r: seq<string>)
    requires DeclarationRenderable(func)
    ensures |r| == |FunctionNames(func)|
  {
    var names := FunctionNames(func);
    seq(|names|, i requires 0 <= i < |names| => Join("\n", Block(func, options, names[i])))
  }

  /** The declaration text of a function: its blocks joined by line breaks. */
  function RenderFunctionDeclaration(func: Function, options: FunctionRenderOptions): string
    requires DeclarationRenderable(func)
  {
    Join("\n", BlockTexts(func, options))
  }

  /** The blocks of `func`, one per name, as line lists. */
  function Blocks(func: Function, options: FunctionRenderOptions): (r: seq<seq<string>>)
    requires DeclarationRenderable(func)
    ensures |r| == |FunctionNames(func)|
  {
    var names := FunctionNames(func);
    seq(|names|, i requires 0 <= i < |names| => Block(func, options, names[i]))
  }

  /** No line of any block holds a line break (descriptions, names and types are single lines). */
  predicate SingleLineBlocks(func: Function, options: FunctionRenderOptions)
    requires DeclarationRenderable(func)
  {
    forall name | name in FunctionNames(func) :: AllSingleLine(Block(func, options, name))
  }

  /** The lines of a concatenation of equally long line lists, by position. */
  lemma {:induction false} FlattenUniform(xss: seq<seq<string>>, m: nat, i: nat, j: nat)
    requires forall k :: 0 <= k < |xss| ==> |xss[k]| == m
    requires i < |xss| && j < m
    ensures |Flatten(xss)| == |xss| * m
    ensures i * m + j < |Flatten(xss)| && Flatten(xss)[i * m + j] == xss[i][j]
  {
    if i == 0 {
      FlattenLength(xss[1..], m);
    } else {
      FlattenUniform(xss[1..], m, i - 1, j);
      assert i * m + j == m + ((i - 1) * m + j);
    }
    FlattenLength(xss, m);
  }

  /** The length of a concatenation of equally long line lists. */
  lemma {:induction false} FlattenLength(xss: seq<seq<string>>, m: nat)
    requires forall k :: 0 <= k < |xss| ==> |xss[k]| == m
    ensures |Flatten(xss)| == |xss| * m
  {
    if xss != [] {
      FlattenLength(xss[1..], m);
    }
  }

  /**
   * The declaration text splits into one block per name of
   * `[name, ...aliases]`, in that order; each block is the full header
   * (description, then parameters, then returns) followed by the signature
   * of its name.
   */
  lemma DeclarationBlocks(func: Function, options: FunctionRenderOptions, i: nat, j: nat)
    requires DeclarationRenderable(func) && SingleLineBlocks(func, options)
    requires i < |FunctionNames(func)| && j <= |Header(func)|
    ensures var lines, k := Lines(RenderFunctionDeclaration(func, options)), |Header(func)|;
      && |lines| == |FunctionNames(func)| * (k + 1)
      && i * (k + 1) + j < |lines|
      && lines[i * (k + 1) + j] == if j < k then Header(func)[j]
         else Signature(FunctionPrefix(options), FunctionNames(func)[i], func.parameters.OrEmpty())
  {
    var names := FunctionNames(func);
    var texts := BlockTexts(func, options);
    var blocks := Blocks(func, options);
    LinesOfJoin(texts);
    assert LinesEach(texts) == blocks by {
      forall k | 0 <= k < |names|
        ensures LinesEach(texts)[k] == blocks[k]
      {
        assert names[k] in names;
        LinesOfJoinSingleLines(Block(func, options, names[k]));
      }
    }
    FlattenUniform(blocks, |Header(func)| + 1, i, j);
  }

  /**
   * Whatever line breaks the descriptions, names or types hold, the lines of
   * a declaration are, name by name in the order of `[name, ...aliases]`,
   * the lines of each entry of that name's block.
   */
  lemma DeclarationLines(func: Function, options: FunctionRenderOptions)
    requires DeclarationRenderable(func)
    ensures var names := FunctionNames(func);
      Lines(RenderFunctionDeclaration(func, options))
        == Flatten(seq(|names|, i requires 0 <= i < |names| => Flatten(LinesEach(Block(func, options, names[i])))))
  {
    var names := FunctionNames(func);
    var texts := BlockTexts(func, options);
    LinesOfJoin(texts);
    forall k | 0 <= k < |names|
      ensures LinesEach(texts)[k] == Flatten(LinesEach(Block(func, options, names[k])))
    {
      LinesOfJoin(Block(func, options, names[k]));
    }
    assert LinesEach(texts)
      == seq(|names|, i requires 0 <= i < |names| => Flatten(LinesEach(Block(func, options, names[i]))));
  }

  /** The description comments of a class: none when the description is absent or empty. */
  function ClassDescriptionComments(description: Option<Description>): seq<string> {
    match description
    case None => []
    case Some(Single(text)) => if text == "" then [] else ["--- " + text]
    case Some(Multi(lines)) => seq(|lines|, i requires 0 <= i < |lines| => "--- " + lines[i])
  }

  /** A field description: a list is joined by single spaces; an absent one prints `undefined`. */
  function FieldDescription(description: Option<Description>): string {
    match description
    case None => "undefined"
    case Some(Single(text)) => text
    case Some(Multi(lines)) => Join(" ", lines)
  }

  /** `---@field <name> <type> <description>` */
  function FieldAnnotation(property: Property): string
    requires Renderable(property)
  {
    "---@field " + Shown(property.name) + " " + LuaLSType(property) + " " + FieldDescription(property.description)
  }

  /** `?` follows the parameter name in its `@param` line exactly when the parameter is optional. */
  lemma ParamOptionalMarker(param: Property)
    requires Renderable(param)
    ensures var r, n := ParamAnnotation(param), |"---@param " + Shown(param.name)|;
      && n < |r| && r[..n] == "---@param " + Shown(param.name)
      && (r[n] == '?' <==> param.optional)
  {
    var r := ParamAnnotation(param);
    var head := "---@param " + Shown(param.name);
    assert r == head + ((if param.optional then "?" else "") + " " + LuaLSType(param));
  }

  /** The function of the builder's unit test: one string parameter, one number return. */
  function TestFunction(description: Description): Function {
    Function("test", None, Some(description), Given([Named("a", "string")]), Given([Named("b", "number")]))
  }

  /** The block of a top-level function, line by line, as the builder's unit test expects it. */
  lemma TopLevelBlockExample()
    ensures DeclarationRenderable(TestFunction(Single("test description")))
    ensures Block(TestFunction(Single("test description")), TopLevel, "test")
      == ["--- test description", "---@param a string", "---@return number b", "function test(a) end"]
  {
    var a, b := Named("a", "string"), Named("b", "number");
    ScalarIsVerbatim(a);
    ScalarIsVerbatim(b);
    assert ParamAnnotation(a) == "---@param a string";
    assert ReturnAnnotation(b) == "---@return number b";
    assert ParamAnnotations([a])[0] == "---@param a string";
    assert ReturnAnnotations([b])[0] == "---@return number b";
    assert ParamNames([a]) == ["a"];
    assert FunctionPrefix(TopLevel) == "";
    assert Signature("", "test", [a]) == "function test(a) end";
    var f := TestFunction(Single("test description"));
    assert f.description == Some(Single("test description"));
    assert "--- " + "test description" == "--- test description";
    assert DescriptionComments(Some(Single("test description")))[0] == "--- test description";
    assert ParamAnnotations([a]) == ["---@param a string"];
    assert ReturnAnnotations([b]) == ["---@return number b"];
  }

  /** Inside class `test` a method is declared `test:test` and a static method `test.test`. */
  lemma ClassSignatureExamples()
    ensures Signature(FunctionPrefix(FunctionRenderOptions(false, Some("test"))), "test", [Named("a", "string")])
      == "function test:test(a) end"
    ensures Signature(FunctionPrefix(FunctionRenderOptions(true, Some("test"))), "test", [Named("a", "string")])
      == "function test.test(a) end"
  {
    assert ParamNames([Named("a", "string")]) == ["a"];
  }

  /** A multi-line description becomes one comment line per line. */
  lemma MultiLineDescriptionExample()
    ensures DescriptionComments(Some(Multi(["Hello!", "World!"]))) == ["--- Hello!", "--- World!"]
  {
    var r := DescriptionComments(Some(Multi(["Hello!", "World!"])));
    assert r[0] == "--- Hello!" && r[1] == "--- World!";
  }

  /** A function without a description still gets one comment line, `--- undefined`. */
  lemma AbsentDescriptionExample()
    ensures DescriptionComments(None) == ["--- undefined"]
  {
  }

  /** A multi-line field description is joined with single spaces on the `@field` line. */
  lemma FieldExample()
    ensures FieldAnnotation(Named("test", "string").(description := Some(Multi(["Hello!", "World!"]))))
      == "---@field test string Hello! World!"
  {
    assert Join(" ", ["Hello!", "World!"]) == "Hello! World!";
  }

  /** The append-only buffer of document entries. */
  class DocumentBuilder {
    var lines: seq<string>

    constructor ()
      ensures lines == []
    {
      lines := [];
    }

    method Add(line: string)
      modifies this
      ensures lines == old(lines) + [line]
    {
      lines := lines + [line];
    }

    /** The entries joined by line breaks: its lines are the entries' lines, in order, and nothing else. */
    method Build() returns (text: string)
      ensures text == Join("\n", lines)
      ensures |lines| > 0 ==> Lines(text) == Flatten(LinesEach(lines))
    {
      text := Join("\n", lines);
      if |lines| > 0 {
        LinesOfJoin(lines);
      }
    }

    method BuildToLines() returns (entries: seq<string>)
      ensures entries == lines
    {
      entries := lines;
    }
  }

  /** The builder of one class block; its name and description are fixed at construction. */
  class ClassBuilder {
    const name: string
    const description: Option<Description>
    const doc: DocumentBuilder

    /** Starts the block with `---@class <name>` and the class description. */
    constructor (name: string, description: Option<Description>)
      ensures this.name == name && this.description == description
      ensures fresh(doc)
      ensures doc.lines == ["---@class " + name] + ClassDescriptionComments(description)
    {
      this.name := name;
      this.description := description;
      doc := new DocumentBuilder();
      new;
      doc.Add("---@class " + name);
      AddDescription(description);
    }

    method AddComment(comment: string)
      modifies doc
      ensures doc.lines == old(doc.lines) + ["--- " + comment]
    {
      doc.Add("--- " + comment);
    }

    method AddDescription(description: Option<Description>)
      modifies doc
      ensures doc.lines == old(doc.lines) + ClassDescriptionComments(description)
    {
      if description.None? || description == Some(Single("")) {
        return;
      }
      var descriptionLines := match description.value
        case Multi(lines) => lines
        case Single(text) => [text];
      var i := 0;
      while i < |descriptionLines|
        invariant 0 <= i <= |descriptionLines|
        invariant doc.lines == old(doc.lines) + seq(i, k requires 0 <= k < i => "--- " + descriptionLines[k])
      {
        AddComment(descriptionLines[i]);
        i := i + 1;
      }
    }

    method AddFunction(func: Function, staticMethod: bool := false)
      requires DeclarationRenderable(func)
      modifies doc
      ensures doc.lines == old(doc.lines) + [RenderFunctionDeclaration(func, FunctionRenderOptions(staticMethod, Some(name)))]
    {
      doc.Add(RenderFunctionDeclaration(func, FunctionRenderOptions(staticMethod, Some(name))));
    }

    method AddField(property: Property)
      requires Renderable(property)
      modifies doc
      ensures doc.lines == old(doc.lines) + [FieldAnnotation(property)]
    {
      doc.Add(FieldAnnotation(property));
    }

    method AddDeclaration()
      modifies doc
      ensures doc.lines == old(doc.lines) + [name + " = {}"]
    {
      doc.Add(name + " = {}");
    }
  }

  /** The builder of the whole annotation file. */
  class AnnotationBuilder {
    const doc: DocumentBuilder

    /** A new document holds exactly the `---@meta` marker. */
    constructor ()
      ensures fresh(doc) && doc.lines == ["---@meta"]
    {
      doc := new DocumentBuilder();
      new;
      doc.Add("---@meta");
    }

    method AddFunction(func: Function)
      requires DeclarationRenderable(func)
      modifies doc
      ensures doc.lines == old(doc.lines) + [RenderFunctionDeclaration(func, TopLevel)]
    {
      doc.Add(RenderFunctionDeclaration(func, TopLevel));
    }

    /** Copies the entries of a class block, in order, to the end of the document. */
    method AddClass(cls: ClassBuilder)
      requires cls.doc != doc
      modifies doc
      ensures doc.lines == old(doc.lines) + cls.doc.lines
    {
      var entries := cls.doc.BuildToLines();
      var i := 0;
      while i < |entries|
        invariant 0 <= i <= |entries|
        invariant doc.lines == old(doc.lines) + entries[..i]
      {
        doc.Add(entries[i]);
        i := i + 1;
      }
    }
  }
}

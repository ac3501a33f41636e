/**
 * The LuaLS type renderer: a total, structurally recursive map from a
 * Property to the type text of a LuaLS annotation (`fun(a:string):number`,
 * `any[][]`, `{foo:string}`, `table`, or the `type` string itself).
 */
module TypeRenderer {
  import opened Wrappers
  import opened Text
  import opened Properties

  /** `name`, `?` when optional, the separator, then the parameter's type. */
  function CreateParameterType(param: Property, returnSeparator: string := ":"): string
    requires Renderable(param)
    decreases param, 2
  {
    Shown(param.name) + (if param.optional then "?" else "") + returnSeparator + LuaLSType(param)
  }

  /** The `name[?]:type` texts of a parameter list, in order. */
  function ParameterTypes(parameters: seq<Property>): (r: seq<string>)
    requires AllRenderable(parameters)
    ensures |r| == |parameters|
    decreases parameters, 3
  {
    seq(|parameters|, i requires 0 <= i < |parameters| => CreateParameterType(parameters[i]))
  }

  /** The type texts of a list of return values, in order; their names are dropped. */
  function ReturnTypes(results: seq<Property>): (r: seq<string>)
    requires AllRenderable(results)
    ensures |r| == |results|
    decreases results, 3
  {
    seq(|results|, i requires 0 <= i < |results| => LuaLSType(results[i]))
  }

  /** The `name:type` texts of a list of table fields, in order. */
  function FieldTypes(fields: seq<Property>): (r: seq<string>)
    requires AllRenderable(fields)
    ensures |r| == |fields|
    decreases fields, 3
  {
    seq(|fields|, i requires 0 <= i < |fields| => Shown(fields[i].name) + ":" + LuaLSType(fields[i]))
  }

  /** `fun(<params>)`, followed by `:<returns>` when there are return values. */
  function ConvertFunctionProperty(property: Property): string
    requires IsFunctionProperty(property) && Renderable(property)
    decreases property, 0
  {
    var paramList := match property.parameters case Absent => [] case Given(ps) => ParameterTypes(ps);
    var returnList := match property.results case Absent => [] case Given(rs) => ReturnTypes(rs);
    if |returnList| == 0 then
      "fun(" + Join(",", paramList) + ")"
    else
      "fun(" + Join(",", paramList) + "):" + Join(",", returnList)
  }

  /**
   * `<items>[]`. Nested items `{type: "array", items: inner}` are rendered
   * as an array property themselves, which is this same function on `inner`.
   */
  function ConvertArrayProperty(items: ArrayItems): string {
    match items
    case Leaf(s) => s + "[]"
    case Nested(inner) => ConvertArrayProperty(inner) + "[]"
  }

  /** `table` without fields, otherwise `{name:type,...}`. */
  function ConvertTableProperty(property: Property): string
    requires IsTableProperty(property) && Renderable(property)
    decreases property, 0
  {
    match property.fields
    case Absent => "table"
    case Given(fields) => "{" + Join(",", FieldTypes(fields)) + "}"
  }

  /** The LuaLS type text of a property. */
  function LuaLSType(docType: Property): string
    requires Renderable(docType)
    decreases docType, 1
  {
    if IsFunctionProperty(docType) then ConvertFunctionProperty(docType)
    else if IsArrayProperty(docType) then ConvertArrayProperty(docType.items.value)
    else if IsTableProperty(docType) then ConvertTableProperty(docType)
    else docType.ty
  }

  /** A property whose type is not a kind tag renders as its `type` string, unchanged. */
  lemma ScalarIsVerbatim(p: Property)
    requires !IsFunctionProperty(p) && !IsArrayProperty(p) && !IsTableProperty(p)
    ensures Renderable(p) && LuaLSType(p) == p.ty
  {
  }

  /** A function type with neither parameters nor return values renders exactly `fun()`. */
  lemma BareFunctionType(p: Property)
    requires IsFunctionProperty(p) && p.parameters.OrEmpty() == [] && p.results.OrEmpty() == []
    ensures Renderable(p) && LuaLSType(p) == "fun()"
  {
  }

  /**
   * The parameter text starts with the name, has `?` right after the name
   * exactly when the parameter is optional, then the separator, and ends
   * with the parameter's type.
   */
  lemma OptionalMarker(param: Property, sep: string)
    requires Renderable(param) && |sep| > 0 && sep[0] != '?'
    ensures var r, n := CreateParameterType(param, sep), |Shown(param.name)|;
      var m := n + (if param.optional then 1 else 0);
      && n < |r| && r[..n] == Shown(param.name)
      && (r[n] == '?' <==> param.optional)
      && |r| == m + |sep| + |LuaLSType(param)|
      && r[m..m + |sep|] == sep && r[m + |sep|..] == LuaLSType(param)
  {
    var r := CreateParameterType(param, sep);
    var n := |Shown(param.name)|;
    assert r == Shown(param.name) + ((if param.optional then "?" else "") + sep + LuaLSType(param));
    assert r[n] == ((if param.optional then "?" else "") + sep + LuaLSType(param))[0];
  }

  /** Every level of array nesting adds one `[]` to the innermost type name. */
  lemma {:induction false} ArrayNesting(items: ArrayItems)
    ensures ConvertArrayProperty(items) == Base(items) + Brackets(Depth(items) + 1)
  {
    match items
    case Leaf(_) =>
    case Nested(inner) => ArrayNesting(inner);
  }

  /** An array property renders as its innermost type name followed by one `[]` per level. */
  lemma ArrayType(p: Property)
    requires IsArrayProperty(p) && p.items.Some?
    ensures Renderable(p) && LuaLSType(p) == Base(p.items.value) + Brackets(Depth(p.items.value) + 1)
  {
    ArrayNesting(p.items.value);
  }

  /** A table property without `fields` renders as the bare word `table`. */
  lemma GenericTable(p: Property)
    requires IsTableProperty(p) && p.fields.Absent?
    ensures Renderable(p) && LuaLSType(p) == "table"
  {
  }

  /** Every field of a table type appears in the rendered record as `name:type`. */
  lemma TableListsEveryField(p: Property, i: nat)
    requires IsTableProperty(p) && Renderable(p) && p.fields.Given? && i < |p.fields.entries|
    ensures var f := p.fields.entries[i];
      Renderable(f) && Contains(LuaLSType(p), Shown(f.name) + ":" + LuaLSType(f))
  {
    var texts := FieldTypes(p.fields.entries);
    JoinContains(",", texts, i);
    ContainsInside("{", Join(",", texts), "}", texts[i]);
    assert LuaLSType(p) == ConvertTableProperty(p) == "{" + Join(",", texts) + "}";
  }

  /** A property's own name, description and optional flag never change its type text. */
  lemma MetadataIgnored(p: Property, name: Option<string>, description: Option<Description>, optional: bool)
    requires Renderable(p)
    ensures var q := p.(name := name, description := description, optional := optional);
      Renderable(q) && LuaLSType(q) == LuaLSType(p)
  {
  }

  /** `rs` with the i-th entry renamed to `names[i]`. */
  function Renamed(rs: seq<Property>, names: seq<Option<string>>): (r: seq<Property>)
    requires |names| == |rs|
    ensures |r| == |rs|
  {
    seq(|rs|, i requires 0 <= i < |rs| => rs[i].(name := names[i]))
  }

  /**
   * Return values are rendered by type alone: renaming them leaves the
   * function type unchanged.
   */
  lemma ReturnNamesDropped(p: Property, names: seq<Option<string>>)
    requires IsFunctionProperty(p) && Renderable(p) && |names| == |p.results.OrEmpty()|
    ensures var q := p.(results := Given(Renamed(p.results.OrEmpty(), names)));
      Renderable(q) && LuaLSType(q) == LuaLSType(p)
  {
    var rs := p.results.OrEmpty();
    var q := p.(results := Given(Renamed(rs, names)));
    forall k | 0 <= k < |rs|
      ensures Renderable(Renamed(rs, names)[k]) && LuaLSType(Renamed(rs, names)[k]) == LuaLSType(rs[k])
    {
      assert rs[k] in p.results.entries;
      MetadataIgnored(rs[k], names[k], rs[k].description, rs[k].optional);
    }
    assert Renderable(q);
    assert ReturnTypes(Renamed(rs, names)) == ReturnTypes(rs);
  }

  /** `{name: "a", type: "string"}` and friends. */
  function Named(name: string, ty: string): Property {
    Simple(Some(name), ty)
  }

  /** A function type with the given parameters and return values. */
  function FunctionType(name: string, parameters: PropertyList, results: PropertyList): Property {
    Named(name, "function").(parameters := parameters, results := results)
  }

  /** The array outputs the renderer's unit tests pin. */
  lemma ArrayExamples()
    ensures LuaLSType(Named("test", "array").(items := Some(Leaf("any")))) == "any[]"
    ensures LuaLSType(Named("test", "array").(items := Some(Leaf("lest.MockResult")))) == "lest.MockResult[]"
    ensures LuaLSType(Named("test", "array").(items := Some(Nested(Leaf("any"))))) == "any[][]"
  {
  }

  /** `fun(a:string):number`, as the renderer's unit tests pin it. */
  lemma FunctionTypeExample()
    ensures LuaLSType(FunctionType("test", Given([Named("a", "string")]), Given([Named("b", "number")])))
      == "fun(a:string):number"
  {
    var p := FunctionType("test", Given([Named("a", "string")]), Given([Named("b", "number")]));
    assert CreateParameterType(Named("a", "string")) == "a:string";
    assert ParameterTypes([Named("a", "string")]) == ["a:string"];
    assert ReturnTypes([Named("b", "number")]) == ["number"];
    assert ConvertFunctionProperty(p) == "fun(" + "a:string" + "):" + "number";
  }

  /** `fun()` and `fun(a:string)`, as the renderer's unit tests pin them. */
  lemma NoReturnsExamples()
    ensures LuaLSType(FunctionType("test", Absent, Absent)) == "fun()"
    ensures LuaLSType(FunctionType("test", Given([Named("a", "string")]), Absent)) == "fun(a:string)"
  {
    var p := FunctionType("test", Given([Named("a", "string")]), Absent);
    assert CreateParameterType(Named("a", "string")) == "a:string";
    assert ParameterTypes([Named("a", "string")]) == ["a:string"];
    assert ConvertFunctionProperty(p) == "fun(" + "a:string" + ")";
  }

  /** `fun(a:string,b?:string)`, as the renderer's unit tests pin it. */
  lemma OptionalParameterExample()
    ensures LuaLSType(FunctionType("test", Given([Named("a", "string"), Named("b", "string").(optional := true)]), Absent))
      == "fun(a:string,b?:string)"
  {
    var ps := [Named("a", "string"), Named("b", "string").(optional := true)];
    var p := FunctionType("test", Given(ps), Absent);
    var texts := ["a:string", "b?:string"];
    assert CreateParameterType(ps[0]) == texts[0];
    assert CreateParameterType(ps[1]) == texts[1];
    assert ParameterTypes(ps)[0] == texts[0];
    assert ParameterTypes(ps)[1] == texts[1];
    assert ParameterTypes(ps) == texts;
    assert texts[1..] == [texts[1]];
    assert Join(",", texts) == texts[0] + "," + texts[1];
    assert ConvertFunctionProperty(p) == "fun(" + "a:string,b?:string" + ")";
  }

  /** A literal union and the generic table, as the renderer's unit tests pin them. */
  lemma VerbatimExamples()
    ensures LuaLSType(Named("test", "\"test\" | \"test2\"")) == "\"test\" | \"test2\""
    ensures LuaLSType(Named("test", "table")) == "table"
  {
  }

  /** The fields of the renderer's table test. */
  function TableTestFields(): seq<Property> {
    [Named("foo", "string"), Named("bar", "number"), Named("baz", "boolean"),
     FunctionType("qux", Given([Named("a", "string")]), Given([Named("b", "number")]))]
  }

  lemma TableTestFieldTypes()
    ensures AllRenderable(TableTestFields())
    ensures var t := FieldTypes(TableTestFields());
      && t[0] == "foo:string" && t[1] == "bar:number" && t[2] == "baz:boolean"
  {
  }

  lemma TableTestFunctionField()
    ensures AllRenderable(TableTestFields())
    ensures FieldTypes(TableTestFields())[3] == "qux:fun(a:string):number"
  {
    FunctionTypeExample();
  }

  /**
   * The record type of the renderer's table test,
   * `{foo:string,bar:number,baz:boolean,qux:fun(a:string):number}`, written
   * as the concatenation of its pieces.
   */
  lemma TableExample()
    ensures LuaLSType(Named("test", "table").(fields := Given(TableTestFields())))
      == "{" + ("foo:string" + "," + ("bar:number" + "," + ("baz:boolean" + "," + "qux:fun(a:string):number"))) + "}"
  {
    TableTestFieldTypes();
    TableTestFunctionField();
    var texts := ["foo:string", "bar:number", "baz:boolean", "qux:fun(a:string):number"];
    assert FieldTypes(TableTestFields()) == texts;
    assert texts[1..][1..][1..] == [texts[3]];
    assert Join(",", texts[1..][1..]) == texts[2] + "," + texts[3];
    assert Join(",", texts[1..]) == texts[1] + "," + (texts[2] + "," + texts[3]);
    var p := Named("test", "table").(fields := Given(TableTestFields()));
    assert LuaLSType(p) == ConvertTableProperty(p) == "{" + Join(",", texts) + "}";
  }
}

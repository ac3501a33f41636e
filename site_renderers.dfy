/**
 * The documentation site's human-readable signatures: `fun(a: string): number`,
 * with `, ` between entries, `: ` before types, `?` after optional return
 * types, arrays as `T[]…[]`, and no table case.
 */
module SiteRenderers {
  import opened Wrappers
  import opened Text
  import opened Properties
  import TypeRenderer

  /**
   * The text of an array type: `${items}` followed by one `[]` per array
   * level. Missing items print as `undefined`.
   */
  function ArrayTypeText(items: Option<ArrayItems>): string {
    match items
    case None => "undefined" + Brackets(1)
    case Some(it) => Base(it) + Brackets(Depth(it) + 1)
  }

  /**
   * `renderArrayType`: one `[]` to start with, one more for each nested
   * array description the loop steps into.
   */
  method RenderArrayType(items: Option<ArrayItems>) returns (text: string)
    ensures text == ArrayTypeText(items)
  {
    var arrayBrackets := "[]";
    var current := items;
    ghost var levels: nat := 0;
    while current.Some? && current.value.Nested?
      invariant current.Some? <==> items.Some?
      invariant items.None? ==> levels == 0
      invariant arrayBrackets == Brackets(levels + 1)
      invariant items.Some? ==>
        Base(current.value) == Base(items.value) && Depth(current.value) + levels == Depth(items.value)
      decreases if current.Some? then Depth(current.value) else 0
    {
      arrayBrackets := arrayBrackets + "[]";
      current := Some(current.value.items);
      levels := levels + 1;
    }
    text := match current
      case None => "undefined" + arrayBrackets
      case Some(it) => it.typeName + arrayBrackets;
  }

  /** For present items the site writes the same array type as the LuaLS type renderer. */
  lemma ArrayTypeAgreesWithRenderer(items: ArrayItems)
    ensures ArrayTypeText(Some(items)) == TypeRenderer.ConvertArrayProperty(items)
  {
    TypeRenderer.ArrayNesting(items);
  }

  /** `name[?]: type` for each parameter. */
  function ParameterEntries(parameters: seq<Property>): (r: seq<string>)
    ensures |r| == |parameters|
    decreases parameters, 2
  {
    seq(|parameters|, i requires 0 <= i < |parameters| =>
      Shown(parameters[i].name) + (if parameters[i].optional then "?" else "") + ": " + RenderType(parameters[i]))
  }

  /** `type[?]` for each return value. */
  function ReturnEntries(results: seq<Property>): (r: seq<string>)
    ensures |r| == |results|
    decreases results, 2
  {
    seq(|results|, i requires 0 <= i < |results| =>
      RenderType(results[i]) + (if results[i].optional then "?" else ""))
  }

  function RenderParameterSignature(parameters: seq<Property>): string
    decreases parameters, 3
  {
    Join(", ", ParameterEntries(parameters))
  }

  function RenderReturnSignature(results: seq<Property>): string
    decreases results, 3
  {
    Join(", ", ReturnEntries(results))
  }

  /** `fun(<params>)`, then `: <returns>` when there are return values. */
  function RenderFunctionType(p: Property): string
    decreases p, 0
  {
    var paramSignature := match p.parameters
      case Absent => ""
      case Given(ps) => if |ps| > 0 then RenderParameterSignature(ps) else "";
    var returnSignature := match p.results
      case Absent => ""
      case Given(rs) => if |rs| > 0 then ": " + RenderReturnSignature(rs) else "";
    "fun(" + paramSignature + ")" + returnSignature
  }

  /** The site's type text: functions and arrays rendered, everything else (tables too) verbatim. */
  function RenderType(p: Property): string
    decreases p, 1
  {
    if IsFunctionProperty(p) then RenderFunctionType(p)
    else if IsArrayProperty(p) then ArrayTypeText(p.items)
    else p.ty
  }

  /** Anything but a function or an array, a table included, is its `type` string. */
  lemma RenderTypeVerbatim(p: Property)
    requires !IsFunctionProperty(p) && !IsArrayProperty(p)
    ensures RenderType(p) == p.ty
    ensures IsTableProperty(p) ==> RenderType(p) == "table"
  {
  }

  /** A function type shows `: ` and its returns exactly when it has return values. */
  lemma FunctionTypeShape(p: Property)
    requires IsFunctionProperty(p)
    ensures var ps, rs := p.parameters.OrEmpty(), p.results.OrEmpty();
      RenderType(p) == "fun(" + Join(", ", ParameterEntries(ps)) + ")"
                       + (if |rs| > 0 then ": " + Join(", ", ReturnEntries(rs)) else "")
  {
    var ps, rs := p.parameters.OrEmpty(), p.results.OrEmpty();
    var paramSignature := if |ps| > 0 then RenderParameterSignature(ps) else "";
    var returnSignature := if |rs| > 0 then ": " + RenderReturnSignature(rs) else "";
    assert RenderFunctionType(p) == "fun(" + paramSignature + ")" + returnSignature;
    assert paramSignature == Join(", ", ParameterEntries(ps));
  }

  /** A parameter entry: the name, `?` exactly when optional, `: `, then the type. */
  lemma ParameterEntryShape(parameters: seq<Property>, i: nat)
    requires i < |parameters|
    ensures var e, head, t := ParameterEntries(parameters)[i], Shown(parameters[i].name), RenderType(parameters[i]);
      var m := |head| + (if parameters[i].optional then 1 else 0);
      && |head| < |e| && e[..|head|] == head
      && (e[|head|] == '?' <==> parameters[i].optional)
      && |e| == m + 2 + |t| && e[m..m + 2] == ": " && e[m + 2..] == t
  {
    var q := parameters[i];
    var head := Shown(q.name);
    var e := ParameterEntries(parameters)[i];
    assert e == head + ((if q.optional then "?" else "") + ": " + RenderType(q));
  }

  /** A return entry: the type, then `?` exactly when optional. */
  lemma ReturnEntryShape(results: seq<Property>, i: nat)
    requires i < |results|
    ensures var e, t := ReturnEntries(results)[i], RenderType(results[i]);
      && |t| <= |e| && e[..|t|] == t
      && (results[i].optional ==> |e| == |t| + 1 && e[|t|] == '?')
      && (!results[i].optional ==> e == t)
  {
  }

  /** `fun(a: string): number` */
  lemma FunctionTypeExample()
    ensures RenderType(TypeRenderer.FunctionType("f", Given([TypeRenderer.Named("a", "string")]), Given([Simple(None, "number")])))
      == "fun(" + ("a" + "" + ": " + "string") + ")" + ": " + ("number" + "")
  {
    var a := TypeRenderer.Named("a", "string");
    var n := Simple(None, "number");
    assert ParameterEntries([a]) == ["a" + "" + ": " + "string"];
    assert ReturnEntries([n]) == ["number" + ""];
  }
}

/**
 * The older copy of the site renderers. Array `items` are typed as a plain
 * string there, so an array renders as `${items}[]` with a single bracket
 * pair, whatever the items hold.
 */
module FunctionRendererHelpers {
  import opened Wrappers
  import opened Text
  import opened Properties
  import SiteRenderers

  /** `${items}`: a type name as is, a nested array description as `[object Object]`, nothing as `undefined`. */
  function ItemsText(items: Option<ArrayItems>): string {
    match items
    case None => "undefined"
    case Some(Leaf(s)) => s
    case Some(Nested(_)) => "[object Object]"
  }

  function RenderArrayType(p: Property): string {
    ItemsText(p.items) + "[]"
  }

  function ParameterEntries(parameters: seq<Property>): (r: seq<string>)
    ensures |r| == |parameters|
    decreases parameters, 2
  {
    seq(|parameters|, i requires 0 <= i < |parameters| =>
      Shown(parameters[i].name) + (if parameters[i].optional then "?" else "") + ": " + RenderType(parameters[i]))
  }

  function ReturnEntries(results: seq<Property>): (r: seq<string>)
    ensures |r| == |results|
    decreases results, 2
  {
    seq(|results|, i requires 0 <= i < |results| =>
      RenderType(results[i]) + (if results[i].optional then "?" else ""))
  }

  function RenderParameterSignature(parameters: seq<Property>): string
    decreases parameters, 3
  {
    Join(", ", ParameterEntries(parameters))
  }

  function RenderReturnSignature(results: seq<Property>): string
    decreases results, 3
  {
    Join(", ", ReturnEntries(results))
  }

  function RenderFunctionType(p: Property): string
    decreases p, 0
  {
    var paramSignature := match p.parameters
      case Absent => ""
      case Given(ps) => if |ps| > 0 then RenderParameterSignature(ps) else "";
    var returnSignature := match p.results
      case Absent => ""
      case Given(rs) => if |rs| > 0 then ": " + RenderReturnSignature(rs) else "";
    "fun(" + paramSignature + ")" + returnSignature
  }

  function RenderType(p: Property): string
    decreases p, 1
  {
    if IsFunctionProperty(p) then RenderFunctionType(p)
    else if IsArrayProperty(p) then RenderArrayType(p)
    else p.ty
  }

  /** An array always gets exactly one bracket pair. */
  lemma SingleBracketPair(p: Property)
    requires IsArrayProperty(p)
    ensures var t := RenderType(p); |t| >= 2 && t[|t| - 2..] == "[]"
    ensures RenderType(p) == ItemsText(p.items) + "[]"
  {
  }

  /** Nested array items print as `[object Object][]`. */
  lemma NestedItemsExample()
    ensures RenderType(Simple(None, "array").(items := Some(Nested(Leaf("string"))))) == "[object Object]" + "[]"
  {
  }

  /** Arrays whose items are a plain type name (or absent), at any depth of the property. */
  predicate FlatArrays(p: Property) {
    if IsFunctionProperty(p) then
      && (p.parameters.Given? ==> forall q | q in p.parameters.entries :: FlatArrays(q))
      && (p.results.Given? ==> forall q | q in p.results.entries :: FlatArrays(q))
    else if IsArrayProperty(p) then
      p.items.None? || p.items.value.Leaf?
    else
      true
  }

  /**
   * Where every array holds plain type names, this copy and the current
   * site renderer produce the same text.
   */
  lemma {:induction false} AgreesWithSiteRenderer(p: Property)
    requires FlatArrays(p)
    ensures RenderType(p) == SiteRenderers.RenderType(p)
    decreases p
  {
    if IsFunctionProperty(p) {
      var ps := p.parameters.OrEmpty();
      var rs := p.results.OrEmpty();
      forall q | q in ps
        ensures RenderType(q) == SiteRenderers.RenderType(q)
      {
        AgreesWithSiteRenderer(q);
      }
      forall q | q in rs
        ensures RenderType(q) == SiteRenderers.RenderType(q)
      {
        AgreesWithSiteRenderer(q);
      }
      assert ParameterEntries(ps) == SiteRenderers.ParameterEntries(ps);
      assert ReturnEntries(rs) == SiteRenderers.ReturnEntries(rs);
      assert RenderParameterSignature(ps) == SiteRenderers.RenderParameterSignature(ps);
      assert RenderReturnSignature(rs) == SiteRenderers.RenderReturnSignature(rs);
      assert RenderFunctionType(p) == SiteRenderers.RenderFunctionType(p);
    } else if IsArrayProperty(p) && p.items.Some? {
      assert Brackets(1) == "[]";
    }
  }
}

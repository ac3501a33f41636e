/**
 * The documentation data model: a Property describes a typed, named,
 * optionally documented value (a parameter, a return value or a field);
 * its `type` string is either a type written in LuaLS syntax or one of the
 * three reserved kind tags "function", "array" and "table".
 */
module Properties {
  import opened Wrappers

  /** A description is a single string or an ordered list of lines. */
  datatype Description = Single(text: string) | Multi(lines: seq<string>)

  /**
   * What an array holds: a type name, or another array description
   * `{type: "array", items}`, to any depth.
   */
  datatype ArrayItems = Leaf(typeName: string) | Nested(items: ArrayItems)

  /** An optional list of properties (`parameters?`, `returns?`, `fields?`). */
  datatype PropertyList = Absent | Given(entries: seq<Property>) {
    /** The entries, or the empty list when the list is absent. */
    function OrEmpty(): seq<Property> {
      match this
      case Absent => []
      case Given(ps) => ps
    }
  }

  /**
   * One property. `ty` is the TypeScript `type` field. The members of the
   * specialised shapes (FunctionProperty: `static`, `parameters`, `returns`, here `results`;
   * ArrayProperty: `items`; TableProperty: `fields`) are all present here and
   * only read when `ty` selects that shape. An absent `optional` is false.
   */
  datatype Property = Property(
    ty: string,
    name: Option<string>,
    description: Option<Description>,
    optional: bool,
    isStatic: bool,
    parameters: PropertyList,
    results: PropertyList,
    items: Option<ArrayItems>,
    fields: PropertyList)

  /** A top-level function or a method: every alias repeats the whole declaration. */
  datatype Function = Function(
    name: string,
    aliases: Option<seq<string>>,
    description: Option<Description>,
    parameters: PropertyList,
    results: PropertyList)

  /** A documented class: data fields (possibly function-typed) and methods. */
  datatype Class = Class(
    name: string,
    description: Option<Description>,
    fields: PropertyList,
    methods: Option<seq<Function>>)

  /** A property that carries only a type (and possibly a name). */
  function Simple(name: Option<string>, ty: string): Property {
    Property(ty, name, None, false, false, Absent, Absent, None, Absent)
  }

  predicate IsFunctionProperty(p: Property) {
    p.ty == "function"
  }

  predicate IsArrayProperty(p: Property) {
    p.ty == "array"
  }

  predicate IsTableProperty(p: Property) {
    p.ty == "table"
  }

  /** The three kind tags are mutually exclusive: at most one guard holds. */
  lemma KindsExclusive(p: Property)
    ensures !(IsFunctionProperty(p) && IsArrayProperty(p))
    ensures !(IsFunctionProperty(p) && IsTableProperty(p))
    ensures !(IsArrayProperty(p) && IsTableProperty(p))
  {
  }

  /** The number of `{type: "array"}` wrappers around the innermost type name. */
  function Depth(items: ArrayItems): nat {
    match items
    case Leaf(_) => 0
    case Nested(inner) => Depth(inner) + 1
  }

  /** The innermost type name of (possibly nested) array items. */
  function Base(items: ArrayItems): string {
    match items
    case Leaf(s) => s
    case Nested(inner) => Base(inner)
  }

  /** `n` copies of `[]`. */
  function Brackets(n: nat): (r: string)
    ensures |r| == 2 * n
  {
    if n == 0 then "" else Brackets(n - 1) + "[]"
  }

  /** `items` nested `n` times inside array descriptions. */
  function NestedItems(base: string, n: nat): (r: ArrayItems)
    ensures Depth(r) == n && Base(r) == base
  {
    if n == 0 then Leaf(base) else Nested(NestedItems(base, n - 1))
  }

  /**
   * The inputs on which the LuaLS type renderer does not fault: an array
   * property it reaches has `items`. It descends where the renderer does:
   * into the parameters and returns of a function and the fields of a table.
   */
  predicate Renderable(p: Property) {
    if IsFunctionProperty(p) then
      && (p.parameters.Given? ==> forall q | q in p.parameters.entries :: Renderable(q))
      && (p.results.Given? ==> forall q | q in p.results.entries :: Renderable(q))
    else if IsArrayProperty(p) then
      p.items.Some?
    else if IsTableProperty(p) then
      p.fields.Given? ==> forall q | q in p.fields.entries :: Renderable(q)
    else
      true
  }

  /** Every property of a list is renderable. */
  predicate AllRenderable(ps: seq<Property>) {
    forall q | q in ps :: Renderable(q)
  }
}

/**
 * The earlier draft of the LuaLS type renderer (`convertType`).
 *
 * As written, the draft asks its imported `Docs` namespace for array and
 * table guards that the namespace does not define, so every node that is
 * not a function type faults (`ConvertTypeAsWritten`). `ConvertType` is the
 * draft with those guards read as the documentation model's own.
 *
 * Read that way it agrees with the current renderer except on three
 * inputs:
 * - a function type with neither a parameter nor a return list renders as
 *   `function` instead of `fun()`;
 * - a table type without `fields` faults instead of rendering `table`;
 * - the test for "no return values" looks at the joined return text, not
 *   the return list, so a single return value whose type text is empty
 *   loses its `:`.
 */
module ConvertTypeDraft {
  import opened Wrappers
  import opened Text
  import opened Properties
  import TypeRenderer

  /**
   * The inputs on which the draft does not fault: every array it reaches has
   * `items` and every table it reaches has `fields`.
   */
  predicate DraftRenderable(p: Property) {
    if IsFunctionProperty(p) then
      && (p.parameters.Given? ==> forall q | q in p.parameters.entries :: DraftRenderable(q))
      && (p.results.Given? ==> forall q | q in p.results.entries :: DraftRenderable(q))
    else if IsArrayProperty(p) then
      p.items.Some?
    else if IsTableProperty(p) then
      p.fields.Given? && forall q | q in p.fields.entries :: DraftRenderable(q)
    else
      true
  }

  predicate AllDraftRenderable(ps: seq<Property>) {
    forall q | q in ps :: DraftRenderable(q)
  }

  /** `name[?]:type` for each parameter, in order. */
  function DraftParameters(params: seq<Property>): (r: seq<string>)
    requires AllDraftRenderable(params)
    ensures |r| == |params|
    decreases params, 1
  {
    seq(|params|, i requires 0 <= i < |params| =>
      Shown(params[i].name) + (if params[i].optional then "?" else "") + ":" + ConvertType(params[i]))
  }

  /** The type text of each return value, in order. */
  function DraftReturns(results: seq<Property>): (r: seq<string>)
    requires AllDraftRenderable(results)
    ensures |r| == |results|
    decreases results, 1
  {
    seq(|results|, i requires 0 <= i < |results| => ConvertType(results[i]))
  }

  /** `name:type` for each table field, in order. */
  function DraftFields(fields: seq<Property>): (r: seq<string>)
    requires AllDraftRenderable(fields)
    ensures |r| == |fields|
    decreases fields, 1
  {
    seq(|fields|, i requires 0 <= i < |fields| => Shown(fields[i].name) + ":" + ConvertType(fields[i]))
  }

  /** The draft's type text of a property. Its array case is the current renderer's. */
  function ConvertType(docType: Property): string
    requires DraftRenderable(docType)
    decreases docType, 0
  {
    if IsFunctionProperty(docType) then
      if docType.parameters.Absent? && docType.results.Absent? then "function"
      else
        var paramList := Join(",", match docType.parameters case Absent => [] case Given(ps) => DraftParameters(ps));
        var returnList := Join(",", match docType.results case Absent => [] case Given(rs) => DraftReturns(rs));
        if |returnList| == 0 then "fun(" + paramList + ")"
        else "fun(" + paramList + "):" + returnList
    else if IsArrayProperty(docType) then
      TypeRenderer.ConvertArrayProperty(docType.items.value)
    else if IsTableProperty(docType) then
      "{" + Join(",", DraftFields(docType.fields.entries)) + "}"
    else
      docType.ty
  }

  /**
   * The inputs outside the three disagreements, at every depth: no function
   * type lacks both lists or has exactly one return value of empty type,
   * every array has `items` and every table has `fields`.
   */
  predicate Agreeable(p: Property) {
    if IsFunctionProperty(p) then
      && !(p.parameters.Absent? && p.results.Absent?)
      && !(p.results.Given? && |p.results.entries| == 1 && p.results.entries[0].ty == "")
      && (p.parameters.Given? ==> forall q | q in p.parameters.entries :: Agreeable(q))
      && (p.results.Given? ==> forall q | q in p.results.entries :: Agreeable(q))
    else if IsArrayProperty(p) then
      p.items.Some?
    else if IsTableProperty(p) then
      p.fields.Given? && forall q | q in p.fields.entries :: Agreeable(q)
    else
      true
  }

  /** A property with a non-empty `type` never renders as the empty string. */
  lemma RenderedNonEmpty(p: Property)
    requires Renderable(p) && p.ty != ""
    ensures |TypeRenderer.LuaLSType(p)| > 0
  {
    if IsArrayProperty(p) {
      match p.items.value
      case Leaf(_) =>
      case Nested(_) =>
    }
  }

  /** A join is non-empty when its first part is, or when it has two parts and a non-empty separator. */
  lemma JoinNonEmpty(sep: string, xs: seq<string>)
    requires |xs| > 0
    requires |xs[0]| > 0 || (|xs| > 1 && |sep| > 0)
    ensures |Join(sep, xs)| > 0
  {
  }

  /** Outside the three disagreements the draft and the current renderer produce the same text. */
  lemma {:induction false} DraftAgreesWithRenderer(p: Property)
    requires Agreeable(p)
    ensures DraftRenderable(p) && Renderable(p) && ConvertType(p) == TypeRenderer.LuaLSType(p)
    decreases p
  {
    if IsFunctionProperty(p) {
      var ps := p.parameters.OrEmpty();
      var rs := p.results.OrEmpty();
      forall q | q in ps
        ensures DraftRenderable(q) && Renderable(q) && ConvertType(q) == TypeRenderer.LuaLSType(q)
      {
        DraftAgreesWithRenderer(q);
      }
      forall q | q in rs
        ensures DraftRenderable(q) && Renderable(q) && ConvertType(q) == TypeRenderer.LuaLSType(q)
      {
        DraftAgreesWithRenderer(q);
      }
      assert DraftParameters(ps) == TypeRenderer.ParameterTypes(ps);
      assert DraftReturns(rs) == TypeRenderer.ReturnTypes(rs);
      if |rs| == 1 {
        assert rs[0] in rs;
        RenderedNonEmpty(rs[0]);
        JoinNonEmpty(",", DraftReturns(rs));
      } else if |rs| > 1 {
        JoinNonEmpty(",", DraftReturns(rs));
      }
    } else if IsTableProperty(p) {
      var fs := p.fields.entries;
      forall q | q in fs
        ensures DraftRenderable(q) && Renderable(q) && ConvertType(q) == TypeRenderer.LuaLSType(q)
      {
        DraftAgreesWithRenderer(q);
      }
      assert DraftFields(fs) == TypeRenderer.FieldTypes(fs);
    }
  }

  /**
   * A function type without parameter and return lists: the draft renders
   * `function`, the current renderer (and the draft's own unit test) `fun()`.
   */
  lemma BareFunctionDisagreement(p: Property)
    requires IsFunctionProperty(p) && p.parameters.Absent? && p.results.Absent?
    ensures DraftRenderable(p) && ConvertType(p) == "function"
    ensures Renderable(p) && TypeRenderer.LuaLSType(p) == "fun()"
  {
  }

  /**
   * One return value whose type is the empty string: the draft drops the
   * `:`, the current renderer keeps it.
   */
  lemma EmptyReturnTypeDisagreement()
    ensures var p := Simple(None, "function").(results := Given([Simple(None, "")]));
      && DraftRenderable(p) && ConvertType(p) == "fun()"
      && Renderable(p) && TypeRenderer.LuaLSType(p) == "fun():"
      && ConvertTypeAsWritten(p).None?
  {
    var p := Simple(None, "function").(results := Given([Simple(None, "")]));
    assert DraftReturns([Simple(None, "")]) == [""];
    assert TypeRenderer.ReturnTypes([Simple(None, "")]) == [""];
  }

  /** True when every element is present. */
  predicate AllPresent(xs: seq<Option<string>>) {
    forall i | 0 <= i < |xs| :: xs[i].Some?
  }

  /** The present elements' values. */
  function Values(xs: seq<Option<string>>): (r: seq<string>)
    requires AllPresent(xs)
    ensures |r| == |xs|
  {
    seq(|xs|, i requires 0 <= i < |xs| => xs[i].value)
  }

  /** The as-written parameter texts; an element is absent when converting its type faults. */
  function ParametersAsWritten(params: seq<Property>): (r: seq<Option<string>>)
    ensures |r| == |params|
    decreases params, 1
  {
    seq(|params|, i requires 0 <= i < |params| =>
      match ConvertTypeAsWritten(params[i])
      case None => None
      case Some(t) => Some(Shown(params[i].name) + (if params[i].optional then "?" else "") + ":" + t))
  }

  /** The as-written return texts; an element is absent when converting its type faults. */
  function ReturnsAsWritten(results: seq<Property>): (r: seq<Option<string>>)
    ensures |r| == |results|
    decreases results, 1
  {
    seq(|results|, i requires 0 <= i < |results| => ConvertTypeAsWritten(results[i]))
  }

  /**
   * The draft as written: the imported namespace has no array or table
   * guard, so any node that is not a function type faults (`None`), and a
   * function type faults when any of its parameters or returns does.
   */
  function ConvertTypeAsWritten(docType: Property): Option<string>
    decreases docType, 0
  {
    if !IsFunctionProperty(docType) then None
    else if docType.parameters.Absent? && docType.results.Absent? then Some("function")
    else
      var paramTexts := match docType.parameters case Absent => [] case Given(ps) => ParametersAsWritten(ps);
      var returnTexts := match docType.results case Absent => [] case Given(rs) => ReturnsAsWritten(rs);
      if !AllPresent(paramTexts) || !AllPresent(returnTexts) then None
      else
        var paramList := Join(",", Values(paramTexts));
        var returnList := Join(",", Values(returnTexts));
        if |returnList| == 0 then Some("fun(" + paramList + ")")
        else Some("fun(" + paramList + "):" + returnList)
  }

  /** Every node the draft reaches is a function type. */
  predicate FunctionsOnly(p: Property) {
    && IsFunctionProperty(p)
    && (p.parameters.Given? ==> forall q | q in p.parameters.entries :: FunctionsOnly(q))
    && (p.results.Given? ==> forall q | q in p.results.entries :: FunctionsOnly(q))
  }

  /**
   * As written, the draft produces a text exactly on the properties made of
   * function types alone, and there the text is the corrected draft's.
   */
  lemma {:induction false} AsWrittenDomain(p: Property)
    ensures ConvertTypeAsWritten(p).Some? <==> FunctionsOnly(p)
    ensures ConvertTypeAsWritten(p).Some? ==> DraftRenderable(p) && ConvertTypeAsWritten(p).value == ConvertType(p)
    decreases p
  {
    if IsFunctionProperty(p) {
      var ps, rs := p.parameters.OrEmpty(), p.results.OrEmpty();
      forall q | q in ps
        ensures ConvertTypeAsWritten(q).Some? <==> FunctionsOnly(q)
        ensures ConvertTypeAsWritten(q).Some? ==> DraftRenderable(q) && ConvertTypeAsWritten(q).value == ConvertType(q)
      {
        AsWrittenDomain(q);
      }
      forall q | q in rs
        ensures ConvertTypeAsWritten(q).Some? <==> FunctionsOnly(q)
        ensures ConvertTypeAsWritten(q).Some? ==> DraftRenderable(q) && ConvertTypeAsWritten(q).value == ConvertType(q)
      {
        AsWrittenDomain(q);
      }
      if !(p.parameters.Absent? && p.results.Absent?) {
        assert AllPresent(ParametersAsWritten(ps)) <==> forall q | q in ps :: FunctionsOnly(q) by {
          if AllPresent(ParametersAsWritten(ps)) {
            forall q | q in ps ensures FunctionsOnly(q) {
              var i :| 0 <= i < |ps| && ps[i] == q;
              assert ParametersAsWritten(ps)[i].Some?;
            }
          } else {
            var i :| 0 <= i < |ps| && ParametersAsWritten(ps)[i].None?;
            assert ps[i] in ps;
          }
        }
        assert AllPresent(ReturnsAsWritten(rs)) <==> forall q | q in rs :: FunctionsOnly(q) by {
          if AllPresent(ReturnsAsWritten(rs)) {
            forall q | q in rs ensures FunctionsOnly(q) {
              var i :| 0 <= i < |rs| && rs[i] == q;
              assert ReturnsAsWritten(rs)[i].Some?;
            }
          } else {
            var i :| 0 <= i < |rs| && ReturnsAsWritten(rs)[i].None?;
            assert rs[i] in rs;
          }
        }
        if ConvertTypeAsWritten(p).Some? {
          assert Values(ParametersAsWritten(ps)) == DraftParameters(ps);
          assert Values(ReturnsAsWritten(rs)) == DraftReturns(rs);
        }
      }
    }
  }

  /**
   * A plain `string` property: as written the draft faults on it, while the
   * corrected draft (and the class generator's unit test) expect `string`.
   */
  lemma ScalarFaultsAsWritten()
    ensures ConvertTypeAsWritten(Simple(None, "string")).None?
    ensures DraftRenderable(Simple(None, "string")) && ConvertType(Simple(None, "string")) == "string"
  {
  }
}

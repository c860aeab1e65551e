/**
 * The declaration a documentation block is attached to: a closed sum of
 * seven forms, each carrying only its own fields, with one accessor per
 * field that answers for exactly the forms carrying it.
 *
 * Dafny needs a field name to have one type across constructors, so the
 * required and the optional versions of a field get different names:
 * `block`/`optBlock` and `returnType`/`optReturns`; `invariant` is a
 * reserved word, hence `invariantExpr`.
 */
module Elements {
  import opened Wrappers

  /** A type, kept as its source text. */
  type Ty = string

  /** A parameter: its type and, when written, its name. */
  type Param = (Ty, Option<string>)

  datatype AssociatedElement =
    | Rule(name: string, params: seq<Param>, filters: Option<string>, block: string)
    | Invariant(name: string, params: seq<Param>, invariantExpr: string, filters: Option<string>, optBlock: Option<string>)
    | Function(name: string, params: seq<Param>, optReturns: Option<string>, block: string)
    | Definition(name: string, params: seq<Param>, returnType: string, definition: string)
    | Ghost(name: string, tyList: seq<Ty>, returnType: string, optBlock: Option<string>)
    | GhostMapping(name: string, mapping: string, optBlock: Option<string>)
    | Methods(block: string)

  /** The declaration keywords, one per form except that both ghost forms share `ghost`. */
  const Keywords: set<string> := {"rule", "invariant", "function", "definition", "ghost", "methods"}

  /** `Display for AssociatedElement`: the keyword that introduces the declaration. */
  function Keyword(e: AssociatedElement): (k: string)
    ensures k in Keywords
    ensures k == "ghost" <==> e.Ghost? || e.GhostMapping?
    ensures k == "methods" <==> e.Methods?
  {
    match e
    case Rule(_, _, _, _) => "rule"
    case Invariant(_, _, _, _, _) => "invariant"
    case Function(_, _, _, _) => "function"
    case Definition(_, _, _, _) => "definition"
    case Ghost(_, _, _, _) | GhostMapping(_, _, _) => "ghost"
    case Methods(_) => "methods"
  }

  /** `name`: every form but `methods` is named. */
  function NameOf(e: AssociatedElement): (r: Option<string>)
    ensures r.None? <==> e.Methods?
    ensures r.Some? ==> r.value == e.name
  {
    if e.Methods? then None else Some(e.name)
  }

  /** `params`: the named parameter list of rules, invariants, functions and definitions. */
  function ParamsOf(e: AssociatedElement): (r: Option<seq<Param>>)
    ensures r.Some? <==> e.Rule? || e.Invariant? || e.Function? || e.Definition?
    ensures r.Some? ==> r.value == e.params
  {
    match e
    case Rule(_, params, _, _) => Some(params)
    case Invariant(_, params, _, _, _) => Some(params)
    case Function(_, params, _, _) => Some(params)
    case Definition(_, params, _, _) => Some(params)
    case _ => None
  }

  /**
   * `block`: always present for rules, functions and methods, never for
   * definitions (whose body is the definition expression), and present
   * for invariants and ghosts exactly when one was written.
   */
  function BlockOf(e: AssociatedElement): (r: Option<string>)
    ensures e.Rule? || e.Function? || e.Methods? ==> r == Some(e.block)
    ensures e.Invariant? || e.Ghost? || e.GhostMapping? ==> r == e.optBlock
    ensures e.Definition? ==> r.None?
  {
    match e
    case Rule(_, _, _, block) => Some(block)
    case Function(_, _, _, block) => Some(block)
    case Methods(block) => Some(block)
    case Invariant(_, _, _, _, block) => block
    case Ghost(_, _, _, block) => block
    case GhostMapping(_, _, block) => block
    case Definition(_, _, _, _) => None
  }

  /** `returns`: required for definitions and ghosts, optional for functions, absent otherwise. */
  function ReturnsOf(e: AssociatedElement): (r: Option<string>)
    ensures e.Definition? || e.Ghost? ==> r == Some(e.returnType)
    ensures e.Function? ==> r == e.optReturns
    ensures r.Some? ==> e.Definition? || e.Ghost? || e.Function?
  {
    match e
    case Function(_, _, ret, _) => ret
    case Definition(_, _, ret, _) => Some(ret)
    case Ghost(_, _, ret, _) => Some(ret)
    case _ => None
  }

  /** `ty_list`: the parameter types of a function-shaped ghost. */
  function TyListOf(e: AssociatedElement): (r: Option<seq<Ty>>)
    ensures r.Some? <==> e.Ghost?
    ensures r.Some? ==> r.value == e.tyList
  {
    match e
    case Ghost(_, tyList, _, _) => Some(tyList)
    case _ => None
  }

  /** `filters`: the optional filter clause of rules and invariants. */
  function FiltersOf(e: AssociatedElement): (r: Option<string>)
    ensures e.Rule? || e.Invariant? ==> r == e.filters
    ensures r.Some? ==> e.Rule? || e.Invariant?
  {
    match e
    case Rule(_, _, filters, _) => filters
    case Invariant(_, _, _, filters, _) => filters
    case _ => None
  }

  /** `invariant`: the invariant expression, for invariants only. */
  function InvariantOf(e: AssociatedElement): (r: Option<string>)
    ensures r.Some? <==> e.Invariant?
    ensures r.Some? ==> r.value == e.invariantExpr
  {
    match e
    case Invariant(_, _, invariantExpr, _, _) => Some(invariantExpr)
    case _ => None
  }

  /** `mapping`: the mapping type text, for mapping ghosts only. */
  function MappingOf(e: AssociatedElement): (r: Option<string>)
    ensures r.Some? <==> e.GhostMapping?
    ensures r.Some? ==> r.value == e.mapping
  {
    match e
    case GhostMapping(_, mapping, _) => Some(mapping)
    case _ => None
  }

  /** `definition`: the defining expression, for definitions only. */
  function DefinitionOf(e: AssociatedElement): (r: Option<string>)
    ensures r.Some? <==> e.Definition?
    ensures r.Some? ==> r.value == e.definition
  {
    match e
    case Definition(_, _, _, definition) => Some(definition)
    case _ => None
  }

  /** What a consumer can observe of an element: its keyword and every accessor. */
  datatype View = View(
    keyword: string,
    name: Option<string>,
    params: Option<seq<Param>>,
    block: Option<string>,
    returnType: Option<string>,
    tyList: Option<seq<Ty>>,
    filters: Option<string>,
    invariantExpr: Option<string>,
    mapping: Option<string>,
    definition: Option<string>)

  function ViewOf(e: AssociatedElement): View {
    View(Keyword(e), NameOf(e), ParamsOf(e), BlockOf(e), ReturnsOf(e),
         TyListOf(e), FiltersOf(e), InvariantOf(e), MappingOf(e), DefinitionOf(e))
  }

  /**
   * Rebuilds an element from what the accessors report. Ghost forms are
   * told apart by which of `ty_list` and `mapping` is present.
   */
  function FromView(v: View): (r: Option<AssociatedElement>)
    ensures r.Some? ==> Keyword(r.value) == v.keyword
  {
    match v.keyword
    case "rule" =>
      if v.name.Some? && v.params.Some? && v.block.Some? then
        Some(Rule(v.name.value, v.params.value, v.filters, v.block.value))
      else None
    case "invariant" =>
      if v.name.Some? && v.params.Some? && v.invariantExpr.Some? then
        Some(Invariant(v.name.value, v.params.value, v.invariantExpr.value, v.filters, v.block))
      else None
    case "function" =>
      if v.name.Some? && v.params.Some? && v.block.Some? then
        Some(Function(v.name.value, v.params.value, v.returnType, v.block.value))
      else None
    case "definition" =>
      if v.name.Some? && v.params.Some? && v.returnType.Some? && v.definition.Some? then
        Some(Definition(v.name.value, v.params.value, v.returnType.value, v.definition.value))
      else None
    case "ghost" =>
      if v.name.Some? && v.tyList.Some? && v.returnType.Some? then
        Some(Ghost(v.name.value, v.tyList.value, v.returnType.value, v.block))
      else if v.name.Some? && v.mapping.Some? then
        Some(GhostMapping(v.name.value, v.mapping.value, v.block))
      else None
    case "methods" =>
      if v.block.Some? then Some(Methods(v.block.value)) else None
    case _ => None
  }

  /** The keyword and the accessors lose no information: the element can be rebuilt from them. */
  lemma {:induction false} ViewRoundTrip(e: AssociatedElement)
    ensures FromView(ViewOf(e)) == Some(e)
  {
    match e
    case Rule(_, _, _, _) =>
    case Invariant(_, _, _, _, _) =>
    case Function(_, _, _, _) =>
    case Definition(_, _, _, _) =>
    case Ghost(_, _, _, _) =>
    case GhostMapping(_, _, _) =>
    case Methods(_) =>
  }

  /** Hence two elements with the same keyword and the same accessor results are equal. */
  lemma AccessorsDetermineElement(a: AssociatedElement, b: AssociatedElement)
    requires ViewOf(a) == ViewOf(b)
    ensures a == b
  {
    ViewRoundTrip(a);
    ViewRoundTrip(b);
  }

  /** Without the keyword they do not: a rule and a function can report the same accessors. */
  lemma AccessorsAloneAmbiguous()
    ensures var r := Rule("f", [], None, "{}");
            var f := Function("f", [], None, "{}");
            r != f && ViewOf(r).(keyword := "") == ViewOf(f).(keyword := "")
  {
  }
}

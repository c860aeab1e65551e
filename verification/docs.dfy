/**
 * Documentation records: a tag with its description, the data of one
 * comment (free-form text, or tags plus the declaration it documents),
 * and the derived views on them: parameter names and titles.
 */
module Docs {
  import opened Wrappers
  import opened Text
  import Tags
  import Elements

  /** A zero-based editor position; only carried, never computed here. */
  datatype Position = Position(line: nat, character: nat)

  datatype Range = Range(start: Position, end: Position)

  /** One tagged segment of a documentation block. */
  datatype DocumentationTag = DocumentationTag(kind: Tags.Tag, description: string, range: Option<Range>)

  /** A comment: free-form text, or documentation tags and the declaration that follows, if any. */
  datatype DocData =
    | FreeForm(text: string)
    | Documentation(tags: seq<DocumentationTag>, associated: Option<Elements.AssociatedElement>)

  /** A finished record: the source slice, its range, and what was recognised in it. */
  datatype CvlDoc = CvlDoc(raw: string, range: Range, data: DocData)

  /**
   * `DocumentationTag::param_name`. For a `@param` tag, leading Unicode
   * whitespace is trimmed from the description and the name is what
   * precedes the first ASCII whitespace character after it. There is no
   * name when no such character follows, so a description holding only
   * the name yields none. The name is never empty and holds no ASCII
   * whitespace.
   */
  function ParamName(tag: DocumentationTag): (r: Option<string>)
    ensures tag.kind != Tags.Param ==> r.None?
    ensures tag.kind == Tags.Param ==>
              (r.Some? <==> !NoAsciiWhitespace(TrimStart(tag.description)))
    ensures r.Some? ==>
              var trimmed := TrimStart(tag.description);
              && 0 < |r.value| < |trimmed|
              && trimmed[..|r.value|] == r.value
              && IsAsciiWhitespace(trimmed[|r.value|])
              && NoAsciiWhitespace(r.value)
  {
    match tag.kind
    case Param => (
      var trimmed := TrimStart(tag.description);
      match SplitOnceAsciiWhitespace(trimmed)
      case Some((name, _)) =>
        assert trimmed[..|name|] == name by {
          assert trimmed == name + [trimmed[|name|]] + SplitOnceAsciiWhitespace(trimmed).value.1;
        }
        assert |name| > 0 by {
          AsciiWhitespaceIsWhitespace(trimmed[0]);
        }
        Some(name)
      case None => None)
    case _ => None
  }

  /** A description built as whitespace, a name, a separator and more text yields that name. */
  lemma ParamNameOfDescription(lead: string, name: string, sep: char, rest: string, range: Option<Range>)
    requires AllWhitespace(lead)
    requires |name| > 0 && !IsWhitespace(name[0])
    requires NoAsciiWhitespace(name)
    requires IsAsciiWhitespace(sep)
    ensures ParamName(DocumentationTag(Tags.Param, lead + name + [sep] + rest, range)) == Some(name)
  {
    assert lead + name + [sep] + rest == lead + (name + [sep] + rest);
    TrimStartOfLead(lead, name + [sep] + rest);
    SplitOnceAfterName(name, sep, rest);
  }

  /** `DocData::tags`: the tags of a documentation block, nothing for free-form text. */
  function TagsOf(d: DocData): (r: Option<seq<DocumentationTag>>)
    ensures r.Some? <==> d.Documentation?
    ensures r.Some? ==> r.value == d.tags
  {
    match d
    case Documentation(tags, _) => Some(tags)
    case FreeForm(_) => None
  }

  /** `DocData::associated_element`: the documented declaration, when there is one. */
  function AssociatedElementOf(d: DocData): (r: Option<Elements.AssociatedElement>)
    ensures r.Some? <==> d.Documentation? && d.associated.Some?
    ensures r.Some? ==> r == d.associated
  {
    match d
    case Documentation(_, associated) => associated
    case FreeForm(_) => None
  }

  /** `DocData::is_documentation`: holds exactly when the record has tags. */
  function IsDocumentation(d: DocData): (b: bool)
    ensures b <==> TagsOf(d).Some?
    ensures AssociatedElementOf(d).Some? ==> b
  {
    d.Documentation?
  }

  const NoElementError: string := "documentation has no associated syntactic element"
  const NoNameError: string := "element has no name"
  const FreeFormError: string := "free form comments have no associated syntactic element"

  /**
   * `DocData::auto_generated_title`: the name of the documented
   * declaration. It fails for free-form comments, for documentation with
   * no declaration, and for a `methods` block, which has no name.
   */
  function AutoGeneratedTitle(d: DocData): (r: Result<string, string>)
    ensures r.Success? <==> AssociatedElementOf(d).Some? && Elements.NameOf(AssociatedElementOf(d).value).Some?
    ensures r.Success? ==> r.value == d.associated.value.name
    ensures d.FreeForm? ==> r == Failure(FreeFormError)
    ensures d.Documentation? && d.associated.None? ==> r == Failure(NoElementError)
    ensures d.Documentation? && d.associated.Some? && d.associated.value.Methods? ==> r == Failure(NoNameError)
  {
    match d
    case Documentation(_, associated) =>
      if associated.None? then Failure(NoElementError)
      else (
        match Elements.NameOf(associated.value)
        case Some(name) => Success(name)
        case None => Failure(NoNameError))
    case FreeForm(_) => Failure(FreeFormError)
  }

  predicate IsTitleTag(tag: DocumentationTag) {
    tag.kind == Tags.Title
  }

  /** The position of the first `@title` tag, as `iter().find` locates it. */
  function FindTitle(tags: seq<DocumentationTag>): (r: Option<nat>)
    ensures r.None? <==> forall i :: 0 <= i < |tags| ==> !IsTitleTag(tags[i])
    ensures r.Some? ==>
              && r.value < |tags|
              && IsTitleTag(tags[r.value])
              && forall j :: 0 <= j < r.value ==> !IsTitleTag(tags[j])
    decreases |tags|
  {
    if |tags| == 0 then None
    else if IsTitleTag(tags[0]) then Some(0)
    else
      match FindTitle(tags[1..])
      case None =>
        assert forall i :: 0 < i < |tags| ==> tags[i] == tags[1..][i - 1];
        None
      case Some(i) =>
        assert forall j :: 0 < j <= i + 1 ==> tags[j] == tags[1..][j - 1];
        Some(i + 1)
  }

  /**
   * `DocData::title`. Free-form comments have no title. Otherwise the
   * description of the first `@title` tag wins, whatever the declaration;
   * without one the auto-generated title is used, and its failure means
   * no title.
   */
  function Title(d: DocData): (r: Option<string>)
    ensures d.FreeForm? ==> r.None?
    ensures d.Documentation? && (exists i :: 0 <= i < |d.tags| && IsTitleTag(d.tags[i])) ==>
              exists i :: && 0 <= i < |d.tags|
                          && IsTitleTag(d.tags[i])
                          && (forall j :: 0 <= j < i ==> !IsTitleTag(d.tags[j]))
                          && r == Some(d.tags[i].description)
    ensures d.Documentation? && (forall i :: 0 <= i < |d.tags| ==> !IsTitleTag(d.tags[i])) ==>
              && (r.Some? <==> AutoGeneratedTitle(d).Success?)
              && (r.Some? ==> r.value == AutoGeneratedTitle(d).value)
  {
    match TagsOf(d)
    case Some(tags) => (
      match FindTitle(tags)
      case Some(i) => Some(tags[i].description)
      case None => AutoGeneratedTitle(d).ToOption())
    case None => None
  }

  /** An explicit title makes the title independent of the documented declaration. */
  lemma TitleIgnoresElement(tags: seq<DocumentationTag>, a: Option<Elements.AssociatedElement>, b: Option<Elements.AssociatedElement>)
    requires exists i :: 0 <= i < |tags| && IsTitleTag(tags[i])
    ensures Title(Documentation(tags, a)) == Title(Documentation(tags, b))
  {
    var i :| 0 <= i < |tags| && IsTitleTag(tags[i]);
    assert FindTitle(tags).Some?;
  }

  /** Without a title tag, a named declaration supplies the title; a `methods` block or no declaration gives none. */
  lemma TitleFallsBackToName(tags: seq<DocumentationTag>, a: Option<Elements.AssociatedElement>)
    requires forall i :: 0 <= i < |tags| ==> !IsTitleTag(tags[i])
    ensures Title(Documentation(tags, a)) == if a.Some? then Elements.NameOf(a.value) else None
  {
  }

  /**
   * The worked example of a documented function: a notice, a `@param x`
   * and `function f(uint x) returns uint { return x; }` give the title
   * `f` and the parameter name `x`.
   */
  lemma FunctionExample()
    ensures var element := Elements.Function("f", [("uint", Some("x"))], Some("uint"), "{ return x; }");
            var param := DocumentationTag(Tags.Param, "x the value", None);
            var d := Documentation([DocumentationTag(Tags.Notice, "does a thing", None), param], Some(element));
            && Title(d) == Some("f")
            && ParamName(param) == Some("x")
            && IsDocumentation(d)
  {
    var element := Elements.Function("f", [("uint", Some("x"))], Some("uint"), "{ return x; }");
    var notice := DocumentationTag(Tags.Notice, "does a thing", None);
    var param := DocumentationTag(Tags.Param, "x the value", None);
    var tags := [notice, param];
    assert forall i :: 0 <= i < |tags| ==> !IsTitleTag(tags[i]) by {
      assert tags[0] == notice && tags[1] == param;
    }
    TitleFallsBackToName(tags, Some(element));
    assert "" + "x" + [' '] + "the value" == param.description;
    ParamNameOfDescription("", "x", ' ', "the value", None);
  }

  /** A `@param` whose description is the bare name has no parameter name. */
  lemma BareParamHasNoName()
    ensures ParamName(DocumentationTag(Tags.Param, "x", None)).None?
  {
    TrimStartOfLead("", "x");
    assert "" + "x" == "x";
  }
}

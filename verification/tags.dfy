/**
 * The NatSpec tag kinds: classification of a tag token such as `@param`,
 * the canonical display text of each kind, and the byte length the
 * comment grammar consumes for a tag token.
 */
module Tags {
  import opened Wrappers
  import opened Text

  /** The marker that introduces a tag token. */
  const Marker: char := '@'

  /** A tag kind: six known kinds and a catch-all keeping the unrecognised name. */
  datatype Tag = Title | Notice | Dev | Param | Return | Formula | Unexpected(text: string)

  /** Untagged leading text of a documentation block is a notice. */
  const DefaultTag: Tag := Notice

  /** The identifiers of the six known kinds (case-sensitive). */
  const KnownNames: set<string> := {"title", "notice", "dev", "param", "return", "formula"}

  /** A tag as classification can produce it: an unexpected name is never a known one. */
  predicate WellFormed(t: Tag) {
    t.Unexpected? ==> t.text !in KnownNames
  }

  predicate StartsWithMarker(s: string) {
    |s| > 0 && s[0] == Marker
  }

  /** `Display for Tag`: the identifier of the kind, without the marker. */
  function Display(t: Tag): (s: string)
    ensures t.Unexpected? ==> s == t.text
    ensures !t.Unexpected? ==> s in KnownNames
  {
    match t
    case Title => "title"
    case Notice => "notice"
    case Dev => "dev"
    case Param => "param"
    case Return => "return"
    case Formula => "formula"
    case Unexpected(s) => s
  }

  /** Distinct known kinds display differently, so the display of a known kind identifies it. */
  lemma DisplayInjective(a: Tag, b: Tag)
    requires WellFormed(a) && WellFormed(b)
    ensures Display(a) == Display(b) <==> a == b
  {
  }

  /**
   * The match shared by both `From` conversions: a known identifier maps to
   * its kind, anything else to `Unexpected` carrying the text verbatim.
   * Either way the display of the result is the identifier itself.
   */
  function ClassifyName(name: string): (t: Tag)
    ensures Display(t) == name
    ensures t.Unexpected? <==> name !in KnownNames
    ensures WellFormed(t)
  {
    match name
    case "title" => Title
    case "notice" => Notice
    case "dev" => Dev
    case "param" => Param
    case "return" => Return
    case "formula" => Formula
    case _ => Unexpected(name)
  }

  /**
   * `From<&str> for Tag`: strips at most one leading marker with
   * `strip_prefix`, then classifies the rest. The result displays as the
   * input minus that one marker.
   */
  function FromStr(s: string): (t: Tag)
    ensures StartsWithMarker(s) ==> [Marker] + Display(t) == s
    ensures !StartsWithMarker(s) ==> Display(t) == s
    ensures t.Unexpected? <==> Display(t) !in KnownNames
  {
    var name := match StripPrefix(s, Marker)
      case Some(trimmed) => trimmed
      case None => s;
    ClassifyName(name)
  }

  /**
   * `From<String> for Tag`: tests `starts_with` and deletes the first
   * character with `remove(0)`, then classifies the rest.
   */
  function FromString(s: string): (t: Tag)
    ensures StartsWithMarker(s) ==> [Marker] + Display(t) == s
    ensures !StartsWithMarker(s) ==> Display(t) == s
    ensures t.Unexpected? <==> Display(t) !in KnownNames
  {
    var name := if StartsWithMarker(s) then RemoveAt(s, 0) else s;
    ClassifyName(name)
  }

  /** The borrowed and the owned conversion agree on every input. */
  lemma FromStrAgreesWithFromString(s: string)
    ensures FromStr(s) == FromString(s)
  {
  }

  /** Classification output is always well formed. */
  lemma FromStrWellFormed(s: string)
    ensures WellFormed(FromStr(s))
  {
  }

  /** Each known kind round-trips through its display text, with or without the marker. */
  lemma KnownRoundTrip(t: Tag)
    requires !t.Unexpected?
    ensures FromStr(Display(t)) == t
    ensures FromStr([Marker] + Display(t)) == t
  {
  }

  /**
   * An unexpected tag round-trips through its bare display text exactly
   * when its text is not a known name and does not itself start with the
   * marker (which would be stripped); with the marker prepended it
   * round-trips exactly when its text is not a known name.
   */
  lemma UnexpectedRoundTrip(s: string)
    ensures FromStr(Display(Unexpected(s))) == Unexpected(s) <==> s !in KnownNames && !StartsWithMarker(s)
    ensures FromStr([Marker] + Display(Unexpected(s))) == Unexpected(s) <==> s !in KnownNames
  {
    if StartsWithMarker(s) {
      assert |Display(FromStr(s))| < |s|;
    }
    assert ([Marker] + s)[1..] == s;
  }

  /** Re-classifying the marked display of a tag gives the tag back exactly when it is well formed. */
  lemma MarkedRoundTripIffWellFormed(t: Tag)
    ensures FromStr([Marker] + Display(t)) == t <==> WellFormed(t)
  {
    assert ([Marker] + Display(t))[1..] == Display(t);
    if !t.Unexpected? {
      KnownRoundTrip(t);
    }
  }

  /** `Tag::unexpected_tag`: the unrecognised name, for `Unexpected` only. */
  function UnexpectedTag(t: Tag): (r: Option<string>)
    ensures r.Some? <==> t.Unexpected?
    ensures r.Some? ==> r.value == Display(t)
  {
    match t
    case Unexpected(s) => Some(s)
    case _ => None
  }

  /**
   * `Tag::len`: the byte length of the marker plus the identifier, used
   * by the comment grammar to size a tag token's span. The hard-coded
   * lengths of the known kinds agree with their display texts.
   */
  function Len(t: Tag): (n: nat)
    ensures n == Utf8Len(Display(t)) + 1
    ensures n == Utf8Len([Marker] + Display(t))
  {
    var withoutMarker := match t
      case Dev => 3
      case Title | Param => 5
      case Notice | Return => 6
      case Formula => 7
      case Unexpected(s) => Utf8Len(s);
    Utf8LenAppend([Marker], Display(t));
    withoutMarker + 1
  }

  /** For a marked token, the length of its classification is exactly the token's byte length. */
  lemma LenOfMarkedToken(s: string)
    requires StartsWithMarker(s)
    ensures Len(FromStr(s)) == Utf8Len(s)
  {
  }
}

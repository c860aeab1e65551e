# natspec_parser documentation data, in Dafny

This project models the documentation-data layer of `natspec_parser`, a
library that pulls NatSpec-style documentation out of CVL specification
files (rules, invariants, functions, definitions, ghosts, methods blocks).
The layer is the set of plain data types the parser produces and the pure
functions on them:

- `Tags` — the tag kinds (`@title`, `@notice`, `@dev`, `@param`,
  `@return`, `@formula`, and a catch-all keeping an unrecognised name),
  the two `From` conversions that classify a tag token, `Display`, the
  token length `len` that the comment grammar uses to size spans, and
  `unexpected_tag`.
- `Elements` — the seven declaration forms a documentation block can be
  attached to, their keyword (`Display`) and the field accessors `name`,
  `params`, `block`, `returns`, `ty_list`, `filters`, `invariant`,
  `mapping`, `definition`.
- `Docs` — a documentation tag with its description and optional range,
  `param_name`, the comment data (`FreeForm` or `Documentation`), its
  accessors `tags`, `associated_element`, `is_documentation`, and the
  title logic `title` / `auto_generated_title`. The finished record
  `CvlDoc` is declared as data only.
- `Text` — the Rust standard-library string behaviour the layer relies on:
  `char::is_whitespace` (Unicode White_Space) and `char::is_ascii_whitespace`
  as two separate predicates, the UTF-8 byte length `String::len`,
  `strip_prefix`, `String::remove`, `trim_start` and `split_once`.
- `Wrappers` — `Option` and `Result`.

Strings are sequences of Unicode scalar values; byte lengths are stated
explicitly through `Text.Utf8Len`. Errors that the source raises as
`eyre` reports are plain `Failure` values carrying the same messages.

Behaviour worth knowing, modelled as written: `param_name` yields no name
when no ASCII whitespace follows the name, so a `@param x` tag whose
description is only `x` has no parameter name (`Docs.BareParamHasNoName`).
Classification is not injective on raw display text: `Unexpected("title")`
displays like `Title`, but classification never produces it
(`Tags.FromStrWellFormed`).

## Model

| member | source | states |
|---|---|---|
| Tags.Display | src/lib.rs:181-194 | an unexpected tag displays as its own text; each known kind displays as one of the six known identifiers |
| Tags.DisplayInjective | src/lib.rs:181-194 | on tags classification can produce, equal display text means equal tags, so each known identifier names one kind |
| Tags.ClassifyName | src/lib.rs:222-230 | the result displays as the input name, and it is `Unexpected` exactly when the name is not one of the six case-sensitive known identifiers |
| Tags.FromStr | src/lib.rs:217-232 | `From<&str>` strips exactly one leading `@` when present: the marker followed by the result's display text rebuilds the input, otherwise the display text is the input; the result is `Unexpected` exactly when that text is not a known identifier |
| Tags.FromString | src/lib.rs:234-250 | `From<String>` (`starts_with` then `remove(0)`) satisfies the same strip-and-classify contract |
| Tags.FromStrAgreesWithFromString | src/lib.rs:217-250 | the borrowed and the owned conversion give the same tag for every input |
| Tags.FromStrWellFormed | src/lib.rs:222-230 | classification never yields an `Unexpected` carrying a known identifier |
| Tags.KnownRoundTrip | src/lib.rs:217-231 | each known kind is recovered by classifying its display text, with or without the leading `@` |
| Tags.UnexpectedRoundTrip | src/lib.rs:217-231 | `Unexpected(s)` survives classification of its bare display text iff `s` is not a known identifier and does not start with `@`, and of `@` plus its text iff `s` is not a known identifier |
| Tags.MarkedRoundTripIffWellFormed | src/lib.rs:217-231 | classifying `@` plus a tag's display text returns the tag exactly when the tag is well formed |
| Tags.UnexpectedTag | src/lib.rs:197-202 | `unexpected_tag` is present exactly for `Unexpected`, and then equals the tag's display text |
| Tags.Len | src/lib.rs:204-214 | the hard-coded lengths 3/5/6/7 and the byte length of an unexpected name, plus one, equal the UTF-8 byte length of the display text with the `@` marker prepended |
| Tags.LenOfMarkedToken | src/lib.rs:204-214 | for a token starting with `@`, the length of its classification equals the token's byte length, so the grammar's span size matches the text consumed |
| Text.Utf8Len | src/lib.rs:210 | `String::len` is one to four bytes per character and equals the character count exactly for ASCII text |
| Text.TrimStart | src/lib.rs:161 | `trim_start` returns the suffix left after removing all leading Unicode whitespace: what is cut is whitespace and what remains does not start with whitespace |
| Text.SplitOnceAsciiWhitespace | src/lib.rs:162-163 | `split_once(is_ascii_whitespace)` is absent iff the text has no ASCII whitespace; otherwise it splits around the first one, the head being free of ASCII whitespace and head, separator and tail rebuilding the text |
| Text.StripPrefix | src/lib.rs:219 | `strip_prefix('@')` succeeds iff the text starts with `@`, and the marker plus the remainder is the text |
| Text.RemoveAt | src/lib.rs:237 | `remove(i)` deletes exactly the character at position `i` and keeps the rest in order |
| Elements.Keyword | src/lib.rs:252-265 | the keyword is one of six words; `ghost` exactly for the two ghost forms and `methods` exactly for methods blocks |
| Elements.NameOf | src/lib.rs:268-278 | `name` is absent exactly for methods blocks and otherwise is the element's name |
| Elements.ParamsOf | src/lib.rs:280-288 | `params` is present exactly for rules, invariants, functions and definitions, and is their parameter list |
| Elements.BlockOf | src/lib.rs:290-302 | `block` is always present for rules, functions and methods, never for definitions, and mirrors the optional block of invariants and both ghost forms |
| Elements.ReturnsOf | src/lib.rs:304-311 | `returns` is always present for definitions and ghosts, mirrors the optional return type of functions, and is absent otherwise |
| Elements.TyListOf | src/lib.rs:313-318 | `ty_list` is present exactly for function-shaped ghosts |
| Elements.FiltersOf | src/lib.rs:320-326 | `filters` mirrors the optional filter of rules and invariants and is absent for every other form |
| Elements.InvariantOf | src/lib.rs:328-333 | `invariant` is present exactly for invariants, carrying the invariant expression |
| Elements.MappingOf | src/lib.rs:335-340 | `mapping` is present exactly for mapping ghosts, carrying the mapping type |
| Elements.DefinitionOf | src/lib.rs:342-347 | `definition` is present exactly for definitions, carrying the defining expression |
| Elements.ViewRoundTrip | src/lib.rs:252-347 | the keyword together with the nine accessors loses no information: the element can be rebuilt from them |
| Elements.AccessorsDetermineElement | src/lib.rs:252-347 | two elements with the same keyword and the same accessor results are equal |
| Elements.AccessorsAloneAmbiguous | src/lib.rs:267-347 | without the keyword the accessors do not identify the form: a rule and a function can report identical accessors |
| Docs.ParamName | src/lib.rs:157-166 | `param_name` is absent unless the kind is `Param`; for `Param` it is present iff the whitespace-trimmed description contains ASCII whitespace, and is then the non-empty prefix before the first ASCII whitespace, itself free of ASCII whitespace |
| Docs.ParamNameOfDescription | src/lib.rs:157-166 | a `@param` description made of leading whitespace, a name, an ASCII whitespace separator and any text yields exactly that name |
| Docs.BareParamHasNoName | src/lib.rs:157-166 | a `@param` description consisting only of the name `x` yields no parameter name |
| Docs.TagsOf | src/lib.rs:93-98 | `tags` is present exactly for documentation blocks and is their tag list |
| Docs.AssociatedElementOf | src/lib.rs:100-105 | `associated_element` is present exactly for documentation blocks that have a declaration, and is that declaration |
| Docs.IsDocumentation | src/lib.rs:136-138 | `is_documentation` holds exactly when `tags` is present, and whenever there is an associated element |
| Docs.AutoGeneratedTitle | src/lib.rs:107-121 | succeeds exactly when there is an associated element that has a name, with that name; fails with the free-form message, the no-element message, or the no-name message (methods blocks) in the respective cases |
| Docs.FindTitle | src/lib.rs:126 | `find` locates the first `@title` tag: absent iff no tag is a title, otherwise the position of a title tag with no title before it |
| Docs.Title | src/lib.rs:123-134 | free-form comments have no title; with a `@title` tag the title is the description of the first one; without one the title is present exactly when the auto-generated title succeeds and then equals it |
| Docs.TitleIgnoresElement | src/lib.rs:123-134 | with an explicit title tag the title does not depend on the documented declaration |
| Docs.TitleFallsBackToName | src/lib.rs:107-134 | without a title tag, the title is the declaration's name; it is absent for a methods block or when no declaration follows |
| Docs.FunctionExample | src/lib.rs:107-166 | a notice plus `@param x the value` on `function f(uint x) returns uint { return x; }` has title `f`, parameter name `x`, and counts as documentation |

## Left out

- `CvlDoc::from_rope` (src/lib.rs:77-89): it runs the comment and declaration grammar with error recovery and converts byte spans to editor ranges through a rope-backed converter; the grammar and the converter are not part of this model. `CvlDoc` is declared as data only.
- `Range` values are carried, never computed: `Docs.Range` is a plain pair of line/character positions.
- `DocumentationTag::new` is the datatype constructor `Docs.DocumentationTag`.
- Serialization derives (`Serialize`, `Deserialize`), `Debug`, `Hash` and `Clone` have no counterpart; equality is Dafny's structural equality, as the derived `PartialEq` is.
- Error reports: `eyre!`/`bail!` reports become plain `Failure` values with the same message text; no backtrace or context is modelled.
- `Tags.Len`: the result is an unbounded `nat` rather than a `usize`; a string's byte length plus one cannot reach `usize::MAX` in Rust, so no wrap-around is modelled.

/**
 * Character classes and string helpers used by the documentation layer:
 * the two whitespace notions of Rust's `char` (Unicode and ASCII), the
 * UTF-8 byte length of a string, `trim_start` and `split_once`.
 */
module Text {
  import opened Wrappers

  /** Rust's `char::is_whitespace`: the Unicode White_Space property. */
  predicate IsWhitespace(c: char) {
    var n := c as int;
    || (0x09 <= n <= 0x0D)
    || n == 0x20
    || n == 0x85
    || n == 0xA0
    || n == 0x1680
    || (0x2000 <= n <= 0x200A)
    || n == 0x2028
    || n == 0x2029
    || n == 0x202F
    || n == 0x205F
    || n == 0x3000
  }

  /**
   * Rust's `char::is_ascii_whitespace`: space, horizontal tab, line feed,
   * form feed and carriage return. Vertical tab (0x0B) is NOT included.
   */
  predicate IsAsciiWhitespace(c: char) {
    var n := c as int;
    n == 0x20 || n == 0x09 || n == 0x0A || n == 0x0C || n == 0x0D
  }

  /** Every ASCII whitespace character is Unicode whitespace; the converse fails for 0x0B. */
  lemma AsciiWhitespaceIsWhitespace(c: char)
    ensures IsAsciiWhitespace(c) ==> IsWhitespace(c)
    ensures IsWhitespace('\U{0B}') && !IsAsciiWhitespace('\U{0B}')
  {
  }

  predicate NoAsciiWhitespace(s: string) {
    forall i :: 0 <= i < |s| ==> !IsAsciiWhitespace(s[i])
  }

  predicate AllWhitespace(s: string) {
    forall i :: 0 <= i < |s| ==> IsWhitespace(s[i])
  }

  predicate IsAscii(s: string) {
    forall i :: 0 <= i < |s| ==> s[i] as int < 0x80
  }

  /** Number of bytes the UTF-8 encoding of one Unicode scalar value takes. */
  function CharUtf8Len(c: char): (n: nat)
    ensures 1 <= n <= 4
    ensures n == 1 <==> c as int < 0x80
  {
    if c as int < 0x80 then 1
    else if c as int < 0x800 then 2
    else if c as int < 0x1_0000 then 3
    else 4
  }

  /**
   * Rust's `String::len`: the UTF-8 byte length. It is between one and
   * four bytes per character, and equals the character count exactly
   * when the string is ASCII.
   */
  function Utf8Len(s: string): (n: nat)
    ensures |s| <= n <= 4 * |s|
    ensures n == |s| <==> IsAscii(s)
  {
    if |s| == 0 then 0
    else
      var n := CharUtf8Len(s[0]) + Utf8Len(s[1..]);
      assert IsAscii(s) <==> s[0] as int < 0x80 && IsAscii(s[1..]) by {
        if s[0] as int < 0x80 && IsAscii(s[1..]) {
          forall i | 0 <= i < |s| ensures s[i] as int < 0x80 {
            if i > 0 { assert s[i] == s[1..][i - 1]; }
          }
        }
      }
      n
  }

  /** UTF-8 length is additive over concatenation. */
  lemma {:induction false} Utf8LenAppend(a: string, b: string)
    ensures Utf8Len(a + b) == Utf8Len(a) + Utf8Len(b)
    decreases |a|
  {
    if |a| == 0 {
      assert a + b == b;
    } else {
      assert (a + b)[0] == a[0];
      assert (a + b)[1..] == a[1..] + b;
      Utf8LenAppend(a[1..], b);
    }
  }

  /** Rust's `str::strip_prefix` with a single-character pattern. */
  function StripPrefix(s: string, c: char): (r: Option<string>)
    ensures r.Some? <==> |s| > 0 && s[0] == c
    ensures r.Some? ==> [c] + r.value == s
  {
    if |s| > 0 && s[0] == c then Some(s[1..]) else None
  }

  /** Rust's `String::remove`: deletes the character at position `i`. */
  function RemoveAt(s: string, i: nat): (r: string)
    requires i < |s|
    ensures |r| + 1 == |s|
    ensures s == r[..i] + [s[i]] + r[i..]
  {
    s[..i] + s[i + 1..]
  }

  /**
   * Rust's `str::trim_start`: removes the longest prefix of Unicode
   * whitespace. The result is a suffix of `s`, everything cut off is
   * whitespace, and what is left does not start with whitespace.
   */
  function TrimStart(s: string): (r: string)
    ensures |r| <= |s| && r == s[|s| - |r|..]
    ensures AllWhitespace(s[..|s| - |r|])
    ensures |r| > 0 ==> !IsWhitespace(r[0])
    decreases |s|
  {
    if |s| > 0 && IsWhitespace(s[0]) then
      var r := TrimStart(s[1..]);
      assert s[..|s| - |r|] == [s[0]] + s[1..][..|s| - 1 - |r|];
      r
    else s
  }

  /** Trimming a whitespace prefix off text that does not start with whitespace yields that text. */
  lemma {:induction false} TrimStartOfLead(lead: string, s: string)
    requires AllWhitespace(lead)
    requires |s| > 0 ==> !IsWhitespace(s[0])
    ensures TrimStart(lead + s) == s
    decreases |lead|
  {
    if |lead| == 0 {
      assert lead + s == s;
    } else {
      assert (lead + s)[0] == lead[0];
      assert (lead + s)[1..] == lead[1..] + s;
      TrimStartOfLead(lead[1..], s);
    }
  }

  /**
   * Rust's `str::split_once` with the predicate `is_ascii_whitespace`:
   * splits at the FIRST ASCII whitespace character, which belongs to
   * neither half; `None` when there is no such character.
   */
  function SplitOnceAsciiWhitespace(s: string): (r: Option<(string, string)>)
    ensures r.None? <==> NoAsciiWhitespace(s)
    ensures r.Some? ==>
              && |r.value.0| < |s|
              && s == r.value.0 + [s[|r.value.0|]] + r.value.1
              && IsAsciiWhitespace(s[|r.value.0|])
              && NoAsciiWhitespace(r.value.0)
    decreases |s|
  {
    if |s| == 0 then None
    else if IsAsciiWhitespace(s[0]) then Some(([], s[1..]))
    else
      match SplitOnceAsciiWhitespace(s[1..])
      case None =>
        assert NoAsciiWhitespace(s) by {
          forall i | 0 <= i < |s| ensures !IsAsciiWhitespace(s[i]) {
            if i > 0 { assert s[i] == s[1..][i - 1]; }
          }
        }
        None
      case Some((head, tail)) =>
        var head' := [s[0]] + head;
        assert s == head' + [s[|head'|]] + tail by {
          assert s == [s[0]] + s[1..];
        }
        Some((head', tail))
  }

  /** The split point is determined: a whitespace-free name followed by a separator splits at the separator. */
  lemma SplitOnceAfterName(name: string, sep: char, rest: string)
    requires NoAsciiWhitespace(name)
    requires IsAsciiWhitespace(sep)
    ensures SplitOnceAsciiWhitespace(name + [sep] + rest) == Some((name, rest))
  {
    var s := name + [sep] + rest;
    var r := SplitOnceAsciiWhitespace(s);
    assert s[|name|] == sep;
    var h := r.value.0;
    assert |h| == |name|;
    assert h == s[..|h|] == name;
    assert r.value.1 == s[|h| + 1..] == rest;
  }
}

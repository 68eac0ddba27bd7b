/** The string operations the assembler relies on: `String.toLowerCase`, `String.startsWith` and
    the blank test of `StringUtils.isNotBlank`. */
module Strings {
  import opened Optional

  /** Lower-casing of one character; only the ASCII letters A-Z are mapped. */
  function LowerChar(c: char): (r: char)
    ensures 'A' <= c <= 'Z' ==> 'a' <= r <= 'z' && r as int - c as int == 32
    ensures !('A' <= c <= 'Z') ==> r == c
  {
    if 'A' <= c <= 'Z' then (c as int + 32) as char else c
  }

  /** `s.toLowerCase()`, character by character. */
  function Lower(s: string): string
  {
    seq(|s|, i requires 0 <= i < |s| => LowerChar(s[i]))
  }

  predicate IsLower(s: string)
  {
    forall i :: 0 <= i < |s| ==> !('A' <= s[i] <= 'Z')
  }

  lemma {:induction false} LowerIsLower(s: string)
    ensures |Lower(s)| == |s|
    ensures IsLower(Lower(s))
    ensures Lower(Lower(s)) == Lower(s)
  {
  }

  /** A string with no upper-case letter is its own lower-case form. */
  lemma {:induction false} LowerOfLower(s: string)
    requires IsLower(s)
    ensures Lower(s) == s
  {
  }

  /** `s.startsWith(p)`. */
  predicate StartsWith(s: string, p: string)
  {
    |p| <= |s| && s[..|p|] == p
  }

  /** `Character.isWhitespace`: the controls U+0009-U+000D and U+001C-U+001F, and the Unicode
      space, line and paragraph separators other than the no-break spaces U+00A0, U+2007, U+202F. */
  predicate IsWhitespace(c: char)
  {
    ('\U{0009}' <= c <= '\U{000D}') || ('\U{001C}' <= c <= '\U{0020}')
    || c == '\U{1680}' || ('\U{2000}' <= c <= '\U{2006}') || ('\U{2008}' <= c <= '\U{200A}')
    || c == '\U{2028}' || c == '\U{2029}' || c == '\U{205F}' || c == '\U{3000}'
  }

  /** `StringUtils.isNotBlank(s)`: not null, and some character is not whitespace. */
  predicate IsNotBlank(s: Option<string>)
  {
    s.Some? && exists i :: 0 <= i < |s.value| && !IsWhitespace(s.value[i])
  }

  /** Blank and non-blank attachments as `isNotBlank` classifies them. */
  lemma BlankExamples()
    ensures !IsNotBlank(None) && !IsNotBlank(Some(""))
    ensures !IsNotBlank(Some(" \t\U{3000}\U{2028}"))
    ensures IsNotBlank(Some("\U{00A0}")) && IsNotBlank(Some(" x "))
  {
    assert !IsWhitespace("\U{00A0}"[0]);
    assert !IsWhitespace(" x "[1]);
  }
}

/**
  Character classes and string helpers shared by the text-processing parts
  of the system: Python's whitespace (`str.strip()`, `\s`), word characters
  (`\w`, `\b`), ASCII case folding and `str.join`.
 */
module Text {

  /** The characters Python's `str.isspace()` and the regex class `\s` accept. */
  predicate IsSpace(c: char) {
    || c == ' ' || c == '\t' || c == '\n' || c == '\r'
    || c == '\U{000B}' || c == '\U{000C}'
    || ('\U{001C}' <= c <= '\U{001F}')
    || c == '\U{0085}' || c == '\U{00A0}' || c == '\U{1680}'
    || ('\U{2000}' <= c <= '\U{200A}')
    || c == '\U{2028}' || c == '\U{2029}' || c == '\U{202F}'
    || c == '\U{205F}' || c == '\U{3000}'
  }

  predicate IsAsciiUpper(c: char) { 'A' <= c <= 'Z' }

  /** Word characters of the regex class `\w`: ASCII letters, digits, `_` and CJK ideographs. */
  predicate IsWordChar(c: char) {
    || ('a' <= c <= 'z') || IsAsciiUpper(c) || ('0' <= c <= '9') || c == '_'
    || ('\U{4E00}' <= c <= '\U{9FFF}')
  }

  function LowerChar(c: char): (r: char)
    ensures IsAsciiUpper(c) ==> r as int == c as int + 32
    ensures !IsAsciiUpper(c) ==> r == c
  {
    if IsAsciiUpper(c) then (c as int + 32) as char else c
  }

  /** `s.lower()` restricted to ASCII letters. */
  function Lower(s: string): (r: string)
    ensures |r| == |s|
    ensures forall i :: 0 <= i < |s| ==> r[i] == LowerChar(s[i])
  {
    seq(|s|, i requires 0 <= i < |s| => LowerChar(s[i]))
  }

  lemma LowerPreservesClasses(c: char)
    ensures IsSpace(LowerChar(c)) == IsSpace(c)
    ensures IsWordChar(LowerChar(c)) == IsWordChar(c)
    ensures LowerChar(LowerChar(c)) == LowerChar(c)
  {
  }

  /** Number of leading characters of `s` that are in `cs`. */
  function LeadingIn(s: string, cs: char -> bool): (k: nat)
    ensures k <= |s|
    ensures forall i :: 0 <= i < k ==> cs(s[i])
    ensures k < |s| ==> !cs(s[k])
  {
    if s == [] || !cs(s[0]) then 0 else 1 + LeadingIn(s[1..], cs)
  }

  /** Number of trailing characters of `s` that are in `cs`. */
  function TrailingIn(s: string, cs: char -> bool): (k: nat)
    ensures k <= |s|
    ensures forall i :: |s| - k <= i < |s| ==> cs(s[i])
    ensures k < |s| ==> !cs(s[|s| - 1 - k])
  {
    if s == [] || !cs(s[|s| - 1]) then 0 else 1 + TrailingIn(s[..|s| - 1], cs)
  }

  /** `s.strip(chars)`: the longest middle part that neither starts nor ends with a stripped character. */
  function StripBy(s: string, cs: char -> bool): (r: string)
    ensures r != [] ==> !cs(r[0]) && !cs(r[|r| - 1])
    ensures exists i, j :: 0 <= i <= j <= |s| && r == s[i..j]
  {
    var a := LeadingIn(s, cs);
    var rest := s[a..];
    var b := TrailingIn(rest, cs);
    var r := rest[..|rest| - b];
    assert r == s[a..a + |rest| - b];
    r
  }

  /** Text that neither starts nor ends with a stripped character is left as it is. */
  lemma StripByUnchanged(s: string, cs: char -> bool)
    requires s != [] ==> !cs(s[0]) && !cs(s[|s| - 1])
    ensures StripBy(s, cs) == s
  {
    assert LeadingIn(s, cs) == 0;
    assert s[0..] == s;
    assert TrailingIn(s, cs) == 0;
    assert s[..|s|] == s;
  }

  /** `s.strip()` */
  function Strip(s: string): string {
    StripBy(s, IsSpace)
  }

  /** `sep.join(xs)` */
  function Join(sep: string, xs: seq<string>): string
    decreases |xs|
  {
    if xs == [] then "" else if |xs| == 1 then xs[0] else xs[0] + sep + Join(sep, xs[1..])
  }

  predicate OccursAt(s: string, i: nat, sub: string) {
    i + |sub| <= |s| && s[i..i + |sub|] == sub
  }

  /** `sub in s` for strings */
  predicate Contains(s: string, sub: string) {
    exists i :: 0 <= i <= |s| && OccursAt(s, i, sub)
  }
}

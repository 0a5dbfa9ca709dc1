/** The `strings` operations the source uses, with what each one finds. */
module Text {
  import opened Basics

  /** `unicode.IsSpace`. A text the source trims or splits holds its decoded code
      points; the lexer asks it of single bytes, all below U+0100. */
  predicate IsSpace(c: char) {
    || c in {' ', '\t', '\n', '\r', '\U{0B}', '\U{0C}', '\U{85}', '\U{A0}'}
    || c == '\U{1680}' || '\U{2000}' <= c <= '\U{200A}'
    || c in {'\U{2028}', '\U{2029}', '\U{202F}', '\U{205F}', '\U{3000}'}
  }

  predicate OccursAt(s: string, pattern: string, i: int) {
    0 <= i && i + |pattern| <= |s| && s[i..i + |pattern|] == pattern
  }

  function IndexFrom(s: string, pattern: string, from: nat): (index: int)
    requires from <= |s|
    ensures index == -1 || (from <= index && OccursAt(s, pattern, index))
    ensures forall i :: from <= i && (index == -1 || i < index) ==> !OccursAt(s, pattern, i)
    decreases |s| - from
  {
    if OccursAt(s, pattern, from) then from
    else if from == |s| then -1
    else IndexFrom(s, pattern, from + 1)
  }

  /** `strings.Index`: the first occurrence, or -1. */
  function Index(s: string, pattern: string): (index: int)
    ensures index == -1 || OccursAt(s, pattern, index)
    ensures forall i :: index == -1 || i < index ==> !OccursAt(s, pattern, i)
  {
    IndexFrom(s, pattern, 0)
  }

  predicate Contains(s: string, pattern: string) {
    Index(s, pattern) != -1
  }

  predicate HasPrefix(s: string, prefix: string) {
    OccursAt(s, prefix, 0)
  }

  /** `strings.LastIndexByte`. */
  function LastIndexByte(s: string, c: char): (index: int)
    ensures -1 <= index < |s|
    ensures index >= 0 ==> s[index] == c
    ensures forall i :: index < i < |s| ==> s[i] != c
  {
    if s == "" then -1
    else if Last(s) == c then |s| - 1
    else LastIndexByte(Front(s), c)
  }

  function TrimLeft(s: string): string {
    if s != "" && IsSpace(s[0]) then TrimLeft(s[1..]) else s
  }

  function TrimRight(s: string): string {
    if s != "" && IsSpace(Last(s)) then TrimRight(Front(s)) else s
  }

  /** `strings.TrimSpace`. */
  function TrimSpace(s: string): string {
    TrimRight(TrimLeft(s))
  }

  /** The length of the leading run of characters that are not white space. */
  function WordLength(s: string): (n: nat)
    ensures n <= |s|
    ensures forall i :: 0 <= i < n ==> !IsSpace(s[i])
    ensures n < |s| ==> IsSpace(s[n])
  {
    if s == "" || IsSpace(s[0]) then 0 else 1 + WordLength(s[1..])
  }

  /** `strings.Fields`. */
  function Fields(s: string): seq<string> {
    if s == "" then []
    else if IsSpace(s[0]) then Fields(s[1..])
    else
      var n := WordLength(s);
      [s[..n]] + Fields(s[n..])
  }
}

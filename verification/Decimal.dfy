/** Decimal text of natural numbers, as `strconv` writes and reads it. */
module Decimal {
  import opened Basics

  predicate IsDigit(c: char) { '0' <= c <= '9' }

  predicate AllDigits(s: string) {
    forall i :: 0 <= i < |s| ==> IsDigit(s[i])
  }

  function Digit(n: nat): (c: char)
    requires n < 10
    ensures IsDigit(c)
  {
    '0' + n as char
  }

  function Value(digits: string): nat
    requires AllDigits(digits)
  {
    if digits == "" then 0
    else 10 * Value(Front(digits)) + (Last(digits) - '0') as nat
  }

  function Text(n: nat): (s: string)
    ensures s != "" && AllDigits(s)
  {
    if n < 10 then [Digit(n)] else Text(n / 10) + [Digit(n % 10)]
  }

  lemma {:induction false} ValueOfText(n: nat)
    ensures Value(Text(n)) == n
  {
    if n >= 10 {
      ValueOfText(n / 10);
      assert Front(Text(n)) == Text(n / 10);
    } else {
      assert Front(Text(n)) == "";
    }
  }

  /** `strconv.ParseUint(text, 10, bits)` for a given greatest value. */
  function ParseUint(text: string, greatest: nat): Option<nat> {
    if text != "" && AllDigits(text) && Value(text) <= greatest then Some(Value(text)) else None
  }

  const MAX_INT: nat := 0x7FFF_FFFF_FFFF_FFFF

  /** `strconv.Atoi`: an optional sign and digits that fit 64 bits, one more of them
      below zero. */
  function ParseInt(text: string): Option<int> {
    var negative := text != "" && text[0] == '-';
    var digits := if negative || (text != "" && text[0] == '+') then text[1..] else text;
    var n := ParseUint(digits, if negative then MAX_INT + 1 else MAX_INT);
    if n.None? then None else if negative then Some(0 - n.value) else Some(n.value)
  }
}

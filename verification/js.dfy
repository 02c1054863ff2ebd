/** The few JavaScript value conventions the handlers rely on: truthy
    strings, the `a || b` fallback, and `${n}` for a millisecond clock. */
module Js {

  /** A non-empty string. Every identifier the server stores (socket id,
      client id, operator id) is produced by a truthiness test or by
      `x || socket.id`, so it is never empty. */
  type Id = s: string | s != "" witness "?"

  /** `a || b` on strings: the empty string is the only falsy string, and
      an absent payload field is modelled as "". */
  function Or(a: string, b: string): string {
    if a != "" then a else b
  }

  /** `a || b` where the fallback is an identifier, so the result is one. */
  function OrId(a: string, b: Id): Id {
    Or(a, b)
  }

  predicate IsDigit(c: char) {
    '0' <= c <= '9'
  }

  predicate AllDigits(s: string) {
    forall i :: 0 <= i < |s| ==> IsDigit(s[i])
  }

  function DigitChar(d: nat): (c: char)
    requires d < 10
    ensures IsDigit(c) && c as int - '0' as int == d
  {
    (d + '0' as int) as char
  }

  /** Decimal rendering of a non-negative integer, as a template literal
      renders the number `Date.now()` returns: no sign, no leading zero. */
  function NatToString(n: nat): (r: string)
    ensures r != [] && AllDigits(r)
    ensures r[0] == '0' ==> n == 0 && r == "0"
    decreases n
  {
    if n < 10 then [DigitChar(n)] else NatToString(n / 10) + [DigitChar(n % 10)]
  }

  /** Reads a decimal numeral back; the inverse of NatToString. */
  function ParseNat(s: string): (n: nat)
    requires AllDigits(s)
    decreases |s|
  {
    if s == [] then 0
    else ParseNat(s[..|s| - 1]) * 10 + (s[|s| - 1] as int - '0' as int)
  }

  lemma {:induction false} ParseNatToString(n: nat)
    ensures ParseNat(NatToString(n)) == n
    decreases n
  {
    var r := NatToString(n);
    if n >= 10 {
      var p := NatToString(n / 10);
      assert r == p + [DigitChar(n % 10)];
      assert r[..|r| - 1] == p;
      ParseNatToString(n / 10);
    }
  }

  /** Distinct clock readings render as distinct numerals. */
  lemma NatToStringInjective(n: nat, m: nat)
    requires NatToString(n) == NatToString(m)
    ensures n == m
  {
    ParseNatToString(n);
    ParseNatToString(m);
  }
}

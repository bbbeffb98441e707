/** Decimal numerals, as "%u" prints them. */
module Decimal {

  predicate IsDigit(c: char) {
    '0' <= c <= '9'
  }

  function Digit(d: nat): (c: char)
    requires d < 10
    ensures IsDigit(c) && c as int - '0' as int == d
  {
    '0' + d as char
  }

  function Dec(n: nat): (s: string)
    ensures s != [] && forall c :: c in s ==> IsDigit(c)
    ensures s[0] == '0' ==> n == 0
  {
    if n < 10 then [Digit(n)] else Dec(n / 10) + [Digit(n % 10)]
  }

  /** The number that a run of digits stands for. */
  function Value(s: string): nat
    requires forall c :: c in s ==> IsDigit(c)
  {
    if s == [] then 0 else
      assert IsDigit(s[|s| - 1]) && forall c :: c in s[..|s| - 1] ==> c in s;
      10 * Value(s[..|s| - 1]) + (s[|s| - 1] as int - '0' as int)
  }

  /** How many digits s starts with. */
  function Span(s: string): (n: nat)
    ensures n <= |s|
    ensures forall c :: c in s[..n] ==> IsDigit(c)
    ensures n < |s| ==> !IsDigit(s[n])
  {
    if s == [] || !IsDigit(s[0]) then 0 else
      var n := 1 + Span(s[1..]);
      assert s[..n] == [s[0]] + s[1..][..n - 1];
      n
  }

  lemma {:induction false} ValueOfDec(n: nat)
    ensures Value(Dec(n)) == n
  {
    if n < 10 {
      assert Dec(n)[..0] == [];
    } else {
      var s := Dec(n);
      assert s[..|s| - 1] == Dec(n / 10);
      ValueOfDec(n / 10);
    }
  }

  lemma {:induction false} SpanOfDigits(s: string, t: string)
    requires forall c :: c in s ==> IsDigit(c)
    requires t == [] || !IsDigit(t[0])
    ensures Span(s + t) == |s|
  {
    if s == [] {
      assert s + t == t;
    } else {
      assert (s + t)[1..] == s[1..] + t;
      SpanOfDigits(s[1..], t);
    }
  }

  /** A numeral in front of anything but a digit is read back as its number. */
  lemma ReadBack(n: nat, t: string)
    requires t == [] || !IsDigit(t[0])
    ensures var s := Dec(n) + t;
            Span(s) == |Dec(n)| && s[..Span(s)] == Dec(n) && s[Span(s)..] == t && Value(s[..Span(s)]) == n
  {
    SpanOfDigits(Dec(n), t);
    ValueOfDec(n);
    assert (Dec(n) + t)[..|Dec(n)|] == Dec(n);
    assert (Dec(n) + t)[|Dec(n)|..] == t;
  }
}

/** Decimal numerals, written and read the way the standard integer formats are. */
module Decimals {

  predicate IsDigit(c: char) {
    '0' <= c <= '9'
  }

  function DigitOf(n: nat): (c: char)
    requires n < 10
    ensures IsDigit(c) && ValueOf(c) == n
  {
    '0' + n as char
  }

  function ValueOf(c: char): nat
    requires IsDigit(c)
  {
    c as int - '0' as int
  }

  predicate AllDigits(s: string) {
    forall i :: 0 <= i < |s| ==> IsDigit(s[i])
  }

  function Render(n: nat): (s: string)
    ensures s != "" && AllDigits(s)
  {
    if n < 10 then [DigitOf(n)] else Render(n / 10) + [DigitOf(n % 10)]
  }

  function Value(s: string): nat
    requires AllDigits(s)
  {
    if s == "" then 0 else Value(s[..|s| - 1]) * 10 + ValueOf(s[|s| - 1])
  }

  lemma {:induction false} ValueRender(n: nat)
    ensures Value(Render(n)) == n
  {
    if n < 10 {
      assert Render(n)[..0] == "";
    } else {
      ValueRender(n / 10);
      assert Render(n)[..|Render(n)| - 1] == Render(n / 10);
    }
  }
}

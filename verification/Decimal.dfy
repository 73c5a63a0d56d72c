/** str(n), s.isdigit() and int(s) on the strings a claim can hold. */
module Decimal {

  function Digit(n: nat): char
    requires n < 10
  {
    "0123456789"[n]
  }

  predicate IsDigit(c: char) {
    '0' <= c <= '9'
  }

  function Show(n: nat): string {
    if n < 10 then [Digit(n)] else Show(n / 10) + [Digit(n % 10)]
  }

  predicate IsDigits(s: string) {
    s != "" && forall i | 0 <= i < |s| :: IsDigit(s[i])
  }

  function Parse(s: string): nat
    requires forall i | 0 <= i < |s| :: IsDigit(s[i])
  {
    assert s != "" ==> IsDigit(s[|s| - 1]);
    if s == "" then 0 else Parse(s[..|s| - 1]) * 10 + (s[|s| - 1] as int - '0' as int)
  }

  lemma DigitValue(n: nat)
    requires n < 10
    ensures IsDigit(Digit(n)) && Digit(n) as int - '0' as int == n
  {
  }

  lemma {:induction false} RoundTrip(n: nat)
    ensures IsDigits(Show(n)) && Parse(Show(n)) == n
  {
    if n < 10 {
      DigitValue(n);
      assert Show(n)[..0] == "";
    } else {
      RoundTrip(n / 10);
      DigitValue(n % 10);
      assert Show(n)[..|Show(n)| - 1] == Show(n / 10);
    }
  }
}

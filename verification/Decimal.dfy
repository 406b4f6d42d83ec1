/** Numbers as they are printed and read in decimal. */
module Decimal {
  predicate IsDigit(c: char) {
    '0' <= c <= '9'
  }

  function DigitOf(c: char): nat
    requires IsDigit(c)
  {
    c as nat - '0' as nat
  }

  predicate AllDigits(s: string) {
    forall c <- s :: IsDigit(c)
  }

  function ValueOf(s: string): nat
    requires AllDigits(s)
  {
    if s == "" then 0 else 10 * ValueOf(s[..|s| - 1]) + DigitOf(s[|s| - 1])
  }

  /** A number as it is printed. */
  function Digits(n: nat): (s: string)
    ensures s != "" && AllDigits(s)
  {
    var last := '0' + (n % 10) as char;
    if n < 10 then [last] else Digits(n / 10) + [last]
  }

  lemma {:induction false} PrintedParses(n: nat)
    ensures ValueOf(Digits(n)) == n
  {
    var last := '0' + (n % 10) as char;
    assert DigitOf(last) == n % 10;
    if n < 10 {
      assert Digits(n) == [last] && Digits(n)[..0] == "";
    } else {
      PrintedParses(n / 10);
      assert Digits(n)[..|Digits(n)| - 1] == Digits(n / 10);
    }
  }

  /** Two numbers are printed differently. */
  lemma PrintedOnce(m: nat, n: nat)
    ensures Digits(m) == Digits(n) <==> m == n
  {
    PrintedParses(m);
    PrintedParses(n);
  }
}

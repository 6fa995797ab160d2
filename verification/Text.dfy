/** Searching text, and numbers written in decimal. */
module Text {
  predicate StartsWith(s: string, t: string) {
    t <= s
  }

  predicate EndsWith(s: string, t: string) {
    |t| <= |s| && s[|s| - |t|..] == t
  }

  predicate Contains(s: string, t: string) {
    exists i | 0 <= i <= |s| :: StartsWith(s[i..], t)
  }

  predicate IsDigit(c: char) {
    '0' <= c <= '9'
  }

  function Digit(c: char): nat
    requires IsDigit(c)
  {
    c as int - '0' as int
  }

  function Decimal(digits: string): nat
    requires forall c <- digits :: IsDigit(c)
  {
    if digits == [] then 0
    else
      var last := digits[|digits| - 1];
      assert last in digits;
      10 * Decimal(digits[..|digits| - 1]) + Digit(last)
  }

  predicate AllDigits(s: string) {
    s != [] && forall c <- s :: IsDigit(c)
  }

  function Show(n: nat): (s: string)
    ensures AllDigits(s)
  {
    var d := ['0', '1', '2', '3', '4', '5', '6', '7', '8', '9'][n % 10];
    if n < 10 then [d] else Show(n / 10) + [d]
  }

  lemma {:induction false} ShowRoundTrip(n: nat)
    ensures Decimal(Show(n)) == n
  {
    var d := ['0', '1', '2', '3', '4', '5', '6', '7', '8', '9'][n % 10];
    assert Digit(d) == n % 10;
    if n < 10 {
      assert Show(n)[..0] == [];
    } else {
      ShowRoundTrip(n / 10);
      assert Show(n)[..|Show(n)| - 1] == Show(n / 10);
    }
  }
}

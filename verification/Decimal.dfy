/** Decimal notation as std::to_string and cxxtest's numberToString produce it. */
module Decimal {

  ghost predicate IsDigits(s: string) {
    forall i :: 0 <= i < |s| ==> '0' <= s[i] <= '9'
  }

  function DigitToChar(d: nat): char
    requires d < 10
  {
    (d as char) + '0'
  }

  function ToString(n: nat): (s: string)
    ensures |s| > 0 && IsDigits(s)
  {
    if n < 10 then [DigitToChar(n)] else ToString(n / 10) + [DigitToChar(n % 10)]
  }

  function Value(s: string): nat
    requires IsDigits(s)
  {
    if s == [] then 0 else 10 * Value(s[..|s| - 1]) + (s[|s| - 1] - '0') as nat
  }

  /** Reading the digits back gives the number. */
  lemma {:induction false} ValueOfString(n: nat)
    ensures Value(ToString(n)) == n
  {
    var s := ToString(n);
    if n < 10 {
      assert s[..0] == [];
      assert Value(s[..0]) == 0;
    } else {
      ValueOfString(n / 10);
      assert s[..|s| - 1] == ToString(n / 10);
    }
  }

  lemma ToStringInjective(m: nat, n: nat)
    requires ToString(m) == ToString(n)
    ensures m == n
  {
    ValueOfString(m);
    ValueOfString(n);
  }
}

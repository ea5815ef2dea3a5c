/** Divisibility and primes, for the factorisation in Factorisation.dfy. */
module Primes {

  ghost predicate Divides(d: nat, n: nat) {
    exists q: nat :: n == d * q
  }

  lemma {:induction false} ModIsDivides(d: nat, n: nat)
    requires d > 0
    ensures n % d == 0 <==> Divides(d, n)
  {
    if n % d == 0 {
      assert n == d * (n / d);
    } else if Divides(d, n) {
      var q: nat :| n == d * q;
      MultipleHasNoRemainder(d, q);
    }
  }

  lemma MultipleHasNoRemainder(d: nat, q: nat)
    requires d > 0
    ensures (d * q) % d == 0
  {
    var n := d * q;
    var k := q - n / d;
    assert n == d * (n / d) + n % d;
    assert n % d == d * k;
    Scale(d, k);
  }

  lemma Scale(d: int, k: int)
    requires d > 0
    ensures k >= 1 ==> d * k >= d
    ensures k <= -1 ==> d * k <= -d
  {
  }

  lemma DividesTrans(a: nat, b: nat, c: nat)
    requires Divides(a, b) && Divides(b, c)
    ensures Divides(a, c)
  {
    var p: nat :| b == a * p;
    var q: nat :| c == b * q;
    assert c == a * (p * q);
  }

  ghost predicate Prime(p: nat) {
    p >= 2 && NoneBelow(p, p)
  }

  /** No number from 2 up to the bound divides n. */
  ghost predicate NoneBelow(n: nat, bound: nat) {
    forall d: nat :: 2 <= d < bound ==> !Divides(d, n)
  }

  /** Trial division up to the square root is enough. */
  lemma SmallestDivisor(n: nat, bound: nat)
    requires n >= 2 && NoneBelow(n, bound) && n < bound * bound
    ensures Prime(n)
  {
    forall d: nat | 2 <= d < n ensures !Divides(d, n) {
      if Divides(d, n) { BothLarge(d, n, bound); }
    }
  }

  lemma BothLarge(d: nat, n: nat, bound: nat)
    requires Divides(d, n) && 2 <= d < n && NoneBelow(n, bound)
    ensures n >= bound * bound
  {
    var q: nat :| n == d * q;
    assert q >= 2 by {
      Scale(d, 1 - q);
      assert d * (1 - q) == d - n;
    }
    assert Divides(q, n) by { assert n == q * d; }
    Product(d, q, bound);
  }

  lemma Product(d: nat, q: nat, bound: nat)
    requires d >= bound && q >= bound
    ensures d * q >= bound * bound
  {
    assert d * q >= bound * q by { assert (d - bound) * q >= 0; }
    assert bound * q >= bound * bound by { assert bound * (q - bound) >= 0; }
  }

  /** The least divisor is prime. */
  lemma LeastIsPrime(f: nat, n: nat)
    requires f >= 2 && Divides(f, n) && NoneBelow(n, f)
    ensures Prime(f)
  {
    forall d: nat | 2 <= d < f ensures !Divides(d, f) {
      if Divides(d, f) { DividesTrans(d, f, n); }
    }
  }

  /** Skipping the even candidate after an odd one loses nothing. */
  lemma SkipEven(n: nat, f: nat)
    requires f >= 3 && f % 2 == 1 && NoneBelow(n, f) && !Divides(f, n)
    ensures NoneBelow(n, f + 2)
  {
    assert f + 1 == 2 * ((f + 1) / 2);
    assert Divides(2, f + 1);
    if Divides(f + 1, n) { DividesTrans(2, f + 1, n); }
  }

  /** A divisor of n has no small divisors either. */
  lemma NoneBelowDivisor(m: nat, n: nat, bound: nat)
    requires Divides(m, n) && NoneBelow(n, bound)
    ensures NoneBelow(m, bound)
  {
    forall d: nat | 2 <= d < bound ensures !Divides(d, m) {
      if Divides(d, m) { DividesTrans(d, m, n); }
    }
  }
}

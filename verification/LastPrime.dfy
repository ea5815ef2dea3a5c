/** The number at which the factorisation treats a prime differently is a prime. Shown without dividing:
    if a number has many different powers modulo every divisor, then all its divisors are large. */
module LastPrime {
  import opened Counting
  import Decimal
  import opened Factorisation
  import opened FactorText
  import opened Numbers
  import opened Primes

  // ---- Congruences and powers ----

  ghost predicate Cong(x: int, y: int, n: nat) {
    exists t: int :: x - y == n * t
  }

  lemma CongSelf(x: int, n: nat)
    ensures Cong(x, x, n)
  {
    assert x - x == n * 0;
  }

  lemma CongMul(x: int, y: int, u: int, v: int, n: nat)
    requires Cong(x, y, n) && Cong(u, v, n)
    ensures Cong(x * u, y * v, n)
  {
    var t: int :| x - y == n * t;
    var s: int :| u - v == n * s;
    calc {
      x * u - y * v;
      (x - y) * u + y * (u - v);
      n * t * u + y * (n * s);
      n * (t * u + y * s);
    }
  }

  /** Two numbers congruent to a third are congruent. */
  lemma CongJoin(x: int, y: int, z: int, n: nat)
    requires (Cong(x, y, n) || Cong(y, x, n)) && (Cong(y, z, n) || Cong(z, y, n))
    ensures Cong(x, z, n)
  {
    var t := Quotient(x, y, n);
    var s := Quotient(y, z, n);
    assert x - z == n * (t + s);
  }

  lemma Quotient(x: int, y: int, n: nat) returns (t: int)
    requires Cong(x, y, n) || Cong(y, x, n)
    ensures x - y == n * t
  {
    if Cong(x, y, n) {
      t :| x - y == n * t;
    } else {
      var s: int :| y - x == n * s;
      t := -s;
    }
  }

  lemma CongDivisor(x: int, y: int, d: nat, n: nat)
    requires Cong(x, y, n) && Divides(d, n)
    ensures Cong(x, y, d)
  {
    var t: int :| x - y == n * t;
    var q: nat :| n == d * q;
    assert x - y == d * (q * t);
  }

  lemma {:induction false} PowAdd(b: nat, i: nat, j: nat)
    ensures Pow(b, i + j) == Pow(b, i) * Pow(b, j)
  {
    if i > 0 {
      PowAdd(b, i - 1, j);
      assert b * (Pow(b, i - 1) * Pow(b, j)) == b * Pow(b, i - 1) * Pow(b, j);
    }
  }

  lemma {:induction false} PowPow(b: nat, m: nat, k: nat)
    ensures Pow(Pow(b, m), k) == Pow(b, m * k)
  {
    if k > 0 {
      PowPow(b, m, k - 1);
      PowAdd(b, m, m * (k - 1));
      assert m * k == m + m * (k - 1);
    } else {
      assert m * 0 == 0;
    }
  }

  lemma {:induction false} CongPow(x: nat, y: nat, k: nat, n: nat)
    requires Cong(x, y, n)
    ensures Cong(Pow(x, k), Pow(y, k), n)
  {
    if k > 0 {
      CongPow(x, y, k - 1, n);
      CongMul(x, y, Pow(x, k - 1), Pow(y, k - 1), n);
    } else {
      CongSelf(1, n);
    }
  }

  lemma {:induction false} PowOne(k: nat)
    ensures Pow(1, k) == 1
  {
    if k > 0 { PowOne(k - 1); }
  }

  /** One bit of an exponent, a zero. */
  lemma PowerTwice(b: nat, e: nat, x: nat, y: nat, t: nat, n: nat)
    requires Cong(Pow(b, e), x, n) && x * x - y == n * t
    ensures Cong(Pow(b, 2 * e), y, n)
  {
    PowAdd(b, e, e);
    hide Pow;
    CongMul(Pow(b, e), x, Pow(b, e), x, n);
    assert Cong(x * x, y, n);
    CongJoin(Pow(b, 2 * e), x * x, y, n);
  }

  /** One bit of an exponent, a one. */
  lemma PowerTwiceAndOne(b: nat, e: nat, x: nat, y: nat, t: nat, n: nat)
    requires Cong(Pow(b, e), x, n) && x * x * b - y == n * t
    ensures Cong(Pow(b, 2 * e + 1), y, n)
  {
    PowAdd(b, e, e);
    PowAdd(b, 2 * e, 1);
    assert Pow(b, 1) == b * Pow(b, 0) == b;
    hide Pow;
    CongSelf(b, n);
    CongMul(Pow(b, e), x, Pow(b, e), x, n);
    CongMul(Pow(b, e) * Pow(b, e), x * x, b, b, n);
    assert Cong(x * x * b, y, n);
    CongJoin(Pow(b, 2 * e + 1), x * x * b, y, n);
  }

  // ---- When a power is 1 ----

  /** The exponents at which the powers are 1 are closed under differences. */
  lemma OneLess(c: nat, a: nat, k: nat, d: nat)
    requires k <= a && Cong(Pow(c, a), 1, d) && Cong(Pow(c, k), 1, d)
    ensures Cong(Pow(c, a - k), 1, d)
  {
    PowAdd(c, a - k, k);
    hide Pow;
    var p := Pow(c, a - k);
    CongSelf(p, d);
    CongMul(p, p, Pow(c, k), 1, d);
    CongJoin(p, Pow(c, a), 1, d);
  }

  lemma {:induction false} CommonDivisor(c: nat, a: nat, k: nat, d: nat) returns (g: nat)
    requires a > 0 && k > 0 && Cong(Pow(c, a), 1, d) && Cong(Pow(c, k), 1, d)
    ensures Divides(g, a) && Divides(g, k) && Cong(Pow(c, g), 1, d)
    decreases a + k
  {
    if a == k {
      g := a;
      DividesSelf(a);
    } else if a > k {
      OneLess(c, a, k, d);
      g := CommonDivisor(c, a - k, k, d);
      DividesSum(g, a - k, k);
    } else {
      OneLess(c, k, a, d);
      g := CommonDivisor(c, a, k - a, d);
      DividesSum(g, k - a, a);
    }
  }

  lemma DividesSum(g: nat, a: nat, k: nat)
    requires Divides(g, a) && Divides(g, k)
    ensures Divides(g, a + k)
  {
    var p: nat :| a == g * p;
    var q: nat :| k == g * q;
    assert a + k == g * (p + q);
  }

  /** With a prime exponent, another exponent leaves only 1 itself. */
  lemma PrimeOrder(c: nat, r: nat, k: nat, d: nat)
    requires Prime(r) && k > 0 && !Divides(r, k) && Cong(Pow(c, r), 1, d) && Cong(Pow(c, k), 1, d)
    ensures Cong(c, 1, d)
  {
    var g := CommonDivisor(c, r, k, d);
    var q: nat :| r == g * q;
    assert q != 0 && g != 0;
    Scale(g, q);
    assert g == 1;
    assert Pow(c, 1) == c * Pow(c, 0) == c;
  }

  lemma BelowIsNoMultiple(r: nat, k: nat)
    requires 0 < k < r
    ensures !Divides(r, k)
  {
    forall q: nat ensures k != r * q { Scale(r, q); }
  }

  // ---- Many different powers make a divisor large ----

  lemma SamePower(b: nat, i: nat, j: nat, top: nat, d: nat)
    requires i < j <= top && Cong(Pow(b, top), 1, d) && Cong(Pow(b, i), Pow(b, j), d)
    ensures Cong(Pow(b, j - i), 1, d)
  {
    var p, q := Pow(b, top - i), Pow(b, j - i);
    PowAdd(b, i, top - i);
    PowAdd(b, j, top - i);
    PowAdd(b, j - i, top);
    hide Pow;
    CongSelf(p, d);
    CongMul(Pow(b, i), Pow(b, j), p, p, d);
    CongSelf(q, d);
    CongMul(q, q, Pow(b, top), 1, d);
    CongJoin(Pow(b, top), q * Pow(b, top), q, d);
    CongJoin(q, Pow(b, top), 1, d);
  }

  lemma SameRemainder(x: nat, y: nat, d: nat)
    requires d > 0 && x % d == y % d
    ensures Cong(x, y, d)
  {
    var a, b := x / d, y / d;
    assert x == d * a + x % d && y == d * b + y % d;
    assert x - y == d * (a - b);
  }

  lemma ManyPowers(b: nat, top: nat, d: nat)
    requires d > 0 && Cong(Pow(b, top), 1, d)
    requires forall k :: 0 < k < top ==> !Cong(Pow(b, k), 1, d)
    ensures d >= top
  {
    hide Pow, Cong;
    var powers := seq(top, i requires 0 <= i < top => Remainder(Pow(b, i), d));
    forall i, j | 0 <= i < j < top ensures powers[i] != powers[j] {
      if powers[i] == powers[j] {
        SameRemainder(Pow(b, i), Pow(b, j), d);
        SamePower(b, i, j, top, d);
      }
    }
    DistinctCount(powers);
    assert forall x :: x in powers ==> x < d;
    SubsetIsSmaller(Elems(powers), Below(d));
  }

  function Remainder(x: nat, d: nat): (r: nat)
    requires d > 0
    ensures r < d
  {
    x % d
  }

  lemma SubsetIsSmaller(a: set<nat>, b: set<nat>)
    requires a <= b
    ensures |a| <= |b|
  {
    assert b == a + (b - a);
  }

  /** A divisor modulo which b - 1 vanishes divides 1. */
  lemma CoprimeToOne(b: nat, u: int, v: int, n: nat, d: nat)
    requires Cong(b, 1, d) && Divides(d, n) && u * (b - 1) + v * n == 1
    ensures d <= 1
  {
    var t: int :| b - 1 == d * t;
    var q: nat :| n == d * q;
    Combine(d, t, q, u, v);
    var w := u * t + v * q;
    assert d * w == 1;
    if d > 1 { Scale(d, w); }
  }

  lemma Combine(d: nat, t: int, q: int, u: int, v: int)
    ensures u * (d * t) + v * (d * q) == d * (u * t + v * q)
  {
    assert u * (d * t) == d * (u * t) && v * (d * q) == d * (v * q);
  }

  // ---- The two primes ----

  const Q: nat := 22605091  // the largest prime factor of LAST_PRIME - 1

  lemma Prime181()
    ensures Prime(181)
  {
    forall d: nat | 2 <= d < 14 ensures !Divides(d, 181) { ModIsDivides(d, 181); }
    SmallestDivisor(181, 14);
  }

  lemma PowersModQ()
    ensures Cong(Pow(18389778, 181), 13954217, Q)
  {
    FirstPower(18389778, Q);
    hide Pow, Cong;
    PowerTwice(18389778, 1, 18389778, 18881964, 14960520, Q);
    PowerTwiceAndOne(18389778, 2, 18881964, 22134795, 290044448472423, Q);
    PowerTwiceAndOne(18389778, 5, 22134795, 19857376, 398585260909814, Q);
    PowerTwice(18389778, 11, 19857376, 18167953, 17443653, Q);
    PowerTwiceAndOne(18389778, 22, 18167953, 15500452, 268523452374650, Q);
    PowerTwice(18389778, 45, 15500452, 15607508, 10628756, Q);
    PowerTwiceAndOne(18389778, 90, 15607508, 13954217, 198169748967325, Q);
  }

  lemma MorePowersModQ()
    ensures Cong(Pow(13954217, 181), 1, Q)
  {
    FirstPower(13954217, Q);
    hide Pow, Cong;
    PowerTwice(13954217, 1, 13954217, 8629453, 8613996, Q);
    PowerTwiceAndOne(13954217, 2, 8629453, 8652108, 45969073224695, Q);
    PowerTwiceAndOne(13954217, 5, 8652108, 18624071, 46210756305187, Q);
    PowerTwice(13954217, 11, 18624071, 519936, 15344155, Q);
    PowerTwiceAndOne(13954217, 22, 519936, 122734, 166877963078, Q);
    PowerTwice(13954217, 45, 122734, 8644150, 666, Q);
    PowerTwiceAndOne(13954217, 90, 8644150, 1, 46125788323489, Q);
  }

  lemma FirstPower(b: nat, n: nat)
    ensures Cong(Pow(b, 1), b, n)
  {
    assert Pow(b, 1) == b * Pow(b, 0) == b;
    CongSelf(b, n);
  }

  lemma DivisorsOfQ(d: nat)
    requires d >= 2 && Divides(d, Q)
    ensures d >= 181 * 181
  {
    hide Pow, Cong, Divides, Prime;
    var b := 18389778;
    var c := Pow(b, 181);
    Prime181();
    PowersModQ();
    MorePowersModQ();
    CongPow(c, 13954217, 181, Q);
    CongJoin(Pow(c, 181), Pow(13954217, 181), 1, Q);
    CongDivisor(Pow(c, 181), 1, d, Q);
    CongDivisor(c, 13954217, d, Q);
    PowPow(b, 181, 181);
    assert !Cong(c, 1, d) by {
      if Cong(c, 1, d) {
        CongJoin(13954217, c, 1, d);
        CoprimeToOne(13954217, -3035345, 1873731, Q, d);
      }
    }
    forall k | 0 < k < 181 * 181 ensures !Cong(Pow(b, k), 1, d) {
      if Cong(Pow(b, k), 1, d) { PowerOfQ(b, c, k, d); }
    }
    ManyPowers(b, 181 * 181, d);
  }

  lemma PowerOfQ(b: nat, c: nat, k: nat, d: nat)
    requires c == Pow(b, 181) && Prime(181) && Cong(Pow(c, 181), 1, d) && 0 < k < 181 * 181 && Cong(Pow(b, k), 1, d)
    ensures Cong(c, 1, d)
  {
    hide Pow, Cong;
    if Divides(181, k) {
      var j: nat :| k == 181 * j;
      PowPow(b, 181, j);
      BelowIsNoMultiple(181, j);
      PrimeOrder(c, 181, j, d);
    } else {
      CongPow(Pow(b, k), 1, 181, d);
      PowOne(181);
      PowPow(b, k, 181);
      PowPow(b, 181, k);
      PrimeOrder(c, 181, k, d);
    }
  }

  lemma PrimeQ()
    ensures Prime(Q)
  {
    forall d: nat | 2 <= d < 181 * 181 ensures !Divides(d, Q) {
      if Divides(d, Q) { DivisorsOfQ(d); }
    }
    SmallestDivisor(Q, 181 * 181);
  }

  lemma PowersModLast()
    ensures Cong(Pow(1073745729, Q), 1, LAST_PRIME)
  {
    FirstPower(1073745729, LAST_PRIME);
    hide Pow, Cong;
    PowerTwice(1073745729, 1, 1073745729, 3504919713, 268437408, LAST_PRIME);
    PowerTwiceAndOne(1073745729, 2, 3504919713, 2762101756, 3071126721297293695, LAST_PRIME);
    PowerTwice(1073745729, 5, 2762101756, 1474251975, 1776312971, LAST_PRIME);
    PowerTwiceAndOne(1073745729, 10, 1474251975, 4065820878, 543356698160813817, LAST_PRIME);
    PowerTwiceAndOne(1073745729, 21, 4065820878, 1820247785, 4132739887760620961, LAST_PRIME);
    PowerTwice(1073745729, 43, 1820247785, 3855700258, 771438237, LAST_PRIME);
    PowerTwice(1073745729, 86, 3855700258, 1858816020, 3461359184, LAST_PRIME);
    PowerTwice(1073745729, 172, 1858816020, 2210652769, 804475741, LAST_PRIME);
    PowerTwiceAndOne(1073745729, 344, 2210652769, 3255072328, 1221750860959417051, LAST_PRIME);
    PowerTwiceAndOne(1073745729, 689, 3255072328, 2036108090, 2648883601675193906, LAST_PRIME);
    PowerTwiceAndOne(1073745729, 1379, 2036108090, 2579436866, 1036437809065933574, LAST_PRIME);
    PowerTwice(1073745729, 2759, 2579436866, 1810740027, 1549137419, LAST_PRIME);
    PowerTwiceAndOne(1073745729, 5518, 1810740027, 3638735613, 819697843377527508, LAST_PRIME);
    PowerTwiceAndOne(1073745729, 11037, 3638735613, 2142344274, 3310111257399430197, LAST_PRIME);
    PowerTwice(1073745729, 22075, 2142344274, 164317185, 1068608601, LAST_PRIME);
    PowerTwiceAndOne(1073745729, 44150, 164317185, 3827152162, 6750058878062893, LAST_PRIME);
    PowerTwice(1073745729, 88301, 3827152162, 305512203, 3410292251, LAST_PRIME);
    PowerTwice(1073745729, 176602, 305512203, 999910711, 21731878, LAST_PRIME);
    PowerTwiceAndOne(1073745729, 353204, 999910711, 3852027162, 249956266825425717, LAST_PRIME);
    PowerTwice(1073745729, 706409, 3852027162, 894754220, 3454767464, LAST_PRIME);
    PowerTwice(1073745729, 1412818, 894754220, 2824842023, 186400747, LAST_PRIME);
    PowerTwice(1073745729, 2825636, 2824842023, 3541280234, 1857926245, LAST_PRIME);
    PowerTwiceAndOne(1073745729, 5651272, 3541280234, 4191888076, 3135177829598793928, LAST_PRIME);
    PowerTwiceAndOne(1073745729, 11302545, 4191888076, 1, 4392997392001035133, LAST_PRIME);
  }

  lemma DivisorsOfLast(d: nat)
    requires d >= 2 && Divides(d, LAST_PRIME)
    ensures d >= Q
  {
    hide Pow, Cong, Divides, Prime;
    var b := 1073745729;
    PrimeQ();
    PowersModLast();
    CongDivisor(Pow(b, Q), 1, d, LAST_PRIME);
    assert !Cong(b, 1, d) by {
      if Cong(b, 1, d) { CoprimeToOne(b, 1771216906, -442805837, LAST_PRIME, d); }
    }
    forall k | 0 < k < Q ensures !Cong(Pow(b, k), 1, d) {
      BelowIsNoMultiple(Q, k);
      if Cong(Pow(b, k), 1, d) { PrimeOrder(b, Q, k, d); }
    }
    ManyPowers(b, Q, d);
  }

  /** 4294967291 is a prime, so the exception is real. */
  lemma LastPrimeIsPrime()
    ensures Prime(LAST_PRIME)
  {
    forall d: nat | 2 <= d < Q ensures !Divides(d, LAST_PRIME) {
      if Divides(d, LAST_PRIME) { DivisorsOfLast(d); }
    }
    SmallestDivisor(LAST_PRIME, Q);
  }

  /** The prime that gets no smiley. */
  method PrimeWithoutSmiley(mood: Mood) returns (s: string, ghost factors: seq<PrimePower>)
    ensures Prime(LAST_PRIME) && IsFactorisation(factors, LAST_PRIME)
    ensures s == Decimal.ToString(LAST_PRIME) + Rendered(factors) != Decimal.ToString(LAST_PRIME) + Smiley(mood)
  {
    hide Rendered, Decimal.ToString, Prime;
    LastPrimeIsPrime();
    s, factors := StrTotalTests(LAST_PRIME, mood);
    assert factors != [] by { assert ProductOf([]) == 1; }
    SmileyIsNoFactor(LAST_PRIME, factors, mood);
  }
}

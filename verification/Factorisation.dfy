/** WorldDescription::strTotalTests with _CXXTEST_FACTOR: trial division on 32-bit unsigned numbers. */
module Factorisation {
  import opened Numbers
  import Decimal
  import opened Primes
  import opened FactorText
  import opened Options

  const WORD: nat := 0x1_0000_0000

  function ProductOf(fs: seq<PrimePower>): nat {
    if fs == [] then 1 else ProductOf(fs[..|fs| - 1]) * Pow(fs[|fs| - 1].prime, fs[|fs| - 1].power)
  }

  /** Strictly increasing primes, each at least once, that multiply to the number. */
  ghost predicate IsFactorisation(fs: seq<PrimePower>, n: nat) {
    ProductOf(fs) == n && Increasing(fs)
  }

  ghost predicate Increasing(fs: seq<PrimePower>) {
    && (forall i :: 0 <= i < |fs| ==> Prime(fs[i].prime) && fs[i].power >= 1)
    && (forall i, j :: 0 <= i < j < |fs| ==> fs[i].prime < fs[j].prime)
  }

  lemma ProductOneMore(fs: seq<PrimePower>, f: PrimePower)
    ensures ProductOf(fs + [f]) == ProductOf(fs) * Pow(f.prime, f.power)
  {
    assert (fs + [f])[..|fs|] == fs;
  }

  /** factor * factor as the machine computes it. */
  function Square(factor: nat): nat { (factor * factor) % WORD }

  // ---- The factors found and what is left, while the loop runs ----

  /** The one prime the loop divides by itself: its square, like every odd one, wraps around to less. */
  const LAST_PRIME: nat := 4294967291

  /** The factor whose square wraps around to the largest value an odd square can take. */
  const TURN: nat := 479772853

  /** Beyond 65535 the square wraps around and no longer stops the loop; but then nothing was ever
      divided out, and what is left is a prime. The loop stops by factor TURN at the latest, but for one prime. */
  ghost predicate Late(total: nat, found: seq<PrimePower>, n: nat, factor: nat) {
    && total >= 65535 * 65535 && 65537 <= factor && factor % 2 == 1
    && if n == 1 then total == LAST_PRIME && factor == total + 2 && found != []
       else n == total && found == [] && NoneBelow(n, 65537) && factor <= n && (factor <= TURN || total == LAST_PRIME)
  }

  ghost predicate Early(total: nat, found: seq<PrimePower>, factor: nat) {
    factor <= 65535 && (factor == 2 || (factor >= 3 && factor % 2 == 1)) && (Prime(total) ==> found == [])
  }

  ghost predicate Inv(total: nat, found: seq<PrimePower>, n: nat, factor: nat) {
    && 1 <= n && 1 <= total && total == ProductOf(found) * n && Increasing(found)
    && (forall i :: 0 <= i < |found| ==> found[i].prime < factor)
    && NoneBelow(n, factor)
    && (Early(total, found, factor) || Late(total, found, n, factor))
  }

  /** n with the candidate divided out as often as it goes. */
  ghost predicate TakenOut(n: nat, factor: nat, rest: nat, power: nat) {
    n == rest * Pow(factor, power) && !Divides(factor, rest)
  }

  function Next(factor: nat): nat { if factor == 2 then 3 else factor + 2 }

  // ---- One candidate ----

  lemma Squares(a: nat, b: nat)
    requires a <= b
    ensures a * a <= b * b
  {
    assert a * a <= a * b <= b * b;
  }

  /** No odd square near the end of the range wraps around to 0 or 1. */
  lemma WrappedExit(f: nat)
    requires 65535 * 65535 + 2 <= f <= WORD - 3 && f % 2 == 1
    ensures Square(f) > 1
  {
    var g := WORD - f;
    var q := (g * g) / WORD;
    assert g % 2 == 1;
    Squares(3, g);
    Squares(g, 131069);
    if g <= 65535 { Squares(g, 65535); } else { Squares(65537, g); }
    if g <= 92681 { Squares(g, 92681); } else { Squares(92682, g); }
    if g <= 113511 { Squares(g, 113511); } else { Squares(113512, g); }
    assert f * f == g * g + WORD * (WORD - 2 * g);
    AddMultiple(g * g, WORD - 2 * g);
  }

  lemma AddMultiple(a: nat, k: nat)
    ensures (a + WORD * k) % WORD == a % WORD
  {
  }

  function Extend(found: seq<PrimePower>, factor: nat, power: nat): seq<PrimePower> {
    if power == 0 then found else found + [PrimePower(factor, power)]
  }

  lemma ProductKept(found: seq<PrimePower>, n: nat, factor: nat, rest: nat, power: nat)
    requires TakenOut(n, factor, rest, power)
    ensures ProductOf(found) * n == ProductOf(Extend(found, factor, power)) * rest
  {
    if power > 0 {
      ProductOneMore(found, PrimePower(factor, power));
      hide ProductOf, Pow;
      Rearrange(ProductOf(found), rest, Pow(factor, power));
    }
  }

  lemma OneMorePrime(found: seq<PrimePower>, n: nat, factor: nat, rest: nat, power: nat)
    requires Increasing(found) && factor >= 2 && forall i :: 0 <= i < |found| ==> found[i].prime < factor
    requires NoneBelow(n, factor) && TakenOut(n, factor, rest, power)
    ensures Increasing(Extend(found, factor, power))
    ensures forall i :: 0 <= i < |Extend(found, factor, power)| ==> Extend(found, factor, power)[i].prime < Next(factor)
  {
    if power > 0 {
      PowerDivides(n, factor, rest, power);
      LeastIsPrime(factor, n);
      hide TakenOut, NoneBelow, Prime, Divides;
    }
  }

  lemma Rearrange(a: nat, b: nat, c: nat)
    ensures a * (b * c) == (a * c) * b
  {
  }

  lemma PowerDivides(n: nat, factor: nat, rest: nat, power: nat)
    requires n == rest * Pow(factor, power) && power > 0
    ensures Divides(factor, n)
  {
    var p := Pow(factor, power - 1);
    Rearrange(rest, factor, p);
    assert n == factor * (rest * p);
  }

  lemma NoneBelowNext(n: nat, factor: nat, rest: nat, power: nat)
    requires factor == 2 || (factor >= 3 && factor % 2 == 1)
    requires NoneBelow(n, factor) && TakenOut(n, factor, rest, power)
    ensures NoneBelow(rest, Next(factor)) && Divides(rest, n)
  {
    assert Divides(rest, n);
    NoneBelowDivisor(rest, n, factor);
    if factor > 2 { SkipEven(rest, factor); }
  }

  /** Nothing comes out for a candidate that does not divide. */
  lemma NothingOut(n: nat, factor: nat, rest: nat, power: nat)
    requires factor >= 2 && !Divides(factor, n) && TakenOut(n, factor, rest, power)
    ensures power == 0 && rest == n
  {
    if power > 0 { PowerDivides(n, factor, rest, power); }
  }

  lemma OddPrimeBelowWord(p: nat)
    requires Prime(p) && 65535 * 65535 <= p < WORD
    ensures p <= WORD - 5 && p % 2 == 1
  {
    NotMultiple(p, 2, p / 2);
    NotMultiple(p, 3, 1431655765);
    NotMultiple(p, 9241, 464773);
  }

  lemma NotMultiple(p: nat, d: nat, q: nat)
    requires Prime(p) && 2 <= d < p
    ensures p != d * q
  {
    assert !Divides(d, p);
  }

  lemma AtLeastTwice(p: nat, n: nat)
    ensures p >= 2 ==> p * n >= 2 * n
  {
  }

  /** An odd square is 1 modulo 8, so after wrapping around it is at most WORD - 7. */
  lemma OddSquare(f: nat)
    requires f % 2 == 1
    ensures Square(f) <= WORD - 7
  {
    var e := OneMoreThanEight(f / 2);
    assert f == 2 * (f / 2) + 1;
    OneModEight(e);
  }

  lemma {:induction false} OneMoreThanEight(h: nat) returns (e: nat)
    ensures (2 * h + 1) * (2 * h + 1) == 8 * e + 1
  {
    if h == 0 {
      e := 0;
    } else {
      e := OneMoreThanEight(h - 1);
      assert (2 * h + 1) * (2 * h + 1) == (2 * (h - 1) + 1) * (2 * (h - 1) + 1) + 8 * h;
      e := e + h;
    }
  }

  lemma OneModEight(e: nat)
    ensures (8 * e + 1) % WORD <= WORD - 7
  {
    var q := (8 * e + 1) / WORD;
    assert (8 * e + 1) % WORD == 8 * (e - 536870912 * q) + 1;
  }

  lemma TurnSquare()
    ensures Square(TURN) == WORD - 7
  {
    assert TURN * TURN == 53593420 * WORD + (WORD - 7);
  }

  /** A prime that lets the loop pass TURN is the last one. */
  lemma PastTurn(p: nat)
    requires Prime(p) && 65535 * 65535 <= p < WORD && Square(TURN) <= p
    ensures p == LAST_PRIME
  {
    TurnSquare();
    OddPrimeBelowWord(p);
    NotMultiple(p, 3, 1431655763);
  }

  /** The first factor found divides the total and is smaller, so a prime has none before 65535. */
  lemma PrimeFindsNone(total: nat, found: seq<PrimePower>, n: nat, factor: nat, rest: nat, power: nat)
    requires Prime(total) && found == [] && total == ProductOf(found) * n && TakenOut(n, factor, rest, power)
    requires 2 <= factor < total
    ensures power == 0
  {
    assert ProductOf([]) == 1;
    assert n == total;
    hide Pow;
    NothingOut(n, factor, rest, power);
  }

  /** Stepping past 65535 means n is still the whole, untouched number. */
  lemma TurnsLate(total: nat, found: seq<PrimePower>, n: nat, rest: nat, power: nat)
    requires Inv(total, found, n, 65535) && total < WORD && 65535 * 65535 <= n
    requires TakenOut(n, 65535, rest, power) && NoneBelow(rest, 65537)
    ensures Late(total, Extend(found, 65535, power), rest, 65537)
  {
    assert 65535 == 3 * 21845;
    assert Divides(3, 65535);
    if Divides(65535, n) { DividesTrans(3, 65535, n); }
    NothingOut(n, 65535, rest, power);
    var p := ProductOf(found);
    AtLeastTwice(p, n);
    assert p == 1;
    assert total == n;
    SmallestDivisor(n, 65537);
  }

  lemma StaysLate(total: nat, found: seq<PrimePower>, n: nat, factor: nat, rest: nat, power: nat)
    requires Late(total, found, n, factor) && total < WORD && Square(factor) <= n
    requires TakenOut(n, factor, rest, power)
    ensures Late(total, Extend(found, factor, power), rest, factor + 2)
  {
    if n == 1 { WrappedExit(factor); }
    assert n == total;
    SmallestDivisor(n, 65537);
    OddPrimeBelowWord(n);
    if factor == TURN { PastTurn(n); }
    if factor < n {
      NothingOut(n, factor, rest, power);
    } else {
      WholeOut(n, rest, power);
    }
  }

  lemma WholeOut(n: nat, rest: nat, power: nat)
    requires n >= 2 && TakenOut(n, n, rest, power)
    ensures rest == 1 && power > 0
  {
    DividesSelf(n);
    assert power > 0;
    var p := Pow(n, power - 1);
    assert Pow(n, power) == n * p;
    hide Pow, Divides;
    Rearrange(rest, n, p);
    OnlyOne(n, rest, p);
  }

  lemma DividesSelf(n: nat)
    ensures Divides(n, n)
  {
    assert n == n * 1;
  }

  lemma OnlyOne(n: nat, a: nat, b: nat)
    requires n >= 1 && (a * b) * n == n
    ensures a == 1
  {
    Primes.Scale(n, a * b - 1);
    assert n * (a * b - 1) == (a * b) * n - n;
    assert a * b == 1;
    assert a != 0;
    AtLeastTwice(a, b);
  }

  lemma RestAboveZero(n: nat, rest: nat, p: nat)
    requires n == rest * p && n > 0
    ensures rest > 0
  {
  }

  lemma EarlyOrLate(total: nat, found: seq<PrimePower>, n: nat, factor: nat, rest: nat, power: nat)
    requires Inv(total, found, n, factor) && total < WORD && Square(factor) <= n
    requires TakenOut(n, factor, rest, power)
    requires NoneBelow(rest, Next(factor))
    ensures var found' := Extend(found, factor, power);
      (Early(total, found', Next(factor)) || Late(total, found', rest, Next(factor))) && Next(factor) < WORD
  {
    hide TakenOut, Pow, NoneBelow, Divides, Prime, Increasing;
    if Late(total, found, n, factor) {
      hide Late, ProductOf;
      StaysLate(total, found, n, factor, rest, power);
      LateBelowWord(total, Extend(found, factor, power), rest, factor + 2);
    } else {
      EarlySquare(factor);
      if Prime(total) {
        assert ProductOf([]) == 1;
        PrimeFindsNone(total, found, n, factor, rest, power);
      }
      hide ProductOf;
      if factor == 65535 { TurnsLate(total, found, n, rest, power); }
    }
  }

  lemma EarlySquare(factor: nat)
    requires 2 <= factor <= 65535
    ensures Square(factor) == factor * factor > factor
  {
    Squares(factor, 65535);
    assert factor * factor >= 2 * factor;
  }

  lemma LateBelowWord(total: nat, found: seq<PrimePower>, n: nat, factor: nat)
    requires Late(total, found, n, factor) && total < WORD
    ensures factor < WORD
  {
  }

  lemma Iteration(total: nat, found: seq<PrimePower>, n: nat, factor: nat, rest: nat, power: nat)
    requires Inv(total, found, n, factor) && total < WORD && Square(factor) <= n
    requires TakenOut(n, factor, rest, power)
    ensures Inv(total, Extend(found, factor, power), rest, Next(factor))
    ensures Next(factor) < WORD && rest >= 1
  {
    assert factor == 2 || (factor >= 3 && factor % 2 == 1);
    assert rest > 0 by { RestAboveZero(n, rest, Pow(factor, power)); }
    hide Pow, ProductOf, Square, Increasing, NoneBelow, Late, TakenOut;
    ProductKept(found, n, factor, rest, power);
    OneMorePrime(found, n, factor, rest, power);
    assert NoneBelow(rest, Next(factor)) by { NoneBelowNext(n, factor, rest, power); }
    EarlyOrLate(total, found, n, factor, rest, power);
  }

  /** When the loop stops, what is left is 1 or one more, larger prime. Nothing was found exactly for
      the primes other than the last. */
  lemma LoopEnd(total: nat, found: seq<PrimePower>, n: nat, factor: nat)
    requires Inv(total, found, n, factor) && 1 < total < WORD && Square(factor) > n
    ensures n > 1 ==> IsFactorisation(found + [PrimePower(n, 1)], total)
    ensures n == 1 ==> IsFactorisation(found, total) && found != []
    ensures found == [] <==> Prime(total) && total != LAST_PRIME
  {
    if n > 1 {
      LeftIsPrime(total, found, n, factor);
      ProductOneMore(found, PrimePower(n, 1));
      assert Pow(n, 1) == n;
    }
    if found == [] {
      assert total == n;
      NotLast(total, found, n, factor);
    }
  }

  lemma LeftIsPrime(total: nat, found: seq<PrimePower>, n: nat, factor: nat)
    requires Inv(total, found, n, factor) && total < WORD && Square(factor) > n > 1
    ensures Prime(n) && forall i :: 0 <= i < |found| ==> found[i].prime < n
  {
    if Early(total, found, factor) {
      EarlySquare(factor);
      SmallestDivisor(n, factor);
    } else {
      SmallestDivisor(n, 65537);
    }
    DividesSelf(n);
  }

  /** The loop does not stop on the last prime before having divided it out. */
  lemma NotLast(total: nat, found: seq<PrimePower>, n: nat, factor: nat)
    requires Inv(total, found, n, factor) && n == total && 1 < total < WORD && Square(factor) > n
    ensures total != LAST_PRIME
  {
    hide ProductOf, NoneBelow, Prime, Increasing;
    if Early(total, found, factor) { EarlySquare(factor); Squares(factor, 65535); } else { OddSquare(factor); }
  }

  // ---- The method itself ----

  method DivideOut(n: nat, factor: nat) returns (rest: nat, power: nat)
    requires n >= 1 && factor >= 2
    ensures TakenOut(n, factor, rest, power)
  {
    rest, power := n, 0;
    while rest % factor == 0
      invariant rest >= 1 && n == rest * Pow(factor, power)
      decreases rest
    {
      OneMoreOut(rest, factor, power);
      rest, power := rest / factor, power + 1;
    }
    ModIsDivides(factor, rest);
  }

  lemma OneMoreOut(rest: nat, factor: nat, power: nat)
    requires rest >= 1 && factor >= 2 && rest % factor == 0
    ensures 1 <= rest / factor < rest
    ensures (rest / factor) * Pow(factor, power + 1) == rest * Pow(factor, power)
  {
    var q, p := rest / factor, Pow(factor, power);
    assert Pow(factor, power + 1) == factor * p;
    hide Pow;
    assert rest == factor * q;
    AtLeastTwice(factor, q);
    Rearrange(q, factor, p);
    Rearrange(p, q, factor);
  }

  lemma InvStart(total: nat)
    requires total > 1
    ensures Inv(total, [], total, 2)
  {
  }

  lemma RenderedNone()
    ensures Rendered([]) == ""
  {
  }

  method PrintFactor(factor: nat, power: nat) returns (s: string)
    ensures s == RenderedOne(PrimePower(factor, power))
  {
    s := Decimal.ToString(factor);
    if power > 1 {
      s := s + "^" + Decimal.ToString(power);
    }
  }

  /** What the loop leaves: the text of the factors found, and the number not divided out. */
  method TrialDivision(total: nat) returns (text: string, ghost found: seq<PrimePower>, numFactors: nat, n: nat)
    requires 1 < total < WORD
    ensures text == Rendered(found) && numFactors == |found| && 1 <= n
    ensures n == 1 ==> IsFactorisation(found, total)
    ensures n > 1 ==> IsFactorisation(found + [PrimePower(n, 1)], total)
    ensures n == 1 ==> found != []
    ensures found == [] <==> Prime(total) && total != LAST_PRIME
  {
    InvStart(total);
    RenderedNone();
    text, found, numFactors, n := "", [], 0, total;
    var factor := 2;
    hide *;
    while Square(factor) <= n
      invariant Inv(total, found, n, factor) && numFactors == |found| && 1 <= n && 2 <= factor < WORD
      invariant text == Rendered(found)
      decreases WORD - factor
    {
      var rest, power := DivideOut(n, factor);
      Iteration(total, found, n, factor, rest, power);
      if power > 0 {
        RenderedOneMore(found, PrimePower(factor, power));
        var one := PrintFactor(factor, power);
        text := text + (if numFactors == 0 then " = " else " * ") + one;
        numFactors := numFactors + 1;
      }
      ExtendSize(found, factor, power);
      found := Extend(found, factor, power);
      NextFits(factor);
      n, factor := rest, (factor + if factor == 2 then 1 else 2) % WORD;
    }
    LoopEnd(total, found, n, factor);
  }

  lemma ExtendSize(found: seq<PrimePower>, factor: nat, power: nat)
    ensures Extend(found, factor, power) == if power == 0 then found else found + [PrimePower(factor, power)]
  {
  }

  lemma NextFits(factor: nat)
    requires Next(factor) < WORD
    ensures (factor + if factor == 2 then 1 else 2) % WORD == Next(factor) > factor
  {
  }

  /** Prints the number of tests and its prime factors; a prime gets a smiley instead, but for one. For every
      32-bit number, although factor * factor may wrap around, the loop ends and the text is right. The one
      exception is the last prime below 2^32, which is printed as its own factor. */
  method StrTotalTests(total: nat, mood: Mood) returns (s: string, ghost factors: seq<PrimePower>)
    requires total < WORD
    ensures total <= 1 ==> s == Decimal.ToString(total)
    ensures total > 1 ==> IsFactorisation(factors, total)
    ensures total > 1 && Prime(total) && total != LAST_PRIME ==>
      s == Decimal.ToString(total) + " :" + [if mood.Failed? then '(' else if mood.Warned? then '|' else ')']
    ensures total > 1 && !(Prime(total) && total != LAST_PRIME) ==>
      && s == Decimal.ToString(total) + Rendered(factors)
      && ReadFactors(s[|Decimal.ToString(total)|..]) == Some(factors)
  {
    s := Decimal.ToString(total);
    factors := [];
    if total <= 1 { return; }
    var text, found, numFactors, n := TrialDivision(total);
    factors := found;
    if n > 1 {
      hide Rendered, Prime;
      factors := found + [PrimePower(n, 1)];
      RenderedOneMore(found, PrimePower(n, 1));
      text := if numFactors == 0 then Smiley(mood) else text + " * " + Decimal.ToString(n);
    }
    ReadsBack(factors);
    hide Rendered, Prime, ReadFactors;
    s := s + text;
    assert s[|Decimal.ToString(total)|..] == text;
  }
}

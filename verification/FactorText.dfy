/** The text of a factorisation, and a reader of it that knows nothing of how it is written. */
module FactorText {
  import opened Options
  import Decimal

  datatype PrimePower = PrimePower(prime: nat, power: nat)

  function Rendered(fs: seq<PrimePower>): string {
    if fs == [] then "" else
      Rendered(fs[..|fs| - 1]) + (if |fs| == 1 then " = " else " * ") + RenderedOne(fs[|fs| - 1])
  }

  function RenderedOne(f: PrimePower): string {
    Decimal.ToString(f.prime) + if f.power > 1 then "^" + Decimal.ToString(f.power) else ""
  }

  lemma RenderedOneMore(found: seq<PrimePower>, f: PrimePower)
    ensures Rendered(found + [f]) == Rendered(found) + (if |found| == 0 then " = " else " * ") + RenderedOne(f)
  {
    assert (found + [f])[..|found|] == found;
  }

  datatype Mood = Failed | Warned | Fine

  function Smiley(mood: Mood): string {
    match mood case Failed => " :(" case Warned => " :|" case Fine => " :)"
  }

  // ---- Reading it ----

  /** Where a reader is: before a sign, at the sign, behind it, in a base or in an exponent; or lost. */
  datatype Place = Lead | Sign | Gap | InBase(base: nat) | InPower(base: nat, power: nat) | Lost

  /** The factors read so far, and where in the next one the reader is. */
  datatype Reader = Reader(factors: seq<PrimePower>, at: Place)

  predicate IsDigit(c: char) { '0' <= c <= '9' }

  function DigitValue(c: char): nat
    requires IsDigit(c)
  {
    (c - '0') as nat
  }

  function Advance(r: Reader, c: char): Reader {
    match r.at
    case Lead => r.(at := if c == ' ' then Sign else Lost)
    case Sign => r.(at := if c == (if r.factors == [] then '=' else '*') then Gap else Lost)
    case Gap => r.(at := if c == ' ' then InBase(0) else Lost)
    case InBase(b) =>
      if IsDigit(c) then r.(at := InBase(10 * b + DigitValue(c)))
      else if c == '^' then r.(at := InPower(b, 0))
      else if c == ' ' then Reader(r.factors + [PrimePower(b, 1)], Sign)
      else r.(at := Lost)
    case InPower(b, k) =>
      if IsDigit(c) then r.(at := InPower(b, 10 * k + DigitValue(c)))
      else if c == ' ' && k > 1 then Reader(r.factors + [PrimePower(b, k)], Sign)
      else r.(at := Lost)
    case Lost => r
  }

  function ReadText(text: string): Reader {
    if text == "" then Reader([], Lead) else Advance(ReadText(text[..|text| - 1]), text[|text| - 1])
  }

  /** " = " and then bases in decimal, each with "^" and an exponent above 1 or without, joined by " * ";
      nothing else is a factorisation. */
  function ReadFactors(text: string): Option<seq<PrimePower>> {
    var r := ReadText(text);
    match r.at
    case InBase(b) => Some(r.factors + [PrimePower(b, 1)])
    case InPower(b, k) => if k > 1 then Some(r.factors + [PrimePower(b, k)]) else None
    case _ => None
  }

  // ---- What is written is read back ----

  lemma ReadOneMore(text: string, c: char)
    ensures ReadText(text + [c]) == Advance(ReadText(text), c)
  {
    assert (text + [c])[..|text|] == text;
  }

  lemma ReadNothing()
    ensures ReadText("") == Reader([], Lead)
  {
  }

  lemma LastDigit(n: nat)
    ensures n < 10 ==> Decimal.ToString(n) == [Decimal.DigitToChar(n)]
    ensures n >= 10 ==> Decimal.ToString(n) == Decimal.ToString(n / 10) + [Decimal.DigitToChar(n % 10)]
    ensures IsDigit(Decimal.DigitToChar(n % 10)) && DigitValue(Decimal.DigitToChar(n % 10)) == n % 10
    ensures 10 * (n / 10) + n % 10 == n
  {
  }

  lemma {:induction false} ReadsBase(text: string, n: nat)
    requires ReadText(text).at == InBase(0)
    ensures ReadText(text + Decimal.ToString(n)) == ReadText(text).(at := InBase(n))
  {
    hide ReadText, Decimal.ToString, Decimal.DigitToChar, DigitValue, IsDigit;
    LastDigit(n);
    var c := Decimal.DigitToChar(n % 10);
    if n < 10 {
      ReadOneMore(text, c);
    } else {
      var before := text + Decimal.ToString(n / 10);
      ReadsBase(text, n / 10);
      ReadOneMore(before, c);
      assert text + Decimal.ToString(n) == before + [c];
    }
  }

  lemma {:induction false} ReadsPower(text: string, b: nat, n: nat)
    requires ReadText(text).at == InPower(b, 0)
    ensures ReadText(text + Decimal.ToString(n)) == ReadText(text).(at := InPower(b, n))
  {
    hide ReadText, Decimal.ToString, Decimal.DigitToChar, DigitValue, IsDigit;
    LastDigit(n);
    var c := Decimal.DigitToChar(n % 10);
    if n < 10 {
      ReadOneMore(text, c);
    } else {
      var before := text + Decimal.ToString(n / 10);
      ReadsPower(text, b, n / 10);
      ReadOneMore(before, c);
      assert text + Decimal.ToString(n) == before + [c];
    }
  }

  /** The reader at the end of a factor. */
  function AtEnd(f: PrimePower): Place {
    if f.power == 1 then InBase(f.prime) else InPower(f.prime, f.power)
  }

  lemma ReadsSeparator(text: string, fs: seq<PrimePower>)
    requires ReadText(text) ==
      if fs == [] then Reader([], Lead) else Reader(fs[..|fs| - 1], AtEnd(fs[|fs| - 1]))
    requires forall i :: 0 <= i < |fs| ==> fs[i].power >= 1
    ensures ReadText(text + if fs == [] then " = " else " * ") == Reader(fs, InBase(0))
  {
    hide ReadText;
    var mark := if fs == [] then '=' else '*';
    ReadOneMore(text, ' ');
    ReadOneMore(text + [' '], mark);
    ReadOneMore(text + [' '] + [mark], ' ');
    assert text + [' '] + [mark] + [' '] == text + if fs == [] then " = " else " * ";
  }

  lemma ReadsOne(text: string, fs: seq<PrimePower>, f: PrimePower)
    requires ReadText(text) == Reader(fs, InBase(0)) && f.power >= 1
    ensures ReadText(text + RenderedOne(f)) == Reader(fs, AtEnd(f))
  {
    hide ReadText, Decimal.ToString;
    ReadsBase(text, f.prime);
    var base := text + Decimal.ToString(f.prime);
    if f.power > 1 {
      ReadOneMore(base, '^');
      ReadsPower(base + ['^'], f.prime, f.power);
      assert text + RenderedOne(f) == base + ['^'] + Decimal.ToString(f.power);
    } else {
      assert text + RenderedOne(f) == base;
    }
  }

  lemma {:induction false} ReadsAll(fs: seq<PrimePower>)
    requires forall i :: 0 <= i < |fs| ==> fs[i].power >= 1
    ensures ReadText(Rendered(fs)) ==
      if fs == [] then Reader([], Lead) else Reader(fs[..|fs| - 1], AtEnd(fs[|fs| - 1]))
  {
    hide ReadText, RenderedOne;
    ReadNothing();
    if fs != [] {
      var before, last := fs[..|fs| - 1], fs[|fs| - 1];
      ReadsAll(before);
      var sign := if before == [] then " = " else " * ";
      ReadsSeparator(Rendered(before), before);
      ReadsOne(Rendered(before) + sign, before, last);
      assert Rendered(fs) == Rendered(before) + sign + RenderedOne(last);
    }
  }

  /** Whoever reads the text of a factorisation has the factors, with their exponents, in order. */
  lemma ReadsBack(fs: seq<PrimePower>)
    requires forall i :: 0 <= i < |fs| ==> fs[i].power >= 1
    ensures fs != [] ==> ReadFactors(Rendered(fs)) == Some(fs)
  {
    hide Rendered, ReadText;
    ReadsAll(fs);
    if fs != [] {
      var n := |fs| - 1;
      assert fs[..n] + [fs[n]] == fs;
    }
  }

  /** The two texts are never the same: a prime gets a smiley if and only if it is not the last one. */
  lemma SmileyIsNoFactor(total: nat, fs: seq<PrimePower>, mood: Mood)
    requires fs != []
    ensures Decimal.ToString(total) + Smiley(mood) != Decimal.ToString(total) + Rendered(fs)
  {
    RenderedBegins(fs);
    var a, b := Decimal.ToString(total) + Smiley(mood), Decimal.ToString(total) + Rendered(fs);
    var k := |Decimal.ToString(total)| + 1;
    assert a[k] == Smiley(mood)[1] == ':' && b[k] == Rendered(fs)[1] == '=';
  }

  lemma {:induction false} RenderedBegins(fs: seq<PrimePower>)
    requires fs != []
    ensures |Rendered(fs)| >= 3 && Rendered(fs)[1] == '='
  {
    if |fs| == 1 {
      assert fs[..0] == [];
    } else {
      RenderedBegins(fs[..|fs| - 1]);
    }
  }
}

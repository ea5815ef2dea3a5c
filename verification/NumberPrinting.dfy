/** cxxtest's numberToString for unsigned numbers in base 10, on a number type of k bytes. */
module NumberPrinting {
  import opened Numbers
  import opened Decimal

  lemma ValueOneMore(s: string, d: nat)
    requires IsDigits(s) && d < 10
    ensures IsDigits(s + [DigitToChar(d)]) && Value(s + [DigitToChar(d)]) == 10 * Value(s) + d
  {
    assert (s + [DigitToChar(d)])[..|s|] == s;
  }

  /** Digits without a superfluous leading zero are what ToString gives for their value. */
  lemma {:induction false} DigitsAreToString(s: string)
    requires IsDigits(s) && |s| > 0 && (|s| > 1 ==> s[0] != '0')
    ensures ToString(Value(s)) == s
    ensures |s| > 1 ==> Value(s) >= 10
  {
    var rest, last := s[..|s| - 1], s[|s| - 1];
    if |s| == 1 {
      assert rest == [];
    } else {
      DigitsAreToString(rest);
      if |rest| == 1 {
        assert rest[..0] == [];
      }
      assert Value(rest) >= 1;
      assert (10 * Value(rest) + (last - '0') as nat) / 10 == Value(rest);
      assert s == rest + [last];
    }
  }

  /** A k-byte number is below 10^(3k). */
  lemma {:induction false} BytesToDigits(k: nat)
    ensures 1 <= Pow(256, k) <= Pow(10, 3 * k)
  {
    if k > 0 {
      BytesToDigits(k - 1);
      var j := 3 * k - 1;
      assert Pow(10, 3 * k) == 10 * Pow(10, j) && Pow(10, j) == 10 * Pow(10, j - 1)
        && Pow(10, j - 1) == 10 * Pow(10, j - 2);
      assert j - 2 == 3 * (k - 1);
    }
  }

  /** The power of ten under the number's first digit. The product is computed in the number type, where
      it never wraps around. */
  method FirstDigit(n: nat, k: nat) returns (digit: nat, ghost j: nat)
    requires n < Pow(256, k)
    ensures digit == Pow(10, j) && 0 < digit && n < 10 * digit && (j > 0 ==> digit <= n)
  {
    digit, j := 1, 0;
    while digit <= n / 10
      invariant digit == Pow(10, j) && digit > 0 && (j > 0 ==> digit <= n)
      decreases n - digit
    {
      NoWrap(digit * 10, Pow(256, k));
      assert Pow(10, j + 1) == 10 * digit;
      hide Pow;
      digit := (digit * 10) % Pow(256, k);
      j := j + 1;
    }
  }

  lemma NoWrap(x: nat, range: nat)
    requires x < range
    ensures x % range == x
  {
  }

  /** What has been written, followed by what is left of the number, is still the number. */
  ghost predicate Split(n0: nat, written: string, digit: nat, n: nat) {
    && IsDigits(written)
    && if digit == 0 then n == 0 && Value(written) == n0 else n < 10 * digit && n0 == Value(written) * (10 * digit) + n
  }

  ghost predicate DivMod(n: nat, digit: nat, d: nat, rest: nat) {
    n == digit * d + rest && rest < digit
  }

  /** The first digit of what is left, and what is left after it. */
  method TakeDigit(n: nat, digit: nat) returns (digitValue: nat, rest: nat)
    requires digit > 0 && n < 10 * digit
    ensures digitValue < 10 && DivMod(n, digit, digitValue, rest) && (digit <= n ==> digitValue >= 1)
  {
    digitValue := n / digit;
    Division(n, digit, digitValue, n % digit);
    rest := n - digit * digitValue;
  }

  lemma WriteDigit(n0: nat, written: string, digit: nat, n: nat, d: nat, rest: nat)
    requires Split(n0, written, digit, n) && (digit == 1 || (digit > 0 && digit % 10 == 0))
    requires DivMod(n, digit, d, rest) && d < 10
    ensures Split(n0, written + [DigitToChar(d)], digit / 10, rest)
  {
    ValueOneMore(written, d);
    Distribute(Value(written), d, digit);
    hide Value;
    if digit > 1 { assert digit == 10 * (digit / 10); }
  }

  lemma Division(n: nat, digit: nat, d: nat, rest: nat)
    requires digit > 0 && d == n / digit && rest == n % digit && n < 10 * digit
    ensures n == digit * d + rest && rest < digit && d < 10 && (digit <= n ==> d >= 1)
  {
    Grows(digit, d, 10);
  }

  lemma Grows(digit: nat, d: nat, b: nat)
    ensures d >= b ==> digit * d >= digit * b
  {
  }

  lemma Distribute(v: nat, d: nat, digit: nat)
    ensures v * (10 * digit) + digit * d == (10 * v + d) * digit
  {
  }

  method PutChar(s: array<char>, start: nat, p: nat, c: char)
    requires start <= p < s.Length
    modifies s
    ensures s[start..p + 1] == old(s[start..p]) + [c] && s[p] == c && s[start..p] == old(s[start..p])
    ensures forall i :: 0 <= i < s.Length && i != p ==> s[i] == old(s[i])
  {
    s[p] := c;
  }

  /** One turn of the writing loop: the next digit goes to the buffer. */
  method WriteNext(s: array<char>, start: nat, p: nat, ghost n0: nat, ghost width: nat, ghost written: string,
    digit: nat, n: nat)
    returns (rest: nat, ghost more: string)
    requires start <= p < s.Length && written == s[start..p]
    requires Writing(n0, width, written, digit, n) && digit > 0
    modifies s
    ensures more == s[start..p + 1] && Writing(n0, width, more, digit / 10, rest)
    ensures forall i :: 0 <= i < s.Length && i != p ==> s[i] == old(s[i])
  {
    hide *;
    WritingGoesOn(n0, width, written, digit, n);
    var digitValue;
    digitValue, rest := TakeDigit(n, digit);
    WritingKept(n0, width, written, digit, n, digitValue, rest);
    more := written + [DigitToChar(digitValue)];
    PutChar(s, start, p, DigitToChar(digitValue));
  }

  /** Writes the digits and a terminator; the digits are the number's, and there are at most three for every byte. */
  method NumberToString(n0: nat, k: nat, s: array<char>, start: nat) returns (p: nat)
    requires k >= 1 && n0 < Pow(256, k) && start + 3 * k + 1 <= s.Length
    modifies s
    ensures start < p <= start + 3 * k && s[start..p] == ToString(n0) && s[p] == '\0'
    ensures forall i :: 0 <= i < s.Length && !(start <= i <= p) ==> s[i] == old(s[i])
  {
    var n := n0;
    var digit;
    ghost var j;
    digit, j := FirstDigit(n, k);
    ghost var width, written := j + 1, "";
    WidthFits(n0, j, k);
    WritingStarts(n0, digit, j);
    p := start;
    hide *;
    while digit >= 1
      invariant start <= p <= start + width
      invariant written == s[start..p] && Writing(n0, width, written, digit, n)
      invariant forall i :: 0 <= i < s.Length && !(start <= i < p) ==> s[i] == old(s[i])
      decreases digit
    {
      WritingGoesOn(n0, width, written, digit, n);
      n, written := WriteNext(s, start, p, n0, width, written, digit, n);
      p, digit := p + 1, digit / 10;
    }
    WritingEnds(n0, width, written, n);
    PutChar(s, start, p, '\0');
  }

  /** The loop's state: the digits still to come are as many as the power of ten has, and the first written is
      not a superfluous 0. */
  ghost predicate Writing(n0: nat, width: nat, written: string, digit: nat, n: nat) {
    && Split(n0, written, digit, n) && width >= 1 && |written| <= width
    && digit == (if |written| == width then 0 else Pow(10, width - |written| - 1))
    && (width > 1 ==> if written == "" then digit <= n else written[0] != '0')
  }

  lemma WritingStarts(n0: nat, digit: nat, j: nat)
    requires digit == Pow(10, j) && 0 < digit && n0 < 10 * digit && (j > 0 ==> digit <= n0)
    ensures Writing(n0, j + 1, "", digit, n0)
  {
    hide Pow;
  }

  lemma WritingGoesOn(n0: nat, width: nat, written: string, digit: nat, n: nat)
    requires Writing(n0, width, written, digit, n) && digit > 0
    ensures |written| < width && n < 10 * digit
  {
    hide Pow;
  }

  lemma WritingKept(n0: nat, width: nat, written: string, digit: nat, n: nat, d: nat, rest: nat)
    requires Writing(n0, width, written, digit, n) && digit > 0
    requires DivMod(n, digit, d, rest) && d < 10 && (digit <= n ==> d >= 1)
    ensures Writing(n0, width, written + [DigitToChar(d)], digit / 10, rest)
  {
    var left := width - |written| - 1;
    PowStep(left);
    if left > 0 { PowStep(left - 1); }
    WriteDigit(n0, written, digit, n, d, rest);
    hide Pow, Split, DivMod;
    NonZeroChar(d);
  }

  lemma WritingEnds(n0: nat, width: nat, written: string, n: nat)
    requires Writing(n0, width, written, 0, n)
    ensures |written| == width && written == ToString(n0)
  {
    if |written| < width { PowStep(width - |written| - 1); }
    hide Pow;
    DigitsAreToString(written);
  }

  lemma NonZeroChar(d: nat)
    requires d < 10
    ensures d > 0 ==> DigitToChar(d) != '0'
  {
  }

  lemma PowStep(j: nat)
    ensures Pow(10, j) >= 1
    ensures if j == 0 then Pow(10, j) == 1 else Pow(10, j) == 10 * Pow(10, j - 1)
  {
    if j > 0 { PowStep(j - 1); }
  }

  /** A number of j + 1 digits in k bytes: three digits a byte are enough. */
  lemma WidthFits(n: nat, j: nat, k: nat)
    requires k >= 1 && n < Pow(256, k) && (j > 0 ==> Pow(10, j) <= n)
    ensures j + 1 <= 3 * k
  {
    BytesToDigits(k);
    if j >= 3 * k { PowGrows(3 * k, j); }
  }

  lemma {:induction false} PowGrows(i: nat, j: nat)
    requires i <= j
    ensures Pow(10, i) <= Pow(10, j)
  {
    if i < j { PowGrows(i, j - 1); }
  }
}

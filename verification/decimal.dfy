/** Printing integers with %d and reading them with strconv, both in base 10. */
module Decimal {
  import opened Options

  predicate IsDigit(c: char) {
    '0' <= c <= '9'
  }

  predicate AllDigits(s: string) {
    forall i :: 0 <= i < |s| ==> IsDigit(s[i])
  }

  function DigitChar(d: nat): (c: char)
    requires d < 10
    ensures IsDigit(c) && DigitOf(c) == d
  {
    ('0' as int + d) as char
  }

  function DigitOf(c: char): nat
    requires IsDigit(c)
  {
    c as int - '0' as int
  }

  function Digits(n: nat): string {
    if n < 10 then [DigitChar(n)] else Digits(n / 10) + [DigitChar(n % 10)]
  }

  /** fmt.Sprintf("%d", n) */
  function Print(n: int): string {
    if n < 0 then "-" + Digits(-n) else Digits(n)
  }

  function Value(s: string): nat
    requires AllDigits(s)
  {
    if s == [] then 0 else 10 * Value(s[..|s| - 1]) + DigitOf(s[|s| - 1])
  }

  function Pow2(n: nat): (p: nat)
    ensures p > 0
  {
    if n == 0 then 1 else 2 * Pow2(n - 1)
  }

  /** The integers of `bits` bits. */
  predicate InRange(n: int, bits: nat)
    requires bits > 0
  {
    var bound: int := Pow2(bits - 1);
    -bound <= n < bound
  }

  /** strconv.ParseInt(s, 10, bits): an optional sign, at least one digit, nothing else, and no overflow. */
  function ParseInt(s: string, bits: nat): Option<int>
    requires bits > 0
  {
    var signed := s != [] && (s[0] == '-' || s[0] == '+');
    var digits := if signed then s[1..] else s;
    if digits == [] || !AllDigits(digits) then None
    else
      var magnitude: int := Value(digits);
      var n := if signed && s[0] == '-' then -magnitude else magnitude;
      if InRange(n, bits) then Some(n) else None
  }

  /** Decimal notation without a plus sign, without leading zeros, and without a minus before zero. */
  predicate Canonical(s: string) {
    var digits := if s != [] && s[0] == '-' then s[1..] else s;
    digits != [] && AllDigits(digits) && (digits[0] == '0' ==> s == "0")
  }

  lemma {:induction false} DigitsAreDigits(n: nat)
    ensures Digits(n) != [] && AllDigits(Digits(n)) && Value(Digits(n)) == n
    ensures Digits(n)[0] == '0' <==> n == 0
  {
    if n >= 10 {
      DigitsAreDigits(n / 10);
      assert Digits(n)[..|Digits(n)| - 1] == Digits(n / 10);
    }
  }

  /** One more digit. */
  lemma DigitsAppend(n: nat, d: nat)
    requires n > 0 && d < 10
    ensures Digits(10 * n + d) == Digits(n) + [DigitChar(d)]
  {
    assert (10 * n + d) / 10 == n && (10 * n + d) % 10 == d;
  }

  lemma DigitCharOf(c: char)
    requires IsDigit(c)
    ensures DigitOf(c) < 10 && DigitChar(DigitOf(c)) == c
  {
  }

  lemma {:induction false} ValueDeterminesDigits(s: string)
    requires s != [] && AllDigits(s) && (s[0] == '0' ==> |s| == 1)
    ensures Digits(Value(s)) == s && (s[0] != '0' ==> Value(s) > 0)
  {
    hide Digits, DigitChar, DigitOf;
    var front, last := s[..|s| - 1], s[|s| - 1];
    DigitCharOf(last);
    if front == [] {
      OneDigit(last);
      assert s == [last];
    } else {
      assert front[0] == s[0] && |s| > 1;
      assert AllDigits(front);
      ValueDeterminesDigits(front);
      DigitsAppend(Value(front), DigitOf(last));
      assert s == front + [last];
    }
  }

  lemma OneDigit(c: char)
    requires IsDigit(c)
    ensures Digits(DigitOf(c)) == [c] && (c != '0' ==> DigitOf(c) > 0)
  {
    DigitCharOf(c);
  }

  /** Reading what was printed gives the number back, exactly when it fits. */
  lemma ParsePrint(n: int, bits: nat)
    requires bits > 0
    ensures ParseInt(Print(n), bits) == if InRange(n, bits) then Some(n) else None
  {
    hide Value, Digits, Pow2, InRange;
    DigitsAreDigits(if n < 0 then -n else n);
    if n < 0 {
      assert Print(n)[1..] == Digits(-n);
    } else {
      assert IsDigit(Print(n)[0]);
    }
  }

  /** Printing what was read gives the text back, exactly when the text is canonical. */
  lemma PrintParse(s: string, bits: nat)
    requires bits > 0 && ParseInt(s, bits).Some?
    ensures Print(ParseInt(s, bits).value) == s <==> Canonical(s)
  {
    hide Value, Digits, Pow2, InRange;
    var n := ParseInt(s, bits).value;
    PrintIsCanonical(n);
    if Canonical(s) {
      var digits := if s[0] == '-' then s[1..] else s;
      ValueDeterminesDigits(digits);
    }
  }

  lemma PrintIsCanonical(n: int)
    ensures Canonical(Print(n))
    ensures Print(n) != [] && IsDigit(Print(n)[|Print(n)| - 1])
  {
    DigitsAreDigits(if n < 0 then -n else n);
    if n < 0 {
      assert Print(n)[1..] == Digits(-n);
      assert Print(n)[|Print(n)| - 1] == Digits(-n)[|Digits(-n)| - 1];
    } else {
      assert IsDigit(Print(n)[0]);
      if n == 0 { assert Print(n) == "0"; }
    }
  }

  // ----- what the texts and numbers mean -----

  lemma WordSizes()
    ensures forall n :: InRange(n, 64) <==> -0x8000_0000_0000_0000 <= n <= 0x7fff_ffff_ffff_ffff
    ensures forall n :: InRange(n, 32) <==> -0x8000_0000 <= n <= 0x7fff_ffff
  {
    assert Pow2(7) == 0x80;
    assert Pow2(15) == 0x8000;
    assert Pow2(23) == 0x80_0000;
    assert Pow2(31) == 0x8000_0000;
    assert Pow2(39) == 0x80_0000_0000;
    assert Pow2(47) == 0x8000_0000_0000;
    assert Pow2(55) == 0x80_0000_0000_0000;
    assert Pow2(63) == 0x8000_0000_0000_0000;
  }

  lemma ParsesDigits(s: string, bits: nat)
    requires bits > 0 && s != [] && AllDigits(s)
    ensures ParseInt(s, bits) == if InRange(Value(s), bits) then Some(Value(s)) else None
  {
    hide Value, InRange;
    assert IsDigit(s[0]);
  }

  lemma ValueOfDigits(s: string, c: char)
    requires AllDigits(s) && '0' <= c <= '9'
    ensures AllDigits([c]) && Value([c]) == c as int - '0' as int
    ensures AllDigits(s + [c]) && Value(s + [c]) == 10 * Value(s) + (c as int - '0' as int)
  {
    assert [c][..0] == [];
    assert (s + [c])[..|s|] == s;
  }

  lemma SmallerFits(m: nat, n: nat, bits: nat)
    requires bits > 0 && m <= n && InRange(n, bits)
    ensures InRange(m, bits)
  {
  }

  /** A number is read digit by digit: '0' to '9' count as 0 to 9, and each digit more multiplies what precedes it by ten. */
  lemma ReadsDigitByDigit(s: string, c: char, bits: nat)
    requires bits >= 8 && '0' <= c <= '9' && AllDigits(s)
    ensures ParseInt([c], bits) == Some(c as int - '0' as int)
    ensures s != [] && ParseInt(s + [c], bits).Some? ==>
      ParseInt(s, bits).Some? && ParseInt(s + [c], bits).value == 10 * ParseInt(s, bits).value + (c as int - '0' as int)
    ensures s != [] && ParseInt(s + [c], bits).None? && ParseInt(s, bits).Some? ==>
      !InRange(10 * ParseInt(s, bits).value + (c as int - '0' as int), bits)
  {
    ValueOfDigits(s, c);
    hide Value, InRange, ParseInt;
    DigitFits(c as int - '0' as int, bits);
    ParsesDigits([c], bits);
    if s != [] {
      ParsesDigits(s, bits);
      ParsesDigits(s + [c], bits);
      if InRange(Value(s + [c]), bits) {
        SmallerFits(Value(s), Value(s + [c]), bits);
      }
    }
  }

  lemma DigitFits(d: int, bits: nat)
    requires 0 <= d < 10 && bits >= 8
    ensures InRange(d, bits)
  {
    Pow2Grows(7, bits - 1);
    assert Pow2(7) == 128;
  }

  lemma {:induction false} Pow2Grows(m: nat, n: nat)
    requires m <= n
    ensures Pow2(m) <= Pow2(n)
    decreases n
  {
    if m < n {
      Pow2Grows(m, n - 1);
    }
  }

  /** A sign in front: '+' changes nothing, '-' the sign. */
  lemma ReadsSign(s: string, bits: nat)
    requires bits > 0 && s != [] && AllDigits(s)
    ensures ParseInt("+" + s, bits) == ParseInt(s, bits)
    ensures ParseInt(s, bits).Some? ==> ParseInt("-" + s, bits) == Some(-ParseInt(s, bits).value)
  {
    assert ("+" + s)[1..] == s && ("-" + s)[1..] == s;
    assert IsDigit(s[0]);
  }

  /** A number is printed digit by digit in the same way, and a negative one with a minus. */
  lemma PrintsDigitByDigit(n: int, d: int)
    requires n > 0 && 0 <= d < 10
    ensures Print(d) == [('0' as int + d) as char]
    ensures Print(10 * n + d) == Print(n) + Print(d) && Print(-n) == "-" + Print(n)
  {
    DigitsAppend(n, d);
  }
}

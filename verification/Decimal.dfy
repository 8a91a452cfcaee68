/** Decimal numerals without leading zeros, as generations are printed and read. */
module Decimal {
  const MAX_GENERATION: nat := 999_999_999_999_999_999

  predicate IsDigit(c: char) { '0' <= c <= '9' }

  function DigitChar(d: nat): (c: char)
    requires d < 10
    ensures IsDigit(c) && DigitValue(c) == d
  {
    '0' + d as char
  }

  function DigitValue(c: char): (d: nat)
    requires IsDigit(c)
    ensures d < 10
  {
    (c - '0') as nat
  }

  predicate AllDigits(s: string) { forall i :: 0 <= i < |s| ==> IsDigit(s[i]) }

  function Print(n: nat): (s: string)
    ensures s != [] && AllDigits(s) && (n > 0 ==> s[0] != '0')
  {
    if n < 10 then [DigitChar(n)] else Print(n / 10) + [DigitChar(n % 10)]
  }

  function Value(s: string): nat
    requires AllDigits(s)
  {
    if s == [] then 0 else Value(s[..|s| - 1]) * 10 + DigitValue(s[|s| - 1])
  }

  function Pow10(k: nat): (p: nat)
    ensures p >= 1
  {
    if k == 0 then 1 else 10 * Pow10(k - 1)
  }

  /** `[1-9][0-9]{0,17}`. */
  predicate IsGenerationText(s: string) { 1 <= |s| <= 18 && AllDigits(s) && s[0] != '0' }

  lemma {:induction false} PrintReadsBack(n: nat)
    ensures Value(Print(n)) == n
  {
    if n >= 10 {
      PrintReadsBack(n / 10);
      assert Print(n)[..|Print(n)| - 1] == Print(n / 10);
    } else {
      assert Print(n)[..0] == [];
    }
  }

  /** A numeral without leading zero is the print of its value. */
  lemma {:induction false} ReadPrintsBack(s: string)
    requires s != [] && AllDigits(s) && (s[0] != '0' || |s| == 1)
    ensures Print(Value(s)) == s && (s[0] != '0' ==> Value(s) > 0)
  {
    var last := DigitValue(s[|s| - 1]);
    if |s| == 1 {
      assert Value(s[..0]) == 0;
    } else {
      ReadPrintsBack(s[..|s| - 1]);
      var front := Value(s[..|s| - 1]);
      assert Value(s) == front * 10 + last && Value(s) / 10 == front && Value(s) % 10 == last;
      assert DigitChar(last) == s[|s| - 1];
    }
  }

  lemma {:induction false} LengthOfPrint(n: nat, k: nat)
    requires k > 0
    ensures |Print(n)| <= k <==> n < Pow10(k)
    decreases k
  {
    if n >= 10 {
      if k > 1 { LengthOfPrint(n / 10, k - 1); } else { assert Pow10(1) == 10 * Pow10(0); }
    } else {
      assert Pow10(k) == 10 * Pow10(k - 1);
    }
  }

  lemma {:induction false} EighteenDigits()
    ensures Pow10(18) == MAX_GENERATION + 1
  {
    assert Pow10(3) == 1000;
    assert Pow10(6) == 1000 * Pow10(3);
    assert Pow10(9) == 1000 * Pow10(6);
    assert Pow10(12) == 1000 * Pow10(9);
    assert Pow10(15) == 1000 * Pow10(12);
    assert Pow10(18) == 1000 * Pow10(15);
  }

  /** The generations a name can carry are exactly the valid ones, each printed
      one way. */
  lemma {:induction false} GenerationTextIff(s: string, n: nat)
    ensures IsGenerationText(s) && Value(s) == n <==> 1 <= n <= MAX_GENERATION && s == Print(n)
  {
    EighteenDigits();
    LengthOfPrint(n, 18);
    PrintReadsBack(n);
    if IsGenerationText(s) { ReadPrintsBack(s); }
  }
}

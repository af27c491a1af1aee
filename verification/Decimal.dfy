/** Unsigned decimal numerals: printing, reading back, and how position scales value. */
module Decimal {
  import opened Wrappers
  import opened Machine

  predicate IsDigit(c: char) { '0' <= c <= '9' }

  function DigitOf(c: char): nat
    requires IsDigit(c)
  { c as int - '0' as int }

  predicate AllDigits(s: string) { forall i | 0 <= i < |s| :: IsDigit(s[i]) }

  // The number a digit string denotes; leading zeros change nothing.
  function Value(s: string): nat
    requires AllDigits(s)
  {
    if s == [] then 0 else Value(s[..|s| - 1]) * 10 + DigitOf(s[|s| - 1])
  }

  // A 64-bit unsigned decimal, as the standard parser takes it.
  function ParseUint64(s: string): Option<nat> {
    if s == [] || !AllDigits(s) || Value(s) >= TWO_64 then None else Some(Value(s))
  }

  function Print(n: nat): string {
    if n < 10 then ['0' + n as char] else Print(n / 10) + ['0' + (n % 10) as char]
  }

  lemma {:induction false} PrintReadsBack(n: nat)
    ensures |Print(n)| > 0 && AllDigits(Print(n)) && Value(Print(n)) == n
  {
    if n < 10 {
      assert Print(n)[..0] == [];
    } else {
      PrintReadsBack(n / 10);
      assert Print(n)[..|Print(n)| - 1] == Print(n / 10);
    }
  }

  function Pow10(k: nat): (p: nat)
    ensures p > 0
  { if k == 0 then 1 else 10 * Pow10(k - 1) }

  lemma {:induction false} ValueOfConcat(a: string, b: string)
    requires AllDigits(a) && AllDigits(b)
    ensures AllDigits(a + b) && Value(a + b) == Value(a) * Pow10(|b|) + Value(b)
    decreases |b|
  {
    if b == [] {
      assert a + b == a;
    } else {
      var head := b[..|b| - 1];
      ValueOfConcat(a, head);
      assert (a + b)[..|a + b| - 1] == a + head;
      assert Value(a) * Pow10(|b|) == 10 * (Value(a) * Pow10(|head|));
    }
  }

  function Zeros(k: nat): (s: string)
    ensures |s| == k && AllDigits(s)
  { seq(k, i => '0') }

  lemma {:induction false} ZerosAreNothing(k: nat, s: string)
    requires AllDigits(s)
    ensures AllDigits(Zeros(k) + s) && Value(Zeros(k) + s) == Value(s)
  {
    ValueOfConcat(Zeros(k), s);
    ZerosAreZero(k);
  }

  lemma {:induction false} ZerosAreZero(k: nat)
    ensures Value(Zeros(k)) == 0
  {
    if k > 0 {
      assert Zeros(k)[..k - 1] == Zeros(k - 1);
      ZerosAreZero(k - 1);
    }
  }

  lemma {:induction false} ValueIsBounded(s: string)
    requires AllDigits(s)
    ensures Value(s) < Pow10(|s|)
  {
    if s != [] {
      ValueIsBounded(s[..|s| - 1]);
    }
  }
}

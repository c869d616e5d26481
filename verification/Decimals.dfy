/** Decimal text: printing and reading of naturals, as strconv does it. */
module Decimals {
  import opened Basics

  predicate AllDigits(s: string) { forall i | 0 <= i < |s| :: IsDigit(s[i]) }

  function DigitValue(c: char): (d: int)
    requires IsDigit(c)
    ensures 0 <= d < 10
  {
    c as int - '0' as int
  }

  function DigitChar(d: int): (c: char)
    requires 0 <= d < 10
    ensures IsDigit(c) && DigitValue(c) == d
  {
    (d + '0' as int) as char
  }

  /** The number that a run of digits denotes, leading zeros included. */
  function Value(s: string): (n: nat)
    requires AllDigits(s)
  {
    if s == [] then 0 else Value(s[..|s| - 1]) * 10 + DigitValue(s[|s| - 1])
  }

  function Show(n: nat): (s: string)
    ensures |s| >= 1 && AllDigits(s)
  {
    if n < 10 then [DigitChar(n)] else Show(n / 10) + [DigitChar(n % 10)]
  }

  /** Digits without a superfluous leading zero. */
  predicate Canonical(s: string) { s != [] && AllDigits(s) && (|s| > 1 ==> s[0] != '0') }

  lemma {:induction false} ValueOfShow(n: nat)
    ensures Value(Show(n)) == n
  {
    if n >= 10 {
      var s := Show(n / 10);
      assert Show(n)[..|s|] == s;
      ValueOfShow(n / 10);
    }
  }

  lemma {:induction false} ShowIsCanonical(n: nat)
    ensures Canonical(Show(n)) && (Show(n)[0] == '0' <==> n == 0)
  {
    if n >= 10 { ShowIsCanonical(n / 10); }
  }

  /** Canonical text is the only canonical text of its number. */
  lemma {:induction false} ShowOfValue(s: string)
    requires Canonical(s)
    ensures Show(Value(s)) == s
  {
    if |s| > 1 {
      var init := s[..|s| - 1];
      ShowOfValue(init);
      ShowIsCanonical(Value(init));
      assert init[0] == s[0] != '0';
      assert Value(init) > 0;
      assert s == init + [s[|s| - 1]];
    }
  }

  /** Leading zeros do not change the number. */
  lemma {:induction false} LeadingZeros(zeros: string, s: string)
    requires (forall i | 0 <= i < |zeros| :: zeros[i] == '0') && AllDigits(s)
    ensures AllDigits(zeros + s) && Value(zeros + s) == Value(s)
  {
    if s == [] {
      assert zeros + s == zeros;
      if zeros != [] {
        LeadingZeros(zeros[..|zeros| - 1], []);
        assert zeros[..|zeros| - 1] + [] == zeros[..|zeros| - 1];
      }
    } else {
      LeadingZeros(zeros, s[..|s| - 1]);
      assert (zeros + s)[..|zeros + s| - 1] == zeros + s[..|s| - 1];
    }
  }
}

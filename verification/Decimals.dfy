/** Decimal numerals: printing and reading natural numbers. */
module Decimals {
  import opened Prelude

  predicate IsDigit(c: char)
  {
    '0' <= c <= '9'
  }

  predicate AllDigits(s: string)
  {
    forall i :: 0 <= i < |s| ==> IsDigit(s[i])
  }

  /** No sign, no leading zero. */
  predicate Canonical(s: string)
  {
    s != [] && AllDigits(s) && (|s| > 1 ==> s[0] != '0')
  }

  function Value(s: string): nat
    requires AllDigits(s)
  {
    if s == [] then 0 else Value(Front(s)) * 10 + (Last(s) as int - '0' as int)
  }

  function Digits(n: nat): string
  {
    if n < 10 then [('0' as int + n) as char] else Digits(n / 10) + [('0' as int + n % 10) as char]
  }

  lemma {:induction false} ReadPrinted(n: nat)
    ensures Canonical(Digits(n)) && Value(Digits(n)) == n
    ensures n > 0 ==> Digits(n)[0] != '0'
  {
    if n >= 10 {
      ReadPrinted(n / 10);
      assert Front(Digits(n)) == Digits(n / 10);
    } else {
      assert Front(Digits(n)) == [] && Value([]) == 0;
    }
  }

  lemma {:induction false} PrintRead(s: string)
    requires Canonical(s)
    ensures Digits(Value(s)) == s
    ensures s[0] != '0' ==> Value(s) > 0
  {
    if |s| == 1 {
      assert Front(s) == [] && Value([]) == 0;
    } else {
      PrintRead(Front(s));
      assert s == Front(s) + [Last(s)];
      assert Value(s) / 10 == Value(Front(s)) && Value(s) % 10 == Last(s) as int - '0' as int;
    }
  }

  /** d decimal digits never exceed 10^d - 1; here, what fits under a bound has few digits. */
  lemma {:induction false} FewDigits(n: nat, d: nat)
    requires d > 0 && n < Power10(d)
    ensures |Digits(n)| <= d
  {
    if n >= 10 {
      FewDigits(n / 10, d - 1);
    }
  }

  function Power10(d: nat): nat
  {
    if d == 0 then 1 else 10 * Power10(d - 1)
  }
}

/**
 * Decimal rendering of natural numbers, as JavaScript's `String(n)` writes an
 * integer below 10^21 (timestamps in template literals, array indices as
 * property keys), together with its inverse.
 */
module Decimal {

  predicate IsDigit(c: char) {
    '0' <= c <= '9'
  }

  predicate AllDigits(s: string) {
    forall i :: 0 <= i < |s| ==> IsDigit(s[i])
  }

  /** A digit string as `Show` writes it: non-empty and without leading zeros. */
  predicate Canonical(s: string) {
    |s| > 0 && AllDigits(s) && (|s| > 1 ==> s[0] != '0')
  }

  function DigitChar(d: nat): (c: char)
    requires d < 10
    ensures IsDigit(c) && c as int - '0' as int == d
  {
    ('0' as int + d) as char
  }

  /** The decimal digits of `n`, most significant first, without leading zeros. */
  function Show(n: nat): (s: string)
    ensures Canonical(s)
    decreases n
  {
    if n < 10 then [DigitChar(n)] else Show(n / 10) + [DigitChar(n % 10)]
  }

  /** The number a digit string denotes. */
  function Parse(s: string): nat
    requires AllDigits(s)
    decreases |s|
  {
    if s == [] then 0 else 10 * Parse(s[..|s| - 1]) + (s[|s| - 1] as int - '0' as int)
  }

  /** Parsing undoes rendering. */
  lemma {:induction false} ParseShow(n: nat)
    ensures Parse(Show(n)) == n
    decreases n
  {
    if n >= 10 {
      ParseShow(n / 10);
      var s := Show(n);
      assert s[..|s| - 1] == Show(n / 10);
    }
  }

  /** A digit string that does not start with `0` denotes a positive number. */
  lemma {:induction false} ParsePositive(s: string)
    requires |s| > 0 && AllDigits(s) && s[0] != '0'
    ensures Parse(s) > 0
    decreases |s|
  {
    if |s| > 1 {
      ParsePositive(s[..|s| - 1]);
    }
  }

  /** Rendering undoes parsing on the strings `Show` writes. */
  lemma {:induction false} ShowParse(s: string)
    requires Canonical(s)
    ensures Show(Parse(s)) == s
    decreases |s|
  {
    var last := s[|s| - 1];
    if |s| == 1 {
      assert IsDigit(last);
      assert Parse(s) == last as int - '0' as int by {
        assert s[..|s| - 1] == [];
      }
      assert DigitChar(Parse(s)) == last;
    } else {
      var init := s[..|s| - 1];
      ShowParse(init);
      ParsePositive(init);
      assert DigitChar(Parse(s) % 10) == last;
      assert s == init + [last];
    }
  }

  /** Distinct numbers render as distinct strings. */
  lemma ShowInjective(a: nat, b: nat)
    requires Show(a) == Show(b)
    ensures a == b
  {
    ParseShow(a);
    ParseShow(b);
  }
}

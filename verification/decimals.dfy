/** Decimal numerals, as str(int) writes them and int(text) reads them. */
module Decimals {
  predicate IsDigit(c: char) {
    '0' <= c <= '9'
  }

  function DigitChar(d: nat): char
    requires d < 10
  {
    '0' + d as char
  }

  function DigitValue(c: char): nat
    requires IsDigit(c)
  {
    (c - '0') as nat
  }

  predicate AllDigits(s: string) {
    forall i :: 0 <= i < |s| ==> IsDigit(s[i])
  }

  function Show(n: nat): (s: string)
    ensures s != "" && AllDigits(s)
  {
    if n < 10 then [DigitChar(n)] else Show(n / 10) + [DigitChar(n % 10)]
  }

  function Read(s: string): nat
    requires AllDigits(s)
  {
    if s == "" then 0 else 10 * Read(s[..|s| - 1]) + DigitValue(s[|s| - 1])
  }

  lemma {:induction false} ReadShow(n: nat)
    ensures Read(Show(n)) == n
  {
    if n < 10 {
      assert Show(n)[..0] == "";
    } else {
      ReadShow(n / 10);
      assert Show(n)[..|Show(n)| - 1] == Show(n / 10);
    }
  }

  /** Different numbers are written differently. */
  lemma ShowIsInjective(m: nat, n: nat)
    requires Show(m) == Show(n)
    ensures m == n
  {
    ReadShow(m);
    ReadShow(n);
  }

  /** Base ten, outright: one digit below ten, and from there on the tens, then the last digit. */
  lemma ShownInTens(tens: nat, d: nat)
    requires d < 10
    ensures Show(d) == ["0123456789"[d]]
    ensures tens > 0 ==> Show(10 * tens + d) == Show(tens) + ["0123456789"[d]]
  {
    assert (10 * tens + d) / 10 == tens && (10 * tens + d) % 10 == d;
    assert DigitChar(d) == "0123456789"[d];
  }

  lemma ReadInTens(s: string, d: nat)
    requires AllDigits(s) && d < 10
    ensures AllDigits(s + ["0123456789"[d]]) && Read(s + ["0123456789"[d]]) == 10 * Read(s) + d
  {
    assert DigitChar(d) == "0123456789"[d];
    assert (s + [DigitChar(d)])[..|s|] == s;
  }
}

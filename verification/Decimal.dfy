/** Decimal numerals, as Python's `str(int)` and JavaScript template strings print them. */
module Decimal {

  const DIGITS: string := "0123456789"

  predicate IsDigit(c: char) {
    '0' <= c <= '9'
  }

  function DigitValue(c: char): nat
    requires IsDigit(c)
  {
    c as nat - '0' as nat
  }

  function DigitChar(d: nat): (c: char)
    requires d < 10
    ensures IsDigit(c) && DigitValue(c) == d
  {
    DIGITS[d]
  }

  predicate AllDigits(s: string) {
    forall i | 0 <= i < |s| :: IsDigit(s[i])
  }

  /** How many digits the text starts with. */
  function FrontDigits(s: string): (k: nat)
    ensures k <= |s| && AllDigits(s[..k])
  {
    if s != "" && IsDigit(s[0]) then 1 + FrontDigits(s[1..]) else 0
  }

  /** The canonical numeral of `n`. */
  function Show(n: nat): (s: string)
    ensures |s| > 0 && AllDigits(s)
    ensures s[0] == '0' ==> n == 0 && s == "0"
  {
    if n < 10 then [DigitChar(n)] else Show(n / 10) + [DigitChar(n % 10)]
  }

  /** `parseInt` / `int()` on a string of digits; the empty string reads as 0. */
  function Read(s: string): nat
    requires AllDigits(s)
  {
    if s == "" then 0 else 10 * Read(s[..|s| - 1]) + DigitValue(s[|s| - 1])
  }

  lemma {:induction false} ReadShow(n: nat)
    ensures Read(Show(n)) == n
  {
    if n >= 10 {
      ReadShow(n / 10);
      var s := Show(n);
      assert s[..|s| - 1] == Show(n / 10);
    }
  }

  lemma ShowInjective(m: nat, n: nat)
    requires Show(m) == Show(n)
    ensures m == n
  {
    ReadShow(m);
    ReadShow(n);
  }

  lemma DigitSpelling(c: char)
    requires IsDigit(c)
    ensures DigitChar(DigitValue(c)) == c
  {
    assert DigitValue(DigitChar(DigitValue(c))) == DigitValue(c);
  }

  lemma ShowNext(m: nat, d: nat)
    requires m > 0 && d < 10
    ensures Show(10 * m + d) == Show(m) + [DigitChar(d)]
  {
    hide DigitChar;
    assert (10 * m + d) / 10 == m && (10 * m + d) % 10 == d;
  }

  /** A numeral without a superfluous leading zero is the canonical one of its value. */
  lemma {:induction false} ShowRead(s: string)
    requires s != "" && AllDigits(s)
    requires s[0] == '0' ==> |s| == 1
    ensures Show(Read(s)) == s
  {
    hide DigitChar;
    var init, last := s[..|s| - 1], s[|s| - 1];
    assert s == init + [last];
    DigitSpelling(last);
    if init == "" {
      assert Read(s) == DigitValue(last);
    } else {
      ShowRead(init);
      ReadPositive(init);
      hide Show;
      ShowNext(Read(init), DigitValue(last));
    }
  }

  lemma {:induction false} ReadPositive(s: string)
    requires s != "" && AllDigits(s) && s[0] != '0'
    ensures Read(s) > 0
  {
    if |s| > 1 {
      ReadPositive(s[..|s| - 1]);
    }
  }
}

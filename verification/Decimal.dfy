/** Numbers as the text that the IR carries them in. */
module Decimal {
  function DigitChar(d: nat): char
    requires d < 10
  {
    '0' + d as char
  }

  function Digits(n: nat): (s: string)
    ensures s != [] && forall i :: 0 <= i < |s| ==> '0' <= s[i] <= '9'
  {
    if n < 10 then [DigitChar(n)] else Digits(n / 10) + [DigitChar(n % 10)]
  }

  function ToText(n: int): string {
    if n < 0 then "-" + Digits(-n) else Digits(n)
  }

  function ParseDigits(s: string): int {
    if s == [] then 0 else ParseDigits(s[..|s| - 1]) * 10 + (s[|s| - 1] as int - '0' as int)
  }

  function ParseInt(s: string): int {
    if s != [] && s[0] == '-' then -ParseDigits(s[1..]) else ParseDigits(s)
  }

  lemma {:induction false} ParseOfDigits(n: nat)
    ensures ParseDigits(Digits(n)) == n
  {
    if n < 10 {
      assert Digits(n)[..0] == [];
    } else {
      ParseOfDigits(n / 10);
      var s := Digits(n);
      assert s[..|s| - 1] == Digits(n / 10);
    }
  }

  lemma ParseOfText(n: int)
    ensures ParseInt(ToText(n)) == n
  {
    if n < 0 {
      ParseOfDigits(-n);
      assert ToText(n)[1..] == Digits(-n);
    } else {
      ParseOfDigits(n);
    }
  }

  /** Different numbers have different texts, also behind a common prefix. */
  lemma TextsDiffer(prefix: string, n: int, m: int)
    ensures prefix + ToText(n) == prefix + ToText(m) <==> n == m
  {
    ParseOfText(n);
    ParseOfText(m);
    assert (prefix + ToText(n))[|prefix|..] == ToText(n);
    assert (prefix + ToText(m))[|prefix|..] == ToText(m);
  }
}

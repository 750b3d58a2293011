/** Decimal numerals: str(n) and int(s) on plain digits. */
module Decimals {
  import opened Wrappers
  import opened Text

  predicate IsDigit(c: char) {
    '0' <= c <= '9'
  }

  predicate AllDigits(s: string) {
    s != "" && forall i | 0 <= i < |s| :: IsDigit(s[i])
  }

  function Digit(d: nat): (c: char)
    requires d < 10
    ensures IsDigit(c) && c as int == '0' as int + d
  {
    '0' + d as char
  }

  function DigitValue(c: char): (d: nat)
    requires IsDigit(c)
    ensures d < 10 && Digit(d) == c
  {
    c as int - '0' as int
  }

  /** str(n) for a number that is not negative. */
  function Numeral(n: nat): (s: string)
    ensures AllDigits(s)
  {
    if n < 10 then [Digit(n)] else Numeral(n / 10) + [Digit(n % 10)]
  }

  function DigitsValue(s: string): nat
    requires forall i | 0 <= i < |s| :: IsDigit(s[i])
  {
    if s == "" then 0 else DigitsValue(s[..|s| - 1]) * 10 + DigitValue(s[|s| - 1])
  }

  /** int(s) on plain digits; anything else is an error here. */
  function ParseNumeral(s: string): Option<nat> {
    if AllDigits(s) then Some(DigitsValue(s)) else None
  }

  lemma {:induction false} NumeralRoundTrip(n: nat)
    ensures ParseNumeral(Numeral(n)) == Some(n)
  {
    if n < 10 {
      assert [Digit(n)][..0] == "";
      assert DigitsValue([Digit(n)]) == n;
    } else {
      NumeralRoundTrip(n / 10);
      assert Numeral(n)[..|Numeral(n)| - 1] == Numeral(n / 10);
    }
  }

  lemma NumeralNoSpace(n: nat)
    ensures NoSpace(Numeral(n)) && NoBreak(Numeral(n))
  {
  }

  /** Digits with single underscores between them, as int() allows. */
  predicate IsGrouped(s: string) {
    && s != "" && IsDigit(s[0]) && IsDigit(s[|s| - 1])
    && (forall i | 0 <= i < |s| :: IsDigit(s[i]) || s[i] == '_')
    && (forall i | 0 <= i < |s| - 1 :: s[i] == '_' ==> s[i + 1] != '_')
  }

  function WithoutUnderscores(s: string): (r: string)
    ensures (forall i | 0 <= i < |s| :: IsDigit(s[i]) || s[i] == '_') ==> forall i | 0 <= i < |r| :: IsDigit(r[i])
    ensures (forall i | 0 <= i < |s| :: IsDigit(s[i])) ==> r == s
  {
    if s == "" then "" else (if s[0] == '_' then "" else [s[0]]) + WithoutUnderscores(s[1..])
  }

  /** int(s) on ASCII text: space around, a sign, grouped digits. */
  function PyInt(s: string): Option<int> {
    var t := Strip(s);
    var negative := t != "" && t[0] == '-';
    var digits := if t != "" && (t[0] == '-' || t[0] == '+') then t[1..] else t;
    if !IsGrouped(digits) then None
    else
      var n: int := DigitsValue(WithoutUnderscores(digits));
      Some(if negative then -n else n)
  }

  /** A printed number is read back. */
  lemma PyIntRoundTrip(n: nat)
    ensures PyInt(Numeral(n)) == Some(n)
  {
    hide Numeral, DigitsValue;
    NumeralRoundTrip(n);
    NumeralNoSpace(n);
    var s := Numeral(n);
    assert IsDigit(s[0]) && IsDigit(s[|s| - 1]);
    assert Strip(s) == s && IsGrouped(s) && WithoutUnderscores(s) == s;
  }
}

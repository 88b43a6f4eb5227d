/** Decimal numerals. */
module Decimal {

  predicate IsDigit(c: char) {
    '0' <= c <= '9'
  }

  predicate AllDigits(s: string) {
    forall i :: 0 <= i < |s| ==> IsDigit(s[i])
  }

  function ParseDigits(s: string): nat
    requires AllDigits(s)
  {
    if s == "" then 0 else 10 * ParseDigits(s[..|s| - 1]) + (s[|s| - 1] as int - '0' as int)
  }

  function Digits(n: nat): (s: string)
    ensures s != "" && AllDigits(s)
  {
    var c := ('0' as int + n % 10) as char;
    if n < 10 then [c] else Digits(n / 10) + [c]
  }

  /** A zero in front changes nothing. */
  lemma {:induction false} ZeroInFront(s: string)
    requires AllDigits(s)
    ensures AllDigits("0" + s) && ParseDigits("0" + s) == ParseDigits(s)
  {
    var t := "0" + s;
    if s == "" {
      assert t[..0] == "";
    } else {
      ZeroInFront(s[..|s| - 1]);
      assert t[..|t| - 1] == "0" + s[..|s| - 1];
    }
  }

  /** Printing a number and reading it back gives the number, so numerals are distinct. */
  lemma {:induction false} DigitsParse(n: nat)
    ensures ParseDigits(Digits(n)) == n
  {
    var c := ('0' as int + n % 10) as char;
    if n < 10 {
      assert [c][..0] == "";
    } else {
      DigitsParse(n / 10);
      var s := Digits(n / 10) + [c];
      assert s[..|s| - 1] == Digits(n / 10);
    }
  }
}

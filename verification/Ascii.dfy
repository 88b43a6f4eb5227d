/** The ASCII letters and digits, one by one. */
module Ascii {
  const CAPITALS := "ABCDEFGHIJKLMNOPQRSTUVWXYZ"
  const SMALLS := "abcdefghijklmnopqrstuvwxyz"
  const NUMERALS := "0123456789"

  lemma Capitals(c: char)
    ensures c in CAPITALS <==> 'A' <= c <= 'Z'
    ensures c in CAPITALS ==> CAPITALS[c as int - 65] == c
  {
    if 'A' <= c <= 'Z' { assert CAPITALS[c as int - 65] == c; }
  }

  lemma Smalls(c: char)
    ensures c in SMALLS <==> 'a' <= c <= 'z'
    ensures c in SMALLS ==> SMALLS[c as int - 97] == c
  {
    if 'a' <= c <= 'z' { assert SMALLS[c as int - 97] == c; }
  }

  lemma Numerals(c: char)
    ensures c in NUMERALS <==> '0' <= c <= '9'
  {
    if '0' <= c <= '9' { assert NUMERALS[c as int - 48] == c; }
  }
}

/** Which characters are letters and digits, written out, for the ranges the source tests. */
module Alphabets {

  const UPPER := "ABCDEFGHIJKLMNOPQRSTUVWXYZ"
  const LOWER := "abcdefghijklmnopqrstuvwxyz"
  const DIGITS := "0123456789"

  lemma UpperIs(c: char)
    ensures c in UPPER <==> 'A' <= c <= 'Z'
    ensures c in UPPER[..6] <==> 'A' <= c <= 'F'
  {
    assert forall i :: 0 <= i < 26 ==> UPPER[i] as int == 65 + i;
    if 'A' <= c <= 'Z' { assert UPPER[c as int - 65] == c; }
    if 'A' <= c <= 'F' { assert UPPER[..6][c as int - 65] == c; }
  }

  lemma Places()
    ensures |UPPER| == |LOWER| == 26 && |DIGITS| == 10
    ensures forall i :: 0 <= i < 26 ==> UPPER[i] as int == 65 + i && LOWER[i] as int == 97 + i
    ensures forall i :: 0 <= i < 10 ==> DIGITS[i] as int == 48 + i
  {
  }

  lemma LowerIs(c: char)
    ensures c in LOWER <==> 'a' <= c <= 'z'
    ensures c in LOWER[..6] <==> 'a' <= c <= 'f'
  {
    assert forall i :: 0 <= i < 26 ==> LOWER[i] as int == 97 + i;
    if 'a' <= c <= 'z' { assert LOWER[c as int - 97] == c; }
    if 'a' <= c <= 'f' { assert LOWER[..6][c as int - 97] == c; }
  }

  lemma DigitIs(c: char)
    ensures c in DIGITS <==> '0' <= c <= '9'
  {
    assert forall i :: 0 <= i < 10 ==> DIGITS[i] as int == 48 + i;
    if '0' <= c <= '9' { assert DIGITS[c as int - 48] == c; }
  }
}

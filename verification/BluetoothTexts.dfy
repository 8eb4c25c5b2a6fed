/** The addresses and identities of controllers, character by character. */
module BluetoothTexts {
  import Alphabets
  import CanonicalJson
  import opened Options
  import opened Bluetooth
  import opened BluetoothService

  /** A letter of either case. */
  lemma UpperCases(s: string, i: nat)
    requires i < |s|
    ensures s[i] !in Alphabets.LOWER ==> Upper(s)[i] == s[i]
    ensures forall k :: 0 <= k < 26 && s[i] == Alphabets.LOWER[k] ==> Upper(s)[i] == Alphabets.UPPER[k]
  {
    Alphabets.LowerIs(s[i]);
    Alphabets.Places();
  }

  /** Six pairs of hexadecimal digits with colons between them. */
  lemma AddressIff(s: string)
    ensures IsAddress(s) <==>
              && |s| == 17 && s[2] == s[5] == s[8] == s[11] == s[14] == ':'
              && forall i :: 0 <= i < 17 && i !in [2, 5, 8, 11, 14] ==>
                   s[i] in Alphabets.DIGITS || s[i] in Alphabets.LOWER[..6] || s[i] in Alphabets.UPPER[..6]
  {
    if |s| == 17 {
      forall i | 0 <= i < 17
        ensures IsHexDigit(s[i]) <==> s[i] in Alphabets.DIGITS || s[i] in Alphabets.LOWER[..6] || s[i] in Alphabets.UPPER[..6]
      {
        Alphabets.DigitIs(s[i]);
        Alphabets.LowerIs(s[i]);
        Alphabets.UpperIs(s[i]);
      }
      hide IsHexDigit;
    }
  }

  /** The first identity, and that the number after the word is the one it counts. */
  lemma IdentityText(n: nat)
    ensures |IdOf(n)| > 11 && IdOf(n)[..11] == "controller-" && IdOf(n)[11..] == CanonicalJson.Decimal(n) && Value(IdOf(n)[11..]) == n
  {
    ValueOfDecimal(n);
  }

  lemma DigitsIs(s: string)
    ensures AllDigits(s) <==> s != "" && forall c :: c in s ==> c in Alphabets.DIGITS
  {
    forall i | 0 <= i < |s| ensures CanonicalJson.IsDigit(s[i]) <==> s[i] in Alphabets.DIGITS {
      Alphabets.DigitIs(s[i]);
    }
  }

  /** A selected identity is the word and a number from one to 999999999, with no zero in front. */
  lemma SelectableIff(id: string, n: nat)
    ensures SessionIdNumber(id) == Some(n) <==>
              && |id| > 11 && id[..11] == "controller-" && id[11] != '0' && n <= 999_999_999
              && (if id[11] == '+' then AllDigits(id[12..]) && Value(id[12..]) == n else AllDigits(id[11..]) && Value(id[11..]) == n)
  {
    hide Value;
    if "controller-" <= id { assert id[..11] == "controller-"; }
    if |id| > 11 && id[..11] == "controller-" {
      assert "controller-" <= id;
      assert id[11..][1..] == id[12..];
      assert id[11..][0] == id[11];
    }
  }
}

/** The masked account number on the balance card. */
module BalanceCard {
  import opened Text

  /** The last four characters of a number's decimal string are the number
      modulo 10000 once it has four digits; below 1000 there are fewer. */
  lemma LastFourDigits(n: nat)
    ensures n < 1000 ==> |DecimalString(n)| <= 3
    ensures n >= 1000 ==>
      |DecimalString(n)| >= 4 && DecimalValue(LastChars(DecimalString(n), 4)) == n % 10000
  {
    assert Pow10(3) == 1000 && Pow10(4) == 10000;
    DecimalLengthBounds(n, 3);
    DecimalLengthBounds(n, 4);
    if n >= 1000 {
      SuffixValue(DecimalString(n), 4);
      DecimalRoundTrip(n);
    }
  }

  /** `maskAccountNumber`: three asterisks, then the last (at most) four
      characters of the decimal string of the number.  The prefix has three
      asterisks, not four: the character after it is a digit. */
  function MaskAccountNumber(accountNumber: nat): (r: seq<char>)
    ensures |r| == 3 + Min(4, |DecimalString(accountNumber)|) && |r| <= 7
    ensures r[..3] == "***"
    ensures forall i :: 3 <= i < |r| ==> IsDigit(r[i])
    ensures accountNumber < 1000 ==> r[3..] == DecimalString(accountNumber)
    ensures accountNumber >= 1000 ==> |r| == 7 && DecimalValue(r[3..]) == accountNumber % 10000
  {
    var lastFour := LastChars(DecimalString(accountNumber), 4);
    LastFourDigits(accountNumber);
    var r := "***" + lastFour;
    assert r[3..] == lastFour;
    r
  }
}

/**
 Account-number generation. The random source is injected: one attempt is
 the ten values the generator drew, each in `0..9` as `Next(10)` returns
 them, and the number is the string of the corresponding digit characters.
 */
module AccountNumbers {

  const ACCOUNT_NUMBER_LENGTH: nat := 10
  const DIGIT_CHARS: string := "0123456789"

  /** One value drawn from the random source for one position. */
  type Digit = d: int | 0 <= d < |DIGIT_CHARS|

  /** The draws of one generation attempt, one per position. */
  type Draws = s: seq<Digit> | |s| == ACCOUNT_NUMBER_LENGTH
    witness [0, 0, 0, 0, 0, 0, 0, 0, 0, 0]

  predicate IsDigit(c: char)
  {
    '0' <= c <= '9'
  }

  /** The shape of every account number: ten decimal digits, leading zeros allowed. */
  predicate IsAccountNumber(s: string)
  {
    |s| == ACCOUNT_NUMBER_LENGTH && forall i :: 0 <= i < |s| ==> IsDigit(s[i])
  }

  function DigitValue(c: char): int
  {
    c as int - '0' as int
  }

  lemma DigitCharValue(d: Digit)
    ensures IsDigit(DIGIT_CHARS[d]) && DigitValue(DIGIT_CHARS[d]) == d
  {
    assert DIGIT_CHARS == ['0', '1', '2', '3', '4', '5', '6', '7', '8', '9'];
  }

  /**
   The number built from `draws`: ten digit characters, the one at each
   position being the digit that position drew.
   */
  function GenerateAccountNumber(draws: Draws): (r: string)
    ensures IsAccountNumber(r)
    ensures forall i :: 0 <= i < |r| ==> DigitValue(r[i]) == draws[i]
  {
    var r := seq(ACCOUNT_NUMBER_LENGTH, i requires 0 <= i < ACCOUNT_NUMBER_LENGTH => DIGIT_CHARS[draws[i]]);
    assert forall i :: 0 <= i < |r| ==> IsDigit(r[i]) && DigitValue(r[i]) == draws[i] by {
      forall i | 0 <= i < |r| ensures IsDigit(r[i]) && DigitValue(r[i]) == draws[i] {
        DigitCharValue(draws[i]);
      }
    }
    r
  }

  /** Different draws give different numbers. */
  lemma GenerateInjective(d1: Draws, d2: Draws)
    requires GenerateAccountNumber(d1) == GenerateAccountNumber(d2)
    ensures d1 == d2
  {
    var n := GenerateAccountNumber(d1);
    forall i | 0 <= i < ACCOUNT_NUMBER_LENGTH ensures d1[i] == d2[i] {
      assert DigitValue(n[i]) == d1[i];
    }
  }

  /** Every ten-digit string is produced by some draws: the number space is all of them. */
  lemma GenerateSurjective(s: string)
    requires IsAccountNumber(s)
    ensures exists d: Draws :: GenerateAccountNumber(d) == s
  {
    var d: Draws := seq(ACCOUNT_NUMBER_LENGTH, i requires 0 <= i < ACCOUNT_NUMBER_LENGTH => DigitValue(s[i]));
    var n := GenerateAccountNumber(d);
    forall i | 0 <= i < ACCOUNT_NUMBER_LENGTH ensures n[i] == s[i] {
      assert DigitValue(n[i]) == DigitValue(s[i]);
    }
    assert n == s;
  }
}

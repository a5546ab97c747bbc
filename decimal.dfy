/**
 * How a JavaScript template literal writes an integer (`${startYear}`), and the
 * matching reader, so that the decimal text of a year can be shown to determine it.
 */
module Decimal {
  import opened Wrappers

  predicate IsDigit(c: char) {
    '0' <= c <= '9'
  }

  predicate AllDigits(s: string) {
    forall i :: 0 <= i < |s| ==> IsDigit(s[i])
  }

  function DigitChar(d: nat): char
    requires d < 10
  {
    ('0' as int + d) as char
  }

  function DigitValue(c: char): nat
    requires IsDigit(c)
  {
    c as int - '0' as int
  }

  /** Shortest decimal text of a natural number, most significant digit first. */
  function NatText(n: nat): string
    decreases n
  {
    if n < 10 then [DigitChar(n)] else NatText(n / 10) + [DigitChar(n % 10)]
  }

  /** `${n}` for an integer n: a minus sign, then the digits of |n|. */
  function IntText(n: int): (text: string)
    ensures |text| > 0
    ensures text[0] == '-' <==> n < 0
  {
    if n < 0 then "-" + NatText(-n) else (NatTextRoundTrip(n); NatText(n))
  }

  /** The value of a string of decimal digits. */
  function ParseDigits(s: string): nat
    requires AllDigits(s)
  {
    if |s| == 0 then 0 else ParseDigits(s[..|s| - 1]) * 10 + DigitValue(s[|s| - 1])
  }

  /**
   * Reads back the text IntText writes: an optional minus sign, then a non-empty run of
   * digits; anything else is not such a text.
   */
  function ReadIntText(s: string): Option<int> {
    if |s| > 1 && s[0] == '-' && AllDigits(s[1..]) then Some(0 - ParseDigits(s[1..]))
    else if |s| > 0 && AllDigits(s) then Some(ParseDigits(s))
    else None
  }

  lemma {:induction false} NatTextRoundTrip(n: nat)
    ensures |NatText(n)| > 0 && AllDigits(NatText(n))
    ensures ParseDigits(NatText(n)) == n
    decreases n
  {
    if n >= 10 {
      NatTextRoundTrip(n / 10);
      var s := NatText(n);
      assert s[..|s| - 1] == NatText(n / 10);
    }
  }

  /** The text of an integer reads back as that integer. */
  lemma IntTextRoundTrip(n: int)
    ensures ReadIntText(IntText(n)) == Some(n)
  {
    if n < 0 {
      NatTextRoundTrip(-n);
      assert IntText(n)[1..] == NatText(-n);
    } else {
      NatTextRoundTrip(n);
    }
  }
}

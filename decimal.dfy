/**
 * Decimal text of integers as the C++ standard library's std::to_string
 * writes it for integral arguments: an optional '-' followed by the digits
 * of the magnitude, without leading zeros ("0" for zero). ReadInt reads such
 * a text back.
 */
module Decimal {
  import opened Results

  function Digit(d: nat): char
    requires d < 10
  {
    ('0' as int + d) as char
  }

  predicate IsDigit(c: char)
  {
    '0' <= c <= '9'
  }

  function DigitValue(c: char): nat
    requires IsDigit(c)
  {
    c as int - '0' as int
  }

  /** Digits of n, most significant first. */
  function NatText(n: nat): string
    decreases n
  {
    if n < 10 then [Digit(n)] else NatText(n / 10) + [Digit(n % 10)]
  }

  /** std::to_string of an integer value. */
  function IntText(n: int): string
  {
    if n < 0 then "-" + NatText(-n) else NatText(n)
  }

  /** A non-empty run of digits without a leading zero, or "0". */
  predicate IsNatText(s: string)
  {
    |s| >= 1 && (forall i :: 0 <= i < |s| ==> IsDigit(s[i])) && (s[0] == '0' ==> |s| == 1)
  }

  /** The number a run of digits denotes. */
  function DigitsValue(s: string): nat
    requires forall i :: 0 <= i < |s| ==> IsDigit(s[i])
    decreases |s|
  {
    if s == [] then 0
    else 10 * DigitsValue(s[..|s| - 1]) + DigitValue(s[|s| - 1])
  }

  /** Reads a canonical decimal integer text; anything else is None. */
  function ReadInt(s: string): Option<int>
  {
    if |s| >= 2 && s[0] == '-' && IsNatText(s[1..]) && s[1] != '0' then Some(-(DigitsValue(s[1..]) as int))
    else if IsNatText(s) then Some(DigitsValue(s))
    else None
  }

  /** NatText writes canonical digits denoting n. */
  lemma {:induction false} NatTextDenotes(n: nat)
    ensures IsNatText(NatText(n)) && DigitsValue(NatText(n)) == n
    ensures n > 0 ==> NatText(n)[0] != '0'
    decreases n
  {
    if n >= 10 {
      NatTextDenotes(n / 10);
      var s := NatText(n);
      assert s[..|s| - 1] == NatText(n / 10);
      assert s[0] == NatText(n / 10)[0];
    }
  }

  /** Reading back the text of an integer gives that integer. */
  lemma IntTextRoundTrip(n: int)
    ensures ReadInt(IntText(n)) == Some(n)
  {
    if n < 0 {
      NatTextDenotes(-n);
      assert IntText(n)[1..] == NatText(-n);
    } else {
      NatTextDenotes(n);
    }
  }
}

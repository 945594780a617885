/** Python's `f"{n}"` for integers — the decimal text the bot shows for the
    message counter and for user IDs — and the reading that undoes it. */
module Decimal {

  import opened Wrappers

  function DigitChar(d: nat): char
    requires d < 10
  {
    "0123456789"[d]
  }

  predicate IsDigit(c: char) {
    '0' <= c <= '9'
  }

  function DigitValue(c: char): nat
    requires IsDigit(c)
  {
    c as nat - '0' as nat
  }

  lemma DigitRoundTrip(d: nat)
    requires d < 10
    ensures IsDigit(DigitChar(d)) && DigitValue(DigitChar(d)) == d
  {
  }

  /** The decimal digits of `n`, most significant first, with no leading zero. */
  function NatToString(n: nat): (r: string)
    ensures |r| >= 1
    decreases n
  {
    if n < 10 then [DigitChar(n)] else NatToString(n / 10) + [DigitChar(n % 10)]
  }

  /** The value of a non-empty string of decimal digits. */
  function ParseNat(s: string): (r: Option<nat>)
    decreases |s|
  {
    if s == [] || !IsDigit(s[|s| - 1]) then None
    else if |s| == 1 then Some(DigitValue(s[0]))
    else
      match ParseNat(s[..|s| - 1])
      case None => None
      case Some(high) => Some(10 * high + DigitValue(s[|s| - 1]))
  }

  /** `f"{x}"` for any integer: a minus sign before the digits of a negative one. */
  function IntToString(x: int): string {
    if x < 0 then "-" + NatToString(-x) else NatToString(x)
  }

  function ParseInt(s: string): Option<int> {
    if |s| > 0 && s[0] == '-' then
      match ParseNat(s[1..])
      case None => None
      case Some(n) => Some(-(n as int))
    else
      match ParseNat(s)
      case None => None
      case Some(n) => Some(n)
  }

  /** The digits of `n` read back as `n`. */
  lemma {:induction false} ParseNatToString(n: nat)
    ensures ParseNat(NatToString(n)) == Some(n)
    ensures NatToString(n)[0] != '-'
    decreases n
  {
    DigitRoundTrip(n % 10);
    var s := NatToString(n);
    if n < 10 {
      assert s == [DigitChar(n)];
    } else {
      ParseNatToString(n / 10);
      var high := NatToString(n / 10);
      assert s == high + [DigitChar(n % 10)];
      assert s[..|s| - 1] == high && s[|s| - 1] == DigitChar(n % 10);
      assert s[0] == high[0];
      assert ParseNat(s) == Some(10 * (n / 10) + n % 10);
    }
  }

  /** The text of an integer read back as that integer: two IDs with the same
      text are the same ID. */
  lemma {:induction false} ParseIntToString(x: int)
    ensures ParseInt(IntToString(x)) == Some(x)
  {
    if x < 0 {
      var digits := NatToString(-x);
      ParseNatToString(-x);
      var s := "-" + digits;
      assert IntToString(x) == s;
      assert s[0] == '-' && s[1..] == digits;
      assert ParseNat(s[1..]) == Some(-x);
    } else {
      ParseNatToString(x);
      assert IntToString(x) == NatToString(x);
      assert ParseNat(IntToString(x)) == Some(x);
    }
  }

  /** Digits never include a line break. */
  lemma {:induction false} NatToStringOneLine(n: nat)
    ensures '\n' !in NatToString(n)
    decreases n
  {
    if n >= 10 {
      NatToStringOneLine(n / 10);
    }
  }

  lemma IntToStringOneLine(x: int)
    ensures '\n' !in IntToString(x)
  {
    if x < 0 {
      NatToStringOneLine(-x);
    } else {
      NatToStringOneLine(x);
    }
  }
}

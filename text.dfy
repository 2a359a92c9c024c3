/**
 * Decimal rendering of integers, as C# string interpolation does it for `int`,
 * together with the parsers that invert it (used to state that the HUD labels
 * lose no information).
 */
module Text {
  import opened Wrappers

  predicate IsDigit(c: char) {
    '0' <= c <= '9'
  }

  predicate AllDigits(s: string) {
    forall i :: 0 <= i < |s| ==> IsDigit(s[i])
  }

  function DigitChar(d: nat): (c: char)
    requires d < 10
    ensures IsDigit(c)
  {
    ('0' as int + d) as char
  }

  function DigitValue(c: char): (d: nat)
    requires IsDigit(c)
    ensures d < 10
  {
    c as int - '0' as int
  }

  /** Decimal digits of `n`, most significant first, with no leading zero. */
  function NatToString(n: nat): (s: string)
    ensures |s| > 0 && AllDigits(s)
    ensures |s| > 1 ==> s[0] != '0'
    decreases n
  {
    if n < 10 then [DigitChar(n)] else NatToString(n / 10) + [DigitChar(n % 10)]
  }

  /** C#'s `int.ToString()`: a minus sign before the digits of a negative number. */
  function IntToString(i: int): (s: string)
    ensures |s| > 0
    ensures i < 0 <==> s[0] == '-'
    ensures i >= 0 ==> AllDigits(s)
    ensures i < 0 ==> |s| > 1 && AllDigits(s[1..])
  {
    if i < 0 then "-" + NatToString(-i) else NatToString(i)
  }

  /** The number a string of decimal digits denotes. */
  function ParseDigits(s: string): nat
    requires AllDigits(s)
  {
    if |s| == 0 then 0 else ParseDigits(s[..|s| - 1]) * 10 + DigitValue(s[|s| - 1])
  }

  /** Reads back what `IntToString` writes; `None` for anything else. */
  function ParseInt(s: string): Option<int> {
    if |s| > 1 && s[0] == '-' && AllDigits(s[1..]) then Some(0 - ParseDigits(s[1..]) as int)
    else if |s| > 0 && AllDigits(s) then Some(ParseDigits(s) as int)
    else None
  }

  lemma {:induction false} ParseNatToString(n: nat)
    ensures ParseDigits(NatToString(n)) == n
    decreases n
  {
    if n >= 10 {
      var s := NatToString(n);
      assert s[..|s| - 1] == NatToString(n / 10);
      ParseNatToString(n / 10);
      assert DigitValue(DigitChar(n % 10)) == n % 10;
    } else {
      assert DigitValue(DigitChar(n)) == n;
    }
  }

  /** Rendering an integer and parsing the text gives the integer back. */
  lemma IntRoundTrip(i: int)
    ensures ParseInt(IntToString(i)) == Some(i)
  {
    if i < 0 {
      assert IntToString(i)[1..] == NatToString(-i);
      ParseNatToString(-i);
    } else {
      ParseNatToString(i);
    }
  }

  /** Distinct integers render to distinct text. */
  lemma IntToStringInjective(i: int, j: int)
    requires IntToString(i) == IntToString(j)
    ensures i == j
  {
    IntRoundTrip(i);
    IntRoundTrip(j);
  }

  /** After its first character, `IntToString` writes only digits. */
  lemma DigitsAfterSign(i: int, k: int)
    requires 1 <= k < |IntToString(i)|
    ensures IsDigit(IntToString(i)[k])
  {
    var s := IntToString(i);
    if i < 0 {
      assert s[1..][k - 1] == s[k];
    }
  }

  /**
   * Two integers joined by a separator that starts with neither a digit nor
   * a minus sign can be told apart again: the joined text determines both.
   */
  lemma JoinedInjective(a: int, b: int, c: int, d: int, sep: string)
    requires |sep| > 0 && !IsDigit(sep[0]) && sep[0] != '-'
    requires IntToString(a) + sep + IntToString(b) == IntToString(c) + sep + IntToString(d)
    ensures a == c && b == d
  {
    var x, y := IntToString(a), IntToString(c);
    var s := x + sep + IntToString(b);
    var t := y + sep + IntToString(d);
    if |x| < |y| {
      assert s[|x|] == sep[0];
      DigitsAfterSign(c, |x|);
      assert false;
    } else if |y| < |x| {
      assert t[|y|] == sep[0];
      DigitsAfterSign(a, |y|);
      assert false;
    }
    assert x == s[..|x|] && y == t[..|y|];
    IntToStringInjective(a, c);
    assert IntToString(b) == s[|x| + |sep|..] && IntToString(d) == t[|y| + |sep|..];
    IntToStringInjective(b, d);
  }
}

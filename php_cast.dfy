/**
 * PHP's `(int)` cast of a request string, as the cart update applies it to the
 * posted quantity: leading whitespace is skipped, an optional sign is read, then
 * the longest run of decimal digits; apart from exponent forms ("3e2", ".5e1"),
 * which are not modelled, anything else ends the number, and a string with no
 * leading digits casts to 0.
 */
module PhpCast {

  predicate IsDigit(c: char) { '0' <= c <= '9' }

  /** The whitespace PHP allows in front of a numeric string. */
  predicate IsSpace(c: char) {
    c == ' ' || c == '\t' || c == '\n' || c == '\r' || c == '\U{B}' || c == '\U{C}'
  }

  predicate AllDigits(s: string) { forall i :: 0 <= i < |s| ==> IsDigit(s[i]) }

  function SkipSpace(s: string): (r: string)
    ensures |r| <= |s| && r == s[|s| - |r|..]
    ensures |r| > 0 ==> !IsSpace(r[0])
  {
    if |s| > 0 && IsSpace(s[0]) then SkipSpace(s[1..]) else s
  }

  /** The longest prefix of `s` made of digits. */
  function DigitPrefix(s: string): (d: string)
    ensures d <= s && AllDigits(d)
    ensures |d| < |s| ==> !IsDigit(s[|d|])
  {
    if |s| > 0 && IsDigit(s[0]) then [s[0]] + DigitPrefix(s[1..]) else []
  }

  function DigitValue(c: char): nat
    requires IsDigit(c)
  {
    c as int - '0' as int
  }

  /** The value of a string of decimal digits, most significant first. */
  function DigitsValue(d: string): nat
    requires AllDigits(d)
  {
    if d == [] then 0 else 10 * DigitsValue(d[..|d| - 1]) + DigitValue(d[|d| - 1])
  }

  /** After the whitespace, `s` starts with a minus sign. */
  predicate LeadsWithMinus(s: string)
  {
    var t := SkipSpace(s);
    |t| > 0 && t[0] == '-'
  }

  /** The sign of the result is the sign written in front of the digits: only a
      leading minus gives a negative number, and a leading minus never gives a
      positive one. */
  function IntCast(s: string): (r: int)
    ensures r < 0 ==> LeadsWithMinus(s)
    ensures LeadsWithMinus(s) ==> r <= 0
  {
    var t := SkipSpace(s);
    if |t| > 0 && t[0] == '-' then 0 - DigitsValue(DigitPrefix(t[1..]))
    else if |t| > 0 && t[0] == '+' then DigitsValue(DigitPrefix(t[1..]))
    else DigitsValue(DigitPrefix(t))
  }

  function DigitChar(n: nat): (c: char)
    requires n < 10
    ensures IsDigit(c) && DigitValue(c) == n
  {
    ('0' as int + n) as char
  }

  /** The decimal rendering of a natural number, as a browser posts it. */
  function Show(n: nat): (s: string)
    ensures |s| > 0 && AllDigits(s)
  {
    if n < 10 then [DigitChar(n)] else Show(n / 10) + [DigitChar(n % 10)]
  }

  lemma {:induction false} ShowValue(n: nat)
    ensures DigitsValue(Show(n)) == n
  {
    if n >= 10 {
      ShowValue(n / 10);
      var s := Show(n);
      assert s[..|s| - 1] == Show(n / 10);
    }
  }

  lemma {:induction false} DigitPrefixOfDigits(s: string)
    requires AllDigits(s)
    ensures DigitPrefix(s) == s
  {
    if |s| > 0 {
      DigitPrefixOfDigits(s[1..]);
      assert s == [s[0]] + s[1..];
    }
  }

  /** Casting the rendering of a number, with or without a minus sign, gives the number back. */
  lemma {:induction false} IntCastShow(n: nat)
    ensures IntCast(Show(n)) == n
    ensures IntCast("-" + Show(n)) == 0 - n
  {
    ShowValue(n);
    IntCastOfDigits(Show(n));
  }

  lemma {:induction false} IntCastOfDigits(s: string)
    requires |s| > 0 && AllDigits(s)
    ensures IntCast(s) == DigitsValue(s)
    ensures IntCast("-" + s) == 0 - DigitsValue(s)
  {
    DigitPrefixOfDigits(s);
    assert IsDigit(s[0]);
    SkipSpaceNoop(s);
    var m := "-" + s;
    SkipSpaceNoop(m);
    assert m[1..] == s;
  }

  lemma SkipSpaceNoop(s: string)
    requires |s| > 0 ==> !IsSpace(s[0])
    ensures SkipSpace(s) == s
  {
  }

  /** Text that does not start with whitespace, a sign or a digit casts to 0. */
  lemma IntCastNonNumeric(s: string)
    requires |s| > 0 ==> !IsSpace(s[0]) && !IsDigit(s[0]) && s[0] != '-' && s[0] != '+'
    ensures IntCast(s) == 0
  {
    SkipSpaceNoop(s);
  }

  /** Whatever follows the digits is ignored: "3 items", "3.9" and "3abc" all cast like "3". */
  lemma {:induction false} IntCastIgnoresTail(n: nat, tail: string)
    requires |tail| > 0 ==> !IsDigit(tail[0])
    ensures IntCast(Show(n) + tail) == n
  {
    var s := Show(n);
    ShowValue(n);
    DigitPrefixAppend(s, tail);
    assert (s + tail)[0] == s[0] && IsDigit(s[0]);
    SkipSpaceNoop(s + tail);
  }

  lemma {:induction false} DigitPrefixAppend(s: string, tail: string)
    requires AllDigits(s)
    requires |tail| > 0 ==> !IsDigit(tail[0])
    ensures DigitPrefix(s + tail) == s
  {
    if |s| > 0 {
      DigitPrefixAppend(s[1..], tail);
      assert (s + tail)[1..] == s[1..] + tail;
      assert s == [s[0]] + s[1..];
    }
  }
}

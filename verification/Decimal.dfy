/** Decimal numbers as the C library prints ("%d") and scans them (atoi, sscanf "%d"). */
module Decimal {

  predicate Digit(c: char) { '0' <= c <= '9' }

  predicate Space(c: char) { c == ' ' || '\t' <= c <= '\r' }

  function SkipSpace(s: string): string { if s != "" && Space(s[0]) then SkipSpace(s[1..]) else s }

  /** The value of the leading digits, after acc. */
  function Digits(s: string, acc: int): int {
    if s != "" && Digit(s[0]) then Digits(s[1..], 10 * acc + (s[0] as int - '0' as int)) else acc
  }

  /** White space, an optional sign and digits; 0 when there are none. */
  function Atoi(s: string): int {
    var t := SkipSpace(s);
    if t != "" && t[0] == '-' then -Digits(t[1..], 0)
    else if t != "" && t[0] == '+' then Digits(t[1..], 0)
    else Digits(t, 0)
  }

  function DigitOf(d: nat): char
    requires d < 10
  {
    '0' + d as char
  }

  function NatText(n: nat): (s: string)
    ensures s != "" && forall k | 0 <= k < |s| :: Digit(s[k])
  {
    if n < 10 then [DigitOf(n)] else NatText(n / 10) + [DigitOf(n % 10)]
  }

  function Text(n: int): (s: string)
    ensures s != "" && forall k | 0 <= k < |s| :: Digit(s[k]) || s[k] == '-'
  {
    if n < 0 then ['-'] + NatText(-n) else NatText(n)
  }

  lemma {:induction false} DigitsAppend(a: string, b: string, acc: int)
    requires forall k | 0 <= k < |a| :: Digit(a[k])
    ensures Digits(a + b, acc) == Digits(b, Digits(a, acc))
  {
    if a == "" {
      assert a + b == b;
    } else {
      assert (a + b)[1..] == a[1..] + b;
      DigitsAppend(a[1..], b, 10 * acc + (a[0] as int - '0' as int));
    }
  }

  lemma {:induction false} NatRoundTrip(n: nat)
    ensures Digits(NatText(n), 0) == n
  {
    if n >= 10 {
      NatRoundTrip(n / 10);
      DigitsAppend(NatText(n / 10), [DigitOf(n % 10)], 0);
      assert Digits([DigitOf(n % 10)], n / 10) == Digits([], 10 * (n / 10) + n % 10);
    } else {
      assert Digits([DigitOf(n)], 0) == Digits([], n);
    }
  }

  /** Scanning stops at the first character that is no digit and finds the number printed before it. */
  lemma RoundTrip(n: int, rest: string)
    requires rest == "" || !Digit(rest[0])
    ensures Atoi(Text(n) + rest) == n
  {
    var m: nat, s := if n < 0 then -n else n, Text(n) + rest;
    NatRoundTrip(m);
    DigitsAppend(NatText(m), rest, 0);
    assert s[0] == Text(n)[0];
    if n < 0 {
      assert s[1..] == NatText(m) + rest;
    }
  }
}

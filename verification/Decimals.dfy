/** Zero-padded decimal numbers, as `strftime` and `str.format` print them and `int` reads them. */
module Decimals {
  import opened Common

  function Power10(n: nat): (r: nat)
    ensures r > 0
  {
    if n == 0 then 1 else 10 * Power10(n - 1)
  }

  predicate IsDigit(c: char) {
    '0' <= c <= '9'
  }

  predicate AllDigits(s: string) {
    forall i | 0 <= i < |s| :: IsDigit(s[i])
  }

  function Digit(n: nat): char
    requires n < 10
  {
    '0' + n as char
  }

  /** The last `width` digits of a number. */
  function Padded(n: nat, width: nat): (s: string)
    ensures |s| == width && AllDigits(s)
  {
    if width == 0 then "" else Padded(n / 10, width - 1) + [Digit(n % 10)]
  }

  function ValueOf(s: string): nat
    requires AllDigits(s)
  {
    if |s| == 0 then 0 else 10 * ValueOf(s[..|s| - 1]) + (s[|s| - 1] - '0') as nat
  }

  /** `int(s)`, for strings of digits; the empty string and any other character raise a ValueError. */
  function Int(s: string): Option<nat> {
    if |s| > 0 && AllDigits(s) then Some(ValueOf(s)) else None
  }

  lemma {:induction false} ValueIsBounded(s: string)
    requires AllDigits(s)
    ensures ValueOf(s) < Power10(|s|)
  {
    if |s| > 0 { ValueIsBounded(s[..|s| - 1]); }
  }

  /** Reading what was printed gives the number back, if it fits. */
  lemma {:induction false} PaddedRoundTrip(n: nat, width: nat)
    requires n < Power10(width)
    ensures ValueOf(Padded(n, width)) == n
  {
    if width > 0 {
      PaddedRoundTrip(n / 10, width - 1);
      assert Padded(n, width)[..width - 1] == Padded(n / 10, width - 1);
    }
  }

  /** Printing what was read gives the digits back, leading zeros included. */
  lemma {:induction false} ValueRoundTrip(s: string)
    requires AllDigits(s)
    ensures Padded(ValueOf(s), |s|) == s
  {
    if |s| > 0 {
      ValueRoundTrip(s[..|s| - 1]);
      assert s == s[..|s| - 1] + [s[|s| - 1]];
    }
  }

  /** A leading part counts for as many powers of ten as digits follow it. */
  lemma {:induction false} ValueOfTwoParts(a: string, b: string)
    requires AllDigits(a) && AllDigits(b)
    ensures AllDigits(a + b) && ValueOf(a + b) == ValueOf(a) * Power10(|b|) + ValueOf(b)
  {
    if |b| == 0 {
      assert a + b == a;
    } else {
      var init, v, d := b[..|b| - 1], ValueOf(a), (b[|b| - 1] - '0') as nat;
      ValueOfTwoParts(a, init);
      assert (a + b)[..|a + b| - 1] == a + init && (a + b)[|a + b| - 1] == b[|b| - 1];
      TenTimes(v, Power10(|b| - 1), ValueOf(init), d);
    }
  }

  lemma TenTimes(v: nat, p: nat, w: nat, d: nat)
    ensures 10 * (v * p + w) + d == v * (10 * p) + (10 * w + d)
  {
  }

  /** The order of strings in Python: by the first character that differs, a proper prefix first. */
  predicate Before(a: string, b: string) {
    |b| > 0 && (|a| == 0 || a[0] < b[0] || (a[0] == b[0] && Before(a[1..], b[1..])))
  }

  lemma {:induction false} BeforeWithPrefix(c: string, a: string, b: string)
    ensures Before(c + a, c + b) <==> Before(a, b)
  {
    if |c| == 0 {
      assert c + a == a && c + b == b;
    } else {
      BeforeWithPrefix(c[1..], a, b);
      assert (c + a)[1..] == c[1..] + a && (c + b)[1..] == c[1..] + b;
    }
  }

  /** Strings of digits of one length are ordered as their values. */
  lemma {:induction false} BeforeIsLess(a: string, b: string)
    requires |a| == |b| && AllDigits(a) && AllDigits(b)
    ensures Before(a, b) <==> ValueOf(a) < ValueOf(b)
  {
    if |a| > 0 {
      BeforeIsLess(a[1..], b[1..]);
      hide ValueOf, Power10;
      assert a == [a[0]] + a[1..] && b == [b[0]] + b[1..];
      ValueOfTwoParts([a[0]], a[1..]);
      ValueOfTwoParts([b[0]], b[1..]);
      ValueIsBounded(a[1..]);
      ValueIsBounded(b[1..]);
      SingleDigit(a[0]);
      SingleDigit(b[0]);
      LeadingDigitDecides(ValueOf([a[0]]), ValueOf([b[0]]), ValueOf(a[1..]), ValueOf(b[1..]), Power10(|a| - 1));
    }
  }

  lemma SingleDigit(c: char)
    requires IsDigit(c)
    ensures ValueOf([c]) == (c - '0') as nat
  {
    assert [c][..0] == "" && ValueOf("") == 0;
  }

  lemma LeadingDigitDecides(x: nat, y: nat, u: nat, v: nat, p: nat)
    requires u < p && v < p
    ensures x * p + u < y * p + v <==> x < y || (x == y && u < v)
  {
    if x < y {
      assert (x + 1) * p <= y * p;
    } else if y < x {
      assert (y + 1) * p <= x * p;
    }
  }
}

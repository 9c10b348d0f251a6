/** Numeric primitives of the JavaScript runtime that the academy formulas rely on:
    Math.random draws, Math.round, Math.ceil, Math.min/max and the decimal
    strings produced by template literals and read back by parseInt. */
module Numeric {

  /** One draw of Math.random(): a real number in [0, 1). */
  predicate IsRoll(r: real) {
    0.0 <= r < 1.0
  }

  /** Every element of a sequence of draws is a Math.random() value. */
  predicate AllRolls(rs: seq<real>) {
    forall i :: 0 <= i < |rs| ==> IsRoll(rs[i])
  }

  /** Math.round: the nearest integer, with halves rounded towards +infinity. */
  function Round(x: real): (n: int)
    ensures x - 0.5 < n as real <= x + 0.5
  {
    (x + 0.5).Floor
  }

  /** Math.ceil: the least integer not below x. */
  function Ceil(x: real): (n: int)
    ensures x <= n as real < x + 1.0
  {
    -((-x).Floor)
  }

  function Min(a: int, b: int): (m: int)
    ensures m <= a && m <= b && (m == a || m == b)
  {
    if a < b then a else b
  }

  function Max(a: int, b: int): (m: int)
    ensures m >= a && m >= b && (m == a || m == b)
  {
    if a < b then b else a
  }

  /** Math.max(0, x) on a real. */
  function MaxZero(x: real): (m: real)
    ensures m >= 0.0 && m >= x && (m == 0.0 || m == x)
  {
    if x < 0.0 then 0.0 else x
  }

  /** Math.round is monotone: a larger argument never rounds to a smaller integer. */
  lemma RoundMonotone(x: real, y: real)
    requires x <= y
    ensures Round(x) <= Round(y)
  {
  }

  /** Math.round of an exact integer is that integer. */
  lemma RoundOfInt(k: int)
    ensures Round(k as real) == k
  {
  }

  /** Math.floor(random * n) is a valid index below n. */
  lemma FloorRollBelow(r: real, n: nat)
    requires IsRoll(r) && n > 0
    ensures 0 <= (r * n as real).Floor < n
  {
    assert r * n as real < n as real by {
      assert (1.0 - r) * n as real > 0.0;
    }
  }

  /** Math.ceil(random * n) lies in 0..n and is 0 exactly when the draw is exactly 0. */
  lemma CeilRollRange(r: real, n: nat)
    requires IsRoll(r) && n > 0
    ensures 0 <= Ceil(r * n as real) <= n
    ensures Ceil(r * n as real) == 0 <==> r == 0.0
  {
    assert r * n as real < n as real by {
      assert (1.0 - r) * n as real > 0.0;
    }
    if r > 0.0 {
      assert r * n as real > 0.0;
    }
  }

  // ---- integer and real division ----

  lemma RealQuotientFloor(a: nat, b: nat)
    requires b > 0
    ensures (a as real / b as real).Floor == a / b
  {
    var q, r := a / b, a % b;
    assert a == q * b + r;
    assert a as real == q as real * b as real + r as real;
    assert a as real / b as real == q as real + r as real / b as real;
    assert 0.0 <= r as real / b as real < 1.0;
  }

  lemma QuotientUnique(y: real, n: real, d: real)
    requires d != 0.0 && y * d == n
    ensures y == n / d
  {
    assert (n / d) * d == n;
    assert (y - n / d) * d == 0.0;
  }

  /** For a positive divisor d, x div d >= k exactly when x >= k * d. */
  lemma DivAtLeast(x: int, d: int, k: int)
    requires d > 0
    ensures x / d >= k <==> x >= k * d
  {
    var q, r := x / d, x % d;
    assert x == q * d + r && 0 <= r < d;
    if q >= k {
      MulNonNegative(q - k, d);
      assert q * d == k * d + (q - k) * d;
    } else {
      MulNonNegative(k - 1 - q, d);
      assert k * d == q * d + d + (k - 1 - q) * d;
    }
  }

  lemma MulNonNegative(a: int, b: int)
    requires a >= 0 && b >= 0
    ensures a * b >= 0
  {
  }

  // ---- decimal strings ----

  predicate IsDigit(c: char) {
    '0' <= c <= '9'
  }

  predicate AllDigits(s: string) {
    forall i :: 0 <= i < |s| ==> IsDigit(s[i])
  }

  function DigitChar(d: nat): (c: char)
    requires d < 10
    ensures IsDigit(c) && (c - '0') as int == d
  {
    ('0' as int + d) as char
  }

  /** The decimal text of a natural number, as a template literal `${n}` writes it. */
  function NatToDecimal(n: nat): (s: string)
    ensures |s| >= 1 && AllDigits(s)
    decreases n
  {
    if n < 10 then [DigitChar(n)] else NatToDecimal(n / 10) + [DigitChar(n % 10)]
  }

  /** parseInt of a string made of decimal digits only. */
  function ParseDecimal(s: string): (n: nat)
    requires AllDigits(s)
    decreases |s|
  {
    if s == [] then 0
    else ParseDecimal(s[..|s| - 1]) * 10 + (s[|s| - 1] - '0') as int
  }

  /** parseInt reads back exactly the number a template literal wrote. */
  lemma {:induction false} DecimalRoundTrip(n: nat)
    ensures ParseDecimal(NatToDecimal(n)) == n
    decreases n
  {
    if n >= 10 {
      var s := NatToDecimal(n);
      assert s[..|s| - 1] == NatToDecimal(n / 10);
      DecimalRoundTrip(n / 10);
    }
  }

  /** String.prototype.replace(c, "") with a one-character pattern: drops the first occurrence of c. */
  function RemoveFirst(s: string, c: char): (t: string)
    ensures c in s ==> |t| == |s| - 1
    ensures c !in s ==> t == s
  {
    if s == [] then []
    else if s[0] == c then s[1..]
    else [s[0]] + RemoveFirst(s[1..], c)
  }

  /** The replace removes exactly the first occurrence of c and keeps the rest in order. */
  lemma {:induction false} RemoveFirstSplits(s: string, c: char)
    requires c in s
    ensures exists k :: 0 <= k < |s| && s[k] == c && c !in s[..k] && RemoveFirst(s, c) == s[..k] + s[k + 1..]
  {
    if s[0] == c {
      assert s[..0] == [] && RemoveFirst(s, c) == s[0..0] + s[1..];
    } else {
      RemoveFirstSplits(s[1..], c);
      var k :| 0 <= k < |s[1..]| && s[1..][k] == c && c !in s[1..][..k]
               && RemoveFirst(s[1..], c) == s[1..][..k] + s[1..][k + 1..];
      assert s[..k + 1] == [s[0]] + s[1..][..k];
      assert s[k + 2..] == s[1..][k + 1..];
      assert s[k + 1] == c && c !in s[..k + 1];
      assert RemoveFirst(s, c) == s[..k + 1] + s[k + 2..];
    }
  }
}

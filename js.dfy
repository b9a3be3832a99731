/**
  The few JavaScript built-ins the fleet-maintenance code relies on, with their
  JavaScript meaning written out: the truncating remainder `%`, the `x || d`
  default for a number, ASCII `toLowerCase`, `String.prototype.includes`, and the
  decimal rendering a template literal gives an integer.
 */
module Js {

  /** JavaScript's `a % b` for a positive divisor: the remainder takes the sign of `a`. */
  function Rem(a: int, b: int): (r: int)
    requires b > 0
    ensures a >= 0 ==> r == a % b
    ensures a < 0 ==> -b < r <= 0
    ensures (a - r) % b == 0
  {
    if a >= 0 then NonNegativeRemDivides(a, b); a % b else NegativeRemDivides(a, b); -((-a) % b)
  }

  lemma MulNonNegative(x: int, y: int)
    requires x >= 0 && y >= 0
    ensures x * y >= 0
  {
  }

  /** A multiple of `b` leaves no remainder. */
  lemma MultipleModZero(b: int, k: int)
    requires b > 0
    ensures (b * k) % b == 0
  {
    var x := b * k;
    var d := x / b;
    var m := x % b;
    assert x == b * d + m && 0 <= m < b;
    assert m == b * (k - d);
    var t := k - d;
    if t >= 1 {
      assert b * t == b + b * (t - 1);
      MulNonNegative(b, t - 1);
    } else if t <= -1 {
      assert b * t == -b - b * (-t - 1);
      MulNonNegative(b, -t - 1);
    }
  }

  lemma NonNegativeRemDivides(a: int, b: int)
    requires b > 0 && a >= 0
    ensures (a - a % b) % b == 0
  {
    var q := a / b;
    assert a == b * q + a % b;
    assert a - a % b == b * q;
    MultipleModZero(b, q);
  }

  lemma NegativeRemDivides(a: int, b: int)
    requires b > 0 && a < 0
    ensures (a - -((-a) % b)) % b == 0
  {
    var q := (-a) / b;
    assert -a == b * q + (-a) % b;
    assert a - -((-a) % b) == b * -q;
    MultipleModZero(b, -q);
  }

  /** JavaScript's `x || d` on a number that is present: `0` is falsy and gives `d`. */
  function Or(x: int, d: int): (r: int)
  {
    if x != 0 then x else d
  }

  function LowerChar(c: char): char
  {
    if 'A' <= c <= 'Z' then (c as int + 32) as char else c
  }

  /** `toLowerCase`, restricted to ASCII letters. */
  function Lower(s: string): (r: string)
    ensures |r| == |s|
    ensures forall i :: 0 <= i < |s| ==> r[i] == LowerChar(s[i])
    ensures forall i :: 0 <= i < |s| ==> !('A' <= r[i] <= 'Z')
  {
    seq(|s|, i requires 0 <= i < |s| => LowerChar(s[i]))
  }

  lemma LowerIdempotent(s: string)
    ensures Lower(Lower(s)) == Lower(s)
  {
  }

  predicate OccursAt(s: string, t: string, i: int)
  {
    0 <= i <= |s| - |t| && s[i..i + |t|] == t
  }

  /** `s.includes(t)`: `t` occurs in `s` at some position. */
  predicate Includes(s: string, t: string)
  {
    exists i | 0 <= i <= |s| - |t| :: OccursAt(s, t, i)
  }

  lemma IncludesEmpty(s: string)
    ensures Includes(s, "")
  {
    assert OccursAt(s, "", 0);
  }

  function DigitChar(d: nat): (c: char)
    requires d < 10
    ensures '0' <= c <= '9'
  {
    ('0' as int + d) as char
  }

  function DigitValue(c: char): int
  {
    c as int - '0' as int
  }

  predicate AllDigits(s: string)
  {
    forall i :: 0 <= i < |s| ==> '0' <= s[i] <= '9'
  }

  /** The decimal numeral of `n`, as `${n}` writes it: digits only, no leading zero. */
  function NatToString(n: nat): (r: string)
    ensures |r| >= 1 && AllDigits(r)
    ensures r[0] == '0' ==> n == 0
  {
    if n < 10 then [DigitChar(n)] else NatToString(n / 10) + [DigitChar(n % 10)]
  }
  /** Appending a digit to a numeral: the decimal rendering of `10 * n + d` ends in `d`. */
  lemma NatToStringSnoc(n: nat, d: nat)
    requires n >= 1 && d < 10
    ensures NatToString(10 * n + d) == NatToString(n) + [DigitChar(d)]
  {
    assert (10 * n + d) / 10 == n;
    assert (10 * n + d) % 10 == d;
  }


  /** The value of a string of decimal digits. */
  function DecimalValue(s: string): int
  {
    if s == [] then 0 else 10 * DecimalValue(s[..|s| - 1]) + DigitValue(s[|s| - 1])
  }

  /** Reading back the numeral gives the number: the rendering loses nothing. */
  lemma {:induction false} NatToStringRoundTrip(n: nat)
    ensures DecimalValue(NatToString(n)) == n
  {
    var r := NatToString(n);
    if n < 10 {
      assert r[..|r| - 1] == [];
    } else {
      NatToStringRoundTrip(n / 10);
      assert r[..|r| - 1] == NatToString(n / 10);
    }
  }

  lemma NatToStringInjective(m: nat, n: nat)
    requires NatToString(m) == NatToString(n)
    ensures m == n
  {
    NatToStringRoundTrip(m);
    NatToStringRoundTrip(n);
  }

  /** `${i}` for any integer: a minus sign in front of the magnitude when negative. */
  function IntToString(i: int): (r: string)
    ensures i >= 0 ==> r == NatToString(i)
    ensures i < 0 ==> r == "-" + NatToString(-i)
  {
    if i < 0 then "-" + NatToString(-i) else NatToString(i)
  }

  lemma DigitsThenMinus(i: int, j: int)
    requires i >= 0 && j < 0
    ensures IntToString(i) != IntToString(j)
  {
    var d := NatToString(i);
    assert AllDigits(d) && |d| >= 1;
    assert '0' <= d[0] <= '9';
    var m := "-" + NatToString(-j);
    assert m[0] == '-';
  }

  /** Different integers print differently: no run of digits starts with a minus sign. */
  lemma IntToStringInjective(i: int, j: int)
    requires IntToString(i) == IntToString(j)
    ensures i == j
  {
    if i >= 0 && j >= 0 {
      NatToStringInjective(i, j);
    } else if i < 0 && j < 0 {
      assert NatToString(-i) == IntToString(i)[1..];
      assert NatToString(-j) == IntToString(j)[1..];
      NatToStringInjective(-i, -j);
    } else if i >= 0 {
      DigitsThenMinus(i, j);
    } else {
      DigitsThenMinus(j, i);
    }
  }
}

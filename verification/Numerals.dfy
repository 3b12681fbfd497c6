/**
 * Positional numerals, most significant digit first, in an arbitrary base.
 *
 * Every number has exactly one numeral without leading zeros. With its leading zeros counted apart, a sequence of digits is its
 * number of zeros and its value, and nothing else; this is what the codec carries from base 256 to base 58 and back. Powers of
 * the base bound the value of a numeral from both sides, which gives the length of an encoding.
 */
module Numerals {

  function Value(base: nat, digits: seq<nat>): nat {
    if digits == [] then 0
    else Value(base, digits[..|digits| - 1]) * base + digits[|digits| - 1]
  }

  /** The digits of n without leading zeros; zero has no digits. */
  function Digits(base: nat, n: nat): (digits: seq<nat>)
    requires 2 <= base
    ensures InBase(base, digits)
    ensures digits != [] ==> digits[0] != 0
    ensures digits == [] <==> n == 0
  {
    if n == 0 then [] else Digits(base, n / base) + [n % base]
  }

  predicate InBase(base: nat, digits: seq<nat>) {
    forall i :: 0 <= i < |digits| ==> digits[i] < base
  }

  predicate Canonical(base: nat, digits: seq<nat>) {
    InBase(base, digits) && (digits != [] ==> digits[0] != 0)
  }

  function Pow(base: nat, exponent: nat): nat {
    if exponent == 0 then 1 else base * Pow(base, exponent - 1)
  }

  function Repeat<T>(x: T, count: nat): (s: seq<T>)
    ensures |s| == count
    ensures forall i :: 0 <= i < count ==> s[i] == x
  {
    if count == 0 then [] else [x] + Repeat(x, count - 1)
  }

  lemma {:induction false} DigitsDenote(base: nat, n: nat)
    requires 2 <= base
    ensures Value(base, Digits(base, n)) == n
  {
    if n != 0 {
      DigitsDenote(base, n / base);
      DivMod(n, base);
      var d := Digits(base, n / base);
      assert (d + [n % base])[..|d|] == d;
    }
  }

  lemma DivMod(n: nat, base: nat)
    requires 0 < base
    ensures n == n / base * base + n % base
  {
  }

  lemma DigitsMore(base: nat, v: nat, last: nat)
    requires 2 <= base && last < base && (v != 0 || last != 0)
    ensures Digits(base, v * base + last) == Digits(base, v) + [last]
  {
    DivModOfSum(base, v, last);
    if v != 0 { assert 0 < v * base; }
  }

  /** Canonical numerals are exactly the outputs of Digits. */
  lemma {:induction false} CanonicalUnique(base: nat, digits: seq<nat>)
    requires 2 <= base && Canonical(base, digits)
    ensures Digits(base, Value(base, digits)) == digits
  {
    if digits != [] {
      var init, last := digits[..|digits| - 1], digits[|digits| - 1];
      CanonicalUnique(base, init);
      if init == [] { assert digits[0] == last; } else { assert Digits(base, Value(base, init)) != []; }
      DigitsMore(base, Value(base, init), last);
    }
  }

  lemma DivModOfSum(base: nat, q: nat, r: nat)
    requires r < base
    ensures (q * base + r) / base == q && (q * base + r) % base == r
  {
    var n := q * base + r;
    var p := n / base;
    assert n == p * base + n % base;
    var d: int := q as int - p;
    assert d * base == n % base - r;
    SmallMultiple(d, base);
  }

  lemma SmallMultiple(d: int, base: nat)
    requires d * base < base && 0 < base + d * base
    ensures d == 0
  {
  }

  lemma {:induction false} LeadingZerosVanish(base: nat, count: nat, digits: seq<nat>)
    ensures Value(base, Repeat(0, count) + digits) == Value(base, digits)
  {
    var whole := Repeat(0, count) + digits;
    if digits == [] {
      if count != 0 {
        assert whole[..|whole| - 1] == Repeat(0, count - 1) + digits;
        LeadingZerosVanish(base, count - 1, digits);
        assert 0 * base == 0;
      }
    } else {
      assert whole[..|whole| - 1] == Repeat(0, count) + digits[..|digits| - 1];
      LeadingZerosVanish(base, count, digits[..|digits| - 1]);
    }
  }

  /** The number of leading elements equal to x. */
  function LeadingRun<T(==)>(s: seq<T>, x: T): (n: nat)
    ensures n <= |s|
    ensures forall i :: 0 <= i < n ==> s[i] == x
    ensures n < |s| ==> s[n] != x
  {
    if s == [] || s[0] != x then 0 else LeadingRun(s[1..], x) + 1
  }

  /** z leading zeros and then the digits of n: every digit string has exactly one such form. */
  function Numeral(base: nat, z: nat, n: nat): (s: seq<nat>)
    requires 2 <= base
    ensures InBase(base, s)
  {
    Repeat(0, z) + Digits(base, n)
  }

  predicate AllZero(digits: seq<nat>) {
    forall i :: 0 <= i < |digits| ==> digits[i] == 0
  }

  lemma NumeralOf(base: nat, s: seq<nat>)
    requires 2 <= base && InBase(base, s)
    ensures s == Numeral(base, LeadingRun(s, 0), Value(base, s))
    ensures Value(base, s) == 0 <==> AllZero(s)
  {
    var z := LeadingRun(s, 0);
    assert s == Repeat(0, z) + s[z..];
    LeadingZerosVanish(base, z, s[z..]);
    CanonicalUnique(base, s[z..]);
  }

  lemma NumeralParts(base: nat, z: nat, n: nat)
    requires 2 <= base
    ensures LeadingRun(Numeral(base, z, n), 0) == z
    ensures Value(base, Numeral(base, z, n)) == n
  {
    var s, digits := Numeral(base, z, n), Digits(base, n);
    LeadingZerosVanish(base, z, digits);
    DigitsDenote(base, n);
    if digits != [] {
      assert s[z] == digits[0] != 0;
    }
  }

  lemma {:induction false} ValueBelowPow(base: nat, digits: seq<nat>)
    requires InBase(base, digits)
    ensures Value(base, digits) < Pow(base, |digits|)
  {
    if digits != [] {
      var init := digits[..|digits| - 1];
      ValueBelowPow(base, init);
      var v, p := Value(base, init), Pow(base, |init|);
      MulMonotone(v + 1, p, base, base);
      assert (v + 1) * base == v * base + base;
      assert p * base == base * p;
    }
  }

  lemma {:induction false} ValueAtLeastPow(base: nat, digits: seq<nat>)
    requires Canonical(base, digits) && digits != []
    ensures Pow(base, |digits| - 1) <= Value(base, digits)
  {
    if |digits| == 1 {
      assert Value(base, digits[..0]) == 0;
    } else {
      var init := digits[..|digits| - 1];
      ValueAtLeastPow(base, init);
      var v, p := Value(base, init), Pow(base, |init| - 1);
      MulMonotone(p, v, base, base);
      assert p * base == base * p == Pow(base, |digits| - 1);
    }
  }

  lemma {:induction false} PowAdd(base: nat, m: nat, n: nat)
    ensures Pow(base, m + n) == Pow(base, m) * Pow(base, n)
  {
    if m != 0 {
      PowAdd(base, m - 1, n);
      assert base * (Pow(base, m - 1) * Pow(base, n)) == (base * Pow(base, m - 1)) * Pow(base, n);
    }
  }

  lemma {:induction false} PowMul(base: nat, m: nat, n: nat)
    ensures Pow(Pow(base, m), n) == Pow(base, m * n)
  {
    if n == 0 {
      assert m * n == 0;
    } else {
      PowMul(base, m, n - 1);
      assert m * n == m + m * (n - 1);
      PowAdd(base, m, m * (n - 1));
    }
  }

  lemma {:induction false} PowStrictBase(a: nat, b: nat, n: nat)
    requires a < b && 0 < n
    ensures Pow(a, n) < Pow(b, n)
  {
    if n == 1 {
      assert Pow(a, 1) == a * Pow(a, 0) && Pow(b, 1) == b * Pow(b, 0);
    } else {
      PowStrictBase(a, b, n - 1);
      MulStrict(a, b, Pow(a, n - 1), Pow(b, n - 1));
    }
  }

  lemma {:induction false} PowMonotoneExponent(base: nat, m: nat, n: nat)
    requires 1 <= base && m <= n
    ensures Pow(base, m) <= Pow(base, n)
  {
    if m < n {
      PowMonotoneExponent(base, m, n - 1);
      MulMonotone(1, base, Pow(base, n - 1), Pow(base, n - 1));
    }
  }

  lemma MulMonotone(a: nat, b: nat, x: nat, y: nat)
    requires a <= b && x <= y
    ensures a * x <= b * y
  {
  }

  lemma MulStrict(a: nat, b: nat, x: nat, y: nat)
    requires a < b && x < y
    ensures a * x < b * y
  {
  }
}

/** The two binary floating-point formats as sign, exponent and mantissa fields, with exact values. */
module Floats {
  import opened Powers

  datatype Format = Single | Double

  /** Width of the mantissa field, and the exponent field with all bits set. */
  function MantissaBits(f: Format): nat { if f.Single? then 23 else 52 }

  function MaxExponent(f: Format): nat { if f.Single? then 0xff else 0x7ff }

  /** Every finite value is a whole multiple of two to the minus this. */
  function Scale(f: Format): nat { if f.Single? then 149 else 1074 }

  datatype Float = Float(neg: bool, exp: nat, man: nat)

  predicate IsFloat(f: Format, x: Float) { x.exp <= MaxExponent(f) && x.man < Pow2(MantissaBits(f)) }

  predicate IsNan(f: Format, x: Float) { x.exp == MaxExponent(f) && x.man != 0 }

  predicate IsInf(f: Format, x: Float) { x.exp == MaxExponent(f) && x.man == 0 }

  /** The magnitude in units of two to the minus Scale; that of an infinity is larger than all others. */
  function Magnitude(f: Format, x: Float): nat {
    if x.exp == 0 then x.man else (Pow2(MantissaBits(f)) + x.man) * Pow2(x.exp - 1)
  }

  function Scaled(f: Format, x: Float): int { if x.neg then 0 - Magnitude(f, x) else Magnitude(f, x) }

  function Unit(f: Format): (u: nat)
    ensures u > 0
  {
    Pow2(Scale(f))
  }

  // ----- ordered comparisons: false on a NaN -----

  predicate LessEq(f: Format, x: Float, c: int) { !IsNan(f, x) && Scaled(f, x) <= c * Unit(f) }

  predicate GreaterEq(f: Format, x: Float, c: int) { !IsNan(f, x) && Scaled(f, x) >= c * Unit(f) }

  predicate Less(f: Format, x: Float, y: Float) { !IsNan(f, x) && !IsNan(f, y) && Scaled(f, x) < Scaled(f, y) }

  /** A magnitude above a power of two that the mantissa cannot resolve to the last bit is above it by at least one
      step of the mantissa: no value lies in between. */
  lemma NextAbove(f: Format, x: Float, k: nat)
    requires IsFloat(f, x) && k >= MantissaBits(f) && Magnitude(f, x) > Pow2(k)
    ensures Magnitude(f, x) >= Pow2(k) + Pow2(k - MantissaBits(f))
  {
    var mb := MantissaBits(f);
    hide Pow2, MantissaBits;
    PowMono(mb, k);
    var e, s := x.exp - 1, Pow2(mb) + x.man;
    assert Pow2(mb + 1) == 2 * Pow2(mb) by { TwoTimes(mb); }
    Pow2Add(mb + 1, e);
    NextMultiple(Pow2(mb + 1), s, Pow2(e));
    if mb + 1 + e <= k {
      PowMono(mb + 1 + e, k);
    }
    assert e >= k - mb;
    var g, d := Pow2(k - mb), e - (k - mb);
    Pow2Add(d, k - mb);
    Pow2Add(mb, k - mb);
    // the magnitude and the power are both multiples of g
    var q := s * Pow2(d);
    assert s * Pow2(e) == q * g by { Regrouped(s, Pow2(d), g); }
    if q <= Pow2(mb) {
      AtMost(q, Pow2(mb), g);
    }
    NextMultiple(q, Pow2(mb), g);
  }

  lemma TwoTimes(n: nat)
    ensures Pow2(n + 1) == 2 * Pow2(n)
  {
  }

  lemma Regrouped(s: nat, d: nat, g: nat)
    ensures s * (d * g) == s * d * g
  {
  }

  lemma AtMost(q: nat, m: nat, g: nat)
    requires q <= m
    ensures q * g <= m * g
  {
    if q < m { NextMultiple(m, q, g); }
  }
}

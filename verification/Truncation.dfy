/** The eight float-to-integer conversions, trapping and saturating (section 4.3.2 and 4.3.3 of the WebAssembly Core
    Specification 1.0): the hand-picked bounds are exact. */
module Truncation {
  import opened Values
  import opened Powers
  import opened Floats
  import opened FloatBits

  datatype Target = Target(signed: bool, n: nat)

  predicate IsTarget(t: Target) { t.n == 32 || t.n == 64 }

  function MinInt(t: Target): int
    requires IsTarget(t)
  {
    if !t.signed then 0 else if t.n == 32 then -2147483648 else -9223372036854775808
  }

  function MaxInt(t: Target): int
    requires IsTarget(t)
  {
    if t.signed then (if t.n == 32 then 2147483647 else 9223372036854775807)
    else (if t.n == 32 then 4294967295 else 18446744073709551615)
  }

  predicate InTarget(t: Target, z: int)
    requires IsTarget(t)
  {
    MinInt(t) <= z <= MaxInt(t)
  }

  /** The constants of the source. */
  function OMin(f: Format, t: Target): int
    requires IsTarget(t)
  {
    if !t.signed then -1
    else if t.n == 32 then (if f.Single? then -2147483904 else -2147483649)
    else (if f.Single? then -9223373136366403584 else -9223372036854777856)
  }

  function OMax(t: Target): int
    requires IsTarget(t)
  {
    if t.signed then (if t.n == 32 then 2147483648 else 9223372036854775808)
    else (if t.n == 32 then 4294967296 else 18446744073709551616)
  }

  /** The emitted test. */
  predicate Traps(f: Format, t: Target, x: Float)
    requires IsTarget(t)
  {
    (LessEq(f, x, OMin(f, t)) || GreaterEq(f, x, OMax(t))) || ExponentTest(f, Raw(f, x))
  }

  /** The value truncated toward zero. */
  function Truncated(f: Format, x: Float): int { TruncDiv(Scaled(f, x), Unit(f)) }

  /** The emitted chain of selects. LLVM's conversion is undefined out of range; conv stands for whatever it yields. */
  function SatTrunc(f: Format, t: Target, x: Float, conv: int): int
    requires IsTarget(t)
  {
    var orMin := if LessEq(f, x, OMin(f, t)) then MinInt(t) else conv;
    var orMax := if GreaterEq(f, x, OMax(t)) then MaxInt(t) else orMin;
    if ExponentTest(f, Raw(f, x)) && MantissaTest(f, Raw(f, x)) then 0 else orMax
  }

  function Clamp(t: Target, z: int): int
    requires IsTarget(t)
  {
    if z < MinInt(t) then MinInt(t) else if z > MaxInt(t) then MaxInt(t) else z
  }

  // ----- truncation against the bounds -----

  lemma NatBelow(v: nat, u: nat, c: nat)
    requires u > 0
    ensures v / u < c <==> v < c * u
  {
    DivMod(v, u);
    NextMultiple(c, v / u, u);
    if v / u >= c {
      AtMost(c, v / u, u);
    }
  }

  /** Truncation toward zero, compared with a bound on either side of zero. */
  lemma TruncBelow(v: int, u: nat, c: nat)
    requires u > 0 && c > 0
    ensures TruncDiv(v, u) < c <==> v < c * u
    ensures TruncDiv(v, u) + c > 0 <==> v + c * u > 0
  {
    var m: nat := if v >= 0 then v else 0 - v;
    assert TruncDiv(v, u) == if v >= 0 then m / u else 0 - m / u;
    hide TruncDiv;
    NatBelow(m, u, c);
    NextMultiple(c, 0, u);
    Quotients(m, u);
  }

  lemma Quotients(m: nat, u: nat)
    requires u > 0
    ensures m / u >= 0
  {
  }

  lemma MinusTimes(c: int, u: nat)
    ensures (-c) * u == -(c * u)
  {
  }

  /** In terms of the exact value: the truncation is in range strictly between one below the least and one above the
      greatest integer. */
  lemma RangeTest(f: Format, t: Target, x: Float)
    requires IsTarget(t)
    ensures InTarget(t, Truncated(f, x)) <==>
            (MinInt(t) - 1) * Unit(f) < Scaled(f, x) < (MaxInt(t) + 1) * Unit(f)
    ensures Truncated(f, x) > MaxInt(t) <==> Scaled(f, x) >= (MaxInt(t) + 1) * Unit(f)
    ensures Truncated(f, x) < MinInt(t) <==> Scaled(f, x) <= (MinInt(t) - 1) * Unit(f)
  {
    var v, u := Scaled(f, x), Unit(f);
    TruncBelow(v, u, MaxInt(t) + 1);
    TruncBelow(v, u, 1 - MinInt(t));
    MinusTimes(1 - MinInt(t), u);
    hide TruncDiv, Scaled, Unit;
  }

  lemma Powers32()
    ensures Pow2(8) == 256 && Pow2(11) == 2048 && Pow2(31) == 2147483648 && Pow2(40) == 1099511627776
    ensures Pow2(63) == 9223372036854775808
  {
    SmallPowers();
    Powers22();
    Powers51();
    Pow2Add(22, 7);
    Pow2Add(29, 11);
    hide Pow2;
  }

  /** The least signed value as a power, and the step of the mantissa above it. */
  lemma Gap(f: Format, t: Target)
    requires IsTarget(t) && t.signed && !(f.Double? && t.n == 32)
    ensures t.n - 1 >= MantissaBits(f)
    ensures Pow2(t.n - 1) == -MinInt(t) && Pow2(t.n - 1) + Pow2(t.n - 1 - MantissaBits(f)) == -OMin(f, t)
  {
    Powers32();
  }

  /** With nothing between lo and lo + step, one above lo is as good a bound as lo + step. */
  lemma OverGap(mag: nat, lo: nat, step: nat, u: nat)
    requires u > 0 && step > 0 && (mag > lo * u ==> mag >= lo * u + step * u)
    ensures mag >= (lo + step) * u <==> mag >= (lo + 1) * u
  {
    AtMost(lo + 1, lo + step, u);
    SumTimes(lo, step, u);
    SumTimes(lo, 1, u);
  }

  lemma SumTimes(a: nat, b: nat, u: nat)
    ensures (a + b) * u == a * u + b * u
  {
  }

  /** No float lies strictly between the lower constant and the least integer: at or below one less than the least
      integer means at or below the constant. */
  lemma LowerBound(f: Format, t: Target, x: Float)
    requires IsTarget(t) && IsFloat(f, x)
    ensures Scaled(f, x) <= OMin(f, t) * Unit(f) <==> Scaled(f, x) <= (MinInt(t) - 1) * Unit(f)
  {
    if t.signed && !(f.Double? && t.n == 32) {
      Gap(f, t);
      hide Pow2, Magnitude, MantissaBits, Unit, OMin, MinInt, Scale;
      var k, u, lo, step := t.n - 1, Unit(f), Pow2(t.n - 1), Pow2(t.n - 1 - MantissaBits(f));
      Scales(f, k);
      MinusTimes(lo + step, u);
      MinusTimes(lo + 1, u);
      if Magnitude(f, x) > lo * u {
        NextAbove(f, x, k + Scale(f));
      }
      OverGap(Magnitude(f, x), lo, step, u);
    }
  }

  lemma Scales(f: Format, k: nat)
    requires k >= MantissaBits(f)
    ensures Pow2(k + Scale(f)) == Pow2(k) * Unit(f)
    ensures Pow2(k + Scale(f) - MantissaBits(f)) == Pow2(k - MantissaBits(f)) * Unit(f)
  {
    Pow2Add(k, Scale(f));
    Pow2Add(k - MantissaBits(f), Scale(f));
  }

  // ----- what floats and targets stand for -----

  /** The exponent field of the values from one to two. */
  function Bias(f: Format): nat { if f.Single? then 127 else 1023 }

  lemma BiasIs(f: Format)
    ensures Bias(f) == Pow2(ExponentBits(f) - 1) - 1 && Scale(f) == Bias(f) - 1 + MantissaBits(f)
  {
    assert Pow2(3) == 8 && Pow2(7) == 16 * Pow2(3) && Pow2(10) == 8 * Pow2(7);
  }

  function Sign(neg: bool, m: int): int { if neg then -m else m }

  /** With the exponent k above the bias the significand, a one before the mantissa, is multiplied by two to the k, and
      truncation drops what is then behind the point. */
  lemma FloatMeaning(f: Format, neg: bool, k: nat, man: nat)
    requires man < Pow2(MantissaBits(f)) && Pow2(ExponentBits(f) - 1) - 1 + k < MaxExponent(f)
    ensures var mb, x := MantissaBits(f), Float(neg, Pow2(ExponentBits(f) - 1) - 1 + k, man);
            Truncated(f, x) == Sign(neg, if k >= mb then (Pow2(mb) + man) * Pow2(k - mb) else (Pow2(mb) + man) / Pow2(mb - k))
  {
    BiasIs(f);
    hide Pow2, MantissaBits, ExponentBits, Bias, Scale, TruncDiv;
    var mb, b := MantissaBits(f), Bias(f);
    BiasPositive(f);
    var s, g := Pow2(mb) + man, Pow2(b + k - 1);
    if k >= mb {
      Pow2Add(k - mb, Scale(f));
      Regrouped(s, Pow2(k - mb), Unit(f));
      TruncWhole(s * Pow2(k - mb), Unit(f));
    } else {
      Pow2Add(mb - k, b + k - 1);
      TruncPart(s, Pow2(mb - k), g);
    }
  }

  lemma BiasPositive(f: Format)
    ensures Bias(f) > 0
  {
  }

  lemma TruncWhole(v: nat, u: nat)
    requires u > 0
    ensures TruncDiv(v * u, u) == v && TruncDiv(0 - v * u, u) == 0 - v
  {
    DivMod(v * u, u);
    SameMultiple(v, v * u / u, u, 0, v * u % u);
    Unique(v, v * u / u, u);
  }

  lemma Unique(v: nat, q: nat, u: nat)
    requires u > 0 && v * u == u * q
    ensures v == q
  {
    NextMultiple(v, q, u);
    NextMultiple(q, v, u);
  }

  lemma TruncPart(s: nat, d: nat, g: nat)
    requires d > 0 && g > 0
    ensures d * g > 0
    ensures TruncDiv(s * g, d * g) == s / d && TruncDiv(0 - s * g, d * g) == 0 - s / d
  {
    NextMultiple(d, 0, g);
    DivMod(s, d);
    var q, r := s / d, s % d;
    assert s * g == r * g + q * (d * g) by { Distribute(d, q, r, g); }
    NextMultiple(d, r, g);
    DivMod(s * g, d * g);
    var q' := s * g / (d * g);
    SameMultiple(q, q', d * g, r * g, s * g % (d * g));
    Unique(q, q', d * g);
  }

  /** Below the bias everything is smaller than one. */
  lemma SmallFloats(f: Format, x: Float)
    requires IsFloat(f, x) && x.exp < Pow2(ExponentBits(f) - 1) - 1
    ensures Truncated(f, x) == 0
  {
    BiasIs(f);
    hide Pow2, MantissaBits, ExponentBits, Bias, Scale, TruncDiv;
    var mb := MantissaBits(f);
    assert Magnitude(f, x) < Unit(f) by {
      if x.exp == 0 {
        PowMono(mb, Scale(f));
      } else {
        TwoTimes(mb);
        NextMultiple(2 * Pow2(mb), Pow2(mb) + x.man, Pow2(x.exp - 1));
        Pow2Add(mb + 1, x.exp - 1);
        PowMono(mb + x.exp, Scale(f));
      }
    }
    TruncBelow(Scaled(f, x), Unit(f), 1);
  }

  /** The ranges of the four targets. */
  lemma TargetRange(t: Target)
    requires IsTarget(t)
    ensures t.signed ==> MinInt(t) == 0 - Pow2(t.n - 1) && MaxInt(t) == Pow2(t.n - 1) - 1
    ensures !t.signed ==> MinInt(t) == 0 && MaxInt(t) == Pow2(t.n) - 1
  {
    Powers22();
    Powers51();
    assert Pow2(32) == 2 * Pow2(31) && Pow2(64) == 2 * Pow2(63);
    hide Pow2;
  }

  // ----- the theorems -----

  /** A conversion traps if and only if the operand is a NaN, an infinity, or truncates to a value outside the
      target range: for all eight conversions and every bit pattern. */
  lemma TrapExact(f: Format, t: Target, x: Float)
    requires IsTarget(t) && IsFloat(f, x)
    ensures Traps(f, t, x) <==> IsNan(f, x) || IsInf(f, x) || !InTarget(t, Truncated(f, x))
  {
    LowerBound(f, t, x);
    RangeTest(f, t, x);
    TestsExact(f, x);
    hide Scaled, Unit, Truncated, ExponentTest, MantissaTest, Raw;
  }

  /** An infinity is beyond every range on its side. */
  lemma Infinite(f: Format, t: Target, x: Float)
    requires IsTarget(t) && IsFloat(f, x) && IsInf(f, x)
    ensures if x.neg then Truncated(f, x) < MinInt(t) else Truncated(f, x) > MaxInt(t)
  {
    InfMagnitude(f, x);
    RangeTest(f, t, x);
    Powers32();
    PowMono(63, 64);
    assert Pow2(64) == 2 * Pow2(63) by { TwoTimes(63); }
    hide Truncated, Magnitude, Pow2, Unit;
    if x.neg {
      AtMost(1 - MinInt(t), Pow2(64), Unit(f));
      MinusTimes(1 - MinInt(t), Unit(f));
    } else {
      AtMost(MaxInt(t) + 1, Pow2(64), Unit(f));
    }
  }

  lemma InfMagnitude(f: Format, x: Float)
    requires IsInf(f, x)
    ensures Magnitude(f, x) >= Pow2(64) * Unit(f)
  {
    hide Pow2;
    Pow2Add(MantissaBits(f), MaxExponent(f) - 1);
    Pow2Add(64, Scale(f));
    PowMono(64 + Scale(f), MantissaBits(f) + MaxExponent(f) - 1);
  }

  /** The saturating conversions clamp, and give zero for a NaN, whatever LLVM's conversion yields out of range. */
  lemma SatTruncClamps(f: Format, t: Target, x: Float, conv: int)
    requires IsTarget(t) && IsFloat(f, x)
    requires !IsNan(f, x) && InTarget(t, Truncated(f, x)) ==> conv == Truncated(f, x)
    ensures SatTrunc(f, t, x, conv) == if IsNan(f, x) then 0 else Clamp(t, Truncated(f, x))
  {
    LowerBound(f, t, x);
    RangeTest(f, t, x);
    TestsExact(f, x);
    hide Scaled, Unit, Truncated, ExponentTest, MantissaTest, Raw;
  }

  /** Where the trapping conversion does not trap, the saturating one agrees with it; at an infinity it saturates. */
  lemma SatTruncRefines(f: Format, t: Target, x: Float, conv: int)
    requires IsTarget(t) && IsFloat(f, x)
    requires !IsNan(f, x) && InTarget(t, Truncated(f, x)) ==> conv == Truncated(f, x)
    ensures !Traps(f, t, x) ==> SatTrunc(f, t, x, conv) == Truncated(f, x)
    ensures IsInf(f, x) ==> SatTrunc(f, t, x, conv) == if x.neg then MinInt(t) else MaxInt(t)
    ensures InTarget(t, SatTrunc(f, t, x, conv))
  {
    TrapExact(f, t, x);
    SatTruncClamps(f, t, x, conv);
    if IsInf(f, x) {
      Infinite(f, t, x);
    }
    hide Traps, SatTrunc, Truncated;
  }
}

/** The minimum and maximum that are emitted as selects over comparisons of the values and of their bits. */
module MinMax {
  import opened Powers
  import opened Floats
  import opened FloatBits

  /** A NaN made quiet on its bits. */
  function Quiet(f: Format, x: Float): Float { Fields(f, QuietBits(f, Raw(f, x))) }

  lemma QuietIs(f: Format, x: Float)
    requires IsFloat(f, x)
    ensures Quiet(f, x) == x.(man := QuietNan(f)) && 0 < QuietNan(f) < Pow2(MantissaBits(f))
  {
    MaskShapes(f);
    hide Pow2, MantissaBits, QuietBits, Fields, Raw, MaxExponent;
    QuietExact(f, x);
    FieldsOfRaw(f, x.(man := QuietNan(f)));
  }

  function Min(f: Format, l: Float, r: Float): Float {
    if IsNan(f, r) then Quiet(f, r)
    else if IsNan(f, l) then Quiet(f, l)
    else if Less(f, l, r) then l
    else if Less(f, r, l) then r
    else if Raw(f, l) > Raw(f, r) then l else r
  }

  function Max(f: Format, l: Float, r: Float): Float {
    if IsNan(f, r) then Quiet(f, r)
    else if IsNan(f, l) then Quiet(f, l)
    else if Less(f, r, l) then l
    else if Less(f, l, r) then r
    else if Raw(f, l) < Raw(f, r) then l else r
  }

  function Neg(x: Float): Float { x.(neg := !x.neg) }

  /** The position of a value in the order that puts -0 just below +0. */
  function Key(f: Format, x: Float): int { if x.neg then -1 - Mag(f, x) else Mag(f, x) }

  // ----- the order -----

  /** The fields can be read back from the bits, so the order has no ties. */
  lemma MagOrder(f: Format, x: Float, y: Float)
    requires IsFloat(f, x) && IsFloat(f, y)
    ensures Mag(f, x) < Mag(f, y) <==> x.exp < y.exp || (x.exp == y.exp && x.man < y.man)
    ensures Mag(f, x) == Mag(f, y) <==> x.exp == y.exp && x.man == y.man
    ensures Mag(f, x) < Pow2(SignBit(f))
  {
    var p := Pow2(MantissaBits(f));
    NextMultiple(x.exp, y.exp, p);
    NextMultiple(y.exp, x.exp, p);
    MagBelow(f, x);
    hide Pow2, MantissaBits, MaxExponent;
  }

  /** Larger fields mean a larger magnitude. */
  lemma MagnitudeMono(f: Format, x: Float, y: Float)
    requires IsFloat(f, x) && IsFloat(f, y) && (x.exp < y.exp || (x.exp == y.exp && x.man < y.man))
    ensures Magnitude(f, x) < Magnitude(f, y)
  {
    hide Pow2, MantissaBits, MaxExponent;
    var p := Pow2(MantissaBits(f));
    if x.exp == y.exp {
      if x.exp > 0 {
        NextMultiple(p + y.man, p + x.man, Pow2(x.exp - 1));
      }
    } else if x.exp == 0 {
      AtMost(p, p + y.man, Pow2(y.exp - 1));
      PowMono(0, y.exp - 1);
      assert Pow2(0) == 1 by { ZeroPower(); }
      AtMost1(p, Pow2(y.exp - 1));
    } else {
      TwoTimes(x.exp - 1);
      PowMono(x.exp, y.exp - 1);
      NextMultiple(2 * p, p + x.man, Pow2(x.exp - 1));
      Doubled(p, Pow2(x.exp - 1));
      AtMost2(p, Pow2(x.exp), Pow2(y.exp - 1));
      AtMost(p, p + y.man, Pow2(y.exp - 1));
    }
  }

  lemma ZeroPower()
    ensures Pow2(0) == 1
  {
  }

  lemma AtMost1(p: nat, q: nat)
    requires q >= 1
    ensures p <= p * q
  {
    AtMost2(p, 1, q);
  }

  lemma AtMost2(p: nat, q: nat, r: nat)
    requires q <= r
    ensures p * q <= p * r
  {
    AtMost(q, r, p);
  }

  lemma Doubled(p: nat, q: nat)
    ensures 2 * p * q == p * (2 * q)
  {
  }

  lemma ZeroMagnitude(f: Format, x: Float)
    requires IsFloat(f, x)
    ensures Magnitude(f, x) == 0 <==> x.exp == 0 && x.man == 0
    ensures Mag(f, x) == 0 <==> x.exp == 0 && x.man == 0
  {
    var z := Float(false, 0, 0);
    if x.exp != 0 || x.man != 0 {
      MagnitudeMono(f, z, x);
    }
    MagOrder(f, z, x);
  }

  /** Values compare as their keys do, except that the two zeros are equal. */
  lemma KeyOrder(f: Format, x: Float, y: Float)
    requires IsFloat(f, x) && IsFloat(f, y) && !IsNan(f, x) && !IsNan(f, y)
    ensures Less(f, x, y) ==> Key(f, x) < Key(f, y)
    ensures !Less(f, x, y) && !Less(f, y, x) ==> x == y || (Mag(f, x) == 0 == Mag(f, y) && x.neg != y.neg)
    ensures Key(f, x) == Key(f, y) <==> x == y
  {
    MagOrder(f, x, y);
    MagOrder(f, y, x);
    ZeroMagnitude(f, x);
    ZeroMagnitude(f, y);
    if x.exp < y.exp || (x.exp == y.exp && x.man < y.man) {
      MagnitudeMono(f, x, y);
    } else if x.exp != y.exp || x.man != y.man {
      MagnitudeMono(f, y, x);
    } else {
      SameMagnitude(f, x, y);
    }
    hide Mag, Magnitude, Pow2;
  }

  lemma SameMagnitude(f: Format, x: Float, y: Float)
    requires x.exp == y.exp && x.man == y.man
    ensures Magnitude(f, x) == Magnitude(f, y) && Mag(f, x) == Mag(f, y)
  {
  }

  // ----- the laws -----

  /** On values that are not NaNs the selects pick the operand with the smaller, or the larger, key: -0 is below +0. */
  lemma MinMaxKeys(f: Format, l: Float, r: Float)
    requires IsFloat(f, l) && IsFloat(f, r) && !IsNan(f, l) && !IsNan(f, r)
    ensures Min(f, l, r) == if Key(f, l) <= Key(f, r) then l else r
    ensures Max(f, l, r) == if Key(f, l) >= Key(f, r) then l else r
  {
    KeyOrder(f, l, r);
    KeyOrder(f, r, l);
    MagOrder(f, l, r);
    MagOrder(f, r, l);
    hide Less, Mag, Pow2;
  }

  lemma QuietFacts(f: Format, x: Float)
    requires IsFloat(f, x) && IsNan(f, x)
    ensures IsFloat(f, Quiet(f, x)) && IsNan(f, Quiet(f, x)) && Quiet(f, Quiet(f, x)) == Quiet(f, x)
    ensures Quiet(f, Neg(x)) == Neg(Quiet(f, x)) && Quiet(f, x) == x.(man := QuietNan(f))
  {
    hide Quiet, QuietNan, Pow2;
    QuietIs(f, x);
    QuietIs(f, Neg(x));
    QuietIs(f, x.(man := QuietNan(f)));
  }

  lemma MinFloat(f: Format, l: Float, r: Float)
    requires IsFloat(f, l) && IsFloat(f, r)
    ensures IsFloat(f, Min(f, l, r)) && IsFloat(f, Max(f, l, r))
    ensures IsNan(f, Min(f, l, r)) <==> IsNan(f, l) || IsNan(f, r)
    ensures IsNan(f, Max(f, l, r)) <==> IsNan(f, l) || IsNan(f, r)
  {
    if IsNan(f, l) { QuietFacts(f, l); }
    if IsNan(f, r) { QuietFacts(f, r); }
    hide Less, Raw, Pow2;
  }

  /** The result is a NaN exactly when an operand is, and then its payload is the quiet bit alone. */
  lemma NanResult(f: Format, l: Float, r: Float)
    requires IsFloat(f, l) && IsFloat(f, r)
    ensures IsNan(f, Min(f, l, r)) <==> IsNan(f, l) || IsNan(f, r)
    ensures IsNan(f, Max(f, l, r)) <==> IsNan(f, l) || IsNan(f, r)
    ensures IsNan(f, l) || IsNan(f, r) ==>
              && Min(f, l, r) == Max(f, l, r) && Min(f, l, r).man == QuietNan(f) == Pow2(MantissaBits(f) - 1)
              && Raw(f, Min(f, l, r)) == QuietBits(f, Raw(f, if IsNan(f, r) then r else l))
  {
    hide Less, Raw, Pow2, Quiet, QuietBits, QuietNan, MantissaMask, ExponentMask, SignMask, OtherMask, MantissaBits;
    MinFloat(f, l, r);
    MaskShapes(f);
    var x := if IsNan(f, r) then r else l;
    if IsNan(f, x) {
      QuietFacts(f, x);
      QuietExact(f, x);
    }
  }

  /** Associative on all bit patterns. */
  lemma Associative(f: Format, a: Float, b: Float, c: Float)
    requires IsFloat(f, a) && IsFloat(f, b) && IsFloat(f, c)
    ensures Min(f, Min(f, a, b), c) == Min(f, a, Min(f, b, c))
    ensures Max(f, Max(f, a, b), c) == Max(f, a, Max(f, b, c))
  {
    MinFloat(f, a, b);
    MinFloat(f, b, c);
    if IsNan(f, a) { QuietFacts(f, a); }
    if IsNan(f, b) { QuietFacts(f, b); }
    if IsNan(f, c) { QuietFacts(f, c); }
    if !IsNan(f, a) && !IsNan(f, b) && !IsNan(f, c) {
      hide Min, Max, Key;
      MinMaxKeys(f, a, b);
      MinMaxKeys(f, b, c);
      MinMaxKeys(f, a, c);
      MinMaxKeys(f, Min(f, a, b), c);
      MinMaxKeys(f, a, Min(f, b, c));
      MinMaxKeys(f, Max(f, a, b), c);
      MinMaxKeys(f, a, Max(f, b, c));
      KeyOrder(f, a, b);
      KeyOrder(f, b, c);
      KeyOrder(f, a, c);
    }
    hide Less, Raw, Pow2, Key, Quiet;
  }

  /** Commutative on values that are not NaNs. */
  lemma Commutative(f: Format, a: Float, b: Float)
    requires IsFloat(f, a) && IsFloat(f, b) && !IsNan(f, a) && !IsNan(f, b)
    ensures Min(f, a, b) == Min(f, b, a) && Max(f, a, b) == Max(f, b, a)
  {
    MinMaxKeys(f, a, b);
    MinMaxKeys(f, b, a);
    KeyOrder(f, a, b);
    hide Min, Max, Key, Less;
  }

  /** Each is the other seen through a flip of the sign bits, on all bit patterns. */
  lemma Dual(f: Format, a: Float, b: Float)
    requires IsFloat(f, a) && IsFloat(f, b)
    ensures Max(f, a, b) == Neg(Min(f, Neg(a), Neg(b)))
  {
    if IsNan(f, b) {
      QuietFacts(f, b);
    } else if IsNan(f, a) {
      QuietFacts(f, a);
    } else {
      MinMaxKeys(f, a, b);
      MinMaxKeys(f, Neg(a), Neg(b));
      NegKey(f, a);
      NegKey(f, b);
      hide Min, Max, Key;
    }
  }

  lemma NegKey(f: Format, x: Float)
    ensures Key(f, Neg(x)) == -1 - Key(f, x)
  {
  }

  /** The zeros: the minimum of both is -0, the maximum +0. */
  lemma Zeros(f: Format)
    ensures var p, n := Float(false, 0, 0), Float(true, 0, 0);
            && Min(f, p, n) == Min(f, n, p) == n && Max(f, p, n) == Max(f, n, p) == p
  {
    var p, n := Float(false, 0, 0), Float(true, 0, 0);
    MinMaxKeys(f, p, n);
    MinMaxKeys(f, n, p);
  }
}

/** The bits of a float as one number, and the masks that take it apart. */
module FloatBits {
  import opened Powers
  import opened Bits
  import opened Floats

  function ExponentBits(f: Format): nat { if f.Single? then 8 else 11 }

  /** Where the sign stands. */
  function SignBit(f: Format): nat { if f.Single? then 31 else 63 }

  /** The constants of fp_bits, and the complement of the mantissa's mask at the width of the format. */
  function SignMask(f: Format): nat { if f.Single? then 0x8000_0000 else 0x8000_0000_0000_0000 }

  function ExponentMask(f: Format): nat { if f.Single? then 0x7f80_0000 else 0x7ff0_0000_0000_0000 }

  function MantissaMask(f: Format): nat { if f.Single? then 0x007f_ffff else 0x000f_ffff_ffff_ffff }

  function OtherMask(f: Format): nat { if f.Single? then 0xff80_0000 else 0xfff0_0000_0000_0000 }

  function QuietNan(f: Format): nat { if f.Single? then 0x0040_0000 else 0x0008_0000_0000_0000 }

  /** The bits without the sign, read as a number. */
  function Mag(f: Format, x: Float): nat { x.exp * Pow2(MantissaBits(f)) + x.man }

  /** All bits, read as an unsigned number. */
  function Raw(f: Format, x: Float): nat { (if x.neg then Pow2(SignBit(f)) else 0) + Mag(f, x) }

  /** The masked exponent, moved down over the mantissa. */
  function Lowered(f: Format, e: nat): nat { if f.Single? then e / 0x0080_0000 else e / 0x0010_0000_0000_0000 }

  /** The fields, masked out of the bits. */
  function Fields(f: Format, raw: nat): Float {
    Float(BitAnd(raw, SignMask(f)) != 0, Lowered(f, BitAnd(raw, ExponentMask(f))), BitAnd(raw, MantissaMask(f)))
  }

  /** The emitted tests: all bits of the exponent set, and some bit of the mantissa. */
  predicate ExponentTest(f: Format, raw: nat) { BitAnd(raw, ExponentMask(f)) == ExponentMask(f) }

  predicate MantissaTest(f: Format, raw: nat) { BitAnd(raw, MantissaMask(f)) != 0 }

  /** emit_quiet_nan: the mantissa masked out, and its highest bit set. */
  function QuietBits(f: Format, raw: nat): nat { BitOr(BitAnd(raw, OtherMask(f)), QuietNan(f)) }

  // ----- the masks are runs of adjacent bits -----

  lemma MaskShapes(f: Format)
    ensures MaxExponent(f) == Pow2(ExponentBits(f)) - 1 && MantissaBits(f) + ExponentBits(f) == SignBit(f)
    ensures MantissaMask(f) == Pow2(MantissaBits(f)) - 1 && SignMask(f) == Pow2(SignBit(f))
    ensures ExponentMask(f) == MaxExponent(f) * Pow2(MantissaBits(f))
    ensures OtherMask(f) == (2 * MaxExponent(f) + 1) * Pow2(MantissaBits(f))
    ensures QuietNan(f) == Pow2(MantissaBits(f) - 1) && Pow2(MantissaBits(f)) == 2 * QuietNan(f)
  {
    hide Pow2;
    SmallPowers();
    Powers22();
    Powers51();
  }

  lemma SmallPowers()
    ensures Pow2(1) == 2 && Pow2(6) == 64 && Pow2(7) == 128 && Pow2(8) == 256 && Pow2(11) == 2048
  {
    assert Pow2(3) == 8 && Pow2(6) == 8 * Pow2(3);
  }

  lemma Powers22()
    ensures Pow2(22) == 0x0040_0000 && Pow2(23) == 0x0080_0000 && Pow2(31) == 0x8000_0000
  {
    SmallPowers();
    Pow2Add(8, 8);
    Pow2Add(16, 6);
    Pow2Add(22, 1);
    Pow2Add(23, 8);
    hide Pow2;
  }

  lemma Powers51()
    ensures Pow2(51) == 0x0008_0000_0000_0000 && Pow2(52) == 0x0010_0000_0000_0000 && Pow2(63) == 0x8000_0000_0000_0000
  {
    SmallPowers();
    Powers22();
    Pow2Add(22, 22);
    Pow2Add(44, 7);
    Pow2Add(51, 1);
    Pow2Add(52, 11);
    hide Pow2;
  }

  // ----- fields -----

  /** Sign and exponent together, above the mantissa. */
  function Upper(f: Format, x: Float): nat { (if x.neg then Pow2(ExponentBits(f)) else 0) + x.exp }

  lemma RawUpper(f: Format, x: Float)
    ensures Raw(f, x) == x.man + Upper(f, x) * Pow2(MantissaBits(f))
  {
    MaskShapes(f);
    Pow2Add(ExponentBits(f), MantissaBits(f));
    hide Pow2, MantissaBits, ExponentBits, SignBit, MaxExponent;
    var p, e := Pow2(MantissaBits(f)), Pow2(ExponentBits(f));
    assert (e + x.exp) * p == e * p + x.exp * p;
  }

  /** Each mask extracts its field, and nothing else. */
  lemma Masked(f: Format, x: Float)
    requires IsFloat(f, x)
    ensures BitAnd(Raw(f, x), MantissaMask(f)) == x.man
    ensures BitAnd(Raw(f, x), ExponentMask(f)) == x.exp * Pow2(MantissaBits(f))
    ensures BitAnd(Raw(f, x), OtherMask(f)) == Upper(f, x) * Pow2(MantissaBits(f))
    ensures BitAnd(Raw(f, x), SignMask(f)) == if x.neg then SignMask(f) else 0
  {
    var mb, eb, u := MantissaBits(f), ExponentBits(f), Upper(f, x);
    RawUpper(f, x);
    MaskShapes(f);
    hide BitAnd, MantissaBits, Raw, SignMask, ExponentMask, MantissaMask, OtherMask, SignBit, MaxExponent;
    AndLow(Raw(f, x), mb);
    ModUnique(Raw(f, x), x.man, u, Pow2(mb));
    AndHigh(x.man, u, Pow2(eb) - 1, mb);
    AndLow(u, eb);
    ModUnique(u, x.exp, if x.neg then 1 else 0, Pow2(eb));
    AndHigh(x.man, u, Pow2(eb + 1) - 1, mb);
    AndLow(u, eb + 1);
    ModUnique(u, u, 0, Pow2(eb + 1));
    SignMasked(f, x);
  }

  lemma SignMasked(f: Format, x: Float)
    requires IsFloat(f, x)
    ensures BitAnd(Raw(f, x), SignMask(f)) == if x.neg then SignMask(f) else 0
  {
    MaskShapes(f);
    MagBelow(f, x);
    hide BitAnd, Pow2, Mag, MantissaBits, ExponentBits, SignMask, ExponentMask, MantissaMask, OtherMask, SignBit, MaxExponent;
    AndHigh(Mag(f, x), if x.neg then 1 else 0, 1, SignBit(f));
    OneBit();
  }

  lemma OneBit()
    ensures BitAnd(1, 1) == 1 && BitAnd(0, 1) == 0
  {
  }

  lemma MagBelow(f: Format, x: Float)
    requires IsFloat(f, x)
    ensures Mag(f, x) < Pow2(SignBit(f))
  {
    MaskShapes(f);
    var p := Pow2(MantissaBits(f));
    Pow2Add(ExponentBits(f), MantissaBits(f));
    hide Pow2, MantissaBits, ExponentBits, SignBit, MaxExponent;
    NextMultiple(Pow2(ExponentBits(f)), x.exp, p);
  }

  /** A float is its bits: the masks read back the fields, and every pattern of the width is some float's. */
  lemma FieldsOfRaw(f: Format, x: Float)
    requires IsFloat(f, x)
    ensures Fields(f, Raw(f, x)) == x && Raw(f, x) < 2 * Pow2(SignBit(f))
  {
    Masked(f, x);
    MagBelow(f, x);
    LoweredBack(f, x.exp);
    hide BitAnd, Pow2, Mag, Lowered, ExponentMask, MantissaMask;
  }

  lemma LoweredBack(f: Format, e: nat)
    ensures Lowered(f, e * Pow2(MantissaBits(f))) == e
  {
    MaskShapes(f);
    hide Pow2;
    assert if f.Single? then Pow2(MantissaBits(f)) == 0x0080_0000 else Pow2(MantissaBits(f)) == 0x0010_0000_0000_0000;
  }

  lemma RawOfFields(f: Format, raw: nat)
    requires raw < 2 * Pow2(SignBit(f))
    ensures IsFloat(f, Fields(f, raw)) && Raw(f, Fields(f, raw)) == raw
  {
    var s, p := Pow2(SignBit(f)), Pow2(MantissaBits(f));
    var low := if raw < s then raw else raw - s;
    DivMod(low, p);
    var x := Float(raw >= s, low / p, low % p);
    MaskShapes(f);
    Pow2Add(ExponentBits(f), MantissaBits(f));
    hide Pow2, MantissaBits, ExponentBits, SignBit, MaxExponent, BitAnd;
    if x.exp >= Pow2(ExponentBits(f)) { AtMost(Pow2(ExponentBits(f)), x.exp, p); }
    FieldsOfRaw(f, x);
  }

  // ----- the tests -----

  lemma TestsExact(f: Format, x: Float)
    requires IsFloat(f, x)
    ensures ExponentTest(f, Raw(f, x)) <==> IsNan(f, x) || IsInf(f, x)
    ensures ExponentTest(f, Raw(f, x)) && MantissaTest(f, Raw(f, x)) <==> IsNan(f, x)
  {
    Masked(f, x);
    MaskShapes(f);
    hide BitAnd, Raw, Pow2, ExponentMask, MantissaMask, MantissaBits, MaxExponent;
    NextMultiple(MaxExponent(f), x.exp, Pow2(MantissaBits(f)));
  }

  /** Quieting keeps sign and exponent and leaves the highest bit of the mantissa alone set. */
  lemma QuietExact(f: Format, x: Float)
    requires IsFloat(f, x)
    ensures QuietBits(f, Raw(f, x)) == Raw(f, x.(man := QuietNan(f)))
  {
    Masked(f, x);
    MaskShapes(f);
    RawUpper(f, x.(man := QuietNan(f)));
    hide BitAnd, BitOr, Raw, Pow2, OtherMask, QuietNan, MantissaBits, MaxExponent;
    OrSwapped(Upper(f, x) * Pow2(MantissaBits(f)), QuietNan(f));
    OrDisjoint(QuietNan(f), Upper(f, x), MantissaBits(f));
  }
}

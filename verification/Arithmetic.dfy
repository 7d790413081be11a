/** The laws of the integer operators in terms of numbers (section 4.3.2 of the WebAssembly Core Specification 1.0): what
    wraps differs by a multiple of two to the width, and comparisons compare numbers. */
module Arithmetic {
  import opened Values
  import opened Powers
  import opened Floats
  import opened FloatBits

  function Bits(t: IntTy): nat { if t == I32 then 32 else 64 }

  /** The numbers a width holds, without and with a sign. */
  predicate InUnsigned(t: IntTy, x: int) { 0 <= x < Pow2(Bits(t)) }

  predicate InSigned(t: IntTy, x: int) { 0 <= x + Pow2(Bits(t) - 1) && x < Pow2(Bits(t) - 1) }

  lemma Widths(t: IntTy)
    ensures Modulus(t) == Pow2(Bits(t)) == 2 * Pow2(Bits(t) - 1)
  {
    Powers22();
    Powers51();
    assert Pow2(32) == 2 * Pow2(31) && Pow2(64) == 2 * Pow2(63);
    hide Pow2;
  }

  lemma Euclid(n: int, m: nat) returns (k: int)
    requires m > 0
    ensures n == n % m + k * m && 0 <= n % m < m
  {
    k := n / m;
  }

  /** A pattern is the only one of its width that differs from the number by a multiple of two to the width. */
  lemma Wraps(t: IntTy, n: int) returns (k: int)
    ensures var v := FromInt(t, n); v.ty == t && InUnsigned(t, v.bits) && n == v.bits + k * Pow2(Bits(t))
  {
    Widths(t);
    hide Pow2;
    k := Euclid(n, Modulus(t));
  }

  lemma Unwrapped(t: IntTy, n: int)
    requires InUnsigned(t, n)
    ensures FromInt(t, n) == Val(t, n)
  {
    Widths(t);
    hide Pow2;
  }

  lemma SignedOffset(v: Val) returns (p: int)
    requires v.ty == I32 || v.ty == I64
    ensures Signed(v) == v.bits - p * Pow2(Bits(v.ty))
  {
    Widths(v.ty);
    hide Pow2;
    p := if 2 * v.bits < Modulus(v.ty) then 0 else 1;
  }

  /** Sum, difference and product, of the operands read without a sign or with one. */
  lemma SumLaw(a: Val, b: Val) returns (k: int, j: int)
    requires a.ty == b.ty && (a.ty == I32 || a.ty == I64)
    ensures var r, m := BinSem(Add, a, b), Pow2(Bits(a.ty));
            && r.Value? && r.v.ty == a.ty && InUnsigned(a.ty, r.v.bits)
            && a.bits + b.bits == r.v.bits + k * m && Signed(a) + Signed(b) == r.v.bits + j * m
  {
    var p := SignedOffset(a);
    var q := SignedOffset(b);
    k := Wraps(a.ty, a.bits + b.bits);
    hide Pow2, FromInt, Signed;
    j := k - (p + q);
    Factored(k, p + q, Pow2(Bits(a.ty)));
    Added(p, q, Pow2(Bits(a.ty)));
  }

  lemma DifferenceLaw(a: Val, b: Val) returns (k: int, j: int)
    requires a.ty == b.ty && (a.ty == I32 || a.ty == I64)
    ensures var r, m := BinSem(Sub, a, b), Pow2(Bits(a.ty));
            && r.Value? && r.v.ty == a.ty && InUnsigned(a.ty, r.v.bits)
            && a.bits - b.bits == r.v.bits + k * m && Signed(a) - Signed(b) == r.v.bits + j * m
  {
    var p := SignedOffset(a);
    var q := SignedOffset(b);
    k := Wraps(a.ty, a.bits - b.bits);
    hide Pow2, FromInt, Signed;
    j := k - (p - q);
    Factored(k, p - q, Pow2(Bits(a.ty)));
    Factored(p, q, Pow2(Bits(a.ty)));
  }

  lemma ProductLaw(a: Val, b: Val) returns (k: int, j: int)
    requires a.ty == b.ty && (a.ty == I32 || a.ty == I64)
    ensures var r, m := BinSem(Mul, a, b), Pow2(Bits(a.ty));
            && r.Value? && r.v.ty == a.ty && InUnsigned(a.ty, r.v.bits)
            && a.bits * b.bits == r.v.bits + k * m && Signed(a) * Signed(b) == r.v.bits + j * m
  {
    var p := SignedOffset(a);
    var q := SignedOffset(b);
    k := Wraps(a.ty, a.bits * b.bits);
    hide Pow2, FromInt, Signed;
    var m := Pow2(Bits(a.ty));
    var d := p * b.bits + q * a.bits - p * q * m;
    Shifted(a.bits, p, b.bits, q, m);
    Factored(k, d, m);
    j := k - d;
  }

  lemma Added(k: int, d: int, m: int)
    ensures (k + d) * m == k * m + d * m
  {
  }

  lemma Shifted(x: int, p: int, y: int, q: int, m: int)
    ensures (x - p * m) * (y - q * m) == x * y - (p * y + q * x - p * q * m) * m
  {
  }

  lemma Factored(k: int, d: int, m: int)
    ensures (k - d) * m == k * m - d * m
  {
  }

  /** Unsigned quotient and remainder, and the trap. */
  lemma UnsignedDivisionLaw(a: Val, b: Val)
    requires a.ty == b.ty && (a.ty == I32 || a.ty == I64)
    ensures var q, r := BinSem(DivU, a, b), BinSem(RemU, a, b);
            && (q == NumTrap <==> b.bits == 0) && (r == NumTrap <==> b.bits == 0)
            && (b.bits != 0 ==>
                  && q.Value? && r.Value? && q.v.ty == r.v.ty == a.ty
                  && a.bits == q.v.bits * b.bits + r.v.bits && r.v.bits < b.bits)
  {
    if b.bits != 0 {
      Widths(a.ty);
      hide Pow2;
      DivMod(a.bits, b.bits);
      QuotientSmall(a.bits, b.bits);
      Unwrapped(a.ty, a.bits / b.bits);
      Unwrapped(a.ty, a.bits % b.bits);
    }
  }

  lemma QuotientSmall(x: nat, y: nat)
    requires y > 0
    ensures 0 <= x / y <= x
  {
    DivMod(x, y);
    AtMost(1, y, x / y);
  }

  /** The pattern of a signed number, read back. */
  lemma SignedBack(t: IntTy, x: int)
    requires InSigned(t, x)
    ensures Signed(FromInt(t, x)) == x
  {
    Widths(t);
    hide Pow2;
  }

  /** Comparisons compare the numbers the patterns stand for. */
  lemma SignedComparisons(t: IntTy, x: int, y: int)
    requires InSigned(t, x) && InSigned(t, y)
    ensures var a, b := FromInt(t, x), FromInt(t, y);
            && (Compare(Slt, a, b) <==> x < y) && (Compare(Sle, a, b) <==> x <= y)
            && (Compare(Sgt, a, b) <==> x > y) && (Compare(Sge, a, b) <==> x >= y)
            && (Compare(Eq, a, b) <==> x == y) && (Compare(Ne, a, b) <==> x != y)
  {
    SignedBack(t, x);
    SignedBack(t, y);
    hide FromInt, InSigned;
  }

  lemma UnsignedComparisons(t: IntTy, x: int, y: int)
    requires InUnsigned(t, x) && InUnsigned(t, y)
    ensures var a, b := FromInt(t, x), FromInt(t, y);
            && (Compare(Ult, a, b) <==> x < y) && (Compare(Ule, a, b) <==> x <= y)
            && (Compare(Ugt, a, b) <==> x > y) && (Compare(Uge, a, b) <==> x >= y)
            && (Compare(Eq, a, b) <==> x == y) && (Compare(Ne, a, b) <==> x != y)
  {
    Unwrapped(t, x);
    Unwrapped(t, y);
    hide FromInt;
  }

  /** Every pattern is that of a number in both ranges. */
  lemma Patterns(v: Val) returns (x: int)
    requires v.ty == I32 || v.ty == I64
    ensures InUnsigned(v.ty, v.bits) && FromInt(v.ty, v.bits) == v
    ensures InSigned(v.ty, x) && FromInt(v.ty, x) == v
  {
    Widths(v.ty);
    hide Pow2;
    x := Signed(v);
  }
}

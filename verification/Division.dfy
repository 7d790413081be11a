/** Signed division and remainder: when the quotient overflows, and the division law. */
module Division {
  import opened Values

  lemma SignedRange(v: Val)
    ensures 0 <= 2 * Signed(v) + Modulus(v.ty) < 2 * Modulus(v.ty)
  {
  }

  lemma SignedMin(v: Val)
    requires v.ty == I32 || v.ty == I64
    ensures v == MinSigned(v.ty) <==> 2 * Signed(v) + Modulus(v.ty) == 0
    ensures v == MinusOne(v.ty) <==> Signed(v) == -1
    ensures v.bits == 0 <==> Signed(v) == 0
  {
  }

  /** A division by something other than 0, 1 and -1 at least halves the magnitude. */
  lemma DivHalves(a: nat, b: nat)
    requires b >= 2
    ensures 2 * (a / b) <= a
  {
    var q := a / b;
    assert a == b * q + a % b;
    assert b * q >= 2 * q;
  }

  lemma TruncDivBound(a: int, b: int)
    requires b < -1 || b > 1
    ensures 2 * TruncDiv(a, b) <= (if a >= 0 then a else -a)
  {
    var m, n := if a >= 0 then a else -a, if b > 0 then b else -b;
    DivHalves(m, n);
  }

  /** The one signed quotient that does not fit is the least value divided by minus one. */
  lemma QuotientOverflow(a: Val, b: Val)
    requires a.ty == b.ty && (a.ty == I32 || a.ty == I64) && b.bits != 0
    ensures 2 * TruncDiv(Signed(a), Signed(b)) >= Modulus(a.ty) <==> a == MinSigned(a.ty) && b == MinusOne(a.ty)
    ensures 2 * TruncDiv(Signed(a), Signed(b)) == Modulus(a.ty) <==> a == MinSigned(a.ty) && b == MinusOne(a.ty)
  {
    SignedRange(a);
    SignedMin(a);
    SignedMin(b);
    var x, y := Signed(a), Signed(b);
    if y == 1 {
      assert TruncDiv(x, 1) == x;
    } else if y == -1 {
      assert TruncDiv(x, -1) == -x;
    } else {
      TruncDivBound(x, y);
    }
  }

  lemma RemOfOverflow(t: IntTy)
    ensures TruncRem(Signed(MinSigned(t)), Signed(MinusOne(t))) == 0
  {
    SignedMin(MinusOne(t));
  }

  lemma NatDivLaw(a: nat, b: nat)
    requires b > 0
    ensures 0 <= a - b * (a / b) < b
  {
  }

  lemma MulNeg(x: int, y: int)
    ensures (-x) * y == -(x * y) && x * (-y) == -(x * y) && (-x) * (-y) == x * y
  {
  }

  /** Truncating division: the remainder is smaller than the divisor and has the dividend's sign. */
  lemma TruncLaw(a: int, b: int)
    requires b != 0
    ensures a == b * TruncDiv(a, b) + TruncRem(a, b)
    ensures TruncRem(a, b) != 0 ==> (TruncRem(a, b) > 0 <==> a > 0)
    ensures -(if b > 0 then b else -b) < TruncRem(a, b) < (if b > 0 then b else -b)
  {
    var m, n := if a >= 0 then a else -a, if b > 0 then b else -b;
    NatDivLaw(m, n);
    MulNeg(n, m / n);
  }

  /** A number in the signed range is its own two's complement value. */
  lemma SignedFromInt(t: IntTy, x: int)
    requires 0 <= 2 * x + Modulus(t) < 2 * Modulus(t)
    ensures Signed(FromInt(t, x)) == x
  {
  }

  lemma QuotientRange(a: Val, b: Val)
    requires a.ty == b.ty && (a.ty == I32 || a.ty == I64) && b.bits != 0
    requires 2 * TruncDiv(Signed(a), Signed(b)) < Modulus(a.ty)
    ensures 0 <= 2 * TruncDiv(Signed(a), Signed(b)) + Modulus(a.ty)
    ensures 0 <= 2 * TruncRem(Signed(a), Signed(b)) + Modulus(a.ty) < 2 * Modulus(a.ty)
  {
    var x, y := Signed(a), Signed(b);
    SignedRange(a);
    SignedRange(b);
    SignedMin(b);
    TruncLaw(x, y);
    QuotientBelow(x, y);
    hide TruncDiv, TruncRem, Signed;
  }

  lemma QuotientBelow(x: int, y: int)
    requires y != 0
    ensures var m := if x >= 0 then x else -x; -m <= TruncDiv(x, y) <= m
  {
    var m, n := if x >= 0 then x else -x, if y > 0 then y else -y;
    NatQuotient(m, n);
  }

  lemma NatQuotient(m: nat, n: nat)
    requires n > 0
    ensures 0 <= m / n <= m
  {
    NatDivLaw(m, n);
    AtLeast(n, m / n);
  }

  lemma AtLeast(n: nat, q: int)
    requires n > 0
    ensures q >= 0 ==> n * q >= q
    ensures q < 0 ==> n * q < 0
  {
  }

  function Absolute(b: int): int { if b < 0 then -b else b }

  /** The law of signed division, at both widths: where neither traps, the operands are put together again from
      quotient and remainder, the remainder is smaller than the divisor and has the sign of the dividend. A zero
      divisor traps both; the one quotient that does not fit traps the division alone, and its remainder is zero. */
  lemma SignedDivisionLaw(a: Val, b: Val)
    requires a.ty == b.ty && (a.ty == I32 || a.ty == I64)
    ensures var t, q, r := a.ty, BinSem(DivS, a, b), BinSem(RemS, a, b);
            && (q == NumTrap <==> b.bits == 0 || (a == MinSigned(t) && b == MinusOne(t)))
            && (r == NumTrap <==> b.bits == 0)
            && (a == MinSigned(t) && b == MinusOne(t) ==> r == Value(Zero(t)))
            && (q.Value? ==>
                  && r.Value? && Signed(a) == Signed(b) * Signed(q.v) + Signed(r.v)
                  && (Signed(r.v) != 0 ==> (Signed(r.v) > 0 <==> Signed(a) > 0))
                  && Signed(r.v) < Absolute(Signed(b)) && Signed(r.v) + Absolute(Signed(b)) > 0)
  {
    var t := a.ty;
    SignedMin(a);
    SignedMin(b);
    RemOfOverflow(t);
    if b.bits != 0 {
      QuotientOverflow(a, b);
      TruncLaw(Signed(a), Signed(b));
      if 2 * TruncDiv(Signed(a), Signed(b)) < Modulus(t) {
        QuotientRange(a, b);
        SignedFromInt(t, TruncDiv(Signed(a), Signed(b)));
        SignedFromInt(t, TruncRem(Signed(a), Signed(b)));
      }
    }
    hide TruncDiv, TruncRem, Signed, FromInt, MinSigned, MinusOne;
  }
}

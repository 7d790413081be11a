/** Machine values, the integer operators of the WebAssembly Core Specification 1.0 (section 4.3.2)
    and the LLVM operators that the translator emits for them. */
module Values {

  datatype Option<+T> = None | Some(value: T) {
    predicate IsFailure() { None? }

    function PropagateFailure<U>(): Option<U>
      requires None?
    {
      None
    }

    function Extract(): T
      requires Some?
    {
      value
    }
  }

  /** I1 is the type of LLVM conditions; the other four are the WebAssembly value types. */
  datatype Ty = I1 | I32 | I64 | F32 | F64

  type WTy = t: Ty | t != I1 witness I32

  type IntTy = t: Ty | t == I32 || t == I64 witness I32

  type BlockType = Option<WTy>

  function Modulus(t: Ty): nat {
    match t
    case I1 => 2
    case I32 => 0x1_0000_0000
    case F32 => 0x1_0000_0000
    case I64 => 0x1_0000_0000_0000_0000
    case F64 => 0x1_0000_0000_0000_0000
  }

  datatype RawVal = Val(ty: Ty, bits: nat)

  /** A value is its bit pattern, read as an unsigned number below two to its width. */
  type Val = v: RawVal | v.bits < Modulus(v.ty) witness RawVal.Val(I32, 0)

  function Zero(t: Ty): (v: Val)
    ensures v.ty == t
  {
    Val(t, 0)
  }

  function Signed(v: Val): int {
    if 2 * v.bits < Modulus(v.ty) then v.bits else v.bits - Modulus(v.ty)
  }

  function FromInt(t: Ty, n: int): Val { Val(t, n % Modulus(t)) }

  function FromBool(b: bool): (v: Val)
    ensures v.ty == I1
  {
    Val(I1, if b then 1 else 0)
  }

  /** Division truncating toward zero, as both instruction sets define it. */
  function TruncDiv(a: int, b: int): int
    requires b != 0
  {
    if a >= 0 then (if b > 0 then a / b else -(a / -b))
    else (if b > 0 then -((-a) / b) else (-a) / (-b))
  }

  function TruncRem(a: int, b: int): int
    requires b != 0
  {
    a - b * TruncDiv(a, b)
  }

  datatype Pred = Eq | Ne | Ult | Ule | Ugt | Uge | Slt | Sle | Sgt | Sge

  predicate Compare(p: Pred, a: Val, b: Val) {
    match p
    case Eq => a.bits == b.bits
    case Ne => a.bits != b.bits
    case Ult => a.bits < b.bits
    case Ule => a.bits <= b.bits
    case Ugt => a.bits > b.bits
    case Uge => a.bits >= b.bits
    case Slt => Signed(a) < Signed(b)
    case Sle => Signed(a) <= Signed(b)
    case Sgt => Signed(a) > Signed(b)
    case Sge => Signed(a) >= Signed(b)
  }

  // ----- WebAssembly -----

  datatype BinOp = Add | Sub | Mul | DivU | DivS | RemU | RemS

  datatype NumOp = Arith(t: IntTy, op: BinOp) | Rel(rt: IntTy, rel: Pred) | Eqz(zt: IntTy)

  datatype NumResult = Value(v: Val) | NumTrap | NumStuck

  /** The partial integer operators of section 4.3.2: an undefined result is a trap. */
  function BinSem(op: BinOp, a: Val, b: Val): NumResult
    requires a.ty == b.ty
  {
    var t := a.ty;
    match op
    case Add => Value(FromInt(t, a.bits + b.bits))
    case Sub => Value(FromInt(t, a.bits - b.bits))
    case Mul => Value(FromInt(t, a.bits * b.bits))
    case DivU => if b.bits == 0 then NumTrap else Value(FromInt(t, a.bits / b.bits))
    case RemU => if b.bits == 0 then NumTrap else Value(FromInt(t, a.bits % b.bits))
    case DivS =>
      if b.bits == 0 || 2 * TruncDiv(Signed(a), Signed(b)) == Modulus(t) then NumTrap
      else Value(FromInt(t, TruncDiv(Signed(a), Signed(b))))
    case RemS => if b.bits == 0 then NumTrap else Value(FromInt(t, TruncRem(Signed(a), Signed(b))))
  }

  // ----- LLVM -----

  datatype LOp = LAdd | LSub | LMul | LUDiv | LSDiv | LURem | LSRem | LCmp(p: Pred) | LAnd | LOr

  /** None is LLVM's undefined behaviour: a division by zero, a signed quotient or remainder that
      overflows, or operands of the wrong type. */
  function LBin(op: LOp, a: Val, b: Val): Option<Val> {
    if a.ty != b.ty then None
    else
      var t := a.ty;
      match op
      case LAdd => Some(FromInt(t, a.bits + b.bits))
      case LSub => Some(FromInt(t, a.bits - b.bits))
      case LMul => Some(FromInt(t, a.bits * b.bits))
      case LUDiv => if b.bits == 0 then None else Some(FromInt(t, a.bits / b.bits))
      case LURem => if b.bits == 0 then None else Some(FromInt(t, a.bits % b.bits))
      case LSDiv =>
        if b.bits == 0 || 2 * TruncDiv(Signed(a), Signed(b)) >= Modulus(t) then None
        else Some(FromInt(t, TruncDiv(Signed(a), Signed(b))))
      case LSRem =>
        if b.bits == 0 || 2 * TruncDiv(Signed(a), Signed(b)) >= Modulus(t) then None
        else Some(FromInt(t, TruncRem(Signed(a), Signed(b))))
      case LCmp(p) => Some(FromBool(Compare(p, a, b)))
      case LAnd => if t == I1 then Some(FromBool(a.bits == 1 && b.bits == 1)) else None
      case LOr => if t == I1 then Some(FromBool(a.bits == 1 || b.bits == 1)) else None
  }

  function LResultTy(op: LOp, t: Ty): Ty {
    if op.LCmp? || op.LAnd? || op.LOr? then I1 else t
  }

  /** The least signed value of a width, and minus one, as bit patterns. */
  function MinSigned(t: Ty): (v: Val)
    ensures v.ty == t
  {
    FromInt(t, Modulus(t) / 2)
  }

  function MinusOne(t: Ty): (v: Val)
    ensures v.ty == t
  {
    FromInt(t, -1)
  }
}

/** Structured function bodies, their flat token form, their validation and their execution, after the
    WebAssembly Core Specification 1.0 (sections 3.3.5 and 4.4). */
module Wasm {
  import opened Values

  /** Instructions without a nested body. Label indices count outward from the innermost label. */
  datatype Simple =
    | INop | IDrop | ISelect | IUnreachable | IReturn
    | IConst(v: WVal)
    | IGetLocal(x: nat) | ISetLocal(x: nat) | ITeeLocal(x: nat)
    | INum(op: NumOp)
    | IBr(n: nat) | IBrIf(n: nat) | IBrTable(ns: seq<nat>, d: nat)

  type WVal = v: RawVal | v.bits < Modulus(v.ty) && v.ty != I1 witness RawVal.Val(I32, 0)

  datatype Code =
    | Done
    | Plain(i: Simple, next: Code)
    | Block(bt: BlockType, body: Code, next: Code)
    | Loop(bt: BlockType, body: Code, next: Code)
    | IfElse(bt: BlockType, thn: Code, els: Code, next: Code)
    | IfOnly(bt: BlockType, thn: Code, next: Code)

  datatype Tok = TPlain(i: Simple) | TBlock(bt: BlockType) | TLoop(bt: BlockType) | TIf(bt: BlockType) | TElse | TEnd

  /** The token sequence of a body, as the binary format orders it, without the closing end. */
  function Flatten(c: Code): seq<Tok> {
    match c
    case Done => []
    case Plain(i, next) => [TPlain(i)] + Flatten(next)
    case Block(bt, body, next) => [TBlock(bt)] + Flatten(body) + [TEnd] + Flatten(next)
    case Loop(bt, body, next) => [TLoop(bt)] + Flatten(body) + [TEnd] + Flatten(next)
    case IfElse(bt, thn, els, next) =>
      [TIf(bt)] + Flatten(thn) + [TElse] + Flatten(els) + [TEnd] + Flatten(next)
    case IfOnly(bt, thn, next) => [TIf(bt)] + Flatten(thn) + [TEnd] + Flatten(next)
  }

  /** locals lists parameters and then declared locals. */
  datatype Func = Func(params: seq<WTy>, extra: seq<WTy>, ret: BlockType, body: Code)

  function Locals(f: Func): seq<WTy> { f.params + f.extra }

  // ----- validation -----

  /** An operand type during validation; Unknown only appears in unreachable code. */
  datatype OTy = Known(t: Ty) | Unknown

  /** The operands above the height of the current frame, and whether the frame is unreachable. */
  datatype Opds = Opds(vals: seq<OTy>, dead: bool)

  /** labels lists the label types from the outermost (the function's result) inward. */
  datatype Ctx = Ctx(locals: seq<WTy>, labels: seq<BlockType>)

  function PopAny(s: Opds): Option<(OTy, Opds)> {
    if s.vals == [] then (if s.dead then Some((Unknown, s)) else None)
    else Some((s.vals[|s.vals| - 1], s.(vals := s.vals[..|s.vals| - 1])))
  }

  function PopTy(s: Opds, t: Ty): Option<Opds> {
    var (o, r) :- PopAny(s);
    if o == Known(t) || o == Unknown then Some(r) else None
  }

  function PushTy(s: Opds, t: Ty): Opds { s.(vals := s.vals + [Known(t)]) }

  function PopBt(s: Opds, bt: BlockType): Option<Opds> {
    if bt.None? then Some(s) else PopTy(s, bt.value)
  }

  function PushBt(s: Opds, bt: BlockType): Opds {
    if bt.None? then s else PushTy(s, bt.value)
  }

  const DEAD := Opds([], true)
  const EMPTY := Opds([], false)

  function LabelTy(ctx: Ctx, n: nat): Option<BlockType> {
    if n < |ctx.labels| then Some(ctx.labels[|ctx.labels| - 1 - n]) else None
  }

  predicate AllLabels(ctx: Ctx, ns: seq<nat>, bt: BlockType) {
    forall k :: 0 <= k < |ns| ==> LabelTy(ctx, ns[k]) == Some(bt)
  }

  function CheckNum(op: NumOp, s: Opds): Option<Opds> {
    match op
    case Arith(t, _) => var s1 :- PopTy(s, t); var s2 :- PopTy(s1, t); Some(PushTy(s2, t))
    case Rel(t, _) => var s1 :- PopTy(s, t); var s2 :- PopTy(s1, t); Some(PushTy(s2, I32))
    case Eqz(t) => var s1 :- PopTy(s, t); Some(PushTy(s1, I32))
  }

  function CheckSimple(ctx: Ctx, i: Simple, s: Opds): Option<Opds> {
    match i
    case INop => Some(s)
    case IDrop => var r :- PopAny(s); Some(r.1)
    case ISelect =>
      var s1 :- PopTy(s, I32);
      var r2 :- PopAny(s1);
      var r3 :- PopAny(r2.1);
      if r2.0 == r3.0 || r3.0 == Unknown then Some(r3.1.(vals := r3.1.vals + [r2.0]))
      else if r2.0 == Unknown then Some(r3.1.(vals := r3.1.vals + [r3.0]))
      else None
    case IUnreachable => Some(DEAD)
    case IReturn =>
      if |ctx.labels| == 0 then None
      else var s1 :- PopBt(s, ctx.labels[0]); Some(DEAD)
    case IConst(v) => Some(PushTy(s, v.ty))
    case IGetLocal(x) => if x < |ctx.locals| then Some(PushTy(s, ctx.locals[x])) else None
    case ISetLocal(x) => if x < |ctx.locals| then PopTy(s, ctx.locals[x]) else None
    case ITeeLocal(x) =>
      if x < |ctx.locals| then var s1 :- PopTy(s, ctx.locals[x]); Some(PushTy(s1, ctx.locals[x]))
      else None
    case INum(op) => CheckNum(op, s)
    case IBr(n) =>
      var bt :- LabelTy(ctx, n);
      var s1 :- PopBt(s, bt);
      Some(DEAD)
    case IBrIf(n) =>
      var s1 :- PopTy(s, I32);
      var bt :- LabelTy(ctx, n);
      var s2 :- PopBt(s1, bt);
      Some(PushBt(s2, bt))
    case IBrTable(ns, d) =>
      var s1 :- PopTy(s, I32);
      var bt :- LabelTy(ctx, d);
      if !AllLabels(ctx, ns, bt) then None
      else var s2 :- PopBt(s1, bt); Some(DEAD)
  }

  /** A frame may end when exactly its result is left above its floor. */
  predicate Ends(s: Opds, bt: BlockType) {
    PopBt(s, bt).Some? && PopBt(s, bt).value.vals == []
  }

  function Inner(ctx: Ctx, bt: BlockType): Ctx { ctx.(labels := ctx.labels + [bt]) }

  /** The validation algorithm on a structured body. */
  function Check(ctx: Ctx, c: Code, s: Opds): Option<Opds>
    decreases c
  {
    match c
    case Done => Some(s)
    case Plain(i, next) => var s1 :- CheckSimple(ctx, i, s); Check(ctx, next, s1)
    case Block(bt, body, next) =>
      var e :- Check(Inner(ctx, bt), body, EMPTY);
      if Ends(e, bt) then Check(ctx, next, PushBt(s, bt)) else None
    case Loop(bt, body, next) =>
      var e :- Check(Inner(ctx, None), body, EMPTY);
      if Ends(e, bt) then Check(ctx, next, PushBt(s, bt)) else None
    case IfElse(bt, thn, els, next) =>
      var s1 :- PopTy(s, I32);
      var e :- Check(Inner(ctx, bt), thn, EMPTY);
      var e2 :- Check(Inner(ctx, bt), els, EMPTY);
      if Ends(e, bt) && Ends(e2, bt) then Check(ctx, next, PushBt(s1, bt)) else None
    case IfOnly(bt, thn, next) =>
      var s1 :- PopTy(s, I32);
      var e :- Check(Inner(ctx, bt), thn, EMPTY);
      if Ends(e, bt) && bt.None? then Check(ctx, next, s1) else None
  }

  predicate Valid(f: Func) {
    var r := Check(Ctx(Locals(f), [f.ret]), f.body, EMPTY);
    r.Some? && Ends(r.value, f.ret)
  }

  // ----- execution -----

  /** How a body ends. Branch carries the operand stack at the branch; OutOfFuel means that a loop
      went round more often than the fuel allows; Crash never happens in a valid body. */
  datatype Outcome =
    | Next(stack: seq<Val>, locals: seq<Val>)
    | Branch(n: nat, bstack: seq<Val>, blocals: seq<Val>)
    | Return(rstack: seq<Val>, rlocals: seq<Val>)
    | Trap(tlocals: seq<Val>)
    | OutOfFuel
    | Crash

  function Last<T>(s: seq<T>): T
    requires s != []
  {
    s[|s| - 1]
  }

  function Front<T>(s: seq<T>): seq<T>
    requires s != []
  {
    s[..|s| - 1]
  }

  function ExecNum(op: NumOp, stack: seq<Val>, locals: seq<Val>): Outcome {
    if stack == [] then Crash
    else
      var b, rest := Last(stack), Front(stack);
      match op
      case Eqz(t) => if b.ty == t then Next(rest + [Val(I32, if b.bits == 0 then 1 else 0)], locals) else Crash
      case Rel(t, r) =>
        if rest == [] || Last(rest).ty != t || b.ty != t then Crash
        else Next(Front(rest) + [Val(I32, if Compare(r, Last(rest), b) then 1 else 0)], locals)
      case Arith(t, o) =>
        if rest == [] || Last(rest).ty != t || b.ty != t then Crash
        else
          match BinSem(o, Last(rest), b)
          case Value(v) => Next(Front(rest) + [v], locals)
          case NumTrap => Trap(locals)
          case NumStuck => Crash
  }

  function ExecSimple(i: Simple, stack: seq<Val>, locals: seq<Val>): Outcome {
    match i
    case INop => Next(stack, locals)
    case IDrop => if stack == [] then Crash else Next(Front(stack), locals)
    case ISelect =>
      if |stack| < 3 || Last(stack).ty != I32 then Crash
      else
        var c, v2, v1 := stack[|stack| - 1], stack[|stack| - 2], stack[|stack| - 3];
        Next(stack[..|stack| - 3] + [if c.bits != 0 then v1 else v2], locals)
    case IUnreachable => Trap(locals)
    case IReturn => Return(stack, locals)
    case IConst(v) => Next(stack + [v], locals)
    case IGetLocal(x) => if x < |locals| then Next(stack + [locals[x]], locals) else Crash
    case ISetLocal(x) =>
      if stack == [] || x >= |locals| || Last(stack).ty != locals[x].ty then Crash
      else Next(Front(stack), locals[x := Last(stack)])
    case ITeeLocal(x) =>
      if stack == [] || x >= |locals| || Last(stack).ty != locals[x].ty then Crash
      else Next(stack, locals[x := Last(stack)])
    case INum(op) => ExecNum(op, stack, locals)
    case IBr(n) => Branch(n, stack, locals)
    case IBrIf(n) =>
      if stack == [] || Last(stack).ty != I32 then Crash
      else if Last(stack).bits != 0 then Branch(n, Front(stack), locals)
      else Next(Front(stack), locals)
    case IBrTable(ns, d) =>
      if stack == [] || Last(stack).ty != I32 then Crash
      else
        var k := Last(stack).bits;
        Branch(if k < |ns| then ns[k] else d, Front(stack), locals)
  }

  /** What a branch to a label leaves: the stack at the label's entry and the label's result. */
  function Unwind(entry: seq<Val>, bt: BlockType, stack: seq<Val>): Option<seq<Val>> {
    if bt.None? then Some(entry)
    else if stack == [] || Last(stack).ty != bt.value then None
    else Some(entry + [Last(stack)])
  }

  /** What the end of a block makes of its body's outcome: a branch to its label continues after it. */
  function CatchBlock(entry: seq<Val>, bt: BlockType, r: Outcome): Outcome {
    match r
    case Branch(n, st, lo) =>
      if n > 0 then Branch(n - 1, st, lo)
      else
        (match Unwind(entry, bt, st)
         case None => Crash
         case Some(st') => Next(st', lo))
    case _ => r
  }

  function Exec(c: Code, fuel: nat, stack: seq<Val>, locals: seq<Val>): Outcome
    decreases fuel, c
  {
    match c
    case Done => Next(stack, locals)
    case Plain(i, next) =>
      var r := ExecSimple(i, stack, locals);
      if r.Next? then Exec(next, fuel, r.stack, r.locals) else r
    case Block(bt, body, next) =>
      var r := CatchBlock(stack, bt, Exec(body, fuel, stack, locals));
      if r.Next? then Exec(next, fuel, r.stack, r.locals) else r
    case Loop(_, body, next) =>
      var r := Exec(body, fuel, stack, locals);
      if r.Next? then Exec(next, fuel, r.stack, r.locals)
      else if r.Branch? && r.n == 0 then
        if fuel == 0 then OutOfFuel else Exec(c, fuel - 1, stack, r.blocals)
      else if r.Branch? then r.(n := r.n - 1)
      else r
    case IfElse(bt, thn, els, next) =>
      if stack == [] || Last(stack).ty != I32 then Crash
      else
        var rest := Front(stack);
        var b := if Last(stack).bits != 0 then Exec(thn, fuel, rest, locals) else Exec(els, fuel, rest, locals);
        var r := CatchBlock(rest, bt, b);
        if r.Next? then Exec(next, fuel, r.stack, r.locals) else r
    case IfOnly(bt, thn, next) =>
      if stack == [] || Last(stack).ty != I32 then Crash
      else
        var rest := Front(stack);
        var b := if Last(stack).bits != 0 then Exec(thn, fuel, rest, locals) else Next(rest, locals);
        var r := CatchBlock(rest, bt, b);
        if r.Next? then Exec(next, fuel, r.stack, r.locals) else r
  }

  datatype Result = Ok(v: Option<Val>, locals: seq<Val>) | Trapping(tlocals: seq<Val>) | Diverging | Bad

  function Finish(ret: BlockType, stack: seq<Val>, locals: seq<Val>): Result {
    match Unwind([], ret, stack)
    case None => Bad
    case Some(s) => Ok(if s == [] then None else Some(s[0]), locals)
  }

  /** A call: parameters, then the declared locals at zero; a branch to the outermost label returns. */
  function Invoke(f: Func, args: seq<Val>, fuel: nat): Result {
    var locals := args + seq(|f.extra|, i requires 0 <= i < |f.extra| => Zero(f.extra[i]));
    match Exec(f.body, fuel, [], locals)
    case Next(st, lo) => Finish(f.ret, st, lo)
    case Branch(n, st, lo) => if n == 0 then Finish(f.ret, st, lo) else Bad
    case Return(st, lo) => Finish(f.ret, st, lo)
    case Trap(lo) => Trapping(lo)
    case OutOfFuel => Diverging
    case Crash => Bad
  }
}
